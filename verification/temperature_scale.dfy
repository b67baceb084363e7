/**
 * A reference description of the three temperature scales, independent of the
 * program's formula tables: each scale is fixed by where absolute zero lies on it
 * and by how many kelvins one of its degrees spans.
 */
module TemperatureScale {
  import opened TemperatureUnit

  /** The reading of absolute zero on each unit's scale. */
  function AbsoluteZero(u: Unit): real
  {
    match u
    case Fahrenheit => -459.67
    case Celsius => -273.15
    case Kelvin => 0.0
  }

  /** How many kelvins one degree of the unit spans. */
  function KelvinsPerDegree(u: Unit): (r: real)
    ensures r > 0.0
  {
    match u
    case Fahrenheit => 5.0 / 9.0
    case Celsius => 1.0
    case Kelvin => 1.0
  }

  /** The absolute temperature, in kelvins, of the reading `v` on the scale of `u`. */
  function Kelvins(v: real, u: Unit): (k: real)
    ensures k >= 0.0 <==> v >= AbsoluteZero(u)
    ensures u == Kelvin ==> k == v
  {
    (v - AbsoluteZero(u)) * KelvinsPerDegree(u)
  }

  /** The reading on the scale of `u` of an absolute temperature of `k` kelvins. */
  function Reading(k: real, u: Unit): (v: real)
    ensures Kelvins(v, u) == k
    ensures u == Kelvin ==> v == k
  {
    k / KelvinsPerDegree(u) + AbsoluteZero(u)
  }

  /** A reading is determined by the absolute temperature it denotes. */
  lemma ReadingOfKelvins(v: real, u: Unit)
    ensures Reading(Kelvins(v, u), u) == v
  {
  }
}
