/**
 * The original, unchecked temperature code of src/main.rs: construction never
 * fails and the conversions may produce negative Kelvin readings. The formula
 * tables are the same as in the checked versions.
 */
module UncheckedTemperature {
  import opened Results
  import opened TemperatureUnit
  import opened TemperatureScale
  import TemperatureValue

  type Temperature = TemperatureValue.Temperature

  /** The unchecked constructor: stores both fields as given, with no absolute-zero check. */
  function New(value: real, unit: Unit): (r: Temperature)
    ensures r.value == value && r.unit == unit
  {
    TemperatureValue.Temperature(value, unit)
  }

  /** Expresses `tmp` in Kelvin, negative results included; a Kelvin reading comes back unchanged. */
  function ToKelvin(tmp: Temperature): (r: Temperature)
    ensures r.unit == Kelvin && r.value == Kelvins(tmp.value, tmp.unit)
    ensures tmp.unit == Kelvin ==> r == tmp
  {
    var value :=
      match tmp.unit
      case Celsius => tmp.value + 273.15
      case Fahrenheit => (tmp.value - 32.0) * (5.0 / 9.0) + 273.15
      case Kelvin => tmp.value;
    New(value, Kelvin)
  }

  /** Expresses the Kelvin reading `tmp.value` in `target`; a Kelvin target keeps the reading. */
  function FromKelvin(tmp: Temperature, target: Unit): (r: Temperature)
    ensures r.unit == target && Kelvins(r.value, target) == tmp.value
    ensures target == Kelvin ==> r.value == tmp.value
  {
    var value :=
      match target
      case Celsius => tmp.value - 273.15
      case Fahrenheit => (tmp.value - 273.15) * (9.0 / 5.0) + 32.0
      case Kelvin => tmp.value;
    New(value, target)
  }

  /**
   * The program's pivot (src/main.rs:107-108): to Kelvin, then out to `target`.
   * It never fails and preserves the absolute temperature, even below absolute zero.
   */
  function Convert(tmp: Temperature, target: Unit): (r: Temperature)
    ensures r.unit == target
    ensures Kelvins(r.value, target) == Kelvins(tmp.value, tmp.unit)
  {
    FromKelvin(ToKelvin(tmp), target)
  }

  /** This file's label table is the one of src/temperature/unit.rs. */
  function Name(u: Unit): (r: string)
    ensures r == TemperatureUnit.Name(u)
  {
    match u
    case Fahrenheit => "Fahrenheit"
    case Celsius => "Celsius"
    case Kelvin => "Kelvin"
  }

  /** This file's symbol table is the one of src/temperature/unit.rs. */
  function Symbol(u: Unit): (r: string)
    ensures r == TemperatureUnit.Symbol(u)
  {
    match u
    case Fahrenheit => "°F"
    case Celsius => "°C"
    case Kelvin => "°K"
  }

  /** Without the check, a reading below absolute zero yields a negative Kelvin reading. */
  lemma ToKelvinCanGoNegative()
    ensures ToKelvin(New(-300.0, Celsius)).value < 0.0
  {
  }

  /**
   * Where the unchecked pivot accepts a reading below absolute zero, the checked
   * composition of `to_canonical` and `from_canonical` rejects it.
   */
  lemma UncheckedPivotDiffersBelowZero()
    ensures Convert(New(-300.0, Celsius), Celsius) == New(-300.0, Celsius)
    ensures TemperatureValue.Convert(New(-300.0, Celsius), Celsius).Err?
  {
  }

  /** To Kelvin and back to the original unit restores the original reading exactly. */
  lemma RoundTrip(tmp: Temperature)
    ensures FromKelvin(ToKelvin(tmp), tmp.unit) == tmp
  {
  }

  /** 13 °C is 286.15 K and 13 °F is about 262.594 K, within the tests' 0.01 tolerance. */
  lemma ToKelvinExamples()
    ensures ToKelvin(New(13.0, Celsius)).value == 286.15
    ensures -0.01 < ToKelvin(New(13.0, Fahrenheit)).value - 262.594 < 0.01
  {
  }

  /** 286.15 K is 13 °C and 262.594 K is about 13 °F, within the tests' 0.01 tolerance. */
  lemma FromKelvinExamples()
    ensures FromKelvin(New(286.15, Kelvin), Celsius).value == 13.0
    ensures -0.01 < FromKelvin(New(262.594, Kelvin), Fahrenheit).value - 13.0 < 0.01
  {
  }

  /**
   * The checked conversions fail exactly where the unchecked ones produce a
   * negative Kelvin reading, and otherwise compute the same values.
   */
  lemma CheckedAgreesWithUnchecked(tmp: Temperature, target: Unit)
    ensures TemperatureValue.ToCanonical(tmp).Ok? <==> ToKelvin(tmp).value >= 0.0
    ensures TemperatureValue.ToCanonical(tmp).Ok? ==> TemperatureValue.ToCanonical(tmp).value == ToKelvin(tmp)
    ensures TemperatureValue.FromCanonical(tmp, target).Err? <==>
      target == Kelvin && FromKelvin(tmp, target).value < 0.0
    ensures TemperatureValue.FromCanonical(tmp, target).Ok? ==>
      TemperatureValue.FromCanonical(tmp, target).value == FromKelvin(tmp, target)
  {
  }
}
