/**
 * The length quantity of src/length/value.rs: a reading plus its unit, an
 * infallible constructor, and the two halves of the conversion contract that
 * pivot through Meters. The program's error type for lengths has no values, so
 * every operation here returns its result directly.
 */
module LengthValue {
  import opened LengthUnit

  /** A reading in `unit`. */
  datatype Length = Length(value: real, unit: Unit)

  /** Reference definition: how many meters one of the unit spans. */
  function MetersPer(u: Unit): (r: real)
    ensures r > 0.0
  {
    match u
    case Meters => 1.0
    case Kilometers => 1000.0
    case Centimeters => 0.01
    case Inches => 0.0254
    case Feet => 0.3048
  }

  /** The constructor accepts every reading and stores it as given. */
  function New(value: real, unit: Unit): (r: Length)
    ensures r.value == value && r.unit == unit
  {
    Length(value, unit)
  }

  /** Expresses `x` in Meters; a Meters reading comes back unchanged. */
  function ToCanonical(x: Length): (r: Length)
    ensures r.unit == Meters
    ensures r.value == x.value * MetersPer(x.unit)
    ensures x.unit == Meters ==> r == x
  {
    var value :=
      match x.unit
      case Meters => x.value
      case Kilometers => x.value * 1000.0
      case Centimeters => x.value / 100.0
      case Inches => x.value * 0.0254
      case Feet => x.value * 0.3048;
    New(value, Meters)
  }

  /**
   * Expresses the Meters reading `canon.value` in `target`; the unit stored in
   * `canon` is not consulted. Scaled back to meters, the result is `canon.value`.
   */
  function FromCanonical(canon: Length, target: Unit): (r: Length)
    ensures r.unit == target
    ensures r.value * MetersPer(target) == canon.value
    ensures target == Meters ==> r.value == canon.value
  {
    var value :=
      match target
      case Meters => canon.value
      case Kilometers => canon.value / 1000.0
      case Centimeters => canon.value * 100.0
      case Inches => canon.value / 0.0254
      case Feet => canon.value / 0.3048;
    New(value, target)
  }

  /** The composition of the two conversion operations: to Meters, then out to `target`. */
  function Convert(x: Length, target: Unit): (r: Length)
    ensures r.unit == target
    ensures r.value * MetersPer(target) == x.value * MetersPer(x.unit)
  {
    FromCanonical(ToCanonical(x), target)
  }

  /** Converts `x` to each unit of `path` in turn, feeding each result to the next step. */
  function ConvertAlong(x: Length, path: seq<Unit>): Length
    decreases |path|
  {
    if |path| == 0 then x else ConvertAlong(Convert(x, path[0]), path[1..])
  }

  /** Converting to Meters twice is the same as converting once. */
  lemma ToCanonicalIdempotent(x: Length)
    ensures ToCanonical(ToCanonical(x)) == ToCanonical(x)
  {
  }

  /** `FromCanonical` reads only the value of its canonical argument. */
  lemma FromCanonicalIgnoresUnit(a: Length, b: Length, target: Unit)
    requires a.value == b.value
    ensures FromCanonical(a, target) == FromCanonical(b, target)
  {
  }

  /** To Meters and back to the original unit restores the original reading exactly. */
  lemma RoundTrip(x: Length)
    ensures FromCanonical(ToCanonical(x), x.unit) == x
  {
  }

  /** From Meters out to any unit and back recovers the Meters reading. */
  lemma ReverseRoundTrip(canon: Length, target: Unit)
    ensures ToCanonical(FromCanonical(canon, target)) == Length(canon.value, Meters)
  {
  }

  /** 1.3 km is 1300 m, and 1300 m is 1.3 km. */
  lemma KilometersExample()
    ensures ToCanonical(Length(1.3, Kilometers)) == Length(1300.0, Meters)
    ensures FromCanonical(Length(1300.0, Meters), Kilometers) == Length(1.3, Kilometers)
  {
  }

  /** Converting a converted reading again is the same as converting the original directly. */
  lemma ConvertTwice(x: Length, via: Unit, target: Unit)
    ensures Convert(Convert(x, via), target) == Convert(x, target)
  {
  }

  /** Derived path independence: a chain of conversions ends where a single conversion to its last unit would. */
  lemma {:induction false} ConvertAlongIsDirect(x: Length, path: seq<Unit>)
    requires |path| > 0
    ensures ConvertAlong(x, path) == Convert(x, path[|path| - 1])
    decreases |path|
  {
    if |path| > 1 {
      ConvertAlongIsDirect(Convert(x, path[0]), path[1..]);
      ConvertTwice(x, path[0], path[|path| - 1]);
    }
  }
}
