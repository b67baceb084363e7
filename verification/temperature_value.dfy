/**
 * The checked temperature quantity of src/temperature/value.rs: a reading plus
 * its unit, a validating constructor, and the two halves of the conversion
 * contract that pivot through Kelvin.
 */
module TemperatureValue {
  import opened Results
  import opened TemperatureUnit
  import opened TemperatureErrors
  import opened TemperatureScale

  /** A reading on the scale of `unit`. */
  datatype Temperature = Temperature(value: real, unit: Unit)

  /** What the constructor guarantees: a Kelvin reading is never negative; other units are not range-checked. */
  predicate Valid(t: Temperature)
  {
    t.unit == Kelvin ==> t.value >= 0.0
  }

  /** True when the reading is at or above absolute zero on its own scale. */
  predicate Physical(t: Temperature)
  {
    t.value >= AbsoluteZero(t.unit)
  }

  /** The validating constructor: rejects exactly the negative Kelvin readings. */
  function New(value: real, unit: Unit): (r: Result<Temperature, TemperatureError>)
    ensures r.Ok? <==> Valid(Temperature(value, unit))
    ensures r.Ok? ==> r.value == Temperature(value, unit)
    ensures r.Err? ==> r.error == BelowAbsoluteZero
  {
    if unit == Kelvin && value < 0.0 then
      Err(BelowAbsoluteZero)
    else
      Ok(Temperature(value, unit))
  }

  /**
   * Expresses `t` in Kelvin. It fails exactly when the reading lies below
   * absolute zero on its own scale; a valid Kelvin reading comes back unchanged.
   */
  function ToCanonical(t: Temperature): (r: Result<Temperature, TemperatureError>)
    ensures r.Ok? <==> Physical(t)
    ensures r.Ok? ==> r.value == Temperature(Kelvins(t.value, t.unit), Kelvin) && Valid(r.value)
    ensures r.Err? ==> r.error == BelowAbsoluteZero
    ensures t.unit == Kelvin && Valid(t) ==> r == Ok(t)
  {
    var value :=
      match t.unit
      case Celsius => t.value + 273.15
      case Fahrenheit => (t.value - 32.0) * (5.0 / 9.0) + 273.15
      case Kelvin => t.value;
    New(value, Kelvin)
  }

  /**
   * Expresses the Kelvin reading `canon.value` on the scale of `target`; the unit
   * stored in `canon` is not consulted. Only a negative reading aimed at Kelvin fails.
   */
  function FromCanonical(canon: Temperature, target: Unit): (r: Result<Temperature, TemperatureError>)
    ensures r.Err? <==> target == Kelvin && canon.value < 0.0
    ensures r.Ok? ==> r.value == Temperature(Reading(canon.value, target), target) && Valid(r.value)
    ensures r.Err? ==> r.error == BelowAbsoluteZero
  {
    var value :=
      match target
      case Celsius => canon.value - 273.15
      case Fahrenheit => (canon.value - 273.15) * (9.0 / 5.0) + 32.0
      case Kelvin => canon.value;
    New(value, target)
  }

  /** The composition of the two conversion operations: to Kelvin, then out to `target`; an error stops it. */
  function Convert(t: Temperature, target: Unit): (r: Result<Temperature, TemperatureError>)
    ensures r.Ok? <==> Physical(t)
    ensures r.Ok? ==> r.value.unit == target && Kelvins(r.value.value, target) == Kelvins(t.value, t.unit)
  {
    match ToCanonical(t)
    case Err(e) => Err(e)
    case Ok(k) => FromCanonical(k, target)
  }

  /** Converts `t` to each unit of `path` in turn, feeding each result to the next step. */
  function ConvertAlong(t: Temperature, path: seq<Unit>): Result<Temperature, TemperatureError>
    decreases |path|
  {
    if |path| == 0 then
      Ok(t)
    else
      match Convert(t, path[0])
      case Err(e) => Err(e)
      case Ok(next) => ConvertAlong(next, path[1..])
  }

  /** Zero kelvin is accepted because the check is a strict comparison; anything below it is not. */
  lemma AbsoluteZeroBoundary()
    ensures New(0.0, Kelvin) == Ok(Temperature(0.0, Kelvin))
    ensures New(-1.0, Kelvin) == Err(BelowAbsoluteZero)
  {
  }

  /**
   * The constructor does not range-check other units: a Celsius reading below
   * absolute zero is built, and only its conversion reports the error.
   */
  lemma BelowZeroCaughtAtConversion()
    ensures New(-300.0, Celsius) == Ok(Temperature(-300.0, Celsius))
    ensures ToCanonical(Temperature(-300.0, Celsius)) == Err(BelowAbsoluteZero)
  {
  }

  /** The failure boundary of `ToCanonical`, written out per unit. */
  lemma ToCanonicalFailureBoundary(t: Temperature)
    ensures ToCanonical(t).Err? <==>
      || (t.unit == Celsius && t.value < -273.15)
      || (t.unit == Fahrenheit && t.value < -459.67)
      || (t.unit == Kelvin && t.value < 0.0)
  {
  }

  /** Converting to Kelvin twice is the same as converting once. */
  lemma ToCanonicalIdempotent(t: Temperature)
    ensures ToCanonical(t).Ok? ==> ToCanonical(ToCanonical(t).value) == ToCanonical(t)
  {
  }

  /** A valid Kelvin reading can be expressed in every unit. */
  lemma FromValidKelvinSucceeds(canon: Temperature, target: Unit)
    requires canon.unit == Kelvin && Valid(canon)
    ensures FromCanonical(canon, target).Ok?
    ensures FromCanonical(canon, target).value.unit == target
  {
  }

  /** `FromCanonical` reads only the value of its canonical argument. */
  lemma FromCanonicalIgnoresUnit(a: Temperature, b: Temperature, target: Unit)
    requires a.value == b.value
    ensures FromCanonical(a, target) == FromCanonical(b, target)
  {
  }

  /** To Kelvin and back to the original unit restores the original reading exactly. */
  lemma RoundTrip(t: Temperature)
    requires ToCanonical(t).Ok?
    ensures FromCanonical(ToCanonical(t).value, t.unit) == Ok(t)
  {
  }

  /** From a valid Kelvin reading out to any unit and back recovers the Kelvin reading. */
  lemma ReverseRoundTrip(canon: Temperature, target: Unit)
    requires canon.value >= 0.0
    ensures FromCanonical(canon, target).Ok?
    ensures ToCanonical(FromCanonical(canon, target).value) == Ok(Temperature(canon.value, Kelvin))
  {
  }

  /** Converting a converted reading again is the same as converting the original directly. */
  lemma ConvertTwice(t: Temperature, via: Unit, target: Unit)
    requires Convert(t, via).Ok?
    ensures Convert(Convert(t, via).value, target) == Convert(t, target)
  {
  }

  /** Derived path independence: a chain of conversions ends where a single conversion to its last unit would. */
  lemma {:induction false} ConvertAlongIsDirect(t: Temperature, path: seq<Unit>)
    requires |path| > 0
    ensures ConvertAlong(t, path) == Convert(t, path[|path| - 1])
    decreases |path|
  {
    match Convert(t, path[0])
    case Err(e) =>
    case Ok(next) =>
      if |path| > 1 {
        ConvertAlongIsDirect(next, path[1..]);
        ConvertTwice(t, path[0], path[|path| - 1]);
      }
  }
}
