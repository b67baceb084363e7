/**
 * The earlier checked temperature code of src/temperature.rs, kept in one file:
 * the same constructor check and formula tables as src/temperature/value.rs,
 * written as `to_kelvin` / `from_kelvin` on the unit type.
 */
module TemperatureSingleFile {
  import opened Results
  import opened TemperatureUnit
  import opened TemperatureErrors
  import opened TemperatureScale
  import TemperatureValue

  type Temperature = TemperatureValue.Temperature

  /** The validating constructor: rejects exactly the negative Kelvin readings. */
  function New(value: real, unit: Unit): (r: Result<Temperature, TemperatureError>)
    ensures r.Err? <==> unit == Kelvin && value < 0.0
    ensures r.Ok? ==> r.value == TemperatureValue.Temperature(value, unit)
    ensures r.Err? ==> r.error == BelowAbsoluteZero
  {
    if unit == Kelvin && value < 0.0 then
      Err(BelowAbsoluteZero)
    else
      Ok(TemperatureValue.Temperature(value, unit))
  }

  /** Expresses `tmp` in Kelvin; fails exactly when the Kelvin image is negative. */
  function ToKelvin(tmp: Temperature): (r: Result<Temperature, TemperatureError>)
    ensures r.Ok? <==> Kelvins(tmp.value, tmp.unit) >= 0.0
    ensures r.Ok? ==> r.value.unit == Kelvin && r.value.value == Kelvins(tmp.value, tmp.unit)
  {
    var value :=
      match tmp.unit
      case Celsius => tmp.value + 273.15
      case Fahrenheit => (tmp.value - 32.0) * (5.0 / 9.0) + 273.15
      case Kelvin => tmp.value;
    New(value, Kelvin)
  }

  /** Expresses the Kelvin reading `tmp.value` in `target`, ignoring `tmp.unit`. */
  function FromKelvin(tmp: Temperature, target: Unit): (r: Result<Temperature, TemperatureError>)
    ensures tmp.value >= 0.0 ==> r.Ok?
    ensures r.Err? <==> target == Kelvin && tmp.value < 0.0
    ensures r.Ok? ==> r.value.unit == target && Kelvins(r.value.value, target) == tmp.value
  {
    var value :=
      match target
      case Celsius => tmp.value - 273.15
      case Fahrenheit => (tmp.value - 273.15) * (9.0 / 5.0) + 32.0
      case Kelvin => tmp.value;
    New(value, target)
  }

  /** This file's label table is the one of src/temperature/unit.rs. */
  function Name(u: Unit): (r: string)
    ensures r == TemperatureUnit.Name(u)
  {
    match u
    case Fahrenheit => "Fahrenheit"
    case Celsius => "Celsius"
    case Kelvin => "Kelvin"
  }

  /** This file's symbol table is the one of src/temperature/unit.rs. */
  function Symbol(u: Unit): (r: string)
    ensures r == TemperatureUnit.Symbol(u)
  {
    match u
    case Fahrenheit => "°F"
    case Celsius => "°C"
    case Kelvin => "°K"
  }

  /** To Kelvin and back restores the original reading whenever the first step succeeds. */
  lemma RoundTrip(tmp: Temperature)
    requires ToKelvin(tmp).Ok?
    ensures FromKelvin(ToKelvin(tmp).value, tmp.unit) == Ok(tmp)
  {
  }

  /** The single-file code and the `Conversion` implementation agree on every input. */
  lemma AgreesWithConversion(value: real, tmp: Temperature, target: Unit)
    ensures New(value, target) == TemperatureValue.New(value, target)
    ensures ToKelvin(tmp) == TemperatureValue.ToCanonical(tmp)
    ensures FromKelvin(tmp, target) == TemperatureValue.FromCanonical(tmp, target)
  {
  }
}
