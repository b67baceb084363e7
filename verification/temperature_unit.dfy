/** The closed set of temperature units and their display tables (src/temperature/unit.rs). */
module TemperatureUnit {

  datatype Unit = Fahrenheit | Celsius | Kelvin

  /** The unit's human-readable label; its initial is the letter shown in the unit's symbol. */
  function Name(u: Unit): (r: string)
    ensures |r| > 0 && Symbol(u) == ['°', r[0]]
  {
    match u
    case Fahrenheit => "Fahrenheit"
    case Celsius => "Celsius"
    case Kelvin => "Kelvin"
  }

  /** The unit's display abbreviation: a degree sign followed by one letter. */
  function Symbol(u: Unit): (r: string)
    ensures |r| == 2 && r[0] == '°'
  {
    match u
    case Fahrenheit => "°F"
    case Celsius => "°C"
    case Kelvin => "°K"
  }

  /** The labels and symbols the program shows for each unit. */
  lemma Labels()
    ensures Name(Fahrenheit) == "Fahrenheit" && Symbol(Fahrenheit) == "°F"
    ensures Name(Celsius) == "Celsius" && Symbol(Celsius) == "°C"
    ensures Name(Kelvin) == "Kelvin" && Symbol(Kelvin) == "°K"
  {
  }

  /** No two units share a label. */
  lemma NamesDistinct(u: Unit, v: Unit)
    ensures Name(u) == Name(v) <==> u == v
  {
  }

  /** No two units share a symbol, so a symbol identifies its unit. */
  lemma SymbolsDistinct(u: Unit, v: Unit)
    ensures Symbol(u) == Symbol(v) <==> u == v
  {
  }
}
