/** The closed set of length units and their display tables (src/length/unit.rs). */
module LengthUnit {

  datatype Unit = Meters | Kilometers | Centimeters | Inches | Feet

  /** The unit's capitalised label; the unit's symbol starts with the same letter in lower case. */
  function Name(u: Unit): (r: string)
    ensures |r| > 0 && 'A' <= r[0] <= 'Z'
    ensures Symbol(u)[0] as int == r[0] as int + ('a' as int - 'A' as int)
  {
    match u
    case Meters => "Meters"
    case Kilometers => "Kilometers"
    case Centimeters => "Centimeters"
    case Inches => "Inches"
    case Feet => "Feet"
  }

  /** The unit's display abbreviation: one or two lower-case letters. */
  function Symbol(u: Unit): (r: string)
    ensures 1 <= |r| <= 2
    ensures forall i :: 0 <= i < |r| ==> 'a' <= r[i] <= 'z'
  {
    match u
    case Meters => "m"
    case Kilometers => "km"
    case Centimeters => "cm"
    case Inches => "in"
    case Feet => "ft"
  }

  /** The labels and symbols the program shows for each unit. */
  lemma Labels()
    ensures Name(Meters) == "Meters" && Symbol(Meters) == "m"
    ensures Name(Kilometers) == "Kilometers" && Symbol(Kilometers) == "km"
    ensures Name(Centimeters) == "Centimeters" && Symbol(Centimeters) == "cm"
    ensures Name(Inches) == "Inches" && Symbol(Inches) == "in"
    ensures Name(Feet) == "Feet" && Symbol(Feet) == "ft"
  {
  }

  /** No two units share a label. */
  lemma NamesDistinct(u: Unit, v: Unit)
    ensures Name(u) == Name(v) <==> u == v
  {
  }

  /** No two units share a symbol, so a symbol identifies its unit. */
  lemma SymbolsDistinct(u: Unit, v: Unit)
    ensures Symbol(u) == Symbol(v) <==> u == v
  {
  }
}
