/**
 * Resource quantities ("2", "200Mi", "150m").  Their grammar and canonical
 * printing belong to a foreign library, so the parser is a parameter of
 * every operation that parses, and a parsed quantity is represented by the
 * canonical text its String() method prints.
 */
module Quantities {
  import opened Wrappers

  /** A parsed quantity; `canonical` is what Quantity.String() returns. */
  datatype Quantity = Quantity(canonical: string)

  /** The zero quantity, which a lookup of an absent resource name yields. */
  const Zero: Quantity := Quantity("0")

  /** The quantity grammar: a partial function from text to a parsed value. */
  type Parser = string -> Option<Quantity>

  /** `s` is accepted by the quantity grammar. */
  predicate ValidQuantity(parse: Parser, s: string)
  {
    parse(s).Some?
  }

  /** The outcome of MustParse: a value, or a panic naming the rejected text. */
  datatype Parsed = Value(q: Quantity) | Panic(text: string)

  /** MustParse panics exactly on the strings the grammar rejects. */
  function MustParse(parse: Parser, s: string): (r: Parsed)
    ensures r.Value? <==> ValidQuantity(parse, s)
    ensures r.Value? ==> parse(s) == Some(r.q)
    ensures r.Panic? ==> r.text == s
  {
    match parse(s)
    case Some(q) => Value(q)
    case None => Panic(s)
  }

  /** Every value of a string map is accepted by the quantity grammar. */
  predicate AllQuantitiesValid(parse: Parser, values: map<string, string>)
  {
    forall k :: k in values ==> ValidQuantity(parse, values[k])
  }

  /** The canonical text of the quantity stored under `name`, or "0" when absent. */
  function ShowOrZero(m: map<string, Quantity>, name: string): (s: string)
    ensures name in m ==> s == m[name].canonical
    ensures name !in m ==> s == "0"
  {
    if name in m then m[name].canonical else Zero.canonical
  }

  /** The grammar parses "0", the text the zero value prints, back to zero. */
  ghost predicate ParsesZero(parse: Parser)
  {
    parse(Zero.canonical) == Some(Zero)
  }

  /**
   * Every quantity in `m` came out of the grammar: its canonical text parses
   * back to it, as a quantity decoded from JSON does.
   */
  ghost predicate Decoded(parse: Parser, m: map<string, Quantity>)
  {
    forall k :: k in m ==> parse(m[k].canonical) == Some(m[k])
  }

  /** Printing the quantity stored under `name` and parsing it again gives it back, or the zero value when absent. */
  lemma ShowOrZeroReparses(parse: Parser, m: map<string, Quantity>, name: string)
    requires ParsesZero(parse) && Decoded(parse, m)
    ensures parse(ShowOrZero(m, name)) == Some(if name in m then m[name] else Zero)
    ensures ValidQuantity(parse, ShowOrZero(m, name))
  {
    if name in m {
      assert parse(m[name].canonical) == Some(m[name]);
    } else {
      assert parse(Zero.canonical) == Some(Zero);
    }
  }

  /**
   * ParsesZero and Decoded still leave the grammar free to reject text:
   * any text other than "0" that no quantity of `m` prints can be invalid.
   */
  lemma DecodedAllowsRejection(m: map<string, Quantity>, text: string)
    requires text != Zero.canonical
    requires forall k :: k in m ==> m[k].canonical != text
    ensures exists parse: Parser :: ParsesZero(parse) && Decoded(parse, m) && !ValidQuantity(parse, text)
  {
    var parse: Parser := s => if s == text then None else Some(Quantity(s));
    assert ParsesZero(parse) && Decoded(parse, m) && !ValidQuantity(parse, text);
  }
}
