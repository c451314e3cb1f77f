/** Endings of the entity framework (script/entities/ending.js): an `END`
    header and the ending text, chosen from the data lines by the same rule
    as a dialog's. */
module Endings {
  import opened Wrappers
  import opened Text
  import opened Entities
  import opened Dialogs

  datatype Ending = Ending(id: Option<Value>, text: Value)

  const EndingHeaders: seq<string> := ["END"]

  const BlankEnding := Ending(None, Single(""))

  function EndingSchema(): seq<Field<Ending>> {
    [ Field("END", (e: Ending, first: Option<Value>, all: seq<Value>) => Ok(e.(id := first))) ]
  }

  /** The ending a chunk's lines describe; `parseData` picks the text by the
      number of data lines exactly as a dialog does. */
  function ReadEnding(lines: seq<string>): Ending {
    Ending(FirstOf(Recorded(lines, EndingHeaders, "END")), TextOf(Residual(lines, EndingHeaders)))
  }

  lemma BuildEnding(lines: seq<string>)
    ensures Keys(EndingSchema()) == EndingHeaders
    ensures Build(BlankEnding, EndingSchema(), lines) ==
      Ok((ReadEnding(lines).(text := Single("")), Residual(lines, EndingHeaders)))
  {
    var schema := EndingSchema();
    assert Keys(schema) == EndingHeaders;
    var e1 := BlankEnding.(id := CallFor(lines, EndingHeaders, "END").first);
    assert schema[1..] == [];
    assert RunSetters(BlankEnding, schema, lines, EndingHeaders) == RunSetters(e1, [], lines, EndingHeaders);
  }

  /** `new Ending(lines)` */
  method ParseEnding(lines: seq<string>) returns (e: Ending)
    ensures e == ReadEnding(lines)
  {
    var r, calls := Entities.Parse(lines, EndingSchema(), BlankEnding);
    BuildEnding(lines);
    e := r.value.0.(text := TextOf(r.value.1));
  }

  /** The text lines are exactly the lines not starting with `END `, in
      order; the id is the first `END` value. */
  lemma EndingBody(lines: seq<string>)
    ensures Tokens(ReadEnding(lines).text) ==
      (if Unprefixed(lines, "END ") == [] then [""] else Unprefixed(lines, "END "))
  {
    ResidualWithout(lines, "END");
    assert "END" + " " == "END ";
    var body := Residual(lines, EndingHeaders);
    assert Tokens(TextOf(body)) == (if |body| == 0 then [""] else body);
  }

  /** First wins: later lines cannot change an ending's id once an `END`
      line has been read. */
  lemma EndingIdFirst(a: seq<string>, b: seq<string>)
    requires Recorded(a, EndingHeaders, "END") != []
    ensures ReadEnding(a + b).id == ReadEnding(a).id
  {
    FirstWins(a, b, EndingHeaders, "END");
  }
}
