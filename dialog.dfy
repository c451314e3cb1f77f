/** Dialogs of the entity framework (script/entities/dialog.js): a `DLG`
    header and the dialog text, kept as the data lines themselves. */
module Dialogs {
  import opened Wrappers
  import opened Text
  import opened Entities

  datatype Dialog = Dialog(id: Option<Value>, text: Value)

  const DialogHeaders: seq<string> := ["DLG"]

  const BlankDialog := Dialog(None, Single(""))

  /** `parseData`: the text is `''` without data lines, the line itself for
      one, and the list of lines, not joined, for more. */
  function TextOf(lines: seq<string>): (text: Value)
    ensures Tokens(text) == (if |lines| == 0 then [""] else lines)
    ensures text.Single? <==> |lines| <= 1
  {
    if |lines| == 0 then Single("")
    else if |lines| == 1 then Single(lines[0])
    else Many(lines)
  }

  function DialogSchema(): seq<Field<Dialog>> {
    [ Field("DLG", (d: Dialog, first: Option<Value>, all: seq<Value>) => Ok(d.(id := first))) ]
  }

  function ReadDialog(lines: seq<string>): Dialog {
    Dialog(FirstOf(Recorded(lines, DialogHeaders, "DLG")), TextOf(Residual(lines, DialogHeaders)))
  }

  lemma BuildDialog(lines: seq<string>)
    ensures Keys(DialogSchema()) == DialogHeaders
    ensures Build(BlankDialog, DialogSchema(), lines) ==
      Ok((ReadDialog(lines).(text := Single("")), Residual(lines, DialogHeaders)))
  {
    var schema := DialogSchema();
    assert Keys(schema) == DialogHeaders;
    var d1 := BlankDialog.(id := CallFor(lines, DialogHeaders, "DLG").first);
    assert schema[1..] == [];
    assert RunSetters(BlankDialog, schema, lines, DialogHeaders) == RunSetters(d1, [], lines, DialogHeaders);
  }

  /** `new Dialog(lines)` */
  method ParseDialog(lines: seq<string>) returns (d: Dialog)
    ensures d == ReadDialog(lines)
  {
    var r, calls := Entities.Parse(lines, DialogSchema(), BlankDialog);
    BuildDialog(lines);
    d := r.value.0.(text := TextOf(r.value.1));
  }

  /** The text lines are exactly the lines not starting with `DLG `, whole
      and in order, spaces included. */
  lemma DialogBody(lines: seq<string>)
    ensures Tokens(ReadDialog(lines).text) ==
      (if Unprefixed(lines, "DLG ") == [] then [""] else Unprefixed(lines, "DLG "))
  {
    ResidualWithout(lines, "DLG");
    assert "DLG" + " " == "DLG ";
    var body := Residual(lines, DialogHeaders);
    assert Tokens(TextOf(body)) == (if |body| == 0 then [""] else body);
  }

  /** A line whose first word is not `DLG` is kept verbatim in the text. */
  lemma BodyLineKept(lines: seq<string>, i: nat)
    requires i < |lines| && !StartsWith(lines[i], "DLG ")
    ensures lines[i] in Tokens(ReadDialog(lines).text)
  {
    HeaderIs(lines[i], "DLG");
    ResidualHas(lines, DialogHeaders, i);
  }
}
