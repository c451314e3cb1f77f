/** Variables of the entity framework (script/entities/variable.js): a `VAR`
    header and a value, the first data line. */
module Variables {
  import opened Wrappers
  import opened Text
  import opened Entities

  datatype Variable = Variable(id: Option<Value>, value: string)

  const VariableHeaders: seq<string> := ["VAR"]

  const BlankVariable := Variable(None, "")

  /** `parseData`: the first data line, or `''` without one. */
  function ValueOf(lines: seq<string>): string {
    if |lines| > 0 then lines[0] else ""
  }

  function VariableSchema(): seq<Field<Variable>> {
    [ Field("VAR", (v: Variable, first: Option<Value>, all: seq<Value>) => Ok(v.(id := first))) ]
  }

  function ReadVariable(lines: seq<string>): Variable {
    Variable(FirstOf(Recorded(lines, VariableHeaders, "VAR")), ValueOf(Residual(lines, VariableHeaders)))
  }

  lemma BuildVariable(lines: seq<string>)
    ensures Keys(VariableSchema()) == VariableHeaders
    ensures Build(BlankVariable, VariableSchema(), lines) ==
      Ok((ReadVariable(lines).(value := ""), Residual(lines, VariableHeaders)))
  {
    var schema := VariableSchema();
    assert Keys(schema) == VariableHeaders;
    var v1 := BlankVariable.(id := CallFor(lines, VariableHeaders, "VAR").first);
    assert schema[1..] == [];
    assert RunSetters(BlankVariable, schema, lines, VariableHeaders) == RunSetters(v1, [], lines, VariableHeaders);
  }

  /** `new Variable(lines)` */
  method ParseVariable(lines: seq<string>) returns (v: Variable)
    ensures v == ReadVariable(lines)
  {
    var r, calls := Entities.Parse(lines, VariableSchema(), BlankVariable);
    BuildVariable(lines);
    v := r.value.0.(value := ValueOf(r.value.1));
  }

  /** The value is the first line not starting with `VAR `, or `''` when
      every line does. */
  lemma VariableValue(lines: seq<string>)
    ensures var body := Unprefixed(lines, "VAR ");
      ReadVariable(lines).value == if |body| > 0 then body[0] else ""
  {
    ResidualWithout(lines, "VAR");
  }

  /** Data lines after the first are ignored: appending lines never changes
      a value already read. */
  lemma ValueIgnoresLater(a: seq<string>, b: seq<string>)
    requires Residual(a, VariableHeaders) != []
    ensures ReadVariable(a + b).value == ReadVariable(a).value
  {
    ResidualAppend(a, b, VariableHeaders);
  }
}
