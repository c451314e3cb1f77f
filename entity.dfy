/** The entity framework's base class (script/entities/entity.js): the line
    classifier, the position reader, the multi-valued property store, and the
    schema-driven `parse` every entity kind inherits.

    An entity kind declares its schema as an ordered list of fields, each a
    header key and a setter receiving `(first value, all values)`; `Parse`
    records every line under its header, calls every setter once in schema
    order, and hands the unkeyed lines to the kind's data handler. */
module Entities {
  import opened Wrappers
  import opened Text

  /** The header under which every unkeyed line is recorded. */
  const DATA: string := "_DATA"

  /** A value as `parseLine` produces it: one token (a JS string) or the list
      of tokens (a JS array, which always holds two or more). */
  datatype Value = Single(text: string) | Many(parts: seq<string>)

  /** The tokens a value stands for. */
  function Tokens(v: Value): seq<string> {
    match v
    case Single(s) => [s]
    case Many(p) => p
  }

  /** How many entries `v[k]` can reach: characters of a string, elements of
      an array. */
  function Width(v: Value): nat {
    match v
    case Single(s) => |s|
    case Many(p) => |p|
  }

  /** `v[k]` in JS: the k-th token of an array, the k-th character of a
      string, or undefined beyond the end. */
  function At(v: Value, k: nat): (r: Option<string>)
    ensures r.Some? <==> k < Width(v)
    ensures r.Some? && v.Many? ==> r.value == v.parts[k]
    ensures r.Some? && v.Single? ==> r.value == [v.text[k]]
  {
    match v
    case Single(s) => if k < |s| then Some([s[k]]) else None
    case Many(p) => if k < |p| then Some(p[k]) else None
  }

  /** The TypeErrors that abort parsing or drawing in the framework. */
  datatype Fault =
    | UndefinedToken   // `parsePosition` handed a token that is not there
    | NoPalette        // a room's palette id matches no palette
    | NoColour         // a colour index beyond the palette reaches `Svg.colorCode`
    | NoPosition       // `.position[0]` read on a sprite or a placement without one
    | NoFrame2Row      // `frame2[y][x]` read below the last row of frame 2
    | EmptyChunk       // `lines[0].startsWith` on a chunk with no line

  // ---------------------------------------------------------------------
  // parseLine, parsePosition
  // ---------------------------------------------------------------------

  datatype Line = Line(header: string, value: Value)

  /** `parseLine` */
  function ParseLine(line: string): Line {
    var parts := Split(line, ' ');
    var values := if |parts| > 1 then parts[1..] else parts;
    Line(if |parts| > 1 then parts[0] else DATA, if |values| > 1 then Many(values) else Single(values[0]))
  }

  /** A line with a space has the text before its first space as header and
      the remaining space-separated tokens as value (one string when exactly
      one is left); a line without a space is data and is its own value. */
  lemma ParseLineSpec(line: string)
    ensures var r := ParseLine(line);
      && (' ' in line ==> ' ' !in r.header && r.header + " " + Join(Tokens(r.value), " ") == line)
      && (' ' in line ==> forall i :: 0 <= i < |Tokens(r.value)| ==> ' ' !in Tokens(r.value)[i])
      && (r.value.Many? ==> |r.value.parts| > 1)
      && (' ' !in line ==> r == Line(DATA, Single(line)))
  {
    var parts := Split(line, ' ');
    SplitMany(line, ' ');
    JoinSplit(line, " ");
    SplitParts(line, ' ');
    if |parts| > 1 {
      var values := parts[1..];
      JoinCons(parts[0], values, " ");
      assert [parts[0]] + values == parts;
    } else {
      SplitNone(line, ' ');
    }
  }

  /** Writing a header and space-free words separated by single spaces and
      parsing the line gives them back. */
  lemma ParseWords(header: string, words: seq<string>)
    requires ' ' !in header && |words| >= 1
    requires forall i :: 0 <= i < |words| ==> ' ' !in words[i]
    ensures ParseLine(header + " " + Join(words, " ")) ==
      Line(header, if |words| > 1 then Many(words) else Single(words[0]))
  {
    var parts := [header] + words;
    SplitJoin(parts, ' ');
    JoinCons(header, words, " ");
    assert parts[1..] == words;
  }

  /** A grid position `(x, y)`. */
  type Position = (int, int)

  /** `parsePosition`: a token of exactly two comma-separated parts that
      both start with an integer; anything else is absent, never an error. */
  function ParsePosition(token: string): Option<Position> {
    var parts := Split(token, ',');
    if |parts| != 2 then None
    else match (ParseInt(parts[0]), ParseInt(parts[1]))
      case (Some(x), Some(y)) => Some((x, y))
      case _ => None
  }

  /** Writing a position back as `x,y` and reading it gives the position. */
  lemma PositionRoundTrip(x: int, y: int)
    ensures ParsePosition(FormatInt(x) + "," + FormatInt(y)) == Some((x, y))
  {
    NoCommaInNumber(x);
    NoCommaInNumber(y);
    var parts := [FormatInt(x), FormatInt(y)];
    SplitJoin(parts, ',');
    assert Join(parts, ",") == FormatInt(x) + "," + FormatInt(y);
    ParseFormat(x, "");
    ParseFormat(y, "");
    assert FormatInt(x) + "" == FormatInt(x);
    assert FormatInt(y) + "" == FormatInt(y);
  }

  lemma NoCommaInNumber(n: int)
    ensures ',' !in FormatInt(n)
  {
    var m: nat := if n < 0 then -n else n;
    FormatNatDigits(m);
    assert ',' !in FormatNat(m) by {
      forall i | 0 <= i < |FormatNat(m)| ensures FormatNat(m)[i] != ',' {
        assert IsDigit(FormatNat(m)[i], 10);
      }
    }
  }

  /** A token with no comma, or with more than one, is never a position. */
  lemma {:induction false} PositionNeedsOneComma(token: string)
    requires Count(token, ',') != 1
    ensures ParsePosition(token) == None
  {
    SplitCount(token, ',');
  }

  // ---------------------------------------------------------------------
  // Properties
  // ---------------------------------------------------------------------

  /** `getFirst` on a recorded list: null when nothing was recorded or the
      first value is falsy (the empty string), else the first value. */
  function FirstOf(values: seq<Value>): Option<Value> {
    if |values| == 0 || values[0] == Single("") then None else Some(values[0])
  }

  /** `Properties`: a multi-valued store appending values per key. */
  class Properties {
    var properties: map<string, seq<Value>>

    /** A key is present only once something was recorded under it. */
    ghost predicate Valid()
      reads this
    {
      forall k :: k in properties ==> |properties[k]| > 0
    }

    constructor ()
      ensures Valid() && properties == map[]
    {
      properties := map[];
    }

    /** `set(key, value)` appends the value to the key's list. */
    method Set(key: string, value: Value)
      requires Valid()
      modifies this
      ensures Valid()
      ensures GetAll(key) == old(GetAll(key)) + [value]
      ensures forall k :: k != key ==> GetAll(k) == old(GetAll(k))
    {
      var list := if key in properties then properties[key] else [];
      properties := properties[key := list + [value]];
    }

    /** `getFirst(key)` */
    function GetFirst(key: string): (r: Option<Value>)
      reads this
      ensures r == FirstOf(GetAll(key))
    {
      if key !in properties || |properties[key]| == 0 || properties[key][0] == Single("") then None
      else Some(properties[key][0])
    }

    /** `getAll(key)`: the recorded values in recording order, `[]` for a
        key never set. */
    function GetAll(key: string): (r: seq<Value>)
      reads this
      ensures key !in properties ==> r == []
    {
      if key in properties then properties[key] else []
    }

    /** `doesExist(key)` */
    predicate DoesExist(key: string)
      requires Valid()
      reads this
      ensures DoesExist(key) <==> GetAll(key) != []
    {
      key in properties
    }
  }

  // ---------------------------------------------------------------------
  // What `parse` records
  // ---------------------------------------------------------------------

  /** A line is keyed when its header is one of the schema's keys. */
  predicate Keyed(line: string, keys: seq<string>) {
    ParseLine(line).header in keys
  }

  /** The key a line is recorded under. */
  function Slot(line: string, keys: seq<string>): string {
    if Keyed(line, keys) then ParseLine(line).header else DATA
  }

  /** The value a line is recorded with: the parsed value of a keyed line,
      the whole line otherwise. */
  function Entry(line: string, keys: seq<string>): Value {
    if Keyed(line, keys) then ParseLine(line).value else Single(line)
  }

  /** The values recorded under `k` after the lines, in line order. */
  function Recorded(lines: seq<string>, keys: seq<string>, k: string): seq<Value> {
    if |lines| == 0 then []
    else
      var last := lines[|lines| - 1];
      Recorded(lines[..|lines| - 1], keys, k) + (if Slot(last, keys) == k then [Entry(last, keys)] else [])
  }

  /** The unkeyed lines, whole and in their original order. */
  function Residual(lines: seq<string>, keys: seq<string>): seq<string> {
    if |lines| == 0 then []
    else
      var last := lines[|lines| - 1];
      Residual(lines[..|lines| - 1], keys) + (if Keyed(last, keys) then [] else [last])
  }

  /** One more line adds its entry under its slot and nothing elsewhere. */
  lemma RecordedSnoc(lines: seq<string>, i: nat, keys: seq<string>, k: string)
    requires i < |lines|
    ensures Recorded(lines[..i + 1], keys, k)
      == Recorded(lines[..i], keys, k) + (if Slot(lines[i], keys) == k then [Entry(lines[i], keys)] else [])
  {
    assert lines[..i + 1][..i] == lines[..i];
  }

  /** What a setter of key `k` receives. */
  datatype Call = Call(key: string, first: Option<Value>, all: seq<Value>)

  function CallFor(lines: seq<string>, keys: seq<string>, k: string): Call {
    Call(k, FirstOf(Recorded(lines, keys, k)), Recorded(lines, keys, k))
  }

  /** Recording is compositional: the lines of `a + b` record what `a`
      records followed by what `b` records. */
  lemma {:induction false} RecordedAppend(a: seq<string>, b: seq<string>, keys: seq<string>, k: string)
    ensures Recorded(a + b, keys, k) == Recorded(a, keys, k) + Recorded(b, keys, k)
    decreases |b|
  {
    if |b| == 0 {
      assert a + b == a;
    } else {
      var init, last := b[..|b| - 1], b[|b| - 1];
      assert b == init + [last];
      assert a + b == (a + init) + [last];
      RecordedAppend(a, init, keys, k);
      RecordedLast(a + init, last, keys, k);
      RecordedLast(init, last, keys, k);
      var ra, ri := Recorded(a, keys, k), Recorded(init, keys, k);
      var extra := if Slot(last, keys) == k then [Entry(last, keys)] else [];
      assert (ra + ri) + extra == ra + (ri + extra);
    }
  }

  lemma RecordedLast(lines: seq<string>, line: string, keys: seq<string>, k: string)
    ensures Recorded(lines + [line], keys, k) ==
      Recorded(lines, keys, k) + (if Slot(line, keys) == k then [Entry(line, keys)] else [])
  {
    assert (lines + [line])[..|lines|] == lines;
  }

  /** The unkeyed lines of `a + b` are those of `a` followed by those of `b`. */
  lemma {:induction false} ResidualAppend(a: seq<string>, b: seq<string>, keys: seq<string>)
    ensures Residual(a + b, keys) == Residual(a, keys) + Residual(b, keys)
    decreases |b|
  {
    if |b| == 0 {
      assert a + b == a;
    } else {
      var init, last := b[..|b| - 1], b[|b| - 1];
      assert b == init + [last];
      assert a + b == (a + init) + [last];
      ResidualAppend(a, init, keys);
      ResidualSnoc(a + init, last, keys);
      ResidualSnoc(init, last, keys);
      var ra, ri := Residual(a, keys), Residual(init, keys);
      var extra := if Keyed(last, keys) then [] else [last];
      assert (ra + ri) + extra == ra + (ri + extra);
    }
  }

  lemma ResidualSnoc(lines: seq<string>, line: string, keys: seq<string>)
    ensures Residual(lines + [line], keys) == Residual(lines, keys) + (if Keyed(line, keys) then [] else [line])
  {
    assert (lines + [line])[..|lines|] == lines;
  }

  /** Every unkeyed line reaches the data handler. */
  lemma {:induction false} ResidualHas(lines: seq<string>, keys: seq<string>, i: nat)
    requires i < |lines| && !Keyed(lines[i], keys)
    ensures lines[i] in Residual(lines, keys)
    decreases |lines|
  {
    if i < |lines| - 1 {
      ResidualHas(lines[..|lines| - 1], keys, i);
    }
  }

  /** No keyed line reaches the data handler. */
  lemma {:induction false} ResidualUnkeyed(lines: seq<string>, keys: seq<string>)
    ensures forall j :: 0 <= j < |Residual(lines, keys)| ==> !Keyed(Residual(lines, keys)[j], keys)
  {
    if |lines| > 0 {
      ResidualUnkeyed(lines[..|lines| - 1], keys);
    }
  }

  /** First wins: once a key has been recorded, later lines cannot change
      what its setter receives as first value. */
  lemma FirstWins(a: seq<string>, b: seq<string>, keys: seq<string>, k: string)
    requires Recorded(a, keys, k) != []
    ensures FirstOf(Recorded(a + b, keys, k)) == FirstOf(Recorded(a, keys, k))
  {
    RecordedAppend(a, b, keys, k);
  }

  /** A key no line is recorded under reaches its setter as `(null, [])`. */
  lemma {:induction false} NeverRecorded(lines: seq<string>, keys: seq<string>, k: string)
    requires forall i :: 0 <= i < |lines| ==> Slot(lines[i], keys) != k
    ensures CallFor(lines, keys, k) == Call(k, None, [])
  {
    if |lines| > 0 {
      NeverRecorded(lines[..|lines| - 1], keys, k);
    }
  }

  /** The `_DATA` list holds exactly the unkeyed lines, whole. */
  lemma {:induction false} DataRecorded(lines: seq<string>, keys: seq<string>)
    requires DATA !in keys
    ensures |Recorded(lines, keys, DATA)| == |Residual(lines, keys)|
    ensures forall i :: 0 <= i < |Residual(lines, keys)| ==>
      Recorded(lines, keys, DATA)[i] == Single(Residual(lines, keys)[i])
  {
    if |lines| > 0 {
      DataRecorded(lines[..|lines| - 1], keys);
    }
  }

  /** A line is recorded under a key `k` (one that is a single word and not
      the data header) iff it starts with `k` followed by a space: the
      framework's classification agrees with the predecessor's `startsWith`
      tests. */
  lemma HeaderIs(line: string, k: string)
    requires ' ' !in k && k != DATA
    ensures ParseLine(line).header == k <==> StartsWith(line, k + " ")
  {
    if StartsWith(line, k + " ") {
      var rest := line[|k| + 1..];
      assert line == k + [' '] + rest;
      SplitFirst(k, ' ', rest);
      assert ' ' in line by { assert line[|k|] == ' '; }
      SplitMany(line, ' ');
    }
    ParseLineSpec(line);
    if ParseLine(line).header == k {
      assert ' ' in line;
      var r := ParseLine(line);
      assert line == k + " " + Join(Tokens(r.value), " ");
      assert line[..|k| + 1] == k + " ";
    }
  }

  /** The lines that do not start with `prefix`, in order. */
  function Unprefixed(lines: seq<string>, prefix: string): seq<string> {
    if |lines| == 0 then []
    else
      var last := lines[|lines| - 1];
      Unprefixed(lines[..|lines| - 1], prefix) + (if StartsWith(last, prefix) then [] else [last])
  }

  /** With a single one-word key `k`, the data lines are exactly the lines
      that do not start with `k` and a space. */
  lemma {:induction false} ResidualWithout(lines: seq<string>, k: string)
    requires ' ' !in k && k != DATA
    ensures Residual(lines, [k]) == Unprefixed(lines, k + " ")
  {
    if |lines| > 0 {
      var last := lines[|lines| - 1];
      ResidualWithout(lines[..|lines| - 1], k);
      HeaderIs(last, k);
      assert Keyed(last, [k]) <==> ParseLine(last).header == k;
    }
  }

  /** Total number of values recorded under the listed keys. */
  function RecordedCount(lines: seq<string>, keys: seq<string>, ks: seq<string>): nat {
    if |ks| == 0 then 0 else |Recorded(lines, keys, ks[0])| + RecordedCount(lines, keys, ks[1..])
  }

  predicate Distinct(ks: seq<string>) {
    forall i, j :: 0 <= i < j < |ks| ==> ks[i] != ks[j]
  }

  /** Adding one line adds one record under exactly its slot. */
  lemma {:induction false} CountStep(lines: seq<string>, line: string, keys: seq<string>, ks: seq<string>)
    requires Distinct(ks) && |lines| > 0 && line == lines[|lines| - 1]
    ensures RecordedCount(lines, keys, ks)
      == RecordedCount(lines[..|lines| - 1], keys, ks) + (if Slot(line, keys) in ks then 1 else 0)
  {
    if |ks| > 0 {
      CountStep(lines, line, keys, ks[1..]);
      assert Slot(line, keys) in ks[1..] ==> Slot(line, keys) != ks[0];
      assert Slot(line, keys) in ks <==> Slot(line, keys) == ks[0] || Slot(line, keys) in ks[1..];
    }
  }

  lemma {:induction false} CountNone(keys: seq<string>, ks: seq<string>)
    ensures RecordedCount([], keys, ks) == 0
  {
    if |ks| > 0 {
      CountNone(keys, ks[1..]);
    }
  }

  /** Every line is recorded once: the values under the schema keys and the
      `_DATA` lines together number exactly the lines. */
  lemma {:induction false} Partition(lines: seq<string>, keys: seq<string>)
    requires Distinct(keys) && DATA !in keys
    ensures RecordedCount(lines, keys, keys) + |Residual(lines, keys)| == |lines|
  {
    if |lines| == 0 {
      CountNone(keys, keys);
    } else {
      var init, last := lines[..|lines| - 1], lines[|lines| - 1];
      Partition(init, keys);
      CountStep(lines, last, keys, keys);
      assert |init| == |lines| - 1;
      assert Slot(last, keys) in keys <==> Keyed(last, keys);
      assert |Residual(lines, keys)| == |Residual(init, keys)| + (if Keyed(last, keys) then 0 else 1);
    }
  }

  // ---------------------------------------------------------------------
  // Schemas and parse
  // ---------------------------------------------------------------------

  /** A setter: `(entity, first value, all values)` to the updated entity,
      or the error it throws. */
  type Setter<!E> = (E, Option<Value>, seq<Value>) -> Result<E, Fault>

  /** One header key of a schema with its setter. */
  datatype Field<!E> = Field(key: string, setter: Setter<E>)

  /** The schema's keys, in declaration order. */
  function Keys<E>(schema: seq<Field<E>>): (keys: seq<string>)
    ensures |keys| == |schema| && forall i :: 0 <= i < |schema| ==> keys[i] == schema[i].key
  {
    if |schema| == 0 then [] else [schema[0].key] + Keys(schema[1..])
  }

  /** The setters of `fields`, called in order, each once, on what was
      recorded under its key; the first throw aborts. */
  function RunSetters<E>(e: E, fields: seq<Field<E>>, lines: seq<string>, keys: seq<string>): Result<E, Fault> {
    if |fields| == 0 then Ok(e)
    else
      var c := CallFor(lines, keys, fields[0].key);
      match fields[0].setter(e, c.first, c.all)
      case Err(f) => Err(f)
      case Ok(e') => RunSetters(e', fields[1..], lines, keys)
  }

  /** What `parse` leaves before the kind's data handler runs: the entity
      after every setter, and the data lines the handler receives. */
  function Build<E>(blank: E, schema: seq<Field<E>>, lines: seq<string>): Result<(E, seq<string>), Fault> {
    match RunSetters(blank, schema, lines, Keys(schema))
    case Err(f) => Err(f)
    case Ok(e) => Ok((e, Residual(lines, Keys(schema))))
  }

  /** The strings of a list of one-token values. */
  function Texts(values: seq<Value>): (r: seq<string>)
    requires forall i :: 0 <= i < |values| ==> values[i].Single?
    ensures |r| == |values| && forall i :: 0 <= i < |values| ==> values[i] == Single(r[i])
  {
    if |values| == 0 then [] else [values[0].text] + Texts(values[1..])
  }

  /** The classification half of `parse`: every line recorded into a fresh
      `Properties`, keyed lines under their header with their parsed value,
      all others whole under `_DATA`. */
  method Record(lines: seq<string>, keys: seq<string>) returns (props: Properties)
    ensures fresh(props) && props.Valid()
    ensures forall k :: props.GetAll(k) == Recorded(lines, keys, k)
  {
    props := new Properties();
    var i := 0;
    while i < |lines|
      invariant 0 <= i <= |lines|
      invariant props.Valid()
      invariant forall k :: props.GetAll(k) == Recorded(lines[..i], keys, k)
    {
      var line := ParseLine(lines[i]);
      if line.header in keys {
        props.Set(line.header, line.value);
      } else {
        props.Set(DATA, Single(lines[i]));
      }
      forall k ensures props.GetAll(k) == Recorded(lines[..i + 1], keys, k) {
        RecordedSnoc(lines, i, keys, k);
      }
      i := i + 1;
    }
    assert lines[..|lines|] == lines;
  }

  /** Logging the setter call of field `j` extends the log of the first `j`
      calls. */
  lemma CallsSnoc<E>(calls: seq<Call>, c: Call, lines: seq<string>, keys: seq<string>, schema: seq<Field<E>>, j: nat)
    requires j < |schema| && |calls| == j
    requires forall n :: 0 <= n < j ==> calls[n] == CallFor(lines, keys, schema[n].key)
    requires c == CallFor(lines, keys, schema[j].key)
    ensures forall n :: 0 <= n < j + 1 ==> (calls + [c])[n] == CallFor(lines, keys, schema[n].key)
  {
  }

  /** `parse(lines)`: records every line, calls every setter once in schema
      order with `(getFirst(key), getAll(key))`, and returns the entity with
      the `_DATA` lines for the kind's data handler. `calls` logs the setter
      calls made. */
  method Parse<E>(lines: seq<string>, schema: seq<Field<E>>, blank: E)
    returns (r: Result<(E, seq<string>), Fault>, ghost calls: seq<Call>)
    requires DATA !in Keys(schema)
    ensures r == Build(blank, schema, lines)
    ensures |calls| <= |schema| && (r.Ok? ==> |calls| == |schema|)
    ensures forall i :: 0 <= i < |calls| ==> calls[i] == CallFor(lines, Keys(schema), schema[i].key)
  {
    var keys := Keys(schema);
    var props := Record(lines, keys);
    var e := blank;
    var j := 0;
    calls := [];
    while j < |schema|
      invariant 0 <= j <= |schema|
      invariant RunSetters(blank, schema, lines, keys) == RunSetters(e, schema[j..], lines, keys)
      invariant |calls| == j
      invariant forall n :: 0 <= n < j ==> calls[n] == CallFor(lines, keys, schema[n].key)
      invariant forall k :: props.GetAll(k) == Recorded(lines, keys, k)
    {
      var field := schema[j];
      var first, all := props.GetFirst(field.key), props.GetAll(field.key);
      assert Call(field.key, first, all) == CallFor(lines, keys, field.key);
      CallsSnoc(calls, Call(field.key, first, all), lines, keys, schema, j);
      calls := calls + [Call(field.key, first, all)];
      assert schema[j..][0] == field && schema[j..][1..] == schema[j + 1..];
      var next := field.setter(e, first, all);
      if next.Err? {
        r := Err(next.error);
        return;
      }
      e := next.value;
      j := j + 1;
    }
    var data := props.GetAll(DATA);
    DataRecorded(lines, keys);
    assert schema[j..] == [];
    var rest := Texts(data);
    assert rest == Residual(lines, keys) by {
      forall i | 0 <= i < |rest| ensures rest[i] == Residual(lines, keys)[i] {
        assert data[i] == Single(rest[i]);
      }
    }
    r := Ok((e, rest));
  }
}
