/** Palettes of the entity framework (script/entities/palette.js): `PAL` and
    `NAME` headers, and one colour per data line of three comma-separated
    components. */
module Palettes {
  import opened Wrappers
  import opened Text
  import opened Entities

  /** A colour: its three components exactly as written, never converted. */
  datatype Color = Color(r: string, g: string, b: string)

  datatype Palette = Palette(id: Option<Value>, name: Option<Value>, colors: seq<Color>)

  /** A palette before `parse` assigns anything. */
  const Blank := Palette(None, None, [])

  const Headers: seq<string> := ["PAL", "NAME"]

  /** `setup()`: `PAL` sets the id, `NAME` the name, each to its first value. */
  function Schema(): seq<Field<Palette>> {
    [ Field("PAL", (p: Palette, first: Option<Value>, all: seq<Value>) => Ok(p.(id := first))),
      Field("NAME", (p: Palette, first: Option<Value>, all: seq<Value>) => Ok(p.(name := first))) ]
  }

  /** The colour a data line stands for, if it has exactly three parts. */
  function ColorOf(line: string): Option<Color> {
    var parts := Split(line, ',');
    if |parts| == 3 then Some(Color(parts[0], parts[1], parts[2])) else None
  }

  /** The colours of the data lines, in line order. */
  function Colors(lines: seq<string>): seq<Color> {
    if |lines| == 0 then []
    else
      var last := lines[|lines| - 1];
      Colors(lines[..|lines| - 1]) + (match ColorOf(last) case Some(c) => [c] case None => [])
  }

  /** The palette a chunk's lines describe. */
  function Read(lines: seq<string>): Palette {
    Palette(FirstOf(Recorded(lines, Headers, "PAL")), FirstOf(Recorded(lines, Headers, "NAME")),
            Colors(Residual(lines, Headers)))
  }

  /** Palette setters never throw: running the schema assigns the first
      `PAL` and `NAME` values and passes the unkeyed lines on. */
  lemma BuildPalette(lines: seq<string>)
    ensures Keys(Schema()) == Headers
    ensures Build(Blank, Schema(), lines) ==
      Ok((Read(lines).(colors := []), Residual(lines, Headers)))
  {
    var schema := Schema();
    assert Keys(schema) == Headers;
    var c0, c1 := CallFor(lines, Headers, "PAL"), CallFor(lines, Headers, "NAME");
    var p1 := Blank.(id := c0.first);
    var p2 := p1.(name := c1.first);
    assert RunSetters(Blank, schema, lines, Headers) == RunSetters(p1, schema[1..], lines, Headers);
    assert schema[1..][1..] == [];
    assert RunSetters(p1, schema[1..], lines, Headers) == RunSetters(p2, [], lines, Headers);
  }

  /** `parseData`: the colour list restarts empty and gains one entry per
      line of exactly three comma-separated parts, in order. */
  method ParseData(lines: seq<string>) returns (colors: seq<Color>)
    ensures colors == Colors(lines)
  {
    colors := [];
    for i := 0 to |lines|
      invariant colors == Colors(lines[..i])
    {
      var colorParts := Split(lines[i], ',');
      if |colorParts| == 3 {
        colors := colors + [Color(colorParts[0], colorParts[1], colorParts[2])];
      }
      assert lines[..i + 1][..i] == lines[..i];
    }
    assert lines[..|lines|] == lines;
  }

  /** `new Palette(lines)` */
  method Parse(lines: seq<string>) returns (p: Palette)
    ensures p == Read(lines)
  {
    var r, calls := Entities.Parse(lines, Schema(), Blank);
    BuildPalette(lines);
    var colors := ParseData(r.value.1);
    p := r.value.0.(colors := colors);
  }

  /** At most one colour per data line. */
  lemma {:induction false} ColorsBound(lines: seq<string>)
    ensures |Colors(lines)| <= |lines|
  {
    if |lines| > 0 {
      ColorsBound(lines[..|lines| - 1]);
    }
  }

  /** Colours of consecutive runs of lines concatenate. */
  lemma {:induction false} ColorsAppend(a: seq<string>, b: seq<string>)
    ensures Colors(a + b) == Colors(a) + Colors(b)
    decreases |b|
  {
    if |b| == 0 {
      assert a + b == a;
    } else {
      var ab := a + b;
      assert ab[..|ab| - 1] == a + b[..|b| - 1];
      assert ab[|ab| - 1] == b[|b| - 1];
      ColorsAppend(a, b[..|b| - 1]);
    }
  }

  /** A line is a colour exactly when it has three comma-separated parts,
      i.e. exactly two commas, and its components never contain a comma. */
  lemma ColorLine(line: string)
    ensures ColorOf(line).Some? <==> Count(line, ',') == 2
    ensures ColorOf(line).Some? ==>
      var c := ColorOf(line).value;
      ',' !in c.r && ',' !in c.g && ',' !in c.b && line == c.r + "," + c.g + "," + c.b
  {
    SplitCount(line, ',');
    var parts := Split(line, ',');
    if |parts| == 3 {
      SplitParts(line, ',');
      JoinSplit(line, ",");
      JoinCons(parts[0], parts[1..], ",");
      JoinCons(parts[1], parts[2..], ",");
      assert parts[1..][1..] == parts[2..] == [parts[2]];
      assert [parts[0]] + parts[1..] == parts;
      assert [parts[1]] + parts[2..] == parts[1..];
    }
  }

  /** How a colour is written back: `r,g,b`. */
  function Row(c: Color): string {
    c.r + "," + c.g + "," + c.b
  }

  function Rows(cs: seq<Color>): (lines: seq<string>)
    ensures |lines| == |cs| && forall i :: 0 <= i < |cs| ==> lines[i] == Row(cs[i])
  {
    if |cs| == 0 then [] else Rows(cs[..|cs| - 1]) + [Row(cs[|cs| - 1])]
  }

  predicate CommaFree(c: Color) {
    ',' !in c.r && ',' !in c.g && ',' !in c.b
  }

  /** Reading a written colour gives it back. */
  lemma RowRoundTrip(c: Color)
    requires CommaFree(c)
    ensures ColorOf(Row(c)) == Some(c)
  {
    var parts := [c.r, c.g, c.b];
    SplitJoin(parts, ',');
    assert Join(parts, ",") == Row(c) by {
      JoinCons(c.r, [c.g, c.b], ",");
      JoinCons(c.g, [c.b], ",");
      assert [c.g, c.b][1..] == [c.b];
      assert [c.r, c.g, c.b][1..] == [c.g, c.b];
    }
  }

  /** Writing every colour back as `r,g,b` and re-reading the lines gives
      the same colours in the same order. */
  lemma {:induction false} ColorsRoundTrip(cs: seq<Color>)
    requires forall i :: 0 <= i < |cs| ==> CommaFree(cs[i])
    ensures Colors(Rows(cs)) == cs
  {
    if |cs| > 0 {
      var n := |cs| - 1;
      ColorsRoundTrip(cs[..n]);
      RowRoundTrip(cs[n]);
      assert Rows(cs) == Rows(cs[..n]) + [Row(cs[n])];
      ColorsSnoc(Rows(cs[..n]), Row(cs[n]));
      assert cs[..n] + [cs[n]] == cs;
    }
  }

  lemma ColorsSnoc(lines: seq<string>, line: string)
    ensures Colors(lines + [line]) == Colors(lines) + match ColorOf(line) case Some(c) => [c] case None => []
  {
    assert (lines + [line])[..|lines|] == lines;
  }

  /** First wins: once a `PAL` line has been read, later lines cannot change
      the palette's id. */
  lemma FirstId(a: seq<string>, b: seq<string>)
    requires Recorded(a, Headers, "PAL") != []
    ensures Read(a + b).id == Read(a).id
  {
    FirstWins(a, b, Headers, "PAL");
  }

  /** A palette chunk with no `NAME` line has a null name. */
  lemma NoName(lines: seq<string>)
    requires forall i :: 0 <= i < |lines| ==> !StartsWith(lines[i], "NAME ")
    ensures Read(lines).name == None
  {
    forall i | 0 <= i < |lines| ensures Slot(lines[i], Headers) != "NAME" {
      HeaderIs(lines[i], "NAME");
    }
    NeverRecorded(lines, Headers, "NAME");
  }
}
