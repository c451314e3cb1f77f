/** How both `World.parse` implementations (script/entities/world.js and
    script/editor.js) cut a document into chunks and pick each chunk's kind:
    chunks are separated by a blank line, each chunk's lines are trimmed and
    the empty ones dropped, and the first remaining line's prefix names the
    kind. */
module Documents {
  import opened Wrappers
  import opened Text

  /** `data.split('\n\n')` */
  function Chunks(data: string): (chunks: seq<string>)
    ensures |chunks| >= 1
  {
    SplitOn(data, "\n\n")
  }

  /** Gluing the chunks back with blank lines gives the document. */
  lemma ChunksJoin(data: string)
    ensures Join(Chunks(data), "\n\n") == data
  {
    JoinSplit(data, "\n\n");
  }

  /** `lines.map(line => line.trim()).filter(line => !!line)` */
  function Clean(lines: seq<string>): (r: seq<string>)
    ensures |r| <= |lines|
    ensures forall i :: 0 <= i < |r| ==> r[i] != "" && !IsSpace(r[i][0]) && !IsSpace(r[i][|r[i]| - 1])
  {
    if |lines| == 0 then []
    else
      var t := Trim(lines[|lines| - 1]);
      Clean(lines[..|lines| - 1]) + (if t == "" then [] else [t])
  }

  /** Nothing survives iff every line is blank once trimmed. */
  lemma CleanEmpty(lines: seq<string>)
    ensures Clean(lines) == [] <==> forall i :: 0 <= i < |lines| ==> Trim(lines[i]) == ""
  {
    if Clean(lines) == [] {
      forall j | 0 <= j < |lines|
        ensures Trim(lines[j]) == ""
      {
        if Trim(lines[j]) != "" {
          CleanHasAt(lines, j);
        }
      }
    }
    if Clean(lines) != [] {
      CleanFrom(lines);
      var j :| 0 <= j < |lines| && Clean(lines)[0] == Trim(lines[j]);
    }
  }

  /** Every surviving line is the trim of an input line. */
  lemma {:induction false} CleanFrom(lines: seq<string>)
    ensures forall i :: 0 <= i < |Clean(lines)| ==> exists j :: 0 <= j < |lines| && Clean(lines)[i] == Trim(lines[j])
  {
    var r := Clean(lines);
    forall i | 0 <= i < |r|
      ensures exists j :: 0 <= j < |lines| && r[i] == Trim(lines[j])
    {
      var j := CleanFromAt(lines, i);
    }
  }

  /** The input line a surviving line comes from. */
  lemma {:induction false} CleanFromAt(lines: seq<string>, i: nat) returns (j: nat)
    requires i < |Clean(lines)|
    ensures j < |lines| && Clean(lines)[i] == Trim(lines[j])
    decreases |lines|
  {
    var n := |lines| - 1;
    var front := lines[..n];
    if i < |Clean(front)| {
      j := CleanFromAt(front, i);
      assert front[j] == lines[j];
    } else {
      j := n;
    }
  }

  /** Every input line that is not blank once trimmed survives, trimmed. */
  lemma CleanHas(lines: seq<string>)
    ensures forall j :: 0 <= j < |lines| && Trim(lines[j]) != "" ==> Trim(lines[j]) in Clean(lines)
  {
    forall j | 0 <= j < |lines| && Trim(lines[j]) != ""
      ensures Trim(lines[j]) in Clean(lines)
    {
      CleanHasAt(lines, j);
    }
  }

  lemma {:induction false} CleanHasAt(lines: seq<string>, j: nat)
    requires j < |lines| && Trim(lines[j]) != ""
    ensures Trim(lines[j]) in Clean(lines)
    decreases |lines|
  {
    var n := |lines| - 1;
    var front := lines[..n];
    assert lines == front + [lines[n]];
    CleanLast(front, lines[n]);
    if j < n {
      assert front[j] == lines[j];
      CleanHasAt(front, j);
    }
  }

  /** Cleaning works line by line: the lines of a concatenation are the
      lines of each part, in order. */
  lemma {:induction false} CleanAppend(a: seq<string>, b: seq<string>)
    ensures Clean(a + b) == Clean(a) + Clean(b)
    decreases |b|
  {
    if |b| == 0 {
      assert a + b == a;
    } else {
      var b' := b[..|b| - 1];
      assert b == b' + [b[|b| - 1]];
      assert a + b == a + b' + [b[|b| - 1]];
      CleanAppend(a, b');
      CleanAppendStep(a, b', b[|b| - 1]);
    }
  }

  /** The step of `CleanAppend`: one more line at the end of both sides. */
  lemma CleanAppendStep(a: seq<string>, b: seq<string>, line: string)
    requires Clean(a + b) == Clean(a) + Clean(b)
    ensures Clean(a + b + [line]) == Clean(a) + Clean(b + [line])
  {
    CleanLast(a + b, line);
    CleanLast(b, line);
  }

  /** One more line adds its trim, unless that is blank. */
  lemma CleanLast(lines: seq<string>, line: string)
    ensures Clean(lines + [line]) == Clean(lines) + (if Trim(line) == "" then [] else [Trim(line)])
  {
    assert (lines + [line])[..|lines|] == lines;
  }

  /** One line survives, trimmed, iff it is not blank once trimmed. */
  lemma CleanOne(line: string)
    ensures Clean([line]) == if Trim(line) == "" then [] else [Trim(line)]
  {
    assert [line][..0] == [];
  }

  /** The lines of a chunk as the parsers receive them. */
  function ChunkLines(chunk: string): seq<string> {
    Clean(Split(chunk, '\n'))
  }

  datatype Kind = PaletteKind | RoomKind | TileKind | SpriteKind | ItemKind | DialogKind | EndingKind | VariableKind

  /** The header prefix that selects each kind. */
  function Prefix(k: Kind): string {
    match k
    case PaletteKind => "PAL "
    case RoomKind => "ROOM "
    case TileKind => "TIL "
    case SpriteKind => "SPR "
    case ItemKind => "ITM "
    case DialogKind => "DLG "
    case EndingKind => "END "
    case VariableKind => "VAR "
  }

  /** The `if … else if` chain on `header.startsWith(…)`: since no two
      prefixes can start the same line, the chosen kind is the one whose
      prefix the header has, and there is none when it has none. */
  function KindOf(header: string): (r: Option<Kind>)
    ensures forall k :: r == Some(k) <==> StartsWith(header, Prefix(k))
  {
    Exclusive(header);
    if StartsWith(header, "PAL ") then Some(PaletteKind)
    else if StartsWith(header, "ROOM ") then Some(RoomKind)
    else if StartsWith(header, "TIL ") then Some(TileKind)
    else if StartsWith(header, "SPR ") then Some(SpriteKind)
    else if StartsWith(header, "ITM ") then Some(ItemKind)
    else if StartsWith(header, "DLG ") then Some(DialogKind)
    else if StartsWith(header, "END ") then Some(EndingKind)
    else if StartsWith(header, "VAR ") then Some(VariableKind)
    else None
  }

  /** No two prefixes start the same line: they begin with different
      letters. */
  lemma Exclusive(header: string)
    ensures forall k, k' :: StartsWith(header, Prefix(k)) && StartsWith(header, Prefix(k')) ==> k == k'
  {
    forall k, k' | StartsWith(header, Prefix(k)) && StartsWith(header, Prefix(k'))
      ensures k == k'
    {
      assert header[0] == Prefix(k)[0] == Prefix(k')[0];
    }
  }

  /** A header without the trailing space, such as a bare `PAL`, selects no
      kind. */
  lemma BareHeader(k: Kind)
    ensures KindOf(Prefix(k)[..|Prefix(k)| - 1]) == None
  {
    var bare := Prefix(k)[..|Prefix(k)| - 1];
    assert ' ' !in bare;
    forall k' ensures !StartsWith(bare, Prefix(k')) {
      SpaceEnded(bare, Prefix(k'));
    }
  }

  /** A word without spaces never starts with a space-terminated prefix. */
  lemma SpaceEnded(s: string, p: string)
    requires ' ' !in s && |p| > 0 && p[|p| - 1] == ' '
    ensures !StartsWith(s, p)
  {
    if |p| <= |s| {
      assert s[..|p|][|p| - 1] == s[|p| - 1];
    }
  }

  /** Splitting a text that ends in a blank line leaves, after the last cut,
      nothing or a lone newline. */
  lemma {:induction false} LastChunk(data: string)
    ensures var parts := SplitOn(data + "\n\n", "\n\n");
      |parts| >= 2 && (parts[|parts| - 1] == "" || parts[|parts| - 1] == "\n")
    decreases |data|
  {
    var s := data + "\n\n";
    if |data| < 2 {
      ShortChunk(data);
    } else if data[..2] == "\n\n" {
      assert s[..2] == data[..2] && s[2..] == data[2..] + "\n\n";
      SplitOnCut(s, "\n\n");
      LastChunk(data[2..]);
      LastOfCons("", SplitOn(s[2..], "\n\n"));
    } else {
      assert s[..2] == data[..2] && s[1..] == data[1..] + "\n\n";
      SplitOnKeep(s, "\n\n");
      LastChunk(data[1..]);
      var rest := SplitOn(s[1..], "\n\n");
      LastOfCons([s[0]] + rest[0], rest[1..]);
    }
  }

  /** The base cases: a document of at most one character. */
  lemma ShortChunk(data: string)
    requires |data| < 2
    ensures var parts := SplitOn(data + "\n\n", "\n\n");
      |parts| >= 2 && (parts[|parts| - 1] == "" || parts[|parts| - 1] == "\n")
  {
    if |data| == 0 {
      assert data + "\n\n" == "\n\n";
      assert SplitOn("\n\n", "\n\n") == ["", ""];
    } else if data[0] == '\n' {
      assert data + "\n\n" == "\n\n\n";
      assert SplitOn("\n\n\n", "\n\n") == ["", "\n"];
    } else {
      var s := data + "\n\n";
      assert s[..2] != "\n\n" by { assert s[0] != '\n'; }
      SplitOnKeep(s, "\n\n");
      assert s[1..] == "\n\n";
      assert SplitOn("\n\n", "\n\n") == ["", ""];
    }
  }

  lemma LastOfCons(x: string, rest: seq<string>)
    requires |rest| > 0
    ensures |[x] + rest| == |rest| + 1 && ([x] + rest)[|rest|] == rest[|rest| - 1]
  {
  }

  /** Such a leftover chunk has no line once trimmed. */
  lemma BlankChunks()
    ensures ChunkLines("") == [] && ChunkLines("\n") == []
  {
    assert Split("", '\n') == [""];
    assert Split("\n", '\n') == ["", ""] by {
      assert "\n"[..1] == "\n";
      assert "\n"[1..] == "";
    }
    assert Trim("") == "";
  }

  /** Whether a document's last chunk has no line once trimmed. */
  predicate EndsBlank(data: string) {
    ChunkLines(Chunks(data)[|Chunks(data)| - 1]) == []
  }

  /** A document that ends in a blank line ends in a chunk with no line. */
  lemma TrailingChunk(data: string)
    ensures |Chunks(data + "\n\n")| >= 2 && EndsBlank(data + "\n\n")
  {
    LastChunk(data);
    assert Chunks(data + "\n\n") == SplitOn(data + "\n\n", "\n\n");
    BlankEnd(data + "\n\n");
  }

  /** A document whose last chunk is empty or a lone newline ends blank. */
  lemma BlankEnd(doc: string)
    requires var parts := Chunks(doc); parts[|parts| - 1] == "" || parts[|parts| - 1] == "\n"
    ensures EndsBlank(doc)
  {
    BlankChunk(Chunks(doc)[|Chunks(doc)| - 1]);
  }

  /** An empty chunk or a lone newline has no line once trimmed. */
  lemma BlankChunk(chunk: string)
    requires chunk == "" || chunk == "\n"
    ensures ChunkLines(chunk) == []
  {
    BlankChunks();
  }

  /** The empty document is one chunk with no line. */
  lemma EmptyDocument()
    ensures Chunks("") == [""] && ChunkLines("") == []
  {
    BlankChunks();
  }

  /** Whether a chunk's first surviving line names a kind. */
  predicate Recognised(chunk: string) {
    var lines := ChunkLines(chunk);
    |lines| > 0 && KindOf(lines[0]).Some?
  }

  /** The lines of the chunks of kind `k`, in document order. */
  function Of(chunks: seq<string>, k: Kind): seq<seq<string>> {
    if |chunks| == 0 then []
    else
      var last := chunks[|chunks| - 1];
      var lines := ChunkLines(last);
      Of(chunks[..|chunks| - 1], k) + (if |lines| > 0 && KindOf(lines[0]) == Some(k) then [lines] else [])
  }

  /** One more chunk adds its lines to those of kind `k` iff its header
      names `k`. */
  lemma OfNext(chunks: seq<string>, k: Kind)
    requires |chunks| > 0
    ensures var lines := ChunkLines(chunks[|chunks| - 1]);
      |lines| > 0 && KindOf(lines[0]) == Some(k) ==> Of(chunks, k) == Of(chunks[..|chunks| - 1], k) + [lines]
    ensures var lines := ChunkLines(chunks[|chunks| - 1]);
      !(|lines| > 0 && KindOf(lines[0]) == Some(k)) ==> Of(chunks, k) == Of(chunks[..|chunks| - 1], k)
  {
    assert Of(chunks[..|chunks| - 1], k) + [] == Of(chunks[..|chunks| - 1], k);
  }

  /** The number of chunks that name a kind. */
  function Known(chunks: seq<string>): nat {
    if |chunks| == 0 then 0
    else Known(chunks[..|chunks| - 1]) + (if Recognised(chunks[|chunks| - 1]) then 1 else 0)
  }
}
