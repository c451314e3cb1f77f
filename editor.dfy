/** The editor's own parsers (script/editor.js), the single-file predecessor
    of the entity framework. Every entity class there has a static `parse`
    that walks a chunk's lines once with `forEach`, tests each line against a
    fixed chain of `startsWith` prefixes, and assigns or appends to a fresh
    object: a later line of the same prefix overwrites an earlier one. Each
    `parse` is a loop below, proved equal to a function that says what every
    field ends up holding. */
module Editor {
  import opened Wrappers
  import opened Text
  import opened JsArray
  import E = Entities
  import P = Palettes
  import D = Drawings
  import R = Rooms

  // ---------------------------------------------------------------------
  // Line selection
  // ---------------------------------------------------------------------

  /** What `line.replace(prefix, '')` leaves of every line that starts with
      `prefix`, in line order. */
  function Headed(lines: seq<string>, prefix: string): seq<string> {
    if |lines| == 0 then []
    else
      var last := lines[|lines| - 1];
      Headed(lines[..|lines| - 1], prefix) + (if StartsWith(last, prefix) then [ReplaceFirst(last, prefix, "")] else [])
  }

  /** Whether a line starts with one of the prefixes a parser tests. */
  predicate Prefixed(line: string, prefixes: seq<string>) {
    exists p :: p in prefixes && StartsWith(line, p)
  }

  /** The lines that start with none of the prefixes, in line order. */
  function Unheaded(lines: seq<string>, prefixes: seq<string>): seq<string> {
    if |lines| == 0 then []
    else
      var last := lines[|lines| - 1];
      Unheaded(lines[..|lines| - 1], prefixes) + (if Prefixed(last, prefixes) then [] else [last])
  }

  /** The values of `f` that are present, in order: the entries a parser
      pushes for lines it does not skip. */
  function Keep<T>(rests: seq<string>, f: string -> Option<T>): seq<T> {
    if |rests| == 0 then []
    else
      var last := rests[|rests| - 1];
      Keep(rests[..|rests| - 1], f) + (match f(last) case Some(x) => [x] case None => [])
  }

  /** What a field holds after its last assignment, or its initial value. */
  function LastOr<T>(s: seq<T>, initial: T): T {
    if |s| == 0 then initial else s[|s| - 1]
  }

  /** The last assigned value, if there was one. */
  function Last<T>(s: seq<T>): Option<T> {
    if |s| == 0 then None else Some(s[|s| - 1])
  }

  lemma HeadedNext(lines: seq<string>, i: nat, prefix: string)
    requires i < |lines|
    ensures StartsWith(lines[i], prefix) ==>
      Headed(lines[..i + 1], prefix) == Headed(lines[..i], prefix) + [lines[i][|prefix|..]]
    ensures !StartsWith(lines[i], prefix) ==> Headed(lines[..i + 1], prefix) == Headed(lines[..i], prefix)
  {
    assert lines[..i + 1][..i] == lines[..i];
    assert Headed(lines[..i], prefix) + [] == Headed(lines[..i], prefix);
    if StartsWith(lines[i], prefix) {
      ReplaceHeader(lines[i], prefix);
    }
  }

  lemma UnheadedNext(lines: seq<string>, i: nat, prefixes: seq<string>)
    requires i < |lines|
    ensures Prefixed(lines[i], prefixes) ==> Unheaded(lines[..i + 1], prefixes) == Unheaded(lines[..i], prefixes)
    ensures !Prefixed(lines[i], prefixes) ==> Unheaded(lines[..i + 1], prefixes) == Unheaded(lines[..i], prefixes) + [lines[i]]
  {
    assert lines[..i + 1][..i] == lines[..i];
    assert Unheaded(lines[..i], prefixes) + [] == Unheaded(lines[..i], prefixes);
  }

  lemma KeepNext<T>(rests: seq<string>, x: string, f: string -> Option<T>)
    ensures f(x).None? ==> Keep(rests + [x], f) == Keep(rests, f)
    ensures f(x).Some? ==> Keep(rests + [x], f) == Keep(rests, f) + [f(x).value]
  {
    assert (rests + [x])[..|rests|] == rests;
    assert Keep(rests, f) + [] == Keep(rests, f);
  }

  /** Two prefixes that differ at position `k` never both start a line. */
  lemma Apart(line: string, a: string, b: string, k: nat)
    requires k < |a| && k < |b| && a[k] != b[k]
    ensures !(StartsWith(line, a) && StartsWith(line, b))
  {
    if StartsWith(line, a) {
      assert line[..|a|][k] == line[k];
      if |b| <= |line| {
        assert line[..|b|][k] == line[k];
      }
    }
  }

  /** Last assignment wins: the value a prefix leaves in its field is the
      rest of the LAST line with that prefix, and the initial value when no
      line has it. (The framework's `getFirst` keeps the first instead.) */
  lemma {:induction false} LastWins(lines: seq<string>, prefix: string, initial: string)
    ensures (forall i :: 0 <= i < |lines| ==> !StartsWith(lines[i], prefix)) ==>
      LastOr(Headed(lines, prefix), initial) == initial
    ensures forall i ::
      (0 <= i < |lines| && StartsWith(lines[i], prefix) &&
       forall j :: i < j < |lines| ==> !StartsWith(lines[j], prefix)) ==>
        LastOr(Headed(lines, prefix), initial) == lines[i][|prefix|..]
  {
    if |lines| > 0 {
      var n := |lines| - 1;
      LastWins(lines[..n], prefix, initial);
      assert lines[..n + 1] == lines;
      HeadedNext(lines, n, prefix);
      forall i | 0 <= i < n ensures lines[..n][i] == lines[i] { }
    }
  }

  // ---------------------------------------------------------------------
  // Palette.parse
  // ---------------------------------------------------------------------

  datatype Palette = Palette(id: string, name: string, colors: seq<P.Color>)

  const PaletteHeaders: seq<string> := ["PAL ", "NAME "]

  /** The palette a chunk's lines describe: the last id and name, and a
      colour for every other line with exactly three comma-separated parts. */
  function PaletteOf(lines: seq<string>): Palette {
    Palette(LastOr(Headed(lines, "PAL "), ""), LastOr(Headed(lines, "NAME "), ""),
            P.Colors(Unheaded(lines, PaletteHeaders)))
  }

  method ParsePalette(lines: seq<string>) returns (palette: Palette)
    ensures palette == PaletteOf(lines)
  {
    palette := Palette("", "", []);
    for i := 0 to |lines|
      invariant palette == PaletteOf(lines[..i])
    {
      var line := lines[i];
      PaletteStep(lines, i);
      Apart(line, "PAL ", "NAME ", 0);
      if StartsWith(line, "PAL ") {
        ReplaceHeader(line, "PAL ");
        palette := palette.(id := ReplaceFirst(line, "PAL ", ""));
      } else if StartsWith(line, "NAME ") {
        ReplaceHeader(line, "NAME ");
        palette := palette.(name := ReplaceFirst(line, "NAME ", ""));
      } else {
        var colorParts := Split(line, ',');
        if |colorParts| == 3 {
          palette := palette.(colors := palette.colors + [P.Color(colorParts[0], colorParts[1], colorParts[2])]);
        }
      }
    }
    assert lines[..|lines|] == lines;
  }

  /** One line of `Palette.parse`. */
  lemma PaletteStep(lines: seq<string>, i: nat)
    requires i < |lines|
    ensures var line, p := lines[i], PaletteOf(lines[..i]);
      PaletteOf(lines[..i + 1]) ==
        if StartsWith(line, "PAL ") then p.(id := line[4..])
        else if StartsWith(line, "NAME ") then p.(name := line[5..])
        else if P.ColorOf(line).Some? then p.(colors := p.colors + [P.ColorOf(line).value])
        else p
  {
    var line := lines[i];
    HeadedNext(lines, i, "PAL ");
    HeadedNext(lines, i, "NAME ");
    UnheadedNext(lines, i, PaletteHeaders);
    Apart(line, "PAL ", "NAME ", 0);
    assert Prefixed(line, PaletteHeaders) <==> StartsWith(line, "PAL ") || StartsWith(line, "NAME ");
    var before := Unheaded(lines[..i], PaletteHeaders);
    if !Prefixed(line, PaletteHeaders) {
      ColorsNext(before, line);
    }
  }

  lemma ColorsNext(before: seq<string>, line: string)
    ensures P.ColorOf(line).None? ==> P.Colors(before + [line]) == P.Colors(before)
    ensures P.ColorOf(line).Some? ==> P.Colors(before + [line]) == P.Colors(before) + [P.ColorOf(line).value]
  {
    Front(before, line);
    assert P.Colors(before) + [] == P.Colors(before);
  }

  /** Both implementations read the same colours from a palette: the
      framework's data lines are exactly the lines the editor does not take
      for a header. */
  lemma {:induction false} SameColors(lines: seq<string>)
    ensures PaletteOf(lines).colors == P.Read(lines).colors
  {
    SameResidual(lines);
  }

  lemma {:induction false} SameResidual(lines: seq<string>)
    ensures Unheaded(lines, PaletteHeaders) == E.Residual(lines, P.Headers)
  {
    if |lines| > 0 {
      var n := |lines| - 1;
      var last := lines[n];
      SameResidual(lines[..n]);
      E.HeaderIs(last, "PAL");
      E.HeaderIs(last, "NAME");
      assert "PAL" + " " == "PAL " && "NAME" + " " == "NAME ";
      assert E.Keyed(last, P.Headers) <==> Prefixed(last, PaletteHeaders);
    }
  }

  // ---------------------------------------------------------------------
  // Room.parse
  // ---------------------------------------------------------------------

  /** An item or ending placed in a room; the editor calls the ending's id
      `endingId`. */
  datatype Placement = Placement(id: string, position: Option<E.Position>)

  datatype Exit = Exit(roomId: string, position: Option<E.Position>, enterPosition: Option<E.Position>)

  /** `paletteId` is `None` while no `PAL` line has set it (the editor's
      initial value is the number 0). */
  datatype Room = Room(id: string, name: string, paletteId: Option<string>, data: seq<seq<string>>,
                       items: seq<Placement>, endings: seq<Placement>, exits: seq<Exit>)

  const RoomHeaders: seq<string> := ["ROOM ", "NAME ", "PAL ", "ITM ", "END ", "EXT "]

  /** An `ITM` or `END` rest: an id and a position token; fewer than two
      words and the line is skipped. */
  function PlacementOf(rest: string): (r: Option<Placement>)
    ensures r.None? <==> ' ' !in rest
  {
    SplitMany(rest, ' ');
    var parts := Split(rest, ' ');
    if |parts| < 2 then None else Some(Placement(parts[0], E.ParsePosition(parts[1])))
  }

  /** An `EXT` rest: a position, a room id and an entry position; fewer than
      three words and the line is skipped. */
  function ExitOf(rest: string): (r: Option<Exit>)
    ensures r.None? <==> Count(rest, ' ') < 2
  {
    SplitCount(rest, ' ');
    var parts := Split(rest, ' ');
    if |parts| < 3 then None
    else Some(Exit(parts[1], E.ParsePosition(parts[0]), E.ParsePosition(parts[2])))
  }

  /** The room a chunk's lines describe. */
  function RoomOf(lines: seq<string>): Room {
    Room(LastOr(Headed(lines, "ROOM "), ""), LastOr(Headed(lines, "NAME "), ""), Last(Headed(lines, "PAL ")),
         R.Grid(Unheaded(lines, RoomHeaders)),
         Keep(Headed(lines, "ITM "), PlacementOf), Keep(Headed(lines, "END "), PlacementOf),
         Keep(Headed(lines, "EXT "), ExitOf))
  }

  method ParseRoom(lines: seq<string>) returns (room: Room)
    ensures room == RoomOf(lines)
  {
    room := Room("", "", None, [], [], [], []);
    for i := 0 to |lines|
      invariant room == RoomOf(lines[..i])
    {
      var line := lines[i];
      RoomStep(lines, i);
      RoomHeads(line);
      if StartsWith(line, "ROOM ") {
        ReplaceHeader(line, "ROOM ");
        room := room.(id := ReplaceFirst(line, "ROOM ", ""));
      } else if StartsWith(line, "NAME ") {
        ReplaceHeader(line, "NAME ");
        room := room.(name := ReplaceFirst(line, "NAME ", ""));
      } else if StartsWith(line, "PAL ") {
        ReplaceHeader(line, "PAL ");
        room := room.(paletteId := Some(ReplaceFirst(line, "PAL ", "")));
      } else if StartsWith(line, "ITM ") {
        ReplaceHeader(line, "ITM ");
        var itemParts := Split(ReplaceFirst(line, "ITM ", ""), ' ');
        if |itemParts| >= 2 {
          var position := E.ParsePosition(itemParts[1]);
          room := room.(items := room.items + [Placement(itemParts[0], position)]);
        }
      } else if StartsWith(line, "END ") {
        ReplaceHeader(line, "END ");
        var endingParts := Split(ReplaceFirst(line, "END ", ""), ' ');
        if |endingParts| >= 2 {
          var position := E.ParsePosition(endingParts[1]);
          room := room.(endings := room.endings + [Placement(endingParts[0], position)]);
        }
      } else if StartsWith(line, "EXT ") {
        ReplaceHeader(line, "EXT ");
        var exitParts := Split(ReplaceFirst(line, "EXT ", ""), ' ');
        if |exitParts| >= 3 {
          var position := E.ParsePosition(exitParts[0]);
          var enterPosition := E.ParsePosition(exitParts[2]);
          room := room.(exits := room.exits + [Exit(exitParts[1], position, enterPosition)]);
        }
      } else {
        room := room.(data := room.data + [Split(line, ',')]);
      }
    }
    assert lines[..|lines|] == lines;
  }

  /** One line of `Room.parse`: which field the line changes and how. */
  lemma RoomStep(lines: seq<string>, i: nat)
    requires i < |lines|
    ensures RoomOf(lines[..i + 1]) == RoomLine(RoomOf(lines[..i]), lines[i])
  {
    var line := lines[i];
    if StartsWith(line, "ROOM ") || StartsWith(line, "NAME ") || StartsWith(line, "PAL ") {
      RoomTextStep(lines, i);
    } else if StartsWith(line, "ITM ") || StartsWith(line, "END ") || StartsWith(line, "EXT ") {
      RoomListStep(lines, i);
    } else {
      RoomDataStep(lines, i);
    }
  }

  lemma RoomTextStep(lines: seq<string>, i: nat)
    requires i < |lines|
    requires StartsWith(lines[i], "ROOM ") || StartsWith(lines[i], "NAME ") || StartsWith(lines[i], "PAL ")
    ensures RoomOf(lines[..i + 1]) == RoomLine(RoomOf(lines[..i]), lines[i])
  {
    var line := lines[i];
    HeadedNext(lines, i, "ROOM ");
    HeadedNext(lines, i, "NAME ");
    HeadedNext(lines, i, "PAL ");
    HeadedNext(lines, i, "ITM ");
    HeadedNext(lines, i, "END ");
    HeadedNext(lines, i, "EXT ");
    UnheadedNext(lines, i, RoomHeaders);
    RoomHeads(line);
  }

  lemma RoomListStep(lines: seq<string>, i: nat)
    requires i < |lines|
    requires !(StartsWith(lines[i], "ROOM ") || StartsWith(lines[i], "NAME ") || StartsWith(lines[i], "PAL "))
    requires StartsWith(lines[i], "ITM ") || StartsWith(lines[i], "END ") || StartsWith(lines[i], "EXT ")
    ensures RoomOf(lines[..i + 1]) == RoomLine(RoomOf(lines[..i]), lines[i])
  {
    var line := lines[i];
    HeadedNext(lines, i, "ROOM ");
    HeadedNext(lines, i, "NAME ");
    HeadedNext(lines, i, "PAL ");
    HeadedNext(lines, i, "ITM ");
    HeadedNext(lines, i, "END ");
    HeadedNext(lines, i, "EXT ");
    UnheadedNext(lines, i, RoomHeaders);
    RoomHeads(line);
    if StartsWith(line, "ITM ") {
      KeepNext(Headed(lines[..i], "ITM "), line[4..], PlacementOf);
    } else if StartsWith(line, "END ") {
      KeepNext(Headed(lines[..i], "END "), line[4..], PlacementOf);
    } else {
      KeepNext(Headed(lines[..i], "EXT "), line[4..], ExitOf);
    }
  }

  lemma RoomDataStep(lines: seq<string>, i: nat)
    requires i < |lines|
    requires !(StartsWith(lines[i], "ROOM ") || StartsWith(lines[i], "NAME ") || StartsWith(lines[i], "PAL "))
    requires !(StartsWith(lines[i], "ITM ") || StartsWith(lines[i], "END ") || StartsWith(lines[i], "EXT "))
    ensures RoomOf(lines[..i + 1]) == RoomLine(RoomOf(lines[..i]), lines[i])
  {
    var line := lines[i];
    HeadedNext(lines, i, "ROOM ");
    HeadedNext(lines, i, "NAME ");
    HeadedNext(lines, i, "PAL ");
    HeadedNext(lines, i, "ITM ");
    HeadedNext(lines, i, "END ");
    HeadedNext(lines, i, "EXT ");
    UnheadedNext(lines, i, RoomHeaders);
    RoomHeads(line);
    GridNext(Unheaded(lines[..i], RoomHeaders), line);
  }

  lemma GridNext(before: seq<string>, line: string)
    ensures R.Grid(before + [line]) == R.Grid(before) + [Split(line, ',')]
  {
    Front(before, line);
  }

  /** The change one line makes to a room, following the `else if` chain. */
  function RoomLine(r: Room, line: string): Room {
    if StartsWith(line, "ROOM ") then r.(id := line[5..])
    else if StartsWith(line, "NAME ") then r.(name := line[5..])
    else if StartsWith(line, "PAL ") then r.(paletteId := Some(line[4..]))
    else if StartsWith(line, "ITM ") then
      (match PlacementOf(line[4..]) case Some(p) => r.(items := r.items + [p]) case None => r)
    else if StartsWith(line, "END ") then
      (match PlacementOf(line[4..]) case Some(p) => r.(endings := r.endings + [p]) case None => r)
    else if StartsWith(line, "EXT ") then
      (match ExitOf(line[4..]) case Some(x) => r.(exits := r.exits + [x]) case None => r)
    else r.(data := r.data + [Split(line, ',')])
  }

  /** The room prefixes exclude one another, and a line with none of them
      is a data line. */
  lemma RoomHeads(line: string)
    ensures StartsWith(line, "ROOM ") ==>
      !StartsWith(line, "NAME ") && !StartsWith(line, "PAL ") && !StartsWith(line, "ITM ") &&
      !StartsWith(line, "END ") && !StartsWith(line, "EXT ")
    ensures StartsWith(line, "NAME ") ==>
      !StartsWith(line, "PAL ") && !StartsWith(line, "ITM ") && !StartsWith(line, "END ") && !StartsWith(line, "EXT ")
    ensures StartsWith(line, "PAL ") ==>
      !StartsWith(line, "ITM ") && !StartsWith(line, "END ") && !StartsWith(line, "EXT ")
    ensures StartsWith(line, "ITM ") ==> !StartsWith(line, "END ") && !StartsWith(line, "EXT ")
    ensures StartsWith(line, "END ") ==> !StartsWith(line, "EXT ")
    ensures Prefixed(line, RoomHeaders) <==>
      StartsWith(line, "ROOM ") || StartsWith(line, "NAME ") || StartsWith(line, "PAL ") ||
      StartsWith(line, "ITM ") || StartsWith(line, "END ") || StartsWith(line, "EXT ")
  {
    var hs := RoomHeaders;
    forall a, b | a in hs && b in hs && a != b ensures !(StartsWith(line, a) && StartsWith(line, b)) {
      if a[0] != b[0] { Apart(line, a, b, 0); } else { Apart(line, a, b, 1); }
    }
  }

  // ---------------------------------------------------------------------
  // Tile.parse and Sprite.parse: two frames split by a `>` line
  // ---------------------------------------------------------------------

  /** The test that ends frame 1: a line starting with `>` that no header
      test before it has taken. */
  function MarkerOf(headers: seq<string>): string -> bool {
    line => !Prefixed(line, headers) && StartsWith(line, ">")
  }

  /** The lines pushed as drawing rows: neither a header nor a marker. */
  function Rows(lines: seq<string>, headers: seq<string>): seq<string> {
    if |lines| == 0 then []
    else
      var last := lines[|lines| - 1];
      Rows(lines[..|lines| - 1], headers) + (if Prefixed(last, headers) || StartsWith(last, ">") then [] else [last])
  }

  /** The frames a drawing's lines describe: the rows before the first
      marker are frame 1, the rows after it frame 2, and the drawing is
      animated iff there is a marker. */
  function Art(lines: seq<string>, headers: seq<string>): D.Frames {
    match FindIndex(lines, MarkerOf(headers))
    case None => D.Frames(false, Rows(lines, headers), [])
    case Some(j) => D.Frames(true, Rows(lines[..j], headers), Rows(lines[j + 1..], headers))
  }

  /** The change one line makes to the frames, with `onFirstFrame` being
      `!isAnimated`. */
  function ArtLine(a: D.Frames, line: string, headers: seq<string>): D.Frames {
    if Prefixed(line, headers) then a
    else if StartsWith(line, ">") then a.(isAnimated := true)
    else if a.isAnimated then a.(frame2 := a.frame2 + [line])
    else a.(frame1 := a.frame1 + [line])
  }

  lemma RowsNext(before: seq<string>, line: string, headers: seq<string>)
    ensures Prefixed(line, headers) || StartsWith(line, ">") ==> Rows(before + [line], headers) == Rows(before, headers)
    ensures !(Prefixed(line, headers) || StartsWith(line, ">")) ==>
      Rows(before + [line], headers) == Rows(before, headers) + [line]
  {
    Front(before, line);
    assert Rows(before, headers) + [] == Rows(before, headers);
  }

  /** Frame 2 stays empty until the drawing is animated. */
  lemma ArtStill(lines: seq<string>, headers: seq<string>)
    ensures !Art(lines, headers).isAnimated ==> Art(lines, headers).frame2 == []
  {
  }

  lemma {:induction false} ArtNext(lines: seq<string>, i: nat, headers: seq<string>)
    requires i < |lines|
    ensures Art(lines[..i + 1], headers) == ArtLine(Art(lines[..i], headers), lines[i], headers)
  {
    var s, x := lines[..i], lines[i];
    var m := MarkerOf(headers);
    assert lines[..i + 1] == s + [x];
    FindIndexSnoc(s, x, m);
    match FindIndex(s, m)
    case None =>
      RowsNext(s, x, headers);
      if m(x) {
        assert (s + [x])[..i] == s;
        assert (s + [x])[i + 1..] == [];
      }
    case Some(j) =>
      assert (s + [x])[..j] == s[..j];
      assert (s + [x])[j + 1..] == s[j + 1..] + [x];
      RowsNext(s[j + 1..], x, headers);
  }

  /** Frame 1 followed by frame 2 is every drawing row, in order: the
      marker only chooses where the cut falls. */
  lemma {:induction false} ArtRows(lines: seq<string>, headers: seq<string>)
    ensures Art(lines, headers).frame1 + Art(lines, headers).frame2 == Rows(lines, headers)
    ensures Art(lines, headers).isAnimated <==>
      exists i :: 0 <= i < |lines| && !Prefixed(lines[i], headers) && StartsWith(lines[i], ">")
  {
    match FindIndex(lines, MarkerOf(headers))
    case None =>
      assert Rows(lines, headers) + [] == Rows(lines, headers);
    case Some(j) =>
      RowsSplit(lines[..j], [lines[j]] + lines[j + 1..], headers);
      RowsSplit([lines[j]], lines[j + 1..], headers);
      assert lines[..j] + ([lines[j]] + lines[j + 1..]) == lines;
      assert Rows([lines[j]], headers) == Rows([], headers) + [] by {
        assert [lines[j]][..0] == [];
      }
  }

  lemma {:induction false} RowsSplit(a: seq<string>, b: seq<string>, headers: seq<string>)
    ensures Rows(a + b, headers) == Rows(a, headers) + Rows(b, headers)
    decreases |b|
  {
    if |b| == 0 {
      assert a + b == a;
      assert Rows(a, headers) + [] == Rows(a, headers);
    } else {
      var n := |b| - 1;
      RowsSplit(a, b[..n], headers);
      assert (a + b)[..|a + b| - 1] == a + b[..n];
      assert (a + b)[|a + b| - 1] == b[n];
    }
  }

  /** No row of either frame is a header or marker line. */
  lemma {:induction false} RowsClean(lines: seq<string>, headers: seq<string>)
    ensures forall row :: row in Rows(lines, headers) ==> !Prefixed(row, headers) && !StartsWith(row, ">")
  {
    if |lines| > 0 {
      RowsClean(lines[..|lines| - 1], headers);
    }
  }

  datatype Tile = Tile(id: string, art: D.Frames, isWall: bool)

  const TileHeaders: seq<string> := ["TIL ", "WAL "]

  /** The tile a chunk's lines describe: a wall iff the last `WAL` line says
      exactly `true`. */
  function TileOf(lines: seq<string>): Tile {
    Tile(LastOr(Headed(lines, "TIL "), ""), Art(lines, TileHeaders), LastOr(Headed(lines, "WAL "), "") == "true")
  }

  lemma TileHeads(line: string)
    ensures StartsWith(line, "TIL ") ==> !StartsWith(line, "WAL ")
    ensures Prefixed(line, TileHeaders) <==> StartsWith(line, "TIL ") || StartsWith(line, "WAL ")
  {
    Apart(line, "TIL ", "WAL ", 0);
  }

  method ParseTile(lines: seq<string>) returns (tile: Tile)
    ensures tile == TileOf(lines)
  {
    tile := Tile("", D.NoArt, false);
    var onFirstFrame := true;
    for i := 0 to |lines|
      invariant tile == TileOf(lines[..i])
      invariant onFirstFrame == !tile.art.isAnimated
    {
      var line := lines[i];
      HeadedNext(lines, i, "TIL ");
      HeadedNext(lines, i, "WAL ");
      ArtNext(lines, i, TileHeaders);
      ArtStill(lines[..i], TileHeaders);
      TileHeads(line);
      if StartsWith(line, "TIL ") {
        ReplaceHeader(line, "TIL ");
        tile := tile.(id := ReplaceFirst(line, "TIL ", ""));
      } else if StartsWith(line, "WAL ") {
        ReplaceHeader(line, "WAL ");
        tile := tile.(isWall := ReplaceFirst(line, "WAL ", "") == "true");
      } else if StartsWith(line, ">") {
        onFirstFrame := false;
        tile := tile.(art := tile.art.(isAnimated := true));
      } else if onFirstFrame {
        tile := tile.(art := tile.art.(frame1 := tile.art.frame1 + [line]));
      } else {
        tile := tile.(art := tile.art.(frame2 := tile.art.frame2 + [line]));
      }
    }
    assert lines[..|lines|] == lines;
  }

  /** A sprite's position: a room id and a position token; fewer than two
      words and the line is skipped. */
  function PlaceOf(rest: string): (r: Option<(string, Option<E.Position>)>)
    ensures r.None? <==> ' ' !in rest
  {
    SplitMany(rest, ' ');
    var parts := Split(rest, ' ');
    if |parts| < 2 then None else Some((parts[0], E.ParsePosition(parts[1])))
  }

  /** `position` is `None` both for the initial `[]` and for a token
      `parsePosition` rejects. */
  datatype Sprite = Sprite(id: string, art: D.Frames, roomId: string, position: Option<E.Position>, dialogId: string)

  const SpriteHeaders: seq<string> := ["SPR ", "POS ", "DLG "]

  /** The sprite a chunk's lines describe: room and position come together
      from the last `POS` line that has two words. */
  function SpriteOf(lines: seq<string>): Sprite {
    var place := LastOr(Keep(Headed(lines, "POS "), PlaceOf), ("", None));
    Sprite(LastOr(Headed(lines, "SPR "), ""), Art(lines, SpriteHeaders), place.0, place.1,
           LastOr(Headed(lines, "DLG "), ""))
  }

  lemma SpriteHeads(line: string)
    ensures StartsWith(line, "SPR ") ==> !StartsWith(line, "POS ") && !StartsWith(line, "DLG ")
    ensures StartsWith(line, "POS ") ==> !StartsWith(line, "DLG ")
    ensures Prefixed(line, SpriteHeaders) <==>
      StartsWith(line, "SPR ") || StartsWith(line, "POS ") || StartsWith(line, "DLG ")
  {
    Apart(line, "SPR ", "POS ", 0);
    Apart(line, "SPR ", "DLG ", 0);
    Apart(line, "POS ", "DLG ", 0);
  }

  method ParseSprite(lines: seq<string>) returns (sprite: Sprite)
    ensures sprite == SpriteOf(lines)
  {
    sprite := Sprite("", D.NoArt, "", None, "");
    var onFirstFrame := true;
    for i := 0 to |lines|
      invariant sprite == SpriteOf(lines[..i])
      invariant onFirstFrame == !sprite.art.isAnimated
    {
      var line := lines[i];
      SpriteStep(lines, i);
      ArtStill(lines[..i], SpriteHeaders);
      SpriteHeads(line);
      if StartsWith(line, "SPR ") {
        ReplaceHeader(line, "SPR ");
        sprite := sprite.(id := ReplaceFirst(line, "SPR ", ""));
      } else if StartsWith(line, "POS ") {
        ReplaceHeader(line, "POS ");
        var lineParts := Split(ReplaceFirst(line, "POS ", ""), ' ');
        if |lineParts| >= 2 {
          sprite := sprite.(roomId := lineParts[0], position := E.ParsePosition(lineParts[1]));
        }
      } else if StartsWith(line, "DLG ") {
        ReplaceHeader(line, "DLG ");
        sprite := sprite.(dialogId := ReplaceFirst(line, "DLG ", ""));
      } else if StartsWith(line, ">") {
        onFirstFrame := false;
        sprite := sprite.(art := sprite.art.(isAnimated := true));
      } else if onFirstFrame {
        sprite := sprite.(art := sprite.art.(frame1 := sprite.art.frame1 + [line]));
      } else {
        sprite := sprite.(art := sprite.art.(frame2 := sprite.art.frame2 + [line]));
      }
    }
    assert lines[..|lines|] == lines;
  }

  /** The change one line makes to a sprite, following the `else if`
      chain. */
  function SpriteLine(s: Sprite, line: string): Sprite {
    if StartsWith(line, "SPR ") then s.(id := line[4..])
    else if StartsWith(line, "POS ") then
      (match PlaceOf(line[4..]) case Some(p) => s.(roomId := p.0, position := p.1) case None => s)
    else if StartsWith(line, "DLG ") then s.(dialogId := line[4..])
    else s.(art := ArtLine(s.art, line, SpriteHeaders))
  }

  lemma SpriteStep(lines: seq<string>, i: nat)
    requires i < |lines|
    ensures SpriteOf(lines[..i + 1]) == SpriteLine(SpriteOf(lines[..i]), lines[i])
  {
    var line := lines[i];
    HeadedNext(lines, i, "SPR ");
    HeadedNext(lines, i, "POS ");
    HeadedNext(lines, i, "DLG ");
    ArtNext(lines, i, SpriteHeaders);
    SpriteHeads(line);
    if StartsWith(line, "POS ") {
      KeepNext(Headed(lines[..i], "POS "), line[4..], PlaceOf);
    }
  }

  // ---------------------------------------------------------------------
  // Item.parse
  // ---------------------------------------------------------------------

  /** An item keeps every other line as a drawing row, `>` lines included. */
  datatype Item = Item(id: string, name: string, data: seq<string>, dialogId: string)

  const ItemHeaders: seq<string> := ["ITM ", "NAME ", "DLG "]

  function ItemOf(lines: seq<string>): Item {
    Item(LastOr(Headed(lines, "ITM "), ""), LastOr(Headed(lines, "NAME "), ""), Unheaded(lines, ItemHeaders),
         LastOr(Headed(lines, "DLG "), ""))
  }

  lemma ItemHeads(line: string)
    ensures StartsWith(line, "ITM ") ==> !StartsWith(line, "NAME ") && !StartsWith(line, "DLG ")
    ensures StartsWith(line, "NAME ") ==> !StartsWith(line, "DLG ")
    ensures Prefixed(line, ItemHeaders) <==>
      StartsWith(line, "ITM ") || StartsWith(line, "NAME ") || StartsWith(line, "DLG ")
  {
    Apart(line, "ITM ", "NAME ", 0);
    Apart(line, "ITM ", "DLG ", 0);
    Apart(line, "NAME ", "DLG ", 0);
  }

  method ParseItem(lines: seq<string>) returns (item: Item)
    ensures item == ItemOf(lines)
  {
    item := Item("", "", [], "");
    for i := 0 to |lines|
      invariant item == ItemOf(lines[..i])
    {
      var line := lines[i];
      HeadedNext(lines, i, "ITM ");
      HeadedNext(lines, i, "NAME ");
      HeadedNext(lines, i, "DLG ");
      UnheadedNext(lines, i, ItemHeaders);
      ItemHeads(line);
      if StartsWith(line, "ITM ") {
        ReplaceHeader(line, "ITM ");
        item := item.(id := ReplaceFirst(line, "ITM ", ""));
      } else if StartsWith(line, "NAME ") {
        ReplaceHeader(line, "NAME ");
        item := item.(name := ReplaceFirst(line, "NAME ", ""));
      } else if StartsWith(line, "DLG ") {
        ReplaceHeader(line, "DLG ");
        item := item.(dialogId := ReplaceFirst(line, "DLG ", ""));
      } else {
        item := item.(data := item.data + [line]);
      }
    }
    assert lines[..|lines|] == lines;
  }

  /** Unlike a tile or sprite, an item draws a `>` line as a row. */
  lemma ItemKeepsMarker(lines: seq<string>, i: nat)
    requires i < |lines| && StartsWith(lines[i], ">")
    ensures lines[i] in ItemOf(lines).data
    ensures lines[i] !in Art(lines, TileHeaders).frame1 + Art(lines, TileHeaders).frame2
  {
    ItemHeads(lines[i]);
    Apart(lines[i], ">", "ITM ", 0);
    Apart(lines[i], ">", "NAME ", 0);
    Apart(lines[i], ">", "DLG ", 0);
    UnheadedHas(lines, ItemHeaders, i);
    ArtRows(lines, TileHeaders);
    RowsClean(lines, TileHeaders);
  }

  lemma {:induction false} UnheadedHas(lines: seq<string>, prefixes: seq<string>, i: nat)
    requires i < |lines| && !Prefixed(lines[i], prefixes)
    ensures lines[i] in Unheaded(lines, prefixes)
  {
    var n := |lines| - 1;
    if i < n {
      UnheadedHas(lines[..n], prefixes, i);
    }
  }

  // ---------------------------------------------------------------------
  // Dialog.parse and Ending.parse
  // ---------------------------------------------------------------------

  /** The lines after any leading empty ones: an empty line leaves an empty
      text empty. */
  function DropBlank(lines: seq<string>): (r: seq<string>)
    ensures r == [] || r[0] != ""
    ensures |r| <= |lines| && r == lines[|lines| - |r|..]
  {
    if |lines| == 0 then []
    else if lines[0] == "" then DropBlank(lines[1..])
    else lines
  }

  /** The text the body lines build: each line after the first non-empty
      one is appended after a newline. */
  function TextOf(lines: seq<string>, prefix: string): string {
    Join(DropBlank(E.Unprefixed(lines, prefix)), "\n")
  }

  datatype Dialog = Dialog(id: string, text: string)

  datatype Ending = Ending(id: string, text: string)

  function DialogOf(lines: seq<string>): Dialog {
    Dialog(LastOr(Headed(lines, "DLG "), ""), TextOf(lines, "DLG "))
  }

  function EndingOf(lines: seq<string>): Ending {
    Ending(LastOr(Headed(lines, "END "), ""), TextOf(lines, "END "))
  }

  /** The loop `Dialog.parse` and `Ending.parse` share, with the header
      prefix as a parameter. */
  method ReadText(lines: seq<string>, prefix: string) returns (id: string, text: string)
    ensures id == LastOr(Headed(lines, prefix), "")
    ensures text == TextOf(lines, prefix)
  {
    id, text := "", "";
    for i := 0 to |lines|
      invariant id == LastOr(Headed(lines[..i], prefix), "")
      invariant text == TextOf(lines[..i], prefix)
    {
      var line := lines[i];
      HeadedNext(lines, i, prefix);
      TextNext(lines, i, prefix);
      if StartsWith(line, prefix) {
        ReplaceHeader(line, prefix);
        id := ReplaceFirst(line, prefix, "");
      } else {
        if text != "" {
          text := text + "\n" + line;
        } else {
          text := line;
        }
      }
    }
    assert lines[..|lines|] == lines;
  }

  /** One more body line: appended after a newline once the text has
      started, else it starts the text. */
  lemma TextStep(body: seq<string>, line: string)
    ensures var text := Join(DropBlank(body), "\n");
      Join(DropBlank(body + [line]), "\n") == if text != "" then text + "\n" + line else line
  {
    DropBlankNext(body, line);
    JoinFilled(DropBlank(body), "\n");
    if DropBlank(body) != [] {
      JoinSnoc(DropBlank(body), line, "\n");
    } else if line != "" {
      assert Join([line], "\n") == line;
    }
  }

  /** One more line of a dialog or ending: a header leaves the text as it
      is, a body line goes through `TextStep`. */
  lemma TextNext(lines: seq<string>, i: nat, prefix: string)
    requires i < |lines|
    ensures StartsWith(lines[i], prefix) ==> TextOf(lines[..i + 1], prefix) == TextOf(lines[..i], prefix)
    ensures !StartsWith(lines[i], prefix) ==>
      TextOf(lines[..i + 1], prefix) ==
        if TextOf(lines[..i], prefix) != "" then TextOf(lines[..i], prefix) + "\n" + lines[i] else lines[i]
  {
    UnprefixedNext(lines, i, prefix);
    if !StartsWith(lines[i], prefix) {
      TextStep(E.Unprefixed(lines[..i], prefix), lines[i]);
    }
  }

  method ParseDialog(lines: seq<string>) returns (dialog: Dialog)
    ensures dialog == DialogOf(lines)
  {
    var id, text := ReadText(lines, "DLG ");
    dialog := Dialog(id, text);
  }

  method ParseEnding(lines: seq<string>) returns (ending: Ending)
    ensures ending == EndingOf(lines)
  {
    var id, text := ReadText(lines, "END ");
    ending := Ending(id, text);
  }

  lemma UnprefixedNext(lines: seq<string>, i: nat, prefix: string)
    requires i < |lines|
    ensures StartsWith(lines[i], prefix) ==> E.Unprefixed(lines[..i + 1], prefix) == E.Unprefixed(lines[..i], prefix)
    ensures !StartsWith(lines[i], prefix) ==>
      E.Unprefixed(lines[..i + 1], prefix) == E.Unprefixed(lines[..i], prefix) + [lines[i]]
  {
    assert lines[..i + 1][..i] == lines[..i];
    assert E.Unprefixed(lines[..i], prefix) + [] == E.Unprefixed(lines[..i], prefix);
  }

  lemma {:induction false} DropBlankNext(lines: seq<string>, line: string)
    ensures DropBlank(lines) == [] ==> DropBlank(lines + [line]) == (if line == "" then [] else [line])
    ensures DropBlank(lines) != [] ==> DropBlank(lines + [line]) == DropBlank(lines) + [line]
  {
    if |lines| == 0 {
      assert lines + [line] == [line];
      assert [line][1..] == [];
    } else {
      assert (lines + [line])[1..] == lines[1..] + [line];
      if lines[0] == "" {
        DropBlankNext(lines[1..], line);
      }
    }
  }

  /** A join that starts with a non-empty part is non-empty. */
  lemma JoinFilled(parts: seq<string>, sep: string)
    ensures parts != [] && parts[0] != "" ==> Join(parts, sep) != ""
    ensures parts == [] ==> Join(parts, sep) == ""
  {
    if |parts| > 1 {
      assert |Join(parts, sep)| >= |parts[0]|;
    }
  }

  lemma {:induction false} JoinSnoc(parts: seq<string>, last: string, sep: string)
    requires parts != []
    ensures Join(parts + [last], sep) == Join(parts, sep) + sep + last
  {
    if |parts| == 1 {
      assert (parts + [last])[1..] == [last];
    } else {
      JoinSnoc(parts[1..], last, sep);
      assert (parts + [last])[1..] == parts[1..] + [last];
    }
  }

  /** Reading the text back line by line gives the body lines: for the lines
      a document chunk yields (non-empty, without newlines) the text is the
      body joined with newlines, and empty without a body. */
  lemma TextLines(lines: seq<string>, prefix: string)
    requires forall line :: line in lines ==> line != "" && '\n' !in line
    ensures E.Unprefixed(lines, prefix) == [] ==> TextOf(lines, prefix) == ""
    ensures E.Unprefixed(lines, prefix) != [] ==> Split(TextOf(lines, prefix), '\n') == E.Unprefixed(lines, prefix)
  {
    var body := E.Unprefixed(lines, prefix);
    UnprefixedClean(lines, prefix);
    if body != [] {
      assert DropBlank(body) == body;
      SplitJoin(body, '\n');
    }
  }

  /** The body lines are among the chunk's lines, so they inherit being
      non-empty and free of newlines. */
  lemma {:induction false} UnprefixedClean(lines: seq<string>, prefix: string)
    requires forall line :: line in lines ==> line != "" && '\n' !in line
    ensures forall k :: 0 <= k < |E.Unprefixed(lines, prefix)| ==>
      E.Unprefixed(lines, prefix)[k] != "" && '\n' !in E.Unprefixed(lines, prefix)[k]
  {
    if |lines| > 0 {
      var n := |lines| - 1;
      assert forall line :: line in lines[..n] ==> line in lines;
      UnprefixedClean(lines[..n], prefix);
      UnprefixedNext(lines, n, prefix);
      assert lines[..n + 1] == lines;
      assert lines[n] in lines;
    }
  }

  // ---------------------------------------------------------------------
  // Variable.parse
  // ---------------------------------------------------------------------

  datatype Variable = Variable(id: string, value: string)

  /** The last `VAR` line names the variable and the last other line is its
      value. */
  function VariableOf(lines: seq<string>): Variable {
    Variable(LastOr(Headed(lines, "VAR "), ""), LastOr(E.Unprefixed(lines, "VAR "), ""))
  }

  method ParseVariable(lines: seq<string>) returns (variable: Variable)
    ensures variable == VariableOf(lines)
  {
    variable := Variable("", "");
    for i := 0 to |lines|
      invariant variable == VariableOf(lines[..i])
    {
      var line := lines[i];
      HeadedNext(lines, i, "VAR ");
      UnprefixedNext(lines, i, "VAR ");
      if StartsWith(line, "VAR ") {
        ReplaceHeader(line, "VAR ");
        variable := variable.(id := ReplaceFirst(line, "VAR ", ""));
      } else {
        variable := variable.(value := line);
      }
    }
    assert lines[..|lines|] == lines;
  }

  // ---------------------------------------------------------------------
  // Utility.drawingToSvg and Utility.roomToSvg
  // ---------------------------------------------------------------------

  /** A unit square at a grid point: one `svgRect`. */
  datatype Rect = Rect(x: int, y: int)

  /** The squares of one row drawn at `(x, y)`: one per `'1'` cell. */
  function RowRects(row: string, x: int, y: int): seq<Rect> {
    if |row| == 0 then []
    else
      var n := |row| - 1;
      RowRects(row[..n], x, y) + (if row[n] == '1' then [Rect(x + n, y)] else [])
  }

  /** The squares of a drawing whose top-left corner is at `(x, y)`, row by
      row. */
  function Rects(rows: seq<string>, x: int, y: int): seq<Rect> {
    if |rows| == 0 then []
    else
      var n := |rows| - 1;
      Rects(rows[..n], x, y) + RowRects(rows[n], x, y + n)
  }

  /** `drawingToSvg` on the rows of a drawing (a tile's or sprite's
      `frame1`, an item's `data`). */
  method DrawingToSvg(rows: seq<string>, x: int, y: int) returns (elements: seq<Rect>)
    ensures elements == Rects(rows, x, y)
  {
    elements := [];
    for localY := 0 to |rows|
      invariant elements == Rects(rows[..localY], x, y)
    {
      var row := rows[localY];
      ghost var above := elements;
      for localX := 0 to |row|
        invariant elements == above + RowRects(row[..localX], x, y + localY)
      {
        assert row[..localX + 1][..localX] == row[..localX];
        if row[localX] == '1' {
          elements := elements + [Rect(x + localX, y + localY)];
        }
      }
      assert row[..|row|] == row;
      assert rows[..localY + 1][..localY] == rows[..localY];
    }
    assert rows[..|rows|] == rows;
  }

  /** A `'1'` cell of a row is drawn at its offset. */
  lemma {:induction false} RowHas(row: string, x: int, y: int, lx: nat)
    requires lx < |row| && row[lx] == '1'
    ensures Rect(x + lx, y) in RowRects(row, x, y)
  {
    var n := |row| - 1;
    if lx < n {
      assert row[..n][lx] == '1';
      RowHas(row[..n], x, y, lx);
    }
  }

  /** Every square of a row is drawn for one of its `'1'` cells. */
  lemma {:induction false} RowFrom(row: string, x: int, y: int, r: Rect)
    requires r in RowRects(row, x, y)
    ensures exists lx :: 0 <= lx < |row| && row[lx] == '1' && r == Rect(x + lx, y)
  {
    var n := |row| - 1;
    if r in RowRects(row[..n], x, y) {
      RowFrom(row[..n], x, y, r);
      var lx :| 0 <= lx < n && row[..n][lx] == '1' && r == Rect(x + lx, y);
      assert row[lx] == '1';
    } else {
      assert row[n] == '1' && r == Rect(x + n, y);
    }
  }

  /** A `'1'` cell of a drawing is drawn at its offset. */
  lemma {:induction false} RectsHas(rows: seq<string>, x: int, y: int, ly: nat, lx: nat)
    requires ly < |rows| && lx < |rows[ly]| && rows[ly][lx] == '1'
    ensures Rect(x + lx, y + ly) in Rects(rows, x, y)
  {
    var n := |rows| - 1;
    if ly < n {
      assert rows[..n][ly] == rows[ly];
      RectsHas(rows[..n], x, y, ly, lx);
    } else {
      RowHas(rows[n], x, y + n, lx);
    }
  }

  /** Every square of a drawing is drawn for one of its `'1'` cells. */
  lemma {:induction false} RectsFrom(rows: seq<string>, x: int, y: int, r: Rect)
    requires r in Rects(rows, x, y)
    ensures exists ly, lx :: 0 <= ly < |rows| && 0 <= lx < |rows[ly]| && rows[ly][lx] == '1' && r == Rect(x + lx, y + ly)
  {
    var n := |rows| - 1;
    if r in Rects(rows[..n], x, y) {
      RectsFrom(rows[..n], x, y, r);
      var ly, lx :| 0 <= ly < n && 0 <= lx < |rows[..n][ly]| && rows[..n][ly][lx] == '1' && r == Rect(x + lx, y + ly);
      assert rows[..n][ly] == rows[ly];
    } else {
      RowFrom(rows[n], x, y + n, r);
      var lx :| 0 <= lx < |rows[n]| && rows[n][lx] == '1' && r == Rect(x + lx, y + n);
      assert 0 <= n < |rows| && 0 <= lx < |rows[n]| && rows[n][lx] == '1' && r == Rect(x + lx, y + n);
    }
  }

  /** A square is drawn exactly at the offset of a `'1'` cell of the
      drawing. */
  lemma RectsMember(rows: seq<string>, x: int, y: int, r: Rect)
    ensures r in Rects(rows, x, y) <==>
      exists ly, lx :: 0 <= ly < |rows| && 0 <= lx < |rows[ly]| && rows[ly][lx] == '1' && r == Rect(x + lx, y + ly)
  {
    if r in Rects(rows, x, y) {
      RectsFrom(rows, x, y, r);
    }
    if exists ly, lx :: 0 <= ly < |rows| && 0 <= lx < |rows[ly]| && rows[ly][lx] == '1' && r == Rect(x + lx, y + ly) {
      var ly, lx :| 0 <= ly < |rows| && 0 <= lx < |rows[ly]| && rows[ly][lx] == '1' && r == Rect(x + lx, y + ly);
      RectsHas(rows, x, y, ly, lx);
    }
  }

  /** The number of `'1'` cells of a drawing. */
  function Ones(rows: seq<string>): nat {
    if |rows| == 0 then 0 else Ones(rows[..|rows| - 1]) + multiset(rows[|rows| - 1])['1']
  }

  /** One square per `'1'` cell, no more. */
  lemma {:induction false} RectsCount(rows: seq<string>, x: int, y: int)
    ensures |Rects(rows, x, y)| == Ones(rows)
  {
    if |rows| > 0 {
      var n := |rows| - 1;
      RectsCount(rows[..n], x, y);
      RowCount(rows[n], x, y + n);
    }
  }

  lemma {:induction false} RowCount(row: string, x: int, y: int)
    ensures |RowRects(row, x, y)| == multiset(row)['1']
  {
    if |row| > 0 {
      var n := |row| - 1;
      RowCount(row[..n], x, y);
      assert row == row[..n] + [row[n]];
      assert multiset(row) == multiset(row[..n]) + multiset{row[n]};
    }
  }

  function IdIs(cell: string): Tile -> bool {
    (t: Tile) => t.id == cell
  }

  /** The squares of one room cell: none for `0` or for an id no tile has,
      else the first tile with that id drawn from its first frame, eight
      units per cell. */
  function CellRects(cell: string, x: int, y: int, tiles: seq<Tile>): seq<Rect> {
    if cell == "0" then []
    else match Find(tiles, IdIs(cell))
      case None => []
      case Some(t) => Rects(t.art.frame1, x * 8, y * 8)
  }

  /** A cell renderer: the squares of the cell with a given name at a given
      grid point. */
  type Painter = (string, int, int) -> seq<Rect>

  function TilePainter(tiles: seq<Tile>): Painter {
    (cell, x, y) => CellRects(cell, x, y, tiles)
  }

  /** The squares of one grid row, cell by cell. */
  function RowCells(row: seq<string>, y: int, paint: Painter): seq<Rect> {
    if |row| == 0 then []
    else
      var n := |row| - 1;
      RowCells(row[..n], y, paint) + paint(row[n], n, y)
  }

  /** The squares of a grid, cell by cell in row-major order. */
  function GridCells(data: seq<seq<string>>, paint: Painter): seq<Rect> {
    if |data| == 0 then []
    else
      var n := |data| - 1;
      GridCells(data[..n], paint) + RowCells(data[n], n, paint)
  }

  /** The squares of a room's grid drawn with the given tiles. */
  function RoomRects(data: seq<seq<string>>, tiles: seq<Tile>): seq<Rect> {
    GridCells(data, TilePainter(tiles))
  }

  lemma RowCellsNext(row: seq<string>, x: nat, y: int, paint: Painter)
    requires x < |row|
    ensures RowCells(row[..x + 1], y, paint) == RowCells(row[..x], y, paint) + paint(row[x], x, y)
  {
    assert row[..x + 1][..x] == row[..x];
  }

  lemma GridCellsNext(data: seq<seq<string>>, y: nat, paint: Painter)
    requires y < |data|
    ensures GridCells(data[..y + 1], paint) == GridCells(data[..y], paint) + RowCells(data[y], y, paint)
  {
    assert data[..y + 1][..y] == data[..y];
  }

  /** The names a plain object `{}` already answers through
      `Object.prototype`: looked up in an empty object, each gives a
      function (or, for `__proto__`, the prototype itself), never
      `undefined`. */
  const Inherited: set<string> := {
    "constructor", "hasOwnProperty", "isPrototypeOf", "propertyIsEnumerable",
    "toLocaleString", "toString", "valueOf", "__proto__",
    "__defineGetter__", "__defineSetter__", "__lookupGetter__", "__lookupSetter__"}

  /** Whether a grid row holds a cell named after an inherited member. */
  predicate InheritsSome(row: seq<string>) {
    exists x :: 0 <= x < |row| && row[x] in Inherited
  }

  /** What `roomToSvg` can throw: `drawingToSvg` is handed an inherited
      member, which has neither `frame1` nor `data`, and calls `forEach` on
      `undefined`. */
  datatype Thrown = NotADrawing

  /** Every own entry of the cache is the tile `find` returns for its id,
      stored under a name the object does not inherit. */
  predicate Cached(tileCache: map<string, Tile>, tiles: seq<Tile>) {
    forall id :: id in tileCache ==> id !in Inherited && Find(tiles, IdIs(id)) == Some(tileCache[id])
  }

  /** `roomToSvg`: the tile cache only saves searches, so the squares are
      those of the cache-free definition; but the cache is a plain object,
      and the first cell named after an inherited member is drawn from that
      member, which throws. */
  method RoomToSvg(room: Room, tiles: seq<Tile>) returns (r: Result<seq<Rect>, Thrown>)
    ensures r.Err? <==> exists y :: 0 <= y < |room.data| && InheritsSome(room.data[y])
    ensures r.Ok? ==> r.value == RoomRects(room.data, tiles)
  {
    var elements := [];
    var tileCache: map<string, Tile> := map[];
    for y := 0 to |room.data|
      invariant elements == GridCells(room.data[..y], TilePainter(tiles))
      invariant forall y' :: 0 <= y' < y ==> !InheritsSome(room.data[y'])
      invariant Cached(tileCache, tiles)
    {
      var drawn;
      drawn, tileCache := RowToSvg(room.data[y], y, tiles, tileCache);
      if drawn.Err? {
        return Err(drawn.error);
      }
      elements := elements + drawn.value;
      GridCellsNext(room.data, y, TilePainter(tiles));
    }
    assert room.data[..|room.data|] == room.data;
    return Ok(elements);
  }

  /** One row of `roomToSvg`, sharing the cache with the other rows. */
  method RowToSvg(row: seq<string>, y: int, tiles: seq<Tile>, tileCache: map<string, Tile>)
    returns (r: Result<seq<Rect>, Thrown>, cache: map<string, Tile>)
    requires Cached(tileCache, tiles)
    ensures r.Err? <==> InheritsSome(row)
    ensures r.Ok? ==> r.value == RowCells(row, y, TilePainter(tiles))
    ensures Cached(cache, tiles)
  {
    var elements := [];
    cache := tileCache;
    for x := 0 to |row|
      invariant elements == RowCells(row[..x], y, TilePainter(tiles))
      invariant forall x' :: 0 <= x' < x ==> row[x'] !in Inherited
      invariant Cached(cache, tiles)
    {
      RowCellsNext(row, x, y, TilePainter(tiles));
      var drawn;
      drawn, cache := CellToSvg(row[x], x, y, tiles, cache);
      if drawn.Err? {
        return Err(drawn.error), cache;
      }
      elements := elements + drawn.value;
    }
    assert row[..|row|] == row;
    r := Ok(elements);
  }

  /** One cell of `roomToSvg`. A cell whose name the cache answers, either
      an own entry or an inherited member, skips the search; a miss
      searches the tiles and caches what it finds under the cell's id. */
  method CellToSvg(cell: string, x: int, y: int, tiles: seq<Tile>, tileCache: map<string, Tile>)
    returns (drawn: Result<seq<Rect>, Thrown>, cache: map<string, Tile>)
    requires Cached(tileCache, tiles)
    ensures drawn.Err? <==> cell in Inherited
    ensures drawn.Ok? ==> drawn.value == CellRects(cell, x, y, tiles)
    ensures Cached(cache, tiles) && tileCache.Keys <= cache.Keys
  {
    drawn, cache := Ok([]), tileCache;
    if cell == "0" {
      return;
    }
    if !(cell in cache || cell in Inherited) {
      var tile := Find(tiles, IdIs(cell));
      if tile.None? {
        return;
      }
      cache := cache[tile.value.id := tile.value];
    }
    if cell !in cache {
      return Err(NotADrawing), cache;
    }
    var elements := DrawingToSvg(cache[cell].art.frame1, x * 8, y * 8);
    drawn := Ok(elements);
  }

  /** A square of a room comes from exactly one kind of place: a cell of the
      grid whose tile draws it. */
  lemma RoomMember(data: seq<seq<string>>, tiles: seq<Tile>, r: Rect)
    ensures r in RoomRects(data, tiles) <==>
      exists y, x :: 0 <= y < |data| && 0 <= x < |data[y]| && r in CellRects(data[y][x], x, y, tiles)
  {
    var paint := TilePainter(tiles);
    if r in RoomRects(data, tiles) {
      GridFrom(data, paint, r);
      var y, x :| 0 <= y < |data| && 0 <= x < |data[y]| && r in paint(data[y][x], x, y);
      assert r in CellRects(data[y][x], x, y, tiles);
    }
    if exists y, x :: 0 <= y < |data| && 0 <= x < |data[y]| && r in CellRects(data[y][x], x, y, tiles) {
      var y, x :| 0 <= y < |data| && 0 <= x < |data[y]| && r in CellRects(data[y][x], x, y, tiles);
      GridHas(data, paint, y, x, r);
    }
  }

  /** What a cell paints is among the squares of the grid. */
  lemma {:induction false} GridHas(data: seq<seq<string>>, paint: Painter, y: nat, x: nat, r: Rect)
    requires y < |data| && x < |data[y]| && r in paint(data[y][x], x, y)
    ensures r in GridCells(data, paint)
  {
    var n := |data| - 1;
    if y < n {
      assert data[..n][y] == data[y];
      GridHas(data[..n], paint, y, x, r);
    } else {
      CellsHas(data[n], n, paint, x, r);
    }
  }

  /** Every square of the grid is painted by one of its cells. */
  lemma {:induction false} GridFrom(data: seq<seq<string>>, paint: Painter, r: Rect)
    requires r in GridCells(data, paint)
    ensures exists y, x :: 0 <= y < |data| && 0 <= x < |data[y]| && r in paint(data[y][x], x, y)
  {
    var n := |data| - 1;
    if r in GridCells(data[..n], paint) {
      GridFrom(data[..n], paint, r);
      var y, x :| 0 <= y < n && 0 <= x < |data[..n][y]| && r in paint(data[..n][y][x], x, y);
      assert data[..n][y] == data[y];
    } else {
      CellsFrom(data[n], n, paint, r);
      var x :| 0 <= x < |data[n]| && r in paint(data[n][x], x, n);
      assert 0 <= n < |data| && 0 <= x < |data[n]| && r in paint(data[n][x], x, n);
    }
  }

  /** What a cell paints is among the squares of its row. */
  lemma {:induction false} CellsHas(row: seq<string>, y: int, paint: Painter, x: nat, r: Rect)
    requires x < |row| && r in paint(row[x], x, y)
    ensures r in RowCells(row, y, paint)
  {
    var n := |row| - 1;
    if x < n {
      assert row[..n][x] == row[x];
      CellsHas(row[..n], y, paint, x, r);
    }
  }

  /** Every square of a row is painted by one of its cells. */
  lemma {:induction false} CellsFrom(row: seq<string>, y: int, paint: Painter, r: Rect)
    requires r in RowCells(row, y, paint)
    ensures exists x :: 0 <= x < |row| && r in paint(row[x], x, y)
  {
    var n := |row| - 1;
    if r in RowCells(row[..n], y, paint) {
      CellsFrom(row[..n], y, paint, r);
      var x :| 0 <= x < n && r in paint(row[..n][x], x, y);
      assert row[..n][x] == row[x];
    }
  }
}
