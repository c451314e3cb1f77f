/** Drawings of the entity framework (script/entities/drawing.js): the two
    animation frames a drawing's data lines hold, the pixels `draw` emits
    from them, and the `Tile`, `Sprite` and `Item` kinds built on them.

    The SVG markup is left out: `draw` yields the fill colour and the list
    of pixels, each with the animation frame it shows in (none for a pixel
    shown in both). */
module Drawings {
  import opened Wrappers
  import opened Entities
  import opened JsArray
  import opened Grids
  import opened Palettes

  /** `isAnimated`, `frame1`, `frame2`; a row is its line split into
      characters. */
  datatype Frames = Frames(isAnimated: bool, frame1: seq<string>, frame2: seq<string>)

  /** Frames before `parseData` runs. */
  const NoArt := Frames(false, [], [])

  /** `parseData`: the first line that is exactly `>` separates the two
      frames and is in neither; without one, every line is frame 1. */
  function SplitFrames(lines: seq<string>): (f: Frames)
    ensures f.isAnimated <==> ">" in lines
    ensures !f.isAnimated ==> f.frame1 == lines && f.frame2 == []
    ensures f.isAnimated ==> ">" !in f.frame1 && f.frame1 + [">"] + f.frame2 == lines
  {
    match FindIndex(lines, (line: string) => line == ">")
    case None => Frames(false, lines, [])
    case Some(i) =>
      assert lines[..i] + [lines[i]] + lines[i + 1..] == lines;
      Frames(true, lines[..i], lines[i + 1..])
  }

  datatype Frame = First | Second

  /** `Svg.pixel(x, y, frame)`: a unit square, shown only in `frame` when
      one is given. */
  datatype Pixel = Pixel(x: nat, y: nat, frame: Option<Frame>)

  /** A drawing's group: its fill colour and its pixels in emission order. */
  datatype Figure = Figure(fill: Color, pixels: seq<Pixel>)

  /** What `draw` emits for the cell `(x, y)` of frame 1; cells outside
      frame 1 are never visited and emit nothing. An animated drawing whose
      frame 2 has no row `y` throws. */
  function CellPixels(art: Frames, x: nat, y: nat): (r: Result<seq<Pixel>, Fault>)
    ensures r.Ok? ==> |r.value| <= 1 && forall p :: p in r.value ==> p.x == x && p.y == y
  {
    if y >= |art.frame1| || x >= |art.frame1[y]| then Ok([])
    else
      var cell := art.frame1[y][x];
      if !art.isAnimated then Ok(if cell == '1' then [Pixel(x, y, None)] else [])
      else if y >= |art.frame2| then Err(NoFrame2Row)
      else
        var other := if x < |art.frame2[y]| then Some(art.frame2[y][x]) else None;
        if other != Some(cell) then
          Ok((if cell == '1' then [Pixel(x, y, Some(First))] else [])
             + (if other == Some('1') then [Pixel(x, y, Some(Second))] else []))
        else Ok(if cell == '1' then [Pixel(x, y, None)] else [])
  }

  function Visit(art: Frames): ((nat, nat)) -> Result<seq<Pixel>, Fault> {
    (c: (nat, nat)) => CellPixels(art, c.0, c.1)
  }

  /** The pixels of the given cells, cell by cell, up to the first throw. */
  function Trace(art: Frames, cells: seq<(nat, nat)>): Result<seq<seq<Pixel>>, Fault> {
    MapOrThrow(cells, Visit(art))
  }

  /** The pixels of every cell of frame 1, row by row. */
  function Pixels(art: Frames): Result<seq<Pixel>, Fault> {
    match Trace(art, Cells(art.frame1))
    case Err(e) => Err(e)
    case Ok(parts) => Ok(Flatten(parts))
  }

  /** `draw(color)`: an absent colour throws in `Svg.colorCode` before any
      pixel is drawn. */
  function Render(art: Frames, color: Option<Color>): Result<Figure, Fault> {
    match color
    case None => Err(NoColour)
    case Some(c) =>
      match Pixels(art)
      case Err(e) => Err(e)
      case Ok(ps) => Ok(Figure(c, ps))
  }

  /** The body of the inner `forEach` of `draw` for a cell that does not
      throw. */
  method DrawCell(art: Frames, x: nat, y: nat) returns (out: seq<Pixel>)
    requires y < |art.frame1| && x < |art.frame1[y]|
    requires art.isAnimated ==> y < |art.frame2|
    ensures CellPixels(art, x, y) == Ok(out)
  {
    var cell := art.frame1[y][x];
    var other: Option<char> := if art.isAnimated && x < |art.frame2[y]| then Some(art.frame2[y][x]) else None;
    if art.isAnimated && other != Some(cell) {
      var shown1 := if cell == '1' then [Pixel(x, y, Some(First))] else [];
      var shown2 := if other == Some('1') then [Pixel(x, y, Some(Second))] else [];
      out := shown1 + shown2;
    } else {
      out := if cell == '1' then [Pixel(x, y, None)] else [];
    }
  }

  /** One more visited cell adds its pixels, or stops the drawing with the
      cell's error. */
  lemma DrawStep(art: Frames, done: seq<(nat, nat)>, x: nat, y: nat, parts: seq<seq<Pixel>>)
    requires Trace(art, done) == Ok(parts)
    ensures Trace(art, done + [(x, y)]) ==
      match CellPixels(art, x, y)
      case Err(e) => Err(e)
      case Ok(out) => Ok(parts + [out])
  {
    MapAppend(done, [(x, y)], Visit(art));
    assert [(x, y)][1..] == [];
    assert Visit(art)((x, y)) == CellPixels(art, x, y);
    match CellPixels(art, x, y)
    case Err(e) =>
    case Ok(out) =>
      assert MapOrThrow([(x, y)][1..], Visit(art)) == Ok([]);
      assert [out] + [] == [out];
  }

  /** `draw(color)` */
  method Draw(art: Frames, color: Option<Color>) returns (r: Result<Figure, Fault>)
    ensures r == Render(art, color)
  {
    if color.None? {
      return Err(NoColour);
    }
    var contents: seq<Pixel> := [];
    ghost var parts: seq<seq<Pixel>> := [];
    for y := 0 to |art.frame1|
      invariant Trace(art, Cells(art.frame1[..y])) == Ok(parts)
      invariant contents == Flatten(parts)
    {
      var row := art.frame1[y];
      ghost var done := Cells(art.frame1[..y]);
      assert done + RowCells(y, 0) == done;
      for x := 0 to |row|
        invariant Trace(art, done + RowCells(y, x)) == Ok(parts)
        invariant contents == Flatten(parts)
      {
        DrawStep(art, done + RowCells(y, x), x, y, parts);
        assert done + RowCells(y, x) + [(x, y)] == done + RowCells(y, x + 1);
        if art.isAnimated && y >= |art.frame2| {
          // `frame2[y]` is undefined: reading `[x]` from it throws
          CellsPrefix(art.frame1, x, y);
          MapStops(done + RowCells(y, x + 1), Cells(art.frame1), Visit(art));
          assert Trace(art, Cells(art.frame1)) == Err(NoFrame2Row);
          return Err(NoFrame2Row);
        }
        var out := DrawCell(art, x, y);
        assert (parts + [out])[..|parts|] == parts;
        parts := parts + [out];
        contents := contents + out;
      }
      CellsSnoc(art.frame1, y);
    }
    assert art.frame1[..|art.frame1|] == art.frame1;
    r := Ok(Figure(color.value, contents));
  }

  /** Whether `draw` emits `p` for the cell `p` sits on. */
  predicate Emits(art: Frames, p: Pixel) {
    match CellPixels(art, p.x, p.y)
    case Ok(q) => p in q
    case Err(_) => false
  }

  /** A drawn figure holds exactly the pixels its cells emit, all inside
      frame 1's shape, at most one per cell. */
  lemma Drawn(art: Frames, c: Color, fig: Figure, p: Pixel)
    requires Render(art, Some(c)) == Ok(fig)
    ensures fig.fill == c
    ensures p in fig.pixels <==> Emits(art, p)
    ensures p in fig.pixels ==> p.y < |art.frame1| && p.x < |art.frame1[p.y]|
    ensures |fig.pixels| <= |Cells(art.frame1)|
  {
    var cells := Cells(art.frame1);
    var parts := MapOrThrow(cells, Visit(art)).value;
    assert fig.pixels == Flatten(parts);
    FlattenMember(parts, p);
    forall i | 0 <= i < |parts| ensures |parts[i]| <= 1 {
      assert Visit(art)(cells[i]) == Ok(parts[i]);
    }
    FlattenBound(parts);
    if p in fig.pixels {
      var i :| 0 <= i < |parts| && p in parts[i];
      assert CellPixels(art, cells[i].0, cells[i].1) == Ok(parts[i]);
    }
    if Emits(art, p) {
      var q := CellPixels(art, p.x, p.y).value;
      assert p.y < |art.frame1| && p.x < |art.frame1[p.y]|;
      CellsMember(art.frame1, p.x, p.y);
      var i :| 0 <= i < |cells| && cells[i] == (p.x, p.y);
      assert Visit(art)(cells[i]) == Ok(parts[i]);
    }
  }

  /** A drawing fails to draw with a colour exactly when it is animated and
      frame 2 lacks a row that frame 1 has a cell in. */
  lemma DrawFails(art: Frames, c: Color)
    ensures Render(art, Some(c)).Err? <==>
      art.isAnimated && exists y :: 0 <= y < |art.frame1| && |art.frame1[y]| > 0 && y >= |art.frame2|
    ensures Render(art, Some(c)).Err? ==> Render(art, Some(c)).error == NoFrame2Row
  {
    var cells := Cells(art.frame1);
    var m := MapOrThrow(cells, Visit(art));
    if m.Err? {
      var i :| 0 <= i < |cells| && Visit(art)(cells[i]) == Err(m.error);
      assert CellPixels(art, cells[i].0, cells[i].1).Err?;
    }
    if art.isAnimated && exists y :: 0 <= y < |art.frame1| && |art.frame1[y]| > 0 && y >= |art.frame2| {
      var y :| 0 <= y < |art.frame1| && |art.frame1[y]| > 0 && y >= |art.frame2|;
      CellsMember(art.frame1, 0, y);
      var i :| 0 <= i < |cells| && cells[i] == (0, y);
      assert Visit(art)(cells[i]).Err?;
    }
  }

  /** Not animated: one static pixel per `1` cell of frame 1, nothing else. */
  lemma StaticPixels(art: Frames, c: Color, fig: Figure, x: nat, y: nat, f: Option<Frame>)
    requires !art.isAnimated && Render(art, Some(c)) == Ok(fig)
    ensures Pixel(x, y, f) in fig.pixels <==>
      f == None && y < |art.frame1| && x < |art.frame1[y]| && art.frame1[y][x] == '1'
  {
    Drawn(art, c, fig, Pixel(x, y, f));
  }

  /** Animated, where the frames agree at a cell: a static pixel iff the
      cell is `1`. */
  lemma AgreeingPixels(art: Frames, c: Color, fig: Figure, x: nat, y: nat, f: Option<Frame>)
    requires art.isAnimated && Render(art, Some(c)) == Ok(fig)
    requires y < |art.frame1| && x < |art.frame1[y]|
    requires y < |art.frame2| && x < |art.frame2[y]| && art.frame2[y][x] == art.frame1[y][x]
    ensures Pixel(x, y, f) in fig.pixels <==> f == None && art.frame1[y][x] == '1'
  {
    Drawn(art, c, fig, Pixel(x, y, f));
  }

  /** Animated, where the frames differ at a cell (frame 2's row too short
      counts as differing): a frame-1 pixel iff frame 1 has `1` there, a
      frame-2 pixel iff frame 2 has `1` there, and never a static one. */
  lemma DifferingPixels(art: Frames, c: Color, fig: Figure, x: nat, y: nat)
    requires art.isAnimated && Render(art, Some(c)) == Ok(fig)
    requires y < |art.frame1| && x < |art.frame1[y]|
    ensures y < |art.frame2|
    ensures !(x < |art.frame2[y]| && art.frame2[y][x] == art.frame1[y][x]) ==>
      && Pixel(x, y, None) !in fig.pixels
      && (Pixel(x, y, Some(First)) in fig.pixels <==> art.frame1[y][x] == '1')
      && (Pixel(x, y, Some(Second)) in fig.pixels <==> x < |art.frame2[y]| && art.frame2[y][x] == '1')
  {
    DrawFails(art, c);
    Drawn(art, c, fig, Pixel(x, y, None));
    Drawn(art, c, fig, Pixel(x, y, Some(First)));
    Drawn(art, c, fig, Pixel(x, y, Some(Second)));
  }

  // ---------------------------------------------------------------------
  // Tile, Sprite, Item
  // ---------------------------------------------------------------------

  datatype Tile = Tile(id: Option<Value>, isWall: bool, art: Frames)

  const TileHeaders: seq<string> := ["TIL", "WAL"]

  const BlankTile := Tile(None, false, NoArt)

  /** `Tile.setup()`: `TIL` sets the id; `WAL` sets `isWall` to whether the
      first value is exactly the string `true`. */
  function TileSchema(): seq<Field<Tile>> {
    [ Field("TIL", (t: Tile, first: Option<Value>, all: seq<Value>) => Ok(t.(id := first))),
      Field("WAL", (t: Tile, first: Option<Value>, all: seq<Value>) => Ok(t.(isWall := first == Some(Single("true"))))) ]
  }

  function ReadTile(lines: seq<string>): Tile {
    Tile(FirstOf(Recorded(lines, TileHeaders, "TIL")),
         FirstOf(Recorded(lines, TileHeaders, "WAL")) == Some(Single("true")),
         SplitFrames(Residual(lines, TileHeaders)))
  }

  lemma BuildTile(lines: seq<string>)
    ensures Keys(TileSchema()) == TileHeaders
    ensures Build(BlankTile, TileSchema(), lines) ==
      Ok((ReadTile(lines).(art := NoArt), Residual(lines, TileHeaders)))
  {
    var schema := TileSchema();
    assert Keys(schema) == TileHeaders;
    var c0, c1 := CallFor(lines, TileHeaders, "TIL"), CallFor(lines, TileHeaders, "WAL");
    var t1 := BlankTile.(id := c0.first);
    var t2 := t1.(isWall := c1.first == Some(Single("true")));
    assert RunSetters(BlankTile, schema, lines, TileHeaders) == RunSetters(t1, schema[1..], lines, TileHeaders);
    assert schema[1..][1..] == [];
    assert RunSetters(t1, schema[1..], lines, TileHeaders) == RunSetters(t2, [], lines, TileHeaders);
  }

  /** `new Tile(lines)` */
  method ParseTile(lines: seq<string>) returns (t: Tile)
    ensures t == ReadTile(lines)
  {
    var r, calls := Entities.Parse(lines, TileSchema(), BlankTile);
    BuildTile(lines);
    t := r.value.0.(art := SplitFrames(r.value.1));
  }

  /** A tile is a wall iff its first `WAL` value is `true`; a later `WAL`
      line cannot change that. */
  lemma WallFirstWins(a: seq<string>, b: seq<string>)
    requires Recorded(a, TileHeaders, "WAL") != []
    ensures ReadTile(a + b).isWall == ReadTile(a).isWall
  {
    FirstWins(a, b, TileHeaders, "WAL");
  }

  datatype Sprite = Sprite(id: Option<Value>, dialogId: Option<Value>, roomId: Option<string>,
                           position: Option<Position>, art: Frames)

  const SpriteHeaders: seq<string> := ["SPR", "DLG", "POS"]

  const BlankSprite := Sprite(None, None, None, None, NoArt)

  /** `setPosition(value)`: the room is the value's first entry, the
      position the parse of its second; a value without a second entry
      makes `parsePosition` read a property of undefined. */
  function SetPosition(v: Value): (r: Result<(Option<string>, Option<Position>), Fault>)
    ensures r.Err? <==> Width(v) < 2
    ensures r.Ok? ==> r.value.0.Some? && r.value.0 == At(v, 0)
    ensures r.Ok? ==> r.value.1 == ParsePosition(At(v, 1).value)
  {
    match At(v, 1)
    case None => Err(UndefinedToken)
    case Some(token) => Ok((At(v, 0), ParsePosition(token)))
  }

  /** `POS` sets the room and position only when its first value is present. */
  function Place(s: Sprite, first: Option<Value>): Result<Sprite, Fault> {
    match first
    case None => Ok(s)
    case Some(v) =>
      match SetPosition(v)
      case Err(e) => Err(e)
      case Ok(placed) => Ok(s.(roomId := placed.0, position := placed.1))
  }

  function SpriteSchema(): seq<Field<Sprite>> {
    [ Field("SPR", (s: Sprite, first: Option<Value>, all: seq<Value>) => Ok(s.(id := first))),
      Field("DLG", (s: Sprite, first: Option<Value>, all: seq<Value>) => Ok(s.(dialogId := first))),
      Field("POS", (s: Sprite, first: Option<Value>, all: seq<Value>) => Place(s, first)) ]
  }

  function ReadSprite(lines: seq<string>): Result<Sprite, Fault> {
    var unplaced := Sprite(FirstOf(Recorded(lines, SpriteHeaders, "SPR")),
                           FirstOf(Recorded(lines, SpriteHeaders, "DLG")), None, None,
                           SplitFrames(Residual(lines, SpriteHeaders)));
    Place(unplaced, FirstOf(Recorded(lines, SpriteHeaders, "POS")))
  }

  lemma BuildSprite(lines: seq<string>)
    ensures Keys(SpriteSchema()) == SpriteHeaders
    ensures Build(BlankSprite, SpriteSchema(), lines) ==
      match ReadSprite(lines)
      case Err(e) => Err(e)
      case Ok(s) => Ok((s.(art := NoArt), Residual(lines, SpriteHeaders)))
  {
    var schema := SpriteSchema();
    assert Keys(schema) == SpriteHeaders;
    var c0, c1, c2 := CallFor(lines, SpriteHeaders, "SPR"), CallFor(lines, SpriteHeaders, "DLG"),
      CallFor(lines, SpriteHeaders, "POS");
    var s1 := BlankSprite.(id := c0.first);
    var s2 := s1.(dialogId := c1.first);
    assert RunSetters(BlankSprite, schema, lines, SpriteHeaders) == RunSetters(s1, schema[1..], lines, SpriteHeaders);
    assert schema[1..][1..] == schema[2..];
    assert RunSetters(s1, schema[1..], lines, SpriteHeaders) == RunSetters(s2, schema[2..], lines, SpriteHeaders);
    assert schema[2..][1..] == [];
    var placed := Place(s2, c2.first);
    assert RunSetters(s2, schema[2..], lines, SpriteHeaders) ==
      match placed case Err(e) => Err(e) case Ok(s3) => RunSetters(s3, [], lines, SpriteHeaders);
    var art := SplitFrames(Residual(lines, SpriteHeaders));
    assert ReadSprite(lines) == Place(s2.(art := art), c2.first);
    match c2.first
    case None =>
    case Some(v) =>
      match SetPosition(v)
      case Err(e) =>
      case Ok(q) =>
  }

  /** `new Sprite(lines)` */
  method ParseSprite(lines: seq<string>) returns (r: Result<Sprite, Fault>)
    ensures r == ReadSprite(lines)
  {
    var built, calls := Entities.Parse(lines, SpriteSchema(), BlankSprite);
    BuildSprite(lines);
    if built.Err? {
      return Err(built.error);
    }
    r := Ok(built.value.0.(art := SplitFrames(built.value.1)));
  }

  /** A sprite whose first `POS` value has at least two entries is in the
      room its first entry names, at the parse of its second entry; for a
      `POS room x,y` line that is `room` at `x,y`. */
  lemma SpritePlaced(lines: seq<string>, v: Value)
    requires FirstOf(Recorded(lines, SpriteHeaders, "POS")) == Some(v) && Width(v) >= 2
    ensures ReadSprite(lines).Ok?
    ensures ReadSprite(lines).value.roomId == At(v, 0)
    ensures ReadSprite(lines).value.position == ParsePosition(At(v, 1).value)
  {
  }

  /** Without a present `POS` value a sprite has no room and no position. */
  lemma SpriteUnplaced(lines: seq<string>)
    requires FirstOf(Recorded(lines, SpriteHeaders, "POS")) == None
    ensures ReadSprite(lines).Ok?
    ensures ReadSprite(lines).value.roomId == None && ReadSprite(lines).value.position == None
  {
  }

  datatype Item = Item(id: Option<Value>, dialogId: Option<Value>, name: Option<Value>, art: Frames)

  const ItemHeaders: seq<string> := ["ITM", "DLG", "NAME"]

  const BlankItem := Item(None, None, None, NoArt)

  function ItemSchema(): seq<Field<Item>> {
    [ Field("ITM", (i: Item, first: Option<Value>, all: seq<Value>) => Ok(i.(id := first))),
      Field("DLG", (i: Item, first: Option<Value>, all: seq<Value>) => Ok(i.(dialogId := first))),
      Field("NAME", (i: Item, first: Option<Value>, all: seq<Value>) => Ok(i.(name := first))) ]
  }

  function ReadItem(lines: seq<string>): Item {
    Item(FirstOf(Recorded(lines, ItemHeaders, "ITM")), FirstOf(Recorded(lines, ItemHeaders, "DLG")),
         FirstOf(Recorded(lines, ItemHeaders, "NAME")), SplitFrames(Residual(lines, ItemHeaders)))
  }

  lemma BuildItem(lines: seq<string>)
    ensures Keys(ItemSchema()) == ItemHeaders
    ensures Build(BlankItem, ItemSchema(), lines) ==
      Ok((ReadItem(lines).(art := NoArt), Residual(lines, ItemHeaders)))
  {
    var schema := ItemSchema();
    assert Keys(schema) == ItemHeaders;
    var c0, c1, c2 := CallFor(lines, ItemHeaders, "ITM"), CallFor(lines, ItemHeaders, "DLG"),
      CallFor(lines, ItemHeaders, "NAME");
    var i1 := BlankItem.(id := c0.first);
    var i2 := i1.(dialogId := c1.first);
    var i3 := i2.(name := c2.first);
    assert RunSetters(BlankItem, schema, lines, ItemHeaders) == RunSetters(i1, schema[1..], lines, ItemHeaders);
    assert schema[1..][1..] == schema[2..];
    assert RunSetters(i1, schema[1..], lines, ItemHeaders) == RunSetters(i2, schema[2..], lines, ItemHeaders);
    assert schema[2..][1..] == [];
    assert RunSetters(i2, schema[2..], lines, ItemHeaders) == RunSetters(i3, [], lines, ItemHeaders);
  }

  /** `new Item(lines)` */
  method ParseItem(lines: seq<string>) returns (item: Item)
    ensures item == ReadItem(lines)
  {
    var r, calls := Entities.Parse(lines, ItemSchema(), BlankItem);
    BuildItem(lines);
    item := r.value.0.(art := SplitFrames(r.value.1));
  }
}
