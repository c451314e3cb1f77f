/** Rooms of the entity framework (script/entities/room.js): the room
    schema, its placements and grid, and the compositor that turns a room
    into a background and one square per grid cell.

    The SVG markup is left out: `draw` yields a `Picture` of abstract
    records. */
module Rooms {
  import opened Wrappers
  import opened Text
  import opened Entities
  import opened JsArray
  import opened Grids
  import opened Palettes
  import opened Drawings

  const RoomWidth := 16
  const RoomHeight := 16
  const SquareWidth := 8
  const SquareHeight := 8

  /** An item placed in the room: `{ id, position }`. */
  datatype Placement = Placement(id: Option<string>, position: Option<Position>)

  /** An ending placed in the room: `{ endingId, position }`. */
  datatype EndingPlacement = EndingPlacement(endingId: Option<string>, position: Option<Position>)

  /** `{ position, roomId, enterPosition }` */
  datatype Exit = Exit(position: Option<Position>, roomId: Option<string>, enterPosition: Option<Position>)

  datatype Room = Room(id: Option<Value>, name: Option<Value>, paletteId: Option<Value>,
                       items: seq<Placement>, endings: seq<EndingPlacement>, exits: seq<Exit>,
                       data: seq<seq<string>>)

  const RoomHeaders: seq<string> := ["ROOM", "NAME", "PAL", "ITM", "END", "EXT"]

  const BlankRoom := Room(None, None, None, [], [], [], [])

  // ---------------------------------------------------------------------
  // setItems, setEndings, setExits, parseData
  // ---------------------------------------------------------------------

  /** `parsePosition(v[k])`: reading the position of an entry that is not
      there throws. */
  function PositionAt(v: Value, k: nat): (r: Result<Option<Position>, Fault>)
    ensures r.Err? <==> Width(v) <= k
    ensures r.Ok? ==> r.value == ParsePosition(At(v, k).value)
  {
    match At(v, k)
    case None => Err(UndefinedToken)
    case Some(token) => Ok(ParsePosition(token))
  }

  function PlaceItem(v: Value): (r: Result<Placement, Fault>)
    ensures r.Err? <==> Width(v) < 2
    ensures r.Ok? ==> r.value.id == At(v, 0) && r.value.position == ParsePosition(At(v, 1).value)
  {
    match PositionAt(v, 1)
    case Err(e) => Err(e)
    case Ok(position) => Ok(Placement(At(v, 0), position))
  }

  function PlaceEnding(v: Value): (r: Result<EndingPlacement, Fault>)
    ensures r.Err? <==> Width(v) < 2
    ensures r.Ok? ==> r.value.endingId == At(v, 0) && r.value.position == ParsePosition(At(v, 1).value)
  {
    match PositionAt(v, 1)
    case Err(e) => Err(e)
    case Ok(position) => Ok(EndingPlacement(At(v, 0), position))
  }

  function PlaceExit(v: Value): (r: Result<Exit, Fault>)
    ensures r.Err? <==> Width(v) < 3
    ensures r.Ok? ==>
      && r.value.position == ParsePosition(At(v, 0).value)
      && r.value.roomId == At(v, 1)
      && r.value.enterPosition == ParsePosition(At(v, 2).value)
  {
    match PositionAt(v, 0)
    case Err(e) => Err(e)
    case Ok(position) =>
      match PositionAt(v, 2)
      case Err(e) => Err(e)
      case Ok(enter) => Ok(Exit(position, At(v, 1), enter))
  }

  /** `setItems(values)`: one placement per value, in order; a value with
      fewer than two entries throws. */
  function SetItems(values: seq<Value>): (r: Result<seq<Placement>, Fault>)
    ensures r.Err? <==> exists i :: 0 <= i < |values| && Width(values[i]) < 2
    ensures r.Ok? ==> |r.value| == |values| && forall i :: 0 <= i < |values| ==>
      r.value[i] == Placement(At(values[i], 0), ParsePosition(At(values[i], 1).value))
  {
    var r := MapOrThrow(values, PlaceItem);
    MapFails(values, PlaceItem);
    r
  }

  /** `setEndings(values)`: as `setItems`, for endings. */
  function SetEndings(values: seq<Value>): (r: Result<seq<EndingPlacement>, Fault>)
    ensures r.Err? <==> exists i :: 0 <= i < |values| && Width(values[i]) < 2
    ensures r.Ok? ==> |r.value| == |values| && forall i :: 0 <= i < |values| ==>
      r.value[i] == EndingPlacement(At(values[i], 0), ParsePosition(At(values[i], 1).value))
  {
    var r := MapOrThrow(values, PlaceEnding);
    MapFails(values, PlaceEnding);
    r
  }

  /** `setExits(values)`: one exit per value, in order, from its first three
      entries; a value with fewer than three entries throws. */
  function SetExits(values: seq<Value>): (r: Result<seq<Exit>, Fault>)
    ensures r.Err? <==> exists i :: 0 <= i < |values| && Width(values[i]) < 3
    ensures r.Ok? ==> |r.value| == |values| && forall i :: 0 <= i < |values| ==>
      r.value[i] == Exit(ParsePosition(At(values[i], 0).value), At(values[i], 1),
                         ParsePosition(At(values[i], 2).value))
  {
    var r := MapOrThrow(values, PlaceExit);
    MapFails(values, PlaceExit);
    r
  }

  /** `parseData`: one grid row per data line, the line split on commas;
      joining a row with commas gives its line back. */
  function Grid(lines: seq<string>): (rows: seq<seq<string>>)
    ensures |rows| == |lines|
    ensures forall y :: 0 <= y < |lines| ==> Join(rows[y], ",") == lines[y]
    ensures forall y, x :: 0 <= y < |lines| && 0 <= x < |rows[y]| ==> ',' !in rows[y][x]
  {
    if |lines| == 0 then []
    else
      var n := |lines| - 1;
      JoinSplit(lines[n], ",");
      SplitParts(lines[n], ',');
      Grid(lines[..n]) + [Split(lines[n], ',')]
  }

  // ---------------------------------------------------------------------
  // setup and parse
  // ---------------------------------------------------------------------

  function RoomSchema(): seq<Field<Room>> {
    [ Field("ROOM", (r: Room, first: Option<Value>, all: seq<Value>) => Ok(r.(id := first))),
      Field("NAME", (r: Room, first: Option<Value>, all: seq<Value>) => Ok(r.(name := first))),
      Field("PAL", (r: Room, first: Option<Value>, all: seq<Value>) => Ok(r.(paletteId := first))),
      Field("ITM", (r: Room, first: Option<Value>, all: seq<Value>) =>
        match SetItems(all) case Err(e) => Err(e) case Ok(items) => Ok(r.(items := items))),
      Field("END", (r: Room, first: Option<Value>, all: seq<Value>) =>
        match SetEndings(all) case Err(e) => Err(e) case Ok(endings) => Ok(r.(endings := endings))),
      Field("EXT", (r: Room, first: Option<Value>, all: seq<Value>) =>
        match SetExits(all) case Err(e) => Err(e) case Ok(exits) => Ok(r.(exits := exits))) ]
  }

  /** The room a chunk's lines describe: the first `ROOM`, `NAME` and `PAL`
      values, every `ITM`, `END` and `EXT` line in order, and the grid of
      the other lines; a placement line too short throws, items first. */
  function ReadRoom(lines: seq<string>): Result<Room, Fault> {
    match SetItems(Recorded(lines, RoomHeaders, "ITM"))
    case Err(e) => Err(e)
    case Ok(items) =>
      match SetEndings(Recorded(lines, RoomHeaders, "END"))
      case Err(e) => Err(e)
      case Ok(endings) =>
        match SetExits(Recorded(lines, RoomHeaders, "EXT"))
        case Err(e) => Err(e)
        case Ok(exits) =>
          Ok(Room(FirstOf(Recorded(lines, RoomHeaders, "ROOM")), FirstOf(Recorded(lines, RoomHeaders, "NAME")),
                  FirstOf(Recorded(lines, RoomHeaders, "PAL")), items, endings, exits,
                  Grid(Residual(lines, RoomHeaders))))
  }

  lemma BuildRoom(lines: seq<string>)
    ensures Keys(RoomSchema()) == RoomHeaders
    ensures Build(BlankRoom, RoomSchema(), lines) ==
      match ReadRoom(lines)
      case Err(e) => Err(e)
      case Ok(room) => Ok((room.(data := []), Residual(lines, RoomHeaders)))
  {
    var schema := RoomSchema();
    assert Keys(schema) == RoomHeaders;
    var k := RoomHeaders;
    var r1 := BlankRoom.(id := CallFor(lines, k, "ROOM").first);
    var r2 := r1.(name := CallFor(lines, k, "NAME").first);
    var r3 := r2.(paletteId := CallFor(lines, k, "PAL").first);
    assert RunSetters(BlankRoom, schema, lines, k) == RunSetters(r1, schema[1..], lines, k);
    assert schema[1..][1..] == schema[2..];
    assert RunSetters(r1, schema[1..], lines, k) == RunSetters(r2, schema[2..], lines, k);
    assert schema[2..][1..] == schema[3..];
    assert RunSetters(r2, schema[2..], lines, k) == RunSetters(r3, schema[3..], lines, k);
    assert schema[3..][1..] == schema[4..];
    assert schema[4..][1..] == schema[5..];
    assert schema[5..][1..] == [];
    match SetItems(Recorded(lines, k, "ITM"))
    case Err(e) =>
    case Ok(items) =>
      var r4 := r3.(items := items);
      assert RunSetters(r3, schema[3..], lines, k) == RunSetters(r4, schema[4..], lines, k);
      match SetEndings(Recorded(lines, k, "END"))
      case Err(e) =>
      case Ok(endings) =>
        var r5 := r4.(endings := endings);
        assert RunSetters(r4, schema[4..], lines, k) == RunSetters(r5, schema[5..], lines, k);
        match SetExits(Recorded(lines, k, "EXT"))
        case Err(e) =>
        case Ok(exits) =>
          var r6 := r5.(exits := exits);
          assert RunSetters(r5, schema[5..], lines, k) == RunSetters(r6, [], lines, k);
  }

  /** `new Room(lines)` */
  method ParseRoom(lines: seq<string>) returns (r: Result<Room, Fault>)
    ensures r == ReadRoom(lines)
  {
    RoomBuilt(lines);
    var built, calls := Entities.Parse(lines, RoomSchema(), BlankRoom);
    if built.Err? {
      return Err(built.error);
    }
    r := Ok(built.value.0.(data := Grid(built.value.1)));
  }

  /** What `parse` leaves, finished by `parseData`, is the room `ReadRoom`
      describes. */
  lemma RoomBuilt(lines: seq<string>)
    ensures DATA !in Keys(RoomSchema())
    ensures Build(BlankRoom, RoomSchema(), lines).Err? ==>
      ReadRoom(lines) == Err(Build(BlankRoom, RoomSchema(), lines).error)
    ensures Build(BlankRoom, RoomSchema(), lines).Ok? ==>
      var (room, rest) := Build(BlankRoom, RoomSchema(), lines).value;
      ReadRoom(lines) == Ok(room.(data := Grid(rest)))
  {
    RoomKeys();
    BuildRoom(lines);
    match ReadRoom(lines)
    case Err(e) =>
    case Ok(room) =>
      assert room.data == Grid(Residual(lines, RoomHeaders));
      assert room.(data := []).(data := Grid(Residual(lines, RoomHeaders))) == room;
  }

  lemma RoomKeys()
    ensures Keys(RoomSchema()) == RoomHeaders && DATA !in RoomHeaders
  {
  }

  /** An `ITM id x,y` line places item `id` at `(x, y)`. */
  lemma ItemLine(id: string, x: int, y: int)
    requires ' ' !in id
    ensures var line := ParseLine("ITM " + id + " " + FormatInt(x) + "," + FormatInt(y));
      line.header == "ITM" && PlaceItem(line.value) == Ok(Placement(Some(id), Some((x, y))))
  {
    var pos := FormatInt(x) + "," + FormatInt(y);
    assert "ITM" + " " == "ITM ";
    PlacementLine("ITM", id, x, y);
    PositionRoundTrip(x, y);
    var v := Many([id, pos]);
    assert At(v, 1) == Some(pos) && At(v, 0) == Some(id);
    assert PositionAt(v, 1) == Ok(Some((x, y)));
  }

  /** `header id x,y` parses to the header with the two tokens. */
  lemma PlacementLine(header: string, id: string, x: int, y: int)
    requires ' ' !in header && ' ' !in id
    ensures ParseLine(header + " " + id + " " + FormatInt(x) + "," + FormatInt(y))
      == Line(header, Many([id, FormatInt(x) + "," + FormatInt(y)]))
  {
    var pos := FormatInt(x) + "," + FormatInt(y);
    NoSpaceInPosition(x, y);
    ParseWords(header, [id, pos]);
    JoinCons(id, [pos], " ");
    assert [id, pos][1..] == [pos];
    assert Join([pos], " ") == pos;
    var fx, fy := FormatInt(x), FormatInt(y);
    var h, t := header + " ", id + " ";
    assert Join([id, pos], " ") == t + pos;
    assert t + pos == t + fx + "," + fy;
    assert h + (t + fx + "," + fy) == h + t + fx + "," + fy by {
      Assoc(h, t + fx + ",", fy);
      Assoc(h, t + fx, ",");
      Assoc(h, t, fx);
    }
    assert h + t == header + " " + id + " " by {
      Assoc(h, id, " ");
    }
    assert h + Join([id, pos], " ") == header + " " + id + " " + fx + "," + fy;
  }

  lemma Assoc(a: string, b: string, c: string)
    ensures a + (b + c) == a + b + c
  {
  }

  lemma NoSpaceInPosition(x: int, y: int)
    ensures ' ' !in FormatInt(x) + "," + FormatInt(y)
  {
    NoSpaceInNumber(x);
    NoSpaceInNumber(y);
  }

  lemma NoSpaceInNumber(n: int)
    ensures ' ' !in FormatInt(n)
  {
    var m: nat := if n < 0 then -n else n;
    FormatNatDigits(m);
    forall i | 0 <= i < |FormatNat(m)| ensures FormatNat(m)[i] != ' ' {
      assert IsDigit(FormatNat(m)[i], 10);
    }
  }

  // ---------------------------------------------------------------------
  // getTile
  // ---------------------------------------------------------------------

  /** The parts of the world the compositor reads. */
  datatype Scene = Scene(palettes: seq<Palette>, tiles: seq<Tile>, sprites: seq<Sprite>, items: seq<Item>)

  /** How `getTile` resolves a placed item: `AsWritten` compares item ids
      against the placement record itself, as room.js does, and so never
      resolves one; `ById` compares them against the placement's id. */
  datatype ItemLookup = AsWritten | ById

  /** `{ tile, sprite, item }` */
  datatype Occupants = Occupants(tile: Option<Tile>, sprite: Option<Sprite>, item: Option<Item>)

  /** `tile.id === tileId`: a tile id read from one token equals the cell. */
  function HasId(cell: string): Tile -> bool {
    (t: Tile) => t.id == Some(Single(cell))
  }

  /** The sprite test of `getTile`: in this room (its `roomId` string equals
      the room's one-token id), then at `(x, y)`, reading the position only
      for a sprite in the room. */
  function SpriteHere(room: Room, x: nat, y: nat): Sprite -> Result<bool, Fault> {
    (s: Sprite) =>
      if !(s.roomId.Some? && room.id == Some(Single(s.roomId.value))) then Ok(false)
      else if s.position.None? then Err(NoPosition)
      else Ok(s.position.value == (x as int, y as int))
  }

  /** The placement test of `getTile`: reading an absent position throws. */
  function PlacedHere(x: nat, y: nat): Placement -> Result<bool, Fault> {
    (p: Placement) =>
      if p.position.None? then Err(NoPosition)
      else Ok(p.position.value == (x as int, y as int))
  }

  /** `item.id === itemId.id` for a placement with an id. */
  function IsPlaced(id: string): Item -> bool {
    (i: Item) => i.id == Some(Single(id))
  }

  /** The item of a placement. */
  function ItemFor(mode: ItemLookup, scene: Scene, placement: Placement): Option<Item> {
    match mode
    // an id (a string, a token list or null) is never the placement object
    case AsWritten => None
    case ById => if placement.id.None? then None else Find(scene.items, IsPlaced(placement.id.value))
  }

  /** `getTile(x, y, world)` for a cell of the grid. */
  function GetTile(room: Room, scene: Scene, x: nat, y: nat, mode: ItemLookup): (r: Result<Occupants, Fault>)
    requires y < |room.data| && x < |room.data[y]|
    ensures r.Err? ==> r.error == NoPosition
    // it throws iff the sprite search or the placement search reads an
    // absent position before it finds a match
    ensures r.Err? <==>
      FindOrThrow(scene.sprites, SpriteHere(room, x, y)).Err? || FindOrThrow(room.items, PlacedHere(x, y)).Err?
    ensures r.Ok? ==> (r.value.tile.None? <==>
      forall j :: 0 <= j < |scene.tiles| ==> scene.tiles[j].id != Some(Single(room.data[y][x])))
    ensures r.Ok? && r.value.tile.Some? ==>
      exists j :: (0 <= j < |scene.tiles| && scene.tiles[j] == r.value.tile.value
        && scene.tiles[j].id == Some(Single(room.data[y][x]))
        && forall k :: 0 <= k < j ==> scene.tiles[k].id != Some(Single(room.data[y][x])))
    ensures r.Ok? && r.value.sprite.Some? ==>
      exists j :: (0 <= j < |scene.sprites| && scene.sprites[j] == r.value.sprite.value
        && SpriteHere(room, x, y)(scene.sprites[j]) == Ok(true)
        && forall k :: 0 <= k < j ==> SpriteHere(room, x, y)(scene.sprites[k]) == Ok(false))
    ensures r.Ok? && r.value.sprite.None? ==>
      forall j :: 0 <= j < |scene.sprites| ==> SpriteHere(room, x, y)(scene.sprites[j]) == Ok(false)
    ensures r.Ok? && mode == AsWritten ==> r.value.item == None
  {
    var tile := Find(scene.tiles, HasId(room.data[y][x]));
    match FindOrThrow(scene.sprites, SpriteHere(room, x, y))
    case Err(e) => Err(e)
    case Ok(sprite) =>
      match FindOrThrow(room.items, PlacedHere(x, y))
      case Err(e) => Err(e)
      case Ok(placement) =>
        Ok(Occupants(tile, sprite, if placement.None? then None else ItemFor(mode, scene, placement.value)))
  }

  // ---------------------------------------------------------------------
  // drawSquare, draw
  // ---------------------------------------------------------------------

  /** `Svg.rect(x, y, w, h, color)`: no fill when the colour is absent. */
  datatype Rect = Rect(x: int, y: int, w: int, h: int, color: Option<Color>)

  /** A square of the room, translated by `(tx, ty)`, with the figure drawn
      in it, if any. */
  datatype Square = Square(tx: int, ty: int, figure: Option<Figure>)

  /** What `draw` returns: the background, then the squares in order. */
  datatype Picture = Picture(background: Rect, squares: seq<Square>)

  /** `palette.colors[k]`: undefined beyond the palette. */
  function ColorAt(palette: Palette, k: nat): Option<Color> {
    if k < |palette.colors| then Some(palette.colors[k]) else None
  }

  /** `drawSquare(x, y, palette, world)` */
  function DrawSquare(room: Room, scene: Scene, palette: Palette, x: nat, y: nat, mode: ItemLookup): (r: Result<Square, Fault>)
    requires y < |room.data| && x < |room.data[y]|
    ensures r.Ok? ==> r.value.tx == 8 * x && r.value.ty == 8 * y
  {
    match GetTile(room, scene, x, y, mode)
    case Err(e) => Err(e)
    case Ok(o) =>
      var thing := if o.sprite.Some? then Some(o.sprite.value.art)
                   else if o.item.Some? then Some(o.item.value.art)
                   else if o.tile.Some? then Some(o.tile.value.art)
                   else None;
      var color := if o.sprite.Some? || o.item.Some? then ColorAt(palette, 2) else ColorAt(palette, 1);
      match thing
      case None => Ok(Square(x * SquareWidth, y * SquareHeight, None))
      case Some(art) =>
        match Render(art, color)
        case Err(e) => Err(e)
        case Ok(fig) => Ok(Square(x * SquareWidth, y * SquareHeight, Some(fig)))
  }

  /** The square of one visited cell; cells outside the grid are never
      visited. */
  function Visit(room: Room, scene: Scene, palette: Palette, mode: ItemLookup): ((nat, nat)) -> Result<Square, Fault> {
    (c: (nat, nat)) =>
      if c.1 < |room.data| && c.0 < |room.data[c.1]| then DrawSquare(room, scene, palette, c.0, c.1, mode)
      else Ok(Square(c.0 * SquareWidth, c.1 * SquareHeight, None))
  }

  /** The squares of the given cells, up to the first throw. */
  function Trace(room: Room, scene: Scene, palette: Palette, mode: ItemLookup, cells: seq<(nat, nat)>): Result<seq<Square>, Fault> {
    MapOrThrow(cells, Visit(room, scene, palette, mode))
  }

  /** `p.id === this.paletteId`: both null, or both the same one-token id;
      token lists are distinct arrays and never equal. */
  predicate SameId(a: Option<Value>, b: Option<Value>) {
    (a.None? && b.None?) || (a.Some? && b.Some? && a.value.Single? && a == b)
  }

  function PaletteOf(room: Room): Palette -> bool {
    (p: Palette) => SameId(p.id, room.paletteId)
  }

  /** `draw(world)` */
  function Image(room: Room, scene: Scene, mode: ItemLookup): Result<Picture, Fault> {
    match Find(scene.palettes, PaletteOf(room))
    case None => Err(NoPalette)
    case Some(palette) =>
      var background := Rect(0, 0, RoomWidth * SquareWidth, RoomHeight * SquareHeight, ColorAt(palette, 0));
      match Trace(room, scene, palette, mode, Cells(room.data))
      case Err(e) => Err(e)
      case Ok(squares) => Ok(Picture(background, squares))
  }

  /** One more visited cell adds its square, or stops the drawing. */
  lemma DrawStep(room: Room, scene: Scene, palette: Palette, mode: ItemLookup,
                 done: seq<(nat, nat)>, x: nat, y: nat, squares: seq<Square>)
    requires Trace(room, scene, palette, mode, done) == Ok(squares)
    requires y < |room.data| && x < |room.data[y]|
    ensures Trace(room, scene, palette, mode, done + [(x, y)]) ==
      match DrawSquare(room, scene, palette, x, y, mode)
      case Err(e) => Err(e)
      case Ok(sq) => Ok(squares + [sq])
  {
    var f := Visit(room, scene, palette, mode);
    MapAppend(done, [(x, y)], f);
    assert [(x, y)][1..] == [];
    assert f((x, y)) == DrawSquare(room, scene, palette, x, y, mode);
    match DrawSquare(room, scene, palette, x, y, mode)
    case Err(e) =>
    case Ok(sq) =>
      assert MapOrThrow([(x, y)][1..], f) == Ok([]);
      assert [sq] + [] == [sq];
  }

  /** One pass of the inner `forEach` of `draw`: the squares of row `y`
      appended to those drawn so far, or the first error. */
  method DrawRow(room: Room, scene: Scene, palette: Palette, mode: ItemLookup, y: nat, contents: seq<Square>)
    returns (r: Result<seq<Square>, Fault>)
    requires y < |room.data|
    requires Trace(room, scene, palette, mode, Cells(room.data[..y])) == Ok(contents)
    ensures r.Ok? ==> Trace(room, scene, palette, mode, Cells(room.data[..y + 1])) == r
    ensures r.Err? ==> Trace(room, scene, palette, mode, Cells(room.data)) == r
  {
    var row := room.data[y];
    var squares := contents;
    assert Cells(room.data[..y]) + RowCells(y, 0) == Cells(room.data[..y]);
    for x := 0 to |row|
      invariant Trace(room, scene, palette, mode, Cells(room.data[..y]) + RowCells(y, x)) == Ok(squares)
    {
      RowStep(room, scene, palette, mode, x, y, squares);
      var square := DrawSquare(room, scene, palette, x, y, mode);
      if square.Err? {
        return Err(square.error);
      }
      squares := squares + [square.value];
    }
    CellsSnoc(room.data, y);
    r := Ok(squares);
  }

  /** One pass of the innermost `forEach`: the cell's square extends the
      drawing, or its error is the error of the whole drawing. */
  lemma RowStep(room: Room, scene: Scene, palette: Palette, mode: ItemLookup, x: nat, y: nat, squares: seq<Square>)
    requires y < |room.data| && x < |room.data[y]|
    requires Trace(room, scene, palette, mode, Cells(room.data[..y]) + RowCells(y, x)) == Ok(squares)
    ensures DrawSquare(room, scene, palette, x, y, mode).Ok? ==>
      Trace(room, scene, palette, mode, Cells(room.data[..y]) + RowCells(y, x + 1))
        == Ok(squares + [DrawSquare(room, scene, palette, x, y, mode).value])
    ensures DrawSquare(room, scene, palette, x, y, mode).Err? ==>
      Trace(room, scene, palette, mode, Cells(room.data)) == Err(DrawSquare(room, scene, palette, x, y, mode).error)
  {
    var done := Cells(room.data[..y]);
    DrawStep(room, scene, palette, mode, done + RowCells(y, x), x, y, squares);
    assert done + RowCells(y, x) + [(x, y)] == done + RowCells(y, x + 1);
    if DrawSquare(room, scene, palette, x, y, mode).Err? {
      CellsPrefix(room.data, x, y);
      MapStops(done + RowCells(y, x + 1), Cells(room.data), Visit(room, scene, palette, mode));
    }
  }

  /** `draw(world)` */
  method Draw(room: Room, scene: Scene, mode: ItemLookup) returns (r: Result<Picture, Fault>)
    ensures r == Image(room, scene, mode)
  {
    var found := Find(scene.palettes, PaletteOf(room));
    if found.None? {
      return Err(NoPalette);
    }
    var palette := found.value;
    var background := Rect(0, 0, RoomWidth * SquareWidth, RoomHeight * SquareHeight, ColorAt(palette, 0));
    var contents: seq<Square> := [];
    for y := 0 to |room.data|
      invariant Trace(room, scene, palette, mode, Cells(room.data[..y])) == Ok(contents)
    {
      var row := DrawRow(room, scene, palette, mode, y, contents);
      if row.Err? {
        return Err(row.error);
      }
      contents := row.value;
    }
    assert room.data[..|room.data|] == room.data;
    r := Ok(Picture(background, contents));
  }

  // ---------------------------------------------------------------------
  // Properties of the compositor
  // ---------------------------------------------------------------------

  /** Sprite over item over tile: a square shows the sprite if there is one,
      else the item, else the tile, else nothing; a sprite or an item is
      drawn in palette colour 2, a tile in colour 1. */
  lemma Precedence(room: Room, scene: Scene, palette: Palette, x: nat, y: nat, mode: ItemLookup)
    requires y < |room.data| && x < |room.data[y]|
    requires DrawSquare(room, scene, palette, x, y, mode).Ok?
    ensures GetTile(room, scene, x, y, mode).Ok?
    ensures var o, fig := GetTile(room, scene, x, y, mode).value, DrawSquare(room, scene, palette, x, y, mode).value.figure;
      && (fig.None? <==> o.sprite.None? && o.item.None? && o.tile.None?)
      && (o.sprite.Some? ==> Render(o.sprite.value.art, ColorAt(palette, 2)) == Ok(fig.value))
      && (o.sprite.None? && o.item.Some? ==> Render(o.item.value.art, ColorAt(palette, 2)) == Ok(fig.value))
      && (o.sprite.None? && o.item.None? && o.tile.Some? ==> Render(o.tile.value.art, ColorAt(palette, 1)) == Ok(fig.value))
      && (fig.Some? ==> fig.value.fill == palette.colors[if o.sprite.Some? || o.item.Some? then 2 else 1])
  {
  }

  /** A room whose palette id matches no palette cannot be drawn. */
  lemma PaletteMissing(room: Room, scene: Scene, mode: ItemLookup)
    requires forall i :: 0 <= i < |scene.palettes| ==> !SameId(scene.palettes[i].id, room.paletteId)
    ensures Image(room, scene, mode) == Err(NoPalette)
  {
  }

  /** A drawn room has the 128 by 128 background in colour 0 of the first
      palette whose id matches, and one square per grid cell, translated by
      `(8x, 8y)`, in row-major order. */
  lemma ImageShape(room: Room, scene: Scene, mode: ItemLookup, pic: Picture)
    requires Image(room, scene, mode) == Ok(pic)
    ensures exists i :: (0 <= i < |scene.palettes| && SameId(scene.palettes[i].id, room.paletteId)
      && (forall j :: 0 <= j < i ==> !SameId(scene.palettes[j].id, room.paletteId))
      && pic.background == Rect(0, 0, 128, 128, ColorAt(scene.palettes[i], 0)))
    ensures |pic.squares| == |Cells(room.data)|
    ensures forall i :: 0 <= i < |pic.squares| ==>
      pic.squares[i].tx == 8 * Cells(room.data)[i].0 && pic.squares[i].ty == 8 * Cells(room.data)[i].1
    ensures forall i, j :: 0 <= i < j < |pic.squares| ==>
      pic.squares[i].ty < pic.squares[j].ty || (pic.squares[i].ty == pic.squares[j].ty && pic.squares[i].tx < pic.squares[j].tx)
  {
    var palette := Find(scene.palettes, PaletteOf(room)).value;
    var cells := Cells(room.data);
    var f := Visit(room, scene, palette, mode);
    assert MapOrThrow(cells, f) == Ok(pic.squares);
    forall i | 0 <= i < |cells|
      ensures pic.squares[i].tx == 8 * cells[i].0 && pic.squares[i].ty == 8 * cells[i].1
    {
      CellsMember(room.data, cells[i].0, cells[i].1);
      assert f(cells[i]) == Ok(pic.squares[i]);
    }
    CellsOrdered(room.data);
  }

  /** Every cell of the grid gets a square. */
  lemma EveryCellDrawn(room: Room, scene: Scene, mode: ItemLookup, pic: Picture, x: nat, y: nat)
    requires Image(room, scene, mode) == Ok(pic)
    requires y < |room.data| && x < |room.data[y]|
    ensures exists i :: 0 <= i < |pic.squares| && pic.squares[i].tx == 8 * x && pic.squares[i].ty == 8 * y
  {
    ImageShape(room, scene, mode, pic);
    CellsMember(room.data, x, y);
    var i :| 0 <= i < |Cells(room.data)| && Cells(room.data)[i] == (x, y);
    assert pic.squares[i].tx == 8 * x;
  }

  // ---------------------------------------------------------------------
  // The item lookup of getTile
  // ---------------------------------------------------------------------

  /** A one-cell room with the item `key` placed on its only cell, and a
      world holding that item and a three-colour palette. */
  function ItemExample(): (Room, Scene, Palette) {
    var palette := Palette(None, None, [Color("0", "0", "0"), Color("1", "1", "1"), Color("2", "2", "2")]);
    var room := Room(Some(Single("r")), None, None, [Placement(Some("key"), Some((0, 0)))], [], [], [["0"]]);
    var item := Item(Some(Single("key")), None, None, NoArt);
    (room, Scene([palette], [], [], [item]), palette)
  }

  /** As written, the placed item is not resolved and its square is empty;
      looked up by the placement's id, the item is drawn in colour 2. */
  lemma ItemLookupDefect()
    ensures var (room, scene, palette) := ItemExample();
      && GetTile(room, scene, 0, 0, AsWritten) == Ok(Occupants(None, None, None))
      && DrawSquare(room, scene, palette, 0, 0, AsWritten) == Ok(Square(0, 0, None))
      && GetTile(room, scene, 0, 0, ById) == Ok(Occupants(None, None, Some(scene.items[0])))
      && DrawSquare(room, scene, palette, 0, 0, ById) == Ok(Square(0, 0, Some(Figure(palette.colors[2], []))))
  {
    var (room, scene, palette) := ItemExample();
    assert Find(scene.tiles, HasId("0")) == None;
    assert FindOrThrow(room.items, PlacedHere(0, 0)) == Ok(Some(room.items[0]));
    assert Find(scene.items, IsPlaced("key")) == Some(scene.items[0]);
    assert Cells(NoArt.frame1) == [];
  }

  /** Looked up by id, the item of the first placement at a cell is the first
      world item with that placement's id. */
  lemma PlacedItemResolved(room: Room, scene: Scene, x: nat, y: nat, j: nat, k: nat, id: string)
    requires y < |room.data| && x < |room.data[y]|
    requires GetTile(room, scene, x, y, ById).Ok?
    requires j < |room.items| && room.items[j] == Placement(Some(id), Some((x as int, y as int)))
    requires forall n :: 0 <= n < j ==> room.items[n].position.Some? && room.items[n].position != Some((x as int, y as int))
    requires k < |scene.items| && scene.items[k].id == Some(Single(id))
    ensures GetTile(room, scene, x, y, ById).value.item.Some?
    ensures GetTile(room, scene, x, y, ById).value.item.value.id == Some(Single(id))
  {
    var found := FindOrThrow(room.items, PlacedHere(x, y));
    assert PlacedHere(x, y)(room.items[j]) == Ok(true);
    assert found.Ok?;
    assert found.value.Some?;
    var i :| 0 <= i < |room.items| && room.items[i] == found.value.value && PlacedHere(x, y)(room.items[i]) == Ok(true)
      && forall n :: 0 <= n < i ==> PlacedHere(x, y)(room.items[n]) == Ok(false);
    assert i == j;
    assert IsPlaced(id)(scene.items[k]);
  }
}
