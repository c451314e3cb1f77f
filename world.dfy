/** `World.parse` of the framework (script/entities/world.js): the document
    is cut into blank-line chunks, each chunk is dispatched on the prefix of
    its first line to the entity it describes, and the entity is pushed onto
    the World's collection of that kind. A chunk whose constructor throws,
    or a chunk with no line at all, aborts the whole load. */
module Worlds {
  import opened Wrappers
  import opened JsArray
  import opened Documents
  import E = Entities
  import P = Palettes
  import D = Drawings
  import R = Rooms
  import G = Dialogs
  import N = Endings
  import V = Variables

  /** One parsed entity, tagged with its kind. */
  datatype Entry =
    | PaletteEntry(palette: P.Palette)
    | RoomEntry(room: R.Room)
    | TileEntry(tile: D.Tile)
    | SpriteEntry(sprite: D.Sprite)
    | ItemEntry(item: D.Item)
    | DialogEntry(dialog: G.Dialog)
    | EndingEntry(ending: N.Ending)
    | VariableEntry(variable: V.Variable)

  function KindOfEntry(e: Entry): Kind {
    match e
    case PaletteEntry(_) => PaletteKind
    case RoomEntry(_) => RoomKind
    case TileEntry(_) => TileKind
    case SpriteEntry(_) => SpriteKind
    case ItemEntry(_) => ItemKind
    case DialogEntry(_) => DialogKind
    case EndingEntry(_) => EndingKind
    case VariableEntry(_) => VariableKind
  }

  /** The entity constructors `new Palette(lines)` … `new Variable(lines)`.
      Only the room and sprite constructors can throw. The properties of
      the load below hold whatever the constructors compute; `Load` uses
      `Readers`, the parsers of this model. */
  datatype Parsers = Parsers(
    palette: seq<string> -> P.Palette,
    room: seq<string> -> Result<R.Room, E.Fault>,
    tile: seq<string> -> D.Tile,
    sprite: seq<string> -> Result<D.Sprite, E.Fault>,
    item: seq<string> -> D.Item,
    dialog: seq<string> -> G.Dialog,
    ending: seq<string> -> N.Ending,
    variable: seq<string> -> V.Variable)

  const Readers: Parsers := Parsers(P.Read, R.ReadRoom, D.ReadTile, D.ReadSprite, D.ReadItem,
                                    G.ReadDialog, N.ReadEnding, V.ReadVariable)

  /** The constructor of kind `k` applied to a chunk's lines. */
  function Construct(parse: Parsers, k: Kind, lines: seq<string>): (r: Result<Entry, E.Fault>)
    ensures r.Ok? ==> KindOfEntry(r.value) == k
    ensures r.Err? ==> k == RoomKind || k == SpriteKind
  {
    match k
    case PaletteKind => Ok(PaletteEntry(parse.palette(lines)))
    case RoomKind =>
      (match parse.room(lines)
       case Err(e) => Err(e)
       case Ok(room) => Ok(RoomEntry(room)))
    case TileKind => Ok(TileEntry(parse.tile(lines)))
    case SpriteKind =>
      (match parse.sprite(lines)
       case Err(e) => Err(e)
       case Ok(sprite) => Ok(SpriteEntry(sprite)))
    case ItemKind => Ok(ItemEntry(parse.item(lines)))
    case DialogKind => Ok(DialogEntry(parse.dialog(lines)))
    case EndingKind => Ok(EndingEntry(parse.ending(lines)))
    case VariableKind => Ok(VariableEntry(parse.variable(lines)))
  }

  function Builder(parse: Parsers, k: Kind): seq<string> -> Result<Entry, E.Fault> {
    lines => Construct(parse, k, lines)
  }

  /** One pass of the `forEach`: the entity the chunk adds, if any. A chunk
      with no line throws, one whose header names no kind adds nothing, and
      a recognised one adds what its kind's constructor makes of it. */
  function Step(parse: Parsers, chunk: string): (r: Result<Option<Entry>, E.Fault>)
    ensures ChunkLines(chunk) == [] ==> r == Err(E.EmptyChunk)
    ensures r == Ok(None) <==> ChunkLines(chunk) != [] && !Recognised(chunk)
    ensures r.Ok? && r.value.Some? ==>
      Recognised(chunk) && Construct(parse, KindOf(ChunkLines(chunk)[0]).value, ChunkLines(chunk)) == Ok(r.value.value)
    ensures r.Err? && ChunkLines(chunk) != [] ==>
      Recognised(chunk) && Construct(parse, KindOf(ChunkLines(chunk)[0]).value, ChunkLines(chunk)) == Err(r.error)
  {
    var lines := ChunkLines(chunk);
    if |lines| == 0 then Err(E.EmptyChunk)
    else match KindOf(lines[0])
      case None => Ok(None)
      case Some(k) =>
        match Construct(parse, k, lines)
        case Err(e) => Err(e)
        case Ok(entry) => Ok(Some(entry))
  }

  function Stepper(parse: Parsers): string -> Result<Option<Entry>, E.Fault> {
    chunk => Step(parse, chunk)
  }

  /** The World's eight collections. */
  datatype Collections = Collections(
    palettes: seq<P.Palette>, rooms: seq<R.Room>, tiles: seq<D.Tile>, sprites: seq<D.Sprite>,
    items: seq<D.Item>, dialogs: seq<G.Dialog>, endings: seq<N.Ending>, variables: seq<V.Variable>)

  const Empty: Collections := Collections([], [], [], [], [], [], [], [])

  /** `world.<kind>s.push(entity)` */
  function Insert(c: Collections, e: Entry): Collections {
    match e
    case PaletteEntry(x) => c.(palettes := c.palettes + [x])
    case RoomEntry(x) => c.(rooms := c.rooms + [x])
    case TileEntry(x) => c.(tiles := c.tiles + [x])
    case SpriteEntry(x) => c.(sprites := c.sprites + [x])
    case ItemEntry(x) => c.(items := c.items + [x])
    case DialogEntry(x) => c.(dialogs := c.dialogs + [x])
    case EndingEntry(x) => c.(endings := c.endings + [x])
    case VariableEntry(x) => c.(variables := c.variables + [x])
  }

  /** The collections after pushing every entity the chunks produced. */
  function Gather(entries: seq<Option<Entry>>): Collections {
    if |entries| == 0 then Empty
    else
      var c := Gather(entries[..|entries| - 1]);
      match entries[|entries| - 1]
      case None => c
      case Some(e) => Insert(c, e)
  }

  /** The World built with the given constructors: the collections, or the
      first throw. */
  function LoadWith(parse: Parsers, data: string): Result<Collections, E.Fault> {
    match MapOrThrow(Chunks(data), Stepper(parse))
    case Err(e) => Err(e)
    case Ok(entries) => Ok(Gather(entries))
  }

  /** `World.parse(data)` */
  function Load(data: string): Result<Collections, E.Fault> {
    LoadWith(Readers, data)
  }

  // ---------------------------------------------------------------------
  // Reading the collections back
  // ---------------------------------------------------------------------

  /** The entry constructors as functions, to tag each collection. */
  const PaletteTag: P.Palette -> Entry := x => PaletteEntry(x)
  const RoomTag: R.Room -> Entry := x => RoomEntry(x)
  const TileTag: D.Tile -> Entry := x => TileEntry(x)
  const SpriteTag: D.Sprite -> Entry := x => SpriteEntry(x)
  const ItemTag: D.Item -> Entry := x => ItemEntry(x)
  const DialogTag: G.Dialog -> Entry := x => DialogEntry(x)
  const EndingTag: N.Ending -> Entry := x => EndingEntry(x)
  const VariableTag: V.Variable -> Entry := x => VariableEntry(x)

  /** The collection of kind `k`, as tagged entries. */
  function Entries(c: Collections, k: Kind): (r: seq<Entry>)
    ensures forall i :: 0 <= i < |r| ==> KindOfEntry(r[i]) == k
  {
    match k
    case PaletteKind => Tagged(c.palettes, PaletteTag)
    case RoomKind => Tagged(c.rooms, RoomTag)
    case TileKind => Tagged(c.tiles, TileTag)
    case SpriteKind => Tagged(c.sprites, SpriteTag)
    case ItemKind => Tagged(c.items, ItemTag)
    case DialogKind => Tagged(c.dialogs, DialogTag)
    case EndingKind => Tagged(c.endings, EndingTag)
    case VariableKind => Tagged(c.variables, VariableTag)
  }

  /** The total number of entities. */
  function Size(c: Collections): nat {
    |c.palettes| + |c.rooms| + |c.tiles| + |c.sprites| + |c.items| + |c.dialogs| + |c.endings| + |c.variables|
  }

  // ---------------------------------------------------------------------
  // The World object
  // ---------------------------------------------------------------------

  /** The constructor of kind `k`, run on a chunk's lines by the entity
      classes' own parse methods. */
  method Make(k: Kind, lines: seq<string>) returns (r: Result<Entry, E.Fault>)
    ensures r == Construct(Readers, k, lines)
  {
    match k {
      case PaletteKind =>
        var p := P.Parse(lines);
        r := Ok(PaletteEntry(p));
      case RoomKind =>
        var room := R.ParseRoom(lines);
        r := if room.Ok? then Ok(RoomEntry(room.value)) else Err(room.error);
      case TileKind =>
        var t := D.ParseTile(lines);
        r := Ok(TileEntry(t));
      case SpriteKind =>
        var s := D.ParseSprite(lines);
        r := if s.Ok? then Ok(SpriteEntry(s.value)) else Err(s.error);
      case ItemKind =>
        var item := D.ParseItem(lines);
        r := Ok(ItemEntry(item));
      case DialogKind =>
        var d := G.ParseDialog(lines);
        r := Ok(DialogEntry(d));
      case EndingKind =>
        var e := N.ParseEnding(lines);
        r := Ok(EndingEntry(e));
      case VariableKind =>
        var v := V.ParseVariable(lines);
        r := Ok(VariableEntry(v));
    }
  }

  class World {
    var palettes: seq<P.Palette>
    var rooms: seq<R.Room>
    var tiles: seq<D.Tile>
    var sprites: seq<D.Sprite>
    var items: seq<D.Item>
    var dialogs: seq<G.Dialog>
    var endings: seq<N.Ending>
    var variables: seq<V.Variable>

    function Contents(): Collections
      reads this
    {
      Collections(palettes, rooms, tiles, sprites, items, dialogs, endings, variables)
    }

    /** `new World()`: eight empty collections. */
    constructor()
      ensures Contents() == Empty
    {
      palettes, rooms, tiles, sprites := [], [], [], [];
      items, dialogs, endings, variables := [], [], [], [];
    }

    /** Push an entity onto the collection of its kind. */
    method Push(e: Entry)
      modifies this
      ensures Contents() == Insert(old(Contents()), e)
    {
      match e {
        case PaletteEntry(x) => palettes := palettes + [x];
        case RoomEntry(x) => rooms := rooms + [x];
        case TileEntry(x) => tiles := tiles + [x];
        case SpriteEntry(x) => sprites := sprites + [x];
        case ItemEntry(x) => items := items + [x];
        case DialogEntry(x) => dialogs := dialogs + [x];
        case EndingEntry(x) => endings := endings + [x];
        case VariableEntry(x) => variables := variables + [x];
      }
    }

    /** `World.parse(data)`: a fresh World holding what `Load` describes, or
        the fault of the first chunk that throws. */
    static method Parse(data: string) returns (r: Result<World, E.Fault>)
      ensures r.Ok? ==> fresh(r.value) && Load(data) == Ok(r.value.Contents())
      ensures r.Err? ==> Load(data) == Err(r.error)
    {
      var world := new World();
      var chunks := Chunks(data);
      ghost var entries: seq<Option<Entry>> := [];
      for i := 0 to |chunks|
        invariant MapOrThrow(chunks[..i], Stepper(Readers)) == Ok(entries)
        invariant world.Contents() == Gather(entries)
      {
        var lines := ChunkLines(chunks[i]);
        NextChunk(Readers, chunks, i, entries);
        if |lines| == 0 {
          MapStops(chunks[..i + 1], chunks, Stepper(Readers));
          return Err(E.EmptyChunk);
        }
        var kind := KindOf(lines[0]);
        if kind.None? {
          GatherSnoc(entries, None);
          entries := entries + [None];
        } else {
          var made := Make(kind.value, lines);
          if made.Err? {
            MapStops(chunks[..i + 1], chunks, Stepper(Readers));
            return Err(made.error);
          }
          world.Push(made.value);
          GatherSnoc(entries, Some(made.value));
          entries := entries + [Some(made.value)];
        }
      }
      assert chunks[..|chunks|] == chunks;
      return Ok(world);
    }
  }

  // ---------------------------------------------------------------------
  // Properties of the load
  // ---------------------------------------------------------------------

  /** Pushing an entity grows its own collection by that entity and leaves
      the other seven alone. */
  lemma InsertEntries(c: Collections, e: Entry, k: Kind)
    ensures Entries(Insert(c, e), k) == Entries(c, k) + (if KindOfEntry(e) == k then [e] else [])
    ensures Size(Insert(c, e)) == Size(c) + 1
  {
    if KindOfEntry(e) == k {
      InsertOwn(c, e);
    } else {
      InsertOther(c, e, k);
      assert Entries(c, k) + [] == Entries(c, k);
    }
    InsertSize(c, e);
  }

  lemma InsertOwn(c: Collections, e: Entry)
    ensures Entries(Insert(c, e), KindOfEntry(e)) == Entries(c, KindOfEntry(e)) + [e]
  {
    match e
    case PaletteEntry(x) => PushPalette(c, x);
    case RoomEntry(x) => PushRoom(c, x);
    case TileEntry(x) => PushTile(c, x);
    case SpriteEntry(x) => PushSprite(c, x);
    case ItemEntry(x) => PushItem(c, x);
    case DialogEntry(x) => PushDialog(c, x);
    case EndingEntry(x) => PushEnding(c, x);
    case VariableEntry(x) => PushVariable(c, x);
  }

  lemma PushPalette(c: Collections, x: P.Palette)
    ensures Entries(Insert(c, PaletteEntry(x)), PaletteKind) == Entries(c, PaletteKind) + [PaletteEntry(x)]
  {
    assert Insert(c, PaletteEntry(x)).palettes == c.palettes + [x];
    TaggedSnoc(c.palettes, x, PaletteTag);
  }

  lemma PushRoom(c: Collections, x: R.Room)
    ensures Entries(Insert(c, RoomEntry(x)), RoomKind) == Entries(c, RoomKind) + [RoomEntry(x)]
  {
    assert Insert(c, RoomEntry(x)).rooms == c.rooms + [x];
    TaggedSnoc(c.rooms, x, RoomTag);
  }

  lemma PushTile(c: Collections, x: D.Tile)
    ensures Entries(Insert(c, TileEntry(x)), TileKind) == Entries(c, TileKind) + [TileEntry(x)]
  {
    assert Insert(c, TileEntry(x)).tiles == c.tiles + [x];
    TaggedSnoc(c.tiles, x, TileTag);
  }

  lemma PushSprite(c: Collections, x: D.Sprite)
    ensures Entries(Insert(c, SpriteEntry(x)), SpriteKind) == Entries(c, SpriteKind) + [SpriteEntry(x)]
  {
    assert Insert(c, SpriteEntry(x)).sprites == c.sprites + [x];
    TaggedSnoc(c.sprites, x, SpriteTag);
  }

  lemma PushItem(c: Collections, x: D.Item)
    ensures Entries(Insert(c, ItemEntry(x)), ItemKind) == Entries(c, ItemKind) + [ItemEntry(x)]
  {
    assert Insert(c, ItemEntry(x)).items == c.items + [x];
    TaggedSnoc(c.items, x, ItemTag);
  }

  lemma PushDialog(c: Collections, x: G.Dialog)
    ensures Entries(Insert(c, DialogEntry(x)), DialogKind) == Entries(c, DialogKind) + [DialogEntry(x)]
  {
    assert Insert(c, DialogEntry(x)).dialogs == c.dialogs + [x];
    TaggedSnoc(c.dialogs, x, DialogTag);
  }

  lemma PushEnding(c: Collections, x: N.Ending)
    ensures Entries(Insert(c, EndingEntry(x)), EndingKind) == Entries(c, EndingKind) + [EndingEntry(x)]
  {
    assert Insert(c, EndingEntry(x)).endings == c.endings + [x];
    TaggedSnoc(c.endings, x, EndingTag);
  }

  lemma PushVariable(c: Collections, x: V.Variable)
    ensures Entries(Insert(c, VariableEntry(x)), VariableKind) == Entries(c, VariableKind) + [VariableEntry(x)]
  {
    assert Insert(c, VariableEntry(x)).variables == c.variables + [x];
    TaggedSnoc(c.variables, x, VariableTag);
  }

  lemma InsertOther(c: Collections, e: Entry, k: Kind)
    requires KindOfEntry(e) != k
    ensures Entries(Insert(c, e), k) == Entries(c, k)
  {
  }

  lemma InsertSize(c: Collections, e: Entry)
    ensures Size(Insert(c, e)) == Size(c) + 1
  {
  }

  /** Each collection holds, in chunk order, what the constructor of its
      kind makes of each chunk of that kind. */
  lemma {:induction false} GatherEntries(parse: Parsers, chunks: seq<string>, entries: seq<Option<Entry>>, k: Kind)
    requires MapOrThrow(chunks, Stepper(parse)) == Ok(entries)
    ensures MapOrThrow(Of(chunks, k), Builder(parse, k)) == Ok(Entries(Gather(entries), k))
  {
    if |chunks| == 0 {
      assert entries == [];
    } else {
      var n := |chunks| - 1;
      var init, step, lines := LastChunkStep(parse, chunks, entries);
      GatherEntries(parse, chunks[..n], init, k);
      OfNext(chunks, k);
      match step
      case None =>
      case Some(e) =>
        if KindOfEntry(e) == k {
          InsertOwn(Gather(init), e);
          BuildNext(parse, k, Of(chunks[..n], k), lines, Entries(Gather(init), k), e);
        } else {
          InsertOther(Gather(init), e, k);
        }
    }
  }

  /** Building one more chunk of kind `k` appends what its parser makes. */
  lemma BuildNext(parse: Parsers, k: Kind, done: seq<seq<string>>, lines: seq<string>, built: seq<Entry>, e: Entry)
    requires MapOrThrow(done, Builder(parse, k)) == Ok(built) && Construct(parse, k, lines) == Ok(e)
    ensures MapOrThrow(done + [lines], Builder(parse, k)) == Ok(built + [e])
  {
    MapAppend(done, [lines], Builder(parse, k));
    assert Builder(parse, k)(lines) == Ok(e);
    MapSingle(lines, Builder(parse, k));
  }

  /** Every chunk that names a kind adds exactly one entity. */
  lemma {:induction false} GatherSize(parse: Parsers, chunks: seq<string>, entries: seq<Option<Entry>>)
    requires MapOrThrow(chunks, Stepper(parse)) == Ok(entries)
    ensures Size(Gather(entries)) == Known(chunks)
  {
    if |chunks| > 0 {
      var n := |chunks| - 1;
      var init, step, lines := LastChunkStep(parse, chunks, entries);
      GatherSize(parse, chunks[..n], init);
      match step
      case None =>
      case Some(e) => InsertEntries(Gather(init), e, KindOfEntry(e));
    }
  }

  /** Loading one more chunk adds that chunk's step. */
  lemma NextChunk(parse: Parsers, chunks: seq<string>, i: nat, entries: seq<Option<Entry>>)
    requires i < |chunks| && MapOrThrow(chunks[..i], Stepper(parse)) == Ok(entries)
    ensures chunks[..i + 1] <= chunks
    ensures MapOrThrow(chunks[..i + 1], Stepper(parse)) ==
      match Step(parse, chunks[i]) case Err(e) => Err(e) case Ok(x) => Ok(entries + [x])
  {
    MapNext(chunks, i, Stepper(parse), entries);
    assert Stepper(parse)(chunks[i]) == Step(parse, chunks[i]);
  }

  /** Gathering one more step pushes its entity, if any. */
  lemma GatherSnoc(entries: seq<Option<Entry>>, x: Option<Entry>)
    ensures Gather(entries + [x]) == match x case None => Gather(entries) case Some(e) => Insert(Gather(entries), e)
  {
    Front(entries, x);
  }

  /** A successful load of chunks splits into the load of all but the last
      chunk and the step of the last one. */
  lemma LastChunkStep(parse: Parsers, chunks: seq<string>, entries: seq<Option<Entry>>)
    returns (init: seq<Option<Entry>>, step: Option<Entry>, lines: seq<string>)
    requires |chunks| > 0 && MapOrThrow(chunks, Stepper(parse)) == Ok(entries)
    ensures var n := |chunks| - 1;
      MapOrThrow(chunks[..n], Stepper(parse)) == Ok(init) && Step(parse, chunks[n]) == Ok(step)
      && lines == ChunkLines(chunks[n]) && |entries| == |chunks|
      && entries[..n] == init && entries[n] == step
  {
    var n := |chunks| - 1;
    Snoc(chunks);
    MapAppend(chunks[..n], [chunks[n]], Stepper(parse));
    MapSingle(chunks[n], Stepper(parse));
    assert Stepper(parse)(chunks[n]) == Step(parse, chunks[n]);
    init := MapOrThrow(chunks[..n], Stepper(parse)).value;
    step := Step(parse, chunks[n]).value;
    lines := ChunkLines(chunks[n]);
    Front(init, step);
  }

  /** A loaded world's collection of kind `k` has one entity per chunk of
      kind `k`, in document order, each what that kind's constructor makes
      of the chunk's lines, header included. */
  lemma LoadEntries(data: string, k: Kind)
    requires Load(data).Ok?
    ensures MapOrThrow(Of(Chunks(data), k), Builder(Readers, k)) == Ok(Entries(Load(data).value, k))
  {
    GatherEntries(Readers, Chunks(data), MapOrThrow(Chunks(data), Stepper(Readers)).value, k);
  }

  /** The eight collections together hold one entity per recognised chunk:
      chunks with an unknown header add nothing. */
  lemma LoadSize(data: string)
    requires Load(data).Ok?
    ensures Size(Load(data).value) == Known(Chunks(data))
  {
    GatherSize(Readers, Chunks(data), MapOrThrow(Chunks(data), Stepper(Readers)).value);
  }

  /** The load throws iff some chunk has no line left after trimming, or
      some recognised chunk's constructor throws. */
  lemma LoadFails(data: string)
    ensures Load(data).Err? <==>
      exists i :: 0 <= i < |Chunks(data)| &&
        (ChunkLines(Chunks(data)[i]) == [] ||
         (Recognised(Chunks(data)[i]) &&
          Construct(Readers, KindOf(ChunkLines(Chunks(data)[i])[0]).value, ChunkLines(Chunks(data)[i])).Err?))
  {
    var chunks := Chunks(data);
    MapFails(chunks, Stepper(Readers));
    assert forall i :: 0 <= i < |chunks| ==> Stepper(Readers)(chunks[i]) == Step(Readers, chunks[i]);
  }

  /** An empty document, and any document that ends in a blank line,
      leaves a chunk with no line: the load throws. */
  lemma EmptyDocumentFails()
    ensures Load("") == Err(E.EmptyChunk)
  {
    EmptyDocument();
    MapSingle("", Stepper(Readers));
    assert Stepper(Readers)("") == Step(Readers, "");
  }

  lemma TrailingBlankFails(data: string)
    ensures Load(data + "\n\n").Err?
  {
    TrailingChunk(data);
    BlankEndFails(Readers, data + "\n\n");
  }

  /** A last chunk with no line makes the whole load throw. */
  lemma BlankEndFails(parse: Parsers, data: string)
    requires EndsBlank(data)
    ensures LoadWith(parse, data).Err?
  {
    var chunks := Chunks(data);
    var n := |chunks| - 1;
    assert Stepper(parse)(chunks[n]) == Step(parse, chunks[n]);
    MapFailsAt(chunks, Stepper(parse), n);
  }

}
