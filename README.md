# Bitsy-UX world parser and room compositor

Bitsy-UX reads a small game world from a line-oriented text document. The
document holds palettes, rooms, tiles, sprites, items, dialogs, endings and
variables. Bitsy-UX then turns a parsed room into a tree of positioned,
coloured squares for display. The repository does this twice, and this
project models both.

- **The entity framework** (`script/entities/*.js`).
  - `World.parse` cuts the document into chunks at blank lines. It trims each chunk's lines and drops the empty ones. The first line's prefix then chooses the entity kind.
  - `Entity.parse` classifies every line of a chunk as `(header, value)`.
  - Lines whose header is a key of the kind's schema are recorded in a `Properties` store. Every other line is recorded as `_DATA`.
  - Each schema setter is then called once, in key order, with the first and all values of its key. The `_DATA` lines go, in order, to the kind's `parseData`.
  - `Room.draw`, `drawSquare`, `getTile` and `Drawing.draw` make the picture:
    - the room's palette is looked up by id;
    - each grid cell's tile, sprite and item are resolved;
    - sprite beats item beats tile;
    - static or per-frame pixels are emitted from the two animation frames.
- **The editor** (`script/editor.js`), the single-file predecessor.
  - Each entity class has a static `parse`. It walks the lines once, tests each against a chain of `startsWith` prefixes and assigns fields, so the last line of a prefix wins.
  - `drawingToSvg` and `roomToSvg` render the `'1'` cells of drawings and rooms. `roomToSvg` keeps a tile cache in a plain object, so a cell named after an `Object.prototype` member makes it throw.

The project is organised as follows:

- **Wrappers, Text and JsArray** hold the JavaScript behaviour both implementations rely on:
  - `split`, `join`, `trim`, `startsWith` and a first-occurrence `replace`;
  - `parseInt` as a leading-integer parse;
  - `find`, `findIndex`, and a `map` whose callback can throw. A throw becomes an `Err`.
- **Documents** holds the chunking and the prefix dispatch that both `World.parse` functions share.
- **Grids** holds the row-major cell order that both renderers visit.
- **Entities, Palettes, Drawings, Rooms, Dialogs, Endings, Variables and Worlds** model the framework.
- **Editor and EditorWorld** model `script/editor.js`.

The imperative code stays imperative:

- `Properties` and `World` are classes whose methods append to their fields.
- Every `forEach` loop that builds an entity or a picture is a method with a loop. Each is proved equal to a function that states what the result holds. The source's promises are proved as lemmas about those functions.
- Parsed entities never change after construction, so they are datatypes.
- Parsed values are `Single(string)` or `Many(seq<string>)`.
- Absent JavaScript values (`null`, `undefined`) are `Option`.
- The TypeErrors the framework raises on malformed input are `Err(Fault)` results, not preconditions.

Where the system's design description and its code disagree, the model follows the code:

- **Errors during parsing.** The description says parsing never throws. The framework does throw in three cases:
  - a room's `ITM` or `END` value has fewer than two entries, or its `EXT` value fewer than three (`parsePosition(undefined)`, script/entities/room.js:21, 28, 34-36);
  - a sprite's `POS` value has fewer than two entries (script/entities/drawing.js:52);
  - a chunk has no non-blank line (script/entities/world.js:21-23).

  A value with one token is a JavaScript string, so its entries are its characters (script/entities/entity.js:38): `v[1]` is the second character. `POS room` therefore does not throw; it sets `roomId` to `r` and leaves the position absent (`parsePosition('o')`). Likewise `ITM key` gives a placement with id `k`. Only a one-character token throws, or, for `EXT`, a token of fewer than three characters or a two-token list. All three cases are `Err` results here.
- **Field names.** The description names an item placement's field `itemId`. The code uses `id`.
- **Item lookup.** The description says a placed item is resolved by id. As written, the code never resolves one; see Findings.
- **Animated drawings.** The description says an animated drawing flags the cells where the two frames differ. The code emits per-frame pixels for those cells. It reads the second frame row by row, and throws when that frame is shorter.

## Model

| member | source | states |
|---|---|---|
| Text.JoinSplit | script/entities/world.js:15 | Joining the parts of `split(sep)` with `sep` gives back the original string, so no text is lost when the document is cut into chunks |
| Text.SplitJoin | script/entities/entity.js:29 | Splitting on `c` a join of `c`-free parts gives back exactly those parts |
| Text.SplitCount | script/entities/entity.js:29-30 | `split(c)` yields one more part than there are occurrences of `c` |
| Text.SplitMany | script/entities/entity.js:30 | A split gives more than one part iff the separator occurs |
| Text.Trim | script/entities/world.js:19 | The trimmed line begins and ends with non-whitespace, or is empty |
| Text.ParseFormat | script/entities/entity.js:47 | `parseInt` of an integer's decimal text, followed by junk that does not start with a digit, returns that integer. After a lone `0` the junk must also not start with `x`/`X`, which would make a hexadecimal prefix |
| JsArray.FindIndex | script/entities/drawing.js:3 | Returns the first index satisfying the predicate; no earlier index satisfies it; `None` iff no element does |
| JsArray.Find | script/entities/room.js:77 | `find` returns the first satisfying element, or nothing iff none satisfies |
| JsArray.FindOrThrow | script/entities/room.js:79 | A `find` whose test can throw: the first satisfying element, the first throw, or `None` iff every test answers false |
| JsArray.MapFails | script/entities/room.js:19-22 | A `map` throws iff its callback throws on some element |
| JsArray.MapAppend | script/entities/world.js:16-63 | Mapping a concatenation maps the first part, and the second part only if the first did not throw |
| Entities.ParseLineSpec | script/entities/entity.js:27-40 | A line with a space splits into a space-free header and tokens that rejoin to the line; two or more tokens form a list. A line without a space is `(_DATA, the line)` |
| Entities.ParseWords | script/entities/entity.js:27-40 | A header followed by space-free words parses back to that header, with one word as a string or several as the list |
| Entities.At | script/entities/room.js:20-21 | `item[k]` on a value: the k-th token of a list, the k-th character of a string, absent beyond its width |
| Entities.PositionRoundTrip | script/entities/entity.js:46-50 | `parsePosition` of `x,y` written in decimal returns `(x, y)` |
| Entities.PositionNeedsOneComma | script/editor.js:2-6 | A token without exactly one comma has no position; nothing is raised |
| Entities.NoCommaInNumber | script/entities/entity.js:47 | An integer's decimal text holds no comma, so a written position splits into exactly two parts |
| Entities.Properties.constructor | script/entities/entity.js:58-60 | A new store is empty |
| Entities.Properties.Set | script/entities/entity.js:62-65 | `getAll(key)` gains the value at its end; every other key's list is unchanged |
| Entities.Properties.GetFirst | script/entities/entity.js:67-70 | The first recorded value, or null when the key is unset or its first value is the empty string |
| Entities.Properties.GetAll | script/entities/entity.js:72-74 | An unset key gives the empty list |
| Entities.Properties.DoesExist | script/entities/entity.js:76-78 | Holds iff the key was set at least once |
| Entities.Record | script/entities/entity.js:11-18 | After the loop, every key's list in the store is `Recorded`: the values of the lines with that header, in input order, with unkeyed lines verbatim under `_DATA` |
| Entities.Parse | script/entities/entity.js:6-25 | Each setter is called at most once, in schema order, with `(getFirst(key), getAll(key))`, absent keys included. All are called unless one throws. The result is `Build`: setters applied, then `_DATA` handed on |
| Entities.Partition | script/entities/entity.js:11-18 | Keyed records plus `_DATA` records account for every line exactly once |
| Entities.DataRecorded | script/entities/entity.js:16 | The `_DATA` list is the residual lines, each recorded as its whole original line |
| Entities.ResidualAppend | script/entities/entity.js:24 | The residual data of concatenated input is the residual of each part, in order |
| Entities.ResidualHas | script/entities/entity.js:24 | Every unkeyed line reaches `parseData` |
| Entities.ResidualUnkeyed | script/entities/entity.js:13-17 | No keyed line reaches `parseData` |
| Entities.RecordedAppend | script/entities/entity.js:11-18 | A key's recorded values over concatenated input are the values from each part, in order |
| Entities.FirstWins | script/entities/entity.js:21 | Once a key has a value, later lines never change its first value |
| Entities.NeverRecorded | script/entities/entity.js:20-22 | A key no line carries gets the call `(null, [])` |
| Entities.HeaderIs | script/entities/entity.js:27-33 | A line has header `k` iff it starts with `k` followed by a space |
| Entities.ResidualWithout | script/entities/entity.js:13-17 | With a single key `k`, the residual is exactly the lines not starting with `k ` |
| Entities.Keys | script/entities/entity.js:9 | The schema's keys are its fields' keys, in order; this replaces reflection on the setup object |
| Palettes.BuildPalette | script/entities/palette.js:2-7 | The keys are `PAL`, `NAME` in that order. The setters take each key's first value, so the values are first-wins and absent ones are null. The residual lines are passed on |
| Palettes.ParseData | script/entities/palette.js:9-20 | The colour list restarts empty. It gains one raw-string `{r, g, b}` per data line with exactly three comma parts, in line order |
| Palettes.Parse | script/entities/palette.js:1-21 | `new Palette(lines)` is `Read(lines)`: first-wins id and name, colours from the residual lines |
| Palettes.ColorLine | script/entities/palette.js:12-17 | A line yields a colour iff it has exactly two commas; the components are the three raw fields |
| Palettes.ColorsBound | script/entities/palette.js:11-19 | There are no more colours than data lines |
| Palettes.ColorsAppend | script/entities/palette.js:11-19 | Colours follow line order across concatenated input |
| Palettes.ColorsRoundTrip | script/entities/palette.js:12-17 | Writing comma-free colours as `r,g,b` rows and re-parsing gives the same colours in the same order |
| Palettes.FirstId | script/entities/palette.js:4 | A later `PAL` line never changes the id |
| Palettes.NoName | script/entities/palette.js:5 | Without a `NAME` line the name is null |
| Drawings.SplitFrames | script/entities/drawing.js:2-9 | Animated iff some line is exactly `>`. Frame 1 is the lines before the first `>`; frame 2 is the lines after it. The separator is in neither frame; without a separator frame 2 is empty |
| Drawings.CellPixels | script/entities/drawing.js:17-24 | A cell emits at most one pixel, and only at its own position |
| Drawings.DrawCell | script/entities/drawing.js:17-24 | The inner loop body emits what `CellPixels` prescribes for the cell |
| Drawings.Draw | script/entities/drawing.js:11-29 | The nested loop builds `Render`: the fill colour and the pixels of frame 1's cells in row-major order, or the throw on a missing frame-2 row |
| Drawings.Drawn | script/entities/drawing.js:11-29 | The fill is the given colour. A pixel is emitted iff its cell calls for it. Emitted pixels lie inside frame 1's shape. There are no more pixels than cells |
| Drawings.StaticPixels | script/entities/drawing.js:23 | A still drawing emits exactly one static pixel per `'1'` cell of frame 1, and nothing else |
| Drawings.AgreeingPixels | script/entities/drawing.js:18-24 | Where the frames agree, an animated drawing emits one static pixel iff the cell is `'1'` |
| Drawings.DifferingPixels | script/entities/drawing.js:18-21 | Where the frames differ, it emits a frame-1 pixel iff frame 1 has `'1'`, and a frame-2 pixel iff frame 2 has `'1'` |
| Drawings.DrawFails | script/entities/drawing.js:18 | Drawing throws iff the drawing is animated and frame 2 lacks a row that frame 1 has cells in |
| Drawings.BuildTile | script/entities/drawing.js:32-39 | The tile keys are `TIL`, `WAL`. The id is the first `TIL` value. `isWall` holds iff the first `WAL` value is exactly `true` |
| Drawings.ParseTile | script/entities/drawing.js:32-39 | `new Tile(lines)` is `ReadTile(lines)` |
| Drawings.WallFirstWins | script/entities/drawing.js:36 | A later `WAL` line never changes `isWall` |
| Drawings.SetPosition | script/entities/drawing.js:50-53 | `setPosition` throws iff the value has fewer than two entries, counting characters when it is a single token. Otherwise `roomId` is its first entry (the first character of a single token), and `position` is `parsePosition` of its second entry |
| Drawings.BuildSprite | script/entities/drawing.js:41-48 | The sprite keys are `SPR`, `DLG`, `POS`. `POS` is applied only when present |
| Drawings.ParseSprite | script/entities/drawing.js:41-54 | `new Sprite(lines)` is `ReadSprite(lines)`, or its throw |
| Drawings.SpritePlaced | script/entities/drawing.js:46-53 | A first `POS` value with at least two entries, extra tokens or a single token included, sets `roomId` to its first entry and `position` to `parsePosition` of its second. So `POS room x,y` places the sprite in `room` at `x,y` |
| Drawings.SpriteUnplaced | script/entities/drawing.js:46 | Without `POS` the sprite has no room and no position |
| Drawings.BuildItem | script/entities/drawing.js:56-64 | The item keys are `ITM`, `DLG`, `NAME`, with first-wins values |
| Drawings.ParseItem | script/entities/drawing.js:56-64 | `new Item(lines)` is `ReadItem(lines)` |
| Rooms.PositionAt | script/entities/room.js:21 | `parsePosition(v[k])` throws iff token `k` is missing; otherwise it parses that token |
| Rooms.PlaceItem | script/entities/room.js:19-22 | An `ITM` value yields a placement iff it has at least two entries (characters, when it is a single token). The id is its first entry |
| Rooms.PlaceEnding | script/entities/room.js:26-29 | An `END` value yields a placement iff it has at least two entries (characters, when it is a single token). The ending id is its first entry |
| Rooms.PlaceExit | script/entities/room.js:33-37 | An `EXT` value yields an exit iff it has at least three entries (characters, when it is a single token). Its position, target room and entry position come from entries 0, 1 and 2 |
| Rooms.SetItems | script/entities/room.js:18-23 | One placement per `ITM` value, in order, with position `parsePosition(v[1])`. Throws iff some value has fewer than two entries |
| Rooms.SetEndings | script/entities/room.js:25-30 | One ending placement per `END` value, in order. Throws iff some value has fewer than two entries |
| Rooms.SetExits | script/entities/room.js:32-38 | One exit per `EXT` value, in order, with both positions parsed. Throws iff some value has fewer than three entries |
| Rooms.Grid | script/entities/room.js:40-42 | One row per data line. The row's cells rejoin with commas to the line and contain no comma |
| Rooms.BuildRoom | script/entities/room.js:7-16 | The keys are `ROOM`, `NAME`, `PAL`, `ITM`, `END`, `EXT`, in order. Building gives `ReadRoom` without its grid, or its throw |
| Rooms.RoomBuilt | script/entities/room.js:7-16 | `_DATA` is not a room key. A build throws exactly when `ReadRoom` does, and otherwise gives it with the grid of the residual lines |
| Rooms.ParseRoom | script/entities/room.js:6-42 | `new Room(lines)` is `ReadRoom(lines)`, or its throw |
| Rooms.ItemLine | script/entities/room.js:12-22 | `ITM id x,y` is recorded under `ITM` as the list `[id, "x,y"]` |
| Rooms.PlacementLine | script/entities/room.js:12-14 | Any `header id x,y` line parses to that header and the two tokens |
| Rooms.GetTile | script/entities/room.js:75-89 | The tile is the first world tile whose id is the cell's token, absent iff none matches. The sprite is the first sprite in this room at `(x, y)`, absent only when no sprite of this room stands there. As written, no item is ever found. It throws iff the sprite search or the placement search meets an absent position before a match |
| Rooms.DrawSquare | script/entities/room.js:63-73 | The square is translated by `(8x, 8y)` |
| Rooms.Precedence | script/entities/room.js:67-70 | Sprite, else item, else tile, else nothing. A sprite or item is drawn in palette colour 2, a tile in colour 1 |
| Rooms.DrawRow | script/entities/room.js:55-57 | One row of the inner loop extends the traced squares by that row's cells, or stops at the first throw |
| Rooms.Draw | script/entities/room.js:44-61 | The nested loop builds `Image`: palette lookup, background, then one square per cell, or the first throw |
| Rooms.PaletteMissing | script/entities/room.js:48-49 | A room whose palette id matches no palette cannot be drawn |
| Rooms.ImageShape | script/entities/room.js:48-58 | The first matching palette is used and the background is 128×128 in its colour 0. There is one square per grid cell at `(8x, 8y)`, in strict row-major order |
| Rooms.EveryCellDrawn | script/entities/room.js:54-58 | Every grid cell gets a square |
| Rooms.ItemLookupDefect | script/entities/room.js:81-82 | In a concrete room with an item placed on its only cell, the code as written finds no item and draws an empty square. Looked up by id, the item is drawn in colour 2 |
| Rooms.PlacedItemResolved | script/entities/room.js:81-82 | Looked up by the placement's id, the first placement at the cell resolves to a world item carrying that id |
| Dialogs.TextOf | script/entities/dialog.js:8-12 | No lines gives `''`, one line gives that line, several give the whole ordered list, not joined |
| Dialogs.BuildDialog | script/entities/dialog.js:2-6 | The only key is `DLG`; the id is its first value |
| Dialogs.ParseDialog | script/entities/dialog.js:1-13 | `new Dialog(lines)` is `ReadDialog(lines)` |
| Dialogs.DialogBody | script/entities/dialog.js:8-12 | The text holds exactly the lines not starting with `DLG `, in order, or is `''` |
| Dialogs.BodyLineKept | script/entities/dialog.js:3-5 | A body line is kept verbatim, spaces included |
| Endings.BuildEnding | script/entities/ending.js:2-6 | The only key is `END`; the id is its first value |
| Endings.ParseEnding | script/entities/ending.js:1-13 | `new Ending(lines)` is `ReadEnding(lines)` |
| Endings.EndingBody | script/entities/ending.js:8-12 | The text holds exactly the lines not starting with `END `, in order, or is `''` |
| Endings.EndingIdFirst | script/entities/ending.js:4 | A later `END` line never changes the id |
| Variables.BuildVariable | script/entities/variable.js:2-6 | The only key is `VAR`; the id is its first value |
| Variables.ParseVariable | script/entities/variable.js:1-11 | `new Variable(lines)` is `ReadVariable(lines)` |
| Variables.VariableValue | script/entities/variable.js:9 | The value is the first line not starting with `VAR `, or `''` when there is none |
| Variables.ValueIgnoresLater | script/entities/variable.js:9 | Data lines after the first never change the value |
| Documents.ChunksJoin | script/entities/world.js:15 | The chunks rejoined with a blank line give back the document |
| Documents.Clean | script/entities/world.js:17-20 | Every surviving line is non-empty and trimmed, and there are no more of them than input lines |
| Documents.CleanEmpty | script/entities/world.js:17-21 | No line survives iff every input line is blank once trimmed, which is when `lines[0]` is undefined |
| Documents.CleanFrom | script/entities/world.js:17-20 | Every surviving line is the trim of some input line |
| Documents.CleanHas | script/entities/world.js:17-20 | Every input line that is not blank once trimmed survives, trimmed |
| Documents.CleanAppend | script/entities/world.js:17-20 | Cleaning keeps line order: the lines of a concatenation are the lines of the first part, then those of the second |
| Documents.CleanOne | script/entities/world.js:17-20 | A single line survives, trimmed, iff it is not blank once trimmed |
| Documents.KindOf | script/entities/world.js:21-62 | A header has kind `k` iff it starts with `k`'s prefix |
| Documents.Exclusive | script/entities/world.js:23-62 | No header starts with two kinds' prefixes |
| Documents.BareHeader | script/entities/world.js:23 | A prefix without its trailing space, such as `PAL`, is not dispatched |
| Documents.TrailingChunk | script/entities/world.js:15-21 | A document ending in a blank line has a last chunk with no lines |
| Documents.EmptyDocument | script/entities/world.js:15-21 | The empty document is one chunk with no lines |
| Documents.OfNext | script/entities/world.js:16-62 | A kind's chunk list grows by the last chunk exactly when that chunk is of the kind |
| Worlds.Construct | script/entities/world.js:25-60 | The constructor of kind `k` makes an entity of kind `k`. Only the room and sprite constructors can throw |
| Worlds.Step | script/entities/world.js:17-62 | A chunk with no lines throws. A chunk with an unknown header adds nothing and does not throw. A recognised chunk adds what its kind's constructor makes of all its lines, header included |
| Worlds.Make | script/entities/world.js:23-61 | The dispatching method runs the entity constructor of the chunk's kind |
| Worlds.World.constructor | script/entities/world.js:2-11 | A new world has eight empty collections |
| Worlds.World.Push | script/entities/world.js:24-61 | Pushing an entity appends it to the collection of its kind and leaves the others unchanged |
| Worlds.World.Parse | script/entities/world.js:13-65 | The loop builds a fresh world holding `Load(data)`, or reports the first throw |
| Worlds.InsertEntries | script/entities/world.js:24-61 | Inserting adds the entity to its own kind's collection only, and the total grows by one |
| Worlds.GatherEntries | script/entities/world.js:16-63 | Each collection holds, in chunk order, the constructor's result for every chunk of its kind |
| Worlds.GatherSize | script/entities/world.js:16-63 | The eight sizes sum to the number of recognised chunks |
| Worlds.LoadEntries | script/entities/world.js:13-65 | A loaded world's collection of each kind follows chunk order, each entry built from the chunk's whole line list |
| Worlds.LoadSize | script/entities/world.js:13-65 | A loaded world has one entity per recognised chunk |
| Worlds.LoadFails | script/entities/world.js:16-62 | A load throws iff some chunk has no lines, or some recognised chunk's constructor throws |
| Worlds.EmptyDocumentFails | script/entities/world.js:15-21 | The empty document throws |
| Worlds.TrailingBlankFails | script/entities/world.js:15-21 | A document ending in a blank line throws |
| Worlds.BlankEndFails | script/entities/world.js:21-23 | A document whose last chunk has no lines throws, whatever the constructors |
| Editor.HeadedNext | script/editor.js:97-102 | One more line extends the prefix's rests exactly when the line starts with the prefix |
| Editor.LastWins | script/editor.js:97-102 | A prefixed field holds the rest of the last line with that prefix, or its initial value when there is none |
| Editor.ParsePalette | script/editor.js:94-114 | The loop builds `PaletteOf`: last-wins id and name, colours from the other lines |
| Editor.SameColors | script/editor.js:103-110 | The editor's colours equal the framework's for the same lines |
| Editor.SameResidual | script/editor.js:103 | The lines the editor treats as colour rows are exactly the framework's `_DATA` lines for a palette |
| Editor.PlacementOf | script/editor.js:141-145 | An `ITM`/`END` rest yields a placement iff it has a space; otherwise the line is skipped |
| Editor.ExitOf | script/editor.js:155-160 | An `EXT` rest yields an exit iff it has at least two spaces |
| Editor.ParseRoom | script/editor.js:128-167 | The loop builds `RoomOf`: last-wins id, name and palette, placements in order with short lines skipped, and other lines as comma-split rows |
| Editor.RoomStep | script/editor.js:130-165 | Each line updates the room exactly as its first matching prefix prescribes |
| Editor.RoomHeads | script/editor.js:131-162 | The room prefixes are mutually exclusive, and a line is a grid row iff it has none of them |
| Editor.ParseTile | script/editor.js:179-202 | The loop builds `TileOf`: last-wins id and wall flag, and rows split between the frames at the first `>` line |
| Editor.ArtRows | script/editor.js:189-199 | The two frames together are the unprefixed, non-`>` rows in order. The drawing is animated iff some line starts with `>` |
| Editor.RowsClean | script/editor.js:189-199 | No `>` line and no prefixed line is ever stored as a row |
| Editor.ArtNext | script/editor.js:189-199 | A line after the first `>` goes to frame 2 |
| Editor.PlaceOf | script/editor.js:224-227 | A `POS` rest with fewer than two words is skipped |
| Editor.ParseSprite | script/editor.js:216-245 | The loop builds `SpriteOf`: last-wins fields, position from the second `POS` word, and frames split at the first `>` |
| Editor.ParseItem | script/editor.js:256-273 | The loop builds `ItemOf`: last-wins id, name and dialog id, and every other line kept as a row |
| Editor.ItemKeepsMarker | script/editor.js:268-270 | An item keeps a `>` line as a row, where a tile would drop it |
| Editor.ReadText | script/editor.js:282-297 | The id is the last header rest. The text is the non-header lines joined with newlines, with leading empty lines dropped |
| Editor.ParseDialog | script/editor.js:282-297 | `Dialog.parse` is `DialogOf` |
| Editor.ParseEnding | script/editor.js:306-321 | `Ending.parse` is `EndingOf` |
| Editor.TextLines | script/editor.js:289-293 | For non-empty lines without a newline, splitting the text on newlines gives back the body lines in order |
| Editor.ParseVariable | script/editor.js:330-341 | The value is the last non-`VAR` line |
| Editor.DrawingToSvg | script/editor.js:12-22 | The nested loop emits `Rects`, the rects of the `'1'` cells in row-major order |
| Editor.RectsMember | script/editor.js:15-19 | A rect is emitted iff it sits at `(x + lx, y + ly)` for a `'1'` cell `(lx, ly)` |
| Editor.RectsCount | script/editor.js:15-19 | One rect per `'1'` cell |
| Editor.RoomToSvg | script/editor.js:24-40 | Throws iff some cell is named after an `Object.prototype` member (`constructor`, `toString`, …), which the plain-object cache already answers. Otherwise the loop with its tile cache emits exactly `RoomRects`, the result without a cache |
| Editor.CellToSvg | script/editor.js:28-35 | A cell named after an `Object.prototype` member skips the search, and `drawingToSvg` of that member throws. Any other cell draws the first matching tile at `(8x, 8y)`. A `'0'` cell or one with no tile draws nothing. The cache's own entries are only ever first matches |
| Editor.RoomMember | script/editor.js:27-37 | A rect is drawn iff it belongs to the first matching tile of some non-`'0'` cell, drawn at `(8x, 8y)` |
| EditorWorld.Construct | script/editor.js:366-405 | The parser of kind `k` makes an entity of kind `k` and never throws |
| EditorWorld.Step | script/editor.js:359-406 | Only a chunk with no lines throws. An unknown header adds nothing. A recognised chunk adds its kind's parse of all its lines |
| EditorWorld.Make | script/editor.js:366-405 | The dispatching method runs the static parse of the chunk's kind |
| EditorWorld.World.Push | script/editor.js:367-404 | Pushing appends to the entity's own collection only |
| EditorWorld.World.Parse | script/editor.js:356-408 | The loop builds a fresh world holding `Load(data)`, or reports the empty chunk |
| EditorWorld.GatherEntries | script/editor.js:359-406 | Each collection holds its kind's chunks, parsed, in chunk order |
| EditorWorld.LoadSize | script/editor.js:356-408 | One entity per recognised chunk |
| EditorWorld.LoadFails | script/editor.js:359-366 | A load throws iff some chunk has no lines |
| EditorWorld.TrailingBlankFails | script/editor.js:358-366 | A document ending in a blank line throws |
| Grids.CellsMember | script/entities/room.js:54-55 | The cells visited are exactly the grid's `(x, y)` with `x` inside row `y` |
| Grids.CellsOrdered | script/entities/room.js:54-55 | Cells are visited in strict row-major order |

## Left out

- The SVG markup:
  - Figures, pixels, squares and rects are records, not the text of `<g>`, `<rect>` and `transform` attributes. The editor's `Rect` stands for one `svgRect` string.
  - The `<g>` wrappers of `drawingToSvg` and `roomToSvg` are omitted.
  - `Svg.colorCode`, `Svg.pixel` and `Svg.rect` are not modelled; `script/utilities/svg.js` is not part of this model.
- The DOM and page wiring of `script/editor.js` are left out: `setSvg`, `createSvg`, `createSvgRooms/Tiles/Sprites/Items` (lines 42-84) and `window.onload` (lines 411-418). `TEST_GAME` is an external constant outside the repository.
- Pointer dragging (`script/draggable.js`, `script/utilities/draggable.js`) is event and layout handling.
- `Object.getOwnPropertyNames` on the setup object is replaced by each kind's explicit ordered key list, `Entities.Keys`.
- Entities.Properties.Set: the store is a map from key to list. A key that happens to be an `Object.prototype` member (`constructor`, `toString`, …) is not given the special behaviour the plain-object store would show.
- Text.Split: a string is a sequence of characters, so characters outside the Basic Multilingual Plane are not split into UTF-16 halves as `split('')` would.
- Text.ParseFormat: `parseInt` is exact on unbounded integers. The 2^53 precision limit of JavaScript numbers is not modelled, and NaN is `None`.
- Editor.ParseRoom: the editor's initial `paletteId` is the number 0. It is modelled as `None`, which an id never equals.
- Editor.ParseSprite: the sprite's initial position `[]` and an `undefined` from `parsePosition` are both `None`.
- Editor.Placement: the editor stores an ending's id under `endingId` and an item's under `id`. Both are the one `id` field here.
- Entity construction is the function a constructor computes. The framework's in-place field assignment during construction is not modelled, because nothing observes an entity before construction ends.

## Findings

| source | as written | input that shows it | evidently intended | confidence | as-written member | corrected member |
|---|---|---|---|---|---|---|
| script/entities/room.js:81-82 | `itemId` is bound to the placement record found at the cell, and world items are compared with `item.id === itemId`. An id (a string, a token list or null) never equals that object, so no item is ever resolved | a room whose only cell holds item `key` at `0,0`, in a world holding item `key` and a three-colour palette: the square is drawn empty | compare with the placement's id (`itemId.id`), so the placed item is drawn in palette colour 2 | not executed | Rooms.ItemLookupDefect | Rooms.PlacedItemResolved |
