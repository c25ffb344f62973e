# Map-grid core of a Pokémon-style tile engine, in Dafny

This project models the game-state logic of a small pygame role-playing
engine and proves what that logic promises. There is one module per source
file, plus a shared module:

- **MapGrid** and **MapScenes** model `engine/scene/map/mapscene.py`.
  - Loading a map:
    - the tile-size and resolution checks;
    - the window size, the centring offsets and the camera scroll band;
    - the tileset's texture-coordinate table;
    - compositing each cell's layers into a below tile and an optional above tile;
    - parsing each tile's collision string.
  - The scene's matrix of events: spawning, despawning and moving events.
  - The queries:
    - the camera and character movement guards;
    - the event the character faces;
    - the touch-event latch.
  - A frame of `update`, and the tween callback that completes a move.
- **Tiles** models `engine/scene/map/tile.py`: the tile record and its
  collision 4-tuple.
- **NotSlowMapScenes** models `engine/scene/testnotslowmapscene.py`, the older
  scene: its window sizing, its surface compositing, and its camera-only
  movement. It comes with two invariants:
  - at most one camera move is in flight;
  - the draw rectangle never leaves the map.
- **Actors** models `engine/scene/map/actors/actor.py`:
  - the actor's table of event interpreters, which loading a script fills;
  - the script cache and its key;
  - spawn, despawn, unload and position updates;
  - the CantalScript condition callback;
  - `isInParameters`.
- **Timers** and **Tweens** model `engine/timer.py` and
  `engine/tween/tween.py`: countdowns and animations. Each `Update` returns
  the tag its callback would receive.
- **Charsets** and **DataTextures** model `engine/graphics/charset.py` and
  the copy of that class in `data/textures.py`. Both cover the walk-cycle
  step, the orientation and the 4×4 matrix of step rectangles.
- **Saves** models `engine/savemanager.py`:
  - the current slot, variant and data;
  - the save path;
  - what creating, deleting, loading and saving do to the state and to a
    disk modelled as a map from paths to file contents.
- **Common** holds the shared pieces:
  - Python list indexing: negative indices wrap, and an out-of-range index
    (`IndexError`) is `None`;
  - `str.split`;
  - a first-failure search.

Where the source updates an object's fields, the model is a class with those
fields, and its methods are proved against functions of the old state. The
pure computations are functions, with lemmas about them.

## Model

| member | source | states |
|---|---|---|
| Common.PyIndex | engine/scene/map/mapscene.py:445-448 | A Python list index is valid iff `-n <= i < n`; a negative one counts from the end |
| Common.PyGet2 | engine/scene/map/mapscene.py:445-448 | `m[i][j]` is defined iff both indices are valid under Python's rules; then it is that element, and a non-negative in-range pair reads `m[i][j]` directly |
| Common.PySet2 | engine/scene/map/mapscene.py:306-310 | `m[i][j] = v` succeeds iff both indices are valid. It then writes exactly that one cell, and every row keeps its length. |
| Common.Split | engine/scene/map/mapscene.py:245 | `str.split(sep)` yields at least one part, and no part contains the separator |
| Common.JoinSplit | engine/scene/map/mapscene.py:245 | Joining the parts of a split with the separator gives the original string back |
| Common.SplitNoSeparator | engine/scene/map/mapscene.py:245 | A string without the separator splits into just itself |
| Common.SplitConcat | engine/scene/map/mapscene.py:245 | Splitting `a;b` gives the parts of `a` followed by the parts of `b` |
| Common.FirstFalse | engine/scene/map/mapscene.py:189-261 | The index the loader stops at: every earlier index passes and that one fails, or none fails |
| Common.FirstFalseIs | engine/scene/map/mapscene.py:189-261 | An index whose predecessors all pass and which itself fails is the first failure |
| MapGrid.CameraScrollRect | engine/scene/map/mapscene.py:142-151 | The scroll band of a window `w` tiles wide has ends summing to `w`. It is 2 tiles wide for even `w`, i.e. `(w/2-1, w/2+1)`, and 1 tile wide for odd `w`. |
| MapGrid.WindowLayout | engine/scene/map/mapscene.py:114-151 | Non-square tiles, zero-size tiles and a resolution that is not a multiple of the tile size fail with distinct errors. Otherwise: the window sizes are the exact quotients; the offsets centre a narrower map and are 0 for a wider one; the camera bands are the scroll rectangles. |
| MapGrid.MapOffsetCentres | engine/scene/map/mapscene.py:133-140 | The offset of a map narrower than the window is a whole number of tiles |
| MapGrid.RowMajorDivMod | engine/scene/map/mapscene.py:178-186 | Tile id `y*cols + x` decodes back to row `y` and column `x` |
| MapGrid.CoordsOfRowMajor | engine/scene/map/mapscene.py:178-186 | Id `y*cols + x` maps to the rectangle `(x*ts, y*ts, ts, ts)` |
| MapGrid.TileIdBelowCount | engine/scene/map/mapscene.py:178-186 | Every id of the tileset grid lies in `[0, rows*cols)` |
| MapGrid.TextureCoords | engine/scene/map/mapscene.py:177-186 | The nested loop builds the coordinate table with exactly `rows*cols` entries; id `y*cols + x` maps to `(x*ts, y*ts, ts, ts)` |
| MapGrid.FirstUnknown | engine/scene/map/mapscene.py:246-255 | The position of the first token that is none of `top`, `right`, `bottom` and `left` |
| MapGrid.FirstUnknownAllKnown | engine/scene/map/mapscene.py:246-255 | Every token before the first unknown one is a known flag |
| MapGrid.FirstUnknownConcat | engine/scene/map/mapscene.py:245-255 | The first unknown token of two token lists is found in the first list if it has one, otherwise in the second |
| MapGrid.ParseCollisionFlags | engine/scene/map/mapscene.py:244-255 | The token loop equals the reference reading of a collision string: an empty string changes nothing, the first unknown token raises, and otherwise every named slot is set |
| MapGrid.FlagSetsOnlyItsSlot | engine/scene/map/mapscene.py:246-253 | A known token sets exactly its own slot of the (top, right, bottom, left) tuple and leaves the other three |
| MapGrid.UnknownFlagRaises | engine/scene/map/mapscene.py:254-255 | A token that is not a known flag raises, naming that token |
| MapGrid.UnknownFirstFlagRaises | engine/scene/map/mapscene.py:245-255 | When the first token is unknown, the string raises on that token, whatever follows |
| MapGrid.SequentialFlags | engine/scene/map/mapscene.py:245-255 | Applying `a;b` is applying `a` and then `b`, and an error in `a` stops the parse |
| MapGrid.RepeatedFlagsIdempotent | engine/scene/map/mapscene.py:246-253 | Repeating a collision string yields the same flags, or the same error, as stating it once |
| MapGrid.TilesetDirectionWordsRejected | engine/scene/map/mapscene.py:254-255 | The tileset's own `up;down;right;left` string raises on `up` |
| MapGrid.FirstFail | engine/scene/map/mapscene.py:212-221 | The first layer that raises: layer data too short, a shifted id missing from the coordinate table, a tile entry without a type, or a rejected collision string |
| MapGrid.FirstFailNoneBroken | engine/scene/map/mapscene.py:212-221 | No layer before the first failing one fails |
| MapGrid.FirstAbove | engine/scene/map/mapscene.py:225-228 | The first drawn tile whose tileset type is the above type |
| MapGrid.FirstAboveNoneAbove | engine/scene/map/mapscene.py:225-228 | No drawn tile before the first above tile is an above tile |
| MapGrid.CollisionOfFlags | engine/scene/map/mapscene.py:238-255 | A slot of a composited tile is set iff some tile blitted onto that surface names that flag |
| MapGrid.CompositeSplitsAtFirstAbove | engine/scene/map/mapscene.py:209-236 | The running "above" flag splits the drawn tiles at the first above tile. The earlier tiles go below, and that tile and all later ones go above, whatever their layer. |
| MapGrid.ParsedFlagsMerge | engine/scene/map/mapscene.py:239-255 | Whether a tile's collision string parses, and the error it raises, do not depend on the flags it is applied to; on success it merges the tile's flags into them |
| MapGrid.DrawLayer | engine/scene/map/mapscene.py:213-255 | One layer's step at one cell equals the reference step: id 0 is skipped; a missing id raises; otherwise the shifted id's rectangle is blitted onto the surface the flag selects, and its flags are parsed |
| MapGrid.CompositeCell | engine/scene/map/mapscene.py:209-259 | The layer loop composites one cell as the reference definition does. That is either the first failing layer's error, or a below tile and an above tile split at the first above tile, the above tile being None when no above tile was drawn. |
| MapGrid.CellAboveIffAboveTileDrawn | engine/scene/map/mapscene.py:257-259 | The above cell is discarded iff no drawn tile is of the above type. Below and above together blit every drawn tile, in layer order. |
| MapGrid.LayerStepReads | engine/scene/map/mapscene.py:215-220 | A layer step that does not fail reads the cell's raw id: it is skipped iff that id is 0, and otherwise it draws id − 1 |
| MapGrid.DrawnPrefixIds | engine/scene/map/mapscene.py:215-220 | On any prefix of non-failing layers, the drawn ids are the raw ids with the zeros dropped and the rest shifted down by one |
| MapGrid.DrawnIdsAreShiftedNonzero | engine/scene/map/mapscene.py:215-220 | A cell that composites draws exactly its layers' tile ids with zeros skipped and every other id shifted down by one |
| MapGrid.LoadRow | engine/scene/map/mapscene.py:195-261 | One row of the map loop: every cell before the stopping point composites. It either stops at the row's first failing cell with that cell's error, or holds every cell's reference tiles. |
| MapGrid.LoadTiles | engine/scene/map/mapscene.py:189-261 | The map loop fails with the error of the first failing cell in row-major order iff there is one. Otherwise both matrices have `mapHeight` rows of `mapWidth` cells, and cell `(x, y)` holds the composite of layer index `y*w + x`. |
| MapScenes.FirstPressed | engine/scene/map/mapscene.py:493-541 | The arrow handled is the first of Left, Right, Up and Down that is held, and none iff no arrow is held |
| MapScenes.FacingMatchesDirection | engine/scene/map/mapscene.py:433-440 | Turning towards an arrow makes the faced cell (`FacedCell`) the cell one step in that direction, and the orientation lies within the charset's lines |
| MapScenes.MoveTagsRoundTrip | engine/scene/map/mapscene.py:587-635 | The tag a camera or character move starts is recognised as that kind of tag by the callback, and moves the position by that arrow's step |
| MapScenes.TagTable | engine/scene/map/mapscene.py:587-635 | The meaning of each of `cs`, `cz`, `cq`, `cd` (camera) and `ps`, `pz`, `pq`, `pd` (player): down, up, left and right by one cell |
| MapScenes.UnknownTagHasNoDelta | engine/scene/map/mapscene.py:587-637 | A tag that is neither a camera nor a player tag moves nothing |
| MapScenes.MoveTagAxis | engine/scene/map/mapscene.py:587-635 | A move tag belongs to exactly one mover, camera or player, and steps along exactly one axis |
| MapScenes.Callback | engine/scene/map/mapscene.py:587-637 | The positions after the tween callback: every tag moves the map position by its step; an unknown tag changes nothing else |
| MapScenes.MoveOutsideRaises | engine/scene/map/mapscene.py:323-326 | `updateEventPosition`, through its reference move `MoveEventResult`, raises `IndexError` when either cell is outside the matrix |
| MapScenes.MoveOntoOccupiedRaises | engine/scene/map/mapscene.py:326-327 | A move onto an occupied cell raises, whatever the source holds |
| MapScenes.MoveInPlaceRaises | engine/scene/map/mapscene.py:326-327 | Moving an event onto its own cell raises, since the destination is occupied by the event itself |
| MapScenes.MoveFromEmptyKeepsMatrix | engine/scene/map/mapscene.py:329-331 | A move from an empty cell to an empty cell leaves the matrix unchanged |
| MapScenes.MoveRelocates | engine/scene/map/mapscene.py:329-331 | Moving an event to an empty cell puts it there, empties its old cell, and changes no other cell |
| MapScenes.CameraGuardsKeepBounds | engine/scene/map/mapscene.py:362-372 | From an origin within `[0, max(0, map − window)]`, a step back is allowed iff the origin is positive and a step forward iff the far edge is inside the map, and these are exactly the steps that stay within that range |
| MapScenes.MapScene.CameraGuardsExact | engine/scene/map/mapscene.py:362-372 | `canCameraMoveLeft/Right/Up/Down`: from a draw rectangle within the map, the guard of an arrow holds iff the camera step that way keeps the rectangle within the map |
| MapScenes.Event.constructor | engine/scene/map/events/event.py:3-10 | A new event stores its scene and position, is not spawned, has last update time 0, and is pass-through (`IsPassThrough` returns True) |
| MapScenes.Event.Blocking | engine/scene/map/events/event.py:54-55 | An event whose class overrides `isPassThrough` to False |
| MapScenes.Event.Spawn | engine/scene/map/events/event.py:33-36 | Sets spawned, then writes the event into the scene's cell at its position, or leaves the matrix unchanged when that raises `IndexError`. There is no guard, so spawning again writes again. |
| MapScenes.Event.Despawn | engine/scene/map/events/event.py:38-41 | Clears spawned, then empties the scene's cell at its position (unchanged on `IndexError`), without a guard |
| MapScenes.Event.SetPosition | engine/scene/map/events/event.py:57-60 | The scene moves the event first. Only if that succeeds does the stored position change; on a raise both the position and the matrix are unchanged. |
| MapScenes.SetPositionKeepsEventAtItsCell | engine/scene/map/events/event.py:57-60 | Once an event at its recorded cell has moved successfully, its new cell holds it and its old cell is empty |
| MapScenes.MapScene.constructor | engine/scene/map/mapscene.py:27-95 | All sizes, offsets, matrices and flags start at zero, empty or false; the character starts at the spawn position on the map and on the screen; the charset faces down at step 0 |
| MapScenes.MapScene.SpawnEvent | engine/scene/map/mapscene.py:306-307 | Writes exactly one cell, or raises `IndexError` and changes nothing |
| MapScenes.MapScene.DespawnEvent | engine/scene/map/mapscene.py:309-310 | Empties exactly one cell, or raises `IndexError` and changes nothing |
| MapScenes.MapScene.UpdateEventPosition | engine/scene/map/mapscene.py:323-331 | Succeeds exactly when the reference move does, and then leaves its matrix. On an error (index, occupied destination) it reports that error and the matrix is unchanged. |
| MapScenes.MapScene.EmptyEventsMatrix | engine/scene/map/mapscene.py:264-268 | The loop builds the all-empty `h`×`w` matrix |
| MapScenes.MapScene.SpawnOne | engine/scene/map/mapscene.py:279-294 | One entry of the events file: a fresh spawned event at the entry's position, written into the matrix, with an `IndexError` when that position is outside it |
| MapScenes.MapScene.SpawnAll | engine/scene/map/mapscene.py:279-294 | The events are created and spawned in file order. The load stops at the first one outside the matrix, and each spawned event's cell holds it. |
| MapScenes.MapScene.LoadLayout | engine/scene/map/mapscene.py:114-151 | The sizing part of `load` sets exactly the fields of the window layout when it succeeds, and fails with its error otherwise |
| MapScenes.MapScene.LoadTileMatrices | engine/scene/map/mapscene.py:177-261 | The tile part of `load` fails with the first failing cell's error iff there is one, and otherwise fills both matrices with every cell's reference tiles |
| MapScenes.MapScene.LoadEvents | engine/scene/map/mapscene.py:263-302 | The events matrix starts all empty. A missing events file leaves it so; otherwise the file's events are spawned onto it. |
| MapScenes.MapScene.Load | engine/scene/map/mapscene.py:103-304 | The whole first load, stage by stage: the sizing error; the layout fields; the charset matrix; the first failing cell; the complete tile matrices; and the spawned events |
| MapScenes.MapScene.FacedEvent | engine/scene/map/mapscene.py:427-448 | The faced event is None for a negative coordinate or one outside the matrix, and otherwise is that cell's content |
| MapScenes.MapScene.CanCharacterMoveLeft | engine/scene/map/mapscene.py:374-385 | False when the faced event blocks or at column 0. Otherwise true iff the tile to the left exists and its right slot is clear. |
| MapScenes.MapScene.CanCharacterMoveRight | engine/scene/map/mapscene.py:387-398 | False when the faced event blocks or at the last column. Otherwise true iff the tile to the right's left slot is clear. |
| MapScenes.MapScene.CanCharacterMoveUp | engine/scene/map/mapscene.py:400-411 | False when the faced event blocks or at row 0. Otherwise true iff the tile above's bottom slot is clear. |
| MapScenes.MapScene.CanCharacterMoveDown | engine/scene/map/mapscene.py:413-424 | False when the faced event blocks or at the last row. Otherwise true iff the tile below's top slot is clear. |
| MapScenes.MapScene.OnCharacterEnteredTile | engine/scene/map/mapscene.py:566-573 | The handler of the event on the character's cell starts. No handler starts on an empty cell, and a cell outside the matrix raises `IndexError`. |
| MapScenes.MapScene.ProcessEventsTouchEvent | engine/scene/map/mapscene.py:575-585 | The faced event's touch handler starts once and latches the flag. While the flag is set, or when nothing is faced, nothing starts. |
| MapScenes.MapScene.CameraStep | engine/scene/map/mapscene.py:588-611 | A finished camera move shifts the draw rectangle and the character's map position by the same step, and zeroes that axis's camera offset |
| MapScenes.MapScene.PlayerStep | engine/scene/map/mapscene.py:612-635 | A finished character move shifts the on-screen and map positions by the same step, and zeroes that axis's character offset |
| MapScenes.MapScene.TweensCallback | engine/scene/map/mapscene.py:587-637 | Camera tags move the draw rectangle and the map position and reset the camera offset of their axis. Player tags move the on-screen and map positions and reset the character offset of their axis. Unknown tags move neither. A known tag starts the entered-tile handler. The inputs are unblocked unless that handler raised `IndexError`, which leaves them as they were. |
| MapScenes.MapScene.AdvanceCameraTween | engine/scene/map/mapscene.py:460-461 | The positions and the four offsets become the reference step of the camera tween: the eased value of its offset, or on finishing the target and then the callback. The calls are the entered-tile handler of the new cell iff it finishes. Inputs are unblocked only by a callback that did not raise. Alive and running-time updates are as in the tween. (See also mapscene.py:587-637.) |
| MapScenes.MapScene.AdvanceCharacterTween | engine/scene/map/mapscene.py:463-464 | The same for the character tween: positions and offsets become its reference step, the calls are the entered-tile handler iff it finishes, and inputs are unblocked only by a callback that did not raise (See also mapscene.py:587-637.) |
| MapScenes.MapScene.AdvanceTweens | engine/scene/map/mapscene.py:460-464 | Camera tween first, then the character tween. When the camera callback raises `IndexError`, the frame ends there and the character tween is not updated. The positions, calls, raise flag and blocked flag follow the two reference steps. From one move in flight, a frame without a raise keeps that invariant, and a raise leaves the scene locked: inputs blocked, no tween alive. (See also mapscene.py:566-573, 637.) |
| MapScenes.MapScene.ActionKeys | engine/scene/map/mapscene.py:471-482 | Each RETURN key-down starts the faced event's action handler once, in order, and nothing starts when no event is faced |
| MapScenes.MapScene.StartMove | engine/scene/map/mapscene.py:498-503 | A move starts a fresh tween of the camera offset (opposite sign) or of the character offset, one tile long, over 200 ms, and blocks the inputs |
| MapScenes.MapScene.Turn | engine/scene/map/mapscene.py:494-495 | The character takes the arrow's orientation; the touch handler of the newly faced event starts unless the latch was set, and the latch is set iff it was or an event is faced. Step, moving flag and tweens are unchanged. (See also mapscene.py:575-585.) |
| MapScenes.MapScene.TryMove | engine/scene/map/mapscene.py:496-503 | A move is taken iff the character guard allows it. Then the step advances, the character is moving, the inputs are blocked and one fresh tween starts: the camera's when the band flag is set and the camera can move, the character's otherwise. A refused move changes nothing. Orientation and latch are unchanged. |
| MapScenes.MapScene.ArrowKey | engine/scene/map/mapscene.py:487-536 | A held arrow turns the character, starts the touch handler, and moves as `TryMove` does, with the scroll-band flag (`InCameraScrollRect`, the position less the camera offset within the band, mapscene.py:487-491) taken before the turn |
| MapScenes.MapScene.NoArrowKey | engine/scene/map/mapscene.py:537-541 | With no arrow held, a moving character stops and rests its walk cycle; a standing one clears the touch latch |
| MapScenes.MapScene.InputPhase | engine/scene/map/mapscene.py:466-541 | Inputs are handled only when no callback raised and the inputs are not blocked; otherwise the frame changes nothing of the input state. The scroll band and the positions are not changed by input handling. |
| MapScenes.MapScene.HandleInputs | engine/scene/map/mapscene.py:466-541 | The action handlers of the RETURN key-downs come first, then the first held arrow: with one, the calls end with its touch call and the state is what `ArrowKey` makes of it; with none, the orientation and tweens are kept and the character stops. Keeps the scene well formed and one move in flight. |
| MapScenes.MapScene.Update | engine/scene/map/mapscene.py:450-541 | One frame: the positions are the two tween steps, and the calls start with the tween callbacks' handlers. When a callback raised or the inputs are still blocked, nothing else happens; otherwise the rest of the calls and the new state are the input handling from the frame's start state. One move in flight is kept, a raise locks the scene, and a locked scene stays locked and starts nothing. |
| MapScenes.PermittedMoveStaysOnMap | engine/scene/map/mapscene.py:374-424 | A move the guard permits from a tile of the map lands on a tile of the map |
| NotSlowMapScenes.WindowSize | engine/scene/testnotslowmapscene.py:68-83 | Raises on non-square tiles and on a resolution that is not a multiple of the tile size; otherwise the window sizes are the exact quotients |
| NotSlowMapScenes.SameWindowAsMapScene | engine/scene/testnotslowmapscene.py:68-83 | The older scene sizes the window exactly as the map scene does, with the same errors |
| NotSlowMapScenes.LayeredSplitsAtFirstAbove | engine/scene/testnotslowmapscene.py:135-162 | The running flag sends the drawn tiles before the first above tile to the below surface, and that tile and every later one to the above surface |
| NotSlowMapScenes.BlitLayer | engine/scene/testnotslowmapscene.py:139-162 | One layer's step equals the reference: id 0 is skipped, a missing id raises, and any other id's rectangle is blitted onto the surface the flag selects |
| NotSlowMapScenes.BlitCell | engine/scene/testnotslowmapscene.py:135-164 | The layer loop gives the first failing layer's error, or the two surfaces split at the first above tile |
| NotSlowMapScenes.AboveSurfaceIffAboveTileDrawn | engine/scene/testnotslowmapscene.py:151-162 | The above surface is empty iff no drawn tile is of the above type. Below and above together blit every drawn tile, in order. |
| NotSlowMapScenes.BlitRow | engine/scene/testnotslowmapscene.py:122-164 | One row stops at its first failing cell with that error, or holds every cell's reference surfaces |
| NotSlowMapScenes.BlitMap | engine/scene/testnotslowmapscene.py:116-164 | The map loop fails with the first failing cell's error in row-major order iff there is one, and otherwise builds both surface matrices cell by cell |
| NotSlowMapScenes.TestNotSlowMapScene.constructor | engine/scene/testnotslowmapscene.py:25-55 | Sizes, matrices, draw rectangle and offsets start at zero or empty, with inputs unblocked and no tween |
| NotSlowMapScenes.TestNotSlowMapScene.LoadLayout | engine/scene/testnotslowmapscene.py:68-83 | The map and tile sizes are set once the tiles are square, and the window sizes once the resolution check passes |
| NotSlowMapScenes.TestNotSlowMapScene.Load | engine/scene/testnotslowmapscene.py:57-166 | A first load either fails with the sizing error, or fails with the first failing cell's error, or fills both surface matrices with every cell's reference surfaces |
| NotSlowMapScenes.TestNotSlowMapScene.PermittedMoveInBounds | engine/scene/testnotslowmapscene.py:191-220 | `CanMove`: from a draw rectangle within the map, a move is permitted iff it lands inside the map on both axes |
| NotSlowMapScenes.TestNotSlowMapScene.StartMove | engine/scene/testnotslowmapscene.py:194-199 | A move starts a fresh tween of the axis's camera offset, one tile the opposite way, over 150 ms, and blocks the inputs |
| NotSlowMapScenes.TestNotSlowMapScene.HandleKeys | engine/scene/testnotslowmapscene.py:191-220 | Only the first held arrow is handled, in the order Left, Right, Up, Down. A move starts iff its guard holds: a fresh alive camera tween of that arrow's tag and axis, at running time 0, 150 ms long, towards one tile the opposite way, with the inputs blocked. Otherwise the tween is kept and the inputs stay unblocked. |
| NotSlowMapScenes.TestNotSlowMapScene.OnTweenFinished | engine/scene/testnotslowmapscene.py:239-254 | A camera tag shifts the draw rectangle by one cell and zeroes that axis's offset; any other tag shifts nothing. Every call unblocks the inputs. |
| NotSlowMapScenes.TestNotSlowMapScene.AdvanceTween | engine/scene/testnotslowmapscene.py:187 | The draw rectangle moves by the step of the tween's tag iff it finishes. The offset it animates takes the eased value, or 0 once it finishes, and the other offset is kept. The inputs become unblocked iff it finishes. It keeps one move in flight and the bounds. (See also testnotslowmapscene.py:239-254.) |
| NotSlowMapScenes.TestNotSlowMapScene.Update | engine/scene/testnotslowmapscene.py:184-220 | One frame: the tween update as `AdvanceTween` states it; then, if the inputs were unblocked or the tween finished, the first held arrow whose guard holds starts a move, and otherwise the tween is kept and the blocked flag is as the update left it. Both invariants are kept, including the bounds of the move in flight. |
| Actors.CacheKey | engine/scene/map/actors/actor.py:62 | The key is the map name, a dot, the script name and `.cantalscript` |
| Actors.CacheKeyInjective | engine/scene/map/actors/actor.py:62 | For map names without a dot, different (map, script) pairs have different keys |
| Actors.DotInMapNameSharesEntry | engine/scene/map/actors/actor.py:62-65 | Map `a.b` with script `c` and map `a` with script `b.c` share a cache key, though their script paths differ |
| Actors.InstallEventsPass | engine/scene/map/actors/actor.py:70-79 | Installing a script's events succeeds iff every name is in the table, its slot is empty and no name repeats. On success each event's slot holds its interpreter and no other slot changes. |
| Actors.InstallEventsKeeps | engine/scene/map/actors/actor.py:70-79 | Loading never adds or removes table names and keeps the loop flag exactly on `loop` |
| Actors.InstallEventsFail | engine/scene/map/actors/actor.py:73-77 | A failed load raises at its first bad event, naming it as unknown or as a duplicate, after installing the events before it |
| Actors.SecondLoadFails | engine/scene/map/actors/actor.py:76-77 | Loading the same nonempty script twice raises a duplicate on its first event |
| Actors.StopsAfterFail | engine/scene/map/actors/actor.py:70-79 | Once an event raises, the later events change nothing |
| Actors.RunAndFramesKeepSlots | engine/scene/map/actors/actor.py:47-53 | Running the loop interpreter and notifying frames keep the table's names and which slots are filled |
| Actors.Actor.constructor | engine/scene/map/actors/actor.py:16-41 | The table holds exactly the five event names, all empty; the actor is not spawned and has last update date 0 |
| Actors.Actor.Update | engine/scene/map/actors/actor.py:47-53 | Exactly the filled interpreters are notified of a new frame; empty slots stay empty |
| Actors.Actor.InstallScript | engine/scene/map/actors/actor.py:70-79 | The events loop installs exactly as the reference load: same table, same error |
| Actors.Actor.Load | engine/scene/map/actors/actor.py:58-82 | With no script, nothing happens. Otherwise the script is parsed only on a cache miss, and a missing file raises "not found". The cached script data's events are then installed. |
| Actors.Actor.Spawn | engine/scene/map/actors/actor.py:113-119 | A no-op when already spawned. Otherwise it sets the flag, registers with the scene at its position, and runs the loop interpreter if one is installed. |
| Actors.Actor.Despawn | engine/scene/map/actors/actor.py:121-124 | Acts only when spawned: it clears the flag and unregisters from the scene at its position |
| Actors.Actor.Unload | engine/scene/map/actors/actor.py:101-102 | Unloading is despawning |
| Actors.Actor.SetPosition | engine/scene/map/actors/actor.py:141-144 | Asks the scene to move from the old position to the new one, then stores the new position |
| Actors.Actor.IsInParameters | engine/scene/map/actors/actor.py:182-187 | No argument raises, and a first argument that is not a string literal raises; otherwise the result is whether its value is a parameter key |
| Actors.Actor.ConditionCallback | engine/scene/map/actors/actor.py:84-96 | True iff the expression is the literal `true` or a satisfied `inParameters` call. A boolean literal never raises. An unknown function raises naming it, and any other expression kind raises. |
| Charsets.NextStep | engine/graphics/charset.py:64-65 | The next step is `(step + 1) mod 4`; it lies in `[0, 4)`, wrapping from 3 to 0 |
| Charsets.NextStepCycles | engine/graphics/charset.py:64-65 | Four increments bring a step back to where it started |
| Charsets.ResetStepStands | engine/graphics/charset.py:58-62 | A reset step is a standing step (0 or 2), leaves standing steps alone and is idempotent |
| Charsets.ResetStepAdvancesOddSteps | engine/graphics/charset.py:58-62 | Resetting a walking step (1 or 3) is the same as advancing it |
| Charsets.AsWrittenCropsMissPixels | engine/graphics/charset.py:42 | As written, with steps taller than wide, the pixel at height `stepWidth` of the first column lies in no step's rectangle |
| Charsets.AsWrittenCropsInsideIff | engine/graphics/charset.py:42 | The as-written rectangles all lie inside the texture iff the steps are at least as tall as wide |
| Charsets.CropsPartitionTexture | engine/graphics/charset.py:36-44 | The corrected crop rectangles partition the texture: every pixel lies in exactly one step's rectangle |
| Charsets.FirstLoadCutsSheet | engine/graphics/charset.py:36-44 | The first load builds LINES rows of COLUMNS step surfaces, indexed [orientation][step], each cut with the as-written rectangle |
| Charsets.LoadReshapes | engine/graphics/charset.py:36-44 | A load onto any matrix adds LINES rows. Each of the first LINES rows gets the line's surfaces in its first COLUMNS entries, keeps its later ones and gains COLUMNS placeholders. The other rows are kept. |
| Charsets.SecondLoadLeavesEmptyRows | engine/graphics/charset.py:36-44 | A second load writes into the four old rows, each of which gains four placeholders, and leaves the four appended rows empty, so reading row 4 raises (See also charset.py:55-56.) |
| Charsets.Charset.constructor | engine/graphics/charset.py:19-27 | A new charset has step 0, the given orientation, zero step size and an empty matrix |
| Charsets.Charset.Load | engine/graphics/charset.py:29-44 | Sets the step size and runs the nested loop exactly as the reference `LoadedRows` on the current matrix, with the as-written rectangles. Once unloaded, loading raises after setting the step size. |
| Charsets.Charset.Unload | engine/graphics/charset.py:46-47 | Clears the matrix |
| Charsets.Charset.CurrentSurface | engine/graphics/charset.py:55-56 | `surfaceMatrix[orientation][step]`: none once unloaded; after the first load, defined iff both indices are in Python's range, and then the as-written surface of that step |
| Charsets.Charset.ResetStep | engine/graphics/charset.py:58-62 | The step becomes its resting step, and the orientation is untouched |
| Charsets.Charset.IncrementStep | engine/graphics/charset.py:64-65 | The step becomes the next step of the cycle |
| Charsets.Charset.SetOrientation | engine/graphics/charset.py:67-71 | Set then get returns the orientation set, and the step is unchanged |
| Charsets.LoadedSurfaceInBounds | engine/graphics/charset.py:55-56 | After the first load, every orientation and step in Python's index range reads the surface cut with the as-written rectangle of that step, negative indices wrapping |
| DataTextures.Charset.constructor | data/textures.py:16-24 | A new charset has step 0, the given orientation and an empty matrix |
| DataTextures.Charset.Load | data/textures.py:26-41 | Sets the step size and runs the same nested loop, equal to the reference `LoadedRows` on the current matrix, with the as-written rectangles |
| DataTextures.Charset.CurrentSurface | data/textures.py:49-50 | None before loading; after the first load, defined iff both indices are in Python's range, and then the as-written surface of that step |
| DataTextures.Charset.ResetStep | data/textures.py:52-56 | The step becomes its resting step |
| DataTextures.Charset.IncrementStep | data/textures.py:58-59 | The step becomes `(step + 1) mod 4` |
| DataTextures.Charset.SetOrientation | data/textures.py:61-65 | Set then get round-trips |
| Timers.Timer.constructor | engine/timer.py:3-10 | A new timer has running time 0 and is alive |
| Timers.Timer.Update | engine/timer.py:12-20 | The running time is the sum of all elapsed times fed. The callback fires iff that sum reaches the duration, and then the timer dies. |
| Timers.TimerKeepsFiring | engine/timer.py:12-20 | `alive` is never consulted: with non-negative elapsed times, once fired the timer fires on every later update |
| Tweens.Tween.Create | engine/tween/tween.py:13-15 | A new tween is alive at running time 0, and its initial value is the subject's value (None without a subject) |
| Tweens.Tween.Update | engine/tween/tween.py:17-42 | A dead tween does nothing. An alive one adds the elapsed time and sets the subject to the easing; on reaching the duration, it snaps the subject to the target, dies, and fires once. Over any sequence of updates it fires at most once. |
| Saves.SavePathRoundTrip | engine/savemanager.py:70-77 | For a variant without a dash, the slot and variant can be read back from the path |
| Saves.SavePathInjective | engine/savemanager.py:70-77 | For variants without a dash, distinct (slot, variant) pairs have distinct paths |
| Saves.DashInVariantCollides | engine/savemanager.py:70-77 | With a dash in the variant, two different saves share a path |
| Saves.WriteOverReadsBack | engine/savemanager.py:52-62 | Writing over a file without truncating it reads back as the data iff the new packing is at least as long as the file; a shorter one leaves a tail that does not unpack. The file keeps the longer length. (See also savemanager.py:157-180.) |
| Saves.WriteOverEmptyReadsBack | engine/savemanager.py:104-110 | Writing into the empty file that creating a save makes gives exactly the packed data |
| Saves.ShorterSaveBreaksLoad | engine/savemanager.py:55 | As written: a save whose packing is shorter than the previous one leaves a file that no longer unpacks (See also savemanager.py:157-180.) |
| Saves.WriteTruncatingReadsBack | engine/savemanager.py:52-62 | Corrected: a truncating write always reads back as the data, and the file has the new packing's length |
| Saves.SaveManager.constructor | engine/savemanager.py:6-8 | No slot, variant or data is loaded at first |
| Saves.SaveManager.GetCurrentSaveValue | engine/savemanager.py:14-18 | None iff no save is loaded or the key is absent; otherwise the stored value |
| Saves.SaveManager.SetCurrentSaveValue | engine/savemanager.py:24-33 | Fails and changes nothing when no save is loaded. Otherwise it stores the value and succeeds, other keys, slot, variant and disk unchanged. |
| Saves.SaveManager.Save | engine/savemanager.py:52-62 | Writes the packed data over the start of the current save's existing file, without truncating, and succeeds; fails, changing nothing, when that file is missing |
| Saves.SaveManager.UnloadCurrentSave | engine/savemanager.py:186-189 | Clears the slot, the data and the variant together |
| Saves.SaveManager.DeleteSave | engine/savemanager.py:122-137 | Unloads, removes exactly that slot's file if present, and succeeds |
| Saves.SaveManager.CreateNewSave | engine/savemanager.py:91-116 | Loads an empty save for the slot and variant, so every get returns None, and writes its packed empty data as that slot's file |
| Saves.SaveManager.Load | engine/savemanager.py:157-180 | Unloads. A missing file fails with nothing loaded; otherwise the file's data becomes the current save for that slot and variant. |

## Left out
- Rendering (`draw`, `drawMatrix`, the pygame surfaces) and input polling: not part of this model. Key presses are inputs to `Update`: a queue of key-downs and a set of held arrows.
- The threads that run event handlers: starting a handler is modelled as a returned `Call` value, which says which event's handler starts. No handler body runs.
- The event classes loaded through `importlib`: an events-file entry carries the pass-through flag its class would report. `Event.load`, `Event.unload` and `Event.draw` do nothing and are not modelled. `MapScene.unload` is not modelled either.
- File, JSON and msgpack I/O: map, tileset and events files are inputs to `Load`, and the save disk is a map from paths to file contents. Packing data is represented by a datatype constructor, not by bytes.
- MapScenes.MapScene.Load and NotSlowMapScenes.TestNotSlowMapScene.Load: the scene's own tile and event matrices are modelled for a first load only (their `requires` ask for empty matrices); a second load in Python would append to the old rows. The charset reloads inside them are modelled for any earlier state. The partial state left behind by a raising load is not specified.
- An `IndexError` raised by `onCharacterEnteredTile` inside a tween callback propagates out of `update`: only `TypeError` is caught there. The model records it as a raised flag on the frame. The rest of that frame is skipped and `inputsBlocked` stays set, so the scene stays locked (`MapScenes.MapScene.Locked`). The traceback and the process-level outcome are not modelled.
- `toRunOnMainThread` (the queue drained at the start of `update`): it is filled by handler threads, which are not modelled, so the queue is always empty here.
- Tween and timer tags are strings whose first letter names the target (camera or player) and whose second letter names the direction; any other tag is ignored by the callback, and the model keeps that encoding as strings.
- The tileset name slicing (`source[21:-4]`) and the texture registry lookup: string plumbing into pygame, not part of this model.
- The charset sprite offsets (`getSurfaceWidth() / 4`) and the step size: these are floating-point divisions, modelled as integer division.
- Easing curves: floating-point functions, taken as a parameter of each tween. The tweened values are integers.
- MapScenes.MapScene.Update and NotSlowMapScenes.TestNotSlowMapScene.Update: both open with `super().update(dt, events)` (mapscene.py:451, testnotslowmapscene.py:185), but the base `Scene.update` takes no arguments (engine/scene/scene.py:15), so that call would raise `TypeError`; `scene.py` also mixes tab and space indentation, which Python 3 refuses on import. The base-class call is modelled as a no-op, the frame as the scene's own lines.
- `createTween`, `updateTween` and `Scene.onTweenFinished` do not exist in this snapshot. The older scene's camera tween is modelled as a `Tween` of the tween module, with its finish routed to `onTweenFinished`.
- The map scene's tile-type constant `Tile.TYPE_ABOVE_EVENTS` does not exist in the map scene's `tile.py`, which defines `TYPE_ABOVE_ACTORS`. The above type is therefore a constant of each scene: a parameter for the map scene, and `aboveEvents` for the older scene, which defines its own `Tile`.
- The actor's scene calls `spawnActor`, `despawnActor`, `updateActorPosition` and `getMapName` do not exist on the map scene. The actor talks to an `ActorScene` that records each call requested, and that holds the map name.
- CantalScript parsing (`engine/scene/map/cantalscript.py`): a grammar whose parse prints and returns nothing. The parse result is an input: a map from script paths to parsed data, where None stands for the snapshot's empty result. `CantalInterpreter` takes one argument and has no `run` or `newFrame`. The interpreter is therefore modelled as a record of its block and loop flag, with counters for run and new-frame calls.
- `ACTORS_PATH` is not among the snapshot's constants: it is a field of the script cache. `os.path.join` is modelled as joining with `/`.
- Actors.Actor.ConditionCallback: the default branch's `raise Exception(...) + ")"` raises a `TypeError` before the intended exception. It is modelled as the same error kind, because only the fact that it raises matters here.
- `StringLiteral.getValue` is absent from the grammar: a string literal's value is modelled directly.
- Actors.Actor.ConditionCallback and Actors.Actor.IsInParameters: the grammar's `FunctionParameters` has no `params` attribute and its `Literal` no `literal` attribute, only `FunctionCallStatement.params` and `IfStatement.expression` are created (engine/scene/map/cantalscript.py:15-31), so `expression.params.params` (actor.py:93) and `functionParams[0].literal` (actor.py:183) would raise `AttributeError`. Both are modelled by their evident meaning: the call's parameters are its list of literals, and the first parameter is that literal itself.
- `cantalStatementCallback`, `getWindow`, `blockingCallsSafeGuard`, the `on*` event hooks that only `pass`, and `engine/engine.py`: printing, process exit or no behaviour, not part of this model.
- `Timer` and `Tween` callbacks that take the wrong number of arguments (the `TypeError` re-raise): a callback is modelled as receiving its tag.
- Save slots and variants are strings: `str()` of a non-string slot number is not modelled. `saveExists` and `getCurrentSaveSlot`/`getCurrentVariant` are plain reads.

## Findings

| source | as written | input that shows it | evidently intended | confidence | as-written member | corrected member |
|---|---|---|---|---|---|---|
| engine/graphics/charset.py:42 | The crop rectangle of each step is `(x*w, y*h, w, w)`: its height is the step width. The copy at data/textures.py:39 has the same bug. | A 64×96 charset sheet (16×24 steps): pixel (0, 16) lies in no step's rectangle, so the lower part of every step is never copied. | `(x*w, y*h, w, h)`, so the sixteen rectangles partition the sheet | not executed | Charsets.AsWrittenCropsMissPixels | Charsets.CropsPartitionTexture |
| engine/savemanager.py:55 | `save` opens the existing save file with `"r+b"`, which overwrites from the start but does not truncate. | A save whose packing is shorter than the one already on disk leaves the old tail behind it, so the next `load` reads a file that does not unpack. | Open with `"wb"`, so the file holds exactly the new packing and reads back | not executed | Saves.ShorterSaveBreaksLoad | Saves.WriteTruncatingReadsBack |

Other behaviours the proofs make explicit, which the model keeps as written:

- Actors.DotInMapNameSharesEntry: a dot in a map name makes two different scripts share one cache entry.
- Saves.DashInVariantCollides: a dash in a save variant makes two different slots share one save file.
- Timers.TimerKeepsFiring: a timer keeps invoking its callback on every update after its first firing.
- The save manager's doc comment names the save file `.bin`; the code writes `.sav`, and the model follows the code.
