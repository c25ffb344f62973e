/** The map scene and the events placed on it. The scene keeps the loaded
    tile matrices, a matrix of the events standing on each cell, the
    camera's draw rectangle and the character's position; the events write
    themselves into the scene's matrix when they spawn, despawn or move.
    Event handlers run on threads in the program; here a handler
    invocation is reported as a `Call` naming the event whose handler
    would start. */
module MapScenes {
  import opened Common
  import opened Tiles
  import opened MapGrid
  import Charsets
  import opened Tweens

  const CAMERA_MOVEMENT_DURATION := 200

  /** A handler invocation: none, the handler of `target` started, or the
      lookup raised IndexError. */
  datatype Call = NoCall | Called(target: Event) | RaisedIndexError

  datatype MoveError = MoveIndexError | DestinationOccupied

  datatype Arrow = Left | Right | Up | Down

  /** A pygame event of the frame, as far as the scene looks at it. */
  datatype InputEvent = ReturnDown | OtherInput

  /** The scene's positions and tweened offsets: the character's map
      position, the draw rectangle's origin, the character's on-screen
      position, then the camera's and the character's offsets. */
  datatype Placement = Placement(characterX: int, characterY: int, drawRectX: int, drawRectY: int,
                                 xOnScreen: int, yOnScreen: int, cameraOffsetX: int, cameraOffsetY: int,
                                 characterOffsetX: int, characterOffsetY: int)

  /** The arrow key the update handles: the first held of Left, Right, Up,
      Down. */
  function FirstPressed(keys: set<Arrow>): (r: Option<Arrow>)
    ensures r.None? <==> Left !in keys && Right !in keys && Up !in keys && Down !in keys
    ensures r.Some? ==> r.value in keys
    ensures r == Some(Right) ==> Left !in keys
    ensures r == Some(Up) ==> Left !in keys && Right !in keys
    ensures r == Some(Down) ==> Left !in keys && Right !in keys && Up !in keys
  {
    if Left in keys then Some(Left)
    else if Right in keys then Some(Right)
    else if Up in keys then Some(Up)
    else if Down in keys then Some(Down)
    else None
  }

  function Count<T(==)>(s: seq<T>, x: T): nat
  {
    if s == [] then 0 else Count(s[..|s| - 1], x) + if s[|s| - 1] == x then 1 else 0
  }

  lemma CountSnoc<T>(s: seq<T>, y: T, x: T)
    ensures Count(s + [y], x) == Count(s, x) + if y == x then 1 else 0
  {
    assert (s + [y])[..|s|] == s;
  }

  // ---------------------------------------------------------------------
  // Directions

  /** The cell offset of a step in direction `a`. */
  function Delta(a: Arrow): (int, int)
  {
    match a
    case Left => (-1, 0)
    case Right => (1, 0)
    case Up => (0, -1)
    case Down => (0, 1)
  }

  /** The charset orientation the character takes when walking `a`. */
  function OrientationOf(a: Arrow): int
  {
    match a
    case Left => Charsets.ORIENTATION_LEFT
    case Right => Charsets.ORIENTATION_RIGHT
    case Up => Charsets.ORIENTATION_UP
    case Down => Charsets.ORIENTATION_DOWN
  }

  /** The offset of the faced cell for a charset orientation; an
      orientation outside the four faces the character's own cell. */
  function OrientationDelta(orientation: int): (int, int)
  {
    if orientation == Charsets.ORIENTATION_DOWN then (0, 1)
    else if orientation == Charsets.ORIENTATION_UP then (0, -1)
    else if orientation == Charsets.ORIENTATION_LEFT then (-1, 0)
    else if orientation == Charsets.ORIENTATION_RIGHT then (1, 0)
    else (0, 0)
  }

  /** Turning towards `a` faces the cell one step away in direction `a`. */
  lemma FacingMatchesDirection(a: Arrow)
    ensures OrientationDelta(OrientationOf(a)) == Delta(a)
    ensures 0 <= OrientationOf(a) < Charsets.LINES
  {
  }

  /** The tag of the tween that moves the camera in direction `a`. */
  function CameraTag(a: Arrow): string
  {
    match a
    case Left => "cq"
    case Right => "cd"
    case Up => "cz"
    case Down => "cs"
  }

  /** The tag of the tween that moves the character in direction `a`. */
  function PlayerTag(a: Arrow): string
  {
    match a
    case Left => "pq"
    case Right => "pd"
    case Up => "pz"
    case Down => "ps"
  }

  /** A tween tag is two letters: `c` (camera) or `p` (player), then the
      direction key of the move (`z`, `q`, `s`, `d` for up, left, down,
      right). */
  predicate IsCameraTag(tag: string)
  {
    |tag| == 2 && tag[0] == 'c' && KeyDelta(tag[1]) != (0, 0)
  }

  predicate IsPlayerTag(tag: string)
  {
    |tag| == 2 && tag[0] == 'p' && KeyDelta(tag[1]) != (0, 0)
  }

  function KeyDelta(key: char): (int, int)
  {
    if key == 's' then (0, 1)
    else if key == 'z' then (0, -1)
    else if key == 'q' then (-1, 0)
    else if key == 'd' then (1, 0)
    else (0, 0)
  }

  /** The cell offset the tween callback applies for a tag. */
  function TagDelta(tag: string): (int, int)
  {
    if |tag| == 2 && (tag[0] == 'c' || tag[0] == 'p') then KeyDelta(tag[1]) else (0, 0)
  }

  /** The tags a move in direction `a` starts are told apart by the
      callback, which applies exactly the step `a`. */
  lemma MoveTagsRoundTrip(a: Arrow)
    ensures IsCameraTag(CameraTag(a)) && !IsPlayerTag(CameraTag(a))
    ensures IsPlayerTag(PlayerTag(a)) && !IsCameraTag(PlayerTag(a))
    ensures TagDelta(CameraTag(a)) == Delta(a) && TagDelta(PlayerTag(a)) == Delta(a)
  {
  }

  /** What each of the eight tags the scene starts tweens with means. */
  lemma TagTable(tag: string)
    ensures tag == "cs" ==> IsCameraTag(tag) && !IsPlayerTag(tag) && TagDelta(tag) == (0, 1)
    ensures tag == "cz" ==> IsCameraTag(tag) && !IsPlayerTag(tag) && TagDelta(tag) == (0, -1)
    ensures tag == "cq" ==> IsCameraTag(tag) && !IsPlayerTag(tag) && TagDelta(tag) == (-1, 0)
    ensures tag == "cd" ==> IsCameraTag(tag) && !IsPlayerTag(tag) && TagDelta(tag) == (1, 0)
    ensures tag == "ps" ==> IsPlayerTag(tag) && !IsCameraTag(tag) && TagDelta(tag) == (0, 1)
    ensures tag == "pz" ==> IsPlayerTag(tag) && !IsCameraTag(tag) && TagDelta(tag) == (0, -1)
    ensures tag == "pq" ==> IsPlayerTag(tag) && !IsCameraTag(tag) && TagDelta(tag) == (-1, 0)
    ensures tag == "pd" ==> IsPlayerTag(tag) && !IsCameraTag(tag) && TagDelta(tag) == (1, 0)
  {
  }

  /** A move tag belongs to one mover and steps along exactly one axis. */
  lemma MoveTagAxis(tag: string)
    requires IsCameraTag(tag) || IsPlayerTag(tag)
    ensures IsCameraTag(tag) != IsPlayerTag(tag)
    ensures (TagDelta(tag).0 != 0) != (TagDelta(tag).1 != 0)
  {
  }

  /** Any other tag moves nothing. */
  lemma UnknownTagHasNoDelta(tag: string)
    requires !IsCameraTag(tag) && !IsPlayerTag(tag)
    ensures TagDelta(tag) == (0, 0)
  {
  }

  // ---------------------------------------------------------------------
  // The events matrix

  /** `updateEventPosition` on a matrix: read the source cell, refuse an
      occupied destination, then move the source's event, if any. */
  function MoveEventResult(m: seq<seq<Event?>>, oldX: int, oldY: int, newX: int, newY: int)
    : Result<seq<seq<Event?>>, MoveError>
  {
    match PyGet2(m, oldY, oldX)
    case None => Err(MoveIndexError)
    case Some(ev) =>
      match PyGet2(m, newY, newX)
      case None => Err(MoveIndexError)
      case Some(dest) =>
        if dest != null then Err(DestinationOccupied)
        else if ev == null then Ok(m)
        else
          var cleared := PySet2(m, oldY, oldX, null).value;
          Ok(PySet2(cleared, newY, newX, ev).value)
  }

  /** A move raises when either position is outside the matrix. */
  lemma MoveOutsideRaises(m: seq<seq<Event?>>, oldX: int, oldY: int, newX: int, newY: int)
    requires PyGet2(m, oldY, oldX).None? || PyGet2(m, newY, newX).None?
    ensures MoveEventResult(m, oldX, oldY, newX, newY) == Err(MoveIndexError)
  {
  }

  /** A move onto an occupied cell raises, whatever the source holds. */
  lemma MoveOntoOccupiedRaises(m: seq<seq<Event?>>, oldX: int, oldY: int, newX: int, newY: int)
    requires PyGet2(m, oldY, oldX).Some?
    requires PyGet2(m, newY, newX).Some? && PyGet2(m, newY, newX).value != null
    ensures MoveEventResult(m, oldX, oldY, newX, newY) == Err(DestinationOccupied)
  {
  }

  /** Even moving an event onto its own cell raises: the destination is
      occupied by the event itself. */
  lemma MoveInPlaceRaises(m: seq<seq<Event?>>, x: int, y: int)
    requires PyGet2(m, y, x).Some? && PyGet2(m, y, x).value != null
    ensures MoveEventResult(m, x, y, x, y) == Err(DestinationOccupied)
  {
  }

  /** Moving from an empty cell to an empty cell changes nothing. */
  lemma MoveFromEmptyKeepsMatrix(m: seq<seq<Event?>>, oldX: int, oldY: int, newX: int, newY: int)
    requires PyGet2(m, oldY, oldX) == Some(null) && PyGet2(m, newY, newX) == Some(null)
    ensures MoveEventResult(m, oldX, oldY, newX, newY) == Ok(m)
  {
  }

  /** Moving an event to an empty cell puts it there, empties its old
      cell and leaves every other cell as it was. */
  lemma MoveRelocates(m: seq<seq<Event?>>, oldX: int, oldY: int, newX: int, newY: int, e: Event)
    requires PyGet2(m, oldY, oldX) == Option<Event?>.Some(e) && PyGet2(m, newY, newX) == Some(null)
    ensures var r := MoveEventResult(m, oldX, oldY, newX, newY);
      var a := PyIndex(oldY, |m|).value;
      var b := PyIndex(oldX, |m[a]|).value;
      var c := PyIndex(newY, |m|).value;
      var d := PyIndex(newX, |m[c]|).value;
      r.Ok? && |r.value| == |m|
      && (forall y :: 0 <= y < |m| ==> |r.value[y]| == |m[y]|)
      && r.value[c][d] == e && r.value[a][b] == null
      && (forall y, x :: 0 <= y < |m| && 0 <= x < |m[y]| && (y, x) != (a, b) && (y, x) != (c, d) ==>
            r.value[y][x] == m[y][x])
  {
  }

  /** A matrix of `h` rows of `w` empty cells. */
  function EmptyEvents(w: nat, h: nat): seq<seq<Event?>>
  {
    seq(h, _ => seq(w, _ => null))
  }

  /** The handler started when the character enters cell (x, y) of
      matrix `m`: that of the cell's event, none on an empty cell, and
      IndexError outside the matrix. */
  function EnteredCall(m: seq<seq<Event?>>, x: int, y: int): Call
  {
    match PyGet2(m, y, x)
    case None => RaisedIndexError
    case Some(e) => if e == null then NoCall else Called(e)
  }

  /** One start of `e`'s action handler per RETURN key-down, none when no
      event is faced. */
  function ActionCalls(inputs: seq<InputEvent>, e: Event?): seq<Call>
  {
    if e == null then [] else seq(Count(inputs, ReturnDown), _ => Called(e))
  }

  /** The handler a touch starts: the faced event's, unless a touch was
      already processed or no event is faced. */
  function TouchCall(processed: bool, e: Event?): Call
  {
    if processed || e == null then NoCall else Called(e)
  }

  /** An event described by the map's events file: its position and
      whether its class lets the character walk through it. */
  datatype EventData = EventData(positionX: int, positionY: int, passThrough: bool)

  /** The matrix after spawning `es` (created from `ds`) in order, None if
      one falls outside it. */
  function PlaceAll(m: seq<seq<Event?>>, es: seq<Event>, ds: seq<EventData>): Option<seq<seq<Event?>>>
    requires |es| == |ds|
  {
    if es == [] then Some(m)
    else
      match PlaceAll(m, es[..|es| - 1], ds[..|ds| - 1])
      case None => None
      case Some(m') => PySet2(m', ds[|ds| - 1].positionY, ds[|ds| - 1].positionX, es[|es| - 1])
  }

  /** What the loader reads from the map file: the tile size, the map
      size in tiles and every layer's row-major tile ids. */
  datatype MapData = MapData(tileWidth: int, tileHeight: int, width: int, height: int, layers: seq<seq<int>>)

  /** What the loader reads from the tileset file: the image size and the
      "tiles" and "tileproperties" entries (see MapGrid.Tileset). */
  datatype TilesetData = TilesetData(imageWidth: int, imageHeight: int,
                                     types: map<int, Option<string>>, properties: map<int, Option<string>>)

  lemma PlaceAllSnoc(m: seq<seq<Event?>>, es: seq<Event>, ds: seq<EventData>, e: Event, d: EventData)
    requires |es| == |ds|
    ensures PlaceAll(m, es + [e], ds + [d]) ==
            match PlaceAll(m, es, ds)
            case None => None
            case Some(m') => PySet2(m', d.positionY, d.positionX, e)
  {
    assert (es + [e])[..|es|] == es && (ds + [d])[..|ds|] == ds;
  }

  // ---------------------------------------------------------------------
  // One tween update

  /** Tween `t` finishes on the next update of `dt`. */
  ghost predicate Finishes(t: Tween?<string>, dt: int)
    reads t
  {
    t != null && t.alive && t.runningSince + dt >= t.duration
  }

  /** The step a tag's tween completes on the next update of `dt`. */
  ghost function Completes(t: Tween?<string>, dt: int): (int, int)
    reads t
  {
    if Finishes(t, dt) then TagDelta(t.tag) else (0, 0)
  }

  /** The value offset `s` holds after tween `t` is updated by `dt`: the
      eased value while `t` runs on, 0 once it finishes (the target, then
      reset by the callback), and unchanged when `t` does not animate it. */
  ghost function AfterTween(t: Tween?<string>, s: TweenSubject, dt: int): int
    requires t != null ==> t.Valid()
    reads t, s`value
  {
    if t != null && t.alive && t.subject == s then
      if t.runningSince + dt >= t.duration then 0 else t.ValueAt(t.runningSince + dt)
    else s.value
  }

  /** The positions and offsets once the tween callback has run for
      `tag` (see MapScene.TweensCallback): a camera tag moves the map
      position and the draw rectangle and resets the camera offset of its
      axis, a player tag moves the map and on-screen positions and resets
      the character offset of its axis, any other tag changes nothing. */
  function Callback(p: Placement, tag: string): (q: Placement)
    ensures q.characterX == p.characterX + TagDelta(tag).0 && q.characterY == p.characterY + TagDelta(tag).1
    ensures !IsCameraTag(tag) && !IsPlayerTag(tag) ==> q == p
  {
    var d := TagDelta(tag);
    if IsCameraTag(tag) then
      p.(characterX := p.characterX + d.0, characterY := p.characterY + d.1,
         drawRectX := p.drawRectX + d.0, drawRectY := p.drawRectY + d.1,
         cameraOffsetX := if d.0 != 0 then 0 else p.cameraOffsetX,
         cameraOffsetY := if d.1 != 0 then 0 else p.cameraOffsetY)
    else if IsPlayerTag(tag) then
      p.(characterX := p.characterX + d.0, characterY := p.characterY + d.1,
         xOnScreen := p.xOnScreen + d.0, yOnScreen := p.yOnScreen + d.1,
         characterOffsetX := if d.0 != 0 then 0 else p.characterOffsetX,
         characterOffsetY := if d.1 != 0 then 0 else p.characterOffsetY)
    else p
  }

  // ---------------------------------------------------------------------
  // Camera bounds

  /** The draw rectangle's origin on one axis stays within the map. */
  predicate CameraInBounds(drawRect: int, window: int, mapSize: int)
  {
    0 <= drawRect <= Max(0, mapSize - window)
  }

  /** The camera guards are exactly the bounds of the draw rectangle:
      from an origin within the map, a step back is allowed iff the origin
      is positive and a step forward iff the window's far edge is inside
      the map, and these are the steps that keep the origin within it. */
  lemma CameraGuardsKeepBounds(drawRect: int, window: int, mapSize: int)
    requires CameraInBounds(drawRect, window, mapSize)
    ensures drawRect > 0 <==> CameraInBounds(drawRect - 1, window, mapSize)
    ensures drawRect + window < mapSize <==> CameraInBounds(drawRect + 1, window, mapSize)
  {
  }

  // ---------------------------------------------------------------------
  // Events

  class Event {
    const scene: MapScene
    /** `isPassThrough`: True for a plain event; classes such as the NPC
        event override it to False. */
    const passThrough: bool
    var posX: int
    var posY: int
    var spawned: bool
    var lastUpdateTime: int

    constructor (scene: MapScene, x: int, y: int)
      ensures this.scene == scene && posX == x && posY == y
      ensures !spawned && lastUpdateTime == 0 && passThrough
    {
      this.scene := scene;
      this.passThrough := true;
      posX := x;
      posY := y;
      spawned := false;
      lastUpdateTime := 0;
    }

    /** An event whose class overrides `isPassThrough` to False. */
    constructor Blocking(scene: MapScene, x: int, y: int)
      ensures this.scene == scene && posX == x && posY == y
      ensures !spawned && lastUpdateTime == 0 && !passThrough
    {
      this.scene := scene;
      this.passThrough := false;
      posX := x;
      posY := y;
      spawned := false;
      lastUpdateTime := 0;
    }

    function IsPassThrough(): bool
    {
      passThrough
    }

    /** Marks the event spawned, then writes it into the scene's matrix at
        its position; not guarded, so spawning again writes again.
        `ok` is false where the scene raises IndexError. */
    method Spawn() returns (ok: bool)
      modifies this`spawned, scene`events
      ensures spawned
      ensures var placed := PySet2(old(scene.events), posY, posX, this);
        (ok <==> placed.Some?) && scene.events == if ok then placed.value else old(scene.events)
    {
      spawned := true;
      ok := scene.SpawnEvent(this, posX, posY);
    }

    /** Marks the event despawned, then empties the matrix cell at its
        position; not guarded either. */
    method Despawn() returns (ok: bool)
      modifies this`spawned, scene`events
      ensures !spawned
      ensures var cleared := PySet2(old(scene.events), posY, posX, null);
        (ok <==> cleared.Some?) && scene.events == if ok then cleared.value else old(scene.events)
    {
      spawned := false;
      ok := scene.DespawnEvent(posX, posY);
    }

    /** Asks the scene to move the event first; only if the scene accepts
        does the event take the new coordinates. */
    method SetPosition(x: int, y: int) returns (r: Outcome<MoveError>)
      modifies this`posX, this`posY, scene`events
      ensures var moved := MoveEventResult(old(scene.events), old(posX), old(posY), x, y);
        (r.Pass? <==> moved.Ok?)
        && (r.Pass? ==> scene.events == moved.value && posX == x && posY == y)
        && (r.Fail? ==> r.error == moved.error && scene.events == old(scene.events)
                        && posX == old(posX) && posY == old(posY))
    {
      r := scene.UpdateEventPosition(posX, posY, x, y);
      if r.Pass? {
        posX := x;
        posY := y;
      }
    }
  }

  /** An event standing at its own recorded cell that moves successfully
      ends at its new recorded cell, and its old cell is empty. */
  lemma SetPositionKeepsEventAtItsCell(m: seq<seq<Event?>>, e: Event, oldX: int, oldY: int, x: int, y: int)
    requires PyGet2(m, oldY, oldX) == Option<Event?>.Some(e)
    requires MoveEventResult(m, oldX, oldY, x, y).Ok?
    ensures var m' := MoveEventResult(m, oldX, oldY, x, y).value;
      PyGet2(m', y, x) == Option<Event?>.Some(e) && PyGet2(m', oldY, oldX) == Some(null)
  {
    MoveRelocates(m, oldX, oldY, x, y, e);
  }

  // ---------------------------------------------------------------------
  // The scene

  class MapScene {
    var tileSize: int
    var mapWidth: int
    var mapHeight: int
    var windowWidth: int
    var windowHeight: int
    var mapOffsetX: int
    var mapOffsetY: int
    var cameraRectX: (int, int)
    var cameraRectY: (int, int)
    /** The tiles drawn below the events, and those drawn above them (None
        where no above tile was drawn). */
    var tiles0: seq<seq<Tile>>
    var tiles1: seq<seq<Option<Tile>>>
    var events: seq<seq<Event?>>
    var inputsBlocked: bool
    const charset: Charsets.Charset
    var characterX: int
    var characterY: int
    var characterXOnScreen: int
    var characterYOnScreen: int
    var drawRectX: int
    var drawRectY: int
    const cameraOffsetX: TweenSubject
    const cameraOffsetY: TweenSubject
    const characterOffsetX: TweenSubject
    const characterOffsetY: TweenSubject
    var cameraTween: Tween?<string>
    var characterTween: Tween?<string>
    var characterMoving: bool
    var touchEventProcessed: bool
    /** The tileset tile type marking tiles drawn above the events. */
    const aboveType: string
    /** `Easing.easingLinear`, a floating-point curve. */
    const easingLinear: Easing

    /** The four tweened offsets are distinct objects. */
    predicate SubjectsDistinct()
    {
      cameraOffsetX != cameraOffsetY && cameraOffsetX != characterOffsetX && cameraOffsetX != characterOffsetY
      && cameraOffsetY != characterOffsetX && cameraOffsetY != characterOffsetY
      && characterOffsetX != characterOffsetY
    }

    constructor (spawnX: int, spawnY: int, charsetWidth: int, charsetHeight: int, aboveType: string, easingLinear: Easing)
      ensures characterX == spawnX && characterY == spawnY
      ensures characterXOnScreen == spawnX && characterYOnScreen == spawnY
      ensures drawRectX == 0 && drawRectY == 0
      ensures cameraOffsetX.value == 0 && cameraOffsetY.value == 0
      ensures characterOffsetX.value == 0 && characterOffsetY.value == 0
      ensures fresh(charset) && charset.orientation == Charsets.ORIENTATION_DOWN && charset.step == 0
      ensures charset.surfaceMatrix == Some([])
      ensures tiles0 == [] && tiles1 == [] && events == []
      ensures tileSize == 0 && mapWidth == 0 && mapHeight == 0 && windowWidth == 0 && windowHeight == 0
      ensures mapOffsetX == 0 && mapOffsetY == 0 && cameraRectX == (0, 0) && cameraRectY == (0, 0)
      ensures !inputsBlocked && !characterMoving && !touchEventProcessed
      ensures cameraTween == null && characterTween == null
      ensures this.aboveType == aboveType && this.easingLinear == easingLinear
      ensures SubjectsDistinct()
    {
      tileSize, mapWidth, mapHeight := 0, 0, 0;
      windowWidth, windowHeight := 0, 0;
      tiles0, tiles1, events := [], [], [];
      inputsBlocked := false;
      charset := new Charsets.Charset(charsetWidth, charsetHeight, Charsets.ORIENTATION_DOWN);
      characterX, characterY := spawnX, spawnY;
      characterXOnScreen, characterYOnScreen := spawnX, spawnY;
      drawRectX, drawRectY := 0, 0;
      cameraOffsetX := new TweenSubject(0);
      cameraOffsetY := new TweenSubject(0);
      characterOffsetX := new TweenSubject(0);
      characterOffsetY := new TweenSubject(0);
      cameraTween, characterTween := null, null;
      cameraRectX, cameraRectY := (0, 0), (0, 0);
      characterMoving := false;
      mapOffsetX, mapOffsetY := 0, 0;
      touchEventProcessed := false;
      this.aboveType := aboveType;
      this.easingLinear := easingLinear;
    }

    /** `eventsMatrix[posY][posX] = event`; `ok` is false on IndexError. */
    method SpawnEvent(event: Event?, posX: int, posY: int) returns (ok: bool)
      modifies this`events
      ensures var placed := PySet2(old(events), posY, posX, event);
        (ok <==> placed.Some?) && events == if ok then placed.value else old(events)
    {
      var a := PyIndex(posY, |events|);
      if a.None? {
        return false;
      }
      var b := PyIndex(posX, |events[a.value]|);
      if b.None? {
        return false;
      }
      events := events[a.value := events[a.value][b.value := event]];
      ok := true;
    }

    /** `eventsMatrix[posY][posX] = None`. */
    method DespawnEvent(posX: int, posY: int) returns (ok: bool)
      modifies this`events
      ensures var cleared := PySet2(old(events), posY, posX, null);
        (ok <==> cleared.Some?) && events == if ok then cleared.value else old(events)
    {
      ok := SpawnEvent(null, posX, posY);
    }

    method UpdateEventPosition(oldX: int, oldY: int, newX: int, newY: int) returns (r: Outcome<MoveError>)
      modifies this`events
      ensures var moved := MoveEventResult(old(events), oldX, oldY, newX, newY);
        (r.Pass? <==> moved.Ok?)
        && (r.Pass? ==> events == moved.value)
        && (r.Fail? ==> r.error == moved.error && events == old(events))
    {
      var event := PyGet2(events, oldY, oldX);
      if event.None? {
        return Fail(MoveIndexError);
      }
      var dest := PyGet2(events, newY, newX);
      if dest.None? {
        return Fail(MoveIndexError);
      }
      if dest.value != null {
        return Fail(DestinationOccupied);
      }
      if event.value != null {
        var ok := DespawnEvent(oldX, oldY);
        ok := SpawnEvent(event.value, newX, newY);
      }
      r := Pass;
    }

    // -------------------------------------------------------------------
    // Loading

    /** The loader's events-matrix loop: `h` rows of `w` empty cells. */
    method EmptyEventsMatrix(w: nat, h: nat) returns (m: seq<seq<Event?>>)
      ensures m == EmptyEvents(w, h)
    {
      ghost var full := EmptyEvents(w, h);
      m := [];
      var y := 0;
      while y < h
        invariant 0 <= y <= h
        invariant m == full[..y]
      {
        var row: seq<Event?> := [];
        var x := 0;
        while x < w
          invariant 0 <= x <= w
          invariant row == full[y][..x]
        {
          row := row + [null];
          x := x + 1;
        }
        assert row == full[y];
        m := m + [row];
        assert full[..y + 1] == full[..y] + [full[y]];
        y := y + 1;
      }
      assert full[..h] == full;
    }

    /** Event `e` was created in this scene from `d` and spawned. */
    ghost predicate MadeFrom(e: Event, d: EventData)
      reads e
    {
      e.scene == this && e.spawned && e.posX == d.positionX && e.posY == d.positionY
      && e.passThrough == d.passThrough
    }

    /** The events of `ds`, created in order as `es`, were spawned onto
        `m0`: all of them when `r` passes, and otherwise all but the last,
        whose position lies outside the matrix. */
    ghost predicate SpawnedFrom(m0: seq<seq<Event?>>, ds: seq<EventData>, r: Outcome<LoadError>, es: seq<Event>)
      reads this`events, es
    {
      |es| <= |ds|
      && (forall i :: 0 <= i < |es| ==> MadeFrom(es[i], ds[i]))
      && (r.Pass? ==> |es| == |ds| && PlaceAll(m0, es, ds) == Some(events))
      && (r.Fail? ==>
            |es| > 0
            && var n := |es| - 1;
            PlaceAll(m0, es[..n], ds[..n]) == Some(events)
            && PySet2(events, ds[n].positionY, ds[n].positionX, es[n]).None?
            && r.error == EventOutOfMap(ds[n].positionX, ds[n].positionY))
    }

    /** One event of the events file: created at its position (as an event
        of a blocking class when it is not pass-through) and spawned. */
    method SpawnOne(d: EventData) returns (e: Event, ok: bool)
      modifies this`events
      ensures fresh(e)
      ensures e.scene == this && e.spawned && e.posX == d.positionX && e.posY == d.positionY
      ensures e.passThrough == d.passThrough
      ensures var placed := PySet2(old(events), d.positionY, d.positionX, e);
        (ok <==> placed.Some?) && events == if ok then placed.value else old(events)
    {
      if d.passThrough {
        e := new Event(this, d.positionX, d.positionY);
      } else {
        e := new Event.Blocking(this, d.positionX, d.positionY);
      }
      ok := e.Spawn();
    }

    /** An event that cannot be placed after `es` were ends the spawning
        with the error naming its position. */
    lemma SpawnFailed(m0: seq<seq<Event?>>, es: seq<Event>, ds: seq<EventData>, e: Event)
      requires |es| < |ds|
      requires forall j :: 0 <= j < |es| ==> MadeFrom(es[j], ds[j])
      requires MadeFrom(e, ds[|es|])
      requires PlaceAll(m0, es, ds[..|es|]) == Some(events)
      requires PySet2(events, ds[|es|].positionY, ds[|es|].positionX, e).None?
      ensures SpawnedFrom(m0, ds, Fail(EventOutOfMap(ds[|es|].positionX, ds[|es|].positionY)), es + [e])
    {
      var all := es + [e];
      assert all[..|es|] == es;
      assert forall j :: 0 <= j < |all| ==> MadeFrom(all[j], ds[j]);
    }

    /** The loader's events loop: each event is created at its position
        and spawned, which writes it into the matrix; the first one outside
        the matrix aborts the load. Each event's own `load` and `onSpawn`
        thread are not modelled. */
    method SpawnAll(ds: seq<EventData>) returns (r: Outcome<LoadError>, es: seq<Event>)
      modifies this`events
      ensures forall i :: 0 <= i < |es| ==> fresh(es[i])
      ensures SpawnedFrom(old(events), ds, r, es)
    {
      ghost var m0 := events;
      es := [];
      r := Pass;
      var i := 0;
      while i < |ds|
        invariant 0 <= i <= |ds| && |es| == i
        invariant forall j :: 0 <= j < i ==> fresh(es[j])
        invariant forall j :: 0 <= j < i ==> MadeFrom(es[j], ds[j])
        invariant PlaceAll(m0, es, ds[..i]) == Some(events)
      {
        var d := ds[i];
        var e, ok := SpawnOne(d);
        if !ok {
          r := Fail(EventOutOfMap(d.positionX, d.positionY));
          SpawnFailed(m0, es, ds, e);
          es := es + [e];
          return;
        }
        PlaceAllSnoc(m0, es, ds[..i], e, d);
        assert ds[..i + 1] == ds[..i] + [d];
        es := es + [e];
        i := i + 1;
      }
      assert ds[..i] == ds;
    }

    /** The window layout fields after loading: the map size, the tile
        size, the window size in tiles, the camera scroll rectangle, and
        the centring offset of a map smaller than the window (an axis on
        which the map is not smaller keeps its offset). */
    ghost predicate LayoutLoaded(lay: Layout, md: MapData, oldOffsetX: int, oldOffsetY: int)
      reads this
    {
      tileSize == lay.tileSize && mapWidth == md.width && mapHeight == md.height
      && windowWidth == lay.windowWidth && windowHeight == lay.windowHeight
      && mapOffsetX == (if md.width < lay.windowWidth then lay.mapOffsetX else oldOffsetX)
      && mapOffsetY == (if md.height < lay.windowHeight then lay.mapOffsetY else oldOffsetY)
      && cameraRectX == lay.cameraRectX && cameraRectY == lay.cameraRectY
    }

    /** The first part of `load`: the tile size check, the map and tile
        sizes, the resolution check and the derived window layout. */
    method LoadLayout(resW: int, resH: int, md: MapData) returns (lay: Result<Layout, LoadError>)
      modifies this`tileSize, this`mapWidth, this`mapHeight, this`windowWidth, this`windowHeight
      modifies this`mapOffsetX, this`mapOffsetY, this`cameraRectX, this`cameraRectY
      ensures lay == WindowLayout(resW, resH, md.tileWidth, md.tileHeight, md.width, md.height)
      ensures lay.Ok? ==> LayoutLoaded(lay.value, md, old(mapOffsetX), old(mapOffsetY))
    {
      lay := WindowLayout(resW, resH, md.tileWidth, md.tileHeight, md.width, md.height);
      if md.tileWidth != md.tileHeight {
        return;
      }
      mapWidth, mapHeight, tileSize := md.width, md.height, md.tileWidth;
      if lay.Err? {
        return;
      }
      windowWidth, windowHeight := lay.value.windowWidth, lay.value.windowHeight;
      if mapWidth < windowWidth {
        mapOffsetX := lay.value.mapOffsetX;
      }
      if mapHeight < windowHeight {
        mapOffsetY := lay.value.mapOffsetY;
      }
      cameraRectX, cameraRectY := lay.value.cameraRectX, lay.value.cameraRectY;
    }

    /** The tileset part of `load`: the texture-coordinate table, then the
        two tile matrices, composited cell by cell. */
    method LoadTileMatrices(layers: seq<seq<int>>, td: TilesetData) returns (r: Outcome<LoadError>)
      requires tileSize != 0
      modifies this`tiles0, this`tiles1
      ensures var ts := Tileset(CoordsTable(td.imageWidth, td.imageHeight, tileSize), td.types, td.properties, aboveType);
        var w, h := RangeLength(mapWidth), RangeLength(mapHeight);
        var bad := FirstBadCell(layers, w * h, ts);
        (r.Fail? <==> bad < w * h)
        && (r.Fail? ==> CellSpec(layers, bad, ts) == Err(r.error))
        && (r.Pass? ==> |tiles0| == h && RowsMatch(tiles0, tiles1, w, layers, ts))
    {
      var coords := TextureCoords(td.imageWidth, td.imageHeight, tileSize);
      var ts := Tileset(coords, td.types, td.properties, aboveType);
      var tiles := LoadTiles(layers, mapWidth, mapHeight, ts);
      if tiles.Err? {
        return Fail(tiles.error);
      }
      tiles0, tiles1 := tiles.value.0, tiles.value.1;
      r := Pass;
    }

    /** The events part of `load`: the empty events matrix, then the
        events of the map's events file, when it has one. */
    method LoadEvents(eventsData: Option<seq<EventData>>) returns (r: Outcome<LoadError>, spawned: seq<Event>)
      modifies this`events
      ensures forall i :: 0 <= i < |spawned| ==> fresh(spawned[i])
      ensures var empty := EmptyEvents(RangeLength(mapWidth), RangeLength(mapHeight));
        match eventsData
        case None => r == Pass && spawned == [] && events == empty
        case Some(ds) => SpawnedFrom(empty, ds, r, spawned)
    {
      events := EmptyEventsMatrix(RangeLength(mapWidth), RangeLength(mapHeight));
      if eventsData.None? {
        return Pass, [];
      }
      r, spawned := SpawnAll(eventsData.value);
    }

    /** `load`, for a scene that has not been loaded before (a second load
        would write into the rows of the first). The checks on the tile
        size and the resolution come first, then the character charset is
        cut, the tileset's texture coordinates are computed, every cell is
        composited, the events matrix is built empty and the map's events,
        if it has an events file, are spawned. A failing step aborts the
        load with its error. */
    method Load(resW: int, resH: int, md: MapData, td: TilesetData, eventsData: Option<seq<EventData>>)
      returns (r: Outcome<LoadError>, spawned: seq<Event>)
      requires tiles0 == [] && tiles1 == [] && events == []
      modifies this`tileSize, this`mapWidth, this`mapHeight, this`windowWidth, this`windowHeight
      modifies this`mapOffsetX, this`mapOffsetY, this`cameraRectX, this`cameraRectY
      modifies this`tiles0, this`tiles1, this`events
      modifies charset`stepWidth, charset`stepHeight, charset`surfaceMatrix
      ensures forall i :: 0 <= i < |spawned| ==> fresh(spawned[i])
      ensures var lay := WindowLayout(resW, resH, md.tileWidth, md.tileHeight, md.width, md.height);
        lay.Err? ==> r == Fail(lay.error) && spawned == [] && tiles0 == [] && tiles1 == [] && events == []
      ensures var lay := WindowLayout(resW, resH, md.tileWidth, md.tileHeight, md.width, md.height);
        lay.Ok? ==>
          LayoutLoaded(lay.value, md, old(mapOffsetX), old(mapOffsetY))
          && (charset.stepWidth, charset.stepHeight) == Charsets.StepSize(charset.textureWidth, charset.textureHeight)
          && (old(charset.surfaceMatrix).None? ==>
                (r == Fail(CharsetUnloaded) && spawned == [] && tiles0 == [] && tiles1 == [] && events == []))
          && (old(charset.surfaceMatrix).Some? ==>
                charset.surfaceMatrix == Some(Charsets.LoadedRows(old(charset.surfaceMatrix).value, Charsets.LINES,
                                                                   charset.stepWidth, charset.stepHeight)))
      ensures var lay := WindowLayout(resW, resH, md.tileWidth, md.tileHeight, md.width, md.height);
        lay.Ok? && old(charset.surfaceMatrix).Some? ==>
          var ts := Tileset(CoordsTable(td.imageWidth, td.imageHeight, lay.value.tileSize), td.types, td.properties, aboveType);
          var w, h := RangeLength(md.width), RangeLength(md.height);
          var bad := FirstBadCell(md.layers, w * h, ts);
          (bad < w * h ==> r == Fail(CellSpec(md.layers, bad, ts).error) && spawned == [] && events == [])
          && (bad == w * h ==>
                |tiles0| == h && RowsMatch(tiles0, tiles1, w, md.layers, ts)
                && match eventsData
                   case None => r == Pass && spawned == [] && events == EmptyEvents(w, h)
                   case Some(ds) => SpawnedFrom(EmptyEvents(w, h), ds, r, spawned))
    {
      var lay := LoadLayout(resW, resH, md);
      if lay.Err? {
        return Fail(lay.error), [];
      }
      var charsetLoaded := charset.Load();
      if !charsetLoaded {
        return Fail(CharsetUnloaded), [];
      }
      r := LoadTileMatrices(md.layers, td);
      if r.Fail? {
        return r, [];
      }
      r, spawned := LoadEvents(eventsData);
    }

    // -------------------------------------------------------------------
    // Queries

    predicate CanCameraMoveLeft()
      reads this`drawRectX
    {
      drawRectX > 0
    }

    predicate CanCameraMoveRight()
      reads this`drawRectX, this`windowWidth, this`mapWidth
    {
      drawRectX + windowWidth < mapWidth
    }

    predicate CanCameraMoveUp()
      reads this`drawRectY
    {
      drawRectY > 0
    }

    predicate CanCameraMoveDown()
      reads this`drawRectY, this`windowHeight, this`mapHeight
    {
      drawRectY + windowHeight < mapHeight
    }

    predicate CanCameraMove(a: Arrow)
      reads this`drawRectX, this`drawRectY, this`windowWidth, this`windowHeight, this`mapWidth, this`mapHeight
    {
      match a
      case Left => CanCameraMoveLeft()
      case Right => CanCameraMoveRight()
      case Up => CanCameraMoveUp()
      case Down => CanCameraMoveDown()
    }

    /** From a draw rectangle within the map, the camera guards allow
        exactly the one-tile camera steps that keep it within the map. */
    lemma CameraGuardsExact(a: Arrow)
      requires CameraInBounds(drawRectX, windowWidth, mapWidth) && CameraInBounds(drawRectY, windowHeight, mapHeight)
      ensures CanCameraMove(a) <==>
        CameraInBounds(drawRectX + Delta(a).0, windowWidth, mapWidth)
        && CameraInBounds(drawRectY + Delta(a).1, windowHeight, mapHeight)
    {
      CameraGuardsKeepBounds(drawRectX, windowWidth, mapWidth);
      CameraGuardsKeepBounds(drawRectY, windowHeight, mapHeight);
    }

    /** The cell the character faces with orientation `o`. */
    function FacedCellFor(o: int): (int, int)
      reads this`characterX, this`characterY
    {
      var d := OrientationDelta(o);
      (characterX + d.0, characterY + d.1)
    }

    /** The cell the character faces. */
    function FacedCell(): (int, int)
      reads this`characterX, this`characterY, charset`orientation
    {
      FacedCellFor(charset.orientation)
    }

    /** The event the character faces with orientation `o`. */
    function FacedEventFor(o: int): Event?
      reads this`characterX, this`characterY, this`events
    {
      var (fx, fy) := FacedCellFor(o);
      if fx < 0 || fy < 0 then null
      else
        match PyGet2(events, fy, fx)
        case None => null
        case Some(e) => e
    }

    /** `getEventWhichCharacterFaces`: null for a negative coordinate or
        one outside the matrix, otherwise the faced cell's content. */
    function FacedEvent(): (r: Event?)
      reads this`characterX, this`characterY, this`events, charset`orientation
      ensures var (fx, fy) := FacedCell();
        (fx < 0 || fy < 0 ==> r == null)
        && (0 <= fy < |events| && 0 <= fx < |events[fy]| ==> r == events[fy][fx])
        && (fy >= |events| || (0 <= fy < |events| && fx >= |events[fy]|) ==> r == null)
    {
      FacedEventFor(charset.orientation)
    }

    /** The faced event does not let the character through. */
    predicate FacedEventBlocks()
      reads this`characterX, this`characterY, this`events, charset`orientation
    {
      FacedEvent() != null && !FacedEvent().IsPassThrough()
    }

    /** Whether the tile at (x, y) exists, Python-indexed, and lets the
        character in through the side `side` picks. */
    function Enterable(x: int, y: int, side: Collision -> bool): bool
      reads this`tiles0
    {
      match PyGet2(tiles0, y, x)
      case None => false
      case Some(t) => !side(t.collision)
    }

    function CanCharacterMoveLeft(): (r: bool)
      reads this`characterX, this`characterY, this`events, this`tiles0, charset`orientation
      ensures FacedEventBlocks() ==> !r
      ensures characterX <= 0 ==> !r
      ensures !FacedEventBlocks() && characterX > 0 && 0 <= characterY < |tiles0| ==>
        (r <==> characterX - 1 < |tiles0[characterY]| && !tiles0[characterY][characterX - 1].collision.right)
    {
      if FacedEventBlocks() then false
      else characterX > 0 && Enterable(characterX - 1, characterY, (c: Collision) => c.right)
    }

    function CanCharacterMoveRight(): (r: bool)
      reads this`characterX, this`characterY, this`events, this`tiles0, charset`orientation
      ensures FacedEventBlocks() ==> !r
      ensures 0 <= characterY < |tiles0| && characterX + 1 == |tiles0[characterY]| ==> !r
      ensures !FacedEventBlocks() && 0 <= characterY < |tiles0| && 0 <= characterX + 1 < |tiles0[characterY]| ==>
        (r <==> !tiles0[characterY][characterX + 1].collision.left)
    {
      if FacedEventBlocks() then false
      else Enterable(characterX + 1, characterY, (c: Collision) => c.left)
    }

    function CanCharacterMoveUp(): (r: bool)
      reads this`characterX, this`characterY, this`events, this`tiles0, charset`orientation
      ensures FacedEventBlocks() ==> !r
      ensures characterY <= 0 ==> !r
      ensures !FacedEventBlocks() && 0 < characterY <= |tiles0| && 0 <= characterX < |tiles0[characterY - 1]| ==>
        (r <==> !tiles0[characterY - 1][characterX].collision.bottom)
    {
      if FacedEventBlocks() then false
      else characterY > 0 && Enterable(characterX, characterY - 1, (c: Collision) => c.bottom)
    }

    function CanCharacterMoveDown(): (r: bool)
      reads this`characterX, this`characterY, this`events, this`tiles0, charset`orientation
      ensures FacedEventBlocks() ==> !r
      ensures characterY + 1 == |tiles0| ==> !r
      ensures !FacedEventBlocks() && 0 <= characterY + 1 < |tiles0| && 0 <= characterX < |tiles0[characterY + 1]| ==>
        (r <==> !tiles0[characterY + 1][characterX].collision.top)
    {
      if FacedEventBlocks() then false
      else Enterable(characterX, characterY + 1, (c: Collision) => c.top)
    }

    function CanCharacterMove(a: Arrow): bool
      reads this`characterX, this`characterY, this`events, this`tiles0, charset`orientation
    {
      match a
      case Left => CanCharacterMoveLeft()
      case Right => CanCharacterMoveRight()
      case Up => CanCharacterMoveUp()
      case Down => CanCharacterMoveDown()
    }

    /** The character stands on an existing tile. */
    predicate OnMap()
      reads this`characterX, this`characterY, this`tiles0
    {
      0 <= characterY < |tiles0| && 0 <= characterX < |tiles0[characterY]|
    }

    /** Whether the character's on-screen position, less the camera offset,
        lies inside the camera scroll band on the axis of `a`. */
    predicate InCameraScrollRect(a: Arrow)
      reads this`characterXOnScreen, this`characterYOnScreen, this`cameraRectX, this`cameraRectY
      reads cameraOffsetX`value, cameraOffsetY`value
    {
      if a == Left || a == Right then
        var p := characterXOnScreen - cameraOffsetX.value;
        cameraRectX.0 <= p <= cameraRectX.1
      else
        var p := characterYOnScreen - cameraOffsetY.value;
        cameraRectY.0 <= p <= cameraRectY.1
    }

    /** The frame's two scroll-band flags, horizontal then vertical, taken
        before the arrow keys are handled. */
    function ScrollBand(): (bool, bool)
      reads this`characterXOnScreen, this`characterYOnScreen, this`cameraRectX, this`cameraRectY
      reads cameraOffsetX`value, cameraOffsetY`value
    {
      (InCameraScrollRect(Left), InCameraScrollRect(Up))
    }

    // -------------------------------------------------------------------
    // Event handlers

    /** The handler a character entering its tile starts: that of the
        event on the character's cell, none on an empty cell; IndexError
        when the character stands outside the matrix. */
    function OnCharacterEnteredTile(): (c: Call)
      reads this`characterX, this`characterY, this`events
      ensures c == RaisedIndexError <==> PyGet2(events, characterY, characterX).None?
      ensures 0 <= characterY < |events| && 0 <= characterX < |events[characterY]| ==>
        c == if events[characterY][characterX] == null then NoCall else Called(events[characterY][characterX])
    {
      EnteredCall(events, characterX, characterY)
    }

    /** Starts the faced event's touch handler once: after a touch, no
        other one starts until the flag is cleared. */
    method ProcessEventsTouchEvent() returns (c: Call)
      modifies this`touchEventProcessed
      ensures old(touchEventProcessed) || FacedEvent() == null ==>
        c == NoCall && touchEventProcessed == old(touchEventProcessed)
      ensures !old(touchEventProcessed) && FacedEvent() != null ==>
        c == Called(FacedEvent()) && touchEventProcessed
    {
      if touchEventProcessed {
        return NoCall;
      }
      var e := FacedEvent();
      c := NoCall;
      if e != null {
        c := Called(e);
        touchEventProcessed := true;
      }
    }

    /** The tweened offset a camera move along the axis of `tag` animates. */
    function CameraSubjectFor(tag: string): TweenSubject
    {
      if TagDelta(tag).0 != 0 then cameraOffsetX else cameraOffsetY
    }

    /** The tweened offset a character move along the axis of `tag` animates. */
    function CharacterSubjectFor(tag: string): TweenSubject
    {
      if TagDelta(tag).0 != 0 then characterOffsetX else characterOffsetY
    }

    /** The three assignments of a finished camera move by (dx, dy), one
        of which is zero: the draw rectangle and the character's map
        position move, the camera offset of the move's axis is reset. */
    method CameraStep(dx: int, dy: int)
      requires SubjectsDistinct() && (dx == 0) != (dy == 0)
      modifies this`drawRectX, this`drawRectY, this`characterX, this`characterY, cameraOffsetX`value, cameraOffsetY`value
      ensures drawRectX == old(drawRectX) + dx && drawRectY == old(drawRectY) + dy
      ensures characterX == old(characterX) + dx && characterY == old(characterY) + dy
      ensures cameraOffsetX.value == if dx != 0 then 0 else old(cameraOffsetX.value)
      ensures cameraOffsetY.value == if dy != 0 then 0 else old(cameraOffsetY.value)
    {
      if dx != 0 {
        drawRectX := drawRectX + dx;
        cameraOffsetX.value := 0;
        characterX := characterX + dx;
      } else {
        drawRectY := drawRectY + dy;
        cameraOffsetY.value := 0;
        characterY := characterY + dy;
      }
    }

    /** The three assignments of a finished character move by (dx, dy):
        the on-screen and map positions move, the character offset of the
        move's axis is reset. */
    method PlayerStep(dx: int, dy: int)
      requires SubjectsDistinct() && (dx == 0) != (dy == 0)
      modifies this`characterXOnScreen, this`characterYOnScreen, this`characterX, this`characterY
      modifies characterOffsetX`value, characterOffsetY`value
      ensures characterXOnScreen == old(characterXOnScreen) + dx && characterYOnScreen == old(characterYOnScreen) + dy
      ensures characterX == old(characterX) + dx && characterY == old(characterY) + dy
      ensures characterOffsetX.value == if dx != 0 then 0 else old(characterOffsetX.value)
      ensures characterOffsetY.value == if dy != 0 then 0 else old(characterOffsetY.value)
    {
      if dx != 0 {
        characterOffsetX.value := 0;
        characterXOnScreen := characterXOnScreen + dx;
        characterX := characterX + dx;
      } else {
        characterOffsetY.value := 0;
        characterYOnScreen := characterYOnScreen + dy;
        characterY := characterY + dy;
      }
    }

    /** The callback of both tweens, run when one finishes: a camera tag
        moves the draw rectangle and the character's map position by one
        tile and resets the camera offset; a player tag moves the on-screen
        and map positions and resets the character offset; either then
        starts the handler of the entered cell, which raises IndexError
        when the character stands outside the events matrix. Unless that
        raised, the inputs are unblocked, whatever the tag. */
    method TweensCallback(tag: string) returns (c: Call)
      requires SubjectsDistinct()
      modifies this`drawRectX, this`drawRectY, this`characterX, this`characterY
      modifies this`characterXOnScreen, this`characterYOnScreen, this`inputsBlocked
      modifies cameraOffsetX`value, cameraOffsetY`value, characterOffsetX`value, characterOffsetY`value
      ensures c == RaisedIndexError ==> inputsBlocked == old(inputsBlocked)
      ensures c != RaisedIndexError ==> !inputsBlocked
      ensures characterX == old(characterX) + TagDelta(tag).0 && characterY == old(characterY) + TagDelta(tag).1
      ensures IsCameraTag(tag) ==>
        drawRectX == old(drawRectX) + TagDelta(tag).0 && drawRectY == old(drawRectY) + TagDelta(tag).1
      ensures !IsCameraTag(tag) ==> drawRectX == old(drawRectX) && drawRectY == old(drawRectY)
      ensures IsPlayerTag(tag) ==>
        characterXOnScreen == old(characterXOnScreen) + TagDelta(tag).0
        && characterYOnScreen == old(characterYOnScreen) + TagDelta(tag).1
      ensures !IsPlayerTag(tag) ==>
        characterXOnScreen == old(characterXOnScreen) && characterYOnScreen == old(characterYOnScreen)
      ensures cameraOffsetX.value == if IsCameraTag(tag) && TagDelta(tag).0 != 0 then 0 else old(cameraOffsetX.value)
      ensures cameraOffsetY.value == if IsCameraTag(tag) && TagDelta(tag).1 != 0 then 0 else old(cameraOffsetY.value)
      ensures characterOffsetX.value == if IsPlayerTag(tag) && TagDelta(tag).0 != 0 then 0 else old(characterOffsetX.value)
      ensures characterOffsetY.value == if IsPlayerTag(tag) && TagDelta(tag).1 != 0 then 0 else old(characterOffsetY.value)
      ensures c == if IsCameraTag(tag) || IsPlayerTag(tag) then OnCharacterEnteredTile() else NoCall
    {
      TagTable(tag);
      c := NoCall;
      if tag == "cs" {
        CameraStep(0, 1);
        c := OnCharacterEnteredTile();
      } else if tag == "cz" {
        CameraStep(0, -1);
        c := OnCharacterEnteredTile();
      } else if tag == "cq" {
        CameraStep(-1, 0);
        c := OnCharacterEnteredTile();
      } else if tag == "cd" {
        CameraStep(1, 0);
        c := OnCharacterEnteredTile();
      } else if tag == "pq" {
        PlayerStep(-1, 0);
        c := OnCharacterEnteredTile();
      } else if tag == "pd" {
        PlayerStep(1, 0);
        c := OnCharacterEnteredTile();
      } else if tag == "pz" {
        PlayerStep(0, -1);
        c := OnCharacterEnteredTile();
      } else if tag == "ps" {
        PlayerStep(0, 1);
        c := OnCharacterEnteredTile();
      }
      if c != RaisedIndexError {
        inputsBlocked := false;
      }
    }

    // -------------------------------------------------------------------
    // The frame update

    /** The scene's tweens are well formed: the camera tween animates the
        camera offset of its tag's axis, the character tween the character
        offset of its tag's axis. */
    ghost predicate Valid()
      reads this`cameraTween, this`characterTween, cameraTween, characterTween
    {
      SubjectsDistinct()
      && (cameraTween != null ==>
            cameraTween.Valid() && IsCameraTag(cameraTween.tag) && cameraTween.subject == CameraSubjectFor(cameraTween.tag))
      && (characterTween != null ==>
            characterTween.Valid() && IsPlayerTag(characterTween.tag)
            && characterTween.subject == CharacterSubjectFor(characterTween.tag))
    }

    /** Inputs are blocked exactly while one move is being animated, and
        never while the character stands still. */
    ghost predicate OneMoveInFlight()
      reads this`cameraTween, this`characterTween, this`inputsBlocked, this`characterMoving, cameraTween, characterTween
    {
      var cam := cameraTween != null && cameraTween.alive;
      var chr := characterTween != null && characterTween.alive;
      (inputsBlocked <==> cam || chr) && !(cam && chr) && (inputsBlocked ==> characterMoving)
    }

    /** The inputs are blocked and no tween is alive to unblock them, so
        no later frame handles an input. */
    ghost predicate Locked()
      reads this`cameraTween, this`characterTween, this`inputsBlocked, cameraTween, characterTween
    {
      inputsBlocked && !(cameraTween != null && cameraTween.alive) && !(characterTween != null && characterTween.alive)
    }

    /** The positions and offsets once tween `t` is updated by `dt` from
        `p`: while it runs, the offset it animates takes its next value;
        when it finishes, the offset takes the target and the callback of
        its tag runs. A tween that is not running changes nothing. */
    ghost function TweenStep(p: Placement, t: Tween?<string>, dt: int): Placement
      reads t
    {
      if t == null || !t.alive then p
      else
        var s := t.subject;
        var v := if t.initialValue.Some? then t.ValueAt(t.runningSince + dt) else 0;
        var q := p.(cameraOffsetX := if s == cameraOffsetX then v else p.cameraOffsetX,
                    cameraOffsetY := if s == cameraOffsetY then v else p.cameraOffsetY,
                    characterOffsetX := if s == characterOffsetX then v else p.characterOffsetX,
                    characterOffsetY := if s == characterOffsetY then v else p.characterOffsetY);
        if t.runningSince + dt >= t.duration then Callback(q, t.tag) else q
    }

    /** The handlers started when tween `t` is updated by `dt` from `p`:
        none while it runs on, and that of the cell its step enters when
        it finishes. */
    ghost function TweenCall(p: Placement, t: Tween?<string>, dt: int): seq<Call>
      reads this`events, t
    {
      if Finishes(t, dt) then
        var q := TweenStep(p, t, dt);
        [EnteredCall(events, q.characterX, q.characterY)]
      else []
    }

    /** The camera tween's callback raises, which ends the frame. */
    ghost predicate CameraRaises(dt: int)
      reads this`events, this`characterX, this`characterY, this`drawRectX, this`drawRectY, this`characterXOnScreen, this`characterYOnScreen
      reads this`cameraTween, this`characterTween, cameraTween, characterTween
      reads cameraOffsetX`value, cameraOffsetY`value, characterOffsetX`value, characterOffsetY`value
    {
      TweenCall(Positions(), cameraTween, dt) == [RaisedIndexError]
    }

    /** The character tween is updated (the camera's callback did not
        raise) and finishes. */
    ghost predicate CharacterFinishes(dt: int)
      reads this`events, this`characterX, this`characterY, this`drawRectX, this`drawRectY, this`characterXOnScreen, this`characterYOnScreen
      reads this`cameraTween, this`characterTween, cameraTween, characterTween
      reads cameraOffsetX`value, cameraOffsetY`value, characterOffsetX`value, characterOffsetY`value
    {
      !CameraRaises(dt) && Finishes(characterTween, dt)
    }

    /** The handlers the tweens' callbacks start this frame, in order:
        the camera's, then, unless it raised, the character's. */
    ghost function TweenCalls(dt: int): seq<Call>
      reads this`events, this`characterX, this`characterY, this`drawRectX, this`drawRectY, this`characterXOnScreen, this`characterYOnScreen
      reads this`cameraTween, this`characterTween, cameraTween, characterTween
      reads cameraOffsetX`value, cameraOffsetY`value, characterOffsetX`value, characterOffsetY`value
    {
      var c := TweenCall(Positions(), cameraTween, dt);
      if c == [RaisedIndexError] then c
      else c + TweenCall(TweenStep(Positions(), cameraTween, dt), characterTween, dt)
    }

    /** A callback of this frame raises IndexError, which ends the frame. */
    ghost predicate TweensRaise(dt: int)
      reads this`events, this`characterX, this`characterY, this`drawRectX, this`drawRectY, this`characterXOnScreen, this`characterYOnScreen
      reads this`cameraTween, this`characterTween, cameraTween, characterTween
      reads cameraOffsetX`value, cameraOffsetY`value, characterOffsetX`value, characterOffsetY`value
    {
      RaisedIndexError in TweenCalls(dt)
    }

    /** Whether the inputs are still blocked once the tweens are updated:
        the first callback that completes without raising unblocks them. */
    ghost predicate BlockedAfterTweens(dt: int)
      reads this`inputsBlocked, this`events, this`characterX, this`characterY, this`drawRectX, this`drawRectY, this`characterXOnScreen, this`characterYOnScreen
      reads this`cameraTween, this`characterTween, cameraTween, characterTween
      reads cameraOffsetX`value, cameraOffsetY`value, characterOffsetX`value, characterOffsetY`value
    {
      inputsBlocked && (TweenCalls(dt) == [] || TweenCalls(dt) == [RaisedIndexError])
    }

    /** Advances the camera tween; if it finishes, the tag handler runs. */
    method AdvanceCameraTween(dt: int) returns (calls: seq<Call>)
      requires Valid()
      modifies cameraTween, cameraOffsetX, cameraOffsetY, characterOffsetX, characterOffsetY
      modifies this`drawRectX, this`drawRectY, this`characterX, this`characterY, this`inputsBlocked
      modifies this`characterXOnScreen, this`characterYOnScreen
      ensures Valid()
      ensures Positions() == old(TweenStep(Positions(), cameraTween, dt))
      ensures calls == old(TweenCall(Positions(), cameraTween, dt))
      ensures inputsBlocked == (old(inputsBlocked) && (calls == [] || calls == [RaisedIndexError]))
      ensures cameraTween != null ==> cameraTween.alive == (old(cameraTween.alive) && !old(Finishes(cameraTween, dt)))
      ensures cameraTween != null && old(cameraTween.alive) ==> cameraTween.runningSince == old(cameraTween.runningSince) + dt
    {
      calls := [];
      if cameraTween != null {
        ghost var p, finishes := TweenStep(Positions(), cameraTween, dt), Finishes(cameraTween, dt);
        MoveTagAxis(cameraTween.tag);
        var cb := cameraTween.Update(dt);
        assert cb.Some? == finishes;
        if cb.Some? {
          var c := TweensCallback(cb.value);
          assert c == EnteredCall(events, p.characterX, p.characterY);
          calls := [c];
        }
      }
    }

    /** Advances the character tween; if it finishes, the tag handler runs. */
    method AdvanceCharacterTween(dt: int) returns (calls: seq<Call>)
      requires Valid()
      modifies characterTween, cameraOffsetX, cameraOffsetY, characterOffsetX, characterOffsetY
      modifies this`characterXOnScreen, this`characterYOnScreen, this`characterX, this`characterY, this`inputsBlocked
      modifies this`drawRectX, this`drawRectY
      ensures Valid()
      ensures Positions() == old(TweenStep(Positions(), characterTween, dt))
      ensures calls == old(TweenCall(Positions(), characterTween, dt))
      ensures inputsBlocked == (old(inputsBlocked) && (calls == [] || calls == [RaisedIndexError]))
      ensures characterTween != null ==> characterTween.alive == (old(characterTween.alive) && !old(Finishes(characterTween, dt)))
      ensures characterTween != null && old(characterTween.alive) ==> characterTween.runningSince == old(characterTween.runningSince) + dt
    {
      calls := [];
      if characterTween != null {
        ghost var p, finishes := TweenStep(Positions(), characterTween, dt), Finishes(characterTween, dt);
        MoveTagAxis(characterTween.tag);
        var cb := characterTween.Update(dt);
        assert cb.Some? == finishes;
        if cb.Some? {
          var c := TweensCallback(cb.value);
          assert c == EnteredCall(events, p.characterX, p.characterY);
          calls := [c];
        }
      }
    }

    function Positions(): Placement
      reads this`characterX, this`characterY, this`drawRectX, this`drawRectY
      reads this`characterXOnScreen, this`characterYOnScreen
      reads cameraOffsetX`value, cameraOffsetY`value, characterOffsetX`value, characterOffsetY`value
    {
      Placement(characterX, characterY, drawRectX, drawRectY, characterXOnScreen, characterYOnScreen,
                cameraOffsetX.value, cameraOffsetY.value, characterOffsetX.value, characterOffsetY.value)
    }

    /** The positions and offsets once the tweens are advanced by `dt`:
        the camera tween's step, then, unless its callback raised, the
        character tween's. */
    ghost function Advanced(dt: int): Placement
      reads this`events, this`characterX, this`characterY, this`drawRectX, this`drawRectY, this`characterXOnScreen, this`characterYOnScreen
      reads this`cameraTween, this`characterTween, cameraTween, characterTween
      reads cameraOffsetX`value, cameraOffsetY`value, characterOffsetX`value, characterOffsetY`value
    {
      var p := TweenStep(Positions(), cameraTween, dt);
      if CameraRaises(dt) then p else TweenStep(p, characterTween, dt)
    }

    /** Advances the camera tween, then the character tween; a raising
        camera callback ends the frame before the character tween. */
    method AdvanceTweens(dt: int) returns (calls: seq<Call>, raised: bool)
      requires Valid()
      modifies cameraTween, characterTween, cameraOffsetX, cameraOffsetY, characterOffsetX, characterOffsetY
      modifies this`drawRectX, this`drawRectY, this`characterX, this`characterY
      modifies this`characterXOnScreen, this`characterYOnScreen, this`inputsBlocked
      ensures Valid()
      ensures Positions() == old(Advanced(dt))
      ensures cameraTween == old(cameraTween) && characterTween == old(characterTween)
      ensures cameraTween != null ==> cameraTween.alive == (old(cameraTween.alive) && !old(Finishes(cameraTween, dt)))
      ensures characterTween != null ==> characterTween.alive == (old(characterTween.alive) && !old(CharacterFinishes(dt)))
      ensures calls == old(TweenCalls(dt))
      ensures raised == old(TweensRaise(dt))
      ensures inputsBlocked == old(BlockedAfterTweens(dt))
      ensures old(OneMoveInFlight()) && !old(TweensRaise(dt)) ==> OneMoveInFlight()
      ensures old(OneMoveInFlight()) && old(TweensRaise(dt)) ==> Locked()
    {
      assert cameraTween != null && characterTween != null ==> cameraTween != characterTween;
      calls := AdvanceCameraTween(dt);
      raised := calls == [RaisedIndexError];
      if raised {
        return;
      }
      var chr := AdvanceCharacterTween(dt);
      calls := calls + chr;
      raised := chr == [RaisedIndexError];
    }

    /** The handlers started by the RETURN key-downs of a frame: one start
        of the faced event's action handler per key-down. */
    method ActionKeys(inputs: seq<InputEvent>) returns (calls: seq<Call>)
      ensures calls == ActionCalls(inputs, FacedEventFor(charset.orientation))
    {
      ghost var faced := FacedEventFor(charset.orientation);
      calls := [];
      var i := 0;
      while i < |inputs|
        invariant 0 <= i <= |inputs|
        invariant faced == null ==> calls == []
        invariant faced != null ==>
          |calls| == Count(inputs[..i], ReturnDown) && forall k :: 0 <= k < |calls| ==> calls[k] == Called(faced)
      {
        assert inputs[..i + 1] == inputs[..i] + [inputs[i]];
        CountSnoc(inputs[..i], inputs[i], ReturnDown);
        if inputs[i] == ReturnDown {
          var e := FacedEvent();
          if e != null {
            calls := calls + [Called(e)];
          }
        }
        i := i + 1;
      }
      assert inputs[..|inputs|] == inputs;
    }

    /** The tweened offset the camera moves along for direction `a`. */
    function CameraSubject(a: Arrow): TweenSubject
    {
      if a == Left || a == Right then cameraOffsetX else cameraOffsetY
    }

    function CharacterSubject(a: Arrow): TweenSubject
    {
      if a == Left || a == Right then characterOffsetX else characterOffsetY
    }

    /** A new tween of a one-tile move towards `a`, replacing `cam0` or
        `chr0`, is running: the camera's (its offset moving against `a`)
        when `byCamera`, the character's (its offset moving with `a`)
        otherwise; the other tween is still `cam0` or `chr0`. */
    predicate TweenStarted(a: Arrow, byCamera: bool, cam0: Tween?<string>, chr0: Tween?<string>)
      reads this`cameraTween, this`characterTween, this`tileSize, cameraTween, characterTween, cameraOffsetX, cameraOffsetY, characterOffsetX, characterOffsetY
    {
      if byCamera then
        cameraTween != null && cameraTween != cam0 && cameraTween.alive && cameraTween.runningSince == 0 && cameraTween.tag == CameraTag(a)
        && cameraTween.subject == CameraSubject(a) && cameraTween.initialValue == Some(CameraSubject(a).value)
        && cameraTween.targetValue == CameraSubject(a).value - tileSize * (Delta(a).0 + Delta(a).1)
        && cameraTween.duration == CAMERA_MOVEMENT_DURATION && characterTween == chr0
      else
        characterTween != null && characterTween != chr0 && characterTween.alive && characterTween.runningSince == 0 && characterTween.tag == PlayerTag(a)
        && characterTween.subject == CharacterSubject(a) && characterTween.initialValue == Some(CharacterSubject(a).value)
        && characterTween.targetValue == CharacterSubject(a).value + tileSize * (Delta(a).0 + Delta(a).1)
        && characterTween.duration == CAMERA_MOVEMENT_DURATION && cameraTween == cam0
    }

    /** Starts the tween of an allowed move towards `a`: the camera's when
        `byCamera`, the character's otherwise; the move blocks the inputs. */
    method StartMove(a: Arrow, byCamera: bool)
      requires Valid()
      modifies this`cameraTween, this`characterTween, this`characterMoving, this`inputsBlocked
      ensures Valid() && characterMoving && inputsBlocked
      ensures TweenStarted(a, byCamera, old(cameraTween), old(characterTween))
      ensures cameraTween != old(cameraTween) ==> fresh(cameraTween)
      ensures characterTween != old(characterTween) ==> fresh(characterTween)
    {
      if byCamera {
        var subject := CameraSubject(a);
        cameraTween := new Tween.Create(CameraTag(a), subject, subject.value - tileSize * (Delta(a).0 + Delta(a).1),
                                        CAMERA_MOVEMENT_DURATION, easingLinear);
      } else {
        var subject := CharacterSubject(a);
        characterTween := new Tween.Create(PlayerTag(a), subject, subject.value + tileSize * (Delta(a).0 + Delta(a).1),
                                           CAMERA_MOVEMENT_DURATION, easingLinear);
      }
      characterMoving := true;
      inputsBlocked := true;
    }

    /** The first half of an arrow key: the character turns towards `a`
        and touches the event it now faces. */
    method Turn(a: Arrow) returns (touch: Call)
      requires Valid()
      modifies charset`orientation, this`touchEventProcessed
      ensures Valid()
      ensures charset.orientation == OrientationOf(a)
      ensures touch == TouchCall(old(touchEventProcessed), FacedEventFor(OrientationOf(a)))
      ensures touchEventProcessed == (old(touchEventProcessed) || FacedEventFor(OrientationOf(a)) != null)
      ensures charset.step == old(charset.step) && characterMoving == old(characterMoving)
      ensures cameraTween == old(cameraTween) && characterTween == old(characterTween)
    {
      charset.SetOrientation(OrientationOf(a));
      touch := ProcessEventsTouchEvent();
    }

    /** What an arrow key held towards `a` does after the turn, the inputs
        not being blocked and the walk step, moving flag and tweens having
        been `step0`, `moving0`, `cam0` and `chr0`: if the character can
        move that way, a step of the walk cycle and a started move, by the
        camera when `inRect` and the camera can move that way; otherwise
        nothing. */
    predicate MoveStarted(a: Arrow, inRect: bool, step0: int, moving0: bool, cam0: Tween?<string>, chr0: Tween?<string>)
      reads this`characterX, this`characterY, this`events, this`tiles0, charset`orientation, charset`step
      reads this`drawRectX, this`drawRectY, this`windowWidth, this`windowHeight, this`mapWidth, this`mapHeight
      reads this`characterMoving, this`inputsBlocked
      reads this`cameraTween, this`characterTween, this`tileSize, cameraTween, characterTween, cameraOffsetX, cameraOffsetY, characterOffsetX, characterOffsetY
    {
      if CanCharacterMove(a) then
        charset.step == Charsets.NextStep(step0) && characterMoving && inputsBlocked
        && TweenStarted(a, inRect && CanCameraMove(a), cam0, chr0)
      else
        charset.step == step0 && characterMoving == moving0 && !inputsBlocked
        && cameraTween == cam0 && characterTween == chr0
    }

    /** The second half: if the move is allowed, a step of the walk cycle
        and the start of the camera's tween (when `inRect`, the character
        having been in the scroll band, and the camera can move) or of the
        character's. */
    method TryMove(a: Arrow, inRect: bool)
      requires Valid() && !inputsBlocked
      modifies charset`step, this`cameraTween, this`characterTween, this`characterMoving, this`inputsBlocked
      ensures Valid()
      ensures MoveStarted(a, inRect, old(charset.step), old(characterMoving), old(cameraTween), old(characterTween))
      ensures cameraTween != old(cameraTween) ==> fresh(cameraTween)
      ensures characterTween != old(characterTween) ==> fresh(characterTween)
      ensures charset.orientation == old(charset.orientation) && touchEventProcessed == old(touchEventProcessed)
    {
      if CanCharacterMove(a) {
        charset.IncrementStep();
        StartMove(a, inRect && CanCameraMove(a));
      }
    }

    /** What an arrow key held towards `a` did, the touch latch, walk
        step, moving flag and tweens having been `touch0`, `step0`,
        `moving0`, `cam0` and `chr0` and `inRect` being the scroll-band flag
        of `a`'s axis: the character faces `a`, `touch` is the touch of the
        newly faced event (none while the latch is set), and the move
        started when allowed. */
    predicate ArrowHandled(a: Arrow, touch: Call, touch0: bool, step0: int, moving0: bool,
                           cam0: Tween?<string>, chr0: Tween?<string>, inRect: bool)
      reads this`characterX, this`characterY, this`events, this`tiles0, charset`orientation, charset`step
      reads this`drawRectX, this`drawRectY, this`windowWidth, this`windowHeight, this`mapWidth, this`mapHeight
      reads this`characterMoving, this`inputsBlocked, this`touchEventProcessed
      reads this`cameraTween, this`characterTween, this`tileSize, cameraTween, characterTween
      reads cameraOffsetX, cameraOffsetY, characterOffsetX, characterOffsetY
    {
      var faced := FacedEventFor(OrientationOf(a));
      charset.orientation == OrientationOf(a)
      && touch == TouchCall(touch0, faced)
      && touchEventProcessed == (touch0 || faced != null)
      && MoveStarted(a, inRect, step0, moving0, cam0, chr0)
    }

    /** An arrow key held: the character turns, touches the faced event,
        and if the move is allowed takes a step of its walk cycle and starts
        one tween: the camera's when the character was in the scroll band
        and the camera can move that way, the character's otherwise. */
    method ArrowKey(a: Arrow) returns (touch: Call)
      requires Valid() && !inputsBlocked
      modifies charset`orientation, charset`step, this`touchEventProcessed, this`cameraTween, this`characterTween
      modifies this`characterMoving, this`inputsBlocked
      ensures Valid()
      ensures ArrowHandled(a, touch, old(touchEventProcessed), old(charset.step), old(characterMoving),
                           old(cameraTween), old(characterTween), old(InCameraScrollRect(a)))
      ensures cameraTween != old(cameraTween) ==> fresh(cameraTween)
      ensures characterTween != old(characterTween) ==> fresh(characterTween)
    {
      var inRect := InCameraScrollRect(a);
      touch := Turn(a);
      ghost var faced := FacedEventFor(OrientationOf(a));
      TryMove(a, inRect);
      assert FacedEventFor(OrientationOf(a)) == faced;
    }

    /** What no arrow key held did, the walk step, moving flag and touch
        latch having been `step0`, `moving0` and `touch0`: a moving
        character stopped and rested its walk cycle; a standing one cleared
        the touch latch. */
    predicate Stopped(step0: int, moving0: bool, touch0: bool)
      reads charset`step, this`characterMoving, this`touchEventProcessed
    {
      !characterMoving
      && (moving0 ==> charset.step == Charsets.RestingStep(step0) && touchEventProcessed == touch0)
      && (!moving0 ==> charset.step == step0 && !touchEventProcessed)
    }

    /** No arrow key held: a moving character stops and rests its walk
        cycle; a standing one may touch the faced event again. */
    method NoArrowKey()
      modifies charset`step, this`characterMoving, this`touchEventProcessed
      ensures Stopped(old(charset.step), old(characterMoving), old(touchEventProcessed))
      ensures charset.orientation == old(charset.orientation) && inputsBlocked == old(inputsBlocked)
      ensures cameraTween == old(cameraTween) && characterTween == old(characterTween)
    {
      if characterMoving {
        characterMoving := false;
        charset.ResetStep();
      } else {
        touchEventProcessed := false;
      }
    }

    /** What handling a frame's inputs did, the inputs not being blocked
        and the orientation, walk step, moving flag, touch latch and tweens
        having been `o0`, `step0`, `moving0`, `touch0`, `cam0` and `chr0`:
        `calls` starts with one action handler of the event faced before
        turning per RETURN key-down; then the first held arrow turned the
        character, touched the newly faced event (the touch is `calls`'s
        last entry) and started a move when allowed; with no arrow held, a
        moving character stopped and rested its walk cycle, and a standing
        one cleared the touch latch. */
    predicate HandledInputs(inputs: seq<InputEvent>, keys: set<Arrow>, calls: seq<Call>,
                            o0: int, step0: int, moving0: bool, touch0: bool, cam0: Tween?<string>, chr0: Tween?<string>,
                            band0: (bool, bool))
      reads this`characterX, this`characterY, this`events, this`tiles0, charset`orientation, charset`step
      reads this`drawRectX, this`drawRectY, this`windowWidth, this`windowHeight, this`mapWidth, this`mapHeight
      reads this`characterXOnScreen, this`characterYOnScreen, this`cameraRectX, this`cameraRectY
      reads this`characterMoving, this`inputsBlocked, this`touchEventProcessed
      reads this`cameraTween, this`characterTween, this`tileSize, cameraTween, characterTween
      reads cameraOffsetX, cameraOffsetY, characterOffsetX, characterOffsetY
    {
      var actions := ActionCalls(inputs, FacedEventFor(o0));
      match FirstPressed(keys)
      case None =>
        calls == actions && charset.orientation == o0 && !inputsBlocked
        && cameraTween == cam0 && characterTween == chr0 && Stopped(step0, moving0, touch0)
      case Some(a) =>
        |calls| == |actions| + 1 && calls[..|actions|] == actions
        && ArrowHandled(a, calls[|actions|], touch0, step0, moving0, cam0, chr0,
                        if a == Left || a == Right then band0.0 else band0.1)
    }

    /** The input state is the given one: the frame handled no input. */
    predicate InputsUntouched(blocked0: bool, o0: int, step0: int, moving0: bool, touch0: bool,
                              cam0: Tween?<string>, chr0: Tween?<string>)
      reads this`inputsBlocked, charset`orientation, charset`step, this`characterMoving, this`touchEventProcessed
      reads this`cameraTween, this`characterTween
    {
      inputsBlocked == blocked0 && charset.orientation == o0 && charset.step == step0
      && characterMoving == moving0 && touchEventProcessed == touch0
      && cameraTween == cam0 && characterTween == chr0
    }

    /** The input part of a frame: the RETURN key-downs start the faced
        event's action handler, then the first arrow key held, in the
        order Left, Right, Up, Down, is handled. */
    method HandleInputs(inputs: seq<InputEvent>, keys: set<Arrow>) returns (calls: seq<Call>)
      requires Valid() && !inputsBlocked
      modifies charset`orientation, charset`step, this`touchEventProcessed, this`cameraTween, this`characterTween
      modifies this`characterMoving, this`inputsBlocked
      ensures Valid()
      ensures HandledInputs(inputs, keys, calls, old(charset.orientation), old(charset.step), old(characterMoving),
                            old(touchEventProcessed), old(cameraTween), old(characterTween), old(ScrollBand()))
      ensures cameraTween != old(cameraTween) ==> fresh(cameraTween)
      ensures characterTween != old(characterTween) ==> fresh(characterTween)
      ensures old(OneMoveInFlight()) ==> OneMoveInFlight()
    {
      calls := ActionKeys(inputs);
      match FirstPressed(keys)
      case Some(a) =>
        var touch := ArrowKey(a);
        calls := calls + [touch];
      case None =>
        NoArrowKey();
    }

    /** The input part of a frame, reached unless a tween callback raised:
        the inputs are handled when they are not blocked, and otherwise
        nothing happens. */
    method InputPhase(raised: bool, inputs: seq<InputEvent>, keys: set<Arrow>) returns (calls: seq<Call>)
      requires Valid()
      modifies charset`orientation, charset`step, this`touchEventProcessed, this`cameraTween, this`characterTween
      modifies this`characterMoving, this`inputsBlocked
      ensures Valid()
      ensures !raised && !old(inputsBlocked) ==>
        HandledInputs(inputs, keys, calls, old(charset.orientation), old(charset.step), old(characterMoving),
                      old(touchEventProcessed), old(cameraTween), old(characterTween), ScrollBand())
      ensures raised || old(inputsBlocked) ==>
        calls == [] && InputsUntouched(old(inputsBlocked), old(charset.orientation), old(charset.step), old(characterMoving),
                                       old(touchEventProcessed), old(cameraTween), old(characterTween))
      ensures cameraTween != old(cameraTween) ==> fresh(cameraTween)
      ensures characterTween != old(characterTween) ==> fresh(characterTween)
      ensures ScrollBand() == old(ScrollBand()) && Positions() == old(Positions())
      ensures old(OneMoveInFlight()) ==> OneMoveInFlight()
    {
      calls := [];
      if !raised && !inputsBlocked {
        calls := HandleInputs(inputs, keys);
      }
    }

    /** One frame: the tweens advance; the frame ends there when a tween
        callback raised IndexError or the inputs are still blocked, and
        otherwise the inputs are handled. */
    method Update(dt: int, inputs: seq<InputEvent>, keys: set<Arrow>) returns (calls: seq<Call>)
      requires Valid()
      modifies cameraTween, characterTween, cameraOffsetX, cameraOffsetY, characterOffsetX, characterOffsetY
      modifies this`drawRectX, this`drawRectY, this`characterX, this`characterY
      modifies this`characterXOnScreen, this`characterYOnScreen, this`inputsBlocked
      modifies charset`orientation, charset`step, this`touchEventProcessed, this`cameraTween, this`characterTween
      modifies this`characterMoving
      ensures Valid()
      ensures Positions() == old(Advanced(dt))
      ensures var tc := old(TweenCalls(dt));
        var handled := !old(TweensRaise(dt)) && !old(BlockedAfterTweens(dt));
        |tc| <= |calls| && calls[..|tc|] == tc
        && (handled ==> HandledInputs(inputs, keys, calls[|tc|..], old(charset.orientation), old(charset.step),
                                      old(characterMoving), old(touchEventProcessed), old(cameraTween), old(characterTween),
                                      ScrollBand()))
        && (!handled ==>
              calls == tc
              && InputsUntouched(old(BlockedAfterTweens(dt)), old(charset.orientation), old(charset.step),
                                 old(characterMoving), old(touchEventProcessed), old(cameraTween), old(characterTween)))
      ensures cameraTween != old(cameraTween) ==> fresh(cameraTween)
      ensures characterTween != old(characterTween) ==> fresh(characterTween)
      ensures old(OneMoveInFlight()) && !old(TweensRaise(dt)) ==> OneMoveInFlight()
      ensures old(OneMoveInFlight()) && old(TweensRaise(dt)) ==> Locked()
      ensures old(Locked()) ==> Locked() && calls == []
    {
      var tc, raised := AdvanceTweens(dt);
      ghost var handled := !raised && !inputsBlocked;
      assert handled == (!old(TweensRaise(dt)) && !old(BlockedAfterTweens(dt)));
      var more := InputPhase(raised, inputs, keys);
      calls := tc + more;
      assert calls[..|tc|] == tc && calls[|tc|..] == more;
    }
  }

  /** A permitted step from a tile of the map lands on a tile of the map,
      one step away in the direction of the move. */
  lemma PermittedMoveStaysOnMap(s: MapScene, a: Arrow)
    requires s.OnMap() && s.CanCharacterMove(a)
    ensures var (nx, ny) := (s.characterX + Delta(a).0, s.characterY + Delta(a).1);
      0 <= ny < |s.tiles0| && 0 <= nx < |s.tiles0[ny]|
  {
  }
}
