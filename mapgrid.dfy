/** The integer grid logic of loading a map into a map scene: sizing the
    window in tiles, centring a small map, the camera scroll rectangle, the
    tileset's texture-coordinate table, the parsing of collision flags and
    the compositing of every cell's layers onto a "below" and an "above"
    tile. The map and tileset files themselves are inputs here. */
module MapGrid {
  import opened Common
  import opened Tiles

  datatype LoadError =
    | TileNotSquare                 // "The tile width and height must not be different"
    | ZeroTileSize                  // Python's ZeroDivisionError on `% 0`
    | ResolutionNotMultiple         // "The window resolution must be a multiple of the map's tile size"
    | LayerDataTooShort(layer: nat) // IndexError on `layer["data"][tileCount]`
    | UnknownTileId(id: int)        // KeyError on the texture-coordinate table
    | MissingTileType(id: int)      // KeyError on a "tiles" entry without "type"
    | UnknownCollision(flag: string) // "Unknown collision parameter : <flag>"
    | CharsetUnloaded               // the character charset's matrix was cleared
    | EventOutOfMap(x: int, y: int) // IndexError placing an event in the events matrix

  // ---------------------------------------------------------------------
  // Window, offsets and camera scroll rectangle

  datatype Layout = Layout(
    tileSize: int,
    windowWidth: int, windowHeight: int,   // window size in tiles
    mapOffsetX: int, mapOffsetY: int,      // render offset in px of a map smaller than the window
    cameraRectX: (int, int), cameraRectY: (int, int))

  /** Offset in px that centres a map narrower (or shorter) than the window. */
  function MapOffset(window: int, mapSize: int, tileSize: int): int
  {
    if mapSize < window then ((window - mapSize) / 2) * tileSize else 0
  }

  /** The band of on-screen tiles inside which the camera, not the
      character, moves: two tiles around the middle of an even window, one
      tile pair starting at the middle tile of an odd one. */
  function CameraScrollRect(w: int): (r: (int, int))
    ensures r.0 + r.1 == w
    ensures r.1 - r.0 == if w % 2 == 0 then 2 else 1
  {
    if w % 2 == 0 then (w / 2 - 1, w / 2 - 1 + 2) else (w / 2, w / 2 + 1)
  }

  /** The arithmetic part of loading a map: the checks on the tile size and
      the resolution, then the derived window layout. */
  function WindowLayout(resW: int, resH: int, tileW: int, tileH: int, mapW: int, mapH: int): (r: Result<Layout, LoadError>)
    ensures tileW != tileH ==> r == Err(TileNotSquare)
    ensures tileW == tileH == 0 ==> r == Err(ZeroTileSize)
    ensures tileW == tileH != 0 && (resW % tileW != 0 || resH % tileW != 0) ==> r == Err(ResolutionNotMultiple)
    ensures r.Ok? ==> tileW == tileH != 0 && r.value.tileSize == tileW
    ensures r.Ok? ==> r.value.windowWidth * tileW == resW && r.value.windowHeight * tileW == resH
    ensures r.Ok? ==> (r.value.mapOffsetX == MapOffset(r.value.windowWidth, mapW, tileW)
                       && r.value.mapOffsetY == MapOffset(r.value.windowHeight, mapH, tileW))
    ensures r.Ok? ==> (r.value.cameraRectX == CameraScrollRect(r.value.windowWidth)
                       && r.value.cameraRectY == CameraScrollRect(r.value.windowHeight))
  {
    if tileW != tileH then Err(TileNotSquare)
    else if tileW == 0 then Err(ZeroTileSize)
    else if resW % tileW != 0 || resH % tileW != 0 then Err(ResolutionNotMultiple)
    else
      var ww, wh := resW / tileW, resH / tileW;
      Ok(Layout(tileW, ww, wh, MapOffset(ww, mapW, tileW), MapOffset(wh, mapH, tileW),
                CameraScrollRect(ww), CameraScrollRect(wh)))
  }

  /** A map narrower than the window is centred: the offset is a whole
      number of tiles and the margins left and right differ by at most one
      tile. */
  lemma MapOffsetCentres(window: int, mapSize: int, tileSize: int)
    requires mapSize < window
    ensures exists m :: MapOffset(window, mapSize, tileSize) == m * tileSize
                        && 0 <= (window - mapSize) - 2 * m <= 1
  {
    var m := (window - mapSize) / 2;
    assert MapOffset(window, mapSize, tileSize) == m * tileSize;
  }

  // ---------------------------------------------------------------------
  // Texture-coordinate table

  /** Python's `int(a / b)`: division truncating toward zero. */
  function TruncDiv(a: int, b: int): int
    requires b != 0
  {
    var q := (if a < 0 then -a else a) / (if b < 0 then -b else b);
    if (a < 0) == (b < 0) then q else -q
  }

  /** The number of iterations of `range(n)`. */
  function RangeLength(n: int): nat
  {
    if n < 0 then 0 else n
  }

  /** Row-major tile id of column x in row y. */
  function TileId(x: int, y: int, cols: int): int
  {
    y * cols + x
  }

  lemma RowMajorDivMod(x: int, y: int, cols: int)
    requires 0 <= x < cols && 0 <= y
    ensures TileId(x, y, cols) / cols == y && TileId(x, y, cols) % cols == x
  {
    DivisionUnique(TileId(x, y, cols), cols, y);
  }

  /** The rectangle of tile `id` in a tileset `cols` tiles wide. */
  function CoordsOf(id: int, cols: int, tileSize: int): Rect
    requires cols > 0
  {
    Rect((id % cols) * tileSize, (id / cols) * tileSize, tileSize, tileSize)
  }

  lemma CoordsOfRowMajor(x: int, y: int, cols: int, tileSize: int)
    requires 0 <= x < cols && 0 <= y
    ensures CoordsOf(TileId(x, y, cols), cols, tileSize) == Rect(x * tileSize, y * tileSize, tileSize, tileSize)
  {
    RowMajorDivMod(x, y, cols);
  }

  lemma TileIdBelowCount(x: int, y: int, rows: int, cols: int)
    requires 0 <= y < rows && 0 <= x < cols
    ensures 0 <= TileId(x, y, cols) < rows * cols
  {
    assert (rows - 1 - y) * cols >= 0;
    assert rows * cols == (rows - 1 - y) * cols + y * cols + cols;
  }

  lemma NextRow(y: int, cols: int)
    ensures (y + 1) * cols == y * cols + cols
  {
  }

  /** The texture-coordinate table of a tileset image, as a value: one
      tile-sized rectangle per id below rows * cols. */
  function CoordsTable(imageWidth: int, imageHeight: int, tileSize: int): map<int, Rect>
    requires tileSize != 0
  {
    var rows, cols := RangeLength(TruncDiv(imageHeight, tileSize)), RangeLength(TruncDiv(imageWidth, tileSize));
    if cols == 0 then map[] else map id | 0 <= id < rows * cols :: CoordsOf(id, cols, tileSize)
  }

  /** The tileset's texture-coordinate table: ids are numbered row-major
      from 0 over the tileset image, each naming the tile-sized rectangle at
      its column and row. */
  method TextureCoords(imageWidth: int, imageHeight: int, tileSize: int) returns (coords: map<int, Rect>)
    requires tileSize != 0
    ensures coords == CoordsTable(imageWidth, imageHeight, tileSize)
    ensures var rows, cols := RangeLength(TruncDiv(imageHeight, tileSize)), RangeLength(TruncDiv(imageWidth, tileSize));
      (forall id :: id in coords <==> 0 <= id < rows * cols)
      && (forall x, y :: 0 <= y < rows && 0 <= x < cols ==>
            TileId(x, y, cols) in coords
            && coords[TileId(x, y, cols)] == Rect(x * tileSize, y * tileSize, tileSize, tileSize))
  {
    var rows := RangeLength(TruncDiv(imageHeight, tileSize));
    var cols := RangeLength(TruncDiv(imageWidth, tileSize));
    coords := map[];
    var tileCount := 0;
    var y := 0;
    while y < rows
      invariant 0 <= y <= rows
      invariant tileCount == y * cols
      invariant forall id :: id in coords <==> 0 <= id < tileCount
      invariant forall id :: id in coords ==> 0 < cols && coords[id] == CoordsOf(id, cols, tileSize)
    {
      var x := 0;
      while x < cols
        invariant 0 <= x <= cols
        invariant tileCount == TileId(x, y, cols)
        invariant forall id :: id in coords <==> 0 <= id < tileCount
        invariant forall id :: id in coords ==> 0 < cols && coords[id] == CoordsOf(id, cols, tileSize)
      {
        CoordsOfRowMajor(x, y, cols, tileSize);
        coords := coords[tileCount := Rect(x * tileSize, y * tileSize, tileSize, tileSize)];
        tileCount := tileCount + 1;
        x := x + 1;
      }
      NextRow(y, cols);
      y := y + 1;
    }
    forall x, y | 0 <= y < rows && 0 <= x < cols
      ensures TileId(x, y, cols) in coords
      ensures coords[TileId(x, y, cols)] == Rect(x * tileSize, y * tileSize, tileSize, tileSize)
    {
      CoordsOfRowMajor(x, y, cols, tileSize);
      TileIdBelowCount(x, y, rows, cols);
    }
    if cols == 0 {
      assert tileCount == 0;
    }
  }

  // ---------------------------------------------------------------------
  // Collision flags

  predicate KnownFlag(f: string)
  {
    f == "top" || f == "right" || f == "bottom" || f == "left"
  }

  /** Index of the first flag that is not one of the four known ones, or
      the number of flags when all are known. */
  function FirstUnknown(flags: seq<string>): (k: nat)
    ensures k <= |flags|
    ensures k < |flags| ==> !KnownFlag(flags[k])
  {
    if flags == [] then 0
    else if !KnownFlag(flags[0]) then 0
    else 1 + FirstUnknown(flags[1..])
  }

  /** Every flag before the first unknown one is known. */
  lemma {:induction false} FirstUnknownAllKnown(flags: seq<string>)
    ensures forall i :: 0 <= i < FirstUnknown(flags) ==> KnownFlag(flags[i])
  {
    if flags != [] && KnownFlag(flags[0]) {
      FirstUnknownAllKnown(flags[1..]);
      assert forall i :: 1 <= i < |flags| ==> flags[i] == flags[1..][i - 1];
    }
  }

  /** What a tile's `collision` string does to its flags, stated without
      the order of the tokens: an empty string changes nothing; otherwise
      the first unknown token is an error, and each known token sets its
      own slot. */
  function ApplyCollisionFlags(c: Collision, s: string): Result<Collision, LoadError>
  {
    if |s| == 0 then Ok(c)
    else
      var flags := Split(s, ';');
      var k := FirstUnknown(flags);
      if k < |flags| then Err(UnknownCollision(flags[k]))
      else Ok(FlagsOf(c, flags))
  }

  /** `c` with every slot named among `flags` set. */
  function FlagsOf(c: Collision, flags: seq<string>): Collision
  {
    Collision(c.top || "top" in flags, c.right || "right" in flags,
              c.bottom || "bottom" in flags, c.left || "left" in flags)
  }

  /** The flags of `c` with the slot `f` names set. */
  function SetSlot(c: Collision, f: string): Collision
  {
    if f == "top" then c.(top := true)
    else if f == "right" then c.(right := true)
    else if f == "bottom" then c.(bottom := true)
    else if f == "left" then c.(left := true)
    else c
  }

  lemma FlagsOfSnoc(c: Collision, flags: seq<string>, f: string)
    requires KnownFlag(f)
    ensures FlagsOf(c, flags + [f]) == SetSlot(FlagsOf(c, flags), f)
  {
    assert forall g :: g in flags + [f] <==> g in flags || g == f;
  }

  /** The loader's token loop: each token rebuilds the 4-tuple with its own
      slot set, and an unknown token raises. */
  method ParseCollisionFlags(c: Collision, s: string) returns (r: Result<Collision, LoadError>)
    ensures r == ApplyCollisionFlags(c, s)
  {
    if |s| == 0 {
      return Ok(c);
    }
    var flags := Split(s, ';');
    var t := c;
    var i := 0;
    while i < |flags|
      invariant 0 <= i <= |flags|
      invariant i <= FirstUnknown(flags)
      invariant t == FlagsOf(c, flags[..i])
    {
      var flag := flags[i];
      assert flags[..i + 1] == flags[..i] + [flag];
      if KnownFlag(flag) {
        FlagsOfSnoc(c, flags[..i], flag);
      }
      if flag == "top" {
        t := Collision(true, t.right, t.bottom, t.left);
      } else if flag == "right" {
        t := Collision(t.top, true, t.bottom, t.left);
      } else if flag == "bottom" {
        t := Collision(t.top, t.right, true, t.left);
      } else if flag == "left" {
        t := Collision(t.top, t.right, t.bottom, true);
      } else {
        FirstUnknownAllKnown(flags);
        assert FirstUnknown(flags) == i;
        return Err(UnknownCollision(flag));
      }
      i := i + 1;
    }
    assert flags[..i] == flags;
    r := Ok(t);
  }

  lemma {:induction false} FirstUnknownConcat(a: seq<string>, b: seq<string>)
    ensures FirstUnknown(a + b) == if FirstUnknown(a) < |a| then FirstUnknown(a) else |a| + FirstUnknown(b)
  {
    if a != [] {
      assert (a + b)[0] == a[0];
      assert (a + b)[1..] == a[1..] + b;
      FirstUnknownConcat(a[1..], b);
    } else {
      assert a + b == b;
    }
  }

  /** A single known token sets exactly its own slot and no other. */
  lemma FlagSetsOnlyItsSlot(c: Collision, f: string)
    requires KnownFlag(f)
    ensures ApplyCollisionFlags(c, f) == Ok(SetSlot(c, f))
  {
    SplitNoSeparator(f, ';');
  }

  /** A single token that is not a known flag (and holds no separator) raises. */
  lemma UnknownFlagRaises(c: Collision, f: string)
    requires |f| > 0 && ';' !in f && !KnownFlag(f)
    ensures ApplyCollisionFlags(c, f) == Err(UnknownCollision(f))
  {
    SplitNoSeparator(f, ';');
  }

  /** Applying `a;b` is applying `a` and then `b`. */
  lemma SequentialFlags(c: Collision, a: string, b: string)
    requires |a| > 0 && |b| > 0
    ensures ApplyCollisionFlags(c, a + [';'] + b) ==
            match ApplyCollisionFlags(c, a)
            case Err(e) => Err(e)
            case Ok(c') => ApplyCollisionFlags(c', b)
  {
    SplitConcat(a, b, ';');
    FirstUnknownConcat(Split(a, ';'), Split(b, ';'));
    var fa, fb := Split(a, ';'), Split(b, ';');
    if FirstUnknown(fa) < |fa| {
      assert (fa + fb)[FirstUnknown(fa)] == fa[FirstUnknown(fa)];
    } else if FirstUnknown(fb) < |fb| {
      assert (fa + fb)[|fa| + FirstUnknown(fb)] == fb[FirstUnknown(fb)];
    }
  }

  /** Repeating a flag string changes nothing more than stating it once. */
  lemma RepeatedFlagsIdempotent(c: Collision, s: string)
    requires |s| > 0
    ensures ApplyCollisionFlags(c, s + [';'] + s) == ApplyCollisionFlags(c, s)
  {
    SequentialFlags(c, s, s);
  }

  /** A string whose first token is not a known flag raises on that token,
      whatever follows it. */
  lemma UnknownFirstFlagRaises(c: Collision, f: string, rest: string)
    requires |f| > 0 && ';' !in f && !KnownFlag(f)
    ensures ApplyCollisionFlags(c, f + [';'] + rest) == Err(UnknownCollision(f))
  {
    SplitConcat(f, rest, ';');
    SplitNoSeparator(f, ';');
    var flags := Split(f + [';'] + rest, ';');
    assert flags == [f] + Split(rest, ';');
    assert flags[0] == f;
  }

  /** The tileset data ships collision strings such as `up;down;right;left`,
      which the loader rejects at their first token. */
  lemma TilesetDirectionWordsRejected(c: Collision)
    ensures ApplyCollisionFlags(c, "up;down;right;left") == Err(UnknownCollision("up"))
  {
    assert "up;down;right;left" == "up" + [';'] + "down;right;left";
    UnknownFirstFlagRaises(c, "up", "down;right;left");
  }

  // ---------------------------------------------------------------------
  // Layer compositing of one cell

  /** What the loader reads from the tileset file: the texture-coordinate
      table, the "tiles" entries (id to its "type", None for an entry
      without one), the "tileproperties" entries (id to its "collision"
      string, None for an entry without one), and the tile type that marks
      tiles drawn above the occupants. */
  datatype Tileset = Tileset(
    coords: map<int, Rect>,
    types: map<int, Option<string>>,
    properties: map<int, Option<string>>,
    aboveType: string)

  datatype DrawnTile = DrawnTile(id: int, rect: Rect)

  /** What one layer contributes to one cell. */
  datatype LayerStep = Skip | Draw(tile: DrawnTile) | Broken(error: LoadError)

  datatype Cell = Cell(below: Tile, above: Option<Tile>)

  function CollisionString(id: int, ts: Tileset): string
  {
    if id in ts.properties && ts.properties[id].Some? then ts.properties[id].value else ""
  }

  predicate IsAbove(id: int, ts: Tileset)
  {
    id in ts.types && ts.types[id] == Some(ts.aboveType)
  }

  predicate HasFlag(t: DrawnTile, ts: Tileset, flag: string)
  {
    |CollisionString(t.id, ts)| > 0 && flag in Split(CollisionString(t.id, ts), ';')
  }

  /** Layer `layerNo` at cell index `tileCount`: id 0 is skipped, any other
      id is shifted down by one and must name a known texture, a well-formed
      "tiles" entry and well-formed collision flags. */
  function LayerStepAt(layer: seq<int>, tileCount: nat, layerNo: nat, ts: Tileset): LayerStep
  {
    if tileCount >= |layer| then Broken(LayerDataTooShort(layerNo))
    else if layer[tileCount] == 0 then Skip
    else
      var id := layer[tileCount] - 1;
      if id !in ts.coords then Broken(UnknownTileId(id))
      else if id in ts.types && ts.types[id].None? then Broken(MissingTileType(id))
      else match ApplyCollisionFlags(NoCollision, CollisionString(id, ts))
        case Err(e) => Broken(e)
        case Ok(_) => Draw(DrawnTile(id, ts.coords[id]))
  }

  function CellSteps(layers: seq<seq<int>>, tileCount: nat, ts: Tileset): seq<LayerStep>
  {
    seq(|layers|, l requires 0 <= l < |layers| => LayerStepAt(layers[l], tileCount, l, ts))
  }

  function FirstFail(steps: seq<LayerStep>): (k: nat)
    ensures k <= |steps|
    ensures k < |steps| ==> steps[k].Broken?
  {
    if steps == [] then 0
    else if steps[0].Broken? then 0
    else 1 + FirstFail(steps[1..])
  }

  /** No step before the first failing one fails. */
  lemma {:induction false} FirstFailNoneBroken(steps: seq<LayerStep>)
    ensures forall i :: 0 <= i < FirstFail(steps) ==> !steps[i].Broken?
  {
    if steps != [] && !steps[0].Broken? {
      FirstFailNoneBroken(steps[1..]);
      assert forall i :: 1 <= i < |steps| ==> steps[i] == steps[1..][i - 1];
    }
  }

  /** The tiles drawn by the layers, in layer order. */
  function Drawn(steps: seq<LayerStep>): seq<DrawnTile>
  {
    if steps == [] then []
    else
      var last := steps[|steps| - 1];
      Drawn(steps[..|steps| - 1]) + if last.Draw? then [last.tile] else []
  }

  function FirstAbove(d: seq<DrawnTile>, ts: Tileset): (k: nat)
    ensures k <= |d|
    ensures k < |d| ==> IsAbove(d[k].id, ts)
  {
    if d == [] then 0
    else if IsAbove(d[0].id, ts) then 0
    else 1 + FirstAbove(d[1..], ts)
  }

  /** No tile before the first above tile is an above tile. */
  lemma {:induction false} FirstAboveNoneAbove(d: seq<DrawnTile>, ts: Tileset)
    ensures forall i :: 0 <= i < FirstAbove(d, ts) ==> !IsAbove(d[i].id, ts)
  {
    if d != [] && !IsAbove(d[0].id, ts) {
      FirstAboveNoneAbove(d[1..], ts);
      assert forall i :: 1 <= i < |d| ==> d[i] == d[1..][i - 1];
    }
  }

  function Blits(d: seq<DrawnTile>): seq<Rect>
  {
    seq(|d|, i requires 0 <= i < |d| => d[i].rect)
  }

  /** The flags of a surface: those of the tiles blitted onto it, merged
      in blit order. */
  function CollisionOf(d: seq<DrawnTile>, ts: Tileset): Collision
  {
    if d == [] then NoCollision else Merge(CollisionOf(d[..|d| - 1], ts), d[|d| - 1], ts)
  }

  /** Slot `f` of a 4-tuple of flags, for a known flag `f`. */
  function Slot(c: Collision, f: string): bool
  {
    if f == "top" then c.top else if f == "right" then c.right else if f == "bottom" then c.bottom else c.left
  }

  /** A slot is set iff some tile blitted onto the surface carries its flag. */
  lemma {:induction false} CollisionOfFlags(d: seq<DrawnTile>, ts: Tileset, f: string)
    requires KnownFlag(f)
    ensures Slot(CollisionOf(d, ts), f) <==> exists i :: 0 <= i < |d| && HasFlag(d[i], ts, f)
  {
    if d != [] {
      var p, t := d[..|d| - 1], d[|d| - 1];
      CollisionOfFlags(p, ts, f);
      assert Slot(CollisionOf(d, ts), f) == (Slot(CollisionOf(p, ts), f) || HasFlag(t, ts, f));
      assert forall i :: 0 <= i < |p| ==> p[i] == d[i];
    }
  }

  function TileOf(d: seq<DrawnTile>, ts: Tileset): Tile
  {
    Tile(Blits(d), CollisionOf(d, ts))
  }

  /** The reference definition of one cell: the first failing layer's
      error, or the drawn tiles split at the first "above" tile: those
      before it on the below tile, it and all later ones on the above tile,
      which exists only if some above tile was drawn. */
  function CellSpec(layers: seq<seq<int>>, tileCount: nat, ts: Tileset): Result<Cell, LoadError>
  {
    var steps := CellSteps(layers, tileCount, ts);
    var j := FirstFail(steps);
    if j < |steps| then Err(steps[j].error)
    else
      var st := SplitAtAbove(Drawn(steps), ts);
      Ok(Cell(st.tile0, if st.above then Some(st.tile1) else None))
  }

  lemma FirstAboveSnoc(d: seq<DrawnTile>, t: DrawnTile, ts: Tileset)
    ensures FirstAbove(d + [t], ts) ==
      if FirstAbove(d, ts) < |d| then FirstAbove(d, ts)
      else if IsAbove(t.id, ts) then |d| else |d| + 1
  {
    var k, k' := FirstAbove(d, ts), FirstAbove(d + [t], ts);
    FirstAboveNoneAbove(d, ts);
    FirstAboveNoneAbove(d + [t], ts);
    assert forall i :: 0 <= i < |d| ==> (d + [t])[i] == d[i];
    assert (d + [t])[|d|] == t;
    if k < |d| {
      assert k' <= k;
    }
  }

  lemma BlitsSnoc(d: seq<DrawnTile>, t: DrawnTile)
    ensures Blits(d + [t]) == Blits(d) + [t.rect]
  {
  }

  /** The flags of `c` after the collision string of tile `t`. */
  function Merge(c: Collision, t: DrawnTile, ts: Tileset): Collision
  {
    Collision(c.top || HasFlag(t, ts, "top"), c.right || HasFlag(t, ts, "right"),
              c.bottom || HasFlag(t, ts, "bottom"), c.left || HasFlag(t, ts, "left"))
  }

  lemma CollisionOfSnoc(d: seq<DrawnTile>, t: DrawnTile, ts: Tileset)
    ensures CollisionOf(d + [t], ts) == Merge(CollisionOf(d, ts), t, ts)
  {
    assert (d + [t])[..|d|] == d;
  }

  /** The state of the loader's layer loop: the running "above" flag and
      the two tiles being drawn. */
  datatype Compositing = Compositing(above: bool, tile0: Tile, tile1: Tile)

  /** One drawn tile: it turns "above" on if it is an above tile, and is
      blitted, with its collision flags, onto the tile "above" selects. */
  function AddTile(st: Compositing, t: DrawnTile, ts: Tileset): Compositing
  {
    var above := st.above || IsAbove(t.id, ts);
    var target := if above then st.tile1 else st.tile0;
    var drawn := Tile(target.blits + [t.rect], Merge(target.collision, t, ts));
    if above then Compositing(true, st.tile0, drawn) else Compositing(false, drawn, st.tile1)
  }

  /** The loop state after drawing `d` in order. */
  function Composite(d: seq<DrawnTile>, ts: Tileset): Compositing
  {
    if d == [] then Compositing(false, EmptyTile, EmptyTile)
    else AddTile(Composite(d[..|d| - 1], ts), d[|d| - 1], ts)
  }

  /** The drawn tiles split at the first above tile: everything before it
      on tile0, it and everything after on tile1, the flag set iff such a
      tile exists. */
  function SplitAtAbove(d: seq<DrawnTile>, ts: Tileset): Compositing
  {
    var k := FirstAbove(d, ts);
    Compositing(k < |d|, TileOf(d[..k], ts), TileOf(d[k..], ts))
  }

  lemma TileOfSnoc(d: seq<DrawnTile>, t: DrawnTile, ts: Tileset)
    ensures TileOf(d + [t], ts) == Tile(TileOf(d, ts).blits + [t.rect], Merge(TileOf(d, ts).collision, t, ts))
  {
    BlitsSnoc(d, t);
    CollisionOfSnoc(d, t, ts);
  }

  /** Drawing one more tile keeps the split. */
  lemma SplitAtAboveSnoc(p: seq<DrawnTile>, t: DrawnTile, ts: Tileset)
    ensures AddTile(SplitAtAbove(p, ts), t, ts) == SplitAtAbove(p + [t], ts)
  {
    var d := p + [t];
    FirstAboveSnoc(p, t, ts);
    var k := FirstAbove(p, ts);
    if k < |p| {
      assert d[..k] == p[..k];
      assert d[k..] == p[k..] + [t];
      TileOfSnoc(p[k..], t, ts);
    } else if IsAbove(t.id, ts) {
      assert d[..|p|] == p && p[..k] == p;
      assert d[|p|..] == [] + [t] && p[k..] == [];
      TileOfSnoc([], t, ts);
    } else {
      assert d[..|d|] == p + [t] && p[..k] == p;
      assert d[|d|..] == [] && p[k..] == [];
      TileOfSnoc(p, t, ts);
    }
  }

  /** The running flag splits the drawn tiles at the first above tile. */
  lemma {:induction false} CompositeSplitsAtFirstAbove(d: seq<DrawnTile>, ts: Tileset)
    ensures Composite(d, ts) == SplitAtAbove(d, ts)
  {
    if d != [] {
      var p, t := d[..|d| - 1], d[|d| - 1];
      assert d == p + [t];
      CompositeSplitsAtFirstAbove(p, ts);
      SplitAtAboveSnoc(p, t, ts);
    }
  }

  /** Parsing a tile's collision string onto any flags fails exactly when
      the tile's layer step fails for it, and otherwise merges its flags. */
  lemma ParsedFlagsMerge(c: Collision, t: DrawnTile, ts: Tileset)
    ensures ApplyCollisionFlags(c, CollisionString(t.id, ts)).Ok? ==
            ApplyCollisionFlags(NoCollision, CollisionString(t.id, ts)).Ok?
    ensures ApplyCollisionFlags(c, CollisionString(t.id, ts)).Err? ==>
            ApplyCollisionFlags(c, CollisionString(t.id, ts)) == ApplyCollisionFlags(NoCollision, CollisionString(t.id, ts))
    ensures ApplyCollisionFlags(c, CollisionString(t.id, ts)).Ok? ==>
            ApplyCollisionFlags(c, CollisionString(t.id, ts)).value == Merge(c, t, ts)
  {
  }

  lemma DrawnSnoc(steps: seq<LayerStep>, l: nat)
    requires l < |steps|
    ensures Drawn(steps[..l + 1]) == Drawn(steps[..l]) + if steps[l].Draw? then [steps[l].tile] else []
  {
    assert steps[..l + 1][..l] == steps[..l];
  }

  /** What one layer step does to the loop state. */
  function StepCompositing(st: Compositing, step: LayerStep, ts: Tileset): Result<Compositing, LoadError>
  {
    match step
    case Skip => Ok(st)
    case Draw(t) => Ok(AddTile(st, t, ts))
    case Broken(e) => Err(e)
  }

  /** The body of the loader's layer loop: one layer's tile at one cell is
      looked up, turns "above" on if it has the above type, and has its
      collision string parsed onto the flags of the tile "above" selects. */
  method DrawLayer(layer: seq<int>, tileCount: nat, layerNo: nat, ts: Tileset, above: bool, tile0: Tile, tile1: Tile)
    returns (r: Result<Compositing, LoadError>)
    ensures r == StepCompositing(Compositing(above, tile0, tile1), LayerStepAt(layer, tileCount, layerNo, ts), ts)
  {
    if tileCount >= |layer| {
      return Err(LayerDataTooShort(layerNo));
    }
    var tileId := layer[tileCount];
    if tileId == 0 {
      return Ok(Compositing(above, tile0, tile1));
    }
    tileId := tileId - 1;
    if tileId !in ts.coords {
      return Err(UnknownTileId(tileId));
    }
    var tileCoords := ts.coords[tileId];
    var nowAbove := above;
    if tileId in ts.types {
      match ts.types[tileId]
      case None =>
        return Err(MissingTileType(tileId));
      case Some(ty) =>
        if ty == ts.aboveType {
          nowAbove := true;
        }
    }
    var current := if nowAbove then tile1 else tile0;
    var parsed := ParseCollisionFlags(current.collision, CollisionString(tileId, ts));
    ParsedFlagsMerge(current.collision, DrawnTile(tileId, tileCoords), ts);
    if parsed.Err? {
      return Err(parsed.error);
    }
    if nowAbove {
      r := Ok(Compositing(true, tile0, Tile(tile1.blits + [tileCoords], parsed.value)));
    } else {
      r := Ok(Compositing(false, Tile(tile0.blits + [tileCoords], parsed.value), tile1));
    }
  }

  /** The loader's layer loop for one cell, with its running "above" flag. */
  method CompositeCell(layers: seq<seq<int>>, tileCount: nat, ts: Tileset) returns (r: Result<Cell, LoadError>)
    ensures r == CellSpec(layers, tileCount, ts)
  {
    ghost var steps := CellSteps(layers, tileCount, ts);
    var tile0, tile1 := EmptyTile, EmptyTile;
    var above := false;
    var l := 0;
    while l < |layers|
      invariant 0 <= l <= |layers|
      invariant forall i :: 0 <= i < l ==> !steps[i].Broken?
      invariant Compositing(above, tile0, tile1) == Composite(Drawn(steps[..l]), ts)
    {
      DrawnSnoc(steps, l);
      var next := DrawLayer(layers[l], tileCount, l, ts, above, tile0, tile1);
      if next.Err? {
        FirstFailNoneBroken(steps);
        assert FirstFail(steps) == l;
        return Err(next.error);
      }
      ghost var d := Drawn(steps[..l]);
      if steps[l].Draw? {
        ghost var t := steps[l].tile;
        assert (d + [t])[..|d|] == d;
        assert Composite(d + [t], ts) == AddTile(Composite(d, ts), t, ts);
      } else {
        assert d + [] == d;
      }
      above, tile0, tile1 := next.value.above, next.value.tile0, next.value.tile1;
      l := l + 1;
    }
    assert steps[..l] == steps;
    assert FirstFail(steps) == |steps|;
    CompositeSplitsAtFirstAbove(Drawn(steps), ts);
    r := Ok(Cell(tile0, if above then Some(tile1) else None));
  }

  /** A composited cell has an above tile iff some drawn layer tile is of
      the above type, and the below tile's blits followed by the above
      tile's (none without one) are every drawn tile, in layer order. */
  lemma CellAboveIffAboveTileDrawn(layers: seq<seq<int>>, tileCount: nat, ts: Tileset)
    requires CellSpec(layers, tileCount, ts).Ok?
    ensures var d := Drawn(CellSteps(layers, tileCount, ts));
      CellSpec(layers, tileCount, ts).value.above.None? <==> forall i :: 0 <= i < |d| ==> !IsAbove(d[i].id, ts)
    ensures var d, c := Drawn(CellSteps(layers, tileCount, ts)), CellSpec(layers, tileCount, ts).value;
      c.below.blits + (if c.above.Some? then c.above.value.blits else []) == Blits(d)
  {
    var d := Drawn(CellSteps(layers, tileCount, ts));
    var k := FirstAbove(d, ts);
    var c := CellSpec(layers, tileCount, ts).value;
    assert c == Cell(TileOf(d[..k], ts), if k < |d| then Some(TileOf(d[k..], ts)) else None);
    FirstAboveNoneAbove(d, ts);
    assert c.above.None? <==> forall i :: 0 <= i < |d| ==> !IsAbove(d[i].id, ts) by {
      if k < |d| {
        assert IsAbove(d[k].id, ts);
      }
    }
    BlitsSplit(d, k);
    if k == |d| {
      assert Blits(d[k..]) == [];
    } else {
      assert c.above.value.blits == Blits(d[k..]);
    }
  }

  /** Splitting the drawn tiles anywhere splits their blits there. */
  lemma BlitsSplit(d: seq<DrawnTile>, k: nat)
    requires k <= |d|
    ensures Blits(d[..k]) + Blits(d[k..]) == Blits(d)
  {
    forall i | 0 <= i < |d|
      ensures (Blits(d[..k]) + Blits(d[k..]))[i] == d[i].rect
    {
      if i < k { assert d[..k][i] == d[i]; } else { assert d[k..][i - k] == d[i]; }
    }
  }

  /** The ids of the drawn tiles, in order. */
  function Ids(d: seq<DrawnTile>): (r: seq<int>)
    ensures |r| == |d| && forall i :: 0 <= i < |d| ==> r[i] == d[i].id
  {
    seq(|d|, i requires 0 <= i < |d| => d[i].id)
  }

  /** The layers' raw ids at one cell with the zeros dropped and every
      other id shifted down by one, in layer order. */
  function ShiftedIds(layers: seq<seq<int>>, tileCount: nat): seq<int>
    requires forall l :: 0 <= l < |layers| ==> tileCount < |layers[l]|
  {
    if layers == [] then []
    else
      var v := layers[|layers| - 1][tileCount];
      ShiftedIds(layers[..|layers| - 1], tileCount) + if v == 0 then [] else [v - 1]
  }

  /** A layer step that does not fail read the layer's raw id: 0 is
      skipped, anything else is drawn shifted down by one. */
  lemma LayerStepReads(layer: seq<int>, tileCount: nat, layerNo: nat, ts: Tileset)
    requires !LayerStepAt(layer, tileCount, layerNo, ts).Broken?
    ensures tileCount < |layer|
    ensures LayerStepAt(layer, tileCount, layerNo, ts).Skip? <==> layer[tileCount] == 0
    ensures LayerStepAt(layer, tileCount, layerNo, ts).Draw? ==>
            LayerStepAt(layer, tileCount, layerNo, ts).tile.id == layer[tileCount] - 1
  {
  }

  lemma {:induction false} DrawnPrefixIds(layers: seq<seq<int>>, tileCount: nat, ts: Tileset, n: nat)
    requires n <= |layers|
    requires forall l :: 0 <= l < n ==> !CellSteps(layers, tileCount, ts)[l].Broken?
    ensures forall l :: 0 <= l < n ==> tileCount < |layers[l]|
    ensures Ids(Drawn(CellSteps(layers, tileCount, ts)[..n])) == ShiftedIds(layers[..n], tileCount)
  {
    var steps := CellSteps(layers, tileCount, ts);
    if n > 0 {
      DrawnPrefixIds(layers, tileCount, ts, n - 1);
      DrawnSnoc(steps, n - 1);
      assert steps[n - 1] == LayerStepAt(layers[n - 1], tileCount, n - 1, ts);
      LayerStepReads(layers[n - 1], tileCount, n - 1, ts);
      assert layers[..n][..n - 1] == layers[..n - 1];
      var d := Drawn(steps[..n - 1]);
      if steps[n - 1].Draw? {
        assert Ids(d + [steps[n - 1].tile]) == Ids(d) + [steps[n - 1].tile.id];
      } else {
        assert d + [] == d;
      }
    }
  }

  /** A cell whose layers all read without error draws exactly the nonzero
      raw ids of its layers, each shifted down by one, in layer order. */
  lemma DrawnIdsAreShiftedNonzero(layers: seq<seq<int>>, tileCount: nat, ts: Tileset)
    requires CellSpec(layers, tileCount, ts).Ok?
    ensures forall l :: 0 <= l < |layers| ==> tileCount < |layers[l]|
    ensures Ids(Drawn(CellSteps(layers, tileCount, ts))) == ShiftedIds(layers, tileCount)
  {
    var steps := CellSteps(layers, tileCount, ts);
    FirstFailNoneBroken(steps);
    assert FirstFail(steps) == |steps|;
    DrawnPrefixIds(layers, tileCount, ts, |layers|);
    assert steps[..|layers|] == steps;
    assert layers[..|layers|] == layers;
  }

  // ---------------------------------------------------------------------
  // The whole map

  /** Whether cell `i` composites without error. */
  function CellOk(layers: seq<seq<int>>, ts: Tileset): nat -> bool
  {
    (i: nat) => CellSpec(layers, i, ts).Ok?
  }

  /** The first cell index below `n`, in row-major order, whose layers
      fail to composite, or `n` if none does. */
  function FirstBadCell(layers: seq<seq<int>>, n: nat, ts: Tileset): nat
  {
    FirstFalse(CellOk(layers, ts), n)
  }

  /** A row of `w` below and above tiles holds, at column `x`, the cell
      with index `base + x`. */
  predicate RowMatches(row0: seq<Tile>, row1: seq<Option<Tile>>, base: nat, w: nat, layers: seq<seq<int>>, ts: Tileset)
  {
    |row0| == w && |row1| == w
    && forall x :: 0 <= x < w ==> CellSpec(layers, base + x, ts) == Ok(Cell(row0[x], row1[x]))
  }

  /** Every complete row `y` of the two matrices holds, at column `x`, the
      cell with index `y * w + x`. */
  predicate RowsMatch(m0: seq<seq<Tile>>, m1: seq<seq<Option<Tile>>>, w: nat, layers: seq<seq<int>>, ts: Tileset)
  {
    |m0| == |m1|
    && forall y :: 0 <= y < |m0| ==> RowMatches(m0[y], m1[y], y * w, w, layers, ts)
  }

  lemma RowsMatchSnoc(m0: seq<seq<Tile>>, m1: seq<seq<Option<Tile>>>, row0: seq<Tile>, row1: seq<Option<Tile>>,
                      w: nat, layers: seq<seq<int>>, ts: Tileset)
    requires RowsMatch(m0, m1, w, layers, ts)
    requires RowMatches(row0, row1, |m0| * w, w, layers, ts)
    ensures RowsMatch(m0 + [row0], m1 + [row1], w, layers, ts)
  {
    var n0, n1 := m0 + [row0], m1 + [row1];
    forall y | 0 <= y < |n0|
      ensures RowMatches(n0[y], n1[y], y * w, w, layers, ts)
    {
      if y < |m0| {
        assert n0[y] == m0[y] && n1[y] == m1[y];
      }
    }
  }

  /** One row of the map loop: the `w` cells from index `base` on are
      composited in turn, the first failing one (at column `x`) aborting
      the row with its error. */
  method LoadRow(layers: seq<seq<int>>, base: nat, w: nat, ts: Tileset)
    returns (r: Result<(seq<Tile>, seq<Option<Tile>>), LoadError>, x: nat)
    ensures x <= w
    ensures forall i :: base <= i < base + x ==> CellOk(layers, ts)(i)
    ensures r.Err? ==> x < w && CellSpec(layers, base + x, ts) == Err(r.error)
    ensures r.Ok? ==> x == w && RowMatches(r.value.0, r.value.1, base, w, layers, ts)
  {
    var row0: seq<Tile> := [];
    var row1: seq<Option<Tile>> := [];
    x := 0;
    while x < w
      invariant 0 <= x <= w
      invariant RowMatches(row0, row1, base, x, layers, ts)
    {
      var cell := CompositeCell(layers, base + x, ts);
      if cell.Err? {
        RowMatchesCellsOk(row0, row1, base, x, layers, ts);
        return Err(cell.error), x;
      }
      RowMatchesSnoc(row0, row1, base, x, cell.value, layers, ts);
      row0 := row0 + [cell.value.below];
      row1 := row1 + [cell.value.above];
      x := x + 1;
    }
    RowMatchesCellsOk(row0, row1, base, x, layers, ts);
    r := Ok((row0, row1));
  }

  lemma RowMatchesSnoc(row0: seq<Tile>, row1: seq<Option<Tile>>, base: nat, x: nat, c: Cell, layers: seq<seq<int>>, ts: Tileset)
    requires RowMatches(row0, row1, base, x, layers, ts)
    requires CellSpec(layers, base + x, ts) == Ok(c)
    ensures RowMatches(row0 + [c.below], row1 + [c.above], base, x + 1, layers, ts)
  {
  }

  lemma RowMatchesCellsOk(row0: seq<Tile>, row1: seq<Option<Tile>>, base: nat, x: nat, layers: seq<seq<int>>, ts: Tileset)
    requires RowMatches(row0, row1, base, x, layers, ts)
    ensures forall i :: base <= i < base + x ==> CellOk(layers, ts)(i)
  {
    forall i | base <= i < base + x
      ensures CellOk(layers, ts)(i)
    {
      var xx := i - base;
      assert CellSpec(layers, base + xx, ts) == Ok(Cell(row0[xx], row1[xx]));
    }
  }

  /** The loader's map loop: cells are visited row by row with a running
      cell index into every layer's data; each is composited, and the above
      tile of a cell without any above tile is discarded (None). A failing
      cell aborts the load with its error. */
  method LoadTiles(layers: seq<seq<int>>, mapWidth: int, mapHeight: int, ts: Tileset)
    returns (r: Result<(seq<seq<Tile>>, seq<seq<Option<Tile>>>), LoadError>)
    ensures var w, h := RangeLength(mapWidth), RangeLength(mapHeight);
      var bad := FirstBadCell(layers, w * h, ts);
      (r.Err? <==> bad < w * h)
      && (r.Err? ==> CellSpec(layers, bad, ts) == Err(r.error))
      && (r.Ok? ==> |r.value.0| == h && RowsMatch(r.value.0, r.value.1, w, layers, ts))
  {
    var w, h := RangeLength(mapWidth), RangeLength(mapHeight);
    var m0: seq<seq<Tile>> := [];
    var m1: seq<seq<Option<Tile>>> := [];
    var tileCount: nat := 0;
    var y := 0;
    while y < h
      invariant 0 <= y <= h
      invariant tileCount == y * w
      invariant |m0| == y
      invariant RowsMatch(m0, m1, w, layers, ts)
      invariant forall i :: 0 <= i < tileCount ==> CellOk(layers, ts)(i)
    {
      var row, x := LoadRow(layers, tileCount, w, ts);
      if row.Err? {
        TileIdBelowCount(x, y, h, w);
        assert w * h == h * w;
        FirstFalseIs(CellOk(layers, ts), w * h, tileCount + x);
        return Err(row.error);
      }
      RowsMatchSnoc(m0, m1, row.value.0, row.value.1, w, layers, ts);
      m0 := m0 + [row.value.0];
      m1 := m1 + [row.value.1];
      NextRow(y, w);
      tileCount := tileCount + w;
      y := y + 1;
    }
    assert tileCount == w * h;
    FirstFalseIs(CellOk(layers, ts), w * h, tileCount);
    r := Ok((m0, m1));
  }
}
