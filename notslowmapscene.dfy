/** The older map scene: it loads the tile layers of a map onto a below
    and an above surface per cell, without collision flags, and moves only
    the camera, one tile per animated step, inside the map. A surface is
    modelled by the list of tileset rectangles blitted onto it, in order. */
module NotSlowMapScenes {
  import opened Common
  import opened Tiles
  import opened MapGrid
  import opened Tweens
  import opened MapScenes

  /** The tileset tile type marking tiles drawn above the events. */
  const TYPE_ABOVE_EVENTS := "aboveEvents"

  const CAMERA_DURATION := 150

  // ---------------------------------------------------------------------
  // Window size

  /** The checks on the tile size and the resolution, then the window size
      in tiles. */
  function WindowSize(resW: int, resH: int, tileW: int, tileH: int): (r: Result<(int, int), LoadError>)
    ensures tileW != tileH ==> r == Err(TileNotSquare)
    ensures tileW == tileH == 0 ==> r == Err(ZeroTileSize)
    ensures tileW == tileH != 0 ==> (r.Ok? <==> resW % tileW == 0 && resH % tileW == 0)
    ensures r.Err? && tileW == tileH != 0 ==> r == Err(ResolutionNotMultiple)
    ensures r.Ok? ==> r.value.0 * tileW == resW && r.value.1 * tileW == resH
  {
    if tileW != tileH then Err(TileNotSquare)
    else if tileW == 0 then Err(ZeroTileSize)
    else if resW % tileW != 0 || resH % tileW != 0 then Err(ResolutionNotMultiple)
    else Ok((resW / tileW, resH / tileW))
  }

  /** Both scenes refuse the same tile and resolution sizes for the same
      reasons, and size the window alike. */
  lemma SameWindowAsMapScene(resW: int, resH: int, tileW: int, tileH: int, mapW: int, mapH: int)
    ensures WindowSize(resW, resH, tileW, tileH).Ok? == WindowLayout(resW, resH, tileW, tileH, mapW, mapH).Ok?
    ensures WindowSize(resW, resH, tileW, tileH).Err? ==>
              WindowSize(resW, resH, tileW, tileH).error == WindowLayout(resW, resH, tileW, tileH, mapW, mapH).error
    ensures WindowSize(resW, resH, tileW, tileH).Ok? ==>
              var lay := WindowLayout(resW, resH, tileW, tileH, mapW, mapH).value;
              WindowSize(resW, resH, tileW, tileH).value == (lay.windowWidth, lay.windowHeight)
  {
  }

  // ---------------------------------------------------------------------
  // Layer compositing of one cell

  /** Layer `layerNo` at cell index `tileCount`: id 0 is skipped, any other
      id is shifted down by one and must name a known texture and a
      well-formed "tiles" entry. */
  function SurfaceStep(layer: seq<int>, tileCount: nat, layerNo: nat, ts: Tileset): LayerStep
  {
    if tileCount >= |layer| then Broken(LayerDataTooShort(layerNo))
    else if layer[tileCount] == 0 then Skip
    else
      var id := layer[tileCount] - 1;
      if id !in ts.coords then Broken(UnknownTileId(id))
      else if id in ts.types && ts.types[id].None? then Broken(MissingTileType(id))
      else Draw(DrawnTile(id, ts.coords[id]))
  }

  function SurfaceSteps(layers: seq<seq<int>>, tileCount: nat, ts: Tileset): seq<LayerStep>
  {
    seq(|layers|, l requires 0 <= l < |layers| => SurfaceStep(layers[l], tileCount, l, ts))
  }

  /** The blits of a cell's below and above surfaces. Both surfaces are
      kept, however few tiles they hold. */
  datatype Surfaces = Surfaces(below: seq<Rect>, above: seq<Rect>)

  /** The reference definition of one cell: the first failing layer's
      error, or the drawn tiles split at the first above tile, those before
      it blitted below, it and all later ones above. */
  function SurfaceCell(layers: seq<seq<int>>, tileCount: nat, ts: Tileset): Result<Surfaces, LoadError>
  {
    var steps := SurfaceSteps(layers, tileCount, ts);
    var j := FirstFail(steps);
    if j < |steps| then Err(steps[j].error)
    else
      var d := Drawn(steps);
      var k := FirstAbove(d, ts);
      Ok(Surfaces(Blits(d[..k]), Blits(d[k..])))
  }

  /** The state of the layer loop: the running "above" flag and the blits
      of the two surfaces. */
  datatype Layering = Layering(above: bool, below: seq<Rect>, over: seq<Rect>)

  /** One drawn tile: it turns "above" on if it is an above tile and is
      blitted onto the surface "above" selects. */
  function AddBlit(st: Layering, t: DrawnTile, ts: Tileset): Layering
  {
    if st.above || IsAbove(t.id, ts) then Layering(true, st.below, st.over + [t.rect])
    else Layering(false, st.below + [t.rect], st.over)
  }

  function Layered(d: seq<DrawnTile>, ts: Tileset): Layering
  {
    if d == [] then Layering(false, [], []) else AddBlit(Layered(d[..|d| - 1], ts), d[|d| - 1], ts)
  }

  /** The running flag splits the drawn tiles at the first above tile, and
      is set at the end exactly when some above tile was drawn. */
  lemma {:induction false} LayeredSplitsAtFirstAbove(d: seq<DrawnTile>, ts: Tileset)
    ensures var k := FirstAbove(d, ts);
      Layered(d, ts) == Layering(k < |d|, Blits(d[..k]), Blits(d[k..]))
  {
    if d != [] {
      var p, t := d[..|d| - 1], d[|d| - 1];
      assert d == p + [t];
      LayeredSplitsAtFirstAbove(p, ts);
      FirstAboveSnoc(p, t, ts);
      var k := FirstAbove(p, ts);
      if k < |p| {
        assert d[..k] == p[..k];
        assert d[k..] == p[k..] + [t];
        BlitsSnoc(p[k..], t);
      } else if IsAbove(t.id, ts) {
        assert d[..|p|] == p && p[..k] == p;
        assert d[|p|..] == [] + [t] && p[k..] == [];
        BlitsSnoc([], t);
      } else {
        assert d[..|d|] == p + [t] && p[..k] == p;
        assert d[|d|..] == [] && p[k..] == [];
        BlitsSnoc(p, t);
      }
    }
  }

  function StepLayering(st: Layering, step: LayerStep, ts: Tileset): Result<Layering, LoadError>
  {
    match step
    case Skip => Ok(st)
    case Draw(t) => Ok(AddBlit(st, t, ts))
    case Broken(e) => Err(e)
  }

  /** The body of the layer loop: one layer's tile at one cell is looked
      up, turns "above" on if it has the above type, and is blitted onto
      the surface "above" selects. */
  method BlitLayer(layer: seq<int>, tileCount: nat, layerNo: nat, ts: Tileset, st: Layering)
    returns (r: Result<Layering, LoadError>)
    ensures r == StepLayering(st, SurfaceStep(layer, tileCount, layerNo, ts), ts)
  {
    if tileCount >= |layer| {
      return Err(LayerDataTooShort(layerNo));
    }
    var tileId := layer[tileCount];
    if tileId == 0 {
      return Ok(st);
    }
    tileId := tileId - 1;
    if tileId !in ts.coords {
      return Err(UnknownTileId(tileId));
    }
    var tileCoords := ts.coords[tileId];
    var above := st.above;
    if tileId in ts.types {
      match ts.types[tileId]
      case None =>
        return Err(MissingTileType(tileId));
      case Some(ty) =>
        if ty == ts.aboveType {
          above := true;
        }
    }
    if above {
      r := Ok(Layering(true, st.below, st.over + [tileCoords]));
    } else {
      r := Ok(Layering(false, st.below + [tileCoords], st.over));
    }
  }

  /** The layer loop for one cell, with its running "above" flag. */
  method BlitCell(layers: seq<seq<int>>, tileCount: nat, ts: Tileset) returns (r: Result<Surfaces, LoadError>)
    ensures r == SurfaceCell(layers, tileCount, ts)
  {
    ghost var steps := SurfaceSteps(layers, tileCount, ts);
    var st := Layering(false, [], []);
    var l := 0;
    while l < |layers|
      invariant 0 <= l <= |layers|
      invariant forall i :: 0 <= i < l ==> !steps[i].Broken?
      invariant st == Layered(Drawn(steps[..l]), ts)
    {
      DrawnSnoc(steps, l);
      var next := BlitLayer(layers[l], tileCount, l, ts, st);
      if next.Err? {
        FirstFailNoneBroken(steps);
        assert FirstFail(steps) == l;
        return Err(next.error);
      }
      ghost var d := Drawn(steps[..l]);
      if steps[l].Draw? {
        assert (d + [steps[l].tile])[..|d|] == d;
      } else {
        assert d + [] == d;
      }
      st := next.value;
      l := l + 1;
    }
    assert steps[..l] == steps;
    assert FirstFail(steps) == |steps|;
    LayeredSplitsAtFirstAbove(Drawn(steps), ts);
    r := Ok(Surfaces(st.below, st.over));
  }

  /** The above surface holds a blit iff some drawn tile is of the above
      type, and every drawn tile lands on exactly one surface, in order. */
  predicate SplitsDrawn(c: Surfaces, d: seq<DrawnTile>, ts: Tileset)
  {
    (c.above == [] <==> forall i :: 0 <= i < |d| ==> !IsAbove(d[i].id, ts))
    && c.below + c.above == Blits(d)
  }

  /** A cell's surfaces split its drawn layer tiles as the predicate above
      says. */
  lemma AboveSurfaceIffAboveTileDrawn(layers: seq<seq<int>>, tileCount: nat, ts: Tileset)
    requires SurfaceCell(layers, tileCount, ts).Ok?
    ensures SplitsDrawn(SurfaceCell(layers, tileCount, ts).value, Drawn(SurfaceSteps(layers, tileCount, ts)), ts)
  {
    var d := Drawn(SurfaceSteps(layers, tileCount, ts));
    var k := FirstAbove(d, ts);
    var c := SurfaceCell(layers, tileCount, ts).value;
    assert c == Surfaces(Blits(d[..k]), Blits(d[k..]));
    FirstAboveNoneAbove(d, ts);
    assert |c.above| == |d| - k;
    if forall i :: 0 <= i < |d| ==> !IsAbove(d[i].id, ts) {
      assert k == |d|;
    }
    assert d[..k] + d[k..] == d;
    BlitsConcat(d[..k], d[k..]);
  }

  lemma BlitsConcat(a: seq<DrawnTile>, b: seq<DrawnTile>)
    ensures Blits(a + b) == Blits(a) + Blits(b)
  {
  }

  // ---------------------------------------------------------------------
  // The whole map

  function SurfaceCellOk(layers: seq<seq<int>>, ts: Tileset): nat -> bool
  {
    (i: nat) => SurfaceCell(layers, i, ts).Ok?
  }

  /** The first cell index below `n`, in row-major order, whose layers
      fail to composite, or `n` if none does. */
  function FirstBadSurfaceCell(layers: seq<seq<int>>, n: nat, ts: Tileset): nat
  {
    FirstFalse(SurfaceCellOk(layers, ts), n)
  }

  predicate SurfaceRowMatches(row0: seq<seq<Rect>>, row1: seq<seq<Rect>>, base: nat, w: nat,
                              layers: seq<seq<int>>, ts: Tileset)
  {
    |row0| == w && |row1| == w
    && forall x :: 0 <= x < w ==> SurfaceCell(layers, base + x, ts) == Ok(Surfaces(row0[x], row1[x]))
  }

  /** Every row `y` of the two matrices holds, at column `x`, the cell with
      index `y * w + x`. */
  predicate SurfaceRowsMatch(m0: seq<seq<seq<Rect>>>, m1: seq<seq<seq<Rect>>>, w: nat, layers: seq<seq<int>>, ts: Tileset)
  {
    |m0| == |m1|
    && forall y :: 0 <= y < |m0| ==> SurfaceRowMatches(m0[y], m1[y], y * w, w, layers, ts)
  }

  lemma SurfaceRowsMatchSnoc(m0: seq<seq<seq<Rect>>>, m1: seq<seq<seq<Rect>>>, row0: seq<seq<Rect>>, row1: seq<seq<Rect>>,
                             w: nat, layers: seq<seq<int>>, ts: Tileset)
    requires SurfaceRowsMatch(m0, m1, w, layers, ts)
    requires SurfaceRowMatches(row0, row1, |m0| * w, w, layers, ts)
    ensures SurfaceRowsMatch(m0 + [row0], m1 + [row1], w, layers, ts)
  {
    var n0, n1 := m0 + [row0], m1 + [row1];
    forall y | 0 <= y < |n0|
      ensures SurfaceRowMatches(n0[y], n1[y], y * w, w, layers, ts)
    {
      if y < |m0| {
        assert n0[y] == m0[y] && n1[y] == m1[y];
      }
    }
  }

  /** One row of the map loop; the first failing cell, at column `x`,
      aborts it with its error. */
  method BlitRow(layers: seq<seq<int>>, base: nat, w: nat, ts: Tileset)
    returns (r: Result<(seq<seq<Rect>>, seq<seq<Rect>>), LoadError>, x: nat)
    ensures x <= w
    ensures forall i :: base <= i < base + x ==> SurfaceCellOk(layers, ts)(i)
    ensures r.Err? ==> x < w && SurfaceCell(layers, base + x, ts) == Err(r.error)
    ensures r.Ok? ==> x == w && SurfaceRowMatches(r.value.0, r.value.1, base, w, layers, ts)
  {
    var row0: seq<seq<Rect>> := [];
    var row1: seq<seq<Rect>> := [];
    x := 0;
    while x < w
      invariant 0 <= x <= w
      invariant |row0| == x && |row1| == x
      invariant forall xx :: 0 <= xx < x ==> SurfaceCell(layers, base + xx, ts) == Ok(Surfaces(row0[xx], row1[xx]))
      invariant forall i :: base <= i < base + x ==> SurfaceCellOk(layers, ts)(i)
    {
      var cell := BlitCell(layers, base + x, ts);
      if cell.Err? {
        return Err(cell.error), x;
      }
      row0 := row0 + [cell.value.below];
      row1 := row1 + [cell.value.above];
      x := x + 1;
    }
    r := Ok((row0, row1));
  }

  /** The map loop: cells are visited row by row with a running cell
      index into every layer's data; a failing cell aborts the load with
      its error. */
  method BlitMap(layers: seq<seq<int>>, mapWidth: int, mapHeight: int, ts: Tileset)
    returns (r: Result<(seq<seq<seq<Rect>>>, seq<seq<seq<Rect>>>), LoadError>)
    ensures var w, h := RangeLength(mapWidth), RangeLength(mapHeight);
      var bad := FirstBadSurfaceCell(layers, w * h, ts);
      (r.Err? <==> bad < w * h)
      && (r.Err? ==> SurfaceCell(layers, bad, ts) == Err(r.error))
      && (r.Ok? ==> |r.value.0| == h && SurfaceRowsMatch(r.value.0, r.value.1, w, layers, ts))
  {
    var w, h := RangeLength(mapWidth), RangeLength(mapHeight);
    var m0: seq<seq<seq<Rect>>> := [];
    var m1: seq<seq<seq<Rect>>> := [];
    var tileCount: nat := 0;
    var y := 0;
    while y < h
      invariant 0 <= y <= h
      invariant tileCount == y * w
      invariant |m0| == y
      invariant SurfaceRowsMatch(m0, m1, w, layers, ts)
      invariant forall i :: 0 <= i < tileCount ==> SurfaceCellOk(layers, ts)(i)
    {
      var row, x := BlitRow(layers, tileCount, w, ts);
      if row.Err? {
        TileIdBelowCount(x, y, h, w);
        assert w * h == h * w;
        FirstFalseIs(SurfaceCellOk(layers, ts), w * h, tileCount + x);
        return Err(row.error);
      }
      SurfaceRowsMatchSnoc(m0, m1, row.value.0, row.value.1, w, layers, ts);
      m0 := m0 + [row.value.0];
      m1 := m1 + [row.value.1];
      NextRow(y, w);
      tileCount := tileCount + w;
      y := y + 1;
    }
    assert tileCount == w * h;
    FirstFalseIs(SurfaceCellOk(layers, ts), w * h, tileCount);
    r := Ok((m0, m1));
  }

  // ---------------------------------------------------------------------
  // The scene

  class TestNotSlowMapScene {
    var tileSize: int
    var mapWidth: int
    var mapHeight: int
    var windowWidth: int
    var windowHeight: int
    /** The blits of every cell's surface drawn below the events, and of
        the one drawn above them. */
    var tiles0: seq<seq<seq<Rect>>>
    var tiles1: seq<seq<seq<Rect>>>
    var inputsBlocked: bool
    var cameraTween: Tween?<string>
    var drawRectX: int
    var drawRectY: int
    const cameraOffsetX: TweenSubject
    const cameraOffsetY: TweenSubject
    /** `Easing.easingLinear`, a floating-point curve. */
    const easingLinear: Easing

    constructor (easingLinear: Easing)
      ensures tileSize == 0 && mapWidth == 0 && mapHeight == 0 && windowWidth == 0 && windowHeight == 0
      ensures tiles0 == [] && tiles1 == [] && !inputsBlocked && cameraTween == null
      ensures drawRectX == 0 && drawRectY == 0 && cameraOffsetX.value == 0 && cameraOffsetY.value == 0
      ensures this.easingLinear == easingLinear
      ensures Valid() && OneMoveInFlight() && InBounds()
    {
      tileSize, mapWidth, mapHeight, windowWidth, windowHeight := 0, 0, 0, 0, 0;
      tiles0, tiles1 := [], [];
      inputsBlocked := false;
      cameraTween := null;
      drawRectX, drawRectY := 0, 0;
      cameraOffsetX := new TweenSubject(0);
      cameraOffsetY := new TweenSubject(0);
      this.easingLinear := easingLinear;
    }

    // -------------------------------------------------------------------
    // Loading

    /** The sizing part of `load`: the tile size check, the map and tile
        sizes, the resolution check and the window size. */
    method LoadLayout(resW: int, resH: int, tileW: int, tileH: int, mapW: int, mapH: int)
      returns (r: Result<(int, int), LoadError>)
      modifies this`tileSize, this`mapWidth, this`mapHeight, this`windowWidth, this`windowHeight
      ensures r == WindowSize(resW, resH, tileW, tileH)
      ensures tileW != tileH ==> tileSize == old(tileSize) && mapWidth == old(mapWidth) && mapHeight == old(mapHeight)
      ensures tileW == tileH ==> tileSize == tileW && mapWidth == mapW && mapHeight == mapH
      ensures r.Ok? ==> (windowWidth, windowHeight) == r.value
      ensures r.Err? ==> windowWidth == old(windowWidth) && windowHeight == old(windowHeight)
    {
      r := WindowSize(resW, resH, tileW, tileH);
      if tileW != tileH {
        return;
      }
      mapWidth, mapHeight, tileSize := mapW, mapH, tileW;
      if r.Err? {
        return;
      }
      windowWidth, windowHeight := r.value.0, r.value.1;
    }

    /** `load`: sizes the window, builds the tileset's texture-coordinate
        table, then composites every cell of the map. Only a first load is
        described. */
    method Load(resW: int, resH: int, tileW: int, tileH: int, mapW: int, mapH: int, layers: seq<seq<int>>,
                imageWidth: int, imageHeight: int, types: map<int, Option<string>>)
      returns (r: Outcome<LoadError>)
      requires tiles0 == [] && tiles1 == []
      modifies this`tileSize, this`mapWidth, this`mapHeight, this`windowWidth, this`windowHeight
      modifies this`tiles0, this`tiles1
      ensures var lay := WindowSize(resW, resH, tileW, tileH);
        && (lay.Err? ==> r == Fail(lay.error) && tiles0 == [] && tiles1 == [])
        && (lay.Ok? ==> tileSize == tileW && (windowWidth, windowHeight) == lay.value
                        && mapWidth == mapW && mapHeight == mapH)
      ensures WindowSize(resW, resH, tileW, tileH).Ok? ==>
        var ts := Tileset(CoordsTable(imageWidth, imageHeight, tileW), types, map[], TYPE_ABOVE_EVENTS);
        var w, h := RangeLength(mapW), RangeLength(mapH);
        var bad := FirstBadSurfaceCell(layers, w * h, ts);
        (r.Fail? <==> bad < w * h)
        && (r.Fail? ==> SurfaceCell(layers, bad, ts) == Err(r.error))
        && (r.Pass? ==> |tiles0| == h && SurfaceRowsMatch(tiles0, tiles1, w, layers, ts))
    {
      var lay := LoadLayout(resW, resH, tileW, tileH, mapW, mapH);
      if lay.Err? {
        return Fail(lay.error);
      }
      var coords := TextureCoords(imageWidth, imageHeight, tileSize);
      var ts := Tileset(coords, types, map[], TYPE_ABOVE_EVENTS);
      var tiles := BlitMap(layers, mapWidth, mapHeight, ts);
      if tiles.Err? {
        return Fail(tiles.error);
      }
      tiles0, tiles1 := tiles.value.0, tiles.value.1;
      r := Pass;
    }

    // -------------------------------------------------------------------
    // Camera moves

    /** The camera offset a move towards `a`, or a tween of `tag`,
        animates. */
    function SubjectFor(a: Arrow): TweenSubject
    {
      if a == Left || a == Right then cameraOffsetX else cameraOffsetY
    }

    function TagSubject(tag: string): TweenSubject
    {
      if TagDelta(tag).0 != 0 then cameraOffsetX else cameraOffsetY
    }

    /** The guards of the four camera moves. */
    predicate CanMove(a: Arrow)
      reads this`drawRectX, this`drawRectY, this`windowWidth, this`windowHeight, this`mapWidth, this`mapHeight
    {
      match a
      case Left => drawRectX > 0
      case Right => drawRectX + windowWidth < mapWidth
      case Up => drawRectY > 0
      case Down => drawRectY + windowHeight < mapHeight
    }

    /** The camera tween, when there is one, moves a camera offset along
        its tag's axis. */
    ghost predicate Valid()
      reads this, cameraTween
    {
      cameraOffsetX != cameraOffsetY
      && (cameraTween != null ==>
            cameraTween.Valid() && IsCameraTag(cameraTween.tag) && cameraTween.subject == TagSubject(cameraTween.tag))
    }

    /** Inputs are blocked exactly while the camera tween runs. */
    ghost predicate OneMoveInFlight()
      reads this, cameraTween
    {
      inputsBlocked <==> cameraTween != null && cameraTween.alive
    }

    /** The draw rectangle is inside the map, and so is the one the running
        camera move will leave it at. */
    ghost predicate InBounds()
      reads this, cameraTween
    {
      CameraInBounds(drawRectX, windowWidth, mapWidth) && CameraInBounds(drawRectY, windowHeight, mapHeight)
      && (cameraTween != null && cameraTween.alive ==>
            CameraInBounds(drawRectX + TagDelta(cameraTween.tag).0, windowWidth, mapWidth)
            && CameraInBounds(drawRectY + TagDelta(cameraTween.tag).1, windowHeight, mapHeight))
    }

    /** From a draw rectangle within the map, a move is permitted iff it
        lands inside the map. */
    lemma PermittedMoveInBounds(a: Arrow)
      requires CameraInBounds(drawRectX, windowWidth, mapWidth) && CameraInBounds(drawRectY, windowHeight, mapHeight)
      ensures CanMove(a) <==>
        CameraInBounds(drawRectX + Delta(a).0, windowWidth, mapWidth)
        && CameraInBounds(drawRectY + Delta(a).1, windowHeight, mapHeight)
    {
      CameraGuardsKeepBounds(drawRectX, windowWidth, mapWidth);
      CameraGuardsKeepBounds(drawRectY, windowHeight, mapHeight);
    }

    /** A move towards `a` has started: a new camera tween runs that
        moves the offset of the move's axis one tile against the move, and
        the inputs are blocked. */
    predicate MoveStarted(a: Arrow, cam0: Tween?<string>)
      reads this`cameraTween, this`inputsBlocked, this`tileSize, cameraTween, cameraOffsetX, cameraOffsetY
    {
      cameraTween != null && cameraTween != cam0 && cameraTween.alive && cameraTween.runningSince == 0
      && cameraTween.tag == CameraTag(a) && cameraTween.subject == SubjectFor(a)
      && cameraTween.duration == CAMERA_DURATION
      && cameraTween.targetValue == SubjectFor(a).value - tileSize * (Delta(a).0 + Delta(a).1)
      && inputsBlocked
    }

    /** Starts the camera tween of a move towards `a`, which blocks the
        inputs: the tween animates the offset of the move's axis one tile
        against the move. */
    method StartMove(a: Arrow)
      requires Valid()
      modifies this`cameraTween, this`inputsBlocked
      ensures Valid() && MoveStarted(a, old(cameraTween)) && fresh(cameraTween)
    {
      MoveTagsRoundTrip(a);
      var subject := SubjectFor(a);
      var target := if a == Left || a == Up then subject.value + tileSize else subject.value - tileSize;
      cameraTween := new Tween.Create(CameraTag(a), subject, target, CAMERA_DURATION, easingLinear);
      inputsBlocked := true;
    }

    /** The input part of `update`: the first arrow key held, in the order
        Left, Right, Up, Down, starts its move if its guard allows it. */
    method HandleKeys(keys: set<Arrow>)
      requires Valid() && !inputsBlocked
      modifies this`cameraTween, this`inputsBlocked
      ensures Valid()
      ensures var a := FirstPressed(keys);
        if a.Some? && CanMove(a.value) then MoveStarted(a.value, old(cameraTween))
        else cameraTween == old(cameraTween) && !inputsBlocked
      ensures cameraTween != old(cameraTween) ==> fresh(cameraTween)
    {
      match FirstPressed(keys)
      case Some(a) =>
        if CanMove(a) {
          StartMove(a);
        }
      case None =>
    }

    /** `onTweenFinished`: a camera tag moves the draw rectangle one tile
        and resets the camera offset of its axis; any tag unblocks the
        inputs. */
    method OnTweenFinished(tag: string)
      requires cameraOffsetX != cameraOffsetY
      modifies this`drawRectX, this`drawRectY, this`inputsBlocked, cameraOffsetX`value, cameraOffsetY`value
      ensures !inputsBlocked
      ensures IsCameraTag(tag) ==> drawRectX == old(drawRectX) + TagDelta(tag).0 && drawRectY == old(drawRectY) + TagDelta(tag).1
      ensures !IsCameraTag(tag) ==> drawRectX == old(drawRectX) && drawRectY == old(drawRectY)
      ensures cameraOffsetX.value == if IsCameraTag(tag) && TagDelta(tag).0 != 0 then 0 else old(cameraOffsetX.value)
      ensures cameraOffsetY.value == if IsCameraTag(tag) && TagDelta(tag).1 != 0 then 0 else old(cameraOffsetY.value)
    {
      TagTable(tag);
      if tag == "cs" {
        drawRectY := drawRectY + 1;
        cameraOffsetY.value := 0;
      } else if tag == "cz" {
        drawRectY := drawRectY - 1;
        cameraOffsetY.value := 0;
      } else if tag == "cq" {
        drawRectX := drawRectX - 1;
        cameraOffsetX.value := 0;
      } else if tag == "cd" {
        drawRectX := drawRectX + 1;
        cameraOffsetX.value := 0;
      }
      inputsBlocked := false;
    }

    /** Advances the camera tween; if it finishes, the tag handler runs. */
    method AdvanceTween(dt: int)
      requires Valid()
      modifies cameraTween, cameraOffsetX, cameraOffsetY, this`drawRectX, this`drawRectY, this`inputsBlocked
      ensures Valid()
      ensures var d := old(Completes(cameraTween, dt));
        drawRectX == old(drawRectX) + d.0 && drawRectY == old(drawRectY) + d.1
      ensures inputsBlocked == (old(inputsBlocked) && !old(Finishes(cameraTween, dt)))
      ensures cameraOffsetX.value == old(AfterTween(cameraTween, cameraOffsetX, dt))
      ensures cameraOffsetY.value == old(AfterTween(cameraTween, cameraOffsetY, dt))
      ensures cameraTween != null ==> cameraTween.alive == (old(cameraTween.alive) && !old(Finishes(cameraTween, dt)))
      ensures cameraTween != null && old(cameraTween.alive) ==> cameraTween.runningSince == old(cameraTween.runningSince) + dt
      ensures old(OneMoveInFlight()) ==> OneMoveInFlight()
      ensures old(OneMoveInFlight() && InBounds()) ==> InBounds()
    {
      if cameraTween != null {
        MoveTagAxis(cameraTween.tag);
        var cb := cameraTween.Update(dt);
        if cb.Some? {
          OnTweenFinished(cb.value);
        }
      }
    }

    /** One frame: the camera tween advances; then, unless that left the
        inputs blocked, the keys held are handled. The draw rectangle never
        leaves the map and at most one camera move runs at a time. */
    method Update(dt: int, keys: set<Arrow>)
      requires Valid()
      modifies cameraTween, cameraOffsetX, cameraOffsetY, this`drawRectX, this`drawRectY, this`inputsBlocked
      modifies this`cameraTween
      ensures Valid()
      ensures var d := old(Completes(cameraTween, dt));
        drawRectX == old(drawRectX) + d.0 && drawRectY == old(drawRectY) + d.1
      ensures cameraOffsetX.value == old(AfterTween(cameraTween, cameraOffsetX, dt))
      ensures cameraOffsetY.value == old(AfterTween(cameraTween, cameraOffsetY, dt))
      ensures var handled := !old(inputsBlocked) || old(Finishes(cameraTween, dt));
        var a := FirstPressed(keys);
        if handled && a.Some? && CanMove(a.value) then MoveStarted(a.value, old(cameraTween))
        else cameraTween == old(cameraTween) && inputsBlocked == !handled
      ensures cameraTween != old(cameraTween) ==> fresh(cameraTween)
      ensures old(OneMoveInFlight()) ==> OneMoveInFlight()
      ensures old(OneMoveInFlight() && InBounds()) ==> InBounds()
    {
      AdvanceTween(dt);
      if !inputsBlocked {
        ghost var inBounds := InBounds();
        HandleKeys(keys);
        var a := FirstPressed(keys);
        if inBounds && a.Some? && cameraTween != old(cameraTween) {
          MoveTagsRoundTrip(a.value);
          PermittedMoveInBounds(a.value);
        }
      }
    }
  }
}
