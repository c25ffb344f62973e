/** The character sprite sheet: a texture cut into LINES rows (one per
    orientation) of COLUMNS walk-animation steps, with the current
    orientation and step. */
module Charsets {
  import opened Common
  import opened Tiles

  const ORIENTATION_DOWN := 0
  const ORIENTATION_LEFT := 1
  const ORIENTATION_RIGHT := 2
  const ORIENTATION_UP := 3

  const COLUMNS := 4   // steps per orientation
  const LINES := 4     // orientations

  // ---------------------------------------------------------------------
  // The step cycle

  /** The step after `incrementStep`. */
  function NextStep(step: int): (r: int)
    ensures 0 <= r < COLUMNS
    ensures 0 <= step < COLUMNS - 1 ==> r == step + 1
    ensures step == COLUMNS - 1 ==> r == 0
    ensures (r - step - 1) % COLUMNS == 0
  {
    (step + 1) % COLUMNS
  }

  /** The step after `resetStep`. */
  function RestingStep(step: int): (r: int)
  {
    if step == 1 then 2
    else if step == 3 then 0
    else step
  }

  /** Four increments bring any step back to where it started within the
      cycle. */
  lemma NextStepCycles(step: int)
    requires 0 <= step < COLUMNS
    ensures NextStep(NextStep(NextStep(NextStep(step)))) == step
  {
  }

  /** Resetting lands on one of the two standing poses, 0 or 2, and keeps
      those unchanged, so resetting twice is resetting once. */
  lemma ResetStepStands(step: int)
    requires 0 <= step < COLUMNS
    ensures RestingStep(step) == 0 || RestingStep(step) == 2
    ensures RestingStep(step) % 2 == 0
    ensures step % 2 == 0 ==> RestingStep(step) == step
    ensures RestingStep(RestingStep(step)) == RestingStep(step)
  {
  }

  /** Resetting after an odd (walking) step moves one step forward. */
  lemma ResetStepAdvancesOddSteps(step: int)
    requires 0 <= step < COLUMNS && step % 2 == 1
    ensures RestingStep(step) == NextStep(step)
  {
  }

  // ---------------------------------------------------------------------
  // Cutting the texture

  /** Width and height of one step surface. */
  function StepSize(textureWidth: int, textureHeight: int): (int, int)
  {
    (textureWidth / COLUMNS, textureHeight / LINES)
  }

  predicate Contains(r: Rect, px: int, py: int)
  {
    r.x <= px < r.x + r.w && r.y <= py < r.y + r.h
  }

  /** The source rectangle blitted for step column `x` of orientation line
      `y`, as the loader writes it: the step width is used for both the
      width and the height. */
  function StepCropAsWritten(x: int, y: int, stepWidth: int, stepHeight: int): Rect
  {
    Rect(x * stepWidth, y * stepHeight, stepWidth, stepWidth)
  }

  /** The source rectangle of one step surface: the step-sized cell at
      column `x`, line `y`. */
  function StepCrop(x: int, y: int, stepWidth: int, stepHeight: int): Rect
  {
    Rect(x * stepWidth, y * stepHeight, stepWidth, stepHeight)
  }

  /** With steps taller than wide, the loader's rectangles miss pixels of
      the texture: the pixel row `stepWidth` of the first column (on a
      64x96 sheet of 16x24 steps, pixel (0, 16)) lies in no step's
      rectangle. */
  lemma AsWrittenCropsMissPixels(stepWidth: int, stepHeight: int)
    requires 0 < stepWidth < stepHeight
    ensures forall x, y :: 0 <= x < COLUMNS && 0 <= y < LINES ==>
              !Contains(StepCropAsWritten(x, y, stepWidth, stepHeight), 0, stepWidth)
  {
    forall x, y | 0 <= x < COLUMNS && 0 <= y < LINES
      ensures !Contains(StepCropAsWritten(x, y, stepWidth, stepHeight), 0, stepWidth)
    {
      if y >= 1 {
        assert y * stepHeight >= stepHeight by {
          assert y * stepHeight == stepHeight + (y - 1) * stepHeight;
        }
      }
    }
  }

  /** The rectangle lies inside a `width` x `height` texture. */
  predicate Inside(r: Rect, width: int, height: int)
  {
    0 <= r.x && r.x + r.w <= width && 0 <= r.y && r.y + r.h <= height
  }

  /** The loader's rectangles all lie inside the texture exactly when the
      steps are at least as tall as they are wide; with wider steps the
      last line's rectangles reach below the texture. */
  lemma AsWrittenCropsInsideIff(stepWidth: int, stepHeight: int)
    requires stepWidth > 0 && stepHeight > 0
    ensures (forall x, y :: 0 <= x < COLUMNS && 0 <= y < LINES ==>
               Inside(StepCropAsWritten(x, y, stepWidth, stepHeight), COLUMNS * stepWidth, LINES * stepHeight))
            <==> stepWidth <= stepHeight
  {
    if stepWidth <= stepHeight {
      forall x, y | 0 <= x < COLUMNS && 0 <= y < LINES
        ensures Inside(StepCropAsWritten(x, y, stepWidth, stepHeight), COLUMNS * stepWidth, LINES * stepHeight)
      {
        assert x * stepWidth + stepWidth == (x + 1) * stepWidth <= COLUMNS * stepWidth;
        assert y * stepHeight + stepWidth <= (y + 1) * stepHeight <= LINES * stepHeight;
      }
    } else {
      var last := StepCropAsWritten(0, LINES - 1, stepWidth, stepHeight);
      assert last.y + last.h == 3 * stepHeight + stepWidth > LINES * stepHeight;
    }
  }

  /** On square steps the loader's rectangle is the step's own cell. */
  lemma AsWrittenAgreesOnSquareSteps(x: int, y: int, stepSize: int)
    ensures StepCropAsWritten(x, y, stepSize, stepSize) == StepCrop(x, y, stepSize, stepSize)
  {
  }

  /** The step rectangles partition the texture: every pixel of the
      COLUMNS x LINES grid lies in exactly one step's rectangle, the one at
      its column and line. */
  lemma CropsPartitionTexture(stepWidth: int, stepHeight: int, px: int, py: int)
    requires stepWidth > 0 && stepHeight > 0
    requires 0 <= px < COLUMNS * stepWidth && 0 <= py < LINES * stepHeight
    ensures 0 <= px / stepWidth < COLUMNS && 0 <= py / stepHeight < LINES
    ensures Contains(StepCrop(px / stepWidth, py / stepHeight, stepWidth, stepHeight), px, py)
    ensures forall x, y :: 0 <= x < COLUMNS && 0 <= y < LINES && Contains(StepCrop(x, y, stepWidth, stepHeight), px, py)
              ==> x == px / stepWidth && y == py / stepHeight
  {
    var x, y := px / stepWidth, py / stepHeight;
    DivisionBelow(px, stepWidth, COLUMNS);
    DivisionBelow(py, stepHeight, LINES);
    assert x * stepWidth <= px < x * stepWidth + stepWidth;
    assert y * stepHeight <= py < y * stepHeight + stepHeight;
    forall x', y' | 0 <= x' < COLUMNS && 0 <= y' < LINES && Contains(StepCrop(x', y', stepWidth, stepHeight), px, py)
      ensures x' == x && y' == y
    {
      DivisionUnique(px, stepWidth, x');
      DivisionUnique(py, stepHeight, y');
    }
  }

  lemma DivisionBelow(a: int, c: int, n: int)
    requires c > 0 && 0 <= a < n * c
    ensures 0 <= a / c < n
    ensures (a / c) * c <= a < (a / c) * c + c
  {
    var q := a / c;
    assert a == c * q + a % c;
  }

  // ---------------------------------------------------------------------
  // The surface matrix

  /** An entry of the surface matrix: the empty list the loader appends
      as a placeholder, or a step surface blitted from `area` of the
      texture. */
  datatype Slot = Placeholder | StepSurface(area: Rect)

  /** Row `y` as the loader finds it: an existing row, or one of the empty
      rows it appends. */
  function RowBefore(m: seq<seq<Slot>>, y: int): seq<Slot>
  {
    if 0 <= y < |m| then m[y] else []
  }

  /** Row `r`, worked on as line `y`, after `x` passes of the inner loop:
      each pass appends a placeholder to the row and then overwrites
      position `x` with that step's surface. */
  function FilledRow(r: seq<Slot>, y: int, x: nat, stepWidth: int, stepHeight: int): seq<Slot>
  {
    seq(|r| + x, i => if i < x then StepSurface(StepCropAsWritten(i, y, stepWidth, stepHeight))
                      else if 0 <= i < |r| then r[i] else Placeholder)
  }

  /** The matrix after `y` passes of the outer loop over matrix `m`: each
      pass appends an empty row to the matrix and then fills row `y` (the
      old row `y` while the matrix had one) with COLUMNS inner passes. */
  function LoadedRows(m: seq<seq<Slot>>, y: nat, stepWidth: int, stepHeight: int): seq<seq<Slot>>
  {
    seq(|m| + y, i => if i < y then FilledRow(RowBefore(m, i), i, COLUMNS, stepWidth, stepHeight) else RowBefore(m, i))
  }

  lemma FilledRowStart(r: seq<Slot>, y: int, stepWidth: int, stepHeight: int)
    ensures FilledRow(r, y, 0, stepWidth, stepHeight) == r
  {
  }

  lemma FilledRowStep(r: seq<Slot>, y: int, x: nat, stepWidth: int, stepHeight: int)
    ensures (FilledRow(r, y, x, stepWidth, stepHeight) + [Placeholder])[x := StepSurface(StepCropAsWritten(x, y, stepWidth, stepHeight))]
            == FilledRow(r, y, x + 1, stepWidth, stepHeight)
  {
  }

  lemma LoadedRowsRowY(m: seq<seq<Slot>>, y: nat, stepWidth: int, stepHeight: int)
    ensures (LoadedRows(m, y, stepWidth, stepHeight) + [[]])[y] == RowBefore(m, y)
  {
  }

  lemma LoadedRowsStep(m: seq<seq<Slot>>, y: nat, stepWidth: int, stepHeight: int)
    ensures (LoadedRows(m, y, stepWidth, stepHeight) + [[]])[y := FilledRow(RowBefore(m, y), y, COLUMNS, stepWidth, stepHeight)]
            == LoadedRows(m, y + 1, stepWidth, stepHeight)
  {
  }

  /** The first load, onto the empty matrix a new charset starts with,
      builds LINES rows of COLUMNS step surfaces, indexed
      [orientation][step], each blitted from the loader's rectangle. */
  lemma FirstLoadCutsSheet(stepWidth: int, stepHeight: int)
    ensures var m := LoadedRows([], LINES, stepWidth, stepHeight);
      |m| == LINES
      && (forall y :: 0 <= y < LINES ==> |m[y]| == COLUMNS)
      && (forall y, x :: 0 <= y < LINES && 0 <= x < COLUMNS ==>
            m[y][x] == StepSurface(StepCropAsWritten(x, y, stepWidth, stepHeight)))
  {
  }

  /** What a load does to any matrix: it grows by LINES rows; each of the
      first LINES rows has its first COLUMNS entries replaced by the
      line's step surfaces, keeps its later entries and gains COLUMNS
      trailing placeholders; the rows after them are kept, and the rows
      appended beyond the old matrix stay empty unless filled. */
  lemma LoadReshapes(m: seq<seq<Slot>>, stepWidth: int, stepHeight: int)
    ensures var r := LoadedRows(m, LINES, stepWidth, stepHeight);
      |r| == |m| + LINES
      && (forall y :: 0 <= y < LINES ==> |r[y]| == |RowBefore(m, y)| + COLUMNS)
      && (forall y, x :: 0 <= y < LINES && 0 <= x < COLUMNS ==>
            r[y][x] == StepSurface(StepCropAsWritten(x, y, stepWidth, stepHeight)))
      && (forall y, i :: 0 <= y < LINES && COLUMNS <= i < |RowBefore(m, y)| ==> r[y][i] == m[y][i])
      && (forall y, i :: 0 <= y < LINES && |RowBefore(m, y)| <= i < |r[y]| && COLUMNS <= i ==> r[y][i] == Placeholder)
      && (forall y :: LINES <= y < |r| ==> r[y] == RowBefore(m, y))
  {
  }

  /** Loading a loaded charset again does not rebuild the matrix: the four
      old rows get the new surfaces and four trailing placeholders each,
      and the four appended rows stay empty, so `[4][0]` raises. */
  lemma SecondLoadLeavesEmptyRows(stepWidth: int, stepHeight: int)
    ensures var once := LoadedRows([], LINES, stepWidth, stepHeight);
      var twice := LoadedRows(once, LINES, stepWidth, stepHeight);
      |twice| == 2 * LINES
      && (forall y :: 0 <= y < LINES ==> |twice[y]| == 2 * COLUMNS && twice[y][..COLUMNS] == once[y]
                                         && twice[y][COLUMNS..] == seq(COLUMNS, _ => Placeholder))
      && (forall y :: LINES <= y < 2 * LINES ==> twice[y] == [])
      && PyGet2(twice, LINES, 0).None?
  {
    var once := LoadedRows([], LINES, stepWidth, stepHeight);
    var twice := LoadedRows(once, LINES, stepWidth, stepHeight);
    FirstLoadCutsSheet(stepWidth, stepHeight);
    LoadReshapes(once, stepWidth, stepHeight);
    forall y | 0 <= y < LINES
      ensures twice[y][..COLUMNS] == once[y] && twice[y][COLUMNS..] == seq(COLUMNS, _ => Placeholder)
    {
      assert RowBefore(once, y) == once[y];
    }
  }

  // ---------------------------------------------------------------------
  // The charset object

  class Charset {
    const textureWidth: int
    const textureHeight: int
    var orientation: int
    var step: int
    var stepWidth: int
    var stepHeight: int
    /** None once unloaded. */
    var surfaceMatrix: Option<seq<seq<Slot>>>

    constructor (textureWidth: int, textureHeight: int, orientation: int)
      ensures this.textureWidth == textureWidth && this.textureHeight == textureHeight
      ensures this.orientation == orientation && step == 0
      ensures stepWidth == 0 && stepHeight == 0
      ensures surfaceMatrix == Some([])
    {
      this.textureWidth := textureWidth;
      this.textureHeight := textureHeight;
      this.orientation := orientation;
      step := 0;
      stepWidth := 0;
      stepHeight := 0;
      surfaceMatrix := Some([]);
    }

    /** Cuts the texture into step surfaces: for each line the loader
        appends an empty row and then, for each step, appends a
        placeholder to row `y` of the matrix and overwrites its entry `x`
        with the step's surface. Once unloaded there is no matrix to
        append to and the loader raises (`ok` false) after setting the
        step size. */
    method Load() returns (ok: bool)
      modifies this`stepWidth, this`stepHeight, this`surfaceMatrix
      ensures (stepWidth, stepHeight) == StepSize(textureWidth, textureHeight)
      ensures ok <==> old(surfaceMatrix).Some?
      ensures ok ==> surfaceMatrix == Some(LoadedRows(old(surfaceMatrix).value, LINES, stepWidth, stepHeight))
      ensures !ok ==> surfaceMatrix == old(surfaceMatrix)
    {
      stepWidth := textureWidth / COLUMNS;
      stepHeight := textureHeight / LINES;
      if surfaceMatrix.None? {
        return false;
      }
      var m := surfaceMatrix.value;
      ghost var m0 := m;
      var y := 0;
      while y < LINES
        invariant 0 <= y <= LINES
        invariant (stepWidth, stepHeight) == StepSize(textureWidth, textureHeight)
        invariant m == LoadedRows(m0, y, stepWidth, stepHeight)
      {
        LoadedRowsRowY(m0, y, stepWidth, stepHeight);
        FilledRowStart(RowBefore(m0, y), y, stepWidth, stepHeight);
        m := m + [[]];
        var row := m[y];
        var x := 0;
        while x < COLUMNS
          invariant 0 <= x <= COLUMNS
          invariant (stepWidth, stepHeight) == StepSize(textureWidth, textureHeight)
          invariant row == FilledRow(RowBefore(m0, y), y, x, stepWidth, stepHeight)
        {
          FilledRowStep(RowBefore(m0, y), y, x, stepWidth, stepHeight);
          row := row + [Placeholder];
          row := row[x := StepSurface(StepCropAsWritten(x, y, stepWidth, stepHeight))];
          x := x + 1;
        }
        LoadedRowsStep(m0, y, stepWidth, stepHeight);
        m := m[y := row];
        y := y + 1;
      }
      surfaceMatrix := Some(m);
      ok := true;
    }

    method Unload()
      modifies this`surfaceMatrix
      ensures surfaceMatrix == None
    {
      surfaceMatrix := None;
    }

    /** `surfaceMatrix[orientation][step]`, None where Python raises:
        always once unloaded; after the first load, exactly for an
        orientation or step outside Python's index range, and otherwise
        the surface blitted for that step. */
    function CurrentSurface(): (r: Option<Slot>)
      reads this
      ensures surfaceMatrix.None? ==> r.None?
      ensures surfaceMatrix == Some(LoadedRows([], LINES, stepWidth, stepHeight)) ==>
        (r.Some? <==> -LINES <= orientation < LINES && -COLUMNS <= step < COLUMNS)
        && (0 <= orientation < LINES && 0 <= step < COLUMNS ==>
              r == Some(StepSurface(StepCropAsWritten(step, orientation, stepWidth, stepHeight))))
    {
      FirstLoadCutsSheet(stepWidth, stepHeight);
      match surfaceMatrix
      case None => None
      case Some(m) => PyGet2(m, orientation, step)
    }

    method ResetStep()
      modifies this`step
      ensures step == RestingStep(old(step))
    {
      if step == 1 {
        step := 2;
      } else if step == 3 {
        step := 0;
      }
    }

    method IncrementStep()
      modifies this`step
      ensures step == NextStep(old(step))
    {
      step := (step + 1) % COLUMNS;
    }

    method SetOrientation(orientation: int)
      modifies this`orientation
      ensures this.orientation == orientation
    {
      this.orientation := orientation;
    }

    function GetOrientation(): int
      reads this
    {
      orientation
    }
  }

  /** After the first load, every orientation and step in range reads
      the surface blitted from the loader's rectangle for that step, and
      a negative one reads the entry Python's wrap-around selects. */
  lemma LoadedSurfaceInBounds(orientation: int, step: int, stepWidth: int, stepHeight: int)
    requires -LINES <= orientation < LINES && -COLUMNS <= step < COLUMNS
    ensures var o, s := if orientation < 0 then orientation + LINES else orientation,
                        if step < 0 then step + COLUMNS else step;
      PyGet2(LoadedRows([], LINES, stepWidth, stepHeight), orientation, step)
        == Some(StepSurface(StepCropAsWritten(s, o, stepWidth, stepHeight)))
  {
    FirstLoadCutsSheet(stepWidth, stepHeight);
  }
}
