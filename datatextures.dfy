/** The second copy of the charset class, kept beside the texture registry.
    Its step cycle, orientation and cutting are those of the graphics
    charset; it has no `unload`, so its matrix is always a list. */
module DataTextures {
  import opened Common
  import opened Tiles
  import Charsets

  class Charset {
    const textureWidth: int
    const textureHeight: int
    var orientation: int
    var step: int
    var stepWidth: int
    var stepHeight: int
    var surfaceMatrix: seq<seq<Charsets.Slot>>

    constructor (textureWidth: int, textureHeight: int, orientation: int)
      ensures this.textureWidth == textureWidth && this.textureHeight == textureHeight
      ensures this.orientation == orientation && step == 0
      ensures stepWidth == 0 && stepHeight == 0 && surfaceMatrix == []
    {
      this.textureWidth := textureWidth;
      this.textureHeight := textureHeight;
      this.orientation := orientation;
      step := 0;
      stepWidth := 0;
      stepHeight := 0;
      surfaceMatrix := [];
    }

    /** The same loader as the graphics charset's: an empty row appended
        per line, then per step a placeholder appended to row `y` and its
        entry `x` overwritten with the step's surface. */
    method Load()
      modifies this`stepWidth, this`stepHeight, this`surfaceMatrix
      ensures (stepWidth, stepHeight) == Charsets.StepSize(textureWidth, textureHeight)
      ensures surfaceMatrix == Charsets.LoadedRows(old(surfaceMatrix), Charsets.LINES, stepWidth, stepHeight)
    {
      stepWidth := textureWidth / Charsets.COLUMNS;
      stepHeight := textureHeight / Charsets.LINES;
      ghost var m0 := surfaceMatrix;
      var y := 0;
      while y < Charsets.LINES
        invariant 0 <= y <= Charsets.LINES
        invariant (stepWidth, stepHeight) == Charsets.StepSize(textureWidth, textureHeight)
        invariant surfaceMatrix == Charsets.LoadedRows(m0, y, stepWidth, stepHeight)
      {
        Charsets.LoadedRowsRowY(m0, y, stepWidth, stepHeight);
        Charsets.FilledRowStart(Charsets.RowBefore(m0, y), y, stepWidth, stepHeight);
        surfaceMatrix := surfaceMatrix + [[]];
        var row := surfaceMatrix[y];
        var x := 0;
        while x < Charsets.COLUMNS
          invariant 0 <= x <= Charsets.COLUMNS
          invariant (stepWidth, stepHeight) == Charsets.StepSize(textureWidth, textureHeight)
          invariant surfaceMatrix == Charsets.LoadedRows(m0, y, stepWidth, stepHeight) + [[]]
          invariant row == Charsets.FilledRow(Charsets.RowBefore(m0, y), y, x, stepWidth, stepHeight)
        {
          Charsets.FilledRowStep(Charsets.RowBefore(m0, y), y, x, stepWidth, stepHeight);
          row := row + [Charsets.Placeholder];
          row := row[x := Charsets.StepSurface(Charsets.StepCropAsWritten(x, y, stepWidth, stepHeight))];
          x := x + 1;
        }
        Charsets.LoadedRowsStep(m0, y, stepWidth, stepHeight);
        surfaceMatrix := surfaceMatrix[y := row];
        y := y + 1;
      }
    }

    /** `surfaceMatrix[orientation][step]`, None where Python raises:
        always before the first load; after it, exactly for an orientation
        or step outside Python's index range, and otherwise the surface
        blitted for that step. */
    function CurrentSurface(): (r: Option<Charsets.Slot>)
      reads this
      ensures surfaceMatrix == [] ==> r == None
      ensures surfaceMatrix == Charsets.LoadedRows([], Charsets.LINES, stepWidth, stepHeight) ==>
        (r.Some? <==> -Charsets.LINES <= orientation < Charsets.LINES && -Charsets.COLUMNS <= step < Charsets.COLUMNS)
        && (0 <= orientation < Charsets.LINES && 0 <= step < Charsets.COLUMNS ==>
              r == Some(Charsets.StepSurface(Charsets.StepCropAsWritten(step, orientation, stepWidth, stepHeight))))
    {
      Charsets.FirstLoadCutsSheet(stepWidth, stepHeight);
      PyGet2(surfaceMatrix, orientation, step)
    }

    method ResetStep()
      modifies this`step
      ensures step == Charsets.RestingStep(old(step))
    {
      if step == 1 {
        step := 2;
      } else if step == 3 {
        step := 0;
      }
    }

    method IncrementStep()
      modifies this`step
      ensures step == Charsets.NextStep(old(step))
    {
      step := (step + 1) % Charsets.COLUMNS;
    }

    method SetOrientation(orientation: int)
      modifies this`orientation
      ensures this.orientation == orientation
    {
      this.orientation := orientation;
    }

    function GetOrientation(): int
      reads this
    {
      orientation
    }
  }
}
