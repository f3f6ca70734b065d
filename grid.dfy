/**
 * The layout of a face texture: a 256 by 256 canvas split into a 3 by 3
 * grid of square cells, each drawn at its own origin, with the numbers 1 to
 * 9 written into the cells of the white face only.
 */
module GridTexture {
  import opened Wrappers

  /** canvas.width and canvas.height */
  const CanvasSize: real := 256.0
  /** The side of a cell. */
  const Step: real := CanvasSize / 3.0
  /** The colour whose face carries the numbers. */
  const LabelledColor: string := "white"
  /** The face colours in the order the cube's materials are built. */
  const FaceColors: seq<string> := ["yellow", "blue", "green", "red", "white", "purple"]

  /** One cell: its place in the grid, its top-left origin and its label, if any. */
  datatype Cell = Cell(row: nat, col: nat, x: real, y: real, number: Option<nat>)

  /** The offset of the k-th column or row. */
  function Origin(k: nat): real { k as real * Step }

  /** The cell at (row, col) on a face of the given colour. */
  function CellAt(color: string, row: nat, col: nat): Cell {
    Cell(row, col, Origin(col), Origin(row),
         if color == LabelledColor then Some(row * 3 + col + 1) else None)
  }

  /** The cells of one face, row by row, as the drawing loop visits them. */
  method CreateGridMaterial(color: string) returns (cells: seq<Cell>)
    ensures |cells| == 9
    ensures forall i :: 0 <= i < |cells| ==> cells[i] == CellAt(color, i / 3, i % 3)
  {
    cells := [];
    var row := 0;
    while row < 3
      invariant 0 <= row <= 3
      invariant |cells| == row * 3
      invariant forall i :: 0 <= i < |cells| ==> cells[i] == CellAt(color, i / 3, i % 3)
    {
      var col := 0;
      while col < 3
        invariant 0 <= col <= 3
        invariant |cells| == row * 3 + col
        invariant forall i :: 0 <= i < |cells| ==> cells[i] == CellAt(color, i / 3, i % 3)
      {
        var x := col as real * Step;
        var y := row as real * Step;
        assert x == Origin(col) && y == Origin(row);
        var number := if color == LabelledColor then Some(row * 3 + col + 1) else None;
        assert (row * 3 + col) / 3 == row && (row * 3 + col) % 3 == col;
        cells := cells + [Cell(row, col, x, y, number)];
        col := col + 1;
      }
      row := row + 1;
    }
  }

  /** Whether the point (px, py) of the canvas lies in the square a cell is drawn in. */
  predicate Covers(c: Cell, px: real, py: real) {
    c.x <= px < c.x + Step && c.y <= py < c.y + Step
  }

  /** Three cells span the canvas exactly. */
  lemma StepTilesCanvas()
    ensures 3.0 * Step == CanvasSize
    ensures forall k: nat :: k < 3 ==> 0.0 <= Origin(k) && Origin(k) + Step <= CanvasSize
  {
  }

  /** Every point of the canvas lies in some cell of the grid. */
  lemma CellsCoverCanvas(color: string, px: real, py: real)
    requires 0.0 <= px < CanvasSize && 0.0 <= py < CanvasSize
    ensures exists r: nat, c: nat :: r < 3 && c < 3 && Covers(CellAt(color, r, c), px, py)
  {
    var r: nat := if py < Step then 0 else if py < 2.0 * Step then 1 else 2;
    var c: nat := if px < Step then 0 else if px < 2.0 * Step then 1 else 2;
    assert Covers(CellAt(color, r, c), px, py);
  }

  /** No point lies in two cells, and only points of the canvas lie in any. */
  lemma CellsDisjoint(color: string, r1: nat, c1: nat, r2: nat, c2: nat, px: real, py: real)
    requires r1 < 3 && c1 < 3 && r2 < 3 && c2 < 3
    requires Covers(CellAt(color, r1, c1), px, py) && Covers(CellAt(color, r2, c2), px, py)
    ensures r1 == r2 && c1 == c2
    ensures 0.0 <= px < CanvasSize && 0.0 <= py < CanvasSize
  {
    if r1 < r2 { OriginsOrdered(r1, r2); } else if r2 < r1 { OriginsOrdered(r2, r1); }
    if c1 < c2 { OriginsOrdered(c1, c2); } else if c2 < c1 { OriginsOrdered(c2, c1); }
  }

  /** Distinct grid indices have origins at least a cell apart. */
  lemma OriginsOrdered(i: nat, j: nat)
    requires i < j
    ensures Origin(i) + Step <= Origin(j)
  {
    assert (j - i) as real >= 1.0;
    assert Origin(j) - Origin(i) == (j - i) as real * Step;
  }

  /** On the white face the labels are 1 to 9, one per cell. */
  lemma LabelsDistinct(r1: nat, c1: nat, r2: nat, c2: nat)
    requires r1 < 3 && c1 < 3 && r2 < 3 && c2 < 3
    ensures CellAt(LabelledColor, r1, c1).number.Some?
    ensures 1 <= CellAt(LabelledColor, r1, c1).number.value <= 9
    ensures CellAt(LabelledColor, r1, c1).number == CellAt(LabelledColor, r2, c2).number
        <==> r1 == r2 && c1 == c2
  {
  }

  /** Of the cube's six faces, only the white one (the fifth) is labelled. */
  lemma OnlyWhiteFaceLabelled(face: nat, row: nat, col: nat)
    requires face < |FaceColors|
    ensures CellAt(FaceColors[face], row, col).number.Some? <==> face == 4
  {
  }
}
