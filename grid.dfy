/**
 * The triangulated grid built by `Renderer::viewportPlane` (src/renderer.cpp) and by `plane`
 * (src/main.cpp). Both walk i over rows 0..rows and j over columns 0..cols, append the vertex
 * (j dx - 1, i dy - 1) (the viewport adds depth 0.1), and for every cell with i < rows and
 * j < cols append the six indices of two triangles. BuildGrid is that loop; GridPoints and
 * GridIndices are the lists it is proved to build, stated row by row.
 */
module Grid {
  import opened LinAlgVec
  import opened NatArith

  /** Vertex (i, j): (j dx - 1, i dy - 1) followed by the extra coordinates `tail`. */
  function Point(dx: real, dy: real, tail: Vector, i: nat, j: nat): (p: Vector)
    ensures |p| == 2 + |tail|
  {
    [j as real * dx - 1.0, i as real * dy - 1.0] + tail
  }

  /** The vertices (i, 0), ..., (i, n - 1). */
  function RowPoints(dx: real, dy: real, tail: Vector, i: nat, n: nat): seq<Vector>
  {
    if n == 0 then [] else RowPoints(dx, dy, tail, i, n - 1) + [Point(dx, dy, tail, i, n - 1)]
  }

  /** The vertices of grid rows 0, ..., n - 1, each row holding cols + 1 vertices. */
  function Points(dx: real, dy: real, tail: Vector, cols: nat, n: nat): seq<Vector>
  {
    if n == 0 then []
    else Points(dx, dy, tail, cols, n - 1) + RowPoints(dx, dy, tail, n - 1, cols + 1)
  }

  /** Index of grid vertex (i, j) in the vertex list. */
  function At(cols: nat, i: nat, j: nat): nat
  {
    i * (cols + 1) + j
  }

  /** The six indices of cell (i, j): triangles (topL, botL, topR) and (topR, botL, botR). */
  function Cell(cols: nat, i: nat, j: nat): seq<nat>
  {
    var topL := At(cols, i, j);
    var topR := topL + 1;
    var botL := At(cols, i + 1, j);
    var botR := botL + 1;
    [topL, botL, topR, topR, botL, botR]
  }

  /** The indices of cells (i, 0), ..., (i, n - 1). */
  function RowCells(cols: nat, i: nat, n: nat): seq<nat>
  {
    if n == 0 then [] else RowCells(cols, i, n - 1) + Cell(cols, i, n - 1)
  }

  /** The indices of cell rows 0, ..., n - 1, each row holding cols cells. */
  function Cells(cols: nat, n: nat): seq<nat>
  {
    if n == 0 then [] else Cells(cols, n - 1) + RowCells(cols, n - 1, cols)
  }

  /** All (rows + 1) x (cols + 1) vertices in row-major order. */
  function GridPoints(dx: real, dy: real, tail: Vector, rows: nat, cols: nat): seq<Vector>
  {
    Points(dx, dy, tail, cols, rows + 1)
  }

  /** All rows x cols cells' indices in row-major order. */
  function GridIndices(rows: nat, cols: nat): seq<nat>
  {
    Cells(cols, rows)
  }

  /**
   * The shared loop of viewportPlane and plane: for i in 0..rows and j in 0..cols, append
   * vertex (i, j), then, unless i == rows or j == cols, the six indices of cell (i, j).
   */
  method BuildGrid(rows: nat, cols: nat, dx: real, dy: real, tail: Vector)
    returns (vertices: seq<Vector>, indices: seq<nat>)
    ensures vertices == GridPoints(dx, dy, tail, rows, cols)
    ensures indices == GridIndices(rows, cols)
  {
    vertices := [];
    indices := [];
    var i := 0;
    while i <= rows
      invariant i <= rows + 1
      invariant vertices == Points(dx, dy, tail, cols, i)
      invariant i <= rows ==> indices == Cells(cols, i)
      invariant i == rows + 1 ==> indices == Cells(cols, rows)
    {
      vertices, indices := AppendRow(rows, cols, dx, dy, tail, i, vertices, indices);
      i := i + 1;
    }
  }

  /**
   * The inner j loop of BuildGrid for row i: the row's cols + 1 vertices are appended, and
   * its cols cells unless i is the last vertex row.
   */
  method AppendRow(rows: nat, cols: nat, dx: real, dy: real, tail: Vector, i: nat,
                   vertices0: seq<Vector>, indices0: seq<nat>)
    returns (vertices: seq<Vector>, indices: seq<nat>)
    requires i <= rows
    ensures vertices == vertices0 + RowPoints(dx, dy, tail, i, cols + 1)
    ensures i < rows ==> indices == indices0 + RowCells(cols, i, cols)
    ensures i == rows ==> indices == indices0
  {
    vertices, indices := vertices0, indices0;
    var j := 0;
    while j <= cols
      invariant j <= cols + 1
      invariant vertices == vertices0 + RowPoints(dx, dy, tail, i, j)
      invariant i < rows ==> indices == indices0 + RowCells(cols, i, if j <= cols then j else cols)
      invariant i == rows ==> indices == indices0
    {
      vertices := vertices + [Point(dx, dy, tail, i, j)];
      if i != rows && j != cols {
        indices := indices + Cell(cols, i, j);
      }
      j := j + 1;
    }
  }

  /** Renderer::viewportPlane: the grid over [-1, 1]^2 at depth 0.1, rows x cols cells. */
  method ViewportPlane(rows: nat, cols: nat) returns (vertices: seq<Vector>, indices: seq<nat>)
    requires rows > 0 && cols > 0
    ensures vertices == GridPoints(2.0 / cols as real, 2.0 / rows as real, [0.1], rows, cols)
    ensures indices == GridIndices(rows, cols)
  {
    vertices, indices := BuildGrid(rows, cols, 2.0 / cols as real, 2.0 / rows as real, [0.1]);
  }

  /** plane(width, height) of main.cpp: the same grid in two dimensions. */
  method Plane(width: nat, height: nat) returns (vertices: seq<Vector>, indices: seq<nat>)
    requires width > 0 && height > 0
    ensures vertices == GridPoints(2.0 / width as real, 2.0 / height as real, [], height, width)
    ensures indices == GridIndices(height, width)
  {
    vertices, indices := BuildGrid(height, width, 2.0 / width as real, 2.0 / height as real, []);
  }

  // ---------------------------------------------------------------- lemmas

  /** A row of n vertices has n entries, vertex j at position j. */
  lemma {:induction false} RowPointsAt(dx: real, dy: real, tail: Vector, i: nat, n: nat)
    ensures |RowPoints(dx, dy, tail, i, n)| == n
    ensures forall j :: 0 <= j < n ==> RowPoints(dx, dy, tail, i, n)[j] == Point(dx, dy, tail, i, j)
  {
    if n > 0 {
      RowPointsAt(dx, dy, tail, i, n - 1);
    }
  }

  /** The first n rows hold n (cols + 1) vertices. */
  lemma {:induction false} PointsLength(dx: real, dy: real, tail: Vector, cols: nat, n: nat)
    ensures |Points(dx, dy, tail, cols, n)| == n * (cols + 1)
  {
    if n > 0 {
      PointsLength(dx, dy, tail, cols, n - 1);
      RowPointsAt(dx, dy, tail, n - 1, cols + 1);
      assert n * (cols + 1) == (n - 1) * (cols + 1) + (cols + 1);
    }
  }

  /** Rows of vertices are stacked: vertex (i, j) of the first n rows sits at i (cols + 1) + j. */
  lemma {:induction false} PointAt(dx: real, dy: real, tail: Vector, cols: nat, n: nat, i: nat, j: nat)
    requires i < n && j <= cols
    ensures At(cols, i, j) < |Points(dx, dy, tail, cols, n)|
    ensures Points(dx, dy, tail, cols, n)[At(cols, i, j)] == Point(dx, dy, tail, i, j)
  {
    PointsLength(dx, dy, tail, cols, n);
    PointsLength(dx, dy, tail, cols, n - 1);
    MulMonotone(i + 1, n, cols + 1);
    if i < n - 1 {
      MulMonotone(i + 1, n - 1, cols + 1);
      PointAt(dx, dy, tail, cols, n - 1, i, j);
    } else {
      RowPointsAt(dx, dy, tail, n - 1, cols + 1);
      assert At(cols, i, j) == (n - 1) * (cols + 1) + j;
    }
  }

  /** n steps of 2 / n cover the whole interval of length 2. */
  lemma StepsSpan(n: nat)
    requires n > 0
    ensures n as real * (2.0 / n as real) == 2.0
  {
  }

  /** The corner vertices are (-1, -1) and (1, 1) when dx = 2 / cols and dy = 2 / rows. */
  lemma GridCorners(rows: nat, cols: nat, tail: Vector)
    requires rows > 0 && cols > 0
    ensures Point(2.0 / cols as real, 2.0 / rows as real, tail, 0, 0) == [-1.0, -1.0] + tail
    ensures Point(2.0 / cols as real, 2.0 / rows as real, tail, rows, cols) == [1.0, 1.0] + tail
  {
    StepsSpan(cols);
    StepsSpan(rows);
    var far := Point(2.0 / cols as real, 2.0 / rows as real, tail, rows, cols);
    assert far[0] == 1.0 && far[1] == 1.0;
    assert far[2..] == tail;
  }

  /** A row of n cells has 6n indices, cell j's six starting at 6j. */
  lemma {:induction false} RowCellsAt(cols: nat, i: nat, n: nat)
    ensures |RowCells(cols, i, n)| == 6 * n
    ensures forall j, k :: 0 <= j < n && 0 <= k < 6 ==>
              RowCells(cols, i, n)[6 * j + k] == Cell(cols, i, j)[k]
  {
    if n > 0 {
      RowCellsAt(cols, i, n - 1);
    }
  }

  /** The first n cell rows hold 6 n cols indices. */
  lemma {:induction false} CellsLength(cols: nat, n: nat)
    ensures |Cells(cols, n)| == 6 * (n * cols)
  {
    if n > 0 {
      CellsLength(cols, n - 1);
      RowCellsAt(cols, n - 1, cols);
      assert n * cols == (n - 1) * cols + cols;
    }
  }

  /** Cell rows are stacked: the six indices of cell (i, j) start at 6 (i cols + j). */
  lemma {:induction false} CellAt(cols: nat, n: nat, i: nat, j: nat, k: nat)
    requires i < n && j < cols && k < 6
    ensures 6 * (i * cols + j) + k < |Cells(cols, n)|
    ensures Cells(cols, n)[6 * (i * cols + j) + k] == Cell(cols, i, j)[k]
  {
    var pre := Cells(cols, n - 1);
    var row := RowCells(cols, n - 1, cols);
    assert Cells(cols, n) == pre + row;
    CellsLength(cols, n - 1);
    RowCellsAt(cols, n - 1, cols);
    var q := 6 * (i * cols + j) + k;
    if i < n - 1 {
      MulMonotone(i + 1, n - 1, cols);
      assert (i + 1) * cols == i * cols + cols;
      assert q < |pre|;
      CellAt(cols, n - 1, i, j, k);
    } else {
      assert i * cols == (n - 1) * cols;
      assert q == |pre| + (6 * j + k);
      assert row[6 * j + k] == Cell(cols, i, j)[k];
    }
  }

  /**
   * The two triangles of a cell: topR = topL + 1, botL = topL + cols + 1, botR = botL + 1,
   * and both triangles contain the edge topR-botL.
   */
  lemma CellShape(cols: nat, i: nat, j: nat)
    ensures var t := At(cols, i, j);
            Cell(cols, i, j) == [t, t + cols + 1, t + 1, t + 1, t + cols + 1, t + cols + 2]
  {
    assert At(cols, i + 1, j) == At(cols, i, j) + cols + 1;
  }

  /** Every index of cell (i, j) with i < rows, j < cols names an existing vertex. */
  lemma CellInRange(rows: nat, cols: nat, i: nat, j: nat)
    requires i < rows && j < cols
    ensures forall k :: 0 <= k < 6 ==> Cell(cols, i, j)[k] < (rows + 1) * (cols + 1)
  {
    CellShape(cols, i, j);
    MulMonotone(i + 1, rows, cols + 1);
    assert At(cols, i, j) + cols + 1 == (i + 1) * (cols + 1) + j;
  }

  /** Every index the grid emits is below the vertex count (rows + 1)(cols + 1). */
  lemma {:induction false} CellsInRange(rows: nat, cols: nat, n: nat)
    requires n <= rows
    ensures forall x :: x in Cells(cols, n) ==> x < (rows + 1) * (cols + 1)
  {
    if n > 0 {
      CellsInRange(rows, cols, n - 1);
      RowCellsInRange(rows, cols, n - 1, cols);
    }
  }

  /** Every index of row i's first n cells is below the vertex count. */
  lemma {:induction false} RowCellsInRange(rows: nat, cols: nat, i: nat, n: nat)
    requires i < rows && n <= cols
    ensures forall x :: x in RowCells(cols, i, n) ==> x < (rows + 1) * (cols + 1)
  {
    if n > 0 {
      RowCellsInRange(rows, cols, i, n - 1);
      CellInRange(rows, cols, i, n - 1);
    }
  }

  /** All indices of the grid are valid vertex positions. */
  lemma GridIndicesInRange(rows: nat, cols: nat)
    ensures forall x :: x in GridIndices(rows, cols) ==> x < |GridPoints(0.0, 0.0, [], rows, cols)|
  {
    CellsInRange(rows, cols, rows);
    PointsLength(0.0, 0.0, [], cols, rows + 1);
  }
}
