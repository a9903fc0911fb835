/** Row-major layout of the two coordinate buffers of a Domain:
    point (i, j), 0 <= i <= nx, 0 <= j <= ny, lives in slot j * (nx + 1) + i
    of buffers of length (nx + 1) * (ny + 1). Row starts are defined by
    adding up row widths, and IndexFormula and SizeFormula give the closed
    forms; this keeps products out of the proofs about the loops. */
module Indexing {

  /** First slot of row j: j rows of nx + 1 points each come before it. */
  function RowStart(j: int, nx: int): int {
    if j <= 0 then 0 else RowStart(j - 1, nx) + (nx + 1)
  }

  /** The slot of point (i, j). */
  function Index(i: int, j: int, nx: int): int {
    RowStart(j, nx) + i
  }

  /** Length of each coordinate buffer for a grid of nx by ny cells. */
  function Size(nx: int, ny: int): int {
    RowStart(ny + 1, nx)
  }

  lemma {:induction false} RowStartFormula(j: nat, nx: int)
    ensures RowStart(j, nx) == j * (nx + 1)
  {
    if j > 0 {
      RowStartFormula(j - 1, nx);
      assert (j - 1) * (nx + 1) + (nx + 1) == j * (nx + 1);
    }
  }

  /** The slot of (i, j) is j * (nx + 1) + i. */
  lemma IndexFormula(i: int, j: nat, nx: int)
    ensures Index(i, j, nx) == j * (nx + 1) + i
  {
    RowStartFormula(j, nx);
  }

  /** Each buffer has (nx + 1) * (ny + 1) slots. */
  lemma SizeFormula(nx: int, ny: nat)
    ensures Size(nx, ny) == (nx + 1) * (ny + 1)
  {
    RowStartFormula(ny + 1, nx);
  }

  /** Later rows start later, by at least one row width per row. */
  lemma {:induction false} RowStartMonotone(j: int, k: int, nx: int)
    requires 0 <= j <= k && 0 <= nx
    ensures 0 <= RowStart(j, nx) <= RowStart(k, nx)
    ensures j < k ==> RowStart(j, nx) + (nx + 1) <= RowStart(k, nx)
  {
    if j < k {
      RowStartMonotone(j, k - 1, nx);
    } else if j > 0 {
      RowStartMonotone(j - 1, j - 1, nx);
    }
  }

  /** Every row start up to the end of the grid lies inside the buffers. */
  lemma RowStartBounded(j: int, nx: int, ny: int)
    requires 0 <= j <= ny + 1 && 0 <= nx
    ensures 0 <= RowStart(j, nx) <= Size(nx, ny)
  {
    RowStartMonotone(j, ny + 1, nx);
  }

  /** Every point of the first `rows` rows has a slot below RowStart(rows). */
  lemma IndexInRows(nx: int, rows: int)
    requires 0 <= nx
    ensures forall i, j :: 0 <= i <= nx && 0 <= j < rows ==> 0 <= Index(i, j, nx) < RowStart(rows, nx)
  {
    forall i, j | 0 <= i <= nx && 0 <= j < rows
      ensures 0 <= Index(i, j, nx) < RowStart(rows, nx)
    {
      RowStartMonotone(j, rows, nx);
    }
  }

  /** Every point of the grid has a slot inside the buffers. */
  lemma IndexInBounds(i: int, j: int, nx: int, ny: int)
    requires 0 <= i <= nx && 0 <= j <= ny
    ensures 0 <= Index(i, j, nx) < Size(nx, ny)
  {
    RowStartMonotone(j, ny + 1, nx);
  }

  /** Two points of the grid never share a slot. */
  lemma IndexInjective(i: int, j: int, i': int, j': int, nx: int)
    requires 0 <= i <= nx && 0 <= i' <= nx && 0 <= j && 0 <= j'
    requires Index(i, j, nx) == Index(i', j', nx)
    ensures i == i' && j == j'
  {
    if j < j' {
      RowStartMonotone(j + 1, j', nx);
      assert false;
    } else if j' < j {
      RowStartMonotone(j' + 1, j, nx);
      assert false;
    }
  }

  /** The values f(i, j) of the first `rows` rows laid out row-major, one
      row i = 0 .. nx after another. */
  function Layout<T>(f: (int, int) -> T, nx: nat, rows: nat): (r: seq<T>)
    ensures |r| == RowStart(rows, nx)
    ensures forall i, j :: 0 <= i <= nx && 0 <= j < rows ==>
      0 <= Index(i, j, nx) < |r| && r[Index(i, j, nx)] == f(i, j)
  {
    if rows == 0 then []
    else Layout(f, nx, rows - 1) + seq(nx + 1, i => f(i, rows - 1))
  }

  /** The slots in the order the nested loops of the grid code visit them:
      rows j = 0 .. rows - 1 in turn, and within a row i = 0 .. nx. */
  function RowMajorOrder(nx: nat, rows: nat): seq<int> {
    if rows == 0 then []
    else RowMajorOrder(nx, rows - 1) + seq(nx + 1, i => Index(i, rows - 1, nx))
  }

  /** The nested loops over the rows visit the slots 0, 1, 2, ... in increasing
      order: over ny + 1 rows that is every slot of the buffers exactly once. */
  lemma {:induction false} RowMajorOrderVisitsEachSlotOnce(nx: nat, rows: nat)
    ensures |RowMajorOrder(nx, rows)| == RowStart(rows, nx)
    ensures forall k :: 0 <= k < |RowMajorOrder(nx, rows)| ==> RowMajorOrder(nx, rows)[k] == k
  {
    if rows > 0 {
      RowMajorOrderVisitsEachSlotOnce(nx, rows - 1);
    }
  }
}
