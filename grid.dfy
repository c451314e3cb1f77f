/** The cells a nested `rows.forEach((row, y) => row.forEach((cell, x) => ...))`
    visits, in the order it visits them. */
module Grids {

  /** The cells `(x, y)` of row `y`, for `x` below `width`, left to right. */
  function RowCells(y: nat, width: nat): (r: seq<(nat, nat)>)
    ensures |r| == width && forall x :: 0 <= x < width ==> r[x] == (x, y)
  {
    if width == 0 then [] else RowCells(y, width - 1) + [(width - 1, y)]
  }

  /** Every cell of a ragged grid, row by row and left to right within a row. */
  function Cells<T>(rows: seq<seq<T>>): seq<(nat, nat)> {
    if |rows| == 0 then []
    else Cells(rows[..|rows| - 1]) + RowCells(|rows| - 1, |rows[|rows| - 1]|)
  }

  /** Visiting one more row appends that row's cells. */
  lemma CellsSnoc<T>(rows: seq<seq<T>>, y: nat)
    requires y < |rows|
    ensures Cells(rows[..y + 1]) == Cells(rows[..y]) + RowCells(y, |rows[y]|)
  {
    assert rows[..y + 1][..y] == rows[..y];
  }

  /** A cell is visited iff it lies inside the grid's shape. */
  lemma {:induction false} CellsMember<T>(rows: seq<seq<T>>, x: nat, y: nat)
    ensures (x, y) in Cells(rows) <==> y < |rows| && x < |rows[y]|
  {
    if |rows| > 0 {
      var n := |rows| - 1;
      CellsMember(rows[..n], x, y);
      assert (x, y) in RowCells(n, |rows[n]|) <==> y == n && x < |rows[n]| by {
        if (x, y) in RowCells(n, |rows[n]|) {
          var k :| 0 <= k < |rows[n]| && RowCells(n, |rows[n]|)[k] == (x, y);
        }
      }
    }
  }

  /** Strict row-major order: earlier rows first, then smaller `x`. */
  predicate Before(a: (nat, nat), b: (nat, nat)) {
    a.1 < b.1 || (a.1 == b.1 && a.0 < b.0)
  }

  /** Cells are visited in strictly increasing row-major order, so each
      cell is visited exactly once. */
  lemma {:induction false} CellsOrdered<T>(rows: seq<seq<T>>)
    ensures forall i, j :: 0 <= i < j < |Cells(rows)| ==> Before(Cells(rows)[i], Cells(rows)[j])
    ensures forall i :: 0 <= i < |Cells(rows)| ==> Cells(rows)[i].1 < |rows|
  {
    if |rows| > 0 {
      var n := |rows| - 1;
      CellsOrdered(rows[..n]);
      var head, tail := Cells(rows[..n]), RowCells(n, |rows[n]|);
      assert Cells(rows) == head + tail;
    }
  }

  /** The cells visited up to and including `(x, y)` are a prefix of all
      the cells: whatever is visited after them comes later. */
  lemma CellsPrefix<T>(rows: seq<seq<T>>, x: nat, y: nat)
    requires y < |rows| && x < |rows[y]|
    ensures Cells(rows[..y]) + RowCells(y, x + 1) <= Cells(rows)
  {
    RowsPrefix(rows, y + 1);
    CellsSnoc(rows, y);
    var row := RowCells(y, |rows[y]|);
    assert RowCells(y, x + 1) <= row;
    var head := Cells(rows[..y]) + RowCells(y, x + 1);
    assert head <= Cells(rows[..y]) + row by {
      assert forall i :: 0 <= i < |head| ==> head[i] == (Cells(rows[..y]) + row)[i];
    }
  }

  /** The cells of the first `m` rows are a prefix of all the cells. */
  lemma {:induction false} RowsPrefix<T>(rows: seq<seq<T>>, m: nat)
    requires m <= |rows|
    ensures Cells(rows[..m]) <= Cells(rows)
    decreases |rows|
  {
    if m == |rows| {
      assert rows[..m] == rows;
    } else {
      var n := |rows| - 1;
      RowsPrefix(rows[..n], m);
      assert rows[..n][..m] == rows[..m];
    }
  }
}
