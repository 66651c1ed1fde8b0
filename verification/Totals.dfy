/** Totals of exact decimal amounts: one fold over a list, and the laws the reconciliation needs. */
module Totals {
  ghost function Total<T>(rows: seq<T>, weight: T -> real): real {
    TotalTo(rows, weight, |rows|)
  }

  /** The total of the first `n` rows. */
  ghost function TotalTo<T>(rows: seq<T>, weight: T -> real, n: nat): real
    requires n <= |rows|
  {
    if n == 0 then 0.0 else TotalTo(rows, weight, n - 1) + weight(rows[n - 1])
  }

  lemma {:induction false} TotalToSame<T>(rows: seq<T>, f: T -> real, g: T -> real, n: nat)
    requires n <= |rows|
    requires forall i :: 0 <= i < n ==> f(rows[i]) == g(rows[i])
    ensures TotalTo(rows, f, n) == TotalTo(rows, g, n)
  {
    if n > 0 {
      TotalToSame(rows, f, g, n - 1);
    }
  }

  lemma TotalSame<T>(rows: seq<T>, f: T -> real, g: T -> real)
    requires forall i :: 0 <= i < |rows| ==> f(rows[i]) == g(rows[i])
    ensures Total(rows, f) == Total(rows, g)
  {
    TotalToSame(rows, f, g, |rows|);
  }

  lemma {:induction false} TotalToPlus<T>(rows: seq<T>, f: T -> real, g: T -> real, both: T -> real, n: nat)
    requires n <= |rows|
    requires forall i :: 0 <= i < n ==> both(rows[i]) == f(rows[i]) + g(rows[i])
    ensures TotalTo(rows, both, n) == TotalTo(rows, f, n) + TotalTo(rows, g, n)
  {
    if n > 0 {
      TotalToPlus(rows, f, g, both, n - 1);
    }
  }

  lemma TotalPlus<T>(rows: seq<T>, f: T -> real, g: T -> real, both: T -> real)
    requires forall i :: 0 <= i < |rows| ==> both(rows[i]) == f(rows[i]) + g(rows[i])
    ensures Total(rows, both) == Total(rows, f) + Total(rows, g)
  {
    TotalToPlus(rows, f, g, both, |rows|);
  }

  lemma {:induction false} TotalToZero<T>(rows: seq<T>, weight: T -> real, n: nat)
    requires n <= |rows|
    requires forall i :: 0 <= i < n ==> weight(rows[i]) == 0.0
    ensures TotalTo(rows, weight, n) == 0.0
  {
    if n > 0 {
      TotalToZero(rows, weight, n - 1);
    }
  }

  lemma TotalZero<T>(rows: seq<T>, weight: T -> real)
    requires forall i :: 0 <= i < |rows| ==> weight(rows[i]) == 0.0
    ensures Total(rows, weight) == 0.0
  {
    TotalToZero(rows, weight, |rows|);
  }

  /** A total of amounts each within `bound` of nothing is within `bound` a row. */
  lemma {:induction false} TotalToWithin<T>(rows: seq<T>, weight: T -> real, bound: real, n: nat)
    requires n <= |rows| && bound >= 0.0
    requires forall i :: 0 <= i < n ==> -bound <= weight(rows[i]) <= bound
    ensures -bound * n as real <= TotalTo(rows, weight, n) <= bound * n as real
  {
    if n > 0 {
      TotalToWithin(rows, weight, bound, n - 1);
      assert bound * n as real == bound * (n - 1) as real + bound;
    }
  }

  // ------------------------------------------------------------------ totals of totals

  ghost function RowTotal<R, C>(cols: seq<C>, n: nat, cell: (R, C) -> real): R -> real
    requires n <= |cols|
  {
    (r: R) => TotalTo(cols, Row(cell, r), n)
  }

  ghost function Row<R, C>(cell: (R, C) -> real, r: R): C -> real {
    (c: C) => cell(r, c)
  }

  ghost function Column<R, C>(cell: (R, C) -> real, c: C): R -> real {
    (r: R) => cell(r, c)
  }

  ghost function ColumnTotal<R, C>(rows: seq<R>, cell: (R, C) -> real): C -> real {
    (c: C) => Total(rows, Column(cell, c))
  }

  lemma {:induction false} SwapTo<R, C>(rows: seq<R>, cols: seq<C>, cell: (R, C) -> real, n: nat)
    requires n <= |cols|
    ensures Total(rows, RowTotal(cols, n, cell)) == TotalTo(cols, ColumnTotal(rows, cell), n)
  {
    if n == 0 {
      TotalZero(rows, RowTotal(cols, 0, cell));
    } else {
      SwapTo(rows, cols, cell, n - 1);
      TotalPlus(rows, RowTotal(cols, n - 1, cell), Column(cell, cols[n - 1]), RowTotal(cols, n, cell));
    }
  }

  /** Added by row or by column, a table comes to the same. */
  lemma Swap<R, C>(rows: seq<R>, cols: seq<C>, cell: (R, C) -> real, byRow: R -> real, byColumn: C -> real)
    requires forall i :: 0 <= i < |rows| ==> byRow(rows[i]) == Total(cols, Row(cell, rows[i]))
    requires forall i :: 0 <= i < |cols| ==> byColumn(cols[i]) == Total(rows, Column(cell, cols[i]))
    ensures Total(rows, byRow) == Total(cols, byColumn)
  {
    SwapTo(rows, cols, cell, |cols|);
    TotalSame(rows, byRow, RowTotal(cols, |cols|, cell));
    TotalSame(cols, byColumn, ColumnTotal(rows, cell));
  }

  /** Where one row at most takes an amount, the total is the amount or nothing. */
  lemma {:induction false} PickTo<T>(rows: seq<T>, weight: T -> real, taken: T -> bool, amount: real, n: nat)
    requires n <= |rows|
    requires forall i :: 0 <= i < |rows| ==> weight(rows[i]) == if taken(rows[i]) then amount else 0.0
    requires forall i, j :: 0 <= i < j < |rows| ==> !(taken(rows[i]) && taken(rows[j]))
    ensures TotalTo(rows, weight, n) == if exists i :: 0 <= i < n && taken(rows[i]) then amount else 0.0
  {
    if n > 0 {
      PickTo(rows, weight, taken, amount, n - 1);
    }
  }

  lemma Pick<T>(rows: seq<T>, weight: T -> real, taken: T -> bool, amount: real)
    requires forall i :: 0 <= i < |rows| ==> weight(rows[i]) == if taken(rows[i]) then amount else 0.0
    requires forall i, j :: 0 <= i < j < |rows| ==> !(taken(rows[i]) && taken(rows[j]))
    ensures Total(rows, weight) == if exists i :: 0 <= i < |rows| && taken(rows[i]) then amount else 0.0
  {
    PickTo(rows, weight, taken, amount, |rows|);
  }
}
