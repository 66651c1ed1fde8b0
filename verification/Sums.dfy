/** Totals over the rows of a table: what an SQL `SUM` or a Python `sum` computes, as one fold with
    the laws the proofs need. */
module Sums {
  ghost function Sum<T>(rows: seq<T>, weight: T -> int): int {
    SumTo(rows, weight, |rows|)
  }

  /** The total of the first `n` rows. */
  ghost function SumTo<T>(rows: seq<T>, weight: T -> int, n: nat): int
    requires n <= |rows|
  {
    if n == 0 then 0 else SumTo(rows, weight, n - 1) + weight(rows[n - 1])
  }

  /** Two totals compare as their rows do, one by one. */
  lemma {:induction false} SumToLe<T, U>(xs: seq<T>, f: T -> int, ys: seq<U>, g: U -> int, n: nat)
    requires n <= |xs| && n <= |ys|
    requires forall i :: 0 <= i < n ==> f(xs[i]) <= g(ys[i])
    ensures SumTo(xs, f, n) <= SumTo(ys, g, n)
  {
    if n > 0 {
      SumToLe(xs, f, ys, g, n - 1);
    }
  }

  lemma SumToSame<T, U>(xs: seq<T>, f: T -> int, ys: seq<U>, g: U -> int, n: nat)
    requires n <= |xs| && n <= |ys|
    requires forall i :: 0 <= i < n ==> f(xs[i]) == g(ys[i])
    ensures SumTo(xs, f, n) == SumTo(ys, g, n)
  {}

  lemma SumLe<T, U>(xs: seq<T>, f: T -> int, ys: seq<U>, g: U -> int)
    requires |xs| == |ys|
    requires forall i :: 0 <= i < |xs| ==> f(xs[i]) <= g(ys[i])
    ensures Sum(xs, f) <= Sum(ys, g)
  {
    SumToLe(xs, f, ys, g, |xs|);
  }

  lemma SumSame<T, U>(xs: seq<T>, f: T -> int, ys: seq<U>, g: U -> int)
    requires |xs| == |ys|
    requires forall i :: 0 <= i < |xs| ==> f(xs[i]) == g(ys[i])
    ensures Sum(xs, f) == Sum(ys, g)
  {
    SumToSame(xs, f, ys, g, |xs|);
  }

  lemma SumEmpty<T>(weight: T -> int)
    ensures Sum([], weight) == 0
  {}

  lemma SumAppend<T>(rows: seq<T>, row: T, weight: T -> int)
    ensures Sum(rows + [row], weight) == Sum(rows, weight) + weight(row)
  {
    SumToSame(rows + [row], weight, rows, weight, |rows|);
  }

  lemma {:induction false} SumUpdate<T>(rows: seq<T>, i: nat, row: T, weight: T -> int)
    requires i < |rows|
    ensures Sum(rows[i := row], weight) == Sum(rows, weight) - weight(rows[i]) + weight(row)
  {
    SumToUpdate(rows, i, row, weight, |rows|);
  }

  lemma {:induction false} SumToUpdate<T>(rows: seq<T>, i: nat, row: T, weight: T -> int, n: nat)
    requires i < n <= |rows|
    ensures SumTo(rows[i := row], weight, n) == SumTo(rows, weight, n) - weight(rows[i]) + weight(row)
  {
    if i == n - 1 {
      SumToSame(rows[i := row], weight, rows, weight, n - 1);
    } else {
      SumToUpdate(rows, i, row, weight, n - 1);
    }
  }

  lemma {:induction false} SumToPlus<T>(rows: seq<T>, f: T -> int, g: T -> int, both: T -> int, n: nat)
    requires n <= |rows|
    requires forall i :: 0 <= i < n ==> both(rows[i]) == f(rows[i]) + g(rows[i])
    ensures SumTo(rows, both, n) == SumTo(rows, f, n) + SumTo(rows, g, n)
  {
    if n > 0 {
      SumToPlus(rows, f, g, both, n - 1);
    }
  }

  lemma SumPlus<T>(rows: seq<T>, f: T -> int, g: T -> int, both: T -> int)
    requires forall i :: 0 <= i < |rows| ==> both(rows[i]) == f(rows[i]) + g(rows[i])
    ensures Sum(rows, both) == Sum(rows, f) + Sum(rows, g)
  {
    SumToPlus(rows, f, g, both, |rows|);
  }

  lemma {:induction false} SumToZero<T>(rows: seq<T>, weight: T -> int, n: nat)
    requires n <= |rows|
    requires forall i :: 0 <= i < n ==> weight(rows[i]) == 0
    ensures SumTo(rows, weight, n) == 0
  {
    if n > 0 {
      SumToZero(rows, weight, n - 1);
    }
  }

  lemma SumZero<T>(rows: seq<T>, weight: T -> int)
    requires forall i :: 0 <= i < |rows| ==> weight(rows[i]) == 0
    ensures Sum(rows, weight) == 0
  {
    SumToZero(rows, weight, |rows|);
  }

  lemma {:induction false} SumToNonNegative<T>(rows: seq<T>, weight: T -> int, n: nat)
    requires n <= |rows|
    requires forall i :: 0 <= i < n ==> 0 <= weight(rows[i])
    ensures 0 <= SumTo(rows, weight, n)
  {
    if n > 0 {
      SumToNonNegative(rows, weight, n - 1);
    }
  }

  lemma SumNonNegative<T>(rows: seq<T>, weight: T -> int)
    requires forall i :: 0 <= i < |rows| ==> 0 <= weight(rows[i])
    ensures 0 <= Sum(rows, weight)
  {
    SumToNonNegative(rows, weight, |rows|);
  }
}
