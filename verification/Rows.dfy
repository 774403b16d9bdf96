/** Row-major buffers as the concatenation of their rows. */
module Rows {
  import opened Arith

  function Flat<T>(n: nat, row: nat -> seq<T>): seq<T> {
    if n == 0 then [] else Flat(n - 1, row) + row(n - 1)
  }

  lemma {:induction false} FlatSize<T>(n: nat, width: nat, row: nat -> seq<T>)
    requires forall i: nat :: i < n ==> |row(i)| == width
    ensures |Flat(n, row)| == n * width
  {
    if n > 0 {
      FlatSize(n - 1, width, row);
      assert n * width == (n - 1) * width + width;
    }
  }

  /** Element k of row m lies at m * width + k. */
  lemma {:induction false} FlatAt<T>(n: nat, width: nat, row: nat -> seq<T>, m: nat, k: nat)
    requires m < n && k < width && forall i: nat :: i < n ==> |row(i)| == width
    ensures 0 <= m * width + k < |Flat(n, row)| && Flat(n, row)[m * width + k] == row(m)[k]
  {
    FlatSize(n - 1, width, row);
    if m < n - 1 {
      FlatAt(n - 1, width, row, m, k);
    }
  }

  /** `values` written over `before` from position dst on, up to the n-th. */
  function Splice<T>(before: seq<T>, dst: nat, values: seq<T>, n: nat): seq<T>
    requires n <= |values| && dst + n <= |before|
  {
    before[..dst] + values[..n] + before[dst + n..]
  }

  lemma SpliceStep<T>(before: seq<T>, dst: nat, values: seq<T>, n: nat)
    requires n < |values| && dst + n < |before|
    ensures Splice(before, dst, values, n)[dst + n := values[n]] == Splice(before, dst, values, n + 1)
  {}

  lemma SplicePair<T>(before: seq<T>, dst: nat, values: seq<T>, n: nat)
    requires n + 1 < |values| && dst + n + 1 < |before|
    ensures Splice(before, dst, values, n)[dst + n := values[n]][dst + n + 1 := values[n + 1]]
         == Splice(before, dst, values, n + 2)
  {
    SpliceStep(before, dst, values, n);
    SpliceStep(before, dst, values, n + 1);
  }

  /** The next row of a buffer lies inside it. */
  lemma RowInside(m: nat, rows: nat, width: nat, size: nat)
    requires m < rows && rows * width <= size
    ensures 0 <= m * width <= m * width + width <= size && (m + 1) * width == m * width + width
  {
    MulMonotone(0, m, width);
    MulMonotone(m + 1, rows, width);
  }

  /** Writing row m after rows 0..m-1. */
  lemma FlatStep<T>(before: seq<T>, m: nat, width: nat, row: nat -> seq<T>)
    requires (forall i: nat :: i <= m ==> |row(i)| == width) && 0 <= m * width <= m * width + width <= |before|
    ensures (m + 1) * width == m * width + width
    ensures var partial := Flat(m, row) + before[m * width..];
      |partial| == |before| && Splice(partial, m * width, row(m), width) == Flat(m + 1, row) + before[m * width + width..]
  {
    FlatSize(m, width, row);
    var partial := Flat(m, row) + before[m * width..];
    assert partial[..m * width] == Flat(m, row);
    assert partial[m * width + width..] == before[m * width + width..];
    assert row(m)[..width] == row(m);
  }

  /** Rows 0..i-1 of a buffer are in place. */
  ghost predicate Built<T>(w: seq<T>, i: nat, width: nat, row: nat -> seq<T>) {
    && (forall j: nat {:trigger row(j)} :: |row(j)| == width)
    && 0 <= i * width <= |w| && w[..i * width] == Flat(i, row)
  }

  /** Writing row i puts one more row in place. */
  lemma BuildStep<T>(w: seq<T>, w': seq<T>, i: nat, width: nat, row: nat -> seq<T>)
    requires Built(w, i, width, row) && i * width + width <= |w| && w' == Splice(w, i * width, row(i), width)
    ensures Built(w', i + 1, width, row)
  {
    assert (i + 1) * width == i * width + width;
    assert row(i)[..width] == row(i);
    assert w'[..i * width + width] == w[..i * width] + row(i);
  }

  lemma BuiltNone<T>(w: seq<T>, width: nat, row: nat -> seq<T>)
    requires forall j: nat {:trigger row(j)} :: |row(j)| == width
    ensures Built(w, 0, width, row)
  {}

  lemma BuiltAll<T>(w: seq<T>, n: nat, width: nat, row: nat -> seq<T>)
    requires Built(w, n, width, row) && |w| == n * width
    ensures w == Flat(n, row)
  {
    assert w[..n * width] == w;
  }
}
