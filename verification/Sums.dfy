/** Finite sums of reals (inner products) and of integers (progress counters). */
module Sums {

  function Sum(n: nat, f: int -> real): real {
    if n == 0 then 0.0 else Sum(n - 1, f) + f(n - 1)
  }

  lemma {:induction false} SumCongruent(n: nat, f: int -> real, g: int -> real)
    requires forall i :: 0 <= i < n ==> f(i) == g(i)
    ensures Sum(n, f) == Sum(n, g)
  {
    if n > 0 { SumCongruent(n - 1, f, g); }
  }

  lemma {:induction false} SumConcat(n: nat, m: nat, f: int -> real)
    ensures Sum(n + m, f) == Sum(n, f) + Sum(m, i => f(n + i))
  {
    if m > 0 { SumConcat(n, m - 1, f); }
  }

  /** Cutting a range of blocks * width terms into equal blocks does not change its sum. */
  lemma {:induction false} SumBlocks(blocks: nat, width: nat, f: int -> real)
    ensures Sum(blocks * width, f) == Sum(blocks, b => Sum(width, j => f(b * width + j)))
  {
    if blocks > 0 {
      SumBlocks(blocks - 1, width, f);
      LastBlock(blocks - 1, width, f);
    }
  }

  lemma LastBlock(b: nat, width: nat, f: int -> real)
    ensures b * width >= 0 && Sum((b + 1) * width, f) == Sum(b * width, f) + Sum(width, j => f(b * width + j))
  {
    assert (b + 1) * width == b * width + width;
    SumConcat(b * width, width, f);
  }

  lemma {:induction false} SumScale(n: nat, c: real, f: int -> real, g: int -> real)
    requires forall i :: 0 <= i < n ==> g(i) == c * f(i)
    ensures Sum(n, g) == c * Sum(n, f)
  {
    if n > 0 {
      SumScale(n - 1, c, f, g);
      assert c * (Sum(n - 1, f) + f(n - 1)) == c * Sum(n - 1, f) + c * f(n - 1);
    }
  }

  /** Terms that vanish from n on do not contribute: zero padding is invisible. */
  lemma {:induction false} SumZeroTail(n: nat, m: nat, f: int -> real)
    requires n <= m
    requires forall i :: n <= i < m ==> f(i) == 0.0
    ensures Sum(m, f) == Sum(n, f)
  {
    if n < m { SumZeroTail(n, m - 1, f); }
  }

  /** A sum with one non-zero term is that term. */
  lemma {:induction false} SumSingle(n: nat, at: nat, f: int -> real)
    requires at < n
    requires forall i :: 0 <= i < n && i != at ==> f(i) == 0.0
    ensures Sum(n, f) == f(at)
  {
    if at == n - 1 { SumZeroTail(0, n - 1, f); } else { SumSingle(n - 1, at, f); }
  }

  function SumGrid(rows: nat, cols: nat, f: (int, int) -> real): real { Sum(rows, a => Sum(cols, b => f(a, b))) }

  /** A double sum over the digits of an index is the sum over the index. */
  lemma SumGridFlat(rows: nat, cols: nat, f: (int, int) -> real, h: int -> real)
    requires forall a, b :: 0 <= a < rows && 0 <= b < cols ==> f(a, b) == h(a * cols + b)
    ensures SumGrid(rows, cols, f) == Sum(rows * cols, h)
  {
    SumBlocks(rows, cols, h);
    forall a | 0 <= a < rows ensures Sum(cols, b => f(a, b)) == Sum(cols, b => h(a * cols + b)) {
      SumCongruent(cols, b => f(a, b), b => h(a * cols + b));
    }
    SumCongruent(rows, a => Sum(cols, b => f(a, b)), a => Sum(cols, b => h(a * cols + b)));
  }

  lemma {:induction false} SumAdd(n: nat, f: int -> real, g: int -> real, h: int -> real)
    requires forall i :: 0 <= i < n ==> h(i) == f(i) + g(i)
    ensures Sum(n, h) == Sum(n, f) + Sum(n, g)
  {
    if n > 0 { SumAdd(n - 1, f, g, h); }
  }

  lemma {:induction false} SumZero(n: nat, f: int -> real)
    requires forall i :: 0 <= i < n ==> f(i) == 0.0
    ensures Sum(n, f) == 0.0
  {
    if n > 0 { SumZero(n - 1, f); }
  }

  function ColumnSums(rows: nat, f: (int, int) -> real): int -> real { b => Sum(rows, a => f(a, b)) }

  /** A double sum taken column by column. */
  lemma {:induction false} SumTranspose(rows: nat, cols: nat, f: (int, int) -> real)
    ensures SumGrid(rows, cols, f) == Sum(cols, ColumnSums(rows, f))
  {
    if rows == 0 {
      SumZero(cols, ColumnSums(0, f));
    } else {
      SumTranspose(rows - 1, cols, f);
      SumAdd(cols, ColumnSums(rows - 1, f), b => f(rows - 1, b), ColumnSums(rows, f));
    }
  }

  /** A double sum with one non-zero term is that term, and without any it is zero. */
  lemma SumGridSingle(rows: nat, cols: nat, f: (int, int) -> real, a: nat, b: nat)
    requires a < rows && b < cols
    requires forall i, j :: 0 <= i < rows && 0 <= j < cols && (i != a || j != b) ==> f(i, j) == 0.0
    ensures SumGrid(rows, cols, f) == f(a, b)
  {
    var sums := i => Sum(cols, j => f(i, j));
    forall i | 0 <= i < rows && i != a ensures sums(i) == 0.0 { SumZero(cols, j => f(i, j)); }
    SumSingle(cols, b, j => f(a, j));
    SumSingle(rows, a, sums);
  }

  lemma SumGridZero(rows: nat, cols: nat, f: (int, int) -> real)
    requires forall i, j :: 0 <= i < rows && 0 <= j < cols ==> f(i, j) == 0.0
    ensures SumGrid(rows, cols, f) == 0.0
  {
    var sums := i => Sum(cols, j => f(i, j));
    forall i | 0 <= i < rows ensures sums(i) == 0.0 { SumZero(cols, j => f(i, j)); }
    SumZero(rows, sums);
  }

  function Abs(x: real): real { if x < 0.0 then -x else x }

  /** Termwise error bounds add up. */
  lemma {:induction false} SumAbsBound(n: nat, f: int -> real, g: int -> real, e: int -> real)
    requires forall i :: 0 <= i < n ==> Abs(f(i) - g(i)) <= e(i)
    ensures Abs(Sum(n, f) - Sum(n, g)) <= Sum(n, e)
  {
    if n > 0 { SumAbsBound(n - 1, f, g, e); }
  }

  function Total(n: nat, f: int -> int): int {
    if n == 0 then 0 else Total(n - 1, f) + f(n - 1)
  }

  lemma {:induction false} TotalCongruent(n: nat, f: int -> int, g: int -> int)
    requires forall i :: 0 <= i < n ==> f(i) == g(i)
    ensures Total(n, f) == Total(n, g)
  {
    if n > 0 { TotalCongruent(n - 1, f, g); }
  }

  lemma {:induction false} TotalChange(n: nat, f: int -> int, g: int -> int, at: nat)
    requires at < n
    requires forall i :: 0 <= i < n && i != at ==> f(i) == g(i)
    ensures Total(n, g) == Total(n, f) + g(at) - f(at)
  {
    if at == n - 1 { TotalCongruent(n - 1, f, g); } else { TotalChange(n - 1, f, g, at); }
  }

  lemma {:induction false} TotalAtMost(n: nat, f: int -> int, bound: int)
    requires forall i :: 0 <= i < n ==> f(i) <= bound
    ensures Total(n, f) <= n * bound
  {
    if n > 0 { TotalAtMost(n - 1, f, bound); assert n * bound == (n - 1) * bound + bound; }
  }

  lemma {:induction false} TotalConstant(n: nat, f: int -> int, value: int)
    requires forall i :: 0 <= i < n ==> f(i) == value
    ensures Total(n, f) == n * value
  {
    if n > 0 { TotalConstant(n - 1, f, value); assert n * value == (n - 1) * value + value; }
  }
}
