/**
 What a kernel without a row offset leaves: every call adds to the tile's first m / inner rows, so all row blocks of the
 product end up in the first one.
 */
module Folding {
  import opened Arith
  import opened CoreBody
  import opened Sums
  import opened Grid
  import opened GridDeadlock
  import opened Memory
  import opened NetworkGemm
  import opened Selection
  import opened Schedule
  import opened Taps

  ghost predicate InFirstBlock(sh: Shape, inner: nat, adds: Adds, read: Walk, call: int, x: nat, y: nat)
    requires inner > 0
  {
    var p := adds(call, read(x * sh.n + y));
    if x < sh.m / inner then p == Part(x, y) else !InBlock(p, sh.m / inner, sh.n)
  }

  /** In every call row x of the A object's product goes to row x of the tile. */
  ghost predicate OffsetFree(sh: Shape, inner: nat, adds: Adds, read: Walk)
    requires Tileable(sh, inner)
  {
    forall call: nat, x: nat, y: nat :: call < FirstCall(sh, inner, Groups(sh)) && x < sh.m && y < sh.n ==>
      InFirstBlock(sh, inner, adds, read, call, x, y)
  }

  /** Rows X, X + h, X + 2h, ... of the product, in column Y. */
  function RowEntries(K: nat, A: Matrix, B: Matrix, X: int, h: int, Y: int): int -> real { j => Entry(K, A, B, X + j * h, Y) }

  /** All row blocks of the product folded into the first one, and zeros below. */
  function Folded(sh: Shape, inner: nat, A: Matrix, B: Matrix, X: int, x: int, Y: int): real
    requires inner > 0
  {
    if x < sh.m / inner then Sum(inner, RowEntries(sh.K, A, B, X, sh.m / inner, Y)) else 0.0
  }

  lemma FoldedSlab(sh: Shape, inner: nat, adds: Adds, read: Walk, A: Matrix, B: Matrix, X: int, Y: int,
                   g: nat, x: nat, y: nat, t: nat, j: nat)
    requires Tileable(sh, inner) && OffsetFree(sh, inner, adds, read)
    requires g < Groups(sh) && x < sh.m && y < sh.n && t < sh.K / sh.k && j < inner
    ensures Slabs(sh, inner, adds, A, B, X, Y, FirstCall(sh, inner, g), read(x * sh.n + y))(t, j)
         == if x < sh.m / inner then Slice(sh.k, A, B, X + x + j * (sh.m / inner), Y + y, t) else 0.0
  {
    CallOf(sh, inner, g, t, j);
    assert InFirstBlock(sh, inner, adds, read, FirstCall(sh, inner, g) + t * inner + j, x, y);
  }

  /** A round leaves the sum of all row blocks in the first one, and zero below it. */
  lemma RoundFolds(sh: Shape, inner: nat, adds: Adds, read: Walk, A: Matrix, B: Matrix, g: nat, row: nat, col: nat, x: nat, y: nat)
    requires Tileable(sh, inner) && OffsetFree(sh, inner, adds, read) && ColTiles(sh) > 0
    requires g < Groups(sh) && x < sh.m && y < sh.n
    ensures RoundValue(sh, inner, adds, A, B, g, row, col, read(x * sh.n + y))
         == Folded(sh, inner, A, B, ATap(sh, g, row) * sh.m + x, x, BTap(sh, g, col) * sh.n + y)
  {
    var steps, h, X, Y := sh.K / sh.k, sh.m / inner, ATap(sh, g, row) * sh.m, BTap(sh, g, col) * sh.n;
    var f := Slabs(sh, inner, adds, A, B, X, Y, FirstCall(sh, inner, g), read(x * sh.n + y));
    forall t, j | 0 <= t < steps && 0 <= j < inner
      ensures f(t, j) == if x < h then Slice(sh.k, A, B, X + x + j * h, Y + y, t) else 0.0
    {
      FoldedSlab(sh, inner, adds, read, A, B, X, Y, g, x, y, t, j);
    }
    if x < h { BlocksAreEntries(sh, inner, f, A, B, X + x, h, Y + y); } else { SumGridZero(steps, inner, f); }
  }

  /** Slices of all row blocks, summed over the K steps first, are the row blocks' entries. */
  lemma BlocksAreEntries(sh: Shape, inner: nat, f: (int, int) -> real, A: Matrix, B: Matrix, X: int, h: nat, Y: int)
    requires Sliced(sh, inner)
    requires forall t, j :: 0 <= t < sh.K / sh.k && 0 <= j < inner ==> f(t, j) == Slice(sh.k, A, B, X + j * h, Y, t)
    ensures SumGrid(sh.K / sh.k, inner, f) == Sum(inner, RowEntries(sh.K, A, B, X, h, Y))
  {
    var steps := sh.K / sh.k;
    SumTranspose(steps, inner, f);
    KSlices(sh);
    forall j | 0 <= j < inner ensures ColumnSums(steps, f)(j) == RowEntries(sh.K, A, B, X, h, Y)(j) {
      EntryBySlices(steps, sh.k, A, B, X + j * h, Y);
      SumCongruent(steps, t => f(t, j), Slices(sh.k, A, B, X + j * h, Y));
    }
    SumCongruent(inner, ColumnSums(steps, f), RowEntries(sh.K, A, B, X, h, Y));
  }

  /** Memory holds, in every tile, all row blocks of the product folded into the first. */
  ghost predicate HoldsFolded(sh: Shape, inner: nat, read: Walk, w: World, s: State)
    requires Tileable(sh, inner)
  {
    forall X: nat, Y: nat :: X < sh.M && Y < sh.N ==> CMemory(sh, read, w, s, X, Y) == Folded(sh, inner, w.A, w.B, X, X % sh.m, Y)
  }

  /** Below the first row block of every tile the product is zero. */
  ghost predicate TailZero(sh: Shape, inner: nat, A: Matrix, B: Matrix)
    requires sh.m > 0 && inner > 0
  {
    forall X: nat, Y: nat :: X < sh.M && Y < sh.N && X % sh.m >= sh.m / inner ==> Entry(sh.K, A, B, X, Y) == 0.0
  }

  /** A folded tile is the product exactly when nothing had to be folded. */
  lemma FoldedIsProduct(sh: Shape, inner: nat, A: Matrix, B: Matrix, X: nat, Y: nat)
    requires Tileable(sh, inner) && X < sh.M && Y < sh.N && TailZero(sh, inner, A, B)
    ensures Folded(sh, inner, A, B, X, X % sh.m, Y) == Entry(sh.K, A, B, X, Y)
  {
    var h, f := sh.m / inner, RowEntries(sh.K, A, B, X, sh.m / inner, Y);
    if X % sh.m < h {
      forall j: nat | 0 < j < inner ensures f(j) == 0.0 {
        BlockRow(sh, inner, X, j);
        assert Entry(sh.K, A, B, X + j * h, Y) == 0.0;
      }
      SumSingle(inner, 0, f);
    }
  }

  /** Row X + j h of a row X in the first block is in block j of the same tile. */
  lemma BlockRow(sh: Shape, inner: nat, X: nat, j: nat)
    requires Tileable(sh, inner) && X < sh.M && X % sh.m < sh.m / inner && 0 < j < inner
    ensures 0 <= X + j * (sh.m / inner) < sh.M && (X + j * (sh.m / inner)) % sh.m >= sh.m / inner
  {
    var h, q, x := sh.m / inner, X / sh.m, X % sh.m;
    assert inner * h == sh.m;
    DigitsBelow(j, inner, x, h);
    MulMonotone(1, j, h);
    DivMod(q, j * h + x, sh.m);
    DivisibleSizes(sh);
    var tiles := RowTiles(sh) * sh.rows;
    DivBelow(X, tiles, sh.m);
    DigitsBelow(q, tiles, j * h + x, sh.m);
  }

  lemma FoldedElement(sh: Shape, inner: nat, adds: Adds, read: Walk, w: World, s: State, X: nat, Y: nat)
    requires Tileable(sh, inner) && OffsetFree(sh, inner, adds, read) && X < sh.M && Y < sh.N
    requires HoldsRounds(sh, inner, adds, read, w, s)
    ensures CMemory(sh, read, w, s, X, Y) == Folded(sh, inner, w.A, w.B, X, X % sh.m, Y)
  {
    TileableSizes(sh, inner);
    var p := Source(sh, X, Y);
    SourceWrites(sh, X, Y);
    TapsAgree(sh, p.g, p.row, p.col, p.x, p.y);
    assert HoldsRound(sh, inner, adds, read, w, s, X, Y);
    RoundFolds(sh, inner, adds, read, w.A, w.B, p.g, p.row, p.col, p.x, p.y);
  }

  lemma ProductIffTailZero(sh: Shape, inner: nat, read: Walk, w: World, s: State)
    requires Tileable(sh, inner) && HoldsFolded(sh, inner, read, w, s)
    ensures HoldsProduct(sh, read, w, s) <==> TailZero(sh, inner, w.A, w.B)
  {
    if TailZero(sh, inner, w.A, w.B) {
      forall X: nat, Y: nat | X < sh.M && Y < sh.N ensures CMemory(sh, read, w, s, X, Y) == Entry(sh.K, w.A, w.B, X, Y) {
        FoldedIsProduct(sh, inner, w.A, w.B, X, Y);
      }
    }
    if HoldsProduct(sh, read, w, s) {
      forall X: nat, Y: nat | X < sh.M && Y < sh.N && X % sh.m >= sh.m / inner ensures Entry(sh.K, w.A, w.B, X, Y) == 0.0 {
        assert CMemory(sh, read, w, s, X, Y) == Entry(sh.K, w.A, w.B, X, Y);
      }
    }
  }

  /** A complete run leaves the folded product in C, which is A B exactly when all row blocks but the first are zero. */
  lemma RunsFoldProduct(sh: Shape, inner: nat, plan: Plan, window: nat, cfg: Config, adds: Adds, read: Walk, w: World,
                        states: seq<State>, labels: seq<Label>)
    requires Tileable(sh, inner) && Orderly(plan, window) && Starts(plan) == Groups(sh) && Within(read, sh.m * sh.n)
    requires cfg == Network(sh, inner, plan) && Run(cfg, states, labels) && Stuck(cfg, states[|labels|])
    requires Multiplies(sh, inner, adds, w) && Supplied(sh, inner, w) && OffsetFree(sh, inner, adds, read)
    ensures AllWritten(sh, states[|labels|]) && HoldsFolded(sh, inner, read, w, states[|labels|])
    ensures HoldsProduct(sh, read, w, states[|labels|]) <==> TailZero(sh, inner, w.A, w.B)
  {
    RunsLeaveRounds(sh, inner, plan, window, cfg, adds, read, w, states, labels);
    forall X: nat, Y: nat | X < sh.M && Y < sh.N
      ensures CMemory(sh, read, w, states[|labels|], X, Y) == Folded(sh, inner, w.A, w.B, X, X % sh.m, Y)
    {
      FoldedElement(sh, inner, adds, read, w, states[|labels|], X, Y);
    }
    ProductIffTailZero(sh, inner, read, w, states[|labels|]);
  }

  /** Padding rows cost nothing: if A has data in the first row block of every tile only, C is A B. */
  lemma PaddedRowsSuffice(sh: Shape, inner: nat, A: Matrix, B: Matrix)
    requires Tileable(sh, inner)
    requires forall X: nat, z: nat :: X < sh.M && z < sh.K && X % sh.m >= sh.m / inner ==> A(X, z) == 0.0
    ensures TailZero(sh, inner, A, B)
  {
    forall X: nat, Y: nat | X < sh.M && Y < sh.N && X % sh.m >= sh.m / inner ensures Entry(sh.K, A, B, X, Y) == 0.0 {
      SumZero(sh.K, Products(A, B, X, Y));
    }
  }
}
