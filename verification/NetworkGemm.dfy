/**
 From object positions to numbers. The contents of the FIFO objects and the kernel are arbitrary; the hypothesis that
 every object carries the part of A or B it is meant to carry is `Supplied`, and what the kernel adds where is `Adds`.
 C is what the transfers of module Memory put into memory.
 */
module NetworkGemm {
  import opened Arith
  import opened CoreBody
  import opened Sums
  import opened Grid
  import opened GridDeadlock
  import opened GridInvariant
  import opened GridRuns
  import opened Memory
  import opened Schedule
  import opened Taps

  /** K columns of A one L2 object holds. */
  const MTK: nat := 512

  /** Shapes a generator can tile exactly: whole blocks of C tiles, whole L2 objects along K, and tiles that
      split into `inner` row blocks. */
  ghost predicate Tileable(sh: Shape, inner: nat) {
    Divisible(sh) && Sliced(sh, inner)
  }

  /** Whole L2 objects along K, whole K slices in them, whole row blocks in a tile. */
  predicate Sliced(sh: Shape, inner: nat) {
    && sh.K > 0 && sh.k > 0 && sh.m > 0 && sh.n > 0 && sh.rows > 0 && sh.cols > 0 && inner > 0
    && sh.m % inner == 0 && sh.K % MTK == 0 && MTK % sh.k == 0
  }

  /** The network a generator declares: `inner` A objects per B object, inner * mtk / k of them per L2 object. */
  function Network(sh: Shape, inner: nat, plan: Plan): Config
    requires sh.m > 0 && sh.rows > 0 && sh.n > 0 && sh.cols > 0 && sh.k > 0
  {
    Config(sh.rows, sh.cols, Groups(sh), sh.K / sh.k, inner, inner * (MTK / sh.k), sh.K / MTK,
           Expand(plan, sh.rows, sh.cols))
  }

  lemma KSlices(sh: Shape)
    requires sh.K > 0 && sh.k > 0 && sh.K % MTK == 0 && MTK % sh.k == 0
    ensures sh.K / sh.k > 0 && sh.K / sh.k * sh.k == sh.K && sh.K / MTK * (MTK / sh.k) == sh.K / sh.k
  {
    NestedSlices(sh.K, sh.k, sh.K / MTK, MTK / sh.k);
  }

  lemma NestedSlices(K: nat, k: nat, a: nat, b: nat)
    requires K > 0 && k > 0 && K == a * (b * k)
    ensures K / k == a * b > 0 && K / k * k == K
  {
    assert a * (b * k) == a * b * k;
    DivMod(a * b, 0, k);
    assert a * b == 0 ==> a * b * k == 0;
  }

  /**
   The sizes in plain terms: a group's A task delivers K / 512 L2 objects, each is cut into one L1 object per row block
   and K slice of its 512 columns, and a core multiplies one B object per K slice with one A object per row block.
   */
  lemma NetworkSizes(sh: Shape, inner: nat, plan: Plan)
    requires Tileable(sh, inner)
    ensures var cfg := Network(sh, inner, plan);
      && cfg.rows == sh.rows && cfg.cols == sh.cols && cfg.inner == inner
      && cfg.parts * 512 == sh.K && cfg.chunks * sh.k == inner * 512 && cfg.steps * sh.k == sh.K
      && cfg.groups * (sh.rows * sh.m) * (sh.cols * sh.n) == sh.M * sh.N
  {
    KSlices(sh);
    DivisibleSizes(sh);
    assert inner * (MTK / sh.k) * sh.k == inner * (MTK / sh.k * sh.k);
    WholeBlocks(RowTiles(sh), ColTiles(sh), sh.rows, sh.m, sh.cols, sh.n);
  }

  lemma WholeBlocks(a: nat, b: nat, r: nat, m: nat, c: nat, n: nat)
    ensures a * b * (r * m) * (c * n) == a * r * m * (b * c * n)
  {
    assert a * r * m == a * (r * m) && b * c * n == b * (c * n);
    assert a * b * (r * m) * (c * n) == a * (r * m) * (b * (c * n));
  }

  /** The A supply of a group matches what its cores consume. */
  lemma NetworkWellformed(sh: Shape, inner: nat, plan: Plan, window: nat)
    requires Tileable(sh, inner) && Orderly(plan, window) && Starts(plan) == Groups(sh)
    ensures Wellformed(Network(sh, inner, plan))
  {
    Supply(sh, inner);
    OrderlyIsSchedule(plan, window, sh.rows, sh.cols);
  }

  lemma Supply(sh: Shape, inner: nat)
    requires Tileable(sh, inner)
    ensures sh.K / sh.k > 0 && inner * (MTK / sh.k) > 0 && sh.K / MTK * (inner * (MTK / sh.k)) == sh.K / sh.k * inner
  {
    KSlices(sh);
    var a, b := sh.K / MTK, MTK / sh.k;
    assert b > 0 by { assert MTK == b * sh.k; }
    Multiple(inner, b);
    assert a * (inner * b) == a * b * inner;
  }

  function Products(A: Matrix, B: Matrix, X: int, Y: int): int -> real { z => A(X, z) * B(z, Y) }

  /** Entry (X, Y) of A B. */
  function Entry(K: nat, A: Matrix, B: Matrix, X: int, Y: int): real { Sum(K, Products(A, B, X, Y)) }

  lemma TileableSizes(sh: Shape, inner: nat)
    requires Tileable(sh, inner)
    ensures sh.m / inner > 0 && sh.K / sh.k > 0 && ColTiles(sh) > 0 && sh.N / sh.n > 0
  {
    DivisibleSizes(sh);
    KSlices(sh);
    Multiple(ColTiles(sh), sh.cols);
    assert sh.m == sh.m / inner * inner;
  }

  // ---- what the objects are meant to carry ----

  /** A object j of K step t of group g: element (x, z) of row block j of its tap, in K slice t. */
  ghost predicate CarriesA(sh: Shape, inner: nat, ly: Tiling, A: Matrix, a: Objects, row: nat,
                           g: nat, t: nat, j: nat, x: nat, z: nat)
    requires inner > 0 && sh.k > 0 && sh.n > 0 && sh.cols > 0 && ColTiles(sh) > 0
  {
    Element(a((g * (sh.K / sh.k) + t) * inner + j), ly.a(x, z))
    == A(ATap(sh, g, row) * sh.m + (j * (sh.m / inner) + x), t * sh.k + z)
  }

  /** The B object of K step t of group g: element (z, y) of K slice t, in the columns of its tap. */
  ghost predicate CarriesB(sh: Shape, ly: Tiling, B: Matrix, b: Objects, col: nat, g: nat, t: nat, z: nat, y: nat)
    requires sh.k > 0 && sh.n > 0 && sh.cols > 0 && ColTiles(sh) > 0
  {
    Element(b(g * (sh.K / sh.k) + t), ly.b(z, y)) == B(t * sh.k + z, BTap(sh, g, col) * sh.n + y)
  }

  ghost predicate SuppliedA(sh: Shape, inner: nat, ly: Tiling, A: Matrix, a: Objects, row: nat)
    requires inner > 0 && sh.k > 0 && sh.n > 0 && sh.cols > 0 && ColTiles(sh) > 0
  {
    forall g: nat, t: nat, j: nat, x: nat, z: nat :: t < sh.K / sh.k && j < inner && x < sh.m / inner && z < sh.k ==>
      CarriesA(sh, inner, ly, A, a, row, g, t, j, x, z)
  }

  ghost predicate SuppliedB(sh: Shape, ly: Tiling, B: Matrix, b: Objects, col: nat)
    requires sh.k > 0 && sh.n > 0 && sh.cols > 0 && ColTiles(sh) > 0
  {
    forall g: nat, t: nat, z: nat, y: nat :: t < sh.K / sh.k && z < sh.k && y < sh.n ==> CarriesB(sh, ly, B, b, col, g, t, z, y)
  }

  /** Every channel's objects carry what they are meant to. */
  ghost predicate Supplied(sh: Shape, inner: nat, w: World)
    requires Tileable(sh, inner)
  {
    TileableSizes(sh, inner);
    && (forall row: nat :: row < sh.rows ==> SuppliedA(sh, inner, w.ly, w.A, w.a(row), row))
    && (forall col: nat :: col < sh.cols ==> SuppliedB(sh, w.ly, w.B, w.b(col), col))
  }

  /** The kernel multiplies (m / inner) x k objects with k x n objects and adds without rounding, where `adds` says. */
  ghost predicate Multiplies(sh: Shape, inner: nat, adds: Adds, w: World)
    requires inner > 0
  {
    Exact(w.kernel, w.ly, adds, sh.m / inner, sh.k, sh.n, sh.m * sh.n)
  }

  // ---- one round ----

  /** Partial inner product over K slice t. */
  function Slice(k: nat, A: Matrix, B: Matrix, X: int, Y: int, t: int): real { Sum(k, SliceTerms(k, A, B, X, Y, t)) }

  function SliceTerms(k: nat, A: Matrix, B: Matrix, X: int, Y: int, t: int): int -> real {
    z => A(X, t * k + z) * B(t * k + z, Y)
  }

  function Slices(k: nat, A: Matrix, B: Matrix, X: int, Y: int): int -> real { t => Slice(k, A, B, X, Y, t) }

  lemma EntryBySlices(steps: nat, k: nat, A: Matrix, B: Matrix, X: int, Y: int)
    ensures Entry(steps * k, A, B, X, Y) == Sum(steps, Slices(k, A, B, X, Y))
  {
    var f := Products(A, B, X, Y);
    SumBlocks(steps, k, f);
    forall t | 0 <= t < steps ensures Sum(k, j => f(t * k + j)) == Slices(k, A, B, X, Y)(t) {
      SumCongruent(k, j => f(t * k + j), SliceTerms(k, A, B, X, Y, t));
    }
    SumCongruent(steps, t => Sum(k, j => f(t * k + j)), Slices(k, A, B, X, Y));
  }

  /** Pair number t * inner + j of a round: A object j of step t with the step's B object. */
  lemma PairOfRound(cfg: Config, g: nat, t: nat, j: nat)
    requires cfg.inner > 0 && t < cfg.steps && j < cfg.inner
    ensures 0 <= t * cfg.inner + j < |RoundLog(cfg, g)| == cfg.steps * cfg.inner
    ensures 0 <= (g * cfg.steps + t) * cfg.inner && 0 <= g * cfg.steps
    ensures RoundLog(cfg, g)[t * cfg.inner + j] == ((g * cfg.steps + t) * cfg.inner + j, g * cfg.steps + t)
  {
    DigitsBelow(t, cfg.steps, j, cfg.inner);
    MulMonotone(0, g, cfg.steps);
    MulMonotone(0, g * cfg.steps + t, cfg.inner);
    DivMod(t, j, cfg.inner);
    assert (g * cfg.steps + t) * cfg.inner == g * cfg.steps * cfg.inner + t * cfg.inner;
  }

  /** What one call adds to one address: a K slice of the product element it selects from its row block. */
  function Slab(sh: Shape, h: nat, A: Matrix, B: Matrix, X: int, Y: int, t: int, j: int, p: Part): real {
    if InBlock(p, h, sh.n) then Slice(sh.k, A, B, X + (j * h + p.x), Y + p.y, t) else 0.0
  }

  /** A pair's A and B objects belong to the same K step and to the round's tile: they add that slice of one row block. */
  lemma {:induction false} PairAdds(sh: Shape, inner: nat, ly: Tiling, A: Matrix, B: Matrix, a: Objects, b: Objects,
                 g: nat, t: nat, j: nat, row: nat, col: nat, p: Part, atA: nat, atB: nat)
    requires Sliced(sh, inner) && sh.K / sh.k > 0 && ColTiles(sh) > 0
    requires SuppliedA(sh, inner, ly, A, a, row) && SuppliedB(sh, ly, B, b, col)
    requires t < sh.K / sh.k && j < inner && atB == g * (sh.K / sh.k) + t && atA == atB * inner + j
    ensures Added(ly, a(atA), b(atB), sh.m / inner, sh.k, sh.n, p)
         == Slab(sh, sh.m / inner, A, B, ATap(sh, g, row) * sh.m, BTap(sh, g, col) * sh.n, t, j, p)
  {
    if InBlock(p, sh.m / inner, sh.n) {
      var X, Y := ATap(sh, g, row) * sh.m + (j * (sh.m / inner) + p.x), BTap(sh, g, col) * sh.n + p.y;
      forall z: nat | z < sh.k ensures KernelTerms(ly, a(atA), b(atB), p.x, p.y)(z) == SliceTerms(sh.k, A, B, X, Y, t)(z) {
        PairTerm(sh, inner, ly, A, B, a, b, g, t, j, row, col, p.x, p.y, z);
      }
      SumCongruent(sh.k, KernelTerms(ly, a(atA), b(atB), p.x, p.y), SliceTerms(sh.k, A, B, X, Y, t));
    }
  }

  lemma {:induction false} PairTerm(sh: Shape, inner: nat, ly: Tiling, A: Matrix, B: Matrix, a: Objects, b: Objects,
                                    g: nat, t: nat, j: nat, row: nat, col: nat, x: nat, y: nat, z: nat)
    requires inner > 0 && sh.k > 0 && sh.n > 0 && sh.cols > 0 && ColTiles(sh) > 0
    requires SuppliedA(sh, inner, ly, A, a, row) && SuppliedB(sh, ly, B, b, col)
    requires t < sh.K / sh.k && j < inner && x < sh.m / inner && y < sh.n && z < sh.k
    ensures var atB := g * (sh.K / sh.k) + t;
      KernelTerms(ly, a(atB * inner + j), b(atB), x, y)(z)
      == SliceTerms(sh.k, A, B, ATap(sh, g, row) * sh.m + (j * (sh.m / inner) + x), BTap(sh, g, col) * sh.n + y, t)(z)
  {
    assert CarriesA(sh, inner, ly, A, a, row, g, t, j, x, z) && CarriesB(sh, ly, B, b, col, g, t, z, y);
  }

  /** What the calls of a round add to address e, by K step and row block; `first` is the number of its first call. */
  function Slabs(sh: Shape, inner: nat, adds: Adds, A: Matrix, B: Matrix, X: int, Y: int, first: int, e: int): (int, int) -> real
    requires inner > 0
  {
    (t, j) => Slab(sh, sh.m / inner, A, B, X, Y, t, j, adds(first + t * inner + j, e))
  }

  function FirstCall(sh: Shape, inner: nat, g: int): int
    requires sh.k > 0
  {
    g * (sh.K / sh.k) * inner
  }

  /** What a round leaves at an address of the tile. */
  function RoundValue(sh: Shape, inner: nat, adds: Adds, A: Matrix, B: Matrix, g: int, row: int, col: int, e: int): real
    requires inner > 0 && sh.k > 0 && sh.n > 0 && sh.cols > 0 && ColTiles(sh) > 0
  {
    var X, Y := ATap(sh, g, row) * sh.m, BTap(sh, g, col) * sh.n;
    SumGrid(sh.K / sh.k, inner, Slabs(sh, inner, adds, A, B, X, Y, FirstCall(sh, inner, g), e))
  }

  /** The round's tile of the step machine is this sum, over K steps and row blocks. */
  lemma RoundLeaves(sh: Shape, inner: nat, plan: Plan, adds: Adds, w: World, g: nat, row: nat, col: nat, e: int)
    requires Sliced(sh, inner) && sh.K / sh.k > 0 && ColTiles(sh) > 0 && 0 <= e < sh.m * sh.n
    requires Multiplies(sh, inner, adds, w)
    requires SuppliedA(sh, inner, w.ly, w.A, w.a(row), row) && SuppliedB(sh, w.ly, w.B, w.b(col), col)
    ensures Element(RoundTile(w.kernel, w.a(row), w.b(col), Network(sh, inner, plan), g, sh.m * sh.n), e)
         == RoundValue(sh, inner, adds, w.A, w.B, g, row, col, e)
  {
    var log := RoundLog(Network(sh, inner, plan), g);
    var h := sh.m / inner;
    AccumulatesSum(w.kernel, w.ly, adds, w.a(row), w.b(col), log, |log|, h, sh.k, sh.n, sh.m * sh.n, e);
    var f := Slabs(sh, inner, adds, w.A, w.B, ATap(sh, g, row) * sh.m, BTap(sh, g, col) * sh.n, FirstCall(sh, inner, g), e);
    var term := LogAdded(w.ly, adds, w.a(row), w.b(col), log, h, sh.k, sh.n, e);
    forall t, j | 0 <= t < sh.K / sh.k && 0 <= j < inner ensures f(t, j) == term(t * inner + j) {
      RoundTerm(sh, inner, plan, adds, w, g, row, col, e, t, j);
    }
    SumGridFlat(sh.K / sh.k, inner, f, term);
    PairCount(sh, inner, plan, g);
  }

  lemma PairCount(sh: Shape, inner: nat, plan: Plan, g: nat)
    requires Sliced(sh, inner)
    ensures |RoundLog(Network(sh, inner, plan), g)| == sh.K / sh.k * inner
  {}

  /** What pair t * inner + j of the round adds. */
  lemma RoundTerm(sh: Shape, inner: nat, plan: Plan, adds: Adds, w: World, g: nat, row: nat, col: nat, e: int, t: nat, j: nat)
    requires Sliced(sh, inner) && sh.K / sh.k > 0 && ColTiles(sh) > 0 && t < sh.K / sh.k && j < inner
    requires SuppliedA(sh, inner, w.ly, w.A, w.a(row), row) && SuppliedB(sh, w.ly, w.B, w.b(col), col)
    ensures var log := RoundLog(Network(sh, inner, plan), g);
      LogAdded(w.ly, adds, w.a(row), w.b(col), log, sh.m / inner, sh.k, sh.n, e)(t * inner + j)
         == Slabs(sh, inner, adds, w.A, w.B, ATap(sh, g, row) * sh.m, BTap(sh, g, col) * sh.n, FirstCall(sh, inner, g), e)(t, j)
  {
    var atB := g * (sh.K / sh.k) + t;
    PairOfRound(Network(sh, inner, plan), g, t, j);
    assert atB * inner + j == FirstCall(sh, inner, g) + t * inner + j;
    PairAdds(sh, inner, w.ly, w.A, w.B, w.a(row), w.b(col), g, t, j, row, col, adds(atB * inner + j, e), atB * inner + j, atB);
  }

  // ---- C after a run ----

  ghost predicate HoldsProduct(sh: Shape, read: Walk, w: World, s: State)
    requires Positive(sh)
  {
    forall X: nat, Y: nat :: X < sh.M && Y < sh.N ==> CMemory(sh, read, w, s, X, Y) == Entry(sh.K, w.A, w.B, X, Y)
  }

  /** In memory is what the rounds left, wherever the kernel put it. */
  ghost predicate HoldsRounds(sh: Shape, inner: nat, adds: Adds, read: Walk, w: World, s: State)
    requires Tileable(sh, inner)
  {
    TileableSizes(sh, inner);
    forall X: nat, Y: nat :: X < sh.M && Y < sh.N ==> HoldsRound(sh, inner, adds, read, w, s, X, Y)
  }

  ghost predicate HoldsRound(sh: Shape, inner: nat, adds: Adds, read: Walk, w: World, s: State, X: nat, Y: nat)
    requires Positive(sh) && inner > 0 && ColTiles(sh) > 0
  {
    var p := Source(sh, X, Y);
    CMemory(sh, read, w, s, X, Y) == RoundValue(sh, inner, adds, w.A, w.B, p.g, p.row, p.col, read(p.x * sh.n + p.y))
  }

  lemma DoneElement(sh: Shape, inner: nat, plan: Plan, adds: Adds, read: Walk, w: World, X: nat, Y: nat)
    requires Tileable(sh, inner) && X < sh.M && Y < sh.N && Within(read, sh.m * sh.n) && ColTiles(sh) > 0
    requires Multiplies(sh, inner, adds, w) && Supplied(sh, inner, w)
    ensures HoldsRound(sh, inner, adds, read, w, Done(Network(sh, inner, plan)), X, Y)
  {
    TileableSizes(sh, inner);
    SourceWrites(sh, X, Y);
    var p := Source(sh, X, Y);
    MemoryElement(sh, read, w, Done(Network(sh, inner, plan)), X, Y);
    DigitsBelow(p.x, sh.m, p.y, sh.n);
    RoundLeaves(sh, inner, plan, adds, w, p.g, p.row, p.col, read(p.x * sh.n + p.y));
  }

  lemma DoneRounds(sh: Shape, inner: nat, plan: Plan, adds: Adds, read: Walk, w: World)
    requires Tileable(sh, inner) && Within(read, sh.m * sh.n) && Multiplies(sh, inner, adds, w) && Supplied(sh, inner, w)
    ensures AllWritten(sh, Done(Network(sh, inner, plan)))
    ensures HoldsRounds(sh, inner, adds, read, w, Done(Network(sh, inner, plan)))
  {
    TileableSizes(sh, inner);
    forall X: nat, Y: nat | X < sh.M && Y < sh.N
      ensures HoldsRound(sh, inner, adds, read, w, Done(Network(sh, inner, plan)), X, Y)
    {
      DoneElement(sh, inner, plan, adds, read, w, X, Y);
    }
  }

  // ---- the supply of A ----

  /**
   The single-row generator's A walk has m * k elements, one L1 object. Were it not restarted for every K slice of an
   L2 object, a run that can go no further would be complete only for L2 objects of a single slice.
   */
  lemma SingleWalkCompletesIff(sh: Shape, plan: Plan, window: nat, cfg: Config, states: seq<State>, labels: seq<Label>)
    requires Tileable(sh, 1) && Orderly(plan, window) && Starts(plan) == Groups(sh)
    requires cfg == Network(sh, 1, plan).(chunks := 1)
    requires Run(cfg, states, labels) && Stuck(cfg, states[|labels|])
    ensures states[|labels|] == Done(cfg) <==> sh.k == 512
  {
    SingleWalkSane(sh, plan, window);
    SingleWalkMatchedIff(sh, plan);
    CompletesIffMatched(cfg, states, labels);
  }

  lemma SingleWalkSane(sh: Shape, plan: Plan, window: nat)
    requires Tileable(sh, 1) && Orderly(plan, window) && Starts(plan) == Groups(sh)
    ensures Sane(Network(sh, 1, plan).(chunks := 1)) && Groups(sh) > 0
  {
    NetworkWellformed(sh, 1, plan, window);
    DivisibleSizes(sh);
    Multiple(RowTiles(sh), ColTiles(sh));
  }

  lemma SingleWalkMatchedIff(sh: Shape, plan: Plan)
    requires Tileable(sh, 1)
    ensures Matched(Network(sh, 1, plan).(chunks := 1)) <==> sh.k == 512
  {
    OneSliceIff(sh);
  }

  lemma OneSliceIff(sh: Shape)
    requires sh.K > 0 && sh.k > 0 && sh.K % MTK == 0 && MTK % sh.k == 0
    ensures sh.K / MTK == sh.K / sh.k <==> sh.k == 512
  {
    KSlices(sh);
    var a, b := sh.K / MTK, MTK / sh.k;
    assert MTK == b * sh.k && a * MTK == sh.K;
    if a * b == a { assert a * (b - 1) == 0; assert b == 1; }
  }
}
