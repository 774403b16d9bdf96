/**
 Which kernels make the network compute A B. A kernel may keep C in any layout and may choose, call by call, which rows
 of the tile it adds to; exactly one choice leaves every product in memory. A kernel that always adds to the tile's
 first rows leaves the row blocks of the product folded into one.
 */
module Selection {
  import opened Arith
  import opened CoreBody
  import opened Sums
  import opened Grid
  import opened GridDeadlock
  import opened GridInvariant
  import opened GridRuns
  import opened Memory
  import opened NetworkGemm
  import opened Rows
  import opened Schedule
  import opened Taps

  /**
   What call number `call` adds to the address that memory gets element (x, y) of the tile from: the element's own row
   of the A object's product if that object is the element's row block, and nothing otherwise.
   */
  ghost predicate Selects(sh: Shape, inner: nat, adds: Adds, read: Walk, call: int, x: nat, y: nat)
    requires inner > 0 && sh.m / inner > 0
  {
    var p := adds(call, read(x * sh.n + y));
    if call % inner == x / (sh.m / inner) then p == Part(x % (sh.m / inner), y) else !InBlock(p, sh.m / inner, sh.n)
  }

  /** ... in every call of a core. */
  ghost predicate SelectsAll(sh: Shape, inner: nat, adds: Adds, read: Walk)
    requires Tileable(sh, inner)
  {
    TileableSizes(sh, inner);
    forall call: nat, x: nat, y: nat :: call < FirstCall(sh, inner, Groups(sh)) && x < sh.m && y < sh.n ==>
      Selects(sh, inner, adds, read, call, x, y)
  }

  // ---- a kernel that selects ----

  /** A round in which every call selects its own row block leaves the element of the product. */
  lemma SelectedRound(sh: Shape, inner: nat, adds: Adds, read: Walk, A: Matrix, B: Matrix,
                      g: nat, row: nat, col: nat, x: nat, y: nat)
    requires Tileable(sh, inner) && SelectsAll(sh, inner, adds, read) && ColTiles(sh) > 0
    requires g < Groups(sh) && x < sh.m && y < sh.n
    ensures RoundValue(sh, inner, adds, A, B, g, row, col, read(x * sh.n + y))
         == Entry(sh.K, A, B, ATap(sh, g, row) * sh.m + x, BTap(sh, g, col) * sh.n + y)
  {
    TileableSizes(sh, inner);
    var steps, h, X, Y := sh.K / sh.k, sh.m / inner, ATap(sh, g, row) * sh.m, BTap(sh, g, col) * sh.n;
    var f := Slabs(sh, inner, adds, A, B, X, Y, FirstCall(sh, inner, g), read(x * sh.n + y));
    BlockOf(sh, inner, x);
    SumTranspose(steps, inner, f);
    forall j | 0 <= j < inner ensures ColumnSums(steps, f)(j) == if j == x / h then Entry(sh.K, A, B, X + x, Y + y) else 0.0 {
      SelectedColumn(sh, inner, adds, read, A, B, X, Y, g, x, y, j);
    }
    SumSingle(inner, x / h, ColumnSums(steps, f));
  }

  lemma BlockOf(sh: Shape, inner: nat, x: nat)
    requires Sliced(sh, inner) && x < sh.m && sh.m / inner > 0
    ensures 0 <= x / (sh.m / inner) < inner && x / (sh.m / inner) * (sh.m / inner) + x % (sh.m / inner) == x
  {
    assert sh.m == inner * (sh.m / inner);
    DivBelow(x, inner, sh.m / inner);
  }

  /** Call number t * inner + j of group g's round. */
  lemma CallOf(sh: Shape, inner: nat, g: nat, t: nat, j: nat)
    requires Tileable(sh, inner) && g < Groups(sh) && t < sh.K / sh.k && j < inner
    ensures 0 <= FirstCall(sh, inner, g) + t * inner + j < FirstCall(sh, inner, Groups(sh))
    ensures (FirstCall(sh, inner, g) + t * inner + j) % inner == j
  {
    var steps := sh.K / sh.k;
    DigitsBelow(g, Groups(sh), t, steps);
    DigitsBelow(g * steps + t, Groups(sh) * steps, j, inner);
    assert FirstCall(sh, inner, g) + t * inner + j == (g * steps + t) * inner + j;
    DivMod(g * steps + t, j, inner);
  }

  lemma SelectedColumn(sh: Shape, inner: nat, adds: Adds, read: Walk, A: Matrix, B: Matrix, X: int, Y: int,
                       g: nat, x: nat, y: nat, j: nat)
    requires Tileable(sh, inner) && SelectsAll(sh, inner, adds, read) && sh.m / inner > 0
    requires g < Groups(sh) && x < sh.m && y < sh.n && j < inner
    ensures ColumnSums(sh.K / sh.k, Slabs(sh, inner, adds, A, B, X, Y, FirstCall(sh, inner, g), read(x * sh.n + y)))(j)
         == if j == x / (sh.m / inner) then Entry(sh.K, A, B, X + x, Y + y) else 0.0
  {
    var steps, f := sh.K / sh.k, Slabs(sh, inner, adds, A, B, X, Y, FirstCall(sh, inner, g), read(x * sh.n + y));
    forall t: nat | t < steps ensures f(t, j) == if j == x / (sh.m / inner) then Slices(sh.k, A, B, X + x, Y + y)(t) else 0.0 {
      SelectedSlab(sh, inner, adds, read, A, B, X, Y, g, x, y, t, j);
    }
    if j == x / (sh.m / inner) {
      KSlices(sh);
      EntryBySlices(steps, sh.k, A, B, X + x, Y + y);
      SumCongruent(steps, t => f(t, j), Slices(sh.k, A, B, X + x, Y + y));
    } else {
      SumZero(steps, t => f(t, j));
    }
  }

  lemma SelectedSlab(sh: Shape, inner: nat, adds: Adds, read: Walk, A: Matrix, B: Matrix, X: int, Y: int,
                     g: nat, x: nat, y: nat, t: nat, j: nat)
    requires Tileable(sh, inner) && SelectsAll(sh, inner, adds, read) && sh.m / inner > 0
    requires g < Groups(sh) && x < sh.m && y < sh.n && t < sh.K / sh.k && j < inner
    ensures Slabs(sh, inner, adds, A, B, X, Y, FirstCall(sh, inner, g), read(x * sh.n + y))(t, j)
         == if j == x / (sh.m / inner) then Slice(sh.k, A, B, X + x, Y + y, t) else 0.0
  {
    CallOf(sh, inner, g, t, j);
    BlockOf(sh, inner, x);
    assert Selects(sh, inner, adds, read, FirstCall(sh, inner, g) + t * inner + j, x, y);
  }

  // ---- whole runs ----

  /**
   For any orderly host sequence and any interleaving a run stops only when complete, after the same number of steps;
   memory then holds what the rounds left.
   */
  lemma RunsLeaveRounds(sh: Shape, inner: nat, plan: Plan, window: nat, cfg: Config, adds: Adds, read: Walk, w: World,
                        states: seq<State>, labels: seq<Label>)
    requires Tileable(sh, inner) && Orderly(plan, window) && Starts(plan) == Groups(sh) && Within(read, sh.m * sh.n)
    requires cfg == Network(sh, inner, plan) && Run(cfg, states, labels)
    requires Multiplies(sh, inner, adds, w) && Supplied(sh, inner, w)
    ensures |labels| <= Length(cfg) && (Stuck(cfg, states[|labels|]) <==> |labels| == Length(cfg))
    ensures Stuck(cfg, states[|labels|]) ==>
      AllWritten(sh, states[|labels|]) && HoldsRounds(sh, inner, adds, read, w, states[|labels|])
  {
    NetworkWellformed(sh, inner, plan, window);
    RunsEndInDone(cfg, states, labels);
    DoneRounds(sh, inner, plan, adds, read, w);
  }

  /** A complete run leaves A B in memory. */
  ghost predicate EndsInProduct(sh: Shape, inner: nat, cfg: Config, adds: Adds, read: Walk, w: World,
                                states: seq<State>, labels: seq<Label>)
    requires Tileable(sh, inner)
  {
    Multiplies(sh, inner, adds, w) && Supplied(sh, inner, w) && Run(cfg, states, labels) && Stuck(cfg, states[|labels|]) ==>
      AllWritten(sh, states[|labels|]) && HoldsProduct(sh, read, w, states[|labels|])
  }

  /** ... for all matrices, all objects that carry them, all exact kernels of this kind and all interleavings. */
  ghost predicate ComputesAll(sh: Shape, inner: nat, cfg: Config, adds: Adds, read: Walk)
    requires Tileable(sh, inner)
  {
    forall w: World, states: seq<State>, labels: seq<Label> :: EndsInProduct(sh, inner, cfg, adds, read, w, states, labels)
  }

  lemma RunsComputeProduct(sh: Shape, inner: nat, plan: Plan, window: nat, cfg: Config, adds: Adds, read: Walk, w: World,
                           states: seq<State>, labels: seq<Label>)
    requires Tileable(sh, inner) && Orderly(plan, window) && Starts(plan) == Groups(sh) && Within(read, sh.m * sh.n)
    requires cfg == Network(sh, inner, plan) && SelectsAll(sh, inner, adds, read)
    ensures EndsInProduct(sh, inner, cfg, adds, read, w, states, labels)
  {
    if Multiplies(sh, inner, adds, w) && Supplied(sh, inner, w) && Run(cfg, states, labels) && Stuck(cfg, states[|labels|]) {
      RunsLeaveRounds(sh, inner, plan, window, cfg, adds, read, w, states, labels);
      TileableSizes(sh, inner);
      forall X: nat, Y: nat | X < sh.M && Y < sh.N
        ensures CMemory(sh, read, w, states[|labels|], X, Y) == Entry(sh.K, w.A, w.B, X, Y)
      {
        SelectedElement(sh, inner, adds, read, w, states[|labels|], X, Y);
      }
    }
  }

  lemma SelectedElement(sh: Shape, inner: nat, adds: Adds, read: Walk, w: World, s: State, X: nat, Y: nat)
    requires Tileable(sh, inner) && SelectsAll(sh, inner, adds, read) && X < sh.M && Y < sh.N
    requires HoldsRounds(sh, inner, adds, read, w, s)
    ensures CMemory(sh, read, w, s, X, Y) == Entry(sh.K, w.A, w.B, X, Y)
  {
    TileableSizes(sh, inner);
    var p := Source(sh, X, Y);
    SourceWrites(sh, X, Y);
    TapsAgree(sh, p.g, p.row, p.col, p.x, p.y);
    assert HoldsRound(sh, inner, adds, read, w, s, X, Y);
    SelectedRound(sh, inner, adds, read, w.A, w.B, p.g, p.row, p.col, p.x, p.y);
  }

  // ---- any other kernel ----

  /** Zero but for a 1 at (X, Y). */
  function Unit(X: int, Y: int): Matrix { (i, j) => if i == X && j == Y then 1.0 else 0.0 }

  lemma UnitSlice(k: nat, X0: int, Y0: int, t0: nat, X: int, Y: int, t: nat)
    requires k > 0
    ensures Slice(k, Unit(X0, t0 * k), Unit(t0 * k, Y0), X, Y, t) == if t == t0 && X == X0 && Y == Y0 then 1.0 else 0.0
  {
    var f := SliceTerms(k, Unit(X0, t0 * k), Unit(t0 * k, Y0), X, Y, t);
    if t == t0 {
      SumSingle(k, 0, f);
    } else {
      Multiple(t - t0, k);
      assert (t - t0) * k == t * k - t0 * k;
      SumZero(k, f);
    }
  }

  lemma UnitEntry(K: nat, X0: int, Y0: int, z: nat, X: int, Y: int)
    requires z < K
    ensures Entry(K, Unit(X0, z), Unit(z, Y0), X, Y) == if X == X0 && Y == Y0 then 1.0 else 0.0
  {
    SumSingle(K, z, Products(Unit(X0, z), Unit(z, Y0), X, Y));
  }

  /** Objects that carry given matrices row by row, with an exact kernel for them. */
  function ObjectA(sh: Shape, inner: nat, A: Matrix, row: nat): Objects
    requires inner > 0 && sh.k > 0 && sh.K / sh.k > 0 && sh.n > 0 && sh.cols > 0 && ColTiles(sh) > 0
  {
    (i: int) => PieceAt(sh, inner, A, row, i)
  }

  function PieceAt(sh: Shape, inner: nat, A: Matrix, row: nat, i: int): seq<real>
    requires inner > 0 && sh.k > 0 && sh.K / sh.k > 0 && sh.n > 0 && sh.cols > 0 && ColTiles(sh) > 0
  {
    PieceA(sh, sh.m / inner, A, ATap(sh, i / inner / (sh.K / sh.k), row) * sh.m, i % inner, i / inner % (sh.K / sh.k))
  }

  function PieceA(sh: Shape, h: nat, A: Matrix, X: int, j: int, t: int): seq<real> {
    Flat(h, (x: nat) => seq(sh.k, z => A(X + (j * h + x), t * sh.k + z)))
  }

  lemma PieceElement(sh: Shape, h: nat, A: Matrix, X: int, j: int, t: int, x: nat, z: nat)
    requires x < h && z < sh.k
    ensures Element(PieceA(sh, h, A, X, j, t), x * sh.k + z) == A(X + (j * h + x), t * sh.k + z)
  {
    FlatAt(h, sh.k, (x: nat) => seq(sh.k, z => A(X + (j * h + x), t * sh.k + z)), x, z);
  }

  function ObjectB(sh: Shape, B: Matrix, col: nat): Objects
    requires sh.k > 0 && sh.K / sh.k > 0 && sh.n > 0 && sh.cols > 0 && ColTiles(sh) > 0
  {
    (i: int) => PieceB(sh, B, i % (sh.K / sh.k), BTap(sh, i / (sh.K / sh.k), col) * sh.n)
  }

  function PieceB(sh: Shape, B: Matrix, t: int, Y: int): seq<real> {
    Flat(sh.k, (z: nat) => seq(sh.n, y => B(t * sh.k + z, Y + y)))
  }

  function RowByRow(k: nat, n: nat): Tiling { Tiling((x: nat, z: nat) => x * k + z, (z: nat, y: nat) => z * n + y) }

  function Carrier(sh: Shape, inner: nat, adds: Adds, A: Matrix, B: Matrix): World
    requires inner > 0 && sh.k > 0 && sh.K / sh.k > 0 && sh.n > 0 && sh.cols > 0 && ColTiles(sh) > 0
  {
    var ly := RowByRow(sh.k, sh.n);
    World(A, B, (row: nat) => ObjectA(sh, inner, A, row), (col: nat) => ObjectB(sh, B, col),
          MultiplyAdd(ly, adds, sh.m / inner, sh.k, sh.n), ly)
  }

  lemma StepDigits(g: nat, t: nat, j: nat, steps: nat, inner: nat, i: int)
    requires t < steps && j < inner && i == (g * steps + t) * inner + j
    ensures i / inner / steps == g && i / inner % steps == t && i % inner == j
  {
    DivMod(g * steps + t, j, inner);
    DivMod(g, t, steps);
  }

  lemma {:induction false} PieceOfStep(sh: Shape, inner: nat, A: Matrix, row: nat, g: nat, t: nat, j: nat, i: int)
    requires inner > 0 && sh.k > 0 && sh.n > 0 && sh.cols > 0 && ColTiles(sh) > 0 && t < sh.K / sh.k && j < inner
    requires i == (g * (sh.K / sh.k) + t) * inner + j
    ensures PieceAt(sh, inner, A, row, i) == PieceA(sh, sh.m / inner, A, ATap(sh, g, row) * sh.m, j, t)
  {
    StepDigits(g, t, j, sh.K / sh.k, inner, i);
  }

  lemma {:induction false} CarrierA(sh: Shape, inner: nat, A: Matrix, a: Objects, row: nat,
                                    g: nat, t: nat, j: nat, x: nat, z: nat, i: int)
    requires inner > 0 && sh.k > 0 && sh.n > 0 && sh.cols > 0 && ColTiles(sh) > 0 && x < sh.m / inner && z < sh.k
    requires i == (g * (sh.K / sh.k) + t) * inner + j
    requires a(i) == PieceA(sh, sh.m / inner, A, ATap(sh, g, row) * sh.m, j, t)
    ensures CarriesA(sh, inner, RowByRow(sh.k, sh.n), A, a, row, g, t, j, x, z)
  {
    PieceElement(sh, sh.m / inner, A, ATap(sh, g, row) * sh.m, j, t, x, z);
  }

  ghost predicate HoldsPieces(sh: Shape, inner: nat, A: Matrix, a: Objects, row: nat)
    requires inner > 0 && sh.k > 0 && sh.K / sh.k > 0 && sh.n > 0 && sh.cols > 0 && ColTiles(sh) > 0
  {
    forall i :: a(i) == PieceAt(sh, inner, A, row, i)
  }

  lemma {:induction false} CarrierB(sh: Shape, B: Matrix, col: nat, g: nat, t: nat, z: nat, y: nat)
    requires sh.k > 0 && sh.n > 0 && sh.cols > 0 && ColTiles(sh) > 0
    requires t < sh.K / sh.k && z < sh.k && y < sh.n
    ensures CarriesB(sh, RowByRow(sh.k, sh.n), B, ObjectB(sh, B, col), col, g, t, z, y)
  {
    DivMod(g, t, sh.K / sh.k);
    FlatAt(sh.k, sh.n, (z: nat) => seq(sh.n, y => B(t * sh.k + z, BTap(sh, g, col) * sh.n + y)), z, y);
  }

  lemma {:induction false} CarrierRow(sh: Shape, inner: nat, A: Matrix, a: Objects, row: nat)
    requires inner > 0 && sh.k > 0 && sh.K / sh.k > 0 && sh.n > 0 && sh.cols > 0 && ColTiles(sh) > 0
    requires HoldsPieces(sh, inner, A, a, row)
    ensures SuppliedA(sh, inner, RowByRow(sh.k, sh.n), A, a, row)
  {
    forall g: nat, t: nat, j: nat, x: nat, z: nat | t < sh.K / sh.k && j < inner && x < sh.m / inner && z < sh.k
      ensures CarriesA(sh, inner, RowByRow(sh.k, sh.n), A, a, row, g, t, j, x, z)
    {
      var i := (g * (sh.K / sh.k) + t) * inner + j;
      PieceOfStep(sh, inner, A, row, g, t, j, i);
      CarrierA(sh, inner, A, a, row, g, t, j, x, z, i);
    }
  }

  lemma {:induction false} CarrierColumn(sh: Shape, B: Matrix, col: nat)
    requires sh.k > 0 && sh.K / sh.k > 0 && sh.n > 0 && sh.cols > 0 && ColTiles(sh) > 0
    ensures SuppliedB(sh, RowByRow(sh.k, sh.n), B, ObjectB(sh, B, col), col)
  {
    forall g: nat, t: nat, z: nat, y: nat | t < sh.K / sh.k && z < sh.k && y < sh.n
      ensures CarriesB(sh, RowByRow(sh.k, sh.n), B, ObjectB(sh, B, col), col, g, t, z, y)
    {
      CarrierB(sh, B, col, g, t, z, y);
    }
  }

  lemma {:induction false} CarrierSupplied(sh: Shape, inner: nat, adds: Adds, A: Matrix, B: Matrix)
    requires Tileable(sh, inner) && sh.K / sh.k > 0 && ColTiles(sh) > 0
    ensures Supplied(sh, inner, Carrier(sh, inner, adds, A, B)) && Multiplies(sh, inner, adds, Carrier(sh, inner, adds, A, B))
  {
    var ly := RowByRow(sh.k, sh.n);
    MultiplyAddIsExact(ly, adds, sh.m / inner, sh.k, sh.n, sh.m * sh.n);
    forall row: nat ensures SuppliedA(sh, inner, ly, A, ObjectA(sh, inner, A, row), row) {
      CarrierRow(sh, inner, A, ObjectA(sh, inner, A, row), row);
    }
    forall col: nat ensures SuppliedB(sh, ly, B, ObjectB(sh, B, col), col) { CarrierColumn(sh, B, col); }
  }

  /** If every product comes out right, so does every round, for all matrices. */
  lemma RoundIsEntry(sh: Shape, inner: nat, plan: Plan, window: nat, cfg: Config, adds: Adds, read: Walk, A: Matrix, B: Matrix,
                     g: nat, x: nat, y: nat)
    requires Tileable(sh, inner) && Orderly(plan, window) && Starts(plan) == Groups(sh) && Within(read, sh.m * sh.n)
    requires cfg == Network(sh, inner, plan) && ComputesAll(sh, inner, cfg, adds, read) && ColTiles(sh) > 0
    requires g < Groups(sh) && x < sh.m && y < sh.n
    ensures RoundValue(sh, inner, adds, A, B, g, 0, 0, read(x * sh.n + y))
         == Entry(sh.K, A, B, ATap(sh, g, 0) * sh.m + x, BTap(sh, g, 0) * sh.n + y)
  {
    TileableSizes(sh, inner);
    var w := Carrier(sh, inner, adds, A, B);
    CarrierSupplied(sh, inner, adds, A, B);
    NetworkWellformed(sh, inner, plan, window);
    var states, labels := CompleteRun(cfg);
    assert EndsInProduct(sh, inner, cfg, adds, read, w, states, labels);
    RunsLeaveRounds(sh, inner, plan, window, cfg, adds, read, w, states, labels);
    RoundOfPlace(sh, inner, adds, read, w, states[|labels|], g, x, y);
  }

  lemma RoundOfPlace(sh: Shape, inner: nat, adds: Adds, read: Walk, w: World, s: State, g: nat, x: nat, y: nat)
    requires Tileable(sh, inner) && HoldsRounds(sh, inner, adds, read, w, s) && HoldsProduct(sh, read, w, s) && ColTiles(sh) > 0
    requires g < Groups(sh) && x < sh.m && y < sh.n
    ensures RoundValue(sh, inner, adds, w.A, w.B, g, 0, 0, read(x * sh.n + y))
         == Entry(sh.K, w.A, w.B, ATap(sh, g, 0) * sh.m + x, BTap(sh, g, 0) * sh.n + y)
  {
    PlaceOfTile(sh, g, x, y);
    var X, Y := CRow(sh, g, 0, 0, x), CCol(sh, g, 0, y);
    assert HoldsRound(sh, inner, adds, read, w, s, X, Y);
    assert CMemory(sh, read, w, s, X, Y) == Entry(sh.K, w.A, w.B, X, Y);
  }

  /** The element of C that place (g, 0, 0, x, y) computes. */
  lemma PlaceOfTile(sh: Shape, g: nat, x: nat, y: nat)
    requires Divisible(sh) && g < Groups(sh) && x < sh.m && y < sh.n
    ensures ColTiles(sh) > 0 && sh.N / sh.n > 0
    ensures 0 <= CRow(sh, g, 0, 0, x) == ATap(sh, g, 0) * sh.m + x < sh.M
    ensures 0 <= CCol(sh, g, 0, y) == BTap(sh, g, 0) * sh.n + y < sh.N
    ensures Source(sh, CRow(sh, g, 0, 0, x), CCol(sh, g, 0, y)) == Place(g, 0, 0, x, y)
  {
    TapsAgree(sh, g, 0, 0, x, y);
    TapsPositive(sh, g, x, y);
    WritesOnce(sh, Place(g, 0, 0, x, y), CRow(sh, g, 0, 0, x), CCol(sh, g, 0, y));
  }

  lemma TapsPositive(sh: Shape, g: nat, x: nat, y: nat)
    requires sh.n > 0 && sh.cols > 0 && ColTiles(sh) > 0
    ensures ATap(sh, g, 0) * sh.m + x >= 0 && BTap(sh, g, 0) * sh.n + y >= 0
  {
    MulMonotone(0, g / ColTiles(sh), sh.rows);
    MulMonotone(0, g % ColTiles(sh), sh.cols);
    MulMonotone(0, ATap(sh, g, 0), sh.m);
    MulMonotone(0, BTap(sh, g, 0), sh.n);
  }

  /** For unit matrices a call of a round adds 1 or 0. */
  lemma UnitSlab(sh: Shape, inner: nat, adds: Adds, X: int, Y: int, first: int, e: int, X0: int, Y0: int, t0: nat, t: nat, j: nat)
    requires sh.k > 0 && inner > 0
    ensures var p := adds(first + t * inner + j, e); var h := sh.m / inner;
      Slabs(sh, inner, adds, Unit(X0, t0 * sh.k), Unit(t0 * sh.k, Y0), X, Y, first, e)(t, j)
      == if t == t0 && InBlock(p, h, sh.n) && X + (j * h + p.x) == X0 && Y + p.y == Y0 then 1.0 else 0.0
  {
    var p := adds(first + t * inner + j, e);
    assert Slabs(sh, inner, adds, Unit(X0, t0 * sh.k), Unit(t0 * sh.k, Y0), X, Y, first, e)(t, j)
        == Slab(sh, sh.m / inner, Unit(X0, t0 * sh.k), Unit(t0 * sh.k, Y0), X, Y, t, j, p);
    if InBlock(p, sh.m / inner, sh.n) { UnitSlice(sh.k, X0, Y0, t0, X + (j * (sh.m / inner) + p.x), Y + p.y, t); }
  }

  /** Row j * h + x of a tile determines the row block and the row in it. */
  lemma SameRow(j: int, x: int, j': int, x': int, h: nat)
    requires 0 <= x < h && 0 <= x' < h && j * h + x == j' * h + x'
    ensures j == j' && x == x'
  {
    DivMod(j, x, h);
    DivMod(j', x', h);
  }

  /** What a round leaves for unit matrices if call (t0, j0) is the only one of step t0 that can add the unit's element. */
  lemma UnitRound(sh: Shape, inner: nat, adds: Adds, X: int, Y: int, first: int, e: int, x0: nat, y0: nat, t0: nat, j0: nat)
    requires sh.k > 0 && inner > 0 && x0 < sh.m / inner && t0 < sh.K / sh.k && j0 < inner
    ensures var h := sh.m / inner; var p := adds(first + t0 * inner + j0, e);
      var A, B := Unit(X + (j0 * h + x0), t0 * sh.k), Unit(t0 * sh.k, Y + y0);
      SumGrid(sh.K / sh.k, inner, Slabs(sh, inner, adds, A, B, X, Y, first, e))
      == if InBlock(p, h, sh.n) && p.x == x0 && p.y == y0 then 1.0 else 0.0
  {
    var h := sh.m / inner;
    var f := Slabs(sh, inner, adds, Unit(X + (j0 * h + x0), t0 * sh.k), Unit(t0 * sh.k, Y + y0), X, Y, first, e);
    forall t, j | 0 <= t < sh.K / sh.k && 0 <= j < inner && (t != t0 || j != j0) ensures f(t, j) == 0.0 {
      UnitSlab(sh, inner, adds, X, Y, first, e, X + (j0 * h + x0), Y + y0, t0, t, j);
      var p := adds(first + t * inner + j, e);
      if t == t0 && InBlock(p, h, sh.n) && j * h + p.x == j0 * h + x0 { SameRow(j, p.x, j0, x0, h); }
    }
    UnitSlab(sh, inner, adds, X, Y, first, e, X + (j0 * h + x0), Y + y0, t0, t0, j0);
    SumGridSingle(sh.K / sh.k, inner, f, t0, j0);
  }

  /** A kernel with which every product comes out right selects in every call. */
  lemma MustSelect(sh: Shape, inner: nat, plan: Plan, window: nat, cfg: Config, adds: Adds, read: Walk,
                   g: nat, t: nat, j: nat, x: nat, y: nat)
    requires Tileable(sh, inner) && Orderly(plan, window) && Starts(plan) == Groups(sh) && Within(read, sh.m * sh.n)
    requires cfg == Network(sh, inner, plan) && ComputesAll(sh, inner, cfg, adds, read) && sh.m / inner > 0
    requires g < Groups(sh) && t < sh.K / sh.k && j < inner && x < sh.m && y < sh.n
    ensures Selects(sh, inner, adds, read, FirstCall(sh, inner, g) + t * inner + j, x, y)
  {
    TileableSizes(sh, inner);
    CallOf(sh, inner, g, t, j);
    BlockOf(sh, inner, x);
    var h, p := sh.m / inner, adds(FirstCall(sh, inner, g) + t * inner + j, read(x * sh.n + y));
    if j == x / h {
      UnitProduct(sh, inner, plan, window, cfg, adds, read, g, t, j, x, y, x % h, y);
    } else if InBlock(p, h, sh.n) {
      UnitProduct(sh, inner, plan, window, cfg, adds, read, g, t, j, x, y, p.x, p.y);
      if j * h + p.x == x { SameRow(j, p.x, x / h, x % h, h); }
    }
  }

  /** The round's answer for the unit at row x0 of block j, column y0, is the product's. */
  lemma UnitProduct(sh: Shape, inner: nat, plan: Plan, window: nat, cfg: Config, adds: Adds, read: Walk,
                    g: nat, t: nat, j: nat, x: nat, y: nat, x0: nat, y0: nat)
    requires Tileable(sh, inner) && Orderly(plan, window) && Starts(plan) == Groups(sh) && Within(read, sh.m * sh.n)
    requires cfg == Network(sh, inner, plan) && ComputesAll(sh, inner, cfg, adds, read)
    requires g < Groups(sh) && t < sh.K / sh.k && j < inner && x < sh.m && y < sh.n && x0 < sh.m / inner && y0 < sh.n
    ensures var h := sh.m / inner; var p := adds(FirstCall(sh, inner, g) + t * inner + j, read(x * sh.n + y));
      InBlock(p, h, sh.n) && p.x == x0 && p.y == y0 <==> j * h + x0 == x && y0 == y
  {
    TileableSizes(sh, inner);
    var h, X, Y := sh.m / inner, ATap(sh, g, 0) * sh.m, BTap(sh, g, 0) * sh.n;
    KSlices(sh);
    DigitsBelow(t, sh.K / sh.k, 0, sh.k);
    RoundIsEntry(sh, inner, plan, window, cfg, adds, read, Unit(X + (j * h + x0), t * sh.k), Unit(t * sh.k, Y + y0), g, x, y);
    UnitRound(sh, inner, adds, X, Y, FirstCall(sh, inner, g), read(x * sh.n + y), x0, y0, t, j);
    UnitEntry(sh.K, X + (j * h + x0), Y + y0, t * sh.k, X + x, Y + y);
  }

  /**
   The network computes every product, in every complete run, exactly if every call of the kernel adds its own row block
   of its own K step to the addresses from which memory gets that block, and nothing elsewhere.
   */
  lemma EveryProductIff(sh: Shape, inner: nat, plan: Plan, window: nat, adds: Adds, read: Walk)
    requires Tileable(sh, inner) && Orderly(plan, window) && Starts(plan) == Groups(sh) && Within(read, sh.m * sh.n)
    ensures ComputesAll(sh, inner, Network(sh, inner, plan), adds, read) <==> SelectsAll(sh, inner, adds, read)
  {
    var cfg := Network(sh, inner, plan);
    TileableSizes(sh, inner);
    if SelectsAll(sh, inner, adds, read) {
      forall w: World, states: seq<State>, labels: seq<Label>
        ensures EndsInProduct(sh, inner, cfg, adds, read, w, states, labels)
      {
        RunsComputeProduct(sh, inner, plan, window, cfg, adds, read, w, states, labels);
      }
    }
    if ComputesAll(sh, inner, cfg, adds, read) {
      forall call: nat, x: nat, y: nat | call < FirstCall(sh, inner, Groups(sh)) && x < sh.m && y < sh.n
        ensures Selects(sh, inner, adds, read, call, x, y)
      {
        var g, t, j := CallDigits(sh, inner, call);
        MustSelect(sh, inner, plan, window, cfg, adds, read, g, t, j, x, y);
      }
    }
  }

  /** Group, K step and row block of a call. */
  lemma CallDigits(sh: Shape, inner: nat, call: nat) returns (g: nat, t: nat, j: nat)
    requires Tileable(sh, inner) && sh.K / sh.k > 0 && call < FirstCall(sh, inner, Groups(sh))
    ensures g < Groups(sh) && t < sh.K / sh.k && j < inner && call == FirstCall(sh, inner, g) + t * inner + j
  {
    var steps := sh.K / sh.k;
    DivBelow(call, Groups(sh) * steps, inner);
    DivBelow(call / inner, Groups(sh), steps);
    g, t, j := call / inner / steps, call / inner % steps, call % inner;
    assert (g * steps + t) * inner == g * steps * inner + t * inner;
  }

  /** A kernel that does not look at the number of the call computes every product only with one A object per B object. */
  lemma WithoutCounting(sh: Shape, inner: nat, plan: Plan, window: nat, adds: Adds, read: Walk)
    requires Tileable(sh, inner) && Orderly(plan, window) && Starts(plan) == Groups(sh) && Within(read, sh.m * sh.n)
    requires forall call: int, e: int :: adds(call, e) == adds(0, e)
    requires ComputesAll(sh, inner, Network(sh, inner, plan), adds, read)
    ensures inner == 1
  {
    EveryProductIff(sh, inner, plan, window, adds, read);
    if inner > 1 { CallsDiffer(sh, inner, adds, read); }
  }

  lemma CallsDiffer(sh: Shape, inner: nat, adds: Adds, read: Walk)
    requires Tileable(sh, inner) && inner > 1 && SelectsAll(sh, inner, adds, read)
    ensures adds(1, read(0)) != adds(0, read(0))
  {
    TileableSizes(sh, inner);
    FirstTwoCalls(sh, inner);
    assert Selects(sh, inner, adds, read, 0, 0, 0) && Selects(sh, inner, adds, read, 1, 0, 0);
  }

  lemma FirstTwoCalls(sh: Shape, inner: nat)
    requires Tileable(sh, inner) && inner > 1 && sh.K / sh.k > 0 && ColTiles(sh) > 0
    ensures 1 < FirstCall(sh, inner, Groups(sh)) && 1 % inner == 1 && 0 % inner == 0
  {
    DivisibleSizes(sh);
    AllPositive(RowTiles(sh), ColTiles(sh), sh.K / sh.k, inner);
    DivMod(0, 1, inner);
    DivMod(0, 0, inner);
  }

  lemma AllPositive(a: nat, b: nat, c: nat, d: nat)
    requires a > 0 && b > 0 && c > 0
    ensures a * b * c * d >= d
  {
    Multiple(a, b);
    Multiple(a * b, c);
    MulMonotone(1, a * b * c, d);
  }
}
