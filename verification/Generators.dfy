/** The two int8 generators: what each asks of its kernel, and C after every complete run, from A in memory to C in memory. */
module Generators {
  import opened Arith
  import opened CoreBody
  import opened Folding
  import opened Grid
  import opened GridDeadlock
  import opened GridRuns
  import opened Layout
  import opened Memory
  import opened NetworkGemm
  import opened Rows
  import opened Schedule
  import opened Selection
  import opened Strides
  import opened Supply
  import opened Taps

  // ---- one row of eight cores ----

  ghost predicate SerialShape(sh: Shape) { sh.rows == 1 && sh.cols == 8 && Tileable(sh, 1) }

  /** Whole blocks of tiles, 512-column L2 objects along K, whole K slices in them. */
  lemma SerialShapeIff(sh: Shape)
    ensures SerialShape(sh) <==>
      && sh.rows == 1 && sh.cols == 8 && sh.M > 0 && sh.K > 0 && sh.N > 0 && sh.m > 0 && sh.k > 0 && sh.n > 0
      && sh.M % sh.m == 0 && sh.N % (8 * sh.n) == 0 && sh.K % 512 == 0 && 512 % sh.k == 0
  {}

  function SerialNetwork(sh: Shape): Config
    requires sh.m > 0 && sh.rows > 0 && sh.n > 0 && sh.cols > 0 && sh.k > 0
  {
    Network(sh, 1, SerialPlan(Groups(sh)))
  }

  /** The kernel keeps C row by row: in every call element (x, y) goes to address x * n + y. */
  ghost predicate KeepsRows(sh: Shape, adds: Adds)
    requires sh.m > 0 && sh.rows > 0 && sh.n > 0 && sh.cols > 0 && sh.k > 0
  {
    forall call: nat, x: nat, y: nat :: call < FirstCall(sh, 1, Groups(sh)) && x < sh.m && y < sh.n ==>
      KeepsRow(sh, adds, call, x, y)
  }

  ghost predicate KeepsRow(sh: Shape, adds: Adds, call: nat, x: nat, y: nat) { adds(call, x * sh.n + y) == Part(x, y) }

  lemma SerialSelects(sh: Shape, adds: Adds)
    requires SerialShape(sh)
    ensures SelectsAll(sh, 1, adds, Linear) <==> KeepsRows(sh, adds)
  {
    forall call: nat, x: nat, y: nat | x < sh.m && y < sh.n
      ensures sh.m / 1 == sh.m && (Selects(sh, 1, adds, Linear, call, x, y) <==> KeepsRow(sh, adds, call, x, y))
    {
      DivMod(0, x, sh.m);
      assert call % 1 == 0 && sh.m / 1 == sh.m;
    }
  }

  /** C leaves the 8-core generator's cores without a stride list, so it is A B exactly for a kernel that keeps C row by row. */
  lemma SerialComputesIff(sh: Shape, adds: Adds)
    requires SerialShape(sh)
    ensures ComputesAll(sh, 1, SerialNetwork(sh), adds, Linear) <==> KeepsRows(sh, adds)
  {
    SerialRetires(Groups(sh));
    EveryProductIff(sh, 1, SerialPlan(Groups(sh)), 1, adds, Linear);
    SerialSelects(sh, adds);
  }

  /** The generator never deadlocks, and with such a kernel and objects that carry their K slices it leaves A B. */
  lemma SerialComputesProduct(sh: Shape, adds: Adds, w: World, states: seq<State>, labels: seq<Label>)
    requires SerialShape(sh) && KeepsRows(sh, adds) && Multiplies(sh, 1, adds, w) && Supplied(sh, 1, w)
    requires Run(SerialNetwork(sh), states, labels)
    ensures var cfg := SerialNetwork(sh);
      && |labels| <= Length(cfg) && (Stuck(cfg, states[|labels|]) <==> |labels| == Length(cfg))
      && (Stuck(cfg, states[|labels|]) ==> AllWritten(sh, states[|labels|]) && HoldsProduct(sh, Linear, w, states[|labels|]))
  {
    SerialRetires(Groups(sh));
    SerialSelects(sh, adds);
    RunsLeaveRounds(sh, 1, SerialPlan(Groups(sh)), 1, SerialNetwork(sh), adds, Linear, w, states, labels);
    RunsComputeProduct(sh, 1, SerialPlan(Groups(sh)), 1, SerialNetwork(sh), adds, Linear, w, states, labels);
  }

  /** A kernel that keeps a tile of n columns in 8 x 8 tiles. */
  function InTiles(n: nat): Adds
    requires n / R > 0
  {
    (call, e) => if e < 0 then Untouched else Part(RowTileSource(e, n) / n, RowTileSource(e, n) % n)
  }

  lemma TileAddresses(n: nat, call: int, x: nat, y: nat)
    requires n % 8 == 0 && y < n
    ensures InTiles(n)(call, (x / 8 * (n / 8) + y / 8) * 64 + x % 8 * 8 + y % 8) == Part(x, y)
  {
    MulMonotone(0, x / 8, n / 8);
    RowTileAt(x / 8, y / 8, x % 8, y % 8, x / 8 * 8 + 8, n);
    DivMod(x, y, n);
  }

  /** The 8-core generator with a kernel that keeps C in 8 x 8 tiles computes some product wrongly. */
  lemma TiledKernelFails(sh: Shape)
    requires SerialShape(sh) && sh.n > R && sh.m > 0
    ensures !ComputesAll(sh, 1, SerialNetwork(sh), InTiles(sh.n), Linear)
  {
    SerialComputesIff(sh, InTiles(sh.n));
    CallsMade(sh, 1);
    assert RowTileSource(R, sh.n) == sh.n by { SourceOfEight(sh.n); }
    assert !KeepsRow(sh, InTiles(sh.n), 0, 0, R);
  }

  lemma SourceOfEight(n: nat)
    requires n > R
    ensures RowTileSource(R, n) == n
  {
    assert R / TILE == 0 && R % TILE == R && 0 / (n / R) == 0 && 0 % (n / R) == 0;
  }

  lemma CallsMade(sh: Shape, inner: nat)
    requires Tileable(sh, inner)
    ensures FirstCall(sh, inner, Groups(sh)) > 0
  {
    TileableSizes(sh, inner);
    DivisibleSizes(sh);
    AllPositive(RowTiles(sh), ColTiles(sh), sh.K / sh.k, inner);
  }

  // ---- four rows of eight cores ----

  /** Tiles of whole 8 x 8 blocks. */
  ghost predicate FourRowShape(sh: Shape) { sh.rows == 4 && sh.cols == 8 && Tileable(sh, 4) && sh.m % R == 0 && sh.n % R == 0 }

  lemma FourRowShapeIff(sh: Shape)
    ensures FourRowShape(sh) <==>
      && sh.rows == 4 && sh.cols == 8 && sh.M > 0 && sh.K > 0 && sh.N > 0 && sh.m > 0 && sh.k > 0 && sh.n > 0
      && sh.M % (4 * sh.m) == 0 && sh.N % (8 * sh.n) == 0 && sh.K % 512 == 0 && 512 % sh.k == 0 && sh.m % 8 == 0 && sh.n % 8 == 0
  {}

  function FourRowNetwork(sh: Shape): Config
    requires sh.m > 0 && sh.rows > 0 && sh.n > 0 && sh.cols > 0 && sh.k > 0
  {
    Network(sh, 4, FourRowPlan(Groups(sh)))
  }

  /** The C walk of the mem tile, on one slot. */
  function TileWalk(sh: Shape): Walk { q => if q < 0 then 0 else WalkAddr(CDims(sh.m, sh.n), q) }

  lemma TileWalkAt(sh: Shape, q: nat)
    requires sh.m % R == 0 && sh.n % R == 0 && sh.n > 0 && q < sh.m * sh.n
    ensures TileWalk(sh)(q) == RowTileDest(q, sh.n) < sh.m * sh.n && RowTileSource(RowTileDest(q, sh.n), sh.n) == q
  {
    CAddr(sh.m, sh.n, q);
    DivBelow(q, sh.m, sh.n);
    RowTileSourceOfDest(q, sh.m, sh.n);
    assert Packed(sh.m, sh.n) == sh.m * sh.n by { WholeTiles(sh.m, sh.n); }
  }

  lemma WholeTiles(m: nat, n: nat)
    requires m % R == 0 && n % R == 0
    ensures Packed(m, n) == m * n
  {
    assert m / R * R * (n / R * R) == m / R * (n / R) * TILE;
  }

  lemma TileWalkWithin(sh: Shape)
    requires FourRowShape(sh)
    ensures Within(TileWalk(sh), sh.m * sh.n)
  {
    forall q: nat | q < sh.m * sh.n ensures 0 <= TileWalk(sh)(q) < sh.m * sh.n { TileWalkAt(sh, q); }
  }

  /**
   The kernel keeps C in 8 x 8 tiles, and counts: call number 4 i + j adds the object's rows to row block j of the tile
   and nothing to the others.
   */
  ghost predicate CountsBlocks(sh: Shape, adds: Adds)
    requires sh.m >= 4 && sh.rows > 0 && sh.n > 0 && sh.cols > 0 && sh.k > 0
  {
    forall call: nat, x: nat, y: nat :: call < FirstCall(sh, 4, Groups(sh)) && x < sh.m && y < sh.n ==>
      CountsBlock(sh, adds, call, x, y)
  }

  ghost predicate CountsBlock(sh: Shape, adds: Adds, call: nat, x: nat, y: nat)
    requires sh.m >= 4 && sh.n > 0
  {
    MulMonotone(0, x, sh.n);
    var p := adds(call, RowTileDest(x * sh.n + y, sh.n));
    if call % 4 == x / (sh.m / 4) then p == Part(x % (sh.m / 4), y) else !InBlock(p, sh.m / 4, sh.n)
  }

  lemma FourRowSelects(sh: Shape, adds: Adds)
    requires FourRowShape(sh)
    ensures sh.m >= 4 && (SelectsAll(sh, 4, adds, TileWalk(sh)) <==> CountsBlocks(sh, adds))
  {
    TileableSizes(sh, 4);
    forall call: nat, x: nat, y: nat | x < sh.m && y < sh.n
      ensures Selects(sh, 4, adds, TileWalk(sh), call, x, y) <==> CountsBlock(sh, adds, call, x, y)
    {
      DigitsBelow(x, sh.m, y, sh.n);
      TileWalkAt(sh, x * sh.n + y);
    }
  }

  /** The 32-core generator computes every product exactly with a kernel that keeps C in tiles and counts row blocks. */
  lemma FourRowComputesIff(sh: Shape, adds: Adds)
    requires FourRowShape(sh)
    ensures sh.m >= 4 && (ComputesAll(sh, 4, FourRowNetwork(sh), adds, TileWalk(sh)) <==> CountsBlocks(sh, adds))
  {
    FourRowRetires(Groups(sh));
    TileWalkWithin(sh);
    EveryProductIff(sh, 4, FourRowPlan(Groups(sh)), 4, adds, TileWalk(sh));
    FourRowSelects(sh, adds);
  }

  /** There is one: a counter that cycles through the row blocks. */
  function Counting(sh: Shape): Adds
    requires sh.m >= 4 && sh.n >= R
  {
    (call, e) =>
      if e < 0 then Untouched
      else var x, y := RowTileSource(e, sh.n) / sh.n, RowTileSource(e, sh.n) % sh.n;
        if call % 4 == x / (sh.m / 4) then Part(x % (sh.m / 4), y) else Untouched
  }

  lemma CountingKernel(sh: Shape)
    requires FourRowShape(sh)
    ensures sh.m >= 4 && sh.n >= R && ComputesAll(sh, 4, FourRowNetwork(sh), Counting(sh), TileWalk(sh))
  {
    FourRowComputesIff(sh, Counting(sh));
    forall call: nat, x: nat, y: nat | x < sh.m && y < sh.n ensures CountsBlock(sh, Counting(sh), call, x, y) {
      CountedAt(sh, call, x, y);
    }
  }

  lemma CountedAt(sh: Shape, call: nat, x: nat, y: nat)
    requires sh.m % R == 0 && sh.n % R == 0 && sh.m >= 4 && sh.n >= R && x < sh.m && y < sh.n
    ensures CountsBlock(sh, Counting(sh), call, x, y)
  {
    DigitsBelow(x, sh.m, y, sh.n);
    TileWalkAt(sh, x * sh.n + y);
    DivMod(x, y, sh.n);
  }

  /** Without counting its calls no kernel will do, whatever its layout. */
  lemma MustCount(sh: Shape, adds: Adds)
    requires FourRowShape(sh) && forall call: int, e: int :: adds(call, e) == adds(0, e)
    ensures !ComputesAll(sh, 4, FourRowNetwork(sh), adds, TileWalk(sh))
  {
    FourRowRetires(Groups(sh));
    TileWalkWithin(sh);
    if ComputesAll(sh, 4, FourRowNetwork(sh), adds, TileWalk(sh)) {
      WithoutCounting(sh, 4, FourRowPlan(Groups(sh)), 4, adds, TileWalk(sh));
    }
  }

  /** The 32-core generator with its task-group ring never deadlocks, and in every complete run the tile written
      for group g by any core is made of the A and B objects of that group, in K order. */
  lemma FourRowCompletes(sh: Shape, states: seq<State>, labels: seq<Label>, g: nat, p: Pos)
    requires sh.rows == 4 && sh.cols == 8 && Tileable(sh, 4) && g < Groups(sh) && p.row < 4 && p.col < 8
    requires Run(FourRowNetwork(sh), states, labels)
    ensures var cfg := FourRowNetwork(sh); var s := states[|labels|];
      && |labels| <= Length(cfg) && (Stuck(cfg, s) <==> |labels| == Length(cfg))
      && (Stuck(cfg, s) ==> p in s.cores && |s.cores[p].out| == Groups(sh) && s.cores[p].out[g] == RoundLog(cfg, g))
  {
    FourRowRetires(Groups(sh));
    NetworkWellformed(sh, 4, FourRowPlan(Groups(sh)), 4);
    RunsEndInDone(FourRowNetwork(sh), states, labels);
  }

  lemma FourRowComputesProduct(sh: Shape, adds: Adds, w: World, states: seq<State>, labels: seq<Label>)
    requires FourRowShape(sh) && sh.m >= 4 && CountsBlocks(sh, adds) && Multiplies(sh, 4, adds, w) && Supplied(sh, 4, w)
    requires Run(FourRowNetwork(sh), states, labels) && Stuck(FourRowNetwork(sh), states[|labels|])
    ensures AllWritten(sh, states[|labels|]) && HoldsProduct(sh, TileWalk(sh), w, states[|labels|])
  {
    FourRowRetires(Groups(sh));
    TileWalkWithin(sh);
    FourRowSelects(sh, adds);
    RunsComputeProduct(sh, 4, FourRowPlan(Groups(sh)), 4, FourRowNetwork(sh), adds, TileWalk(sh), w, states, labels);
  }

  /** With a kernel that adds to the tile's first m / 4 rows in every call, it leaves the folded product. */
  lemma FourRowFolds(sh: Shape, adds: Adds, w: World, states: seq<State>, labels: seq<Label>)
    requires FourRowShape(sh) && OffsetFree(sh, 4, adds, TileWalk(sh)) && Multiplies(sh, 4, adds, w) && Supplied(sh, 4, w)
    requires Run(FourRowNetwork(sh), states, labels) && Stuck(FourRowNetwork(sh), states[|labels|])
    ensures AllWritten(sh, states[|labels|]) && HoldsFolded(sh, 4, TileWalk(sh), w, states[|labels|])
    ensures HoldsProduct(sh, TileWalk(sh), w, states[|labels|]) <==> TailZero(sh, 4, w.A, w.B)
  {
    FourRowRetires(Groups(sh));
    TileWalkWithin(sh);
    RunsFoldProduct(sh, 4, FourRowPlan(Groups(sh)), 4, FourRowNetwork(sh), adds, TileWalk(sh), w, states, labels);
  }

  // ---- from A in memory to C in memory ----

  /** The 8-core generator's transfers of A, for k = 512, with B objects that carry their K slices. */
  ghost predicate SerialTransfers(sh: Shape, w: World, L2: Objects)
    requires SerialShape(sh)
  {
    TileableSizes(sh, 1);
    && sh.k == 512 && w.ly.a == RowMajor(MTK) && PiecesOfA(sh, w.A, L2, 0)
    && (forall at: nat :: SerialDelivered(L2(at), w.a(0)(at), sh.m, MTK, MTK))
    && (forall col: nat :: col < 8 ==> SuppliedB(sh, w.ly, w.B, w.b(col), col))
  }

  /** L2 object `at` of a row: its m x 512 piece of A, row by row. */
  function Pieces(sh: Shape, A: Matrix, row: nat): Objects
    requires sh.k > 0 && sh.K / sh.k > 0 && sh.n > 0 && sh.cols > 0 && ColTiles(sh) > 0
  {
    ObjectA(sh, 1, A, row)
  }

  lemma {:induction false} PiecesCarry(sh: Shape, A: Matrix, row: nat)
    requires sh.k == 512 && sh.K / 512 > 0 && sh.m > 0 && sh.n > 0 && sh.cols > 0 && ColTiles(sh) > 0
    ensures PiecesOfA(sh, A, Pieces(sh, A, row), row)
    ensures forall at: nat :: |Pieces(sh, A, row)(at)| == sh.m * 512
  {
    CarrierRow(sh, 1, A, Pieces(sh, A, row), row);
    forall g: nat, part: nat, x: nat, c: nat | part < sh.K / MTK && x < sh.m && c < MTK
      ensures PieceOfA(sh, A, Pieces(sh, A, row), row, g, part, x, c)
    {
      assert CarriesA(sh, 1, RowByRow(sh.k, sh.n), A, Pieces(sh, A, row), row, g, part, 0, x, c);
    }
    forall at: nat ensures |Pieces(sh, A, row)(at)| == sh.m * 512 { PieceSize(sh, A, row, at); }
  }

  lemma PieceSize(sh: Shape, A: Matrix, row: nat, at: nat)
    requires sh.k == 512 && sh.K / 512 > 0 && sh.m > 0 && sh.n > 0 && sh.cols > 0 && ColTiles(sh) > 0
    ensures |Pieces(sh, A, row)(at)| == sh.m * 512
  {
    var X, t := ATap(sh, at / 1 / (sh.K / sh.k), row) * sh.m, at / 1 % (sh.K / sh.k);
    FlatSize(sh.m / 1, sh.k, (x: nat) => seq(sh.k, z => A(X + (at % 1 * (sh.m / 1) + x), t * sh.k + z)));
  }

  /** B objects row by row, whatever the layout of A. */
  lemma {:induction false} ColumnsCarry(sh: Shape, ly: Tiling, B: Matrix)
    requires sh.k > 0 && sh.K / sh.k > 0 && sh.n > 0 && sh.cols > 0 && ColTiles(sh) > 0 && ly.b == RowByRow(sh.k, sh.n).b
    ensures forall col: nat :: SuppliedB(sh, ly, B, ObjectB(sh, B, col), col)
  {
    forall col: nat ensures SuppliedB(sh, ly, B, ObjectB(sh, B, col), col) {
      CarrierColumn(sh, B, col);
      forall g: nat, t: nat, z: nat, y: nat | t < sh.K / sh.k && z < sh.k && y < sh.n
        ensures CarriesB(sh, ly, B, ObjectB(sh, B, col), col, g, t, z, y)
      {
        assert CarriesB(sh, RowByRow(sh.k, sh.n), B, ObjectB(sh, B, col), col, g, t, z, y);
      }
    }
  }

  /** For k = 512 there are such transfers of all matrices, with an exact kernel of any kind. */
  lemma SerialTransfersExist(sh: Shape, adds: Adds, A: Matrix, B: Matrix) returns (w: World, L2: Objects)
    requires SerialShape(sh) && sh.k == 512
    ensures w.A == A && w.B == B && SerialTransfers(sh, w, L2) && Multiplies(sh, 1, adds, w)
  {
    TileableSizes(sh, 1);
    var ly := Tiling(RowMajor(MTK), RowByRow(sh.k, sh.n).b);
    L2 := Pieces(sh, A, 0);
    w := World(A, B, (row: nat) => Pieces(sh, A, row), (col: nat) => ObjectB(sh, B, col),
               MultiplyAdd(ly, adds, sh.m / 1, sh.k, sh.n), ly);
    MultiplyAddIsExact(ly, adds, sh.m / 1, sh.k, sh.n, sh.m * sh.n);
    PiecesCarry(sh, A, 0);
    ColumnsCarry(sh, ly, B);
    forall at: nat ensures SerialDelivered(L2(at), w.a(0)(at), sh.m, MTK, MTK) { SamePiece(L2(at), sh.m); }
  }

  lemma SamePiece<T>(L2: seq<T>, m: nat)
    requires |L2| == m * 512
    ensures SerialDelivered(L2, L2, m, MTK, MTK)
  {
    forall q: nat | q < m * MTK ensures WalkAddr(SerialDims(m, MTK, MTK), q) < |L2| {
      DivBelow(q, m, MTK);
      SerialAddr(m, MTK, MTK, q / MTK, q % MTK);
      DigitsBelow(q / MTK, m, q % MTK, MTK);
    }
  }

  /** With k = 512 and a kernel that keeps C row by row the 8-core generator leaves A B in memory. */
  lemma SerialEndToEnd(sh: Shape, adds: Adds, w: World, L2: Objects, states: seq<State>, labels: seq<Label>)
    requires SerialShape(sh) && SerialTransfers(sh, w, L2) && KeepsRows(sh, adds) && Multiplies(sh, 1, adds, w)
    requires Run(SerialNetwork(sh), states, labels) && Stuck(SerialNetwork(sh), states[|labels|])
    ensures AllWritten(sh, states[|labels|]) && HoldsProduct(sh, Linear, w, states[|labels|])
  {
    TileableSizes(sh, 1);
    SerialSupplies(sh, w.ly, w.A, L2, w.a(0), 0);
    assert Supplied(sh, 1, w);
    SerialComputesProduct(sh, adds, w, states, labels);
  }

  /** The 32-core generator's transfers of A. */
  ghost predicate FourRowTransfers(sh: Shape, w: World, L2: nat -> Objects)
    requires FourRowShape(sh)
  {
    TileableSizes(sh, 4);
    && sh.k == 512 && sh.m % (4 * R) == 0 && w.ly.a == Tiled(MTK)
    && (forall row: nat :: row < 4 ==> PiecesOfA(sh, w.A, L2(row), row) && BlocksDelivered(L2(row), w.a(row), sh.m))
    && (forall col: nat :: col < 8 ==> SuppliedB(sh, w.ly, w.B, w.b(col), col))
  }

  /** L1 objects: the four tiled blocks of each L2 object. */
  function Blocks(sh: Shape, L2: Objects): Objects {
    (i: int) => if |L2(i / 4)| == 0 then [] else TiledBlock(L2(i / 4), sh.m, MTK, i % 4)
  }

  lemma FourRowTransfersExist(sh: Shape, adds: Adds, A: Matrix, B: Matrix) returns (w: World, L2: nat -> Objects)
    requires FourRowShape(sh) && sh.k == 512 && sh.m % 32 == 0
    ensures w.A == A && w.B == B && FourRowTransfers(sh, w, L2) && Multiplies(sh, 4, adds, w)
  {
    TileableSizes(sh, 4);
    var ly := Tiling(Tiled(MTK), RowByRow(sh.k, sh.n).b);
    L2 := (row: nat) => Pieces(sh, A, row);
    w := World(A, B, (row: nat) => Blocks(sh, Pieces(sh, A, row)), (col: nat) => ObjectB(sh, B, col),
               MultiplyAdd(ly, adds, sh.m / 4, sh.k, sh.n), ly);
    MultiplyAddIsExact(ly, adds, sh.m / 4, sh.k, sh.n, sh.m * sh.n);
    forall row: nat | row < 4 ensures PiecesOfA(sh, A, L2(row), row) && BlocksDelivered(L2(row), w.a(row), sh.m) {
      PiecesCarry(sh, A, row);
      BlocksAreDelivered(sh, L2(row));
    }
    ColumnsCarry(sh, ly, B);
  }

  lemma BlocksAreDelivered(sh: Shape, L2: Objects)
    requires sh.m > 0 && sh.m % 32 == 0 && forall at: nat :: |L2(at)| == sh.m * 512
    ensures BlocksDelivered(L2, Blocks(sh, L2), sh.m)
  {
    forall at: nat, j: nat | j < 4 ensures BlockDelivered(L2, Blocks(sh, L2), sh.m, at, j) {
      DivMod(at, j, 4);
      BlockInside(sh.m / 4, j);
      TransferDelivers(L2(at), sh.m, MTK, MTK, j);
    }
  }

  lemma BlockInside(h: nat, j: nat)
    requires j < 4
    ensures j * (h * MTK) + h * MTK <= 4 * h * 512
  {
    MulMonotone(j + 1, 4, h * MTK);
    assert (j + 1) * (h * MTK) == j * (h * MTK) + h * MTK;
  }

  lemma FourRowSupplied(sh: Shape, w: World, L2: nat -> Objects)
    requires FourRowShape(sh) && FourRowTransfers(sh, w, L2)
    ensures Supplied(sh, 4, w)
  {
    TileableSizes(sh, 4);
    forall row: nat | row < 4 ensures SuppliedA(sh, 4, w.ly, w.A, w.a(row), row) {
      FourRowSupplies(sh, w.ly, w.A, L2(row), w.a(row), row);
    }
  }

  /** With k = 512 the 32-core generator leaves A B with a kernel that counts row blocks, the folded product with one that adds
      to the first rows only. */
  lemma FourRowEndToEnd(sh: Shape, adds: Adds, w: World, L2: nat -> Objects, states: seq<State>, labels: seq<Label>)
    requires FourRowShape(sh) && FourRowTransfers(sh, w, L2) && Multiplies(sh, 4, adds, w) && sh.m >= 4
    requires Run(FourRowNetwork(sh), states, labels) && Stuck(FourRowNetwork(sh), states[|labels|])
    ensures CountsBlocks(sh, adds) ==> AllWritten(sh, states[|labels|]) && HoldsProduct(sh, TileWalk(sh), w, states[|labels|])
    ensures OffsetFree(sh, 4, adds, TileWalk(sh)) ==>
      && AllWritten(sh, states[|labels|]) && HoldsFolded(sh, 4, TileWalk(sh), w, states[|labels|])
      && (HoldsProduct(sh, TileWalk(sh), w, states[|labels|]) <==> TailZero(sh, 4, w.A, w.B))
  {
    FourRowSupplied(sh, w, L2);
    if CountsBlocks(sh, adds) { FourRowComputesProduct(sh, adds, w, states, labels); }
    if OffsetFree(sh, 4, adds, TileWalk(sh)) { FourRowFolds(sh, adds, w, states, labels); }
  }
}
