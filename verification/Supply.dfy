/**
 What the generators' own transfers put into the A objects. Where an L2 object holds a single K slice they are what
 NetworkGemm asks for, in each generator's own L1 layout.
 */
module Supply {
  import opened Arith
  import opened CoreBody
  import opened Layout
  import opened Memory
  import opened NetworkGemm
  import opened Strides
  import opened Taps

  /** Element (x, c) of L2 object `part` of group g: the A tap delivers m x 512 pieces along K, stored row by row. */
  ghost predicate PieceOfA(sh: Shape, A: Matrix, L2: Objects, row: nat, g: nat, part: nat, x: nat, c: nat)
    requires sh.n > 0 && sh.cols > 0 && ColTiles(sh) > 0
  {
    Element(L2(g * (sh.K / MTK) + part), x * MTK + c) == A(ATap(sh, g, row) * sh.m + x, part * MTK + c)
  }

  ghost predicate PiecesOfA(sh: Shape, A: Matrix, L2: Objects, row: nat)
    requires sh.n > 0 && sh.cols > 0 && ColTiles(sh) > 0
  {
    forall g: nat, part: nat, x: nat, c: nat :: part < sh.K / MTK && x < sh.m && c < MTK ==> PieceOfA(sh, A, L2, row, g, part, x, c)
  }

  // ---- one row: row-major L1 objects ----

  function RowMajor(k: nat): (nat, nat) -> nat { (x: nat, z: nat) => x * k + z }

  /** With k = 512 every L1 object of the single-row generator carries its K slice. */
  lemma SerialSupplies(sh: Shape, ly: Tiling, A: Matrix, L2: Objects, a: Objects, row: nat)
    requires Tileable(sh, 1) && sh.k == 512 && ly.a == RowMajor(MTK) && ColTiles(sh) > 0
    requires PiecesOfA(sh, A, L2, row) && forall at: nat :: SerialDelivered(L2(at), a(at), sh.m, MTK, MTK)
    ensures SuppliedA(sh, 1, ly, A, a, row)
  {
    forall g: nat, t: nat, j: nat, x: nat, z: nat | t < sh.K / sh.k && j < 1 && x < sh.m / 1 && z < sh.k
      ensures CarriesA(sh, 1, ly, A, a, row, g, t, j, x, z)
    {
      MulMonotone(0, g, sh.K / MTK);
      var at := g * (sh.K / MTK) + t;
      assert SerialDelivered(L2(at), a(at), sh.m, MTK, MTK);
      SerialElement(L2(at), a(at), sh.m, MTK, MTK, x, z);
      assert PieceOfA(sh, A, L2, row, g, t, x, z);
      assert at * 1 + j == at && j * (sh.m / 1) + x == x;
    }
  }

  // ---- four rows: L1 objects in 8 x 8 tiles ----

  /** Position of element (x, z) in the row-tile order of a matrix with k columns. */
  function Tiled(k: nat): (nat, nat) -> nat {
    (x: nat, z: nat) => x / R * (k / R * TILE) + z / R * TILE + x % R * R + z % R
  }

  /** L1 objects 4 at to 4 at + 3 are the blocks the walks cut from L2 object at. */
  ghost predicate BlockDelivered(L2: Objects, a: Objects, m: nat, at: nat, j: nat) {
    Delivered(L2(at), a(at * 4 + j), m, MTK, MTK, j)
  }

  ghost predicate BlocksDelivered(L2: Objects, a: Objects, m: nat) {
    forall at: nat, j: nat :: j < 4 ==> BlockDelivered(L2, a, m, at, j)
  }

  /** With k = 512 L1 object j of an L2 object of the four-row generator carries row block j of that object's K slice. */
  lemma FourRowSupplies(sh: Shape, ly: Tiling, A: Matrix, L2: Objects, a: Objects, row: nat)
    requires Tileable(sh, 4) && sh.k == 512 && sh.m % (4 * R) == 0 && ly.a == Tiled(MTK) && ColTiles(sh) > 0
    requires PiecesOfA(sh, A, L2, row) && BlocksDelivered(L2, a, sh.m)
    ensures SuppliedA(sh, 4, ly, A, a, row)
  {
    forall g: nat, t: nat, j: nat, x: nat, z: nat | t < sh.K / sh.k && j < 4 && x < sh.m / 4 && z < sh.k
      ensures CarriesA(sh, 4, ly, A, a, row, g, t, j, x, z)
    {
      FourRowCarries(sh, ly, A, L2, a, row, g, t, j, x, z);
    }
  }

  lemma FourRowCarries(sh: Shape, ly: Tiling, A: Matrix, L2: Objects, a: Objects, row: nat, g: nat, t: nat, j: nat, x: nat, z: nat)
    requires Tileable(sh, 4) && sh.k == 512 && sh.m % (4 * R) == 0 && ly.a == Tiled(MTK) && ColTiles(sh) > 0
    requires PiecesOfA(sh, A, L2, row) && BlocksDelivered(L2, a, sh.m)
    requires t < sh.K / sh.k && j < 4 && x < sh.m / 4 && z < sh.k
    ensures CarriesA(sh, 4, ly, A, a, row, g, t, j, x, z)
  {
    MulMonotone(0, g, sh.K / MTK);
    DigitsBelow(j, 4, x, sh.m / 4);
    var at := g * (sh.K / MTK) + t;
    assert BlockDelivered(L2, a, sh.m, at, j) && PieceOfA(sh, A, L2, row, g, t, j * (sh.m / 4) + x, z);
    BlockElement(L2(at), a(at * 4 + j), sh.m, j, x, z);
  }

  lemma BlockElement<T>(L2: seq<T>, L1: seq<T>, m: nat, b: nat, x: nat, z: nat)
    requires m % (4 * R) == 0 && b < 4 && x < m / 4 && z < MTK && Delivered(L2, L1, m, MTK, MTK, b)
    ensures 0 <= (b * (m / 4) + x) * MTK + z < |L2| && Tiled(MTK)(x, z) < |L1|
    ensures L1[Tiled(MTK)(x, z)] == L2[(b * (m / 4) + x) * MTK + z]
  {
    DigitsOf(x, m / 4 / R);
    TileAddress(x, z);
    BlockAddress(m / 4, b, x, z);
    DeliveredAt(L2, L1, m, MTK, MTK, b, x / R, z / R, x % R, z % R);
  }

  lemma DigitsOf(x: nat, n: nat)
    requires x < n * R
    ensures x / R < n && x % R < R
  {}

  lemma TileAddress(x: nat, z: nat)
    ensures Tiled(MTK)(x, z) == (x / R * (MTK / R) + z / R) * TILE + x % R * R + z % R
  {}

  lemma BlockAddress(h: nat, b: nat, x: nat, z: nat)
    ensures b * (h * MTK) + ((x / R * R + x % R) * MTK + (z / R * R + z % R)) == (b * h + x) * MTK + z
  {
    assert b * (h * MTK) == b * h * MTK;
  }
}
