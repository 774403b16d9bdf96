/** The packing library's loops over flat arrays, and the reference matrix product. */
module Packing {
  import opened Arith
  import opened Layout
  import opened Sums

  /** The first n packed elements have been copied from the row-tile order of a. */
  ghost predicate RowPacked<T>(a: seq<T>, packed: seq<T>, rows: nat, cols: nat, n: nat)
    requires |a| >= rows * cols && |packed| >= n && n <= Packed(rows, cols)
  {
    forall d: nat :: d < n ==> cols / R > 0 && RowTileSource(d, cols) < |a| && packed[d] == a[RowTileSource(d, cols)]
  }

  ghost predicate ColPacked<T>(a: seq<T>, packed: seq<T>, rows: nat, cols: nat, n: nat)
    requires |a| >= rows * cols && |packed| >= n && n <= Packed(rows, cols)
  {
    forall d: nat :: d < n ==>
      rows / R > 0 && ColTileSource(d, rows, cols) < |a| && packed[d] == a[ColTileSource(d, rows, cols)]
  }

  /** Element (i, j) of the row-major matrix lies in its 8 x 8 tile, tiles in rows, rows of eight in a tile. */
  ghost predicate InRowTile<T>(a: seq<T>, packed: seq<T>, cols: nat, i: nat, j: nat) {
    var d := (i / 8 * (cols / 8) + j / 8) * 64 + i % 8 * 8 + j % 8;
    0 <= d < |packed| && 0 <= i * cols + j < |a| && packed[d] == a[i * cols + j]
  }

  /** ... with tiles in columns. */
  ghost predicate InColTile<T>(a: seq<T>, packed: seq<T>, rows: nat, cols: nat, i: nat, j: nat) {
    var d := (j / 8 * (rows / 8) + i / 8) * 64 + i % 8 * 8 + j % 8;
    0 <= d < |packed| && 0 <= i * cols + j < |a| && packed[d] == a[i * cols + j]
  }

  lemma RowTiles<T>(a: seq<T>, packed: seq<T>, rows: nat, cols: nat)
    requires |a| >= rows * cols && |packed| >= Packed(rows, cols) && RowPacked(a, packed, rows, cols, Packed(rows, cols))
    ensures forall i: nat, j: nat :: i < rows / 8 * 8 && j < cols / 8 * 8 ==> InRowTile(a, packed, cols, i, j)
  {
    forall i: nat, j: nat | i < rows / 8 * 8 && j < cols / 8 * 8 ensures InRowTile(a, packed, cols, i, j) {
      RowTileAt(i / 8, j / 8, i % 8, j % 8, rows, cols);
      assert i / 8 * 8 + i % 8 == i && j / 8 * 8 + j % 8 == j;
    }
  }

  lemma ColTiles<T>(a: seq<T>, packed: seq<T>, rows: nat, cols: nat)
    requires |a| >= rows * cols && |packed| >= Packed(rows, cols) && ColPacked(a, packed, rows, cols, Packed(rows, cols))
    ensures forall i: nat, j: nat :: i < rows / 8 * 8 && j < cols / 8 * 8 ==> InColTile(a, packed, rows, cols, i, j)
  {
    forall i: nat, j: nat | i < rows / 8 * 8 && j < cols / 8 * 8 ensures InColTile(a, packed, rows, cols, i, j) {
      ColTileAt(j / 8, i / 8, i % 8, j % 8, rows, cols);
      assert i / 8 * 8 + i % 8 == i && j / 8 * 8 + j % 8 == j;
    }
  }

  lemma PackedFits(rows: nat, cols: nat)
    ensures Packed(rows, cols) <= rows * cols
  {
    var z, k := rows / R, cols / R;
    assert z * R * (k * R) == z * k * TILE;
    MulMonotone(z * R, rows, k * R);
    MulMonotone(k * R, cols, rows);
  }

  method PackA<T>(A: array<T>, packed: array<T>, M: nat, K: nat)
    requires A.Length >= M * K && packed.Length >= M * K && A != packed
    modifies packed
    ensures Packed(M, K) <= packed.Length && RowPacked(A[..], packed[..], M, K, Packed(M, K))
    ensures forall i: nat, j: nat :: i < M / 8 * 8 && j < K / 8 * 8 ==> InRowTile(A[..], packed[..], K, i, j)
    ensures packed[Packed(M, K)..] == old(packed[Packed(M, K)..])
  {
    PackTilesA(A, packed, M, K);
    RowTiles(A[..], packed[..], M, K);
  }

  method PackTilesA<T>(A: array<T>, packed: array<T>, M: nat, K: nat)
    requires A.Length >= M * K && packed.Length >= M * K && A != packed
    modifies packed
    ensures Packed(M, K) <= packed.Length && RowPacked(A[..], packed[..], M, K, Packed(M, K))
    ensures packed[Packed(M, K)..] == old(packed[Packed(M, K)..])
  {
    PackedFits(M, K);
    var mTiles, kTiles := M / R, K / R;
    for z := 0 to mTiles
      invariant 0 <= z * kTiles * TILE <= Packed(M, K)
      invariant RowPacked(A[..], packed[..], M, K, z * kTiles * TILE)
      invariant packed[Packed(M, K)..] == old(packed[Packed(M, K)..])
    {
      assert (z + 1) * kTiles == z * kTiles + kTiles;
      MulMonotone(z + 1, mTiles, kTiles);
      for ki := 0 to kTiles
        invariant RowPacked(A[..], packed[..], M, K, (z * kTiles + ki) * TILE)
        invariant packed[Packed(M, K)..] == old(packed[Packed(M, K)..])
      {
        PackTileA(A, packed, M, K, z, ki);
      }
    }
  }

  method PackTileA<T>(A: array<T>, packed: array<T>, M: nat, K: nat, z: nat, ki: nat)
    requires A.Length >= M * K && packed.Length >= M * K && A != packed && z < M / R && ki < K / R
    requires 0 <= (z * (K / R) + ki + 1) * TILE <= Packed(M, K) <= packed.Length
    requires RowPacked(A[..], packed[..], M, K, (z * (K / R) + ki) * TILE)
    modifies packed
    ensures RowPacked(A[..], packed[..], M, K, (z * (K / R) + ki + 1) * TILE)
    ensures packed[Packed(M, K)..] == old(packed[Packed(M, K)..])
  {
    var offset := (z * (K / R) + ki) * TILE;
    for r := 0 to R
      invariant RowPacked(A[..], packed[..], M, K, offset + r * R)
      invariant packed[Packed(M, K)..] == old(packed[Packed(M, K)..])
    {
      for c := 0 to R
        invariant RowPacked(A[..], packed[..], M, K, offset + r * R + c)
        invariant packed[Packed(M, K)..] == old(packed[Packed(M, K)..])
      {
        RowTileAt(z, ki, r, c, M, K);
        var src := (z * R + r) * K + (ki * R + c);
        var dst := offset + r * R + c;
        packed[dst] := A[src];
      }
    }
  }

  method PackB<T>(B: array<T>, packed: array<T>, K: nat, N: nat)
    requires B.Length >= K * N && packed.Length >= K * N && B != packed
    modifies packed
    ensures Packed(K, N) <= packed.Length && ColPacked(B[..], packed[..], K, N, Packed(K, N))
    ensures forall i: nat, j: nat :: i < K / 8 * 8 && j < N / 8 * 8 ==> InColTile(B[..], packed[..], K, N, i, j)
    ensures packed[Packed(K, N)..] == old(packed[Packed(K, N)..])
  {
    PackTilesB(B, packed, K, N);
    ColTiles(B[..], packed[..], K, N);
  }

  method PackTilesB<T>(B: array<T>, packed: array<T>, K: nat, N: nat)
    requires B.Length >= K * N && packed.Length >= K * N && B != packed
    modifies packed
    ensures Packed(K, N) <= packed.Length && ColPacked(B[..], packed[..], K, N, Packed(K, N))
    ensures packed[Packed(K, N)..] == old(packed[Packed(K, N)..])
  {
    PackedFits(K, N);
    var kTiles, nTiles := K / R, N / R;
    assert nTiles * kTiles == kTiles * nTiles;
    for nj := 0 to nTiles
      invariant 0 <= nj * kTiles * TILE <= Packed(K, N)
      invariant ColPacked(B[..], packed[..], K, N, nj * kTiles * TILE)
      invariant packed[Packed(K, N)..] == old(packed[Packed(K, N)..])
    {
      assert (nj + 1) * kTiles == nj * kTiles + kTiles;
      MulMonotone(nj + 1, nTiles, kTiles);
      for ki := 0 to kTiles
        invariant ColPacked(B[..], packed[..], K, N, (nj * kTiles + ki) * TILE)
        invariant packed[Packed(K, N)..] == old(packed[Packed(K, N)..])
      {
        PackTileB(B, packed, K, N, nj, ki);
      }
    }
  }

  method PackTileB<T>(B: array<T>, packed: array<T>, K: nat, N: nat, nj: nat, ki: nat)
    requires B.Length >= K * N && packed.Length >= K * N && B != packed && nj < N / R && ki < K / R
    requires 0 <= (nj * (K / R) + ki + 1) * TILE <= Packed(K, N) <= packed.Length
    requires ColPacked(B[..], packed[..], K, N, (nj * (K / R) + ki) * TILE)
    modifies packed
    ensures ColPacked(B[..], packed[..], K, N, (nj * (K / R) + ki + 1) * TILE)
    ensures packed[Packed(K, N)..] == old(packed[Packed(K, N)..])
  {
    var offset := (nj * (K / R) + ki) * TILE;
    for r := 0 to R
      invariant ColPacked(B[..], packed[..], K, N, offset + r * R)
      invariant packed[Packed(K, N)..] == old(packed[Packed(K, N)..])
    {
      for c := 0 to R
        invariant ColPacked(B[..], packed[..], K, N, offset + r * R + c)
        invariant packed[Packed(K, N)..] == old(packed[Packed(K, N)..])
      {
        ColTileAt(nj, ki, r, c, K, N);
        var src := (ki * R + r) * N + (nj * R + c);
        var dst := offset + r * R + c;
        packed[dst] := B[src];
      }
    }
  }

  /** The intended unpacking: tile order back to row-major order. */
  method UnpackC<T>(packed: array<T>, C: array<T>, M: nat, N: nat)
    requires packed.Length >= M * N && C.Length >= M * N && packed != C
    modifies C
    ensures Packed(M, N) <= packed.Length && RowPacked(C[..], packed[..], M, N, Packed(M, N))
    ensures forall i: nat, j: nat :: i < M / 8 * 8 && j < N / 8 * 8 ==> InRowTile(C[..], packed[..], N, i, j)
    ensures forall i: nat :: i < C.Length && !(i < M * N && RowTiled(i, M, N)) ==> C[i] == old(C[i])
  {
    UnpackTiles(packed, C, M, N);
    RowTiles(C[..], packed[..], M, N);
  }

  method UnpackTiles<T>(packed: array<T>, C: array<T>, M: nat, N: nat)
    requires packed.Length >= M * N && C.Length >= M * N && packed != C
    modifies C
    ensures Packed(M, N) <= packed.Length && RowPacked(C[..], packed[..], M, N, Packed(M, N))
    ensures forall i: nat :: i < C.Length && !(i < M * N && RowTiled(i, M, N)) ==> C[i] == old(C[i])
  {
    PackedFits(M, N);
    var mTiles, nTiles := M / R, N / R;
    for z := 0 to mTiles
      invariant 0 <= z * nTiles * TILE <= Packed(M, N)
      invariant RowPacked(C[..], packed[..], M, N, z * nTiles * TILE)
      invariant forall i: nat :: i < C.Length && !(i < M * N && RowTiled(i, M, N)) ==> C[i] == old(C[i])
    {
      assert (z + 1) * nTiles == z * nTiles + nTiles;
      MulMonotone(z + 1, mTiles, nTiles);
      for nj := 0 to nTiles
        invariant RowPacked(C[..], packed[..], M, N, (z * nTiles + nj) * TILE)
        invariant forall i: nat :: i < C.Length && !(i < M * N && RowTiled(i, M, N)) ==> C[i] == old(C[i])
      {
        UnpackTile(packed, C, M, N, z, nj);
      }
    }
  }

  /** One 8 x 8 tile of the intended unpacking. */
  method UnpackTile<T>(packed: array<T>, C: array<T>, M: nat, N: nat, z: nat, nj: nat)
    requires packed.Length >= M * N && C.Length >= M * N && packed != C && z < M / R && nj < N / R
    requires 0 <= (z * (N / R) + nj + 1) * TILE <= Packed(M, N) <= packed.Length
    requires RowPacked(C[..], packed[..], M, N, (z * (N / R) + nj) * TILE)
    modifies C
    ensures RowPacked(C[..], packed[..], M, N, (z * (N / R) + nj + 1) * TILE)
    ensures forall i: nat :: i < C.Length && !(i < M * N && RowTiled(i, M, N)) ==> C[i] == old(C[i])
  {
    var offset := (z * (N / R) + nj) * TILE;
    for r := 0 to R
      invariant RowPacked(C[..], packed[..], M, N, offset + r * R)
      invariant forall i: nat :: i < C.Length && !(i < M * N && RowTiled(i, M, N)) ==> C[i] == old(C[i])
    {
      for c := 0 to R
        invariant RowPacked(C[..], packed[..], M, N, offset + r * R + c)
        invariant forall i: nat :: i < C.Length && !(i < M * N && RowTiled(i, M, N)) ==> C[i] == old(C[i])
      {
        RowTileAt(z, nj, r, c, M, N);
        var src := offset + r * R + c;
        var dst := (z * R + r) * N + (nj * R + c);
        forall d: nat | d <= src { RowTileDestOfSource(d, M, N); }
        C[dst] := packed[src];
      }
    }
  }

  /**
   The loop as it is written: its destination index is a comma expression, whose value is the column alone, so
   every row of tiles overwrites the same N / 8 * 8 elements and the last row of the last tile row stays.
   */
  method UnpackCAsWritten<T>(packed: array<T>, C: array<T>, M: nat, N: nat)
    requires packed.Length >= M * N && C.Length >= M * N && packed != C
    modifies C
    ensures M / R > 0 ==> Packed(M, N) <= packed.Length && N / R * R <= C.Length
    ensures M / R > 0 ==> forall j: nat :: j < N / R * R ==>
      0 <= LastRow(j, M, N) < packed.Length && C[j] == packed[LastRow(j, M, N)]
    ensures forall j: nat :: j < C.Length && (M / R == 0 || j >= N / R * R) ==> C[j] == old(C[j])
  {
    PackedFits(M, N);
    if M / R > 0 { MulMonotone(1, M, N); }
    var mTiles := M / R;
    for z := 0 to mTiles
      invariant z > 0 ==> Overwritten(packed, C, z - 1, N)
      invariant forall j: nat :: j < C.Length && (z == 0 || j >= N / R * R) ==> C[j] == old(C[j])
    {
      OverwriteTileRow(packed, C, M, N, z);
    }
  }

  /** The start of C holds the last row of tile row z. */
  ghost predicate Overwritten<T>(packed: array<T>, C: array<T>, z: nat, N: nat)
    reads packed, C
  {
    N / R * R <= C.Length && forall j: nat :: j < N / R * R ==> 0 <= RowEnd(j, z, N) < packed.Length && C[j] == packed[RowEnd(j, z, N)]
  }

  method OverwriteTileRow<T>(packed: array<T>, C: array<T>, M: nat, N: nat, z: nat)
    requires packed.Length >= M * N && C.Length >= N / R * R && packed != C && z < M / R
    modifies C
    ensures Overwritten(packed, C, z, N)
    ensures forall j: nat :: j < C.Length && j >= N / R * R ==> C[j] == old(C[j])
  {
    var nTiles := N / R;
    for nj := 0 to nTiles
      invariant forall j: nat :: j < nj * R ==> 0 <= RowEnd(j, z, N) < packed.Length && C[j] == packed[RowEnd(j, z, N)]
      invariant forall j: nat :: j < C.Length && j >= nTiles * R ==> C[j] == old(C[j])
    {
      OverwriteTile(packed, C, M, N, z, nj);
    }
  }

  /** Packed position of row 7 of tile row z, column j. */
  function RowEnd(j: nat, z: nat, N: nat): nat { (z * (N / R) + j / R) * TILE + 56 + j % R }

  function LastRow(j: nat, M: nat, N: nat): int { if M / R == 0 then 0 else RowEnd(j, M / R - 1, N) }

  method OverwriteTile<T>(packed: array<T>, C: array<T>, M: nat, N: nat, z: nat, nj: nat)
    requires packed.Length >= M * N && C.Length >= N / R * R && packed != C && z < M / R && nj < N / R
    modifies C
    ensures forall j: nat :: nj * R <= j < nj * R + R ==> 0 <= RowEnd(j, z, N) < packed.Length && C[j] == packed[RowEnd(j, z, N)]
    ensures forall j: nat :: j < C.Length && !(nj * R <= j < nj * R + R) ==> C[j] == old(C[j])
  {
    PackedFits(M, N);
    var offset := (z * (N / R) + nj) * TILE;
    RowTileAt(z, nj, 0, 0, M, N);
    RowTileAt(z, nj, 7, 7, M, N);
    for r := 0 to R
      invariant r > 0 ==> forall j: nat :: nj * R <= j < nj * R + R ==> C[j] == packed[offset + (r - 1) * R + (j - nj * R)]
      invariant forall j: nat :: j < C.Length && !(nj * R <= j < nj * R + R) ==> C[j] == old(C[j])
    {
      for c := 0 to R
        invariant forall j: nat :: nj * R <= j < nj * R + c ==> C[j] == packed[offset + r * R + (j - nj * R)]
        invariant forall j: nat :: j < C.Length && !(nj * R <= j < nj * R + R) ==> C[j] == old(C[j])
      {
        var src := offset + r * R + c;
        var dst := nj * R + c;
        C[dst] := packed[src];
      }
    }
    forall j: nat | nj * R <= j < nj * R + R
      ensures 0 <= RowEnd(j, z, N) < packed.Length && C[j] == packed[RowEnd(j, z, N)]
    {
      assert j / R == nj && j % R == j - nj * R;
    }
  }

  /** The reference product: one running sum per element. */
  method CpuGemm(A: array<real>, B: array<real>, C: array<real>, M: nat, N: nat, K: nat)
    requires A.Length >= M * K && B.Length >= K * N && C.Length >= M * N && A != C && B != C
    modifies C
    ensures forall x: nat :: x < M * N && N > 0 ==> C[x] == Dot(A[..], B[..], N, K, x / N, x % N)
    ensures forall x: nat :: M * N <= x < C.Length ==> C[x] == old(C[x])
  {
    ghost var a, b := A[..], B[..];
    for i := 0 to M
      invariant A[..] == a && B[..] == b && 0 <= i * N <= M * N
      invariant forall x: nat :: x < i * N && N > 0 ==> C[x] == Dot(a, b, N, K, x / N, x % N)
      invariant forall x: nat :: M * N <= x < C.Length ==> C[x] == old(C[x])
    {
      assert (i + 1) * N == i * N + N;
      MulMonotone(i + 1, M, N);
      for j := 0 to N
        invariant A[..] == a && B[..] == b
        invariant forall x: nat :: x < i * N + j && N > 0 ==> C[x] == Dot(a, b, N, K, x / N, x % N)
        invariant forall x: nat :: M * N <= x < C.Length ==> C[x] == old(C[x])
      {
        var sum := RunningSum(A, B, M, N, K, i, j);
        DivMod(i, j, N);
        C[i * N + j] := sum;
      }
    }
  }

  method RunningSum(A: array<real>, B: array<real>, M: nat, N: nat, K: nat, i: nat, j: nat) returns (sum: real)
    requires A.Length >= M * K && B.Length >= K * N && i < M && j < N
    ensures sum == Dot(A[..], B[..], N, K, i, j)
  {
    sum := 0.0;
    for k := 0 to K
      invariant sum == Sum(k, Terms(A[..], B[..], N, K, i, j))
    {
      DigitsBelow(i, M, k, K);
      DigitsBelow(k, K, j, N);
      sum := sum + A[i * K + k] * B[k * N + j];
    }
  }

  function At(s: seq<real>, i: int): real { if 0 <= i < |s| then s[i] else 0.0 }

  function Terms(A: seq<real>, B: seq<real>, N: nat, K: nat, i: int, j: int): int -> real {
    k => At(A, i * K + k) * At(B, k * N + j)
  }

  /** Entry (i, j) of the product of a row-major matrix with K columns and one with N columns. */
  function Dot(A: seq<real>, B: seq<real>, N: nat, K: nat, i: int, j: int): real { Sum(K, Terms(A, B, N, K, i, j)) }

  /** One 8-wide K slice of a packed row times a packed column is that slice of the dot product. */
  lemma PackedSlice(A: seq<real>, B: seq<real>, Ap: seq<real>, Bp: seq<real>, M: nat, N: nat, K: nat,
                    z: nat, nj: nat, r: nat, c: nat, ki: nat, s: nat)
    requires |A| >= M * K && |B| >= K * N && |Ap| >= Packed(M, K) && |Bp| >= Packed(K, N)
    requires RowPacked(A, Ap, M, K, Packed(M, K)) && ColPacked(B, Bp, K, N, Packed(K, N))
    requires z < M / R && nj < N / R && r < R && c < R && ki < K / R && s < R
    ensures BlockedTerms(Ap, Bp, K, z, nj, r, c)(ki, s) == Terms(A, B, N, K, z * R + r, nj * R + c)(ki * R + s)
  {
    PackedA(A, Ap, M, K, z, ki, r, s);
    PackedB(B, Bp, K, N, nj, ki, s, c);
    SameTerms(A, B, Ap, Bp, N, K, z, nj, r, c, ki, s);
  }

  lemma SameTerms(A: seq<real>, B: seq<real>, Ap: seq<real>, Bp: seq<real>, N: nat, K: nat, z: nat, nj: nat, r: nat, c: nat,
                  ki: nat, s: nat)
    requires At(Ap, (z * (K / R) + ki) * TILE + r * R + s) == At(A, (z * R + r) * K + (ki * R + s))
    requires At(Bp, (nj * (K / R) + ki) * TILE + s * R + c) == At(B, (ki * R + s) * N + (nj * R + c))
    ensures BlockedTerms(Ap, Bp, K, z, nj, r, c)(ki, s) == Terms(A, B, N, K, z * R + r, nj * R + c)(ki * R + s)
  {}

  lemma PackedA(A: seq<real>, Ap: seq<real>, M: nat, K: nat, z: nat, ki: nat, r: nat, s: nat)
    requires |A| >= M * K && |Ap| >= Packed(M, K) && RowPacked(A, Ap, M, K, Packed(M, K))
    requires z < M / R && ki < K / R && r < R && s < R
    ensures At(Ap, (z * (K / R) + ki) * TILE + r * R + s) == At(A, (z * R + r) * K + (ki * R + s))
  {
    RowTileAt(z, ki, r, s, M, K);
  }

  lemma PackedB(B: seq<real>, Bp: seq<real>, K: nat, N: nat, nj: nat, ki: nat, s: nat, c: nat)
    requires |B| >= K * N && |Bp| >= Packed(K, N) && ColPacked(B, Bp, K, N, Packed(K, N))
    requires nj < N / R && ki < K / R && s < R && c < R
    ensures At(Bp, (nj * (K / R) + ki) * TILE + s * R + c) == At(B, (ki * R + s) * N + (nj * R + c))
  {
    ColTileAt(nj, ki, s, c, K, N);
  }

  function BlockedTerms(Ap: seq<real>, Bp: seq<real>, K: nat, z: nat, nj: nat, r: nat, c: nat): (int, int) -> real {
    (ki, s) => At(Ap, (z * (K / R) + ki) * TILE + r * R + s) * At(Bp, (nj * (K / R) + ki) * TILE + s * R + c)
  }

  /** Tile products accumulated over the K tiles. */
  function BlockedSum(Ap: seq<real>, Bp: seq<real>, K: nat, z: nat, nj: nat, r: nat, c: nat): real {
    SumGrid(K / R, R, BlockedTerms(Ap, Bp, K, z, nj, r, c))
  }

  /** Tile-by-tile multiplication of packed operands, accumulated over K tiles, is the dot product. */
  lemma BlockedIsDot(A: seq<real>, B: seq<real>, Ap: seq<real>, Bp: seq<real>, M: nat, N: nat, K: nat,
                     z: nat, nj: nat, r: nat, c: nat)
    requires |A| >= M * K && |B| >= K * N && |Ap| >= Packed(M, K) && |Bp| >= Packed(K, N) && K % R == 0
    requires RowPacked(A, Ap, M, K, Packed(M, K)) && ColPacked(B, Bp, K, N, Packed(K, N))
    requires z < M / R && nj < N / R && r < R && c < R
    ensures BlockedSum(Ap, Bp, K, z, nj, r, c) == Dot(A, B, N, K, z * R + r, nj * R + c)
  {
    TermsAgree(A, B, Ap, Bp, M, N, K, z, nj, r, c);
    FlatSum(K, BlockedTerms(Ap, Bp, K, z, nj, r, c), Terms(A, B, N, K, z * R + r, nj * R + c));
  }

  /** A sum in blocks of eight. */
  lemma FlatSum(K: nat, f: (int, int) -> real, h: int -> real)
    requires K % R == 0 && forall ki, s :: 0 <= ki < K / R && 0 <= s < R ==> f(ki, s) == h(ki * R + s)
    ensures SumGrid(K / R, R, f) == Sum(K, h)
  {
    SumGridFlat(K / R, R, f, h);
    assert K / R * R == K;
  }

  lemma TermsAgree(A: seq<real>, B: seq<real>, Ap: seq<real>, Bp: seq<real>, M: nat, N: nat, K: nat,
                   z: nat, nj: nat, r: nat, c: nat)
    requires |A| >= M * K && |B| >= K * N && |Ap| >= Packed(M, K) && |Bp| >= Packed(K, N)
    requires RowPacked(A, Ap, M, K, Packed(M, K)) && ColPacked(B, Bp, K, N, Packed(K, N))
    requires z < M / R && nj < N / R && r < R && c < R
    ensures forall ki, s :: 0 <= ki < K / R && 0 <= s < R ==>
      BlockedTerms(Ap, Bp, K, z, nj, r, c)(ki, s) == Terms(A, B, N, K, z * R + r, nj * R + c)(ki * R + s)
  {
    forall ki, s | 0 <= ki < K / R && 0 <= s < R
      ensures BlockedTerms(Ap, Bp, K, z, nj, r, c)(ki, s) == Terms(A, B, N, K, z * R + r, nj * R + c)(ki * R + s)
    {
      PackedSlice(A, B, Ap, Bp, M, N, K, z, nj, r, c, ki, s);
    }
  }

  /** Every tile of Cp is the accumulated product of the packed operands' tiles. */
  ghost predicate TileProducts(Ap: seq<real>, Bp: seq<real>, Cp: seq<real>, M: nat, N: nat, K: nat)
    requires |Cp| >= Packed(M, N)
  {
    forall z: nat, nj: nat, r: nat, c: nat :: z < M / R && nj < N / R && r < R && c < R ==>
      var d := (z * (N / R) + nj) * TILE + r * R + c;
      0 <= d < |Cp| && Cp[d] == BlockedSum(Ap, Bp, K, z, nj, r, c)
  }

  /**
   Packing both operands, multiplying tile by tile and unpacking gives the matrix product at every element, for
   all dimensions that are multiples of 8.
   */
  lemma BlockedGemmIsGemm(A: seq<real>, B: seq<real>, Ap: seq<real>, Bp: seq<real>, Cp: seq<real>, C: seq<real>,
                          M: nat, N: nat, K: nat, i: nat, j: nat)
    requires M % R == 0 && N % R == 0 && K % R == 0 && i < M && j < N
    requires |A| >= M * K && |B| >= K * N && |C| >= M * N
    requires |Ap| >= Packed(M, K) && |Bp| >= Packed(K, N) && |Cp| >= Packed(M, N)
    requires RowPacked(A, Ap, M, K, Packed(M, K)) && ColPacked(B, Bp, K, N, Packed(K, N))
    requires TileProducts(Ap, Bp, Cp, M, N, K)
    requires RowPacked(C, Cp, M, N, Packed(M, N))
    ensures 0 <= i * N + j < |C| && C[i * N + j] == Dot(A, B, N, K, i, j)
  {
    var z, r, nj, c := i / R, i % R, j / R, j % R;
    InTile(i, M);
    InTile(j, N);
    UnpackedProduct(Ap, Bp, Cp, C, M, N, K, z, nj, r, c);
    BlockedIsDot(A, B, Ap, Bp, M, N, K, z, nj, r, c);
  }

  lemma InTile(i: nat, n: nat)
    requires i < n && n % R == 0
    ensures i / R < n / R && i % R < R && i / R * R + i % R == i
  {}

  lemma UnpackedProduct(Ap: seq<real>, Bp: seq<real>, Cp: seq<real>, C: seq<real>, M: nat, N: nat, K: nat,
                        z: nat, nj: nat, r: nat, c: nat)
    requires |C| >= M * N && |Cp| >= Packed(M, N) && TileProducts(Ap, Bp, Cp, M, N, K) && RowPacked(C, Cp, M, N, Packed(M, N))
    requires z < M / R && nj < N / R && r < R && c < R
    ensures var at := (z * R + r) * N + (nj * R + c); 0 <= at < |C| && C[at] == BlockedSum(Ap, Bp, K, z, nj, r, c)
  {
    RowTileAt(z, nj, r, c, M, N);
    assert Cp[(z * (N / R) + nj) * TILE + r * R + c] == BlockedSum(Ap, Bp, K, z, nj, r, c);
  }

  /** Unpacking what was packed restores the matrix, and packing what was unpacked restores the tiles. */
  lemma RoundTrip<T>(a: seq<T>, packed: seq<T>, b: seq<T>, M: nat, N: nat)
    requires M % R == 0 && N % R == 0 && |a| == M * N && |b| == M * N && |packed| == M * N
    requires Packed(M, N) <= |packed|
    requires RowPacked(a, packed, M, N, Packed(M, N)) && RowPacked(b, packed, M, N, Packed(M, N))
    ensures a == b
  {
    forall i: nat | i < M * N ensures a[i] == b[i] {
      assert N > 0 by { assert N == 0 ==> M * N == 0; }
      DivBelow(i, M, N);
      RowTileSourceOfDest(i, M, N);
    }
  }

  lemma RoundTripTiles<T>(a: seq<T>, packed: seq<T>, again: seq<T>, M: nat, N: nat)
    requires M % R == 0 && N % R == 0 && |a| >= M * N && |again| == |packed| == M * N && Packed(M, N) <= M * N
    requires RowPacked(a, packed, M, N, Packed(M, N)) && RowPacked(a, again, M, N, Packed(M, N))
    ensures packed == again
  {
    assert M / R * R * (N / R * R) == M / R * (N / R) * TILE;
  }

  /**
   What the unpacking as written leaves in a buffer C0: the matrix, exactly if its first row equals its last and
   all other rows were already there.
   */
  lemma AsWrittenRestores<T>(packed: seq<T>, a: seq<T>, C0: seq<T>, C: seq<T>, M: nat, N: nat)
    requires M % R == 0 && N % R == 0 && |a| == |packed| == |C| == |C0| == M * N && Packed(M, N) <= M * N
    requires M > 0 && N <= |a|
    requires RowPacked(a, packed, M, N, Packed(M, N))
    requires forall j: nat :: j < N ==> 0 <= LastRow(j, M, N) < |packed| && C[j] == packed[LastRow(j, M, N)]
    requires C[N..] == C0[N..]
    ensures C == a <==> a[..N] == a[|a| - N..] && a[N..] == C0[N..]
  {
    forall j: nat | j < N ensures C[j] == a[|a| - N..][j] {
      LastRowIs(packed, a, M, N, j);
    }
    assert C[..N] == a[|a| - N..];
    assert C == C[..N] + C[N..] && a == a[..N] + a[N..];
  }

  /** What was packed from the matrix's last row. */
  lemma LastRowIs<T>(packed: seq<T>, a: seq<T>, M: nat, N: nat, j: nat)
    requires M % R == 0 && N % R == 0 && |a| == |packed| == M * N && Packed(M, N) <= M * N && M > 0 && j < N <= |a|
    requires RowPacked(a, packed, M, N, Packed(M, N))
    ensures 0 <= LastRow(j, M, N) < |packed| && packed[LastRow(j, M, N)] == a[|a| - N + j]
  {
    LastRowSource(M, N, j);
    assert packed[LastRow(j, M, N)] == a[RowTileSource(LastRow(j, M, N), N)];
  }

  lemma LastRowSource(M: nat, N: nat, j: nat)
    requires M % R == 0 && N % R == 0 && M > 0 && j < N
    ensures 0 <= LastRow(j, M, N) < Packed(M, N) && RowTileSource(LastRow(j, M, N), N) == M * N - N + j
  {
    assert j / R < N / R && M / R > 0;
    RowTileAt(M / R - 1, j / R, 7, j % R, M, N);
    LastIndex(M, N, j);
  }

  lemma LastIndex(M: nat, N: nat, j: nat)
    requires M % R == 0 && M > 0
    ensures ((M / R - 1) * R + 7) * N + (j / R * R + j % R) == M * N - N + j
  {
    assert (M / R - 1) * R + 7 == M - 1;
    assert (M - 1) * N == M * N - N;
  }

  /**
   The unpacking as written restores a matrix of whole tiles only if there is nothing to restore: with at least
   one tile, the matrix with a 1 in its last row and zeros elsewhere comes back wrong into any zeroed buffer.
   */
  lemma AsWrittenFails(packed: seq<int>, a: seq<int>, C: seq<int>, M: nat, N: nat)
    requires M % R == 0 && N % R == 0 && |a| == |packed| == |C| == M * N && Packed(M, N) <= M * N
    requires a == seq(M * N, i => if i == M * N - N then 1 else 0)
    requires RowPacked(a, packed, M, N, Packed(M, N))
    requires M / R > 0 ==> forall j: nat :: j < N / R * R ==>
      j < |C| && 0 <= LastRow(j, M, N) < |packed| && C[j] == packed[LastRow(j, M, N)]
    requires forall j: nat :: j < |C| && (M / R == 0 || j >= N / R * R) ==> C[j] == 0
    ensures C == a <==> M == 0 || N == 0
  {
    if M > 0 && N > 0 {
      Multiple(M, N);
      assert M * N - N == (M - 1) * N >= N by { MulMonotone(1, M - 1, N); assert (M - 1) * N == M * N - N; }
      assert C[M * N - N] == 0;
    } else {
      assert M * N == 0;
    }
  }
}
