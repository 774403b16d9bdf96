/** The DMA stride walks of the 4-row generator, and the layouts they produce. */
module Strides {
  import opened Arith
  import opened Layout
  import opened Packing

  /** One loop of a walk: how often, and how far apart. Outermost loop first. */
  datatype Dim = Dim(size: nat, stride: nat)

  function WalkSize(dims: seq<Dim>): nat {
    if dims == [] then 1 else dims[0].size * WalkSize(dims[1..])
  }

  /** Address of the q-th element a walk visits. */
  function WalkAddr(dims: seq<Dim>, q: nat): nat {
    if dims == [] || WalkSize(dims[1..]) == 0 then 0
    else q / WalkSize(dims[1..]) * dims[0].stride + WalkAddr(dims[1..], q % WalkSize(dims[1..]))
  }

  /** Mem tile side of A_L2L1: reads the L2 object. */
  function ADimsOut(m: nat, k: nat, mtk: nat): seq<Dim>
    requires k > 0
  {
    [Dim(mtk / k * 4, m * k / 4), Dim(k / R, R), Dim(m / 4, k), Dim(R, 1)]
  }

  /** Core side of A_L2L1: writes the L1 object. */
  function ADimsIn(m: nat, k: nat): seq<Dim> {
    [Dim(k / R, R * R), Dim(m / 4 / R, R * k), Dim(R * R, 1)]
  }

  /** Mem tile side of C_L2L3: reads one core's slot. */
  function CDims(m: nat, n: nat): seq<Dim> {
    [Dim(m / R, R * n), Dim(R, R), Dim(n / R, R * R), Dim(R, 1)]
  }

  lemma Walk1(d: Dim, q: nat)
    requires q < d.size
    ensures WalkSize([d]) == d.size && WalkAddr([d], q) == q * d.stride
  {
    assert [d][1..] == [];
  }

  lemma WalkStep(d: Dim, rest: seq<Dim>, x: nat, q: nat)
    requires q < WalkSize(rest)
    ensures WalkSize([d] + rest) == d.size * WalkSize(rest)
    ensures 0 <= x * WalkSize(rest) + q
    ensures WalkAddr([d] + rest, x * WalkSize(rest) + q) == x * d.stride + WalkAddr(rest, q)
  {
    assert ([d] + rest)[1..] == rest;
    MulMonotone(0, x, WalkSize(rest));
    DivMod(x, q, WalkSize(rest));
  }

  /** The producer walk, by digits: object b, K tile ki, row, column within the tile. */
  lemma OutAddr(m: nat, k: nat, mtk: nat, b: nat, ki: nat, row: nat, c: nat)
    requires k > 0 && m % 4 == 0 && k % R == 0 && ki < k / R && row < m / 4 && c < R
    ensures var q := b * (m / 4 * k) + (ki * (m / 4 * R) + row * R + c);
      q >= 0 && WalkAddr(ADimsOut(m, k, mtk), q) == b * (m / 4 * k) + (row * k + ki * R + c)
  {
    var d0, rest := Dim(mtk / k * 4, m * k / 4), [Dim(k / R, R), Dim(m / 4, k), Dim(R, 1)];
    assert [d0] + rest == ADimsOut(m, k, mtk);
    BlockAddrOut(m, k, ki, row, c);
    WalkStep(d0, rest, b, ki * (m / 4 * R) + row * R + c);
    QuarterSize(m, k);
  }

  lemma QuarterSize(m: nat, k: nat)
    requires m % 4 == 0
    ensures m * k / 4 == m / 4 * k
  {
    assert m / 4 * 4 == m;
    assert m * k == m / 4 * k * 4;
  }

  /** The producer walk within one object. */
  lemma BlockAddrOut(m: nat, k: nat, ki: nat, row: nat, c: nat)
    requires k > 0 && k % R == 0 && ki < k / R && row < m / 4 && c < R
    ensures var rest := [Dim(k / R, R), Dim(m / 4, k), Dim(R, 1)]; var q := ki * (m / 4 * R) + row * R + c;
      0 <= q < WalkSize(rest) == m / 4 * k && WalkAddr(rest, q) == row * k + ki * R + c
  {
    var d1, d2, d3 := Dim(k / R, R), Dim(m / 4, k), Dim(R, 1);
    Walk1(d3, c);
    assert [d2] + [d3] == [d2, d3] && [d1] + [d2, d3] == [d1, d2, d3];
    WalkStep(d2, [d3], row, c);
    DigitsBelow(row, m / 4, c, R);
    WalkStep(d1, [d2, d3], ki, row * R + c);
    DigitsBelow(ki, k / R, row * R + c, m / 4 * R);
    BlockSize(m / 4, k);
  }

  lemma BlockSize(h: nat, k: nat)
    requires k % R == 0
    ensures k / R * (h * R) == h * k
  {
    assert k / R * R == k;
  }

  /** The consumer walk, by digits: K tile ki, tile row z, element e. */
  lemma InAddr(m: nat, k: nat, ki: nat, z: nat, e: nat)
    requires ki < k / R && z < m / 4 / R && e < TILE && k % R == 0
    ensures var q := ki * (m / 4 / R * TILE) + z * TILE + e;
      q >= 0 && WalkAddr(ADimsIn(m, k), q) == (z * (k / R) + ki) * TILE + e
  {
    var d0, rest := Dim(k / R, R * R), [Dim(m / 4 / R, R * k), Dim(R * R, 1)];
    assert [d0] + rest == ADimsIn(m, k);
    InTile(m / 4 / R, k, z, e);
    WalkStep(d0, rest, ki, z * TILE + e);
    TileRow(z, k);
  }

  lemma InTile(rows: nat, k: nat, z: nat, e: nat)
    requires z < rows && e < TILE
    ensures var rest := [Dim(rows, R * k), Dim(R * R, 1)];
      z * TILE + e < WalkSize(rest) == rows * TILE && WalkAddr(rest, z * TILE + e) == z * (R * k) + e
  {
    var d1, d2 := Dim(rows, R * k), Dim(R * R, 1);
    assert [d1] + [d2] == [d1, d2];
    Walk1(d2, e);
    WalkStep(d1, [d2], z, e);
  }

  /** L1 object b after the transfer: element q of the stream, read by one walk and written by the other. */
  ghost predicate Delivered<T>(L2: seq<T>, L1: seq<T>, m: nat, k: nat, mtk: nat, b: nat)
    requires k > 0
  {
    forall q: nat :: q < m / 4 * k && 0 <= b * (m / 4 * k) + q ==>
      && WalkAddr(ADimsIn(m, k), q) < |L1| && WalkAddr(ADimsOut(m, k, mtk), b * (m / 4 * k) + q) < |L2|
      && L1[WalkAddr(ADimsIn(m, k), q)] == L2[WalkAddr(ADimsOut(m, k, mtk), b * (m / 4 * k) + q)]
  }

  lemma DeliveredAt<T>(L2: seq<T>, L1: seq<T>, m: nat, k: nat, mtk: nat, b: nat, z: nat, ki: nat, r: nat, c: nat)
    requires k > 0 && m % (4 * R) == 0 && k % R == 0 && Delivered(L2, L1, m, k, mtk, b)
    requires z < m / 4 / R && ki < k / R && r < R && c < R
    ensures var d := (z * (k / R) + ki) * TILE + r * R + c;
      var src := b * (m / 4 * k) + ((z * R + r) * k + (ki * R + c));
      0 <= d < |L1| && 0 <= src < |L2| && L1[d] == L2[src]
  {
    StreamIn(m, k, z, ki, r, c);
    StreamOut(m, k, mtk, b, z, ki, r, c);
    var q: nat := StreamAt(m, z, ki, r, c);
    assert L1[WalkAddr(ADimsIn(m, k), q)] == L2[WalkAddr(ADimsOut(m, k, mtk), b * (m / 4 * k) + q)];
  }

  /** Where tile element (z, ki, r, c) of an object passes in the object's stream. */
  function StreamAt(m: nat, z: nat, ki: nat, r: nat, c: nat): int { ki * (m / 4 * R) + (z * R + r) * R + c }

  lemma StreamIn(m: nat, k: nat, z: nat, ki: nat, r: nat, c: nat)
    requires m % (4 * R) == 0 && k % R == 0 && z < m / 4 / R && ki < k / R && r < R && c < R
    ensures StreamAt(m, z, ki, r, c) >= 0
    ensures WalkAddr(ADimsIn(m, k), StreamAt(m, z, ki, r, c)) == (z * (k / R) + ki) * TILE + r * R + c
  {
    SamePosition(m, k, z, ki, r, c);
    InAddr(m, k, ki, z, r * R + c);
  }

  lemma StreamOut(m: nat, k: nat, mtk: nat, b: nat, z: nat, ki: nat, r: nat, c: nat)
    requires k > 0 && m % (4 * R) == 0 && k % R == 0 && z < m / 4 / R && ki < k / R && r < R && c < R
    ensures 0 <= StreamAt(m, z, ki, r, c) < m / 4 * k && 0 <= b * (m / 4 * k)
    ensures WalkAddr(ADimsOut(m, k, mtk), b * (m / 4 * k) + StreamAt(m, z, ki, r, c))
         == b * (m / 4 * k) + ((z * R + r) * k + (ki * R + c))
  {
    RowOfBlock(m, z, r);
    StreamOutRow(m, k, mtk, b, z * R + r, ki, c);
  }

  lemma RowOfBlock(m: nat, z: nat, r: nat)
    requires m % (4 * R) == 0 && z < m / 4 / R && r < R
    ensures m % 4 == 0 && z * R + r < m / 4
  {}

  lemma StreamOutRow(m: nat, k: nat, mtk: nat, b: nat, row: nat, ki: nat, c: nat)
    requires k > 0 && m % 4 == 0 && k % R == 0 && row < m / 4 && ki < k / R && c < R
    ensures var q := ki * (m / 4 * R) + row * R + c;
      && 0 <= q < m / 4 * k && 0 <= b * (m / 4 * k)
      && WalkAddr(ADimsOut(m, k, mtk), b * (m / 4 * k) + q) == b * (m / 4 * k) + (row * k + (ki * R + c))
  {
    BlockAddrOut(m, k, ki, row, c);
    MulMonotone(0, b, m / 4 * k);
    OutAddr(m, k, mtk, b, ki, row, c);
  }

  /** Block b of an L2 object in tile order, and its elements. */
  function TiledBlock<T>(L2: seq<T>, m: nat, k: nat, b: nat): seq<T>
    requires k / R > 0 && |L2| > 0
  {
    MulMonotone(0, m / 4, k);
    seq(m / 4 * k, d requires 0 <= d < m / 4 * k => Block(L2, m, k, b, d))
  }

  /** The transfer of any block of any L2 object has a result: the tiled block. */
  lemma TransferDelivers<T>(L2: seq<T>, m: nat, k: nat, mtk: nat, b: nat)
    requires k > 0 && m > 0 && m % (4 * R) == 0 && k % R == 0 && b * (m / 4 * k) + m / 4 * k <= |L2|
    ensures |L2| > 0 && k / R > 0 && Delivered(L2, TiledBlock(L2, m, k, b), m, k, mtk, b)
  {
    MulMonotone(0, b, m / 4 * k);
    Multiple(m / 4, k);
    var L1 := TiledBlock(L2, m, k, b);
    forall q: nat | q < m / 4 * k
      ensures WalkAddr(ADimsIn(m, k), q) < |L1| && WalkAddr(ADimsOut(m, k, mtk), b * (m / 4 * k) + q) < |L2|
      ensures L1[WalkAddr(ADimsIn(m, k), q)] == L2[WalkAddr(ADimsOut(m, k, mtk), b * (m / 4 * k) + q)]
    {
      TransferElement(L2, m, k, mtk, b, q);
    }
  }

  lemma TransferElement<T>(L2: seq<T>, m: nat, k: nat, mtk: nat, b: nat, q: nat)
    requires k > 0 && m > 0 && m % (4 * R) == 0 && k % R == 0 && 0 <= b * (m / 4 * k) && b * (m / 4 * k) + m / 4 * k <= |L2|
    requires q < m / 4 * k
    ensures var L1 := TiledBlock(L2, m, k, b);
      && WalkAddr(ADimsIn(m, k), q) < |L1| && WalkAddr(ADimsOut(m, k, mtk), b * (m / 4 * k) + q) < |L2|
      && L1[WalkAddr(ADimsIn(m, k), q)] == L2[WalkAddr(ADimsOut(m, k, mtk), b * (m / 4 * k) + q)]
  {
    var z, ki, r, c := StreamDigits(m, k, q);
    StreamIn(m, k, z, ki, r, c);
    StreamOut(m, k, mtk, b, z, ki, r, c);
    RowTileAt(z, ki, r, c, m / 4, k);
    PackedFits(m / 4, k);
  }

  function Block<T>(L2: seq<T>, m: nat, k: nat, b: nat, d: nat): T
    requires k / R > 0 && |L2| > 0
  {
    var at := b * (m / 4 * k) + RowTileSource(d, k);
    if 0 <= at < |L2| then L2[at] else L2[0]
  }

  lemma StreamDigits(m: nat, k: nat, q: nat) returns (z: nat, ki: nat, r: nat, c: nat)
    requires m > 0 && m % (4 * R) == 0 && k % R == 0 && q < m / 4 * k
    ensures z < m / 4 / R && ki < k / R && r < R && c < R && q == StreamAt(m, z, ki, r, c)
  {
    var h := m / 4;
    assert h % R == 0 && h > 0;
    assert h * k == k / R * (h * R);
    DivBelow(q, k / R, h * R);
    var rest := q % (h * R);
    DivBelow(rest, h, R);
    DivBelow(rest / R, h / R, R);
    z, ki, r, c := rest / R / R, q / (h * R), rest / R % R, rest % R;
  }

  lemma DeliveredElement<T>(L2: seq<T>, L1: seq<T>, m: nat, k: nat, mtk: nat, b: nat, d: nat)
    requires k > 0 && m % (4 * R) == 0 && k % R == 0 && Delivered(L2, L1, m, k, mtk, b) && d < Packed(m / 4, k)
    ensures k / R > 0 && d < |L1| && 0 <= b * (m / 4 * k) && b * (m / 4 * k) + RowTileSource(d, k) < |L2|
    ensures L1[d] == L2[b * (m / 4 * k) + RowTileSource(d, k)]
  {
    MulMonotone(0, b, m / 4 * k);
    var z, ki, r, c := RowTileForm(d, m / 4, k);
    DeliveredAt(L2, L1, m, k, mtk, b, z, ki, r, c);
  }

  /** The stream position of a tile element, as the two sides count it. */
  lemma SamePosition(m: nat, k: nat, z: nat, ki: nat, r: nat, c: nat)
    requires m % (4 * R) == 0
    ensures ki * (m / 4 / R * TILE) + z * TILE + (r * R + c) == ki * (m / 4 * R) + (z * R + r) * R + c
  {
    assert m / 4 / R * TILE == m / 4 * R;
  }

  /**
   The two walks leave in L1 exactly what the packing loops compute from the contiguous row-major (m/4) x k block
   number b of the L2 object.
   */
  lemma ATransferPacks<T>(L2: seq<T>, L1: seq<T>, m: nat, k: nat, mtk: nat, b: nat)
    requires k > 0 && m % (4 * R) == 0 && k % R == 0 && Delivered(L2, L1, m, k, mtk, b)
    requires 0 <= b * (m / 4 * k) <= b * (m / 4 * k) + m / 4 * k <= |L2| && |L1| >= Packed(m / 4, k)
    ensures RowPacked(L2[b * (m / 4 * k)..b * (m / 4 * k) + m / 4 * k], L1, m / 4, k, Packed(m / 4, k))
  {
    forall d: nat | d < Packed(m / 4, k)
      ensures k / R > 0 && RowTileSource(d, k) < m / 4 * k && L1[d] == L2[b * (m / 4 * k)..][RowTileSource(d, k)]
    {
      RowTileDestOfSource(d, m / 4, k);
      DeliveredElement(L2, L1, m, k, mtk, b, d);
    }
  }

  /** Stream position at which the producer walk reads address `addr`. */
  function OutPosition(h: nat, k: nat, addr: nat): int
    requires h * k > 0
  {
    var s := h * k;
    addr / s * s + (addr % s % k / R * (h * R) + addr % s / k * R + addr % s % k % R)
  }

  /** The producer walk visits every address of the m x mtk object exactly once. */
  lemma AWalkPermutes(m: nat, k: nat, mtk: nat, addr: nat)
    requires k >= R && m >= 4 && m % 4 == 0 && k % R == 0 && mtk % k == 0 && addr < m * mtk
    ensures m / 4 * k > 0 && 0 <= OutPosition(m / 4, k, addr) < WalkSize(ADimsOut(m, k, mtk)) == m * mtk
    ensures WalkAddr(ADimsOut(m, k, mtk), OutPosition(m / 4, k, addr)) == addr
  {
    var h, s, blocks := m / 4, m / 4 * k, mtk / k * 4;
    Multiple(h, k);
    assert blocks * s == m * mtk by { assert mtk / k * k == mtk && h * 4 == m; assert blocks * s == (mtk / k * k) * (h * 4); }
    DivBelow(addr, blocks, s);
    DivBelow(addr % s, h, k);
    var b, row, x := addr / s, addr % s / k, addr % s % k;
    BlockAddrOut(m, k, x / R, row, x % R);
    DigitsBelow(b, blocks, x / R * (h * R) + row * R + x % R, s);
    OutAddr(m, k, mtk, b, x / R, row, x % R);
    OutSize(m, k, mtk);
  }

  /** ... and no position is a second visit. */
  lemma AWalkInjective(m: nat, k: nat, mtk: nat, b: nat, ki: nat, row: nat, c: nat)
    requires k >= R && m >= 4 && m % 4 == 0 && k % R == 0 && ki < k / R && row < m / 4 && c < R
    ensures var q := b * (m / 4 * k) + (ki * (m / 4 * R) + row * R + c);
      q >= 0 && m / 4 * k > 0 && OutPosition(m / 4, k, WalkAddr(ADimsOut(m, k, mtk), q)) == q
  {
    Multiple(m / 4, k);
    OutAddr(m, k, mtk, b, ki, row, c);
    PositionAt(m / 4, k, b, ki, row, c);
  }

  lemma PositionAt(h: nat, k: nat, b: nat, ki: nat, row: nat, c: nat)
    requires h * k > 0 && k % R == 0 && ki < k / R && row < h && c < R
    ensures var addr := b * (h * k) + (row * k + ki * R + c);
      addr >= 0 && OutPosition(h, k, addr) == b * (h * k) + (ki * (h * R) + row * R + c)
  {
    var x := ki * R + c;
    assert x < k by { assert k / R * R == k; }
    DigitsBelow(row, h, x, k);
    MulMonotone(0, b, h * k);
    DivMod(b, row * k + x, h * k);
    DivMod(row, x, k);
    assert x / R == ki && x % R == c;
  }

  lemma OutSize(m: nat, k: nat, mtk: nat)
    requires k >= R && m >= 4 && k % R == 0
    ensures WalkSize(ADimsOut(m, k, mtk)) == mtk / k * 4 * (m / 4 * k)
  {
    var d0, rest := Dim(mtk / k * 4, m * k / 4), [Dim(k / R, R), Dim(m / 4, k), Dim(R, 1)];
    assert [d0] + rest == ADimsOut(m, k, mtk);
    BlockAddrOut(m, k, 0, 0, 0);
    WalkStep(d0, rest, 0, 0);
  }

  /**
   An L1 object is one K slice of one quarter of the rows of the row-major m x mtk object the shim wrote (its
   element (row, x) at row (b % 4) * m / 4 + row and column (b / 4) * k + x), for all objects, exactly when the
   L2 object holds a single slice. With the generator's mtk of 512 and default k of 64 it does not.
   */
  lemma ObjectIsSliceIff(m: nat, k: nat, mtk: nat)
    requires k >= R && m >= 8 && m % 4 == 0 && k % R == 0 && mtk % k == 0 && mtk > 0
    ensures (forall b: nat, row: nat, x: nat :: b < mtk / k * 4 && row < m / 4 && x < k ==>
               BlockAddr(m, k, b, row, x) == SliceAddr(m, k, mtk, b, row, x)) <==> mtk == k
  {
    if mtk == k {
      forall b: nat, row: nat, x: nat | b < mtk / k * 4 && row < m / 4 && x < k
        ensures BlockAddr(m, k, b, row, x) == SliceAddr(m, k, mtk, b, row, x)
      {
        SliceOfOne(m / 4, k, b, row, x);
      }
    } else {
      assert mtk / k * k == mtk;
      assert BlockAddr(m, k, 0, 1, 0) == k && SliceAddr(m, k, mtk, 0, 1, 0) == mtk;
    }
  }

  /** Mem tile and core side of the single-row generator's A_L2L1. */
  function SerialDims(m: nat, k: nat, mtk: nat): seq<Dim> { [Dim(m, mtk), Dim(k, 1)] }

  lemma SerialAddr(m: nat, k: nat, mtk: nat, row: nat, x: nat)
    requires row < m && x < k
    ensures 0 <= row * k + x < WalkSize(SerialDims(m, k, mtk)) == m * k
    ensures WalkAddr(SerialDims(m, k, mtk), row * k + x) == row * mtk + x
  {
    Walk1(Dim(k, 1), x);
    assert [Dim(m, mtk)] + [Dim(k, 1)] == SerialDims(m, k, mtk);
    WalkStep(Dim(m, mtk), [Dim(k, 1)], row, x);
    DigitsBelow(row, m, x, k);
  }

  /** L1 object after the single-row transfer, whose walk starts anew at the L2 object's first element. */
  ghost predicate SerialDelivered<T>(L2: seq<T>, L1: seq<T>, m: nat, k: nat, mtk: nat) {
    forall q: nat :: q < m * k ==>
      && WalkAddr(SerialDims(m, k, k), q) < |L1| && WalkAddr(SerialDims(m, k, mtk), q) < |L2|
      && L1[WalkAddr(SerialDims(m, k, k), q)] == L2[WalkAddr(SerialDims(m, k, mtk), q)]
  }

  /** It is the first K slice of the L2 object, row by row. */
  lemma SerialElement<T>(L2: seq<T>, L1: seq<T>, m: nat, k: nat, mtk: nat, row: nat, x: nat)
    requires row < m && x < k && SerialDelivered(L2, L1, m, k, mtk)
    ensures 0 <= row * k + x < |L1| && 0 <= row * mtk + x < |L2| && L1[row * k + x] == L2[row * mtk + x]
  {
    SerialAddr(m, k, k, row, x);
    SerialAddr(m, k, mtk, row, x);
  }

  /** L2 address at which element (row, x) of K slice c lies. */
  function SerialSlice(mtk: nat, k: nat, c: nat, row: nat, x: nat): int { row * mtk + (c * k + x) }

  /** Walked from the start for each of its mtk / k L1 objects, an L2 object delivers its K slices exactly if it is one. */
  lemma SerialObjectIsSliceIff(m: nat, k: nat, mtk: nat)
    requires k > 0 && mtk > 0 && mtk % k == 0 && m > 0
    ensures (forall c: nat, row: nat, x: nat :: c < mtk / k && row < m && x < k ==> SerialWalks(m, k, mtk, c, row, x)) <==> mtk == k
  {
    assert mtk / k * k == mtk;
    forall c: nat, row: nat, x: nat | c < mtk / k && row < m && x < k
      ensures SerialWalks(m, k, mtk, c, row, x) <==> c == 0
    {
      OnlyFirstSlice(m, k, mtk, c, row, x);
    }
    if mtk == k {
      assert mtk / k == 1;
    } else {
      assert mtk / k >= 2 by { SeveralSlices(mtk / k, k); }
      assert !SerialWalks(m, k, mtk, 1, 0, 0);
    }
  }

  lemma SeveralSlices(q: nat, k: nat)
    requires k > 0 && q * k != k && q * k > 0
    ensures q >= 2
  {}

  lemma OnlyFirstSlice(m: nat, k: nat, mtk: nat, c: nat, row: nat, x: nat)
    requires row < m && x < k
    ensures SerialWalks(m, k, mtk, c, row, x) <==> c == 0
  {
    SerialAddr(m, k, mtk, row, x);
    Multiple(c, k);
  }

  /** The walk takes element (row, x) of object c from K slice c. */
  ghost predicate SerialWalks(m: nat, k: nat, mtk: nat, c: nat, row: nat, x: nat) {
    0 <= row * k + x && WalkAddr(SerialDims(m, k, mtk), row * k + x) == SerialSlice(mtk, k, c, row, x)
  }

  /** The walk visits an address. */
  ghost predicate Visits(dims: seq<Dim>, addr: nat) { exists q: nat :: q < WalkSize(dims) && WalkAddr(dims, q) == addr }

  /** The walk reaches all of an L2 object exactly when the object is one K slice. */
  lemma SerialWalkCoversIff(m: nat, k: nat, mtk: nat)
    requires 0 < k <= mtk && m > 0
    ensures (forall addr: nat :: addr < m * mtk ==> Visits(SerialDims(m, k, mtk), addr)) <==> mtk == k
  {
    var dims := SerialDims(m, k, mtk);
    if mtk == k {
      forall addr: nat | addr < m * mtk ensures Visits(dims, addr) {
        DivBelow(addr, m, k);
        SerialAddr(m, k, mtk, addr / k, addr % k);
      }
    } else {
      Multiple(m, mtk);
      forall q: nat | q < WalkSize(dims) ensures WalkAddr(dims, q) != k { SerialMisses(m, k, mtk, q); }
      assert k < m * mtk && !Visits(dims, k);
    }
  }

  lemma SerialMisses(m: nat, k: nat, mtk: nat, q: nat)
    requires 0 < k < mtk && m > 0 && q < WalkSize(SerialDims(m, k, mtk))
    ensures WalkAddr(SerialDims(m, k, mtk), q) != k
  {
    SerialAddr(m, k, mtk, 0, 0);
    DivBelow(q, m, k);
    SerialAddr(m, k, mtk, q / k, q % k);
    Multiple(q / k, mtk);
  }

  lemma SliceOfOne(h: nat, k: nat, b: nat, row: nat, x: nat)
    requires b < 4
    ensures b * (h * k) + row * k + x == (b % 4 * h + row) * k + (b / 4 * k + x)
  {
    assert (b * h + row) * k == b * (h * k) + row * k;
  }

  /** L2 address of element (row, x) of object b: where the walks take it from, and where its slice lies. */
  function BlockAddr(m: nat, k: nat, b: nat, row: nat, x: nat): int { b * (m / 4 * k) + row * k + x }

  function SliceAddr(m: nat, k: nat, mtk: nat, b: nat, row: nat, x: nat): int {
    (b % 4 * (m / 4) + row) * mtk + (b / 4 * k + x)
  }

  /** What the K slices are: every element (r, z) of the L2 object lies in slice z / k, in one row block of four or whole. */
  lemma SlicesCover(m: nat, k: nat, mtk: nat, r: nat, z: nat)
    requires k > 0 && m >= 4 && m % 4 == 0 && r < m
    ensures SerialSlice(mtk, k, z / k, r, z % k) == r * mtk + z
    ensures SliceAddr(m, k, mtk, z / k * 4 + r / (m / 4), r % (m / 4), z % k) == r * mtk + z
  {
    var h := m / 4;
    assert z / k * k + z % k == z;
    DivBelow(r, 4, h);
    DivMod(z / k, r / h, 4);
  }

  /** The C walk reads a slot's tile order in row-major order. */
  lemma CAddr(m: nat, n: nat, q: nat)
    requires m % R == 0 && n % R == 0 && q < m * n && n > 0
    ensures WalkAddr(CDims(m, n), q) == RowTileDest(q, n)
  {
    DivBelow(q, m, n);
    var z, r, nj, c := ElementDigits(q, m, n);
    CAddrAt(m, n, z, r, nj, c);
    DestAt(z, nj, r, c, m, n);
  }

  lemma CAddrAt(m: nat, n: nat, z: nat, r: nat, nj: nat, c: nat)
    requires n % R == 0 && r < R && nj < n / R && c < R
    ensures var q := (z * R + r) * n + (nj * R + c);
      q >= 0 && WalkAddr(CDims(m, n), q) == (z * (n / R) + nj) * TILE + r * R + c
  {
    CRows(n, r, nj, c);
    var d0, rest := Dim(m / R, R * n), [Dim(R, R), Dim(n / R, R * R), Dim(R, 1)];
    assert [d0] + rest == CDims(m, n);
    var q := r * n + (nj * R + c);
    WalkStep(d0, rest, z, q);
    RowOfTiles(z, r, n);
    TileRow(z, n);
  }

  lemma RowOfTiles(z: nat, r: nat, n: nat)
    ensures z * (R * n) + r * n == (z * R + r) * n
  {}

  lemma TileRow(z: nat, n: nat)
    requires n % R == 0
    ensures z * (R * n) == z * (n / R) * TILE
  {
    assert R * n == n / R * TILE;
    assert z * (n / R * TILE) == z * (n / R) * TILE;
  }

  /** The C walk within one row of tiles. */
  lemma CRows(n: nat, r: nat, nj: nat, c: nat)
    requires n % R == 0 && r < R && nj < n / R && c < R
    ensures var rest := [Dim(R, R), Dim(n / R, R * R), Dim(R, 1)]; var q := r * n + (nj * R + c);
      0 <= q < WalkSize(rest) == R * n && WalkAddr(rest, q) == nj * TILE + r * R + c
  {
    var d1, d2, d3 := Dim(R, R), Dim(n / R, R * R), Dim(R, 1);
    assert [d2] + [d3] == [d2, d3] && [d1] + [d2, d3] == [d1, d2, d3];
    Walk1(d3, c);
    WalkStep(d2, [d3], nj, c);
    assert n / R * R == n && nj * R + c < n;
    WalkStep(d1, [d2, d3], r, nj * R + c);
    DigitsBelow(r, R, nj * R + c, n);
  }

  /** The streamed slot is the row-major tile: the walk does what the intended unpacking does. */
  lemma CTransferUnpacks<T>(slot: seq<T>, stream: seq<T>, m: nat, n: nat)
    requires m % R == 0 && n % R == 0 && |slot| == |stream| == m * n && Packed(m, n) <= m * n
    requires forall q: nat :: q < m * n ==> WalkAddr(CDims(m, n), q) < |slot| && stream[q] == slot[WalkAddr(CDims(m, n), q)]
    ensures RowPacked(stream, slot, m, n, Packed(m, n))
  {
    forall d: nat | d < Packed(m, n)
      ensures n / R > 0 && RowTileSource(d, n) < m * n && slot[d] == stream[RowTileSource(d, n)]
    {
      RowTileDestOfSource(d, m, n);
      CAddr(m, n, RowTileSource(d, n));
    }
  }

  /** The four cores' slots of a gathered C object are disjoint and fill it. */
  lemma CSlots(m: nat, n: nat, addr: nat, i: nat)
    requires m * n > 0
    ensures m * n * i <= addr < m * n * i + m * n <==> i == addr / (m * n)
    ensures addr < m * n * 4 <==> addr / (m * n) < 4
  {
    SlotOf(addr, i, m * n);
    FourSlots(addr, m * n);
  }

  lemma FourSlots(addr: nat, s: nat)
    requires s > 0
    ensures addr < s * 4 <==> addr / s < 4
  {
    var q, r := addr / s, addr % s;
    assert addr == q * s + r;
    if q < 4 { MulMonotone(q, 3, s); } else { MulMonotone(4, q, s); }
  }

  lemma SlotOf(addr: nat, i: nat, s: nat)
    requires s > 0
    ensures s * i <= addr < s * i + s <==> i == addr / s
  {
    if s * i <= addr < s * i + s { DivMod(i, addr - s * i, s); }
  }
}
