/** Projections fused column-wise into one weight matrix, and read back by offset. */
module Fusion {
  import opened Arith
  import opened Engine
  import opened Quant
  import opened Rows
  import opened Sums

  /** Row k of a row-major matrix of the given width. */
  function RowOf(w: seq<Float>, width: nat, k: nat): (row: seq<Float>)
    ensures |row| == width
  {
    if 0 <= k * width <= k * width + width <= |w| then w[k * width..k * width + width] else seq(width, _ => NonFinite)
  }

  /** Row k of [q | k | v]. */
  function FusedRow(q: seq<Float>, qr: nat, k: seq<Float>, kr: nat, v: seq<Float>, vr: nat): nat -> seq<Float> {
    (i: nat) => RowOf(q, qr, i) + RowOf(k, kr, i) + RowOf(v, vr, i)
  }

  function Fused(H: nat, q: seq<Float>, qr: nat, k: seq<Float>, kr: nat, v: seq<Float>, vr: nat): seq<Float> {
    Flat(H, FusedRow(q, qr, k, kr, v, vr))
  }

  /** memcpy of n floats. */
  method Copy(w: array<Float>, dst: nat, from: seq<Float>, src: nat, n: nat)
    requires dst + n <= w.Length && src + n <= |from|
    modifies w
    ensures w[..] == Splice(old(w[..]), dst, from[src..src + n], n)
  {
    ghost var before := w[..];
    for i := 0 to n
      invariant w[..] == Splice(before, dst, from[src..src + n], i)
    {
      SpliceStep(before, dst, from[src..src + n], i);
      w[dst + i] := from[src + i];
    }
  }

  /** Adjacent copies are one copy of the concatenation. */
  lemma TwoPieces<T>(s0: seq<T>, s1: seq<T>, s2: seq<T>, dst: nat, a: seq<T>, m: nat, b: seq<T>, n: nat)
    requires m == |a| && n == |b| && dst + m + n <= |s0|
    requires s1 == Splice(s0, dst, a, m) && s2 == Splice(s1, dst + m, b, n)
    ensures s2 == Splice(s0, dst, a + b, m + n)
  {}

  /** The copies of one row. */
  method CopyTwo(w: array<Float>, dst: nat, g: seq<Float>, sg: nat, gr: nat, u: seq<Float>, su: nat, ur: nat)
    requires dst + gr + ur <= w.Length && sg + gr <= |g| && su + ur <= |u|
    modifies w
    ensures w[..] == Splice(old(w[..]), dst, g[sg..sg + gr] + u[su..su + ur], gr + ur)
  {
    ghost var s0 := w[..];
    Copy(w, dst, g, sg, gr);
    ghost var s1 := w[..];
    Copy(w, dst + gr, u, su, ur);
    TwoPieces(s0, s1, w[..], dst, g[sg..sg + gr], gr, u[su..su + ur], ur);
  }

  method CopyThree(w: array<Float>, dst: nat, q: seq<Float>, sq: nat, qr: nat, k: seq<Float>, sk: nat, kr: nat,
                   v: seq<Float>, sv: nat, vr: nat)
    requires dst + qr + kr + vr <= w.Length && sq + qr <= |q| && sk + kr <= |k| && sv + vr <= |v|
    modifies w
    ensures w[..] == Splice(old(w[..]), dst, q[sq..sq + qr] + k[sk..sk + kr] + v[sv..sv + vr], qr + kr + vr)
  {
    ghost var s0, ab, c := w[..], q[sq..sq + qr] + k[sk..sk + kr], v[sv..sv + vr];
    assert |ab| == qr + kr && |c| == vr;
    CopyTwo(w, dst, q, sq, qr, k, sk, kr);
    ghost var s1 := w[..];
    Copy(w, dst + (qr + kr), v, sv, vr);
    TwoPieces(s0, s1, w[..], dst, ab, qr + kr, c, vr);
  }

  /** The rows the copies of step i read and write. */
  lemma RowsInside(H: nat, i: nat, qr: nat, kr: nat, vr: nat)
    requires i < H
    ensures 0 <= i * qr <= i * qr + qr <= H * qr && 0 <= i * kr <= i * kr + kr <= H * kr
    ensures 0 <= i * vr <= i * vr + vr <= H * vr
    ensures 0 <= i * (qr + kr + vr) <= i * (qr + kr + vr) + (qr + kr + vr) <= H * (qr + kr + vr)
  {
    RowInside(i, H, qr, H * qr);
    RowInside(i, H, kr, H * kr);
    RowInside(i, H, vr, H * vr);
    RowInside(i, H, qr + kr + vr, H * (qr + kr + vr));
  }

  method CopyRowThree(w: array<Float>, H: nat, i: nat, t: nat, q: seq<Float>, qr: nat, k: seq<Float>, kr: nat,
                      v: seq<Float>, vr: nat)
    requires |q| == H * qr && |k| == H * kr && |v| == H * vr && t == qr + kr + vr && w.Length == H * t && i < H
    requires Built(w[..], i, t, FusedRow(q, qr, k, kr, v, vr))
    modifies w
    ensures Built(w[..], i + 1, t, FusedRow(q, qr, k, kr, v, vr))
  {
    RowsInside(H, i, qr, kr, vr);
    ghost var before := w[..];
    CopyThree(w, i * t, q, i * qr, qr, k, i * kr, kr, v, i * vr, vr);
    BuildStep(before, w[..], i, t, FusedRow(q, qr, k, kr, v, vr));
  }

  lemma TwoPartRow(g: seq<Float>, gr: nat, u: seq<Float>, ur: nat, i: nat)
    requires 0 <= i * gr <= i * gr + gr <= |g| && 0 <= i * ur <= i * ur + ur <= |u|
    ensures FusedRow(g, gr, u, ur, [], 0)(i) == g[i * gr..i * gr + gr] + u[i * ur..i * ur + ur]
  {
    assert RowOf([], 0, i) == [];
  }

  method CopyRowTwo(w: array<Float>, H: nat, i: nat, t: nat, g: seq<Float>, gr: nat, u: seq<Float>, ur: nat)
    requires |g| == H * gr && |u| == H * ur && t == gr + ur && w.Length == H * t && i < H
    requires Built(w[..], i, t, FusedRow(g, gr, u, ur, [], 0))
    modifies w
    ensures Built(w[..], i + 1, t, FusedRow(g, gr, u, ur, [], 0))
  {
    RowsInside(H, i, gr, ur, 0);
    ghost var before := w[..];
    CopyTwo(w, i * t, g, i * gr, gr, u, i * ur, ur);
    BuildTwoStep(before, w[..], i, t, g, gr, u, ur);
  }

  lemma BuildTwoStep(w: seq<Float>, w': seq<Float>, i: nat, t: nat, g: seq<Float>, gr: nat, u: seq<Float>, ur: nat)
    requires Built(w, i, t, FusedRow(g, gr, u, ur, [], 0)) && t == gr + ur && i * t + t <= |w|
    requires 0 <= i * gr <= i * gr + gr <= |g| && 0 <= i * ur <= i * ur + ur <= |u|
    requires w' == Splice(w, i * t, g[i * gr..i * gr + gr] + u[i * ur..i * ur + ur], gr + ur)
    ensures Built(w', i + 1, t, FusedRow(g, gr, u, ur, [], 0))
  {
    TwoPartRow(g, gr, u, ur, i);
    BuildStep(w, w', i, t, FusedRow(g, gr, u, ur, [], 0));
  }

  /** Element (i, j) of a part of the given width lies at column `at` + j of row i of the fused matrix. */
  ghost predicate HoldsAt(w: seq<Float>, t: nat, at: nat, part: seq<Float>, width: nat, i: nat, j: nat) {
    0 <= i * t + (at + j) < |w| && 0 <= i * width + j < |part| && w[i * t + (at + j)] == part[i * width + j]
  }

  ghost predicate HoldsPart(w: seq<Float>, H: nat, t: nat, at: nat, part: seq<Float>, width: nat) {
    forall i: nat, j: nat :: i < H && j < width ==> HoldsAt(w, t, at, part, width, i, j)
  }

  lemma PartAt(H: nat, t: nat, at: nat, part: seq<Float>, width: nat, row: nat -> seq<Float>, i: nat, j: nat)
    requires i < H && j < width && |part| == H * width && (forall i: nat {:trigger row(i)} :: |row(i)| == t) && at + width <= t
    requires row(i)[at..at + width] == RowOf(part, width, i)
    ensures HoldsAt(Flat(H, row), t, at, part, width, i, j)
  {
    FlatAt(H, t, row, i, at + j);
    RowInside(i, H, width, |part|);
    assert row(i)[at + j] == row(i)[at..at + width][j];
  }

  lemma PartHolds(H: nat, t: nat, at: nat, part: seq<Float>, width: nat, row: nat -> seq<Float>)
    requires |part| == H * width && (forall i: nat {:trigger row(i)} :: |row(i)| == t) && at + width <= t
    requires forall i: nat {:trigger row(i)} :: row(i)[at..at + width] == RowOf(part, width, i)
    ensures HoldsPart(Flat(H, row), H, t, at, part, width)
  {
    forall i: nat, j: nat | i < H && j < width ensures HoldsAt(Flat(H, row), t, at, part, width, i, j) {
      PartAt(H, t, at, part, width, row, i, j);
    }
  }

  lemma FusedHolds(H: nat, q: seq<Float>, qr: nat, k: seq<Float>, kr: nat, v: seq<Float>, vr: nat)
    requires |q| == H * qr && |k| == H * kr && |v| == H * vr
    ensures var w, t := Fused(H, q, qr, k, kr, v, vr), qr + kr + vr;
      HoldsPart(w, H, t, 0, q, qr) && HoldsPart(w, H, t, qr, k, kr) && HoldsPart(w, H, t, qr + kr, v, vr)
  {
    PartHolds(H, qr + kr + vr, 0, q, qr, FusedRow(q, qr, k, kr, v, vr));
    PartHolds(H, qr + kr + vr, qr, k, kr, FusedRow(q, qr, k, kr, v, vr));
    PartHolds(H, qr + kr + vr, qr + kr, v, vr, FusedRow(q, qr, k, kr, v, vr));
  }

  /** Three row-interleaving copies per row build [q | k | v]. */
  method FuseThree(H: nat, q: seq<Float>, qr: nat, k: seq<Float>, kr: nat, v: seq<Float>, vr: nat) returns (w: array<Float>)
    requires |q| == H * qr && |k| == H * kr && |v| == H * vr
    ensures fresh(w) && w.Length == H * (qr + kr + vr) && w[..] == Fused(H, q, qr, k, kr, v, vr)
    ensures HoldsPart(w[..], H, qr + kr + vr, 0, q, qr) && HoldsPart(w[..], H, qr + kr + vr, qr, k, kr)
    ensures HoldsPart(w[..], H, qr + kr + vr, qr + kr, v, vr)
  {
    w := BuildThree(H, q, qr, k, kr, v, vr);
    FusedHolds(H, q, qr, k, kr, v, vr);
  }

  method BuildThree(H: nat, q: seq<Float>, qr: nat, k: seq<Float>, kr: nat, v: seq<Float>, vr: nat) returns (w: array<Float>)
    requires |q| == H * qr && |k| == H * kr && |v| == H * vr
    ensures fresh(w) && w.Length == H * (qr + kr + vr) && w[..] == Fused(H, q, qr, k, kr, v, vr)
  {
    var t := qr + kr + vr;
    MulMonotone(0, H, t);
    w := new Float[H * t](_ => Finite(0.0));
    FillThree(w, H, q, qr, k, kr, v, vr, t);
  }

  method FillThree(w: array<Float>, H: nat, q: seq<Float>, qr: nat, k: seq<Float>, kr: nat, v: seq<Float>, vr: nat, t: nat)
    requires |q| == H * qr && |k| == H * kr && |v| == H * vr && t == qr + kr + vr && w.Length == H * t
    modifies w
    ensures w[..] == Fused(H, q, qr, k, kr, v, vr)
  {
    BuiltNone(w[..], t, FusedRow(q, qr, k, kr, v, vr));
    for i := 0 to H
      invariant Built(w[..], i, t, FusedRow(q, qr, k, kr, v, vr))
    {
      CopyRowThree(w, H, i, t, q, qr, k, kr, v, vr);
    }
    BuiltAll(w[..], H, t, FusedRow(q, qr, k, kr, v, vr));
  }

  /** Two copies per row build [gate | up]: the fused matrix with an empty third part. */
  method FuseTwo(H: nat, g: seq<Float>, gr: nat, u: seq<Float>, ur: nat) returns (w: array<Float>)
    requires |g| == H * gr && |u| == H * ur
    ensures fresh(w) && w.Length == H * (gr + ur) && w[..] == Fused(H, g, gr, u, ur, [], 0)
    ensures HoldsPart(w[..], H, gr + ur, 0, g, gr) && HoldsPart(w[..], H, gr + ur, gr, u, ur)
  {
    w := BuildTwo(H, g, gr, u, ur);
    FusedHolds(H, g, gr, u, ur, [], 0);
  }

  method BuildTwo(H: nat, g: seq<Float>, gr: nat, u: seq<Float>, ur: nat) returns (w: array<Float>)
    requires |g| == H * gr && |u| == H * ur
    ensures fresh(w) && w.Length == H * (gr + ur) && w[..] == Fused(H, g, gr, u, ur, [], 0)
  {
    var t := gr + ur;
    MulMonotone(0, H, t);
    w := new Float[H * t](_ => Finite(0.0));
    FillTwo(w, H, g, gr, u, ur, t);
  }

  method FillTwo(w: array<Float>, H: nat, g: seq<Float>, gr: nat, u: seq<Float>, ur: nat, t: nat)
    requires |g| == H * gr && |u| == H * ur && t == gr + ur && w.Length == H * t
    modifies w
    ensures w[..] == Fused(H, g, gr, u, ur, [], 0)
  {
    BuiltNone(w[..], t, FusedRow(g, gr, u, ur, [], 0));
    for i := 0 to H
      invariant Built(w[..], i, t, FusedRow(g, gr, u, ur, [], 0))
    {
      CopyRowTwo(w, H, i, t, g, gr, u, ur);
    }
    BuiltAll(w[..], H, t, FusedRow(g, gr, u, ur, [], 0));
  }

  /** The matrix and column that column n of the fused matrix comes from. */
  function Part(q: seq<Float>, qr: nat, k: seq<Float>, kr: nat, v: seq<Float>, vr: nat, n: nat): int -> real {
    if n < qr then TrueColumn(q, qr, n)
    else if n < qr + kr then TrueColumn(k, kr, n - qr)
    else if n < qr + kr + vr then TrueColumn(v, vr, n - qr - kr)
    else _ => 0.0
  }

  lemma FusedColumn(H: nat, q: seq<Float>, qr: nat, k: seq<Float>, kr: nat, v: seq<Float>, vr: nat, n: nat, i: nat)
    requires i < H && n < qr + kr + vr && |q| == H * qr && |k| == H * kr && |v| == H * vr
    ensures TrueColumn(Fused(H, q, qr, k, kr, v, vr), qr + kr + vr, n)(i) == Part(q, qr, k, kr, v, vr, n)(i)
  {
    FusedElement(H, q, qr, k, kr, v, vr, n, i, qr + kr + vr);
    RowPart(H, q, qr, k, kr, v, vr, n, i);
  }

  lemma FusedElement(H: nat, q: seq<Float>, qr: nat, k: seq<Float>, kr: nat, v: seq<Float>, vr: nat, n: nat, i: nat, t: nat)
    requires i < H && n < t == qr + kr + vr
    ensures TrueColumn(Fused(H, q, qr, k, kr, v, vr), t, n)(i) == Clean(FusedRow(q, qr, k, kr, v, vr)(i)[n])
  {
    FlatColumn(H, FusedRow(q, qr, k, kr, v, vr), t, n, i);
  }

  lemma FlatColumn(H: nat, row: nat -> seq<Float>, t: nat, n: nat, i: nat)
    requires i < H && n < t && forall j: nat {:trigger row(j)} :: |row(j)| == t
    ensures TrueColumn(Flat(H, row), t, n)(i) == Clean(row(i)[n])
  {
    FlatAt(H, t, row, i, n);
  }

  lemma RowPart(H: nat, q: seq<Float>, qr: nat, k: seq<Float>, kr: nat, v: seq<Float>, vr: nat, n: nat, i: nat)
    requires i < H && n < qr + kr + vr && |q| == H * qr && |k| == H * kr && |v| == H * vr
    ensures Clean(FusedRow(q, qr, k, kr, v, vr)(i)[n]) == Part(q, qr, k, kr, v, vr, n)(i)
  {
    if n < qr {
      ColumnElement(q, qr, H, i, n);
    } else if n < qr + kr {
      ColumnElement(k, kr, H, i, n - qr);
    } else {
      ColumnElement(v, vr, H, i, n - qr - kr);
    }
  }

  lemma ColumnElement(w: seq<Float>, width: nat, H: nat, i: nat, j: nat)
    requires j < width && i < H && |w| == H * width
    ensures Clean(RowOf(w, width, i)[j]) == TrueColumn(w, width, j)(i)
  {
    RowInside(i, H, width, |w|);
  }

  /** The fused product, sliced at the parts' offsets, is the separate products, for all widths. */
  lemma FusedProduct(H: nat, q: seq<Float>, qr: nat, k: seq<Float>, kr: nat, v: seq<Float>, vr: nat, a: int -> real, n: nat)
    requires n < qr + kr + vr && |q| == H * qr && |k| == H * kr && |v| == H * vr
    ensures Sum(H, Terms(a, TrueColumn(Fused(H, q, qr, k, kr, v, vr), qr + kr + vr, n)))
         == Sum(H, Terms(a, Part(q, qr, k, kr, v, vr, n)))
  {
    var column := TrueColumn(Fused(H, q, qr, k, kr, v, vr), qr + kr + vr, n);
    forall i: nat | i < H { FusedColumn(H, q, qr, k, kr, v, vr, n, i); }
    SumCongruent(H, Terms(a, column), Terms(a, Part(q, qr, k, kr, v, vr, n)));
  }

  /**
   Fusing before quantising keeps the meaning of every projection: an output of the fused int8 product is within
   the step errors, at the shared scale, of the separate projection's true value.
   */
  lemma FusedOutput(H: nat, q: seq<Float>, qr: nat, k: seq<Float>, kr: nat, v: seq<Float>, vr: nat, A: seq<Float>, sA: real,
                    B: seq<int>, sB: real, m: nat, n: nat)
    requires n < qr + kr + vr && |q| == H * qr && |k| == H * kr && |v| == H * vr && sA > 0.0 && sB > 0.0
    requires |Fused(H, q, qr, k, kr, v, vr)| == H * (qr + kr + vr) <= |B|
    requires Quantised(Fused(H, q, qr, k, kr, v, vr), B[..H * (qr + kr + vr)], sB)
    ensures WithinError(EngineDot(A, H, sA, B, qr + kr + vr, m, n), H, TrueRow(A, H, m), Part(q, qr, k, kr, v, vr, n), sA, sB)
  {
    var w, t, a := Fused(H, q, qr, k, kr, v, vr), qr + kr + vr, TrueRow(A, H, m);
    EngineError(A, H, sA, w, B, sB, t, m, n);
    FusedProduct(H, q, qr, k, kr, v, vr, a, n);
    FusedErrors(H, q, qr, k, kr, v, vr, a, n, sA, sB);
  }

  /**
   ... and so is the element of the buffer Go returns: column n of each of its rows is within those errors of the
   projection it belongs to, so the slices copied out at the parts' offsets are the separate projections.
   */
  lemma FusedResult(H: nat, q: seq<Float>, qr: nat, k: seq<Float>, kr: nat, v: seq<Float>, vr: nat, A: seq<Float>, am: nat, sA: real,
                    B: seq<int>, sB: real, C: seq<real>, an: nat, m: nat, n: nat)
    requires n < an <= qr + kr + vr && m < am && |q| == H * qr && |k| == H * kr && |v| == H * vr && sA > 0.0 && sB > 0.0
    requires |Fused(H, q, qr, k, kr, v, vr)| == H * (qr + kr + vr) <= |B|
    requires Quantised(Fused(H, q, qr, k, kr, v, vr), B[..H * (qr + kr + vr)], sB)
    requires ResultOf(A, am, H, sA, sB, B, C, qr + kr + vr, an) && Fits(EngineDot(A, H, sA, B, qr + kr + vr, m, n))
    ensures OutputWithin(Entry(C, m * an + n), H, TrueRow(A, H, m), Part(q, qr, k, kr, v, vr, n), sA, sB)
  {
    var w, t, a := Fused(H, q, qr, k, kr, v, vr), qr + kr + vr, TrueRow(A, H, m);
    ResultWithinError(A, am, H, sA, w, B, sB, C, t, an, m, n);
    FusedProduct(H, q, qr, k, kr, v, vr, a, n);
    FusedErrors(H, q, qr, k, kr, v, vr, a, n, sA, sB);
  }

  lemma FusedErrors(H: nat, q: seq<Float>, qr: nat, k: seq<Float>, kr: nat, v: seq<Float>, vr: nat, a: int -> real, n: nat,
                    sA: real, sB: real)
    requires n < qr + kr + vr && |q| == H * qr && |k| == H * kr && |v| == H * vr
    ensures Sum(H, Errors(a, TrueColumn(Fused(H, q, qr, k, kr, v, vr), qr + kr + vr, n), sA, sB))
         == Sum(H, Errors(a, Part(q, qr, k, kr, v, vr, n), sA, sB))
  {
    var column := TrueColumn(Fused(H, q, qr, k, kr, v, vr), qr + kr + vr, n);
    forall i: nat | i < H { FusedColumn(H, q, qr, k, kr, v, vr, n, i); }
    SumCongruent(H, Errors(a, column, sA, sB), Errors(a, Part(q, qr, k, kr, v, vr, n), sA, sB));
  }
}
