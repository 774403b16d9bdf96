/** One int8 matrix-product context: weights packed per layer, activations quantised per call. */
module Engine {
  import opened Arith
  import opened Quant
  import opened Rows
  import opened Sums

  function CleanAt(A: seq<Float>, i: int): real { if 0 <= i < |A| then Clean(A[i]) else 0.0 }

  function Number(A: seq<int>, i: int): real { if 0 <= i < |A| then A[i] as real else 0.0 }

  /** Row m and column n of row-major buffers of codes. */
  function Row(A: seq<int>, width: nat, m: nat): int -> real { k => Number(A, m * width + k) }

  function Column(B: seq<int>, width: nat, n: nat): int -> real { k => Number(B, k * width + n) }

  /** Row m and column n of row-major buffers of floats. */
  function TrueRow(A: seq<Float>, width: nat, m: nat): int -> real { k => CleanAt(A, m * width + k) }

  function TrueColumn(B: seq<Float>, width: nat, n: nat): int -> real { k => CleanAt(B, k * width + n) }

  /** The codes of row m of the activations. */
  function RowCodes(A: seq<Float>, width: nat, scale: real, m: nat): int -> real
    requires scale > 0.0
  {
    k => Code(CleanAt(A, m * width + k), scale) as real
  }

  /** The exact sum the device accumulates for output (m, n). */
  function BufferDot(A: seq<int>, B: seq<int>, KD: nat, ND: nat, m: nat, n: nat): real {
    Sum(KD, Terms(Row(A, KD, m), Column(B, ND, n)))
  }

  /** The integer dot product of the activations' codes with the packed weights. */
  function EngineDot(A: seq<Float>, ak: nat, scale: real, B: seq<int>, ND: nat, m: nat, n: nat): real
    requires scale > 0.0
  {
    Sum(ak, Terms(RowCodes(A, ak, scale, m), Column(B, ND, n)))
  }

  /** An int16 accumulator holds it. */
  predicate Fits(x: real) { -32768.0 <= x <= 32767.0 }

  ghost predicate InCodes(x: int -> real, K: nat) { forall k :: 0 <= k < K ==> Abs(x(k)) <= 127.0 }

  /** No code in range can overflow the accumulator exactly when the products have at most two terms. */
  lemma AlwaysFitsIff(K: nat)
    ensures (forall x: int -> real, y: int -> real :: InCodes(x, K) && InCodes(y, K) ==> Fits(Sum(K, Terms(x, y)))) <==> K <= 2
  {
    if K <= 2 {
      forall x: int -> real, y: int -> real | InCodes(x, K) && InCodes(y, K) ensures Fits(Sum(K, Terms(x, y))) {
        CodeSum(x, y, K);
      }
    } else {
      var x: int -> real := _ => 127.0;
      Ceiling(K, x);
      assert InCodes(x, K) && !Fits(Sum(K, Terms(x, x)));
    }
  }

  lemma {:induction false} CodeSum(x: int -> real, y: int -> real, K: nat)
    requires InCodes(x, K) && InCodes(y, K)
    ensures Abs(Sum(K, Terms(x, y))) <= K as real * 16129.0
  {
    if K > 0 {
      CodeSum(x, y, K - 1);
      BoundedProduct(x(K - 1), y(K - 1), 127.0, 127.0);
      OneMore(Sum(K - 1, Terms(x, y)), Terms(x, y)(K - 1), K - 1);
    }
  }

  lemma OneMore(sum: real, p: real, n: nat)
    requires Abs(sum) <= n as real * 16129.0 && Abs(p) <= 127.0 * 127.0
    ensures Abs(sum + p) <= (n + 1) as real * 16129.0
  {
    assert (n + 1) as real == n as real + 1.0;
  }

  lemma {:induction false} Ceiling(K: nat, x: int -> real)
    requires forall k :: x(k) == 127.0
    ensures Sum(K, Terms(x, x)) == K as real * 16129.0
  {
    if K > 0 { Ceiling(K - 1, x); }
  }

  /** C is the product of A and B wherever the exact sum fits its int16 output. */
  ghost predicate ProductBuffer(A: seq<int>, B: seq<int>, C: seq<int>, MD: nat, KD: nat, ND: nat) {
    && |C| == MD * ND
    && forall m: nat, n: nat :: m < MD && n < ND ==> OutputExact(A, B, C, KD, ND, m, n)
  }

  ghost predicate OutputExact(A: seq<int>, B: seq<int>, C: seq<int>, KD: nat, ND: nat, m: nat, n: nat) {
    Fits(BufferDot(A, B, KD, ND, m, n)) ==> Number(C, m * ND + n) == BufferDot(A, B, KD, ND, m, n)
  }

  ghost predicate InInt16(C: seq<int>) { forall i :: 0 <= i < |C| ==> -0x8000 <= C[i] < 0x8000 }

  /** The matrix-product kernel, as a function of its two input buffers. */
  type Device = (seq<int>, seq<int>) -> seq<int>

  ghost predicate Multiplies(device: Device, MD: nat, KD: nat, ND: nat) {
    forall A: seq<int>, B: seq<int> {:trigger device(A, B)} ::
      |A| == MD * KD && |B| == KD * ND ==> ProductBuffer(A, B, device(A, B), MD, KD, ND) && InInt16(device(A, B))
  }

  function Saturated(x: real): int { if x > 32767.0 then 32767 else if x < -32768.0 then -32768 else x.Floor }

  /** There is such a kernel with an int16 output buffer: one that saturates. */
  function Saturating(MD: nat, KD: nat, ND: nat): Device {
    (A: seq<int>, B: seq<int>) =>
      if ND == 0 then [] else seq(MD * ND, i requires 0 <= i => Saturated(BufferDot(A, B, KD, ND, i / ND, i % ND)))
  }

  lemma SaturatingMultiplies(MD: nat, KD: nat, ND: nat)
    ensures Multiplies(Saturating(MD, KD, ND), MD, KD, ND)
  {
    var device := Saturating(MD, KD, ND);
    forall A: seq<int>, B: seq<int> {:trigger device(A, B)} | |A| == MD * KD && |B| == KD * ND
      ensures ProductBuffer(A, B, device(A, B), MD, KD, ND) && InInt16(device(A, B))
    {
      SizeOfOutput(MD, ND);
      forall m: nat, n: nat | m < MD && n < ND ensures OutputExact(A, B, device(A, B), KD, ND, m, n) {
        SaturatedOutput(A, B, MD, KD, ND, m, n);
      }
    }
  }

  lemma SizeOfOutput(MD: nat, ND: nat)
    ensures MD * ND >= 0 && (ND == 0 ==> MD * ND == 0)
  {
    MulMonotone(0, MD, ND);
  }

  lemma SaturatedOutput(A: seq<int>, B: seq<int>, MD: nat, KD: nat, ND: nat, m: nat, n: nat)
    requires m < MD && n < ND
    ensures OutputExact(A, B, Saturating(MD, KD, ND)(A, B), KD, ND, m, n)
  {
    DigitsBelow(m, MD, n, ND);
    DivMod(m, n, ND);
    WholeDot(A, B, KD, ND, m, n);
    FittingOutput(A, B, Saturating(MD, KD, ND)(A, B), KD, ND, m, n, m * ND + n);
  }

  lemma FittingOutput(A: seq<int>, B: seq<int>, C: seq<int>, KD: nat, ND: nat, m: nat, n: nat, i: int)
    requires i == m * ND + n && 0 <= i < |C| && C[i] == Saturated(BufferDot(A, B, KD, ND, m, n))
    requires Whole(BufferDot(A, B, KD, ND, m, n))
    ensures OutputExact(A, B, C, KD, ND, m, n)
  {}

  lemma WholeDot(A: seq<int>, B: seq<int>, KD: nat, ND: nat, m: nat, n: nat)
    ensures Whole(BufferDot(A, B, KD, ND, m, n))
  {
    forall k | 0 <= k < KD ensures Whole(Row(A, KD, m)(k)) && Whole(Column(B, ND, n)(k)) {
      NumberIsWhole(A, m * KD + k);
      NumberIsWhole(B, k * ND + n);
    }
    WholeSum(KD, Row(A, KD, m), Column(B, ND, n));
  }

  lemma NumberIsWhole(A: seq<int>, i: int)
    ensures Whole(Number(A, i))
  {}

  predicate Whole(x: real) { x == x.Floor as real }

  /** A sum of products of whole numbers is whole. */
  lemma {:induction false} WholeSum(K: nat, x: int -> real, y: int -> real)
    requires forall k :: 0 <= k < K ==> Whole(x(k)) && Whole(y(k))
    ensures Whole(Sum(K, Terms(x, y)))
  {
    if K > 0 {
      WholeSum(K - 1, x, y);
      var sum, a, b := Sum(K - 1, Terms(x, y)).Floor, x(K - 1).Floor, y(K - 1).Floor;
      WholeProduct(a, b);
      assert Sum(K, Terms(x, y)) == (sum + a * b) as real;
    }
  }

  lemma {:induction false} WholeProduct(a: int, b: int)
    ensures a as real * b as real == (a * b) as real
    decreases if b < 0 then -b else b
  {
    if b > 0 {
      WholeProduct(a, b - 1);
      assert a * b == a * (b - 1) + a && b as real == (b - 1) as real + 1.0;
    } else if b < 0 {
      WholeProduct(a, b + 1);
      assert a * b == a * (b + 1) - a && b as real == (b + 1) as real - 1.0;
    }
  }

  /** The codes of n activations from position src on. */
  function CodesAt(A: seq<Float>, src: int, n: nat, s: real): seq<int>
    requires s > 0.0
  {
    seq(n, k => Code(CleanAt(A, src + k), s))
  }

  function Zeros(n: int): seq<int> { if n <= 0 then [] else seq(n, _ => 0) }

  /** Row m of the zero-padded activation buffer. */
  function PaddedRow(A: seq<Float>, ak: nat, KD: nat, s: real): nat -> seq<int>
    requires s > 0.0
  {
    m => CodesAt(A, m * ak, ak, s) + Zeros(KD - ak)
  }

  /** The zero-padded activation buffer. */
  function Padded(A: seq<Float>, am: nat, ak: nat, MD: nat, KD: nat, s: real): seq<int>
    requires s > 0.0
  {
    Flat(am, PaddedRow(A, ak, KD, s)) + Zeros((MD - am) * KD)
  }

  /** Codes of all weights. */
  function Codes(w: seq<Float>, s: real): seq<int>
    requires s > 0.0
  {
    seq(|w|, i requires 0 <= i < |w| => Code(Clean(w[i]), s))
  }

  /** Row m of the dequantised result block. */
  function ResultRow(C: seq<int>, ND: nat, an: nat, cs: real): nat -> seq<real> {
    m => ValuesAt(C, m * ND, an, cs)
  }

  function ValuesAt(C: seq<int>, src: int, n: nat, cs: real): seq<real> { seq(n, j => Number(C, src + j) * cs) }

  /** Largest finite magnitude of a prefix. */
  ghost predicate LargestOf(w: seq<Float>, n: nat, amax: real)
    requires n <= |w|
  {
    && amax >= 0.0
    && (forall i :: 0 <= i < n ==> Abs(Clean(w[i])) <= amax)
    && (amax > 0.0 ==> exists i :: 0 <= i < n && Abs(Clean(w[i])) == amax)
  }

  /** The scale PackB settles on, from the largest magnitude it found. */
  lemma ChosenScale(w: seq<Float>, largest: real, s: real)
    requires LargestOf(w, |w|, largest) && s == (if largest < TINY then 1.0 else largest) / 127.0
    ensures ScaleOf(w, s)
  {
    if largest >= TINY {
      var i :| 0 <= i < |w| && Abs(Clean(w[i])) == largest;
      assert Abs(Clean(w[i])) == 127.0 * s;
    }
  }

  lemma QuantisedCodes(w: seq<Float>, s: real)
    requires ScaleOf(w, s)
    ensures Quantised(w, Codes(w, s), s)
  {
    forall i | 0 <= i < |w| { WeightCode(Clean(w[i]), s); }
  }

  lemma NonFiniteIsZero(w: seq<Float>, s: real)
    requires s > 0.0
    ensures forall i :: 0 <= i < |w| && w[i].NonFinite? ==> Codes(w, s)[i] == 0
  {
    assert 0.0 / s == 0.0;
  }

  /** The code as the engine computes it, from the reciprocal of the scale. */
  function CodeBy(v: real, inverse: real): int { Clamp(Round(v * inverse)) }

  lemma CodeByInverse(v: real, inverse: real, s: real)
    requires s > 0.0 && inverse * s == 1.0
    ensures CodeBy(v, inverse) == Code(v, s)
  {
    var u := v / s;
    assert u * s == v;
    assert v * inverse == u * (inverse * s);
  }

  lemma Inverses(x: real, y: real)
    requires x > 0.0 && y > 0.0
    ensures y / x * (x / y) == 1.0
  {
    var u := x / y;
    assert u * y == x && y / x * x == y;
    assert y / x * u * y == y / x * (u * y);
    Cancel(y / x * u, 1.0, y);
  }

  method Quantise(v: real, inverse: real, ghost s: real) returns (x: int)
    requires s > 0.0 && inverse * s == 1.0
    ensures x == Code(v, s)
  {
    CodeByInverse(v, inverse, s);
    x := CodeBy(v, inverse);
  }

  lemma PaddedAt(A: seq<Float>, am: nat, ak: nat, MD: nat, KD: nat, s: real, m: nat, k: nat)
    requires s > 0.0 && m < am <= MD && ak <= KD && k < KD
    ensures Row(Padded(A, am, ak, MD, KD, s), KD, m)(k) == if k < ak then RowCodes(A, ak, s, m)(k) else 0.0
  {
    var row := PaddedRow(A, ak, KD, s);
    FlatAt(am, KD, row, m, k);
    assert Padded(A, am, ak, MD, KD, s)[m * KD + k] == row(m)[k];
  }

  /** The zero padding of the activation buffer does not reach the am x an result block. */
  lemma PaddingVanishes(A: seq<Float>, am: nat, ak: nat, MD: nat, KD: nat, s: real, B: seq<int>, ND: nat, m: nat, n: nat)
    requires s > 0.0 && m < am <= MD && ak <= KD
    ensures BufferDot(Padded(A, am, ak, MD, KD, s), B, KD, ND, m, n) == EngineDot(A, ak, s, B, ND, m, n)
  {
    var row := Row(Padded(A, am, ak, MD, KD, s), KD, m);
    var padded, exact := Terms(row, Column(B, ND, n)), Terms(RowCodes(A, ak, s, m), Column(B, ND, n));
    forall k: nat | k < KD ensures padded(k) == if k < ak then exact(k) else 0.0 {
      PaddedAt(A, am, ak, MD, KD, s, m, k);
    }
    SumZeroTail(ak, KD, padded);
    SumCongruent(ak, padded, exact);
  }

  lemma RowClose(A: seq<Float>, ak: nat, s: real, m: nat, k: nat)
    requires s > 0.0
    ensures Abs(Scaled(RowCodes(A, ak, s, m), s)(k) - TrueRow(A, ak, m)(k)) <= StepError(TrueRow(A, ak, m)(k), s)
  {
    CodeErrorExact(TrueRow(A, ak, m)(k), s);
  }

  lemma ColumnClose(w: seq<Float>, B: seq<int>, ak: nat, s: real, ND: nat, n: nat, k: nat)
    requires s > 0.0 && |w| == ak * ND <= |B| && n < ND && k < ak && Quantised(w, B[..ak * ND], s)
    ensures Abs(Scaled(Column(B, ND, n), s)(k) - TrueColumn(w, ND, n)(k)) <= StepError(TrueColumn(w, ND, n)(k), s)
  {
    DigitsBelow(k, ak, n, ND);
    var i := k * ND + n;
    assert B[i] == B[..ak * ND][i] && Abs(Value(B[i], s) - Clean(w[i])) <= s / 2.0;
    assert Scaled(Column(B, ND, n), s)(k) == Value(B[i], s);
  }

  lemma ColumnNear(w: seq<Float>, B: seq<int>, ak: nat, s: real, ND: nat, n: nat)
    requires s > 0.0 && |w| == ak * ND <= |B| && n < ND && Quantised(w, B[..ak * ND], s)
    ensures Near(ak, TrueColumn(w, ND, n), Column(B, ND, n), s)
  {
    forall k: nat | k < ak { ColumnClose(w, B, ak, s, ND, n, k); }
  }

  lemma RowNear(A: seq<Float>, ak: nat, s: real, m: nat)
    requires s > 0.0
    ensures Near(ak, TrueRow(A, ak, m), RowCodes(A, ak, s, m), s)
  {
    forall k: nat | k < ak { RowClose(A, ak, s, m, k); }
  }

  /**
   What an output of the engine is worth: with the weights as PackB stored them and any activations, the dequantised
   output is within the accumulated step errors of the true product of the finite parts. An activation beyond 127.5
   scales contributes what its clamp cuts off, a weight never does.
   */
  lemma EngineError(A: seq<Float>, ak: nat, sA: real, w: seq<Float>, B: seq<int>, sB: real, ND: nat, m: nat, n: nat)
    requires sA > 0.0 && sB > 0.0 && |w| == ak * ND <= |B| && n < ND && Quantised(w, B[..ak * ND], sB)
    ensures WithinError(EngineDot(A, ak, sA, B, ND, m, n), ak, TrueRow(A, ak, m), TrueColumn(w, ND, n), sA, sB)
  {
    RowNear(A, ak, sA, m);
    ColumnNear(w, B, ak, sB, ND, n);
    DotError(ak, TrueRow(A, ak, m), TrueColumn(w, ND, n), RowCodes(A, ak, sA, m), Column(B, ND, n), sA, sB);
  }

  class Context {
    const MD: nat
    const KD: nat
    const ND: nat
    const device: Device
    const Am: array<int>
    const Cm: array<int>
    const layers: seq<array<int>>

    ghost predicate Valid() {
      && Am.Length == MD * KD && Cm.Length == MD * ND && Am != Cm
      && (forall l :: 0 <= l < |layers| ==> layers[l].Length == KD * ND && layers[l] != Am && layers[l] != Cm)
      && Multiplies(device, MD, KD, ND)
    }

    /** A context over buffers already mapped for the device. */
    constructor (MD: nat, KD: nat, ND: nat, device: Device, Am: array<int>, Cm: array<int>, layers: seq<array<int>>)
      requires Am.Length == MD * KD && Cm.Length == MD * ND && Am != Cm && Multiplies(device, MD, KD, ND)
      requires forall l :: 0 <= l < |layers| ==> layers[l].Length == KD * ND && layers[l] != Am && layers[l] != Cm
      ensures Valid() && this.MD == MD && this.KD == KD && this.ND == ND
      ensures this.Am == Am && this.Cm == Cm && this.layers == layers
    {
      this.MD, this.KD, this.ND, this.device := MD, KD, ND, device;
      this.Am, this.Cm, this.layers := Am, Cm, layers;
    }

    /** The largest finite magnitude among the weights. */
    method LargestMagnitude(w: seq<Float>) returns (amax: real)
      ensures LargestOf(w, |w|, amax)
    {
      amax := 0.0;
      for i := 0 to |w|
        invariant LargestOf(w, i, amax)
      {
        if w[i].Finite? && Abs(w[i].v) > amax { amax := Abs(w[i].v); }
      }
    }

    /** Chooses a scale for a layer's weights and stores their codes. */
    method PackB(l: nat, w: seq<Float>, K: nat, N: nat) returns (sout: real)
      requires Valid() && l < |layers| && |w| == K * N <= KD * ND
      modifies layers[l]
      ensures ScaleOf(w, sout) && Quantised(w, layers[l][..K * N], sout)
      ensures (exists i :: 0 <= i < |w| && w[i].Finite? && Abs(w[i].v) >= 0.000000000001) ==>
        exists i :: 0 <= i < |w| && w[i].Finite? && 127.0 * sout == Abs(w[i].v)
      ensures (forall i :: 0 <= i < |w| && w[i].Finite? ==> Abs(w[i].v) < 0.000000000001) ==> 127.0 * sout == 1.0
      ensures forall i :: 0 <= i < |w| && w[i].Finite? ==> Abs(w[i].v) <= 127.0 * sout
      ensures forall i :: 0 <= i < |w| && w[i].NonFinite? ==> layers[l][i] == 0
      ensures layers[l][K * N..] == old(layers[l][K * N..])
    {
      var largest := LargestMagnitude(w);
      var amax := if largest < TINY then 1.0 else largest;
      sout := amax / 127.0;
      ChosenScale(w, largest, sout);
      QuantisedCodes(w, sout);
      StoreCodes(layers[l], w, amax);
      assert layers[l][..K * N] == Codes(w, sout);
      ScaleInFull(w, sout);
      NonFiniteIsZero(w, sout);
    }

    method StoreCodes(Bm: array<int>, w: seq<Float>, amax: real)
      requires amax > 0.0 && |w| <= Bm.Length
      modifies Bm
      ensures Bm[..] == Codes(w, amax / 127.0) + old(Bm[|w|..])
    {
      var inverse := 127.0 / amax;
      Inverses(amax, 127.0);
      StoreBy(Bm, w, inverse, amax / 127.0, Codes(w, amax / 127.0));
    }

    method StoreBy(Bm: array<int>, w: seq<Float>, inverse: real, ghost s: real, ghost codes: seq<int>)
      requires s > 0.0 && inverse * s == 1.0 && |w| == |codes| <= Bm.Length
      requires forall i :: 0 <= i < |w| ==> codes[i] == Code(Clean(w[i]), s)
      modifies Bm
      ensures Bm[..] == Splice(old(Bm[..]), 0, codes, |w|)
    {
      ghost var before := Bm[..];
      for i := 0 to |w|
        invariant Bm[..] == Splice(before, 0, codes, i)
      {
        SpliceStep(before, 0, codes, i);
        StoreOne(Bm, i, Clean(w[i]), inverse, s);
      }
    }

    method StoreOne(Bm: array<int>, i: nat, v: real, inverse: real, ghost s: real)
      requires s > 0.0 && inverse * s == 1.0 && i < Bm.Length
      modifies Bm
      ensures Bm[..] == old(Bm[..])[i := Code(v, s)]
    {
      var x := Quantise(v, inverse, s);
      Bm[i] := x;
    }

    /** Quantises ak activations from src on into the buffer at dst. */
    method QuantiseRow(A: seq<Float>, src: nat, ak: nat, ascale: real, dst: nat)
      requires Valid() && src + ak <= |A| && dst + ak <= Am.Length && ascale > 0.0
      modifies Am
      ensures Am[..] == Splice(old(Am[..]), dst, CodesAt(A, src, ak, ascale), ak)
    {
      var inverse := 1.0 / ascale;
      ghost var before, codes := Am[..], CodesAt(A, src, ak, ascale);
      for k := 0 to ak
        invariant Am[..] == Splice(before, dst, codes, k)
      {
        SpliceStep(before, dst, codes, k);
        var v := Clean(A[src + k]);
        assert CleanAt(A, src + k) == v && codes[k] == Code(v, ascale);
        var x := Quantise(v, inverse, ascale);
        Am[dst + k] := x;
      }
    }

    /** Quantises am x ak activations into the zeroed MD x KD buffer. */
    method QuantiseA(A: seq<Float>, am: nat, ak: nat, ascale: real)
      requires Valid() && am <= MD && ak <= KD && |A| >= am * ak && ascale > 0.0
      modifies Am
      ensures Am[..] == Padded(A, am, ak, MD, KD, ascale)
    {
      for i := 0 to MD * KD
        invariant Am[..i] == Zeros(i)
      {
        Am[i] := 0;
      }
      for m := 0 to am
        invariant Am[..] == Padded(A, m, ak, MD, KD, ascale)
      {
        PaddedStep(A, m, am, ak, MD, KD, ascale);
        QuantiseRow(A, m * ak, ak, ascale, m * KD);
      }
    }

    /** One product: quantise, run the device, dequantise. */
    method Go(l: nat, A: seq<Float>, am: nat, ak: nat, ascale: real, Bscale: real, C: array<real>, an: nat)
      requires Valid() && l < |layers| && am <= MD && ak <= KD && an <= ND && |A| >= am * ak && C.Length >= am * an
      requires ascale > 0.0
      modifies Am, Cm, C
      ensures ResultOf(A, am, ak, ascale, Bscale, layers[l][..], C[..], ND, an)
      ensures C[am * an..] == old(C[am * an..])
    {
      QuantiseA(A, am, ak, ascale);
      RunDevice(l);
      Dequantise(C, am, an, ascale * Bscale);
      ResultComputed(A, am, ak, MD, KD, ND, ascale, Bscale, layers[l][..], Cm[..], C[..], an);
    }

    /** The device call, with the output buffer synchronised back. */
    method RunDevice(l: nat)
      requires Valid() && l < |layers|
      modifies Cm
      ensures ProductBuffer(Am[..], layers[l][..], Cm[..], MD, KD, ND)
    {
      var out := device(Am[..], layers[l][..]);
      assert ProductBuffer(Am[..], layers[l][..], out, MD, KD, ND);
      for i := 0 to MD * ND
        invariant Cm[..i] == out[..i]
      {
        Cm[i] := out[i];
      }
      assert Cm[..] == out;
    }

    method DequantiseRow(C: array<real>, src: nat, an: nat, cs: real, dst: nat)
      requires Valid() && src + an <= Cm.Length && dst + an <= C.Length
      modifies C
      ensures C[..] == Splice(old(C[..]), dst, ValuesAt(Cm[..], src, an, cs), an)
    {
      ghost var before, values := C[..], ValuesAt(Cm[..], src, an, cs);
      for n := 0 to an
        invariant C[..] == Splice(before, dst, values, n)
      {
        SpliceStep(before, dst, values, n);
        var v := Cm[src + n] as real;
        assert Number(Cm[..], src + n) == v && values[n] == v * cs;
        C[dst + n] := v * cs;
      }
    }

    method Dequantise(C: array<real>, am: nat, an: nat, cs: real)
      requires Valid() && am <= MD && an <= ND && C.Length >= am * an
      modifies C
      ensures Flat(am, ResultRow(Cm[..], ND, an, cs)) <= C[..]
      ensures C[am * an..] == old(C[am * an..])
    {
      ghost var before, row := C[..], ResultRow(Cm[..], ND, an, cs);
      for m := 0 to am
        invariant 0 <= m * an <= C.Length && C[..] == Flat(m, row) + before[m * an..]
      {
        RowInside(m, am, an, C.Length);
        RowInside(m, MD, ND, Cm.Length);
        FlatStep(before, m, an, row);
        DequantiseRow(C, m * ND, an, cs, m * an);
        assert row(m) == ValuesAt(Cm[..], m * ND, an, cs);
        assert C[..] == Splice(Flat(m, row) + before[m * an..], m * an, row(m), an);
      }
      FlatSize(am, an, row);
    }
  }

  lemma PaddedStep(A: seq<Float>, m: nat, am: nat, ak: nat, MD: nat, KD: nat, s: real)
    requires s > 0.0 && m < am <= MD && ak <= KD && |A| >= am * ak
    ensures 0 <= m * ak <= m * ak + ak <= |A| && 0 <= m * KD <= m * KD + ak <= |Padded(A, m, ak, MD, KD, s)| == MD * KD
    ensures var before := Padded(A, m, ak, MD, KD, s);
      Padded(A, m + 1, ak, MD, KD, s) == Splice(before, m * KD, CodesAt(A, m * ak, ak, s), ak)
  {
    var row := PaddedRow(A, ak, KD, s);
    RowInside(m, am, ak, |A|);
    RowInside(m, MD, KD, MD * KD);
    FlatSize(m, KD, row);
    assert (MD - m) * KD == MD * KD - m * KD && (MD - (m + 1)) * KD == (MD - m) * KD - KD;
    var before, after := Zeros((MD - m) * KD), Zeros((MD - (m + 1)) * KD);
    assert before[ak..] == Zeros(KD - ak) + after;
    assert Flat(m + 1, row) == Flat(m, row) + (CodesAt(A, m * ak, ak, s) + Zeros(KD - ak));
  }

  /** Output (m, n) is the scaled integer dot product, unless the accumulator overflowed. */
  ghost predicate Computed(A: seq<Float>, ak: nat, sA: real, sB: real, B: seq<int>, C: seq<real>, ND: nat, an: nat, m: nat, n: nat)
    requires sA > 0.0
  {
    Fits(EngineDot(A, ak, sA, B, ND, m, n)) ==> Entry(C, m * an + n) == EngineDot(A, ak, sA, B, ND, m, n) * (sA * sB)
  }

  lemma OutputAt(out: seq<int>, am: nat, ND: nat, cs: real, C: seq<real>, an: nat, m: nat, n: nat)
    requires m < am && n < an && Flat(am, ResultRow(out, ND, an, cs)) <= C
    ensures Entry(C, m * an + n) == Number(out, m * ND + n) * cs
  {
    FlatAt(am, an, ResultRow(out, ND, an, cs), m, n);
  }

  /** From the device's result for the padded activations to the dequantised output. */
  lemma OutputComputed(A: seq<Float>, am: nat, ak: nat, MD: nat, KD: nat, ND: nat, sA: real, sB: real, B: seq<int>,
                       out: seq<int>, C: seq<real>, an: nat, m: nat, n: nat)
    requires sA > 0.0 && m < am <= MD && ak <= KD
    requires OutputExact(Padded(A, am, ak, MD, KD, sA), B, out, KD, ND, m, n)
    requires Entry(C, m * an + n) == Number(out, m * ND + n) * (sA * sB)
    ensures Computed(A, ak, sA, sB, B, C, ND, an, m, n)
  {
    PaddingVanishes(A, am, ak, MD, KD, sA, B, ND, m, n);
  }

  /** The am x an block of C is the scaled integer product, up to overflowed outputs. */
  ghost predicate ResultOf(A: seq<Float>, am: nat, ak: nat, sA: real, sB: real, B: seq<int>, C: seq<real>, ND: nat, an: nat)
    requires sA > 0.0
  {
    forall m: nat, n: nat :: m < am && n < an ==> Computed(A, ak, sA, sB, B, C, ND, an, m, n)
  }

  lemma ResultComputed(A: seq<Float>, am: nat, ak: nat, MD: nat, KD: nat, ND: nat, sA: real, sB: real, B: seq<int>,
                       out: seq<int>, C: seq<real>, an: nat)
    requires sA > 0.0 && am <= MD && ak <= KD && an <= ND
    requires ProductBuffer(Padded(A, am, ak, MD, KD, sA), B, out, MD, KD, ND)
    requires Flat(am, ResultRow(out, ND, an, sA * sB)) <= C
    ensures ResultOf(A, am, ak, sA, sB, B, C, ND, an)
  {
    forall m: nat, n: nat | m < am && n < an ensures Computed(A, ak, sA, sB, B, C, ND, an, m, n) {
      assert OutputExact(Padded(A, am, ak, MD, KD, sA), B, out, KD, ND, m, n);
      OutputAt(out, am, ND, sA * sB, C, an, m, n);
      OutputComputed(A, am, ak, MD, KD, ND, sA, sB, B, out, C, an, m, n);
    }
  }

  /**
   From Go's result to the true product: with a layer packed by PackB, every output that did not overflow is within the
   accumulated step errors of the product of the finite parts.
   */
  lemma ResultWithinError(A: seq<Float>, am: nat, ak: nat, sA: real, w: seq<Float>, B: seq<int>, sB: real, C: seq<real>,
                          ND: nat, an: nat, m: nat, n: nat)
    requires sA > 0.0 && sB > 0.0 && |w| == ak * ND <= |B| && Quantised(w, B[..ak * ND], sB)
    requires ResultOf(A, am, ak, sA, sB, B, C, ND, an) && m < am && n < an <= ND
    requires Fits(EngineDot(A, ak, sA, B, ND, m, n))
    ensures OutputWithin(Entry(C, m * an + n), ak, TrueRow(A, ak, m), TrueColumn(w, ND, n), sA, sB)
  {
    ResultEntry(A, am, ak, sA, sB, B, C, ND, an, m, n);
    EntryWithin(A, ak, sA, w, B, sB, ND, m, n, Entry(C, m * an + n));
  }

  /** How far the code of activation v can be from it: half a step, or what the clamp at 127 cuts off. */
  function CutOff(v: real, sA: real): real { if Abs(v) <= 127.5 * sA then sA / 2.0 else Abs(v) - 127.0 * sA }

  /** Terms of output (m, n) of the true product, non-finite numbers counting as zero, and of its error. */
  function TrueTerms(A: seq<Float>, ak: nat, w: seq<Float>, ND: nat, m: nat, n: nat): int -> real {
    k => CleanAt(A, m * ak + k) * CleanAt(w, k * ND + n)
  }

  function ErrorTerms(A: seq<Float>, ak: nat, sA: real, w: seq<Float>, sB: real, ND: nat, m: nat, n: nat): int -> real {
    k => ErrorTerm(CleanAt(A, m * ak + k), sA, CleanAt(w, k * ND + n), sB)
  }

  function ErrorTerm(a: real, sA: real, w: real, sB: real): real { Abs(a) * (sB / 2.0) + (Abs(w) + sB / 2.0) * CutOff(a, sA) }

  /** The same in full, error term by error term. */
  lemma ResultInFull(A: seq<Float>, am: nat, ak: nat, sA: real, w: seq<Float>, B: seq<int>, sB: real, C: seq<real>,
                     ND: nat, an: nat, m: nat, n: nat)
    requires sA > 0.0 && sB > 0.0 && |w| == ak * ND <= |B| && Quantised(w, B[..ak * ND], sB)
    requires ResultOf(A, am, ak, sA, sB, B, C, ND, an) && m < am && n < an <= ND && |A| == am * ak && |C| >= am * an
    requires -32768.0 <= EngineDot(A, ak, sA, B, ND, m, n) <= 32767.0
    ensures 0 <= m * an + n < |C|
    ensures Abs(C[m * an + n] - Sum(ak, TrueTerms(A, ak, w, ND, m, n))) <= Sum(ak, ErrorTerms(A, ak, sA, w, sB, ND, m, n))
  {
    DigitsBelow(m, am, n, an);
    ResultWithinError(A, am, ak, sA, w, B, sB, C, ND, an, m, n);
    BoundInFull(A, ak, sA, w, B, sB, ND, m, n, C[m * an + n]);
  }

  lemma BoundInFull(A: seq<Float>, ak: nat, sA: real, w: seq<Float>, B: seq<int>, sB: real, ND: nat, m: nat, n: nat, c: real)
    requires sA > 0.0 && sB > 0.0 && |w| == ak * ND <= |B| && n < ND && Quantised(w, B[..ak * ND], sB)
    requires OutputWithin(c, ak, TrueRow(A, ak, m), TrueColumn(w, ND, n), sA, sB)
    ensures Abs(c - Sum(ak, TrueTerms(A, ak, w, ND, m, n))) <= Sum(ak, ErrorTerms(A, ak, sA, w, sB, ND, m, n))
  {
    ErrorsInFull(A, ak, sA, w, B, sB, ND, m, n);
    ProductInFull(A, ak, w, ND, m, n);
  }

  lemma ProductInFull(A: seq<Float>, ak: nat, w: seq<Float>, ND: nat, m: nat, n: nat)
    ensures Sum(ak, Terms(TrueRow(A, ak, m), TrueColumn(w, ND, n))) == Sum(ak, TrueTerms(A, ak, w, ND, m, n))
  {
    SumCongruent(ak, Terms(TrueRow(A, ak, m), TrueColumn(w, ND, n)), TrueTerms(A, ak, w, ND, m, n));
  }

  lemma ErrorsInFull(A: seq<Float>, ak: nat, sA: real, w: seq<Float>, B: seq<int>, sB: real, ND: nat, m: nat, n: nat)
    requires sA > 0.0 && sB > 0.0 && |w| == ak * ND <= |B| && n < ND && Quantised(w, B[..ak * ND], sB)
    ensures Sum(ak, Errors(TrueRow(A, ak, m), TrueColumn(w, ND, n), sA, sB)) == Sum(ak, ErrorTerms(A, ak, sA, w, sB, ND, m, n))
  {
    var a, b := TrueRow(A, ak, m), TrueColumn(w, ND, n);
    forall k: nat | k < ak ensures Errors(a, b, sA, sB)(k) == ErrorTerms(A, ak, sA, w, sB, ND, m, n)(k) {
      WeightInRange(w, B, ak, sB, ND, n, k);
      ErrorInFull(a(k), b(k), sA, sB);
    }
    SumCongruent(ak, Errors(a, b, sA, sB), ErrorTerms(A, ak, sA, w, sB, ND, m, n));
  }

  lemma ErrorInFull(a: real, w: real, sA: real, sB: real)
    requires Abs(w) <= 127.5 * sB
    ensures ProductError(a, w, StepError(a, sA), StepError(w, sB)) == ErrorTerm(a, sA, w, sB)
  {
    assert StepError(a, sA) == CutOff(a, sA) && StepError(w, sB) == sB / 2.0;
    FactorOut(Abs(w), sB / 2.0, CutOff(a, sA));
  }

  lemma FactorOut(x: real, y: real, d: real)
    ensures x * d + d * y == (x + y) * d
  {}

  /** A weight whose code is in range and within half a step is at most 127.5 steps. */
  lemma WeightInRange(w: seq<Float>, B: seq<int>, ak: nat, s: real, ND: nat, n: nat, k: nat)
    requires s > 0.0 && |w| == ak * ND <= |B| && n < ND && k < ak && Quantised(w, B[..ak * ND], s)
    ensures Abs(TrueColumn(w, ND, n)(k)) <= 127.5 * s
  {
    DigitsBelow(k, ak, n, ND);
    CodedWeight(w, B[..ak * ND], s, k * ND + n);
  }

  lemma CodedWeight(w: seq<Float>, codes: seq<int>, s: real, i: nat)
    requires s > 0.0 && i < |w| == |codes| && Quantised(w, codes, s)
    ensures Abs(Clean(w[i])) <= 127.5 * s
  {
    FromCode(codes[i] as real, Clean(w[i]), s);
  }

  lemma FromCode(c: real, w: real, s: real)
    requires s > 0.0 && Abs(c) <= 127.0 && Abs(c * s - w) <= s / 2.0
    ensures Abs(w) <= 127.5 * s
  {
    ScaledBound(c, 127.0, s);
  }

  lemma ResultEntry(A: seq<Float>, am: nat, ak: nat, sA: real, sB: real, B: seq<int>, C: seq<real>, ND: nat, an: nat, m: nat, n: nat)
    requires sA > 0.0 && ResultOf(A, am, ak, sA, sB, B, C, ND, an) && m < am && n < an
    requires Fits(EngineDot(A, ak, sA, B, ND, m, n))
    ensures Entry(C, m * an + n) == EngineDot(A, ak, sA, B, ND, m, n) * (sA * sB)
  {
    assert Computed(A, ak, sA, sB, B, C, ND, an, m, n);
  }

  lemma EntryWithin(A: seq<Float>, ak: nat, sA: real, w: seq<Float>, B: seq<int>, sB: real, ND: nat, m: nat, n: nat, c: real)
    requires sA > 0.0 && sB > 0.0 && |w| == ak * ND <= |B| && n < ND && Quantised(w, B[..ak * ND], sB)
    requires c == EngineDot(A, ak, sA, B, ND, m, n) * (sA * sB)
    ensures OutputWithin(c, ak, TrueRow(A, ak, m), TrueColumn(w, ND, n), sA, sB)
  {
    EngineError(A, ak, sA, w, B, sB, ND, m, n);
    Commuted(EngineDot(A, ak, sA, B, ND, m, n), sA * sB);
  }

  lemma Commuted(x: real, y: real)
    ensures x * y == y * x
  {}

  function Entry(C: seq<real>, i: int): real { if 0 <= i < |C| then C[i] else 0.0 }
}
