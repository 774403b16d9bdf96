/** Symmetric int8 quantisation and the error it puts on a dot product. */
module Quant {
  import opened Sums

  /** A float as far as the engine looks at it; finite values are reals. */
  datatype Float = Finite(v: real) | NonFinite

  /** NaN and infinity are replaced by zero wherever the engine reads a float. */
  function Clean(f: Float): real { if f.Finite? then f.v else 0.0 }

  /** roundf: to the nearest integer, halves away from zero. */
  function Round(x: real): int { if x >= 0.0 then (x + 0.5).Floor else -((-x + 0.5).Floor) }

  lemma RoundNear(x: real)
    ensures Abs(Round(x) as real - x) <= 0.5
    ensures Abs(Round(x) as real - x) == 0.5 ==> Abs(Round(x) as real) > Abs(x)
  {}

  function Clamp(x: int): int { if x > 127 then 127 else if x < -127 then -127 else x }

  /** The code of v at scale s. */
  function Code(v: real, s: real): int
    requires s > 0.0
  {
    Clamp(Round(v / s))
  }

  /** The value a code stands for. */
  function Value(code: int, s: real): real { code as real * s }

  /** Multiplying by a positive number keeps a bound on the magnitude, both ways. */
  lemma ScaledBound(x: real, bound: real, s: real)
    requires s > 0.0
    ensures Abs(x) <= bound <==> Abs(x * s) <= bound * s
  {
    var d := bound - Abs(x);
    assert d * s == bound * s - Abs(x) * s;
    assert Abs(x * s) == Abs(x) * s by { AbsProduct(x, s); }
    if d >= 0.0 { assert d * s >= 0.0; } else { assert (-d) * s > 0.0; assert (-d) * s == -(d * s); }
  }

  lemma AbsProduct(x: real, y: real)
    ensures Abs(x * y) == Abs(x) * Abs(y)
  {
    assert x * y == (-x) * (-y) && x * (-y) == -(x * y) && (-x) * y == -(x * y);
    if x >= 0.0 { if y >= 0.0 { assert x * y >= 0.0; } else { assert x * (-y) >= 0.0; } }
    else { if y >= 0.0 { assert (-x) * y >= 0.0; } else { assert (-x) * (-y) >= 0.0; } }
  }

  lemma Ratio(v: real, s: real)
    requires s > 0.0
    ensures v / s * s == v
  {}

  /** Quantising is exact to half a step precisely for values up to 127.5 steps; larger ones saturate. */
  lemma CodeErrorIff(v: real, s: real)
    requires s > 0.0
    ensures -127 <= Code(v, s) <= 127
    ensures Abs(Value(Code(v, s), s) - v) <= s / 2.0 <==> Abs(v) <= 127.5 * s
  {
    Ratio(v, s);
    StepsOf(v / s, Code(v, s), v, s);
  }

  lemma StepsOf(u: real, code: int, v: real, s: real)
    requires s > 0.0 && u * s == v && code == Clamp(Round(u))
    ensures Abs(Value(code, s) - v) <= s / 2.0 <==> Abs(v) <= 127.5 * s
  {
    CodeUnit(u);
    InUnits(code as real, u, v, s);
  }

  /** Measured in steps of s. */
  lemma InUnits(c: real, u: real, v: real, s: real)
    requires s > 0.0 && u * s == v
    ensures Abs(c * s - v) <= s / 2.0 <==> Abs(c - u) <= 0.5
    ensures Abs(v) <= 127.5 * s <==> Abs(u) <= 127.5
  {
    assert (c - u) * s == c * s - v;
    ScaledBound(c - u, 0.5, s);
    ScaledBound(u, 127.5, s);
  }

  lemma CodeUnit(u: real)
    ensures Abs(Clamp(Round(u)) as real - u) <= 0.5 <==> Abs(u) <= 127.5
  {
    RoundNear(u);
    var r := Round(u);
    if r > 127 { assert u >= 127.5; assert u == 127.5 || u > 127.5; }
    if r < -127 { assert u <= -127.5; }
  }

  /** By how much a value lies beyond what the codes reach to half a step. */
  function Excess(v: real, s: real): real { if Abs(v) <= 127.5 * s then 0.0 else Abs(v) - 127.5 * s }

  /** The largest error of the code of v: half a step, and what saturation cuts off. */
  function StepError(v: real, s: real): real { s / 2.0 + Excess(v, s) }

  /** A code is within its step error of the value, and misses a saturated value by exactly that. */
  lemma CodeErrorExact(v: real, s: real)
    requires s > 0.0
    ensures Abs(Value(Code(v, s), s) - v) <= StepError(v, s)
    ensures Abs(v) > 127.5 * s ==> Abs(Value(Code(v, s), s) - v) == StepError(v, s)
  {
    CodeErrorIff(v, s);
    if Abs(v) > 127.5 * s {
      Ratio(v, s);
      Saturates(v / s, v, s);
    }
  }

  lemma Saturates(u: real, v: real, s: real)
    requires s > 0.0 && u * s == v && Abs(v) > 127.5 * s
    ensures Clamp(Round(u)) == if v > 0.0 then 127 else -127
  {
    ScaledBound(u, 127.5, s);
    SameSign(u, s);
  }

  lemma SameSign(u: real, s: real)
    requires s > 0.0
    ensures u > 0.0 ==> u * s > 0.0
    ensures u < 0.0 ==> u * s < 0.0
  {
    assert u < 0.0 ==> (-u) * s > 0.0;
    assert (-u) * s == -(u * s);
  }

  /** Within 127 steps the clamp does nothing. */
  lemma ClampIdle(v: real, s: real)
    requires s > 0.0 && Abs(v) <= 127.0 * s
    ensures Code(v, s) == Round(v / s)
  {
    var u := v / s;
    Ratio(v, s);
    ScaledBound(u, 127.0, s);
    RoundNear(u);
    var r := Round(u);
    assert r as real <= 127.5 && r as real >= -127.5;
  }

  const TINY: real := 0.000000000001

  /** The scale chosen for weights: the largest finite magnitude over 127, or 1 / 127 when that is below 1e-12. */
  ghost predicate ScaleOf(w: seq<Float>, s: real) {
    && s > 0.0
    && (forall i :: 0 <= i < |w| ==> Abs(Clean(w[i])) <= 127.0 * s)
    && if AllTiny(w) then 127.0 * s == 1.0 else exists i :: 0 <= i < |w| && Abs(Clean(w[i])) == 127.0 * s
  }

  ghost predicate AllTiny(w: seq<Float>) { forall i :: 0 <= i < |w| ==> Abs(Clean(w[i])) < TINY }

  /** Quantised weights: every code in range, unclamped, and within half a step of its weight. */
  ghost predicate Quantised(w: seq<Float>, codes: seq<int>, s: real)
    requires |w| == |codes| && s > 0.0
  {
    forall i :: 0 <= i < |w| ==>
      && -127 <= codes[i] <= 127
      && codes[i] == Round(Clean(w[i]) / s)
      && Abs(Value(codes[i], s) - Clean(w[i])) <= s / 2.0
  }

  /**
   The scale in plain terms: 127 scales are the largest finite magnitude if that is at least 1e-12, and 1 if all finite
   magnitudes are below.
   */
  lemma ScaleInFull(w: seq<Float>, s: real)
    requires ScaleOf(w, s)
    ensures (exists i :: 0 <= i < |w| && w[i].Finite? && Abs(w[i].v) >= 0.000000000001) ==>
      exists i :: 0 <= i < |w| && w[i].Finite? && 127.0 * s == Abs(w[i].v)
    ensures (forall i :: 0 <= i < |w| && w[i].Finite? ==> Abs(w[i].v) < 0.000000000001) ==> 127.0 * s == 1.0
    ensures forall i :: 0 <= i < |w| && w[i].Finite? ==> Abs(w[i].v) <= 127.0 * s
  {
    forall i | 0 <= i < |w| && w[i].Finite? ensures Abs(w[i].v) <= 127.0 * s { assert Clean(w[i]) == w[i].v; }
    if i :| 0 <= i < |w| && w[i].Finite? && Abs(w[i].v) >= 0.000000000001 {
      assert Clean(w[i]) == w[i].v && !AllTiny(w);
      var j :| 0 <= j < |w| && Abs(Clean(w[j])) == 127.0 * s;
      assert w[j].Finite?;
    } else {
      forall i | 0 <= i < |w| ensures Abs(Clean(w[i])) < TINY {}
    }
  }

  /** One weight of a matrix whose scale bounds it. */
  lemma WeightCode(v: real, s: real)
    requires s > 0.0 && Abs(v) <= 127.0 * s
    ensures -127 <= Code(v, s) <= 127 && Code(v, s) == Round(v / s)
    ensures Abs(Value(Code(v, s), s) - v) <= s / 2.0
  {
    ClampIdle(v, s);
    CodeErrorIff(v, s);
  }

  /** The largest weight gets the largest code: the scale wastes no range. */
  lemma ScaleIsTight(w: seq<Float>, codes: seq<int>, s: real)
    requires |w| == |codes| && ScaleOf(w, s) && Quantised(w, codes, s)
    requires exists i :: 0 <= i < |w| && w[i].Finite? && Abs(w[i].v) >= 0.000000000001
    ensures exists i :: 0 <= i < |w| && (codes[i] == 127 || codes[i] == -127)
  {
    ScaleInFull(w, s);
    var i :| 0 <= i < |w| && w[i].Finite? && 127.0 * s == Abs(w[i].v);
    assert Clean(w[i]) == w[i].v;
    Extreme(w[i].v, s);
    assert codes[i] == 127 || codes[i] == -127;
  }

  lemma Extreme(v: real, s: real)
    requires s > 0.0 && Abs(v) == 127.0 * s
    ensures Round(v / s) == if v >= 0.0 then 127 else -127
  {
    var u := v / s;
    Ratio(v, s);
    Cancel(u, if v >= 0.0 then 127.0 else -127.0, s);
  }

  lemma Cancel(u: real, c: real, s: real)
    requires s > 0.0 && u * s == c * s
    ensures u == c
  {
    assert u * s / s == u && c * s / s == c;
  }

  /** Error of one product of two factors known to within d and e. */
  function ProductError(a: real, w: real, d: real, e: real): real { Abs(a) * e + Abs(w) * d + d * e }

  lemma ProductsClose(a: real, w: real, x: real, y: real, d: real, e: real)
    requires Abs(x) <= d && Abs(y) <= e
    ensures Abs((a + x) * (w + y) - a * w) <= ProductError(a, w, d, e)
  {
    var p, q, r, p', q', r' := ErrorTerms(a, w, x, y, d, e);
    ThreeTerms(p, q, r, p', q', r');
  }

  lemma ThreeTerms(p: real, q: real, r: real, p': real, q': real, r': real)
    requires Abs(p) <= p' && Abs(q) <= q' && Abs(r) <= r'
    ensures Abs(p + q + r) <= p' + q' + r'
  {}

  /** The three error terms of a product, each with its own bound. */
  lemma ErrorTerms(a: real, w: real, x: real, y: real, d: real, e: real)
    returns (p: real, q: real, r: real, p': real, q': real, r': real)
    requires Abs(x) <= d && Abs(y) <= e
    ensures (a + x) * (w + y) - a * w == p + q + r && ProductError(a, w, d, e) == p' + q' + r'
    ensures Abs(p) <= p' && Abs(q) <= q' && Abs(r) <= r'
  {
    p, q, r := a * y, w * x, x * y;
    p', q', r' := Abs(a) * e, Abs(w) * d, d * e;
    Expand(a, w, x, y);
    BoundedProduct(a, y, Abs(a), e);
    BoundedProduct(w, x, Abs(w), d);
    BoundedProduct(x, y, d, e);
  }

  lemma Expand(a: real, w: real, e: real, f: real)
    ensures (a + e) * (w + f) - a * w == a * f + w * e + e * f
  {}

  lemma BoundedProduct(x: real, y: real, p: real, q: real)
    requires Abs(x) <= p && Abs(y) <= q
    ensures Abs(x * y) <= p * q
  {
    AbsProduct(x, y);
    assert (p - Abs(x)) * q >= 0.0 && Abs(x) * (q - Abs(y)) >= 0.0;
    assert (p - Abs(x)) * q + Abs(x) * (q - Abs(y)) == p * q - Abs(x) * Abs(y);
  }

  lemma Shifted(a: real, w: real, a': real, w': real, d: real, e: real)
    requires Abs(a' - a) <= d && Abs(w' - w) <= e
    ensures Abs(a' * w' - a * w) <= ProductError(a, w, d, e)
  {
    ProductsClose(a, w, a' - a, w' - w, d, e);
    assert a + (a' - a) == a' && w + (w' - w) == w';
  }

  /** The terms of a dot product, of codes or of true values, and of its error. */
  function Terms(a: int -> real, w: int -> real): int -> real { k => a(k) * w(k) }

  function Scaled(x: int -> real, s: real): int -> real { k => x(k) * s }

  function Errors(a: int -> real, w: int -> real, sA: real, sB: real): int -> real {
    k => ProductError(a(k), w(k), StepError(a(k), sA), StepError(w(k), sB))
  }

  lemma Regroup(x: real, y: real, s: real, t: real)
    ensures x * s * (y * t) == s * t * (x * y)
  {
    assert x * s * (y * t) == x * s * y * t;
    assert s * t * (x * y) == s * t * x * y;
  }

  lemma ScaledTerms(x: int -> real, y: int -> real, sA: real, sB: real, k: int)
    ensures Terms(Scaled(x, sA), Scaled(y, sB))(k) == sA * sB * Terms(x, y)(k)
  {
    Regroup(x(k), y(k), sA, sB);
  }

  /** Every code stands for a value within the step error of its factor. */
  ghost predicate Near(K: nat, a: int -> real, x: int -> real, s: real) { Close(K, a, Scaled(x, s), s) }

  ghost predicate Close(K: nat, a: int -> real, a': int -> real, s: real) {
    forall k :: 0 <= k < K ==> Abs(a'(k) - a(k)) <= StepError(a(k), s)
  }

  lemma CloseTerm(a: int -> real, w: int -> real, a': int -> real, w': int -> real, sA: real, sB: real, k: int)
    requires Abs(a'(k) - a(k)) <= StepError(a(k), sA) && Abs(w'(k) - w(k)) <= StepError(w(k), sB)
    ensures Abs(Terms(a', w')(k) - Terms(a, w)(k)) <= Errors(a, w, sA, sB)(k)
  {
    CloseProduct(a, w, a', w', StepError(a(k), sA), StepError(w(k), sB), k);
  }

  lemma CloseProduct(a: int -> real, w: int -> real, a': int -> real, w': int -> real, d: real, e: real, k: int)
    requires Abs(a'(k) - a(k)) <= d && Abs(w'(k) - w(k)) <= e
    ensures Abs(Terms(a', w')(k) - Terms(a, w)(k)) <= ProductError(a(k), w(k), d, e)
  {
    ClosePair(a(k), w(k), a'(k), w'(k), d, e, Terms(a, w)(k), Terms(a', w')(k), ProductError(a(k), w(k), d, e));
  }

  lemma ClosePair(a: real, w: real, a': real, w': real, d: real, e: real, p: real, p': real, bound: real)
    requires Abs(a' - a) <= d && Abs(w' - w) <= e && p == a * w && p' == a' * w' && bound == ProductError(a, w, d, e)
    ensures Abs(p' - p) <= bound
  {
    Shifted(a, w, a', w', d, e);
  }

  /** Factors within their step errors give a dot product within the accumulated errors. */
  lemma DotClose(K: nat, a: int -> real, w: int -> real, a': int -> real, w': int -> real, sA: real, sB: real)
    requires Close(K, a, a', sA) && Close(K, w, w', sB)
    ensures Abs(Sum(K, Terms(a', w')) - Sum(K, Terms(a, w))) <= Sum(K, Errors(a, w, sA, sB))
  {
    forall k | 0 <= k < K { CloseTerm(a, w, a', w', sA, sB, k); }
    SumAbsBound(K, Terms(a', w'), Terms(a, w), Errors(a, w, sA, sB));
  }

  /** Dequantising an integer dot product gives the dot product of the dequantised factors. */
  lemma DotScale(K: nat, x: int -> real, y: int -> real, sA: real, sB: real)
    ensures Sum(K, Terms(Scaled(x, sA), Scaled(y, sB))) == sA * sB * Sum(K, Terms(x, y))
  {
    forall k { ScaledTerms(x, y, sA, sB, k); }
    SumScale(K, sA * sB, Terms(x, y), Terms(Scaled(x, sA), Scaled(y, sB)));
  }

  /** An integer dot product, dequantised, is within the accumulated step errors of the true one. */
  ghost predicate WithinError(dot: real, K: nat, a: int -> real, w: int -> real, sA: real, sB: real) {
    OutputWithin(sA * sB * dot, K, a, w, sA, sB)
  }

  ghost predicate OutputWithin(c: real, K: nat, a: int -> real, w: int -> real, sA: real, sB: real) {
    Abs(c - Sum(K, Terms(a, w))) <= Sum(K, Errors(a, w, sA, sB))
  }

  /**
   The dequantised dot product of codes that are each within the step error of their factor is within the accumulated
   errors of the true dot product, for any length.
   */
  lemma DotError(K: nat, a: int -> real, w: int -> real, x: int -> real, y: int -> real, sA: real, sB: real)
    requires Near(K, a, x, sA) && Near(K, w, y, sB)
    ensures WithinError(Sum(K, Terms(x, y)), K, a, w, sA, sB)
  {
    DotClose(K, a, w, Scaled(x, sA), Scaled(y, sB), sA, sB);
    DotScale(K, x, y, sA, sB);
  }
}
