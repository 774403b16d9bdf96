/** Rotary position embedding: the angle tables, the rotation of a head, and what it leaves invariant. */
module Rope {
  import opened Arith
  import opened Rows
  import opened Sums

  type Real = real -> real

  ghost predicate AngleSum(cos: Real, sin: Real, x: real, y: real) {
    && cos(x + y) == cos(x) * cos(y) - sin(x) * sin(y)
    && sin(x + y) == sin(x) * cos(y) + cos(x) * sin(y)
  }

  ghost predicate Unit(cos: Real, sin: Real, x: real) { cos(x) * cos(x) + sin(x) * sin(x) == 1.0 }

  /** All that is used of the cosine and the sine. */
  ghost predicate Trig(cos: Real, sin: Real) {
    (forall x: real, y: real :: AngleSum(cos, sin, x, y)) && (forall x: real :: Unit(cos, sin, x))
  }

  /** Angle of pair d at position p. */
  type Angle = (nat, nat) -> real

  /** Position times the pair's frequency. */
  function Turn(freq: nat -> real): Angle { (p: nat, d: nat) => p as real * freq(d) }

  /** One table row; both elements of a pair have the pair's entry. */
  function TableRow(f: Real, angle: Angle, hd: nat): nat -> seq<real> {
    (p: nat) => seq(hd, d requires 0 <= d => f(angle(p, d - d % 2)))
  }

  function Table(f: Real, angle: Angle, hd: nat, mp: nat): seq<real> { Flat(mp, TableRow(f, angle, hd)) }

  /** A pair (a, b) turned by the angle with cosine c and sine s. */
  function First(a: real, b: real, c: real, s: real): real { a * c - b * s }

  function Second(a: real, b: real, c: real, s: real): real { b * c + a * s }

  /** A head rotated pair by pair through given cosines and sines. */
  function Rotate(x: seq<real>, c: nat -> real, s: nat -> real): (r: seq<real>)
    ensures |r| == |x|
  {
    seq(|x|, d requires 0 <= d < |x| =>
      if d % 2 == 1 then Second(x[d - 1], x[d], c(d - 1), s(d - 1))
      else if d + 1 < |x| then First(x[d], x[d + 1], c(d), s(d))
      else x[d])
  }

  /** A head rotated for position p. */
  function Rotated(x: seq<real>, cos: Real, sin: Real, angle: Angle, p: nat): seq<real> {
    Rotate(x, (d: nat) => cos(angle(p, d)), (d: nat) => sin(angle(p, d)))
  }

  predicate Even(d: int) { d % 2 == 0 }

  /** Both elements of the pair at d are u. */
  ghost predicate PairOf(c: seq<real>, d: nat, u: real) { d + 1 < |c| && c[d] == u && c[d + 1] == u }

  lemma TableRowPairs(f: Real, angle: Angle, hd: nat, p: nat)
    requires Even(hd)
    ensures forall d: nat :: d < hd && Even(d) ==> PairOf(TableRow(f, angle, hd)(p), d, f(angle(p, d)))
  {
    forall d: nat | d < hd && Even(d) ensures PairOf(TableRow(f, angle, hd)(p), d, f(angle(p, d))) {
      TableRowPair(f, angle, hd, p, d);
    }
  }

  lemma TableRowPair(f: Real, angle: Angle, hd: nat, p: nat, d: nat)
    requires Even(hd) && d < hd && Even(d)
    ensures PairOf(TableRow(f, angle, hd)(p), d, f(angle(p, d)))
  {
    assert d + 1 < hd && d - d % 2 == d && d + 1 - (d + 1) % 2 == d;
  }

  class Tables {
    var rc: array<real>
    var rs: array<real>

    /** The tables hold mp rows of hd entries. */
    ghost predicate Ready(cos: Real, sin: Real, angle: Angle, hd: nat, mp: nat)
      reads this, rc, rs
    {
      rc[..] == Table(cos, angle, hd, mp) && rs[..] == Table(sin, angle, hd, mp)
    }

    /** Builds the tables, two entries of a row at a time. */
    constructor Ri(cos: Real, sin: Real, freq: nat -> real, hd: nat, mp: nat)
      requires hd % 2 == 0
      ensures Ready(cos, sin, Turn(freq), hd, mp)
      ensures forall p: nat, d: nat :: p < mp && d < hd && d % 2 == 0 ==>
        InTable(rc[..], cos, freq, hd, p, d) && InTable(rs[..], sin, freq, hd, p, d)
    {
      rc, rs := new real[mp * hd], new real[mp * hd];
      new;
      for p := 0 to mp
        invariant rc != rs && fresh(rc) && fresh(rs) && rc.Length == rs.Length == mp * hd
        invariant Built(rc[..], p, hd, TableRow(cos, Turn(freq), hd)) && Built(rs[..], p, hd, TableRow(sin, Turn(freq), hd))
      {
        FillNext(rc, rs, cos, sin, Turn(freq), hd, p, mp);
      }
      assert rc[..mp * hd] == rc[..] && rs[..mp * hd] == rs[..];
      TableInFull(cos, freq, hd, mp);
      TableInFull(sin, freq, hd, mp);
    }

    static method FillNext(rc: array<real>, rs: array<real>, cos: Real, sin: Real, angle: Angle, hd: nat, p: nat, mp: nat)
      requires rc != rs && rc.Length == rs.Length == mp * hd && hd % 2 == 0 && p < mp
      requires Built(rc[..], p, hd, TableRow(cos, angle, hd)) && Built(rs[..], p, hd, TableRow(sin, angle, hd))
      modifies rc, rs
      ensures Built(rc[..], p + 1, hd, TableRow(cos, angle, hd)) && Built(rs[..], p + 1, hd, TableRow(sin, angle, hd))
    {
      RowInside(p, mp, hd, mp * hd);
      ghost var c0, s0 := rc[..], rs[..];
      TableRowPairs(cos, angle, hd, p);
      TableRowPairs(sin, angle, hd, p);
      FillRow(rc, rs, cos, sin, angle, hd, p, p * hd, TableRow(cos, angle, hd)(p), TableRow(sin, angle, hd)(p));
      BuildStep(c0, rc[..], p, hd, TableRow(cos, angle, hd));
      BuildStep(s0, rs[..], p, hd, TableRow(sin, angle, hd));
    }

    static method FillRow(rc: array<real>, rs: array<real>, cos: Real, sin: Real, angle: Angle, hd: nat, p: nat, base: nat,
                          ghost c: seq<real>, ghost s: seq<real>)
      requires rc != rs && base + hd <= rc.Length && base + hd <= rs.Length && hd % 2 == 0 && |c| == |s| == hd
      requires forall d: nat :: d < hd && Even(d) ==> PairOf(c, d, cos(angle(p, d))) && PairOf(s, d, sin(angle(p, d)))
      modifies rc, rs
      ensures rc[..] == Splice(old(rc[..]), base, c, hd) && rs[..] == Splice(old(rs[..]), base, s, hd)
    {
      ghost var c0, s0 := rc[..], rs[..];
      var d := 0;
      while d < hd
        invariant d <= hd && Even(d)
        invariant rc[..] == Splice(c0, base, c, d) && rs[..] == Splice(s0, base, s, d)
        decreases hd - d
      {
        var a := angle(p, d);
        assert PairOf(c, d, cos(a)) && PairOf(s, d, sin(a));
        SplicePair(c0, base, c, d);
        SplicePair(s0, base, s, d);
        rc[base + d], rs[base + d] := cos(a), sin(a);
        rc[base + d + 1], rs[base + d + 1] := cos(a), sin(a);
        d := d + 2;
      }
    }

    /** Rotates a head in place for position p. */
    method Ra(x: array<real>, hd: nat, p: nat, ghost cos: Real, ghost sin: Real, ghost angle: Angle, ghost mp: nat)
      requires Ready(cos, sin, angle, hd, mp) && Even(hd) && p < mp && x.Length == hd && x != rc && x != rs
      modifies x
      ensures x[..] == Rotated(old(x[..]), cos, sin, angle, p)
      ensures forall d: nat :: d < hd && d % 2 == 0 ==> Turned(old(x[..]), x[..], rc[..], rs[..], p * hd, d)
    {
      EntriesAt(cos, angle, hd, mp, p);
      EntriesAt(sin, angle, hd, mp, p);
      RotatedPairs(x[..], cos, sin, angle, p, rc[..], rs[..], hd);
      MulMonotone(0, p, hd);
      RotateBy(x, hd, p * hd, Rotated(x[..], cos, sin, angle, p));
    }

    method RotatePair(x: array<real>, d: nat, c: real, s: real)
      requires d + 1 < x.Length
      modifies x
      ensures x[..] == old(x[..])[d := First(old(x[d]), old(x[d + 1]), c, s)][d + 1 := Second(old(x[d]), old(x[d + 1]), c, s)]
    {
      ghost var before := x[..];
      var a, b := x[d], x[d + 1];
      x[d] := a * c - b * s;
      x[d + 1] := b * c + a * s;
      assert x[d] == First(a, b, c, s);
      assert x[d + 1] == Second(a, b, c, s);
      assert x[..] == before[d := First(a, b, c, s)][d + 1 := Second(a, b, c, s)];
    }

    /** Writes the pair at d of the rotated head. */
    method RotateNext(x: array<real>, d: nat, c: real, s: real, ghost before: seq<real>, ghost after: seq<real>)
      requires |before| == |after| == x.Length && d + 1 < x.Length && x[..] == Splice(before, 0, after, d)
      requires after[d] == First(before[d], before[d + 1], c, s) && after[d + 1] == Second(before[d], before[d + 1], c, s)
      modifies x
      ensures x[..] == Splice(before, 0, after, d + 2)
    {
      assert x[d] == before[d] && x[d + 1] == before[d + 1];
      SplicePair(before, 0, after, d);
      RotatePair(x, d, c, s);
    }

    /** The loop over the pairs of a head. */
    method RotateBy(x: array<real>, hd: nat, base: nat, ghost after: seq<real>)
      requires x.Length == |after| == hd && x != rc && x != rs && Even(hd)
      requires forall d: nat :: d < hd && Even(d) ==> Turned(x[..], after, rc[..], rs[..], base, d)
      modifies x
      ensures x[..] == after
    {
      ghost var before, c0, s0 := x[..], rc[..], rs[..];
      var d := 0;
      while d < hd
        invariant d <= hd && Even(d)
        invariant x[..] == Splice(before, 0, after, d)
        decreases hd - d
      {
        assert Turned(before, after, c0, s0, base, d);
        assert rc[base + d] == c0[base + d] && rs[base + d] == s0[base + d];
        RotateNext(x, d, rc[base + d], rs[base + d], before, after);
        d := d + 2;
      }
    }
  }

  /** The pair at d, rotated by a row of the tables. */
  ghost predicate Turned(x: seq<real>, y: seq<real>, rc: seq<real>, rs: seq<real>, base: int, d: nat) {
    && d + 1 < |x| == |y| && 0 <= base + d < |rc| && base + d < |rs|
    && y[d] == x[d] * rc[base + d] - x[d + 1] * rs[base + d]
    && y[d + 1] == x[d + 1] * rc[base + d] + x[d] * rs[base + d]
  }

  /** Both elements of pair d in row p of the table are f of position times frequency. */
  ghost predicate InTable(table: seq<real>, f: Real, freq: nat -> real, hd: nat, p: nat, d: nat) {
    && 0 <= p * hd + d < p * hd + d + 1 < |table|
    && table[p * hd + d] == table[p * hd + d + 1] == f(p as real * freq(d))
  }

  lemma TableInFull(f: Real, freq: nat -> real, hd: nat, mp: nat)
    requires Even(hd)
    ensures forall p: nat, d: nat :: p < mp && d < hd && d % 2 == 0 ==> InTable(Table(f, Turn(freq), hd, mp), f, freq, hd, p, d)
  {
    forall p: nat, d: nat | p < mp && d < hd && d % 2 == 0 ensures InTable(Table(f, Turn(freq), hd, mp), f, freq, hd, p, d) {
      TableAt(f, freq, hd, mp, p, d);
    }
  }

  lemma TableAt(f: Real, freq: nat -> real, hd: nat, mp: nat, p: nat, d: nat)
    requires Even(hd) && p < mp && d < hd && d % 2 == 0
    ensures InTable(Table(f, Turn(freq), hd, mp), f, freq, hd, p, d)
  {
    TableRowPair(f, Turn(freq), hd, p, d);
    assert Turn(freq)(p, d) == p as real * freq(d);
    PairAtRow(mp, hd, TableRow(f, Turn(freq), hd), p, d, f(p as real * freq(d)));
  }

  lemma PairAtRow(mp: nat, hd: nat, row: nat -> seq<real>, p: nat, d: nat, v: real)
    requires p < mp && d + 1 < hd && (forall i: nat :: i < mp ==> |row(i)| == hd) && PairOf(row(p), d, v)
    ensures 0 <= p * hd + d < p * hd + d + 1 < |Flat(mp, row)|
    ensures Flat(mp, row)[p * hd + d] == Flat(mp, row)[p * hd + d + 1] == v
  {
    FlatAt(mp, hd, row, p, d);
    FlatAt(mp, hd, row, p, d + 1);
    assert p * hd + (d + 1) == p * hd + d + 1;
  }

  lemma AtZero(cos: Real, sin: Real)
    requires Trig(cos, sin)
    ensures cos(0.0) == 1.0 && sin(0.0) == 0.0
  {
    assert AngleSum(cos, sin, 0.0, 0.0) && Unit(cos, sin, 0.0);
    assert 0.0 + 0.0 == 0.0;
    Roots(cos(0.0), sin(0.0));
    SineAtZero(cos(0.0), sin(0.0));
  }

  lemma Roots(c: real, s: real)
    requires c == c * c - s * s && c * c + s * s == 1.0
    ensures c == 1.0 || c == -0.5
  {
    assert (c - 1.0) * (2.0 * c + 1.0) == 0.0;
    ZeroProduct(c - 1.0, 2.0 * c + 1.0);
  }

  lemma ZeroProduct(x: real, y: real)
    requires x * y == 0.0
    ensures x == 0.0 || y == 0.0
  {
    if x != 0.0 { assert y == x * y / x; }
  }

  lemma SineAtZero(c: real, s: real)
    requires s == s * c + c * s && (c == 1.0 || c == -0.5)
    ensures s == 0.0
  {
    if c == 1.0 { assert s * c == s && c * s == s; } else { assert s * c == -0.5 * s && c * s == -0.5 * s; }
  }

  /** A head at position 0 stays as it is, one at position 1 is turned by the frequencies, counterclockwise. */
  lemma FirstPositions(x: seq<real>, cos: Real, sin: Real, freq: nat -> real, d: nat)
    requires Trig(cos, sin) && Even(|x|) && Even(d) && d < |x|
    ensures Rotated(x, cos, sin, Turn(freq), 0) == x
    ensures var y := Rotated(x, cos, sin, Turn(freq), 1);
      && y[d] == x[d] * cos(freq(d)) - x[d + 1] * sin(freq(d))
      && y[d + 1] == x[d + 1] * cos(freq(d)) + x[d] * sin(freq(d))
  {
    FirstPosition(x, cos, sin, freq, d);
    forall i | 0 <= i < |x| ensures Rotated(x, cos, sin, Turn(freq), 0)[i] == x[i] { Unturned(x, cos, sin, freq, i); }
  }

  lemma FirstPosition(x: seq<real>, cos: Real, sin: Real, freq: nat -> real, d: nat)
    requires Even(|x|) && Even(d) && d < |x|
    ensures var y := Rotated(x, cos, sin, Turn(freq), 1);
      && y[d] == x[d] * cos(freq(d)) - x[d + 1] * sin(freq(d))
      && y[d + 1] == x[d + 1] * cos(freq(d)) + x[d] * sin(freq(d))
  {
    assert Turn(freq)(1, d) == freq(d);
    RotatedPair(x, cos, sin, Turn(freq), 1, d);
  }

  lemma Unturned(x: seq<real>, cos: Real, sin: Real, freq: nat -> real, i: nat)
    requires Trig(cos, sin) && Even(|x|) && i < |x|
    ensures Rotated(x, cos, sin, Turn(freq), 0)[i] == x[i]
  {
    AtZero(cos, sin);
    RotatedPair(x, cos, sin, Turn(freq), 0, i - i % 2);
  }

  lemma RotatedPairs(x: seq<real>, cos: Real, sin: Real, angle: Angle, p: nat, rc: seq<real>, rs: seq<real>, hd: nat)
    requires |x| == hd && Even(hd)
    requires forall d: nat :: d < hd && Even(d) ==> EntryAt(rc, cos, angle, hd, p, d) && EntryAt(rs, sin, angle, hd, p, d)
    ensures forall d: nat :: d < hd && Even(d) ==> Turned(x, Rotated(x, cos, sin, angle, p), rc, rs, p * hd, d)
  {
    forall d: nat | d < hd && Even(d) ensures Turned(x, Rotated(x, cos, sin, angle, p), rc, rs, p * hd, d) {
      assert d + 1 < hd;
      RotatedPair(x, cos, sin, angle, p, d);
      assert EntryAt(rc, cos, angle, hd, p, d) && EntryAt(rs, sin, angle, hd, p, d);
    }
  }

  /** The rotated head, pair by pair. */
  lemma RotatedPair(x: seq<real>, cos: Real, sin: Real, angle: Angle, p: nat, d: nat)
    requires d % 2 == 0 && d + 1 < |x|
    ensures var r := Rotated(x, cos, sin, angle, p); var c, s := cos(angle(p, d)), sin(angle(p, d));
      r[d] == First(x[d], x[d + 1], c, s) && r[d + 1] == Second(x[d], x[d + 1], c, s)
  {}

  ghost predicate EntryAt(table: seq<real>, f: Real, angle: Angle, hd: nat, p: nat, d: nat) {
    0 <= p * hd + d < |table| && table[p * hd + d] == f(angle(p, d))
  }

  lemma EntriesAt(f: Real, angle: Angle, hd: nat, mp: nat, p: nat)
    requires p < mp
    ensures forall d: nat :: d < hd && Even(d) ==> EntryAt(Table(f, angle, hd, mp), f, angle, hd, p, d)
  {
    forall d: nat | d < hd && Even(d) ensures EntryAt(Table(f, angle, hd, mp), f, angle, hd, p, d) {
      FlatAt(mp, hd, TableRow(f, angle, hd), p, d);
    }
  }

  /** Dot product of two heads, as attention computes it. */
  function Dot(x: seq<real>, y: seq<real>): real
    requires |x| == |y|
  {
    Sum(|x|, DotTerms(x, y))
  }

  function DotTerms(x: seq<real>, y: seq<real>): int -> real
    requires |x| == |y|
  {
    d => if 0 <= d < |x| then x[d] * y[d] else 0.0
  }

  function DotOfPairs(a: real, b: real, e: real, g: real): real { a * e + b * g }

  /** The same dot product, pair by pair. */
  function PairTerms(x: seq<real>, y: seq<real>): int -> real
    requires |x| == |y|
  {
    i => if 0 <= i && 2 * i + 1 < |x| then DotOfPairs(x[2 * i], x[2 * i + 1], y[2 * i], y[2 * i + 1]) else 0.0
  }

  lemma {:induction false} DotByPairs(x: seq<real>, y: seq<real>, n: nat)
    requires |x| == |y| && 2 * n <= |x|
    ensures Sum(2 * n, DotTerms(x, y)) == Sum(n, PairTerms(x, y))
  {
    if n > 0 {
      DotByPairs(x, y, n - 1);
      var f := DotTerms(x, y);
      assert Sum(2 * n, f) == Sum(2 * n - 1, f) + f(2 * n - 1);
      assert Sum(2 * n - 1, f) == Sum(2 * n - 2, f) + f(2 * n - 2);
    }
  }

  /** A pair of one head rotated by u against a pair of another rotated by v: only u - v matters. */
  lemma PairDot(a: real, b: real, e: real, g: real, cu: real, su: real, cv: real, sv: real)
    ensures (a * cu - b * su) * (e * cv - g * sv) + (b * cu + a * su) * (g * cv + e * sv)
         == (a * e + b * g) * (cu * cv + su * sv) + (a * g - b * e) * (su * cv - cu * sv)
  {
    Four(a * cu, b * su, e * cv, g * sv);
    Four(b * cu, -(a * su), g * cv, -(e * sv));
  }

  lemma TurnedDot(a: real, b: real, e: real, g: real, cu: real, su: real, cv: real, sv: real, cd: real, sd: real)
    requires cu * cv + su * sv == cd && su * cv - cu * sv == sd
    ensures First(a, b, cu, su) * First(e, g, cv, sv) + Second(a, b, cu, su) * Second(e, g, cv, sv)
         == (a * e + b * g) * cd + (a * g - b * e) * sd
  {
    PairDot(a, b, e, g, cu, su, cv, sv);
  }

  lemma Four(w: real, x: real, y: real, z: real)
    ensures (w - x) * (y - z) == w * y - w * z - x * y + x * z
  {}

  /** Cosine and sine of a difference of angles. */
  lemma Difference(cos: Real, sin: Real, u: real, v: real)
    requires Trig(cos, sin)
    ensures cos(u) * cos(v) + sin(u) * sin(v) == cos(u - v)
    ensures sin(u) * cos(v) - cos(u) * sin(v) == sin(u - v)
  {
    assert AngleSum(cos, sin, u - v, v) && Unit(cos, sin, v) && u - v + v == u;
    Solve(cos(u), sin(u), cos(u - v), sin(u - v), cos(v), sin(v));
  }

  lemma Solve(cu: real, su: real, cd: real, sd: real, cv: real, sv: real)
    requires cu == cd * cv - sd * sv && su == sd * cv + cd * sv && cv * cv + sv * sv == 1.0
    ensures cu * cv + su * sv == cd && su * cv - cu * sv == sd
  {
    assert cu * cv + su * sv == cd * (cv * cv + sv * sv);
    assert su * cv - cu * sv == sd * (cv * cv + sv * sv);
  }

  /** A pair's contribution to the dot product of two rotated heads, from the distance of their positions alone. */
  function PairAt(x: seq<real>, y: seq<real>, cos: Real, sin: Real, turn: real, i: int): real
    requires |x| == |y|
  {
    if 0 <= i && 2 * i + 1 < |x| then PairByTurn(x[2 * i], x[2 * i + 1], y[2 * i], y[2 * i + 1], cos(turn), sin(turn))
    else 0.0
  }

  function PairByTurn(a: real, b: real, e: real, g: real, c: real, s: real): real { (a * e + b * g) * c + (a * g - b * e) * s }

  function TurnTerms(x: seq<real>, y: seq<real>, cos: Real, sin: Real, turn: nat -> real): int -> real
    requires |x| == |y|
  {
    i => if i < 0 then 0.0 else PairAt(x, y, cos, sin, turn(2 * i), i)
  }

  /** By how much the pairs of a head at p are turned against those of a head at p'. */
  function Against(angle: Angle, p: nat, p': nat): nat -> real { (d: nat) => angle(p, d) - angle(p', d) }

  lemma RotatedProducts(x: seq<real>, y: seq<real>, cos: Real, sin: Real, angle: Angle, p: nat, p': nat, i: nat)
    requires |x| == |y| && 2 * i + 1 < |x|
    ensures PairTerms(Rotated(x, cos, sin, angle, p), Rotated(y, cos, sin, angle, p'))(i)
         == PairOfTurns(x[2 * i], x[2 * i + 1], y[2 * i], y[2 * i + 1], cos, sin, angle(p, 2 * i), angle(p', 2 * i))
  {
    RotatedPair(x, cos, sin, angle, p, 2 * i);
    RotatedPair(y, cos, sin, angle, p', 2 * i);
  }

  /** Dot product of (a, b) turned by u and (e, g) turned by v. */
  function PairOfTurns(a: real, b: real, e: real, g: real, cos: Real, sin: Real, u: real, v: real): real {
    DotOfPairs(First(a, b, cos(u), sin(u)), Second(a, b, cos(u), sin(u)), First(e, g, cos(v), sin(v)), Second(e, g, cos(v), sin(v)))
  }

  lemma PairTurned(a: real, b: real, e: real, g: real, cos: Real, sin: Real, u: real, v: real)
    requires Trig(cos, sin)
    ensures PairOfTurns(a, b, e, g, cos, sin, u, v) == PairByTurn(a, b, e, g, cos(u - v), sin(u - v))
  {
    Difference(cos, sin, u, v);
    TurnedDot(a, b, e, g, cos(u), sin(u), cos(v), sin(v), cos(u - v), sin(u - v));
  }

  lemma TurnOfPair(x: seq<real>, y: seq<real>, cos: Real, sin: Real, angle: Angle, p: nat, p': nat, i: nat)
    requires |x| == |y| && 2 * i + 1 < |x|
    ensures var turn := angle(p, 2 * i) - angle(p', 2 * i);
      PairAt(x, y, cos, sin, Against(angle, p, p')(2 * i), i)
      == PairByTurn(x[2 * i], x[2 * i + 1], y[2 * i], y[2 * i + 1], cos(turn), sin(turn))
  {}

  lemma RotatedPairDot(x: seq<real>, y: seq<real>, cos: Real, sin: Real, angle: Angle, p: nat, p': nat, i: nat)
    requires |x| == |y| && 2 * i + 1 < |x| && Trig(cos, sin)
    ensures PairTerms(Rotated(x, cos, sin, angle, p), Rotated(y, cos, sin, angle, p'))(i)
         == PairAt(x, y, cos, sin, Against(angle, p, p')(2 * i), i)
  {
    PairTurned(x[2 * i], x[2 * i + 1], y[2 * i], y[2 * i + 1], cos, sin, angle(p, 2 * i), angle(p', 2 * i));
    PairDotAtTurn(x, y, cos, sin, angle, p, p', i);
  }

  lemma PairDotAtTurn(x: seq<real>, y: seq<real>, cos: Real, sin: Real, angle: Angle, p: nat, p': nat, i: nat)
    requires |x| == |y| && 2 * i + 1 < |x|
    requires var a, b, e, g := x[2 * i], x[2 * i + 1], y[2 * i], y[2 * i + 1]; var u, v := angle(p, 2 * i), angle(p', 2 * i);
      PairOfTurns(a, b, e, g, cos, sin, u, v) == PairByTurn(a, b, e, g, cos(u - v), sin(u - v))
    ensures PairTerms(Rotated(x, cos, sin, angle, p), Rotated(y, cos, sin, angle, p'))(i)
         == PairAt(x, y, cos, sin, Against(angle, p, p')(2 * i), i)
  {
    TurnOfPair(x, y, cos, sin, angle, p, p', i);
    RotatedProducts(x, y, cos, sin, angle, p, p', i);
  }

  lemma RotatedDot(x: seq<real>, y: seq<real>, cos: Real, sin: Real, angle: Angle, p: nat, p': nat)
    requires |x| == |y| && Even(|x|) && Trig(cos, sin)
    ensures Dot(Rotated(x, cos, sin, angle, p), Rotated(y, cos, sin, angle, p'))
         == Sum(|x| / 2, TurnTerms(x, y, cos, sin, Against(angle, p, p')))
  {
    var r, r' := Rotated(x, cos, sin, angle, p), Rotated(y, cos, sin, angle, p');
    DotByPairs(r, r', |x| / 2);
    forall i: nat | i < |x| / 2 ensures PairTerms(r, r')(i) == TurnTerms(x, y, cos, sin, Against(angle, p, p'))(i) {
      RotatedPairDot(x, y, cos, sin, angle, p, p', i);
    }
    SumCongruent(|x| / 2, PairTerms(r, r'), TurnTerms(x, y, cos, sin, Against(angle, p, p')));
  }

  lemma TurnDifference(freq: nat -> real, p: nat, p': nat, r: nat, r': nat, d: nat)
    requires p - p' == r - r'
    ensures Against(Turn(freq), p, p')(d) == Against(Turn(freq), r, r')(d)
  {
    Distribute(p as real, p' as real, freq(d));
    Distribute(r as real, r' as real, freq(d));
    assert p as real - p' as real == (p - p') as real && r as real - r' as real == (r - r') as real;
  }

  lemma Distribute(a: real, b: real, f: real)
    ensures a * f - b * f == (a - b) * f
  {}

  lemma SameTurns(x: seq<real>, y: seq<real>, cos: Real, sin: Real, t: nat -> real, t': nat -> real, n: nat)
    requires |x| == |y| && forall d: nat :: t(d) == t'(d)
    ensures Sum(n, TurnTerms(x, y, cos, sin, t)) == Sum(n, TurnTerms(x, y, cos, sin, t'))
  {
    SumCongruent(n, TurnTerms(x, y, cos, sin, t), TurnTerms(x, y, cos, sin, t'));
  }

  /** The dot product of two rotated heads depends on their positions only through the distance. */
  lemma RelativePositions(x: seq<real>, y: seq<real>, cos: Real, sin: Real, freq: nat -> real, p: nat, p': nat, r: nat, r': nat)
    requires |x| == |y| && Even(|x|) && Trig(cos, sin) && p - p' == r - r'
    ensures Dot(Rotated(x, cos, sin, Turn(freq), p), Rotated(y, cos, sin, Turn(freq), p'))
         == Dot(Rotated(x, cos, sin, Turn(freq), r), Rotated(y, cos, sin, Turn(freq), r'))
  {
    RotatedDot(x, y, cos, sin, Turn(freq), p, p');
    RotatedDot(x, y, cos, sin, Turn(freq), r, r');
    forall d: nat { TurnDifference(freq, p, p', r, r', d); }
    SameTurns(x, y, cos, sin, Against(Turn(freq), p, p'), Against(Turn(freq), r, r'), |x| / 2);
  }

  lemma PairUnturned(x: seq<real>, cos: Real, sin: Real, i: nat)
    requires 2 * i + 1 < |x| && Trig(cos, sin)
    ensures PairAt(x, x, cos, sin, 0.0, i) == PairTerms(x, x)(i)
  {
    CosZero(cos, sin);
  }

  /** Rotating a head keeps its sum of squares, whatever the angles. */
  lemma NormKept(x: seq<real>, cos: Real, sin: Real, angle: Angle, p: nat)
    requires Even(|x|) && Trig(cos, sin)
    ensures var r := Rotated(x, cos, sin, angle, p); Dot(r, r) == Dot(x, x)
  {
    RotatedDot(x, x, cos, sin, angle, p, p);
    DotByPairs(x, x, |x| / 2);
    forall i: nat | i < |x| / 2 { PairUnturned(x, cos, sin, i); }
    SumCongruent(|x| / 2, TurnTerms(x, x, cos, sin, Against(angle, p, p)), PairTerms(x, x));
  }

  lemma CosZero(cos: Real, sin: Real)
    requires Trig(cos, sin)
    ensures cos(0.0) == 1.0 && sin(0.0) == 0.0
  {
    assert Unit(cos, sin, 0.0);
    Difference(cos, sin, 0.0, 0.0);
  }
}
