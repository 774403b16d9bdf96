/** The call traces of the two host sequences, position by position. */
module Traces {
  import opened Grid
  import opened Schedule
  import opened Sequences
  import opened Taps

  /** From position `at` on: one group's starts, A channels, then B, then C, in channel order. */
  ghost predicate StartsAt(trace: seq<Op>, at: int, g: nat, rows: nat) {
    && 0 <= at && at + rows + 16 <= |trace|
    && (forall r: nat :: r < rows ==> trace[at + r] == StartA(g, r))
    && (forall c: nat :: c < 8 ==> trace[at + rows + c] == StartB(g, c))
    && (forall c: nat :: c < 8 ==> trace[at + rows + 8 + c] == StartC(g, c))
  }

  ghost predicate AwaitsAt(trace: seq<Op>, at: int, g: nat) {
    0 <= at && at + 8 <= |trace| && forall c: nat :: c < 8 ==> trace[at + c] == AwaitC(g, c)
  }

  ghost predicate FreesAt(trace: seq<Op>, at: int, g: nat, rows: nat) {
    && 0 <= at && at + rows + 8 <= |trace|
    && (forall r: nat :: r < rows ==> trace[at + r] == FreeA(g, r))
    && (forall c: nat :: c < 8 ==> trace[at + rows + c] == FreeB(g, c))
  }

  /** What a block's calls look like after what came before. */
  lemma BlockAt(before: seq<Op>, b: Block, rows: nat)
    ensures var trace, at := before + Calls(b, rows, 8), |before|;
      match b
      case StartAll(g) => StartsAt(trace, at, g, rows) && |trace| == at + rows + 16
      case AwaitAll(g) => AwaitsAt(trace, at, g) && |trace| == at + 8
      case FreeAll(g) => FreesAt(trace, at, g, rows) && |trace| == at + rows + 8
  {}

  /** Longer traces keep it. */
  lemma StartsStay(trace: seq<Op>, longer: seq<Op>, at: int, g: nat, rows: nat)
    requires trace <= longer && StartsAt(trace, at, g, rows)
    ensures StartsAt(longer, at, g, rows)
  {}

  lemma AwaitsStay(trace: seq<Op>, longer: seq<Op>, at: int, g: nat)
    requires trace <= longer && AwaitsAt(trace, at, g)
    ensures AwaitsAt(longer, at, g)
  {}

  lemma FreesStay(trace: seq<Op>, longer: seq<Op>, at: int, g: nat, rows: nat)
    requires trace <= longer && FreesAt(trace, at, g, rows)
    ensures FreesAt(longer, at, g, rows)
  {}

  lemma {:induction false} TraceLength(p: Plan)
    ensures |Expand(p, 4, 8)| == 20 * Starts(p) + 8 * Awaits(p) + 12 * Frees(p)
  {
    if p.Then? {
      TraceLength(p.plan);
      BlockAt(Expand(p.plan, 4, 8), p.next, 4);
    }
  }

  // ---- the serial sequence ----

  /** Calls 34 g to 34 g + 33: the starts of group g, the wait for its outputs, and the frees of its inputs. */
  ghost predicate SerialGroupAt(trace: seq<Op>, g: nat) {
    StartsAt(trace, 34 * g, g, 1) && AwaitsAt(trace, 34 * g + 17, g) && FreesAt(trace, 34 * g + 25, g, 1)
  }

  lemma {:induction false} SerialTrace(n: nat)
    ensures |Expand(SerialPlan(n), 1, 8)| == 34 * n
    ensures forall g: nat :: g < n ==> SerialGroupAt(Expand(SerialPlan(n), 1, 8), g)
  {
    if n > 0 {
      SerialTrace(n - 1);
      SerialNext(n - 1);
      forall g: nat | g < n - 1 ensures SerialGroupAt(Expand(SerialPlan(n), 1, 8), g) {
        assert SerialGroupAt(Expand(SerialPlan(n - 1), 1, 8), g);
        StartsStay(Expand(SerialPlan(n - 1), 1, 8), Expand(SerialPlan(n), 1, 8), 34 * g, g, 1);
        AwaitsStay(Expand(SerialPlan(n - 1), 1, 8), Expand(SerialPlan(n), 1, 8), 34 * g + 17, g);
        FreesStay(Expand(SerialPlan(n - 1), 1, 8), Expand(SerialPlan(n), 1, 8), 34 * g + 25, g, 1);
      }
    }
  }

  lemma SerialNext(g: nat)
    requires |Expand(SerialPlan(g), 1, 8)| == 34 * g
    ensures var trace := Expand(SerialPlan(g + 1), 1, 8);
      Expand(SerialPlan(g), 1, 8) <= trace && |trace| == 34 * (g + 1) && SerialGroupAt(trace, g)
  {
    var p1 := Then(SerialPlan(g), StartAll(g));
    var p2 := Then(p1, AwaitAll(g));
    var t0, t1, t2, t3 := Expand(SerialPlan(g), 1, 8), Expand(p1, 1, 8), Expand(p2, 1, 8), Expand(SerialPlan(g + 1), 1, 8);
    BlockAt(t0, StartAll(g), 1);
    BlockAt(t1, AwaitAll(g), 1);
    BlockAt(t2, FreeAll(g), 1);
    assert t3 == t2 + Calls(FreeAll(g), 1, 8);
    assert t1 <= t2 <= t3;
    StartsStay(t1, t3, 34 * g, g, 1);
    AwaitsStay(t2, t3, 34 * g + 17, g);
  }

  // ---- the ring of four ----

  lemma {:induction false} LoopPrefix(g: nat, n: nat)
    requires g <= n
    ensures Expand(LoopPlan(g), 4, 8) <= Expand(LoopPlan(n), 4, 8)
  {
    if g < n {
      LoopPrefix(g, n - 1);
      LoopGrows(n - 1);
    }
  }

  lemma LoopGrows(n: nat)
    ensures Expand(LoopPlan(n), 4, 8) <= Expand(LoopPlan(n + 1), 4, 8)
  {
    DrainPrefix(Then(LoopPlan(n), StartAll(n)), n);
  }

  lemma DrainPrefix(p: Plan, g: nat)
    ensures Expand(p, 4, 8) <= Expand(DrainPlan(p, g), 4, 8)
  {
    if g % 2 == 1 && g >= 3 { ExpandDrain(p, g); }
  }

  lemma {:induction false} TailPrefix(n: nat, slots: nat)
    ensures Expand(LoopPlan(n), 4, 8) <= Expand(TailPlan(n, slots), 4, 8)
  {
    if slots > 0 { TailPrefix(n, slots - 1); }
  }

  lemma LoopLength(g: nat)
    ensures |Expand(LoopPlan(g), 4, 8)| == 20 * (g + if g < 3 then 0 else if g % 2 == 0 then g - 2 else g - 3)
  {
    LoopOrderly(g);
    TraceLength(LoopPlan(g));
  }

  /** Group g's twenty starts come after those of the groups before it and the retirement of all but the last two or three. */
  lemma FourRowStarts(n: nat, g: nat)
    requires g < n
    ensures StartsAt(Expand(FourRowPlan(n), 4, 8), 20 * (g + if g < 3 then 0 else if g % 2 == 0 then g - 2 else g - 3), g, 4)
  {
    LoopLength(g);
    BlockAt(Expand(LoopPlan(g), 4, 8), StartAll(g), 4);
    var started := Then(LoopPlan(g), StartAll(g));
    assert Expand(started, 4, 8) == Expand(LoopPlan(g), 4, 8) + Calls(StartAll(g), 4, 8);
    DrainPrefix(started, g);
    LoopPrefix(g + 1, n);
    TailPrefix(n, 4);
    StartsStay(Expand(started, 4, 8), Expand(FourRowPlan(n), 4, 8), |Expand(LoopPlan(g), 4, 8)|, g, 4);
  }

  /** Waits for groups g - 3 and g - 2, then the frees of their inputs. */
  ghost predicate TwoRetiredAt(trace: seq<Op>, at: int, g: nat)
    requires g >= 3
  {
    && AwaitsAt(trace, at, g - 3) && AwaitsAt(trace, at + 8, g - 2)
    && FreesAt(trace, at + 16, g - 3, 4) && FreesAt(trace, at + 28, g - 2, 4)
  }

  /** They come after the starts of every odd group but the first. */
  lemma FourRowDrains(n: nat, g: nat)
    requires 3 <= g < n && g % 2 == 1
    ensures TwoRetiredAt(Expand(FourRowPlan(n), 4, 8), 20 * (2 * g - 2), g)
  {
    var p := Then(LoopPlan(g), StartAll(g));
    LoopLength(g);
    BlockAt(Expand(LoopPlan(g), 4, 8), StartAll(g), 4);
    DrainAt(p, g, 20 * (2 * g - 2));
    LoopPrefix(g + 1, n);
    TailPrefix(n, 4);
    RetiredStay(Expand(DrainPlan(p, g), 4, 8), Expand(FourRowPlan(n), 4, 8), 20 * (2 * g - 2), g);
  }

  lemma RetiredStay(trace: seq<Op>, longer: seq<Op>, at: int, g: nat)
    requires g >= 3 && trace <= longer && TwoRetiredAt(trace, at, g)
    ensures TwoRetiredAt(longer, at, g)
  {
    AwaitsStay(trace, longer, at, g - 3);
    AwaitsStay(trace, longer, at + 8, g - 2);
    FreesStay(trace, longer, at + 16, g - 3, 4);
    FreesStay(trace, longer, at + 28, g - 2, 4);
  }

  lemma DrainAt(p: Plan, g: nat, at: int)
    requires g >= 3 && g % 2 == 1 && |Expand(p, 4, 8)| == at
    ensures TwoRetiredAt(Expand(DrainPlan(p, g), 4, 8), at, g)
  {
    ExpandDrain(p, g);
    TwoRetired(Expand(p, 4, 8), g - 3);
  }

  lemma TwoRetired(before: seq<Op>, g: nat)
    ensures TwoRetiredAt(before + Calls(AwaitAll(g), 4, 8) + Calls(AwaitAll(g + 1), 4, 8)
                                + Calls(FreeAll(g), 4, 8) + Calls(FreeAll(g + 1), 4, 8), |before|, g + 3)
  {
    var awaited := before + Calls(AwaitAll(g), 4, 8) + Calls(AwaitAll(g + 1), 4, 8);
    var trace := awaited + Calls(FreeAll(g), 4, 8) + Calls(FreeAll(g + 1), 4, 8);
    TwoAwaited(before, g);
    TwoFreed(awaited, g);
    assert awaited <= trace;
    AwaitsStay(awaited, trace, |before|, g);
    AwaitsStay(awaited, trace, |before| + 8, g + 1);
  }

  lemma TwoAwaited(before: seq<Op>, g: nat)
    ensures var trace := before + Calls(AwaitAll(g), 4, 8) + Calls(AwaitAll(g + 1), 4, 8);
      AwaitsAt(trace, |before|, g) && AwaitsAt(trace, |before| + 8, g + 1) && |trace| == |before| + 16
  {
    var one := before + Calls(AwaitAll(g), 4, 8);
    BlockAt(before, AwaitAll(g), 4);
    BlockAt(one, AwaitAll(g + 1), 4);
    AwaitsStay(one, one + Calls(AwaitAll(g + 1), 4, 8), |before|, g);
  }

  lemma TwoFreed(before: seq<Op>, g: nat)
    ensures var trace := before + Calls(FreeAll(g), 4, 8) + Calls(FreeAll(g + 1), 4, 8);
      FreesAt(trace, |before|, g, 4) && FreesAt(trace, |before| + 12, g + 1, 4)
  {
    var one := before + Calls(FreeAll(g), 4, 8);
    BlockAt(before, FreeAll(g), 4);
    BlockAt(one, FreeAll(g + 1), 4);
    FreesStay(one, one + Calls(FreeAll(g + 1), 4, 8), |before|, g, 4);
  }

  /** Forty calls a group in all. */
  lemma FourRowLength(n: nat)
    ensures |Expand(FourRowPlan(n), 4, 8)| == 40 * n
  {
    FourRowRetires(n);
    TraceLength(FourRowPlan(n));
  }

  // ---- the taps ----

  /** The tap numbers in plain terms, for a grid of `rows` times eight cores. */
  lemma TapNumbers(sh: Shape, taps: map<Op, int>, g: nat, i: nat)
    requires sh.m > 0 && sh.n > 0 && sh.rows > 0 && sh.cols == 8 && ColTiles(sh) > 0 && TapsRight(sh, taps, Groups(sh))
    requires g < sh.M / sh.m / sh.rows * (sh.N / sh.n / 8) && i < 8
    ensures i < sh.rows ==> StartA(g, i) in taps && taps[StartA(g, i)] == g / (sh.N / sh.n / 8) * sh.rows + i
    ensures StartB(g, i) in taps && taps[StartB(g, i)] == g % (sh.N / sh.n / 8) * 8 + i
    ensures StartC(g, i) in taps && taps[StartC(g, i)] == g * 8 + i
  {}
}
