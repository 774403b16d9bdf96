/** The core program's loop nest: one round of acquires, multiplications and releases, accumulating in place. */
module CoreBody {
  import opened Arith
  import opened Grid
  import opened Sums

  /**
   The kernel: what the C tile becomes when an A and a B object are multiplied into it. It may count its calls, so the
   number of the call is its first argument; a core has made as many calls as it has consumed A objects.
   */
  type Kernel = (int, seq<real>, seq<real>, seq<real>) -> seq<real>

  /** A FIFO's objects by stream position. */
  type Objects = int -> seq<real>

  /** A zeroed tile after the first n multiplications of a log. */
  function Accumulated(kernel: Kernel, a: Objects, b: Objects, log: Log, n: nat, size: nat): seq<real>
    requires n <= |log|
  {
    if n == 0 then seq(size, _ => 0.0)
    else kernel(log[n - 1].0, a(log[n - 1].0), b(log[n - 1].1), Accumulated(kernel, a, b, log, n - 1, size))
  }

  /** The tile a round of the step machine leaves. */
  function RoundTile(kernel: Kernel, a: Objects, b: Objects, cfg: Config, round: nat, size: nat): seq<real>
    requires cfg.inner > 0
  {
    Accumulated(kernel, a, b, RoundLog(cfg, round), |RoundLog(cfg, round)|, size)
  }

  ghost predicate KeepsSize(kernel: Kernel) { forall call, x, y, c :: |kernel(call, x, y, c)| == |c| }

  /** The pairs of K step t: the step's B object with `inner` consecutive A objects. */
  lemma PairsOfStep(cfg: Config, round: nat, t: nat, n: nat, atA: int, atB: int)
    requires t < cfg.steps && cfg.inner > 0 && n == t * cfg.inner
    requires atA == round * cfg.steps * cfg.inner + n && atB == round * cfg.steps + t
    ensures n + cfg.inner <= |RoundLog(cfg, round)| && n + cfg.inner == (t + 1) * cfg.inner
    ensures StepPairs(RoundLog(cfg, round), n, cfg.inner, atA, atB)
  {
    MulMonotone(t + 1, cfg.steps, cfg.inner);
    NextMultiple(t, cfg.inner);
    forall i: nat | i < cfg.inner ensures PairIs(RoundLog(cfg, round), n, i, atA, atB) { DivMod(t, i, cfg.inner); }
  }

  /** K step t of a round that starts at A object atA and B object atB. */
  ghost predicate StepAt(log: Log, inner: nat, atA: int, atB: int, t: nat) {
    && 0 <= t * inner <= t * inner + inner <= |log|
    && StepPairs(log, t * inner, inner, atA + t * inner, atB + t)
  }

  ghost predicate StepPairs(log: Log, n: nat, inner: nat, atA: int, atB: int) {
    forall i: nat :: i < inner ==> PairIs(log, n, i, atA, atB)
  }

  /** Pair i after position n is A object atA + i with B object atB. */
  ghost predicate PairIs(log: Log, n: nat, i: nat, atA: int, atB: int) { n + i < |log| && log[n + i] == (atA + i, atB) }

  /** The consumer ends of a core's two input FIFOs: how many objects it has released from each. */
  class Core {
    const a: Objects
    const b: Objects
    const kernel: Kernel
    var releasedA: nat
    var releasedB: nat
    /** The kernel's own count of its calls. */
    var calls: nat

    constructor (kernel: Kernel, a: Objects, b: Objects)
      ensures this.kernel == kernel && this.a == a && this.b == b && releasedA == releasedB == calls == 0
    {
      this.kernel, this.a, this.b, releasedA, releasedB, calls := kernel, a, b, 0, 0, 0;
    }

    method Zero(C: array<real>)
      modifies C
      ensures C[..] == seq(C.Length, _ => 0.0)
    {
      for x := 0 to C.Length
        invariant forall y :: 0 <= y < x ==> C[y] == 0.0
      {
        C[x] := 0.0;
      }
    }

    method Matmul(x: seq<real>, y: seq<real>, C: array<real>)
      requires KeepsSize(kernel)
      modifies this`calls, C
      ensures C[..] == kernel(old(calls), x, y, old(C[..])) && calls == old(calls) + 1
    {
      var result := kernel(calls, x, y, C[..]);
      for i := 0 to C.Length
        invariant C[..i] == result[..i] && calls == old(calls)
      {
        C[i] := result[i];
      }
      calls := calls + 1;
    }

    /** One round: exactly the pairs of the round's log, in order, and every acquired object released. */
    method Round(cfg: Config, round: nat, C: array<real>)
      requires cfg.inner > 0 && KeepsSize(kernel)
      requires calls == releasedA == round * cfg.steps * cfg.inner && releasedB == round * cfg.steps
      modifies this, C
      ensures C[..] == RoundTile(kernel, a, b, cfg, round, C.Length)
      ensures calls == releasedA == (round + 1) * cfg.steps * cfg.inner && releasedB == (round + 1) * cfg.steps
    {
      Zero(C);
      forall t: nat | t < cfg.steps
        ensures StepAt(RoundLog(cfg, round), cfg.inner, releasedA, releasedB, t)
      {
        PairsOfStep(cfg, round, t, t * cfg.inner, releasedA + t * cfg.inner, releasedB + t);
      }
      RoundsDone(cfg, round);
      KSteps(cfg.steps, cfg.inner, C, RoundLog(cfg, round));
    }

    /** The K loop. */
    method KSteps(steps: nat, inner: nat, C: array<real>, ghost log: Log)
      requires KeepsSize(kernel) && calls == releasedA && |log| == steps * inner
      requires C[..] == Accumulated(kernel, a, b, log, 0, C.Length)
      requires forall t: nat :: t < steps ==> StepAt(log, inner, releasedA, releasedB, t)
      modifies this, C
      ensures C[..] == Accumulated(kernel, a, b, log, |log|, C.Length)
      ensures calls == releasedA == old(releasedA) + steps * inner && releasedB == old(releasedB) + steps
    {
      ghost var n := 0;
      for t := 0 to steps
        invariant n == t * inner && n <= |log| && calls == releasedA == old(releasedA) + n && releasedB == old(releasedB) + t
        invariant C[..] == Accumulated(kernel, a, b, log, n, C.Length)
      {
        assert StepAt(log, inner, old(releasedA), old(releasedB), t);
        KStep(inner, C, log, n);
        n := n + inner;
        NextMultiple(t, inner);
      }
    }

    /** One K step: a B object multiplied with `inner` A objects. */
    method KStep(inner: nat, C: array<real>, ghost log: Log, ghost n: nat)
      requires KeepsSize(kernel) && calls == releasedA && n + inner <= |log|
      requires StepPairs(log, n, inner, releasedA, releasedB)
      requires C[..] == Accumulated(kernel, a, b, log, n, C.Length)
      modifies this, C
      ensures calls == releasedA == old(releasedA) + inner && releasedB == old(releasedB) + 1
      ensures C[..] == Accumulated(kernel, a, b, log, n + inner, C.Length)
    {
      var elemB := b(releasedB);
      for i := 0 to inner
        invariant calls == releasedA == old(releasedA) + i && releasedB == old(releasedB)
        invariant C[..] == Accumulated(kernel, a, b, log, n + i, C.Length)
      {
        assert PairIs(log, n, i, old(releasedA), releasedB);
        MultiplyNext(elemB, C, log, n + i);
      }
      releasedB := releasedB + 1;
    }

    /** An A object is acquired, multiplied into the tile and released. */
    method MultiplyNext(elemB: seq<real>, C: array<real>, ghost log: Log, ghost n: nat)
      requires KeepsSize(kernel) && n < |log| && log[n].0 == calls == releasedA && b(log[n].1) == elemB
      requires C[..] == Accumulated(kernel, a, b, log, n, C.Length)
      modifies this`releasedA, this`calls, C
      ensures calls == releasedA == old(releasedA) + 1
      ensures C[..] == Accumulated(kernel, a, b, log, n + 1, C.Length)
    {
      var elemA := a(releasedA);
      Matmul(elemA, elemB, C);
      releasedA := releasedA + 1;
    }
  }

  lemma NextMultiple(t: nat, d: nat)
    ensures (t + 1) * d == t * d + d
  {}

  lemma RoundsDone(cfg: Config, round: nat)
    ensures (round + 1) * cfg.steps * cfg.inner == round * cfg.steps * cfg.inner + cfg.steps * cfg.inner
    ensures (round + 1) * cfg.steps == round * cfg.steps + cfg.steps
  {
    NextMultiple(round, cfg.steps);
  }

  // ---- the exact kernel ----

  /** Where the elements of an A and a B object lie in it. */
  datatype Tiling = Tiling(a: (nat, nat) -> nat, b: (nat, nat) -> nat)

  /** Element (x, y) of the product of an A and a B object, or nothing. */
  datatype Part = Part(x: int, y: int) | Untouched

  /** What a call adds to an address of the C tile: any layout of C, and any choice of rows that depends on the call. */
  type Adds = (int, int) -> Part

  /** It is an element of a product of h rows and n columns. */
  predicate InBlock(p: Part, h: nat, n: nat) { p.Part? && 0 <= p.x < h && 0 <= p.y < n }

  function Element(s: seq<real>, i: int): real { if 0 <= i < |s| then s[i] else 0.0 }

  function KernelTerms(ly: Tiling, a: seq<real>, b: seq<real>, x: nat, y: nat): int -> real {
    z => if z < 0 then 0.0 else Element(a, ly.a(x, z)) * Element(b, ly.b(z, y))
  }

  function Added(ly: Tiling, a: seq<real>, b: seq<real>, h: nat, k: nat, n: nat, p: Part): real {
    if InBlock(p, h, n) then Sum(k, KernelTerms(ly, a, b, p.x, p.y)) else 0.0
  }

  ghost predicate AddsProduct(kernel: Kernel, ly: Tiling, adds: Adds, call: int, a: seq<real>, b: seq<real>, c: seq<real>,
                              h: nat, k: nat, n: nat, e: int) {
    Element(kernel(call, a, b, c), e) == Element(c, e) + Added(ly, a, b, h, k, n, adds(call, e))
  }

  /** C + A B without rounding, for A objects of h rows and k columns and B objects of n columns. */
  ghost predicate Exact(kernel: Kernel, ly: Tiling, adds: Adds, h: nat, k: nat, n: nat, size: nat) {
    && KeepsSize(kernel)
    && forall call, a, b, c, e :: |c| == size && 0 <= e < size ==> AddsProduct(kernel, ly, adds, call, a, b, c, h, k, n, e)
  }

  /** What the pairs of a log add to one address of the tile. */
  function LogAdded(ly: Tiling, adds: Adds, a: Objects, b: Objects, log: Log, h: nat, k: nat, n: nat, e: int): int -> real {
    i => if 0 <= i < |log| then Added(ly, a(log[i].0), b(log[i].1), h, k, n, adds(log[i].0, e)) else 0.0
  }

  /** With an exact kernel an element of the tile is the sum of what its log's pairs add. */
  lemma {:induction false} AccumulatesSum(kernel: Kernel, ly: Tiling, adds: Adds, a: Objects, b: Objects, log: Log, count: nat,
                                          h: nat, k: nat, n: nat, size: nat, e: int)
    requires Exact(kernel, ly, adds, h, k, n, size) && 0 <= e < size && count <= |log|
    ensures |Accumulated(kernel, a, b, log, count, size)| == size
    ensures Element(Accumulated(kernel, a, b, log, count, size), e) == Sum(count, LogAdded(ly, adds, a, b, log, h, k, n, e))
  {
    if count > 0 {
      AccumulatesSum(kernel, ly, adds, a, b, log, count - 1, h, k, n, size, e);
      var last, before := log[count - 1], Accumulated(kernel, a, b, log, count - 1, size);
      assert AddsProduct(kernel, ly, adds, last.0, a(last.0), b(last.1), before, h, k, n, e);
    }
  }

  /** There is such a kernel: the one that adds to every address in turn. */
  function MultiplyAdd(ly: Tiling, adds: Adds, h: nat, k: nat, n: nat): Kernel {
    (call: int, a: seq<real>, b: seq<real>, c: seq<real>) =>
      seq(|c|, e requires 0 <= e < |c| => c[e] + Added(ly, a, b, h, k, n, adds(call, e)))
  }

  lemma MultiplyAddIsExact(ly: Tiling, adds: Adds, h: nat, k: nat, n: nat, size: nat)
    ensures Exact(MultiplyAdd(ly, adds, h, k, n), ly, adds, h, k, n, size)
  {}
}
