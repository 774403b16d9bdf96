/**
 The network never deadlocks: the only reachable state in which nothing can move is `Done`.
 A broadcast slot is free only once every consumer has released it, so the argument follows the core that has
 consumed least: whatever it waits for is never held back by the others.
 */
module GridDeadlock {
  import opened Arith
  import opened Grid
  import opened GridInvariant

  ghost predicate Stuck(cfg: Config, s: State) {
    forall l :: !Enabled(cfg, s, l)
  }

  /** Every channel has had n tasks started. */
  ghost predicate StartedAll(s: State, n: nat) {
    && (forall r: nat :: r < |s.a| ==> s.a[r].started == n)
    && (forall c: nat :: c < |s.b| ==> s.b[c].started == n && s.b[c].outputs == n)
  }

  /** A runtime that cannot move has finished, or waits for an output that is not in memory yet. */
  lemma RuntimeStuck(cfg: Config, s: State) returns (n: nat)
    requires Wellformed(cfg) && Shape(cfg, s) && StartedOk(cfg, s) && !Enabled(cfg, s, Runtime)
    ensures n <= cfg.groups && StartedAll(s, n)
    ensures s.pc == |cfg.ops| ==> n == cfg.groups
    ensures s.pc < |cfg.ops| ==> exists p :: p in s.cores && |s.cores[p].out| < n
  {
    if s.pc == |cfg.ops| {
      assert cfg.ops[..s.pc] == cfg.ops;
      n := cfg.groups;
    } else {
      RuntimeInRange(cfg, s);
      var op := cfg.ops[s.pc];
      var p :| p in s.cores && p.col == op.col && |s.cores[p].out| <= op.group;
      n :| op.group < n && Level(cfg.ops[..s.pc], cfg.rows, cfg.cols, n);
      assert s.a[0].started == n;
      LevelAtMost(cfg, s.pc, n);
    }
  }

  lemma StartedGrows(ops: seq<Op>, x: nat, r: nat)
    requires x <= |ops|
    ensures StartedA(ops[..x], r) <= StartedA(ops, r)
    decreases |ops| - x
  {
    if x < |ops| {
      StartedGrows(ops, x + 1, r);
      assert ops[..x + 1] == ops[..x] + [ops[x]];
      StartedMore(ops[..x], ops[x]);
    } else {
      assert ops[..x] == ops;
    }
  }

  lemma LevelAtMost(cfg: Config, x: nat, n: nat)
    requires Wellformed(cfg) && x <= |cfg.ops| && Level(cfg.ops[..x], cfg.rows, cfg.cols, n)
    ensures n <= cfg.groups
  {
    StartedGrows(cfg.ops, x, 0);
    assert StartedA(cfg.ops[..x], 0) == n && StartedA(cfg.ops, 0) == cfg.groups;
  }

  /** The core that has consumed least. */
  ghost predicate Slowest(cfg: Config, s: State, p: Pos) {
    p in s.cores && forall q :: q in s.cores ==> UsedA(cfg, s.cores[p]) <= UsedA(cfg, s.cores[q])
  }

  lemma {:induction false} SlowestAmong(cfg: Config, s: State, ps: set<Pos>) returns (p: Pos)
    requires ps <= s.cores.Keys && ps != {}
    ensures p in ps && forall q :: q in ps ==> UsedA(cfg, s.cores[p]) <= UsedA(cfg, s.cores[q])
    decreases |ps|
  {
    p :| p in ps;
    if ps != {p} {
      assert ps == (ps - {p}) + {p};
      var q := SlowestAmong(cfg, s, ps - {p});
      if UsedA(cfg, s.cores[q]) < UsedA(cfg, s.cores[p]) { p := q; }
    }
  }

  /** No channel sends beyond what its tasks bring. */
  lemma SentABound(cfg: Config, ch: AChannel)
    requires AOk(cfg, ch) && Matched(cfg)
    ensures ch.sent <= ch.started * (cfg.steps * cfg.inner)
    ensures ch.sent == ch.started * (cfg.steps * cfg.inner) ==> ch.l2 == [] && ch.shim == ch.started * cfg.parts && ch.part == 0
    ensures ch.l2 == [] && ch.shim == ch.started * cfg.parts ==> ch.sent == ch.started * (cfg.steps * cfg.inner)
  {
    var left := ch.started * cfg.parts - (ch.shim - |ch.l2|);
    assert left * cfg.chunks == ch.started * cfg.parts * cfg.chunks - (ch.shim - |ch.l2|) * cfg.chunks;
    assert ch.started * cfg.parts * cfg.chunks == ch.started * (cfg.steps * cfg.inner);
    Multiple(left, cfg.chunks);
  }

  /** A core position is its digits (round, t, i). */
  lemma Digits(cfg: Config, k: Core, n: nat)
    requires cfg.steps > 0 && cfg.inner > 0 && k.t < cfg.steps && k.i < cfg.inner
    ensures UsedA(cfg, k) >= n * (cfg.steps * cfg.inner) ==> k.round >= n
    ensures UsedA(cfg, k) == n * (cfg.steps * cfg.inner) ==> k.round == n && k.t == 0 && k.i == 0
    ensures k.round >= n ==> UsedA(cfg, k) >= n * (cfg.steps * cfg.inner)
    ensures UsedB(cfg, k) == n * cfg.steps ==> k.round == n && k.t == 0
    ensures UsedB(cfg, k) == n * cfg.steps && k.i == 0 ==> UsedA(cfg, k) == n * (cfg.steps * cfg.inner)
  {
    Multiple(k.round - n, cfg.steps);
    assert (k.round - n) * cfg.steps == k.round * cfg.steps - n * cfg.steps;
    var ahead := UsedB(cfg, k) - n * cfg.steps;
    Multiple(ahead, cfg.inner);
    assert ahead * cfg.inner == UsedB(cfg, k) * cfg.inner - n * cfg.steps * cfg.inner;
    assert n * cfg.steps * cfg.inner == n * (cfg.steps * cfg.inner);
  }

  /** A core that cannot run waits for a slot or an object. */
  ghost predicate Waiting(cfg: Config, k: Core) {
    match k.pc
    case WantC => k.c1 != [] && k.t == 0 && k.i == 0
    case WantB => k.bq == [] && k.t < cfg.steps && k.i == 0
    case WantA => k.aq == [] && k.t < cfg.steps && k.i < cfg.inner && k.bq != []
    case _ => false
  }

  lemma CoreStuck(cfg: Config, s: State, p: Pos)
    requires Matched(cfg) && Inv(cfg, s) && Stuck(cfg, s) && p in s.cores
    ensures Waiting(cfg, s.cores[p]) && s.cores[p].t < cfg.steps && s.cores[p].i < cfg.inner
    ensures CoreOk(cfg, s.cores[p], SentA(s.a[p.row]), SentB(s.b[p.col]))
    ensures AOk(cfg, s.a[p.row]) && BOk(cfg, s.b[p.col])
    ensures s.cores[p].c1 == [] || |s.cores[p].cq| == 2
  {
    assert CoreOk(cfg, s.cores[p], SentA(s.a[p.row]), SentB(s.b[p.col]));
    assert !Enabled(cfg, s, Compute(p));
    assert !Enabled(cfg, s, Gather(p));
  }

  /** All cores of row r have released everything sent, so only missing input can stop the row. */
  lemma RowDry(cfg: Config, s: State, r: nat, n: nat)
    requires Matched(cfg) && Inv(cfg, s) && Stuck(cfg, s) && StartedAll(s, n) && r < cfg.rows
    requires forall q :: q in s.cores && q.row == r ==> s.cores[q].aq == []
    ensures s.a[r].sent == n * (cfg.steps * cfg.inner)
  {
    assert !Enabled(cfg, s, CastA(r));
    assert !Enabled(cfg, s, ShimA(r));
    assert AOk(cfg, s.a[r]);
    SentABound(cfg, s.a[r]);
  }

  lemma ColumnDry(cfg: Config, s: State, c: nat, n: nat)
    requires Matched(cfg) && Inv(cfg, s) && Stuck(cfg, s) && StartedAll(s, n) && c < cfg.cols
    requires forall q :: q in s.cores && q.col == c ==> s.cores[q].bq == []
    ensures SentB(s.b[c]) == n * cfg.steps
  {
    assert !Enabled(cfg, s, CastB(c));
    assert !Enabled(cfg, s, ShimB(c));
    assert BOk(cfg, s.b[c]);
  }

  lemma SentBBound(cfg: Config, ch: BChannel)
    requires BOk(cfg, ch)
    ensures SentB(ch) <= ch.started * cfg.steps
    ensures SentB(ch) == ch.started * cfg.steps ==> ch.l2 == [] && ch.shim == ch.started * cfg.steps
  {}

  /** Nobody holds back the slowest core's A input. */
  lemma SlowestNotShortOfA(cfg: Config, s: State, p: Pos, n: nat)
    requires Matched(cfg) && Inv(cfg, s) && Stuck(cfg, s) && StartedAll(s, n) && Slowest(cfg, s, p)
    ensures s.cores[p].pc != WantA
  {
    CoreStuck(cfg, s, p);
    SentBBound(cfg, s.b[p.col]);
    var k := s.cores[p];
    Digits(cfg, k, n);
    if k.pc == WantA {
      forall q | q in s.cores && q.row == p.row ensures s.cores[q].aq == [] { CoreStuck(cfg, s, q); }
      RowDry(cfg, s, p.row, n);
    }
  }

  /** If the slowest core waits for B, every core has consumed all n groups. */
  lemma BehindInB(cfg: Config, k: Core, other: Core)
    requires cfg.inner > 0 && k.i == 0 && other.i < cfg.inner && UsedA(cfg, k) <= UsedA(cfg, other)
    ensures UsedB(cfg, k) <= UsedB(cfg, other)
  {
    var behind := UsedB(cfg, k) - UsedB(cfg, other);
    assert behind * cfg.inner == UsedB(cfg, k) * cfg.inner - UsedB(cfg, other) * cfg.inner;
    Multiple(behind, cfg.inner);
  }

  lemma SlowestShortOfB(cfg: Config, s: State, p: Pos, n: nat)
    requires Matched(cfg) && Inv(cfg, s) && Stuck(cfg, s) && StartedAll(s, n) && Slowest(cfg, s, p) && s.cores[p].pc == WantB
    ensures UsedA(cfg, s.cores[p]) == n * (cfg.steps * cfg.inner)
  {
    CoreStuck(cfg, s, p);
    forall q | q in s.cores && q.col == p.col ensures s.cores[q].bq == [] {
      CoreStuck(cfg, s, q);
      BehindInB(cfg, s.cores[p], s.cores[q]);
    }
    ColumnDry(cfg, s, p.col, n);
    Digits(cfg, s.cores[p], n);
  }

  /** Nobody holds back the slowest core's output. */
  lemma RoundBound(cfg: Config, k: Core, n: nat)
    requires cfg.steps > 0 && cfg.inner > 0 && UsedA(cfg, k) <= n * (cfg.steps * cfg.inner)
    ensures k.round <= n
  {
    var w := cfg.steps * cfg.inner;
    Multiple(cfg.steps, cfg.inner);
    Multiple(k.round - n, w);
    assert (k.round - n) * w == k.round * w - n * w;
    assert UsedA(cfg, k) == k.round * cfg.steps * cfg.inner + k.t * cfg.inner + k.i;
    assert k.round * cfg.steps * cfg.inner == k.round * w;
    MulMonotone(0, k.t, cfg.inner);
  }

  lemma NotBeyondStarted(cfg: Config, s: State, p: Pos, n: nat)
    requires Matched(cfg) && Inv(cfg, s) && Stuck(cfg, s) && StartedAll(s, n) && p in s.cores
    ensures s.cores[p].round <= n
  {
    CoreStuck(cfg, s, p);
    SentABound(cfg, s.a[p.row]);
    RoundBound(cfg, s.cores[p], n);
  }

  /** If the slowest core's C path is full, every core of its column has a tile in the mem tile. */
  lemma ColumnHasTiles(cfg: Config, s: State, p: Pos, q: Pos)
    requires Matched(cfg) && Inv(cfg, s) && Stuck(cfg, s) && Slowest(cfg, s, p) && s.cores[p].pc == WantC
    requires q in s.cores && q.col == p.col
    ensures s.cores[q].cq != []
  {
    CoreStuck(cfg, s, p);
    CoreStuck(cfg, s, q);
    Digits(cfg, s.cores[p], s.cores[p].round);
    Digits(cfg, s.cores[q], s.cores[p].round);
  }

  lemma SlowestNotFull(cfg: Config, s: State, p: Pos, n: nat)
    requires Matched(cfg) && Inv(cfg, s) && Stuck(cfg, s) && StartedAll(s, n) && Slowest(cfg, s, p)
    ensures s.cores[p].pc != WantC
  {
    assert !Enabled(cfg, s, Drain(p.col));
    CoreStuck(cfg, s, p);
    NotBeyondStarted(cfg, s, p, n);
    if s.cores[p].pc == WantC {
      forall q | q in s.cores && q.col == p.col ensures s.cores[q].cq != [] { ColumnHasTiles(cfg, s, p, q); }
    }
  }

  /** Everything started has been consumed by every core. */
  ghost predicate AllConsumed(cfg: Config, s: State, n: nat) {
    forall q :: q in s.cores ==> s.cores[q].round == n && s.cores[q].t == 0 && s.cores[q].i == 0
  }

  lemma StuckConsumed(cfg: Config, s: State, n: nat)
    requires Matched(cfg) && Inv(cfg, s) && Stuck(cfg, s) && StartedAll(s, n)
    ensures AllConsumed(cfg, s, n)
  {
    assert Pos(0, 0) in s.cores;
    var p := SlowestAmong(cfg, s, s.cores.Keys);
    assert Slowest(cfg, s, p);
    SlowestNotShortOfA(cfg, s, p, n);
    SlowestNotFull(cfg, s, p, n);
    CoreStuck(cfg, s, p);
    SlowestShortOfB(cfg, s, p, n);
    forall q | q in s.cores ensures s.cores[q].round == n && s.cores[q].t == 0 && s.cores[q].i == 0 {
      CoreStuck(cfg, s, q);
      SentABound(cfg, s.a[q.row]);
      Digits(cfg, s.cores[q], n);
    }
  }

  /** Then every tile is in memory. */
  lemma StuckWritten(cfg: Config, s: State, n: nat, p: Pos)
    requires Matched(cfg) && Inv(cfg, s) && Stuck(cfg, s) && StartedAll(s, n) && AllConsumed(cfg, s, n) && p in s.cores
    ensures |s.cores[p].out| == n && s.cores[p].cq == [] && s.cores[p].c1 == [] && s.cores[p].pc == WantB
  {
    CoreStuck(cfg, s, p);
    assert !Enabled(cfg, s, Drain(p.col));
    if |s.cores[p].out| < n {
      forall q | q in s.cores && q.col == p.col ensures s.cores[q].cq != [] { CoreStuck(cfg, s, q); }
    }
    SentBBound(cfg, s.b[p.col]);
  }

  /** A drained core is the final core. */
  lemma FinalCore(cfg: Config, k: Core, sentA: int, sentB: int)
    requires cfg.inner > 0 && CoreOk(cfg, k, sentA, sentB)
    requires k.round == cfg.groups && k.t == 0 && k.i == 0 && k.pc == WantB
    requires |k.out| == cfg.groups && k.cq == [] && k.c1 == [] && k.bq == [] && k.aq == []
    ensures k == Core([], [], WantB, cfg.groups, 0, 0, [], [], [],
                      seq(cfg.groups, g requires 0 <= g => RoundLog(cfg, g)))
  {
    assert k.acc == [];
    assert Finished(k) == k.out;
    var rounds := seq(cfg.groups, g requires 0 <= g => RoundLog(cfg, g));
    assert forall g: nat :: g < cfg.groups ==> k.out[g] == rounds[g];
    assert k.out == rounds;
  }

  lemma StuckCore(cfg: Config, s: State, p: Pos)
    requires Matched(cfg) && Inv(cfg, s) && Stuck(cfg, s) && StartedAll(s, cfg.groups) && AllConsumed(cfg, s, cfg.groups) && p in s.cores
    ensures s.cores[p] == Done(cfg).cores[p]
    ensures s.a[p.row] == Done(cfg).a[p.row] && s.b[p.col] == Done(cfg).b[p.col]
  {
    StuckWritten(cfg, s, cfg.groups, p);
    CoreStuck(cfg, s, p);
    SentABound(cfg, s.a[p.row]);
    SentBBound(cfg, s.b[p.col]);
    Digits(cfg, s.cores[p], cfg.groups);
    assert cfg.groups * cfg.steps * cfg.inner == cfg.groups * (cfg.steps * cfg.inner);
    FinalCore(cfg, s.cores[p], SentA(s.a[p.row]), SentB(s.b[p.col]));
  }

  /** A state satisfying the invariant in which nothing can move is `Done`. */
  lemma StuckIsDone(cfg: Config, s: State)
    requires Matched(cfg) && Inv(cfg, s) && Stuck(cfg, s)
    ensures s == Done(cfg)
  {
    assert !Enabled(cfg, s, Runtime);
    var n := RuntimeStuck(cfg, s);
    StuckConsumed(cfg, s, n);
    forall p | p in s.cores ensures |s.cores[p].out| == n { StuckWritten(cfg, s, n, p); }
    assert n == cfg.groups && s.pc == |cfg.ops|;
    forall p | p in s.cores ensures s.cores[p] == Done(cfg).cores[p] { StuckCore(cfg, s, p); }
    assert s.cores == Done(cfg).cores;
    forall r: nat | r < cfg.rows ensures s.a[r] == Done(cfg).a[r] { assert Pos(r, 0) in s.cores; StuckCore(cfg, s, Pos(r, 0)); }
    forall c: nat | c < cfg.cols ensures s.b[c] == Done(cfg).b[c] { assert Pos(0, c) in s.cores; StuckCore(cfg, s, Pos(0, c)); }
    assert s.a == Done(cfg).a && s.b == Done(cfg).b;
  }

  lemma DoneIsStuck(cfg: Config)
    requires Wellformed(cfg)
    ensures Stuck(cfg, Done(cfg))
  {
    var s := Done(cfg);
    forall l ensures !Enabled(cfg, s, l) {
      match l
      case Drain(c) => if c < cfg.cols { assert Pos(0, c) in s.cores; }
      case _ =>
    }
  }
}
