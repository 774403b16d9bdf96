/** Whole runs of the network: every interleaving takes the same number of steps and ends in the same state. */
module GridRuns {
  import opened Arith
  import opened Sums
  import opened Grid
  import opened GridInvariant
  import opened GridDeadlock

  /** Core instructions for one B object: acquire and release B, acquire and multiply-release each A. */
  function StepCost(cfg: Config): nat { 2 * cfg.inner + 2 }

  /** Core instructions for one output tile. */
  function RoundCost(cfg: Config): nat { 2 + cfg.steps * StepCost(cfg) }

  function WithinRound(cfg: Config, k: Core): int {
    match k.pc
    case WantC => 0
    case WantB => 1 + k.t * StepCost(cfg)
    case WantA => 2 + k.t * StepCost(cfg) + 2 * k.i
    case HasA => 3 + k.t * StepCost(cfg) + 2 * k.i
    case DoneB => 2 + k.t * StepCost(cfg) + 2 * cfg.inner
    case DoneC => 1 + cfg.steps * StepCost(cfg)
  }

  /** Steps a core and its gather DMA have taken. */
  function Work(cfg: Config, k: Core): int {
    k.round * RoundCost(cfg) + WithinRound(cfg, k) + |k.cq| + |k.out|
  }

  function WorkAt(cfg: Config, s: State, r: int, c: int): int {
    if 0 <= r && 0 <= c && Pos(r, c) in s.cores then Work(cfg, s.cores[Pos(r, c)]) else 0
  }

  function RowWork(cfg: Config, s: State, r: int): int { Total(cfg.cols, c => WorkAt(cfg, s, r, c)) }

  function ACount(s: State, r: int): int { if 0 <= r < |s.a| then s.a[r].shim + s.a[r].sent else 0 }

  function BCount(s: State, c: int): int { if 0 <= c < |s.b| then s.b[c].shim + SentB(s.b[c]) else 0 }

  function CCount(s: State, c: int): int { if 0 <= c && Pos(0, c) in s.cores then |s.cores[Pos(0, c)].out| else 0 }

  function ACounts(s: State): int -> int { r => ACount(s, r) }

  function BCounts(s: State): int -> int { c => BCount(s, c) }

  function CCounts(s: State): int -> int { c => CCount(s, c) }

  function RowWorks(cfg: Config, s: State): int -> int { r => RowWork(cfg, s, r) }

  /** Steps taken so far, read off the state. */
  function Progress(cfg: Config, s: State): int {
    s.pc + Inputs(cfg, s) + Total(cfg.cols, CCounts(s)) + Total(cfg.rows, RowWorks(cfg, s))
  }

  function Inputs(cfg: Config, s: State): int { Total(cfg.rows, ACounts(s)) + Total(cfg.cols, BCounts(s)) }

  /** The length of every complete run. */
  function Length(cfg: Config): int {
    |cfg.ops| + AllInputs(cfg) + cfg.cols * cfg.groups + AllWork(cfg)
  }

  function AllInputs(cfg: Config): int {
    cfg.rows * (cfg.groups * cfg.parts + cfg.groups * (cfg.steps * cfg.inner)) + cfg.cols * (2 * (cfg.groups * cfg.steps))
  }

  function AllWork(cfg: Config): int { cfg.rows * (cfg.cols * (cfg.groups * RoundCost(cfg) + 1 + cfg.groups)) }

  lemma SameWork(cfg: Config, s: State, s': State)
    requires s'.cores.Keys == s.cores.Keys
    requires forall p :: p in s.cores ==> Work(cfg, s'.cores[p]) == Work(cfg, s.cores[p])
    ensures Total(cfg.rows, RowWorks(cfg, s')) == Total(cfg.rows, RowWorks(cfg, s))
  {
    forall r | 0 <= r < cfg.rows ensures RowWork(cfg, s', r) == RowWork(cfg, s, r) {
      TotalCongruent(cfg.cols, c => WorkAt(cfg, s', r, c), c => WorkAt(cfg, s, r, c));
    }
    TotalCongruent(cfg.rows, RowWorks(cfg, s'), RowWorks(cfg, s));
  }

  lemma MoreWork(cfg: Config, s: State, s': State, p: Pos)
    requires s.cores.Keys == Cells(cfg) && p in s.cores && p in s'.cores && s'.cores == s.cores[p := s'.cores[p]]
    requires Work(cfg, s'.cores[p]) == Work(cfg, s.cores[p]) + 1
    ensures Total(cfg.rows, RowWorks(cfg, s')) == Total(cfg.rows, RowWorks(cfg, s)) + 1
  {
    TotalChange(cfg.cols, c => WorkAt(cfg, s, p.row, c), c => WorkAt(cfg, s', p.row, c), p.col);
    forall r | 0 <= r < cfg.rows && r != p.row ensures RowWork(cfg, s', r) == RowWork(cfg, s, r) {
      TotalCongruent(cfg.cols, c => WorkAt(cfg, s', r, c), c => WorkAt(cfg, s, r, c));
    }
    TotalChange(cfg.rows, RowWorks(cfg, s), RowWorks(cfg, s'), p.row);
  }

  lemma ChannelCounts(cfg: Config, s: State, s': State)
    requires |s.a| == |s'.a| == cfg.rows && |s.b| == |s'.b| == cfg.cols
    requires s'.cores.Keys == s.cores.Keys == Cells(cfg)
    ensures s'.a == s.a ==> Total(cfg.rows, ACounts(s')) == Total(cfg.rows, ACounts(s))
    ensures s'.b == s.b ==> Total(cfg.cols, BCounts(s')) == Total(cfg.cols, BCounts(s))
    ensures (forall p :: p in s.cores ==> s'.cores[p].out == s.cores[p].out) ==>
              Total(cfg.cols, CCounts(s')) == Total(cfg.cols, CCounts(s))
  {
    if s'.a == s.a { TotalCongruent(cfg.rows, ACounts(s'), ACounts(s)); }
    if s'.b == s.b { TotalCongruent(cfg.cols, BCounts(s'), BCounts(s)); }
    if forall p :: p in s.cores ==> s'.cores[p].out == s.cores[p].out {
      TotalCongruent(cfg.cols, CCounts(s'), CCounts(s));
    }
  }

  lemma ComputeCounts(cfg: Config, k: Core)
    requires CoreReady(k) && PcOk(cfg, k) && cfg.inner > 0 && cfg.steps > 0
    ensures Work(cfg, CoreStep(cfg, k)) == Work(cfg, k) + 1 && CoreStep(cfg, k).out == k.out
  {
    MoreTasks(k.t, StepCost(cfg));
    MoreTasks(k.round, RoundCost(cfg));
  }

  lemma RuntimeCounts(cfg: Config, s: State)
    requires Shape(cfg, s) && Enabled(cfg, s, Runtime) && InRange(cfg, s, Runtime)
    ensures Progress(cfg, Next(cfg, s, Runtime)) == Progress(cfg, s) + 1
  {
    var s' := Next(cfg, s, Runtime);
    assert s'.cores == s.cores && s'.pc == s.pc + 1;
    SameWork(cfg, s, s');
    ChannelCounts(cfg, s, s');
    TotalCongruent(cfg.rows, ACounts(s'), ACounts(s));
    TotalCongruent(cfg.cols, BCounts(s'), BCounts(s));
  }

  lemma AChannelCounts(cfg: Config, s: State, r: nat, ch: AChannel, cores: map<Pos, Core>)
    requires Shape(cfg, s) && r < |s.a| && cores.Keys == s.cores.Keys
    requires ch.shim + ch.sent == s.a[r].shim + s.a[r].sent + 1
    requires forall p :: p in s.cores ==> Work(cfg, cores[p]) == Work(cfg, s.cores[p]) && cores[p].out == s.cores[p].out
    ensures Progress(cfg, s.(a := s.a[r := ch], cores := cores)) == Progress(cfg, s) + 1
  {
    var s' := s.(a := s.a[r := ch], cores := cores);
    SameWork(cfg, s, s');
    ChannelCounts(cfg, s, s');
    TotalChange(cfg.rows, ACounts(s), ACounts(s'), r);
  }

  lemma ShimAProgress(cfg: Config, s: State, r: nat)
    requires Shape(cfg, s) && Enabled(cfg, s, ShimA(r))
    ensures Progress(cfg, Next(cfg, s, ShimA(r))) == Progress(cfg, s) + 1
  {
    var s' := Next(cfg, s, ShimA(r));
    AChannelCounts(cfg, s, r, s'.a[r], s.cores);
    assert s' == s.(a := s.a[r := s'.a[r]], cores := s.cores);
  }

  lemma CastAProgress(cfg: Config, s: State, r: nat)
    requires Shape(cfg, s) && Enabled(cfg, s, CastA(r))
    ensures Progress(cfg, Next(cfg, s, CastA(r))) == Progress(cfg, s) + 1
  {
    var s' := CastAStep(cfg, s, r);
    assert s'.cores.Keys == s.cores.Keys;
    AChannelCounts(cfg, s, r, s'.a[r], s'.cores);
    assert s' == s.(a := s.a[r := s'.a[r]], cores := s'.cores);
  }

  lemma BChannelCounts(cfg: Config, s: State, c: nat, ch: BChannel, cores: map<Pos, Core>)
    requires Shape(cfg, s) && c < |s.b| && cores.Keys == s.cores.Keys
    requires ch.shim + SentB(ch) == s.b[c].shim + SentB(s.b[c]) + 1
    requires forall p :: p in s.cores ==> Work(cfg, cores[p]) == Work(cfg, s.cores[p]) && cores[p].out == s.cores[p].out
    ensures Progress(cfg, s.(b := s.b[c := ch], cores := cores)) == Progress(cfg, s) + 1
  {
    var s' := s.(b := s.b[c := ch], cores := cores);
    SameWork(cfg, s, s');
    ChannelCounts(cfg, s, s');
    TotalChange(cfg.cols, BCounts(s), BCounts(s'), c);
  }

  lemma ShimBProgress(cfg: Config, s: State, c: nat)
    requires Shape(cfg, s) && Enabled(cfg, s, ShimB(c))
    ensures Progress(cfg, Next(cfg, s, ShimB(c))) == Progress(cfg, s) + 1
  {
    var s' := Next(cfg, s, ShimB(c));
    BChannelCounts(cfg, s, c, s'.b[c], s.cores);
    assert s' == s.(b := s.b[c := s'.b[c]], cores := s.cores);
  }

  lemma CastBProgress(cfg: Config, s: State, c: nat)
    requires Shape(cfg, s) && Enabled(cfg, s, CastB(c))
    ensures Progress(cfg, Next(cfg, s, CastB(c))) == Progress(cfg, s) + 1
  {
    var s' := CastBStep(s, c);
    assert s'.cores.Keys == s.cores.Keys;
    BChannelCounts(cfg, s, c, s'.b[c], s'.cores);
    assert s' == s.(b := s.b[c := s'.b[c]], cores := s'.cores);
  }

  lemma CoreCounts(cfg: Config, s: State, p: Pos, k: Core)
    requires Shape(cfg, s) && p in s.cores && Work(cfg, k) == Work(cfg, s.cores[p]) + 1 && k.out == s.cores[p].out
    ensures Progress(cfg, s.(cores := s.cores[p := k])) == Progress(cfg, s) + 1
  {
    var s' := s.(cores := s.cores[p := k]);
    assert s'.cores.Keys == s.cores.Keys;
    MoreWork(cfg, s, s', p);
    ChannelCounts(cfg, s, s');
  }

  lemma ComputeProgress(cfg: Config, s: State, p: Pos)
    requires cfg.inner > 0 && cfg.steps > 0 && Shape(cfg, s) && CoresOk(cfg, s) && Enabled(cfg, s, Compute(p))
    ensures Progress(cfg, Next(cfg, s, Compute(p))) == Progress(cfg, s) + 1
  {
    assert CoreOk(cfg, s.cores[p], SentA(s.a[p.row]), SentB(s.b[p.col]));
    ComputeCounts(cfg, s.cores[p]);
    CoreCounts(cfg, s, p, CoreStep(cfg, s.cores[p]));
  }

  lemma GatherProgress(cfg: Config, s: State, p: Pos)
    requires cfg.inner > 0 && Shape(cfg, s) && CoresOk(cfg, s) && Enabled(cfg, s, Gather(p))
    ensures Progress(cfg, Next(cfg, s, Gather(p))) == Progress(cfg, s) + 1
  {
    var k := s.cores[p];
    assert CoreOk(cfg, k, SentA(s.a[p.row]), SentB(s.b[p.col]));
    CoreCounts(cfg, s, p, k.(cq := k.cq + k.c1, c1 := []));
  }

  lemma DrainCounts(cfg: Config, s: State, c: nat)
    requires Shape(cfg, s) && cfg.rows > 0 && Enabled(cfg, s, Drain(c))
    ensures Progress(cfg, Next(cfg, s, Drain(c))) == Progress(cfg, s) + 1
  {
    var s' := Next(cfg, s, Drain(c));
    assert s'.cores.Keys == s.cores.Keys;
    SameWork(cfg, s, s');
    ChannelCounts(cfg, s, s');
    assert Pos(0, c) in s.cores;
    TotalChange(cfg.cols, i => CCount(s, i), i => CCount(s', i), c);
  }

  /** Every step of every component counts exactly one. */
  lemma StepCounts(cfg: Config, s: State, l: Label)
    requires Inv(cfg, s) && Enabled(cfg, s, l) && InRange(cfg, s, l)
    ensures Progress(cfg, Next(cfg, s, l)) == Progress(cfg, s) + 1
  {
    match l
    case Runtime => RuntimeCounts(cfg, s);
    case ShimA(r) => ShimAProgress(cfg, s, r);
    case CastA(r) => CastAProgress(cfg, s, r);
    case ShimB(c) => ShimBProgress(cfg, s, c);
    case CastB(c) => CastBProgress(cfg, s, c);
    case Compute(p) => ComputeProgress(cfg, s, p);
    case Gather(p) => GatherProgress(cfg, s, p);
    case Drain(c) => DrainCounts(cfg, s, c);
  }

  lemma InitCounts(cfg: Config)
    ensures Progress(cfg, Init(cfg)) == 0
  {
    var s := Init(cfg);
    TotalConstant(cfg.rows, ACounts(s), 0);
    TotalConstant(cfg.cols, BCounts(s), 0);
    TotalConstant(cfg.cols, CCounts(s), 0);
    forall r | 0 <= r < cfg.rows ensures RowWork(cfg, s, r) == 0 {
      TotalConstant(cfg.cols, c => WorkAt(cfg, s, r, c), 0);
    }
    TotalConstant(cfg.rows, RowWorks(cfg, s), 0);
  }

  lemma DoneWork(cfg: Config, r: nat)
    requires cfg.inner > 0 && r < cfg.rows
    ensures RowWork(cfg, Done(cfg), r) == cfg.cols * (cfg.groups * RoundCost(cfg) + 1 + cfg.groups)
  {
    var s := Done(cfg);
    var work := cfg.groups * RoundCost(cfg) + 1 + cfg.groups;
    forall c | 0 <= c < cfg.cols ensures WorkAt(cfg, s, r, c) == work {
      var k := s.cores[Pos(r, c)];
      assert Work(cfg, k) == cfg.groups * RoundCost(cfg) + (1 + 0 * StepCost(cfg)) + 0 + cfg.groups;
    }
    TotalConstant(cfg.cols, c => WorkAt(cfg, s, r, c), work);
  }

  lemma DoneCounts(cfg: Config)
    requires cfg.inner > 0 && cfg.rows > 0
    ensures Progress(cfg, Done(cfg)) == Length(cfg)
  {
    var s := Done(cfg);
    TotalConstant(cfg.rows, ACounts(s), cfg.groups * cfg.parts + cfg.groups * (cfg.steps * cfg.inner));
    TotalConstant(cfg.cols, BCounts(s), 2 * (cfg.groups * cfg.steps));
    TotalConstant(cfg.cols, CCounts(s), cfg.groups);
    var rowWork := cfg.cols * (cfg.groups * RoundCost(cfg) + 1 + cfg.groups);
    forall r | 0 <= r < cfg.rows ensures RowWork(cfg, s, r) == rowWork { DoneWork(cfg, r); }
    TotalConstant(cfg.rows, RowWorks(cfg, s), rowWork);
  }

  /** No core gets beyond the last group's tile and the zeroed one after it. */
  lemma WithinBound(cfg: Config, k: Core)
    requires PcOk(cfg, k)
    ensures 0 <= WithinRound(cfg, k) < RoundCost(cfg)
  {
    MulMonotone(0, k.t, StepCost(cfg));
    MulMonotone(0, cfg.steps, StepCost(cfg));
    if k.t < cfg.steps { MulMonotone(k.t + 1, cfg.steps, StepCost(cfg)); MoreTasks(k.t, StepCost(cfg)); }
  }

  lemma RoundsBound(cfg: Config, k: Core, sentB: int)
    requires cfg.steps > 0 && PcOk(cfg, k) && Consecutive(k.bq, UsedB(cfg, k), sentB) && sentB <= cfg.groups * cfg.steps
    ensures k.round < cfg.groups || (k.round == cfg.groups && (k.pc == WantC || (k.pc == WantB && k.t == 0)))
  {
    Multiple(k.round - cfg.groups, cfg.steps);
    assert (k.round - cfg.groups) * cfg.steps == k.round * cfg.steps - cfg.groups * cfg.steps;
  }

  lemma WorkBound(cfg: Config, k: Core, sentA: int, sentB: int)
    requires cfg.inner > 0 && cfg.steps > 0 && CoreOk(cfg, k, sentA, sentB) && sentB <= cfg.groups * cfg.steps
    ensures Work(cfg, k) <= cfg.groups * RoundCost(cfg) + 1 + cfg.groups
  {
    RoundsBound(cfg, k, sentB);
    assert |k.out| + |k.cq| <= k.round;
    if k.round < cfg.groups {
      WithinBound(cfg, k);
      MulMonotone(k.round + 1, cfg.groups, RoundCost(cfg));
      MoreTasks(k.round, RoundCost(cfg));
    } else {
      assert WithinRound(cfg, k) <= 1;
    }
  }

  lemma ChannelBounds(cfg: Config, s: State)
    requires Sizes(cfg) && Matched(cfg) && Shape(cfg, s) && ChannelsOk(cfg, s)
    ensures forall r: nat :: r < cfg.rows ==>
      s.a[r].shim <= cfg.groups * cfg.parts && s.a[r].sent <= cfg.groups * (cfg.steps * cfg.inner)
    ensures forall c: nat :: c < cfg.cols ==> SentB(s.b[c]) <= s.b[c].shim <= cfg.groups * cfg.steps
  {
    forall r: nat | r < cfg.rows
      ensures s.a[r].shim <= cfg.groups * cfg.parts && s.a[r].sent <= cfg.groups * (cfg.steps * cfg.inner)
    {
      assert AOk(cfg, s.a[r]);
      SentABound(cfg, s.a[r]);
      MulMonotone(s.a[r].started, cfg.groups, cfg.parts);
      MulMonotone(s.a[r].started, cfg.groups, cfg.steps * cfg.inner);
    }
    forall c: nat | c < cfg.cols ensures SentB(s.b[c]) <= s.b[c].shim <= cfg.groups * cfg.steps {
      assert BOk(cfg, s.b[c]);
      MulMonotone(s.b[c].started, cfg.groups, cfg.steps);
    }
  }

  lemma WorkBounds(cfg: Config, s: State, r: nat)
    requires Sizes(cfg) && Matched(cfg) && Shape(cfg, s) && ChannelsOk(cfg, s) && CoresOk(cfg, s) && r < cfg.rows
    ensures RowWork(cfg, s, r) <= cfg.cols * (cfg.groups * RoundCost(cfg) + 1 + cfg.groups)
  {
    var work := cfg.groups * RoundCost(cfg) + 1 + cfg.groups;
    ChannelBounds(cfg, s);
    forall c | 0 <= c < cfg.cols ensures WorkAt(cfg, s, r, c) <= work {
      assert Pos(r, c) in s.cores;
      assert CoreOk(cfg, s.cores[Pos(r, c)], SentA(s.a[r]), SentB(s.b[c]));
      WorkBound(cfg, s.cores[Pos(r, c)], SentA(s.a[r]), SentB(s.b[c]));
    }
    TotalAtMost(cfg.cols, c => WorkAt(cfg, s, r, c), work);
  }

  lemma OutputsBound(cfg: Config, s: State, c: nat)
    requires Shape(cfg, s) && ChannelsOk(cfg, s) && OutputsOk(cfg, s) && c < cfg.cols
    ensures CCount(s, c) <= cfg.groups
  {
    assert BOk(cfg, s.b[c]);
  }

  lemma InputBound(cfg: Config, s: State)
    requires Sizes(cfg) && Matched(cfg) && Shape(cfg, s) && ChannelsOk(cfg, s)
    ensures Inputs(cfg, s) <= AllInputs(cfg)
  {
    ChannelBounds(cfg, s);
    TotalAtMost(cfg.rows, ACounts(s), cfg.groups * cfg.parts + cfg.groups * (cfg.steps * cfg.inner));
    TotalAtMost(cfg.cols, BCounts(s), 2 * (cfg.groups * cfg.steps));
  }

  lemma OutputBound(cfg: Config, s: State)
    requires Shape(cfg, s) && ChannelsOk(cfg, s) && OutputsOk(cfg, s)
    ensures Total(cfg.cols, CCounts(s)) <= cfg.cols * cfg.groups
  {
    forall c | 0 <= c < cfg.cols ensures CCount(s, c) <= cfg.groups { OutputsBound(cfg, s, c); }
    TotalAtMost(cfg.cols, CCounts(s), cfg.groups);
  }

  lemma WorkTotal(cfg: Config, s: State)
    requires Sizes(cfg) && Matched(cfg) && Shape(cfg, s) && ChannelsOk(cfg, s) && CoresOk(cfg, s)
    ensures Total(cfg.rows, RowWorks(cfg, s)) <= AllWork(cfg)
  {
    var rowWork := cfg.cols * (cfg.groups * RoundCost(cfg) + 1 + cfg.groups);
    forall r | 0 <= r < cfg.rows ensures RowWork(cfg, s, r) <= rowWork { WorkBounds(cfg, s, r); }
    TotalAtMost(cfg.rows, RowWorks(cfg, s), rowWork);
  }

  lemma ProgressBound(cfg: Config, s: State)
    requires Sizes(cfg) && Matched(cfg) && StateOk(cfg, s)
    ensures Progress(cfg, s) <= Length(cfg)
  {
    InputBound(cfg, s);
    OutputBound(cfg, s);
    WorkTotal(cfg, s);
    AddFour(s.pc, Inputs(cfg, s), Total(cfg.cols, CCounts(s)), Total(cfg.rows, RowWorks(cfg, s)),
          |cfg.ops|, AllInputs(cfg), cfg.cols * cfg.groups, AllWork(cfg));
  }

  lemma AddFour(a: int, b: int, c: int, d: int, a': int, b': int, c': int, d': int)
    requires a <= a' && b <= b' && c <= c' && d <= d'
    ensures a + b + c + d <= a' + b' + c' + d'
  {}

  /** Safety over whole runs, with the step count. */
  lemma {:induction false} RunKeeps(cfg: Config, states: seq<State>, labels: seq<Label>, n: nat)
    requires Sane(cfg) && Run(cfg, states, labels) && n <= |labels|
    ensures Inv(cfg, states[n]) && Progress(cfg, states[n]) == n
  {
    if n == 0 {
      InitInv(cfg);
      InitCounts(cfg);
    } else {
      RunKeeps(cfg, states, labels, n - 1);
      StepKeeps(cfg, states[n - 1], labels[n - 1]);
      StepCounts(cfg, states[n - 1], labels[n - 1]);
    }
  }

  /**
   Deadlock freedom, termination and determinism: whatever the interleaving, a run has at most `Length` steps,
   and it can be extended unless it has reached the one final state, which it does after exactly `Length` steps.
   */
  lemma RunsEndInDone(cfg: Config, states: seq<State>, labels: seq<Label>)
    requires Wellformed(cfg) && Run(cfg, states, labels)
    ensures |labels| <= Length(cfg)
    ensures Stuck(cfg, states[|labels|]) <==> states[|labels|] == Done(cfg)
    ensures Stuck(cfg, states[|labels|]) <==> |labels| == Length(cfg)
  {
    var s := states[|labels|];
    RunKeeps(cfg, states, labels, |labels|);
    ProgressBound(cfg, s);
    DoneIsStuck(cfg);
    DoneCounts(cfg);
    if Stuck(cfg, s) {
      StuckIsDone(cfg, s);
    } else {
      var l :| Enabled(cfg, s, l);
      StepKeeps(cfg, s, l);
      StepCounts(cfg, s, l);
      ProgressBound(cfg, Next(cfg, s, l));
    }
  }

  /** There is a complete run. */
  lemma CompleteRun(cfg: Config) returns (states: seq<State>, labels: seq<Label>)
    requires Wellformed(cfg)
    ensures Run(cfg, states, labels) && Stuck(cfg, states[|labels|])
  {
    states, labels := RunCompletes(cfg, [Init(cfg)], []);
  }

  /** Every run can be driven to completion. */
  lemma {:induction false} RunCompletes(cfg: Config, before: seq<State>, past: seq<Label>)
    returns (states: seq<State>, labels: seq<Label>)
    requires Wellformed(cfg) && Run(cfg, before, past)
    ensures Run(cfg, states, labels) && Stuck(cfg, states[|labels|]) && before <= states && past <= labels
    decreases Length(cfg) - |past|
  {
    states, labels := before, past;
    if !Stuck(cfg, before[|past|]) {
      var l :| Enabled(cfg, before[|past|], l);
      RunKeeps(cfg, before, past, |past|);
      StepKeeps(cfg, before[|past|], l);
      var b, p := before + [Next(cfg, before[|past|], l)], past + [l];
      RunExtends(cfg, before, past, l);
      RunsEndInDone(cfg, b, p);
      states, labels := RunCompletes(cfg, b, p);
      Prefix(before, b, states);
      Prefix(past, p, labels);
    }
  }

  lemma Prefix<T>(a: seq<T>, b: seq<T>, c: seq<T>)
    requires a <= b <= c
    ensures a <= c
  {}

  lemma RunExtends(cfg: Config, states: seq<State>, labels: seq<Label>, l: Label)
    requires Run(cfg, states, labels) && Enabled(cfg, states[|labels|], l) && InRange(cfg, states[|labels|], l)
    ensures Run(cfg, states + [Next(cfg, states[|labels|], l)], labels + [l])
  {
    var ss, ls := states + [Next(cfg, states[|labels|], l)], labels + [l];
    forall n: nat | n < |ls|
      ensures Enabled(cfg, ss[n], ls[n]) && InRange(cfg, ss[n], ls[n]) && ss[n + 1] == Next(cfg, ss[n], ls[n])
    {
      if n < |labels| { assert ss[n] == states[n] && ss[n + 1] == states[n + 1] && ls[n] == labels[n]; }
    }
  }

  /**
   A supply that does not match the cores' demand cannot end well: with at least one group, a run that can go no
   further is complete exactly when the A objects delivered per group are the ones consumed.
   */
  lemma CompletesIffMatched(cfg: Config, states: seq<State>, labels: seq<Label>)
    requires Sane(cfg) && cfg.groups > 0 && Run(cfg, states, labels) && Stuck(cfg, states[|labels|])
    ensures states[|labels|] == Done(cfg) <==> Matched(cfg)
  {
    var s := states[|labels|];
    if Matched(cfg) {
      RunsEndInDone(cfg, states, labels);
    } else if s == Done(cfg) {
      RunKeeps(cfg, states, labels, |labels|);
      assert AOk(cfg, s.a[0]);
      SentInFull(cfg, s.a[0]);
    }
  }

  /** A channel that has delivered and streamed everything has streamed parts * chunks objects a group. */
  lemma SentInFull(cfg: Config, ch: AChannel)
    requires AOk(cfg, ch) && ch.l2 == [] && ch.shim == cfg.groups * cfg.parts && cfg.groups > 0
    requires ch.sent == cfg.groups * cfg.steps * cfg.inner
    ensures Matched(cfg)
  {
    SameMultiple(cfg.groups, cfg.parts, cfg.chunks, cfg.steps, cfg.inner);
  }

  lemma SameMultiple(g: nat, p: nat, c: nat, s: nat, i: nat)
    requires g > 0 && g * p * c == g * s * i
    ensures p * c == s * i
  {
    assert g * (p * c - s * i) == g * p * c - g * s * i;
    Multiple(p * c - s * i, g);
  }

  /** When the runtime frees an input task, the shim has delivered every object of that task: no buffer
      descriptor is taken away from a running transfer. */
  lemma FreedTasksAreFinished(cfg: Config, states: seq<State>, labels: seq<Label>, n: nat)
    requires Wellformed(cfg) && Run(cfg, states, labels) && n <= |labels| && states[n].pc < |cfg.ops|
    ensures Finished(cfg, states[n], cfg.ops[states[n].pc])
  {
    RunKeeps(cfg, states, labels, n);
    FreedTask(cfg, states[n]);
  }

  lemma FreedTask(cfg: Config, s: State)
    requires Matched(cfg) && Inv(cfg, s) && s.pc < |cfg.ops|
    ensures Finished(cfg, s, cfg.ops[s.pc])
  {
    var op := cfg.ops[s.pc];
    if op.FreeA? || op.FreeB? {
      FreedFirst(cfg, s);
      FreedInput(cfg, s, op);
    }
  }

  /** An input task is freed after the outputs that need it were awaited. */
  lemma FreedFirst(cfg: Config, s: State)
    requires Schedule(cfg.ops, cfg.rows, cfg.cols, cfg.groups) && cfg.cols > 0 && s.pc < |cfg.ops|
    ensures AwaitedInputs(cfg, s, cfg.ops[s.pc])
  {
    RuntimeInRange(cfg, s);
  }

  ghost predicate AwaitedInputs(cfg: Config, s: State, op: Op)
    requires s.pc <= |cfg.ops|
  {
    && (op.FreeA? ==> op.row < cfg.rows && AwaitC(op.group, 0) in cfg.ops[..s.pc])
    && (op.FreeB? ==> op.col < cfg.cols && AwaitC(op.group, op.col) in cfg.ops[..s.pc])
  }

  lemma FreedInput(cfg: Config, s: State, op: Op)
    requires Sizes(cfg) && Matched(cfg) && StateOk(cfg, s) && AwaitedInputs(cfg, s, op)
    ensures Finished(cfg, s, op)
  {
    if op.FreeA? {
      FreedCell(cfg, s, op.group, Pos(op.row, 0));
    } else if op.FreeB? {
      FreedCell(cfg, s, op.group, Pos(0, op.col));
    }
  }

  /** A call that frees an input task finds all of its objects delivered. */
  ghost predicate Finished(cfg: Config, s: State, op: Op) {
    && (op.FreeA? ==> op.row < |s.a| && s.a[op.row].shim >= (op.group + 1) * cfg.parts)
    && (op.FreeB? ==> op.col < |s.b| && s.b[op.col].shim >= (op.group + 1) * cfg.steps)
  }

  lemma AwaitedCell(cfg: Config, s: State, g: nat, p: Pos)
    requires Shape(cfg, s) && AwaitedOk(cfg, s) && p in s.cores && AwaitC(g, p.col) in cfg.ops[..s.pc]
    ensures |s.cores[p].out| > g
  {
    var x :| 0 <= x < s.pc && cfg.ops[..s.pc][x] == AwaitC(g, p.col);
    assert cfg.ops[x] == AwaitC(g, p.col);
  }

  /** A core whose tile g is in memory has consumed all of group g's input. */
  lemma FreedCell(cfg: Config, s: State, g: nat, p: Pos)
    requires Sizes(cfg) && Matched(cfg) && StateOk(cfg, s) && p in s.cores && AwaitC(g, p.col) in cfg.ops[..s.pc]
    ensures s.a[p.row].shim >= (g + 1) * cfg.parts && s.b[p.col].shim >= (g + 1) * cfg.steps
  {
    AwaitedCell(cfg, s, g, p);
    var k := s.cores[p];
    assert CoreOk(cfg, k, SentA(s.a[p.row]), SentB(s.b[p.col]));
    assert AOk(cfg, s.a[p.row]) && BOk(cfg, s.b[p.col]);
    assert k.round >= g + 1;
    ConsumedByRound(cfg, k, g + 1);
    Delivered(cfg, s.a[p.row], g + 1);
  }

  lemma ConsumedByRound(cfg: Config, k: Core, n: nat)
    requires k.round >= n
    ensures UsedB(cfg, k) >= n * cfg.steps && UsedA(cfg, k) >= n * (cfg.steps * cfg.inner)
  {
    MulMonotone(n, k.round, cfg.steps);
    MulMonotone(n * cfg.steps, UsedB(cfg, k), cfg.inner);
    assert n * cfg.steps * cfg.inner == n * (cfg.steps * cfg.inner);
  }

  lemma Delivered(cfg: Config, ch: AChannel, n: nat)
    requires AOk(cfg, ch) && Matched(cfg) && ch.sent >= n * (cfg.steps * cfg.inner)
    ensures ch.shim >= n * cfg.parts
  {
    NotBehind(n, cfg.parts, cfg.chunks, cfg.steps * cfg.inner, ch.shim - |ch.l2|, ch.part, ch.sent);
  }

  /** A channel that has streamed n groups' worth of L1 objects has delivered n groups' worth of L2 objects. */
  lemma NotBehind(n: nat, parts: nat, chunks: nat, perGroup: nat, delivered: nat, part: nat, sent: nat)
    requires part < chunks && parts * chunks == perGroup && sent == delivered * chunks + part && sent >= n * perGroup
    ensures delivered >= n * parts
  {
    assert (n * parts - delivered) * chunks == n * perGroup - delivered * chunks;
    Multiple(n * parts - delivered, chunks);
  }
}
