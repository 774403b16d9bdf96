/** What every step of the network keeps, in every interleaving. */
module GridInvariant {
  import opened Arith
  import opened Grid

  /** Position in the row's A stream of the next L1 object the mem tile will send. */
  function SentA(ch: AChannel): int { ch.sent }

  function SentB(ch: BChannel): int { ch.shim - |ch.l2| }

  function UsedB(cfg: Config, k: Core): int { k.round * cfg.steps + k.t }

  /** A objects a core has released so far. */
  function UsedA(cfg: Config, k: Core): int { UsedB(cfg, k) * cfg.inner + k.i }

  ghost predicate Consecutive(q: seq<nat>, from: int, to: int) {
    |q| == to - from && forall j :: 0 <= j < |q| ==> q[j] == from + j
  }

  ghost predicate AOk(cfg: Config, ch: AChannel) {
    && ch.started <= cfg.groups && ch.shim <= ch.started * cfg.parts
    && |ch.l2| <= 2 && |ch.l2| <= ch.shim && Consecutive(ch.l2, ch.shim - |ch.l2|, ch.shim)
    && ch.part < cfg.chunks && (ch.l2 == [] ==> ch.part == 0)
    && ch.sent == (ch.shim - |ch.l2|) * cfg.chunks + ch.part
  }

  ghost predicate BOk(cfg: Config, ch: BChannel) {
    && ch.started <= cfg.groups && ch.outputs <= cfg.groups && ch.shim <= ch.started * cfg.steps
    && |ch.l2| <= 2 && |ch.l2| <= ch.shim && Consecutive(ch.l2, ch.shim - |ch.l2|, ch.shim)
  }

  ghost predicate PcOk(cfg: Config, k: Core) {
    match k.pc
    case WantC => k.t == 0 && k.i == 0
    case WantB => k.t < cfg.steps && k.i == 0 && k.c1 == []
    case WantA => k.t < cfg.steps && k.i < cfg.inner && k.bq != [] && k.c1 == []
    case HasA => k.t < cfg.steps && k.i < cfg.inner && k.bq != [] && k.aq != [] && k.c1 == []
    case DoneB => k.t < cfg.steps && k.i == cfg.inner && k.bq != [] && k.c1 == []
    case DoneC => k.t == cfg.steps && k.i == 0 && k.c1 == []
  }

  /** Input slots hold the consecutive stream positions from the core's own progress up to what was sent. */
  ghost predicate InputsOk(cfg: Config, k: Core, sentA: int, sentB: int) {
    && |k.aq| <= 2 && Consecutive(k.aq, UsedA(cfg, k), sentA)
    && |k.bq| <= 2 && Consecutive(k.bq, UsedB(cfg, k), sentB)
  }

  /** All tiles a core has finished, oldest first, wherever they now are. */
  function Finished(k: Core): seq<Log> { k.out + k.cq + k.c1 }

  /** Tiles hold exactly the pairs of their rounds. */
  ghost predicate TilesOk(cfg: Config, k: Core)
    requires cfg.inner > 0
  {
    && |k.c1| <= 1 && |k.cq| <= 2
    && k.round == |Finished(k)|
    && (forall g: nat :: g < k.round ==> Finished(k)[g] == RoundLog(cfg, g))
    && k.acc == PartialLog(cfg, k.round, k.t * cfg.inner + k.i)
  }

  ghost predicate CoreOk(cfg: Config, k: Core, sentA: int, sentB: int)
    requires cfg.inner > 0
  {
    PcOk(cfg, k) && InputsOk(cfg, k, sentA, sentB) && TilesOk(cfg, k)
  }

  ghost predicate Shape(cfg: Config, s: State) {
    && s.pc <= |cfg.ops| && |s.a| == cfg.rows && |s.b| == cfg.cols
    && s.cores.Keys == Cells(cfg)
  }

  ghost predicate ChannelsOk(cfg: Config, s: State) {
    && (forall r: nat :: r < |s.a| ==> AOk(cfg, s.a[r]))
    && (forall c: nat :: c < |s.b| ==> BOk(cfg, s.b[c]))
  }

  ghost predicate CoresOk(cfg: Config, s: State)
    requires cfg.inner > 0 && Shape(cfg, s)
  {
    forall p :: p in s.cores ==> CoreOk(cfg, s.cores[p], SentA(s.a[p.row]), SentB(s.b[p.col]))
  }

  /** A column's tiles leave together, and only for started output tasks. */
  ghost predicate OutputsOk(cfg: Config, s: State)
    requires Shape(cfg, s)
  {
    && (forall p :: p in s.cores ==> |s.cores[p].out| <= s.b[p.col].outputs)
    && (forall p, q :: p in s.cores && q in s.cores && p.col == q.col ==> |s.cores[p].out| == |s.cores[q].out|)
  }

  /** Task counters are what the executed prefix of the runtime sequence started. */
  ghost predicate StartedOk(cfg: Config, s: State)
    requires Shape(cfg, s)
  {
    && (forall r: nat :: r < cfg.rows ==> s.a[r].started == StartedA(cfg.ops[..s.pc], r))
    && (forall c: nat :: c < cfg.cols ==> s.b[c].started == StartedB(cfg.ops[..s.pc], c))
    && (forall c: nat :: c < cfg.cols ==> s.b[c].outputs == StartedC(cfg.ops[..s.pc], c))
  }

  /** Every output the runtime has waited for is in memory. */
  ghost predicate AwaitedOk(cfg: Config, s: State)
    requires Shape(cfg, s)
  {
    forall x: nat, p :: x < s.pc && cfg.ops[x].AwaitC? && p in s.cores && p.col == cfg.ops[x].col
      ==> |s.cores[p].out| > cfg.ops[x].group
  }

  ghost predicate StateOk(cfg: Config, s: State)
    requires cfg.inner > 0
  {
    && Shape(cfg, s)
    && ChannelsOk(cfg, s) && CoresOk(cfg, s) && OutputsOk(cfg, s) && StartedOk(cfg, s) && AwaitedOk(cfg, s)
  }

  ghost predicate Inv(cfg: Config, s: State) { Sane(cfg) && StateOk(cfg, s) }

  /** The sizes a network's steps compute with. */
  predicate Sizes(cfg: Config) { cfg.rows > 0 && cfg.cols > 0 && cfg.steps > 0 && cfg.inner > 0 && cfg.chunks > 0 }

  lemma InitCores(cfg: Config)
    requires cfg.inner > 0
    ensures Shape(cfg, Init(cfg)) && CoresOk(cfg, Init(cfg)) && OutputsOk(cfg, Init(cfg))
  {
    var k := Core([], [], WantC, 0, 0, 0, [], [], [], []);
    assert PartialLog(cfg, 0, 0) == [];
    assert CoreOk(cfg, k, 0, 0);
    assert forall p :: p in Init(cfg).cores ==> Init(cfg).cores[p] == k;
  }

  lemma InitInv(cfg: Config)
    requires Sane(cfg)
    ensures Inv(cfg, Init(cfg))
  {
    InitCores(cfg);
    assert cfg.ops[..0] == [];
    assert StartedOk(cfg, Init(cfg));
  }

  // ---- the runtime sequence ----

  lemma StartedMore(ops: seq<Op>, op: Op)
    ensures forall r: nat :: StartedA(ops + [op], r) == StartedA(ops, r) + if op.StartA? && op.row == r then 1 else 0
    ensures forall c: nat :: StartedB(ops + [op], c) == StartedB(ops, c) + if op.StartB? && op.col == c then 1 else 0
    ensures forall c: nat :: StartedC(ops + [op], c) == StartedC(ops, c) + if op.StartC? && op.col == c then 1 else 0
  {
    assert (ops + [op])[..|ops + [op]| - 1] == ops;
  }

  lemma RuntimeInRange(cfg: Config, s: State)
    requires Schedule(cfg.ops, cfg.rows, cfg.cols, cfg.groups) && s.pc < |cfg.ops|
    ensures OpAllowed(cfg.ops[..s.pc], cfg.ops[s.pc], cfg.rows, cfg.cols, cfg.groups)
    ensures cfg.ops[..s.pc + 1] == cfg.ops[..s.pc] + [cfg.ops[s.pc]]
  {}

  lemma RuntimeStartedOk(cfg: Config, s: State)
    requires Shape(cfg, s) && StartedOk(cfg, s) && s.pc < |cfg.ops|
    requires Schedule(cfg.ops, cfg.rows, cfg.cols, cfg.groups)
    ensures var op := cfg.ops[s.pc];
      && (op.StartA? ==> op.row < |s.a| && s.a[op.row].started < cfg.groups)
      && (op.StartB? ==> op.col < |s.b| && s.b[op.col].started < cfg.groups)
      && (op.StartC? ==> op.col < |s.b| && s.b[op.col].outputs < cfg.groups)
    ensures Shape(cfg, RuntimeStep(s, cfg.ops[s.pc])) && StartedOk(cfg, RuntimeStep(s, cfg.ops[s.pc]))
  {
    RuntimeInRange(cfg, s);
    StartedMore(cfg.ops[..s.pc], cfg.ops[s.pc]);
  }

  lemma MoreTasks(n: nat, d: nat)
    ensures (n + 1) * d == n * d + d
  {}

  lemma RuntimeChannelsOk(cfg: Config, s: State, op: Op)
    requires ChannelsOk(cfg, s)
    requires op.StartA? ==> op.row < |s.a| && s.a[op.row].started < cfg.groups
    requires op.StartB? ==> op.col < |s.b| && s.b[op.col].started < cfg.groups
    requires op.StartC? ==> op.col < |s.b| && s.b[op.col].outputs < cfg.groups
    ensures ChannelsOk(cfg, RuntimeStep(s, op))
  {
    if op.StartA? { MoreTasks(s.a[op.row].started, cfg.parts); }
    if op.StartB? { MoreTasks(s.b[op.col].started, cfg.steps); }
  }

  /** Cores only see a channel through what it has sent. */
  lemma CoresFrame(cfg: Config, s: State, s': State)
    requires cfg.inner > 0 && Shape(cfg, s) && Shape(cfg, s') && CoresOk(cfg, s)
    requires s'.cores == s.cores
    requires forall r: nat :: r < cfg.rows ==> SentA(s'.a[r]) == SentA(s.a[r])
    requires forall c: nat :: c < cfg.cols ==> SentB(s'.b[c]) == SentB(s.b[c])
    ensures CoresOk(cfg, s')
  {
    forall p | p in s'.cores
      ensures CoreOk(cfg, s'.cores[p], SentA(s'.a[p.row]), SentB(s'.b[p.col]))
    {
      assert CoreOk(cfg, s.cores[p], SentA(s.a[p.row]), SentB(s.b[p.col]));
    }
  }

  lemma RuntimeAwaitedOk(cfg: Config, s: State)
    requires Shape(cfg, s) && AwaitedOk(cfg, s) && Enabled(cfg, s, Runtime)
    requires var op := cfg.ops[s.pc];
      (op.StartA? ==> op.row < |s.a|) && (op.StartB? || op.StartC? ==> op.col < |s.b|)
    ensures Shape(cfg, RuntimeStep(s, cfg.ops[s.pc])) && AwaitedOk(cfg, RuntimeStep(s, cfg.ops[s.pc]))
  {
    var s' := RuntimeStep(s, cfg.ops[s.pc]);
    assert s'.cores == s.cores && s'.pc == s.pc + 1;
    forall x: nat, p | x < s'.pc && cfg.ops[x].AwaitC? && p in s'.cores && p.col == cfg.ops[x].col
      ensures |s'.cores[p].out| > cfg.ops[x].group
    {}
  }

  lemma RuntimeCoresOk(cfg: Config, s: State, op: Op)
    requires cfg.inner > 0 && Shape(cfg, s) && CoresOk(cfg, s) && OutputsOk(cfg, s) && s.pc < |cfg.ops|
    requires (op.StartA? ==> op.row < |s.a|) && (op.StartB? || op.StartC? ==> op.col < |s.b|)
    ensures var s' := RuntimeStep(s, op); Shape(cfg, s') && CoresOk(cfg, s') && OutputsOk(cfg, s')
  {
    CoresFrame(cfg, s, RuntimeStep(s, op));
  }

  lemma RuntimeKeeps(cfg: Config, s: State)
    requires Inv(cfg, s) && Enabled(cfg, s, Runtime)
    ensures InRange(cfg, s, Runtime) && Inv(cfg, Next(cfg, s, Runtime))
  {
    RuntimeStartedOk(cfg, s);
    RuntimeChannelsOk(cfg, s, cfg.ops[s.pc]);
    RuntimeCoresOk(cfg, s, cfg.ops[s.pc]);
    RuntimeAwaitedOk(cfg, s);
  }

  // ---- shim and mem tile ----

  /** Only queues moved: task counters and awaited outputs are as before. */
  lemma TasksFrame(cfg: Config, s: State, s': State)
    requires Shape(cfg, s) && Shape(cfg, s') && StartedOk(cfg, s) && AwaitedOk(cfg, s) && s'.pc == s.pc
    requires forall r: nat :: r < cfg.rows ==> s'.a[r].started == s.a[r].started
    requires forall c: nat :: c < cfg.cols ==> s'.b[c].started == s.b[c].started && s'.b[c].outputs == s.b[c].outputs
    requires forall p :: p in s.cores ==> p in s'.cores && |s'.cores[p].out| >= |s.cores[p].out|
    ensures StartedOk(cfg, s') && AwaitedOk(cfg, s')
  {
    forall x: nat, p | x < s'.pc && cfg.ops[x].AwaitC? && p in s'.cores && p.col == cfg.ops[x].col
      ensures |s'.cores[p].out| > cfg.ops[x].group
    {
      assert p in s.cores;
    }
  }

  /** Tasks and memory are as they were. */
  ghost predicate SameOutside(cfg: Config, s: State, s': State)
    requires Shape(cfg, s) && Shape(cfg, s')
  {
    && s'.pc == s.pc
    && (forall r: nat :: r < cfg.rows ==> s'.a[r].started == s.a[r].started)
    && (forall c: nat :: c < cfg.cols ==> s'.b[c].started == s.b[c].started && s'.b[c].outputs == s.b[c].outputs)
    && (forall p :: p in s.cores ==> p in s'.cores && s'.cores[p].out == s.cores[p].out)
  }

  /** A step inside the network needs to be checked on channels and cores only. */
  lemma InsideKeeps(cfg: Config, s: State, s': State)
    requires cfg.inner > 0 && StateOk(cfg, s) && Shape(cfg, s') && ChannelsOk(cfg, s') && CoresOk(cfg, s')
    requires SameOutside(cfg, s, s')
    ensures StateOk(cfg, s')
  {
    OutputsFrame(cfg, s, s');
    TasksFrame(cfg, s, s');
  }

  lemma ShimAKeeps(cfg: Config, s: State, r: nat)
    requires Sizes(cfg) && StateOk(cfg, s) && Enabled(cfg, s, ShimA(r))
    ensures StateOk(cfg, Next(cfg, s, ShimA(r)))
  {
    var s' := Next(cfg, s, ShimA(r));
    CoresFrame(cfg, s, s');
    assert SameOutside(cfg, s, s');
    InsideKeeps(cfg, s, s');
  }

  lemma ShimBKeeps(cfg: Config, s: State, c: nat)
    requires Sizes(cfg) && StateOk(cfg, s) && Enabled(cfg, s, ShimB(c))
    ensures StateOk(cfg, Next(cfg, s, ShimB(c)))
  {
    var s' := Next(cfg, s, ShimB(c));
    assert SentB(s'.b[c]) == SentB(s.b[c]);
    CoresFrame(cfg, s, s');
    assert SameOutside(cfg, s, s');
    InsideKeeps(cfg, s, s');
  }

  lemma SentAMore(cfg: Config, ch: AChannel)
    requires AOk(cfg, ch) && ch.l2 != []
    ensures SentA(ch) == ch.l2[0] * cfg.chunks + ch.part
    ensures AOk(cfg, CastChannel(cfg, ch))
  {
    MoreTasks(ch.l2[0], cfg.chunks);
  }

  lemma ReceiveA(cfg: Config, k: Core, sentA: int, sentB: int)
    requires cfg.inner > 0 && CoreOk(cfg, k, sentA, sentB) && |k.aq| < 2 && sentA >= 0
    ensures CoreOk(cfg, k.(aq := k.aq + [sentA]), sentA + 1, sentB)
  {
    var k' := k.(aq := k.aq + [sentA]);
    assert UsedA(cfg, k') == UsedA(cfg, k) && UsedB(cfg, k') == UsedB(cfg, k);
    assert Finished(k') == Finished(k);
    assert TilesOk(cfg, k');
    assert InputsOk(cfg, k', sentA + 1, sentB);
  }

  lemma ReceiveB(cfg: Config, k: Core, sentA: int, sentB: int)
    requires cfg.inner > 0 && CoreOk(cfg, k, sentA, sentB) && |k.bq| < 2 && sentB >= 0
    ensures CoreOk(cfg, k.(bq := k.bq + [sentB]), sentA, sentB + 1)
  {
    var k' := k.(bq := k.bq + [sentB]);
    assert UsedA(cfg, k') == UsedA(cfg, k) && UsedB(cfg, k') == UsedB(cfg, k);
    assert Finished(k') == Finished(k);
    assert TilesOk(cfg, k');
    assert InputsOk(cfg, k', sentA, sentB + 1);
  }

  lemma CastAChannels(cfg: Config, s: State, r: nat)
    requires cfg.inner > 0 && Shape(cfg, s) && ChannelsOk(cfg, s) && r < |s.a| && s.a[r].l2 != []
    ensures var s' := CastAStep(cfg, s, r);
      && Shape(cfg, s') && ChannelsOk(cfg, s') && s'.b == s.b && SentA(s'.a[r]) == SentA(s.a[r]) + 1
      && (forall r': nat :: r' < cfg.rows && r' != r ==> s'.a[r'] == s.a[r'])
      && s'.a[r].started == s.a[r].started && SentA(s.a[r]) == s.a[r].l2[0] * cfg.chunks + s.a[r].part
  {
    SentAMore(cfg, s.a[r]);
    assert CastAStep(cfg, s, r).cores.Keys == s.cores.Keys;
  }

  lemma CastACore(cfg: Config, s: State, r: nat, p: Pos)
    requires cfg.inner > 0 && Shape(cfg, s) && CoresOk(cfg, s) && p in s.cores
    requires r < |s.a| && s.a[r].l2 != [] && (p.row == r ==> |s.cores[p].aq| < 2)
    requires s.a[r].sent == s.a[r].l2[0] * cfg.chunks + s.a[r].part
    ensures var s' := CastAStep(cfg, s, r); CoreOk(cfg, s'.cores[p], SentA(s'.a[p.row]), SentB(s'.b[p.col]))
  {
    var k := s.cores[p];
    assert CoreOk(cfg, k, SentA(s.a[p.row]), SentB(s.b[p.col]));
    if p.row == r {
      ReceiveA(cfg, k, SentA(s.a[p.row]), SentB(s.b[p.col]));
      assert CastAStep(cfg, s, r).cores[p] == k.(aq := k.aq + [s.a[r].sent]);
    } else {
      assert CastAStep(cfg, s, r).cores[p] == k;
    }
  }

  lemma CastACores(cfg: Config, s: State, r: nat)
    requires cfg.inner > 0 && Shape(cfg, s) && ChannelsOk(cfg, s) && CoresOk(cfg, s)
    requires r < |s.a| && s.a[r].l2 != [] && forall p :: p in s.cores && p.row == r ==> |s.cores[p].aq| < 2
    ensures var s' := CastAStep(cfg, s, r); Shape(cfg, s') && CoresOk(cfg, s')
  {
    CastAChannels(cfg, s, r);
    forall p | p in s.cores { CastACore(cfg, s, r, p); }
  }

  lemma CastAOutside(cfg: Config, s: State, r: nat)
    requires Shape(cfg, s) && r < |s.a| && s.a[r].l2 != [] && Shape(cfg, CastAStep(cfg, s, r))
    ensures SameOutside(cfg, s, CastAStep(cfg, s, r))
  {}

  lemma CastAKeeps(cfg: Config, s: State, r: nat)
    requires Sizes(cfg) && StateOk(cfg, s) && Enabled(cfg, s, CastA(r))
    ensures StateOk(cfg, Next(cfg, s, CastA(r)))
  {
    CastAChannels(cfg, s, r);
    CastACores(cfg, s, r);
    CastAOutside(cfg, s, r);
    InsideKeeps(cfg, s, CastAStep(cfg, s, r));
  }

  lemma CastBChannels(cfg: Config, s: State, c: nat)
    requires Shape(cfg, s) && ChannelsOk(cfg, s) && c < |s.b| && s.b[c].l2 != []
    ensures var s' := CastBStep(s, c);
      && Shape(cfg, s') && ChannelsOk(cfg, s') && s'.a == s.a && SentB(s'.b[c]) == SentB(s.b[c]) + 1
      && SentB(s.b[c]) == s.b[c].l2[0]
  {
    assert CastBStep(s, c).cores.Keys == s.cores.Keys;
  }

  lemma CastBCore(cfg: Config, s: State, c: nat, p: Pos)
    requires cfg.inner > 0 && Shape(cfg, s) && ChannelsOk(cfg, s) && CoresOk(cfg, s) && p in s.cores
    requires c < |s.b| && s.b[c].l2 != [] && (p.col == c ==> |s.cores[p].bq| < 2)
    ensures var s' := CastBStep(s, c); CoreOk(cfg, s'.cores[p], SentA(s'.a[p.row]), SentB(s'.b[p.col]))
  {
    CastBChannels(cfg, s, c);
    assert CoreOk(cfg, s.cores[p], SentA(s.a[p.row]), SentB(s.b[p.col]));
    if p.col == c { ReceiveB(cfg, s.cores[p], SentA(s.a[p.row]), SentB(s.b[c])); }
  }

  lemma CastBCores(cfg: Config, s: State, c: nat)
    requires cfg.inner > 0 && Shape(cfg, s) && ChannelsOk(cfg, s) && CoresOk(cfg, s)
    requires c < |s.b| && s.b[c].l2 != [] && forall p :: p in s.cores && p.col == c ==> |s.cores[p].bq| < 2
    ensures var s' := CastBStep(s, c); Shape(cfg, s') && CoresOk(cfg, s')
  {
    CastBChannels(cfg, s, c);
    forall p | p in s.cores { CastBCore(cfg, s, c, p); }
  }

  /** No tile was written and no output task appeared or vanished. */
  lemma OutputsFrame(cfg: Config, s: State, s': State)
    requires Shape(cfg, s) && Shape(cfg, s') && OutputsOk(cfg, s)
    requires forall c: nat :: c < cfg.cols ==> s'.b[c].outputs == s.b[c].outputs
    requires forall p :: p in s.cores ==> p in s'.cores && s'.cores[p].out == s.cores[p].out
    ensures OutputsOk(cfg, s')
  {
    forall p | p in s'.cores ensures |s'.cores[p].out| <= s'.b[p.col].outputs { assert p in s.cores; }
    forall p, q | p in s'.cores && q in s'.cores && p.col == q.col
      ensures |s'.cores[p].out| == |s'.cores[q].out|
    {
      assert p in s.cores && q in s.cores;
    }
  }

  lemma CastBOutside(cfg: Config, s: State, c: nat)
    requires Shape(cfg, s) && c < |s.b| && s.b[c].l2 != [] && Shape(cfg, CastBStep(s, c))
    ensures SameOutside(cfg, s, CastBStep(s, c))
  {}

  lemma CastBKeeps(cfg: Config, s: State, c: nat)
    requires Sizes(cfg) && StateOk(cfg, s) && Enabled(cfg, s, CastB(c))
    ensures StateOk(cfg, Next(cfg, s, CastB(c)))
  {
    CastBChannels(cfg, s, c);
    CastBCores(cfg, s, c);
    CastBOutside(cfg, s, c);
    InsideKeeps(cfg, s, CastBStep(s, c));
  }

  // ---- cores ----

  /** The next pair multiplied is the next pair of the round. */
  lemma LogMore(cfg: Config, k: Core)
    requires cfg.inner > 0 && k.i < cfg.inner
    ensures PartialLog(cfg, k.round, k.t * cfg.inner + k.i) + [(UsedA(cfg, k), UsedB(cfg, k))]
         == PartialLog(cfg, k.round, k.t * cfg.inner + k.i + 1)
  {
    DivMod(k.t, k.i, cfg.inner);
    assert (k.round * cfg.steps + k.t) * cfg.inner == k.round * cfg.steps * cfg.inner + k.t * cfg.inner;
  }

  lemma HasAKeeps(cfg: Config, k: Core, sentA: int, sentB: int)
    requires cfg.inner > 0 && CoreOk(cfg, k, sentA, sentB) && k.pc == HasA
    ensures CoreOk(cfg, CoreStep(cfg, k), sentA, sentB)
  {
    var k' := CoreStep(cfg, k);
    LogMore(cfg, k);
    assert UsedA(cfg, k') == UsedA(cfg, k) + 1 && UsedB(cfg, k') == UsedB(cfg, k);
    assert Finished(k') == Finished(k);
    assert TilesOk(cfg, k');
    assert InputsOk(cfg, k', sentA, sentB);
  }

  lemma DoneBKeeps(cfg: Config, k: Core, sentA: int, sentB: int)
    requires cfg.inner > 0 && CoreOk(cfg, k, sentA, sentB) && k.pc == DoneB
    ensures CoreOk(cfg, CoreStep(cfg, k), sentA, sentB)
  {
    var k' := CoreStep(cfg, k);
    MoreTasks(k.t, cfg.inner);
    MoreTasks(UsedB(cfg, k), cfg.inner);
    assert UsedA(cfg, k') == UsedA(cfg, k) && UsedB(cfg, k') == UsedB(cfg, k) + 1;
    assert Finished(k') == Finished(k);
    assert TilesOk(cfg, k');
    assert InputsOk(cfg, k', sentA, sentB);
  }

  lemma DoneCKeeps(cfg: Config, k: Core, sentA: int, sentB: int)
    requires cfg.inner > 0 && CoreOk(cfg, k, sentA, sentB) && k.pc == DoneC
    ensures CoreOk(cfg, CoreStep(cfg, k), sentA, sentB)
  {
    var k' := CoreStep(cfg, k);
    MoreTasks(k.round, cfg.steps);
    assert UsedB(cfg, k') == UsedB(cfg, k);
    assert Finished(k') == Finished(k) + [k.acc];
    assert k'.acc == PartialLog(cfg, k'.round, 0);
    assert TilesOk(cfg, k');
    assert InputsOk(cfg, k', sentA, sentB);
  }

  lemma WaitsKeep(cfg: Config, k: Core, sentA: int, sentB: int)
    requires cfg.inner > 0 && cfg.steps > 0 && CoreOk(cfg, k, sentA, sentB) && CoreReady(k)
    requires k.pc in {WantC, WantB, WantA}
    ensures CoreOk(cfg, CoreStep(cfg, k), sentA, sentB)
  {
    var k' := CoreStep(cfg, k);
    assert k'.acc == k.acc;
    assert UsedB(cfg, k') == UsedB(cfg, k) && UsedA(cfg, k') == UsedA(cfg, k);
    assert Finished(k') == Finished(k);
    assert TilesOk(cfg, k');
    assert InputsOk(cfg, k', sentA, sentB);
  }

  lemma CoreStepKeeps(cfg: Config, k: Core, sentA: int, sentB: int)
    requires cfg.inner > 0 && cfg.steps > 0 && CoreOk(cfg, k, sentA, sentB) && CoreReady(k)
    ensures CoreOk(cfg, CoreStep(cfg, k), sentA, sentB)
  {
    match k.pc
    case WantC => WaitsKeep(cfg, k, sentA, sentB);
    case WantB => WaitsKeep(cfg, k, sentA, sentB);
    case WantA => WaitsKeep(cfg, k, sentA, sentB);
    case HasA => HasAKeeps(cfg, k, sentA, sentB);
    case DoneB => DoneBKeeps(cfg, k, sentA, sentB);
    case DoneC => DoneCKeeps(cfg, k, sentA, sentB);
  }

  /** Replacing one core by an acceptable one with as many written tiles. */
  lemma ReplaceCore(cfg: Config, s: State, p: Pos, k: Core)
    requires cfg.inner > 0 && Shape(cfg, s) && CoresOk(cfg, s) && p in s.cores
    requires CoreOk(cfg, k, SentA(s.a[p.row]), SentB(s.b[p.col])) && k.out == s.cores[p].out
    ensures var s' := s.(cores := s.cores[p := k]); Shape(cfg, s') && CoresOk(cfg, s')
  {
    var s' := s.(cores := s.cores[p := k]);
    assert s'.cores.Keys == s.cores.Keys;
    forall q | q in s'.cores
      ensures CoreOk(cfg, s'.cores[q], SentA(s'.a[q.row]), SentB(s'.b[q.col]))
    {
      assert q == p || s'.cores[q] == s.cores[q];
    }
  }

  lemma ComputeCores(cfg: Config, s: State, p: Pos)
    requires cfg.inner > 0 && cfg.steps > 0 && Shape(cfg, s) && CoresOk(cfg, s)
    requires p in s.cores && CoreReady(s.cores[p])
    ensures var s' := s.(cores := s.cores[p := CoreStep(cfg, s.cores[p])]); Shape(cfg, s') && CoresOk(cfg, s')
  {
    var k := s.cores[p];
    assert CoreOk(cfg, k, SentA(s.a[p.row]), SentB(s.b[p.col]));
    CoreStepKeeps(cfg, k, SentA(s.a[p.row]), SentB(s.b[p.col]));
    ReplaceCore(cfg, s, p, CoreStep(cfg, k));
  }

  /** A step that only rearranges cores, writing nothing to memory. */
  lemma OnlyCores(cfg: Config, s: State, cores: map<Pos, Core>)
    requires Sizes(cfg) && StateOk(cfg, s) && Shape(cfg, s.(cores := cores)) && CoresOk(cfg, s.(cores := cores))
    requires forall p :: p in s.cores ==> cores[p].out == s.cores[p].out
    ensures StateOk(cfg, s.(cores := cores))
  {
    InsideKeeps(cfg, s, s.(cores := cores));
  }

  lemma ComputeKeeps(cfg: Config, s: State, p: Pos)
    requires Sizes(cfg) && StateOk(cfg, s) && Enabled(cfg, s, Compute(p))
    ensures StateOk(cfg, Next(cfg, s, Compute(p)))
  {
    ComputeCores(cfg, s, p);
    var k' := CoreStep(cfg, s.cores[p]);
    assert k'.out == s.cores[p].out;
    OnlyCores(cfg, s, s.cores[p := k']);
  }

  // ---- outputs ----

  lemma MoveTile(cfg: Config, k: Core, k': Core, sentA: int, sentB: int)
    requires cfg.inner > 0 && CoreOk(cfg, k, sentA, sentB)
    requires |k'.c1| <= |k.c1| && |k'.cq| <= 2 && Finished(k') == Finished(k)
    requires k'.(c1 := k.c1, cq := k.cq, out := k.out) == k
    ensures CoreOk(cfg, k', sentA, sentB)
  {
    assert UsedB(cfg, k') == UsedB(cfg, k) && UsedA(cfg, k') == UsedA(cfg, k);
    assert PcOk(cfg, k');
    assert TilesOk(cfg, k');
    assert InputsOk(cfg, k', sentA, sentB);
  }

  lemma GatherCores(cfg: Config, s: State, p: Pos)
    requires cfg.inner > 0 && Shape(cfg, s) && CoresOk(cfg, s) && p in s.cores && |s.cores[p].cq| < 2
    ensures var k := s.cores[p];
            var s' := s.(cores := s.cores[p := k.(cq := k.cq + k.c1, c1 := [])]); Shape(cfg, s') && CoresOk(cfg, s')
  {
    var k := s.cores[p];
    assert CoreOk(cfg, k, SentA(s.a[p.row]), SentB(s.b[p.col]));
    GatherCore(cfg, k, SentA(s.a[p.row]), SentB(s.b[p.col]));
    ReplaceCore(cfg, s, p, k.(cq := k.cq + k.c1, c1 := []));
  }

  lemma GatherKeeps(cfg: Config, s: State, p: Pos)
    requires Sizes(cfg) && StateOk(cfg, s) && Enabled(cfg, s, Gather(p))
    ensures StateOk(cfg, Next(cfg, s, Gather(p)))
  {
    GatherCores(cfg, s, p);
    var k := s.cores[p];
    var k' := k.(cq := k.cq + k.c1, c1 := []);
    assert k'.out == k.out;
    OnlyCores(cfg, s, s.cores[p := k']);
  }

  lemma GatherCore(cfg: Config, k: Core, sentA: int, sentB: int)
    requires cfg.inner > 0 && CoreOk(cfg, k, sentA, sentB) && |k.cq| < 2
    ensures CoreOk(cfg, k.(cq := k.cq + k.c1, c1 := []), sentA, sentB)
  {
    var k' := k.(cq := k.cq + k.c1, c1 := []);
    assert Finished(k') == Finished(k);
    MoveTile(cfg, k, k', sentA, sentB);
  }

  lemma DrainCore(cfg: Config, s: State, c: nat, p: Pos)
    requires cfg.inner > 0 && Shape(cfg, s) && CoresOk(cfg, s) && p in s.cores
    requires forall p :: p in s.cores && p.col == c ==> s.cores[p].cq != []
    ensures var s' := DrainStep(s, c); CoreOk(cfg, s'.cores[p], SentA(s'.a[p.row]), SentB(s'.b[p.col]))
  {
    var k := s.cores[p];
    assert CoreOk(cfg, k, SentA(s.a[p.row]), SentB(s.b[p.col]));
    if p.col == c {
      var k' := k.(cq := k.cq[1..], out := k.out + [k.cq[0]]);
      assert Finished(k') == Finished(k);
      MoveTile(cfg, k, k', SentA(s.a[p.row]), SentB(s.b[p.col]));
      assert DrainStep(s, c).cores[p] == k';
    } else {
      assert DrainStep(s, c).cores[p] == k;
    }
  }

  lemma DrainCores(cfg: Config, s: State, c: nat)
    requires cfg.inner > 0 && Shape(cfg, s) && CoresOk(cfg, s) && c < |s.b|
    requires forall p :: p in s.cores && p.col == c ==> s.cores[p].cq != []
    ensures var s' := DrainStep(s, c); Shape(cfg, s') && CoresOk(cfg, s')
  {
    var s' := DrainStep(s, c);
    assert s'.cores.Keys == s.cores.Keys;
    forall p | p in s.cores { DrainCore(cfg, s, c, p); }
  }

  lemma DrainOutputs(cfg: Config, s: State, c: nat)
    requires Shape(cfg, s) && OutputsOk(cfg, s) && c < |s.b|
    requires forall p :: p in s.cores && p.col == c ==> s.cores[p].cq != [] && |s.cores[p].out| < s.b[c].outputs
    requires Shape(cfg, DrainStep(s, c))
    ensures OutputsOk(cfg, DrainStep(s, c))
  {
    var s' := DrainStep(s, c);
    forall p | p in s'.cores
      ensures |s'.cores[p].out| == |s.cores[p].out| + if p.col == c then 1 else 0
    {}
  }

  lemma DrainKeeps(cfg: Config, s: State, c: nat)
    requires Sizes(cfg) && StateOk(cfg, s) && Enabled(cfg, s, Drain(c))
    ensures StateOk(cfg, Next(cfg, s, Drain(c)))
  {
    DrainCores(cfg, s, c);
    DrainOutputs(cfg, s, c);
    TasksFrame(cfg, s, DrainStep(s, c));
  }

  /** Every step of every component keeps the invariant. */
  lemma StepKeeps(cfg: Config, s: State, l: Label)
    requires Inv(cfg, s) && Enabled(cfg, s, l)
    ensures InRange(cfg, s, l) && Inv(cfg, Next(cfg, s, l))
  {
    match l
    case Runtime => RuntimeKeeps(cfg, s);
    case ShimA(r) => ShimAKeeps(cfg, s, r);
    case CastA(r) => CastAKeeps(cfg, s, r);
    case ShimB(c) => ShimBKeeps(cfg, s, c);
    case CastB(c) => CastBKeeps(cfg, s, c);
    case Compute(p) => ComputeKeeps(cfg, s, p);
    case Gather(p) => GatherKeeps(cfg, s, p);
    case Drain(c) => DrainKeeps(cfg, s, c);
  }
}
