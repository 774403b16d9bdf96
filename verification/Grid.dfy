/**
 The dataflow network both int8 generators declare, as a step system over a grid of cores.

 Row r has an A channel: shim -> mem tile FIFO of two L2 objects -> broadcast to every core of the row.
 Column c has a B channel of the same kind, and a C channel gathering one tile from each core of the column.
 Every core owns two slots for A objects, two for B objects and one C slot; the mem tile holds two C objects.
 The host's runtime sequence starts, awaits and frees shim DMA tasks.

 A FIFO object is identified by its position in its channel's stream, and queues hold those positions, so
 order and broadcast are properties to prove, not assumptions. A C tile is the list of (A object, B object)
 pairs multiplied into it since it was zeroed.
 */
module Grid {

  /** One call the runtime sequence makes on a shim DMA task, named by group and channel. */
  datatype Op =
    | StartA(group: nat, row: nat)
    | StartB(group: nat, col: nat)
    | StartC(group: nat, col: nat)
    | AwaitC(group: nat, col: nat)
    | FreeA(group: nat, row: nat)
    | FreeB(group: nat, col: nat)

  /** How many A, B or C tasks of one channel a run of calls has started. */
  function StartedA(ops: seq<Op>, row: nat): nat {
    if ops == [] then 0
    else StartedA(ops[..|ops| - 1], row) + if ops[|ops| - 1].StartA? && ops[|ops| - 1].row == row then 1 else 0
  }

  function StartedB(ops: seq<Op>, col: nat): nat {
    if ops == [] then 0
    else StartedB(ops[..|ops| - 1], col) + if ops[|ops| - 1].StartB? && ops[|ops| - 1].col == col then 1 else 0
  }

  function StartedC(ops: seq<Op>, col: nat): nat {
    if ops == [] then 0
    else StartedC(ops[..|ops| - 1], col) + if ops[|ops| - 1].StartC? && ops[|ops| - 1].col == col then 1 else 0
  }

  /** Every channel of the grid has had exactly n tasks started. */
  ghost predicate Level(ops: seq<Op>, rows: nat, cols: nat, n: nat) {
    && (forall r: nat :: r < rows ==> StartedA(ops, r) == n)
    && (forall c: nat :: c < cols ==> StartedB(ops, c) == n)
    && (forall c: nat :: c < cols ==> StartedC(ops, c) == n)
  }

  ghost predicate OpAllowed(before: seq<Op>, op: Op, rows: nat, cols: nat, groups: nat) {
    match op
    case StartA(g, r) => r < rows && g == StartedA(before, r) && g < groups
    case StartB(g, c) => c < cols && g == StartedB(before, c) && g < groups
    case StartC(g, c) => c < cols && g == StartedC(before, c) && g < groups
    case AwaitC(g, c) => c < cols && exists n: nat :: g < n && Level(before, rows, cols, n)
    case FreeA(g, r) => r < rows && g < groups && forall c: nat :: c < cols ==> AwaitC(g, c) in before
    case FreeB(g, c') => c' < cols && g < groups && forall c: nat :: c < cols ==> AwaitC(g, c) in before
  }

  /**
   A runtime sequence the network can serve: each channel's tasks start in group order, outputs are awaited
   only between whole groups and after their own start, inputs are freed only after their outputs were
   awaited, and every channel gets `groups` tasks in all.
   */
  ghost predicate Schedule(ops: seq<Op>, rows: nat, cols: nat, groups: nat) {
    && Level(ops, rows, cols, groups)
    && forall x: nat :: x < |ops| ==> OpAllowed(ops[..x], ops[x], rows, cols, groups)
  }

  /**
   steps: K / k, B objects per output tile.            inner: A objects multiplied with each B object.
   chunks: L1 A objects cut from one L2 A object.      parts: K / mtk, L2 A objects one A task delivers.
   */
  datatype Config = Config(rows: nat, cols: nat, groups: nat, steps: nat, inner: nat, chunks: nat, parts: nat,
                           ops: seq<Op>)

  ghost predicate Sane(cfg: Config) {
    && cfg.rows > 0 && cfg.cols > 0 && cfg.steps > 0 && cfg.inner > 0 && cfg.chunks > 0
    && Schedule(cfg.ops, cfg.rows, cfg.cols, cfg.groups)
  }

  /** What the A tasks of a group deliver is what the cores consume for it. */
  predicate Matched(cfg: Config) { cfg.parts * cfg.chunks == cfg.steps * cfg.inner }

  ghost predicate Wellformed(cfg: Config) { Sane(cfg) && Matched(cfg) }

  type Log = seq<(int, int)>

  datatype Pos = Pos(row: nat, col: nat)

  /** An A channel: started tasks, L2 objects delivered by the shim, the mem tile FIFO, how many L1
      objects the mem tile has already streamed out of the FIFO's head, and how many it has streamed in all. */
  datatype AChannel = AChannel(started: nat, shim: nat, l2: seq<nat>, part: nat, sent: nat)

  /** A B channel, plus the number of C tasks started on the same column. */
  datatype BChannel = BChannel(started: nat, shim: nat, l2: seq<nat>, outputs: nat)

  /** Where a core is in its acquire / multiply / release program. */
  datatype Pc = WantC | WantB | WantA | HasA | DoneB | DoneC

  /**
   aq, bq: objects in the core's A and B slots (an acquired object keeps its slot until released).
   acc: the C tile being computed.  c1: the tile waiting in the core's C slot.
   cq: this core's tiles inside the mem tile's C objects.  out: its tiles written to memory.
   */
  datatype Core = Core(aq: seq<nat>, bq: seq<nat>, pc: Pc, round: nat, t: nat, i: nat, acc: Log,
                       c1: seq<Log>, cq: seq<Log>, out: seq<Log>)

  datatype State = State(pc: nat, a: seq<AChannel>, b: seq<BChannel>, cores: map<Pos, Core>)

  datatype Label =
    | Runtime
    | ShimA(r: nat) | CastA(r: nat)
    | ShimB(c: nat) | CastB(c: nat)
    | Compute(p: Pos) | Gather(p: Pos)
    | Drain(c: nat)

  function Cells(cfg: Config): set<Pos> {
    set r, c | 0 <= r < cfg.rows && 0 <= c < cfg.cols :: Pos(r, c)
  }

  function Init(cfg: Config): State {
    State(0,
          seq(cfg.rows, r => AChannel(0, 0, [], 0, 0)),
          seq(cfg.cols, c => BChannel(0, 0, [], 0)),
          map p | p in Cells(cfg) :: Core([], [], WantC, 0, 0, 0, [], [], [], []))
  }

  function CoreReady(core: Core): bool {
    match core.pc
    case WantC => core.c1 == []
    case WantB => core.bq != []
    case WantA => core.aq != []
    case HasA => core.aq != [] && core.bq != []
    case DoneB => core.bq != []
    case DoneC => core.c1 == []
  }

  ghost predicate Enabled(cfg: Config, s: State, l: Label) {
    match l
    case Runtime =>
      && s.pc < |cfg.ops|
      && (cfg.ops[s.pc].AwaitC? ==>
            forall p :: p in s.cores && p.col == cfg.ops[s.pc].col ==> |s.cores[p].out| > cfg.ops[s.pc].group)
    case ShimA(r) => r < |s.a| && s.a[r].shim < s.a[r].started * cfg.parts && |s.a[r].l2| < 2
    case CastA(r) =>
      r < |s.a| && s.a[r].l2 != [] && forall p :: p in s.cores && p.row == r ==> |s.cores[p].aq| < 2
    case ShimB(c) => c < |s.b| && s.b[c].shim < s.b[c].started * cfg.steps && |s.b[c].l2| < 2
    case CastB(c) =>
      c < |s.b| && s.b[c].l2 != [] && forall p :: p in s.cores && p.col == c ==> |s.cores[p].bq| < 2
    case Compute(p) => p in s.cores && CoreReady(s.cores[p])
    case Gather(p) => p in s.cores && s.cores[p].c1 != [] && |s.cores[p].cq| < 2
    case Drain(c) =>
      && c < |s.b|
      && forall p :: p in s.cores && p.col == c ==> s.cores[p].cq != [] && |s.cores[p].out| < s.b[c].outputs
  }

  /** One instruction of the core program. */
  function CoreStep(cfg: Config, core: Core): Core
    requires CoreReady(core)
  {
    match core.pc
    case WantC => core.(acc := [], pc := WantB)
    case WantB => core.(i := 0, pc := WantA)
    case WantA => core.(pc := HasA)
    case HasA =>
      core.(acc := core.acc + [(core.aq[0], core.bq[0])], aq := core.aq[1..], i := core.i + 1,
            pc := if core.i + 1 < cfg.inner then WantA else DoneB)
    case DoneB =>
      core.(bq := core.bq[1..], t := core.t + 1, i := 0, pc := if core.t + 1 < cfg.steps then WantB else DoneC)
    case DoneC => core.(c1 := [core.acc], acc := [], round := core.round + 1, t := 0, pc := WantC)
  }

  function RuntimeStep(s: State, op: Op): State
    requires op.StartA? ==> op.row < |s.a|
    requires op.StartB? || op.StartC? ==> op.col < |s.b|
  {
    var s' := s.(pc := s.pc + 1);
    match op
    case StartA(_, r) => s'.(a := s.a[r := s.a[r].(started := s.a[r].started + 1)])
    case StartB(_, c) => s'.(b := s.b[c := s.b[c].(started := s.b[c].started + 1)])
    case StartC(_, c) => s'.(b := s.b[c := s.b[c].(outputs := s.b[c].outputs + 1)])
    case AwaitC(_, _) => s'
    case FreeA(_, _) => s'
    case FreeB(_, _) => s'
  }

  /** The channel once the head L2 object has streamed one more L1 object; a fully streamed object is freed. */
  function CastChannel(cfg: Config, ch: AChannel): AChannel
    requires ch.l2 != []
  {
    if ch.part + 1 < cfg.chunks then ch.(part := ch.part + 1, sent := ch.sent + 1)
    else ch.(l2 := ch.l2[1..], part := 0, sent := ch.sent + 1)
  }

  /** The mem tile hands one L1 object to all cores of the row at once. */
  function CastAStep(cfg: Config, s: State, r: nat): State
    requires r < |s.a| && s.a[r].l2 != []
  {
    var ch := s.a[r];
    var item := ch.l2[0] * cfg.chunks + ch.part;
    s.(a := s.a[r := CastChannel(cfg, ch)],
       cores := map p | p in s.cores ::
         if p.row == r then s.cores[p].(aq := s.cores[p].aq + [item]) else s.cores[p])
  }

  function CastBStep(s: State, c: nat): State
    requires c < |s.b| && s.b[c].l2 != []
  {
    var ch := s.b[c];
    s.(b := s.b[c := ch.(l2 := ch.l2[1..])],
       cores := map p | p in s.cores ::
         if p.col == c then s.cores[p].(bq := s.cores[p].bq + [ch.l2[0]]) else s.cores[p])
  }

  /** The shim writes one gathered C object: the head tile of every core of the column. */
  function DrainStep(s: State, c: nat): State
    requires forall p :: p in s.cores && p.col == c ==> s.cores[p].cq != []
  {
    s.(cores := map p | p in s.cores ::
         var k := s.cores[p];
         if p.col == c then k.(cq := k.cq[1..], out := k.out + [k.cq[0]]) else k)
  }

  /** A task call names a channel of the grid; GridInvariant.StepKeeps shows it always does. */
  ghost predicate InRange(cfg: Config, s: State, l: Label) {
    l.Runtime? && s.pc < |cfg.ops| ==>
      && (cfg.ops[s.pc].StartA? ==> cfg.ops[s.pc].row < |s.a|)
      && (cfg.ops[s.pc].StartB? || cfg.ops[s.pc].StartC? ==> cfg.ops[s.pc].col < |s.b|)
  }

  ghost function Next(cfg: Config, s: State, l: Label): State
    requires Enabled(cfg, s, l) && InRange(cfg, s, l)
  {
    match l
    case Runtime => RuntimeStep(s, cfg.ops[s.pc])
    case ShimA(r) => s.(a := s.a[r := s.a[r].(l2 := s.a[r].l2 + [s.a[r].shim], shim := s.a[r].shim + 1)])
    case CastA(r) => CastAStep(cfg, s, r)
    case ShimB(c) => s.(b := s.b[c := s.b[c].(l2 := s.b[c].l2 + [s.b[c].shim], shim := s.b[c].shim + 1)])
    case CastB(c) => CastBStep(s, c)
    case Compute(p) => s.(cores := s.cores[p := CoreStep(cfg, s.cores[p])])
    case Gather(p) =>
      var k := s.cores[p];
      s.(cores := s.cores[p := k.(cq := k.cq + k.c1, c1 := [])])
    case Drain(c) => DrainStep(s, c)
  }

  /** A run from power-up: any component whose step is enabled may move next. */
  ghost predicate Run(cfg: Config, states: seq<State>, labels: seq<Label>) {
    && |states| == |labels| + 1 && states[0] == Init(cfg)
    && forall n: nat :: n < |labels| ==>
         && Enabled(cfg, states[n], labels[n]) && InRange(cfg, states[n], labels[n])
         && states[n + 1] == Next(cfg, states[n], labels[n])
  }

  /** The pairs multiplied into round `round`'s tile once `n` multiplications are done. */
  function PartialLog(cfg: Config, round: nat, n: nat): Log
    requires cfg.inner > 0
  {
    seq(n, x requires 0 <= x => (round * cfg.steps * cfg.inner + x, round * cfg.steps + x / cfg.inner))
  }

  function RoundLog(cfg: Config, round: nat): Log
    requires cfg.inner > 0
  {
    PartialLog(cfg, round, cfg.steps * cfg.inner)
  }

  /** The one state in which every run ends: all FIFOs empty, every core holding a zeroed tile and waiting
      for input that never comes, every round's tile of every core in memory. */
  function Done(cfg: Config): State
    requires cfg.inner > 0
  {
    State(|cfg.ops|,
          seq(cfg.rows, r => AChannel(cfg.groups, cfg.groups * cfg.parts, [], 0, cfg.groups * cfg.steps * cfg.inner)),
          seq(cfg.cols, c => BChannel(cfg.groups, cfg.groups * cfg.steps, [], cfg.groups)),
          map p | p in Cells(cfg) ::
            Core([], [], WantB, cfg.groups, 0, 0, [], [], [], seq(cfg.groups, g requires 0 <= g => RoundLog(cfg, g))))
  }
}
