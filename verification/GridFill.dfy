/** The depths the generators declare: when each transfer can happen, and that every input slot of the network can fill. */
module GridFill {
  import opened Arith
  import opened Grid
  import opened GridInvariant
  import opened GridRuns

  // ---- when transfers can happen, by stream positions ----

  /** The shim delivers an L2 object of A while tasks ask for it and the mem tile holds fewer than two. */
  lemma ShimAIff(cfg: Config, s: State, r: nat)
    requires Sizes(cfg) && StateOk(cfg, s) && r < cfg.rows
    ensures var ch := s.a[r];
      Enabled(cfg, s, ShimA(r)) <==> ch.shim < ch.started * cfg.parts && ch.shim - ch.sent / cfg.chunks < 2
  {
    assert AOk(cfg, s.a[r]);
    DivMod(s.a[r].shim - |s.a[r].l2|, s.a[r].part, cfg.chunks);
  }

  /** The mem tile broadcasts the next L1 object while it has one and every core of the row is less than two behind. */
  lemma CastAIff(cfg: Config, s: State, r: nat)
    requires Sizes(cfg) && StateOk(cfg, s) && r < cfg.rows
    ensures var ch := s.a[r];
      Enabled(cfg, s, CastA(r)) <==>
        ch.sent < ch.shim * cfg.chunks && forall p :: p in s.cores && p.row == r ==> ch.sent - UsedA(cfg, s.cores[p]) < 2
  {
    var ch := s.a[r];
    assert AOk(cfg, ch);
    MulMonotone(if ch.l2 == [] then ch.shim else ch.shim - |ch.l2| + 1, ch.shim, cfg.chunks);
    LeftToSend(ch.shim, |ch.l2|, cfg.chunks, ch.part, ch.sent);
    forall p | p in s.cores && p.row == r ensures |s.cores[p].aq| == ch.sent - UsedA(cfg, s.cores[p]) {
      assert CoreOk(cfg, s.cores[p], SentA(s.a[p.row]), SentB(s.b[p.col]));
    }
  }

  lemma LeftToSend(shim: nat, held: nat, chunks: nat, part: nat, sent: nat)
    requires held <= shim && part < chunks && (held == 0 ==> part == 0) && sent == (shim - held) * chunks + part
    ensures held > 0 <==> sent < shim * chunks
  {
    if held > 0 { MulMonotone(shim - held + 1, shim, chunks); assert (shim - held + 1) * chunks == (shim - held) * chunks + chunks; }
  }

  lemma ShimBIff(cfg: Config, s: State, p: Pos)
    requires Sizes(cfg) && StateOk(cfg, s) && p in s.cores
    ensures var ch, k := s.b[p.col], s.cores[p];
      Enabled(cfg, s, ShimB(p.col)) <==> ch.shim < ch.started * cfg.steps && ch.shim - (UsedB(cfg, k) + |k.bq|) < 2
  {
    assert CoreOk(cfg, s.cores[p], SentA(s.a[p.row]), SentB(s.b[p.col]));
  }

  lemma CastBIff(cfg: Config, s: State, c: nat)
    requires Sizes(cfg) && StateOk(cfg, s) && c < cfg.cols
    ensures var ch := s.b[c]; var sent := ch.shim - |ch.l2|;
      Enabled(cfg, s, CastB(c)) <==>
        sent < ch.shim && forall p :: p in s.cores && p.col == c ==> sent - UsedB(cfg, s.cores[p]) < 2
  {
    forall p | p in s.cores && p.col == c ensures |s.cores[p].bq| == SentB(s.b[c]) - UsedB(cfg, s.cores[p]) {
      assert CoreOk(cfg, s.cores[p], SentA(s.a[p.row]), SentB(s.b[p.col]));
    }
  }

  /** A core moves on when its next object has been sent, or when its last tile has left the core. */
  lemma ComputeIff(cfg: Config, s: State, p: Pos)
    requires Sizes(cfg) && StateOk(cfg, s) && p in s.cores
    ensures var k := s.cores[p];
      Enabled(cfg, s, Compute(p)) <==>
        match k.pc
        case WantC => k.round == |k.out| + |k.cq|
        case WantB => UsedB(cfg, k) < SentB(s.b[p.col])
        case WantA => UsedA(cfg, k) < SentA(s.a[p.row])
        case _ => true
  {
    assert CoreOk(cfg, s.cores[p], SentA(s.a[p.row]), SentB(s.b[p.col]));
  }

  /** A finished tile is gathered while at most two of the core's tiles are on their way to memory. */
  lemma GatherIff(cfg: Config, s: State, p: Pos)
    requires Sizes(cfg) && StateOk(cfg, s) && p in s.cores
    ensures var k := s.cores[p]; Enabled(cfg, s, Gather(p)) <==> |k.out| + |k.cq| < k.round < |k.out| + 3
  {
    assert CoreOk(cfg, s.cores[p], SentA(s.a[p.row]), SentB(s.b[p.col]));
  }

  /** A column's next C object leaves once all its tiles are in the mem tile and its output task has been started. */
  lemma DrainIff(cfg: Config, s: State, c: nat)
    requires Sizes(cfg) && StateOk(cfg, s) && c < cfg.cols
    ensures Enabled(cfg, s, Drain(c)) <==>
      forall p :: p in s.cores && p.col == c ==> |s.cores[p].cq| >= 1 && |s.cores[p].out| < s.b[c].outputs
  {}

  /** The host's next call waits for nothing but the outputs it names. */
  lemma RuntimeIff(cfg: Config, s: State)
    requires Sizes(cfg) && StateOk(cfg, s) && s.pc < |cfg.ops|
    ensures Enabled(cfg, s, Runtime) <==>
      match cfg.ops[s.pc]
      case AwaitC(g, c) => forall p :: p in s.cores && p.col == c ==> |s.cores[p].out| >= g + 1
      case _ => true
  {}

  // ---- a run that fills every input slot ----

  ghost predicate Reachable(cfg: Config, s: State) {
    exists states, labels :: Run(cfg, states, labels) && states[|labels|] == s
  }

  lemma Reaches(cfg: Config, s: State, l: Label)
    requires Sane(cfg) && Reachable(cfg, s) && Enabled(cfg, s, l)
    ensures Inv(cfg, s) && InRange(cfg, s, l) && Reachable(cfg, Next(cfg, s, l)) && Inv(cfg, Next(cfg, s, l))
  {
    ReachableOk(cfg, s);
    StepKeeps(cfg, s, l);
    var states, labels :| Run(cfg, states, labels) && states[|labels|] == s;
    RunExtends(cfg, states, labels, l);
    Reached(cfg, states + [Next(cfg, s, l)], labels + [l]);
  }

  lemma Reached(cfg: Config, states: seq<State>, labels: seq<Label>)
    requires Run(cfg, states, labels)
    ensures Reachable(cfg, states[|labels|])
  {}

  lemma ReachableOk(cfg: Config, s: State)
    requires Sane(cfg) && Reachable(cfg, s)
    ensures Inv(cfg, s)
  {
    var states, labels :| Run(cfg, states, labels) && states[|labels|] == s;
    RunKeeps(cfg, states, labels, |labels|);
  }

  /** No core has moved yet. */
  ghost predicate Unmoved(s: State) {
    forall p :: p in s.cores ==> s.cores[p].round == 0 && s.cores[p].t == 0 && s.cores[p].i == 0
  }

  ghost predicate NothingSent(s: State) {
    && (forall r: nat :: r < |s.a| ==> s.a[r].shim == 0 && s.a[r].l2 == [] && s.a[r].sent == 0)
    && (forall c: nat :: c < |s.b| ==> s.b[c].shim == 0 && s.b[c].l2 == [])
  }

  ghost predicate AllStarted(s: State) {
    && (forall r: nat :: r < |s.a| ==> s.a[r].started >= 1)
    && (forall c: nat :: c < |s.b| ==> s.b[c].started >= 1)
  }

  /** The host's calls up to its first wait start a task on every channel. */
  lemma {:induction false} StartAll(cfg: Config, s: State) returns (s': State)
    requires Sane(cfg) && cfg.groups > 0 && Reachable(cfg, s) && Unmoved(s) && NothingSent(s) && s.pc <= |cfg.ops|
    ensures Reachable(cfg, s') && Unmoved(s') && NothingSent(s') && AllStarted(s')
    decreases |cfg.ops| - s.pc
  {
    ReachableOk(cfg, s);
    if s.pc < |cfg.ops| && !cfg.ops[s.pc].AwaitC? {
      Reaches(cfg, s, Runtime);
      RuntimeQuiet(cfg, s);
      s' := StartAll(cfg, Next(cfg, s, Runtime));
    } else {
      StartedByNow(cfg, s);
      s' := s;
    }
  }

  lemma RuntimeQuiet(cfg: Config, s: State)
    requires Enabled(cfg, s, Runtime) && InRange(cfg, s, Runtime) && Unmoved(s) && NothingSent(s)
    ensures var s' := Next(cfg, s, Runtime); Unmoved(s') && NothingSent(s') && s'.pc == s.pc + 1
  {}

  /** A wait comes only after all channels have a task more than the group it waits for. */
  lemma StartedByNow(cfg: Config, s: State)
    requires Sane(cfg) && cfg.groups > 0 && Shape(cfg, s) && StartedOk(cfg, s)
    requires s.pc == |cfg.ops| || cfg.ops[s.pc].AwaitC?
    ensures AllStarted(s)
  {
    if s.pc == |cfg.ops| {
      assert cfg.ops[..s.pc] == cfg.ops;
    } else {
      RuntimeInRange(cfg, s);
      var op := cfg.ops[s.pc];
      var n: nat :| op.group < n && Level(cfg.ops[..s.pc], cfg.rows, cfg.cols, n);
    }
  }

  /** Row r's FIFOs are full: two L2 objects in the mem tile, two L1 objects sent. */
  ghost predicate RowFull(s: State, r: nat)
    requires r < |s.a|
  {
    s.a[r].sent == 2 && |s.a[r].l2| == 2
  }

  ghost predicate ColumnFull(s: State, c: nat)
    requires c < |s.b|
  {
    s.b[c].shim == 4 && |s.b[c].l2| == 2
  }

  lemma {:induction false} FillRow(cfg: Config, s: State, r: nat) returns (s': State)
    requires Sane(cfg) && cfg.parts >= 2 + 2 / cfg.chunks && Reachable(cfg, s) && Unmoved(s)
    requires r < |s.a| && s.a[r].started >= 1 && s.a[r].sent <= 2 && |s.a[r].l2| <= 2
    ensures Reachable(cfg, s') && Unmoved(s') && s'.b == s.b && |s'.a| == |s.a| && RowFull(s', r)
    ensures forall r': nat :: r' < |s.a| && r' != r ==> s'.a[r'] == s.a[r']
    decreases 2 - s.a[r].sent, 2 - |s.a[r].l2|
  {
    ReachableOk(cfg, s);
    s' := s;
    if s.a[r].sent < 2 && s.a[r].l2 != [] {
      CastPossible(cfg, s, r);
      Reaches(cfg, s, CastA(r));
      CastFrame(cfg, s, r);
      s' := FillRow(cfg, Next(cfg, s, CastA(r)), r);
    } else if |s.a[r].l2| < 2 {
      ShimPossible(cfg, s, r);
      Reaches(cfg, s, ShimA(r));
      s' := FillRow(cfg, Next(cfg, s, ShimA(r)), r);
    }
  }

  lemma CastPossible(cfg: Config, s: State, r: nat)
    requires Inv(cfg, s) && Unmoved(s) && r < |s.a| && s.a[r].sent < 2 && s.a[r].l2 != []
    ensures Enabled(cfg, s, CastA(r))
  {
    forall p | p in s.cores && p.row == r ensures |s.cores[p].aq| < 2 { HeldByCore(cfg, s, p); }
  }

  /** A core that has not moved holds everything that was sent. */
  lemma HeldByCore(cfg: Config, s: State, p: Pos)
    requires Inv(cfg, s) && Unmoved(s) && p in s.cores
    ensures p.row < |s.a| && p.col < |s.b| && |s.cores[p].aq| == SentA(s.a[p.row]) && |s.cores[p].bq| == SentB(s.b[p.col])
  {
    assert CoreOk(cfg, s.cores[p], SentA(s.a[p.row]), SentB(s.b[p.col]));
    NothingUsed(cfg, s.cores[p]);
  }

  lemma NothingUsed(cfg: Config, k: Core)
    requires k.round == 0 && k.t == 0 && k.i == 0
    ensures UsedA(cfg, k) == 0 && UsedB(cfg, k) == 0
  {}

  lemma CastFrame(cfg: Config, s: State, r: nat)
    requires Enabled(cfg, s, CastA(r)) && Unmoved(s)
    ensures var s' := Next(cfg, s, CastA(r));
      && Unmoved(s') && s'.b == s.b && |s'.a| == |s.a| && s'.a[r].sent == s.a[r].sent + 1 && s'.a[r].started == s.a[r].started
      && |s'.a[r].l2| <= |s.a[r].l2| && forall r': nat :: r' < |s.a| && r' != r ==> s'.a[r'] == s.a[r']
  {}

  lemma ShimPossible(cfg: Config, s: State, r: nat)
    requires Inv(cfg, s) && cfg.parts >= 2 + 2 / cfg.chunks && r < |s.a| && s.a[r].started >= 1
    requires s.a[r].sent <= 2 && |s.a[r].l2| < 2 && (s.a[r].sent < 2 ==> s.a[r].l2 == [])
    ensures Enabled(cfg, s, ShimA(r))
  {
    var ch := s.a[r];
    assert AOk(cfg, ch);
    DivMod(ch.shim - |ch.l2|, ch.part, cfg.chunks);
    DivMonotone(ch.sent, 2, cfg.chunks);
    MulMonotone(1, ch.started, cfg.parts);
  }

  lemma DivMonotone(x: nat, y: nat, d: nat)
    requires x <= y && d > 0
    ensures x / d <= y / d
  {
    if x / d > y / d { MulMonotone(y / d + 1, x / d, d); }
  }

  lemma {:induction false} FillRows(cfg: Config, s: State, n: nat) returns (s': State)
    requires Sane(cfg) && cfg.parts >= 2 + 2 / cfg.chunks && Reachable(cfg, s) && Unmoved(s) && NothingSent(s) && AllStarted(s)
    requires n <= |s.a|
    ensures Reachable(cfg, s') && Unmoved(s') && s'.b == s.b && |s'.a| == |s.a|
    ensures forall r: nat :: r < |s.a| ==> if r < n then RowFull(s', r) else s'.a[r] == s.a[r]
  {
    s' := s;
    if n > 0 {
      var s1 := FillRows(cfg, s, n - 1);
      assert s1.a[n - 1] == s.a[n - 1];
      s' := FillRow(cfg, s1, n - 1);
      forall r: nat | r < n - 1 ensures RowFull(s', r) { assert RowFull(s1, r) && s'.a[r] == s1.a[r]; }
    }
  }

  lemma {:induction false} FillColumn(cfg: Config, s: State, c: nat) returns (s': State)
    requires Sane(cfg) && cfg.steps >= 4 && Reachable(cfg, s) && Unmoved(s)
    requires c < |s.b| && s.b[c].started >= 1 && SentB(s.b[c]) <= 2 && |s.b[c].l2| <= 2
    ensures Reachable(cfg, s') && Unmoved(s') && s'.a == s.a && |s'.b| == |s.b| && ColumnFull(s', c)
    ensures forall c': nat :: c' < |s.b| && c' != c ==> s'.b[c'] == s.b[c']
    decreases 2 - SentB(s.b[c]), 2 - |s.b[c].l2|
  {
    ReachableOk(cfg, s);
    s' := s;
    if SentB(s.b[c]) < 2 && s.b[c].l2 != [] {
      CastBPossible(cfg, s, c);
      Reaches(cfg, s, CastB(c));
      CastBFrame(cfg, s, c);
      s' := FillColumn(cfg, Next(cfg, s, CastB(c)), c);
    } else if |s.b[c].l2| < 2 {
      MulMonotone(1, s.b[c].started, cfg.steps);
      Reaches(cfg, s, ShimB(c));
      s' := FillColumn(cfg, Next(cfg, s, ShimB(c)), c);
    }
  }

  lemma CastBPossible(cfg: Config, s: State, c: nat)
    requires Inv(cfg, s) && Unmoved(s) && c < |s.b| && SentB(s.b[c]) < 2 && s.b[c].l2 != []
    ensures Enabled(cfg, s, CastB(c))
  {
    forall p | p in s.cores && p.col == c ensures |s.cores[p].bq| < 2 { HeldByCore(cfg, s, p); }
  }

  lemma CastBFrame(cfg: Config, s: State, c: nat)
    requires Enabled(cfg, s, CastB(c)) && Unmoved(s)
    ensures var s' := Next(cfg, s, CastB(c));
      && Unmoved(s') && s'.a == s.a && |s'.b| == |s.b| && SentB(s'.b[c]) == SentB(s.b[c]) + 1
      && s'.b[c].started == s.b[c].started && |s'.b[c].l2| <= |s.b[c].l2|
      && forall c': nat :: c' < |s.b| && c' != c ==> s'.b[c'] == s.b[c']
  {}

  lemma {:induction false} FillColumns(cfg: Config, s: State, n: nat) returns (s': State)
    requires Sane(cfg) && cfg.steps >= 4 && Reachable(cfg, s) && Unmoved(s) && n <= |s.b|
    requires forall c: nat :: c < |s.b| ==> s.b[c].started >= 1 && s.b[c].shim == 0 && s.b[c].l2 == []
    ensures Reachable(cfg, s') && Unmoved(s') && s'.a == s.a && |s'.b| == |s.b|
    ensures forall c: nat :: c < |s.b| ==> if c < n then ColumnFull(s', c) else s'.b[c] == s.b[c]
  {
    s' := s;
    if n > 0 {
      var s1 := FillColumns(cfg, s, n - 1);
      assert s1.b[n - 1] == s.b[n - 1];
      s' := FillColumn(cfg, s1, n - 1);
      forall c: nat | c < n - 1 ensures ColumnFull(s', c) { assert ColumnFull(s1, c) && s'.b[c] == s1.b[c]; }
    }
  }

  /** Every input slot of the network: two objects per mem tile FIFO and two per core FIFO. */
  ghost predicate Full(s: State) {
    && (forall r: nat :: r < |s.a| ==> |s.a[r].l2| == 2) && (forall c: nat :: c < |s.b| ==> |s.b[c].l2| == 2)
    && (forall p :: p in s.cores ==> |s.cores[p].aq| == 2 && |s.cores[p].bq| == 2)
  }

  /** If one group's transfers have enough objects some run fills all of them at once: none is shallower than declared. */
  lemma AllSlotsFill(cfg: Config) returns (s: State)
    requires Sane(cfg) && cfg.groups > 0 && cfg.parts >= 2 + 2 / cfg.chunks && cfg.steps >= 4
    ensures Reachable(cfg, s) && Inv(cfg, s) && Full(s)
  {
    InitReachable(cfg);
    var s0 := StartAll(cfg, Init(cfg));
    var s1 := FillRows(cfg, s0, |s0.a|);
    s := FillColumns(cfg, s1, |s1.b|);
    forall r: nat | r < |s.a| ensures RowFull(s, r) { assert RowFull(s1, r); }
    ReachableOk(cfg, s);
    FullOf(cfg, s);
  }

  lemma InitReachable(cfg: Config)
    ensures Reachable(cfg, Init(cfg)) && Unmoved(Init(cfg)) && NothingSent(Init(cfg)) && Init(cfg).pc == 0
  {
    Reached(cfg, [Init(cfg)], []);
  }

  lemma FullOf(cfg: Config, s: State)
    requires Inv(cfg, s) && Unmoved(s)
    requires (forall r: nat :: r < |s.a| ==> RowFull(s, r)) && forall c: nat :: c < |s.b| ==> ColumnFull(s, c)
    ensures Full(s)
  {
    forall r: nat | r < |s.a| ensures |s.a[r].l2| == 2 { assert RowFull(s, r); }
    forall c: nat | c < |s.b| ensures |s.b[c].l2| == 2 { assert ColumnFull(s, c); }
    forall p | p in s.cores ensures |s.cores[p].aq| == 2 && |s.cores[p].bq| == 2 {
      HeldByCore(cfg, s, p);
      assert RowFull(s, p.row) && ColumnFull(s, p.col);
    }
  }
}
