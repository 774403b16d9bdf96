/**
 The host's runtime sequences of both generators, and what makes them serve the network: the 4-slot ring of
 task groups (4-row generator) and one group at a time (v2 generator).
 */
module Schedule {
  import opened Arith
  import opened Grid
  import opened GridInvariant

  function StartsA(g: nat, rows: nat): seq<Op> { seq(rows, r requires 0 <= r => StartA(g, r)) }

  function StartsB(g: nat, cols: nat): seq<Op> { seq(cols, c requires 0 <= c => StartB(g, c)) }

  function StartsC(g: nat, cols: nat): seq<Op> { seq(cols, c requires 0 <= c => StartC(g, c)) }

  function AwaitsC(g: nat, cols: nat): seq<Op> { seq(cols, c requires 0 <= c => AwaitC(g, c)) }

  function FreesA(g: nat, rows: nat): seq<Op> { seq(rows, r requires 0 <= r => FreeA(g, r)) }

  function FreesB(g: nat, cols: nat): seq<Op> { seq(cols, c requires 0 <= c => FreeB(g, c)) }

  /** The runtime's calls for one whole group. */
  datatype Block = StartAll(group: nat) | AwaitAll(group: nat) | FreeAll(group: nat)

  function Calls(b: Block, rows: nat, cols: nat): seq<Op> {
    match b
    case StartAll(g) => StartsA(g, rows) + StartsB(g, cols) + StartsC(g, cols)
    case AwaitAll(g) => AwaitsC(g, cols)
    case FreeAll(g) => FreesA(g, rows) + FreesB(g, cols)
  }

  /** The blocks of a runtime sequence, in execution order. */
  datatype Plan = Nothing | Then(plan: Plan, next: Block)

  function Expand(p: Plan, rows: nat, cols: nat): seq<Op> {
    match p
    case Nothing => []
    case Then(q, b) => Expand(q, rows, cols) + Calls(b, rows, cols)
  }

  function Starts(p: Plan): nat {
    if p.Nothing? then 0 else Starts(p.plan) + if p.next.StartAll? then 1 else 0
  }

  function Awaits(p: Plan): nat {
    if p.Nothing? then 0 else Awaits(p.plan) + if p.next.AwaitAll? then 1 else 0
  }

  function Frees(p: Plan): nat {
    if p.Nothing? then 0 else Frees(p.plan) + if p.next.FreeAll? then 1 else 0
  }

  /** Groups awaited, and groups freed, by a plan. */
  function Awaited(p: Plan): set<nat> {
    if p.Nothing? then {} else Awaited(p.plan) + if p.next.AwaitAll? then {p.next.group} else {}
  }

  function Freed(p: Plan): set<nat> {
    if p.Nothing? then {} else Freed(p.plan) + if p.next.FreeAll? then {p.next.group} else {}
  }

  predicate BlockAllowed(before: Plan, b: Block, window: nat) {
    match b
    case StartAll(g) => g == Starts(before) && g < Awaits(before) + window && g < Frees(before) + window
    case AwaitAll(g) => g < Starts(before) && g !in Awaited(before)
    case FreeAll(g) => g in Awaited(before) && g !in Freed(before)
  }

  /** Groups start in order with at most `window` unretired, are awaited once after their start and freed
      once after their await. */
  predicate Orderly(p: Plan, window: nat) {
    p.Then? ==> Orderly(p.plan, window) && BlockAllowed(p.plan, p.next, window)
  }

  /** Exactly these groups were started, and each has been awaited and freed. */
  ghost predicate Retired(p: Plan, groups: nat) {
    && Starts(p) == Awaits(p) == Frees(p) == groups
    && forall g: nat :: (g < groups <==> g in Awaited(p)) && (g < groups <==> g in Freed(p))
  }

  predicate Contains(p: Plan, b: Block) { p.Then? && (p.next == b || Contains(p.plan, b)) }

  /** No block occurs twice. */
  predicate Distinct(p: Plan) { p.Then? ==> Distinct(p.plan) && !Contains(p.plan, p.next) }

  ghost predicate AllBelow(groups: set<nat>, g: nat) { forall h: nat :: h in groups ==> h < g }

  /** Outputs are awaited in the order the groups were started. */
  ghost predicate AwaitsInOrder(p: Plan) {
    p.Then? ==>
      && AwaitsInOrder(p.plan)
      && (p.next.AwaitAll? ==> AllBelow(Awaited(p.plan), p.next.group))
  }

  // ---- from blocks to calls ----

  /** Calls `ops` are allowed one after the other once `before` has been executed. */
  ghost predicate AllAllowed(before: seq<Op>, ops: seq<Op>, rows: nat, cols: nat, groups: nat) {
    forall x: nat :: x < |ops| ==> OpAllowed(before + ops[..x], ops[x], rows, cols, groups)
  }

  lemma AllowedConcat(before: seq<Op>, p: seq<Op>, q: seq<Op>, rows: nat, cols: nat, groups: nat)
    requires AllAllowed(before, p, rows, cols, groups) && AllAllowed(before + p, q, rows, cols, groups)
    ensures AllAllowed(before, p + q, rows, cols, groups)
  {
    forall x: nat | x < |p + q| ensures OpAllowed(before + (p + q)[..x], (p + q)[x], rows, cols, groups) {
      if x < |p| {
        assert (p + q)[..x] == p[..x];
      } else {
        assert before + (p + q)[..x] == before + p + q[..x - |p|];
      }
    }
  }

  /** Counters after x calls starting one channel kind in channel order. */
  lemma {:induction false} CountA(before: seq<Op>, g: nat, rows: nat, x: nat)
    requires x <= rows
    ensures forall r: nat :: StartedA(before + StartsA(g, rows)[..x], r) == StartedA(before, r) + if r < x then 1 else 0
    ensures forall c: nat :: StartedB(before + StartsA(g, rows)[..x], c) == StartedB(before, c)
    ensures forall c: nat :: StartedC(before + StartsA(g, rows)[..x], c) == StartedC(before, c)
  {
    if x == 0 {
      assert before + StartsA(g, rows)[..0] == before;
    } else {
      CountA(before, g, rows, x - 1);
      assert before + StartsA(g, rows)[..x] == before + StartsA(g, rows)[..x - 1] + [StartA(g, x - 1)];
      StartedMore(before + StartsA(g, rows)[..x - 1], StartA(g, x - 1));
    }
  }

  lemma {:induction false} CountB(before: seq<Op>, g: nat, cols: nat, x: nat)
    requires x <= cols
    ensures forall c: nat :: StartedB(before + StartsB(g, cols)[..x], c) == StartedB(before, c) + if c < x then 1 else 0
    ensures forall r: nat :: StartedA(before + StartsB(g, cols)[..x], r) == StartedA(before, r)
    ensures forall c: nat :: StartedC(before + StartsB(g, cols)[..x], c) == StartedC(before, c)
  {
    if x == 0 {
      assert before + StartsB(g, cols)[..0] == before;
    } else {
      CountB(before, g, cols, x - 1);
      assert before + StartsB(g, cols)[..x] == before + StartsB(g, cols)[..x - 1] + [StartB(g, x - 1)];
      StartedMore(before + StartsB(g, cols)[..x - 1], StartB(g, x - 1));
    }
  }

  lemma {:induction false} CountC(before: seq<Op>, g: nat, cols: nat, x: nat)
    requires x <= cols
    ensures forall c: nat :: StartedC(before + StartsC(g, cols)[..x], c) == StartedC(before, c) + if c < x then 1 else 0
    ensures forall r: nat :: StartedA(before + StartsC(g, cols)[..x], r) == StartedA(before, r)
    ensures forall c: nat :: StartedB(before + StartsC(g, cols)[..x], c) == StartedB(before, c)
  {
    if x == 0 {
      assert before + StartsC(g, cols)[..0] == before;
    } else {
      CountC(before, g, cols, x - 1);
      assert before + StartsC(g, cols)[..x] == before + StartsC(g, cols)[..x - 1] + [StartC(g, x - 1)];
      StartedMore(before + StartsC(g, cols)[..x - 1], StartC(g, x - 1));
    }
  }

  lemma {:induction false} CountNone(before: seq<Op>, ops: seq<Op>)
    requires forall x :: 0 <= x < |ops| ==> !(ops[x].StartA? || ops[x].StartB? || ops[x].StartC?)
    ensures forall r: nat :: StartedA(before + ops, r) == StartedA(before, r)
    ensures forall c: nat :: StartedB(before + ops, c) == StartedB(before, c)
    ensures forall c: nat :: StartedC(before + ops, c) == StartedC(before, c)
  {
    if ops == [] {
      assert before + ops == before;
    } else {
      var last := |ops| - 1;
      CountNone(before, ops[..last]);
      assert before + ops == before + ops[..last] + [ops[last]];
      StartedMore(before + ops[..last], ops[last]);
    }
  }

  lemma StartsAAllowed(before: seq<Op>, g: nat, rows: nat, cols: nat, groups: nat)
    requires g < groups && forall r: nat :: r < rows ==> StartedA(before, r) == g
    ensures AllAllowed(before, StartsA(g, rows), rows, cols, groups)
  {
    forall x: nat | x < rows { CountA(before, g, rows, x); }
  }

  lemma StartsBAllowed(before: seq<Op>, g: nat, rows: nat, cols: nat, groups: nat)
    requires g < groups && forall c: nat :: c < cols ==> StartedB(before, c) == g
    ensures AllAllowed(before, StartsB(g, cols), rows, cols, groups)
  {
    forall x: nat | x < cols { CountB(before, g, cols, x); }
  }

  lemma StartsCAllowed(before: seq<Op>, g: nat, rows: nat, cols: nat, groups: nat)
    requires g < groups && forall c: nat :: c < cols ==> StartedC(before, c) == g
    ensures AllAllowed(before, StartsC(g, cols), rows, cols, groups)
  {
    forall x: nat | x < cols { CountC(before, g, cols, x); }
  }

  lemma StartAllLevel(before: seq<Op>, g: nat, rows: nat, cols: nat)
    ensures var ops := StartsA(g, rows) + StartsB(g, cols) + StartsC(g, cols);
      && (forall r: nat :: StartedA(before + ops, r) == StartedA(before, r) + if r < rows then 1 else 0)
      && (forall c: nat :: StartedB(before + ops, c) == StartedB(before, c) + if c < cols then 1 else 0)
      && (forall c: nat :: StartedC(before + ops, c) == StartedC(before, c) + if c < cols then 1 else 0)
  {
    var a, b, c := StartsA(g, rows), StartsB(g, cols), StartsC(g, cols);
    assert a[..rows] == a && b[..cols] == b && c[..cols] == c;
    CountA(before, g, rows, rows);
    CountB(before + a, g, cols, cols);
    CountC(before + a + b, g, cols, cols);
    assert before + (a + b + c) == before + a + b + c;
  }

  lemma StartAllAllowed(before: seq<Op>, g: nat, rows: nat, cols: nat, groups: nat)
    requires g < groups && Level(before, rows, cols, g)
    ensures AllAllowed(before, Calls(StartAll(g), rows, cols), rows, cols, groups)
    ensures Level(before + Calls(StartAll(g), rows, cols), rows, cols, g + 1)
  {
    var a, b, c := StartsA(g, rows), StartsB(g, cols), StartsC(g, cols);
    assert a[..rows] == a && b[..cols] == b;
    CountA(before, g, rows, rows);
    CountB(before + a, g, cols, cols);
    StartsAAllowed(before, g, rows, cols, groups);
    StartsBAllowed(before + a, g, rows, cols, groups);
    StartsCAllowed(before + a + b, g, rows, cols, groups);
    AllowedThree(before, a, b, c, rows, cols, groups);
    StartAllLevel(before, g, rows, cols);
  }

  lemma AllowedThree(before: seq<Op>, p: seq<Op>, q: seq<Op>, r: seq<Op>, rows: nat, cols: nat, groups: nat)
    requires AllAllowed(before, p, rows, cols, groups) && AllAllowed(before + p, q, rows, cols, groups)
    requires AllAllowed(before + p + q, r, rows, cols, groups)
    ensures AllAllowed(before, p + q + r, rows, cols, groups)
  {
    AllowedConcat(before, p, q, rows, cols, groups);
    assert before + (p + q) == before + p + q;
    AllowedConcat(before, p + q, r, rows, cols, groups);
  }

  lemma AwaitAllAllowed(before: seq<Op>, g: nat, n: nat, rows: nat, cols: nat, groups: nat)
    requires g < n && Level(before, rows, cols, n)
    ensures AllAllowed(before, Calls(AwaitAll(g), rows, cols), rows, cols, groups)
    ensures Level(before + Calls(AwaitAll(g), rows, cols), rows, cols, n)
  {
    var ops := AwaitsC(g, cols);
    CountNone(before, ops);
    forall x: nat | x < cols ensures OpAllowed(before + ops[..x], ops[x], rows, cols, groups) {
      CountNone(before, ops[..x]);
      assert Level(before + ops[..x], rows, cols, n);
    }
  }

  lemma FreeAllAllowed(before: seq<Op>, g: nat, n: nat, rows: nat, cols: nat, groups: nat)
    requires g < groups && Level(before, rows, cols, n)
    requires forall c: nat :: c < cols ==> AwaitC(g, c) in before
    ensures AllAllowed(before, Calls(FreeAll(g), rows, cols), rows, cols, groups)
    ensures Level(before + Calls(FreeAll(g), rows, cols), rows, cols, n)
  {
    CountNone(before, Calls(FreeAll(g), rows, cols));
  }

  lemma {:induction false} ExpandAwaits(p: Plan, rows: nat, cols: nat, g: nat, c: nat)
    requires g in Awaited(p) && c < cols
    ensures AwaitC(g, c) in Expand(p, rows, cols)
  {
    if p.next == AwaitAll(g) {
      assert Calls(p.next, rows, cols)[c] == AwaitC(g, c);
    } else {
      ExpandAwaits(p.plan, rows, cols, g, c);
    }
  }

  lemma {:induction false} AwaitedGroup(p: Plan, window: nat, g: nat)
    requires Orderly(p, window) && g in Awaited(p)
    ensures g < Starts(p)
  {
    if p.next != AwaitAll(g) { AwaitedGroup(p.plan, window, g); }
  }

  lemma {:induction false} OrderlyAllowed(p: Plan, window: nat, rows: nat, cols: nat, groups: nat)
    requires Orderly(p, window) && Starts(p) <= groups
    ensures Level(Expand(p, rows, cols), rows, cols, Starts(p))
    ensures AllAllowed([], Expand(p, rows, cols), rows, cols, groups)
  {
    if p.Then? {
      OrderlyAllowed(p.plan, window, rows, cols, groups);
      var before, n := Expand(p.plan, rows, cols), Starts(p.plan);
      assert [] + before == before;
      match p.next {
        case StartAll(g) => StartAllAllowed(before, g, rows, cols, groups);
        case AwaitAll(g) => AwaitAllAllowed(before, g, n, rows, cols, groups);
        case FreeAll(g) =>
          forall c: nat | c < cols ensures AwaitC(g, c) in before { ExpandAwaits(p.plan, rows, cols, g, c); }
          AwaitedGroup(p.plan, window, g);
          FreeAllAllowed(before, g, n, rows, cols, groups);
      }
      AllowedConcat([], before, Calls(p.next, rows, cols), rows, cols, groups);
    }
  }

  /** An orderly plan is a runtime sequence the network can serve. */
  lemma OrderlyIsSchedule(p: Plan, window: nat, rows: nat, cols: nat)
    requires Orderly(p, window)
    ensures Schedule(Expand(p, rows, cols), rows, cols, Starts(p))
  {
    OrderlyAllowed(p, window, rows, cols, Starts(p));
    var ops := Expand(p, rows, cols);
    forall x: nat | x < |ops| ensures OpAllowed(ops[..x], ops[x], rows, cols, Starts(p)) {
      assert [] + ops[..x] == ops[..x];
    }
  }

  // ---- counting ----

  /** Calls of one kind, summed over a run of calls, on one shim column. Row r's A channel uses column 2r. */
  function Delta(op: Op, col: nat): int {
    match op
    case StartA(_, r) => if 2 * r == col then 1 else 0
    case FreeA(_, r) => if 2 * r == col then -1 else 0
    case StartB(_, c) => if c == col then 1 else 0
    case FreeB(_, c) => if c == col then -1 else 0
    case StartC(_, c) => if c == col then 1 else 0
    case AwaitC(_, c) => if c == col then -1 else 0
  }

  /** Tasks of a shim column started and not yet retired (inputs by a free, outputs by an await). */
  function Held(ops: seq<Op>, col: nat): int {
    if ops == [] then 0 else Held(ops[..|ops| - 1], col) + Delta(ops[|ops| - 1], col)
  }

  lemma {:induction false} HeldConcat(p: seq<Op>, q: seq<Op>, col: nat)
    ensures Held(p + q, col) == Held(p, col) + Held(q, col)
  {
    if q == [] {
      assert p + q == p;
    } else {
      HeldConcat(p, q[..|q| - 1], col);
      assert (p + q)[..|p + q| - 1] == p + q[..|q| - 1];
    }
  }

  /** A run of calls on consecutive channels touches a column at most once. */
  lemma {:induction false} HeldRun(ops: seq<Op>, col: nat, at: int, d: int)
    requires forall x :: 0 <= x < |ops| ==> Delta(ops[x], col) == if x == at then d else 0
    ensures Held(ops, col) == if 0 <= at < |ops| then d else 0
  {
    if ops != [] { HeldRun(ops[..|ops| - 1], col, at, d); }
  }

  /** Within one group block the count moves one way, by at most three. */
  lemma HeldStarts(g: nat, rows: nat, cols: nat, col: nat, x: nat)
    requires col < cols && x <= rows + 2 * cols
    ensures Held(Calls(StartAll(g), rows, cols)[..x], col) <= 3
    ensures x == rows + 2 * cols ==>
      Held(Calls(StartAll(g), rows, cols), col) == 2 + if col % 2 == 0 && col / 2 < rows then 1 else 0
  {
    var row := if col % 2 == 0 then col / 2 else -1;
    var xa := if x <= rows then x else rows;
    var xb := if x <= rows then 0 else if x <= rows + cols then x - rows else cols;
    var xc := x - xa - xb;
    StartsPrefix(g, rows, cols, x, xa, xb, xc);
    HeldChannels(g, rows, cols, col, row, xa, xb, xc);
    if x == rows + 2 * cols { assert Calls(StartAll(g), rows, cols)[..x] == Calls(StartAll(g), rows, cols); }
  }

  lemma StartsPrefix(g: nat, rows: nat, cols: nat, x: nat, xa: nat, xb: nat, xc: nat)
    requires x <= rows + 2 * cols && xa == (if x <= rows then x else rows) && x == xa + xb + xc
    requires xb == if x <= rows then 0 else if x <= rows + cols then x - rows else cols
    ensures Calls(StartAll(g), rows, cols)[..x] == StartsA(g, rows)[..xa] + StartsB(g, cols)[..xb] + StartsC(g, cols)[..xc]
  {}

  lemma HeldChannels(g: nat, rows: nat, cols: nat, col: nat, row: int, xa: nat, xb: nat, xc: nat)
    requires col < cols && xa <= rows && xb <= cols && xc <= cols && row == if col % 2 == 0 then col / 2 else -1
    ensures Held(StartsA(g, rows)[..xa] + StartsB(g, cols)[..xb] + StartsC(g, cols)[..xc], col) ==
            (if 0 <= row < xa then 1 else 0) + (if col < xb then 1 else 0) + (if col < xc then 1 else 0)
  {
    var a, b, c := StartsA(g, rows)[..xa], StartsB(g, cols)[..xb], StartsC(g, cols)[..xc];
    HeldRun(a, col, row, 1);
    HeldRun(b, col, col, 1);
    HeldRun(c, col, col, 1);
    HeldThree(a, b, c, col);
  }

  lemma HeldThree(a: seq<Op>, b: seq<Op>, c: seq<Op>, col: nat)
    ensures Held(a + b + c, col) == Held(a, col) + Held(b, col) + Held(c, col)
  {
    HeldConcat(a, b, col);
    HeldConcat(a + b, c, col);
  }

  lemma HeldAwaits(g: nat, rows: nat, cols: nat, col: nat, x: nat)
    requires col < cols && x <= cols
    ensures Held(Calls(AwaitAll(g), rows, cols)[..x], col) <= 0
    ensures x == cols ==> Held(Calls(AwaitAll(g), rows, cols), col) == -1
  {
    HeldRun(AwaitsC(g, cols)[..x], col, col, -1);
    if x == cols { assert AwaitsC(g, cols)[..x] == AwaitsC(g, cols); }
  }

  lemma HeldFrees(g: nat, rows: nat, cols: nat, col: nat, x: nat)
    requires col < cols && x <= rows + cols
    ensures Held(Calls(FreeAll(g), rows, cols)[..x], col) <= 0
    ensures x == rows + cols ==>
      Held(Calls(FreeAll(g), rows, cols), col) == -1 - if col % 2 == 0 && col / 2 < rows then 1 else 0
  {
    var row := if col % 2 == 0 then col / 2 else -1;
    var xa := if x <= rows then x else rows;
    assert Calls(FreeAll(g), rows, cols)[..x] == FreesA(g, rows)[..xa] + FreesB(g, cols)[..x - xa];
    HeldInputs(g, rows, cols, col, row, xa, x - xa);
    if x == rows + cols { assert Calls(FreeAll(g), rows, cols)[..x] == Calls(FreeAll(g), rows, cols); }
  }

  lemma HeldInputs(g: nat, rows: nat, cols: nat, col: nat, row: int, xa: nat, xb: nat)
    requires col < cols && xa <= rows && xb <= cols && row == if col % 2 == 0 then col / 2 else -1
    ensures Held(FreesA(g, rows)[..xa] + FreesB(g, cols)[..xb], col) ==
            (if 0 <= row < xa then -1 else 0) + (if col < xb then -1 else 0)
  {
    var a, b := FreesA(g, rows)[..xa], FreesB(g, cols)[..xb];
    HeldRun(a, col, row, -1);
    HeldRun(b, col, col, -1);
    HeldConcat(a, b, col);
  }

  /** At every moment a shim column holds at most three tasks per outstanding group. */
  lemma {:induction false} HeldBound(p: Plan, window: nat, rows: nat, cols: nat, col: nat)
    requires Orderly(p, window) && col < cols && window > 0
    ensures var hasA := if col % 2 == 0 && col / 2 < rows then 1 else 0;
      Held(Expand(p, rows, cols), col) == (1 + hasA) * (Starts(p) - Frees(p)) + Starts(p) - Awaits(p)
    ensures Starts(p) <= Frees(p) + window && Starts(p) <= Awaits(p) + window
    ensures forall x: nat :: x <= |Expand(p, rows, cols)| ==> Held(Expand(p, rows, cols)[..x], col) <= 3 * window
  {
    if p.Then? {
      HeldBound(p.plan, window, rows, cols, col);
      var before, calls := Expand(p.plan, rows, cols), Calls(p.next, rows, cols);
      HeldBlock(p.next, rows, cols, col, |calls|);
      HeldConcat(before, calls, col);
      forall x: nat | x <= |before + calls| ensures Held((before + calls)[..x], col) <= 3 * window {
        HeldWithin(before, p.next, rows, cols, col, x, 3 * window);
      }
    }
  }

  /** A bound on all prefixes extends over one more block. */
  lemma HeldWithin(before: seq<Op>, b: Block, rows: nat, cols: nat, col: nat, x: nat, bound: int)
    requires col < cols && x <= |before + Calls(b, rows, cols)|
    requires forall y: nat :: y <= |before| ==> Held(before[..y], col) <= bound
    requires Held(before, col) + (if b.StartAll? then 3 else 0) <= bound
    ensures Held((before + Calls(b, rows, cols))[..x], col) <= bound
  {
    var calls := Calls(b, rows, cols);
    if x <= |before| {
      assert (before + calls)[..x] == before[..x];
    } else {
      assert (before + calls)[..x] == before + calls[..x - |before|];
      HeldConcat(before, calls[..x - |before|], col);
      HeldBlock(b, rows, cols, col, x - |before|);
    }
  }

  lemma HeldBlock(b: Block, rows: nat, cols: nat, col: nat, x: nat)
    requires col < cols && x <= |Calls(b, rows, cols)|
    ensures Held(Calls(b, rows, cols)[..x], col) <= if b.StartAll? then 3 else 0
    ensures var hasA := if col % 2 == 0 && col / 2 < rows then 1 else 0;
      var change := if b.StartAll? then 2 + hasA else if b.AwaitAll? then -1 else -1 - hasA;
      x == |Calls(b, rows, cols)| ==> Held(Calls(b, rows, cols), col) == change
  {
    match b
    case StartAll(g) => HeldStarts(g, rows, cols, col, x);
    case AwaitAll(g) => HeldAwaits(g, rows, cols, col, x);
    case FreeAll(g) => HeldFrees(g, rows, cols, col, x);
  }

  lemma {:induction false} Recorded(p: Plan, window: nat, b: Block)
    requires Orderly(p, window) && Contains(p, b)
    ensures match b
            case StartAll(g) => g < Starts(p)
            case AwaitAll(g) => g in Awaited(p)
            case FreeAll(g) => g in Freed(p)
  {
    if p.next != b { Recorded(p.plan, window, b); }
  }

  /** In an orderly plan no group is started, awaited or freed twice. */
  lemma {:induction false} OnlyOnce(p: Plan, window: nat)
    requires Orderly(p, window)
    ensures Distinct(p) && |Awaited(p)| == Awaits(p) && |Freed(p)| == Frees(p)
  {
    if p.Then? {
      OnlyOnce(p.plan, window);
      if Contains(p.plan, p.next) { Recorded(p.plan, window, p.next); }
    }
  }

  // ---- the 4-row generator ----

  /** Groups retired by the loop once it has started n groups. */
  function Drained(n: nat): nat { if n < 3 then 0 else if n % 2 == 0 then n - 2 else n - 3 }

  /** After every odd group but the first, the two oldest outstanding groups are awaited, then freed. */
  function DrainPlan(p: Plan, g: nat): Plan {
    if g % 2 == 1 && g >= 3 then
      Then(Then(Then(Then(p, AwaitAll(g - 3)), AwaitAll(g - 2)), FreeAll(g - 3)), FreeAll(g - 2))
    else p
  }

  function LoopPlan(n: nat): Plan {
    if n == 0 then Nothing else DrainPlan(Then(LoopPlan(n - 1), StartAll(n - 1)), n - 1)
  }

  /** The last group started into slot j, negative if there is none. */
  function LastIn(n: nat, j: nat): int { n - n % 4 + j - if j < n % 4 then 0 else 4 }

  /** The final drain empties the slots in slot order. */
  function TailPlan(n: nat, slots: nat): Plan {
    if slots == 0 then LoopPlan(n)
    else
      var p := TailPlan(n, slots - 1);
      var g := LastIn(n, slots - 1);
      if g >= Drained(n) then Then(Then(p, AwaitAll(g)), FreeAll(g)) else p
  }

  function FourRowPlan(n: nat): Plan { TailPlan(n, 4) }

  ghost predicate FirstGroups(groups: set<nat>, k: nat) { forall g: nat :: g in groups <==> g < k }

  /** A plan that has started, awaited and freed groups in order: the first n, k and f. */
  ghost predicate InOrder(p: Plan, window: nat, n: nat, k: nat, f: nat) {
    && Orderly(p, window) && AwaitsInOrder(p)
    && Starts(p) == n && Awaits(p) == k && Frees(p) == f
    && FirstGroups(Awaited(p), k) && FirstGroups(Freed(p), f)
  }

  /** A plan that has started groups 0..n-1 and retired groups 0..k-1 in order. */
  ghost predicate RetiredUpTo(p: Plan, n: nat, k: nat) { InOrder(p, 4, n, k, k) }

  lemma StartNext(p: Plan, window: nat, n: nat, k: nat, f: nat)
    requires InOrder(p, window, n, k, f) && n < k + window && n < f + window
    ensures InOrder(Then(p, StartAll(n)), window, n + 1, k, f)
  {
    assert Awaited(Then(p, StartAll(n))) == Awaited(p) && Freed(Then(p, StartAll(n))) == Freed(p);
  }

  lemma AwaitNext(p: Plan, window: nat, n: nat, k: nat, f: nat)
    requires InOrder(p, window, n, k, f) && k < n
    ensures InOrder(Then(p, AwaitAll(k)), window, n, k + 1, f)
  {
    assert Awaited(Then(p, AwaitAll(k))) == Awaited(p) + {k} && Freed(Then(p, AwaitAll(k))) == Freed(p);
  }

  lemma FreeNext(p: Plan, window: nat, n: nat, k: nat, f: nat)
    requires InOrder(p, window, n, k, f) && f < k
    ensures InOrder(Then(p, FreeAll(f)), window, n, k, f + 1)
  {
    assert Awaited(Then(p, FreeAll(f))) == Awaited(p) && Freed(Then(p, FreeAll(f))) == Freed(p) + {f};
  }

  lemma AwaitFreeTwo(p: Plan, n: nat, k: nat)
    requires RetiredUpTo(p, n, k) && k + 1 < n
    ensures RetiredUpTo(Then(Then(Then(Then(p, AwaitAll(k)), AwaitAll(k + 1)), FreeAll(k)), FreeAll(k + 1)), n, k + 2)
  {
    AwaitNext(p, 4, n, k, k);
    var p1 := Then(p, AwaitAll(k));
    AwaitNext(p1, 4, n, k + 1, k);
    var p2 := Then(p1, AwaitAll(k + 1));
    FreeNext(p2, 4, n, k + 2, k);
    FreeNext(Then(p2, FreeAll(k)), 4, n, k + 2, k + 1);
  }

  /** The loop: orderly, four groups outstanding at most, all groups below `Drained` retired. */
  lemma {:induction false} LoopOrderly(n: nat)
    ensures RetiredUpTo(LoopPlan(n), n, Drained(n))
  {
    if n > 0 {
      LoopOrderly(n - 1);
      LoopStep(LoopPlan(n - 1), n - 1);
      assert LoopPlan(n) == DrainPlan(Then(LoopPlan(n - 1), StartAll(n - 1)), n - 1);
    }
  }

  lemma LoopStep(p: Plan, g: nat)
    requires RetiredUpTo(p, g, Drained(g))
    ensures RetiredUpTo(DrainPlan(Then(p, StartAll(g)), g), g + 1, Drained(g + 1))
  {
    StartNext(p, 4, g, Drained(g), Drained(g));
    if g % 2 == 1 && g >= 3 { AwaitFreeTwo(Then(p, StartAll(g)), g + 1, g - 3); }
  }

  /** The one outstanding group of a slot. */
  lemma SlotHolds(n: nat, slot: nat)
    requires slot < 4
    ensures forall h: nat :: Drained(n) <= h < n && h % 4 == slot <==> h == LastIn(n, slot) && h >= Drained(n)
  {
    InSlot(n, n / 4, n % 4, slot);
  }

  /** The last groups of each slot are the last four groups, at most three of them outstanding. */
  lemma InSlot(n: nat, u: nat, v: nat, slot: nat)
    requires n == u * 4 + v && v < 4 && slot < 4
    ensures n % 4 == v && LastIn(n, slot) == (if slot < v then u else u - 1) * 4 + slot
    ensures forall h: nat :: n - 4 <= h < n && h % 4 == slot <==> h == LastIn(n, slot)
  {
    DivMod(u, v, 4);
    DivMod(if slot < v then u else u - 1, slot, 4);
    forall h: nat | n - 4 <= h < n && h % 4 == slot ensures h == LastIn(n, slot) { assert h == h / 4 * 4 + slot; }
  }

  /** The final drain after some slots: groups outside them are still outstanding. */
  ghost predicate Tail(p: Plan, n: nat, slots: nat) {
    && Orderly(p, 4) && Starts(p) == n
    && Awaits(p) == Drained(n) + TailCount(n, slots) && Frees(p) == Awaits(p)
    && (forall g: nat :: g in Awaited(p) <==> g < Drained(n) || (g < n && g % 4 < slots))
    && (forall g: nat :: g in Freed(p) <==> g < Drained(n) || (g < n && g % 4 < slots))
  }

  lemma TailStep(p: Plan, n: nat, slot: nat)
    requires slot < 4 && Tail(p, n, slot) && LastIn(n, slot) >= Drained(n)
    ensures Tail(Then(Then(p, AwaitAll(LastIn(n, slot))), FreeAll(LastIn(n, slot))), n, slot + 1)
  {
    SlotHolds(n, slot);
    var g: nat := LastIn(n, slot);
    var p1 := Then(p, AwaitAll(g));
    assert Orderly(p1, 4) && Starts(p1) == n && Awaited(p1) == Awaited(p) + {g} && Freed(p1) == Freed(p);
    var p2 := Then(p1, FreeAll(g));
    assert Orderly(p2, 4) && Starts(p2) == n && Awaited(p2) == Awaited(p) + {g} && Freed(p2) == Freed(p) + {g};
    assert Awaits(p2) == Awaits(p) + 1 && Frees(p2) == Frees(p) + 1;
  }

  lemma {:induction false} TailOrderly(n: nat, slots: nat)
    requires slots <= 4
    ensures Tail(TailPlan(n, slots), n, slots)
  {
    if slots == 0 {
      LoopOrderly(n);
    } else {
      TailOrderly(n, slots - 1);
      SlotHolds(n, slots - 1);
      if LastIn(n, slots - 1) >= Drained(n) { TailStep(TailPlan(n, slots - 1), n, slots - 1); }
    }
  }

  function TailCount(n: nat, slots: nat): nat {
    if slots == 0 then 0 else TailCount(n, slots - 1) + if LastIn(n, slots - 1) >= Drained(n) then 1 else 0
  }

  lemma TailCountAll(n: nat)
    ensures Drained(n) + TailCount(n, 4) == n
  {
    assert TailCount(n, 4) == TailCount(n, 3) + if LastIn(n, 3) >= Drained(n) then 1 else 0;
    assert TailCount(n, 3) == TailCount(n, 2) + if LastIn(n, 2) >= Drained(n) then 1 else 0;
    assert TailCount(n, 2) == TailCount(n, 1) + if LastIn(n, 1) >= Drained(n) then 1 else 0;
    assert TailCount(n, 1) == if LastIn(n, 0) >= Drained(n) then 1 else 0;
  }

  /** The task-group ring, for every number of groups: four outstanding groups at most, every group started,
      awaited and freed exactly once, inputs freed only after their outputs were awaited. */
  lemma FourRowRetires(n: nat)
    ensures Orderly(FourRowPlan(n), 4) && Retired(FourRowPlan(n), n) && Distinct(FourRowPlan(n))
    ensures forall g: nat :: (g < n <==> g in Awaited(FourRowPlan(n))) && (g < n <==> g in Freed(FourRowPlan(n)))
  {
    TailOrderly(n, 4);
    TailCountAll(n);
    AllRetired(FourRowPlan(n), n, Drained(n));
    OnlyOnce(FourRowPlan(n), 4);
  }

  /** Once all four slots are drained, everything started is retired. */
  lemma AllRetired(p: Plan, n: nat, d: nat)
    requires d <= n && Starts(p) == Awaits(p) == Frees(p) == n
    requires forall g: nat :: g in Awaited(p) <==> g < d || (g < n && g % 4 < 4)
    requires forall g: nat :: g in Freed(p) <==> g < d || (g < n && g % 4 < 4)
    ensures Retired(p, n)
  {
    AllGroups(Awaited(p), n, d);
    AllGroups(Freed(p), n, d);
  }

  lemma AllGroups(groups: set<nat>, n: nat, d: nat)
    requires d <= n && forall g: nat :: g in groups <==> g < d || (g < n && g % 4 < 4)
    ensures forall g: nat :: g < n <==> g in groups
  {}

  /** So a shim column never holds more than 12 tasks, and holds none at the end. */
  lemma FourRowTwelveTasks(n: nat, col: nat, x: nat)
    requires col < 8 && x <= |Expand(FourRowPlan(n), 4, 8)|
    ensures Held(Expand(FourRowPlan(n), 4, 8)[..x], col) <= 12
    ensures Held(Expand(FourRowPlan(n), 4, 8), col) == 0
  {
    FourRowRetires(n);
    HeldBound(FourRowPlan(n), 4, 4, 8, col);
  }

  /** The drain inside the loop keeps start order; the final drain goes by slot, so it keeps it exactly when
      the outstanding groups do not wrap around the ring. */
  lemma FourRowAwaitOrder(n: nat)
    ensures AwaitsInOrder(LoopPlan(n))
    ensures AwaitsInOrder(FourRowPlan(n)) <==> n < 5 || n % 4 != 1
  {
    LoopOrderly(n);
    TailInOrder(n, 4);
    SlotsInOrder(n);
  }

  lemma {:induction false} TailInOrder(n: nat, slots: nat)
    requires slots <= 4
    ensures AwaitsInOrder(TailPlan(n, slots)) <==> forall slot: nat :: slot < slots ==> InSlotOrder(n, slot)
  {
    if slots == 0 {
      LoopOrderly(n);
    } else {
      TailInOrder(n, slots - 1);
      TailOrder(n, slots);
    }
  }

  lemma SlotsInOrder(n: nat)
    ensures (forall slot: nat :: slot < 4 ==> InSlotOrder(n, slot)) <==> n < 5 || n % 4 != 1
  {
    if n >= 5 && n % 4 == 1 {
      assert LastIn(n, 2) == n - 3 && Drained(n) == n - 3;
      assert !InSlotOrder(n, 2) by { assert (n - 1) % 4 == 0; }
    } else {
      forall slot: nat | slot < 4 ensures InSlotOrder(n, slot) { NoWrap(n, slot); }
    }
  }

  lemma NoWrap(n: nat, slot: nat)
    requires slot < 4 && (n < 5 || n % 4 != 1)
    ensures InSlotOrder(n, slot)
  {
    var d := Drained(n);
    LeftOver(n);
    forall g: nat | LastIn(n, slot) >= d && (g < d || (g < n && g % 4 < slot)) ensures g < LastIn(n, slot) {
      if g >= d { SameLap(n, d, slot, g); }
    }
  }

  /** What the loop leaves undrained does not go round the ring. */
  lemma LeftOver(n: nat)
    requires n < 5 || n % 4 != 1
    ensures Drained(n) <= n && ((Drained(n) % 4 == 0 && n <= Drained(n) + 3) || (Drained(n) % 4 == 2 && n <= Drained(n) + 2))
  {
    var q, r := n / 4, n % 4;
    assert n == 4 * q + r && (n >= 5 ==> r != 1);
    if n >= 3 {
      var d := if r == 0 then 4 * (q - 1) + 2 else 4 * q;
      DivMod(if r == 0 then q - 1 else q, if r == 0 then 2 else 0, 4);
      DivMod(2 * q + r / 2, r % 2, 2);
      assert n % 2 == r % 2;
      assert Drained(n) == d;
    }
  }

  lemma SameLap(n: nat, d: nat, slot: nat, g: nat)
    requires slot < 4 && d <= g < n && g % 4 < slot && LastIn(n, slot) >= d
    requires (d % 4 == 0 && n <= d + 3) || (d % 4 == 2 && n <= d + 2)
    ensures g < LastIn(n, slot)
  {
    var q := d / 4;
    DivMod(q, g - 4 * q, 4);
    if n - 4 * q < 4 { DivMod(q, n - 4 * q, 4); } else { DivMod(q + 1, n - 4 * q - 4, 4); }
  }

  /** Every group drained before this slot is older than the slot's own. */
  ghost predicate InSlotOrder(n: nat, slot: nat) {
    LastIn(n, slot) >= Drained(n) ==>
      forall g: nat :: g < Drained(n) || (g < n && g % 4 < slot) ==> g < LastIn(n, slot)
  }

  lemma AwaitFreeOrder(p: Plan, g: nat)
    ensures AwaitsInOrder(Then(Then(p, AwaitAll(g)), FreeAll(g))) <==> AwaitsInOrder(p) && AllBelow(Awaited(p), g)
  {
    var p1 := Then(p, AwaitAll(g));
    assert AwaitsInOrder(p1) <==> AwaitsInOrder(p) && AllBelow(Awaited(p), g);
    assert AwaitsInOrder(Then(p1, FreeAll(g))) <==> AwaitsInOrder(p1);
  }

  lemma BelowIsSlotOrder(awaited: set<nat>, n: nat, slot: nat)
    requires forall g: nat :: g in awaited <==> g < Drained(n) || (g < n && g % 4 < slot)
    requires LastIn(n, slot) >= Drained(n)
    ensures AllBelow(awaited, LastIn(n, slot)) <==> InSlotOrder(n, slot)
  {
    if AllBelow(awaited, LastIn(n, slot)) {
      forall g: nat | g < Drained(n) || (g < n && g % 4 < slot) ensures g < LastIn(n, slot) { assert g in awaited; }
    }
  }

  lemma TailOrder(n: nat, slots: nat)
    requires 0 < slots <= 4
    ensures AwaitsInOrder(TailPlan(n, slots)) <==> AwaitsInOrder(TailPlan(n, slots - 1)) && InSlotOrder(n, slots - 1)
  {
    TailOrderly(n, slots - 1);
    var p, g := TailPlan(n, slots - 1), LastIn(n, slots - 1);
    if g >= Drained(n) {
      AwaitFreeOrder(p, g);
      BelowIsSlotOrder(Awaited(p), n, slots - 1);
    }
  }

  // ---- the v2 generator ----

  /** One group at a time: start, await, free. */
  function SerialPlan(n: nat): Plan {
    if n == 0 then Nothing
    else Then(Then(Then(SerialPlan(n - 1), StartAll(n - 1)), AwaitAll(n - 1)), FreeAll(n - 1))
  }

  lemma SerialStep(p: Plan, g: nat)
    requires InOrder(p, 1, g, g, g)
    ensures InOrder(Then(Then(Then(p, StartAll(g)), AwaitAll(g)), FreeAll(g)), 1, g + 1, g + 1, g + 1)
  {
    StartNext(p, 1, g, g, g);
    AwaitNext(Then(p, StartAll(g)), 1, g + 1, g, g);
    FreeNext(Then(Then(p, StartAll(g)), AwaitAll(g)), 1, g + 1, g + 1, g);
  }

  lemma {:induction false} SerialInOrder(n: nat)
    ensures InOrder(SerialPlan(n), 1, n, n, n)
  {
    if n > 0 {
      SerialInOrder(n - 1);
      SerialStep(SerialPlan(n - 1), n - 1);
    }
  }

  lemma SerialRetires(n: nat)
    ensures Orderly(SerialPlan(n), 1) && Retired(SerialPlan(n), n) && AwaitsInOrder(SerialPlan(n))
  {
    SerialInOrder(n);
  }
}
