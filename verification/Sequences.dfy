/** The runtime sequences as the generators' loops emit them, call by call. */
module Sequences {
  import opened Arith
  import opened Grid
  import opened Schedule
  import opened Taps

  /** Waiting for a list of output tasks, in list order. */
  function AwaitCalls(tasks: seq<Op>): seq<Op> {
    seq(|tasks|, x requires 0 <= x < |tasks| => if tasks[x].StartC? then AwaitC(tasks[x].group, tasks[x].col) else tasks[x])
  }

  /** Freeing a list of input tasks, in list order. */
  function FreeCalls(tasks: seq<Op>): seq<Op> {
    seq(|tasks|, x requires 0 <= x < |tasks| =>
      match tasks[x]
      case StartA(g, r) => FreeA(g, r)
      case StartB(g, c) => FreeB(g, c)
      case _ => tasks[x])
  }

  lemma RetireCalls(g: nat, rows: nat, cols: nat)
    ensures AwaitCalls(StartsC(g, cols)) == Calls(AwaitAll(g), rows, cols)
    ensures FreeCalls(StartsA(g, rows) + StartsB(g, cols)) == Calls(FreeAll(g), rows, cols)
  {}

  /** Every started task was given the tap of its group and channel. */
  ghost predicate TapsRight(sh: Shape, taps: map<Op, int>, groups: nat)
    requires sh.n > 0 && sh.cols > 0 && (groups > 0 ==> ColTiles(sh) > 0)
  {
    && (forall g: nat, r: nat :: g < groups && r < sh.rows ==>
          StartA(g, r) in taps && taps[StartA(g, r)] == ATap(sh, g, r))
    && (forall g: nat, c: nat :: g < groups && c < sh.cols ==>
          && StartB(g, c) in taps && taps[StartB(g, c)] == BTap(sh, g, c)
          && StartC(g, c) in taps && taps[StartC(g, c)] == CTap(sh, g, c))
  }

  /** Slot j of the ring holds the tasks of its last group, unless they were drained. */
  ghost predicate Slots(inputs: seq<seq<Op>>, outputs: seq<seq<Op>>, n: nat, drained: nat) {
    |inputs| == 4 && |outputs| == 4 && forall j: nat :: j < 4 ==> Slot(inputs[j], outputs[j], LastIn(n, j), drained)
  }

  ghost predicate Slot(input: seq<Op>, output: seq<Op>, last: int, drained: nat) {
    if last >= drained then input == StartsA(last, 4) + StartsB(last, 8) && output == StartsC(last, 8)
    else input == [] && output == []
  }

  method StartInputs(sh: Shape, g: nat, before: map<Op, int>) returns (input: seq<Op>, taps: map<Op, int>)
    requires sh.n > 0 && sh.cols > 0 && ColTiles(sh) > 0
    ensures input == StartsA(g, sh.rows)
    ensures forall op :: op in before && !(op.StartA? && op.group == g) ==> op in taps && taps[op] == before[op]
    ensures forall r: nat :: r < sh.rows ==> StartA(g, r) in taps && taps[StartA(g, r)] == ATap(sh, g, r)
  {
    input, taps := [], before;
    var base := g / ColTiles(sh) * sh.rows;
    for row := 0 to sh.rows
      invariant input == StartsA(g, sh.rows)[..row]
      invariant forall op :: op in before && !(op.StartA? && op.group == g) ==> op in taps && taps[op] == before[op]
      invariant forall r: nat :: r < row ==> StartA(g, r) in taps && taps[StartA(g, r)] == ATap(sh, g, r)
    {
      taps := taps[StartA(g, row) := base + row];
      input := input + [StartA(g, row)];
    }
  }

  method StartWeights(sh: Shape, g: nat, before: map<Op, int>) returns (input: seq<Op>, taps: map<Op, int>)
    requires sh.n > 0 && sh.cols > 0 && ColTiles(sh) > 0
    ensures input == StartsB(g, sh.cols)
    ensures forall op :: op in before && !(op.StartB? && op.group == g) ==> op in taps && taps[op] == before[op]
    ensures forall c: nat :: c < sh.cols ==> StartB(g, c) in taps && taps[StartB(g, c)] == BTap(sh, g, c)
  {
    input, taps := [], before;
    var base := g % ColTiles(sh) * sh.cols;
    for col := 0 to sh.cols
      invariant input == StartsB(g, sh.cols)[..col]
      invariant forall op :: op in before && !(op.StartB? && op.group == g) ==> op in taps && taps[op] == before[op]
      invariant forall c: nat :: c < col ==> StartB(g, c) in taps && taps[StartB(g, c)] == BTap(sh, g, c)
    {
      taps := taps[StartB(g, col) := base + col];
      input := input + [StartB(g, col)];
    }
  }

  method StartOutputs(sh: Shape, g: nat, before: map<Op, int>) returns (output: seq<Op>, taps: map<Op, int>)
    ensures output == StartsC(g, sh.cols)
    ensures forall op :: op in before && !(op.StartC? && op.group == g) ==> op in taps && taps[op] == before[op]
    ensures forall c: nat :: c < sh.cols ==> StartC(g, c) in taps && taps[StartC(g, c)] == CTap(sh, g, c)
  {
    output, taps := [], before;
    var base := g * sh.cols;
    for col := 0 to sh.cols
      invariant output == StartsC(g, sh.cols)[..col]
      invariant forall op :: op in before && !(op.StartC? && op.group == g) ==> op in taps && taps[op] == before[op]
      invariant forall c: nat :: c < col ==> StartC(g, c) in taps && taps[StartC(g, c)] == CTap(sh, g, c)
    {
      taps := taps[StartC(g, col) := base + col];
      output := output + [StartC(g, col)];
    }
  }

  /** Emits the A, B and C starts of one group. */
  method StartGroup(sh: Shape, g: nat, before: map<Op, int>)
    returns (input: seq<Op>, output: seq<Op>, taps: map<Op, int>)
    requires sh.n > 0 && sh.cols > 0 && ColTiles(sh) > 0 && TapsRight(sh, before, g)
    ensures input == StartsA(g, sh.rows) + StartsB(g, sh.cols) && output == StartsC(g, sh.cols)
    ensures input + output == Calls(StartAll(g), sh.rows, sh.cols)
    ensures TapsRight(sh, taps, g + 1)
  {
    var a, b;
    a, taps := StartInputs(sh, g, before);
    b, taps := StartWeights(sh, g, taps);
    input := a + b;
    output, taps := StartOutputs(sh, g, taps);
  }

  /** Awaits and forgets the outputs of one slot, if it has any. */
  method AwaitSlot(outputs: array<seq<Op>>, j: nat, trace: seq<Op>) returns (longer: seq<Op>)
    requires j < outputs.Length
    modifies outputs
    ensures longer == trace + AwaitCalls(old(outputs[j]))
    ensures outputs[..] == old(outputs[..])[j := []]
  {
    longer := trace;
    if outputs[j] != [] {
      longer := longer + AwaitCalls(outputs[j]);
      outputs[j] := [];
    }
  }

  method FreeSlot(inputs: array<seq<Op>>, j: nat, trace: seq<Op>) returns (longer: seq<Op>)
    requires j < inputs.Length
    modifies inputs
    ensures longer == trace + FreeCalls(old(inputs[j]))
    ensures inputs[..] == old(inputs[..])[j := []]
  {
    longer := trace;
    if inputs[j] != [] {
      longer := longer + FreeCalls(inputs[j]);
      inputs[j] := [];
    }
  }

  /** Two neighbouring slots: both outputs first, then both inputs. */
  method DrainTwo(inputs: array<seq<Op>>, outputs: array<seq<Op>>, j: nat, ghost g: nat, trace: seq<Op>)
    returns (longer: seq<Op>)
    requires inputs.Length == 4 && outputs.Length == 4 && inputs != outputs && j < 3
    requires inputs[j] == StartsA(g, 4) + StartsB(g, 8) && outputs[j] == StartsC(g, 8)
    requires inputs[j + 1] == StartsA(g + 1, 4) + StartsB(g + 1, 8) && outputs[j + 1] == StartsC(g + 1, 8)
    modifies inputs, outputs
    ensures longer == trace + Calls(AwaitAll(g), 4, 8) + Calls(AwaitAll(g + 1), 4, 8)
                            + Calls(FreeAll(g), 4, 8) + Calls(FreeAll(g + 1), 4, 8)
    ensures inputs[..] == old(inputs[..])[j := []][j + 1 := []]
    ensures outputs[..] == old(outputs[..])[j := []][j + 1 := []]
  {
    RetireCalls(g, 4, 8);
    RetireCalls(g + 1, 4, 8);
    longer := AwaitSlot(outputs, j, trace);
    assert outputs[j + 1] == outputs[..][j + 1];
    longer := AwaitSlot(outputs, j + 1, longer);
    longer := FreeSlot(inputs, j, longer);
    assert inputs[j + 1] == inputs[..][j + 1];
    longer := FreeSlot(inputs, j + 1, longer);
  }

  /** Appends a group's tasks to its slot, which is empty when it is reused. */
  method FillSlot(inputs: array<seq<Op>>, outputs: array<seq<Op>>, g: nat, input: seq<Op>, output: seq<Op>)
    requires inputs.Length == 4 && outputs.Length == 4 && inputs != outputs
    requires Slots(inputs[..], outputs[..], g, Drained(g))
    requires input == StartsA(g, 4) + StartsB(g, 8) && output == StartsC(g, 8)
    modifies inputs, outputs
    ensures old(inputs[g % 4]) == [] && old(outputs[g % 4]) == []
    ensures Slots(inputs[..], outputs[..], g + 1, Drained(g))
  {
    var slot := g % 4;
    assert LastIn(g, slot) == g - 4;
    assert inputs[slot] == inputs[..][slot] && outputs[slot] == outputs[..][slot];
    inputs[slot] := inputs[slot] + input;
    outputs[slot] := outputs[slot] + output;
    assert [] + input == input && [] + output == output;
    assert inputs[slot] == input && outputs[slot] == output;
    assert inputs[..] == old(inputs[..])[slot := input] && outputs[..] == old(outputs[..])[slot := output];
    forall j: nat | j < 4 ensures LastIn(g + 1, j) == if j == slot then g else LastIn(g, j) {}
  }

  lemma SlotsDrained(inputs: seq<seq<Op>>, outputs: seq<seq<Op>>, g: nat, j: nat)
    requires g >= 3 && g % 2 == 1 && (g - 3) % 4 == j && Slots(inputs, outputs, g + 1, Drained(g))
    ensures j < 3
    ensures inputs[j] == StartsA(g - 3, 4) + StartsB(g - 3, 8) && outputs[j] == StartsC(g - 3, 8)
    ensures inputs[j + 1] == StartsA(g - 2, 4) + StartsB(g - 2, 8) && outputs[j + 1] == StartsC(g - 2, 8)
    ensures Slots(inputs[j := []][j + 1 := []], outputs[j := []][j + 1 := []], g + 1, Drained(g + 1))
  {
    LastDrained(g, j, j);
    LastDrained(g, j, j + 1);
    assert Slot(inputs[j], outputs[j], g - 3, g - 3) && Slot(inputs[j + 1], outputs[j + 1], g - 2, g - 3);
    var i2, o2 := inputs[j := []][j + 1 := []], outputs[j := []][j + 1 := []];
    forall i: nat | i < 4 ensures Slot(i2[i], o2[i], LastIn(g + 1, i), Drained(g + 1)) {
      LastDrained(g, j, i);
      assert Slot(inputs[i], outputs[i], LastIn(g + 1, i), g - 3);
    }
  }

  /** The two drained slots hold the two oldest groups; the other slots are not drained. */
  lemma LastDrained(g: nat, j: nat, i: nat)
    requires g >= 3 && g % 2 == 1 && (g - 3) % 4 == j && i < 4
    ensures j < 3 && Drained(g) == g - 3 && Drained(g + 1) == g - 1
    ensures if i == j then LastIn(g + 1, i) == g - 3
            else if i == j + 1 then LastIn(g + 1, i) == g - 2 else LastIn(g + 1, i) >= g - 1
  {
    OddGroup(g);
    if j == 0 { assert LastIn(g + 1, i) == g + 1 + i - 4; } else { assert LastIn(g + 1, i) == g - 1 + i - if i < 2 then 0 else 4; }
  }

  lemma OddGroup(g: nat)
    requires g >= 3 && g % 2 == 1
    ensures ((g - 3) % 4 == 0 && (g + 1) % 4 == 0) || ((g - 3) % 4 == 2 && (g + 1) % 4 == 2)
    ensures (g + 1) % 2 == 0
  {
    var h := g / 2 - 1;
    var u, v := h / 2, h % 2;
    assert g - 3 == u * 4 + 2 * v && g + 1 == (u + 1) * 4 + 2 * v;
    DivMod(u, 2 * v, 4);
    DivMod(u + 1, 2 * v, 4);
    DivMod(h + 2, 0, 2);
  }

  lemma ExpandDrain(plan: Plan, g: nat)
    requires g >= 3 && g % 2 == 1
    ensures Expand(DrainPlan(plan, g), 4, 8) == Expand(plan, 4, 8) + Calls(AwaitAll(g - 3), 4, 8) + Calls(AwaitAll(g - 2), 4, 8)
                                                + Calls(FreeAll(g - 3), 4, 8) + Calls(FreeAll(g - 2), 4, 8)
  {
    var p1 := Then(plan, AwaitAll(g - 3));
    var p2 := Then(p1, AwaitAll(g - 2));
    var p3 := Then(p2, FreeAll(g - 3));
    assert Expand(p2, 4, 8) == Expand(p1, 4, 8) + Calls(AwaitAll(g - 2), 4, 8);
    assert Expand(p3, 4, 8) == Expand(p2, 4, 8) + Calls(FreeAll(g - 3), 4, 8);
    assert DrainPlan(plan, g) == Then(p3, FreeAll(g - 2));
  }

  /** The slots of groups g - 3 and g - 2, at index j, drained after group g. */
  method DrainSlots(inputs: array<seq<Op>>, outputs: array<seq<Op>>, j: nat, g: nat, trace: seq<Op>, ghost plan: Plan)
    returns (longer: seq<Op>)
    requires inputs.Length == 4 && outputs.Length == 4 && inputs != outputs && j < 3
    requires g >= 3 && g % 2 == 1 && (g - 3) % 4 == j
    requires Slots(inputs[..], outputs[..], g + 1, Drained(g)) && trace == Expand(plan, 4, 8)
    modifies inputs, outputs
    ensures Slots(inputs[..], outputs[..], g + 1, Drained(g + 1)) && longer == Expand(DrainPlan(plan, g), 4, 8)
  {
    SlotsDrained(inputs[..], outputs[..], g, j);
    ExpandDrain(plan, g);
    assert inputs[j] == inputs[..][j] && outputs[j] == outputs[..][j];
    assert inputs[j + 1] == inputs[..][j + 1] && outputs[j + 1] == outputs[..][j + 1];
    longer := DrainTwo(inputs, outputs, j, g - 3, trace);
  }

  /** When the loop body drains, and which slots. */
  lemma WhichSlots(g: nat)
    ensures g % 4 == 1 && g != 1 ==> g >= 3 && g % 2 == 1 && (g - 3) % 4 == 2 && g % 4 != 3
    ensures g % 4 == 3 ==> g >= 3 && g % 2 == 1 && (g - 3) % 4 == 0
    ensures !(g % 4 == 1 && g != 1) && g % 4 != 3 ==> !(g % 2 == 1 && g >= 3) && Drained(g + 1) == Drained(g)
  {
    BySlot(g, g / 4, g % 4);
  }

  lemma BySlot(g: nat, u: nat, v: nat)
    requires g == u * 4 + v && v < 4
    ensures g % 4 == v && g % 2 == v % 2 && (g - 3) % 4 == if v == 3 then 0 else v + 1
  {
    DivMod(u, v, 4);
    DivMod(2 * u + v / 2, v % 2, 2);
    DivMod(if v == 3 then u else u - 1, if v == 3 then 0 else v + 1, 4);
  }

  /** The drain at the end of the loop body. */
  method DrainCompleted(inputs: array<seq<Op>>, outputs: array<seq<Op>>, g: nat, trace: seq<Op>, ghost plan: Plan)
    returns (longer: seq<Op>)
    requires inputs.Length == 4 && outputs.Length == 4 && inputs != outputs
    requires Slots(inputs[..], outputs[..], g + 1, Drained(g)) && trace == Expand(plan, 4, 8)
    modifies inputs, outputs
    ensures Slots(inputs[..], outputs[..], g + 1, Drained(g + 1)) && longer == Expand(DrainPlan(plan, g), 4, 8)
  {
    longer := trace;
    WhichSlots(g);
    if g % 4 == 1 && g != 1 {
      longer := DrainSlots(inputs, outputs, 2, g, longer, plan);
    }
    if g % 4 == 3 {
      longer := DrainSlots(inputs, outputs, 0, g, longer, plan);
    }
  }

  /** The 4-row generator's runtime sequence with its ring of four task groups. */
  method FourRowSequence(sh: Shape) returns (trace: seq<Op>, taps: map<Op, int>)
    requires sh.m > 0 && sh.n > 0 && sh.rows == 4 && sh.cols == 8
    ensures trace == Expand(FourRowPlan(Groups(sh)), 4, 8)
    ensures (Groups(sh) > 0 ==> ColTiles(sh) > 0) && TapsRight(sh, taps, Groups(sh))
  {
    var groups := RowTiles(sh) * ColTiles(sh);
    var inputs := new seq<Op>[4](_ => []);
    var outputs := new seq<Op>[4](_ => []);
    trace, taps := [], map[];
    for g := 0 to groups
      invariant g > 0 ==> ColTiles(sh) > 0
      invariant inputs != outputs && inputs.Length == 4 && outputs.Length == 4
      invariant trace == Expand(LoopPlan(g), 4, 8)
      invariant TapsRight(sh, taps, g)
      invariant Slots(inputs[..], outputs[..], g, Drained(g))
    {
      var input, output;
      input, output, taps := StartGroup(sh, g, taps);
      trace := trace + (input + output);
      FillSlot(inputs, outputs, g, input, output);
      assert trace == Expand(Then(LoopPlan(g), StartAll(g)), 4, 8);
      trace := DrainCompleted(inputs, outputs, g, trace, Then(LoopPlan(g), StartAll(g)));
    }
    trace := DrainRest(inputs, outputs, groups, trace);
  }

  /** The drain after the loop: slot by slot, whatever is outstanding. */
  method DrainRest(inputs: array<seq<Op>>, outputs: array<seq<Op>>, groups: nat, before: seq<Op>) returns (trace: seq<Op>)
    requires inputs.Length == 4 && outputs.Length == 4 && Slots(inputs[..], outputs[..], groups, Drained(groups))
    requires before == Expand(LoopPlan(groups), 4, 8)
    ensures trace == Expand(FourRowPlan(groups), 4, 8)
  {
    trace := before;
    for j := 0 to 4
      invariant trace == Expand(TailPlan(groups, j), 4, 8)
    {
      assert inputs[j] == inputs[..][j] && outputs[j] == outputs[..][j];
      assert outputs[j] != [] <==> LastIn(groups, j) >= Drained(groups) by {
        if LastIn(groups, j) >= Drained(groups) { assert outputs[j][0] == StartC(LastIn(groups, j), 0); }
      }
      if outputs[j] != [] {
        RetireCalls(LastIn(groups, j), 4, 8);
        trace := trace + AwaitCalls(outputs[j]);
        trace := trace + FreeCalls(inputs[j]);
      }
    }
  }

  /** The v2 generator's runtime sequence: one group at a time. */
  method SerialSequence(sh: Shape) returns (trace: seq<Op>, taps: map<Op, int>)
    requires sh.m > 0 && sh.n > 0 && sh.rows == 1 && sh.cols == 8
    ensures trace == Expand(SerialPlan(Groups(sh)), 1, 8)
    ensures (Groups(sh) > 0 ==> ColTiles(sh) > 0) && TapsRight(sh, taps, Groups(sh))
  {
    var groups := RowTiles(sh) * ColTiles(sh);
    trace, taps := [], map[];
    for g := 0 to groups
      invariant g > 0 ==> ColTiles(sh) > 0
      invariant trace == Expand(SerialPlan(g), 1, 8)
      invariant TapsRight(sh, taps, g)
    {
      var input, output;
      input, output, taps := StartGroup(sh, g, taps);
      RetireCalls(g, 1, 8);
      trace := trace + (input + output);
      ghost var started := Then(SerialPlan(g), StartAll(g));
      assert trace == Expand(started, 1, 8);
      trace := trace + AwaitCalls(output);
      assert trace == Expand(Then(started, AwaitAll(g)), 1, 8);
      trace := trace + FreeCalls(input);
    }
  }
}
