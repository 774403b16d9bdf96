/** The NPU IP block's life: initialisation, suspend and resume, teardown, and the two ioctl guards. */
module Lifecycle {

  datatype Status = Uninit | Started | Stopped

  /** The device's NPU structure; firmware is a pointer that is null or not. */
  datatype Fields = Fields(status: Status, pdev: bool, fw: bool)

  datatype Option<T> = None | Some(value: T)

  /** How often something was taken and given back. */
  datatype Count = Count(taken: nat, released: nat)

  datatype Ledger = Ledger(structs: Count, firmware: Count, rings: Count, functions: Count)

  datatype State = State(npu: Option<Fields>, ledger: Ledger)

  const ENOMEM := -12
  const ENODEV := -19

  function Taken(c: Count): Count { c.(taken := c.taken + 1) }

  function Given(c: Count): Count { c.(released := c.released + 1) }

  predicate Settled(c: Count) { c.taken == c.released }

  predicate Balanced(l: Ledger) { Settled(l.structs) && Settled(l.firmware) && Settled(l.rings) && Settled(l.functions) }

  /** Calls, with what the kernel answers: memory available, function found, error of a request or 0. */
  datatype Call =
    | EarlyInit(memory: bool, found: bool)
    | SwInit(fwError: int, ringError: int)
    | HwInit
    | HwFini
    | Suspend
    | Resume
    | SwFini

  predicate Present(s: State) { s.npu.Some? && s.npu.value.pdev }

  predicate Running(s: State) { Present(s) && s.npu.value.status == Started }

  function Result(s: State, c: Call): int {
    match c
    case EarlyInit(memory, _) => if memory then 0 else ENOMEM
    case SwInit(fwError, ringError) => if !Present(s) then 0 else if fwError != 0 then fwError else ringError
    case _ => 0
  }

  function SetStatus(s: State, status: Status): State
    requires s.npu.Some?
  {
    s.(npu := Some(s.npu.value.(status := status)))
  }

  function Next(s: State, c: Call): State {
    var l := s.ledger;
    match c
    case EarlyInit(memory, found) =>
      if !memory then s
      else State(Some(Fields(Uninit, found, false)),
                 l.(structs := Taken(l.structs), functions := if found then Taken(l.functions) else l.functions))
    case SwInit(fwError, ringError) =>
      if !Present(s) then s
      else if fwError != 0 then s.(npu := Some(s.npu.value.(fw := false)))
      else s.(npu := Some(s.npu.value.(fw := true)),
              ledger := if ringError != 0 then l.(firmware := Given(Taken(l.firmware)))
                        else l.(firmware := Taken(l.firmware), rings := Taken(l.rings)))
    case HwInit => if Present(s) then SetStatus(s, Started) else s
    case Resume => if Present(s) then SetStatus(s, Started) else s
    case HwFini => if Running(s) then SetStatus(s, Stopped) else s
    case Suspend => if Running(s) then SetStatus(s, Stopped) else s
    case SwFini =>
      if s.npu.None? then s
      else State(None, l.(rings := Given(l.rings), structs := Given(l.structs),
                          firmware := if s.npu.value.fw then Given(l.firmware) else l.firmware,
                          functions := if s.npu.value.pdev then Given(l.functions) else l.functions))
  }

  /** The guard of the context ioctl, and the shorter one of the submission ioctl. */
  predicate CtxAccepts(s: State) { s.npu.Some? && s.npu.value.pdev && s.npu.value.status == Started }

  predicate ExecAccepts(s: State) { s.npu.Some? && s.npu.value.status == Started }

  function After(s: State, calls: seq<Call>): State
    decreases |calls|
  {
    if calls == [] then s else After(Next(s, calls[0]), calls[1..])
  }

  const Initial := State(None, Ledger(Count(0, 0), Count(0, 0), Count(0, 0), Count(0, 0)))

  predicate StartedHasFunction(s: State) { s.npu.Some? && s.npu.value.status == Started ==> s.npu.value.pdev }

  lemma {:induction false} KeepsFunction(s: State, calls: seq<Call>)
    requires StartedHasFunction(s)
    ensures StartedHasFunction(After(s, calls))
    decreases |calls|
  {
    if calls != [] { KeepsFunction(Next(s, calls[0]), calls[1..]); }
  }

  /** In any order of calls, the shorter guard accepts exactly the states the longer one does. */
  lemma GuardsAgree(calls: seq<Call>)
    ensures CtxAccepts(After(Initial, calls)) <==> ExecAccepts(After(Initial, calls))
  {
    KeepsFunction(Initial, calls);
  }

  // ---- the state, read off the calls ----

  /** Call i allocated the structure that is still there, with or without the PCI function. */
  ghost predicate CreatedAt(calls: seq<Call>, i: int, found: bool) {
    && 0 <= i < |calls| && calls[i] == EarlyInit(true, found)
    && forall n :: i < n < |calls| ==> !calls[n].SwFini? && !(calls[n].EarlyInit? && calls[n].memory)
  }

  /** Call j starts the hardware after call i, and nothing stops it afterwards. */
  ghost predicate StartedAt(calls: seq<Call>, i: int, j: int) {
    && 0 <= i < j < |calls| && (calls[j].HwInit? || calls[j].Resume?)
    && forall n :: j < n < |calls| ==> !calls[n].HwFini? && !calls[n].Suspend?
  }

  ghost predicate Up(calls: seq<Call>, i: int) { exists j :: StartedAt(calls, i, j) }

  ghost predicate NeverStarted(calls: seq<Call>, i: int) {
    forall n :: 0 <= i < n < |calls| ==> !calls[n].HwInit? && !calls[n].Resume?
  }

  /** The structure and its status after any calls. */
  lemma {:induction false} StatusAfter(calls: seq<Call>, i: int, found: bool)
    requires CreatedAt(calls, i, found)
    ensures var npu := After(Initial, calls).npu;
      && npu.Some? && npu.value.pdev == found
      && (npu.value.status == Started <==> found && Up(calls, i))
      && (npu.value.status == Uninit <==> !found || NeverStarted(calls, i))
  {
    var before, last := calls[..|calls| - 1], calls[|calls| - 1];
    assert before + [last] == calls;
    AfterConcat(Initial, before, last);
    if i < |before| {
      assert CreatedAt(before, i, found);
      StatusAfter(before, i, found);
      UpStep(before, last, i);
    } else {
      assert !Up(calls, i);
    }
  }

  lemma UpStep(before: seq<Call>, last: Call, i: int)
    requires 0 <= i < |before|
    ensures Up(before + [last], i) <==> last.HwInit? || last.Resume? || (Up(before, i) && !last.HwFini? && !last.Suspend?)
    ensures NeverStarted(before + [last], i) <==> NeverStarted(before, i) && !last.HwInit? && !last.Resume?
  {
    var calls := before + [last];
    if last.HwInit? || last.Resume? { assert StartedAt(calls, i, |before|); }
    if j :| StartedAt(before, i, j) {
      if !last.HwFini? && !last.Suspend? { assert StartedAt(calls, i, j); }
    }
    if j :| StartedAt(calls, i, j) {
      if j < |before| {
        assert calls[|before|] == last && calls[j] == before[j];
        forall n | j < n < |before| ensures !before[n].HwFini? && !before[n].Suspend? { assert calls[n] == before[n]; }
        assert StartedAt(before, i, j);
      }
    }
    if NeverStarted(calls, i) {
      forall n | i < n < |before| ensures !before[n].HwInit? && !before[n].Resume? { assert calls[n] == before[n]; }
      assert calls[|before|] == last;
    }
  }

  lemma {:induction false} NoneAfter(calls: seq<Call>)
    requires forall i, found :: !CreatedAt(calls, i, found)
    ensures After(Initial, calls).npu.None?
  {
    if calls != [] {
      var before, last := calls[..|calls| - 1], calls[|calls| - 1];
      assert before + [last] == calls;
      AfterConcat(Initial, before, last);
      if last.EarlyInit? { assert !CreatedAt(calls, |before|, last.found); }
      if !last.SwFini? {
        forall i, found ensures !CreatedAt(before, i, found) {
          if CreatedAt(before, i, found) { assert CreatedAt(calls, i, found); }
        }
        NoneAfter(before);
      }
    }
  }

  /**
   Submissions are accepted exactly if the last structure allocated is still there, its PCI function was found, and
   since then the hardware was started and not stopped again: never straight after initialisation.
   */
  lemma AcceptedIff(calls: seq<Call>)
    ensures ExecAccepts(After(Initial, calls)) <==> exists i :: CreatedAt(calls, i, true) && Up(calls, i)
  {
    if i, found :| CreatedAt(calls, i, found) {
      StatusAfter(calls, i, found);
      forall i' | CreatedAt(calls, i', true) ensures found && (Up(calls, i') <==> Up(calls, i)) { StatusAfter(calls, i', true); }
    } else {
      NoneAfter(calls);
    }
  }

  // ---- whole lives ----

  predicate Middle(c: Call) { c.HwInit? || c.HwFini? || c.Suspend? || c.Resume? }

  predicate AllMiddle(calls: seq<Call>) { forall i :: 0 <= i < |calls| ==> Middle(calls[i]) }

  /** Power management touches nothing but the status. */
  lemma {:induction false} MiddleKeeps(s: State, calls: seq<Call>)
    requires AllMiddle(calls)
    ensures var s' := After(s, calls);
      && s'.ledger == s.ledger && s'.npu.Some? == s.npu.Some?
      && (s.npu.Some? ==> s'.npu.value == s.npu.value.(status := s'.npu.value.status))
    decreases |calls|
  {
    if calls != [] { MiddleKeeps(Next(s, calls[0]), calls[1..]); }
  }

  /** What the kernel answered over one life of the block, and the power management calls in between. */
  datatype Life = Life(found: bool, fwError: int, ringError: int, middle: seq<Call>)

  function Calls(life: Life): seq<Call> {
    [EarlyInit(true, life.found), SwInit(life.fwError, life.ringError)] + life.middle + [SwFini]
  }

  /** Ledger before the block is torn down. */
  lemma BeforeFini(s: State, life: Life)
    requires s.npu.None? && AllMiddle(life.middle)
    ensures var s1 := Next(Next(s, EarlyInit(true, life.found)), SwInit(life.fwError, life.ringError));
      After(s, Calls(life)) == Next(After(s1, life.middle), SwFini)
  {
    var s1 := Next(Next(s, EarlyInit(true, life.found)), SwInit(life.fwError, life.ringError));
    var calls := Calls(life);
    assert calls[1..][1..] == life.middle + [SwFini];
    assert After(s, calls) == After(s1, life.middle + [SwFini]);
    AfterConcat(s1, life.middle, SwFini);
  }

  lemma {:induction false} AfterConcat(s: State, calls: seq<Call>, last: Call)
    ensures After(s, calls + [last]) == Next(After(s, calls), last)
    decreases |calls|
  {
    if calls == [] {
      assert ([] + [last])[1..] == [];
      assert After(s, [last]) == After(Next(s, last), [last][1..]);
    } else {
      assert (calls + [last])[1..] == calls[1..] + [last];
      AfterConcat(Next(s, calls[0]), calls[1..], last);
    }
  }

  function Plus(c: Count, taken: nat, released: nat): Count { Count(c.taken + taken, c.released + released) }

  /** Exactly what one life takes and gives back. */
  lemma LifeLedger(s: State, life: Life)
    requires s.npu.None? && AllMiddle(life.middle)
    ensures var s' := After(s, Calls(life)); var l, l' := s.ledger, s'.ledger;
      var loads := life.found && life.fwError == 0;
      && s'.npu.None?
      && l'.structs == Plus(l.structs, 1, 1)
      && l'.functions == (if life.found then Plus(l.functions, 1, 1) else l.functions)
      && l'.firmware == (if !loads then l.firmware
                          else if life.ringError == 0 then Plus(l.firmware, 1, 1) else Plus(l.firmware, 1, 2))
      && l'.rings == Plus(l.rings, if loads && life.ringError == 0 then 1 else 0, 1)
  {
    BeforeFini(s, life);
    MiddleKeeps(Next(Next(s, EarlyInit(true, life.found)), SwInit(life.fwError, life.ringError)), life.middle);
  }

  /**
   Torn down after any number of suspends and resumes, the block has given back everything exactly once if and only
   if the PCI function was found and software initialisation succeeded. Without the function sw_init succeeds too,
   but sw_fini still tears down a ring that was never set up.
   */
  lemma LifeBalancedIff(life: Life)
    requires AllMiddle(life.middle)
    ensures Balanced(After(Initial, Calls(life)).ledger) <==> life.found && life.fwError == 0 && life.ringError == 0
  {
    LifeLedger(Initial, life);
  }

  function AllCalls(lives: seq<Life>): seq<Call> {
    if lives == [] then [] else AllCalls(lives[..|lives| - 1]) + Calls(lives[|lives| - 1])
  }

  /** Lives in which software initialisation succeeded: only ones without the function leave anything unbalanced. */
  function Absent(lives: seq<Life>): nat {
    if lives == [] then 0 else Absent(lives[..|lives| - 1]) + if lives[|lives| - 1].found then 0 else 1
  }

  lemma {:induction false} AfterSplit(s: State, calls: seq<Call>, more: seq<Call>)
    ensures After(s, calls + more) == After(After(s, calls), more)
    decreases |calls|
  {
    if calls == [] {
      assert [] + more == more;
    } else {
      assert (calls + more)[1..] == calls[1..] + more;
      AfterSplit(Next(s, calls[0]), calls[1..], more);
    }
  }

  /** Over any number of lives with a successful sw_init, the ring alone goes out of balance, once a life without the function. */
  lemma {:induction false} LivesLedger(lives: seq<Life>)
    requires forall i :: 0 <= i < |lives| ==>
      AllMiddle(lives[i].middle) && (lives[i].found ==> lives[i].fwError == 0 && lives[i].ringError == 0)
    ensures var s := After(Initial, AllCalls(lives)); var l := s.ledger;
      && s.npu.None? && Settled(l.structs) && Settled(l.firmware) && Settled(l.functions)
      && l.rings.released == l.rings.taken + Absent(lives)
  {
    if lives != [] {
      var before, life := lives[..|lives| - 1], lives[|lives| - 1];
      LivesLedger(before);
      AfterSplit(Initial, AllCalls(before), Calls(life));
      LifeLedger(After(Initial, AllCalls(before)), life);
    }
  }

  /**
   Over any suspends, resumes, starts and stops of a present block the last call alone decides whether submissions are
   accepted, and nothing but the status has changed: one that ends with a resume restores a running block completely.
   */
  lemma PowerCycles(s: State, calls: seq<Call>)
    requires Present(s) && AllMiddle(calls) && calls != []
    ensures var last := calls[|calls| - 1]; var s' := After(s, calls);
      && (ExecAccepts(s') <==> last.HwInit? || last.Resume?)
      && s'.ledger == s.ledger && Present(s') && s'.npu.value.fw == s.npu.value.fw
      && (Running(s) && Running(s') ==> s' == s)
  {
    var before, last := calls[..|calls| - 1], calls[|calls| - 1];
    assert before + [last] == calls;
    MiddleKeeps(s, before);
    AfterConcat(s, before, last);
  }

  /** A suspend and resume of a running block changes nothing; between them submissions are refused. */
  lemma SuspendResume(s: State)
    requires Running(s)
    ensures !ExecAccepts(After(s, [Suspend])) && After(s, [Suspend, Resume]) == s
  {
    PowerCycles(s, [Suspend]);
    PowerCycles(s, [Suspend, Resume]);
  }

  // ---- the callbacks ----

  class Npu {
    var status: Status
    var pdev: bool
    var fw: bool

    /** kzalloc. */
    constructor ()
      ensures status == Uninit && !pdev && !fw
    {
      status, pdev, fw := Uninit, false, false;
    }
  }

  class Device {
    var npu: Npu?
    ghost var ledger: Ledger

    ghost function View(): State
      reads this, npu
    {
      State(if npu == null then None else Some(Fields(npu.status, npu.pdev, npu.fw)), ledger)
    }

    constructor ()
      ensures View() == Initial
    {
      npu := null;
      ledger := Initial.ledger;
    }

    method DoEarlyInit(memory: bool, found: bool) returns (r: int)
      modifies this
      ensures r == (if memory then 0 else -12) == Result(old(View()), EarlyInit(memory, found))
      ensures View() == Next(old(View()), EarlyInit(memory, found))
    {
      if !memory { return ENOMEM; }
      npu := new Npu();
      ledger := ledger.(structs := Taken(ledger.structs));
      npu.status := Uninit;
      npu.pdev := found;
      if !npu.pdev { return 0; }
      ledger := ledger.(functions := Taken(ledger.functions));
      return 0;
    }

    method DoSwInit(fwError: int, ringError: int) returns (r: int)
      modifies this, npu
      ensures r == if old(npu == null || !npu.pdev) then 0 else if fwError != 0 then fwError else ringError
      ensures r == Result(old(View()), SwInit(fwError, ringError)) && View() == Next(old(View()), SwInit(fwError, ringError))
    {
      if npu == null || !npu.pdev { return 0; }
      npu.fw := fwError == 0;
      if fwError != 0 { return fwError; }
      ledger := ledger.(firmware := Taken(ledger.firmware));
      if ringError != 0 {
        ledger := ledger.(firmware := Given(ledger.firmware));
        return ringError;
      }
      ledger := ledger.(rings := Taken(ledger.rings));
      return 0;
    }

    method DoHwInit() returns (r: int)
      modifies npu
      ensures r == 0 == Result(old(View()), HwInit) && View() == Next(old(View()), HwInit) == Next(old(View()), Resume)
    {
      if npu == null || !npu.pdev { return 0; }
      npu.status := Started;
      return 0;
    }

    method DoHwFini() returns (r: int)
      modifies npu
      ensures r == 0 == Result(old(View()), HwFini) && View() == Next(old(View()), HwFini) == Next(old(View()), Suspend)
    {
      if npu == null || !npu.pdev || npu.status != Started { return 0; }
      npu.status := Stopped;
      return 0;
    }

    method DoSwFini() returns (r: int)
      modifies this
      ensures r == 0 == Result(old(View()), SwFini) && View() == Next(old(View()), SwFini)
    {
      if npu == null { return 0; }
      ledger := ledger.(rings := Given(ledger.rings));
      if npu.fw { ledger := ledger.(firmware := Given(ledger.firmware)); }
      if npu.pdev { ledger := ledger.(functions := Given(ledger.functions)); }
      ledger := ledger.(structs := Given(ledger.structs));
      npu := null;
      return 0;
    }

    method DoSuspend() returns (r: int)
      modifies npu
      ensures r == 0 == Result(old(View()), Suspend) && View() == Next(old(View()), Suspend)
    {
      r := DoHwFini();
    }

    method DoResume() returns (r: int)
      modifies npu
      ensures r == 0 == Result(old(View()), Resume) && View() == Next(old(View()), Resume)
    {
      r := DoHwInit();
    }

    method CtxIoctl() returns (r: int, ctxId: int)
      ensures r == if CtxAccepts(View()) then 0 else -19
      ensures r == 0 ==> ctxId == 1
    {
      ctxId := 0;
      if npu == null || !npu.pdev || npu.status != Started { return ENODEV, ctxId; }
      return 0, 1;
    }

    method ExecIoctl() returns (r: int, commandId: int)
      ensures r == if ExecAccepts(View()) then 0 else -19
      ensures r == 0 ==> commandId == 1
    {
      commandId := 0;
      if npu == null || npu.status != Started { return ENODEV, commandId; }
      return 0, 1;
    }
  }
}
