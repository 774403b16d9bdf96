/** The shim's entry points as they run, each proved to perform its steps of the registry's state machine. */
module Shim {
  import opened Registry

  const INVALID_VALUE := 1
  const OUT_OF_MEMORY := 2

  /** The kernel's answers to one npu_malloc: errors or 0, and what it hands out. `npu` is negative if the open failed. */
  datatype Answers = Answers(allocError: int, bo: int, mapError: int, ptr: Pointer, exportError: int, fd: int, npu: int)

  predicate Succeeds(k: Answers) { k.allocError == 0 && k.mapError == 0 && k.exportError == 0 }

  /** What the shim has done so far: steps of the state machine from an initial state. */
  datatype History = Start(state: State) | Then(before: History, step: Step)

  /** The state a legal history ends in. Its last step is kept one call away, as Legal's is, so that methods deal with the
      state machine step by step and not with whole histories. */
  function After(h: History): State
    requires Legal(h)
    decreases h, 3
  {
    Ends(h)
  }

  function Ends(h: History): State
    requires Legal(h)
    decreases h, 2
  {
    match h
    case Start(s) => s
    case Then(before, e) => assert Follows(h); Next(After(before), e)
  }

  predicate Legal(h: History)
    decreases h, 1
  {
    Follows(h)
  }

  predicate Follows(h: History)
    decreases h, 0
  {
    match h
    case Start(s) => Initial(s)
    case Then(before, e) => Legal(before) && Enabled(After(before), e)
  }

  /** A history extended by the steps of one npu_malloc. */
  function Malloced(h: History, t: Thread, k: Answers, available: bool): History {
    if k.allocError != 0 then h
    else if k.mapError != 0 || k.exportError != 0 then Undone(Then(h, AllocBo(t, k.bo)), t, k)
    else Shared(Then(h, AllocBo(t, k.bo)), t, k, available)
  }

  function Shared(h: History, t: Thread, k: Answers, available: bool): History {
    Tracked(AfterImport(Then(Then(h, MapBo(t, k.ptr)), ExportBo(t, k.fd)), t, k, available), t)
  }

  function Undone(h: History, t: Thread, k: Answers): History {
    if k.mapError != 0 then Then(h, MapFails(t)) else Then(Then(Then(h, MapBo(t, k.ptr)), ExportFails(t)), FreeUnwound(t))
  }

  function AfterImport(h: History, t: Thread, k: Answers, available: bool): History {
    if available && k.npu >= 0 then Then(Then(h, OpenNpu(t, k.npu)), CloseNpu(t)) else Then(h, SkipNpu(t))
  }

  function Tracked(h: History, t: Thread): History { Then(Then(Then(h, Acquire(t)), Insert(t)), Release(t)) }

  /** ... of one hipFree, of one npu_free inside it, and of one hipMemcpy. */
  function Freed(h: History, t: Thread, ptr: Pointer, tracked: bool): History {
    if ptr == 0 then h
    else if tracked then NpuFreed(LookedUp(h, t, ptr, true), t, true)
    else Then(LookedUp(h, t, ptr, false), Release(t))
  }

  function LookedUp(h: History, t: Thread, ptr: Pointer, tracked: bool): History {
    var looked := Then(Then(Then(h, CallFree(t, ptr)), Acquire(t)), Look(t));
    if tracked then Then(looked, DropLock(t)) else looked
  }

  function NpuFreed(h: History, t: Thread, tracked: bool): History {
    if tracked then Then(TakenDown(Then(h, Acquire(t)), t), Release(t)) else Then(Then(Then(h, Acquire(t)), Find(t)), Release(t))
  }

  function TakenDown(h: History, t: Thread): History { Then(Then(Then(Then(h, Find(t)), Unmap(t)), FreeBo(t)), Erase(t)) }

  function Copied(h: History, t: Thread, dst: Pointer, src: Pointer, tracked: bool): History {
    var checked := Then(Then(Then(h, CallCopy(t, dst, src)), Acquire(t)), Check(t));
    if tracked then Then(Then(checked, Copy(t)), Release(t)) else Then(checked, Release(t))
  }

  // ---- the steps of one call, in full ----

  /** The last n steps of a history, and the history before them. */
  function Last(h: History, n: nat): seq<Step>
    decreases n
  {
    if n == 0 || h.Start? then [] else Last(h.before, n - 1) + [h.step]
  }

  function Without(h: History, n: nat): History
    decreases n
  {
    if n == 0 || h.Start? then h else Without(h.before, n - 1)
  }

  ghost predicate EndsWith(longer: History, h: History, n: nat, es: seq<Step>) {
    n == |es| && Without(longer, n) == h && Last(longer, n) == es
  }

  lemma MallocSteps(h: History, t: Thread, k: Answers, available: bool)
    ensures var after := Malloced(h, t, k, available);
      if k.allocError != 0 then after == h
      else if k.mapError != 0 then EndsWith(after, h, 2, [AllocBo(t, k.bo), MapFails(t)])
      else if k.exportError != 0 then EndsWith(after, h, 4, [AllocBo(t, k.bo), MapBo(t, k.ptr), ExportFails(t), FreeUnwound(t)])
      else MallocSucceeds(after, h, t, k, available)
  {
    if Succeeds(k) { SuccessSteps(h, t, k, available); }
  }

  ghost predicate MallocSucceeds(after: History, h: History, t: Thread, k: Answers, available: bool) {
    if available && k.npu >= 0 then
      EndsWith(after, h, 8, [AllocBo(t, k.bo), MapBo(t, k.ptr), ExportBo(t, k.fd), OpenNpu(t, k.npu), CloseNpu(t),
                             Acquire(t), Insert(t), Release(t)])
    else EndsWith(after, h, 7, [AllocBo(t, k.bo), MapBo(t, k.ptr), ExportBo(t, k.fd), SkipNpu(t),
                                Acquire(t), Insert(t), Release(t)])
  }

  lemma SuccessSteps(h: History, t: Thread, k: Answers, available: bool)
    requires Succeeds(k)
    ensures MallocSucceeds(Malloced(h, t, k, available), h, t, k, available)
  {}

  lemma FreeSteps(h: History, t: Thread, ptr: Pointer, tracked: bool)
    ensures var after := Freed(h, t, ptr, tracked);
      if ptr == 0 then after == h
      else if !tracked then EndsWith(after, h, 4, [CallFree(t, ptr), Acquire(t), Look(t), Release(t)])
      else EndsWith(after, h, 10, [CallFree(t, ptr), Acquire(t), Look(t), DropLock(t),
                                   Acquire(t), Find(t), Unmap(t), FreeBo(t), Erase(t), Release(t)])
  {}

  lemma CopySteps(h: History, t: Thread, dst: Pointer, src: Pointer, tracked: bool)
    ensures var after := Copied(h, t, dst, src, tracked);
      if tracked then EndsWith(after, h, 5, [CallCopy(t, dst, src), Acquire(t), Check(t), Copy(t), Release(t)])
      else EndsWith(after, h, 4, [CallCopy(t, dst, src), Acquire(t), Check(t), Release(t)])
  {}

  /** A legal history is a run, so everything proved of runs holds of what the entry points do. */
  lemma {:induction false} HistoryIsRun(h: History) returns (ss: seq<State>, es: seq<Step>)
    requires Legal(h)
    ensures Run(ss, es) && ss[|es|] == After(h)
  {
    match h
    case Start(s) => ss, es := [s], [];
    case Then(before, e) =>
      ss, es := HistoryIsRun(before);
      RunExtends(ss, es, e);
      ss, es := ss + [After(h)], es + [e];
  }

  lemma RunExtends(ss: seq<State>, es: seq<Step>, e: Step)
    requires Run(ss, es) && Enabled(ss[|es|], e)
    ensures Run(ss + [Next(ss[|es|], e)], es + [e])
  {
    var ss', es' := ss + [Next(ss[|es|], e)], es + [e];
    forall i | 0 <= i < |es'| ensures Enabled(ss'[i], es'[i]) && ss'[i + 1] == Next(ss'[i], es'[i]) {
      if i < |es| { assert ss'[i] == ss[i] && ss'[i + 1] == ss[i + 1] && es'[i] == es[i]; }
    }
  }

  lemma InsertsFresh(h: History, t: Thread)
    requires Legal(h) && Enabled(After(h), Insert(t))
    ensures After(h).threads[t].ptr !in After(h).buffers
  {
    var ss, es := HistoryIsRun(h);
    RunKeeps(ss, es, |es|);
    InsertIsFresh(After(h), t);
  }

  class Registered {
    var buffers: map<Pointer, Entry>
    var lock: Lock
    ghost var model: State
    ghost var history: History

    /** The calls so far are a run of the state machine, and it agrees with the fields. */
    ghost predicate Valid()
      reads this
    {
      Legal(history) && model == After(history) && model.buffers == buffers && model.lock == lock
    }

    /** No call of this thread is in progress and nobody is inside the lock. */
    ghost predicate Ready(t: Thread)
      reads this
    {
      Valid() && lock == Open && t in model.threads && model.threads[t] == Idle
    }

    constructor (ghost threads: set<Thread>)
      ensures Valid() && buffers == map[] && lock == Open
      ensures forall t :: t in threads ==> Ready(t)
    {
      buffers, lock := map[], Open;
      model := State(map[], Open, map t | t in threads :: Idle, map[]);
      history := Start(State(map[], Open, map t | t in threads :: Idle, map[]));
    }

    /** The state machine takes a step along with the code. */
    ghost method Record(e: Step)
      requires Legal(history) && model == After(history) && Enabled(model, e)
      modifies `model, `history
      ensures Legal(history) && model == After(history) && history == Then(old(history), e)
      ensures model == Next(old(model), e)
    {
      model, history := Next(model, e), Then(history, e);
    }

    /** The mutex. */
    method Take(t: Thread)
      requires Valid() && lock == Open && t in model.threads && WantsLock(model.threads[t])
      modifies `lock, `model, `history
      ensures Valid() && history == Then(old(history), Acquire(t))
      ensures lock == HeldBy(t) && model == old(model).(threads := old(model).threads[t := Locked(old(model).threads[t])], lock := lock)
    {
      lock := HeldBy(t);
      Record(Acquire(t));
    }

    method Give(t: Thread)
      requires Valid() && lock == HeldBy(t) && t in model.threads && model.threads[t] == Returning
      modifies `lock, `model, `history
      ensures Ready(t) && history == Then(old(history), Release(t))
      ensures model.ledger == old(model).ledger
    {
      lock := Open;
      Record(Release(t));
    }

    /** Imports the buffer into the NPU, if there is one; the device's descriptor is closed again. */
    method Import(t: Thread, k: Answers, available: bool)
      requires Valid() && t in model.threads && model.threads[t] == Exported(k.bo, k.ptr, k.fd)
      requires k.npu >= 0 ==> Fd(k.npu) !in model.ledger
      modifies `model, `history
      ensures Valid() && history == AfterImport(old(history), t, k, available)
      ensures model == old(model).(threads := old(model).threads[t := Pc.Imported(k.bo, k.ptr, k.fd)])
    {
      if available && k.npu >= 0 {
        Record(OpenNpu(t, k.npu));
        Record(CloseNpu(t));
        assert model.ledger == old(model).ledger;
      } else {
        Record(SkipNpu(t));
      }
    }

    /** Registers the buffer, under the lock. */
    method Track(t: Thread, bo: int, ptr: Pointer, fd: int)
      requires Valid() && lock == Open && t in model.threads && model.threads[t] == Pc.Imported(bo, ptr, fd)
      modifies this
      ensures Ready(t) && history == Tracked(old(history), t)
      ensures ptr !in old(buffers) && buffers == old(buffers)[ptr := Entry(fd, bo)]
      ensures model.ledger.Keys == old(model.ledger.Keys) + Whole(ptr, Entry(fd, bo))
    {
      Take(t);
      Store(t, bo, ptr, fd);
      Give(t);
    }

    method Store(t: Thread, bo: int, ptr: Pointer, fd: int)
      requires Valid() && lock == HeldBy(t) && t in model.threads && model.threads[t] == Inserting(bo, ptr, fd)
      modifies `buffers, `model, `history
      ensures Valid() && history == Then(old(history), Insert(t)) && model.threads == old(model).threads[t := Returning]
      ensures ptr !in old(buffers) && buffers == old(buffers)[ptr := Entry(fd, bo)]
      ensures model.ledger.Keys == old(model.ledger.Keys) + Whole(ptr, Entry(fd, bo))
    {
      InsertsFresh(history, t);
      buffers := buffers[ptr := Entry(fd, bo)];
      Record(Insert(t));
    }

    /** Maps and exports the buffer. */
    method Export(t: Thread, k: Answers)
      requires Valid() && t in model.threads && model.threads[t] == Allocated(k.bo)
      requires k.ptr != 0 && Mapping(k.ptr) !in model.ledger && Fd(k.fd) !in model.ledger
      modifies `model, `history
      ensures Valid() && history == Then(Then(old(history), MapBo(t, k.ptr)), ExportBo(t, k.fd))
      ensures model.threads == old(model).threads[t := Exported(k.bo, k.ptr, k.fd)]
      ensures model.ledger == old(model).ledger[Mapping(k.ptr) := Caller(t)][Fd(k.fd) := Caller(t)]
    {
      Record(MapBo(t, k.ptr));
      Record(ExportBo(t, k.fd));
    }

    /** Undoes an allocation whose mapping or export failed. */
    method Undo(t: Thread, k: Answers)
      requires Valid() && t in model.threads && model.threads[t] == Allocated(k.bo) && (k.mapError != 0 || k.exportError != 0)
      requires k.ptr != 0 && Mapping(k.ptr) !in model.ledger
      modifies `model, `history
      ensures Valid() && history == Undone(old(history), t, k)
      ensures model == old(model).(threads := old(model).threads[t := Idle], ledger := old(model).ledger - {Bo(k.bo)})
    {
      if k.mapError != 0 {
        Record(MapFails(t));
        return;
      }
      Record(MapBo(t, k.ptr));
      Record(ExportFails(t));
      Record(FreeUnwound(t));
    }

    method NpuMalloc(t: Thread, k: Answers, available: bool) returns (r: int, ptr: Pointer)
      requires Ready(t) && k.ptr != 0
      requires Bo(k.bo) !in model.ledger && Mapping(k.ptr) !in model.ledger && Fd(k.fd) !in model.ledger
      requires k.npu >= 0 ==> k.npu != k.fd && Fd(k.npu) !in model.ledger
      modifies this
      ensures Ready(t) && history == Malloced(old(history), t, k, available)
      ensures r == if Succeeds(k) then 0 else 2
      ensures r == 0 ==> ptr == k.ptr && ptr !in old(buffers) && buffers == old(buffers)[ptr := Entry(k.fd, k.bo)]
      ensures r == 0 ==> model.ledger.Keys == old(model.ledger.Keys) + Whole(ptr, Entry(k.fd, k.bo))
      ensures r != 0 ==> buffers == old(buffers) && model.ledger == old(model.ledger)
    {
      ptr := 0;
      if k.allocError != 0 { return OUT_OF_MEMORY, ptr; }
      Record(AllocBo(t, k.bo));
      assert model.ledger - {Bo(k.bo)} == old(model.ledger);
      if k.mapError != 0 || k.exportError != 0 {
        Undo(t, k);
        return OUT_OF_MEMORY, ptr;
      }
      Share(t, k, available);
      return 0, k.ptr;
    }

    /** Maps, exports, imports and registers an allocated buffer. */
    method Share(t: Thread, k: Answers, available: bool)
      requires Valid() && lock == Open && t in model.threads && model.threads[t] == Allocated(k.bo)
      requires k.ptr != 0 && Mapping(k.ptr) !in model.ledger && Fd(k.fd) !in model.ledger
      requires k.npu >= 0 ==> k.npu != k.fd && Fd(k.npu) !in model.ledger
      modifies this
      ensures Ready(t) && history == Shared(old(history), t, k, available)
      ensures k.ptr !in old(buffers) && buffers == old(buffers)[k.ptr := Entry(k.fd, k.bo)]
      ensures model.ledger.Keys == old(model.ledger.Keys) + Whole(k.ptr, Entry(k.fd, k.bo))
    {
      Export(t, k);
      Import(t, k, available);
      Track(t, k.bo, k.ptr, k.fd);
    }

    /** Closes the descriptor of a registered buffer and unmaps it, inside the lock. */
    method Detach(t: Thread, ptr: Pointer)
      requires Valid() && lock == HeldBy(t) && t in model.threads && model.threads[t] == Finding(ptr) && ptr in buffers
      modifies `model, `history
      ensures Valid() && history == Then(Then(old(history), Find(t)), Unmap(t))
      ensures model.threads == old(model).threads[t := Unmapped(ptr)]
      ensures model.ledger.Keys == old(model).ledger.Keys - {Fd(buffers[ptr].fd)} - {Mapping(ptr)}
    {
      Record(Find(t));
      Record(Unmap(t));
    }

    /** Closes, unmaps, frees and forgets a registered buffer, inside the lock. */
    method TakeDown(t: Thread, ptr: Pointer)
      requires Valid() && lock == HeldBy(t) && t in model.threads && model.threads[t] == Finding(ptr) && ptr in buffers
      modifies `buffers, `model, `history
      ensures Valid() && history == TakenDown(old(history), t) && buffers == old(buffers) - {ptr}
      ensures model.threads == old(model).threads[t := Returning]
      ensures model.ledger.Keys == old(model).ledger.Keys - Whole(ptr, old(buffers)[ptr])
    {
      Detach(t, ptr);
      Record(FreeBo(t));
      buffers := buffers - {ptr};
      Record(Erase(t));
    }

    /** Takes the lock again, and frees the buffer if it is still registered. */
    method NpuFree(t: Thread, ptr: Pointer) returns (r: int)
      requires Valid() && lock == Open && t in model.threads && model.threads[t] == Between(ptr) && ptr != 0
      modifies this
      ensures Ready(t) && history == NpuFreed(old(history), t, ptr in old(buffers))
      ensures r == if ptr in old(buffers) then 0 else 1
      ensures buffers == old(buffers) - {ptr}
      ensures ptr in old(buffers) ==> model.ledger.Keys == old(model.ledger.Keys) - Whole(ptr, old(buffers)[ptr])
      ensures ptr !in old(buffers) ==> model.ledger == old(model.ledger)
    {
      Take(t);
      if ptr !in buffers {
        Record(Find(t));
        r := INVALID_VALUE;
      } else {
        TakeDown(t, ptr);
        r := 0;
      }
      Give(t);
    }

    /** Looks a pointer up; if it is registered the lock is dropped again. */
    method Lookup(t: Thread, ptr: Pointer) returns (found: bool)
      requires Ready(t) && ptr != 0
      modifies `lock, `model, `history
      ensures Valid() && found == (ptr in buffers) && t in model.threads && model.ledger == old(model).ledger
      ensures history == LookedUp(old(history), t, ptr, found)
      ensures lock == if found then Open else HeldBy(t)
      ensures model.threads[t] == if found then Between(ptr) else Returning
    {
      Record(CallFree(t, ptr));
      Take(t);
      Record(Look(t));
      found := ptr in buffers;
      if found {
        lock := Open;
        Record(DropLock(t));
      }
    }

    /** Pointers that are not registered go to the real hipFree. */
    method HipFree(t: Thread, ptr: Pointer) returns (r: int, delegated: bool)
      requires Ready(t)
      modifies this
      ensures Ready(t) && history == Freed(old(history), t, ptr, ptr in old(buffers))
      ensures r == 0 && delegated == (ptr != 0 && ptr !in old(buffers))
      ensures buffers == if ptr == 0 then old(buffers) else old(buffers) - {ptr}
      ensures ptr != 0 && ptr in old(buffers) ==> model.ledger.Keys == old(model.ledger.Keys) - Whole(ptr, old(buffers)[ptr])
    {
      if ptr == 0 { return 0, false; }
      var found := Lookup(t, ptr);
      if found {
        r := NpuFree(t, ptr);
        return r, false;
      }
      Give(t);
      return 0, true;
    }

    /** A copy with a registered endpoint is done here, under the lock; `known` says whether the direction is one of three. */
    method HipMemcpy(t: Thread, dst: Pointer, src: Pointer, known: bool) returns (r: int, delegated: bool)
      requires Ready(t)
      modifies this
      ensures Ready(t) && history == Copied(old(history), t, dst, src, dst in old(buffers) || src in old(buffers))
      ensures delegated == !(dst in old(buffers) || src in old(buffers))
      ensures r == if delegated || known then 0 else 1
      ensures buffers == old(buffers) && model.ledger == old(model.ledger)
    {
      Record(CallCopy(t, dst, src));
      Take(t);
      var dstIsNpu, srcIsNpu := dst in buffers, src in buffers;
      Record(Check(t));
      if dstIsNpu || srcIsNpu {
        Record(Copy(t));
        Give(t);
        return if known then 0 else INVALID_VALUE, false;
      }
      Give(t);
      return 0, true;
    }
  }
}
