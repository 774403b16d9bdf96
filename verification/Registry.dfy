/** The HIP shim's buffer registry under any interleaving of its threads. */
module Registry {

  type Thread = int
  type Pointer = int

  /** What the shim acquires and must give back. */
  datatype Resource = Bo(handle: int) | Mapping(ptr: Pointer) | Fd(number: int)

  datatype Entry = Entry(fd: int, bo: int)

  datatype Owner = Caller(thread: Thread) | Registered(ptr: Pointer)

  datatype Lock = Open | HeldBy(thread: Thread)

  /** Where a thread stands in hipMalloc, hipFree or hipMemcpy. */
  datatype Pc =
    | Idle
    // npu_malloc
    | Allocated(bo: int)
    | Mapped(bo: int, ptr: Pointer)
    | Unwinding(bo: int)
    | Exported(bo: int, ptr: Pointer, fd: int)
    | Importing(bo: int, ptr: Pointer, fd: int, npu: int)
    | Imported(bo: int, ptr: Pointer, fd: int)
    | Inserting(bo: int, ptr: Pointer, fd: int)
    // hipFree and npu_free
    | Freeing(ptr: Pointer)
    | Looking(ptr: Pointer)
    | Found(ptr: Pointer)
    | Between(ptr: Pointer)
    | Finding(ptr: Pointer)
    | FdClosed(ptr: Pointer)
    | Unmapped(ptr: Pointer)
    | BoFreed(ptr: Pointer)
    // hipMemcpy
    | Copying(dst: Pointer, src: Pointer)
    | Checking(dst: Pointer, src: Pointer)
    | Moving(dst: Pointer, src: Pointer, dstTracked: bool, srcTracked: bool)
    // about to unlock and return
    | Returning

  /** The registry, its mutex, the threads, and the ledger of everything acquired and not yet released. */
  datatype State = State(buffers: map<Pointer, Entry>, lock: Lock, threads: map<Thread, Pc>, ledger: map<Resource, Owner>)

  datatype Step =
    | AllocBo(t: Thread, bo: int)
    | MapBo(t: Thread, ptr: Pointer)
    | MapFails(t: Thread)
    | ExportBo(t: Thread, fd: int)
    | ExportFails(t: Thread)
    | FreeUnwound(t: Thread)
    | OpenNpu(t: Thread, npu: int)
    | CloseNpu(t: Thread)
    | SkipNpu(t: Thread)
    | Acquire(t: Thread)
    | Insert(t: Thread)
    | CallFree(t: Thread, ptr: Pointer)
    | Look(t: Thread)
    | DropLock(t: Thread)
    | Find(t: Thread)
    | Unmap(t: Thread)
    | FreeBo(t: Thread)
    | Erase(t: Thread)
    | CallCopy(t: Thread, dst: Pointer, src: Pointer)
    | Check(t: Thread)
    | Copy(t: Thread)
    | Release(t: Thread)

  predicate InLock(pc: Pc) {
    || pc.Inserting? || pc.Looking? || pc.Found? || pc.Finding? || pc.FdClosed? || pc.Unmapped? || pc.BoFreed?
    || pc.Checking? || pc.Moving? || pc.Returning?
  }

  predicate WantsLock(pc: Pc) { pc.Imported? || pc.Freeing? || pc.Between? || pc.Copying? }

  /** A thread's step is possible; the kernel hands out handles, addresses and descriptors that are not in use. */
  predicate Enabled(s: State, e: Step) {
    && e.t in s.threads
    && var pc := s.threads[e.t];
       match e
       case AllocBo(_, bo) => pc.Idle? && Bo(bo) !in s.ledger
       case MapBo(_, ptr) => pc.Allocated? && ptr != 0 && Mapping(ptr) !in s.ledger
       case MapFails(_) => pc.Allocated?
       case ExportBo(_, fd) => pc.Mapped? && Fd(fd) !in s.ledger
       case ExportFails(_) => pc.Mapped?
       case FreeUnwound(_) => pc.Unwinding?
       case OpenNpu(_, npu) => pc.Exported? && Fd(npu) !in s.ledger
       case CloseNpu(_) => pc.Importing?
       case SkipNpu(_) => pc.Exported?
       case Acquire(_) => WantsLock(pc) && s.lock == Open
       case Insert(_) => pc.Inserting?
       case CallFree(_, ptr) => pc.Idle? && ptr != 0
       case Look(_) => pc.Looking?
       case DropLock(_) => pc.Found?
       case Find(_) => pc.Finding?
       case Unmap(_) => pc.FdClosed? && pc.ptr in s.buffers
       case FreeBo(_) => pc.Unmapped? && pc.ptr in s.buffers
       case Erase(_) => pc.BoFreed?
       case CallCopy(_, _, _) => pc.Idle?
       case Check(_) => pc.Checking?
       case Copy(_) => pc.Moving?
       case Release(_) => pc.Returning?
  }

  function Locked(pc: Pc): Pc
    requires WantsLock(pc)
  {
    match pc
    case Imported(bo, ptr, fd) => Inserting(bo, ptr, fd)
    case Freeing(ptr) => Looking(ptr)
    case Between(ptr) => Finding(ptr)
    case Copying(dst, src) => Checking(dst, src)
  }

  function Take(s: State, t: Thread, pc: Pc, r: Resource): State {
    s.(threads := s.threads[t := pc], ledger := s.ledger[r := Caller(t)])
  }

  function Drop(s: State, t: Thread, pc: Pc, r: Resource): State {
    s.(threads := s.threads[t := pc], ledger := s.ledger - {r})
  }

  function Move(s: State, t: Thread, pc: Pc): State { s.(threads := s.threads[t := pc]) }

  function Next(s: State, e: Step): State
    requires Enabled(s, e)
  {
    var t, pc := e.t, s.threads[e.t];
    match e
    case AllocBo(_, bo) => Take(s, t, Allocated(bo), Bo(bo))
    case MapBo(_, ptr) => Take(s, t, Mapped(pc.bo, ptr), Mapping(ptr))
    case MapFails(_) => Drop(s, t, Idle, Bo(pc.bo))
    case ExportBo(_, fd) => Take(s, t, Exported(pc.bo, pc.ptr, fd), Fd(fd))
    case ExportFails(_) => Drop(s, t, Unwinding(pc.bo), Mapping(pc.ptr))
    case FreeUnwound(_) => Drop(s, t, Idle, Bo(pc.bo))
    case OpenNpu(_, npu) => Take(s, t, Importing(pc.bo, pc.ptr, pc.fd, npu), Fd(npu))
    case CloseNpu(_) => Drop(s, t, Imported(pc.bo, pc.ptr, pc.fd), Fd(pc.npu))
    case SkipNpu(_) => Move(s, t, Imported(pc.bo, pc.ptr, pc.fd))
    case Acquire(_) => Move(s, t, Locked(pc)).(lock := HeldBy(t))
    case Insert(_) =>
      var owner := Registered(pc.ptr);
      Move(s, t, Returning).(buffers := s.buffers[pc.ptr := Entry(pc.fd, pc.bo)],
                             ledger := s.ledger[Bo(pc.bo) := owner][Mapping(pc.ptr) := owner][Fd(pc.fd) := owner])
    case CallFree(_, ptr) => Move(s, t, Freeing(ptr))
    case Look(_) => Move(s, t, if pc.ptr in s.buffers then Found(pc.ptr) else Returning)
    case DropLock(_) => Move(s, t, Between(pc.ptr)).(lock := Open)
    case Find(_) =>
      if pc.ptr in s.buffers then Drop(s, t, FdClosed(pc.ptr), Fd(s.buffers[pc.ptr].fd)) else Move(s, t, Returning)
    case Unmap(_) => Drop(s, t, Unmapped(pc.ptr), Mapping(pc.ptr))
    case FreeBo(_) => Drop(s, t, BoFreed(pc.ptr), Bo(s.buffers[pc.ptr].bo))
    case Erase(_) => Move(s, t, Returning).(buffers := s.buffers - {pc.ptr})
    case CallCopy(_, dst, src) => Move(s, t, Copying(dst, src))
    case Check(_) =>
      var d, r := pc.dst in s.buffers, pc.src in s.buffers;
      Move(s, t, if d || r then Moving(pc.dst, pc.src, d, r) else Returning)
    case Copy(_) => Move(s, t, Returning)
    case Release(_) => Move(s, t, Idle).(lock := Open)
  }

  predicate Initial(s: State) {
    s.buffers == map[] && s.lock == Open && s.ledger == map[] && forall t :: t in s.threads ==> s.threads[t] == Idle
  }

  ghost predicate Run(ss: seq<State>, es: seq<Step>) {
    && |ss| == |es| + 1 && Initial(ss[0])
    && forall i :: 0 <= i < |es| ==> Enabled(ss[i], es[i]) && ss[i + 1] == Next(ss[i], es[i])
  }

  // ---- who holds what ----

  /** What a thread inside npu_malloc holds. */
  function Held(pc: Pc): set<Resource> {
    match pc
    case Allocated(bo) => {Bo(bo)}
    case Unwinding(bo) => {Bo(bo)}
    case Mapped(bo, ptr) => {Bo(bo), Mapping(ptr)}
    case Exported(bo, ptr, fd) => {Bo(bo), Mapping(ptr), Fd(fd)}
    case Imported(bo, ptr, fd) => {Bo(bo), Mapping(ptr), Fd(fd)}
    case Inserting(bo, ptr, fd) => {Bo(bo), Mapping(ptr), Fd(fd)}
    case Importing(bo, ptr, fd, npu) => {Bo(bo), Mapping(ptr), Fd(fd), Fd(npu)}
    case _ => {}
  }

  /** The step the thread inside the lock has reached. */
  function Holder(s: State): Pc {
    if s.lock.HeldBy? && s.lock.thread in s.threads then s.threads[s.lock.thread] else Idle
  }

  /** What a registered buffer holds; less while npu_free takes it apart. */
  function Owns(holder: Pc, ptr: Pointer, e: Entry): set<Resource> {
    if holder == FdClosed(ptr) then {Bo(e.bo), Mapping(ptr)}
    else if holder == Unmapped(ptr) then {Bo(e.bo)}
    else if holder == BoFreed(ptr) then {}
    else {Bo(e.bo), Mapping(ptr), Fd(e.fd)}
  }

  ghost predicate LockOk(s: State) {
    && (forall t :: t in s.threads ==> (InLock(s.threads[t]) <==> s.lock == HeldBy(t)))
    && (s.lock.HeldBy? ==> s.lock.thread in s.threads)
  }

  /** Inside the lock the registry does not change under a thread's feet. */
  predicate HolderOk(s: State) {
    match Holder(s)
    case Found(ptr) => ptr in s.buffers
    case FdClosed(ptr) => ptr in s.buffers
    case Unmapped(ptr) => ptr in s.buffers
    case BoFreed(ptr) => ptr in s.buffers
    case Moving(dst, src, d, r) => (d || r) && d == (dst in s.buffers) && r == (src in s.buffers)
    case _ => true
  }

  ghost predicate HeldOk(s: State) {
    forall t, r :: t in s.threads && r in Held(s.threads[t]) ==> r in s.ledger && s.ledger[r] == Caller(t)
  }

  ghost predicate OwnsOk(s: State) {
    forall p, r :: p in s.buffers && r in Owns(Holder(s), p, s.buffers[p]) ==> r in s.ledger && s.ledger[r] == Registered(p)
  }

  /** Nothing in the ledger without an owner that still holds it. */
  ghost predicate NoLeak(s: State) {
    forall r :: r in s.ledger ==> StillHeld(s, r, s.ledger[r])
  }

  predicate StillHeld(s: State, r: Resource, owner: Owner) {
    match owner
    case Caller(t) => t in s.threads && r in Held(s.threads[t])
    case Registered(p) => p in s.buffers && r in Owns(Holder(s), p, s.buffers[p])
  }

  ghost predicate FdsApart(s: State) {
    forall t :: t in s.threads && s.threads[t].Importing? ==> s.threads[t].npu != s.threads[t].fd
  }

  ghost predicate Inv(s: State) {
    LockOk(s) && HolderOk(s) && HeldOk(s) && OwnsOk(s) && NoLeak(s) && FdsApart(s)
  }

  // ---- every step keeps it ----

  /** The registered buffers hold the same things. */
  ghost predicate SameOwns(s: State, s': State) {
    s'.buffers == s.buffers && forall p, e :: Owns(Holder(s'), p, e) == Owns(Holder(s), p, e)
  }

  /** Steps of one thread that leave the ledger alone. */
  lemma MoveKeeps(s: State, s': State, t: Thread)
    requires Inv(s) && t in s.threads && t in s'.threads && s'.threads == s.threads[t := s'.threads[t]]
    requires s'.ledger == s.ledger
    requires Held(s'.threads[t]) == Held(s.threads[t]) && SameOwns(s, s') && LockOk(s') && HolderOk(s')
    requires !s'.threads[t].Importing?
    ensures Inv(s')
  {
    MoveLedger(s, s', t);
  }

  lemma MoveLedger(s: State, s': State, t: Thread)
    requires HeldOk(s) && OwnsOk(s) && NoLeak(s)
    requires t in s.threads && t in s'.threads && s'.threads == s.threads[t := s'.threads[t]] && s'.ledger == s.ledger
    requires Held(s'.threads[t]) == Held(s.threads[t]) && SameOwns(s, s')
    ensures HeldOk(s') && OwnsOk(s') && NoLeak(s')
  {
    forall r | r in s'.ledger ensures StillHeld(s', r, s'.ledger[r]) { assert StillHeld(s, r, s.ledger[r]); }
  }

  /** A thread outside the lock acquires a resource nobody has. */
  lemma TakeKeeps(s: State, t: Thread, pc: Pc, r: Resource)
    requires Inv(s) && t in s.threads && !InLock(s.threads[t]) && !InLock(pc) && r !in s.ledger
    requires Held(pc) == Held(s.threads[t]) + {r} && (pc.Importing? ==> pc.npu != pc.fd)
    ensures Inv(Take(s, t, pc, r))
  {
    OutsideKeeps(s, t, pc);
    TakeLedger(s, t, pc, r);
  }

  /** What a step of a thread outside the lock leaves as it is. */
  lemma OutsideKeeps(s: State, t: Thread, pc: Pc)
    requires LockOk(s) && HolderOk(s) && FdsApart(s) && t in s.threads && !InLock(s.threads[t]) && !InLock(pc)
    requires pc.Importing? ==> pc.npu != pc.fd
    ensures var s' := Move(s, t, pc); Holder(s') == Holder(s) && LockOk(s') && HolderOk(s') && FdsApart(s')
  {}

  lemma TakeLedger(s: State, t: Thread, pc: Pc, r: Resource)
    requires HeldOk(s) && OwnsOk(s) && NoLeak(s) && t in s.threads && r !in s.ledger
    requires Held(pc) == Held(s.threads[t]) + {r} && Holder(Move(s, t, pc)) == Holder(s)
    ensures var s' := Take(s, t, pc, r); HeldOk(s') && OwnsOk(s') && NoLeak(s')
  {
    var s' := Take(s, t, pc, r);
    TakeLeak(s, t, pc, r);
    TakeHeld(s, t, pc, r);
    assert Holder(s') == Holder(s);
  }

  lemma TakeHeld(s: State, t: Thread, pc: Pc, r: Resource)
    requires HeldOk(s) && t in s.threads && r !in s.ledger && Held(pc) == Held(s.threads[t]) + {r}
    ensures HeldOk(Take(s, t, pc, r))
  {
    var s' := Take(s, t, pc, r);
    forall t', q | t' in s'.threads && q in Held(s'.threads[t']) ensures q in s'.ledger && s'.ledger[q] == Caller(t') {
      assert q == r || q in Held(s.threads[t']);
    }
  }

  lemma TakeLeak(s: State, t: Thread, pc: Pc, r: Resource)
    requires NoLeak(s) && t in s.threads
    requires Held(pc) == Held(s.threads[t]) + {r} && Holder(Move(s, t, pc)) == Holder(s)
    ensures NoLeak(Take(s, t, pc, r))
  {
    var s' := Take(s, t, pc, r);
    forall q | q in s'.ledger ensures StillHeld(s', q, s'.ledger[q]) {
      if q != r { assert StillHeld(s, q, s.ledger[q]); }
    }
  }

  /** A thread outside the lock gives back a resource of its own. */
  lemma DropKeeps(s: State, t: Thread, pc: Pc, r: Resource)
    requires Inv(s) && t in s.threads && !InLock(s.threads[t]) && !InLock(pc) && r in Held(s.threads[t])
    requires Held(pc) == Held(s.threads[t]) - {r} && !pc.Importing?
    ensures Inv(Drop(s, t, pc, r))
  {
    OutsideKeeps(s, t, pc);
    DropLedger(s, t, pc, r);
  }

  lemma DropLedger(s: State, t: Thread, pc: Pc, r: Resource)
    requires HeldOk(s) && OwnsOk(s) && NoLeak(s) && t in s.threads && r in Held(s.threads[t])
    requires Held(pc) == Held(s.threads[t]) - {r} && Holder(Move(s, t, pc)) == Holder(s)
    ensures var s' := Drop(s, t, pc, r); HeldOk(s') && OwnsOk(s') && NoLeak(s')
  {
    assert s.ledger[r] == Caller(t) && Holder(Drop(s, t, pc, r)) == Holder(s);
    DropLeak(s, t, pc, r);
    DropHeld(s, t, pc, r);
  }

  lemma DropHeld(s: State, t: Thread, pc: Pc, r: Resource)
    requires HeldOk(s) && t in s.threads && r in Held(s.threads[t]) && Held(pc) == Held(s.threads[t]) - {r}
    ensures HeldOk(Drop(s, t, pc, r))
  {
    var s' := Drop(s, t, pc, r);
    assert s.ledger[r] == Caller(t);
    forall t', q | t' in s'.threads && q in Held(s'.threads[t']) ensures q in s'.ledger && s'.ledger[q] == Caller(t') {
      assert q in Held(s.threads[t']) && s.ledger[q] == Caller(t');
    }
  }

  lemma DropLeak(s: State, t: Thread, pc: Pc, r: Resource)
    requires NoLeak(s) && t in s.threads
    requires Held(pc) == Held(s.threads[t]) - {r} && Holder(Move(s, t, pc)) == Holder(s)
    ensures NoLeak(Drop(s, t, pc, r))
  {
    var s' := Drop(s, t, pc, r);
    forall q | q in s'.ledger ensures StillHeld(s', q, s'.ledger[q]) { assert StillHeld(s, q, s.ledger[q]); }
  }

  lemma MallocKeeps(s: State, e: Step)
    requires Inv(s) && Enabled(s, e) && (e.AllocBo? || e.MapBo? || e.ExportBo? || e.OpenNpu?)
    ensures Inv(Next(s, e))
  {
    var pc := s.threads[e.t];
    match e
    case AllocBo(t, bo) => TakeKeeps(s, t, Allocated(bo), Bo(bo));
    case MapBo(t, ptr) => TakeKeeps(s, t, Mapped(pc.bo, ptr), Mapping(ptr));
    case ExportBo(t, fd) => TakeKeeps(s, t, Exported(pc.bo, pc.ptr, fd), Fd(fd));
    case OpenNpu(t, npu) =>
      assert Fd(pc.fd) in Held(pc);
      TakeKeeps(s, t, Importing(pc.bo, pc.ptr, pc.fd, npu), Fd(npu));
  }

  lemma UnwindKeeps(s: State, e: Step)
    requires Inv(s) && Enabled(s, e) && (e.MapFails? || e.ExportFails? || e.FreeUnwound? || e.CloseNpu?)
    ensures Inv(Next(s, e))
  {
    var pc := s.threads[e.t];
    match e
    case MapFails(t) => DropKeeps(s, t, Idle, Bo(pc.bo));
    case ExportFails(t) => DropKeeps(s, t, Unwinding(pc.bo), Mapping(pc.ptr));
    case FreeUnwound(t) => DropKeeps(s, t, Idle, Bo(pc.bo));
    case CloseNpu(t) => DropKeeps(s, t, Imported(pc.bo, pc.ptr, pc.fd), Fd(pc.npu));
  }

  lemma LockSteps(s: State, e: Step)
    requires LockOk(s) && HolderOk(s) && Enabled(s, e) && (e.Acquire? || e.DropLock? || e.Release?)
    ensures LockOk(Next(s, e)) && HolderOk(Next(s, e)) && SameOwns(s, Next(s, e))
  {
    assert e.Acquire? || s.lock == HeldBy(e.t);
  }

  lemma InsideSteps(s: State, e: Step)
    requires LockOk(s) && HolderOk(s) && Enabled(s, e) && (e.Look? || e.Check? || e.Copy?)
    ensures LockOk(Next(s, e)) && HolderOk(Next(s, e)) && SameOwns(s, Next(s, e))
  {
    assert s.lock == HeldBy(e.t);
  }

  lemma LockKeeps(s: State, e: Step)
    requires Inv(s) && Enabled(s, e)
    requires e.Acquire? || e.DropLock? || e.Release? || e.Look? || e.Check? || e.Copy?
    ensures Inv(Next(s, e))
  {
    if e.Acquire? || e.DropLock? || e.Release? { LockSteps(s, e); } else { InsideSteps(s, e); }
    MoveKeeps(s, Next(s, e), e.t);
  }

  lemma CallSteps(s: State, e: Step)
    requires LockOk(s) && HolderOk(s) && Enabled(s, e) && (e.CallFree? || e.CallCopy? || e.SkipNpu?)
    ensures LockOk(Next(s, e)) && HolderOk(Next(s, e)) && SameOwns(s, Next(s, e))
  {
    assert Holder(Next(s, e)) == Holder(s);
  }

  lemma CallKeeps(s: State, e: Step)
    requires Inv(s) && Enabled(s, e) && (e.CallFree? || e.CallCopy? || e.SkipNpu?)
    ensures Inv(Next(s, e))
  {
    CallSteps(s, e);
    MoveKeeps(s, Next(s, e), e.t);
  }

  /** An insert never overwrites a live entry. */
  lemma InsertIsFresh(s: State, t: Thread)
    requires Inv(s) && Enabled(s, Insert(t))
    ensures s.threads[t].ptr !in s.buffers
  {
    var ptr := s.threads[t].ptr;
    assert s.lock == HeldBy(t) && Holder(s) == s.threads[t];
    assert Mapping(ptr) in Held(s.threads[t]) && s.ledger[Mapping(ptr)] == Caller(t);
    forall p | p in s.buffers ensures p != ptr { EntryIsMapped(s, p); }
  }

  /** A registered buffer is mapped until the holder of the lock has unmapped it. */
  lemma EntryIsMapped(s: State, p: Pointer)
    requires Inv(s) && p in s.buffers && Holder(s) != Unmapped(p) && Holder(s) != BoFreed(p)
    ensures Mapping(p) in s.ledger && s.ledger[Mapping(p)] == Registered(p)
  {
    assert Mapping(p) in Owns(Holder(s), p, s.buffers[p]);
  }

  lemma InsertKeeps(s: State, t: Thread)
    requires Inv(s) && Enabled(s, Insert(t))
    ensures Inv(Next(s, Insert(t)))
  {
    InsertIsFresh(s, t);
    var s', pc := Next(s, Insert(t)), s.threads[t];
    assert s.lock == HeldBy(t) && Holder(s') == Returning && Holder(s) == pc && LockOk(s');
    InsertLeak(s, t);
    InsertOwns(s, t);
  }

  lemma InsertLeak(s: State, t: Thread)
    requires Enabled(s, Insert(t)) && NoLeak(s) && Holder(s) == s.threads[t] && Holder(Next(s, Insert(t))) == Returning
    requires s.threads[t].ptr !in s.buffers
    ensures NoLeak(Next(s, Insert(t)))
  {
    var s', pc := Next(s, Insert(t)), s.threads[t];
    var given := {Bo(pc.bo), Mapping(pc.ptr), Fd(pc.fd)};
    assert Held(pc) == given;
    forall r | r in s'.ledger ensures StillHeld(s', r, s'.ledger[r]) {
      if r !in given { assert StillHeld(s, r, s.ledger[r]); }
    }
  }

  lemma InsertOwns(s: State, t: Thread)
    requires Enabled(s, Insert(t)) && HeldOk(s) && OwnsOk(s)
    requires Holder(s) == s.threads[t] && Holder(Next(s, Insert(t))) == Returning && s.threads[t].ptr !in s.buffers
    ensures HeldOk(Next(s, Insert(t))) && OwnsOk(Next(s, Insert(t)))
  {
    var s', pc := Next(s, Insert(t)), s.threads[t];
    var given := {Bo(pc.bo), Mapping(pc.ptr), Fd(pc.fd)};
    assert forall r :: r in given ==> r in Held(pc) && s.ledger[r] == Caller(t);
    forall t', r | t' in s'.threads && r in Held(s'.threads[t']) ensures r in s'.ledger && s'.ledger[r] == Caller(t') {
      assert t' != t && s.ledger[r] == Caller(t');
    }
    forall p, r | p in s'.buffers && r in Owns(Returning, p, s'.buffers[p])
      ensures r in s'.ledger && s'.ledger[r] == Registered(p)
    {
      if p != pc.ptr { assert r in Owns(pc, p, s.buffers[p]) && s.ledger[r] == Registered(p); }
    }
  }

  /** The holder gives back a resource of the entry it is taking apart. */
  lemma TakeApart(s: State, t: Thread, pc: Pc, ptr: Pointer, r: Resource)
    requires Inv(s) && t in s.threads && InLock(s.threads[t]) && InLock(pc) && ptr in s.buffers
    requires Held(pc) == {} && Held(s.threads[t]) == {}
    requires r in Owns(s.threads[t], ptr, s.buffers[ptr])
    requires Owns(pc, ptr, s.buffers[ptr]) == Owns(s.threads[t], ptr, s.buffers[ptr]) - {r}
    requires forall p, e :: p != ptr ==> Owns(pc, p, e) == Owns(s.threads[t], p, e)
    requires HolderOk(Drop(s, t, pc, r))
    ensures Inv(Drop(s, t, pc, r))
  {
    var s' := Drop(s, t, pc, r);
    assert s.lock == HeldBy(t) && Holder(s) == s.threads[t] && Holder(s') == pc && LockOk(s');
    assert s.ledger[r] == Registered(ptr);
    ApartLeak(s, t, pc, ptr, r);
    ApartOwns(s, t, pc, ptr, r);
  }

  lemma ApartLeak(s: State, t: Thread, pc: Pc, ptr: Pointer, r: Resource)
    requires NoLeak(s) && t in s.threads && ptr in s.buffers && Held(pc) == {} && Held(s.threads[t]) == {}
    requires Holder(s) == s.threads[t] && Holder(Drop(s, t, pc, r)) == pc
    requires Owns(pc, ptr, s.buffers[ptr]) == Owns(s.threads[t], ptr, s.buffers[ptr]) - {r}
    requires forall p, e :: p != ptr ==> Owns(pc, p, e) == Owns(s.threads[t], p, e)
    ensures NoLeak(Drop(s, t, pc, r))
  {
    var s' := Drop(s, t, pc, r);
    forall q | q in s'.ledger ensures StillHeld(s', q, s'.ledger[q]) { assert StillHeld(s, q, s.ledger[q]); }
  }

  lemma ApartOwns(s: State, t: Thread, pc: Pc, ptr: Pointer, r: Resource)
    requires HeldOk(s) && OwnsOk(s) && t in s.threads && ptr in s.buffers && Held(pc) == {}
    requires Holder(s) == s.threads[t] && Holder(Drop(s, t, pc, r)) == pc && r in s.ledger && s.ledger[r] == Registered(ptr)
    requires Owns(pc, ptr, s.buffers[ptr]) == Owns(s.threads[t], ptr, s.buffers[ptr]) - {r}
    requires forall p, e :: p != ptr ==> Owns(pc, p, e) == Owns(s.threads[t], p, e)
    ensures HeldOk(Drop(s, t, pc, r)) && OwnsOk(Drop(s, t, pc, r))
  {
    ApartHeld(s, t, pc, r, ptr);
    var s' := Drop(s, t, pc, r);
    forall p, q | p in s.buffers && q in Owns(pc, p, s.buffers[p]) ensures q in s'.ledger && s'.ledger[q] == Registered(p) {
      assert q in Owns(Holder(s), p, s.buffers[p]);
    }
  }

  lemma ApartHeld(s: State, t: Thread, pc: Pc, r: Resource, ptr: Pointer)
    requires HeldOk(s) && t in s.threads && Held(pc) == {} && r in s.ledger && s.ledger[r] == Registered(ptr)
    ensures HeldOk(Drop(s, t, pc, r))
  {
    var s' := Drop(s, t, pc, r);
    forall t', q | t' in s'.threads && q in Held(s'.threads[t']) ensures q in s'.ledger && s'.ledger[q] == Caller(t') {
      assert q in Held(s.threads[t']) && s.ledger[q] == Caller(t');
    }
  }

  lemma EraseKeeps(s: State, t: Thread)
    requires Inv(s) && Enabled(s, Erase(t))
    ensures Inv(Next(s, Erase(t)))
  {
    var s', ptr := Next(s, Erase(t)), s.threads[t].ptr;
    assert s.lock == HeldBy(t) && Holder(s) == BoFreed(ptr) && Holder(s') == Returning && LockOk(s');
    EraseLedger(s, t, ptr);
  }

  lemma EraseLedger(s: State, t: Thread, ptr: Pointer)
    requires HeldOk(s) && OwnsOk(s) && NoLeak(s) && Enabled(s, Erase(t))
    requires Holder(s) == s.threads[t] == BoFreed(ptr) && Holder(Next(s, Erase(t))) == Returning
    ensures var s' := Next(s, Erase(t)); HeldOk(s') && OwnsOk(s') && NoLeak(s')
  {
    EraseLeak(s, t, ptr);
    EraseOwns(s, t, ptr);
  }

  lemma EraseLeak(s: State, t: Thread, ptr: Pointer)
    requires NoLeak(s) && Enabled(s, Erase(t))
    requires Holder(s) == s.threads[t] == BoFreed(ptr) && Holder(Next(s, Erase(t))) == Returning
    ensures NoLeak(Next(s, Erase(t)))
  {
    var s' := Next(s, Erase(t));
    forall r | r in s'.ledger ensures StillHeld(s', r, s'.ledger[r]) { assert StillHeld(s, r, s.ledger[r]); }
  }

  lemma EraseOwns(s: State, t: Thread, ptr: Pointer)
    requires OwnsOk(s) && Enabled(s, Erase(t))
    requires Holder(s) == s.threads[t] == BoFreed(ptr) && Holder(Next(s, Erase(t))) == Returning
    ensures OwnsOk(Next(s, Erase(t)))
  {
    var s' := Next(s, Erase(t));
    forall p, q | p in s'.buffers && q in Owns(Returning, p, s'.buffers[p])
      ensures q in s'.ledger && s'.ledger[q] == Registered(p)
    {
      assert q in Owns(Holder(s), p, s.buffers[p]);
    }
  }

  lemma FindKeeps(s: State, t: Thread)
    requires Inv(s) && Enabled(s, Find(t))
    ensures Inv(Next(s, Find(t)))
  {
    var s', ptr := Next(s, Find(t)), s.threads[t].ptr;
    assert s.lock == HeldBy(t);
    if ptr in s.buffers {
      TakeApart(s, t, FdClosed(ptr), ptr, Fd(s.buffers[ptr].fd));
    } else {
      MoveKeeps(s, s', t);
    }
  }

  lemma ReleaseKeeps(s: State, e: Step)
    requires Inv(s) && Enabled(s, e) && (e.Unmap? || e.FreeBo?)
    ensures Inv(Next(s, e))
  {
    var ptr := s.threads[e.t].ptr;
    assert s.lock == HeldBy(e.t) && ptr in s.buffers;
    if e.Unmap? {
      TakeApart(s, e.t, Unmapped(ptr), ptr, Mapping(ptr));
    } else {
      TakeApart(s, e.t, BoFreed(ptr), ptr, Bo(s.buffers[ptr].bo));
    }
  }

  lemma StepKeeps(s: State, e: Step)
    requires Inv(s) && Enabled(s, e)
    ensures Inv(Next(s, e))
  {
    if e.AllocBo? || e.MapBo? || e.ExportBo? || e.OpenNpu? { MallocKeeps(s, e); }
    else if e.MapFails? || e.ExportFails? || e.FreeUnwound? || e.CloseNpu? { UnwindKeeps(s, e); }
    else if e.Insert? { InsertKeeps(s, e.t); }
    else if e.Find? { FindKeeps(s, e.t); }
    else if e.Erase? { EraseKeeps(s, e.t); }
    else if e.Unmap? || e.FreeBo? { ReleaseKeeps(s, e); }
    else if e.CallFree? || e.CallCopy? || e.SkipNpu? { CallKeeps(s, e); }
    else { LockKeeps(s, e); }
  }

  lemma {:induction false} RunKeeps(ss: seq<State>, es: seq<Step>, n: nat)
    requires Run(ss, es) && n < |ss|
    ensures Inv(ss[n])
  {
    if n > 0 {
      RunKeeps(ss, es, n - 1);
      StepKeeps(ss[n - 1], es[n - 1]);
    }
  }

  // ---- what follows ----

  /** The release call a step makes, whether or not its argument is live. */
  function Closes(s: State, e: Step): set<Resource>
    requires Enabled(s, e)
  {
    var pc := s.threads[e.t];
    match e
    case MapFails(_) => {Bo(pc.bo)}
    case ExportFails(_) => {Mapping(pc.ptr)}
    case FreeUnwound(_) => {Bo(pc.bo)}
    case CloseNpu(_) => {Fd(pc.npu)}
    case Find(_) => if pc.ptr in s.buffers then {Fd(s.buffers[pc.ptr].fd)} else {}
    case Unmap(_) => {Mapping(pc.ptr)}
    case FreeBo(_) => {Bo(s.buffers[pc.ptr].bo)}
    case _ => {}
  }

  /** Whatever a step closes, unmaps or frees is live, and is gone afterwards: nothing is released twice. */
  lemma ReleasesAreLive(s: State, e: Step)
    requires Inv(s) && Enabled(s, e)
    ensures Closes(s, e) <= s.ledger.Keys && Closes(s, e) !! Next(s, e).ledger.Keys
  {
    var pc := s.threads[e.t];
    assert InLock(pc) ==> Holder(s) == pc;
    forall r | r in Closes(s, e) ensures r in s.ledger {
      assert r in Held(pc) || (pc.ptr in s.buffers && r in Owns(Holder(s), pc.ptr, s.buffers[pc.ptr]));
    }
  }

  /** And that is all that leaves the ledger. */
  lemma NothingElseLeaves(s: State, e: Step)
    requires Inv(s) && Enabled(s, e)
    ensures s.ledger.Keys - Next(s, e).ledger.Keys == Closes(s, e)
  {
    ReleasesAreLive(s, e);
  }

  /** A copy runs while each of its endpoints found in the registry is still there, and mapped. */
  lemma CopyIsSafe(s: State, t: Thread)
    requires Inv(s) && Enabled(s, Copy(t))
    ensures var pc := s.threads[t];
      && (pc.dstTracked || pc.srcTracked)
      && (pc.dstTracked <==> pc.dst in s.buffers) && (pc.srcTracked <==> pc.src in s.buffers)
      && (pc.dstTracked ==> Mapping(pc.dst) in s.ledger) && (pc.srcTracked ==> Mapping(pc.src) in s.ledger)
  {
    var pc := s.threads[t];
    assert s.lock == HeldBy(t) && Holder(s) == pc;
    if pc.dstTracked { EntryIsMapped(s, pc.dst); }
    if pc.srcTracked { EntryIsMapped(s, pc.src); }
  }

  /** Safety of every run: its next step overwrites no entry, releases only what is live, copies only what is mapped. */
  lemma RunsAreSafe(ss: seq<State>, es: seq<Step>, n: nat)
    requires Run(ss, es) && n < |es|
    ensures var s, e := ss[n], es[n];
      && (e.Insert? ==> s.threads[e.t].ptr !in s.buffers)
      && Closes(s, e) <= s.ledger.Keys && Closes(s, e) !! ss[n + 1].ledger.Keys
      && (e.Copy? ==> var pc := s.threads[e.t];
           && (pc.dst in s.buffers ==> Mapping(pc.dst) in s.ledger) && (pc.src in s.buffers ==> Mapping(pc.src) in s.ledger))
  {
    RunKeeps(ss, es, n);
    ReleasesAreLive(ss[n], es[n]);
    if es[n].Insert? { InsertIsFresh(ss[n], es[n].t); }
    if es[n].Copy? { CopyIsSafe(ss[n], es[n].t); }
  }

  /** No null pointer is on its way into the registry, or in it. */
  ghost predicate NoNull(s: State) {
    && 0 !in s.buffers
    && forall t :: t in s.threads ==> match s.threads[t]
         case Mapped(_, ptr) => ptr != 0
         case Exported(_, ptr, _) => ptr != 0
         case Importing(_, ptr, _, _) => ptr != 0
         case Imported(_, ptr, _) => ptr != 0
         case Inserting(_, ptr, _) => ptr != 0
         case _ => true
  }

  lemma NoNullStep(s: State, e: Step)
    requires NoNull(s) && Enabled(s, e)
    ensures NoNull(Next(s, e))
  {}

  /** The null pointer, which hipFree ignores, is never registered: every registered buffer can be freed. */
  lemma {:induction false} NeverNull(ss: seq<State>, es: seq<Step>, n: nat)
    requires Run(ss, es) && n <= |es|
    ensures NoNull(ss[n]) && 0 !in ss[n].buffers
  {
    if n > 0 {
      NeverNull(ss, es, n - 1);
      NoNullStep(ss[n - 1], es[n - 1]);
    }
  }

  ghost predicate Quiet(s: State) { forall t :: t in s.threads ==> s.threads[t] == Idle }

  /** The three resources of one registered buffer. */
  function Whole(ptr: Pointer, e: Entry): set<Resource> { {Bo(e.bo), Mapping(ptr), Fd(e.fd)} }

  /**
   When no call is in progress the ledger is exactly the registered buffers' resources, three to a buffer and none
   shared, whatever failures and interleavings came before; so when every buffer was freed it is empty.
   */
  lemma QuietLedger(ss: seq<State>, es: seq<Step>)
    requires Run(ss, es) && Quiet(ss[|es|])
    ensures var s := ss[|es|];
      && (forall r :: r in s.ledger <==> exists p :: p in s.buffers && r in Whole(p, s.buffers[p]))
      && (forall p, q :: p in s.buffers && q in s.buffers && p != q ==> Whole(p, s.buffers[p]) !! Whole(q, s.buffers[q]))
      && (s.buffers == map[] ==> s.ledger == map[])
  {
    var s := ss[|es|];
    RunKeeps(ss, es, |es|);
    assert Holder(s) == Idle;
    forall r | r in s.ledger { QuietResource(s, r); }
    forall p | p in s.buffers { QuietBuffer(s, p); }
    if s.buffers == map[] { assert s.ledger.Keys == {}; }
  }

  lemma QuietResource(s: State, r: Resource)
    requires Inv(s) && Quiet(s) && Holder(s) == Idle && r in s.ledger
    ensures exists p :: p in s.buffers && r in Whole(p, s.buffers[p])
  {
    assert StillHeld(s, r, s.ledger[r]);
    assert s.ledger[r].Registered?;
  }

  lemma QuietBuffer(s: State, p: Pointer)
    requires Inv(s) && Holder(s) == Idle && p in s.buffers
    ensures forall r :: r in Whole(p, s.buffers[p]) ==> r in s.ledger && s.ledger[r] == Registered(p)
  {
    assert Whole(p, s.buffers[p]) == Owns(Holder(s), p, s.buffers[p]);
  }

  function Number(r: Resource): int {
    match r
    case Bo(handle) => handle
    case Mapping(ptr) => ptr
    case Fd(number) => number
  }

  /** The kernel always has something left to hand out. */
  lemma {:induction false} Unused(used: set<Resource>) returns (n: int)
    ensures n > 0 && forall r :: r in used ==> Number(r) < n
  {
    if used == {} {
      n := 1;
    } else {
      var r :| r in used;
      n := Unused(used - {r});
      n := if Number(r) < n then n else Number(r) + 1;
    }
  }

  /** The step by which a thread that does not wait for the lock goes on, its kernel calls succeeding with number n. */
  function Onward(t: Thread, pc: Pc, n: int): Step {
    match pc
    case Allocated(_) => MapBo(t, n)
    case Mapped(_, _) => ExportBo(t, n)
    case Unwinding(_) => FreeUnwound(t)
    case Exported(_, _, _) => OpenNpu(t, n)
    case Importing(_, _, _, _) => CloseNpu(t)
    case Inserting(_, _, _) => Insert(t)
    case Looking(_) => Look(t)
    case Found(_) => DropLock(t)
    case Finding(_) => Find(t)
    case FdClosed(_) => Unmap(t)
    case Unmapped(_) => FreeBo(t)
    case BoFreed(_) => Erase(t)
    case Checking(_, _) => Check(t)
    case Moving(_, _, _, _) => Copy(t)
    case Returning => Release(t)
    case _ => Acquire(t)
  }

  /** No call gets stuck: its thread can go on, no kernel call failing, or the thread it waits for can. */
  lemma NeverStuck(ss: seq<State>, es: seq<Step>, t: Thread) returns (e: Step)
    requires Run(ss, es) && t in ss[|es|].threads && ss[|es|].threads[t] != Idle
    ensures Enabled(ss[|es|], e) && !e.MapFails? && !e.ExportFails?
    ensures e.t == t || (WantsLock(ss[|es|].threads[t]) && ss[|es|].lock == HeldBy(e.t))
  {
    var s := ss[|es|];
    RunKeeps(ss, es, |es|);
    var n := Unused(s.ledger.Keys);
    var u := if WantsLock(s.threads[t]) && s.lock.HeldBy? then s.lock.thread else t;
    e := Onward(u, s.threads[u], n);
    OnwardEnabled(s, u, n);
  }

  lemma OnwardEnabled(s: State, u: Thread, n: int)
    requires LockOk(s) && HolderOk(s) && u in s.threads && s.threads[u] != Idle
    requires n > 0 && forall r :: r in s.ledger ==> Number(r) < n
    requires WantsLock(s.threads[u]) ==> s.lock == Open
    ensures Enabled(s, Onward(u, s.threads[u], n))
  {
    assert Bo(n) !in s.ledger && Mapping(n) !in s.ledger && Fd(n) !in s.ledger;
    assert InLock(s.threads[u]) ==> Holder(s) == s.threads[u];
  }

  /**
   Outside the lock a thread runs at its own pace: what it can do next depends on the others only through the handles,
   addresses and descriptors that are in use.
   */
  lemma OutsideIndependent(s: State, s': State, e: Step)
    requires e.t in s.threads && e.t in s'.threads && s.threads[e.t] == s'.threads[e.t]
    requires s.ledger.Keys == s'.ledger.Keys && !InLock(s.threads[e.t]) && !e.Acquire?
    ensures Enabled(s, e) <==> Enabled(s', e)
  {}

  /** An idle thread can start any call at any time. */
  lemma CallsStart(s: State, t: Thread, bo: int, ptr: Pointer, src: Pointer)
    requires t in s.threads && s.threads[t] == Idle
    ensures Enabled(s, AllocBo(t, bo)) <==> Bo(bo) !in s.ledger
    ensures Enabled(s, CallFree(t, ptr)) <==> ptr != 0
    ensures Enabled(s, CallCopy(t, ptr, src))
  {}

  // ---- the lock dropped inside hipFree ----

  /** A step that takes the entry of ptr out of the registry. */
  predicate Erases(s: State, e: Step, ptr: Pointer)
    requires Enabled(s, e)
  {
    e.Erase? && s.threads[e.t].ptr == ptr
  }

  /** As long as nobody erases it an entry stays what it is. */
  lemma {:induction false} EntryStays(ss: seq<State>, es: seq<Step>, i: nat, j: nat, ptr: Pointer)
    requires Run(ss, es) && i <= j <= |es| && ptr in ss[i].buffers
    requires forall n :: i <= n < j ==> !Erases(ss[n], es[n], ptr)
    ensures ptr in ss[j].buffers && ss[j].buffers[ptr] == ss[i].buffers[ptr]
  {
    if i < j {
      EntryStays(ss, es, i, j - 1, ptr);
      RunKeeps(ss, es, j - 1);
      EntryStep(ss[j - 1], es[j - 1], ptr);
    }
  }

  lemma EntryStep(s: State, e: Step, ptr: Pointer)
    requires Inv(s) && Enabled(s, e) && !Erases(s, e, ptr) && ptr in s.buffers
    ensures ptr in Next(s, e).buffers && Next(s, e).buffers[ptr] == s.buffers[ptr]
  {
    if e.Insert? { InsertIsFresh(s, e.t); }
  }

  /**
   The entry npu_free takes apart is the one hipFree found before it dropped the lock, unless another free of the same
   pointer went all the way through in between.
   */
  lemma FreesWhatItFound(ss: seq<State>, es: seq<Step>, i: nat, j: nat, t: Thread)
    requires Run(ss, es) && i < j < |es| && es[i] == Look(t) && es[j] == Find(t)
    requires ss[i].threads[t].ptr == ss[j].threads[t].ptr && ss[i].threads[t].ptr in ss[i].buffers
    requires forall n :: i <= n < j ==> !Erases(ss[n], es[n], ss[i].threads[t].ptr)
    ensures var ptr := ss[i].threads[t].ptr;
      && ptr in ss[j].buffers && ss[j].buffers[ptr] == ss[i].buffers[ptr]
      && Closes(ss[j], es[j]) == {Fd(ss[i].buffers[ptr].fd)} && ss[j + 1].threads[t] == FdClosed(ptr)
  {
    EntryStays(ss, es, i, j, ss[i].threads[t].ptr);
  }
}
