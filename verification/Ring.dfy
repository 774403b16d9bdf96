/** The NPU command ring: a 512-qword buffer written by the driver and read by the firmware. */
module Ring {
  import opened Arith

  const SLOTS := 512
  const BYTES := 4096
  const HEADER: int := 0x1_0000_0000

  /** A command of three qwords; the opcode is a 32-bit number. */
  datatype Packet = Packet(opcode: int, arg0: int, arg1: int)

  predicate Wide(p: Packet) { 0 <= p.opcode < HEADER }

  /** What driver and firmware see: the buffer, the driver's tail, the doorbell register, the firmware's head register. */
  datatype Memory = Memory(slots: seq<int>, tail: int, doorbell: int, head: int)

  predicate Sound(m: Memory) { |m.slots| == SLOTS && 0 <= m.tail < BYTES && 0 <= m.head < BYTES }

  function Emit(m: Memory, qword: int): Memory
    requires Sound(m)
  {
    m.(slots := m.slots[m.tail / 8 := qword], tail := (m.tail + 8) % BYTES)
  }

  /** Opcode with a size of one in the upper half. */
  function Header(opcode: int): int { opcode + HEADER }

  function Submit(m: Memory, p: Packet): Memory
    requires Sound(m)
  {
    var m' := Emit(Emit(Emit(m, Header(p.opcode)), p.arg0), p.arg1);
    m'.(doorbell := m'.tail)
  }

  /** The firmware takes the qword at its head, if the doorbell says that there is one. */
  function Take(m: Memory): Memory
    requires Sound(m)
  {
    m.(head := (m.head + 8) % BYTES)
  }

  /** A run's history: the qwords written and read, the packets submitted, and how many since the last good wait. */
  datatype History = History(memory: Memory, written: seq<int>, read: seq<int>, packets: seq<Packet>, since: nat)

  datatype Event = Submitted(packet: Packet) | Taken | Completed

  function Qwords(p: Packet): seq<int> { [Header(p.opcode), p.arg0, p.arg1] }

  /** The firmware reads when its head has not reached the doorbell; a wait completes when it has reached the tail. */
  predicate Enabled(h: History, e: Event) {
    && Sound(h.memory)
    && match e
       case Submitted(p) => Wide(p)
       case Taken => h.memory.head != h.memory.doorbell
       case Completed => h.memory.head == h.memory.tail
  }

  function Next(h: History, e: Event): History
    requires Enabled(h, e)
  {
    match e
    case Submitted(p) =>
      h.(memory := Submit(h.memory, p), written := h.written + Qwords(p), packets := h.packets + [p], since := h.since + 1)
    case Taken => h.(memory := Take(h.memory), read := h.read + [h.memory.slots[h.memory.head / 8]])
    case Completed => h.(since := 0)
  }

  predicate Fresh(h: History) {
    |h.memory.slots| == SLOTS && h == History(Memory(h.memory.slots, 0, 0, 0), [], [], [], 0)
  }

  ghost predicate Run(hs: seq<History>, es: seq<Event>) {
    && |hs| == |es| + 1 && Fresh(hs[0])
    && forall i :: 0 <= i < |es| ==> Enabled(hs[i], es[i]) && hs[i + 1] == Next(hs[i], es[i])
  }

  /** Never more than `bound` packets are submitted between good waits. */
  ghost predicate Bounded(hs: seq<History>, bound: nat) { forall i :: 0 <= i < |hs| ==> hs[i].since <= bound }

  // ---- what holds on every run, bounded or not ----

  /** Registers count bytes modulo the buffer size. */
  predicate Counted(h: History) {
    && Sound(h.memory) && |h.written| == 3 * |h.packets|
    && h.memory.tail == 8 * (|h.written| % SLOTS) && h.memory.doorbell == h.memory.tail
    && h.memory.head == 8 * (|h.read| % SLOTS)
  }

  lemma Successor(n: nat)
    ensures (8 * (n % SLOTS) + 8) % BYTES == 8 * ((n + 1) % SLOTS)
  {
    var q, r := n / SLOTS, n % SLOTS;
    if r == SLOTS - 1 {
      DivMod(q + 1, 0, SLOTS);
    } else {
      DivMod(q, r + 1, SLOTS);
      DivMod(0, 8 * r + 8, BYTES);
    }
  }

  lemma CountedStep(h: History, e: Event)
    requires Counted(h) && Enabled(h, e)
    ensures Counted(Next(h, e))
  {
    match e
    case Submitted(p) =>
      Successor(|h.written|);
      Successor(|h.written| + 1);
      Successor(|h.written| + 2);
    case Taken => Successor(|h.read|);
    case Completed =>
  }

  lemma {:induction false} RunCounted(hs: seq<History>, es: seq<Event>, n: nat)
    requires Run(hs, es) && n < |hs|
    ensures Counted(hs[n])
  {
    if n > 0 {
      RunCounted(hs, es, n - 1);
      CountedStep(hs[n - 1], es[n - 1]);
    }
  }

  /** On any run a wait completes exactly when the number of unread qwords is a multiple of the ring's size. */
  lemma CompletesIff(hs: seq<History>, es: seq<Event>)
    requires Run(hs, es)
    ensures var h := hs[|es|]; h.memory.head == h.memory.tail <==> (|h.written| - |h.read|) % 512 == 0
  {
    RunCounted(hs, es, |es|);
    var h := hs[|es|];
    SameRemainder(|h.written|, |h.read|);
  }

  /** And the firmware has something to take exactly when it is not. */
  lemma TakenIff(hs: seq<History>, es: seq<Event>)
    requires Run(hs, es)
    ensures var h := hs[|es|]; Enabled(h, Taken) <==> (|h.written| - |h.read|) % 512 != 0
  {
    RunCounted(hs, es, |es|);
    CompletesIff(hs, es);
  }

  lemma SameRemainder(x: int, y: int)
    ensures x % SLOTS == y % SLOTS <==> (x - y) % SLOTS == 0
  {
    var d := x / SLOTS - y / SLOTS;
    assert x - y == d * SLOTS + (x % SLOTS - y % SLOTS);
    if x % SLOTS >= y % SLOTS { DivMod(d, x % SLOTS - y % SLOTS, SLOTS); }
    else { DivMod(d - 1, x % SLOTS - y % SLOTS + SLOTS, SLOTS); }
  }

  // ---- bounded runs ----

  /** The unread qwords are all still in their slots, and what was read is what was written, in order. */
  ghost predicate Queue(h: History, bound: nat) {
    && Counted(h)
    && |h.read| <= |h.written| <= |h.read| + 3 * h.since && h.since <= bound
    && h.read == h.written[..|h.read|]
    && forall i :: |h.read| <= i < |h.written| ==> h.memory.slots[i % SLOTS] == h.written[i]
  }

  lemma EmitKeeps(m: Memory, written: seq<int>, from: nat, qword: int)
    requires Sound(m) && m.tail == 8 * (|written| % SLOTS) && from <= |written| < from + SLOTS
    requires forall i :: from <= i < |written| ==> m.slots[i % SLOTS] == written[i]
    ensures var m' := Emit(m, qword); var written' := written + [qword];
      && Sound(m') && m'.tail == 8 * (|written'| % SLOTS)
      && forall i :: from <= i < |written'| ==> m'.slots[i % SLOTS] == written'[i]
  {
    Successor(|written|);
    forall i | from <= i < |written| ensures i % SLOTS != |written| % SLOTS { SameRemainder(|written|, i); }
  }

  lemma SubmitKeeps(h: History, p: Packet, bound: nat)
    requires Queue(h, bound) && Wide(p) && h.since < bound <= 170
    ensures Queue(Next(h, Submitted(p)), bound)
  {
    CountedStep(h, Submitted(p));
    var m, w, from := h.memory, h.written, |h.read|;
    EmitKeeps(m, w, from, Header(p.opcode));
    EmitKeeps(Emit(m, Header(p.opcode)), w + [Header(p.opcode)], from, p.arg0);
    EmitKeeps(Emit(Emit(m, Header(p.opcode)), p.arg0), w + [Header(p.opcode)] + [p.arg0], from, p.arg1);
    assert w + [Header(p.opcode)] + [p.arg0] + [p.arg1] == w + Qwords(p);
  }

  lemma TakeKeeps(h: History, bound: nat)
    requires Queue(h, bound) && Enabled(h, Taken) && bound <= 170
    ensures |h.read| < |h.written| && h.memory.slots[h.memory.head / 8] == h.written[|h.read|]
    ensures Queue(Next(h, Taken), bound)
  {
    CountedStep(h, Taken);
    assert |h.read| != |h.written|;
  }

  lemma CompleteKeeps(h: History, bound: nat)
    requires Queue(h, bound) && Enabled(h, Completed) && bound <= 170
    ensures |h.read| == |h.written| && Queue(Next(h, Completed), bound)
  {
    SameRemainder(|h.written|, |h.read|);
    var d := |h.written| - |h.read|;
    assert 0 <= d < SLOTS && d % SLOTS == 0;
  }

  lemma {:induction false} RunQueue(hs: seq<History>, es: seq<Event>, n: nat, bound: nat)
    requires Run(hs, es) && Bounded(hs, bound) && bound <= 170 && n < |hs|
    ensures Queue(hs[n], bound)
  {
    if n > 0 {
      RunQueue(hs, es, n - 1, bound);
      var h, e := hs[n - 1], es[n - 1];
      assert hs[n].since <= bound;
      match e
      case Submitted(p) => SubmitKeeps(h, p, bound);
      case Taken => TakeKeeps(h, bound);
      case Completed => CompleteKeeps(h, bound);
    }
  }

  // ---- the packets in the stream ----

  function Stream(ps: seq<Packet>): seq<int> { if ps == [] then [] else Stream(ps[..|ps| - 1]) + Qwords(ps[|ps| - 1]) }

  /** Packets of a qword stream; a last incomplete packet is left out. */
  function Parse(s: seq<int>): seq<Packet>
    decreases |s|
  {
    if |s| < 3 then [] else [Packet(s[0] - HEADER, s[1], s[2])] + Parse(s[3..])
  }

  lemma {:induction false} ParseStep(s: seq<int>, p: Packet)
    requires |s| % 3 == 0
    ensures Parse(s + Qwords(p)) == Parse(s) + [p]
    decreases |s|
  {
    if |s| == 0 {
      assert s + Qwords(p) == Qwords(p) && Parse(Qwords(p)[3..]) == [];
    } else {
      assert (s + Qwords(p))[3..] == s[3..] + Qwords(p);
      ParseStep(s[3..], p);
    }
  }

  lemma {:induction false} ParseStream(ps: seq<Packet>)
    ensures |Stream(ps)| == 3 * |ps| && Parse(Stream(ps)) == ps
  {
    if ps != [] {
      var before := ps[..|ps| - 1];
      ParseStream(before);
      ParseStep(Stream(before), ps[|ps| - 1]);
      assert before + [ps[|ps| - 1]] == ps;
    }
  }

  lemma {:induction false} StreamPrefix(ps: seq<Packet>, n: nat)
    requires n <= |ps|
    ensures |Stream(ps)| == 3 * |ps| && Stream(ps)[..3 * n] == Stream(ps[..n])
  {
    ParseStream(ps);
    if n == |ps| {
      assert ps[..n] == ps && Stream(ps)[..3 * n] == Stream(ps);
    } else {
      var before := ps[..|ps| - 1];
      StreamPrefix(before, n);
      assert before[..n] == ps[..n];
      assert Stream(ps)[..3 * n] == Stream(before)[..3 * n];
    }
  }

  lemma {:induction false} RunStream(hs: seq<History>, es: seq<Event>, n: nat)
    requires Run(hs, es) && n < |hs|
    ensures hs[n].written == Stream(hs[n].packets)
  {
    if n > 0 {
      RunStream(hs, es, n - 1);
      var h, e := hs[n - 1], es[n - 1];
      if e.Submitted? { assert (h.packets + [e.packet])[..|h.packets|] == h.packets; }
    }
  }

  /** Qwords 3 n to 3 n + 2 of a packet stream: opcode with a size of one above it, and the two arguments. */
  ghost predicate OnTheWire(written: seq<int>, n: nat, p: Packet) {
    && 3 * n + 2 < |written|
    && written[3 * n] / 0x1_0000_0000 == 1 && written[3 * n] % 0x1_0000_0000 == p.opcode
    && written[3 * n + 1] == p.arg0 && written[3 * n + 2] == p.arg1
  }

  lemma {:induction false} StreamOnTheWire(ps: seq<Packet>, n: nat)
    requires n < |ps| && forall i :: 0 <= i < |ps| ==> 0 <= ps[i].opcode < 0x1_0000_0000
    ensures |Stream(ps)| == 3 * |ps| && OnTheWire(Stream(ps), n, ps[n])
  {
    ParseStream(ps);
    var before := ps[..|ps| - 1];
    ParseStream(before);
    if n < |before| { StreamOnTheWire(before, n); } else { HeaderOnTheWire(ps[n].opcode); }
  }

  lemma HeaderOnTheWire(opcode: int)
    requires 0 <= opcode < 0x1_0000_0000
    ensures Header(opcode) / 0x1_0000_0000 == 1 && Header(opcode) % 0x1_0000_0000 == opcode
  {
    DivMod(1, opcode, 0x1_0000_0000);
  }

  lemma {:induction false} OpcodesFit(hs: seq<History>, es: seq<Event>, n: nat)
    requires Run(hs, es) && n < |hs|
    ensures forall i :: 0 <= i < |hs[n].packets| ==> 0 <= hs[n].packets[i].opcode < 0x1_0000_0000
  {
    if n > 0 {
      OpcodesFit(hs, es, n - 1);
      assert Enabled(hs[n - 1], es[n - 1]) && hs[n] == Next(hs[n - 1], es[n - 1]);
    }
  }

  /** What every run puts on the wire for its n-th packet. */
  lemma PacketsOnTheWire(hs: seq<History>, es: seq<Event>, n: nat)
    requires Run(hs, es) && n < |hs[|es|].packets|
    ensures var written, p := hs[|es|].written, hs[|es|].packets[n];
      && |written| == 3 * |hs[|es|].packets|
      && written[3 * n] / 0x1_0000_0000 == 1 && written[3 * n] % 0x1_0000_0000 == p.opcode
      && written[3 * n + 1] == p.arg0 && written[3 * n + 2] == p.arg1
  {
    RunStream(hs, es, |es|);
    OpcodesFit(hs, es, |es|);
    StreamOnTheWire(hs[|es|].packets, n);
  }

  /** An incomplete last packet does not change what has been parsed. */
  lemma {:induction false} ParseWhole(s: seq<int>)
    ensures Parse(s) == Parse(s[..3 * (|s| / 3)])
    decreases |s|
  {
    if |s| >= 3 {
      ParseWhole(s[3..]);
      var n := 3 * (|s| / 3);
      assert s[..n][3..] == s[3..][..3 * (|s[3..]| / 3)];
      assert s[..n][0] == s[0] && s[..n][1] == s[1] && s[..n][2] == s[2];
    }
  }

  /**
   With at most 170 packets between good waits the ring is a packet queue: the firmware reads what was written, in
   order, its stream parses back into the packets submitted, and a completed wait means that all were read.
   */
  lemma RingIsQueue(hs: seq<History>, es: seq<Event>)
    requires Run(hs, es) && Bounded(hs, 170)
    ensures var h := hs[|es|];
      && h.read <= h.written == Stream(h.packets) && |h.read| / 3 <= |h.packets|
      && Parse(h.read) == h.packets[..|h.read| / 3]
      && (h.memory.head == h.memory.tail <==> h.read == h.written)
      && (Enabled(h, Taken) <==> h.read != h.written)
      && |h.written| - |h.read| <= 510
  {
    var h := hs[|es|];
    RunQueue(hs, es, |es|, 170);
    RunStream(hs, es, |es|);
    if h.memory.head == h.memory.tail { CompleteKeeps(h, 170); }
    var n := |h.read| / 3;
    StreamPrefix(h.packets, n);
    ParseWhole(h.read);
    assert h.read[..3 * n] == Stream(h.packets)[..3 * n];
    ParseStream(h.packets[..n]);
  }

  // ---- the bound is exact ----

  /** A completed wait means that everything was read, on every run within the bound. */
  ghost predicate WaitMeansRead(bound: nat) {
    forall hs: seq<History>, es: seq<Event> :: Run(hs, es) && Bounded(hs, bound) ==> DoneIfCompleted(hs[|es|])
  }

  predicate DoneIfCompleted(h: History) { h.memory.head == h.memory.tail ==> h.read == h.written }

  /** The history after n submissions of one packet, with nothing read. */
  function After(p: Packet, n: nat): (h: History)
    requires Wide(p)
    ensures Counted(h) && |h.packets| == h.since == n && h.read == []
  {
    if n == 0 then History(Memory(seq(SLOTS, _ => 0), 0, 0, 0), [], [], [], 0)
    else CountedStep(After(p, n - 1), Submitted(p)); Next(After(p, n - 1), Submitted(p))
  }

  /**
   171 packets with nothing read: the doorbell has gone round, the firmware takes one qword, the wrong one, and
   everybody agrees that the ring is empty.
   */
  lemma WrapLosesPackets(p: Packet) returns (hs: seq<History>, es: seq<Event>)
    requires Wide(p)
    ensures Run(hs, es) && Bounded(hs, 171)
    ensures hs[|es|].memory.head == hs[|es|].memory.tail == hs[|es|].memory.doorbell
    ensures |hs[|es|].written| == 513 && hs[|es|].written[0] == Header(p.opcode) && hs[|es|].read == [p.arg1]
  {
    hs, es := SubmitsRun(p, 171);
    RoundOnce(p);
    RunExtends(hs, es, Taken, 171);
    hs, es := hs + [Next(After(p, 171), Taken)], es + [Taken];
  }

  lemma RunExtends(hs: seq<History>, es: seq<Event>, e: Event, bound: nat)
    requires Run(hs, es) && Bounded(hs, bound) && Enabled(hs[|es|], e) && Next(hs[|es|], e).since <= bound
    ensures Run(hs + [Next(hs[|es|], e)], es + [e]) && Bounded(hs + [Next(hs[|es|], e)], bound)
  {}

  /** After 513 qwords and none read, the tail has gone round to the second slot, over the first header. */
  lemma RoundOnce(p: Packet)
    requires Wide(p)
    ensures Enabled(After(p, 171), Taken) && |After(p, 171).written| == 513 && After(p, 171).written[0] == Header(p.opcode)
    ensures var h := Next(After(p, 171), Taken);
      h.memory.head == h.memory.tail == h.memory.doorbell == 8 && h.read == [p.arg1]
  {
    LastEmit(After(p, 170), p);
    FirstWritten(p, 171);
  }

  /** Submitting one packet n times is a run. */
  lemma {:induction false} SubmitsRun(p: Packet, n: nat) returns (hs: seq<History>, es: seq<Event>)
    requires Wide(p)
    ensures Run(hs, es) && |es| == n && hs[n] == After(p, n) && Bounded(hs, n)
  {
    if n == 0 {
      hs, es := [After(p, 0)], [];
    } else {
      hs, es := SubmitsRun(p, n - 1);
      assert Bounded(hs, n);
      RunExtends(hs, es, Submitted(p), n);
      hs, es := hs + [After(p, n)], es + [Submitted(p)];
    }
  }

  lemma LastEmit(h: History, p: Packet)
    requires Counted(h) && Wide(p) && |h.packets| == 170
    ensures Submit(h.memory, p).slots[0] == p.arg1
  {
    assert h.memory.tail == 8 * 510;
  }

  lemma {:induction false} FirstWritten(p: Packet, n: nat)
    requires Wide(p) && n > 0
    ensures |After(p, n).written| > 0 && After(p, n).written[0] == Header(p.opcode)
  {
    if n > 1 { FirstWritten(p, n - 1); }
  }

  /** 170 packets between good waits are safe, and no larger number is. */
  lemma BoundIsExact(bound: nat)
    ensures WaitMeansRead(bound) <==> bound <= 170
  {
    if bound <= 170 {
      forall hs: seq<History>, es: seq<Event> | Run(hs, es) && Bounded(hs, bound) ensures DoneIfCompleted(hs[|es|]) {
        RingIsQueue(hs, es);
      }
    } else {
      var hs, es := WrapLosesPackets(Packet(0, 0, 0));
      assert Bounded(hs, bound) && !DoneIfCompleted(hs[|es|]);
    }
  }

  lemma TailAdvances(t: int)
    requires 0 <= t < 4096
    ensures ((t + 8) % 4096 + 8) % 4096 == (t + 16) % 4096 && ((t + 16) % 4096 + 8) % 4096 == (t + 24) % 4096
  {}

  /** The driver's side: its tail and the device's registers, with the firmware's head read by polling. */
  class Driver {
    const buffer: array<int>
    var tail: int
    var doorbell: int

    constructor (mailbox: array<int>)
      requires mailbox.Length == SLOTS
      ensures buffer == mailbox && tail == doorbell == 0
      ensures forall head :: 0 <= head < BYTES ==> Sound(View(head))
    {
      buffer, tail, doorbell := mailbox, 0, 0;
    }

    /** The shared memory, given the firmware's head register. */
    ghost function View(head: int): Memory
      reads this, buffer
    {
      Memory(buffer[..], tail, doorbell, head)
    }

    method EmitQword(qword: int, ghost head: int)
      requires Sound(View(head))
      modifies this`tail, buffer
      ensures View(head) == Emit(old(View(head)), qword)
      ensures buffer[..] == old(buffer[..])[old(tail) / 8 := qword] && tail == (old(tail) + 8) % 4096
    {
      buffer[tail / 8] := qword;
      tail := tail + 8;
      tail := tail % BYTES;
    }

    /** Three qwords, then the doorbell. */
    method SubmitPacket(opcode: int, arg0: int, arg1: int, ghost head: int)
      requires Sound(View(head))
      modifies this`tail, this`doorbell, buffer
      ensures View(head) == Submit(old(View(head)), Packet(opcode, arg0, arg1))
      ensures var t := old(tail);
        && buffer[..] == old(buffer[..])[t / 8 := 0x1_0000_0000 + opcode][(t + 8) % 4096 / 8 := arg0][(t + 16) % 4096 / 8 := arg1]
        && tail == doorbell == (t + 24) % 4096
    {
      TailAdvances(tail);
      EmitQword(opcode + HEADER, head);
      EmitQword(arg0, head);
      EmitQword(arg1, head);
      doorbell := tail;
    }

    /** Polls the head register until it shows the tail or time is up; `heads` are the values it showed. */
    method Wait(heads: seq<int>) returns (r: int)
      requires |heads| > 0
      ensures r == if exists i :: 0 <= i < |heads| && heads[i] == tail then 0 else -110
    {
      var i := 0;
      while true
        invariant 0 <= i < |heads| && forall j :: 0 <= j < i ==> heads[j] != tail
        decreases |heads| - i
      {
        if heads[i] == tail { return 0; }
        i := i + 1;
        if i == |heads| { return -110; }
      }
    }
  }
}
