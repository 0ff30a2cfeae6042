/**
  The fuzzer's table operations as single stores and system calls, between any two of
  which a signal handler may run.  In every reachable state a slot marked active is a
  page that is mapped, with the recorded protection, so no handler touches an unmapped
  page; and whenever no operation is under way the two counters equal the number of
  active slots.
*/
module SignalSafety {
  import opened Slots
  import opened FuzzerTables

  /** Where an operation has got to; next says what it returns to. */
  datatype Pc =
    | Idle
    | Opening(at: nat, event: int, req: OpenRequest, leader: int)  // open_random_event
    | Setting(at: nat, job: Job, addr: int)                     // setup_mmap, setup_mmap_aux
    | Unmapping(at: nat, slot: int, ok: bool, next: Pc)         // unmap_mmap
    | Closing(at: nat, event: int, unmapFirst: bool, next: Pc)  // close_event
    | Sweeping(i: nat)                                          // sigio_handler

  datatype Machine = Machine(w: World, pc: Pc)

  /** An open that the kernel granted. */
  datatype OpenRequest = OpenRequest(fd: int, attr: Attr, groupFd: int)

  datatype Op =
    | Open(req: OpenRequest)
    | Setup(which: int, size: int, prot: Prot)
    | Unmap(i: int)
    | Close(i: int, unmapFirst: bool)
    | CloseAll
    | Read(i: int, head: int)
    | Trash(i: int)

  /** The random choices and kernel answers that one step may need. */
  datatype Choice = Choice(addr: int, auxToo: bool, size: int, prot: Prot, unmapFirst: bool)

  datatype Move = Begin(op: Op) | Tick(choice: Choice) | Signal(fd: int, replies: Replies)

  // ---- single stores ----

  function PutSlot(w: World, i: int, m: Mapping): World
    requires 0 <= i < |w.t.mmaps|
  {
    w.(t := w.t.(mmaps := w.t.mmaps[i := m]))
  }

  function PutEvent(w: World, i: int, e: Event): World
    requires 0 <= i < |w.t.events|
  {
    w.(t := w.t.(events := w.t.events[i := e]))
  }

  function CountMmaps(w: World, n: int): World { w.(t := w.t.(activeMmaps := w.t.activeMmaps + n)) }

  function CountEvents(w: World, n: int): World { w.(t := w.t.(activeEvents := w.t.activeEvents + n)) }

  function FreeMmap(t: Tables): int { First(FreeFlags(MmapFlags(t.mmaps))) }

  function FreeEvent(t: Tables): int { First(FreeFlags(EventFlags(t.events))) }

  // ---- the steps ----

  ghost predicate PcInRange(w: World, pc: Pc) {
    match pc
    case Idle => true
    case Opening(at, event, _, leader) => at <= 10 && 0 <= event < NUM_EVENTS && leader < NUM_EVENTS
    case Setting(at, job, _) =>
      at <= 13 && 0 <= job.slot < MAX_MMAPS && 0 <= job.which < NUM_EVENTS && 0 <= job.parent < MAX_MMAPS
    case Unmapping(at, slot, _, next) => at <= 3 && 0 <= slot < MAX_MMAPS
    case Closing(at, event, _, next) => at <= 2 && 0 <= event < NUM_EVENTS
    case Sweeping(i) => i <= NUM_EVENTS
  }

  /** The slot is filled, marked active and counted; its leader, if it has one, is told; and its own size comes last. */
  function OpenStep(w: World, pc: Pc): Machine
    requires pc.Opening? && 0 <= pc.event < |w.t.events| && pc.leader < |w.t.events|
  {
    var i, req, j := pc.event, pc.req, pc.leader;
    var e := w.t.events[i];
    if pc.at == 0 then Machine(PutEvent(w, i, e.(overflows := 0)), Opening(1, i, req, j))
    else if pc.at == 1 then Machine(PutEvent(w, i, e.(throttles := 0)), Opening(2, i, req, j))
    else if pc.at == 2 then Machine(PutEvent(w, i, e.(attr := req.attr)), Opening(3, i, req, j))
    else if pc.at == 3 then Machine(PutEvent(w, i, e.(groupFd := req.groupFd)), Opening(4, i, req, j))
    else if pc.at == 4 then Machine(PutEvent(w, i, e.(fd := req.fd)), Opening(5, i, req, j))
    else if pc.at == 5 then Machine(PutEvent(w, i, e.(active := true)), Opening(6, i, req, j))
    else if pc.at == 6 then Machine(CountEvents(w, 1), Opening(7, i, req, j))
    else if pc.at == 7 then TellLeader(w, i, req)
    else if pc.at == 8 then
      Machine(if j < 0 then w else PutEvent(w, j, Sized(w.t.events[j])), Opening(9, i, req, j))
    else if pc.at == 9 then Machine(PutEvent(w, i, e.(numberInGroup := 1)), Opening(10, i, req, j))
    else Machine(PutEvent(w, i, Sized(e)), Idle)
  }

  function Sized(e: Event): Event { e.(readSize := ReadSize(e.attr.readFormat, e.numberInGroup)) }

  function TellLeader(w: World, i: int, req: OpenRequest): Machine {
    var j := if req.groupFd == -1 then -1 else Lookup(w.t, req.groupFd);
    if j < 0 then Machine(w, Opening(9, i, req, j))
    else
      var e := w.t.events[j];
      Machine(PutEvent(w, j, e.(numberInGroup := e.numberInGroup + 1)), Opening(8, i, req, j))
  }

  /** Stores into the control page of the mapping that an aux area hooks into. */
  function HookStore(parent: Mapping): seq<Effect> {
    if parent.addr != NULL && parent.prot.write then [Store(parent.addr)] else []
  }

  function FillStep(w: World, pc: Pc): (Machine, seq<Effect>)
    requires pc.Setting? && pc.at < 7 && 0 <= pc.job.slot < |w.t.mmaps| && 0 <= pc.job.parent < |w.t.mmaps|
  {
    var job, i := pc.job, pc.job.slot;
    var m := w.t.mmaps[i];
    if pc.at == 0 then (Machine(PutSlot(w, i, m.(addr := MAP_FAILED)), Setting(1, job, pc.addr)), [])
    else if pc.at == 1 then (Machine(PutSlot(w, i, m.(prot := job.prot)), Setting(2, job, pc.addr)), [])
    else if pc.at == 2 then (Machine(PutSlot(w, i, m.(size := job.size)), Setting(3, job, pc.addr)), [])
    else if pc.at == 3 then (Machine(PutSlot(w, i, m.(aux := job.aux)), Setting(if job.aux then 4 else 7, job, pc.addr)), [])
    else if pc.at == 4 then (Machine(PutSlot(w, i, m.(parent := job.parent)), Setting(5, job, pc.addr)), [])
    else (Machine(w, Setting(pc.at + 1, job, pc.addr)), HookStore(w.t.mmaps[job.parent]))
  }

  function MapStep(w: World, pc: Pc, c: Choice): Machine
    requires pc.Setting? && 7 <= pc.at && 0 <= pc.job.slot < |w.t.mmaps| && 0 <= pc.job.which < |w.t.events|
  {
    var job, i := pc.job, pc.job.slot;
    var m := w.t.mmaps[i];
    var e := w.t.events[job.which];
    if pc.at == 7 then
      Machine(if c.addr == MAP_FAILED then w else w.(mapped := w.mapped[c.addr := job.prot]), Setting(8, job, c.addr))
    else if pc.at == 8 then
      Machine(PutSlot(w, i, m.(addr := pc.addr)), if pc.addr == MAP_FAILED then Idle else Setting(9, job, pc.addr))
    else if pc.at == 9 then Machine(CountMmaps(w, 1), Setting(10, job, pc.addr))
    else if pc.at == 10 then Machine(PutEvent(w, job.which, e.(mmap := i)), Setting(11, job, pc.addr))
    else if pc.at == 11 then Machine(PutSlot(w, i, m.(fd := e.fd)), Setting(12, job, pc.addr))
    else if pc.at == 12 then
      Machine(PutSlot(w, i, if job.aux then m else m.(whichEvent := job.which)), Setting(13, job, pc.addr))
    else
      var w1 := PutSlot(w, i, m.(active := true));
      var free := FreeMmap(w1.t);
      Machine(w1, if job.aux || !c.auxToo || free < 0 then Idle
                  else Setting(0, Job(job.which, free, c.size, c.prot, true, i), MAP_FAILED))
  }

  function UnmapStep(w: World, pc: Pc): Machine
    requires pc.Unmapping? && 0 <= pc.slot < |w.t.mmaps|
  {
    var i, m := pc.slot, w.t.mmaps[pc.slot];
    if pc.at == 0 then
      if m.addr == MAP_FAILED then Machine(w, pc.next)
      else Machine(PutSlot(w, i, m.(active := false)), Unmapping(1, i, pc.ok, pc.next))
    else if pc.at == 1 then
      if MunmapSucceeds(m.size) then Machine(w.(mapped := w.mapped - {m.addr}), Unmapping(2, i, true, pc.next))
      else Machine(w, Unmapping(2, i, false, pc.next))
    else if pc.at == 2 then Machine(PutSlot(w, i, m.(addr := MAP_FAILED)), if pc.ok then Unmapping(3, i, pc.ok, pc.next) else pc.next)
    else Machine(CountMmaps(w, -1), pc.next)
  }

  function CloseStep(w: World, pc: Pc): Machine
    requires pc.Closing? && 0 <= pc.event < |w.t.events|
  {
    var i, e := pc.event, w.t.events[pc.event];
    if pc.at == 0 then
      Machine(PutEvent(w, i, e.(active := false)),
              if pc.unmapFirst then Unmapping(0, e.mmap, false, Closing(1, i, pc.unmapFirst, pc.next)) else Closing(1, i, pc.unmapFirst, pc.next))
    else if pc.at == 1 then
      Machine(w, if pc.unmapFirst then Closing(2, i, pc.unmapFirst, pc.next) else Unmapping(0, e.mmap, false, Closing(2, i, pc.unmapFirst, pc.next)))
    else Machine(CountEvents(w, -1), pc.next)
  }

  function SweepStep(w: World, pc: Pc, c: Choice): Machine
    requires pc.Sweeping?
  {
    if pc.i >= |w.t.events| then Machine(w, Idle)
    else if w.t.events[pc.i].active then Machine(w, Closing(0, pc.i, c.unmapFirst, Sweeping(pc.i + 1)))
    else Machine(w, Sweeping(pc.i + 1))
  }

  function TickStep(m: Machine, c: Choice): (Machine, seq<Effect>)
    requires Linked(m.w.t) && PcInRange(m.w, m.pc)
  {
    match m.pc
    case Idle => (m, [])
    case Opening(_, _, _, _) => (OpenStep(m.w, m.pc), [])
    case Setting(at, _, _) => if at < 7 then FillStep(m.w, m.pc) else (MapStep(m.w, m.pc, c), [])
    case Unmapping(_, _, _, _) => (UnmapStep(m.w, m.pc), [])
    case Closing(_, _, _, _) => (CloseStep(m.w, m.pc), [])
    case Sweeping(_) => (SweepStep(m.w, m.pc, c), [])
  }

  /** What the fuzzer asks before it starts an operation. */
  ghost predicate CanBegin(w: World, op: Op)
    requires Linked(w.t)
  {
    match op
    case Open(req) => req.fd > 2 && (req.groupFd == -1 || Lookup(w.t, req.groupFd) >= 0)
    case Setup(which, size, _) => 0 <= which < NUM_EVENTS && size >= 0
    case Unmap(i) => 0 <= i < MAX_MMAPS && w.t.mmaps[i].active
    case Close(i, _) => 0 <= i < NUM_EVENTS && w.t.events[i].active
    case CloseAll => true
    case Read(i, _) => 0 <= i < MAX_MMAPS && w.t.mmaps[i].active
    case Trash(i) => 0 <= i < MAX_MMAPS && w.t.mmaps[i].active
  }

  ghost function BeginOp(w: World, op: Op): (Machine, seq<Effect>)
    requires Linked(w.t) && CanBegin(w, op)
  {
    match op
    case Open(req) => (Machine(w, if FreeEvent(w.t) < 0 then Idle else Opening(0, FreeEvent(w.t), req, -1)), [])
    case Setup(which, size, prot) =>
      var i := FreeMmap(w.t);
      (Machine(w, if i < 0 then Idle else Setting(0, Job(which, i, size, prot, false, 0), MAP_FAILED)), [])
    case Unmap(i) => (Machine(w, Unmapping(0, i, false, Idle)), [])
    case Close(i, unmapFirst) => (Machine(w, Closing(0, i, unmapFirst, Idle)), [])
    case CloseAll => (Machine(w, Sweeping(0)), [])
    case Read(i, head) =>
      var (mmaps, touched) := MmapRead(w.t.mmaps, i, head);
      (Machine(w.(t := w.t.(mmaps := mmaps)), Idle), touched)
    case Trash(i) =>
      var m := w.t.mmaps[i];
      (Machine(w, Idle), if m.prot.write && !m.aux then [Store(m.addr)] else [])
  }

  ghost predicate CanMove(m: Machine, move: Move)
    requires Linked(m.w.t)
  {
    match move
    case Begin(op) => m.pc.Idle? && CanBegin(m.w, op)
    case Tick(c) =>
      && !m.pc.Idle? && c.size >= 0
      && (m.pc.Setting? && m.pc.at == 7 ==> MmapMayAnswer(m.w.mapped, m.pc.job.size, c.addr))
    case Signal(_, _) => true
  }

  ghost function DoMove(m: Machine, move: Move): (Machine, seq<Effect>)
    requires Linked(m.w.t) && PcInRange(m.w, m.pc) && CanMove(m, move)
  {
    match move
    case Begin(op) => BeginOp(m.w, op)
    case Tick(c) => TickStep(m, c)
    case Signal(fd, replies) =>
      var (t, effects) := Handle(m.w.t, fd, replies);
      (m.(w := m.w.(t := t)), effects)
  }

  // ---- the invariant ----

  ghost predicate Backed(m: Mapping, mapped: map<int, Prot>) {
    m.addr in mapped && mapped[m.addr] == m.prot && m.addr != MAP_FAILED && m.size > 0
  }

  ghost predicate Spent(m: Mapping) { m.addr == MAP_FAILED || m.size == 0 }

  /** The part that every step keeps: busy is the slot being worked on, owed and owedEvents the counts still to come. */
  ghost predicate Sound(w: World, busy: int, owed: int, owedEvents: int) {
    && Linked(w.t)
    && (forall i :: 0 <= i < MAX_MMAPS && w.t.mmaps[i].active ==> Backed(w.t.mmaps[i], w.mapped))
    && (forall i, j :: 0 <= i < j < MAX_MMAPS && w.t.mmaps[i].active && w.t.mmaps[j].active ==>
          w.t.mmaps[i].addr != w.t.mmaps[j].addr)
    && (forall i :: 0 <= i < MAX_MMAPS && i != busy && !w.t.mmaps[i].active ==> Spent(w.t.mmaps[i]))
    && w.t.activeMmaps == Count(MmapFlags(w.t.mmaps)) + owed
    && w.t.activeEvents == Count(EventFlags(w.t.events)) + owedEvents
    && w.t.nextRefresh == 0
  }

  /** No active slot is mapped at addr. */
  ghost predicate Unused(w: World, addr: int) {
    forall i :: 0 <= i < |w.t.mmaps| && w.t.mmaps[i].active ==> w.t.mmaps[i].addr != addr
  }

  lemma {:induction false} SlotFlags(mmaps: seq<Mapping>, i: int, m: Mapping)
    requires 0 <= i < |mmaps|
    ensures MmapFlags(mmaps[i := m]) == MmapFlags(mmaps)[i := m.active]
    ensures Count(MmapFlags(mmaps[i := m])) + (if mmaps[i].active then 1 else 0)
            == Count(MmapFlags(mmaps)) + (if m.active then 1 else 0)
  {
    CountStep(MmapFlags(mmaps), i, m.active);
    assert MmapFlags(mmaps[i := m]) == MmapFlags(mmaps)[i := m.active];
  }

  lemma {:induction false} EventFlagsAfter(events: seq<Event>, i: int, e: Event)
    requires 0 <= i < |events|
    ensures EventFlags(events[i := e]) == EventFlags(events)[i := e.active]
    ensures Count(EventFlags(events[i := e])) + (if events[i].active then 1 else 0)
            == Count(EventFlags(events)) + (if e.active then 1 else 0)
  {
    CountStep(EventFlags(events), i, e.active);
    assert EventFlags(events[i := e]) == EventFlags(events)[i := e.active];
  }

  /** Stores into a slot that is not active. */
  lemma {:induction false} IdleSlotStore(w: World, i: int, owed: int, owedEvents: int, m: Mapping)
    requires Sound(w, i, owed, owedEvents) && 0 <= i < MAX_MMAPS
    requires !w.t.mmaps[i].active && !m.active && 0 <= m.parent < MAX_MMAPS
    ensures Sound(PutSlot(w, i, m), i, owed, owedEvents)
    ensures Spent(m) ==> Sound(PutSlot(w, i, m), -1, owed, owedEvents)
  {
    SlotFlags(w.t.mmaps, i, m);
  }

  lemma {:induction false} Activate(w: World, i: int, owed: int, owedEvents: int, m: Mapping)
    requires Sound(w, i, owed, owedEvents) && 0 <= i < MAX_MMAPS && !w.t.mmaps[i].active
    requires m == w.t.mmaps[i].(active := true) && Backed(m, w.mapped) && Unused(w, m.addr)
    ensures Sound(PutSlot(w, i, m), -1, owed - 1, owedEvents)
  {
    SlotFlags(w.t.mmaps, i, m);
  }

  lemma {:induction false} Deactivate(w: World, i: int, owed: int, owedEvents: int, m: Mapping)
    requires Sound(w, -1, owed, owedEvents) && 0 <= i < MAX_MMAPS
    requires m == w.t.mmaps[i].(active := false)
    ensures Sound(PutSlot(w, i, m), i, owed + (if w.t.mmaps[i].active then 1 else 0), owedEvents)
    ensures w.t.mmaps[i].active ==> Backed(m, w.mapped) && Unused(PutSlot(w, i, m), m.addr)
  {
    SlotFlags(w.t.mmaps, i, m);
  }

  lemma {:induction false} EventStore(w: World, busy: int, owed: int, owedEvents: int, i: int, e: Event)
    requires Sound(w, busy, owed, owedEvents) && 0 <= i < NUM_EVENTS && 0 <= e.mmap < MAX_MMAPS
    ensures Sound(PutEvent(w, i, e), busy, owed,
                  owedEvents + (if w.t.events[i].active then 1 else 0) - (if e.active then 1 else 0))
  {
    EventFlagsAfter(w.t.events, i, e);
  }

  /** What the operation under way may rely on. */
  ghost predicate PcOk(w: World, pc: Pc)
    requires Linked(w.t)
  {
    match pc
    case Idle => true
    case Opening(at, event, _, leader) => PcInRange(w, pc) && OpeningOk(w.t.events[event], at)
    case Setting(at, job, addr) => PcInRange(w, pc) && SettingOk(w, at, job, addr)
    case Unmapping(at, slot, ok, next) => PcInRange(w, pc) && UnmappingOk(w, at, slot, ok) && NextOk(w, next)
    case Closing(at, event, _, next) => PcInRange(w, pc) && (w.t.events[event].active <==> at == 0) && ReturnOk(next)
    case Sweeping(i) => i <= NUM_EVENTS
  }

  /** The event is marked active by the sixth store, its counters cleared long before. */
  predicate OpeningOk(e: Event, at: nat) {
    && (e.active <==> at >= 6)
    && (1 <= at <= 5 ==> e.overflows == 0)
    && (2 <= at <= 5 ==> e.throttles == 0)
  }

  predicate ReturnOk(pc: Pc) { pc.Idle? || (pc.Sweeping? && pc.i <= NUM_EVENTS) }

  /** An unmap returns to its caller: the main loop, or a close past its first store. */
  ghost predicate NextOk(w: World, pc: Pc)
    requires Linked(w.t)
  {
    pc.Idle? || (pc.Closing? && 1 <= pc.at <= 2 && 0 <= pc.event < NUM_EVENTS && ReturnOk(pc.next) && !w.t.events[pc.event].active)
  }

  ghost predicate SettingOk(w: World, at: nat, job: Job, addr: int)
    requires Linked(w.t) && 0 <= job.slot < MAX_MMAPS && 0 <= job.parent < MAX_MMAPS
  {
    var m := w.t.mmaps[job.slot];
    && !m.active && job.size >= 0
    && (job.aux ==> w.t.mmaps[job.parent].active)
    && (4 <= at < 7 ==> job.aux)
    && (at >= 2 ==> m.prot == job.prot)
    && (at >= 3 ==> m.size == job.size)
    && (at >= 8 ==> addr == MAP_FAILED || (addr in w.mapped && w.mapped[addr] == job.prot && job.size > 0 && Unused(w, addr)))
    && (at >= 9 ==> addr != MAP_FAILED && m.addr == addr)
  }

  ghost predicate UnmappingOk(w: World, at: nat, slot: int, ok: bool)
    requires Linked(w.t) && 0 <= slot < MAX_MMAPS
  {
    var m := w.t.mmaps[slot];
    && (at >= 1 ==> !m.active)
    && (at == 1 && MunmapSucceeds(m.size) ==> m.addr in w.mapped && Unused(w, m.addr))
    && (at == 2 ==> ok == MunmapSucceeds(m.size))
    && (at == 3 ==> m.addr == MAP_FAILED)
  }

  function Busy(pc: Pc): int {
    match pc
    case Setting(_, job, _) => job.slot
    case Unmapping(at, slot, _, _) => if at == 0 then -1 else slot
    case _ => -1
  }

  function Owed(w: World, pc: Pc): int
    requires pc.Unmapping? ==> 0 <= pc.slot < |w.t.mmaps|
  {
    match pc
    case Setting(at, _, _) => if at >= 10 then 1 else 0
    case Unmapping(at, slot, ok, _) =>
      if at == 0 then 0
      else if at == 1 then (if MunmapSucceeds(w.t.mmaps[slot].size) then 1 else 0)
      else if at == 2 then (if ok then 1 else 0)
      else 1
    case _ => 0
  }

  function OwedEvents(pc: Pc): int {
    match pc
    case Opening(at, _, _, _) => if at == 6 then -1 else 0
    case Closing(at, _, _, _) => if at == 0 then 0 else 1
    case Unmapping(_, _, _, next) => OwedEvents(next)
    case _ => 0
  }

  ghost predicate Inv(m: Machine) {
    && Linked(m.w.t) && PcOk(m.w, m.pc)
    && Sound(m.w, Busy(m.pc), Owed(m.w, m.pc), OwedEvents(m.pc))
  }

  // ---- every step keeps it ----

  /** The stores into the opened slot. */
  lemma {:induction false} OpenOwnKeeps(w: World, pc: Pc)
    requires pc.Opening? && pc.at != 6 && pc.at != 7 && pc.at != 8 && Inv(Machine(w, pc))
    ensures Inv(OpenStep(w, pc))
  {
    EventStore(w, -1, 0, 0, pc.event, OpenStep(w, pc).w.t.events[pc.event]);
  }

  /** The stores into its leader. */
  lemma {:induction false} OpenLeaderKeeps(w: World, pc: Pc)
    requires pc.Opening? && (pc.at == 7 || pc.at == 8) && Inv(Machine(w, pc))
    ensures Inv(OpenStep(w, pc))
  {
    var j := OpenStep(w, pc).pc.leader;
    if j >= 0 { EventStore(w, -1, 0, 0, j, OpenStep(w, pc).w.t.events[j]); }
  }

  lemma {:induction false} OpenKeeps(w: World, pc: Pc)
    requires pc.Opening? && Inv(Machine(w, pc))
    ensures Inv(OpenStep(w, pc))
  {
    if pc.at == 7 || pc.at == 8 { OpenLeaderKeeps(w, pc); } else if pc.at != 6 { OpenOwnKeeps(w, pc); }
  }

  /** The stores into the slot before mmap is called. */
  lemma {:induction false} FillStoreKeeps(w: World, pc: Pc)
    requires pc.Setting? && pc.at < 5 && Inv(Machine(w, pc))
    ensures Inv(FillStep(w, pc).0)
  {
    var i := pc.job.slot;
    var m := FillStep(w, pc).0.w.t.mmaps[i];
    IdleSlotStore(w, i, 0, 0, m);
    assert SettingOk(PutSlot(w, i, m), FillStep(w, pc).0.pc.at, pc.job, pc.addr);
  }

  lemma {:induction false} FillKeeps(w: World, pc: Pc)
    requires pc.Setting? && pc.at < 7 && Inv(Machine(w, pc))
    ensures Inv(FillStep(w, pc).0)
  {
    if pc.at < 5 { FillStoreKeeps(w, pc); }
  }

  /** The step that marks the slot active. */
  lemma {:induction false} ActivateKeeps(w: World, pc: Pc, c: Choice)
    requires pc.Setting? && pc.at == 13 && Inv(Machine(w, pc)) && c.size >= 0
    ensures Inv(MapStep(w, pc, c))
  {
    var i := pc.job.slot;
    var m := w.t.mmaps[i].(active := true);
    Activate(w, i, 1, 0, m);
    var w1 := PutSlot(w, i, m);
    var free := FreeMmap(w1.t);
    assert free >= 0 ==> FreeFlags(MmapFlags(w1.t.mmaps))[free];
  }

  /** The call of mmap. */
  lemma {:induction false} AnswerKeeps(w: World, pc: Pc, c: Choice)
    requires pc.Setting? && pc.at == 7 && Inv(Machine(w, pc)) && CanMove(Machine(w, pc), Tick(c))
    ensures Inv(MapStep(w, pc, c))
  {
  }

  /** The stores into the slot once mmap has answered. */
  lemma {:induction false} AnswerStoreKeeps(w: World, pc: Pc, c: Choice)
    requires pc.Setting? && (pc.at == 8 || pc.at == 11 || pc.at == 12) && Inv(Machine(w, pc))
    ensures Inv(MapStep(w, pc, c))
  {
    IdleSlotStore(w, pc.job.slot, Owed(w, pc), 0, MapStep(w, pc, c).w.t.mmaps[pc.job.slot]);
  }

  /** The count, and the store into the event. */
  lemma {:induction false} BookKeeps(w: World, pc: Pc, c: Choice)
    requires pc.Setting? && (pc.at == 9 || pc.at == 10) && Inv(Machine(w, pc))
    ensures Inv(MapStep(w, pc, c))
  {
    if pc.at == 10 { EventStore(w, pc.job.slot, 1, 0, pc.job.which, MapStep(w, pc, c).w.t.events[pc.job.which]); }
  }

  lemma {:induction false} MapKeeps(w: World, pc: Pc, c: Choice)
    requires pc.Setting? && pc.at >= 7 && Inv(Machine(w, pc)) && CanMove(Machine(w, pc), Tick(c))
    ensures Inv(MapStep(w, pc, c))
  {
    if pc.at == 7 { AnswerKeeps(w, pc, c); }
    else if pc.at == 9 || pc.at == 10 { BookKeeps(w, pc, c); }
    else if pc.at == 13 { ActivateKeeps(w, pc, c); }
    else { AnswerStoreKeeps(w, pc, c); }
  }

  /** The step that clears active. */
  lemma {:induction false} ClearKeeps(w: World, pc: Pc)
    requires pc.Unmapping? && pc.at == 0 && Inv(Machine(w, pc)) && w.t.mmaps[pc.slot].addr != MAP_FAILED
    ensures Inv(UnmapStep(w, pc))
  {
    var m := w.t.mmaps[pc.slot];
    Deactivate(w, pc.slot, 0, OwedEvents(pc), m.(active := false));
    assert m.active ==> Backed(m, w.mapped);
    assert !m.active ==> Spent(m);
  }

  /** munmap itself: nothing active is left at the address. */
  lemma {:induction false} MunmapKeeps(w: World, pc: Pc)
    requires pc.Unmapping? && pc.at == 1 && Inv(Machine(w, pc))
    ensures Inv(UnmapStep(w, pc))
  {
  }

  /** The last store, and the count. */
  lemma {:induction false} FailedKeeps(w: World, pc: Pc)
    requires pc.Unmapping? && pc.at >= 2 && Inv(Machine(w, pc))
    ensures Inv(UnmapStep(w, pc))
  {
    if pc.at == 2 { IdleSlotStore(w, pc.slot, Owed(w, pc), OwedEvents(pc), w.t.mmaps[pc.slot].(addr := MAP_FAILED)); }
  }

  lemma {:induction false} UnmapKeeps(w: World, pc: Pc)
    requires pc.Unmapping? && Inv(Machine(w, pc))
    ensures Inv(UnmapStep(w, pc))
  {
    if pc.at == 1 { MunmapKeeps(w, pc); }
    else if pc.at >= 2 { FailedKeeps(w, pc); }
    else if w.t.mmaps[pc.slot].addr != MAP_FAILED { ClearKeeps(w, pc); }
  }

  /** The store that clears active, whatever comes next. */
  lemma {:induction false} CloseFirstKeeps(w: World, pc: Pc)
    requires pc.Closing? && pc.at == 0 && Inv(Machine(w, pc))
    ensures Inv(CloseStep(w, pc))
  {
    EventStore(w, -1, 0, 0, pc.event, w.t.events[pc.event].(active := false));
  }

  lemma {:induction false} CloseKeeps(w: World, pc: Pc)
    requires pc.Closing? && Inv(Machine(w, pc))
    ensures Inv(CloseStep(w, pc))
  {
    if pc.at == 0 { CloseFirstKeeps(w, pc); }
  }

  lemma {:induction false} SweepKeeps(w: World, pc: Pc, c: Choice)
    requires pc.Sweeping? && Inv(Machine(w, pc))
    ensures Inv(SweepStep(w, pc, c))
  {
  }

  lemma {:induction false} TickKeeps(m: Machine, c: Choice)
    requires Inv(m) && PcInRange(m.w, m.pc) && CanMove(m, Tick(c))
    ensures Inv(TickStep(m, c).0)
  {
    match m.pc
    case Opening(_, _, _, _) => OpenKeeps(m.w, m.pc);
    case Setting(at, _, _) => if at < 7 { FillKeeps(m.w, m.pc); } else { MapKeeps(m.w, m.pc, c); }
    case Unmapping(_, _, _, _) => UnmapKeeps(m.w, m.pc);
    case Closing(_, _, _, _) => CloseKeeps(m.w, m.pc);
    case Sweeping(_) => SweepKeeps(m.w, m.pc, c);
    case Idle =>
  }

  /** The two tables agree on everything that the invariant speaks of. */
  ghost predicate SameCore(t: Tables, t1: Tables) {
    && |t1.events| == |t.events| && |t1.mmaps| == |t.mmaps|
    && t1.activeEvents == t.activeEvents && t1.activeMmaps == t.activeMmaps && t1.nextRefresh == t.nextRefresh
    && (forall i :: 0 <= i < |t.events| ==>
          && t1.events[i].active == t.events[i].active && t1.events[i].fd == t.events[i].fd && t1.events[i].mmap == t.events[i].mmap
          && (!t.events[i].active ==> t1.events[i] == t.events[i]))
    && (forall i :: 0 <= i < |t.mmaps| ==>
          t1.mmaps[i] == t.mmaps[i].(head := t1.mmaps[i].head, auxHead := t1.mmaps[i].auxHead))
  }

  lemma {:induction false} SameCoreSound(w: World, t: Tables, busy: int, owed: int, owedEvents: int)
    requires Sound(w, busy, owed, owedEvents) && SameCore(w.t, t)
    ensures Sound(w.(t := t), busy, owed, owedEvents)
  {
    assert EventFlags(t.events) == EventFlags(w.t.events);
    assert MmapFlags(t.mmaps) == MmapFlags(w.t.mmaps);
    forall i | 0 <= i < MAX_MMAPS && t.mmaps[i].active
      ensures Backed(t.mmaps[i], w.mapped)
    {
      assert Backed(w.t.mmaps[i], w.mapped);
    }
    forall i | 0 <= i < MAX_MMAPS && i != busy && !t.mmaps[i].active
      ensures Spent(t.mmaps[i])
    {
      assert Spent(w.t.mmaps[i]);
    }
  }

  lemma {:induction false} SameCoreUnused(w: World, t: Tables, addr: int)
    requires SameCore(w.t, t) && Unused(w, addr)
    ensures Unused(w.(t := t), addr)
  {
  }

  /** What the operation under way relies on. */
  lemma {:induction false} SameCorePc(w: World, t: Tables, pc: Pc)
    requires Linked(w.t) && Linked(t) && SameCore(w.t, t) && PcOk(w, pc)
    ensures PcOk(w.(t := t), pc)
  {
    match pc
    case Setting(at, _, addr) => if at >= 8 && addr != MAP_FAILED { SameCoreUnused(w, t, addr); }
    case Unmapping(at, slot, _, _) =>
      if at == 1 && MunmapSucceeds(w.t.mmaps[slot].size) { SameCoreUnused(w, t, w.t.mmaps[slot].addr); }
    case _ =>
  }

  lemma {:induction false} SameCoreKeeps(m: Machine, t: Tables)
    requires Inv(m) && SameCore(m.w.t, t)
    ensures Inv(m.(w := m.w.(t := t)))
  {
    SameCoreSound(m.w, t, Busy(m.pc), Owed(m.w, m.pc), OwedEvents(m.pc));
    SameCorePc(m.w, t, m.pc);
  }

  // ---- what is touched ----

  /** Loads and stores hit pages mapped for them, and an event is re-armed with a refresh of 0. */
  ghost predicate Safe(mapped: map<int, Prot>, e: Effect) {
    match e
    case Load(addr) => addr in mapped && mapped[addr].read
    case Store(addr) => addr in mapped && mapped[addr].write
    case Refresh(_, n) => n == 0
    case _ => true
  }

  ghost predicate AllSafe(mapped: map<int, Prot>, effects: seq<Effect>) {
    forall i :: 0 <= i < |effects| ==> Safe(mapped, effects[i])
  }

  lemma {:induction false} MmapReadSafe(w: World, busy: int, owed: int, owedEvents: int, which: int, head: int)
    requires Sound(w, busy, owed, owedEvents) && 0 <= which < MAX_MMAPS
    ensures AllSafe(w.mapped, MmapRead(w.t.mmaps, which, head).1)
    ensures SameCore(w.t, w.t.(mmaps := MmapRead(w.t.mmaps, which, head).0))
  {
  }

  /** A handler that re-arms its event reads through the event's mapping first. */
  lemma {:induction false} RearmSafe(w: World, busy: int, owed: int, owedEvents: int, fd: int, k: Replies)
    requires Sound(w, busy, owed, owedEvents) && k.disable >= 0 && Lookup(w.t, fd) >= 0
    requires w.t.events[Lookup(w.t, fd)].overflows < MAX_OVERFLOWS
    ensures AllSafe(w.mapped, Handle(w.t, fd, k).1) && SameCore(w.t, Handle(w.t, fd, k).0)
  {
    MmapReadSafe(w, busy, owed, owedEvents, w.t.events[Lookup(w.t, fd)].mmap, k.head);
  }

  /** A handler run at any point is safe and changes nothing that the operations rely on. */
  lemma {:induction false} HandleSafe(w: World, busy: int, owed: int, owedEvents: int, fd: int, k: Replies)
    requires Sound(w, busy, owed, owedEvents)
    ensures AllSafe(w.mapped, Handle(w.t, fd, k).1) && SameCore(w.t, Handle(w.t, fd, k).0)
  {
    var i := Lookup(w.t, fd);
    if k.disable >= 0 && i >= 0 && w.t.events[i].overflows < MAX_OVERFLOWS {
      RearmSafe(w, busy, owed, owedEvents, fd, k);
    }
  }

  /** A handler disables first, re-arms last if at all, and gives up only the descriptor it came for. */
  lemma {:induction false} DisablesFirst(t: Tables, fd: int, k: Replies)
    requires Linked(t)
    ensures var effects := Handle(t, fd, k).1;
            && effects != [] && effects[0] == Disable(fd)
            && forall i :: 0 < i < |effects| ==>
                 match effects[i]
                 case Disable(_) => false
                 case Refresh(f, _) => f == fd && i == |effects| - 1
                 case GiveUp(f) => f == fd && |effects| == 2
                 case _ => true
  {
  }

  /**
    An overflow that is re-armed is read through the event's own mapping: if that is
    active, readable and writable, its page is read and then stored to, and it keeps the head.
   */
  lemma {:induction false} HandlerReadsOwnMapping(t: Tables, fd: int, k: Replies)
    requires Linked(t) && k.disable >= 0 && Lookup(t, fd) >= 0 && t.events[Lookup(t, fd)].overflows < MAX_OVERFLOWS
    requires var m := t.mmaps[t.events[Lookup(t, fd)].mmap];
             m.active && m.prot.read && m.prot.write && !m.aux && m.addr != MAP_FAILED && m.addr != NULL && m.size != 0
    ensures var i := t.events[Lookup(t, fd)].mmap;
            var (t1, effects) := Handle(t, fd, k);
            && effects == [Disable(fd), Load(t.mmaps[i].addr), Store(t.mmaps[i].addr), Refresh(fd, t.nextRefresh)]
            && t1.mmaps == t.mmaps[i := t.mmaps[i].(head := k.head)]
            && t1.events[Lookup(t, fd)].mmap == i
            && (k.refresh == 0 ==> t1.events[Lookup(t, fd)].lastRefresh == t.nextRefresh)
  {
  }

  /** The two operations of a single step. */
  lemma {:induction false} SingleKeeps(w: World, op: Op)
    requires Inv(Machine(w, Idle)) && CanBegin(w, op) && (op.Read? || op.Trash?)
    ensures Inv(BeginOp(w, op).0) && AllSafe(w.mapped, BeginOp(w, op).1)
  {
    match op
    case Read(i, head) =>
      MmapReadSafe(w, -1, 0, 0, i, head);
      SameCoreKeeps(Machine(w, Idle), w.t.(mmaps := MmapRead(w.t.mmaps, i, head).0));
    case Trash(i) => assert Backed(w.t.mmaps[i], w.mapped);
  }

  /** What an open or a setup finds is a free slot. */
  lemma {:induction false} FreeIsInactive(t: Tables)
    ensures FreeEvent(t) >= 0 ==> FreeEvent(t) < |t.events| && !t.events[FreeEvent(t)].active
    ensures FreeMmap(t) >= 0 ==> FreeMmap(t) < |t.mmaps| && !t.mmaps[FreeMmap(t)].active
  {
    assert FreeEvent(t) >= 0 ==> FreeFlags(EventFlags(t.events))[FreeEvent(t)];
    assert FreeMmap(t) >= 0 ==> FreeFlags(MmapFlags(t.mmaps))[FreeMmap(t)];
  }

  /** The two that look for a free slot first. */
  lemma {:induction false} FindKeeps(w: World, op: Op)
    requires Inv(Machine(w, Idle)) && CanBegin(w, op) && (op.Open? || op.Setup?)
    ensures Inv(BeginOp(w, op).0)
  {
    FreeIsInactive(w.t);
  }

  /** Those that start at once. */
  lemma {:induction false} StartKeeps(w: World, op: Op)
    requires Inv(Machine(w, Idle)) && CanBegin(w, op) && (op.Unmap? || op.Close? || op.CloseAll?)
    ensures Inv(BeginOp(w, op).0)
  {
  }

  lemma {:induction false} BeginKeeps(w: World, op: Op)
    requires Inv(Machine(w, Idle)) && CanBegin(w, op)
    ensures Inv(BeginOp(w, op).0) && AllSafe(w.mapped, BeginOp(w, op).1)
  {
    if op.Read? || op.Trash? { SingleKeeps(w, op); }
    else {
      if op.Open? || op.Setup? { FindKeeps(w, op); } else { StartKeeps(w, op); }
      assert BeginOp(w, op).1 == [];
    }
  }

  lemma {:induction false} TickSafe(m: Machine, c: Choice)
    requires Inv(m) && PcInRange(m.w, m.pc)
    ensures AllSafe(m.w.mapped, TickStep(m, c).1)
  {
  }

  /** Any step, of the fuzzer or of a handler. */
  lemma {:induction false} MoveKeeps(m: Machine, move: Move)
    requires Inv(m) && PcInRange(m.w, m.pc) && CanMove(m, move)
    ensures Inv(DoMove(m, move).0) && AllSafe(m.w.mapped, DoMove(m, move).1)
  {
    match move
    case Begin(op) => BeginKeeps(m.w, op);
    case Tick(c) => TickKeeps(m, c); TickSafe(m, c);
    case Signal(fd, k) =>
      HandleSafe(m.w, Busy(m.pc), Owed(m.w, m.pc), OwedEvents(m.pc), fd, k);
      SameCoreKeeps(m, Handle(m.w.t, fd, k).0);
  }

  // ---- whole runs ----

  const NO_EVENT := Event(false, 0, Attr(0, 0, 0), 0, 0, 0, 0, 0, 0, 0)
  const NO_MAPPING := Mapping(false, NULL, 0, 0, Prot(false, false, false), 0, 0, false, 0, 0)

  /** Static storage is zero, and nothing is mapped. */
  ghost predicate IsStart(m: Machine) {
    && m.pc.Idle? && m.w.mapped == map[]
    && |m.w.t.events| == NUM_EVENTS && (forall i :: 0 <= i < NUM_EVENTS ==> m.w.t.events[i] == NO_EVENT)
    && |m.w.t.mmaps| == MAX_MMAPS && (forall i :: 0 <= i < MAX_MMAPS ==> m.w.t.mmaps[i] == NO_MAPPING)
    && m.w.t.activeEvents == 0 && m.w.t.activeMmaps == 0 && m.w.t.nextRefresh == 0
  }

  lemma {:induction false} StartInv(m: Machine)
    requires IsStart(m)
    ensures Inv(m)
  {
    CountNone(MmapFlags(m.w.t.mmaps));
    CountNone(EventFlags(m.w.t.events));
  }

  /** The moves are possible one after the other, signals falling anywhere. */
  ghost predicate CanRun(m: Machine, moves: seq<Move>)
    decreases |moves|
  {
    moves != [] ==>
      Linked(m.w.t) && PcInRange(m.w, m.pc) && CanMove(m, moves[0]) && CanRun(DoMove(m, moves[0]).0, moves[1..])
  }

  ghost function After(m: Machine, moves: seq<Move>): Machine
    requires CanRun(m, moves)
    decreases |moves|
  {
    if moves == [] then m else After(DoMove(m, moves[0]).0, moves[1..])
  }

  /** At every point of the run, what is touched is mapped there and then. */
  ghost predicate TouchesMappedPages(m: Machine, moves: seq<Move>)
    requires CanRun(m, moves)
    decreases |moves|
  {
    moves != [] ==>
      AllSafe(m.w.mapped, DoMove(m, moves[0]).1) && TouchesMappedPages(DoMove(m, moves[0]).0, moves[1..])
  }

  lemma {:induction false} RunKeeps(m: Machine, moves: seq<Move>)
    requires Inv(m) && CanRun(m, moves)
    ensures Inv(After(m, moves)) && TouchesMappedPages(m, moves)
    decreases |moves|
  {
    if moves != [] {
      MoveKeeps(m, moves[0]);
      RunKeeps(DoMove(m, moves[0]).0, moves[1..]);
    }
  }

  /** Whatever the interleaving, no signal handler and no store of the fuzzer touches a page that is not mapped for it. */
  lemma {:induction false} SignalsAreSafe(start: Machine, moves: seq<Move>)
    requires IsStart(start) && CanRun(start, moves)
    ensures TouchesMappedPages(start, moves)
  {
    StartInv(start);
    RunKeeps(start, moves);
  }

  /** The same said of any one step after any run: what it loads can be read, what it stores to can be written. */
  lemma {:induction false} TouchedIsMapped(start: Machine, moves: seq<Move>, move: Move, addr: int)
    requires IsStart(start) && CanRun(start, moves)
    requires var m := After(start, moves); Linked(m.w.t) && PcInRange(m.w, m.pc) && CanMove(m, move)
    ensures var m := After(start, moves);
            var effects := DoMove(m, move).1;
            && (Load(addr) in effects ==> addr in m.w.mapped && m.w.mapped[addr].read)
            && (Store(addr) in effects ==> addr in m.w.mapped && m.w.mapped[addr].write)
            && (forall fd, n :: Refresh(fd, n) in effects ==> n == 0)
  {
    StartInv(start);
    RunKeeps(start, moves);
    var m := After(start, moves);
    MoveKeeps(m, move);
    SafeMembers(m.w.mapped, DoMove(m, move).1, addr);
  }

  lemma {:induction false} SafeMembers(mapped: map<int, Prot>, effects: seq<Effect>, addr: int)
    requires AllSafe(mapped, effects)
    ensures Load(addr) in effects ==> addr in mapped && mapped[addr].read
    ensures Store(addr) in effects ==> addr in mapped && mapped[addr].write
    ensures forall fd, n :: Refresh(fd, n) in effects ==> n == 0
  {
    forall e | e in effects
      ensures Safe(mapped, e)
    {
      var i :| 0 <= i < |effects| && effects[i] == e;
    }
    if Load(addr) in effects { assert Safe(mapped, Load(addr)); }
    if Store(addr) in effects { assert Safe(mapped, Store(addr)); }
    forall fd, n | Refresh(fd, n) in effects
      ensures n == 0
    {
      assert Safe(mapped, Refresh(fd, n));
    }
  }

  /** Active slots are distinct mapped pages at every point, between any two stores. */
  lemma {:induction false} ActiveMeansMapped(start: Machine, moves: seq<Move>)
    requires IsStart(start) && CanRun(start, moves)
    ensures var w := After(start, moves).w;
            && |w.t.mmaps| == MAX_MMAPS
            && (forall i :: 0 <= i < MAX_MMAPS && w.t.mmaps[i].active ==> Backed(w.t.mmaps[i], w.mapped))
            && (forall i, j :: 0 <= i < j < MAX_MMAPS && w.t.mmaps[i].active && w.t.mmaps[j].active ==>
                  w.t.mmaps[i].addr != w.t.mmaps[j].addr)
  {
    StartInv(start);
    RunKeeps(start, moves);
  }

  /** When no operation is under way, the counters count the active slots. */
  lemma {:induction false} CountsHoldAtRest(start: Machine, moves: seq<Move>)
    requires IsStart(start) && CanRun(start, moves) && After(start, moves).pc.Idle?
    ensures var t := After(start, moves).w.t;
            t.activeMmaps == Count(MmapFlags(t.mmaps)) && t.activeEvents == Count(EventFlags(t.events))
  {
    StartInv(start);
    RunKeeps(start, moves);
  }

  /** Were a slot unmapped before it is marked inactive, a signal in between would be safe only if the slot was unreadable. */
  lemma {:induction false} ClearMustComeFirst(w: World, fd: int, k: Replies)
    requires Sound(w, -1, 0, 0) && k.disable >= 0 && Lookup(w.t, fd) >= 0
    requires w.t.events[Lookup(w.t, fd)].overflows < MAX_OVERFLOWS
    requires !w.t.mmaps[w.t.events[Lookup(w.t, fd)].mmap].aux
    ensures var m := w.t.mmaps[w.t.events[Lookup(w.t, fd)].mmap];
            AllSafe(w.mapped - {m.addr}, Handle(w.t, fd, k).1) <==> !Readable(m)
  {
    var m := w.t.mmaps[w.t.events[Lookup(w.t, fd)].mmap];
    var effects := Handle(w.t, fd, k).1;
    if Readable(m) {
      assert effects[1] == Load(m.addr) && !Safe(w.mapped - {m.addr}, effects[1]);
    } else {
      assert effects == [Disable(fd)] + [] + [Refresh(fd, 0)];
    }
  }
}
