/**
  Left to run without a pause, the single steps of an operation have the effect that the
  operation as a whole is said to have.
*/
module WholeOperations {
  import opened FuzzerTables
  import opened SignalSafety
  import Groups
  import FuzzerState

  /** n steps, all given the same choice. */
  ghost function RunOn(m: Machine, c: Choice, n: nat): Machine
    decreases n
  {
    if n == 0 || !Linked(m.w.t) || !PcInRange(m.w, m.pc) then m else RunOn(TickStep(m, c).0, c, n - 1)
  }

  lemma {:induction false} RunOnOne(m: Machine, c: Choice, n: nat)
    requires n > 0 && Linked(m.w.t) && PcInRange(m.w, m.pc)
    ensures RunOn(m, c, n) == RunOn(TickStep(m, c).0, c, n - 1)
  {
  }

  lemma {:induction false} RunOnJoin(m: Machine, c: Choice, a: nat, b: nat)
    ensures RunOn(m, c, a + b) == RunOn(RunOn(m, c, a), c, b)
    decreases a
  {
    if a > 0 && Linked(m.w.t) && PcInRange(m.w, m.pc) { RunOnJoin(TickStep(m, c).0, c, a - 1, b); }
    else { StuckStays(m, c, b); }
  }

  lemma {:induction false} StuckStays(m: Machine, c: Choice, n: nat)
    ensures !Linked(m.w.t) || !PcInRange(m.w, m.pc) ==> RunOn(m, c, n) == m
  {
  }

  lemma {:induction false} StoreTwice(w: World, i: int, a: Mapping, b: Mapping)
    requires 0 <= i < |w.t.mmaps|
    ensures PutSlot(PutSlot(w, i, a), i, b) == PutSlot(w, i, b)
  {
  }

  /** The steps of an unmap. */
  function UnmapSteps(m: Mapping): nat {
    if m.addr == MAP_FAILED then 1 else if MunmapSucceeds(m.size) then 4 else 3
  }

  /** The call of munmap, and the store and the count that follow. */
  lemma {:induction false} MunmapRuns(w: World, i: int, next: Pc, c: Choice)
    requires Linked(w.t) && 0 <= i < MAX_MMAPS
    ensures var m := w.t.mmaps[i];
            var w1 := PutSlot(w, i, m.(addr := MAP_FAILED));
            RunOn(Machine(w, Unmapping(1, i, false, next)), c, if MunmapSucceeds(m.size) then 3 else 2)
            == Machine(if MunmapSucceeds(m.size) then CountMmaps(w1, -1).(mapped := w.mapped - {m.addr}) else w1, next)
  {
  }

  lemma {:induction false} UnmapRuns(w: World, i: int, next: Pc, c: Choice)
    requires Linked(w.t) && 0 <= i < MAX_MMAPS
    ensures RunOn(Machine(w, Unmapping(0, i, false, next)), c, UnmapSteps(w.t.mmaps[i])) == Machine(Unmapped(w, i), next)
  {
    var m0, m := Machine(w, Unmapping(0, i, false, next)), w.t.mmaps[i];
    RunOnOne(m0, c, UnmapSteps(m));
    if m.addr != MAP_FAILED {
      var w1 := PutSlot(w, i, m.(active := false));
      MunmapRuns(w1, i, next, c);
      StoreTwice(w, i, m.(active := false), m.(active := false, addr := MAP_FAILED));
    }
  }

  /** The steps up to the call of mmap. */
  function FillSteps(job: Job): nat { if job.aux then 7 else 4 }

  lemma {:induction false} StartsFilled(w: World, job: Job, c: Choice)
    requires Linked(w.t) && PcInRange(w, Setting(0, job, MAP_FAILED))
    ensures RunOn(Machine(w, Setting(0, job, MAP_FAILED)), c, 4)
            == Machine(PutSlot(w, job.slot, Filled(w.t.mmaps[job.slot], job).(parent := w.t.mmaps[job.slot].parent)),
                       Setting(if job.aux then 4 else 7, job, MAP_FAILED))
  {
  }

  /** setup_mmap_aux also links the slot to its parent and writes twice into the parent's control page. */
  lemma {:induction false} AuxFills(w: World, pc: Pc, c: Choice)
    requires Linked(w.t) && PcInRange(w, pc) && pc.Setting? && pc.at == 4
    ensures RunOn(Machine(w, pc), c, 3)
            == Machine(PutSlot(w, pc.job.slot, w.t.mmaps[pc.job.slot].(parent := pc.job.parent)), Setting(7, pc.job, pc.addr))
  {
  }

  lemma {:induction false} Fills(w: World, job: Job, c: Choice)
    requires Linked(w.t) && PcInRange(w, Setting(0, job, MAP_FAILED))
    ensures RunOn(Machine(w, Setting(0, job, MAP_FAILED)), c, FillSteps(job))
            == Machine(PutSlot(w, job.slot, Filled(w.t.mmaps[job.slot], job)), Setting(7, job, MAP_FAILED))
  {
    StartsFilled(w, job, c);
    var m0 := Machine(w, Setting(0, job, MAP_FAILED));
    if job.aux {
      var m4 := RunOn(m0, c, 4);
      AuxFills(m4.w, m4.pc, c);
      RunOnJoin(m0, c, 4, 3);
      StoreTwice(w, job.slot, m4.w.t.mmaps[job.slot], Filled(w.t.mmaps[job.slot], job));
    }
  }

  /** From the call of mmap to its answer in the slot. */
  lemma {:induction false} Answers(w: World, job: Job, c: Choice)
    requires Linked(w.t) && PcInRange(w, Setting(7, job, MAP_FAILED))
    ensures var w1 := PutSlot(w, job.slot, w.t.mmaps[job.slot].(addr := c.addr));
            RunOn(Machine(w, Setting(7, job, MAP_FAILED)), c, 2)
            == (if c.addr == MAP_FAILED then Machine(w1, Idle)
                else Machine(w1.(mapped := w.mapped[c.addr := job.prot]), Setting(9, job, c.addr)))
  {
  }

  /** The count, and the stores into the event and the slot. */
  lemma {:induction false} Books(w: World, job: Job, addr: int, c: Choice)
    requires Linked(w.t) && PcInRange(w, Setting(9, job, addr))
    ensures var e, s := w.t.events[job.which], w.t.mmaps[job.slot];
            RunOn(Machine(w, Setting(9, job, addr)), c, 3)
            == Machine(PutSlot(PutEvent(CountMmaps(w, 1), job.which, e.(mmap := job.slot)), job.slot, s.(fd := e.fd)),
                       Setting(12, job, addr))
  {
  }

  /** A first mapping may be followed by one for an aux area, if there is a slot left. */
  function WhatFollows(w: World, job: Job, c: Choice): Pc {
    var free := FreeMmap(w.t);
    if job.aux || !c.auxToo || free < 0 then Idle
    else Setting(0, Job(job.which, free, c.size, c.prot, true, job.slot), MAP_FAILED)
  }

  /** The number of the event, and active at last. */
  lemma {:induction false} Activates(w: World, job: Job, addr: int, c: Choice)
    requires Linked(w.t) && PcInRange(w, Setting(12, job, addr))
    ensures var m := RunOn(Machine(w, Setting(12, job, addr)), c, 2);
            var s := w.t.mmaps[job.slot];
            && m.w == PutSlot(w, job.slot, s.(active := true, whichEvent := if job.aux then s.whichEvent else job.which))
            && m.pc == WhatFollows(m.w, job, c)
  {
    var m12 := Machine(w, Setting(12, job, addr));
    var m13 := MapStep(w, m12.pc, c);
    RunOnOne(m12, c, 2);
    RunOnOne(m13, c, 1);
    StoreTwice(w, job.slot, m13.w.t.mmaps[job.slot], MapStep(m13.w, m13.pc, c).w.t.mmaps[job.slot]);
  }

  /** From the answer to the end. */
  lemma {:induction false} Records(w: World, job: Job, addr: int, c: Choice)
    requires Linked(w.t) && PcInRange(w, Setting(9, job, addr))
    ensures var m := RunOn(Machine(w, Setting(9, job, addr)), c, 5);
            var e, s := w.t.events[job.which], w.t.mmaps[job.slot];
            var s1 := s.(fd := e.fd, active := true, whichEvent := if job.aux then s.whichEvent else job.which);
            && m.w == PutSlot(PutEvent(CountMmaps(w, 1), job.which, e.(mmap := job.slot)), job.slot, s1)
            && m.pc == WhatFollows(m.w, job, c)
  {
    var m9 := Machine(w, Setting(9, job, addr));
    RunOnJoin(m9, c, 3, 2);
    Books(w, job, addr, c);
    var m12 := RunOn(m9, c, 3);
    Activates(m12.w, job, addr, c);
  }

  /** The slot and the event when a mapping that the kernel made has been recorded. */
  lemma {:induction false} RecordsMapped(w: World, job: Job, c: Choice, w9: World)
    requires Linked(w.t) && PcInRange(w, Setting(0, job, MAP_FAILED)) && c.addr != MAP_FAILED
    requires w9 == PutSlot(w, job.slot, Filled(w.t.mmaps[job.slot], job).(addr := c.addr)).(mapped := w.mapped[c.addr := job.prot])
    ensures var m := RunOn(Machine(w9, Setting(9, job, c.addr)), c, 5);
            m.w == Mapped(w, job, c.addr) && m.pc == WhatFollows(m.w, job, c)
  {
    Records(w9, job, c.addr, c);
    StoreTwice(w, job.slot, w9.t.mmaps[job.slot], Mapped(w, job, c.addr).t.mmaps[job.slot]);
  }

  function MapSteps(job: Job, addr: int): nat { FillSteps(job) + if addr == MAP_FAILED then 2 else 7 }

  lemma {:induction false} FillsAndAnswers(w: World, job: Job, c: Choice)
    requires Linked(w.t) && PcInRange(w, Setting(0, job, MAP_FAILED))
    ensures var s := Filled(w.t.mmaps[job.slot], job);
            var w1 := PutSlot(w, job.slot, s.(addr := c.addr));
            RunOn(Machine(w, Setting(0, job, MAP_FAILED)), c, FillSteps(job) + 2)
            == (if c.addr == MAP_FAILED then Machine(w1, Idle)
                else Machine(w1.(mapped := w.mapped[c.addr := job.prot]), Setting(9, job, c.addr)))
  {
    var m0 := Machine(w, Setting(0, job, MAP_FAILED));
    var s := Filled(w.t.mmaps[job.slot], job);
    Fills(w, job, c);
    Answers(PutSlot(w, job.slot, s), job, c);
    RunOnJoin(m0, c, FillSteps(job), 2);
    StoreTwice(w, job.slot, s, s.(addr := c.addr));
  }

  /** setup_mmap and setup_mmap_aux, step by step, do what Mapped says. */
  lemma {:induction false} MapRuns(w: World, job: Job, c: Choice)
    requires Linked(w.t) && PcInRange(w, Setting(0, job, MAP_FAILED))
    ensures var m := RunOn(Machine(w, Setting(0, job, MAP_FAILED)), c, MapSteps(job, c.addr));
            m.w == Mapped(w, job, c.addr) && m.pc == if c.addr == MAP_FAILED then Idle else WhatFollows(m.w, job, c)
  {
    FillsAndAnswers(w, job, c);
    if c.addr != MAP_FAILED {
      var s := Filled(w.t.mmaps[job.slot], job);
      RunOnJoin(Machine(w, Setting(0, job, MAP_FAILED)), c, FillSteps(job) + 2, 5);
      RecordsMapped(w, job, c, PutSlot(w, job.slot, s.(addr := c.addr)).(mapped := w.mapped[c.addr := job.prot]));
    }
  }

  function CloseSteps(w: World, i: int): nat
    requires 0 <= i < |w.t.events| && 0 <= w.t.events[i].mmap < |w.t.mmaps|
  {
    3 + UnmapSteps(w.t.mmaps[w.t.events[i].mmap])
  }

  /** The mapping goes before the descriptor. */
  lemma {:induction false} ClosesUnmapped(w: World, i: int, next: Pc, c: Choice)
    requires Linked(w.t) && 0 <= i < NUM_EVENTS
    ensures RunOn(Machine(w, Closing(0, i, true, next)), c, CloseSteps(w, i)) == Machine(Closed(w, i), next)
  {
    var m0 := Machine(w, Closing(0, i, true, next));
    var slot := w.t.events[i].mmap;
    var n := UnmapSteps(w.t.mmaps[slot]);
    var m1 := CloseStep(w, m0.pc);
    RunOnOne(m0, c, n + 3);
    UnmapRuns(m1.w, slot, m1.pc.next, c);
    RunOnJoin(m1, c, n, 2);
    UnmappedLinked(m1.w, slot);
    FinishClose(Unmapped(m1.w, slot), Closing(1, i, true, next), c);
  }

  /** The descriptor goes before the mapping. */
  lemma {:induction false} ClosesThenUnmaps(w: World, i: int, next: Pc, c: Choice)
    requires Linked(w.t) && 0 <= i < NUM_EVENTS
    ensures RunOn(Machine(w, Closing(0, i, false, next)), c, CloseSteps(w, i)) == Machine(Closed(w, i), next)
  {
    var m0 := Machine(w, Closing(0, i, false, next));
    var slot := w.t.events[i].mmap;
    var n := UnmapSteps(w.t.mmaps[slot]);
    var m1 := CloseStep(w, m0.pc);
    RunOnOne(m0, c, n + 3);
    RunOnOne(m1, c, n + 2);
    var m2 := CloseStep(m1.w, m1.pc);
    UnmapRuns(m2.w, slot, m2.pc.next, c);
    RunOnJoin(m2, c, n, 1);
    UnmappedLinked(m2.w, slot);
    RunOnOne(Machine(Unmapped(m2.w, slot), Closing(2, i, false, next)), c, 1);
  }

  /** close_event, step by step, does what Closed says, in either order of its two halves. */
  lemma {:induction false} CloseRuns(w: World, i: int, unmapFirst: bool, next: Pc, c: Choice)
    requires Linked(w.t) && 0 <= i < NUM_EVENTS
    ensures RunOn(Machine(w, Closing(0, i, unmapFirst, next)), c, CloseSteps(w, i)) == Machine(Closed(w, i), next)
  {
    if unmapFirst { ClosesUnmapped(w, i, next, c); } else { ClosesThenUnmaps(w, i, next, c); }
  }

  lemma {:induction false} UnmappedLinked(w: World, i: int)
    requires Linked(w.t) && 0 <= i < MAX_MMAPS
    ensures Linked(Unmapped(w, i).t)
  {
  }

  lemma {:induction false} FinishClose(w: World, pc: Pc, c: Choice)
    requires Linked(w.t) && PcInRange(w, pc) && pc.Closing? && pc.at == 1 && pc.unmapFirst
    ensures RunOn(Machine(w, pc), c, 2) == Machine(CountEvents(w, -1), pc.next)
  {
  }

  /** The stores into the opened slot, up to the one that activates it. */
  lemma {:induction false} ClearsCounters(w: World, i: int, req: OpenRequest, c: Choice)
    requires Linked(w.t) && 0 <= i < NUM_EVENTS
    ensures RunOn(Machine(w, Opening(0, i, req, -1)), c, 2)
            == Machine(PutEvent(w, i, w.t.events[i].(overflows := 0, throttles := 0)), Opening(2, i, req, -1))
  {
  }

  lemma {:induction false} Names(w: World, i: int, req: OpenRequest, c: Choice)
    requires Linked(w.t) && 0 <= i < NUM_EVENTS
    ensures RunOn(Machine(w, Opening(2, i, req, -1)), c, 3)
            == Machine(PutEvent(w, i, w.t.events[i].(attr := req.attr, groupFd := req.groupFd, fd := req.fd)),
                       Opening(5, i, req, -1))
  {
  }

  lemma {:induction false} StartsOpen(w: World, i: int, req: OpenRequest, c: Choice)
    requires Linked(w.t) && 0 <= i < NUM_EVENTS
    ensures RunOn(Machine(w, Opening(0, i, req, -1)), c, 5)
            == Machine(PutEvent(w, i, w.t.events[i].(overflows := 0, throttles := 0, attr := req.attr,
                                                     groupFd := req.groupFd, fd := req.fd)),
                       Opening(5, i, req, -1))
  {
    var m0 := Machine(w, Opening(0, i, req, -1));
    RunOnJoin(m0, c, 2, 3);
    ClearsCounters(w, i, req, c);
    Names(RunOn(m0, c, 2).w, i, req, c);
  }

  lemma {:induction false} CountsOpen(w: World, i: int, req: OpenRequest, c: Choice)
    requires Linked(w.t) && 0 <= i < NUM_EVENTS
    ensures RunOn(Machine(w, Opening(5, i, req, -1)), c, 2)
            == Machine(CountEvents(PutEvent(w, i, w.t.events[i].(active := true)), 1), Opening(7, i, req, -1))
  {
  }

  function LeaderSteps(t: Tables, groupFd: int): nat { if groupFd != -1 && Lookup(t, groupFd) >= 0 then 2 else 1 }

  /** The leader is told and its size follows. */
  lemma {:induction false} TellsLeader(w: World, i: int, req: OpenRequest, c: Choice)
    requires Linked(w.t) && 0 <= i < NUM_EVENTS
    ensures var j := if req.groupFd == -1 then -1 else Lookup(w.t, req.groupFd);
            RunOn(Machine(w, Opening(7, i, req, -1)), c, LeaderSteps(w.t, req.groupFd))
            == Machine(if j < 0 then w else PutEvent(w, j, Joined(w.t.events[j])), Opening(9, i, req, j))
  {
  }

  lemma {:induction false} EndsOpen(w: World, i: int, req: OpenRequest, j: int, c: Choice)
    requires Linked(w.t) && 0 <= i < NUM_EVENTS && j < NUM_EVENTS
    ensures var e := w.t.events[i];
            RunOn(Machine(w, Opening(9, i, req, j)), c, 2)
            == Machine(PutEvent(w, i, e.(numberInGroup := 1, readSize := ReadSize(e.attr.readFormat, 1))), Idle)
  {
  }

  /** Up to the leader. */
  lemma {:induction false} FillsOpen(w: World, i: int, req: OpenRequest, c: Choice)
    requires Linked(w.t) && 0 <= i < NUM_EVENTS
    ensures var t1 := Groups.Activated(w.t, i, req.fd, req.attr, req.groupFd);
            RunOn(Machine(w, Opening(0, i, req, -1)), c, 7) == Machine(w.(t := t1), Opening(7, i, req, -1)) && Linked(t1)
  {
    var m0 := Machine(w, Opening(0, i, req, -1));
    StartsOpen(w, i, req, c);
    CountsOpen(RunOn(m0, c, 5).w, i, req, c);
    RunOnJoin(m0, c, 5, 2);
    assert RunOn(m0, c, 7).w == w.(t := Groups.Activated(w.t, i, req.fd, req.attr, req.groupFd));
  }

  /** The leader and the slot's own number and size. */
  lemma {:induction false} GroupsOpen(w: World, i: int, req: OpenRequest, c: Choice)
    requires Linked(w.t) && 0 <= i < NUM_EVENTS
    ensures var j := if req.groupFd == -1 then -1 else Lookup(w.t, req.groupFd);
            var w1 := if j < 0 then w else PutEvent(w, j, Joined(w.t.events[j]));
            var e := w1.t.events[i];
            RunOn(Machine(w, Opening(7, i, req, -1)), c, LeaderSteps(w.t, req.groupFd) + 2)
            == Machine(PutEvent(w1, i, e.(numberInGroup := 1, readSize := ReadSize(e.attr.readFormat, 1))), Idle)
  {
    var m7 := Machine(w, Opening(7, i, req, -1));
    var n := LeaderSteps(w.t, req.groupFd);
    TellsLeader(w, i, req, c);
    RunOnJoin(m7, c, n, 2);
    var m9 := RunOn(m7, c, n);
    EndsOpen(m9.w, i, req, m9.pc.leader, c);
  }

  /** open_random_event from the kernel's answer on, step by step, does what Opened says. */
  lemma {:induction false} OpenRuns(w: World, i: int, req: OpenRequest, c: Choice)
    requires Linked(w.t) && 0 <= i < NUM_EVENTS
    ensures var t1 := Groups.Activated(w.t, i, req.fd, req.attr, req.groupFd);
            RunOn(Machine(w, Opening(0, i, req, -1)), c, 9 + LeaderSteps(t1, req.groupFd))
            == Machine(w.(t := Groups.Opened(w.t, i, req.fd, req.attr, req.groupFd)), Idle)
  {
    var t1 := Groups.Activated(w.t, i, req.fd, req.attr, req.groupFd);
    var w1 := w.(t := t1);
    FillsOpen(w, i, req, c);
    RunOnJoin(Machine(w, Opening(0, i, req, -1)), c, 7, LeaderSteps(t1, req.groupFd) + 2);
    GroupsOpen(w1, i, req, c);
    GroupsOpened(w, i, req, w1);
  }

  lemma {:induction false} GroupsOpened(w: World, i: int, req: OpenRequest, w1: World)
    requires 0 <= i < |w.t.events| && w1 == w.(t := Groups.Activated(w.t, i, req.fd, req.attr, req.groupFd))
    ensures var j := if req.groupFd == -1 then -1 else Lookup(w1.t, req.groupFd);
            var w2 := if j < 0 then w1 else PutEvent(w1, j, Joined(w1.t.events[j]));
            var e := w2.t.events[i];
            PutEvent(w2, i, e.(numberInGroup := 1, readSize := ReadSize(e.attr.readFormat, 1)))
            == w.(t := Groups.Opened(w.t, i, req.fd, req.attr, req.groupFd))
  {
  }

  // ---- the operations from their start to their end ----

  /** An open that the kernel grants, with no leader or an active one, from its search for a slot to its end. */
  lemma {:induction false} GrantedOpenRuns(w: World, req: OpenRequest, c: Choice) returns (n: nat)
    requires Linked(w.t) && req.fd > 2 && (req.groupFd == -1 || Lookup(w.t, req.groupFd) >= 0)
    ensures CanBegin(w, Open(req)) && FreeEvent(w.t) < NUM_EVENTS
    ensures RunOn(BeginOp(w, Open(req)).0, c, n)
            == Machine(if FreeEvent(w.t) < 0 then w
                       else w.(t := Groups.Opened(w.t, FreeEvent(w.t), req.fd, req.attr, req.groupFd)), Idle)
  {
    FreeIsInactive(w.t);
    n := 0;
    if FreeEvent(w.t) >= 0 {
      n := 9 + LeaderSteps(Groups.Activated(w.t, FreeEvent(w.t), req.fd, req.attr, req.groupFd), req.groupFd);
      OpenRuns(w, FreeEvent(w.t), req, c);
    }
  }

  /** The mapping that a setup asked for, up to the point where an aux area may follow. */
  lemma {:induction false} FirstMapRuns(w: World, which: int, size: int, prot: Prot, c: Choice) returns (n: nat)
    requires Linked(w.t) && CanBegin(w, Setup(which, size, prot)) && FreeMmap(w.t) >= 0
    ensures var job := Job(which, FreeMmap(w.t), size, prot, false, 0);
            0 <= job.slot < |w.t.mmaps|
            && var w1 := Mapped(w, job, c.addr);
               RunOn(BeginOp(w, Setup(which, size, prot)).0, c, n)
               == Machine(w1, if c.addr == MAP_FAILED then Idle else WhatFollows(w1, job, c))
  {
    FreeIsInactive(w.t);
    var job := Job(which, FreeMmap(w.t), size, prot, false, 0);
    n := MapSteps(job, c.addr);
    MapRuns(w, job, c);
  }

  /** What the aux area adds, if it is asked for. */
  lemma {:induction false} AuxMapRuns(w: World, job: Job, c: Choice, c2: Choice) returns (n: nat)
    requires Linked(w.t) && !job.aux && 0 <= job.which < NUM_EVENTS && 0 <= job.slot < MAX_MMAPS
    ensures RunOn(Machine(w, WhatFollows(w, job, c)), c2, n)
            == Machine(if c.auxToo then FuzzerState.AuxMapped(w, job.which, job.slot, c.size, c.prot, c2.addr) else w, Idle)
  {
    FreeIsInactive(w.t);
    n := 0;
    if c.auxToo && FreeMmap(w.t) >= 0 {
      var more := Job(job.which, FreeMmap(w.t), c.size, c.prot, true, job.slot);
      n := MapSteps(more, c2.addr);
      MapRuns(w, more, c2);
    }
  }

  lemma {:induction false} MappedLinked(w: World, job: Job, addr: int)
    requires Linked(w.t) && 0 <= job.slot < MAX_MMAPS && 0 <= job.which < NUM_EVENTS && (job.aux ==> 0 <= job.parent < MAX_MMAPS)
    ensures Linked(Mapped(w, job, addr).t)
  {
  }

  function AuxAsked(c: Choice, c2: Choice): FuzzerState.Option<FuzzerState.AuxRequest> {
    if c.auxToo then FuzzerState.Some(FuzzerState.AuxRequest(c.size, c.prot, c2.addr)) else FuzzerState.None
  }

  /** setup_mmap for an event, from its search for a slot to its end, aux area included, leaves what SetUp says. */
  lemma {:induction false} SetupRuns(w: World, which: int, size: int, prot: Prot, c: Choice, c2: Choice) returns (n: nat, n2: nat)
    requires Linked(w.t) && 0 <= which < NUM_EVENTS && size >= 0
    ensures CanBegin(w, Setup(which, size, prot))
    ensures RunOn(RunOn(BeginOp(w, Setup(which, size, prot)).0, c, n), c2, n2)
            == Machine(FuzzerState.SetUp(w, which, size, prot, c.addr, AuxAsked(c, c2)).0, Idle)
  {
    n, n2 := 0, 0;
    if FreeMmap(w.t) >= 0 {
      n := FirstMapRuns(w, which, size, prot, c);
      if c.addr != MAP_FAILED {
        var job := Job(which, FreeMmap(w.t), size, prot, false, 0);
        MappedLinked(w, job, c.addr);
        n2 := AuxMapRuns(Mapped(w, job, c.addr), job, c, c2);
      }
    }
  }

  /** A mapping that is granted belongs to the event it was set up for, and nothing else changes. */
  lemma {:induction false} SetUpBelongsToEvent(w: World, which: int, size: int, prot: Prot, addr: int)
    requires Linked(w.t) && 0 <= which < NUM_EVENTS && FreeMmap(w.t) >= 0 && addr != MAP_FAILED
    ensures var (w1, r) := FuzzerState.SetUp(w, which, size, prot, addr, FuzzerState.None);
            var i := FreeMmap(w.t);
            && r == FuzzerState.Some(0) && i < MAX_MMAPS && !w.t.mmaps[i].active && Linked(w1.t)
            && w1.t.events[which] == w.t.events[which].(mmap := i)
            && (forall j :: 0 <= j < NUM_EVENTS && j != which ==> w1.t.events[j] == w.t.events[j])
            && (var m := w1.t.mmaps[i];
                m.active && m.whichEvent == which && m.fd == w.t.events[which].fd && m.addr == addr && m.size == size
                && m.prot == prot && !m.aux)
            && (forall j :: 0 <= j < MAX_MMAPS && j != i ==> w1.t.mmaps[j] == w.t.mmaps[j])
            && w1.t.activeMmaps == w.t.activeMmaps + 1 && w1.mapped == w.mapped[addr := prot]
  {
    FreeIsInactive(w.t);
  }

  /** Where mmap fails, or there is no slot, nothing is mapped and no event is touched. */
  lemma {:induction false} SetUpFails(w: World, which: int, size: int, prot: Prot, addr: int,
      auxToo: FuzzerState.Option<FuzzerState.AuxRequest>)
    requires Linked(w.t) && 0 <= which < NUM_EVENTS && (FreeMmap(w.t) < 0 || addr == MAP_FAILED)
    ensures var (w1, r) := FuzzerState.SetUp(w, which, size, prot, addr, auxToo);
            var i := FreeMmap(w.t);
            && r == FuzzerState.Some(-1) && w1.mapped == w.mapped && w1.t.events == w.t.events
            && w1.t.activeMmaps == w.t.activeMmaps && |w1.t.mmaps| == MAX_MMAPS
            && (forall j :: 0 <= j < MAX_MMAPS && j != i ==> w1.t.mmaps[j] == w.t.mmaps[j])
            && (i >= 0 ==> i < MAX_MMAPS && !w1.t.mmaps[i].active && w1.t.mmaps[i].addr == MAP_FAILED)
  {
    FreeIsInactive(w.t);
  }

  /** An aux area is linked to the mapping that it was set up beside, and the event then names the area. */
  lemma {:induction false} AuxBelongsToParent(w: World, which: int, parent: int, size: int, prot: Prot, addr: int)
    requires Linked(w.t) && 0 <= which < NUM_EVENTS && 0 <= parent < MAX_MMAPS && FreeMmap(w.t) >= 0 && addr != MAP_FAILED
    ensures var w1 := FuzzerState.AuxMapped(w, which, parent, size, prot, addr);
            var i := FreeMmap(w.t);
            && i < MAX_MMAPS && !w.t.mmaps[i].active && Linked(w1.t)
            && w1.t.events[which] == w.t.events[which].(mmap := i)
            && (forall j :: 0 <= j < NUM_EVENTS && j != which ==> w1.t.events[j] == w.t.events[j])
            && (var m := w1.t.mmaps[i];
                m.active && m.aux && m.parent == parent && m.fd == w.t.events[which].fd && m.addr == addr && m.size == size
                && m.prot == prot)
            && (forall j :: 0 <= j < MAX_MMAPS && j != i ==> w1.t.mmaps[j] == w.t.mmaps[j])
            && w1.t.activeMmaps == w.t.activeMmaps + 1 && w1.mapped == w.mapped[addr := prot]
  {
    FreeIsInactive(w.t);
  }

  /** One turn of the close-all loop: an active event is closed, an inactive one passed over. */
  lemma {:induction false} SweepTurn(w: World, i: nat, c: Choice) returns (n: nat)
    requires Linked(w.t) && i < NUM_EVENTS
    ensures RunOn(Machine(w, Sweeping(i)), c, n) == Machine(if w.t.events[i].active then Closed(w, i) else w, Sweeping(i + 1))
  {
    var m0 := Machine(w, Sweeping(i));
    if w.t.events[i].active {
      var closing := CloseSteps(w, i);
      n := 1 + closing;
      RunOnOne(m0, c, n);
      CloseRuns(w, i, c.unmapFirst, Sweeping(i + 1), c);
    } else {
      n := 1;
      RunOnOne(m0, c, 1);
    }
  }

  /** The close of every active event, one after the other. */
  lemma {:induction false} SweepRuns(w: World, i: nat, c: Choice) returns (n: nat)
    requires Linked(w.t) && i <= NUM_EVENTS
    ensures RunOn(Machine(w, Sweeping(i)), c, n) == Machine(FuzzerState.ClosedFrom(w, i), Idle)
    decreases NUM_EVENTS - i
  {
    if i == NUM_EVENTS {
      n := 1;
      RunOnOne(Machine(w, Sweeping(i)), c, 1);
    } else {
      var first := SweepTurn(w, i, c);
      var w1 := if w.t.events[i].active then Closed(w, i) else w;
      ClosedLinked(w, i);
      var rest := SweepRuns(w1, i + 1, c);
      RunOnJoin(Machine(w, Sweeping(i)), c, first, rest);
      n := first + rest;
    }
  }

  lemma {:induction false} ClosedLinked(w: World, i: nat)
    requires Linked(w.t) && i < NUM_EVENTS
    ensures Linked(Closed(w, i).t)
  {
  }

  lemma {:induction false} ClosedFromEmpties(w: World, i: nat)
    requires Linked(w.t) && i <= NUM_EVENTS && forall j :: 0 <= j < i ==> !w.t.events[j].active
    ensures forall j :: 0 <= j < NUM_EVENTS ==> !FuzzerState.ClosedFrom(w, i).t.events[j].active
    decreases NUM_EVENTS - i
  {
    if i < NUM_EVENTS { ClosedFromEmpties(if w.t.events[i].active then Closed(w, i) else w, i + 1); }
  }

  /** sigio_handler's loop, from its start to its end: it closes every active event, and leaves none active. */
  lemma {:induction false} CloseAllRuns(w: World, c: Choice) returns (n: nat)
    requires Linked(w.t)
    ensures CanBegin(w, CloseAll)
    ensures RunOn(BeginOp(w, CloseAll).0, c, n) == Machine(FuzzerState.ClosedFrom(w, 0), Idle)
    ensures forall j :: 0 <= j < NUM_EVENTS ==> !FuzzerState.ClosedFrom(w, 0).t.events[j].active
  {
    n := SweepRuns(w, 0, c);
    ClosedFromEmpties(w, 0);
  }
}
