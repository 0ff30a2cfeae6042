/**
  The tables as the fuzzer holds them, arrays searched by loops and changed in place.
  Each method is shown to do what FuzzerTables says of the operation, so what is proved
  there and in SignalSafety holds of the arrays.
*/
module FuzzerState {
  import opened Slots
  import opened FuzzerTables
  import opened SignalSafety
  import Bits
  import Groups

  datatype Option<T> = None | Some(value: T)

  /** The value returned by perf_mmap_read. */
  function ReadResult(mmaps: seq<Mapping>, which: int, head: int): int
    requires 0 <= which < |mmaps| && 0 <= mmaps[which].parent < |mmaps|
  {
    var m := mmaps[which];
    var page := if m.aux then mmaps[m.parent] else m;
    if !m.prot.read || !page.prot.read || !page.active || page.addr == MAP_FAILED || page.size == 0 then 0
    else if page.addr == NULL then -1
    else head
  }

  /** A page that can be read through for slot m, the slot's own or its parent's. */
  predicate CanReadThrough(m: Mapping, page: Mapping) {
    m.prot.read && page.prot.read && page.active && page.addr != MAP_FAILED && page.addr != NULL && page.size != 0
  }

  /**
    The head comes back through a page that can be read; it is stored and kept in the slot,
    and nowhere else, exactly if that page can be written too.
   */
  lemma {:induction false} HeadIsKept(mmaps: seq<Mapping>, which: int, head: int)
    requires 0 <= which < |mmaps| && 0 <= mmaps[which].parent < |mmaps|
    ensures var m := mmaps[which];
            var page := if m.aux then mmaps[m.parent] else m;
            var (after, touched) := MmapRead(mmaps, which, head);
            && (ReadResult(mmaps, which, head)
                == if CanReadThrough(m, page) then head
                   else if page.addr == NULL && m.prot.read && page.prot.read && page.active && page.size != 0 then -1
                   else 0)
            && (Load(page.addr) in touched <==> CanReadThrough(m, page))
            && (Store(page.addr) in touched <==> CanReadThrough(m, page) && page.prot.write)
            && (forall i :: 0 <= i < |touched| ==> touched[i] == Load(page.addr) || touched[i] == Store(page.addr))
            && (if CanReadThrough(m, page) && page.prot.write
                then (if m.aux then after[which] == m.(auxHead := head) else after[which] == m.(head := head))
                else after[which] == m)
            && (forall j :: 0 <= j < |mmaps| && j != which ==> after[j] == mmaps[j])
  {
  }

  /** setup_mmap_aux, with the slot it finds for itself. */
  function AuxMapped(w: World, which: int, parent: int, size: int, prot: Prot, addr: int): World
    requires 0 <= which < |w.t.events|
  {
    var i := FreeMmap(w.t);
    if i < 0 then w else Mapped(w, Job(which, i, size, prot, true, parent), addr)
  }

  /** The request for an aux area, and what mmap answers to it. */
  datatype AuxRequest = AuxRequest(size: int, prot: Prot, addr: int)

  /** setup_mmap; None when it goes on to use event_data[-1], its slot being filled by then. */
  function SetUp(w: World, which: int, size: int, prot: Prot, addr: int, auxToo: Option<AuxRequest>): (World, Option<int>)
    requires which < |w.t.events|
  {
    var i := FreeMmap(w.t);
    var job := Job(which, i, size, prot, false, 0);
    if i < 0 then (w, Some(-1))
    else if which < 0 then (w.(t := w.t.(mmaps := w.t.mmaps[i := Filled(w.t.mmaps[i], job)])), None)
    else
      var w1 := Mapped(w, job, addr);
      if addr == MAP_FAILED then (w1, Some(-1))
      else (if auxToo.None? then w1 else AuxMapped(w1, which, i, auxToo.value.size, auxToo.value.prot, auxToo.value.addr), Some(0))
  }

  ghost predicate InRange(job: Job) {
    0 <= job.slot < MAX_MMAPS && 0 <= job.which < NUM_EVENTS && 0 <= job.parent < MAX_MMAPS && (job.aux ==> job.parent != job.slot)
  }

  /** The stores into the parent's control page. */
  function Hooks(t: Tables, job: Job): seq<Effect>
    requires 0 <= job.parent < |t.mmaps|
  {
    if job.aux then HookStore(t.mmaps[job.parent]) + HookStore(t.mmaps[job.parent]) else []
  }

  /** The answer of a search at random among n slots believed to qualify. */
  ghost predicate Picked(flags: seq<bool>, n: int, rand: nat, i: int) {
    if n < 1 then i == -1 else Picks(flags, rand % n, i)
  }

  /** The events from i on closed, those that are active. */
  ghost function ClosedFrom(w: World, i: nat): (r: World)
    requires Linked(w.t) && i <= NUM_EVENTS
    ensures Linked(r.t)
    decreases NUM_EVENTS - i
  {
    if i == NUM_EVENTS then w else ClosedFrom(if w.t.events[i].active then Closed(w, i) else w, i + 1)
  }

  class Fuzzer {
    const events: array<Event>
    const mmaps: array<Mapping>
    var activeEvents: int
    var activeMmaps: int
    var nextRefresh: int
    var alreadyHandling: bool
    /** The environment: pages mapped, and what has been done to them and to descriptors. */
    var mapped: map<int, Prot>
    var effects: seq<Effect>

    ghost function Now(): Tables
      reads this, events, mmaps
    {
      Tables(events[..], mmaps[..], activeEvents, activeMmaps, nextRefresh)
    }

    ghost function Here(): World reads this, events, mmaps { World(Now(), mapped) }

    ghost predicate Valid() reads this, events, mmaps { Linked(Now()) }

    /** Static storage starts as zero, with no operation under way. */
    constructor ()
      ensures Valid() && fresh(events) && fresh(mmaps)
      ensures IsStart(Machine(Here(), Idle)) && effects == [] && !alreadyHandling
    {
      events := new Event[NUM_EVENTS](_ => NO_EVENT);
      mmaps := new Mapping[MAX_MMAPS](_ => NO_MAPPING);
      activeEvents, activeMmaps, nextRefresh, alreadyHandling := 0, 0, 0, false;
      mapped, effects := map[], [];
    }

    // ---- searches ----

    method FindEmptyMmap() returns (i: int)
      ensures i == FreeMmap(Now())
    {
      ghost var free := FreeFlags(MmapFlags(mmaps[..]));
      i := 0;
      while i < mmaps.Length
        invariant 0 <= i <= mmaps.Length && forall j :: 0 <= j < i ==> !free[j]
      {
        if !mmaps[i].active {
          FirstIs(free, i);
          return;
        }
        i := i + 1;
      }
      i := -1;
      FirstIs(free, i);
    }

    method FindEmptyEvent() returns (i: int)
      ensures i == FreeEvent(Now())
    {
      ghost var free := FreeFlags(EventFlags(events[..]));
      i := 0;
      while i < events.Length
        invariant 0 <= i <= events.Length && forall j :: 0 <= j < i ==> !free[j]
      {
        if !events[i].active {
          FirstIs(free, i);
          return;
        }
        i := i + 1;
      }
      i := -1;
      FirstIs(free, i);
    }

    method LookupEvent(fd: int) returns (i: int)
      ensures i == Lookup(Now(), fd)
    {
      if activeEvents < 1 {
        return -1;
      }
      ghost var flags := FdFlags(events[..], fd);
      i := 0;
      while i < events.Length
        invariant 0 <= i <= events.Length && forall j :: 0 <= j < i ==> !flags[j]
      {
        if events[i].active {
          if events[i].fd == fd {
            FirstIs(flags, i);
            return;
          }
        }
        i := i + 1;
      }
      i := -1;
      FirstIs(flags, i);
    }

    method FindRandomActiveMmap(rand: nat) returns (i: int)
      ensures Picked(MmapFlags(mmaps[..]), activeMmaps, rand, i)
    {
      if activeMmaps < 1 {
        return -1;
      }
      ghost var flags := MmapFlags(mmaps[..]);
      var x, j := rand % activeMmaps, 0;
      i := 0;
      while i < mmaps.Length
        invariant 0 <= i <= mmaps.Length && j == Rank(flags, i) <= x
      {
        RankStep(flags, i);
        if mmaps[i].active {
          if j == x {
            return;
          }
          j := j + 1;
        }
        i := i + 1;
      }
      RankEnd(flags);
      i := -1;
    }

    method FindRandomActiveEvent(rand: nat) returns (i: int)
      ensures Picked(EventFlags(events[..]), activeEvents, rand, i)
    {
      if activeEvents < 1 {
        return -1;
      }
      ghost var flags := EventFlags(events[..]);
      var x, j := rand % activeEvents, 0;
      i := 0;
      while i < events.Length
        invariant 0 <= i <= events.Length && j == Rank(flags, i) <= x
      {
        RankStep(flags, i);
        if events[i].active {
          if j == x {
            return;
          }
          j := j + 1;
        }
        i := i + 1;
      }
      RankEnd(flags);
      i := -1;
    }

    method FindRandomActiveSamplingEvent(rand: nat) returns (i: int)
      ensures Picked(SamplingFlags(events[..]), activeEvents, rand, i)
    {
      if activeEvents < 1 {
        return -1;
      }
      ghost var flags := SamplingFlags(events[..]);
      var x, j := rand % activeEvents, 0;
      i := 0;
      while i < events.Length
        invariant 0 <= i <= events.Length && j == Rank(flags, i) <= x
      {
        RankStep(flags, i);
        if events[i].active && events[i].attr.samplePeriod != 0 {
          if j == x {
            return;
          }
          j := j + 1;
        }
        i := i + 1;
      }
      RankEnd(flags);
      i := -1;
    }

    method FindRandomActiveBreakpointEvent(rand: nat) returns (i: int)
      ensures Picked(BreakpointFlags(events[..]), activeEvents, rand, i)
    {
      if activeEvents < 1 {
        return -1;
      }
      ghost var flags := BreakpointFlags(events[..]);
      var x, j := rand % activeEvents, 0;
      i := 0;
      while i < events.Length
        invariant 0 <= i <= events.Length && j == Rank(flags, i) <= x
      {
        RankStep(flags, i);
        if events[i].active && events[i].attr.kind == PERF_TYPE_BREAKPOINT {
          if j == x {
            return;
          }
          j := j + 1;
        }
        i := i + 1;
      }
      RankEnd(flags);
      i := -1;
    }

    // ---- reading through a mapping ----

    method MmapAuxRead(which: int, auxHead: int) returns (r: int)
      requires Valid() && 0 <= which < MAX_MMAPS && mmaps[which].aux
      modifies mmaps, `effects
      ensures mmaps[..] == MmapRead(old(mmaps[..]), which, auxHead).0
      ensures effects == old(effects) + MmapRead(old(mmaps[..]), which, auxHead).1
      ensures r == ReadResult(old(mmaps[..]), which, auxHead)
    {
      assert effects + [] == effects;
      var parent := mmaps[which].parent;
      if !mmaps[which].prot.read { return 0; }
      if !mmaps[parent].prot.read { return 0; }
      if !mmaps[parent].active { return 0; }
      if mmaps[parent].addr == MAP_FAILED { return 0; }
      if mmaps[parent].size == 0 { return 0; }
      var page := mmaps[parent].addr;
      if page == NULL { return -1; }
      effects := effects + [Load(page)];
      if mmaps[parent].prot.write {
        effects := effects + [Store(page)];
        mmaps[which] := mmaps[which].(auxHead := auxHead);
        assert effects == old(effects) + [Load(page), Store(page)];
      }
      return auxHead;
    }

    method ReadMmap(which: int, head: int) returns (r: int)
      requires Valid() && 0 <= which < MAX_MMAPS
      modifies mmaps, `effects
      ensures mmaps[..] == MmapRead(old(mmaps[..]), which, head).0
      ensures effects == old(effects) + MmapRead(old(mmaps[..]), which, head).1
      ensures r == ReadResult(old(mmaps[..]), which, head)
      ensures var m := old(mmaps[which]);
              !m.aux && m.active && m.prot.read && m.prot.write && m.addr != MAP_FAILED && m.addr != NULL && m.size != 0 ==>
                r == head && mmaps[which] == m.(head := head) && effects == old(effects) + [Load(m.addr), Store(m.addr)]
    {
      if mmaps[which].aux {
        r := MmapAuxRead(which, head);
        return;
      }
      assert effects + [] == effects;
      if !mmaps[which].prot.read { return 0; }
      var page := mmaps[which].addr;
      if !mmaps[which].active { return 0; }
      if mmaps[which].addr == MAP_FAILED { return 0; }
      if mmaps[which].size == 0 { return 0; }
      if page == NULL { return -1; }
      effects := effects + [Load(page)];
      if mmaps[which].prot.write {
        effects := effects + [Store(page)];
        mmaps[which] := mmaps[which].(head := head);
        assert effects == old(effects) + [Load(page), Store(page)];
      }
      return head;
    }

    // ---- handlers ----

    /** our_handler.  A run that finds another under way does nothing. */
    method OurHandler(fd: int, k: Replies)
      requires Valid()
      modifies this, events, mmaps
      ensures Valid() && mapped == old(mapped) && alreadyHandling == old(alreadyHandling)
      ensures old(alreadyHandling) ==> Now() == old(Now()) && effects == old(effects)
      ensures !old(alreadyHandling) ==>
                Now() == Handle(old(Now()), fd, k).0 && effects == old(effects) + Handle(old(Now()), fd, k).1
    {
      if alreadyHandling {
        return;
      }
      alreadyHandling := true;
      effects := effects + [Disable(fd)];
      if k.disable < 0 {
        alreadyHandling := false;
        return;
      }
      var i := LookupEvent(fd);
      if i >= 0 {
        CountOverflow(i, fd, k);
      }
      alreadyHandling := false;
    }

    /** The part of the handler for an event that is in the table. */
    method CountOverflow(i: int, fd: int, k: Replies)
      requires Valid() && 0 <= i < NUM_EVENTS && i == Lookup(Now(), fd) && k.disable >= 0
      modifies this, events, mmaps
      ensures Valid() && mapped == old(mapped) && alreadyHandling == old(alreadyHandling)
      ensures Now() == Handle(old(Now()), fd, k).0
      ensures effects == old(effects) + Handle(old(Now()), fd, k).1[1..]
    {
      events[i] := events[i].(overflows := events[i].overflows + 1);
      if events[i].overflows > MAX_OVERFLOWS {
        events[i] := events[i].(overflows := 0);
        events[i] := events[i].(throttles := events[i].throttles + 1);
        nextRefresh := 0;
        if events[i].throttles > MAX_THROTTLES {
          effects := effects + [GiveUp(events[i].fd)];
        }
      } else {
        var _ := ReadMmap(events[i].mmap, k.head);
        effects := effects + [Refresh(fd, nextRefresh)];
        if k.refresh == 0 {
          events[i] := events[i].(lastRefresh := nextRefresh);
        }
      }
    }

    // ---- operations ----

    method UnmapMmap(i: int)
      requires Valid() && 0 <= i < MAX_MMAPS
      modifies mmaps, `activeMmaps, `mapped
      ensures Valid() && Here() == Unmapped(old(Here()), i)
    {
      if mmaps[i].addr == MAP_FAILED {
        return;
      }
      mmaps[i] := mmaps[i].(active := false);
      var result := if MunmapSucceeds(mmaps[i].size) then 0 else -1;
      if result == 0 {
        mapped := mapped - {mmaps[i].addr};
      }
      mmaps[i] := mmaps[i].(addr := MAP_FAILED);
      if result == 0 {
        activeMmaps := activeMmaps - 1;
      }
    }

    /** A negative number, from a search that found nothing, is no event. */
    method CloseEvent(i: int, unmapBeforeClose: bool)
      requires Valid() && i < NUM_EVENTS
      modifies events, mmaps, `activeEvents, `activeMmaps, `mapped
      ensures Valid() && Here() == if i < 0 then old(Here()) else Closed(old(Here()), i)
      ensures i >= 0 ==> events[..] == old(events[..])[i := old(events[i]).(active := false)]
    {
      if i < 0 {
        return;
      }
      events[i] := events[i].(active := false);
      if unmapBeforeClose {
        UnmapMmap(events[i].mmap);
      }
      if !unmapBeforeClose {
        UnmapMmap(events[i].mmap);
      }
      activeEvents := activeEvents - 1;
    }

    /** sigio_handler when the queue of signals has overflowed: every event is closed. */
    method SigioHandler(unmapBeforeClose: nat -> bool)
      requires Valid()
      modifies events, mmaps, `activeEvents, `activeMmaps, `mapped
      ensures Valid() && Here() == ClosedFrom(old(Here()), 0)
      ensures forall i :: 0 <= i < NUM_EVENTS ==> !events[i].active
    {
      var i := 0;
      while i < NUM_EVENTS
        invariant 0 <= i <= NUM_EVENTS && Valid()
        invariant ClosedFrom(Here(), i) == ClosedFrom(old(Here()), 0)
        invariant forall j :: 0 <= j < i ==> !events[j].active
      {
        if events[i].active {
          CloseEvent(i, unmapBeforeClose(i));
        }
        i := i + 1;
      }
    }

    /** The two stores that announce an aux area in the control page of its parent. */
    method HookAux(parent: int)
      requires Valid() && 0 <= parent < MAX_MMAPS
      modifies `effects
      ensures effects == old(effects) + (HookStore(mmaps[parent]) + HookStore(mmaps[parent]))
    {
      var page := mmaps[parent].addr;
      if page != NULL && mmaps[parent].prot.write {
        effects := effects + [Store(page)];
        effects := effects + [Store(page)];
      }
    }

    /** What is stored once the kernel has made the mapping, active last. */
    method RecordMapping(job: Job)
      requires Valid() && InRange(job)
      modifies events, mmaps
      ensures Valid()
      ensures var e, m := old(events[job.which]), old(mmaps[job.slot]);
              && events[..] == old(events[..])[job.which := e.(mmap := job.slot)]
              && mmaps[..] == old(mmaps[..])[job.slot := m.(fd := e.fd, active := true,
                                             whichEvent := if job.aux then m.whichEvent else job.which)]
    {
      events[job.which] := events[job.which].(mmap := job.slot);
      mmaps[job.slot] := mmaps[job.slot].(fd := events[job.which].fd);
      if !job.aux {
        mmaps[job.slot] := mmaps[job.slot].(whichEvent := job.which);
      }
      mmaps[job.slot] := mmaps[job.slot].(active := true);
    }

    /** The fields written before the call of mmap. */
    method FillSlot(job: Job)
      requires Valid() && InRange(job)
      modifies mmaps, `effects
      ensures Valid() && mmaps[..] == old(mmaps[..])[job.slot := Filled(old(mmaps[job.slot]), job)]
      ensures effects == old(effects) + Hooks(old(Now()), job)
    {
      var i := job.slot;
      mmaps[i] := mmaps[i].(addr := MAP_FAILED);
      mmaps[i] := mmaps[i].(prot := job.prot);
      mmaps[i] := mmaps[i].(size := job.size);
      mmaps[i] := mmaps[i].(aux := job.aux);
      if job.aux {
        mmaps[i] := mmaps[i].(parent := job.parent);
        HookAux(job.parent);
      }
    }

    /** The slot written field by field, and the call of mmap. */
    method FillAndMap(job: Job, addr: int) returns (r: int)
      requires Valid() && InRange(job)
      modifies events, mmaps, `activeMmaps, `mapped, `effects
      ensures Valid() && Here() == Mapped(old(Here()), job, addr) && r == (if addr == MAP_FAILED then -1 else 0)
      ensures effects == old(effects) + Hooks(old(Now()), job)
    {
      FillSlot(job);
      mmaps[job.slot] := mmaps[job.slot].(addr := addr);
      if addr == MAP_FAILED {
        return -1;
      }
      mapped := mapped[addr := job.prot];
      activeMmaps := activeMmaps + 1;
      RecordMapping(job);
      return 0;
    }

    method SetupMmapAux(which: int, parent: int, size: int, prot: Prot, addr: int) returns (r: int)
      requires Valid() && 0 <= which < NUM_EVENTS && 0 <= parent < MAX_MMAPS && mmaps[parent].active
      modifies events, mmaps, `activeMmaps, `mapped, `effects
      ensures Valid() && Here() == AuxMapped(old(Here()), which, parent, size, prot, addr)
    {
      var i := FindEmptyMmap();
      if i < 0 {
        return -1;
      }
      assert FreeFlags(MmapFlags(mmaps[..]))[i];
      r := FillAndMap(Job(which, i, size, prot, true, parent), addr);
    }

    method SetupMmap(which: int, size: int, prot: Prot, addr: int, auxToo: Option<AuxRequest>) returns (r: Option<int>)
      requires Valid() && which < NUM_EVENTS
      modifies events, mmaps, `activeMmaps, `mapped, `effects
      ensures Valid() && (Here(), r) == SetUp(old(Here()), which, size, prot, addr, auxToo)
    {
      var i := FindEmptyMmap();
      if i < 0 {
        return Some(-1);
      }
      if which < 0 {
        FillSlot(Job(0, i, size, prot, false, 0));
        return None;
      }
      var result := FillAndMap(Job(which, i, size, prot, false, 0), addr);
      if result == 0 && auxToo.Some? {
        var _ := SetupMmapAux(which, i, auxToo.value.size, auxToo.value.prot, auxToo.value.addr);
      }
      return Some(result);
    }

    /** The arm of mmap_random_event that maps an event picked at random; the pick is not looked at. */
    method MmapRandomEvent(rand: nat, size: int, prot: Prot, addr: int, auxToo: Option<AuxRequest>)
      returns (which: int, r: Option<int>)
      requires Valid()
      modifies events, mmaps, `activeMmaps, `mapped, `effects
      ensures Valid() && Picked(EventFlags(old(events[..])), old(activeEvents), rand, which)
      ensures (Here(), r) == SetUp(old(Here()), which, size, prot, addr, auxToo)
      ensures old(activeEvents) == Count(EventFlags(old(events[..]))) ==>
                (r.None? <==> FreeMmap(old(Now())) >= 0 && old(activeEvents) < 1)
    {
      which := FindRandomActiveEvent(rand);
      r := SetupMmap(which, size, prot, addr, auxToo);
    }

    /** update_read_size, word by word. */
    method UpdateReadSize(i: int) returns (size: int)
      requires Valid() && 0 <= i < NUM_EVENTS
      ensures size == ReadSize(events[i].attr.readFormat, events[i].numberInGroup)
    {
      var format := events[i].attr.readFormat;
      var words := 1;
      if Bits.Test(format, GROUP) {
        if Bits.Test(format, TOTAL_TIME_ENABLED) { words := words + 1; }
        if Bits.Test(format, TOTAL_TIME_RUNNING) { words := words + 1; }
        words := words + (1 + (Flag(format, ID) + Flag(format, LOST)) * events[i].numberInGroup);
      } else {
        if Bits.Test(format, TOTAL_TIME_ENABLED) { words := words + 1; }
        if Bits.Test(format, TOTAL_TIME_RUNNING) { words := words + 1; }
        if Bits.Test(format, ID) { words := words + 1; }
        if Bits.Test(format, LOST) { words := words + 1; }
      }
      return words * 8;
    }

    method TellLeader(j: int)
      requires Valid() && 0 <= j < NUM_EVENTS
      modifies events
      ensures Valid() && events[..] == old(events[..])[j := Joined(old(events[j]))]
    {
      events[j] := events[j].(numberInGroup := events[j].numberInGroup + 1);
      var size := UpdateReadSize(j);
      events[j] := events[j].(readSize := size);
    }

    /** The slot filled and counted. */
    method ActivateSlot(i: int, fd: int, attr: Attr, groupFd: int)
      requires Valid() && 0 <= i < NUM_EVENTS
      modifies events, `activeEvents
      ensures Valid() && Now() == Groups.Activated(old(Now()), i, fd, attr, groupFd)
    {
      events[i] := events[i].(overflows := 0, throttles := 0);
      events[i] := events[i].(attr := attr, groupFd := groupFd);
      events[i] := events[i].(fd := fd);
      events[i] := events[i].(active := true);
      activeEvents := activeEvents + 1;
    }

    /** open_random_event once the kernel has returned fd for the chosen slot; a leader that is named is active. */
    method RecordOpen(i: int, fd: int, attr: Attr, groupFd: int)
      requires Valid() && 0 <= i < NUM_EVENTS
      requires groupFd != -1 ==> Lookup(Groups.Activated(Now(), i, fd, attr, groupFd), groupFd) >= 0
      modifies events, `activeEvents
      ensures Valid() && Now() == Groups.Opened(old(Now()), i, fd, attr, groupFd)
    {
      ActivateSlot(i, fd, attr, groupFd);
      if events[i].groupFd != -1 {
        var j := LookupEvent(events[i].groupFd);
        TellLeader(j);
      }
      events[i] := events[i].(numberInGroup := 1);
      var size := UpdateReadSize(i);
      events[i] := events[i].(readSize := size);
    }

    /** The open of an event that the kernel grants, in the first free slot; with none free nothing happens. */
    method OpenEvent(fd: int, attr: Attr, groupFd: int) returns (i: int)
      requires Valid()
      requires groupFd != -1 && FreeEvent(Now()) >= 0 ==>
                 Lookup(Groups.Activated(Now(), FreeEvent(Now()), fd, attr, groupFd), groupFd) >= 0
      modifies events, `activeEvents
      ensures Valid() && i == FreeEvent(old(Now()))
      ensures Now() == if i < 0 then old(Now()) else Groups.Opened(old(Now()), i, fd, attr, groupFd)
    {
      i := FindEmptyEvent();
      if i < 0 {
        return;
      }
      RecordOpen(i, fd, attr, groupFd);
    }
  }

  // ---- random picks ----

  /** When no operation is under way the pick of a mapping comes up empty exactly if there is none. */
  lemma {:induction false} RandomMmapPickAtRest(start: Machine, moves: seq<Move>, rand: nat, i: int, head: int)
    requires IsStart(start) && CanRun(start, moves) && After(start, moves).pc.Idle?
    requires var t := After(start, moves).w.t; Picked(MmapFlags(t.mmaps), t.activeMmaps, rand, i)
    ensures var t := After(start, moves).w.t;
            (0 <= i < |t.mmaps| && t.mmaps[i].active <==> t.activeMmaps >= 1) && (i == -1 <==> t.activeMmaps < 1)
    ensures var w := After(start, moves).w;
            Linked(w.t) && (i >= 0 ==> CanBegin(w, Unmap(i)) && CanBegin(w, Op.Read(i, head)) && CanBegin(w, Trash(i)))
  {
    StartInv(start);
    RunKeeps(start, moves);
  }

  /** So does the pick of an event, which is handed to setup_mmap unseen. */
  lemma {:induction false} RandomEventPickAtRest(start: Machine, moves: seq<Move>, rand: nat, i: int, unmapFirst: bool)
    requires IsStart(start) && CanRun(start, moves) && After(start, moves).pc.Idle?
    requires var t := After(start, moves).w.t; Picked(EventFlags(t.events), t.activeEvents, rand, i)
    ensures var t := After(start, moves).w.t;
            (0 <= i < |t.events| && t.events[i].active <==> t.activeEvents >= 1) && (i == -1 <==> t.activeEvents < 1)
    ensures var w := After(start, moves).w;
            Linked(w.t) && (i >= 0 ==> CanBegin(w, Close(i, unmapFirst)))
  {
    StartInv(start);
    RunKeeps(start, moves);
  }

  /** Between operations a search finds a descriptor exactly if an active event has it. */
  lemma {:induction false} LookupAtRestIff(start: Machine, moves: seq<Move>, fd: int)
    requires IsStart(start) && CanRun(start, moves) && After(start, moves).pc.Idle?
    ensures var t := After(start, moves).w.t;
            Lookup(t, fd) >= 0 <==> exists i :: 0 <= i < |t.events| && t.events[i].active && t.events[i].fd == fd
  {
    StartInv(start);
    RunKeeps(start, moves);
    var t := After(start, moves).w.t;
    if i :| 0 <= i < |t.events| && t.events[i].active && t.events[i].fd == fd {
      EverySlotIsPicked(EventFlags(t.events), i);
      assert FdFlags(t.events, fd)[i];
    }
  }

  /** The two stores of the hook hit the parent's page, and only if there is one that can be written. */
  lemma {:induction false} HooksStoreInParent(t: Tables, job: Job)
    requires 0 <= job.parent < |t.mmaps|
    ensures var page := t.mmaps[job.parent];
            Hooks(t, job) == if job.aux && page.addr != NULL && page.prot.write then [Store(page.addr), Store(page.addr)] else []
  {
  }

  /** Each active event is what exactly one x below the count picks. */
  lemma {:induction false} EveryEventIsPickedOnce(start: Machine, moves: seq<Move>, i: nat)
    requires IsStart(start) && CanRun(start, moves) && After(start, moves).pc.Idle?
    requires var t := After(start, moves).w.t; i < |t.events| && t.events[i].active
    ensures var t := After(start, moves).w.t;
            exists x: nat :: x < t.activeEvents && Picks(EventFlags(t.events), x, i)
                             && forall y: nat :: Picks(EventFlags(t.events), y, i) ==> y == x
  {
    CountsHoldAtRest(start, moves);
    var flags := EventFlags(After(start, moves).w.t.events);
    EverySlotIsPicked(flags, i);
    assert Picks(flags, Rank(flags, i), i);
  }
}
