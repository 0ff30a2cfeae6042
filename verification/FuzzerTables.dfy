/**
  The fuzzer's event and mmap tables, what a signal handler does to them, and what the
  operations that fill and empty slots leave behind.
*/
module FuzzerTables {
  import opened Slots
  import Bits

  const NUM_EVENTS := 100000
  const MAX_MMAPS := 1024
  const MAP_FAILED := -1
  const NULL := 0
  const PERF_TYPE_BREAKPOINT := 5
  const MAX_OVERFLOWS := 10000
  const MAX_THROTTLES := 10

  datatype Attr = Attr(kind: nat, samplePeriod: nat, readFormat: nat)

  datatype Event = Event(active: bool, fd: int, attr: Attr, groupFd: int, readSize: int, numberInGroup: int,
                         mmap: int, lastRefresh: int, overflows: int, throttles: int)

  datatype Prot = Prot(read: bool, write: bool, exec: bool)

  datatype Mapping = Mapping(active: bool, addr: int, size: int, fd: int, prot: Prot, head: int, auxHead: int,
                             aux: bool, parent: int, whichEvent: int)

  datatype Tables = Tables(events: seq<Event>, mmaps: seq<Mapping>, activeEvents: int, activeMmaps: int, nextRefresh: int)

  // ---- the size of a read ----

  const TOTAL_TIME_ENABLED := 0
  const TOTAL_TIME_RUNNING := 1
  const ID := 2
  const GROUP := 3
  const LOST := 4

  function Flag(format: nat, bit: nat): int { if Bits.Test(format, bit) then 1 else 0 }

  /** update_read_size */
  function ReadSize(format: nat, members: int): int {
    var times := Flag(format, TOTAL_TIME_ENABLED) + Flag(format, TOTAL_TIME_RUNNING);
    if Bits.Test(format, GROUP) then 8 * (1 + times + (1 + (Flag(format, ID) + Flag(format, LOST)) * members))
    else 8 * (1 + times + Flag(format, ID) + Flag(format, LOST))
  }

  /** One more follower for the event in slot j. */
  function Joined(e: Event): Event {
    e.(numberInGroup := e.numberInGroup + 1, readSize := ReadSize(e.attr.readFormat, e.numberInGroup + 1))
  }

  // ---- which slots a search looks for ----

  function EventFlags(events: seq<Event>): (r: seq<bool>)
    ensures |r| == |events| && forall i :: 0 <= i < |r| ==> r[i] == events[i].active
  {
    seq(|events|, i requires 0 <= i < |events| => events[i].active)
  }

  function SamplingFlags(events: seq<Event>): (r: seq<bool>)
    ensures |r| == |events| && forall i :: 0 <= i < |r| ==> r[i] == (events[i].active && events[i].attr.samplePeriod != 0)
  {
    seq(|events|, i requires 0 <= i < |events| => events[i].active && events[i].attr.samplePeriod != 0)
  }

  function BreakpointFlags(events: seq<Event>): (r: seq<bool>)
    ensures |r| == |events|
    ensures forall i :: 0 <= i < |r| ==> r[i] == (events[i].active && events[i].attr.kind == PERF_TYPE_BREAKPOINT)
  {
    seq(|events|, i requires 0 <= i < |events| => events[i].active && events[i].attr.kind == PERF_TYPE_BREAKPOINT)
  }

  function FdFlags(events: seq<Event>, fd: int): (r: seq<bool>)
    ensures |r| == |events| && forall i :: 0 <= i < |r| ==> r[i] == (events[i].active && events[i].fd == fd)
  {
    seq(|events|, i requires 0 <= i < |events| => events[i].active && events[i].fd == fd)
  }

  function MmapFlags(mmaps: seq<Mapping>): (r: seq<bool>)
    ensures |r| == |mmaps| && forall i :: 0 <= i < |r| ==> r[i] == mmaps[i].active
  {
    seq(|mmaps|, i requires 0 <= i < |mmaps| => mmaps[i].active)
  }

  function FreeFlags(flags: seq<bool>): (r: seq<bool>)
    ensures |r| == |flags| && forall i :: 0 <= i < |r| ==> r[i] == !flags[i]
  {
    seq(|flags|, i requires 0 <= i < |flags| => !flags[i])
  }

  /** lookup_event */
  function Lookup(t: Tables, fd: int): (r: int)
    ensures r == -1 || (0 <= r < |t.events| && t.events[r].active && t.events[r].fd == fd)
  {
    if t.activeEvents < 1 then -1 else First(FdFlags(t.events, fd))
  }

  // ---- the overflow handler ----

  /** What the handler does outside the tables: calls on a descriptor, and loads and stores in control pages. */
  datatype Effect = Disable(fd: int) | Load(addr: int) | Store(addr: int) | Refresh(fd: int, n: int) | GiveUp(fd: int)

  /** The kernel's part in one run of the handler. */
  datatype Replies = Replies(disable: int, head: int, refresh: int)

  /** mmaps[i] can be read through by a handler. */
  predicate Readable(m: Mapping) {
    m.prot.read && m.active && m.addr != MAP_FAILED && m.size != 0 && m.addr != NULL
  }

  /** The loads and stores of perf_mmap_read, and the slots it leaves. */
  function MmapRead(mmaps: seq<Mapping>, which: int, head: int): (r: (seq<Mapping>, seq<Effect>))
    requires 0 <= which < |mmaps| && 0 <= mmaps[which].parent < |mmaps|
    ensures |r.0| == |mmaps|
  {
    var m := mmaps[which];
    var page := if m.aux then mmaps[m.parent] else m;
    if !m.prot.read || !Readable(page) then (mmaps, [])
    else if !page.prot.write then (mmaps, [Load(page.addr)])
    else (mmaps[which := if m.aux then m.(auxHead := head) else m.(head := head)], [Load(page.addr), Store(page.addr)])
  }

  /** Slot numbers kept in the tables are in range. */
  ghost predicate Linked(t: Tables) {
    && |t.events| == NUM_EVENTS && |t.mmaps| == MAX_MMAPS
    && (forall i :: 0 <= i < NUM_EVENTS ==> 0 <= t.events[i].mmap < MAX_MMAPS)
    && (forall i :: 0 <= i < MAX_MMAPS ==> 0 <= t.mmaps[i].parent < MAX_MMAPS)
  }

  /** our_handler for a signal from fd, when no other run of it is under way. */
  ghost function Handle(t: Tables, fd: int, k: Replies): (Tables, seq<Effect>)
    requires Linked(t)
  {
    var i := Lookup(t, fd);
    if k.disable < 0 || i < 0 then (t, [Disable(fd)])
    else
      var e := t.events[i];
      var n := e.overflows + 1;
      if n > MAX_OVERFLOWS then
        var e1 := e.(overflows := 0, throttles := e.throttles + 1);
        (t.(events := t.events[i := e1], nextRefresh := 0),
         [Disable(fd)] + if e1.throttles > MAX_THROTTLES then [GiveUp(e.fd)] else [])
      else
        var (mmaps, touched) := MmapRead(t.mmaps, e.mmap, k.head);
        var e1 := e.(overflows := n, lastRefresh := if k.refresh == 0 then t.nextRefresh else e.lastRefresh);
        (t.(events := t.events[i := e1], mmaps := mmaps), [Disable(fd)] + touched + [Refresh(fd, t.nextRefresh)])
  }

  // ---- the operations, run to their end ----

  /** The tables and the pages mapped, with their protection. */
  datatype World = World(t: Tables, mapped: map<int, Prot>)

  /** A request to mmap: the event, the slot chosen for it, and the kernel's answer. */
  datatype Job = Job(which: int, slot: int, size: int, prot: Prot, aux: bool, parent: int)

  /** The answers of mmap: failure, or a page that nothing else is mapped at. */
  ghost predicate MmapMayAnswer(mapped: map<int, Prot>, size: int, addr: int) {
    addr == MAP_FAILED || (addr >= 0 && addr !in mapped && size > 0)
  }

  /** munmap fails on a length of zero. */
  predicate MunmapSucceeds(size: int) { size != 0 }

  /** The fields a job writes into its slot before it calls mmap. */
  function Filled(m: Mapping, job: Job): Mapping {
    var m1 := m.(addr := MAP_FAILED, prot := job.prot, size := job.size, aux := job.aux);
    if job.aux then m1.(parent := job.parent) else m1
  }

  /** setup_mmap and setup_mmap_aux, once the slot is chosen. */
  function Mapped(w: World, job: Job, addr: int): World
    requires 0 <= job.slot < |w.t.mmaps| && 0 <= job.which < |w.t.events|
  {
    var m := Filled(w.t.mmaps[job.slot], job);
    if addr == MAP_FAILED then w.(t := w.t.(mmaps := w.t.mmaps[job.slot := m]))
    else
      var e := w.t.events[job.which];
      var m1 := m.(addr := addr, fd := e.fd, active := true, whichEvent := if job.aux then m.whichEvent else job.which);
      World(w.t.(mmaps := w.t.mmaps[job.slot := m1], activeMmaps := w.t.activeMmaps + 1,
                 events := w.t.events[job.which := e.(mmap := job.slot)]),
            w.mapped[addr := job.prot])
  }

  /** unmap_mmap */
  function Unmapped(w: World, i: int): World
    requires 0 <= i < |w.t.mmaps|
  {
    var m := w.t.mmaps[i];
    if m.addr == MAP_FAILED then w
    else
      var mmaps := w.t.mmaps[i := m.(active := false, addr := MAP_FAILED)];
      if MunmapSucceeds(m.size) then World(w.t.(mmaps := mmaps, activeMmaps := w.t.activeMmaps - 1), w.mapped - {m.addr})
      else w.(t := w.t.(mmaps := mmaps))
  }

  /** close_event: deactivated first, unmapped before or after the descriptor is closed, counted last. */
  function Closed(w: World, i: int): World
    requires 0 <= i < |w.t.events| && 0 <= w.t.events[i].mmap < |w.t.mmaps|
  {
    var e := w.t.events[i];
    var w1 := Unmapped(w.(t := w.t.(events := w.t.events[i := e.(active := false)])), e.mmap);
    w1.(t := w1.t.(activeEvents := w1.t.activeEvents - 1))
  }
}
