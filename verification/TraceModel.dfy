/**
  The trace log as a program: its lines, the kernel that serves them, and what the log
  means.  File descriptors differ from run to run, so system calls name an event by the
  number of the open that created it.
*/
module TraceModel {
  import opened Attr
  import opened TraceLog
  import opened Scanf

  /** A line, read by sscanf except for the attr of an open line, which both readers parse alike. */
  datatype Line =
    | PidLine(pid: int)                          // G
    | OpenLine(text: string)                     // O
    | CloseLine(fd: int)                         // C
    | MmapLine(size: int, fd: int)               // M
    | ReadLine(fd: int, size: int)               // R
    | PrctlLine(enable: int)                     // P
    | ForkLine(enable: int)                      // F
    | OverflowLine(fd: int)                      // o
    | IoctlLine(fd: int, req: int, arg: int64)   // I

  type int64 = v: int | -0x8000_0000_0000_0000 <= v < 0x8000_0000_0000_0000

  /** ioctl requests, as the int they are scanned into. */
  const IOC_ENABLE: int := 9216
  const IOC_DISABLE: int := 9217
  const IOC_RESET: int := 9219
  const IOC_PERIOD: int := 0x4008_2404
  const IOC_SET_OUTPUT: int := 9221
  const IOC_ID: int := 0x8008_2407 - 0x1_0000_0000

  /** _IO, _IOW and _IOR: direction, size of the argument, the letter '$' and a number. */
  function Ioc(direction: nat, size: nat, nr: nat): nat {
    direction * 0x4000_0000 + size * 0x1_0000 + ('$' as int) * 0x100 + nr
  }

  const IOC_NONE := 0
  const IOC_WRITE := 1
  const IOC_READ := 2

  /** The requests are those of the header; the one for reading an id is negative as an int. */
  lemma {:induction false} RequestsAsDocumented()
    ensures IOC_ENABLE == Ioc(IOC_NONE, 0, 0) && IOC_DISABLE == Ioc(IOC_NONE, 0, 1) && IOC_RESET == Ioc(IOC_NONE, 0, 3)
    ensures IOC_PERIOD == Ioc(IOC_WRITE, 8, 4) && IOC_SET_OUTPUT == Ioc(IOC_NONE, 0, 5)
    ensures Pattern(32, IOC_ID) == Ioc(IOC_READ, 8, 7)
  {
  }

  predicate TakesGroupFlag(req: int) { req == IOC_ENABLE || req == IOC_DISABLE || req == IOC_RESET }

  datatype Fd = Event(id: nat) | Raw(n: int)
  datatype Who = Self | Other(pid: int)
  datatype Arg = Value(v: int) | PeriodAt(v: int) | IdAt | FdArg(fd: Fd)
  datatype Fcntl = SetFlags | SetSignal | SetOwner

  /** A system call with symbolic descriptors. */
  datatype Sys =
    | SysOpen(id: nat, attr: AttrMap, who: Who, cpu: int, group: Fd, flags: nat)
    | SysClose(fd: Fd)
    | SysMmap(size: int, fd: Fd)
    | SysRead(fd: Fd, size: int)
    | SysIoctl(fd: Fd, req: int, arg: Arg)
    | SysPrctl(enable: bool)
    | SysFork | SysKill | SysWait
    | SysSigaction
    | SysFcntl(fd: Fd, cmd: Fcntl)

  function WhoIs(pid: int, originalPid: int): Who { if pid == originalPid then Self else Other(pid) }

  // ---- a kernel ----

  /** The descriptors a process has open, with the number of the open behind each. */
  datatype Kernel = Kernel(open: map<int, nat>, opens: nat) {
    function Name(fd: int): Fd { if fd in open then Event(open[fd]) else Raw(fd) }
  }

  /** Some way of choosing the descriptor for the n-th open. */
  type Alloc = (nat, set<int>) -> int

  ghost predicate Fresh(alloc: Alloc) {
    forall n: nat, used: set<int> :: alloc(n, used) > 2 && alloc(n, used) !in used
  }

  function OpenFd(k: Kernel, alloc: Alloc): (r: (int, Kernel)) {
    var fd := alloc(k.opens, k.open.Keys);
    (fd, Kernel(k.open[fd := k.opens], k.opens + 1))
  }

  /** How the kernel takes a numeric ioctl argument: for SET_OUTPUT it is a descriptor. */
  function TakenAs(k: Kernel, req: int, v: int): Arg {
    if req == IOC_SET_OUTPUT then FdArg(k.Name(v)) else Value(v)
  }

  function CloseFd(k: Kernel, fd: int): Kernel { k.(open := k.open - {fd}) }

  // ---- what the log means ----

  /** Which logged descriptors are open, and the open behind each. */
  datatype Log = Log(live: map<int, nat>, opens: nat, originalPid: int) {
    function Name(fd: int): Fd { if fd in live then Event(live[fd]) else Raw(fd) }
  }

  const EMPTY_LOG: Log := Log(map[], 0, -1)

  ghost function After(s: Log, line: Line): Log {
    match line
    case PidLine(pid) => s.(originalPid := pid)
    case OpenLine(text) =>
      (match ParseOpenEvent(text)
       case Failed => s
       case Parsed(e) => s.(live := s.live[e.fd := s.opens], opens := s.opens + 1))
    case CloseLine(fd) => s.(live := s.live - {fd})
    case _ => s
  }

  /** The system calls the fuzzer made when it wrote the line. */
  ghost function Meaning(s: Log, line: Line): seq<Sys> {
    match line
    case PidLine(_) => []
    case OpenLine(text) =>
      (match ParseOpenEvent(text)
       case Failed => []
       case Parsed(e) =>
         [SysOpen(s.opens, e.attr, WhoIs(e.pid, s.originalPid), e.cpu, s.Name(e.groupFd), e.flags)])
    case CloseLine(fd) => [SysClose(s.Name(fd))]
    case MmapLine(size, fd) => [SysMmap(size, s.Name(fd))]
    case ReadLine(fd, size) => [SysRead(s.Name(fd), size)]
    case PrctlLine(enable) => [SysPrctl(enable != 0)]
    case ForkLine(enable) => if enable != 0 then [SysFork] else [SysKill, SysWait]
    case OverflowLine(fd) =>
      [SysSigaction, SysFcntl(s.Name(fd), SetFlags), SysFcntl(s.Name(fd), SetSignal), SysFcntl(s.Name(fd), SetOwner)]
    case IoctlLine(fd, req, arg) =>
      [SysIoctl(s.Name(fd), req,
                if req == IOC_SET_OUTPUT then FdArg(s.Name(arg))
                else if req == IOC_PERIOD then PeriodAt(arg)
                else if req == IOC_ID then IdAt
                else Value(arg))]
  }

  const NUM_VALUES := 1024
  const MAX_READ := 524288

  /** The line was written by the fuzzer for an event that it opens. */
  ghost predicate IsLogged(text: string) {
    exists e: OpenEvent :: ValidEvent(e) && text == LogLine(e)
  }

  ghost predicate LineOk(s: Log, line: Line) {
    match line
    case OpenLine(text) =>
      && IsLogged(text)
      && (match ParseOpenEvent(text)
          case Failed => true
          case Parsed(e) => 0 <= e.fd < NUM_VALUES && e.fd !in s.live && (e.groupFd == -1 || e.groupFd in s.live))
    case CloseLine(fd) => fd in s.live
    case MmapLine(_, fd) => fd in s.live
    case ReadLine(fd, size) => fd in s.live && 0 <= size <= MAX_READ
    case OverflowLine(fd) => fd in s.live
    case IoctlLine(fd, req, arg) =>
      && fd in s.live
      && (TakesGroupFlag(req) ==> Int32(arg))
      && (req == IOC_SET_OUTPUT ==> arg == -1 || arg in s.live)
    case _ => true
  }

  /** Lines that name only live descriptors, with arguments as the fuzzer logs them. */
  ghost predicate LogOk(s: Log, lines: seq<Line>)
    decreases |lines|
  {
    lines != [] ==> LineOk(s, lines[0]) && LogOk(After(s, lines[0]), lines[1..])
  }

  ghost function Trace(s: Log, lines: seq<Line>): seq<Sys>
    decreases |lines|
  {
    if lines == [] then [] else Meaning(s, lines[0]) + Trace(After(s, lines[0]), lines[1..])
  }

  ghost function AfterAll(s: Log, lines: seq<Line>): Log
    decreases |lines|
  {
    if lines == [] then s else AfterAll(After(s, lines[0]), lines[1..])
  }

  lemma {:induction false} LoggedParses(text: string) returns (e: OpenEvent)
    requires IsLogged(text)
    ensures ValidEvent(e) && text == LogLine(e) && ParseOpenEvent(text) == Parsed(e)
  {
    e :| ValidEvent(e) && text == LogLine(e);
    ParseInvertsLog(e);
  }

  // ---- a run that follows the log with descriptors of its own ----

  /** fds maps each live logged descriptor to the run's descriptor for the same event. */
  ghost predicate Follows(s: Log, fds: map<int, int>, k: Kernel) {
    && k.opens == s.opens && (forall r :: r in k.open ==> r > 2)
    && (forall f :: f in s.live ==> 0 <= f < NUM_VALUES && s.live[f] < s.opens)
    && (forall f, g :: f in s.live && g in s.live && f != g ==> s.live[f] != s.live[g])
    && (forall f :: f in s.live ==> f in fds && fds[f] in k.open && k.open[fds[f]] == s.live[f])
  }

  lemma {:induction false} FollowsNames(s: Log, fds: map<int, int>, k: Kernel, f: int)
    requires Follows(s, fds, k) && f in s.live
    ensures f in fds && k.Name(fds[f]) == s.Name(f)
  {
  }

  /** -1 names nothing in any run. */
  lemma {:induction false} MinusOneIsRaw(s: Log, fds: map<int, int>, k: Kernel)
    requires Follows(s, fds, k)
    ensures -1 !in s.live && k.Name(-1) == Raw(-1) == s.Name(-1)
  {
  }

  lemma {:induction false} FollowsOpen(s: Log, fds: map<int, int>, k: Kernel, alloc: Alloc, f: int, line: Line, e: OpenEvent)
    requires Follows(s, fds, k) && Fresh(alloc) && f !in s.live && 0 <= f < NUM_VALUES
    requires line.OpenLine? && ParseOpenEvent(line.text) == Parsed(e) && e.fd == f
    ensures Follows(After(s, line), fds[f := OpenFd(k, alloc).0], OpenFd(k, alloc).1)
  {
    var r := alloc(k.opens, k.open.Keys);
    FollowsMore(s, fds, k, f, r);
    assert After(s, line) == s.(live := s.live[f := s.opens], opens := s.opens + 1);
  }

  /** One more descriptor, new to the kernel. */
  lemma {:induction false} FollowsMore(s: Log, fds: map<int, int>, k: Kernel, f: int, r: int)
    requires Follows(s, fds, k) && f !in s.live && 0 <= f < NUM_VALUES && r > 2 && r !in k.open
    ensures Follows(s.(live := s.live[f := s.opens], opens := s.opens + 1), fds[f := r], Kernel(k.open[r := k.opens], k.opens + 1))
  {
  }

  lemma {:induction false} FollowsClose(s: Log, fds: map<int, int>, k: Kernel, f: int)
    requires Follows(s, fds, k) && f in s.live
    ensures Follows(After(s, CloseLine(f)), fds, CloseFd(k, fds[f]))
  {
  }
}
