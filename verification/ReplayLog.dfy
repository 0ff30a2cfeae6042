/**
  replay_log: the log interpreted directly, with a table from logged descriptors to the
  replay's own.  The table is a simulation of the fuzzer's open descriptors, and the
  calls made are those the log means; so both back ends agree.
*/
module ReplayLog {
  import opened Scanf
  import opened TraceLog
  import opened TraceModel
  import LogToCode

  const FD_REMAP_SIZE := 2048

  datatype State = State(remap: seq<int>, kernel: Kernel, originalPid: int, forked: bool) {
    function Fd(f: int): int { if 0 <= f < |remap| then remap[f] else -1 }
    function Name(f: int): TraceModel.Fd { kernel.Name(Fd(f)) }
  }

  /** ioctl_event: what is passed to the kernel. */
  function IoctlArg(s: State, req: int, arg: int64): Arg {
    if req == IOC_SET_OUTPUT then TakenAs(s.kernel, req, if arg == -1 then arg else s.Fd(arg))
    else if req == IOC_ID then IdAt
    else if req == IOC_PERIOD then PeriodAt(arg)
    else Value(arg)
  }

  /** The effect of one line, every open succeeding. */
  function Step(s: State, line: Line, alloc: Alloc): (State, seq<Sys>) {
    match line
    case PidLine(pid) => (s.(originalPid := pid), [])
    case OpenLine(text) =>
      (match ParseOpenEvent(text)
       case Failed => (s, [])
       case Parsed(e) =>
         var group := if e.groupFd == -1 then -1 else s.Fd(e.groupFd);
         var (fd, k) := OpenFd(s.kernel, alloc);
         var call := SysOpen(s.kernel.opens, e.attr, WhoIs(e.pid, s.originalPid), e.cpu, s.kernel.Name(group), e.flags);
         (s.(remap := if 0 <= e.fd < |s.remap| then s.remap[e.fd := fd] else s.remap, kernel := k), [call]))
    case CloseLine(fd) =>
      if s.Fd(fd) == -1 then (s, [])
      else (s.(remap := s.remap[fd := -1], kernel := CloseFd(s.kernel, s.Fd(fd))), [SysClose(s.Name(fd))])
    case MmapLine(size, fd) => if s.Fd(fd) == -1 then (s, []) else (s, [SysMmap(size, s.Name(fd))])
    case ReadLine(fd, size) =>
      // compared with a size_t: a negative size is too large
      if size < 0 || size > MAX_READ then (s, []) else (s, [SysRead(s.Name(fd), size)])
    case PrctlLine(enable) => (s, [SysPrctl(enable != 0)])
    case ForkLine(enable) => if enable != 0 then (s.(forked := true), [SysFork]) else (s, [SysKill, SysWait])
    case OverflowLine(fd) =>
      (s, [SysSigaction, SysFcntl(s.Name(fd), SetFlags), SysFcntl(s.Name(fd), SetSignal), SysFcntl(s.Name(fd), SetOwner)])
    case IoctlLine(fd, req, arg) => (s, [SysIoctl(s.Name(fd), req, IoctlArg(s, req, arg))])
  }

  function Run(s: State, lines: seq<Line>, alloc: Alloc): (State, seq<Sys>)
    decreases |lines|
  {
    if lines == [] then (s, [])
    else
      var (s1, t1) := Step(s, lines[0], alloc);
      var (s2, t2) := Run(s1, lines[1..], alloc);
      (s2, t1 + t2)
  }

  /** The whole replay: after the lines a child that was ever forked is killed. */
  function Replayed(s: State, lines: seq<Line>, alloc: Alloc): (State, seq<Sys>) {
    var (s1, t) := Run(s, lines, alloc);
    (s1, t + if s1.forked then [SysKill] else [])
  }

  function Unmapped(): (r: seq<int>)
    ensures |r| == FD_REMAP_SIZE && forall i :: 0 <= i < |r| ==> r[i] == -1
  {
    seq(FD_REMAP_SIZE, _ => -1)
  }

  const FRESH_STATE: State := State(Unmapped(), Kernel(map[], 0), -1, false)

  // ---- the table simulates the fuzzer's descriptors ----

  function Table(remap: seq<int>): map<int, int> {
    map f | 0 <= f < |remap| && remap[f] != -1 :: remap[f]
  }

  /** The table is defined exactly for the live descriptors, and each entry is the replay's descriptor for the same event. */
  ghost predicate Simulates(l: Log, s: State) {
    && |s.remap| == FD_REMAP_SIZE && s.originalPid == l.originalPid
    && (forall f :: f in Table(s.remap) <==> f in l.live)
    && Follows(l, Table(s.remap), s.kernel)
  }

  lemma {:induction false} SimulatesName(l: Log, s: State, f: int)
    requires Simulates(l, s) && f in l.live
    ensures 0 <= f < |s.remap| && s.Fd(f) == Table(s.remap)[f] != -1 && s.Name(f) == l.Name(f)
  {
  }

  /** Storing an entry in the array stores it in the table. */
  lemma {:induction false} TableStore(remap: seq<int>, f: int, fd: int)
    requires 0 <= f < |remap| && fd != -1
    ensures Table(remap[f := fd]) == Table(remap)[f := fd]
  {
  }

  /** The leader, as the kernel of the replay and the log name it. */
  lemma {:induction false} SimulatesGroup(l: Log, s: State, groupFd: int)
    requires Simulates(l, s) && (groupFd == -1 || groupFd in l.live)
    ensures s.kernel.Name(if groupFd == -1 then -1 else s.Fd(groupFd)) == l.Name(groupFd)
  {
  }

  lemma {:induction false} SimulatesOpen(l: Log, s: State, line: Line, alloc: Alloc)
    requires Simulates(l, s) && line.OpenLine? && LineOk(l, line) && Fresh(alloc)
    ensures var (s1, t) := Step(s, line, alloc); t == Meaning(l, line) && Simulates(After(l, line), s1)
  {
    var e := LoggedParses(line.text);
    var s1 := Step(s, line, alloc).0;
    SimulatesGroup(l, s, e.groupFd);
    FollowsOpen(l, Table(s.remap), s.kernel, alloc, e.fd, line, e);
    TableStore(s.remap, e.fd, OpenFd(s.kernel, alloc).0);
    assert s1.remap == s.remap[e.fd := OpenFd(s.kernel, alloc).0];
  }

  lemma {:induction false} SimulatesClose(l: Log, s: State, fd: int, alloc: Alloc)
    requires Simulates(l, s) && fd in l.live
    ensures var (s1, t) := Step(s, CloseLine(fd), alloc);
            t == Meaning(l, CloseLine(fd)) && Simulates(After(l, CloseLine(fd)), s1)
  {
  }

  lemma {:induction false} SimulatesIoctl(l: Log, s: State, fd: int, req: int, arg: int64, alloc: Alloc)
    requires Simulates(l, s) && fd in l.live && (req == IOC_SET_OUTPUT ==> arg == -1 || arg in l.live)
    ensures Step(s, IoctlLine(fd, req, arg), alloc) == (s, Meaning(l, IoctlLine(fd, req, arg)))
  {
  }

  lemma {:induction false} StepFollowsLog(l: Log, s: State, line: Line, alloc: Alloc)
    requires Simulates(l, s) && LineOk(l, line) && Fresh(alloc)
    ensures var (s1, t) := Step(s, line, alloc); t == Meaning(l, line) && Simulates(After(l, line), s1)
  {
    match line
    case OpenLine(_) => SimulatesOpen(l, s, line, alloc);
    case CloseLine(fd) => SimulatesClose(l, s, fd, alloc);
    case MmapLine(_, fd) => SimulatesName(l, s, fd);
    case ReadLine(fd, _) => SimulatesName(l, s, fd);
    case OverflowLine(fd) => SimulatesName(l, s, fd);
    case IoctlLine(fd, req, arg) => SimulatesIoctl(l, s, fd, req, arg, alloc);
    case _ =>
  }

  lemma {:induction false} RunFollowsLog(l: Log, s: State, lines: seq<Line>, alloc: Alloc)
    requires Simulates(l, s) && LogOk(l, lines) && Fresh(alloc)
    ensures Run(s, lines, alloc).1 == Trace(l, lines)
    ensures Simulates(AfterAll(l, lines), Run(s, lines, alloc).0)
    decreases |lines|
  {
    if lines != [] {
      StepFollowsLog(l, s, lines[0], alloc);
      RunFollowsLog(After(l, lines[0]), Step(s, lines[0], alloc).0, lines[1..], alloc);
    }
  }

  lemma {:induction false} StartSimulates()
    ensures Simulates(EMPTY_LOG, FRESH_STATE)
  {
  }

  lemma {:induction false} LogOkPrefix(l: Log, lines: seq<Line>, n: nat)
    requires LogOk(l, lines) && n <= |lines|
    ensures LogOk(l, lines[..n])
    decreases n
  {
    if n > 0 {
      LogOkPrefix(After(l, lines[0]), lines[1..], n - 1);
      assert lines[..n][1..] == lines[1..][..n - 1];
    }
  }

  /**
    After every prefix of a logged run the table is defined exactly for the original
    descriptors then open, sends each to an open replay descriptor of the event opened
    for it, and sends no two to the same one.
   */
  lemma {:induction false} TableSimulatesEveryPrefix(lines: seq<Line>, n: nat, alloc: Alloc)
    requires LogOk(EMPTY_LOG, lines) && n <= |lines| && Fresh(alloc)
    ensures var l, s := AfterAll(EMPTY_LOG, lines[..n]), Run(FRESH_STATE, lines[..n], alloc).0;
            && |s.remap| == FD_REMAP_SIZE
            && (forall f :: 0 <= f < FD_REMAP_SIZE ==> (s.remap[f] != -1 <==> f in l.live))
            && (forall f :: f in l.live ==>
                  0 <= f < FD_REMAP_SIZE && s.remap[f] in s.kernel.open && s.kernel.open[s.remap[f]] == l.live[f])
            && (forall f, g :: f in l.live && g in l.live && f != g ==> s.remap[f] != s.remap[g])
  {
    StartSimulates();
    LogOkPrefix(EMPTY_LOG, lines, n);
    RunFollowsLog(EMPTY_LOG, FRESH_STATE, lines[..n], alloc);
    var l, s := AfterAll(EMPTY_LOG, lines[..n]), Run(FRESH_STATE, lines[..n], alloc).0;
    forall f | 0 <= f < FD_REMAP_SIZE
      ensures s.remap[f] != -1 <==> f in l.live
    {
      assert f in Table(s.remap) <==> f in l.live;
    }
    forall f | f in l.live
      ensures 0 <= f < FD_REMAP_SIZE && s.remap[f] in s.kernel.open && s.kernel.open[s.remap[f]] == l.live[f]
    {
      SimulatesName(l, s, f);
    }
  }

  /** Compiling the log and replaying it make the same calls, whatever descriptors the two kernels hand out. */
  lemma {:induction false} BackEndsAgree(lines: seq<Line>, allocA: Alloc, allocB: Alloc)
    requires LogOk(EMPTY_LOG, lines) && Fresh(allocA) && Fresh(allocB)
    ensures LogToCode.Run(LogToCode.LOADED, LogToCode.CompileAll(lines, -1), allocA).1
            == Run(FRESH_STATE, lines, allocB).1 == Trace(EMPTY_LOG, lines)
  {
    LogToCode.ProgramMakesLoggedCalls(lines, allocA);
    StartSimulates();
    RunFollowsLog(EMPTY_LOG, FRESH_STATE, lines, allocB);
  }

  // ---- where the two back ends part ----

  predicate Forks(line: Line) { line.ForkLine? && line.enable != 0 }

  lemma {:induction false} RunForks(s: State, lines: seq<Line>, alloc: Alloc)
    ensures Run(s, lines, alloc).0.forked <==> s.forked || exists i :: 0 <= i < |lines| && Forks(lines[i])
    decreases |lines|
  {
    if lines == [] {
    } else {
      var s1 := Step(s, lines[0], alloc).0;
      RunForks(s1, lines[1..], alloc);
      assert s1.forked <==> s.forked || Forks(lines[0]);
      assert forall i :: 0 < i < |lines| ==> lines[i] == lines[1..][i - 1];
      if i :| 0 <= i < |lines[1..]| && Forks(lines[1..][i]) { assert Forks(lines[i + 1]); }
    }
  }

  /**
    As whole programs they make the same calls exactly for logs in which nothing is forked:
    only the replayer kills the child at the end.
   */
  lemma {:induction false} WholeProgramsAgreeIff(lines: seq<Line>, allocA: Alloc, allocB: Alloc)
    requires LogOk(EMPTY_LOG, lines) && Fresh(allocA) && Fresh(allocB)
    ensures LogToCode.Run(LogToCode.LOADED, LogToCode.CompileAll(lines, -1), allocA).1 == Replayed(FRESH_STATE, lines, allocB).1
            <==> forall i :: 0 <= i < |lines| ==> !Forks(lines[i])
  {
    BackEndsAgree(lines, allocA, allocB);
    RunForks(FRESH_STATE, lines, allocB);
    var t := Trace(EMPTY_LOG, lines);
    assert |t + [SysKill]| == |t| + 1 && t + [] == t;
  }

  /** Both runs keep step with the log l. */
  ghost predicate InStep(l: Log, m: LogToCode.Memory, s: State) {
    Follows(l, m.fd, m.kernel) && Simulates(l, s)
  }

  /** ENABLE, DISABLE and RESET agree exactly for arguments that survive the cut to int. */
  lemma {:induction false} GroupIoctlAgreesIff(l: Log, m: LogToCode.Memory, s: State, fd: int, req: int, arg: int64, alloc: Alloc)
    requires InStep(l, m, s) && fd in l.live && (req == IOC_ENABLE || req == IOC_DISABLE || req == IOC_RESET)
    ensures (LogToCode.Run(m, LogToCode.Compile(IoctlLine(fd, req, arg), l.originalPid), alloc).1
             == Step(s, IoctlLine(fd, req, arg), alloc).1) <==> Int32(arg)
  {
    CompiledGroupIoctl(m, fd, req, arg, l.originalPid, alloc);
    FollowsNames(l, m.fd, m.kernel, fd);
    SimulatesName(l, s, fd);
    SignedFits(32, Pattern(32, arg));
    if Int32(arg) { SignedOfPattern(32, arg); }
    assert Step(s, IoctlLine(fd, req, arg), alloc).1 == [SysIoctl(s.Name(fd), req, Value(arg))];
  }

  /** The translator reads the argument into an int. */
  lemma {:induction false} CompiledGroupIoctl(m: LogToCode.Memory, fd: int, req: int, arg: int64, originalPid: int, alloc: Alloc)
    requires TakesGroupFlag(req)
    ensures LogToCode.Run(m, LogToCode.Compile(IoctlLine(fd, req, arg), originalPid), alloc).1
            == [SysIoctl(m.Name(fd), req, Value(LogToCode.AsInt(arg)))]
  {
    var cut := LogToCode.AsInt(arg);
    LogToCode.GroupArgValue(cut);
    LogToCode.RunOne(m, LogToCode.IoctlStmt(fd, req, LogToCode.Number(LogToCode.GroupArg(cut))), alloc);
  }

  /** A read is replayed exactly when its size fits the replayer's buffer; the compiled program always reads. */
  lemma {:induction false} ReadAgreesIff(l: Log, m: LogToCode.Memory, s: State, fd: int, size: int, alloc: Alloc)
    requires InStep(l, m, s) && fd in l.live
    ensures (LogToCode.Run(m, LogToCode.Compile(ReadLine(fd, size), l.originalPid), alloc).1
             == Step(s, ReadLine(fd, size), alloc).1) <==> 0 <= size <= 65536 * 8
  {
  }
}
