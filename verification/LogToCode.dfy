/**
  log_to_code: each log line becomes C statements, and the emitted program, run on a
  kernel with its own descriptors, makes the system calls that the log means.
*/
module LogToCode {
  import opened Scanf
  import opened Attr
  import opened AttrPrint
  import opened AttrEmit
  import opened TraceLog
  import opened TraceModel
  import Bits

  /** The argument of an emitted ioctl. */
  datatype ArgExpr = Number(e: Expr) | FdAt(index: int) | AddressOfPeriod | AddressOfId

  datatype PidExpr = GetPid | Pid(n: int)
  datatype GroupExpr = MinusOne | Leader(index: int)

  /** Emitted statements; an index is a subscript of fd[] or pe[]. */
  datatype Stmt =
    | MemsetPe(index: int)
    | AssignPe(index: int, assign: Assign)
    | OpenStmt(index: int, pid: PidExpr, cpu: int, group: GroupExpr, flags: Expr)
    | CloseStmt(index: int)
    | MmapStmt(size: int, index: int)
    | ReadStmt(index: int, size: int)
    | PrctlStmt(enable: bool)
    | ForkStmt | KillStmt | WaitStmt | SigactionStmt
    | FcntlStmt(index: int, cmd: Fcntl)
    | SetPeriod(v: int)
    | IoctlStmt(index: int, req: int, arg: ArgExpr)

  // ---- the translators ----

  /** A long long passed to an int parameter. */
  function AsInt(v: int): int { Signed(32, Pattern(32, v)) }

  /** ioctl_arg_print: the flag is named in front of the number that contains it. */
  function GroupArg(arg: int): Expr {
    if Pattern(32, arg) % 2 == 1 then OrE(Name(1), DecLit(arg)) else DecLit(arg)
  }

  function CompileIoctl(fd: int, req: int, arg: int): seq<Stmt> {
    if TakesGroupFlag(req) then [IoctlStmt(fd, req, Number(GroupArg(AsInt(arg))))]
    else if req == IOC_PERIOD then [SetPeriod(arg), IoctlStmt(fd, req, AddressOfPeriod)]
    else if req == IOC_SET_OUTPUT then [IoctlStmt(fd, req, if arg == -1 then Number(DecLit(arg)) else FdAt(arg))]
    else if req == IOC_ID then [IoctlStmt(fd, req, AddressOfId)]
    else [IoctlStmt(fd, req, Number(DecLit(arg)))]
  }

  function PeCode(index: int, code: seq<Assign>): seq<Stmt> {
    if code == [] then [] else [AssignPe(index, code[0])] + PeCode(index, code[1..])
  }

  /** perf_pretty_print_event */
  function CompileOpen(e: OpenEvent, originalPid: int): seq<Stmt>
    requires Valid(e.attr)
  {
    [MemsetPe(e.fd)] + PeCode(e.fd, EmitAttr(e.attr))
    + [OpenStmt(e.fd, if e.pid == originalPid then GetPid else Pid(e.pid), e.cpu,
                if e.groupFd == -1 then MinusOne else Leader(e.groupFd), FlagsExpr(OPEN_FLAGS, e.flags))]
  }

  function Compile(line: Line, originalPid: int): seq<Stmt> {
    match line
    case PidLine(_) => []
    case OpenLine(text) =>
      (match ParseOpenEvent(text)
       case Failed => []
       case Parsed(e) => ParsedIsValid(text); CompileOpen(e, originalPid))
    case CloseLine(fd) => [CloseStmt(fd)]
    case MmapLine(size, fd) => [MmapStmt(size, fd)]
    case ReadLine(fd, size) => [ReadStmt(fd, size)]
    case PrctlLine(enable) => [PrctlStmt(enable != 0)]
    case ForkLine(enable) => if enable != 0 then [ForkStmt] else [KillStmt, WaitStmt]
    case OverflowLine(fd) =>
      [SigactionStmt, FcntlStmt(fd, SetFlags), FcntlStmt(fd, SetSignal), FcntlStmt(fd, SetOwner)]
    case IoctlLine(fd, req, arg) => CompileIoctl(fd, req, arg)
  }

  /** The dispatch loop: a G line changes the pid that later open lines compare with. */
  function CompileAll(lines: seq<Line>, originalPid: int): seq<Stmt>
    decreases |lines|
  {
    if lines == [] then []
    else Compile(lines[0], originalPid)
         + CompileAll(lines[1..], NextOriginal(lines[0], originalPid))
  }

  function NextOriginal(line: Line, originalPid: int): int { if line.PidLine? then line.pid else originalPid }

  lemma {:induction false} CompileHead(code: seq<Stmt>, lines: seq<Line>, originalPid: int)
    requires lines != []
    ensures code + CompileAll(lines, originalPid)
            == (code + Compile(lines[0], originalPid)) + CompileAll(lines[1..], NextOriginal(lines[0], originalPid))
  {
  }

  lemma {:induction false} Regroup(a: seq<Stmt>, b: seq<Stmt>, c: seq<Stmt>)
    ensures a + (b + c) == (a + b) + c
  {
  }

  /** main: the lines are translated one by one. */
  method Translate(lines: seq<Line>) returns (code: seq<Stmt>)
    ensures code == CompileAll(lines, -1)
    ensures forall alloc: Alloc :: LogOk(EMPTY_LOG, lines) && Fresh(alloc) ==> Run(LOADED, code, alloc).1 == Trace(EMPTY_LOG, lines)
  {
    code := [];
    var originalPid := -1;
    var i := 0;
    while i < |lines|
      invariant 0 <= i <= |lines| && code + CompileAll(lines[i..], originalPid) == CompileAll(lines, -1)
    {
      CompileHead(code, lines[i..], originalPid);
      assert lines[i..][1..] == lines[i + 1..];
      code := code + Compile(lines[i], originalPid);
      originalPid := NextOriginal(lines[i], originalPid);
      i := i + 1;
    }
    assert code + [] == code;
    ProgramsMakeLoggedCalls(lines);
  }

  lemma {:induction false} ProgramsMakeLoggedCalls(lines: seq<Line>)
    ensures forall alloc: Alloc ::
              LogOk(EMPTY_LOG, lines) && Fresh(alloc) ==> Run(LOADED, CompileAll(lines, -1), alloc).1 == Trace(EMPTY_LOG, lines)
  {
    forall alloc: Alloc | LogOk(EMPTY_LOG, lines) && Fresh(alloc)
      ensures Run(LOADED, CompileAll(lines, -1), alloc).1 == Trace(EMPTY_LOG, lines)
    {
      ProgramMakesLoggedCalls(lines, alloc);
    }
  }

  // ---- running the emitted program ----

  /** The static variables of the program: fd[] starts at -1 and pe[] at zero. */
  datatype Memory = Memory(fd: map<int, int>, pe: map<int, AttrMap>, period: int, kernel: Kernel) {
    function Fd(i: int): int { if i in fd then fd[i] else -1 }
    function Pe(i: int): AttrMap { if i in pe then pe[i] else Zeroed() }
    function Name(i: int): TraceModel.Fd { kernel.Name(Fd(i)) }
  }

  const LOADED: Memory := Memory(map[], map[], 0, Kernel(map[], 0))

  function ArgValue(m: Memory, req: int, arg: ArgExpr): Arg {
    match arg
    case Number(e) => TakenAs(m.kernel, req, Signed(64, Eval(e)))
    case FdAt(i) => TakenAs(m.kernel, req, m.Fd(i))
    case AddressOfPeriod => PeriodAt(m.period)
    case AddressOfId => IdAt
  }

  /** One statement: the new memory and the system calls it makes. */
  function Step(m: Memory, s: Stmt, alloc: Alloc): (Memory, seq<Sys>) {
    match s
    case MemsetPe(i) => (m.(pe := m.pe[i := Zeroed()]), [])
    case AssignPe(i, a) => (m.(pe := m.pe[i := m.Pe(i)[a.member.Storage() := Stored(a)]]), [])
    case OpenStmt(i, pid, cpu, group, flags) =>
      var who := match pid case GetPid => Self case Pid(n) => Other(n);
      var leader := match group case MinusOne => m.kernel.Name(-1) case Leader(j) => m.Name(j);
      var (newFd, k) := OpenFd(m.kernel, alloc);
      (m.(fd := m.fd[i := newFd], kernel := k),
       [SysOpen(m.kernel.opens, m.Pe(i), who, cpu, leader, Eval(flags))])
    case CloseStmt(i) => (m.(kernel := CloseFd(m.kernel, m.Fd(i))), [SysClose(m.Name(i))])
    case MmapStmt(size, i) => (m, [SysMmap(size, m.Name(i))])
    case ReadStmt(i, size) => (m, [SysRead(m.Name(i), size)])
    case PrctlStmt(enable) => (m, [SysPrctl(enable)])
    case ForkStmt => (m, [SysFork])
    case KillStmt => (m, [SysKill])
    case WaitStmt => (m, [SysWait])
    case SigactionStmt => (m, [SysSigaction])
    case FcntlStmt(i, cmd) => (m, [SysFcntl(m.Name(i), cmd)])
    case SetPeriod(v) => (m.(period := v), [])
    case IoctlStmt(i, req, arg) =>
      (m, [SysIoctl(m.Name(i), req, ArgValue(m, req, arg))])
  }

  function Run(m: Memory, code: seq<Stmt>, alloc: Alloc): (Memory, seq<Sys>)
    decreases |code|
  {
    if code == [] then (m, [])
    else
      var (m1, t1) := Step(m, code[0], alloc);
      var (m2, t2) := Run(m1, code[1..], alloc);
      (m2, t1 + t2)
  }

  // ---- the program makes the calls the log means ----

  lemma {:induction false} RunJoin(m: Memory, c1: seq<Stmt>, c2: seq<Stmt>, alloc: Alloc)
    ensures var (m1, t1) := Run(m, c1, alloc);
            var (m2, t2) := Run(m1, c2, alloc);
            Run(m, c1 + c2, alloc) == (m2, t1 + t2)
    decreases |c1|
  {
    if c1 == [] {
      assert c1 + c2 == c2 && [] + Run(m, c2, alloc).1 == Run(m, c2, alloc).1;
    } else {
      assert (c1 + c2)[1..] == c1[1..] + c2;
      var (m1, t1) := Step(m, c1[0], alloc);
      RunJoin(m1, c1[1..], c2, alloc);
      var (m2, t2) := Run(m1, c1[1..], alloc);
      var t3 := Run(m2, c2, alloc).1;
      assert t1 + (t2 + t3) == (t1 + t2) + t3;
    }
  }

  lemma {:induction false} RunOne(m: Memory, s: Stmt, alloc: Alloc)
    ensures Run(m, [s], alloc) == Step(m, s, alloc)
  {
    var (m1, t1) := Step(m, s, alloc);
    assert Run(m1, [s][1..], alloc) == (m1, []) && t1 + [] == t1;
  }

  lemma {:induction false} RunPeCode(m: Memory, index: int, code: seq<Assign>, alloc: Alloc)
    requires index in m.pe
    ensures Run(m, PeCode(index, code), alloc) == (m.(pe := m.pe[index := Execute(code, m.pe[index])]), [])
    decreases |code|
  {
    if code == [] {
      assert m.pe == m.pe[index := m.pe[index]];
    } else {
      var attr: AttrMap := m.pe[index];
      var next: AttrMap := attr[code[0].member.Storage() := Stored(code[0])];
      var last: AttrMap := Execute(code[1..], next);
      var m1 := m.(pe := m.pe[index := next]);
      var rest := PeCode(index, code[1..]);
      assert PeCode(index, code) == [AssignPe(index, code[0])] + rest;
      assert Step(m, AssignPe(index, code[0]), alloc) == (m1, []);
      assert Execute(code, attr) == last;
      RunPeCode(m1, index, code[1..], alloc);
      assert Run(m1, rest, alloc) == (m.(pe := m.pe[index := last]), []) by {
        assert m1.pe[index := last] == m.pe[index := last];
      }
      RunOne(m, AssignPe(index, code[0]), alloc);
      RunJoin(m, [AssignPe(index, code[0])], rest, alloc);
    }
  }

  /** The statements printed for an open line open the logged event. */
  lemma {:induction false} RunOpen(m: Memory, e: OpenEvent, originalPid: int, alloc: Alloc)
    requires ValidEvent(e)
    ensures var (m1, t) := Run(m, CompileOpen(e, originalPid), alloc);
            && t == [SysOpen(m.kernel.opens, e.attr, WhoIs(e.pid, originalPid), e.cpu,
                             if e.groupFd == -1 then m.kernel.Name(-1) else m.Name(e.groupFd), e.flags)]
            && m1.fd == m.fd[e.fd := OpenFd(m.kernel, alloc).0] && m1.kernel == OpenFd(m.kernel, alloc).1
  {
    var code, i := [MemsetPe(e.fd)] + PeCode(e.fd, EmitAttr(e.attr)), e.fd;
    var open := OpenStmt(i, if e.pid == originalPid then GetPid else Pid(e.pid), e.cpu,
                         if e.groupFd == -1 then MinusOne else Leader(e.groupFd), FlagsExpr(OPEN_FLAGS, e.flags));
    var m1 := RunFill(m, i, e.attr, alloc);
    RunOne(m1, open, alloc);
    RunJoin(m, code, [open], alloc);
    assert [] + Step(m1, open, alloc).1 == Step(m1, open, alloc).1;
    StepOpen(m1, e, originalPid, alloc);
  }

  /** The open itself, pe[] being filled. */
  lemma {:induction false} StepOpen(m: Memory, e: OpenEvent, originalPid: int, alloc: Alloc)
    requires ValidEvent(e)
    ensures var open := OpenStmt(e.fd, if e.pid == originalPid then GetPid else Pid(e.pid), e.cpu,
                                 if e.groupFd == -1 then MinusOne else Leader(e.groupFd), FlagsExpr(OPEN_FLAGS, e.flags));
            var (m1, t) := Step(m, open, alloc);
            && t == [SysOpen(m.kernel.opens, m.Pe(e.fd), WhoIs(e.pid, originalPid), e.cpu,
                             if e.groupFd == -1 then m.kernel.Name(-1) else m.Name(e.groupFd), e.flags)]
            && m1.fd == m.fd[e.fd := OpenFd(m.kernel, alloc).0] && m1.kernel == OpenFd(m.kernel, alloc).1
  {
    FlagsExprValue(OPEN_FLAGS, e.flags);
  }

  /** Clearing pe[index] and assigning the printed members gives it the logged attr. */
  lemma {:induction false} RunFill(m: Memory, index: int, attr: AttrMap, alloc: Alloc) returns (m1: Memory)
    requires Valid(attr)
    ensures Run(m, [MemsetPe(index)] + PeCode(index, EmitAttr(attr)), alloc) == (m1, [])
    ensures m1.fd == m.fd && m1.kernel == m.kernel && m1.Pe(index) == attr
  {
    var m0 := Step(m, MemsetPe(index), alloc).0;
    RunOne(m, MemsetPe(index), alloc);
    RunPeCode(m0, index, EmitAttr(attr), alloc);
    RunJoin(m, [MemsetPe(index)], PeCode(index, EmitAttr(attr)), alloc);
    EmittedCodeRebuildsAttr(attr);
    m1 := m0.(pe := m0.pe[index := attr]);
  }

  lemma {:induction false} OddHasLowBit(x: nat)
    requires x % 2 == 1
    ensures Bits.Or(1, x) == x
  {
  }

  /** Naming the group flag in front of the number does not change it. */
  lemma {:induction false} GroupArgValue(arg: int)
    requires Int32(arg)
    ensures Signed(64, Eval(GroupArg(arg))) == arg && AsInt(arg) == arg
  {
    SignedOfPattern(32, arg);
    SignedOfPattern(64, arg);
    var x := Pattern(64, arg);
    assert Pattern(32, arg) % 2 == x % 2;
    if x % 2 == 1 {
      OddHasLowBit(x);
      assert Eval(OrE(Name(1), DecLit(arg))) == Bits.Or(1, x);
    }
  }

  lemma {:induction false} RunTwo(m: Memory, a: Stmt, b: Stmt, alloc: Alloc)
    ensures var (m1, t1) := Step(m, a, alloc);
            var (m2, t2) := Step(m1, b, alloc);
            Run(m, [a, b], alloc) == (m2, t1 + t2)
  {
    var m1 := Step(m, a, alloc).0;
    RunOne(m, a, alloc);
    RunOne(m1, b, alloc);
    assert [a] + [b] == [a, b];
    RunJoin(m, [a], [b], alloc);
  }

  /** The output descriptor is passed through fd[], and -1 as it is. */
  lemma {:induction false} RunSetOutput(s: Log, m: Memory, fd: int, arg: int64, alloc: Alloc)
    requires Follows(s, m.fd, m.kernel) && LineOk(s, IoctlLine(fd, IOC_SET_OUTPUT, arg))
    ensures Run(m, CompileIoctl(fd, IOC_SET_OUTPUT, arg), alloc) == (m, Meaning(s, IoctlLine(fd, IOC_SET_OUTPUT, arg)))
  {
    FollowsNames(s, m.fd, m.kernel, fd);
    MinusOneIsRaw(s, m.fd, m.kernel);
    SignedOfPattern(64, arg);
    if arg != -1 { FollowsNames(s, m.fd, m.kernel, arg); }
    RunOne(m, CompileIoctl(fd, IOC_SET_OUTPUT, arg)[0], alloc);
  }

  lemma {:induction false} RunIoctl(s: Log, m: Memory, fd: int, req: int, arg: int64, alloc: Alloc)
    requires Follows(s, m.fd, m.kernel) && LineOk(s, IoctlLine(fd, req, arg))
    ensures var (m1, t) := Run(m, CompileIoctl(fd, req, arg), alloc);
            t == Meaning(s, IoctlLine(fd, req, arg)) && m1.fd == m.fd && m1.kernel == m.kernel
  {
    FollowsNames(s, m.fd, m.kernel, fd);
    if TakesGroupFlag(req) {
      GroupArgValue(arg);
      RunOne(m, IoctlStmt(fd, req, Number(GroupArg(AsInt(arg)))), alloc);
    } else if req == IOC_PERIOD {
      RunTwo(m, SetPeriod(arg), IoctlStmt(fd, req, AddressOfPeriod), alloc);
    } else if req == IOC_SET_OUTPUT {
      MinusOneIsRaw(s, m.fd, m.kernel);
      RunSetOutput(s, m, fd, arg, alloc);
    } else {
      RunPlainIoctl(m, fd, req, arg, alloc);
    }
  }

  /** ID, and the ones whose argument is printed as it was logged. */
  lemma {:induction false} RunPlainIoctl(m: Memory, fd: int, req: int, arg: int64, alloc: Alloc)
    requires !TakesGroupFlag(req) && req != IOC_PERIOD && req != IOC_SET_OUTPUT
    ensures Run(m, CompileIoctl(fd, req, arg), alloc)
            == (m, [SysIoctl(m.Name(fd), req, if req == IOC_ID then IdAt else Value(arg))])
  {
    SignedOfPattern(64, arg);
    RunOne(m, IoctlStmt(fd, req, if req == IOC_ID then AddressOfId else Number(DecLit(arg))), alloc);
  }

  lemma {:induction false} RunOpenLine(s: Log, m: Memory, line: Line, alloc: Alloc)
    requires Follows(s, m.fd, m.kernel) && line.OpenLine? && LineOk(s, line) && Fresh(alloc)
    ensures var (m1, t) := Run(m, Compile(line, s.originalPid), alloc);
            t == Meaning(s, line) && Follows(After(s, line), m1.fd, m1.kernel)
  {
    var e := LoggedParses(line.text);
    RunOpen(m, e, s.originalPid, alloc);
    MinusOneIsRaw(s, m.fd, m.kernel);
    if e.groupFd != -1 { FollowsNames(s, m.fd, m.kernel, e.groupFd); }
    FollowsOpen(s, m.fd, m.kernel, alloc, e.fd, line, e);
  }

  lemma {:induction false} RunOverflow(s: Log, m: Memory, fd: int, alloc: Alloc)
    requires Follows(s, m.fd, m.kernel) && fd in s.live
    ensures Run(m, Compile(OverflowLine(fd), s.originalPid), alloc) == (m, Meaning(s, OverflowLine(fd)))
  {
    FollowsNames(s, m.fd, m.kernel, fd);
    var a, b := [SigactionStmt, FcntlStmt(fd, SetFlags)], [FcntlStmt(fd, SetSignal), FcntlStmt(fd, SetOwner)];
    RunTwo(m, SigactionStmt, FcntlStmt(fd, SetFlags), alloc);
    RunTwo(m, FcntlStmt(fd, SetSignal), FcntlStmt(fd, SetOwner), alloc);
    RunJoin(m, a, b, alloc);
    var n := s.Name(fd);
    assert [SysSigaction] + [SysFcntl(n, SetFlags)] + ([SysFcntl(n, SetSignal)] + [SysFcntl(n, SetOwner)])
        == Meaning(s, OverflowLine(fd));
    assert a + b == Compile(OverflowLine(fd), s.originalPid);
  }

  lemma {:induction false} RunClose(s: Log, m: Memory, fd: int, alloc: Alloc)
    requires Follows(s, m.fd, m.kernel) && fd in s.live
    ensures var (m1, t) := Run(m, Compile(CloseLine(fd), s.originalPid), alloc);
            t == Meaning(s, CloseLine(fd)) && Follows(After(s, CloseLine(fd)), m1.fd, m1.kernel)
  {
    FollowsNames(s, m.fd, m.kernel, fd);
    FollowsClose(s, m.fd, m.kernel, fd);
    RunOne(m, CloseStmt(fd), alloc);
  }

  /** Lines of one statement that changes nothing. */
  lemma {:induction false} RunSingle(s: Log, m: Memory, line: Line, alloc: Alloc)
    requires Follows(s, m.fd, m.kernel) && LineOk(s, line) && (line.MmapLine? || line.ReadLine? || line.PrctlLine?)
    ensures Run(m, Compile(line, s.originalPid), alloc) == (m, Meaning(s, line))
  {
    if !line.PrctlLine? { FollowsNames(s, m.fd, m.kernel, line.fd); }
    RunOne(m, Compile(line, s.originalPid)[0], alloc);
  }

  /** One line: the statements make the calls the line means, and keep step with the log. */
  lemma {:induction false} RunLine(s: Log, m: Memory, line: Line, alloc: Alloc)
    requires Follows(s, m.fd, m.kernel) && LineOk(s, line) && Fresh(alloc)
    ensures var (m1, t) := Run(m, Compile(line, s.originalPid), alloc);
            t == Meaning(s, line) && Follows(After(s, line), m1.fd, m1.kernel)
  {
    match line
    case PidLine(_) =>
    case OpenLine(_) => RunOpenLine(s, m, line, alloc);
    case CloseLine(fd) => RunClose(s, m, fd, alloc);
    case MmapLine(_, fd) => RunSingle(s, m, line, alloc);
    case ReadLine(fd, _) => RunSingle(s, m, line, alloc);
    case PrctlLine(_) => RunSingle(s, m, line, alloc);
    case ForkLine(enable) => if enable != 0 { RunOne(m, ForkStmt, alloc); } else { RunTwo(m, KillStmt, WaitStmt, alloc); }
    case OverflowLine(fd) => RunOverflow(s, m, fd, alloc);
    case IoctlLine(fd, req, arg) => RunIoctl(s, m, fd, req, arg, alloc);
  }

  lemma {:induction false} RunLines(s: Log, m: Memory, lines: seq<Line>, alloc: Alloc)
    requires Follows(s, m.fd, m.kernel) && LogOk(s, lines) && Fresh(alloc)
    ensures Run(m, CompileAll(lines, s.originalPid), alloc).1 == Trace(s, lines)
    decreases |lines|
  {
    if lines != [] {
      var code := Compile(lines[0], s.originalPid);
      RunLine(s, m, lines[0], alloc);
      var m1 := Run(m, code, alloc).0;
      RunLines(After(s, lines[0]), m1, lines[1..], alloc);
      NextPid(s, lines[0]);
      RunJoin(m, code, CompileAll(lines[1..], After(s, lines[0]).originalPid), alloc);
    }
  }

  lemma {:induction false} NextPid(s: Log, line: Line)
    ensures After(s, line).originalPid == if line.PidLine? then line.pid else s.originalPid
  {
  }

  /**
    The program emitted for a log, whatever descriptors its kernel hands out, makes
    exactly the system calls the log means.
   */
  lemma {:induction false} ProgramMakesLoggedCalls(lines: seq<Line>, alloc: Alloc)
    requires LogOk(EMPTY_LOG, lines) && Fresh(alloc)
    ensures Run(LOADED, CompileAll(lines, -1), alloc).1 == Trace(EMPTY_LOG, lines)
  {
    RunLines(EMPTY_LOG, LOADED, lines, alloc);
  }
}
