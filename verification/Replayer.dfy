/**
  replay_log as it runs: the event[] table updated in place while lines are read.  Each
  handler carries out the step that ReplayLog proves to follow the log.
*/
module Replayer {
  import opened TraceLog
  import opened TraceModel
  import opened ReplayLog

  /** The line subscripts event[] within its bounds; outside them C gives it no meaning. */
  ghost predicate InTable(line: Line) {
    match line
    case OpenLine(text) =>
      (match ParseOpenEvent(text)
       case Failed => false
       case Parsed(e) => 0 <= e.fd < FD_REMAP_SIZE && (e.groupFd == -1 || 0 <= e.groupFd < FD_REMAP_SIZE))
    case CloseLine(fd) => 0 <= fd < FD_REMAP_SIZE
    case MmapLine(_, fd) => 0 <= fd < FD_REMAP_SIZE
    case ReadLine(fd, _) => 0 <= fd < FD_REMAP_SIZE
    case OverflowLine(fd) => 0 <= fd < FD_REMAP_SIZE
    case IoctlLine(fd, req, arg) =>
      0 <= fd < FD_REMAP_SIZE && (req == IOC_SET_OUTPUT ==> arg == -1 || 0 <= arg < FD_REMAP_SIZE)
    case _ => true
  }

  class Replay {
    const remap: array<int>
    var originalPid: int
    /** A child was forked, so forked_pid is not zero. */
    var forked: bool
    /** The environment: the kernel, and the calls made so far. */
    var kernel: Kernel
    var calls: seq<Sys>
    const alloc: Alloc

    ghost predicate Valid() reads this, remap { remap.Length == FD_REMAP_SIZE }

    ghost function Now(): State reads this, remap { State(remap[..], kernel, originalPid, forked) }

    constructor (alloc: Alloc)
      ensures Valid() && fresh(remap) && Now() == FRESH_STATE && calls == [] && this.alloc == alloc
    {
      remap := new int[FD_REMAP_SIZE](_ => -1);
      originalPid, forked := -1, false;
      kernel := Kernel(map[], 0);
      calls := [];
      this.alloc := alloc;
      new;
      assert remap[..] == FRESH_STATE.remap;
    }

    method OpenEvent(text: string)
      requires Valid() && InTable(OpenLine(text))
      modifies this, remap
      ensures Valid() && (Now(), calls) == Made(old(Now()), old(calls), OpenLine(text), alloc)
    {
      var e := ParseOpenEvent(text).event;
      var who := WhoIs(e.pid, originalPid);
      var group := -1;
      if e.groupFd != -1 {
        group := remap[e.groupFd];
      }
      var (fd, k) := OpenFd(kernel, alloc);
      calls := calls + [SysOpen(kernel.opens, e.attr, who, e.cpu, kernel.Name(group), e.flags)];
      kernel := k;
      remap[e.fd] := fd;
      assert remap[..] == old(remap[..])[e.fd := fd];
    }

    method CloseEvent(fd: int)
      requires Valid() && InTable(CloseLine(fd))
      modifies this, remap
      ensures Valid() && (Now(), calls) == Made(old(Now()), old(calls), CloseLine(fd), alloc)
    {
      if remap[fd] == -1 {
        assert calls + [] == calls;
        return;
      }
      calls := calls + [SysClose(kernel.Name(remap[fd]))];
      kernel := CloseFd(kernel, remap[fd]);
      remap[fd] := -1;
      assert remap[..] == old(remap[..])[fd := -1];
    }

    method MmapEvent(size: int, fd: int)
      requires Valid() && InTable(MmapLine(size, fd))
      modifies `calls
      ensures Valid() && (Now(), calls) == Made(old(Now()), old(calls), MmapLine(size, fd), alloc)
    {
      var remapped := remap[fd];
      if remapped == -1 {
        assert calls + [] == calls;
        return;
      }
      calls := calls + [SysMmap(size, kernel.Name(remapped))];
    }

    method ReadEvent(fd: int, size: int)
      requires Valid() && InTable(ReadLine(fd, size))
      modifies `calls
      ensures Valid() && (Now(), calls) == Made(old(Now()), old(calls), ReadLine(fd, size), alloc)
    {
      if size < 0 || size > MAX_READ {
        assert calls + [] == calls;
        return;
      }
      calls := calls + [SysRead(kernel.Name(remap[fd]), size)];
    }

    method IoctlEvent(fd: int, req: int, arg: int64)
      requires Valid() && InTable(IoctlLine(fd, req, arg))
      modifies `calls
      ensures Valid() && (Now(), calls) == Made(old(Now()), old(calls), IoctlLine(fd, req, arg), alloc)
    {
      var passed;
      if req == IOC_SET_OUTPUT {
        if arg == -1 {
          passed := TakenAs(kernel, req, arg);
        } else {
          passed := TakenAs(kernel, req, remap[arg]);
        }
      } else if req == IOC_ID {
        passed := IdAt;
      } else if req == IOC_PERIOD {
        passed := PeriodAt(arg);
      } else {
        passed := Value(arg);
      }
      calls := calls + [SysIoctl(kernel.Name(remap[fd]), req, passed)];
    }

    method SetupOverflow(fd: int)
      requires Valid() && InTable(OverflowLine(fd))
      modifies `calls
      ensures Valid() && (Now(), calls) == Made(old(Now()), old(calls), OverflowLine(fd), alloc)
    {
      var name := kernel.Name(remap[fd]);
      ghost var before := calls;
      calls := calls + [SysSigaction];
      calls := calls + [SysFcntl(name, SetFlags)];
      calls := calls + [SysFcntl(name, SetSignal)];
      calls := calls + [SysFcntl(name, SetOwner)];
      assert calls == before + [SysSigaction, SysFcntl(name, SetFlags), SysFcntl(name, SetSignal), SysFcntl(name, SetOwner)];
    }

    method ForkEvent(enable: int)
      requires Valid()
      modifies `calls, `forked
      ensures Valid() && (Now(), calls) == Made(old(Now()), old(calls), ForkLine(enable), alloc)
    {
      if enable != 0 {
        calls := calls + [SysFork];
        forked := true;
      } else {
        calls := calls + [SysKill, SysWait];
      }
    }

    /** One turn of the loop in main. */
    method Dispatch(line: Line)
      requires Valid() && InTable(line)
      modifies this, remap
      ensures Valid() && (Now(), calls) == Made(old(Now()), old(calls), line, alloc)
    {
      match line
      case PidLine(pid) =>
        originalPid := pid;
        assert calls + [] == calls;
      case OpenLine(text) => OpenEvent(text);
      case CloseLine(fd) => CloseEvent(fd);
      case MmapLine(size, fd) => MmapEvent(size, fd);
      case ReadLine(fd, size) => ReadEvent(fd, size);
      case PrctlLine(enable) => calls := calls + [SysPrctl(enable != 0)];
      case ForkLine(enable) => ForkEvent(enable);
      case OverflowLine(fd) => SetupOverflow(fd);
      case IoctlLine(fd, req, arg) => IoctlEvent(fd, req, arg);
    }

    /** The loop: what the fuzzer logged is what gets called. */
    method Lines(lines: seq<Line>)
      requires Valid() && forall i :: 0 <= i < |lines| ==> InTable(lines[i])
      modifies this, remap
      ensures Valid()
      ensures var (s, t) := Run(old(Now()), lines, alloc); Now() == s && calls == old(calls) + t
      ensures old(Now()) == FRESH_STATE && LogOk(EMPTY_LOG, lines) && Fresh(alloc) ==>
                calls == old(calls) + Trace(EMPTY_LOG, lines)
    {
      var i := 0;
      ghost var (end, total) := Run(Now(), lines, alloc);
      ghost var all := calls + total;
      while i < |lines|
        invariant 0 <= i <= |lines| && Valid()
        invariant var (s, t) := Run(Now(), lines[i..], alloc); s == end && calls + t == all
      {
        RunHead(Now(), calls, lines[i..], alloc);
        Dispatch(lines[i]);
        assert lines[i..][1..] == lines[i + 1..];
        i := i + 1;
      }
      assert calls + [] == calls;
      if old(Now()) == FRESH_STATE && LogOk(EMPTY_LOG, lines) && Fresh(alloc) {
        StartSimulates();
        RunFollowsLog(EMPTY_LOG, FRESH_STATE, lines, alloc);
      }
    }

    /** main: the lines, and then the end of any child. */
    method ReplayAll(lines: seq<Line>)
      requires Valid() && forall i :: 0 <= i < |lines| ==> InTable(lines[i])
      modifies this, remap
      ensures Valid()
      ensures var (s, t) := Replayed(old(Now()), lines, alloc); Now() == s && calls == old(calls) + t
    {
      ghost var t := Run(Now(), lines, alloc).1;
      Lines(lines);
      if forked {
        calls := calls + [SysKill];
        assert calls == old(calls) + (t + [SysKill]);
      } else {
        assert t + [] == t;
      }
    }
  }

  /** The state and the calls after a line. */
  ghost function Made(s: State, calls: seq<Sys>, line: Line, alloc: Alloc): (State, seq<Sys>) {
    var (s1, t) := Step(s, line, alloc);
    (s1, calls + t)
  }

  lemma {:induction false} RunHead(s: State, calls: seq<Sys>, lines: seq<Line>, alloc: Alloc)
    requires lines != []
    ensures var (s1, calls1) := Made(s, calls, lines[0], alloc);
            var (s2, t2) := Run(s1, lines[1..], alloc);
            Run(s, lines, alloc).0 == s2 && calls + Run(s, lines, alloc).1 == calls1 + t2
  {
  }
}
