/**
  Overflow throttling: every 10,001st overflow is not re-armed, and after enough of those
  the event is given up.  Both handlers keep the same pair of counters.
*/
module Throttle {
  import opened FuzzerTables
  import opened SignalSafety

  datatype Counter = Counter(overflows: int, throttles: int)
  datatype Outcome = Rearm | Pause | Abandon

  const PERIOD := 10001

  /** One handled overflow, with a limit on throttles. */
  function CountOverflow(c: Counter, limit: nat): (Counter, Outcome) {
    if c.overflows + 1 > 10000 then
      (Counter(0, c.throttles + 1), if c.throttles + 1 > limit then Abandon else Pause)
    else (Counter(c.overflows + 1, c.throttles), Rearm)
  }

  function CountN(c: Counter, n: nat, limit: nat): Counter {
    if n == 0 then c else CountOverflow(CountN(c, n - 1, limit), limit).0
  }

  const FRESH_COUNTER: Counter := Counter(0, 0)

  /** The outcome of the n-th overflow since the open, the first being number 1. */
  function OutcomeOf(n: nat, limit: nat): Outcome
    requires n > 0
  {
    CountOverflow(CountN(FRESH_COUNTER, n - 1, limit), limit).1
  }

  function Rearms(n: nat, limit: nat): nat {
    if n == 0 then 0 else Rearms(n - 1, limit) + if OutcomeOf(n, limit) == Rearm then 1 else 0
  }

  /** Every overflow is accounted for, and each was re-armed unless it was the last of a period. */
  lemma {:induction false} Accounting(n: nat, limit: nat)
    ensures var c := CountN(FRESH_COUNTER, n, limit);
            n == PERIOD * c.throttles + c.overflows && 0 <= c.overflows <= 10000 && c.throttles >= 0
    ensures n == Rearms(n, limit) + CountN(FRESH_COUNTER, n, limit).throttles
    decreases n
  {
    if n > 0 { Accounting(n - 1, limit); }
  }

  /** The event is given up at exactly the overflows that end a period beyond the limit. */
  lemma {:induction false} AbandonIff(n: nat, limit: nat)
    requires n > 0
    ensures OutcomeOf(n, limit) == Abandon <==> n % PERIOD == 0 && n >= (limit + 1) * PERIOD
    ensures OutcomeOf(n, limit) == Rearm <==> n % PERIOD != 0
  {
    Accounting(n - 1, limit);
    var c := CountN(FRESH_COUNTER, n - 1, limit);
    if c.overflows == 10000 {
      assert n == PERIOD * (c.throttles + 1);
      Whole(n, c.throttles + 1, 0);
      if c.throttles + 1 > limit { Larger(c.throttles + 1, limit + 1); } else { Larger(limit, c.throttles + 1); }
    } else {
      Whole(n, c.throttles, c.overflows + 1);
    }
  }

  lemma {:induction false} Whole(n: nat, q: nat, r: nat)
    requires n == PERIOD * q + r && r < PERIOD
    ensures n % PERIOD == r
  {
  }

  lemma {:induction false} Larger(a: nat, b: nat)
    requires a >= b
    ensures PERIOD * a >= PERIOD * b
  {
  }

  /** The first overflow at which an event is given up, and how often it was re-armed until then. */
  lemma {:induction false} FirstAbandon(n: nat, limit: nat)
    requires n > 0 && OutcomeOf(n, limit) == Abandon && forall k :: 0 < k < n ==> OutcomeOf(k, limit) != Abandon
    ensures n == (limit + 1) * PERIOD && Rearms(n, limit) == (limit + 1) * 10000
  {
    AbandonIff(n, limit);
    var first := (limit + 1) * PERIOD;
    Whole(first, limit + 1, 0);
    AbandonIff(first, limit);
    Accounting(n, limit);
    assert n == first;
    assert CountN(FRESH_COUNTER, n, limit).throttles == limit + 1;
  }

  // ---- the fuzzer's handler ----

  function CounterOf(e: Event): Counter { Counter(e.overflows, e.throttles) }

  /** The signals that the handler counts for slot i: of the descriptor it holds, when that can be disabled. */
  predicate CountsFor(t: Tables, move: Move, i: int) { move.Signal? && move.replies.disable >= 0 && Lookup(t, move.fd) == i }

  /** The handler counts for the event it looks up, re-arms and gives up as the counters say, and leaves other counters alone. */
  lemma {:induction false} HandlerCounts(t: Tables, fd: int, k: Replies, i: nat)
    requires Linked(t) && i < NUM_EVENTS
    ensures var (t1, effects) := Handle(t, fd, k);
            var (c, outcome) := CountOverflow(CounterOf(t.events[i]), MAX_THROTTLES);
            if CountsFor(t, Signal(fd, k), i) then
              && CounterOf(t1.events[i]) == c
              && (GiveUp(fd) in effects <==> outcome == Abandon)
              && (Refresh(fd, t.nextRefresh) in effects <==> outcome == Rearm)
            else CounterOf(t1.events[i]) == CounterOf(t.events[i])
  {
  }

  /** Nothing but a handled signal touches the counters of an active event. */
  lemma {:induction false} OnlySignalsCount(m: Machine, move: Move, i: nat)
    requires Inv(m) && PcInRange(m.w, m.pc) && CanMove(m, move) && i < NUM_EVENTS && m.w.t.events[i].active
    ensures |DoMove(m, move).0.w.t.events| == NUM_EVENTS
    ensures var c := CounterOf(m.w.t.events[i]);
            CounterOf(DoMove(m, move).0.w.t.events[i])
            == if CountsFor(m.w.t, move, i) then CountOverflow(c, MAX_THROTTLES).0 else c
  {
  }

  /** A move that opens slot i: the event is active after it and was not before. */
  ghost predicate Opens(m: Machine, move: Move, i: nat)
    requires Linked(m.w.t) && PcInRange(m.w, m.pc) && CanMove(m, move)
  {
    && i < |m.w.t.events| && !m.w.t.events[i].active
    && i < |DoMove(m, move).0.w.t.events| && DoMove(m, move).0.w.t.events[i].active
  }

  /** Only the sixth store of an open does so, and it finds both counters cleared. */
  lemma {:induction false} OpensFresh(m: Machine, move: Move, i: nat)
    requires Inv(m) && PcInRange(m.w, m.pc) && CanMove(m, move) && Opens(m, move, i)
    ensures move.Tick? && m.pc.Opening? && m.pc.at == 5 && m.pc.event == i
    ensures CounterOf(DoMove(m, move).0.w.t.events[i]) == FRESH_COUNTER
  {
  }

  /** The overflows handled for slot i since it was last opened, when n had been before this move. */
  ghost function Tally(m: Machine, move: Move, i: nat, n: nat): nat
    requires Linked(m.w.t) && PcInRange(m.w, m.pc) && CanMove(m, move)
  {
    if Opens(m, move, i) then 0 else if CountsFor(m.w.t, move, i) then n + 1 else n
  }

  /** The same over a run. */
  ghost function SinceOpen(m: Machine, moves: seq<Move>, i: nat, n: nat): nat
    requires CanRun(m, moves)
    decreases |moves|
  {
    if moves == [] then n else SinceOpen(DoMove(m, moves[0]).0, moves[1..], i, Tally(m, moves[0], i, n))
  }

  /** n overflows have been counted for slot i, if it is active. */
  ghost predicate Counted(t: Tables, i: nat, n: nat) {
    i < |t.events| && (t.events[i].active ==> CounterOf(t.events[i]) == CountN(FRESH_COUNTER, n, MAX_THROTTLES))
  }

  lemma {:induction false} MoveCounts(m: Machine, move: Move, i: nat, n: nat)
    requires Inv(m) && PcInRange(m.w, m.pc) && CanMove(m, move) && Counted(m.w.t, i, n)
    ensures Counted(DoMove(m, move).0.w.t, i, Tally(m, move, i, n))
  {
    MoveKeeps(m, move);
    if m.w.t.events[i].active { OnlySignalsCount(m, move, i); } else if Opens(m, move, i) { OpensFresh(m, move, i); }
  }

  lemma {:induction false} RunCounts(m: Machine, moves: seq<Move>, i: nat, n: nat)
    requires Inv(m) && CanRun(m, moves) && Counted(m.w.t, i, n)
    ensures Counted(After(m, moves).w.t, i, SinceOpen(m, moves, i, n))
    decreases |moves|
  {
    if moves != [] {
      MoveCounts(m, moves[0], i, n);
      MoveKeeps(m, moves[0]);
      RunCounts(DoMove(m, moves[0]).0, moves[1..], i, Tally(m, moves[0], i, n));
    }
  }

  /**
    At every point of every run, the overflows handled for an active event since it was
    opened are its throttles' periods plus those counted since.
   */
  lemma {:induction false} OverflowsAccountedFor(start: Machine, moves: seq<Move>, i: nat)
    requires IsStart(start) && CanRun(start, moves) && i < NUM_EVENTS
    ensures |After(start, moves).w.t.events| == NUM_EVENTS
    ensures var e := After(start, moves).w.t.events[i];
            e.active ==> SinceOpen(start, moves, i, 0) == PERIOD * e.throttles + e.overflows && 0 <= e.overflows <= 10000
  {
    StartInv(start);
    RunCounts(start, moves, i, 0);
    RunKeeps(start, moves);
    Accounting(SinceOpen(start, moves, i, 0), MAX_THROTTLES);
  }

  /** The overflow that follows such a run gives the event up exactly at the ends of periods from the 110,011th on. */
  lemma {:induction false} GivesUpIff(start: Machine, moves: seq<Move>, i: nat, fd: int, k: Replies)
    requires IsStart(start) && CanRun(start, moves) && i < NUM_EVENTS
    requires CountsFor(After(start, moves).w.t, Signal(fd, k), i)
    ensures Linked(After(start, moves).w.t)
    ensures var n := SinceOpen(start, moves, i, 0) + 1;
            GiveUp(fd) in Handle(After(start, moves).w.t, fd, k).1 <==> n % PERIOD == 0 && n >= 110011
  {
    StartInv(start);
    RunCounts(start, moves, i, 0);
    RunKeeps(start, moves);
    HandlerCounts(After(start, moves).w.t, fd, k, i);
    AbandonIff(SinceOpen(start, moves, i, 0) + 1, MAX_THROTTLES);
  }

  // ---- the replayer's handler ----

  const REPLAY_MAX_THROTTLES := 20

  datatype Done = DoDisable(fd: int) | DoRefresh(fd: int, n: int) | DoClose(fd: int)

  class ReplayCounters {
    const overflows: array<int>
    const throttles: array<int>
    const remap: array<int>
    var done: seq<Done>

    ghost predicate Valid() reads this, overflows, throttles {
      overflows.Length == throttles.Length == remap.Length && overflows != throttles && overflows != remap && throttles != remap
    }

    constructor (size: nat)
      ensures Valid() && overflows.Length == size && fresh(overflows) && fresh(throttles) && fresh(remap) && done == []
      ensures forall fd :: 0 <= fd < size ==> Counter(overflows[fd], throttles[fd]) == FRESH_COUNTER && remap[fd] == -1
    {
      overflows := new int[size](_ => 0);
      throttles := new int[size](_ => 0);
      remap := new int[size](_ => -1);
      done := [];
    }

    /** our_handler of replay_log; it counts by the replay's descriptor, and clears that subscript of the remap table too. */
    method OurHandler(fd: int)
      requires Valid() && 0 <= fd < overflows.Length
      modifies overflows, throttles, remap, `done
      ensures var (c, outcome) := CountOverflow(Counter(old(overflows[fd]), old(throttles[fd])), REPLAY_MAX_THROTTLES);
              && overflows[..] == old(overflows[..])[fd := c.overflows]
              && throttles[..] == old(throttles[..])[fd := c.throttles]
              && remap[..] == (if outcome == Abandon then old(remap[..])[fd := -1] else old(remap[..]))
              && done == old(done) + [DoDisable(fd)] + (match outcome
                                                        case Rearm => [DoRefresh(fd, 1)]
                                                        case Pause => []
                                                        case Abandon => [DoClose(fd)])
    {
      done := done + [DoDisable(fd)];
      overflows[fd] := overflows[fd] + 1;
      if overflows[fd] > 10000 {
        throttles[fd] := throttles[fd] + 1;
        overflows[fd] := 0;
        if throttles[fd] > REPLAY_MAX_THROTTLES {
          done := done + [DoClose(fd)];
          remap[fd] := -1;
        }
      } else {
        done := done + [DoRefresh(fd, 1)];
      }
    }
  }

  /** The limits of the two programs in numbers of overflows. */
  lemma {:induction false} FirstGiveUps(n: nat)
    requires n > 0
    ensures (OutcomeOf(n, MAX_THROTTLES) == Abandon && forall k :: 0 < k < n ==> OutcomeOf(k, MAX_THROTTLES) != Abandon) ==>
              n == 110011 && Rearms(n, MAX_THROTTLES) == 110000
    ensures (OutcomeOf(n, REPLAY_MAX_THROTTLES) == Abandon
             && forall k :: 0 < k < n ==> OutcomeOf(k, REPLAY_MAX_THROTTLES) != Abandon) ==>
              n == 210021 && Rearms(n, REPLAY_MAX_THROTTLES) == 210000
  {
    if OutcomeOf(n, MAX_THROTTLES) == Abandon && forall k :: 0 < k < n ==> OutcomeOf(k, MAX_THROTTLES) != Abandon {
      FirstAbandon(n, MAX_THROTTLES);
    }
    if OutcomeOf(n, REPLAY_MAX_THROTTLES) == Abandon
       && forall k :: 0 < k < n ==> OutcomeOf(k, REPLAY_MAX_THROTTLES) != Abandon {
      FirstAbandon(n, REPLAY_MAX_THROTTLES);
    }
  }
}
