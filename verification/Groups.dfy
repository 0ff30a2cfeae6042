/**
  Group bookkeeping: each event counts the opens that named it as leader, and its nominal
  read size follows the count.
*/
module Groups {
  import opened Slots
  import opened FuzzerTables
  import opened SignalSafety
  import Bits

  /** struct read_format, from bit 0 up: two times, an id, GROUP, and a lost count; the words the kernel returns. */
  function DocumentedReadSize(format: nat, members: int): int {
    var times := format % 2 + format / 2 % 2;
    var value := 1 + format / 4 % 2 + format / 16 % 2;
    if InGroup(format) then 8 * (1 + times + members * value) else 8 * (times + value)
  }

  predicate InGroup(format: nat) { format / 8 % 2 == 1 }

  /** The nominal size is short by one word for every member but the first, so it is right exactly without GROUP or alone. */
  lemma {:induction false} ReadSizeShortfall(format: nat, members: int)
    ensures DocumentedReadSize(format, members) - ReadSize(format, members)
            == if InGroup(format) then 8 * (members - 1) else 0
    ensures ReadSize(format, members) == DocumentedReadSize(format, members) <==> !InGroup(format) || members == 1
  {
    Bits.LowBits(format);
    Spread(members, Flag(format, ID), Flag(format, LOST));
  }

  lemma {:induction false} Spread(members: int, a: int, b: int)
    ensures members * (1 + a + b) == members + (a + b) * members
  {
  }

  // ---- open and close ----

  /** The slot filled, before any leader is told. */
  function Activated(t: Tables, i: int, fd: int, attr: Attr, groupFd: int): Tables
    requires 0 <= i < |t.events|
  {
    var e := t.events[i].(active := true, fd := fd, attr := attr, groupFd := groupFd, overflows := 0, throttles := 0);
    t.(events := t.events[i := e], activeEvents := t.activeEvents + 1)
  }

  /** open_random_event once the kernel has returned fd: slot i filled, the leader told, and at last i's own size. */
  function Opened(t: Tables, i: int, fd: int, attr: Attr, groupFd: int): Tables
    requires 0 <= i < |t.events|
  {
    var t1 := Activated(t, i, fd, attr, groupFd);
    var j := if groupFd == -1 then -1 else Lookup(t1, groupFd);
    var events := if j < 0 then t1.events else t1.events[j := Joined(t1.events[j])];
    t1.(events := events[i := events[i].(numberInGroup := 1, readSize := ReadSize(attr.readFormat, 1))])
  }

  datatype GroupOp = OpenAs(slot: int, fd: int, attr: Attr, groupFd: int) | CloseSlot(slot: int)

  function DoOp(t: Tables, op: GroupOp): Tables
    requires 0 <= op.slot < |t.events|
  {
    match op
    case OpenAs(i, fd, attr, groupFd) => Opened(t, i, fd, attr, groupFd)
    case CloseSlot(i) => t.(events := t.events[i := t.events[i].(active := false)], activeEvents := t.activeEvents - 1)
  }

  ghost predicate IsActiveFd(t: Tables, fd: int) {
    exists i :: 0 <= i < |t.events| && t.events[i].active && t.events[i].fd == fd
  }

  /** A fresh descriptor, in a free slot, with no leader or an active one; or the close of an active event. */
  ghost predicate OpOk(t: Tables, op: GroupOp) {
    && 0 <= op.slot < |t.events|
    && (match op
        case OpenAs(i, fd, _, groupFd) =>
          !t.events[i].active && !IsActiveFd(t, fd) && fd > 2 && (groupFd == -1 || IsActiveFd(t, groupFd))
        case CloseSlot(i) => t.events[i].active)
  }

  /** The operations are possible one after the other from t, the last of the list being the latest. */
  ghost predicate OpsOk(t: Tables, ops: seq<GroupOp>)
    decreases |ops|, 0
  {
    ops != [] ==>
      var before := ops[..|ops| - 1];
      OpsOk(t, before) && OpOk(AfterOps(t, before), ops[|ops| - 1])
  }

  ghost function AfterOps(t: Tables, ops: seq<GroupOp>): Tables
    requires OpsOk(t, ops)
    decreases |ops|, 1
  {
    if ops == [] then t else DoOp(AfterOps(t, ops[..|ops| - 1]), ops[|ops| - 1])
  }

  /** The opens, since the last one of slot i, that named fd as their leader. */
  function Followers(ops: seq<GroupOp>, i: int, fd: int): nat
    decreases |ops|
  {
    if ops == [] then 0
    else
      var last := ops[|ops| - 1];
      if last.OpenAs? && last.slot == i then 0
      else Followers(ops[..|ops| - 1], i, fd) + if last.OpenAs? && last.groupFd == fd then 1 else 0
  }

  ghost predicate Distinct(t: Tables) {
    forall i, j :: 0 <= i < j < |t.events| && t.events[i].active && t.events[j].active ==> t.events[i].fd != t.events[j].fd
  }

  ghost predicate NoneActive(t: Tables) {
    t.activeEvents == 0 && forall i :: 0 <= i < |t.events| ==> !t.events[i].active
  }

  /** What is kept between operations. */
  ghost predicate GroupInv(t: Tables, ops: seq<GroupOp>) {
    && Distinct(t) && t.activeEvents == Count(EventFlags(t.events))
    && (forall i :: 0 <= i < |t.events| && t.events[i].active ==> Booked(t.events[i], Followers(ops, i, t.events[i].fd)))
  }

  ghost predicate Booked(e: Event, followers: nat) {
    e.fd > 2 && e.numberInGroup == 1 + followers && e.readSize == ReadSize(e.attr.readFormat, e.numberInGroup)
  }

  /** What an open does to each slot. */
  lemma {:induction false} OpenedAt(t: Tables, op: GroupOp, k: int)
    requires op.OpenAs? && OpOk(t, op) && Distinct(t) && t.activeEvents == Count(EventFlags(t.events))
    requires 0 <= k < |t.events|
    ensures var e, e1 := t.events[k], DoOp(t, op).events[k];
            && |DoOp(t, op).events| == |t.events|
            && (k == op.slot ==> e1.active && e1.fd == op.fd && e1.attr == op.attr
                                 && e1.numberInGroup == 1 && e1.readSize == ReadSize(op.attr.readFormat, 1))
            && (k != op.slot && e.active ==> e1 == if op.groupFd != -1 && e.fd == op.groupFd then Joined(e) else e)
            && (k != op.slot && !e.active ==> !e1.active)
  {
  }

  lemma {:induction false} OpenKeepsBooks(t: Tables, ops: seq<GroupOp>, op: GroupOp)
    requires GroupInv(t, ops) && op.OpenAs? && OpOk(t, op)
    ensures GroupInv(DoOp(t, op), ops + [op])
  {
    var t1 := DoOp(t, op);
    assert (ops + [op])[..|ops|] == ops;
    forall k | 0 <= k < |t.events|
      ensures t1.events[k].active <==> k == op.slot || t.events[k].active
      ensures t.events[k].active ==> t1.events[k].fd == t.events[k].fd
      ensures k == op.slot ==> t1.events[k].fd == op.fd
      ensures t1.events[k].active ==> Booked(t1.events[k], Followers(ops + [op], k, t1.events[k].fd))
    {
      OpenedAt(t, op, k);
      if t.events[k].active { assert Booked(t.events[k], Followers(ops, k, t.events[k].fd)); }
    }
    OpenedCounts(t, op, t1);
    OpenedDistinct(t, op, t1);
  }

  lemma {:induction false} OpenedCounts(t: Tables, op: GroupOp, t1: Tables)
    requires op.OpenAs? && 0 <= op.slot < |t.events| == |t1.events| && !t.events[op.slot].active
    requires forall k :: 0 <= k < |t.events| ==> (t1.events[k].active <==> k == op.slot || t.events[k].active)
    ensures Count(EventFlags(t1.events)) == Count(EventFlags(t.events)) + 1
  {
    CountStep(EventFlags(t.events), op.slot, true);
    assert EventFlags(t1.events) == EventFlags(t.events)[op.slot := true];
  }

  lemma {:induction false} OpenedDistinct(t: Tables, op: GroupOp, t1: Tables)
    requires op.OpenAs? && OpOk(t, op) && Distinct(t) && |t1.events| == |t.events|
    requires forall k :: 0 <= k < |t.events| ==> (t1.events[k].active <==> k == op.slot || t.events[k].active)
    requires forall k :: 0 <= k < |t.events| && t.events[k].active ==> t1.events[k].fd == t.events[k].fd
    requires t1.events[op.slot].fd == op.fd
    ensures Distinct(t1)
  {
  }

  lemma {:induction false} CloseKeepsBooks(t: Tables, ops: seq<GroupOp>, op: GroupOp)
    requires GroupInv(t, ops) && op.CloseSlot? && OpOk(t, op)
    ensures GroupInv(DoOp(t, op), ops + [op])
  {
    var t1 := DoOp(t, op);
    assert (ops + [op])[..|ops|] == ops;
    EventFlagsAfter(t.events, op.slot, t1.events[op.slot]);
    forall k | 0 <= k < |t.events| && t1.events[k].active
      ensures Booked(t1.events[k], Followers(ops + [op], k, t1.events[k].fd))
    {
      assert Booked(t.events[k], Followers(ops, k, t.events[k].fd));
    }
  }

  lemma {:induction false} BooksKept(t: Tables, ops: seq<GroupOp>)
    requires NoneActive(t) && OpsOk(t, ops)
    ensures GroupInv(AfterOps(t, ops), ops)
    decreases |ops|
  {
    if ops == [] {
      CountNone(EventFlags(t.events));
    } else {
      var n := |ops| - 1;
      BooksKept(t, ops[..n]);
      assert ops[..n] + [ops[n]] == ops;
      if ops[n].OpenAs? { OpenKeepsBooks(AfterOps(t, ops[..n]), ops[..n], ops[n]); }
      else { CloseKeepsBooks(AfterOps(t, ops[..n]), ops[..n], ops[n]); }
    }
  }

  /**
    After any opens and closes, each active event's number_in_group is one more than the
    opens that named it since its own, and its read size is the nominal one for that number.
   */
  lemma {:induction false} GroupsAreCounted(t: Tables, ops: seq<GroupOp>, i: nat)
    requires NoneActive(t) && OpsOk(t, ops) && i < |AfterOps(t, ops).events| && AfterOps(t, ops).events[i].active
    ensures var e := AfterOps(t, ops).events[i];
            e.numberInGroup == 1 + Followers(ops, i, e.fd) && e.readSize == ReadSize(e.attr.readFormat, e.numberInGroup)
  {
    BooksKept(t, ops);
    var e := AfterOps(t, ops).events[i];
    assert Booked(e, Followers(ops, i, e.fd));
  }
}
