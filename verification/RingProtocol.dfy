/**
  The shared ring as a lock-free protocol.  The kernel writes one byte at a time and
  publishes data_head; the reader loads the head, copies the ring out in two memcpys
  whose bytes may be moved in any order, decodes, and publishes data_tail.  All these
  steps interleave freely; memory is taken to be sequentially consistent.
*/
module RingProtocol {
  import opened Bytes
  import opened PerfMmapRead

  datatype Pc = Idle | FirstCopy | SecondCopy | Decoding | Publishing

  /** A finished call: the stream positions it covers and the linear buffer it decoded. */
  datatype Call = Call(prev: nat, head: nat, data: seq<byte>)

  datatype State = State(
    ring: seq<byte>,
    stream: seq<byte>,     // everything the producer has written, from position 0
    head: nat,             // data_head
    tail: nat,             // data_tail
    seenTail: nat,         // the last data_tail the producer loaded
    pc: Pc,
    prev: nat,             // prev_head: the value the last call returned
    myHead: nat,           // the head this call loaded
    buf: seq<byte>,        // the malloc'd linear buffer
    copied: set<nat>,      // the indices of buf already written
    calls: seq<Call>)
  {
    function N(): nat { |ring| }
    function Wrap(): nat
      requires ring != []
    {
      prev % |ring|
    }
    /** Stream position up to which bytes have been handed to the decoder. */
    function Consumed(): nat { if pc == Publishing then myHead else tail }
  }

  predicate Start(s: State) {
    && s.ring != [] && |s.ring| < TWO_31
    && s.stream == [] && s.head == s.tail == s.seenTail == s.prev == s.myHead == 0
    && s.pc == Idle && |s.buf| == |s.ring| && s.copied == {} && s.calls == []
  }

  datatype Step =
    | LoadTail              // producer
    | Put(b: byte)
    | PublishHead(h: nat)
    | LoadHead(garbage: seq<byte>)  // reader: load of data_head and malloc
    | CopyFirst(k: nat)     // one byte of memcpy(data, data_mmap + wrap, bytesize - wrap)
    | FirstDone
    | CopySecond(k: nat)    // one byte of memcpy(data + (bytesize - wrap), data_mmap, wrap)
    | SecondDone
    | Decode
    | PublishTail

  /** The producer keeps to the documented rule: unread data is not overwritten. */
  predicate Enabled(s: State, step: Step)
    requires s.ring != [] && |s.buf| == |s.ring|
  {
    match step
    case LoadTail => true
    case Put(_) => |s.stream| < s.seenTail + s.N()
    case PublishHead(h) => s.head <= h <= |s.stream|
    case LoadHead(garbage) => s.pc == Idle && |garbage| == s.N()
    case CopyFirst(k) => s.pc == FirstCopy && k < s.N() - s.Wrap() && k !in s.copied
    case FirstDone => s.pc == FirstCopy && forall k :: 0 <= k < s.N() - s.Wrap() ==> k in s.copied
    case CopySecond(k) => s.pc == SecondCopy && s.N() - s.Wrap() <= k < s.N() && k !in s.copied
    case SecondDone => s.pc == SecondCopy && forall k :: s.N() - s.Wrap() <= k < s.N() ==> k in s.copied
    case Decode => s.pc == Decoding
    case PublishTail => s.pc == Publishing
  }

  function Next(s: State, step: Step): (t: State)
    requires s.ring != [] && |s.buf| == |s.ring| && Enabled(s, step)
    ensures |t.ring| == |s.ring| && |t.buf| == |s.buf|
  {
    match step
    case LoadTail => s.(seenTail := s.tail)
    case Put(b) => s.(ring := s.ring[|s.stream| % s.N() := b], stream := s.stream + [b])
    case PublishHead(h) => s.(head := h)
    case LoadHead(garbage) => s.(pc := FirstCopy, myHead := s.head, buf := garbage, copied := {})
    case CopyFirst(k) => s.(buf := s.buf[k := s.ring[s.Wrap() + k]], copied := s.copied + {k})
    case FirstDone => s.(pc := SecondCopy)
    case CopySecond(k) => s.(buf := s.buf[k := s.ring[k - (s.N() - s.Wrap())]], copied := s.copied + {k})
    case SecondDone => s.(pc := Decoding)
    case Decode => s.(pc := Publishing, calls := s.calls + [Call(s.prev, s.myHead, s.buf)])
    case PublishTail => s.(pc := Idle, tail := s.myHead, prev := s.myHead)
  }

  predicate CanRun(s: State, steps: seq<Step>)
    requires s.ring != [] && |s.buf| == |s.ring|
    decreases |steps|
  {
    steps == [] || (Enabled(s, steps[0]) && CanRun(Next(s, steps[0]), steps[1..]))
  }

  function Execute(s: State, steps: seq<Step>): (t: State)
    requires s.ring != [] && |s.buf| == |s.ring| && CanRun(s, steps)
    ensures |t.ring| == |s.ring| && |t.buf| == |s.buf|
    decreases |steps|
  {
    if steps == [] then s else Execute(Next(s, steps[0]), steps[1..])
  }

  // ---- what every step keeps ----

  /** Positions in the window that have not been read are still in the ring. */
  predicate RingHolds(ring: seq<byte>, stream: seq<byte>)
    requires ring != []
  {
    forall p :: 0 <= p < |stream| && |stream| <= p + |ring| ==> ring[p % |ring|] == stream[p]
  }

  /** The calls cover the stream without gap or overlap, and each decoded the bytes it covers. */
  predicate CallsCover(calls: seq<Call>, stream: seq<byte>, upTo: nat)
    decreases |calls|
  {
    upTo <= |stream| &&
    if calls == [] then upTo == 0
    else
      var c := calls[|calls| - 1];
      && c.prev <= c.head == upTo && c.head - c.prev <= |c.data|
      && c.data[..c.head - c.prev] == stream[c.prev..c.head]
      && CallsCover(calls[..|calls| - 1], stream, c.prev)
  }

  predicate CopiedSoFar(s: State)
    requires s.ring != []
  {
    match s.pc
    case Idle => true
    case FirstCopy => forall k :: k in s.copied ==> k < s.N() - s.Wrap()
    case SecondCopy => forall k :: 0 <= k < s.N() - s.Wrap() ==> k in s.copied
    case _ => forall k :: 0 <= k < s.N() ==> k in s.copied
  }

  /** The bytes copied so far, as far as they matter, are those of the stream. */
  predicate CopiedRight(s: State)
    requires s.prev <= s.myHead <= |s.stream| && |s.buf| == |s.ring|
  {
    forall k :: k in s.copied && k < s.myHead - s.prev ==> k < s.N() && s.buf[k] == s.stream[s.prev + k]
  }

  predicate Inv(s: State) {
    && s.ring != [] && |s.ring| < TWO_31 && |s.buf| == |s.ring|
    && s.seenTail <= s.tail <= s.head <= |s.stream| <= s.seenTail + s.N()
    && s.prev == s.tail
    && (s.pc != Idle ==> s.tail <= s.myHead <= s.head)
    && RingHolds(s.ring, s.stream)
    && CopiedSoFar(s)
    && (s.pc != Idle ==> CopiedRight(s))
    && CallsCover(s.calls, s.stream, s.Consumed())
  }

  lemma {:induction false} ModDiffers(a: nat, b: nat, n: nat)
    requires b < a < b + n
    ensures a % n != b % n
  {
    var d: int := a / n - b / n;
    assert a == (a / n) * n + a % n && b == (b / n) * n + b % n;
    assert a - b == d * n + (a % n - b % n);
    MultipleOf(d, n);
  }

  lemma {:induction false} PutKeepsRing(ring: seq<byte>, stream: seq<byte>, b: byte)
    requires ring != [] && RingHolds(ring, stream)
    ensures RingHolds(ring[|stream| % |ring| := b], stream + [b])
  {
    var n := |ring|;
    forall p | 0 <= p < |stream| + 1 && |stream| + 1 <= p + n
      ensures ring[|stream| % n := b][p % n] == (stream + [b])[p]
    {
      if p < |stream| { ModDiffers(|stream|, p, n); }
    }
  }

  lemma {:induction false} CoverGrows(calls: seq<Call>, stream: seq<byte>, more: seq<byte>, upTo: nat)
    requires CallsCover(calls, stream, upTo)
    ensures CallsCover(calls, stream + more, upTo)
    decreases |calls|
  {
    if calls != [] {
      var c := calls[|calls| - 1];
      assert (stream + more)[c.prev..c.head] == stream[c.prev..c.head];
      CoverGrows(calls[..|calls| - 1], stream, more, c.prev);
    }
  }

  /** A byte copied out of the ring is the stream byte it stands for. */
  lemma {:induction false} CopiedByte(s: State, k: nat)
    requires Inv(s) && s.pc != Idle && k < s.myHead - s.prev
    ensures k < s.N() && Unrolled(s.ring, s.prev)[k] == s.stream[s.prev + k]
  {
    UnrolledAt(s.ring, s.prev, k);
  }

  lemma {:induction false} DecodeKeeps(s: State)
    requires Inv(s) && s.pc == Decoding
    ensures Inv(Next(s, Decode))
  {
    DecodedBytes(s);
    CoverOneMore(s.calls, Call(s.prev, s.myHead, s.buf), s.stream);
  }

  /** All the bytes that matter have been copied when the decoder starts. */
  lemma {:induction false} DecodedBytes(s: State)
    requires Inv(s) && s.pc == Decoding
    ensures s.prev <= s.myHead <= |s.stream| && s.myHead - s.prev <= |s.buf| && CallsCover(s.calls, s.stream, s.prev)
    ensures forall k :: 0 <= k < s.myHead - s.prev ==> s.buf[k] == s.stream[s.prev + k]
  {
    forall k | 0 <= k < s.myHead - s.prev
      ensures s.buf[k] == s.stream[s.prev + k]
    {
      assert k in s.copied;
    }
  }

  lemma {:induction false} CoverOneMore(calls: seq<Call>, c: Call, stream: seq<byte>)
    requires c.prev <= c.head <= |stream| && c.head - c.prev <= |c.data| && CallsCover(calls, stream, c.prev)
    requires forall k :: 0 <= k < c.head - c.prev ==> c.data[k] == stream[c.prev + k]
    ensures CallsCover(calls + [c], stream, c.head)
  {
    assert (calls + [c])[..|calls|] == calls;
    assert c.data[..c.head - c.prev] == stream[c.prev..c.head];
  }

  lemma {:induction false} PutKeeps(s: State, b: byte)
    requires Inv(s) && Enabled(s, Put(b))
    ensures Inv(Next(s, Put(b)))
  {
    PutKeepsRing(s.ring, s.stream, b);
    CoverGrows(s.calls, s.stream, [b], s.Consumed());
  }

  lemma {:induction false} CopiedOneMore(s: State, k: nat, b: byte)
    requires s.prev <= s.myHead <= |s.stream| && |s.buf| == |s.ring| && CopiedRight(s) && k < s.N()
    requires k < s.myHead - s.prev ==> b == s.stream[s.prev + k]
    ensures CopiedRight(s.(buf := s.buf[k := b], copied := s.copied + {k}))
  {
  }

  lemma {:induction false} CopyKeeps(s: State, k: nat, step: Step)
    requires Inv(s) && Enabled(s, step) && (step == CopyFirst(k) || step == CopySecond(k))
    ensures Inv(Next(s, step))
  {
    if k < s.myHead - s.prev { CopiedByte(s, k); }
    CopiedOneMore(s, k, Unrolled(s.ring, s.prev)[k]);
  }

  lemma {:induction false} HeadAndTailKeep(s: State, step: Step)
    requires Inv(s) && Enabled(s, step) && (step.LoadTail? || step.PublishHead? || step.LoadHead? || step.PublishTail?)
    ensures Inv(Next(s, step))
  {
  }

  lemma {:induction false} CopyDoneKeeps(s: State, step: Step)
    requires Inv(s) && Enabled(s, step) && (step.FirstDone? || step.SecondDone?)
    ensures Inv(Next(s, step))
  {
  }

  lemma {:induction false} StepKeeps(s: State, step: Step)
    requires Inv(s) && Enabled(s, step)
    ensures Inv(Next(s, step))
  {
    match step
    case Put(b) => PutKeeps(s, b);
    case CopyFirst(k) => CopyKeeps(s, k, step);
    case CopySecond(k) => CopyKeeps(s, k, step);
    case Decode => DecodeKeeps(s);
    case FirstDone => CopyDoneKeeps(s, step);
    case SecondDone => CopyDoneKeeps(s, step);
    case _ => HeadAndTailKeep(s, step);
  }

  lemma {:induction false} RunKeeps(s: State, steps: seq<Step>)
    requires Inv(s) && CanRun(s, steps)
    ensures Inv(Execute(s, steps))
    decreases |steps|
  {
    if steps != [] {
      StepKeeps(s, steps[0]);
      RunKeeps(Next(s, steps[0]), steps[1..]);
    }
  }

  // ---- safety over whole runs ----

  /** The bytes handed to the decoder, call after call. */
  function Drained(calls: seq<Call>): seq<byte> {
    if calls == [] then []
    else
      var c := calls[|calls| - 1];
      Drained(calls[..|calls| - 1])
      + (if c.prev <= c.head && c.head - c.prev <= |c.data| then c.data[..c.head - c.prev] else [])
  }

  lemma {:induction false} CoverIsDrained(calls: seq<Call>, stream: seq<byte>, upTo: nat)
    requires CallsCover(calls, stream, upTo)
    ensures Drained(calls) == stream[..upTo]
    decreases |calls|
  {
    if calls != [] {
      var c := calls[|calls| - 1];
      CoverIsDrained(calls[..|calls| - 1], stream, c.prev);
      Adjacent(stream, c.prev, c.head);
    }
  }

  lemma {:induction false} Adjacent(stream: seq<byte>, a: nat, b: nat)
    requires a <= b <= |stream|
    ensures stream[..a] + stream[a..b] == stream[..b]
  {
  }

  /**
    In every run the chunks handed to the decoder add up to the stream up to the tail
    (while the tail store is still pending: up to the head it will store), and no unread
    byte has been overwritten.
   */
  lemma {:induction false} NothingLostOrTorn(s0: State, steps: seq<Step>)
    requires Start(s0) && CanRun(s0, steps)
    ensures var s := Execute(s0, steps);
            && s.tail <= s.Consumed() <= s.head <= |s.stream| <= s.tail + s.N()
            && Drained(s.calls) == s.stream[..s.Consumed()]
            && (forall p :: s.tail <= p < |s.stream| ==> s.ring[p % |s.ring|] == s.stream[p])
  {
    RunKeeps(s0, steps);
    var s := Execute(s0, steps);
    CoverIsDrained(s.calls, s.stream, s.Consumed());
  }

  /**
    The byte-wise copy that raced with the producer has, over the bytes that matter, the
    value an atomic unrolling of the ring would have.
   */
  lemma {:induction false} CopyLooksAtomic(s0: State, steps: seq<Step>)
    requires Start(s0) && CanRun(s0, steps) && Execute(s0, steps).pc == Decoding
    ensures var s := Execute(s0, steps);
            var size := s.myHead - s.prev;
            0 <= size <= s.N() && s.buf[..size] == Unrolled(s.ring, s.prev)[..size]
  {
    RunKeeps(s0, steps);
    var s := Execute(s0, steps);
    var size := s.myHead - s.prev;
    forall k | 0 <= k < size
      ensures s.buf[k] == Unrolled(s.ring, s.prev)[k]
    {
      CopiedByte(s, k);
    }
  }

  // ---- progress: what was published before a call is drained by it ----

  /** In a run that began with n calls made and h published, a call made since has drained up to h. */
  predicate Caught(t: State, h: nat, n: nat) {
    && h <= t.head && n <= |t.calls|
    && (t.pc in {FirstCopy, SecondCopy, Decoding} ==> h <= t.myHead)
    && (t.pc == Publishing ==> n < |t.calls|)
    && (n < |t.calls| ==> h <= t.Consumed())
  }

  lemma {:induction false} StepCatches(s: State, step: Step, h: nat, n: nat)
    requires Inv(s) && Enabled(s, step) && Caught(s, h, n)
    ensures Caught(Next(s, step), h, n) && s.stream <= Next(s, step).stream
  {
  }

  lemma {:induction false} RunCatches(s: State, steps: seq<Step>, h: nat, n: nat)
    requires Inv(s) && CanRun(s, steps) && Caught(s, h, n)
    ensures Caught(Execute(s, steps), h, n) && s.stream <= Execute(s, steps).stream
    decreases |steps|
  {
    if steps != [] {
      StepKeeps(s, steps[0]);
      StepCatches(s, steps[0], h, n);
      RunCatches(Next(s, steps[0]), steps[1..], h, n);
    }
  }

  /**
    Whatever else happens meanwhile, a call that began after s and has been decoded drained
    everything that was published at s.
   */
  lemma {:induction false} DrainsWhatWasPublished(s: State, steps: seq<Step>)
    requires Inv(s) && s.pc == Idle && CanRun(s, steps)
    ensures var t := Execute(s, steps);
            |s.calls| < |t.calls| ==>
              && s.head <= t.Consumed() && (t.pc == Idle ==> s.head <= t.tail)
              && s.stream <= t.stream && s.stream[..s.head] <= Drained(t.calls)
  {
    RunCatches(s, steps, s.head, |s.calls|);
    RunKeeps(s, steps);
    var t := Execute(s, steps);
    CoverIsDrained(t.calls, t.stream, t.Consumed());
  }

  // ---- progress: neither side is ever stuck ----

  predicate ByReader(steps: seq<Step>) {
    forall i :: 0 <= i < |steps| ==> !steps[i].LoadTail? && !steps[i].Put? && !steps[i].PublishHead?
  }

  /** The indices of the buffer not written yet. */
  function Missing(s: State): set<nat> { set k: nat | k < |s.buf| && k !in s.copied }

  function Stage(pc: Pc): nat {
    match pc case Idle => 0 case Publishing => 1 case Decoding => 2 case SecondCopy => 3 case FirstCopy => 4
  }

  /** The reader's next step, in any state within a call. */
  lemma {:induction false} ReaderStep(s: State) returns (step: Step)
    requires Inv(s) && s.pc != Idle
    ensures Enabled(s, step) && ByReader([step])
    ensures var t := Next(s, step);
            && t.head == s.head && t.stream == s.stream && t.myHead == s.myHead
            && (if s.pc == Publishing then t.pc == Idle && t.tail == s.myHead else t.pc != Idle)
            && (Stage(t.pc) < Stage(s.pc) || (t.pc == s.pc && |Missing(t)| < |Missing(s)|))
  {
    if k :| s.pc == FirstCopy && 0 <= k < s.N() - s.Wrap() && k !in s.copied {
      step := CopyFirst(k);
      assert Missing(Next(s, step)) == Missing(s) - {k} && k in Missing(s);
    } else if k :| s.pc == SecondCopy && s.N() - s.Wrap() <= k < s.N() && k !in s.copied {
      step := CopySecond(k);
      assert Missing(Next(s, step)) == Missing(s) - {k} && k in Missing(s);
    } else {
      step := match s.pc case FirstCopy => FirstDone case SecondCopy => SecondDone case Decoding => Decode case _ => PublishTail;
    }
  }

  lemma {:induction false} OneMore(s: State, step: Step, rest: seq<Step>)
    requires s.ring != [] && |s.buf| == |s.ring| && Enabled(s, step) && CanRun(Next(s, step), rest)
    ensures CanRun(s, [step] + rest) && Execute(s, [step] + rest) == Execute(Next(s, step), rest)
  {
    assert ([step] + rest)[1..] == rest;
  }

  /** A call under way can be finished by the reader alone, and leaves the tail at the head it loaded. */
  lemma {:induction false} CallCanFinish(s: State) returns (steps: seq<Step>)
    requires Inv(s) && s.pc != Idle
    ensures CanRun(s, steps) && ByReader(steps)
    ensures var t := Execute(s, steps);
            Inv(t) && t.pc == Idle && t.tail == s.myHead && t.head == s.head && t.stream == s.stream
    decreases Stage(s.pc), |Missing(s)|
  {
    var step := ReaderStep(s);
    var t := Next(s, step);
    StepKeeps(s, step);
    var rest: seq<Step> := [];
    if t.pc != Idle { rest := CallCanFinish(t); }
    steps := [step] + rest;
    OneMore(s, step, rest);
  }

  /**
    One whole call, which nothing can hold up, empties the ring; and once the producer has
    looked at the tail it has room for a full ring again, less what it had not published.
   */
  lemma {:induction false} CallEmptiesRing(s: State, garbage: seq<byte>) returns (steps: seq<Step>)
    requires Inv(s) && s.pc == Idle && |garbage| == s.N()
    ensures CanRun(s, steps) && ByReader(steps)
    ensures var t := Execute(s, steps);
            && Inv(t) && t.pc == Idle && t.tail == t.head == s.head && Drained(t.calls) == s.stream[..s.head]
            && forall b :: Enabled(Next(t, LoadTail), Put(b)) <==> |s.stream| - s.head < s.N()
  {
    var rest := StartedCall(s, garbage);
    steps := [LoadHead(garbage)] + rest;
    OneMore(s, LoadHead(garbage), rest);
    Emptied(Execute(s, steps));
  }

  lemma {:induction false} StartedCall(s: State, garbage: seq<byte>) returns (rest: seq<Step>)
    requires Inv(s) && s.pc == Idle && |garbage| == s.N()
    ensures var s1 := Next(s, LoadHead(garbage));
            && CanRun(s1, rest) && ByReader(rest)
            && var t := Execute(s1, rest);
               Inv(t) && t.pc == Idle && t.tail == t.head == s.head && t.stream == s.stream && t.N() == s.N()
  {
    StepKeeps(s, LoadHead(garbage));
    rest := CallCanFinish(Next(s, LoadHead(garbage)));
  }

  lemma {:induction false} Emptied(t: State)
    requires Inv(t) && t.pc == Idle
    ensures Drained(t.calls) == t.stream[..t.tail]
    ensures forall b :: Enabled(Next(t, LoadTail), Put(b)) <==> |t.stream| - t.tail < t.N()
  {
    CoverIsDrained(t.calls, t.stream, t.tail);
    RoomSeen(t);
  }

  lemma {:induction false} RoomSeen(t: State)
    requires Inv(t)
    ensures forall b :: Enabled(Next(t, LoadTail), Put(b)) <==> |t.stream| - t.tail < t.N()
  {
  }

  /** A byte put into the ring can be published at once. */
  lemma {:induction false} PutCanBePublished(s: State, b: byte)
    requires Inv(s) && Enabled(s, Put(b))
    ensures var t := Next(s, Put(b));
            && Enabled(t, PublishHead(|t.stream|))
            && Next(t, PublishHead(|t.stream|)).head == |s.stream| + 1 && t.stream == s.stream + [b]
  {
  }
}
