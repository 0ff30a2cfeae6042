/**
  Ring, copy and decoder together: when the producer lays down well-formed records and
  publishes the head only between records, the reader prints exactly the records that
  were produced, in order, each once.
*/
module RingRecords {
  import opened Bytes
  import opened RecordFormat
  import opened ParseRecord
  import opened RecordRoundTrip
  import opened PerfMmapRead
  import opened RingProtocol

  // ---- a producer that writes given bytes and publishes only at given positions ----

  predicate Disciplined(bytes: seq<byte>, marks: set<nat>, s: State, step: Step) {
    match step
    case Put(b) => |s.stream| < |bytes| && b == bytes[|s.stream|]
    case PublishHead(h) => h in marks
    case _ => true
  }

  predicate DisciplinedRun(bytes: seq<byte>, marks: set<nat>, s: State, steps: seq<Step>)
    requires s.ring != [] && |s.buf| == |s.ring| && CanRun(s, steps)
    decreases |steps|
  {
    steps != [] ==>
      Disciplined(bytes, marks, s, steps[0]) && DisciplinedRun(bytes, marks, Next(s, steps[0]), steps[1..])
  }

  predicate CallsAt(marks: set<nat>, calls: seq<Call>) {
    forall i :: 0 <= i < |calls| ==>
      calls[i].prev in marks && calls[i].head in marks && |calls[i].data| < TWO_31
  }

  predicate AtMarks(bytes: seq<byte>, marks: set<nat>, s: State) {
    s.stream <= bytes && s.head in marks && s.tail in marks && s.myHead in marks && CallsAt(marks, s.calls)
  }

  lemma {:induction false} StepStaysAtMarks(bytes: seq<byte>, marks: set<nat>, s: State, step: Step)
    requires Inv(s) && AtMarks(bytes, marks, s) && Enabled(s, step) && Disciplined(bytes, marks, s, step)
    ensures AtMarks(bytes, marks, Next(s, step))
  {
  }

  lemma {:induction false} RunStaysAtMarks(bytes: seq<byte>, marks: set<nat>, s: State, steps: seq<Step>)
    requires Inv(s) && AtMarks(bytes, marks, s) && CanRun(s, steps) && DisciplinedRun(bytes, marks, s, steps)
    ensures Inv(Execute(s, steps)) && AtMarks(bytes, marks, Execute(s, steps))
    decreases |steps|
  {
    if steps != [] {
      StepKeeps(s, steps[0]);
      StepStaysAtMarks(bytes, marks, s, steps[0]);
      RunStaysAtMarks(bytes, marks, Next(s, steps[0]), steps[1..]);
    }
  }

  // ---- what the calls deliver ----

  function Flatten(parts: seq<seq<Record>>): seq<Record> {
    if parts == [] then [] else Flatten(parts[..|parts| - 1]) + parts[|parts| - 1]
  }

  /** The records from the one at prev to the one at head, for each call. */
  predicate Slices(parts: seq<seq<Record>>, calls: seq<Call>, rs: seq<Record>, index: nat -> nat) {
    && |parts| == |calls|
    && forall i :: 0 <= i < |calls| ==>
         && index(calls[i].prev) <= index(calls[i].head) <= |rs|
         && parts[i] == rs[index(calls[i].prev)..index(calls[i].head)]
  }

  /** Calls that cover the stream in order cover the records in order. */
  lemma {:induction false} SlicesInOrder(parts: seq<seq<Record>>, calls: seq<Call>, rs: seq<Record>, index: nat -> nat,
      stream: seq<byte>, upTo: nat)
    requires CallsCover(calls, stream, upTo) && Slices(parts, calls, rs, index) && index(0) == 0
    ensures index(upTo) <= |rs| && Flatten(parts) == rs[..index(upTo)]
    decreases |calls|
  {
    if calls != [] {
      var last := |calls| - 1;
      var c := calls[last];
      SlicesInOrder(parts[..last], calls[..last], rs, index, stream, c.prev);
      assert rs[..index(c.prev)] + rs[index(c.prev)..index(c.head)] == rs[..index(c.head)];
    }
  }

  // ---- record positions ----

  /** Stream position of record m. */
  function Pos(chunks: seq<seq<byte>>, m: nat): nat
    requires m <= |chunks|
  {
    |Concat(chunks[..m])|
  }

  function Positions(chunks: seq<seq<byte>>): set<nat> {
    set m: nat | m <= |chunks| :: Pos(chunks, m)
  }

  lemma {:induction false} Between(chunks: seq<seq<byte>>, a: nat, b: nat)
    requires a <= b <= |chunks|
    ensures Concat(chunks[..b]) == Concat(chunks[..a]) + Concat(chunks[a..b])
    ensures Pos(chunks, b) <= |Concat(chunks)| && Concat(chunks)[..Pos(chunks, b)] == Concat(chunks[..b])
    ensures Concat(chunks)[Pos(chunks, a)..Pos(chunks, b)] == Concat(chunks[a..b])
  {
    assert chunks[..b] == chunks[..a] + chunks[a..b] && chunks == chunks[..b] + chunks[b..];
    ConcatJoin(chunks[..a], chunks[a..b]);
    ConcatJoin(chunks[..b], chunks[b..]);
  }

  predicate NonEmpty(chunks: seq<seq<byte>>) {
    forall i :: 0 <= i < |chunks| ==> chunks[i] != []
  }

  lemma {:induction false} PosIncreases(chunks: seq<seq<byte>>, a: nat, b: nat)
    requires NonEmpty(chunks) && a < b <= |chunks|
    ensures Pos(chunks, a) < Pos(chunks, b)
  {
    Between(chunks, a, b);
    assert chunks[a..b][0] == chunks[a];
  }

  /** The record that starts at a position. */
  ghost function IndexOf(chunks: seq<seq<byte>>, p: nat): (m: nat)
    ensures p in Positions(chunks) ==> m <= |chunks| && Pos(chunks, m) == p
  {
    if p in Positions(chunks) then
      var m: nat :| m <= |chunks| && Pos(chunks, m) == p; m
    else 0
  }

  lemma {:induction false} IndexOfMonotonic(chunks: seq<seq<byte>>, p: nat, q: nat)
    requires NonEmpty(chunks) && p in Positions(chunks) && q in Positions(chunks) && p <= q
    ensures IndexOf(chunks, p) <= IndexOf(chunks, q) <= |chunks|
  {
    if IndexOf(chunks, q) < IndexOf(chunks, p) {
      PosIncreases(chunks, IndexOf(chunks, q), IndexOf(chunks, p));
    }
  }

  lemma {:induction false} IndexOfZero(chunks: seq<seq<byte>>)
    requires NonEmpty(chunks)
    ensures 0 in Positions(chunks) && IndexOf(chunks, 0) == 0
  {
    assert chunks[..0] == [] && Pos(chunks, 0) == 0;
    if IndexOf(chunks, 0) > 0 { PosIncreases(chunks, 0, IndexOf(chunks, 0)); }
  }

  lemma {:induction false} EncodingsSlice(cfg: Config, rs: seq<Record>, a: nat, b: nat)
    requires Decodable(cfg, rs) && a <= b <= |rs|
    ensures Decodable(cfg, rs[a..b]) && Encodings(cfg, rs)[a..b] == Encodings(cfg, rs[a..b])
  {
  }

  lemma {:induction false} SmallInt(x: int)
    requires 0 <= x < TWO_31
    ensures Int32(x) == x
  {
  }

  /** A call over the bytes of some records ran inside its buffer and saw them all, or broke off in a print that overruns. */
  ghost predicate Delivers(cfg: Config, quiet: bool, c: Call, rs: seq<Record>) {
    Loop(cfg, quiet, c.data, Int32(c.head - c.prev), 0) == RunOver(rs, quiet, |rs|, c.head - c.prev)
  }

  lemma {:induction false} StreamDelivers(cfg: Config, quiet: bool, rs: seq<Record>, data: seq<byte>, n: nat)
    requires Decodable(cfg, rs) && n <= |data| && data[..n] == StreamBytes(cfg, rs)
    ensures Loop(cfg, quiet, data, n, 0) == RunOver(rs, quiet, |rs|, n)
  {
    assert |StreamBytes(cfg, rs)| == n;
    StreamRoundTrip(cfg, quiet, data, rs);
  }

  lemma {:induction false} CallDelivers(cfg: Config, quiet: bool, rs: seq<Record>, a: nat, b: nat, c: Call)
    requires Decodable(cfg, rs) && a <= b <= |rs|
    requires c.prev <= c.head && c.head - c.prev <= |c.data| < TWO_31
    requires c.data[..c.head - c.prev] == Concat(Encodings(cfg, rs)[a..b])
    ensures Delivers(cfg, quiet, c, rs[a..b])
  {
    var n, rs1 := c.head - c.prev, rs[a..b];
    EncodingsSlice(cfg, rs, a, b);
    assert c.data[..n] == StreamBytes(cfg, rs1);
    StreamDelivers(cfg, quiet, rs1, c.data, n);
    LoopDelivers(cfg, quiet, c, rs1, n);
  }

  lemma {:induction false} LoopDelivers(cfg: Config, quiet: bool, c: Call, rs: seq<Record>, n: nat)
    requires n == c.head - c.prev < TWO_31 && Loop(cfg, quiet, c.data, n, 0) == RunOver(rs, quiet, |rs|, n)
    ensures Delivers(cfg, quiet, c, rs)
  {
    SmallInt(n);
  }

  lemma {:induction false} CallInCover(calls: seq<Call>, stream: seq<byte>, upTo: nat, i: nat)
    requires CallsCover(calls, stream, upTo) && i < |calls|
    ensures var c := calls[i];
            && c.prev <= c.head <= |stream| && c.head - c.prev <= |c.data|
            && c.data[..c.head - c.prev] == stream[c.prev..c.head]
    decreases |calls|
  {
    if i < |calls| - 1 {
      CallInCover(calls[..|calls| - 1], stream, calls[|calls| - 1].prev, i);
    }
  }

  /** Which chunks a call between two positions covers. */
  lemma {:induction false} CallSpans(chunks: seq<seq<byte>>, calls: seq<Call>, stream: seq<byte>, upTo: nat, i: nat)
    requires NonEmpty(chunks) && stream <= Concat(chunks) && i < |calls|
    requires CallsCover(calls, stream, upTo) && CallsAt(Positions(chunks), calls)
    ensures var c := calls[i];
            && c.prev <= c.head && c.head - c.prev <= |c.data| < TWO_31
            && IndexOf(chunks, c.prev) <= IndexOf(chunks, c.head) <= |chunks|
            && c.data[..c.head - c.prev] == Concat(chunks[IndexOf(chunks, c.prev)..IndexOf(chunks, c.head)])
  {
    var c := calls[i];
    CallInCover(calls, stream, upTo, i);
    IndexOfMonotonic(chunks, c.prev, c.head);
    Between(chunks, IndexOf(chunks, c.prev), IndexOf(chunks, c.head));
    assert stream[c.prev..c.head] == Concat(chunks)[c.prev..c.head];
  }

  lemma {:induction false} EachCallDelivers(cfg: Config, quiet: bool, rs: seq<Record>, chunks: seq<seq<byte>>, calls: seq<Call>,
      stream: seq<byte>, upTo: nat)
    requires Decodable(cfg, rs) && chunks == Encodings(cfg, rs) && NonEmpty(chunks) && stream <= Concat(chunks)
    requires CallsCover(calls, stream, upTo) && CallsAt(Positions(chunks), calls)
    ensures forall i :: 0 <= i < |calls| ==>
              && IndexOf(chunks, calls[i].prev) <= IndexOf(chunks, calls[i].head) <= |rs|
              && Delivers(cfg, quiet, calls[i], rs[IndexOf(chunks, calls[i].prev)..IndexOf(chunks, calls[i].head)])
  {
    forall i | 0 <= i < |calls|
      ensures && IndexOf(chunks, calls[i].prev) <= IndexOf(chunks, calls[i].head) <= |rs|
              && Delivers(cfg, quiet, calls[i], rs[IndexOf(chunks, calls[i].prev)..IndexOf(chunks, calls[i].head)])
    {
      CallSpans(chunks, calls, stream, upTo, i);
      CallDelivers(cfg, quiet, rs, IndexOf(chunks, calls[i].prev), IndexOf(chunks, calls[i].head), calls[i]);
    }
  }


  lemma {:induction false} EncodingsNonEmpty(cfg: Config, rs: seq<Record>)
    requires AllWellFormed(cfg, rs)
    ensures NonEmpty(Encodings(cfg, rs))
  {
  }

  /**
    Over every interleaving, the calls made so far together saw the first m records
    produced, each once and in order, where m is the record that starts at the consumed
    position; a call is undefined exactly if a print of one of its records overruns.
   */
  lemma {:induction false} DeliversWhatWasProduced(cfg: Config, quiet: bool, rs: seq<Record>, s0: State, steps: seq<Step>)
      returns (parts: seq<seq<Record>>)
    requires Decodable(cfg, rs) && Start(s0) && CanRun(s0, steps)
    requires DisciplinedRun(StreamBytes(cfg, rs), Positions(Encodings(cfg, rs)), s0, steps)
    ensures var s, chunks := Execute(s0, steps), Encodings(cfg, rs);
            && |parts| == |s.calls|
            && (forall i :: 0 <= i < |parts| ==> Delivers(cfg, quiet, s.calls[i], parts[i]))
            && s.Consumed() in Positions(chunks) && IndexOf(chunks, s.Consumed()) <= |rs|
            && Flatten(parts) == rs[..IndexOf(chunks, s.Consumed())]
  {
    StartsAtMarks(cfg, rs, s0);
    RunStaysAtMarks(StreamBytes(cfg, rs), Positions(Encodings(cfg, rs)), s0, steps);
    parts := StateDelivers(cfg, quiet, rs, Execute(s0, steps));
  }

  lemma {:induction false} StartsAtMarks(cfg: Config, rs: seq<Record>, s0: State)
    requires AllWellFormed(cfg, rs) && Start(s0)
    ensures Inv(s0) && AtMarks(StreamBytes(cfg, rs), Positions(Encodings(cfg, rs)), s0)
  {
    EncodingsNonEmpty(cfg, rs);
    IndexOfZero(Encodings(cfg, rs));
  }

  /** The calls made by the time of a state that such a run leads to. */
  lemma {:induction false} StateDelivers(cfg: Config, quiet: bool, rs: seq<Record>, s: State) returns (parts: seq<seq<Record>>)
    requires Decodable(cfg, rs) && Inv(s) && AtMarks(StreamBytes(cfg, rs), Positions(Encodings(cfg, rs)), s)
    ensures var chunks := Encodings(cfg, rs);
            && |parts| == |s.calls|
            && (forall i :: 0 <= i < |parts| ==> Delivers(cfg, quiet, s.calls[i], parts[i]))
            && s.Consumed() in Positions(chunks) && IndexOf(chunks, s.Consumed()) <= |rs|
            && Flatten(parts) == rs[..IndexOf(chunks, s.Consumed())]
  {
    var chunks := Encodings(cfg, rs);
    EncodingsNonEmpty(cfg, rs);
    IndexOfZero(chunks);
    EachCallDelivers(cfg, quiet, rs, chunks, s.calls, s.stream, s.Consumed());
    parts := CallParts(rs, chunks, s.calls);
    PartsInOrder(rs, chunks, s.calls, parts, s.stream, s.Consumed());
  }

  /** How many whole records have been published. */
  ghost function Published(cfg: Config, rs: seq<Record>, s: State): nat
    requires AllWellFormed(cfg, rs)
  {
    IndexOf(Encodings(cfg, rs), s.head)
  }

  /**
    Every record published before a call began is among those seen by the time the call
    has been decoded, whatever is produced meanwhile.
   */
  lemma {:induction false} PublishedRecordsAreSeen(cfg: Config, quiet: bool, rs: seq<Record>, s0: State, before: seq<Step>,
      after: seq<Step>) returns (parts: seq<seq<Record>>)
    requires Decodable(cfg, rs) && Start(s0) && CanRun(s0, before)
    requires DisciplinedRun(StreamBytes(cfg, rs), Positions(Encodings(cfg, rs)), s0, before)
    requires var s := Execute(s0, before);
             && s.pc == Idle && CanRun(s, after)
             && DisciplinedRun(StreamBytes(cfg, rs), Positions(Encodings(cfg, rs)), s, after)
             && |s.calls| < |Execute(s, after).calls|
    ensures var s, chunks := Execute(s0, before), Encodings(cfg, rs);
            var t := Execute(s, after);
            && s.head == Pos(chunks, Published(cfg, rs, s)) && Published(cfg, rs, s) <= |rs|
            && |parts| == |t.calls| && (forall i :: 0 <= i < |parts| ==> Delivers(cfg, quiet, t.calls[i], parts[i]))
            && rs[..Published(cfg, rs, s)] <= Flatten(parts) <= rs
  {
    var bytes, chunks := StreamBytes(cfg, rs), Encodings(cfg, rs);
    StartsAtMarks(cfg, rs, s0);
    RunStaysAtMarks(bytes, Positions(chunks), s0, before);
    var s := Execute(s0, before);
    RunStaysAtMarks(bytes, Positions(chunks), s, after);
    var t := Execute(s, after);
    DrainsWhatWasPublished(s, after);
    parts := StateDelivers(cfg, quiet, rs, t);
    EncodingsNonEmpty(cfg, rs);
    IndexOfMonotonic(chunks, s.head, t.Consumed());
  }

  lemma {:induction false} PartsInOrder(rs: seq<Record>, chunks: seq<seq<byte>>, calls: seq<Call>, parts: seq<seq<Record>>,
      stream: seq<byte>, upTo: nat)
    requires CallsCover(calls, stream, upTo) && IndexOf(chunks, 0) == 0
    requires forall i :: 0 <= i < |calls| ==> IndexOf(chunks, calls[i].prev) <= IndexOf(chunks, calls[i].head) <= |rs|
    requires parts == CallParts(rs, chunks, calls)
    ensures IndexOf(chunks, upTo) <= |rs| && Flatten(parts) == rs[..IndexOf(chunks, upTo)]
  {
    SlicesInOrder(parts, calls, rs, p => IndexOf(chunks, p), stream, upTo);
  }

  /** The records of each call. */
  ghost function CallParts(rs: seq<Record>, chunks: seq<seq<byte>>, calls: seq<Call>): (parts: seq<seq<Record>>)
    requires forall i :: 0 <= i < |calls| ==> IndexOf(chunks, calls[i].prev) <= IndexOf(chunks, calls[i].head) <= |rs|
    ensures |parts| == |calls|
    ensures forall i :: 0 <= i < |calls| ==> parts[i] == rs[IndexOf(chunks, calls[i].prev)..IndexOf(chunks, calls[i].head)]
  {
    seq(|calls|, i requires 0 <= i < |calls| => rs[IndexOf(chunks, calls[i].prev)..IndexOf(chunks, calls[i].head)])
  }

  /**
    Records that print inside themselves are all seen, by a printing reader and by a
    quiet one, in every interleaving.
   */
  lemma {:induction false} PrintableRecordsAreSeen(cfg: Config, quiet: bool, rs: seq<Record>, s0: State, steps: seq<Step>)
      returns (parts: seq<seq<Record>>)
    requires Decodable(cfg, rs) && Start(s0) && CanRun(s0, steps)
    requires DisciplinedRun(StreamBytes(cfg, rs), Positions(Encodings(cfg, rs)), s0, steps)
    requires forall i :: 0 <= i < |rs| ==> Printable(rs[i])
    ensures var s, chunks := Execute(s0, steps), Encodings(cfg, rs);
            && |parts| == |s.calls| && Flatten(parts) == rs[..IndexOf(chunks, s.Consumed())]
            && forall i :: 0 <= i < |parts| ==>
                 var c := s.calls[i];
                 Loop(cfg, quiet, c.data, Int32(c.head - c.prev), 0)
                 == Ended(SeenRecords(parts[i], quiet), |parts[i]|, c.head - c.prev)
  {
    parts := DeliversWhatWasProduced(cfg, quiet, rs, s0, steps);
    var calls := Execute(s0, steps).calls;
    forall i | 0 <= i < |parts|
      ensures RecordsSurvive(parts[i], quiet)
    {
      PartsArePrintable(cfg, quiet, rs, parts, i);
      assert Delivers(cfg, quiet, calls[i], parts[i]);
    }
  }

  lemma {:induction false} FlattenHas(parts: seq<seq<Record>>, i: nat, k: nat)
    requires i < |parts| && k < |parts[i]|
    ensures parts[i][k] in Flatten(parts)
    decreases |parts|
  {
    var n := |parts| - 1;
    if i < n {
      FlattenHas(parts[..n], i, k);
    } else {
      assert Flatten(parts) == Flatten(parts[..n]) + parts[n];
      assert parts[n][k] in parts[n];
    }
  }

  lemma {:induction false} PartsArePrintable(cfg: Config, quiet: bool, rs: seq<Record>, parts: seq<seq<Record>>, i: nat)
    requires AllWellFormed(cfg, rs) && (forall j :: 0 <= j < |rs| ==> Printable(rs[j])) && i < |parts|
    requires Flatten(parts) <= rs
    ensures RecordsSurvive(parts[i], quiet)
  {
    forall k | 0 <= k < |parts[i]|
      ensures RecordSurvives(parts[i][k], quiet)
    {
      FlattenHas(parts, i, k);
      var j :| 0 <= j < |Flatten(parts)| && Flatten(parts)[j] == parts[i][k];
      assert rs[j] == parts[i][k];
      PrintableIff(cfg, rs[j]);
    }
  }

  predicate FinishAlike(a: Report, b: Report) {
    a.Report? && b.Report? && a.eventsRead == b.eventsRead && a.offset == b.offset
  }

  lemma {:induction false} ReportsAlikeIff(cfg: Config, v1: Option<Validate>, v2: Option<Validate>, rs: seq<Record>, data: seq<byte>, n: nat)
    requires Decodable(cfg, rs) && n <= |data| && data[..n] == StreamBytes(cfg, rs)
    ensures FinishAlike(Reported(Loop(cfg, false, data, n, 0), false, v1, cfg), Reported(Loop(cfg, true, data, n, 0), true, v2, cfg))
            <==> forall i :: 0 <= i < |rs| ==> Printable(rs[i])
  {
    assert |StreamBytes(cfg, rs)| == n;
    QuietChangesNothingIff(cfg, data, rs);
  }

  /**
    perf_mmap_read over new bytes that are a stream of records: a quiet and a printing
    call, with any validation, finish alike exactly when every record prints inside itself.
   */
  lemma {:induction false} QuietReadIff(cfg: Config, v1: Option<Validate>, v2: Option<Validate>, rs: seq<Record>,
      ring: seq<byte>, prevHead: nat, head: nat)
    requires Decodable(cfg, rs) && ring != [] && |ring| < TWO_31 && prevHead <= head <= prevHead + |ring|
    requires Unrolled(ring, prevHead)[..head - prevHead] == StreamBytes(cfg, rs)
    ensures FinishAlike(ReadReport(cfg, false, v1, ring, prevHead, head), ReadReport(cfg, true, v2, ring, prevHead, head))
            <==> forall i :: 0 <= i < |rs| ==> Printable(rs[i])
  {
    var n := head - prevHead;
    ReadReportIs(cfg, false, v1, ring, prevHead, head, n);
    ReadReportIs(cfg, true, v2, ring, prevHead, head, n);
    ReportsAlikeIff(cfg, v1, v2, rs, Unrolled(ring, prevHead), n);
  }

  lemma {:induction false} ReadReportIs(cfg: Config, quiet: bool, v: Option<Validate>, ring: seq<byte>, prevHead: nat, head: nat, n: nat)
    requires ring != [] && n == head - prevHead && n < TWO_31
    ensures ReadReport(cfg, quiet, v, ring, prevHead, head)
            == Reported(Loop(cfg, quiet, Unrolled(ring, prevHead), n, 0), quiet, v, cfg)
  {
    SmallInt(n);
  }

  /**
    What such a call reports of printable records: a printing one prints them all and a
    quiet one nothing, both count them, and without validation neither complains.
   */
  lemma {:induction false} ReadPrintsAll(cfg: Config, v: Option<Validate>, rs: seq<Record>, ring: seq<byte>, prevHead: nat, head: nat)
    requires Decodable(cfg, rs) && ring != [] && |ring| < TWO_31 && prevHead <= head <= prevHead + |ring|
    requires Unrolled(ring, prevHead)[..head - prevHead] == StreamBytes(cfg, rs)
    requires forall i :: 0 <= i < |rs| ==> Printable(rs[i])
    ensures var loud, soft := ReadReport(cfg, false, v, ring, prevHead, head), ReadReport(cfg, true, v, ring, prevHead, head);
            && loud.Report? && loud.printed == rs && loud.eventsRead == |rs| && loud.offset == head - prevHead
            && soft.Report? && soft.printed == [] && soft.eventsRead == |rs| && soft.offset == head - prevHead
            && loud.complaints == soft.complaints && (v == None ==> loud.complaints == [])
  {
    var data, n := Unrolled(ring, prevHead), head - prevHead;
    ReadReportIs(cfg, false, v, ring, prevHead, head, n);
    ReadReportIs(cfg, true, v, ring, prevHead, head, n);
    StreamReport(cfg, false, v, rs, data, n);
    StreamReport(cfg, true, v, rs, data, n);
    if v == None { NoComplaints(cfg, rs); }
  }

  lemma {:induction false} StreamReport(cfg: Config, quiet: bool, v: Option<Validate>, rs: seq<Record>, data: seq<byte>, n: nat)
    requires Decodable(cfg, rs) && n <= |data| && data[..n] == StreamBytes(cfg, rs)
    requires forall i :: 0 <= i < |rs| ==> Printable(rs[i])
    ensures Reported(Loop(cfg, quiet, data, n, 0), quiet, v, cfg)
            == Report(if quiet then [] else rs, AllComplaints(v, cfg, rs), |rs|, n)
  {
    assert |StreamBytes(cfg, rs)| == n;
    PrintableStream(cfg, quiet, data, rs);
    ReportOf(cfg, quiet, v, rs, |rs|, n);
  }

  lemma {:induction false} ReportOf(cfg: Config, quiet: bool, v: Option<Validate>, rs: seq<Record>, events: nat, n: nat)
    ensures Reported(Ended(SeenRecords(rs, quiet), events, n), quiet, v, cfg)
            == Report(if quiet then [] else rs, AllComplaints(v, cfg, rs), events, n)
  {
    SeenComplaints(v, cfg, rs, quiet);
    if !quiet { SeenWhenPrinting(rs); }
  }

  /** Such a call complains, quiet or not, of just what validation has to say against the records it reads. */
  lemma {:induction false} ReadComplainsIff(cfg: Config, quiet: bool, v: Option<Validate>, rs: seq<Record>,
      ring: seq<byte>, prevHead: nat, head: nat, c: Complaint)
    requires Decodable(cfg, rs) && ring != [] && |ring| < TWO_31 && prevHead <= head <= prevHead + |ring|
    requires Unrolled(ring, prevHead)[..head - prevHead] == StreamBytes(cfg, rs)
    requires forall i :: 0 <= i < |rs| ==> Printable(rs[i])
    ensures var report := ReadReport(cfg, quiet, v, ring, prevHead, head);
            report.Report?
            && (c in report.complaints <==> v.Some? && SaidOfAny(c, v.value, cfg, rs))
  {
    var n := head - prevHead;
    ReadReportIs(cfg, quiet, v, ring, prevHead, head, n);
    StreamReport(cfg, quiet, v, rs, Unrolled(ring, prevHead), n);
    ComplaintsIff(c, v, cfg, rs);
  }

  /** A call that comes to a kind it does not know prints the records before it, counts it too and takes all bytes. */
  lemma {:induction false} ReadStopsAtUnhandledKind(cfg: Config, quiet: bool, v: Option<Validate>, rs: seq<Record>,
      ring: seq<byte>, prevHead: nat, head: nat, kind: u32, misc: u16, length: u16)
    requires Decodable(cfg, rs) && !Handled(kind) && ring != [] && |ring| < TWO_31
    requires At(Unrolled(ring, prevHead), 0, StreamBytes(cfg, rs) + HeaderBytes(kind, misc, length))
    requires prevHead + |StreamBytes(cfg, rs)| < head <= prevHead + |ring|
    requires forall i :: 0 <= i < |rs| ==> Printable(rs[i])
    ensures var report := ReadReport(cfg, quiet, v, ring, prevHead, head);
            && report.Report? && report.printed == (if quiet then [] else rs)
            && report.eventsRead == |rs| + 1 && report.offset == head - prevHead
  {
    var n := head - prevHead;
    ReadReportIs(cfg, quiet, v, ring, prevHead, head, n);
    StopReport(cfg, quiet, v, rs, Unrolled(ring, prevHead), n, kind, misc, length);
  }

  lemma {:induction false} StopReport(cfg: Config, quiet: bool, v: Option<Validate>, rs: seq<Record>, data: seq<byte>, n: nat,
      kind: u32, misc: u16, length: u16)
    requires Decodable(cfg, rs) && !Handled(kind) && |StreamBytes(cfg, rs)| < n
    requires At(data, 0, StreamBytes(cfg, rs) + HeaderBytes(kind, misc, length))
    requires forall i :: 0 <= i < |rs| ==> Printable(rs[i])
    ensures Reported(Loop(cfg, quiet, data, n, 0), quiet, v, cfg)
            == Report(if quiet then [] else rs, AllComplaints(v, cfg, rs), |rs| + 1, n)
  {
    StopsAtUnhandledKind(cfg, quiet, data, n, rs, kind, misc, length);
    PrintableSurvive(cfg, quiet, rs);
    ReportOf(cfg, quiet, v, rs, |rs| + 1, n);
  }
}
