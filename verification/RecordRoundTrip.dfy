/**
  The record loop against the documented layouts: whole streams come back, the loop
  stops cleanly at a kind it does not know, and the exact configurations and trailers
  for which decoding is right.
*/
module RecordRoundTrip {
  import opened Bytes
  import opened RecordFormat
  import opened ParseRecord

  lemma {:induction false} HeaderRoundTrip(data: seq<byte>, off: nat, kind: u32, misc: u16, size: u16)
    requires At(data, off, HeaderBytes(kind, misc, size))
    ensures HeaderAt(data, off) == Done(Header(kind, misc, size), off + 8)
  {
    RangeValues();
    AtSplit(data, off, LE(kind, 4), LE(misc, 2) + LE(size, 2));
    AtSplit(data, off + 4, LE(misc, 2), LE(size, 2));
    WordRoundTrip(data, off, kind, 4);
    WordRoundTrip(data, off + 4, misc, 2);
    WordRoundTrip(data, off + 6, size, 2);
  }

  /** The fixed members come back, and the rest of the record starts after them. */
  lemma {:induction false} FieldsThenTail(data: seq<byte>, off: nat, widths: seq<nat>, fields: seq<nat>,
      text: seq<byte>, sampleId: seq<u64>)
    requires FieldsFit(widths, fields) && At(data, off, FieldBytes(widths, fields) + (text + LEs(sampleId)))
    ensures var after := off + Sum(widths);
            && FieldsAt(data, off, widths) == Done(fields, after)
            && At(data, after, text) && At(data, after + |text|, LEs(sampleId))
    ensures |FieldBytes(widths, fields)| == Sum(widths)
  {
    FieldBytesLength(widths, fields);
    AtSplit(data, off, FieldBytes(widths, fields), text + LEs(sampleId));
    AtSplit(data, off + Sum(widths), text, LEs(sampleId));
    FieldsRoundTrip(data, off, widths, fields);
  }

  lemma {:induction false} OneWordTrailer(data: seq<byte>, off: nat, ws: seq<u64>)
    requires |ws| == 1 && At(data, off, LEs(ws))
    ensures U64At(data, off) == Done(ws[0], off + 8) && ws == [ws[0]]
  {
    assert ws[..0] == [] && LEs(ws) == LEs([]) + LE(ws[0], 8) == LE(ws[0], 8);
    U64RoundTrip(data, off, ws[0]);
  }

  /** What follows the fixed members: it comes back whole exactly with the expected trailer and, when printed, a string that ends. */
  lemma {:induction false} TailRoundTripIff(kind: u32, size: u16, quiet: bool, data: seq<byte>, off: nat,
      text: seq<byte>, sampleId: seq<u64>)
    requires At(data, off, text) && At(data, off + |text|, LEs(sampleId))
    requires if HasText(kind) then size == TextStart(kind) + |text| + 8 * |sampleId| else text == []
    ensures TailAt(kind, size, quiet, data, off) == Done((text, sampleId), off + |text| + 8 * |sampleId|)
            <==> |sampleId| == ExpectedTrailer(kind) && (HasText(kind) ==> TextEnds(text, quiet))
    ensures |sampleId| == ExpectedTrailer(kind) && HasText(kind) && !TextEnds(text, quiet) ==>
              TailAt(kind, size, quiet, data, off).Stuck?
  {
    if !HasText(kind) && |sampleId| == 1 {
      OneWordTrailer(data, off, sampleId);
    }
  }

  lemma {:induction false} PlainFromParts(kind: u32, misc: u16, size: u16, quiet: bool, data: seq<byte>, off: nat, widths: seq<nat>,
      fields: seq<nat>, o1: nat, text: seq<byte>, sampleId: seq<u64>, end: nat)
    requires DecoderFields(kind) == Some(widths) && FieldsAt(data, off, widths) == Done(fields, o1)
    ensures PlainAt(kind, misc, size, quiet, data, off) == Done(Plain(kind, misc, fields, text, sampleId), end)
            <==> TailAt(kind, size, quiet, data, o1) == Done((text, sampleId), end)
    ensures PlainAt(kind, misc, size, quiet, data, off).Stuck? <==> TailAt(kind, size, quiet, data, o1).Stuck?
  {
  }

  /**
    A plain record comes back exactly when its sample_id has the length the decoder
    expects and, if it is printed, its text ends.
   */
  lemma {:induction false} PlainRoundTripIff(cfg: Config, quiet: bool, data: seq<byte>, off: nat, r: Record)
    requires r.Plain? && Documented(cfg, r) && SizeFits(cfg, r) && At(data, off, Payload(cfg, r))
    ensures DecoderFields(r.kind).Some?
    ensures PlainAt(r.kind, r.misc, 8 + |Payload(cfg, r)|, quiet, data, off) == Done(r, off + |Payload(cfg, r)|)
            <==> |r.sampleId| == ExpectedTrailer(r.kind) && RecordSurvives(r, quiet)
    ensures |r.sampleId| == ExpectedTrailer(r.kind) && !RecordSurvives(r, quiet) ==>
              PlainAt(r.kind, r.misc, 8 + |Payload(cfg, r)|, quiet, data, off).Stuck?
  {
    var widths, size := HeaderFields(r.kind).value, 8 + |Payload(cfg, r)|;
    LayoutsAgree(r.kind);
    assert |Payload(cfg, r)| == |FieldBytes(widths, r.fields)| + |r.text| + 8 * |r.sampleId|;
    PlainWithWidths(r, widths, quiet, data, off, size);
  }

  lemma {:induction false} PlainWithWidths(r: Record, widths: seq<nat>, quiet: bool, data: seq<byte>, off: nat, size: u16)
    requires r.Plain? && DecoderFields(r.kind) == Some(widths) && FieldsFit(widths, r.fields)
    requires At(data, off, FieldBytes(widths, r.fields) + (r.text + LEs(r.sampleId)))
    requires size == 8 + |FieldBytes(widths, r.fields)| + |r.text| + 8 * |r.sampleId|
    requires if HasText(r.kind) then 8 + Sum(widths) == TextStart(r.kind) else r.text == []
    ensures PlainAt(r.kind, r.misc, size, quiet, data, off) == Done(r, off + size - 8)
            <==> |r.sampleId| == ExpectedTrailer(r.kind) && RecordSurvives(r, quiet)
    ensures |r.sampleId| == ExpectedTrailer(r.kind) && !RecordSurvives(r, quiet) ==>
              PlainAt(r.kind, r.misc, size, quiet, data, off).Stuck?
  {
    FieldsThenTail(data, off, widths, r.fields, r.text, r.sampleId);
    var o1 := off + Sum(widths);
    TailRoundTripIff(r.kind, size, quiet, data, o1, r.text, r.sampleId);
    PlainFromParts(r.kind, r.misc, size, quiet, data, off, widths, r.fields, o1, r.text, r.sampleId, off + size - 8);
  }

  /** What one turn of the loop makes of a record that stands at its offset. */
  function TurnOver(r: Record, quiet: bool, end: nat): Turn {
    if RecordSurvives(r, quiet) then Parse(SeenRecord(r, quiet), end) else Trap
  }

  lemma {:induction false} SampleDetails(cfg: Config, quiet: bool, data: seq<byte>, off: nat, r: Record)
    requires WellFormed(cfg, r) && r.Sample? && Faithful(cfg) && At(data, off, Payload(cfg, r))
    ensures DetailsAt(cfg, quiet, Header(SAMPLE, r.misc, 8 + |Payload(cfg, r)|), data, off)
            == if RecordSurvives(r, quiet) then Done(SeenRecord(r, quiet), off + |Payload(cfg, r)|) else Stuck
  {
    FaithfulOrders(cfg);
    RequestedOnly(HEADER_ORDER, cfg);
    BodyRoundTrip(Requested(HEADER_ORDER, cfg), cfg, quiet, data, off, r.values);
  }

  lemma {:induction false} PlainDetails(cfg: Config, quiet: bool, data: seq<byte>, off: nat, r: Record)
    requires WellFormed(cfg, r) && r.Plain? && At(data, off, Payload(cfg, r))
    ensures Handled(r.kind)
    ensures DetailsAt(cfg, quiet, Header(r.kind, r.misc, 8 + |Payload(cfg, r)|), data, off)
            == if RecordSurvives(r, quiet) then Done(r, off + |Payload(cfg, r)|) else Stuck
  {
    PlainRoundTripIff(cfg, quiet, data, off, r);
  }

  /**
    A record comes back from its documented bytes, which it consumes to the last one,
    exactly when no print of it overruns; otherwise the turn is undefined.
   */
  lemma {:induction false} RecordRoundTrip(cfg: Config, quiet: bool, data: seq<byte>, off: nat, r: Record)
    requires WellFormed(cfg, r) && (r.Sample? ==> Faithful(cfg))
    requires At(data, off, RecordBytes(cfg, r))
    ensures TurnAt(cfg, quiet, data, off) == TurnOver(r, quiet, off + |RecordBytes(cfg, r)|)
  {
    var body := Payload(cfg, r);
    AtSplit(data, off, HeaderBytes(Kind(r), r.misc, 8 + |body|), body);
    HeaderRoundTrip(data, off, Kind(r), r.misc, 8 + |body|);
    if r.Sample? { SampleDetails(cfg, quiet, data, off + 8, r); } else { PlainDetails(cfg, quiet, data, off + 8, r); }
    TurnFromDetails(cfg, quiet, data, off, Header(Kind(r), r.misc, 8 + |body|));
  }

  lemma {:induction false} TurnFromDetails(cfg: Config, quiet: bool, data: seq<byte>, off: nat, h: Header)
    requires HeaderAt(data, off) == Done(h, off + 8) && Handled(h.kind)
    ensures TurnAt(cfg, quiet, data, off)
            == match DetailsAt(cfg, quiet, h, data, off + 8) case Stuck => Trap case Done(r, next) => Parse(r, next)
  {
  }

  lemma {:induction false} RequestedOnly(order: seq<Item>, cfg: Config)
    ensures forall item :: item in Requested(order, cfg) <==> item in order && cfg.Wants(item)
  {
    if order != [] {
      RequestedOnly(order[1..], cfg);
      assert forall item :: item in order <==> item == order[0] || item in order[1..];
    }
  }

  predicate Decodable(cfg: Config, rs: seq<Record>) {
    && AllWellFormed(cfg, rs)
    && forall i :: 0 <= i < |rs| ==> rs[i].Sample? ==> Faithful(cfg)
  }

  /** Turn by turn the records follow each other inside the first size bytes. */
  predicate Consecutive(turn: nat -> Turn, size: int, offs: seq<nat>, rs: seq<Record>) {
    && |offs| == |rs| + 1
    && forall i :: 0 <= i < |rs| ==> offs[i] < size && turn(offs[i]) == Parse(rs[i], offs[i + 1])
  }

  lemma {:induction false} ConsecutiveRest(turn: nat -> Turn, size: int, offs: seq<nat>, rs: seq<Record>)
    requires Consecutive(turn, size, offs, rs) && rs != []
    ensures Consecutive(turn, size, offs[1..], rs[1..])
  {
    forall i | 0 <= i < |rs| - 1
      ensures offs[1..][i] < size && turn(offs[1..][i]) == Parse(rs[1..][i], offs[1..][i + 1])
    {
      assert turn(offs[i + 1]) == Parse(rs[i + 1], offs[i + 2]);
    }
  }

  /** A walk over consecutive records, whatever they are made of. */
  lemma {:induction false} WalkOver(turn: nat -> Turn, size: int, offs: seq<nat>, rs: seq<Record>)
    requires Advances(turn) && Consecutive(turn, size, offs, rs)
    ensures Walk(turn, size, offs[0]) == Prepend(rs, Walk(turn, size, offs[|rs|]))
    decreases rs
  {
    var last := Walk(turn, size, offs[|rs|]);
    if rs == [] {
      if last.Ended? { assert rs + last.records == last.records; }
    } else {
      assert turn(offs[0]) == Parse(rs[0], offs[1]);
      ConsecutiveRest(turn, size, offs, rs);
      WalkOver(turn, size, offs[1..], rs[1..]);
      if last.Ended? { assert [rs[0]] + (rs[1..] + last.records) == rs + last.records; }
    }
  }

  /** Turns over what was laid down lead from each offset to the next, or trap. */
  predicate Laid(turn: nat -> Turn, size: int, offs: seq<nat>, rs: seq<Record>, quiet: bool) {
    && |offs| == |rs| + 1
    && forall i :: 0 <= i < |rs| ==> offs[i] < size && turn(offs[i]) == TurnOver(rs[i], quiet, offs[i + 1])
  }

  lemma {:induction false} WalkTraps(turn: nat -> Turn, size: int, offs: seq<nat>, rs: seq<Record>, quiet: bool, p: nat)
    requires Advances(turn) && Laid(turn, size, offs, rs, quiet)
    requires p < |rs| && !RecordSurvives(rs[p], quiet)
    ensures Walk(turn, size, offs[0]).Broken?
    decreases p
  {
    assert turn(offs[0]) == TurnOver(rs[0], quiet, offs[1]);
    if p == 0 || !RecordSurvives(rs[0], quiet) {
    } else {
      assert Laid(turn, size, offs[1..], rs[1..], quiet) by {
        forall i | 0 <= i < |rs| - 1
          ensures offs[1..][i] < size && turn(offs[1..][i]) == TurnOver(rs[1..][i], quiet, offs[1..][i + 1])
        {
          assert turn(offs[i + 1]) == TurnOver(rs[i + 1], quiet, offs[i + 2]);
        }
      }
      WalkTraps(turn, size, offs[1..], rs[1..], quiet, p - 1);
    }
  }

  /** The walk over records that were laid down: past all of them, or broken at the first whose print overruns. */
  lemma {:induction false} WalkLaid(turn: nat -> Turn, size: int, offs: seq<nat>, rs: seq<Record>, quiet: bool)
    requires Advances(turn) && Laid(turn, size, offs, rs, quiet)
    ensures Walk(turn, size, offs[0])
            == if RecordsSurvive(rs, quiet) then Prepend(SeenRecords(rs, quiet), Walk(turn, size, offs[|rs|])) else Broken
  {
    if RecordsSurvive(rs, quiet) {
      assert Consecutive(turn, size, offs, SeenRecords(rs, quiet));
      WalkOver(turn, size, offs, SeenRecords(rs, quiet));
    } else {
      var p :| 0 <= p < |rs| && !RecordSurvives(rs[p], quiet);
      WalkTraps(turn, size, offs, rs, quiet, p);
    }
  }

  lemma {:induction false} OffsetsIncrease(off: nat, chunks: seq<seq<byte>>)
    requires forall i :: 0 <= i < |chunks| ==> |chunks[i]| > 0
    ensures forall i :: 0 <= i < |chunks| ==> Offsets(off, chunks)[i] < off + |Concat(chunks)|
    decreases chunks
  {
    if chunks != [] {
      forall i | 0 <= i < |chunks[1..]|
        ensures |chunks[1..][i]| > 0
      {
        assert chunks[1..][i] == chunks[i + 1];
      }
      OffsetsIncrease(off + |chunks[0]|, chunks[1..]);
    }
  }

  lemma {:induction false} TurnsOverRecords(cfg: Config, quiet: bool, data: seq<byte>, size: int, off: nat, rs: seq<Record>)
    requires Decodable(cfg, rs)
    requires At(data, off, StreamBytes(cfg, rs)) && off + |StreamBytes(cfg, rs)| <= size
    ensures Laid(Turns(cfg, quiet, data), size, Offsets(off, Encodings(cfg, rs)), rs, quiet)
  {
    var offs := Offsets(off, Encodings(cfg, rs));
    OffsetsIncrease(off, Encodings(cfg, rs));
    forall i | 0 <= i < |rs|
      ensures offs[i] < size && Turns(cfg, quiet, data)(offs[i]) == TurnOver(rs[i], quiet, offs[i + 1])
    {
      ChunkAt(data, off, Encodings(cfg, rs), i);
      RecordRoundTrip(cfg, quiet, data, offs[i], rs[i]);
    }
  }

  /** A finished run over records, or none if a print of one of them overruns. */
  function RunOver(rs: seq<Record>, quiet: bool, events: nat, size: int): Run {
    if RecordsSurvive(rs, quiet) then Ended(SeenRecords(rs, quiet), events, size) else Broken
  }

  /** The loop undoes the encoder on every stream of well-formed records whose prints stay inside what they print. */
  lemma {:induction false} StreamRoundTrip(cfg: Config, quiet: bool, data: seq<byte>, rs: seq<Record>)
    requires Decodable(cfg, rs) && At(data, 0, StreamBytes(cfg, rs))
    ensures var size := |StreamBytes(cfg, rs)|;
            Loop(cfg, quiet, data, size, 0) == RunOver(rs, quiet, |rs|, size)
  {
    var size, turn, offs := |StreamBytes(cfg, rs)|, Turns(cfg, quiet, data), Offsets(0, Encodings(cfg, rs));
    TurnsOverRecords(cfg, quiet, data, size, 0, rs);
    WalkLaid(turn, size, offs, rs, quiet);
    PrependEnd(SeenRecords(rs, quiet), 0, size);
  }

  lemma {:induction false} PrependEnd(rs: seq<Record>, n: nat, size: int)
    ensures Prepend(rs, Ended([], n, size)) == Ended(rs, |rs| + n, size)
  {
    assert rs + [] == rs;
  }

  /**
    A kind the switch does not know ends the loop: the records before it are decoded as
    usual, it is counted, and the offset is moved to the end of the chunk.
   */
  lemma {:induction false} StopsAtUnhandledKind(cfg: Config, quiet: bool, data: seq<byte>, size: int, rs: seq<Record>,
      kind: u32, misc: u16, length: u16)
    requires Decodable(cfg, rs) && !Handled(kind)
    requires At(data, 0, StreamBytes(cfg, rs) + HeaderBytes(kind, misc, length))
    requires |StreamBytes(cfg, rs)| < size
    ensures Loop(cfg, quiet, data, size, 0) == RunOver(rs, quiet, |rs| + 1, size)
  {
    var off := |StreamBytes(cfg, rs)|;
    AtSplit(data, 0, StreamBytes(cfg, rs), HeaderBytes(kind, misc, length));
    HeaderRoundTrip(data, off, kind, misc, length);
    assert TurnAt(cfg, quiet, data, off) == Skip;
    TurnsOverRecords(cfg, quiet, data, size, 0, rs);
    WalkLaid(Turns(cfg, quiet, data), size, Offsets(0, Encodings(cfg, rs)), rs, quiet);
    PrependEnd(SeenRecords(rs, quiet), 1, size);
  }

  // ---- what quiet changes ----

  /** Printing the record stays inside what is printed. */
  predicate Printable(r: Record) {
    match r
    case Plain(kind, _, _, text, _) => HasText(kind) ==> 0 in text
    case Sample(_, values) => forall i :: 0 <= i < |values| && values[i].Stack? ==> DumpFits(|values[i].bytes|, values[i].used)
  }

  /** A dump that is printed inside its stack is short enough for its subscript. */
  lemma {:induction false} FittingDumpEnds(size: nat, used: u64)
    requires DumpFits(size, used) && size < TWO_31
    ensures DumpEnds(used)
  {
  }

  lemma {:induction false} PrintableIff(cfg: Config, r: Record)
    requires WellFormed(cfg, r)
    ensures Printable(r) <==> RecordSurvives(r, false)
    ensures Printable(r) ==> RecordSurvives(r, true)
  {
    if r.Sample? {
      forall i | 0 <= i < |r.values| && r.values[i].Stack?
        ensures DumpFits(|r.values[i].bytes|, r.values[i].used) ==> DumpEnds(r.values[i].used)
      {
        assert Fits(Requested(HEADER_ORDER, cfg)[i], cfg, r.values[i]);
        if DumpFits(|r.values[i].bytes|, r.values[i].used) { FittingDumpEnds(|r.values[i].bytes|, r.values[i].used); }
      }
      assert Printable(r) ==> forall i :: 0 <= i < |r.values| ==> Survives(r.values[i], false) && Survives(r.values[i], true);
      assert RecordSurvives(r, false) ==> forall i :: 0 <= i < |r.values| ==> Survives(r.values[i], false);
    }
  }

  /** Both runs end, at the same offset and with the same count. */
  predicate SameProgress(a: Run, b: Run) {
    a.Ended? && b.Ended? && a.events == b.events && a.offset == b.offset
  }

  /**
    A quiet and a printing run over a stream make the same progress if and only if every
    text ends and every stack dump is printed inside the stack it prints.
   */
  lemma {:induction false} QuietChangesNothingIff(cfg: Config, data: seq<byte>, rs: seq<Record>)
    requires Decodable(cfg, rs) && At(data, 0, StreamBytes(cfg, rs))
    ensures var size := |StreamBytes(cfg, rs)|;
            SameProgress(Loop(cfg, false, data, size, 0), Loop(cfg, true, data, size, 0))
            <==> forall i :: 0 <= i < |rs| ==> Printable(rs[i])
  {
    StreamRoundTrip(cfg, false, data, rs);
    StreamRoundTrip(cfg, true, data, rs);
    forall i | 0 <= i < |rs|
      ensures Printable(rs[i]) <==> RecordSurvives(rs[i], false)
      ensures Printable(rs[i]) ==> RecordSurvives(rs[i], true)
    {
      PrintableIff(cfg, rs[i]);
    }
  }

  /** Printable records make both runs end, whatever they see. */
  lemma {:induction false} PrintableStream(cfg: Config, quiet: bool, data: seq<byte>, rs: seq<Record>)
    requires Decodable(cfg, rs) && At(data, 0, StreamBytes(cfg, rs)) && forall i :: 0 <= i < |rs| ==> Printable(rs[i])
    ensures Loop(cfg, quiet, data, |StreamBytes(cfg, rs)|, 0) == Ended(SeenRecords(rs, quiet), |rs|, |StreamBytes(cfg, rs)|)
  {
    StreamRoundTrip(cfg, quiet, data, rs);
    PrintableSurvive(cfg, quiet, rs);
  }

  lemma {:induction false} PrintableSurvive(cfg: Config, quiet: bool, rs: seq<Record>)
    requires AllWellFormed(cfg, rs) && forall i :: 0 <= i < |rs| ==> Printable(rs[i])
    ensures RecordsSurvive(rs, quiet)
  {
    forall i | 0 <= i < |rs|
      ensures RecordSurvives(rs[i], quiet)
    {
      PrintableIff(cfg, rs[i]);
    }
  }

  /** On any bytes at all, a quiet turn follows a printing turn that is defined. */
  lemma {:induction false} QuietTurnFollows(cfg: Config, data: seq<byte>, off: nat)
    requires TurnAt(cfg, false, data, off) != Trap
    ensures TurnAt(cfg, true, data, off) == Quieted(TurnAt(cfg, false, data, off))
  {
    var h := HeaderAt(data, off);
    if h.value.kind == SAMPLE {
      QuietBodyFollows(Requested(DECODER_ORDER, cfg), cfg, data, h.next);
    }
  }

  lemma {:induction false} QuietBodyFollows(items: seq<Item>, cfg: Config, data: seq<byte>, off: nat)
    requires BodyAt(items, cfg, false, data, off).Done?
    ensures var r := BodyAt(items, cfg, false, data, off);
            BodyAt(items, cfg, true, data, off) == Done(SeenAll(r.value, true), r.next)
    decreases |items|
  {
    if items == [] {
      assert SeenAll([], true) == [];
    } else {
      var one := ItemAt(items[0], cfg, false, data, off);
      QuietItemFollows(items[0], cfg, data, off);
      QuietBodyFollows(items[1..], cfg, data, one.next);
      var rest := BodyAt(items[1..], cfg, false, data, one.next).value;
      assert SeenAll([one.value] + rest, true) == [Seen(one.value, true)] + SeenAll(rest, true);
    }
  }

  lemma {:induction false} QuietItemFollows(item: Item, cfg: Config, data: seq<byte>, off: nat)
    requires ItemAt(item, cfg, false, data, off).Done?
    ensures var r := ItemAt(item, cfg, false, data, off);
            ItemAt(item, cfg, true, data, off) == Done(Seen(r.value, true), r.next)
  {
  }

  /** What a quiet turn makes of what a printing turn sees. */
  function Quieted(t: Turn): Turn {
    match t case Parse(r, next) => Parse(SeenRecord(r, true), next) case _ => t
  }

  /** A printing run sees all. */
  lemma {:induction false} SeenWhenPrinting(rs: seq<Record>)
    ensures SeenRecords(rs, false) == rs
  {
    forall i | 0 <= i < |rs|
      ensures SeenRecord(rs[i], false) == rs[i]
    {
      if rs[i].Sample? { assert SeenAll(rs[i].values, false) == rs[i].values; }
    }
  }

  /** What quiet steps over is not validated. */
  lemma {:induction false} SeenBodyComplaints(validate: Option<Validate>, items: seq<Item>, values: seq<Value>, quiet: bool)
    requires |items| == |values|
    ensures BodyComplaints(validate, items, SeenAll(values, quiet)) == BodyComplaints(validate, items, values)
    decreases |items|
  {
    if items != [] {
      var n := |items| - 1;
      SeenBodyComplaints(validate, items[..n], values[..n], quiet);
      assert SeenAll(values, quiet)[..n] == SeenAll(values[..n], quiet);
    }
  }

  lemma {:induction false} SeenComplaints(validate: Option<Validate>, cfg: Config, rs: seq<Record>, quiet: bool)
    ensures AllComplaints(validate, cfg, SeenRecords(rs, quiet)) == AllComplaints(validate, cfg, rs)
    decreases |rs|
  {
    if rs != [] {
      var n := |rs| - 1;
      SeenComplaints(validate, cfg, rs[..n], quiet);
      assert SeenRecords(rs, quiet)[..n] == SeenRecords(rs[..n], quiet);
      if rs[n].Sample? && |rs[n].values| == |Requested(DECODER_ORDER, cfg)| {
        SeenBodyComplaints(validate, Requested(DECODER_ORDER, cfg), rs[n].values, quiet);
      }
    }
  }

  /** c is what validation has to say against one part of the record. */
  ghost predicate SaidOfRecord(c: Complaint, expected: Validate, cfg: Config, r: Record) {
    var items := Requested(HEADER_ORDER, cfg);
    r.Sample? && exists i :: 0 <= i < |r.values| && i < |items| && SaidOf(c, expected, items[i], r.values[i])
  }

  ghost predicate SaidOfAny(c: Complaint, expected: Validate, cfg: Config, rs: seq<Record>) {
    exists k :: 0 <= k < |rs| && SaidOfRecord(c, expected, cfg, rs[k])
  }

  lemma {:induction false} RecordComplaintIff(c: Complaint, validate: Option<Validate>, cfg: Config, r: Record)
    requires WellFormed(cfg, r) && (r.Sample? ==> Faithful(cfg))
    ensures c in RecordComplaints(validate, cfg, r) <==> validate.Some? && SaidOfRecord(c, validate.value, cfg, r)
  {
    if r.Sample? {
      FaithfulOrders(cfg);
      var items := Requested(HEADER_ORDER, cfg);
      forall i | 0 <= i < |r.values| && r.values[i].Branches?
        ensures |r.values[i].words| % 3 == 0
      {
        assert Fits(items[i], cfg, r.values[i]);
      }
      BodyComplaintIff(c, validate, items, r.values);
    }
  }

  /** All complaints about records of a stream are said of one of them, and all that can be said is. */
  lemma {:induction false} ComplaintsIff(c: Complaint, validate: Option<Validate>, cfg: Config, rs: seq<Record>)
    requires Decodable(cfg, rs)
    ensures c in AllComplaints(validate, cfg, rs)
            <==> validate.Some? && SaidOfAny(c, validate.value, cfg, rs)
    decreases |rs|
  {
    if rs != [] {
      var n := |rs| - 1;
      ComplaintsIff(c, validate, cfg, rs[..n]);
      RecordComplaintIff(c, validate, cfg, rs[n]);
      if validate.Some? { AnyOf(rs, r => SaidOfRecord(c, validate.value, cfg, r)); }
    }
  }

  lemma {:induction false} AnyOf(rs: seq<Record>, p: Record -> bool)
    requires rs != []
    ensures var n := |rs| - 1;
            (exists k :: 0 <= k < |rs| && p(rs[k])) <==> (exists k :: 0 <= k < |rs[..n]| && p(rs[..n][k])) || p(rs[n])
  {
    var n := |rs| - 1;
    if k :| 0 <= k < n && p(rs[k]) { assert p(rs[..n][k]); }
    if k :| 0 <= k < |rs[..n]| && p(rs[..n][k]) { assert p(rs[k]); }
  }

  /** Nothing is complained of unless validation is asked for. */
  lemma {:induction false} NoComplaints(cfg: Config, rs: seq<Record>)
    ensures AllComplaints(None, cfg, rs) == []
    decreases |rs|
  {
    if rs != [] {
      var n := |rs| - 1;
      NoComplaints(cfg, rs[..n]);
      if rs[n].Sample? && |rs[n].values| == |Requested(DECODER_ORDER, cfg)| {
        NoBodyComplaints(Requested(DECODER_ORDER, cfg), rs[n].values);
      }
    }
  }

  lemma {:induction false} NoBodyComplaints(items: seq<Item>, values: seq<Value>)
    requires |items| == |values|
    ensures BodyComplaints(None, items, values) == []
    decreases |items|
  {
    if items != [] { NoBodyComplaints(items[..|items| - 1], values[..|items| - 1]); }
  }

  lemma {:induction false} SeenFirst(r: Record, rest: seq<Record>)
    ensures SeenRecords([r] + rest, true) == [SeenRecord(r, true)] + SeenRecords(rest, true)
  {
  }

  lemma {:induction false} WalkFollows(loud: nat -> Turn, soft: nat -> Turn, size: int, off: nat)
    requires Advances(loud) && Advances(soft)
    requires forall o: nat :: loud(o) != Trap ==> soft(o) == Quieted(loud(o))
    requires Walk(loud, size, off).Ended?
    ensures var r := Walk(loud, size, off); Walk(soft, size, off) == Ended(SeenRecords(r.records, true), r.events, r.offset)
    decreases size - off
  {
    if off >= size || loud(off) == Skip {
      assert SeenRecords([], true) == [];
    } else {
      var t := loud(off);
      WalkFollows(loud, soft, size, t.next);
      SeenFirst(t.record, Walk(loud, size, t.next).records);
    }
  }

  /** So on any bytes, where a printing run ends a quiet run ends too, having taken the same turns. */
  lemma {:induction false} QuietRunFollows(cfg: Config, data: seq<byte>, size: int, off: nat)
    requires Loop(cfg, false, data, size, off).Ended?
    ensures var r := Loop(cfg, false, data, size, off);
            Loop(cfg, true, data, size, off) == Ended(SeenRecords(r.records, true), r.events, r.offset)
  {
    forall o: nat | TurnAt(cfg, false, data, o) != Trap
      ensures TurnAt(cfg, true, data, o) == Quieted(TurnAt(cfg, false, data, o))
    {
      QuietTurnFollows(cfg, data, o);
    }
    WalkFollows(Turns(cfg, false, data), Turns(cfg, true, data), size, off);
  }

  /** A stack of which every byte is used, as the kernel fills it, is printed inside itself only if it has 0 or 4 bytes. */
  lemma {:induction false} FullDumpFitsIff(size: nat)
    requires size < TWO_31
    ensures DumpFits(size, size) <==> size == 0 || size == 4
  {
  }

  /** Sixteen bytes of stack, all used: decoded when quiet, undefined when printed. */
  lemma {:induction false} SixteenByteDump(cfg: Config, data: seq<byte>, off: nat, bytes: seq<byte>)
    requires |bytes| == 16 && At(data, off, ItemBytes(StackUser, cfg, Stack(bytes, 16)))
    ensures ItemAt(StackUser, cfg, true, data, off) == Done(Stack(bytes, 16), off + 32)
    ensures ItemAt(StackUser, cfg, false, data, off) == Stuck
  {
    ItemRoundTrip(StackUser, cfg, true, data, off, Stack(bytes, 16));
    ItemRoundTrip(StackUser, cfg, false, data, off, Stack(bytes, 16));
  }

  /** sample_type 3 asks for an address and then for a process and a thread, sixteen bytes in all. */
  lemma {:induction false} AddressThenThread(cfg: Config, quiet: bool, data: seq<byte>, off: nat, ip: u64, pid: u32, tid: u32)
    requires cfg.sampleType == 3 && At(data, off, LE(ip, 8) + (LE(pid, 4) + LE(tid, 4)))
    ensures BodyAt(Requested(DECODER_ORDER, cfg), cfg, quiet, data, off) == Done([Word(ip), Pair(pid, tid)], off + 16)
  {
    TwoParts(cfg);
    AtSplit(data, off, LE(ip, 8), LE(pid, 4) + LE(tid, 4));
    ItemRoundTrip(Ip, cfg, quiet, data, off, Word(ip));
    ItemRoundTrip(Tid, cfg, quiet, data, off + 8, Pair(pid, tid));
    var read := ItemReader(cfg, quiet, data);
    assert read(Ip, off) == Done(Word(ip), off + 8) && read(Tid, off + 8) == Done(Pair(pid, tid), off + 16);
    assert [Ip, Tid][1..] == [Tid] && [Tid][1..] == [];
    assert Chained(read, [], off + 16) == Done([], off + 16);
    assert [Pair(pid, tid)] + [] == [Pair(pid, tid)];
    assert Chained(read, [Tid], off + 8) == Done([Pair(pid, tid)], off + 16);
    assert [Word(ip)] + [Pair(pid, tid)] == [Word(ip), Pair(pid, tid)];
  }

  lemma {:induction false} TwoParts(cfg: Config)
    requires cfg.sampleType == 3
    ensures Requested(DECODER_ORDER, cfg) == [Ip, Tid]
  {
    var rest := DECODER_ORDER[2..];
    forall item | item in rest
      ensures !cfg.Wants(item)
    {
      NoHigherBits(item.Bit());
    }
    RequestedNone(rest, cfg);
    assert Bits.Test(3, 0) && Bits.Test(3, 1);
    assert DECODER_ORDER[1..][0] == Tid && DECODER_ORDER[1..][1..] == rest;
  }

  lemma {:induction false} NoHigherBits(k: nat)
    ensures Bits.Test(3, k) <==> k < 2
  {
    if k >= 2 { Bits.TestZero(k - 2); }
  }

  // ---- when a sample comes back ----

  /** When printed, every requested part has the value that was laid down for it, and all bytes are used. */
  predicate Recovers(cfg: Config, values: seq<Value>, data: seq<byte>, off: nat)
    requires BodyFits(Requested(HEADER_ORDER, cfg), cfg, values)
  {
    var laid, read := Requested(HEADER_ORDER, cfg), Requested(DECODER_ORDER, cfg);
    var r := BodyAt(read, cfg, false, data, off);
    && r.Done? && r.next == off + |BodyBytes(laid, cfg, values)|
    && forall i, j :: 0 <= i < |read| && 0 <= j < |laid| && read[i] == laid[j] ==> r.value[i] == values[j]
  }

  /** Every sample recovers whose stack dump stays inside its stack. */
  ghost predicate AlwaysRecovers(cfg: Config) {
    forall values, data: seq<byte>, off: nat ::
      BodyFits(Requested(HEADER_ORDER, cfg), cfg, values) && AllSurvive(values, false)
      && At(data, off, BodyBytes(Requested(HEADER_ORDER, cfg), cfg, values))
      ==> Recovers(cfg, values, data, off)
  }

  function Zeros(n: nat): (s: seq<u64>)
    ensures |s| == n
  {
    seq(n, _ => 0)
  }

  /** A value whose first word holds n, and is otherwise as empty as that allows. */
  function Smallest(item: Item, cfg: Config, n: nat): (v: Value)
    requires n <= 1
    ensures Fits(item, cfg, v) && Survives(v, false)
  {
    var opt := (bit: nat) => if cfg.Reads(bit) then Some(0) else None;
    match item.Shape()
    case OneWord => Word(n)
    case TwoInts => Pair(n, 0)
    case Counts =>
      if cfg.Reads(GROUP) then
        Group(n, opt(TOTAL_TIME_ENABLED), opt(TOTAL_TIME_RUNNING), if n == 0 then [] else Zeros(CounterWords(cfg)))
      else Single(n, opt(TOTAL_TIME_ENABLED), opt(TOTAL_TIME_RUNNING), opt(FORMAT_ID), opt(LOST_COUNT))
    case WordList => Chain(Zeros(n))
    case Bytes => Blob(if n == 0 then [] else [0])
    case TripleList => Branches(if n == 0 then [] else [0, 0, 0])
    case RegisterSet => Regs(n, Zeros(cfg.Registers()))
    case StackCopy => Stack(if n == 0 then [] else [0], 0)
  }

  /** The parts before position p stand at the start of a body, and part p right after them. */
  lemma {:induction false} BodyBytesSplit(items: seq<Item>, cfg: Config, values: seq<Value>, p: nat, data: seq<byte>, off: nat)
    requires BodyFits(items, cfg, values) && p < |items| && At(data, off, BodyBytes(items, cfg, values))
    ensures BodyFits(items[..p], cfg, values[..p]) && At(data, off, BodyBytes(items[..p], cfg, values[..p]))
    ensures At(data, off + |BodyBytes(items[..p], cfg, values[..p])|, ItemBytes(items[p], cfg, values[p]))
  {
    var parts := PartBytes(items, cfg, values);
    assert parts[..p] == PartBytes(items[..p], cfg, values[..p]);
    ConcatSplit(data, off, parts, p);
  }

  /** What is read at position p of a chain depends on the keys before it only through the offset. */
  lemma {:induction false} ChainedReadsAt<K(!new), V>(read: Reader<K, V>, keys: seq<K>, off: nat, p: nat)
    requires p < |keys| && Chained(read, keys, off).Done?
    ensures Chained(read, keys[..p], off).Done?
    ensures read(keys[p], Chained(read, keys[..p], off).next).Done?
    ensures Chained(read, keys, off).value[p] == read(keys[p], Chained(read, keys[..p], off).next).value
    decreases p
  {
    if p > 0 {
      assert keys[..p][1..] == keys[1..][..p - 1] && keys[..p][0] == keys[0];
      ChainedReadsAt(read, keys[1..], read(keys[0], off).next, p - 1);
    }
  }

  /** The buffer holds a 64-bit one at off. */
  predicate OneStands(data: seq<byte>, off: nat) {
    U64At(data, off) == Done(1, off + 8) && U32At(data, off) == Done(1, off + 4)
  }

  lemma {:induction false} OneAsWord(data: seq<byte>, off: nat, n: u64, rest: seq<byte>)
    requires n == 1 && At(data, off, LE(n, 8) + rest)
    ensures OneStands(data, off)
  {
    AtSplit(data, off, LE(n, 8), rest);
    U64RoundTrip(data, off, n);
    assert n / 256 == 0 && LE(n, 8)[..4] == LE(n, 4);
    assert LE(n, 8) == LE(n, 8)[..4] + LE(n, 8)[4..];
    AtSplit(data, off, LE(n, 4), LE(n, 8)[4..]);
    RangeValues();
    WordRoundTrip(data, off, n, 4);
  }

  /** Where the buffer holds a one, no part is read as an empty one. */
  lemma {:induction false} OneIsNotEmpty(item: Item, cfg: Config, data: seq<byte>, off: nat)
    requires OneStands(data, off) && ItemAt(item, cfg, false, data, off).Done?
    ensures ItemAt(item, cfg, false, data, off).value != Smallest(item, cfg, 0)
  {
  }

  /** The bytes of a part that is not empty start with a one, unless its first member is short. */
  lemma {:induction false} OneIsFirst(item: Item, cfg: Config, data: seq<byte>, off: nat)
    requires At(data, off, ItemBytes(item, cfg, Smallest(item, cfg, 1)))
    requires item.Shape() == OneWord || item.Shape() == StackCopy || item.Shape() == RegisterSet
    ensures OneStands(data, off)
  {
    var v := Smallest(item, cfg, 1);
    match item.Shape()
    case OneWord =>
      assert LE(v.word, 8) + [] == LE(v.word, 8);
      OneAsWord(data, off, v.word, []);
    case RegisterSet => OneAsWord(data, off, v.abi, LEs(v.regs));
    case StackCopy => OneAsWord(data, off, |v.bytes|, v.bytes + LE(v.used, 8));
  }

  /** The parts before p end where part p stands. */
  lemma {:induction false} PartStands(laid: seq<Item>, cfg: Config, values: seq<Value>, p: nat, data: seq<byte>) returns (mid: nat)
    requires BodyFits(laid, cfg, values) && AllSurvive(values, false) && p < |laid|
    requires At(data, 0, BodyBytes(laid, cfg, values)) && (Read in laid[..p] ==> !cfg.Reads(LOST_COUNT))
    ensures At(data, mid, ItemBytes(laid[p], cfg, values[p]))
    ensures BodyAt(laid[..p], cfg, false, data, 0).Done? && BodyAt(laid[..p], cfg, false, data, 0).next == mid
  {
    mid := |BodyBytes(laid[..p], cfg, values[..p])|;
    BodyBytesSplit(laid, cfg, values, p, data, 0);
    BodyRoundTrip(laid[..p], cfg, false, data, 0, values[..p]);
  }

  /** What is read at position p, in a sample that recovers, is what was laid down for that part. */
  lemma {:induction false} PartRead(cfg: Config, values: seq<Value>, p: nat, data: seq<byte>, mid: nat)
    requires BodyFits(Requested(HEADER_ORDER, cfg), cfg, values) && p < |Requested(DECODER_ORDER, cfg)|
    requires Recovers(cfg, values, data, 0)
    requires BodyAt(Requested(DECODER_ORDER, cfg)[..p], cfg, false, data, 0).Done?
             && BodyAt(Requested(DECODER_ORDER, cfg)[..p], cfg, false, data, 0).next == mid
    ensures ItemAt(Requested(DECODER_ORDER, cfg)[p], cfg, false, data, mid).Done?
    ensures forall j :: 0 <= j < |values| && Requested(HEADER_ORDER, cfg)[j] == Requested(DECODER_ORDER, cfg)[p] ==>
              values[j] == ItemAt(Requested(DECODER_ORDER, cfg)[p], cfg, false, data, mid).value
  {
    ChainedReadsAt(ItemReader(cfg, false, data), Requested(DECODER_ORDER, cfg), 0, p);
  }

  /** The two orders agree before position p: where part p stands and what is read there. */
  lemma {:induction false} PartReached(cfg: Config, values: seq<Value>, p: nat, data: seq<byte>) returns (mid: nat)
    requires BodyFits(Requested(HEADER_ORDER, cfg), cfg, values) && AllSurvive(values, false)
    requires At(data, 0, BodyBytes(Requested(HEADER_ORDER, cfg), cfg, values))
    requires p < |Requested(HEADER_ORDER, cfg)| && p < |Requested(DECODER_ORDER, cfg)|
    requires Requested(HEADER_ORDER, cfg)[..p] == Requested(DECODER_ORDER, cfg)[..p]
    requires Read in Requested(HEADER_ORDER, cfg)[..p] ==> !cfg.Reads(LOST_COUNT)
    requires Recovers(cfg, values, data, 0)
    ensures At(data, mid, ItemBytes(Requested(HEADER_ORDER, cfg)[p], cfg, values[p]))
    ensures ItemAt(Requested(DECODER_ORDER, cfg)[p], cfg, false, data, mid).Done?
    ensures forall j :: 0 <= j < |values| && Requested(HEADER_ORDER, cfg)[j] == Requested(DECODER_ORDER, cfg)[p] ==>
              values[j] == ItemAt(Requested(DECODER_ORDER, cfg)[p], cfg, false, data, mid).value
  {
    mid := PartStands(Requested(HEADER_ORDER, cfg), cfg, values, p, data);
    PartRead(cfg, values, p, data, mid);
  }

  /** Empty parts everywhere, except that the first word of part p is one. */
  function OneAt(cfg: Config, p: nat): (values: seq<Value>)
    ensures BodyFits(Requested(HEADER_ORDER, cfg), cfg, values)
    ensures |values| == |Requested(HEADER_ORDER, cfg)| && AllSurvive(values, false)
    ensures forall i :: 0 <= i < |values| ==>
              values[i] == Smallest(Requested(HEADER_ORDER, cfg)[i], cfg, if i == p then 1 else 0)
  {
    var laid := Requested(HEADER_ORDER, cfg);
    seq(|laid|, i requires 0 <= i < |laid| => Smallest(laid[i], cfg, if i == p then 1 else 0))
  }

  predicate Distinct(items: seq<Item>) {
    forall i, j :: 0 <= i < j < |items| ==> items[i] != items[j]
  }

  lemma {:induction false} RequestedDistinct(order: seq<Item>, cfg: Config)
    requires Distinct(order)
    ensures Distinct(Requested(order, cfg))
  {
    if order != [] {
      assert Distinct(order[1..]);
      RequestedDistinct(order[1..], cfg);
      RequestedOnly(order[1..], cfg);
      assert order[0] !in order[1..];
    }
  }

  lemma {:induction false} HeaderOrderDistinct()
    ensures |HEADER_ORDER| == 19 && forall i :: 0 <= i < 19 ==> Rank(HEADER_ORDER[i]) == i
    ensures Distinct(HEADER_ORDER)
  {
  }

  /** Place in the documented order. */
  function Rank(item: Item): nat {
    match item
    case Identifier => 0 case Ip => 1 case Tid => 2 case Time => 3 case Addr => 4 case Id => 5
    case StreamId => 6 case Cpu => 7 case Period => 8 case Read => 9 case Callchain => 10
    case Raw => 11 case BranchStack => 12 case RegsUser => 13 case StackUser => 14
    case Weight => 15 case DataSrc => 16 case Transaction => 17 case RegsIntr => 18
  }

  /** In a faithful configuration a sample recovers exactly when its stack dump, if any, stays inside its stack. */
  lemma {:induction false} FaithfulRecoversIff(cfg: Config, values: seq<Value>, data: seq<byte>, off: nat)
    requires Faithful(cfg) && BodyFits(Requested(HEADER_ORDER, cfg), cfg, values)
    requires At(data, off, BodyBytes(Requested(HEADER_ORDER, cfg), cfg, values))
    ensures Recovers(cfg, values, data, off) <==> AllSurvive(values, false)
  {
    FaithfulOrders(cfg);
    RequestedOnly(HEADER_ORDER, cfg);
    BodyRoundTrip(Requested(HEADER_ORDER, cfg), cfg, false, data, off, values);
    if AllSurvive(values, false) {
      HeaderOrderDistinct();
      RequestedDistinct(HEADER_ORDER, cfg);
      assert SeenAll(values, false) == values;
      ReadInOrder(cfg, values, data, off);
    }
  }

  lemma {:induction false} ReadInOrder(cfg: Config, values: seq<Value>, data: seq<byte>, off: nat)
    requires Requested(DECODER_ORDER, cfg) == Requested(HEADER_ORDER, cfg) && Distinct(Requested(HEADER_ORDER, cfg))
    requires BodyFits(Requested(HEADER_ORDER, cfg), cfg, values)
    requires BodyAt(Requested(HEADER_ORDER, cfg), cfg, false, data, off)
             == Done(values, off + |BodyBytes(Requested(HEADER_ORDER, cfg), cfg, values)|)
    ensures Recovers(cfg, values, data, off)
  {
  }

  /** The orders agree up to p and part ways there. */
  lemma {:induction false} PartingWays(cfg: Config, p: nat, j: nat)
    requires p < |Requested(HEADER_ORDER, cfg)| && p < |Requested(DECODER_ORDER, cfg)|
    requires Requested(HEADER_ORDER, cfg)[..p] == Requested(DECODER_ORDER, cfg)[..p]
    requires Read in Requested(HEADER_ORDER, cfg)[..p] ==> !cfg.Reads(LOST_COUNT)
    requires j < |Requested(HEADER_ORDER, cfg)| && j != p
    requires Requested(HEADER_ORDER, cfg)[j] == Requested(DECODER_ORDER, cfg)[p]
    requires Requested(HEADER_ORDER, cfg)[p].Shape() == OneWord || Requested(HEADER_ORDER, cfg)[p].Shape() == StackCopy
    ensures !AlwaysRecovers(cfg)
  {
    var laid, read := Requested(HEADER_ORDER, cfg), Requested(DECODER_ORDER, cfg);
    var values := OneAt(cfg, p);
    var data := BodyBytes(laid, cfg, values);
    if Recovers(cfg, values, data, 0) {
      var mid := PartReached(cfg, values, p, data);
      OneIsFirst(laid[p], cfg, data, mid);
      OneIsNotEmpty(read[p], cfg, data, mid);
    }
    assert At(data, 0, BodyBytes(laid, cfg, values)) && !Recovers(cfg, values, data, 0);
  }

  lemma {:induction false} FirstParts(cfg: Config)
    requires cfg.Wants(Identifier)
    requires Requested(LEADING_ITEMS + [RegsIntr] + STACK_ITEMS, cfg) != []
    ensures Requested(HEADER_ORDER, cfg) != [] && Requested(HEADER_ORDER, cfg)[0] == Identifier
    ensures Requested(DECODER_ORDER, cfg) != []
    ensures Requested(DECODER_ORDER, cfg)[0] == Requested(LEADING_ITEMS + [RegsIntr] + STACK_ITEMS, cfg)[0]
  {
    OrdersCut(cfg);
    RequestedConcat(LEADING_ITEMS, [RegsIntr], cfg);
    RequestedConcat(LEADING_ITEMS + [RegsIntr], STACK_ITEMS, cfg);
  }

  /** Where the header places the part that the decoder reads first. */
  lemma {:induction false} FirstRead(cfg: Config) returns (j: nat)
    requires cfg.Wants(Identifier)
    requires Requested(LEADING_ITEMS + [RegsIntr] + STACK_ITEMS, cfg) != []
    ensures Requested(HEADER_ORDER, cfg) != [] && Requested(DECODER_ORDER, cfg) != []
    ensures Requested(HEADER_ORDER, cfg)[0] == Identifier
    ensures 0 < j < |Requested(HEADER_ORDER, cfg)| && Requested(HEADER_ORDER, cfg)[j] == Requested(DECODER_ORDER, cfg)[0]
  {
    var laid, read := Requested(HEADER_ORDER, cfg), Requested(DECODER_ORDER, cfg);
    var early := Requested(LEADING_ITEMS + [RegsIntr] + STACK_ITEMS, cfg);
    FirstParts(cfg);
    var k := early[0];
    assert k in early;
    RequestedOnly(LEADING_ITEMS + [RegsIntr] + STACK_ITEMS, cfg);
    RequestedOnly(HEADER_ORDER, cfg);
    assert k in laid && k != Identifier;
    j :| 0 <= j < |laid| && laid[j] == k;
  }

  /** IDENTIFIER is documented first and decoded nearly last. */
  lemma {:induction false} IdentifierMisplaced(cfg: Config)
    requires cfg.Wants(Identifier)
    requires Requested(LEADING_ITEMS + [RegsIntr] + STACK_ITEMS, cfg) != []
    ensures !AlwaysRecovers(cfg)
  {
    var j := FirstRead(cfg);
    PartingWays(cfg, 0, j);
  }

  /** REGS_INTR is decoded before the stack dump and documented after the transaction word. */
  lemma {:induction false} RegsIntrMisplaced(cfg: Config)
    requires !cfg.Wants(Identifier) && cfg.Wants(RegsIntr) && !(cfg.Wants(Read) && cfg.Reads(LOST_COUNT))
    requires Requested(STACK_ITEMS, cfg) + Requested([Transaction], cfg) != []
    ensures !AlwaysRecovers(cfg)
  {
    var laid, read := Requested(HEADER_ORDER, cfg), Requested(DECODER_ORDER, cfg);
    var lead, late := Requested(LEADING_ITEMS, cfg), Requested(STACK_ITEMS, cfg) + Requested([Transaction], cfg);
    OrdersCut(cfg);
    assert laid == lead + late + [RegsIntr];
    assert read == lead + [RegsIntr] + late;
    Moved(lead, late, RegsIntr);
    RequestedOnly(LEADING_ITEMS, cfg);
    LateShapes(cfg);
    assert late[0] in late;
    PartingWays(cfg, |lead|, |laid| - 1);
  }

  /** A part moved from the end to the middle. */
  lemma {:induction false} Moved(lead: seq<Item>, late: seq<Item>, item: Item)
    requires late != []
    ensures var a, b := lead + late + [item], lead + [item] + late;
            a[..|lead|] == b[..|lead|] == lead && a[|lead|] == late[0] && b[|lead|] == a[|a| - 1] == item
  {
  }

  lemma {:induction false} LateShapes(cfg: Config)
    ensures forall item :: item in Requested(STACK_ITEMS, cfg) + Requested([Transaction], cfg) ==>
              item.Shape() == OneWord || item.Shape() == StackCopy
  {
    RequestedOnly(STACK_ITEMS, cfg);
    RequestedOnly([Transaction], cfg);
  }

  lemma {:induction false} GroupLength(cfg: Config, data: seq<byte>, off: nat)
    requires cfg.Reads(GROUP) && OneStands(data, off) && ReadFormatAt(data, off, cfg).Done?
    ensures ReadFormatAt(data, off, cfg).value.Group?
    ensures |ReadFormatAt(data, off, cfg).value.counters| == DecodedCounterWords(cfg)
  {
  }

  lemma {:induction false} SingleHasNoLost(cfg: Config, data: seq<byte>, off: nat)
    requires !cfg.Reads(GROUP) && ReadFormatAt(data, off, cfg).Done?
    ensures ReadFormatAt(data, off, cfg).value.Single? && ReadFormatAt(data, off, cfg).value.lost == None
  {
  }

  lemma {:induction false} GroupIsShorter(cfg: Config, data: seq<byte>, off: nat, v: Value)
    requires cfg.Reads(LOST_COUNT) && v.Group? && Fits(Read, cfg, v) && |v.counters| == CounterWords(cfg)
    requires At(data, off, ItemBytes(Read, cfg, v)) && ReadFormatAt(data, off, cfg).Done?
    ensures ReadFormatAt(data, off, cfg).value != v
  {
    OneAsWord(data, off, v.nr,
              OptionBytes(v.enabled) + (OptionBytes(v.running) + LEs(v.counters)));
    GroupLength(cfg, data, off);
  }

  /** A counter with a lost word is not read as it was laid down. */
  lemma {:induction false} LostIsNotRead(cfg: Config, data: seq<byte>, off: nat)
    requires cfg.Reads(LOST_COUNT) && At(data, off, ItemBytes(Read, cfg, Smallest(Read, cfg, 1)))
    requires ReadFormatAt(data, off, cfg).Done?
    ensures ReadFormatAt(data, off, cfg).value != Smallest(Read, cfg, 1)
  {
    var v := Smallest(Read, cfg, 1);
    if v.Group? { GroupIsShorter(cfg, data, off, v); } else { SingleHasNoLost(cfg, data, off); }
  }

  lemma {:induction false} FirstIndex(items: seq<Item>, item: Item) returns (p: nat)
    requires item in items
    ensures p < |items| && items[p] == item && item !in items[..p]
  {
    p := 0;
    while items[p] != item
      invariant p < |items| && item !in items[..p]
      invariant item in items[p..]
      decreases |items| - p
    {
      assert items[..p + 1] == items[..p] + [items[p]];
      assert items[p..] == [items[p]] + items[p + 1..];
      p := p + 1;
    }
  }

  lemma {:induction false} LostUnreadAt(cfg: Config, p: nat)
    requires cfg.Reads(LOST_COUNT)
    requires p < |Requested(HEADER_ORDER, cfg)| && p < |Requested(DECODER_ORDER, cfg)|
    requires Requested(HEADER_ORDER, cfg)[..p] == Requested(DECODER_ORDER, cfg)[..p]
    requires Requested(HEADER_ORDER, cfg)[p] == Requested(DECODER_ORDER, cfg)[p] == Read
    requires Read !in Requested(HEADER_ORDER, cfg)[..p]
    ensures !AlwaysRecovers(cfg)
  {
    var laid := Requested(HEADER_ORDER, cfg);
    var values := OneAt(cfg, p);
    var data := BodyBytes(laid, cfg, values);
    if Recovers(cfg, values, data, 0) {
      var mid := PartReached(cfg, values, p, data);
      LostIsNotRead(cfg, data, mid);
    }
    assert At(data, 0, BodyBytes(laid, cfg, values)) && !Recovers(cfg, values, data, 0);
  }

  lemma {:induction false} CommonStart(lead: seq<Item>, a: seq<Item>, b: seq<Item>, p: nat)
    requires lead <= a && lead <= b && p < |lead|
    ensures a[..p] == lead[..p] == b[..p] && a[p] == lead[p] == b[p]
  {
  }

  lemma {:induction false} ReadPosition(cfg: Config) returns (p: nat)
    requires !cfg.Wants(Identifier) && cfg.Wants(Read)
    ensures p < |Requested(HEADER_ORDER, cfg)| && p < |Requested(DECODER_ORDER, cfg)|
    ensures Requested(HEADER_ORDER, cfg)[..p] == Requested(DECODER_ORDER, cfg)[..p]
    ensures Requested(HEADER_ORDER, cfg)[p] == Requested(DECODER_ORDER, cfg)[p] == Read
    ensures Read !in Requested(HEADER_ORDER, cfg)[..p]
  {
    var laid, read, lead := Requested(HEADER_ORDER, cfg), Requested(DECODER_ORDER, cfg), Requested(LEADING_ITEMS, cfg);
    OrdersCut(cfg);
    RequestedOnly(LEADING_ITEMS, cfg);
    p := FirstIndex(lead, Read);
    CommonStart(lead, laid, read, p);
  }

  /** handle_struct_read_format does not step over the lost counts. */
  lemma {:induction false} LostUnread(cfg: Config)
    requires !cfg.Wants(Identifier) && cfg.Wants(Read) && cfg.Reads(LOST_COUNT)
    ensures !AlwaysRecovers(cfg)
  {
    var p := ReadPosition(cfg);
    LostUnreadAt(cfg, p);
  }

  /**
    Every sample laid down as documented, with a stack dump that stays inside its stack,
    comes back exactly for the configurations in which IDENTIFIER and REGS_INTR stand alone
    enough for the two orders to coincide, and LOST is not part of a requested read.
   */
  lemma {:induction false} SampleRoundTripIff(cfg: Config)
    ensures AlwaysRecovers(cfg) <==> Faithful(cfg)
  {
    if Faithful(cfg) {
      forall values, data: seq<byte>, off: nat
        | BodyFits(Requested(HEADER_ORDER, cfg), cfg, values) && AllSurvive(values, false)
          && At(data, off, BodyBytes(Requested(HEADER_ORDER, cfg), cfg, values))
        ensures Recovers(cfg, values, data, off)
      {
        FaithfulRecoversIff(cfg, values, data, off);
      }
    } else {
      RequestedNone(LEADING_ITEMS + [RegsIntr] + STACK_ITEMS, cfg);
      RequestedNone(STACK_ITEMS + [Transaction], cfg);
      RequestedConcat(STACK_ITEMS, [Transaction], cfg);
      if cfg.Wants(Identifier) && Requested(LEADING_ITEMS + [RegsIntr] + STACK_ITEMS, cfg) != [] {
        IdentifierMisplaced(cfg);
      } else if cfg.Wants(Read) && cfg.Reads(LOST_COUNT) {
        assert Read in LEADING_ITEMS + [RegsIntr] + STACK_ITEMS;
        LostUnread(cfg);
      } else {
        assert RegsIntr in LEADING_ITEMS + [RegsIntr] + STACK_ITEMS;
        RegsIntrMisplaced(cfg);
      }
    }
  }

  /** Every documented sample recovers, whatever its stack dump. */
  ghost predicate RecoversWithAnyDump(cfg: Config) {
    forall values, data: seq<byte>, off: nat ::
      BodyFits(Requested(HEADER_ORDER, cfg), cfg, values)
      && At(data, off, BodyBytes(Requested(HEADER_ORDER, cfg), cfg, values))
      ==> Recovers(cfg, values, data, off)
  }

  /** Without a condition on the dumps, that holds only where no dump is asked for. */
  lemma {:induction false} AnySampleRoundTripIff(cfg: Config)
    ensures RecoversWithAnyDump(cfg) <==> Faithful(cfg) && !cfg.Wants(StackUser)
  {
    SampleRoundTripIff(cfg);
    var laid := Requested(HEADER_ORDER, cfg);
    RequestedOnly(HEADER_ORDER, cfg);
    if Faithful(cfg) && cfg.Wants(StackUser) {
      assert StackUser in laid by { assert StackUser in STACK_ITEMS; }
      OverrunningSample(cfg);
    } else if Faithful(cfg) {
      forall values, data: seq<byte>, off: nat
        | BodyFits(laid, cfg, values) && At(data, off, BodyBytes(laid, cfg, values))
        ensures Recovers(cfg, values, data, off)
      {
        NoDumps(cfg, laid, values);
        FaithfulRecoversIff(cfg, values, data, off);
      }
    }
  }

  /** Only the stack part has a dump. */
  lemma {:induction false} NoDumps(cfg: Config, items: seq<Item>, values: seq<Value>)
    requires BodyFits(items, cfg, values) && StackUser !in items
    ensures AllSurvive(values, false)
  {
    forall i | 0 <= i < |values|
      ensures Survives(values[i], false)
    {
      assert Fits(items[i], cfg, values[i]) && items[i] in items;
    }
  }

  /** A sample with one used byte in an empty stack. */
  lemma {:induction false} OverrunningSample(cfg: Config)
    requires Faithful(cfg) && StackUser in Requested(HEADER_ORDER, cfg)
    ensures !RecoversWithAnyDump(cfg)
  {
    var laid := Requested(HEADER_ORDER, cfg);
    var values := seq(|laid|, i requires 0 <= i < |laid| => if laid[i] == StackUser then Stack([], 1) else Smallest(laid[i], cfg, 0));
    var data := BodyBytes(laid, cfg, values);
    var p :| 0 <= p < |laid| && laid[p] == StackUser;
    assert !Survives(values[p], false);
    FaithfulRecoversIff(cfg, values, data, 0);
    assert At(data, 0, BodyBytes(laid, cfg, values)) && !Recovers(cfg, values, data, 0);
  }
}
