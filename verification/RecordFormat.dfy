/**
  The record layouts that include/perf_event.h documents, as an encoder: what the
  kernel lays down in the ring buffer for a record.  Nothing here looks at the decoder.
*/
module RecordFormat {
  import opened Bytes
  import Bits

  datatype Option<+T> = None | Some(value: T)

  /** The parts of a sample, each requested by one bit of sample_type. */
  datatype Item =
    | Ip | Tid | Time | Addr | Read | Callchain | Id | Cpu | Period | StreamId | Raw
    | BranchStack | RegsUser | StackUser | Weight | DataSrc | Identifier | Transaction
    | RegsIntr
  {
    /** enum perf_event_sample_format */
    function Bit(): nat {
      match this
      case Ip => 0 case Tid => 1 case Time => 2 case Addr => 3 case Read => 4
      case Callchain => 5 case Id => 6 case Cpu => 7 case Period => 8 case StreamId => 9
      case Raw => 10 case BranchStack => 11 case RegsUser => 12 case StackUser => 13
      case Weight => 14 case DataSrc => 15 case Identifier => 16 case Transaction => 17
      case RegsIntr => 18
    }

    function Shape(): Shape {
      match this
      case Tid | Cpu => TwoInts
      case Read => Counts
      case Callchain => WordList
      case Raw => Bytes
      case BranchStack => TripleList
      case RegsUser | RegsIntr => RegisterSet
      case StackUser => StackCopy
      case _ => OneWord
    }
  }

  /** enum perf_event_sample_format, from bit 0 up. */
  const SAMPLE_ENUM: seq<Item> :=
    [Ip, Tid, Time, Addr, Read, Callchain, Id, Cpu] + [Period, StreamId, Raw, BranchStack, RegsUser]
    + [StackUser, Weight, DataSrc, Identifier, Transaction, RegsIntr]

  /** Each bit of sample_type asks for one part, and each bit of read_format for one word of a read. */
  lemma {:induction false} MasksAsDocumented(cfg: Config, i: nat)
    ensures i < |SAMPLE_ENUM| == 19 ==> (cfg.Wants(SAMPLE_ENUM[i]) <==> cfg.sampleType / Bits.Pow2(i) % 2 == 1)
    ensures cfg.Reads(TOTAL_TIME_ENABLED) <==> cfg.readFormat % 2 == 1
    ensures cfg.Reads(TOTAL_TIME_RUNNING) <==> cfg.readFormat / 2 % 2 == 1
    ensures cfg.Reads(FORMAT_ID) <==> cfg.readFormat / 4 % 2 == 1
    ensures cfg.Reads(GROUP) <==> cfg.readFormat / 8 % 2 == 1
    ensures cfg.Reads(LOST_COUNT) <==> cfg.readFormat / 16 % 2 == 1
  {
    Bits.TestIsQuotient(cfg.sampleType, i);
    EnumBits(i);
    Bits.LowBits(cfg.readFormat);
  }

  lemma {:induction false} EnumBits(i: nat)
    ensures |SAMPLE_ENUM| == 19 && (i < 19 ==> SAMPLE_ENUM[i].Bit() == i)
  {
  }

  /** How a part is laid out. */
  datatype Shape = OneWord | TwoInts | Counts | WordList | Bytes | TripleList | RegisterSet | StackCopy

  /** enum perf_event_read_format, as bit numbers */
  const TOTAL_TIME_ENABLED := 0
  const TOTAL_TIME_RUNNING := 1
  const FORMAT_ID := 2
  const GROUP := 3
  const LOST_COUNT := 4

  /** What the reader passes along with the buffer. */
  datatype Config = Config(sampleType: nat, readFormat: nat, regMask: nat) {
    predicate Wants(item: Item) { Bits.Test(sampleType, item.Bit()) }
    predicate Reads(bit: nat) { Bits.Test(readFormat, bit) }
    function Registers(): nat { Bits.Weight(regMask, 64) }
  }

  /** The value of one sample part. */
  datatype Value =
    | Word(word: u64)
    | Pair(first: u32, second: u32)
    | Single(value: u64, enabled: Option<u64>, running: Option<u64>, id: Option<u64>, lost: Option<u64>)
      // counters holds, entry after entry, the value and the words selected beside it
    | Group(nr: u64, enabled: Option<u64>, running: Option<u64>, counters: seq<u64>)
    | Chain(ips: seq<u64>)
    | Blob(bytes: seq<byte>)
      // from, to, flags of each branch in turn
    | Branches(words: seq<u64>)
    | Regs(abi: u64, regs: seq<u64>)
    | Stack(bytes: seq<byte>, used: u64)

  /** The order in which the header documents the parts of PERF_RECORD_SAMPLE. */
  const HEADER_ORDER: seq<Item> :=
    [Identifier, Ip, Tid, Time, Addr] + [Id, StreamId, Cpu, Period, Read, Callchain, Raw]
    + [BranchStack, RegsUser, StackUser, Weight, DataSrc, Transaction, RegsIntr]

  /** The parts of order that the configuration asks for, in that order. */
  function Requested(order: seq<Item>, cfg: Config): seq<Item> {
    if order == [] then []
    else (if cfg.Wants(order[0]) then [order[0]] else []) + Requested(order[1..], cfg)
  }

  predicate OptionFits(o: Option<u64>, cfg: Config, bit: nat) {
    o.Some? <==> cfg.Reads(bit)
  }

  /** Words per counter of a group read. */
  function CounterWords(cfg: Config): (r: nat)
    ensures 1 <= r <= 3
  {
    1 + (if cfg.Reads(FORMAT_ID) then 1 else 0) + (if cfg.Reads(LOST_COUNT) then 1 else 0)
  }

  predicate ReadFits(cfg: Config, v: Value) {
    match v
    case Single(_, enabled, running, id, lost) =>
      && !cfg.Reads(GROUP)
      && OptionFits(enabled, cfg, TOTAL_TIME_ENABLED) && OptionFits(running, cfg, TOTAL_TIME_RUNNING)
      && OptionFits(id, cfg, FORMAT_ID) && OptionFits(lost, cfg, LOST_COUNT)
    case Group(nr, enabled, running, counters) =>
      && cfg.Reads(GROUP)
      && OptionFits(enabled, cfg, TOTAL_TIME_ENABLED) && OptionFits(running, cfg, TOTAL_TIME_RUNNING)
      && |counters| % CounterWords(cfg) == 0 && |counters| < TWO_31 && nr == |counters| / CounterWords(cfg)
    case _ => false
  }

  /** v is a value the documented layout of the part can hold. */
  predicate Fits(item: Item, cfg: Config, v: Value) {
    match item.Shape()
    case OneWord => v.Word?
    case TwoInts => v.Pair?
    case Counts => ReadFits(cfg, v)
    case WordList => v.Chain? && |v.ips| < TWO_31
    case Bytes => v.Blob? && |v.bytes| < TWO_31
    case TripleList => v.Branches? && |v.words| % 3 == 0 && |v.words| < TWO_31
    case RegisterSet => v.Regs? && |v.regs| == cfg.Registers()
    case StackCopy => v.Stack? && |v.bytes| < TWO_31
  }

  function OptionBytes(o: Option<u64>): seq<byte> {
    match o case None => [] case Some(w) => LE(w, 8)
  }

  function ItemBytes(item: Item, cfg: Config, v: Value): seq<byte>
    requires Fits(item, cfg, v)
  {
    match v
    case Word(w) => LE(w, 8)
    case Pair(a, b) => LE(a, 4) + LE(b, 4)
    case Single(w, enabled, running, id, lost) =>
      LE(w, 8) + (OptionBytes(enabled) + (OptionBytes(running) + (OptionBytes(id) + OptionBytes(lost))))
    case Group(nr, enabled, running, counters) =>
      LE(nr, 8) + (OptionBytes(enabled) + (OptionBytes(running) + LEs(counters)))
    case Chain(ips) => LE(|ips|, 8) + LEs(ips)
    case Blob(bytes) => LE(|bytes|, 4) + bytes
    case Branches(words) => LE(|words| / 3, 8) + LEs(words)
    case Regs(abi, regs) => LE(abi, 8) + LEs(regs)
    case Stack(bytes, used) => LE(|bytes|, 8) + (bytes + LE(used, 8))
  }

  predicate BodyFits(items: seq<Item>, cfg: Config, values: seq<Value>) {
    && |values| == |items|
    && forall i :: 0 <= i < |items| ==> Fits(items[i], cfg, values[i])
  }

  /** The bytes of each part of a sample. */
  function PartBytes(items: seq<Item>, cfg: Config, values: seq<Value>): (s: seq<seq<byte>>)
    requires BodyFits(items, cfg, values)
    ensures |s| == |items|
    ensures forall i :: 0 <= i < |items| ==> s[i] == ItemBytes(items[i], cfg, values[i])
  {
    seq(|items|, i requires 0 <= i < |items| => ItemBytes(items[i], cfg, values[i]))
  }

  function BodyBytes(items: seq<Item>, cfg: Config, values: seq<Value>): seq<byte>
    requires BodyFits(items, cfg, values)
  {
    Concat(PartBytes(items, cfg, values))
  }

  /** enum perf_event_type */
  const MMAP := 1
  const LOST := 2
  const COMM := 3
  const EXIT := 4
  const THROTTLE := 5
  const UNTHROTTLE := 6
  const FORK := 7
  const SAMPLE := 9
  const MMAP2 := 10
  const AUX := 11
  const ITRACE_START := 12
  const LOST_SAMPLES := 13
  const SWITCH := 14
  const SWITCH_CPU_WIDE := 15

  /**
    A record.  `fields` are the fixed members in documented order, `text` the file or
    command name of the three record kinds that carry one, `sampleId` the 8-byte words
    of the sample_id trailer.
   */
  datatype Record =
    | Plain(kind: u32, misc: u16, fields: seq<nat>, text: seq<byte>, sampleId: seq<u64>)
    | Sample(misc: u16, values: seq<Value>)

  /** Widths in bytes of the documented fixed members; None for kinds the decoder skips. */
  function HeaderFields(kind: u32): Option<seq<nat>> {
    match kind
    case 1 => Some([4, 4, 8, 8, 8])            // pid, tid, addr, len, pgoff, filename
    case 2 => Some([8, 8])                     // id, lost
    case 3 => Some([4, 4])                     // pid, tid, comm
    case 4 => Some([4, 4, 4, 4, 8])            // pid, ppid, tid, ptid, time
    case 5 => Some([8, 8, 8])                  // time, id, stream_id
    case 6 => Some([8, 8, 8])
    case 7 => Some([4, 4, 4, 4, 8])
    case 10 => Some([4, 4, 8, 8, 8] + [4, 4, 8, 8] + [4, 4]) // mmap; maj, min, ino, generation; prot, flags
    case 11 => Some([8, 8, 8])                 // aux_offset, aux_size, flags
    case 12 => Some([4, 4])                    // pid, tid
    case 13 => Some([8])                       // lost
    case 14 => Some([])
    case 15 => Some([4, 4])                    // next_prev_pid, next_prev_tid
    case _ => None
  }

  /** The kinds documented with a file or command name. */
  predicate HasText(kind: u32) { kind in {1, 3, 10} }

  /** The sample_id length, in words, that the decoder is written for. */
  function ExpectedTrailer(kind: u32): nat {
    if kind in {11, 13, 14, 15} then 1 else 0
  }

  /** Fixed members are 32 or 64 bits wide. */
  function Limit(width: nat): nat { if width == 4 then TWO_32 else TWO_64 }

  predicate FieldsFit(widths: seq<nat>, fields: seq<nat>) {
    |fields| == |widths| && forall i :: 0 <= i < |widths| ==> widths[i] in {4, 8} && fields[i] < Limit(widths[i])
  }

  function FieldParts(widths: seq<nat>, fields: seq<nat>): (s: seq<seq<byte>>)
    requires FieldsFit(widths, fields)
    ensures |s| == |widths|
    ensures forall i :: 0 <= i < |widths| ==> s[i] == LE(fields[i], widths[i])
  {
    seq(|widths|, i requires 0 <= i < |widths| => LE(fields[i], widths[i]))
  }

  function FieldBytes(widths: seq<nat>, fields: seq<nat>): seq<byte>
    requires FieldsFit(widths, fields)
  {
    Concat(FieldParts(widths, fields))
  }

  /** A record of a kind the decoder handles, with any sample_id trailer. */
  predicate Documented(cfg: Config, r: Record) {
    match r
    case Plain(kind, _, fields, text, sampleId) =>
      && HeaderFields(kind).Some? && FieldsFit(HeaderFields(kind).value, fields)
      && (!HasText(kind) ==> text == [])
    case Sample(_, values) => BodyFits(Requested(HEADER_ORDER, cfg), cfg, values)
  }

  function Payload(cfg: Config, r: Record): seq<byte>
    requires Documented(cfg, r)
  {
    match r
    case Plain(kind, _, fields, text, sampleId) =>
      FieldBytes(HeaderFields(kind).value, fields) + (text + LEs(sampleId))
    case Sample(_, values) => BodyBytes(Requested(HEADER_ORDER, cfg), cfg, values)
  }

  /** header.size counts the whole record and is a 16-bit field. */
  predicate SizeFits(cfg: Config, r: Record)
    requires Documented(cfg, r)
  {
    8 + |Payload(cfg, r)| < TWO_16
  }

  function Kind(r: Record): u32 { if r.Plain? then r.kind else SAMPLE }

  function HeaderBytes(kind: u32, misc: u16, size: nat): (s: seq<byte>)
    ensures |s| == 8
  {
    LE(kind, 4) + (LE(misc, 2) + LE(size, 2))
  }

  function RecordBytes(cfg: Config, r: Record): (s: seq<byte>)
    requires Documented(cfg, r)
    ensures |s| == 8 + |Payload(cfg, r)|
  {
    HeaderBytes(Kind(r), r.misc, 8 + |Payload(cfg, r)|) + Payload(cfg, r)
  }

  /** The records the decoder is written for. */
  predicate WellFormed(cfg: Config, r: Record) {
    && Documented(cfg, r) && SizeFits(cfg, r)
    && (r.Plain? ==> |r.sampleId| == ExpectedTrailer(r.kind))
  }

  predicate AllWellFormed(cfg: Config, rs: seq<Record>) {
    forall i :: 0 <= i < |rs| ==> WellFormed(cfg, rs[i])
  }

  /** The bytes of each record of a stream. */
  function Encodings(cfg: Config, rs: seq<Record>): (s: seq<seq<byte>>)
    requires AllWellFormed(cfg, rs)
    ensures |s| == |rs|
    ensures forall i :: 0 <= i < |rs| ==> s[i] == RecordBytes(cfg, rs[i])
  {
    seq(|rs|, i requires 0 <= i < |rs| => RecordBytes(cfg, rs[i]))
  }

  function StreamBytes(cfg: Config, rs: seq<Record>): seq<byte>
    requires AllWellFormed(cfg, rs)
  {
    Concat(Encodings(cfg, rs))
  }
}
