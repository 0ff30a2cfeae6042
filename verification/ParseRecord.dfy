/**
  What lib/parse_record.c reads out of the linear buffer, as functions of the buffer,
  and the proof that it undoes the documented encoding.
*/
module ParseRecord {
  import opened Bytes
  import opened RecordFormat
  import Bits

  /** The order of the `if (sample_type & ...)` chain. */
  const DECODER_ORDER: seq<Item> :=
    [Ip, Tid, Time, Addr, Id, StreamId] + [Cpu, Period, Read, Callchain, Raw, BranchStack]
    + [RegsUser, RegsIntr, StackUser, Weight, DataSrc, Identifier, Transaction]

  /** Iterations of `for (i = 0; i < nr; i++)` for a signed 64-bit nr. */
  function Count(nr: u64): nat { if Signed64(nr) < 0 then 0 else Signed64(nr) }

  function OptionAt(data: seq<byte>, off: nat, present: bool): (r: Parsed<Option<u64>>)
    ensures r.Done? ==> r.next == off + (if present then 8 else 0)
  {
    if present then
      var (w, next) :- U64At(data, off);
      Done(Some(w), next)
    else Done(None, off)
  }

  /** Words per counter that handle_struct_read_format steps over; LOST is not among them. */
  function DecodedCounterWords(cfg: Config): (r: nat)
    ensures 1 <= r <= 2
  {
    1 + (if cfg.Reads(FORMAT_ID) then 1 else 0)
  }

  /** handle_struct_read_format */
  function ReadFormatAt(data: seq<byte>, off: nat, cfg: Config): (r: Parsed<Value>)
    ensures r.Done? ==> r.next >= off
  {
    var (first, o1) :- U64At(data, off);
    var (enabled, o2) :- OptionAt(data, o1, cfg.Reads(TOTAL_TIME_ENABLED));
    var (running, o3) :- OptionAt(data, o2, cfg.Reads(TOTAL_TIME_RUNNING));
    if cfg.Reads(GROUP) then
      var (counters, o4) :- WordsAt(data, o3, Count(first) * DecodedCounterWords(cfg));
      Done(Group(first, enabled, running, counters), o4)
    else
      var (id, o4) :- OptionAt(data, o3, cfg.Reads(FORMAT_ID));
      Done(Single(first, enabled, running, id, None), o4)
  }

  /** print_regs: steps over the registers, and reads them only to print them. */
  function RegisterWordsAt(data: seq<byte>, off: nat, mask: nat, quiet: bool): (r: Parsed<seq<u64>>)
    ensures r.Done? ==> r.next == off + 8 * Bits.Weight(mask, 64)
  {
    if quiet then Done([], off + 8 * Bits.Weight(mask, 64)) else WordsAt(data, off, Bits.Weight(mask, 64))
  }

  function RegsAt(data: seq<byte>, off: nat, cfg: Config, quiet: bool): (r: Parsed<Value>)
    ensures r.Done? ==> r.next >= off
  {
    var (abi, o1) :- U64At(data, off);
    var (regs, o2) :- RegisterWordsAt(data, o1, cfg.regMask, quiet);
    Done(Regs(abi, regs), o2)
  }

  /** The raw payload: stepped over, and read only to be printed. */
  function PayloadAt(data: seq<byte>, off: nat, size: nat, quiet: bool): (r: Parsed<seq<byte>>)
    ensures r.Done? ==> r.next == off + size
  {
    if quiet then Done([], off + size) else BlobAt(data, off, size)
  }

  /** A negative size would move the offset back; that is taken for stuck. */
  function RawAt(data: seq<byte>, off: nat, quiet: bool): (r: Parsed<Value>)
    ensures r.Done? ==> r.next >= off
  {
    var (size, o1) :- U32At(data, off);
    if Signed32(size) < 0 then Stuck else
    var (bytes, o2) :- PayloadAt(data, o1, size, quiet);
    Done(Blob(bytes), o2)
  }

  /** for (k = 0; k < dyn_size; k += 4): the int k does not overflow. */
  predicate DumpEnds(used: u64) { Signed64(used) <= TWO_31 - 4 }

  /** Printing stack_data[k], an int, for each such k stays inside the size bytes allocated for the stack. */
  predicate DumpFits(size: nat, used: u64) {
    Signed64(used) <= 0 || 16 * ((used - 1) / 4) + 4 <= size
  }

  predicate DumpSucceeds(size: nat, used: u64, quiet: bool) {
    DumpEnds(used) && (quiet || DumpFits(size, used))
  }

  function StackAt(data: seq<byte>, off: nat, quiet: bool): (r: Parsed<Value>)
    ensures r.Done? ==> r.next >= off
  {
    var (size, o1) :- U64At(data, off);
    if Signed64(size) < 0 then Stuck else
    var (bytes, o2) :- BlobAt(data, o1, size);
    var (used, o3) :- U64At(data, o2);
    if DumpSucceeds(size, used, quiet) then Done(Stack(bytes, used), o3) else Stuck
  }

  /** One arm of the sample chain. */
  function ItemAt(item: Item, cfg: Config, quiet: bool, data: seq<byte>, off: nat): (r: Parsed<Value>)
    ensures r.Done? ==> r.next >= off
  {
    match item
    case Tid | Cpu =>
      var (a, o1) :- U32At(data, off);
      var (b, o2) :- U32At(data, o1);
      Done(Pair(a, b), o2)
    case Read => ReadFormatAt(data, off, cfg)
    case Callchain =>
      var (nr, o1) :- U64At(data, off);
      var (ips, o2) :- WordsAt(data, o1, Count(nr));
      Done(Chain(ips), o2)
    case Raw => RawAt(data, off, quiet)
    case BranchStack =>
      var (bnr, o1) :- U64At(data, off);
      var (words, o2) :- WordsAt(data, o1, 3 * Count(bnr));
      Done(Branches(words), o2)
    case RegsUser | RegsIntr => RegsAt(data, off, cfg, quiet)
    case StackUser => StackAt(data, off, quiet)
    case Ip | Time | Addr | Id | StreamId | Period | Weight | DataSrc | Identifier | Transaction =>
      var (w, o1) :- U64At(data, off);
      Done(Word(w), o1)
  }

  /** A way of reading one part that never moves the offset back. */
  type Reader<!K(!new), !V> = f: (K, nat) -> Parsed<V> | forall k: K, off: nat :: f(k, off).Done? ==> off <= f(k, off).next
    ghost witness (_, _) => Stuck

  /** A chain of reads, one for each key. */
  function Chained<K(!new), V>(read: Reader<K, V>, keys: seq<K>, off: nat): (r: Parsed<seq<V>>)
    ensures r.Done? ==> |r.value| == |keys| && off <= r.next
  {
    if keys == [] then Done([], off) else
    var (v, next) :- read(keys[0], off);
    var (vs, after) :- Chained(read, keys[1..], next);
    Done([v] + vs, after)
  }

  function ItemReader(cfg: Config, quiet: bool, data: seq<byte>): Reader<Item, Value> {
    (item: Item, off: nat) => ItemAt(item, cfg, quiet, data, off)
  }

  /** The whole sample chain. */
  function BodyAt(items: seq<Item>, cfg: Config, quiet: bool, data: seq<byte>, off: nat): (r: Parsed<seq<Value>>)
    ensures r.Done? ==> |r.value| == |items| && off <= r.next
  {
    Chained(ItemReader(cfg, quiet, data), items, off)
  }

  /** Widths of the fixed members each `case` of the record switch copies out. */
  function DecoderFields(kind: u32): Option<seq<nat>> {
    if kind == LOST then Some([8, 8])
    else if kind == COMM || kind == ITRACE_START || kind == SWITCH_CPU_WIDE then Some([4, 4])
    else if kind == FORK || kind == EXIT then Some([4, 4, 4, 4, 8])
    else if kind == MMAP then Some([4, 4, 8, 8, 8])
    else if kind == MMAP2 then Some([4, 4, 8, 8, 8] + [4, 4, 8, 8] + [4, 4])
    else if kind == THROTTLE || kind == UNTHROTTLE || kind == AUX then Some([8, 8, 8])
    else if kind == LOST_SAMPLES then Some([8])
    else if kind == SWITCH then Some([])
    else None
  }

  predicate Handled(kind: u32) { kind == SAMPLE || DecoderFields(kind).Some? }

  /** Bytes in front of the string: the constants 16, 40 and 72 of the source. */
  function TextStart(kind: u32): nat { if kind == COMM then 16 else if kind == MMAP then 40 else 72 }

  function WordReader(data: seq<byte>): Reader<nat, nat> {
    (width: nat, off: nat) => WordAt(data, off, width)
  }

  function FieldsAt(data: seq<byte>, off: nat, widths: seq<nat>): (r: Parsed<seq<nat>>)
    ensures r.Done? ==> |r.value| == |widths| && off <= r.next
  {
    Chained(WordReader(data), widths, off)
  }

  /** printf("%s") of a copied string stays inside the copy. */
  predicate TextEnds(text: seq<byte>, quiet: bool) { quiet || 0 in text }

  /** The cases that copy out a string, and those that take one sample_id word instead. */
  predicate CopiesText(kind: u32) { kind == COMM || kind == MMAP || kind == MMAP2 }

  predicate ReadsTrailer(kind: u32) { kind == AUX || kind == LOST_SAMPLES || kind == SWITCH || kind == SWITCH_CPU_WIDE }

  /** What follows the fixed members: a string as long as header.size says, or one sample_id word. */
  function TailAt(kind: u32, size: u16, quiet: bool, data: seq<byte>, off: nat): (r: Parsed<(seq<byte>, seq<u64>)>)
    ensures r.Done? ==> r.next >= off
  {
    if CopiesText(kind) then
      if size < TextStart(kind) then Stuck else
      var (text, next) :- BlobAt(data, off, size - TextStart(kind));
      if TextEnds(text, quiet) then Done((text, []), next) else Stuck
    else if ReadsTrailer(kind) then
      var (id, next) :- U64At(data, off);
      Done(([], [id]), next)
    else Done(([], []), off)
  }

  function PlainAt(kind: u32, misc: u16, size: u16, quiet: bool, data: seq<byte>, off: nat): (r: Parsed<Record>)
    requires DecoderFields(kind).Some?
    ensures r.Done? ==> r.next >= off
  {
    var (fields, o1) :- FieldsAt(data, off, DecoderFields(kind).value);
    var (tail, o2) :- TailAt(kind, size, quiet, data, o1);
    Done(Plain(kind, misc, fields, tail.0, tail.1), o2)
  }

  datatype Header = Header(kind: u32, misc: u16, size: u16)

  function HeaderAt(data: seq<byte>, off: nat): (r: Parsed<Header>)
    ensures r.Done? ==> r.next == off + 8
  {
    var (kind, o1) :- U32At(data, off);
    var (misc, o2) :- U16At(data, o1);
    var (size, o3) :- U16At(data, o2);
    Done(Header(kind, misc, size), o3)
  }

  /** Details of a handled record, after its header. */
  function DetailsAt(cfg: Config, quiet: bool, h: Header, data: seq<byte>, off: nat): (r: Parsed<Record>)
    requires Handled(h.kind)
    ensures r.Done? ==> r.next >= off
  {
    if h.kind == SAMPLE then
      var (values, next) :- BodyAt(Requested(DECODER_ORDER, cfg), cfg, quiet, data, off);
      Done(Sample(h.misc, values), next)
    else PlainAt(h.kind, h.misc, h.size, quiet, data, off)
  }

  /** One turn of the record loop: outside the buffer, a kind that is skipped, or a record. */
  datatype Turn = Trap | Skip | Parse(record: Record, next: nat)

  function TurnAt(cfg: Config, quiet: bool, data: seq<byte>, off: nat): (t: Turn)
    ensures t.Parse? ==> off < t.next
  {
    match HeaderAt(data, off)
    case Stuck => Trap
    case Done(h, next) =>
      if !Handled(h.kind) then Skip
      else match DetailsAt(cfg, quiet, h, data, next)
        case Stuck => Trap
        case Done(r, after) => Parse(r, after)
  }

  /** What the record loop ends with: the printed records, *events_read and the offset. */
  datatype Run = Broken | Ended(records: seq<Record>, events: nat, offset: int) {
    function After(r: Record): Run {
      match this case Broken => Broken case Ended(rs, n, o) => Ended([r] + rs, n + 1, o)
    }
  }

  function Prepend(rs: seq<Record>, run: Run): Run {
    match run case Broken => Broken case Ended(more, n, o) => Ended(rs + more, |rs| + n, o)
  }

  ghost predicate Advances(turn: nat -> Turn) {
    forall off: nat :: turn(off).Parse? ==> off < turn(off).next
  }

  /** while (offset < size) { ... }, for any way of taking a turn */
  ghost function Walk(turn: nat -> Turn, size: int, off: nat): Run
    requires Advances(turn)
    decreases size - off
  {
    if off >= size then Ended([], 0, off)
    else match turn(off)
      case Trap => Broken
      case Skip => Ended([], 1, size)
      case Parse(r, next) => Walk(turn, size, next).After(r)
  }

  function Turns(cfg: Config, quiet: bool, data: seq<byte>): (turn: nat -> Turn)
    ensures Advances(turn)
    ensures forall off: nat :: turn(off) == TurnAt(cfg, quiet, data, off)
  {
    (off: nat) => TurnAt(cfg, quiet, data, off)
  }

  /** The record loop of perf_mmap_read over the linear buffer. */
  ghost function Loop(cfg: Config, quiet: bool, data: seq<byte>, size: int, off: nat): Run {
    Walk(Turns(cfg, quiet, data), size, off)
  }

  // ---- what quiet leaves unread, and what cannot be decoded at all ----

  /** The value as far as it is read. */
  function Seen(v: Value, quiet: bool): Value {
    if !quiet then v
    else match v
      case Regs(abi, _) => Regs(abi, [])
      case Blob(_) => Blob([])
      case _ => v
  }

  function SeenAll(values: seq<Value>, quiet: bool): (r: seq<Value>)
    ensures |r| == |values| && forall i :: 0 <= i < |values| ==> r[i] == Seen(values[i], quiet)
  {
    seq(|values|, i requires 0 <= i < |values| => Seen(values[i], quiet))
  }

  function SeenRecord(r: Record, quiet: bool): Record {
    match r case Plain(_, _, _, _, _) => r case Sample(misc, values) => Sample(misc, SeenAll(values, quiet))
  }

  function SeenRecords(rs: seq<Record>, quiet: bool): (r: seq<Record>)
    ensures |r| == |rs| && forall i :: 0 <= i < |rs| ==> r[i] == SeenRecord(rs[i], quiet)
  {
    seq(|rs|, i requires 0 <= i < |rs| => SeenRecord(rs[i], quiet))
  }

  /** Decoding the value stays inside what was allocated for it. */
  predicate Survives(v: Value, quiet: bool) { v.Stack? ==> DumpSucceeds(|v.bytes|, v.used, quiet) }

  predicate AllSurvive(values: seq<Value>, quiet: bool) {
    forall i :: 0 <= i < |values| ==> Survives(values[i], quiet)
  }

  predicate RecordSurvives(r: Record, quiet: bool) {
    match r
    case Plain(kind, _, _, text, _) => CopiesText(kind) ==> TextEnds(text, quiet)
    case Sample(_, values) => AllSurvive(values, quiet)
  }

  predicate RecordsSurvive(rs: seq<Record>, quiet: bool) {
    forall i :: 0 <= i < |rs| ==> RecordSurvives(rs[i], quiet)
  }

  // ---- validation ----

  /** struct validate_values, as far as it is looked at. */
  datatype Validate = Validate(events: int, pid: int, branchLow: nat)

  /** A message on stderr. */
  datatype Complaint = WrongCount(nr: int) | WrongPid(pid: int) | BranchTooLow(from: u64)

  /** One complaint for each branch that starts too low. */
  function LowBranches(low: nat, words: seq<u64>): seq<Complaint> {
    if |words| < 3 then []
    else
      var n := |words| - 3;
      LowBranches(low, words[..n]) + if words[n] < low then [BranchTooLow(words[n])] else []
  }

  function CountComplaints(expected: Validate, nr: u64): seq<Complaint> {
    if Signed64(nr) != expected.events then [WrongCount(Signed64(nr))] else []
  }

  /** What is said about one part of a sample. */
  function Complaints(validate: Option<Validate>, item: Item, v: Value): seq<Complaint> {
    match validate
    case None => []
    case Some(expected) =>
      if item == Tid && v.Pair? && Signed32(v.first) != expected.pid then [WrongPid(Signed32(v.first))]
      else if item == Read && v.Group? then CountComplaints(expected, v.nr)
      else if item == BranchStack && v.Branches? then LowBranches(expected.branchLow, v.words)
      else []
  }

  function BodyComplaints(validate: Option<Validate>, items: seq<Item>, values: seq<Value>): seq<Complaint>
    requires |items| == |values|
    decreases |items|
  {
    if items == [] then []
    else
      var n := |items| - 1;
      BodyComplaints(validate, items[..n], values[..n]) + Complaints(validate, items[n], values[n])
  }

  function RecordComplaints(validate: Option<Validate>, cfg: Config, r: Record): seq<Complaint> {
    if r.Sample? && |r.values| == |Requested(DECODER_ORDER, cfg)|
    then BodyComplaints(validate, Requested(DECODER_ORDER, cfg), r.values)
    else []
  }

  function AllComplaints(validate: Option<Validate>, cfg: Config, rs: seq<Record>): seq<Complaint> {
    if rs == [] then []
    else AllComplaints(validate, cfg, rs[..|rs| - 1]) + RecordComplaints(validate, cfg, rs[|rs| - 1])
  }

  lemma {:induction false} LowBranchesHave(low: nat, words: seq<u64>, from: u64)
    requires |words| % 3 == 0
    ensures BranchTooLow(from) in LowBranches(low, words) <==> exists k: nat :: 3 * k < |words| && words[3 * k] == from < low
  {
    if words != [] {
      var n := |words| - 3;
      LowBranchesHave(low, words[..n], from);
      var last := n / 3;
      assert n == 3 * last;
      forall k: nat | 3 * k < |words|
        ensures 3 * k < n ==> words[..n][3 * k] == words[3 * k]
        ensures 3 * k < n || k == last
      {
      }
      if words[n] == from < low { assert words[3 * last] == from; }
      if k: nat :| 3 * k < n && words[..n][3 * k] == from < low { assert words[3 * k] == from; }
    }
  }

  /** c is what validation has to say against one part: a pid, a number of events or the start of a branch. */
  ghost predicate SaidOf(c: Complaint, expected: Validate, item: Item, v: Value) {
    match c
    case WrongPid(pid) => item == Tid && v.Pair? && pid == Signed32(v.first) != expected.pid
    case WrongCount(nr) => item == Read && v.Group? && nr == Signed64(v.nr) != expected.events
    case BranchTooLow(from) =>
      item == BranchStack && v.Branches? && exists k: nat :: 3 * k < |v.words| && v.words[3 * k] == from < expected.branchLow
  }

  lemma {:induction false} ComplaintIff(c: Complaint, expected: Validate, item: Item, v: Value)
    requires v.Branches? ==> |v.words| % 3 == 0
    ensures c in Complaints(Some(expected), item, v) <==> SaidOf(c, expected, item, v)
  {
    if v.Branches? && c.BranchTooLow? { LowBranchesHave(expected.branchLow, v.words, c.from); }
    if v.Branches? { OnlyBranches(expected.branchLow, v.words, c); }
  }

  lemma {:induction false} OnlyBranches(low: nat, words: seq<u64>, c: Complaint)
    ensures c in LowBranches(low, words) ==> c.BranchTooLow?
  {
    if |words| >= 3 { OnlyBranches(low, words[..|words| - 3], c); }
  }

  /** A sample is complained of exactly for what can be said of one of its parts, and of nothing without validation. */
  lemma {:induction false} BodyComplaintIff(c: Complaint, validate: Option<Validate>, items: seq<Item>, values: seq<Value>)
    requires |items| == |values| && forall i :: 0 <= i < |values| && values[i].Branches? ==> |values[i].words| % 3 == 0
    ensures c in BodyComplaints(validate, items, values)
            <==> validate.Some? && exists i :: 0 <= i < |items| && SaidOf(c, validate.value, items[i], values[i])
    decreases |items|
  {
    if items != [] {
      var n := |items| - 1;
      BodyComplaintIff(c, validate, items[..n], values[..n]);
      if validate.Some? {
        ComplaintIff(c, validate.value, items[n], values[n]);
        OneMoreSaid(c, validate.value, items, values);
      }
    }
  }

  lemma {:induction false} OneMoreSaid(c: Complaint, expected: Validate, items: seq<Item>, values: seq<Value>)
    requires |items| == |values| > 0
    ensures var n := |items| - 1;
            (exists i :: 0 <= i < |items| && SaidOf(c, expected, items[i], values[i]))
            <==> (exists i :: 0 <= i < n && SaidOf(c, expected, items[..n][i], values[..n][i]))
                 || SaidOf(c, expected, items[n], values[n])
  {
    var n := |items| - 1;
    if i :| 0 <= i < n && SaidOf(c, expected, items[i], values[i]) { assert SaidOf(c, expected, items[..n][i], values[..n][i]); }
  }

  // ---- the decoder undoes the encoder ----

  /** Runs of parts that stand together in both orders. */
  const LEADING_ITEMS: seq<Item> :=
    [Ip, Tid, Time, Addr, Id, StreamId, Cpu, Period, Read, Callchain, Raw, BranchStack, RegsUser]

  const STACK_ITEMS: seq<Item> := [StackUser, Weight, DataSrc]

  /**
    The sample parts come in the same order in the header file and in the decoder, and
    PERF_FORMAT_LOST, which the decoder does not know, is not part of a requested read.
   */
  predicate Faithful(cfg: Config) {
    && (cfg.Wants(Identifier) ==>
          forall item :: item in LEADING_ITEMS + [RegsIntr] + STACK_ITEMS ==> !cfg.Wants(item))
    && (cfg.Wants(RegsIntr) ==>
          forall item :: item in STACK_ITEMS + [Transaction] ==> !cfg.Wants(item))
    && !(cfg.Wants(Read) && cfg.Reads(LOST_COUNT))
  }

  lemma {:induction false} RequestedConcat(a: seq<Item>, b: seq<Item>, cfg: Config)
    ensures Requested(a + b, cfg) == Requested(a, cfg) + Requested(b, cfg)
  {
    if a == [] {
      assert a + b == b;
    } else {
      RequestedConcat(a[1..], b, cfg);
      assert (a + b)[1..] == a[1..] + b;
    }
  }

  lemma {:induction false} RequestedNone(a: seq<Item>, cfg: Config)
    ensures Requested(a, cfg) == [] <==> forall item :: item in a ==> !cfg.Wants(item)
  {
    if a != [] {
      RequestedNone(a[1..], cfg);
      assert forall item :: item in a <==> item == a[0] || item in a[1..];
    }
  }

  /** How the two orders are made up of those runs. */
  lemma {:induction false} OrdersAre()
    ensures DECODER_ORDER == LEADING_ITEMS + [RegsIntr] + STACK_ITEMS + [Identifier] + [Transaction]
    ensures HEADER_ORDER == [Identifier] + LEADING_ITEMS + STACK_ITEMS + [Transaction] + [RegsIntr]
  {
  }

  /** The two orders, cut into the blocks that the filter keeps whole. */
  lemma {:induction false} OrdersCut(cfg: Config)
    ensures Requested(DECODER_ORDER, cfg) ==
            Requested(LEADING_ITEMS, cfg) + Requested([RegsIntr], cfg) + Requested(STACK_ITEMS, cfg)
            + Requested([Identifier], cfg) + Requested([Transaction], cfg)
    ensures Requested(HEADER_ORDER, cfg) ==
            Requested([Identifier], cfg) + Requested(LEADING_ITEMS, cfg) + Requested(STACK_ITEMS, cfg)
            + Requested([Transaction], cfg) + Requested([RegsIntr], cfg)
  {
    OrdersAre();
    RequestedConcat(LEADING_ITEMS + [RegsIntr] + STACK_ITEMS + [Identifier], [Transaction], cfg);
    RequestedConcat(LEADING_ITEMS + [RegsIntr] + STACK_ITEMS, [Identifier], cfg);
    RequestedConcat(LEADING_ITEMS + [RegsIntr], STACK_ITEMS, cfg);
    RequestedConcat(LEADING_ITEMS, [RegsIntr], cfg);
    RequestedConcat([Identifier] + LEADING_ITEMS + STACK_ITEMS + [Transaction], [RegsIntr], cfg);
    RequestedConcat([Identifier] + LEADING_ITEMS + STACK_ITEMS, [Transaction], cfg);
    RequestedConcat([Identifier] + LEADING_ITEMS, STACK_ITEMS, cfg);
    RequestedConcat([Identifier], LEADING_ITEMS, cfg);
  }

  lemma {:induction false} FaithfulOrders(cfg: Config)
    requires Faithful(cfg)
    ensures Requested(DECODER_ORDER, cfg) == Requested(HEADER_ORDER, cfg)
  {
    OrdersCut(cfg);
    RequestedNone(LEADING_ITEMS, cfg);
    RequestedNone(STACK_ITEMS, cfg);
    if cfg.Wants(Identifier) {
      assert RegsIntr in LEADING_ITEMS + [RegsIntr] + STACK_ITEMS;
    }
  }

  lemma {:induction false} OptionRoundTrip(data: seq<byte>, off: nat, o: Option<u64>)
    requires At(data, off, OptionBytes(o))
    ensures OptionAt(data, off, o.Some?) == Done(o, off + |OptionBytes(o)|)
  {
    if o.Some? { U64RoundTrip(data, off, o.value); }
  }

  lemma {:induction false} SingleRoundTrip(cfg: Config, data: seq<byte>, off: nat, v: Value)
    requires v.Single? && ReadFits(cfg, v) && !cfg.Reads(LOST_COUNT)
    requires At(data, off, ItemBytes(Read, cfg, v))
    ensures ReadFormatAt(data, off, cfg) == Done(v, off + |ItemBytes(Read, cfg, v)|)
  {
    var e, r, i, l := OptionBytes(v.enabled), OptionBytes(v.running), OptionBytes(v.id), OptionBytes(v.lost);
    AtSplit(data, off, LE(v.value, 8), e + (r + (i + l)));
    AtSplit(data, off + 8, e, r + (i + l));
    AtSplit(data, off + 8 + |e|, r, i + l);
    AtSplit(data, off + 8 + |e| + |r|, i, l);
    U64RoundTrip(data, off, v.value);
    OptionRoundTrip(data, off + 8, v.enabled);
    OptionRoundTrip(data, off + 8 + |e|, v.running);
    OptionRoundTrip(data, off + 8 + |e| + |r|, v.id);
  }

  lemma {:induction false} WholeCounters(n: nat, words: nat)
    requires 1 <= words <= 2 && n % words == 0 && n < TWO_31
    ensures n / words * words == n && n / words < TWO_31
  {
  }

  lemma {:induction false} GroupRoundTrip(cfg: Config, data: seq<byte>, off: nat, v: Value)
    requires v.Group? && ReadFits(cfg, v) && !cfg.Reads(LOST_COUNT)
    requires At(data, off, ItemBytes(Read, cfg, v))
    ensures ReadFormatAt(data, off, cfg) == Done(v, off + |ItemBytes(Read, cfg, v)|)
  {
    var e, r := OptionBytes(v.enabled), OptionBytes(v.running);
    WholeCounters(|v.counters|, DecodedCounterWords(cfg));
    AtSplit(data, off, LE(v.nr, 8), e + (r + LEs(v.counters)));
    AtSplit(data, off + 8, e, r + LEs(v.counters));
    AtSplit(data, off + 8 + |e|, r, LEs(v.counters));
    U64RoundTrip(data, off, v.nr);
    OptionRoundTrip(data, off + 8, v.enabled);
    OptionRoundTrip(data, off + 8 + |e|, v.running);
    WordsRoundTrip(data, off + 8 + |e| + |r|, v.counters);
  }

  /** A counted run of words: callchains and branch stacks. */
  lemma {:induction false} CountedRoundTrip(data: seq<byte>, off: nat, nr: u64, ws: seq<u64>)
    requires At(data, off, LE(nr, 8) + LEs(ws))
    ensures U64At(data, off) == Done(nr, off + 8)
    ensures WordsAt(data, off + 8, |ws|) == Done(ws, off + 8 + 8 * |ws|)
  {
    AtSplit(data, off, LE(nr, 8), LEs(ws));
    U64RoundTrip(data, off, nr);
    WordsRoundTrip(data, off + 8, ws);
  }

  lemma {:induction false} PairRoundTrip(data: seq<byte>, off: nat, a: u32, b: u32)
    requires At(data, off, LE(a, 4) + LE(b, 4))
    ensures U32At(data, off) == Done(a, off + 4) && U32At(data, off + 4) == Done(b, off + 8)
  {
    RangeValues();
    AtSplit(data, off, LE(a, 4), LE(b, 4));
    WordRoundTrip(data, off, a, 4);
    WordRoundTrip(data, off + 4, b, 4);
  }

  lemma {:induction false} RawRoundTrip(data: seq<byte>, off: nat, bytes: seq<byte>)
    requires |bytes| < TWO_31 && At(data, off, LE(|bytes|, 4) + bytes)
    ensures U32At(data, off) == Done(|bytes|, off + 4)
    ensures BlobAt(data, off + 4, |bytes|) == Done(bytes, off + 4 + |bytes|)
  {
    RangeValues();
    AtSplit(data, off, LE(|bytes|, 4), bytes);
    WordRoundTrip(data, off, |bytes|, 4);
  }

  lemma {:induction false} StackRoundTrip(data: seq<byte>, off: nat, bytes: seq<byte>, used: u64)
    requires |bytes| < TWO_31 && At(data, off, LE(|bytes|, 8) + (bytes + LE(used, 8)))
    ensures U64At(data, off) == Done(|bytes|, off + 8)
    ensures BlobAt(data, off + 8, |bytes|) == Done(bytes, off + 8 + |bytes|)
    ensures U64At(data, off + 8 + |bytes|) == Done(used, off + 16 + |bytes|)
  {
    AtSplit(data, off, LE(|bytes|, 8), bytes + LE(used, 8));
    AtSplit(data, off + 8, bytes, LE(used, 8));
    U64RoundTrip(data, off, |bytes|);
    U64RoundTrip(data, off + 8 + |bytes|, used);
  }

  /** What an arm makes of a value that stands at its offset. */
  ghost predicate Decodes(r: Parsed<Value>, v: Value, quiet: bool, end: nat) {
    r == if Survives(v, quiet) then Done(Seen(v, quiet), end) else Stuck
  }

  lemma {:induction false} RegisterSetDecodes(item: Item, cfg: Config, quiet: bool, data: seq<byte>, off: nat, v: Value)
    requires item.Shape() == RegisterSet && Fits(item, cfg, v) && At(data, off, ItemBytes(item, cfg, v))
    ensures Decodes(ItemAt(item, cfg, quiet, data, off), v, quiet, off + |ItemBytes(item, cfg, v)|)
  {
    CountedRoundTrip(data, off, v.abi, v.regs);
  }

  lemma {:induction false} ListDecodes(item: Item, cfg: Config, quiet: bool, data: seq<byte>, off: nat, v: Value)
    requires item.Shape() == WordList || item.Shape() == TripleList
    requires Fits(item, cfg, v) && At(data, off, ItemBytes(item, cfg, v))
    ensures Decodes(ItemAt(item, cfg, quiet, data, off), v, quiet, off + |ItemBytes(item, cfg, v)|)
  {
    if item == Callchain { CallchainDecodes(cfg, quiet, data, off, v.ips); } else { BranchStackDecodes(cfg, quiet, data, off, v.words); }
  }

  lemma {:induction false} CallchainDecodes(cfg: Config, quiet: bool, data: seq<byte>, off: nat, ips: seq<u64>)
    requires |ips| < TWO_31 && At(data, off, LE(|ips|, 8) + LEs(ips))
    ensures ItemAt(Callchain, cfg, quiet, data, off) == Done(Chain(ips), off + 8 + 8 * |ips|)
  {
    CountedRoundTrip(data, off, |ips|, ips);
  }

  lemma {:induction false} BranchStackDecodes(cfg: Config, quiet: bool, data: seq<byte>, off: nat, words: seq<u64>)
    requires |words| % 3 == 0 && |words| < TWO_31 && At(data, off, LE(|words| / 3, 8) + LEs(words))
    ensures ItemAt(BranchStack, cfg, quiet, data, off) == Done(Branches(words), off + 8 + 8 * |words|)
  {
    var n := |words| / 3;
    assert 3 * n == |words|;
    CountedRoundTrip(data, off, n, words);
  }

  lemma {:induction false} RawDecodes(item: Item, cfg: Config, quiet: bool, data: seq<byte>, off: nat, v: Value)
    requires item.Shape() == Bytes && Fits(item, cfg, v) && At(data, off, ItemBytes(item, cfg, v))
    ensures Decodes(ItemAt(item, cfg, quiet, data, off), v, quiet, off + |ItemBytes(item, cfg, v)|)
  {
    RawRoundTrip(data, off, v.bytes);
  }

  lemma {:induction false} StackDecodes(item: Item, cfg: Config, quiet: bool, data: seq<byte>, off: nat, v: Value)
    requires item.Shape() == StackCopy && Fits(item, cfg, v) && At(data, off, ItemBytes(item, cfg, v))
    ensures Decodes(ItemAt(item, cfg, quiet, data, off), v, quiet, off + |ItemBytes(item, cfg, v)|)
  {
    StackRoundTrip(data, off, v.bytes, v.used);
  }

  lemma {:induction false} SmallDecodes(item: Item, cfg: Config, quiet: bool, data: seq<byte>, off: nat, v: Value)
    requires item.Shape() == OneWord || item.Shape() == TwoInts
    requires Fits(item, cfg, v) && At(data, off, ItemBytes(item, cfg, v))
    ensures Decodes(ItemAt(item, cfg, quiet, data, off), v, quiet, off + |ItemBytes(item, cfg, v)|)
  {
    if item.Shape() == OneWord { U64RoundTrip(data, off, v.word); } else { PairRoundTrip(data, off, v.first, v.second); }
  }

  /**
    Each part laid down as documented is read back, as far as quiet lets it be read, to
    its end; except that a stack dump is undefined whenever its loop overruns.
   */
  lemma {:induction false} ItemRoundTrip(item: Item, cfg: Config, quiet: bool, data: seq<byte>, off: nat, v: Value)
    requires Fits(item, cfg, v) && (item.Read? ==> !cfg.Reads(LOST_COUNT))
    requires At(data, off, ItemBytes(item, cfg, v))
    ensures Decodes(ItemAt(item, cfg, quiet, data, off), v, quiet, off + |ItemBytes(item, cfg, v)|)
  {
    match item.Shape()
    case OneWord | TwoInts => SmallDecodes(item, cfg, quiet, data, off, v);
    case Counts =>
      if v.Single? { SingleRoundTrip(cfg, data, off, v); } else { GroupRoundTrip(cfg, data, off, v); }
    case WordList | TripleList => ListDecodes(item, cfg, quiet, data, off, v);
    case Bytes => RawDecodes(item, cfg, quiet, data, off, v);
    case RegisterSet => RegisterSetDecodes(item, cfg, quiet, data, off, v);
    case StackCopy => StackDecodes(item, cfg, quiet, data, off, v);
  }

  /** If every read in a chain yields its value and stops where the next one starts, so does the chain. */
  lemma {:induction false} ChainedOver<K(!new), V>(read: Reader<K, V>, keys: seq<K>, offs: seq<nat>, values: seq<V>)
    requires |values| == |keys| && |offs| == |keys| + 1
    requires forall i :: 0 <= i < |keys| ==> read(keys[i], offs[i]) == Done(values[i], offs[i + 1])
    ensures Chained(read, keys, offs[0]) == Done(values, offs[|keys|])
    decreases keys
  {
    if keys == [] {
    } else {
      forall i | 0 <= i < |keys| - 1
        ensures read(keys[1..][i], offs[1..][i]) == Done(values[1..][i], offs[1..][i + 1])
      {
        assert read(keys[i + 1], offs[i + 1]) == Done(values[i + 1], offs[i + 2]);
      }
      ChainedOver(read, keys[1..], offs[1..], values[1..]);
      assert values == [values[0]] + values[1..];
    }
  }

  /** If some read gets stuck where the ones before it lead, so does the chain. */
  lemma {:induction false} ChainedStuck<K(!new), V>(read: Reader<K, V>, keys: seq<K>, offs: seq<nat>, p: nat)
    requires p < |keys| && |offs| == |keys| + 1
    requires forall i :: 0 <= i < |keys| ==> read(keys[i], offs[i]).Stuck? || read(keys[i], offs[i]).next == offs[i + 1]
    requires read(keys[p], offs[p]).Stuck?
    ensures Chained(read, keys, offs[0]).Stuck?
    decreases p
  {
    if read(keys[0], offs[0]).Stuck? {
    } else {
      forall i | 0 <= i < |keys| - 1
        ensures read(keys[1..][i], offs[1..][i]).Stuck? || read(keys[1..][i], offs[1..][i]).next == offs[1..][i + 1]
      {
        assert read(keys[i + 1], offs[i + 1]).Stuck? || read(keys[i + 1], offs[i + 1]).next == offs[i + 2];
      }
      ChainedStuck(read, keys[1..], offs[1..], p - 1);
    }
  }

  lemma {:induction false} ChainDecodes(read: Reader<Item, Value>, items: seq<Item>, offs: seq<nat>, values: seq<Value>, quiet: bool)
    requires |values| == |items| && |offs| == |items| + 1
    requires forall i :: 0 <= i < |items| ==> Decodes(read(items[i], offs[i]), values[i], quiet, offs[i + 1])
    ensures Chained(read, items, offs[0])
            == if AllSurvive(values, quiet) then Done(SeenAll(values, quiet), offs[|items|]) else Stuck
  {
    if AllSurvive(values, quiet) {
      ChainedOver(read, items, offs, SeenAll(values, quiet));
    } else {
      var p :| 0 <= p < |values| && !Survives(values[p], quiet);
      assert Decodes(read(items[p], offs[p]), values[p], quiet, offs[p + 1]);
      ChainedStuck(read, items, offs, p);
    }
  }

  lemma {:induction false} PartAt(items: seq<Item>, cfg: Config, data: seq<byte>, off: nat, values: seq<Value>, i: nat)
    requires BodyFits(items, cfg, values) && At(data, off, BodyBytes(items, cfg, values)) && i < |items|
    ensures var offs := Offsets(off, PartBytes(items, cfg, values));
            At(data, offs[i], ItemBytes(items[i], cfg, values[i])) && offs[i + 1] == offs[i] + |ItemBytes(items[i], cfg, values[i])|
  {
    ChunkAt(data, off, PartBytes(items, cfg, values), i);
  }

  /** Every part of a sample comes back, whatever the lengths inside it, if none of its dumps overruns. */
  lemma {:induction false} BodyRoundTrip(items: seq<Item>, cfg: Config, quiet: bool, data: seq<byte>, off: nat, values: seq<Value>)
    requires BodyFits(items, cfg, values) && (Read in items ==> !cfg.Reads(LOST_COUNT))
    requires At(data, off, BodyBytes(items, cfg, values))
    ensures BodyAt(items, cfg, quiet, data, off)
            == if AllSurvive(values, quiet) then Done(SeenAll(values, quiet), off + |BodyBytes(items, cfg, values)|) else Stuck
  {
    var offs := Offsets(off, PartBytes(items, cfg, values));
    PartsDecode(items, cfg, quiet, data, off, values, offs);
    ChainDecodes(ItemReader(cfg, quiet, data), items, offs, values, quiet);
  }

  lemma {:induction false} PartsDecode(items: seq<Item>, cfg: Config, quiet: bool, data: seq<byte>, off: nat, values: seq<Value>,
      offs: seq<nat>)
    requires BodyFits(items, cfg, values) && (Read in items ==> !cfg.Reads(LOST_COUNT))
    requires At(data, off, BodyBytes(items, cfg, values)) && offs == Offsets(off, PartBytes(items, cfg, values))
    ensures forall i :: 0 <= i < |items| ==> Decodes(ItemReader(cfg, quiet, data)(items[i], offs[i]), values[i], quiet, offs[i + 1])
  {
    forall i | 0 <= i < |items|
      ensures Decodes(ItemReader(cfg, quiet, data)(items[i], offs[i]), values[i], quiet, offs[i + 1])
    {
      PartAt(items, cfg, data, off, values, i);
      assert items[i] in items;
      ItemRoundTrip(items[i], cfg, quiet, data, offs[i], values[i]);
    }
  }

  lemma {:induction false} FieldsRoundTrip(data: seq<byte>, off: nat, widths: seq<nat>, fields: seq<nat>)
    requires FieldsFit(widths, fields) && At(data, off, FieldBytes(widths, fields))
    ensures FieldsAt(data, off, widths) == Done(fields, off + |FieldBytes(widths, fields)|)
  {
    var parts := FieldParts(widths, fields);
    var offs := Offsets(off, parts);
    ConcatAt(data, off, parts);
    forall i | 0 <= i < |widths|
      ensures WordReader(data)(widths[i], offs[i]) == Done(fields[i], offs[i + 1])
    {
      assert At(data, offs[i], parts[i]);
      RangeValues();
      WordRoundTrip(data, offs[i], fields[i], widths[i]);
    }
    ChainedOver(WordReader(data), widths, offs, fields);
  }

  function Sum(widths: seq<nat>): nat {
    if widths == [] then 0 else widths[0] + Sum(widths[1..])
  }

  lemma {:induction false} FieldBytesLength(widths: seq<nat>, fields: seq<nat>)
    requires FieldsFit(widths, fields)
    ensures |FieldBytes(widths, fields)| == Sum(widths)
  {
    if widths != [] {
      FieldBytesLength(widths[1..], fields[1..]);
      assert FieldParts(widths, fields)[1..] == FieldParts(widths[1..], fields[1..]);
    }
  }

  /** The record switch and the header file agree on every handled kind. */
  lemma {:induction false} LayoutsAgree(kind: u32)
    ensures DecoderFields(kind) == HeaderFields(kind)
    ensures Handled(kind) <==> kind == 9 || HeaderFields(kind).Some?
    ensures (CopiesText(kind) <==> HasText(kind)) && (HasText(kind) <==> kind == MMAP || kind == MMAP2 || kind == COMM)
    ensures (ReadsTrailer(kind) <==> ExpectedTrailer(kind) == 1)
            && (ReadsTrailer(kind) <==> kind == SWITCH || kind == SWITCH_CPU_WIDE || kind == LOST_SAMPLES || kind == AUX)
    ensures HasText(kind) ==> HeaderFields(kind).Some? && 8 + Sum(HeaderFields(kind).value) == TextStart(kind)
  {
    if kind == MMAP2 {
      var w: seq<nat> := [4, 4, 8, 8, 8] + [4, 4, 8, 8] + [4, 4];
      assert w == [4, 4, 8, 8, 8, 4, 4, 8, 8, 4, 4];
      assert Sum([8, 8, 4, 4]) == 24;
      assert Sum([4, 4, 8, 8, 4, 4]) == 32;
      assert Sum([8, 4, 4, 8, 8, 4, 4]) == 40;
      assert Sum([8, 8, 8, 4, 4, 8, 8, 4, 4]) == 56;
    }
  }
}
