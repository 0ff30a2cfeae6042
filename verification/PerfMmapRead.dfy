/**
  perf_mmap_read and its helpers step by step: the two copies out of the ring, the
  record loop with its inner loops, and the store of data_tail.  Every method is proved
  to compute the functions of ParseRecord.
*/
module PerfMmapRead {
  import opened Bytes
  import opened RecordFormat
  import opened ParseRecord
  import Bits

  /** The two words of struct perf_event_mmap_page that the reader uses. */
  class ControlPage {
    var dataHead: nat
    var dataTail: nat
    constructor () { dataHead, dataTail := 0, 0; }
  }

  /** memcpy(dst + dstOff, src + srcOff, n) */
  method Memcpy(dst: array<byte>, dstOff: nat, src: array<byte>, srcOff: nat, n: nat)
    requires dst != src && dstOff + n <= dst.Length && srcOff + n <= src.Length
    modifies dst
    ensures dst[..] == old(dst[..dstOff]) + src[srcOff..srcOff + n] + old(dst[dstOff + n..])
  {
    for i := 0 to n
      invariant dst[..dstOff] == old(dst[..dstOff]) && dst[dstOff + n..] == old(dst[dstOff + n..])
      invariant dst[dstOff..dstOff + i] == src[srcOff..srcOff + i]
    {
      dst[dstOff + i] := src[srcOff + i];
      assert dst[dstOff..dstOff + i + 1] == dst[dstOff..dstOff + i] + [src[srcOff + i]];
    }
    assert dst[..] == dst[..dstOff] + dst[dstOff..dstOff + n] + dst[dstOff + n..];
  }

  /** The ring from position prevHead on, once around. */
  function Unrolled(ring: seq<byte>, prevHead: nat): (s: seq<byte>)
    requires ring != []
    ensures |s| == |ring|
  {
    ring[prevHead % |ring|..] + ring[..prevHead % |ring|]
  }

  /** Byte k of the linear buffer is the byte of the stream position prevHead + k. */
  lemma {:induction false} UnrolledAt(ring: seq<byte>, prevHead: nat, k: nat)
    requires k < |ring|
    ensures Unrolled(ring, prevHead)[k] == ring[(prevHead + k) % |ring|]
  {
    var n, w := |ring|, prevHead % |ring|;
    var q := prevHead / n;
    assert prevHead + k == q * n + (w + k);
    if w + k < n {
      ModUnique(prevHead + k, n, q, w + k);
    } else {
      assert prevHead + k == (q + 1) * n + (w + k - n);
      ModUnique(prevHead + k, n, q + 1, w + k - n);
    }
  }

  lemma {:induction false} ModUnique(x: nat, n: nat, q: nat, r: nat)
    requires n > 0 && r < n && x == q * n + r
    ensures x % n == r
  {
    var d: int := x / n - q;
    assert x == (x / n) * n + x % n;
    assert d * n == r - x % n;
    MultipleOf(d, n);
  }

  lemma {:induction false} MultipleOf(d: int, n: int)
    requires n > 0
    ensures d >= 1 ==> d * n >= n
    ensures d <= -1 ==> d * n <= -n
  {
  }

  method Unroll(ring: array<byte>, prevHead: nat) returns (data: array<byte>)
    requires ring.Length > 0
    ensures fresh(data) && data[..] == Unrolled(ring[..], prevHead)
  {
    var bytesize := ring.Length;
    data := new byte[bytesize](_ => 0);
    var prevHeadWrap := prevHead % bytesize;
    Memcpy(data, 0, ring, prevHeadWrap, bytesize - prevHeadWrap);
    assert data[..bytesize - prevHeadWrap] == ring[prevHeadWrap..];
    Memcpy(data, bytesize - prevHeadWrap, ring, 0, prevHeadWrap);
    assert data[..] == data[..bytesize - prevHeadWrap] + data[bytesize - prevHeadWrap..];
  }

  // ---- inner loops ----

  lemma {:induction false} WordsStep(data: seq<byte>, off: nat, i: nat)
    requires WordsAt(data, off, i).Done?
    ensures U64At(data, off + 8 * i).Done? ==>
              WordsAt(data, off, i + 1)
              == Done(WordsAt(data, off, i).value + [U64At(data, off + 8 * i).value], off + 8 * (i + 1))
    ensures U64At(data, off + 8 * i).Stuck? ==> WordsAt(data, off, i + 1).Stuck?
  {
  }

  /** A run of words after a run of words. */
  lemma {:induction false} WordsJoin(data: seq<byte>, off: nat, a: nat, b: nat)
    requires WordsAt(data, off, a).Done?
    ensures WordsAt(data, off, a + b)
            == match WordsAt(data, off + 8 * a, b)
               case Stuck => Stuck
               case Done(ws, next) => Done(WordsAt(data, off, a).value + ws, next)
    decreases b
  {
    var first := WordsAt(data, off, a).value;
    if b == 0 {
      assert first + [] == first;
    } else {
      WordsJoin(data, off, a, b - 1);
      var rest := WordsAt(data, off + 8 * a, b - 1);
      if rest.Done? {
        var last := U64At(data, rest.next);
        if last.Done? { assert first + (rest.value + [last.value]) == (first + rest.value) + [last.value]; }
      }
    }
  }

  /** One counter: a value, and an id beside it when asked for. */
  method ReadCounter(data: seq<byte>, off: nat, withId: bool) returns (r: Parsed<seq<u64>>)
    ensures r == WordsAt(data, off, if withId then 2 else 1)
  {
    var value := U64At(data, off);
    WordsStep(data, off, 0);
    if value.Stuck? {
      WordsStuck(data, off, 1, if withId then 2 else 1);
      return Stuck;
    }
    assert [] + [value.value] == [value.value];
    if !withId { return Done([value.value], value.next); }
    var id := U64At(data, value.next);
    WordsStep(data, off, 1);
    assert id.Done? ==> [value.value] + [id.value] == [value.value, id.value];
    return if id.Stuck? then Stuck else Done([value.value, id.value], id.next);
  }

  /** The words of n counters. */
  function CounterRun(n: nat, withId: bool): nat { if withId then n * 2 else n }

  /** The counters of a group read. */
  method GroupCounters(data: seq<byte>, off: nat, nr: nat, withId: bool) returns (r: Parsed<seq<u64>>)
    ensures r == WordsAt(data, off, if withId then nr * 2 else nr)
  {
    var offset, counters, i := off, [], 0;
    while i < nr
      invariant 0 <= i <= nr
      invariant WordsAt(data, off, CounterRun(i, withId)) == Done(counters, offset)
    {
      CounterStep(data, off, i, nr, withId);
      var counter := ReadCounter(data, offset, withId);
      if counter.Stuck? { return Stuck; }
      counters, offset := counters + counter.value, counter.next;
      i := i + 1;
    }
    return Done(counters, offset);
  }

  lemma {:induction false} CounterStep(data: seq<byte>, off: nat, i: nat, nr: nat, withId: bool)
    requires i < nr && WordsAt(data, off, CounterRun(i, withId)).Done?
    ensures var before := WordsAt(data, off, CounterRun(i, withId));
            match WordsAt(data, before.next, CounterRun(1, withId))
            case Stuck => WordsAt(data, off, CounterRun(nr, withId)).Stuck?
            case Done(words, next) => WordsAt(data, off, CounterRun(i + 1, withId)) == Done(before.value + words, next)
  {
    RunStep(data, off, CounterRun(i, withId), CounterRun(1, withId), CounterRun(nr, withId));
  }

  /** Part of a run of n words: b words after the first a. */
  lemma {:induction false} RunStep(data: seq<byte>, off: nat, a: nat, b: nat, n: nat)
    requires a + b <= n && WordsAt(data, off, a).Done?
    ensures var before := WordsAt(data, off, a);
            before.next == off + 8 * a
            && match WordsAt(data, before.next, b)
               case Stuck => WordsAt(data, off, n).Stuck?
               case Done(words, next) => WordsAt(data, off, a + b) == Done(before.value + words, next)
  {
    if WordsAt(data, off + 8 * a, b).Stuck? { RunStuck(data, off, a, b, n); } else { WordsJoin(data, off, a, b); }
  }

  function One(b: bool): nat { if b then 1 else 0 }

  /** The words of a read: one, one for each time asked for, and the counters or the id. */
  function ReadWords(cfg: Config, nr: nat): nat {
    1 + One(cfg.Reads(TOTAL_TIME_ENABLED)) + One(cfg.Reads(TOTAL_TIME_RUNNING))
    + if cfg.Reads(GROUP) then nr * (1 + One(cfg.Reads(FORMAT_ID))) else One(cfg.Reads(FORMAT_ID))
  }

  /** The times of a read, those that are asked for. */
  method ReadTimes(data: seq<byte>, off: nat, cfg: Config) returns (r: Parsed<(Option<u64>, Option<u64>)>)
    ensures var enabled := OptionAt(data, off, cfg.Reads(TOTAL_TIME_ENABLED));
            if enabled.Stuck? then r.Stuck?
            else
              var running := OptionAt(data, enabled.next, cfg.Reads(TOTAL_TIME_RUNNING));
              if running.Stuck? then r.Stuck? else r == Done((enabled.value, running.value), running.next)
  {
    var enabled := OptionAt(data, off, cfg.Reads(TOTAL_TIME_ENABLED));
    if enabled.Stuck? { return Stuck; }
    var running := OptionAt(data, enabled.next, cfg.Reads(TOTAL_TIME_RUNNING));
    if running.Stuck? { return Stuck; }
    return Done((enabled.value, running.value), running.next);
  }

  method CheckCount(nr: u64, validate: Option<Validate>) returns (complaints: seq<Complaint>)
    ensures complaints == if validate.Some? then CountComplaints(validate.value, nr) else []
  {
    if validate.Some? && validate.value.events != Signed64(nr) {
      return [WrongCount(Signed64(nr))];
    }
    return [];
  }

  lemma {:induction false} CounterTotal(cfg: Config, nr: nat)
    ensures nr * DecodedCounterWords(cfg) == if cfg.Reads(FORMAT_ID) then nr * 2 else nr
  {
  }

  /** The half of handle_struct_read_format for groups: a wrong number of events is complained about, and changes nothing else. */
  method ReadGroup(data: seq<byte>, off: nat, cfg: Config, validate: Option<Validate>)
    returns (r: Parsed<Value>, complaints: seq<Complaint>)
    requires cfg.Reads(GROUP)
    ensures r == ReadFormatAt(data, off, cfg)
    ensures r.Done? ==> complaints == Complaints(validate, RecordFormat.Read, r.value)
  {
    var nr := U64At(data, off);
    if nr.Stuck? { return Stuck, []; }
    complaints := CheckCount(nr.value, validate);
    var times := ReadTimes(data, nr.next, cfg);
    if times.Stuck? { return Stuck, []; }
    CounterTotal(cfg, Count(nr.value));
    var counters := GroupCounters(data, times.next, Count(nr.value), cfg.Reads(FORMAT_ID));
    if counters.Stuck? { return Stuck, []; }
    r := Done(Group(nr.value, times.value.0, times.value.1, counters.value), counters.next);
  }

  /** The other half, for single events. */
  method ReadSingle(data: seq<byte>, off: nat, cfg: Config) returns (r: Parsed<Value>)
    requires !cfg.Reads(GROUP)
    ensures r == ReadFormatAt(data, off, cfg)
    ensures r.Done? ==> r.value.Single?
  {
    var value := U64At(data, off);
    if value.Stuck? { return Stuck; }
    var times := ReadTimes(data, value.next, cfg);
    if times.Stuck? { return Stuck; }
    var id := OptionAt(data, times.next, cfg.Reads(FORMAT_ID));
    if id.Stuck? { return Stuck; }
    return Done(Single(value.value, times.value.0, times.value.1, id.value, None), id.next);
  }

  /** handle_struct_read_format */
  method HandleStructReadFormat(data: seq<byte>, off: nat, cfg: Config, validate: Option<Validate>)
    returns (r: Parsed<Value>, complaints: seq<Complaint>)
    ensures r == ReadFormatAt(data, off, cfg)
    ensures r.Done? ==> complaints == Complaints(validate, RecordFormat.Read, r.value)
  {
    complaints := [];
    if cfg.Reads(GROUP) {
      r, complaints := ReadGroup(data, off, cfg, validate);
    } else {
      r := ReadSingle(data, off, cfg);
    }
  }

  /** A read consumes eight bytes for each of its words. */
  lemma {:induction false} ReadLength(data: seq<byte>, off: nat, cfg: Config)
    requires ReadFormatAt(data, off, cfg).Done?
    ensures U64At(data, off).Done?
    ensures ReadFormatAt(data, off, cfg).next - off == 8 * ReadWords(cfg, Count(U64At(data, off).value))
  {
    var nr := Count(U64At(data, off).value);
    assert nr * DecodedCounterWords(cfg) == nr * (1 + One(cfg.Reads(FORMAT_ID)));
  }

  lemma {:induction false} WeightGrows(mask: nat, i: nat, n: nat)
    requires i <= n
    ensures Bits.Weight(mask, i) <= Bits.Weight(mask, n)
  {
    if i < n { WeightGrows(mask, i, n - 1); }
  }

  /** print_regs: one word for each set bit of the mask, lowest first; nothing is read when quiet. */
  method PrintRegs(data: seq<byte>, off: nat, mask: nat, quiet: bool) returns (r: Parsed<seq<u64>>)
    ensures r == RegisterWordsAt(data, off, mask, quiet)
    ensures r.Done? ==> r.next - off == 8 * Bits.Weight(mask, 64)
  {
    var offset, regs := off, [];
    for i := 0 to 64
      invariant offset == off + 8 * Bits.Weight(mask, i)
      invariant if quiet then regs == [] else WordsAt(data, off, Bits.Weight(mask, i)) == Done(regs, offset)
    {
      if Bits.Test(mask, i) {
        if !quiet {
          var w := U64At(data, offset);
          WordsStep(data, off, Bits.Weight(mask, i));
          if w.Stuck? {
            WeightGrows(mask, i + 1, 64);
            WordsStuck(data, off, Bits.Weight(mask, i + 1), Bits.Weight(mask, 64));
            return Stuck;
          }
          regs := regs + [w.value];
        }
        offset := offset + 8;
      }
    }
    return Done(regs, offset);
  }

  /** The raw payload, byte by byte if it is printed. */
  method PrintRaw(data: seq<byte>, off: nat, size: nat, quiet: bool) returns (r: Parsed<seq<byte>>)
    requires off <= |data|
    ensures r == PayloadAt(data, off, size, quiet)
  {
    var bytes := [];
    if !quiet {
      var i := 0;
      while i < size
        invariant 0 <= i <= size && off + i <= |data| && bytes == data[off..off + i]
      {
        if off + i >= |data| { return Stuck; }
        bytes := bytes + [data[off + i]];
        i := i + 1;
      }
    }
    return Done(bytes, off + size);
  }

  /** The elements that the dump prints: every fourth int of the stack. */
  function Dumped(stack: seq<byte>, n: nat): (r: seq<nat>)
    requires n == 0 || 16 * (n - 1) + 4 <= |stack|
    ensures |r| == n
  {
    if n == 0 then [] else Dumped(stack, n - 1) + [FromLE(stack[16 * (n - 1)..16 * (n - 1) + 4])]
  }

  /** The loop over the used part of a stack: its int subscript goes up by 4, whether or not anything is printed. */
  method DumpStack(stack: seq<byte>, used: u64, quiet: bool) returns (ok: bool, printed: seq<nat>)
    ensures ok == DumpSucceeds(|stack|, used, quiet)
    ensures ok && !quiet ==> |printed| == (if Signed64(used) <= 0 then 0 else (used - 1) / 4 + 1) && printed == Dumped(stack, |printed|)
  {
    var dynSize := Signed64(used);
    var k: int := 0;
    printed := [];
    while k < dynSize
      invariant 0 <= k < TWO_31 && k % 4 == 0 && (k > 0 ==> k - 4 < dynSize)
      invariant quiet || k == 0 || 4 * (k - 4) + 4 <= |stack|
      invariant quiet || (|printed| == k / 4 && printed == Dumped(stack, k / 4))
      decreases dynSize - k
    {
      if !quiet {
        if 4 * k + 4 > |stack| { return false, printed; }
        printed := printed + [FromLE(stack[4 * k..4 * k + 4])];
      }
      if k + 4 >= TWO_31 { return false, printed; }
      k := k + 4;
    }
    return true, printed;
  }

  /** The STACK_USER arm: a copy of the stack, and the dump of its used part. */
  method DecodeStack(data: seq<byte>, off: nat, quiet: bool) returns (r: Parsed<Value>)
    ensures r == StackAt(data, off, quiet)
  {
    var size := U64At(data, off);
    if size.Stuck? || Signed64(size.value) < 0 { return Stuck; }
    var stack := BlobAt(data, size.next, size.value);
    if stack.Stuck? { return Stuck; }
    var used := U64At(data, stack.next);
    if used.Stuck? { return Stuck; }
    var ok, _ := DumpStack(stack.value, used.value, quiet);
    return if ok then Done(Stack(stack.value, used.value), used.next) else Stuck;
  }

  /** printf("%s"): up to the first zero byte. */
  method PrintText(text: seq<byte>, quiet: bool) returns (ok: bool)
    ensures ok == TextEnds(text, quiet)
  {
    if quiet { return true; }
    var i := 0;
    while i < |text|
      invariant 0 <= i <= |text| && 0 !in text[..i]
    {
      if text[i] == 0 { return true; }
      i := i + 1;
    }
    return false;
  }

  /** The loop over n words of a callchain, or of the three words of each branch. */
  method CopyWords(data: seq<byte>, off: nat, n: nat) returns (r: Parsed<seq<u64>>)
    ensures r == WordsAt(data, off, n)
  {
    var offset, words := off, [];
    for i := 0 to n
      invariant WordsAt(data, off, i) == Done(words, offset)
    {
      var w := U64At(data, offset);
      WordsStep(data, off, i);
      if w.Stuck? {
        WordsStuck(data, off, i + 1, n);
        return Stuck;
      }
      words, offset := words + [w.value], w.next;
    }
    return Done(words, offset);
  }

  function BranchComplaint(validate: Option<Validate>, from: u64): seq<Complaint> {
    if validate.Some? && from < validate.value.branchLow then [BranchTooLow(from)] else []
  }

  /** One branch: where it came from, where it went, and its flags. */
  method DecodeBranch(data: seq<byte>, off: nat, validate: Option<Validate>) returns (r: Parsed<seq<u64>>, complaints: seq<Complaint>)
    ensures r == WordsAt(data, off, 3)
    ensures r.Done? ==> complaints == BranchComplaint(validate, r.value[0])
  {
    complaints := [];
    r := CopyWords(data, off, 3);
    if r.Done? && validate.Some? && r.value[0] < validate.value.branchLow {
      complaints := [BranchTooLow(r.value[0])];
    }
  }

  /** The branch stack, each branch checked against the lowest expected address. */
  method DecodeBranches(data: seq<byte>, off: nat, n: nat, validate: Option<Validate>)
    returns (r: Parsed<seq<u64>>, complaints: seq<Complaint>)
    ensures r == WordsAt(data, off, 3 * n)
    ensures r.Done? ==> complaints == Complaints(validate, BranchStack, Branches(r.value))
  {
    var offset, words := off, [];
    complaints := [];
    for i := 0 to n
      invariant WordsAt(data, off, 3 * i) == Done(words, offset)
      invariant complaints == Complaints(validate, BranchStack, Branches(words))
    {
      BranchStep(data, off, i, n, validate);
      var branch, more := DecodeBranch(data, offset, validate);
      if branch.Stuck? { return Stuck, []; }
      words, offset, complaints := words + branch.value, branch.next, complaints + more;
    }
    return Done(words, offset), complaints;
  }

  lemma {:induction false} BranchStep(data: seq<byte>, off: nat, i: nat, n: nat, validate: Option<Validate>)
    requires i < n && WordsAt(data, off, 3 * i).Done?
    ensures var before := WordsAt(data, off, 3 * i);
            match WordsAt(data, before.next, 3)
            case Stuck => WordsAt(data, off, 3 * n).Stuck?
            case Done(branch, next) =>
              && WordsAt(data, off, 3 * (i + 1)) == Done(before.value + branch, next)
              && Complaints(validate, BranchStack, Branches(before.value + branch))
                 == Complaints(validate, BranchStack, Branches(before.value)) + BranchComplaint(validate, branch[0])
  {
    var before := WordsAt(data, off, 3 * i);
    var branch := WordsAt(data, before.next, 3);
    RunStep(data, off, 3 * i, 3, 3 * n);
    if branch.Done? { BranchComplaintsMore(validate, before.value, branch.value); }
  }

  lemma {:induction false} RunStuck(data: seq<byte>, off: nat, a: nat, b: nat, n: nat)
    requires a + b <= n && WordsAt(data, off, a).Done? && WordsAt(data, off + 8 * a, b).Stuck?
    ensures WordsAt(data, off, n).Stuck?
  {
    WordsJoin(data, off, a, b);
    WordsStuck(data, off, a + b, n);
  }

  lemma {:induction false} BranchComplaintsMore(validate: Option<Validate>, words: seq<u64>, branch: seq<u64>)
    requires |branch| == 3
    ensures Complaints(validate, BranchStack, Branches(words + branch))
            == Complaints(validate, BranchStack, Branches(words))
               + BranchComplaint(validate, branch[0])
  {
    assert (words + branch)[..|words|] == words;
  }

  /** One arm of the sample chain: what it reads, and what validation says about it. */
  method DecodeItem(item: Item, cfg: Config, quiet: bool, validate: Option<Validate>, data: seq<byte>, off: nat)
    returns (r: Parsed<Value>, complaints: seq<Complaint>)
    ensures r == ItemAt(item, cfg, quiet, data, off)
    ensures r.Done? ==> complaints == Complaints(validate, item, r.value)
  {
    complaints := [];
    match item
    case Tid =>
      var pid := U32At(data, off);
      var tid := U32At(data, off + 4);
      if pid.Stuck? || tid.Stuck? { return Stuck, []; }
      if validate.Some? && validate.value.pid != Signed32(pid.value) {
        complaints := [WrongPid(Signed32(pid.value))];
      }
      r := Done(Pair(pid.value, tid.value), off + 8);
    case Cpu =>
      var cpu := U32At(data, off);
      var res := U32At(data, off + 4);
      r := if cpu.Stuck? || res.Stuck? then Stuck else Done(Pair(cpu.value, res.value), off + 8);
    case Read =>
      r, complaints := HandleStructReadFormat(data, off, cfg, validate);
    case Callchain =>
      var nr := U64At(data, off);
      if nr.Stuck? { return Stuck, []; }
      var ips := CopyWords(data, nr.next, Count(nr.value));
      r := if ips.Stuck? then Stuck else Done(Chain(ips.value), ips.next);
    case Raw =>
      var size := U32At(data, off);
      if size.Stuck? || Signed32(size.value) < 0 { return Stuck, []; }
      var bytes := PrintRaw(data, size.next, size.value, quiet);
      r := if bytes.Stuck? then Stuck else Done(Blob(bytes.value), bytes.next);
    case BranchStack =>
      var bnr := U64At(data, off);
      if bnr.Stuck? { return Stuck, []; }
      var words;
      words, complaints := DecodeBranches(data, bnr.next, Count(bnr.value), validate);
      r := if words.Stuck? then Stuck else Done(Branches(words.value), words.next);
    case RegsUser | RegsIntr =>
      var abi := U64At(data, off);
      if abi.Stuck? { return Stuck, []; }
      var regs := PrintRegs(data, abi.next, cfg.regMask, quiet);
      r := if regs.Stuck? then Stuck else Done(Regs(abi.value, regs.value), regs.next);
    case StackUser =>
      r := DecodeStack(data, off, quiet);
    case Ip | Time | Addr | Id | StreamId | Period | Weight | DataSrc | Identifier | Transaction =>
      var word := U64At(data, off);
      r := if word.Stuck? then Stuck else Done(Word(word.value), word.next);
  }

  /** A chain can be extended at its end. */
  lemma {:induction false} ChainedAppend<K(!new), V>(read: Reader<K, V>, keys: seq<K>, more: seq<K>, off: nat)
    ensures match Chained(read, keys, off)
            case Stuck => Chained(read, keys + more, off).Stuck?
            case Done(vs, mid) =>
              match Chained(read, more, mid)
              case Stuck => Chained(read, keys + more, off).Stuck?
              case Done(ws, end) => Chained(read, keys + more, off) == Done(vs + ws, end)
    decreases keys
  {
    if keys == [] {
      assert keys + more == more;
      match Chained(read, more, off) case Stuck => case Done(ws, _) => assert [] + ws == ws;
    } else {
      assert (keys + more)[1..] == keys[1..] + more;
      match read(keys[0], off)
      case Stuck =>
      case Done(v, next) =>
        ChainedAppend(read, keys[1..], more, next);
        match Chained(read, keys[1..], next)
        case Stuck =>
        case Done(vs, mid) =>
          match Chained(read, more, mid) case Stuck => case Done(ws, _) => assert [v] + (vs + ws) == ([v] + vs) + ws;
    }
  }

  /** One more link of a chain: what the loop bodies below do. */
  lemma {:induction false} ChainedStep<K(!new), V>(read: Reader<K, V>, keys: seq<K>, i: nat, off: nat)
    requires i < |keys| && Chained(read, keys[..i], off).Done?
    ensures var mid := Chained(read, keys[..i], off).next;
            match read(keys[i], mid)
            case Stuck => Chained(read, keys, off).Stuck?
            case Done(v, end) =>
              Chained(read, keys[..i + 1], off) == Done(Chained(read, keys[..i], off).value + [v], end)
  {
    var mid := Chained(read, keys[..i], off).next;
    var one := read(keys[i], mid);
    assert Chained(read, [], mid) == Done([], mid);
    assert [keys[i]][1..] == [];
    assert keys[..i + 1] == keys[..i] + [keys[i]] && keys == keys[..i + 1] + keys[i + 1..];
    ChainedAppend(read, keys[..i], [keys[i]], off);
    if one.Done? {
      assert Chained(read, [], one.next) == Done([], one.next);
      assert Chained(read, [keys[i]], mid) == Done([one.value] + [], one.next);
      assert [one.value] + [] == [one.value];
    } else {
      assert Chained(read, [keys[i]], mid).Stuck?;
      ChainedAppend(read, keys[..i + 1], keys[i + 1..], off);
    }
  }

  lemma {:induction false} RequestedStep(order: seq<Item>, i: nat, cfg: Config)
    requires i < |order|
    ensures Requested(order[..i + 1], cfg)
            == Requested(order[..i], cfg) + (if cfg.Wants(order[i]) then [order[i]] else [])
    ensures |Requested(order[..i], cfg)| <= |Requested(order, cfg)|
    ensures Requested(order, cfg)[..|Requested(order[..i], cfg)|] == Requested(order[..i], cfg)
    ensures cfg.Wants(order[i]) ==>
              |Requested(order[..i], cfg)| < |Requested(order, cfg)|
              && Requested(order, cfg)[|Requested(order[..i], cfg)|] == order[i]
  {
    assert order[..i + 1] == order[..i] + [order[i]] && order == order[..i] + order[i..];
    assert [order[i]][1..] == [] && order[i..][0] == order[i];
    RequestedConcat(order[..i], [order[i]], cfg);
    RequestedConcat(order[..i], order[i..], cfg);
    assert Requested([order[i]], cfg) == (if cfg.Wants(order[i]) then [order[i]] else []) + Requested([], cfg);
  }

  lemma {:induction false} ComplaintsMore(validate: Option<Validate>, items: seq<Item>, values: seq<Value>, item: Item, v: Value)
    requires |items| == |values|
    ensures BodyComplaints(validate, items + [item], values + [v])
            == BodyComplaints(validate, items, values) + Complaints(validate, item, v)
  {
    assert (items + [item])[..|items|] == items && (values + [v])[..|values|] == values;
  }

  /** The sample chain: one `if` for each part, in the decoder's order. */
  method DecodeSample(cfg: Config, quiet: bool, validate: Option<Validate>, data: seq<byte>, off: nat)
    returns (r: Parsed<seq<Value>>, complaints: seq<Complaint>)
    ensures r == BodyAt(Requested(DECODER_ORDER, cfg), cfg, quiet, data, off)
    ensures r.Done? ==> complaints == BodyComplaints(validate, Requested(DECODER_ORDER, cfg), r.value)
  {
    r, complaints := DecodeParts(DECODER_ORDER, cfg, quiet, validate, data, off);
  }

  /** The parts of an order that are asked for. */
  method DecodeParts(order: seq<Item>, cfg: Config, quiet: bool, validate: Option<Validate>, data: seq<byte>, off: nat)
    returns (r: Parsed<seq<Value>>, complaints: seq<Complaint>)
    ensures r == BodyAt(Requested(order, cfg), cfg, quiet, data, off)
    ensures r.Done? ==> complaints == BodyComplaints(validate, Requested(order, cfg), r.value)
  {
    var offset, values := off, [];
    complaints := [];
    ghost var read := ItemReader(cfg, quiet, data);
    ghost var wanted := Requested(order, cfg);
    for i := 0 to |order|
      invariant Chained(read, Requested(order[..i], cfg), off) == Done(values, offset)
      invariant complaints == BodyComplaints(validate, Requested(order[..i], cfg), values)
    {
      RequestedStep(order, i, cfg);
      if cfg.Wants(order[i]) {
        ghost var k := |Requested(order[..i], cfg)|;
        assert wanted[..k + 1] == Requested(order[..i + 1], cfg);
        ChainedStep(read, wanted, k, off);
        var v, more := DecodeItem(order[i], cfg, quiet, validate, data, offset);
        if v.Stuck? { return Stuck, []; }
        ComplaintsMore(validate, Requested(order[..i], cfg), values, order[i], v.value);
        values, offset, complaints := values + [v.value], v.next, complaints + more;
      } else {
        assert Requested(order[..i + 1], cfg) == Requested(order[..i], cfg);
      }
    }
    assert order[..|order|] == order;
    return Done(values, offset), complaints;
  }

  /** The straight-line copies of the fixed members of a record. */
  method DecodeFields(data: seq<byte>, off: nat, widths: seq<nat>) returns (r: Parsed<seq<nat>>)
    ensures r == FieldsAt(data, off, widths)
  {
    var offset, fields := off, [];
    for i := 0 to |widths|
      invariant Chained(WordReader(data), widths[..i], off) == Done(fields, offset)
    {
      ChainedStep(WordReader(data), widths, i, off);
      var w := WordAt(data, offset, widths[i]);
      if w.Stuck? { return Stuck; }
      fields, offset := fields + [w.value], w.next;
    }
    assert widths[..|widths|] == widths;
    return Done(fields, offset);
  }

  /** The string or the sample_id word after the fixed members. */
  method DecodeTail(kind: u32, size: u16, quiet: bool, data: seq<byte>, off: nat) returns (r: Parsed<(seq<byte>, seq<u64>)>)
    ensures r == TailAt(kind, size, quiet, data, off)
  {
    if CopiesText(kind) {
      if size < TextStart(kind) { return Stuck; }
      var text := BlobAt(data, off, size - TextStart(kind));
      if text.Stuck? { return Stuck; }
      var ok := PrintText(text.value, quiet);
      return if ok then Done((text.value, []), text.next) else Stuck;
    }
    if ReadsTrailer(kind) {
      var id := U64At(data, off);
      return if id.Stuck? then Stuck else Done(([], [id.value]), id.next);
    }
    return Done(([], []), off);
  }

  /** One turn of the record loop. */
  method DecodeRecord(cfg: Config, quiet: bool, validate: Option<Validate>, data: seq<byte>, off: nat)
    returns (t: Turn, complaints: seq<Complaint>)
    ensures t == TurnAt(cfg, quiet, data, off)
    ensures t.Parse? ==> complaints == RecordComplaints(validate, cfg, t.record)
  {
    complaints := [];
    var h := HeaderAt(data, off);
    if h.Stuck? { return Trap, []; }
    var kind, misc := h.value.kind, h.value.misc;
    if kind == SAMPLE {
      var values;
      values, complaints := DecodeSample(cfg, quiet, validate, data, h.next);
      return if values.Stuck? then Trap else Parse(Sample(misc, values.value), values.next), complaints;
    }
    var widths := DecoderFields(kind);
    if widths.None? { return Skip, []; }
    var fields := DecodeFields(data, h.next, widths.value);
    if fields.Stuck? { return Trap, []; }
    var tail := DecodeTail(kind, h.value.size, quiet, data, fields.next);
    t := if tail.Stuck? then Trap
         else Parse(Plain(kind, misc, fields.value, tail.value.0, tail.value.1), tail.next);
  }

  /** A finished or failed run of the record loop, as the caller sees it: what went to stdout and stderr, the count and the offset. */
  datatype Report = Undefined | Report(printed: seq<Record>, complaints: seq<Complaint>, eventsRead: nat, offset: int)

  function Reported(run: Run, quiet: bool, validate: Option<Validate>, cfg: Config): Report {
    match run
    case Broken => Undefined
    case Ended(rs, n, o) => Report(if quiet then [] else rs, AllComplaints(validate, cfg, rs), n, o)
  }

  lemma {:induction false} PrependOne(rs: seq<Record>, r: Record, run: Run)
    ensures Prepend(rs, run.After(r)) == Prepend(rs + [r], run)
  {
  }

  lemma {:induction false} AllComplaintsMore(validate: Option<Validate>, cfg: Config, rs: seq<Record>, r: Record)
    ensures AllComplaints(validate, cfg, rs + [r]) == AllComplaints(validate, cfg, rs) + RecordComplaints(validate, cfg, r)
  {
    assert (rs + [r])[..|rs|] == rs;
  }

  /** while (offset < size) */
  method DecodeLoop(cfg: Config, quiet: bool, validate: Option<Validate>, data: seq<byte>, size: int) returns (r: Report)
    ensures r == Reported(Loop(cfg, quiet, data, size, 0), quiet, validate, cfg)
  {
    var offset: int, eventsRead, printed, complaints := 0, 0, [], [];
    ghost var turns, all: seq<Record> := Turns(cfg, quiet, data), [];
    while offset < size
      invariant 0 <= offset && eventsRead == |all| && printed == (if quiet then [] else all)
      invariant complaints == AllComplaints(validate, cfg, all)
      invariant Loop(cfg, quiet, data, size, 0) == Prepend(all, Walk(turns, size, offset))
      decreases size - offset
    {
      var t, more := DecodeRecord(cfg, quiet, validate, data, offset);
      match t
      case Trap => return Undefined;
      case Skip =>
        assert all + [] == all;
        return Report(printed, complaints, eventsRead + 1, size);
      case Parse(record, next) =>
        PrependOne(all, record, Walk(turns, size, next));
        AllComplaintsMore(validate, cfg, all, record);
        if !quiet { printed := printed + [record]; }
        complaints := complaints + more;
        all := all + [record];
        eventsRead, offset := eventsRead + 1, next;
    }
    assert all + [] == all;
    return Report(printed, complaints, eventsRead, offset);
  }

  /** Conversion of a 64-bit difference to int. */
  function Int32(x: int): int {
    var m := x % TWO_32;
    if m < TWO_31 then m else m - TWO_32
  }

  /** The int is the difference up to a multiple of 2^32. */
  lemma {:induction false} Int32Wraps(x: int)
    ensures -TWO_31 <= Int32(x) < TWO_31 && (x - Int32(x)) % TWO_32 == 0
  {
    var q := x / TWO_32;
    assert x == TWO_32 * q + x % TWO_32;
    WholeMultiple(q);
    WholeMultiple(q + 1);
  }

  lemma {:induction false} WholeMultiple(q: int)
    ensures (TWO_32 * q) % TWO_32 == 0
  {
  }

  /** What perf_mmap_read reports of the bytes from prevHead to head. */
  ghost function ReadReport(cfg: Config, quiet: bool, validate: Option<Validate>, ring: seq<byte>, prevHead: nat, head: nat): Report
    requires ring != []
  {
    Reported(Loop(cfg, quiet, Unrolled(ring, prevHead), Int32(head - prevHead), 0), quiet, validate, cfg)
  }

  /**
    perf_mmap_read.  On success the report is that of the record loop over the unrolled
    ring, data_tail is the head that was read, and that head is returned; on the three
    early returns nothing is touched.
   */
  method Read(page: ControlPage?, ring: array<byte>, prevHead: nat, cfg: Config, quiet: bool, validate: Option<Validate>, mallocFails: bool)
    returns (result: int, report: Report)
    modifies if page == null then {} else {page}
    ensures ring.Length == 0 ==> result == 0
    ensures ring.Length > 0 && (page == null || mallocFails) ==> result == -1
    ensures ring.Length > 0 && page != null && !mallocFails ==>
              && report == ReadReport(cfg, quiet, validate, old(ring[..]), prevHead, old(page.dataHead))
              && (report != Undefined ==> result == old(page.dataHead) == page.dataTail)
    ensures page != null ==> page.dataHead == old(page.dataHead)
    ensures page != null && (ring.Length == 0 || mallocFails || report == Undefined) ==> page.dataTail == old(page.dataTail)
  {
    result, report := 0, Undefined;
    if ring.Length == 0 { return; }
    if page == null { result := -1; return; }
    var head := page.dataHead;
    var size := Int32(head - prevHead);
    if mallocFails { result := -1; return; }
    var data := Unroll(ring, prevHead);
    report := DecodeLoop(cfg, quiet, validate, data[..], size);
    if report == Undefined { return; }
    page.dataTail := head;
    result := head;
  }
}
