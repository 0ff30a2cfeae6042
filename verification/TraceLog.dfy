/**
  The "O ..." line of the trace log: what open_random_event and perf_log_attr write, and
  what parse_open_event reads back.
*/
module TraceLog {
  import opened Scanf
  import opened Attr

  datatype OpenEvent = OpenEvent(fd: int, pid: int, cpu: int, groupFd: int, flags: nat, attr: AttrMap)

  predicate Int32(v: int) { -0x8000_0000 <= v < 0x8000_0000 }

  ghost predicate ValidEvent(e: OpenEvent) {
    && Int32(e.fd) && Int32(e.pid) && Int32(e.cpu) && Int32(e.groupFd) && e.flags < Modulus(64)
    && Valid(e.attr)
  }

  // ---- the writer ----

  /** The order of the sprintf calls in perf_log_attr. */
  const LOG_FIELDS: seq<Field> := FIRST_FIELDS + EARLY_FLAGS + LATE_FLAGS + LAST_FIELDS

  const FIRST_FIELDS: seq<Field> := [Type, Size, Config, SamplePeriod, SampleType, ReadFormat]

  const EARLY_FLAGS: seq<Field> :=
    [Disabled, Inherit, Pinned, Exclusive, ExcludeUser, ExcludeKernel, ExcludeHv, ExcludeIdle,
     Mmap, Comm, Freq, InheritStat, EnableOnExec, Task, Watermark, PreciseIp,
     MmapData, SampleIdAll, ExcludeHost, ExcludeGuest]

  const LATE_FLAGS: seq<Field> := CALLCHAIN_FLAGS + NAMESPACE_FLAGS + CGROUP_FLAGS

  const CALLCHAIN_FLAGS: seq<Field> :=
    [ExcludeCallchainKernel, ExcludeCallchainUser, Mmap2, CommExec, UseClockid, ContextSwitch]

  const NAMESPACE_FLAGS: seq<Field> := [WriteBackward, Namespaces, Ksymbol, BpfEvent, AuxOutput]

  const CGROUP_FLAGS: seq<Field> := [Cgroup, TextPoke, BuildId, InheritThread, RemoveOnExec, Sigtrap]

  const LAST_FIELDS: seq<Field> := WAKEUP_FIELDS + STACK_FIELDS

  const WAKEUP_FIELDS: seq<Field> :=
    [WakeupEvents, BpType, Config1, Config2, BranchSampleType, SampleRegsUser]

  const STACK_FIELDS: seq<Field> :=
    [SampleStackUser, Clockid, SampleRegsIntr, AuxWatermark, SampleMaxStack, AuxSampleSize]

  function PrintedAs(f: Field): Conv {
    match f
    case Type | Size => Hex(32)
    case Config | SamplePeriod | SampleType | ReadFormat | Config1 | Config2 => Hex(64)
    case BranchSampleType | SampleRegsUser | SampleRegsIntr => Dec(64)
    case SampleMaxStack => Dec(16)
    case _ => Dec(32)
  }

  /** fd, pid, cpu, group_fd and flags. */
  const CALL_CONVS: seq<Conv> := [Dec(32), Dec(32), Dec(32), Dec(32), Hex(64)]

  function FieldConvs(fields: seq<Field>): (s: seq<Conv>)
    ensures |s| == |fields|
    ensures forall i :: 0 <= i < |fields| ==> s[i] == PrintedAs(fields[i])
  {
    if fields == [] then [] else [PrintedAs(fields[0])] + FieldConvs(fields[1..])
  }

  ghost function LineValues(e: OpenEvent): (s: seq<nat>)
    requires ValidEvent(e)
    ensures |s| == |CALL_CONVS| + |LOG_FIELDS|
  {
    CallValues(e) + seq(|LOG_FIELDS|, i requires 0 <= i < |LOG_FIELDS| => e.attr[LOG_FIELDS[i]])
  }

  function CallValues(e: OpenEvent): seq<nat> {
    [Pattern(32, e.fd), Pattern(32, e.pid), Pattern(32, e.cpu), Pattern(32, e.groupFd), e.flags]
  }

  ghost function LogLine(e: OpenEvent): string
    requires ValidEvent(e)
  {
    "O " + (PrintAll(CALL_CONVS + FieldConvs(LOG_FIELDS), LineValues(e)) + "\n")
  }

  // ---- the reader ----

  /** The order of the attr arguments of sscanf in parse_open_event. */
  const SCAN_FIELDS: seq<Field> := SCAN_FIRST + SCAN_EARLY + SCAN_LATE + SCAN_LAST

  const SCAN_FIRST: seq<Field> := [Type, Size] + [Config, SamplePeriod, SampleType, ReadFormat]

  const SCAN_EARLY: seq<Field> :=
    [Disabled, Inherit, Pinned, Exclusive] + [ExcludeUser, ExcludeKernel, ExcludeHv, ExcludeIdle]
    + [Mmap, Comm, Freq, InheritStat] + [EnableOnExec, Task, Watermark, PreciseIp]
    + [MmapData, SampleIdAll, ExcludeHost, ExcludeGuest]

  const SCAN_LATE: seq<Field> :=
    [ExcludeCallchainKernel, ExcludeCallchainUser, Mmap2, CommExec, UseClockid, ContextSwitch]
    + [WriteBackward, Namespaces, Ksymbol, BpfEvent, AuxOutput]
    + [Cgroup, TextPoke, BuildId, InheritThread, RemoveOnExec, Sigtrap]

  const SCAN_LAST: seq<Field> :=
    [WakeupEvents, BpType] + [Config1, Config2, BranchSampleType, SampleRegsUser]
    + [SampleStackUser, Clockid, SampleRegsIntr] + [AuxWatermark, SampleMaxStack, AuxSampleSize]

  function ScannedAs(f: Field): Conv {
    match f
    case Type | Size => Hex(32)
    case Config | SamplePeriod | SampleType | ReadFormat => Hex(64)
    case Config1 | Config2 => Hex(64)
    case BranchSampleType | SampleRegsUser => Dec(64)
    case SampleRegsIntr => Dec(64)
    case SampleMaxStack => Dec(16)
    case _ => Dec(32)
  }

  /** The format has no space between the %lld of sample_regs_user and the next %d. */
  function FieldDirectives(fields: seq<Field>): seq<Directive> {
    if fields == [] then []
    else
      var f := fields[0];
      [Scan(ScannedAs(f))] + (if f == SampleRegsUser || f == AuxSampleSize then [] else [Blank])
      + FieldDirectives(fields[1..])
  }

  function Spaced(cs: seq<Conv>): seq<Directive> {
    if cs == [] then [] else [Scan(cs[0]), Blank] + Spaced(cs[1..])
  }

  /** "%d %d %d %d %lx" */
  const SCAN_CALL: seq<Conv> := [Dec(32), Dec(32)] + [Dec(32), Dec(32)] + [Hex(64)]

  /** "%*c %d %d %d %d %lx " and the attr conversions */
  function ScanFormat(): seq<Directive> {
    [SkipChar] + ([Blank] + (Spaced(SCAN_CALL) + FieldDirectives(SCAN_FIELDS)))
  }

  /** The assignments of the scanned values; a bit-field keeps the low bits. */
  function AttrFrom(fields: seq<Field>, vals: seq<nat>): AttrMap
    requires |fields| == |vals|
  {
    if fields == [] then map[]
    else AttrFrom(fields[1..], vals[1..])[fields[0] := vals[0] % Modulus(fields[0].Bits())]
  }

  datatype Parse = Failed | Parsed(event: OpenEvent)

  function ParseOpenEvent(line: string): Parse {
    var vals := Sscanf(ScanFormat(), line);
    if |vals| != 5 + |SCAN_FIELDS| then Failed
    else Parsed(OpenEvent(Signed(32, vals[0]), Signed(32, vals[1]), Signed(32, vals[2]), Signed(32, vals[3]),
                          vals[4], AttrFrom(SCAN_FIELDS, vals[5..])))
  }

  // ---- reading undoes writing ----

  function Place(f: Field): nat {
    match f
    case Type => 0 case Size => 1 case Config => 2 case SamplePeriod => 3 case SampleType => 4 case ReadFormat => 5
    case Disabled => 6 case Inherit => 7 case Pinned => 8 case Exclusive => 9 case ExcludeUser => 10
    case ExcludeKernel => 11 case ExcludeHv => 12 case ExcludeIdle => 13 case Mmap => 14 case Comm => 15
    case Freq => 16 case InheritStat => 17 case EnableOnExec => 18 case Task => 19 case Watermark => 20
    case PreciseIp => 21 case MmapData => 22 case SampleIdAll => 23 case ExcludeHost => 24 case ExcludeGuest => 25
    case ExcludeCallchainKernel => 26 case ExcludeCallchainUser => 27 case Mmap2 => 28 case CommExec => 29
    case UseClockid => 30 case ContextSwitch => 31 case WriteBackward => 32 case Namespaces => 33 case Ksymbol => 34
    case BpfEvent => 35 case AuxOutput => 36 case Cgroup => 37 case TextPoke => 38 case BuildId => 39
    case InheritThread => 40 case RemoveOnExec => 41 case Sigtrap => 42 case WakeupEvents => 43 case BpType => 44
    case Config1 => 45 case Config2 => 46 case BranchSampleType => 47 case SampleRegsUser => 48
    case SampleStackUser => 49 case Clockid => 50 case SampleRegsIntr => 51 case AuxWatermark => 52
    case SampleMaxStack => 53 case AuxSampleSize => 54
  }

  lemma {:induction false} SameOrder()
    ensures LOG_FIELDS == SCAN_FIELDS && |LOG_FIELDS| == 55
  {
    SameEnds();
    SameFlags();
  }

  lemma {:induction false} SameEnds()
    ensures FIRST_FIELDS == SCAN_FIRST && |FIRST_FIELDS| == 6 && LAST_FIELDS == SCAN_LAST && |LAST_FIELDS| == 12
  {
  }

  lemma {:induction false} SameFlags()
    ensures EARLY_FLAGS == SCAN_EARLY && |EARLY_FLAGS| == 20 && LATE_FLAGS == SCAN_LATE && |LATE_FLAGS| == 17
  {
  }

  lemma {:induction false} PlacesOfFirstFields(i: nat)
    requires i < |FIRST_FIELDS|
    ensures Place(FIRST_FIELDS[i]) == i
  {
  }

  lemma {:induction false} PlacesOfLastFields(i: nat)
    requires i < |LAST_FIELDS|
    ensures Place(LAST_FIELDS[i]) == 43 + i
  {
    if i < 6 { PlacesOfWakeupFields(i); } else { PlacesOfStackFields(i - 6); }
  }

  lemma {:induction false} PlacesOfWakeupFields(i: nat)
    requires i < 6
    ensures Place(WAKEUP_FIELDS[i]) == 43 + i
  {
  }

  lemma {:induction false} PlacesOfStackFields(i: nat)
    requires i < 6
    ensures Place(STACK_FIELDS[i]) == 49 + i
  {
  }

  lemma {:induction false} PlacesOfEarlyFlags(i: nat)
    requires i < |EARLY_FLAGS|
    ensures Place(EARLY_FLAGS[i]) == 6 + i
  {
  }

  lemma {:induction false} PlacesOfLateFlags(i: nat)
    requires i < |LATE_FLAGS|
    ensures Place(LATE_FLAGS[i]) == 26 + i
  {
    if i < 6 { PlacesOfCallchainFlags(i); }
    else if i < 11 { PlacesOfNamespaceFlags(i - 6); }
    else { PlacesOfCgroupFlags(i - 11); }
  }

  lemma {:induction false} PlacesOfCallchainFlags(i: nat)
    requires i < 6
    ensures Place(CALLCHAIN_FLAGS[i]) == 26 + i
  {
  }

  lemma {:induction false} PlacesOfNamespaceFlags(i: nat)
    requires i < 5
    ensures Place(NAMESPACE_FLAGS[i]) == 32 + i
  {
  }

  lemma {:induction false} PlacesOfCgroupFlags(i: nat)
    requires i < 6
    ensures Place(CGROUP_FLAGS[i]) == 37 + i
  {
  }

  lemma {:induction false} BlockContains(f: Field)
    ensures Place(f) < 6 ==> FIRST_FIELDS[Place(f)] == f
    ensures 6 <= Place(f) < 26 ==> EARLY_FLAGS[Place(f) - 6] == f
    ensures 26 <= Place(f) < 43 ==> LATE_FLAGS[Place(f) - 26] == f
    ensures Place(f) < 55
    ensures 43 <= Place(f) ==> LAST_FIELDS[Place(f) - 43] == f
  {
    if Place(f) < 6 { FirstContains(f); }
    else if Place(f) < 16 { EarlyContains(f); }
    else if Place(f) < 26 { MiddleContains(f); }
    else { LateContains(f); }
  }

  lemma {:induction false} FirstContains(f: Field)
    requires Place(f) < 6
    ensures FIRST_FIELDS[Place(f)] == f
  {
  }

  lemma {:induction false} EarlyContains(f: Field)
    requires 6 <= Place(f) < 16
    ensures EARLY_FLAGS[Place(f) - 6] == f
  {
  }

  lemma {:induction false} MiddleContains(f: Field)
    requires 16 <= Place(f) < 26
    ensures EARLY_FLAGS[Place(f) - 6] == f
  {
  }

  lemma {:induction false} LateContains(f: Field)
    requires 26 <= Place(f)
    ensures Place(f) < 55
    ensures Place(f) < 43 ==> LATE_FLAGS[Place(f) - 26] == f
    ensures 43 <= Place(f) ==> LAST_FIELDS[Place(f) - 43] == f
  {
  }

  /** Every field is written, and none twice. */
  lemma {:induction false} EveryFieldOnce()
    ensures forall i :: 0 <= i < |LOG_FIELDS| ==> Place(LOG_FIELDS[i]) == i
    ensures forall f: Field :: Place(f) < |LOG_FIELDS| && LOG_FIELDS[Place(f)] == f
  {
    forall i | 0 <= i < |LOG_FIELDS|
      ensures Place(LOG_FIELDS[i]) == i
    {
      if i < 6 { PlacesOfFirstFields(i); }
      else if i < 26 { PlacesOfEarlyFlags(i - 6); }
      else if i < 43 { PlacesOfLateFlags(i - 26); }
      else { PlacesOfLastFields(i - 43); }
    }
    forall f: Field
      ensures Place(f) < |LOG_FIELDS| && LOG_FIELDS[Place(f)] == f
    {
      BlockContains(f);
    }
  }

  lemma {:induction false} AttrFromFits(fields: seq<Field>, vals: seq<nat>)
    requires |fields| == |vals|
    ensures var r := AttrFrom(fields, vals);
            (forall f :: f in r ==> r[f] < Modulus(f.Bits())) && (forall i :: 0 <= i < |fields| ==> fields[i] in r)
  {
    if fields != [] {
      AttrFromFits(fields[1..], vals[1..]);
      assert forall i :: 0 < i < |fields| ==> fields[i] == fields[1..][i - 1];
    }
  }

  /** Whatever a line holds, a parse of it gives every field a value of its width. */
  lemma {:induction false} ParsedIsValid(line: string)
    ensures ParseOpenEvent(line).Parsed? ==> Valid(ParseOpenEvent(line).event.attr)
  {
    var parse := ParseOpenEvent(line);
    if parse.Parsed? {
      SameOrder();
      EveryFieldOnce();
      AttrFromFits(SCAN_FIELDS, Sscanf(ScanFormat(), line)[5..]);
      forall f: Field
        ensures f in parse.event.attr
      {
        assert SCAN_FIELDS[Place(f)] == f;
      }
    }
  }

  lemma {:induction false} FieldsAsked(fields: seq<Field>)
    ensures Asks(FieldDirectives(fields), FieldConvs(fields))
  {
    if fields != [] {
      FieldsAsked(fields[1..]);
      var f, rest := fields[0], FieldDirectives(fields[1..]);
      SameConversion(f);
      AskField(ScannedAs(f), f == SampleRegsUser || f == AuxSampleSize, rest, FieldConvs(fields[1..]));
    }
  }

  /** Each field is scanned by the conversion that printed it. */
  lemma {:induction false} SameConversion(f: Field)
    ensures PrintedAs(f) == ScannedAs(f)
  {
  }

  lemma {:induction false} AskField(c: Conv, last: bool, ds: seq<Directive>, cs: seq<Conv>)
    requires Asks(ds, cs)
    ensures Asks([Scan(c)] + (if last then [] else [Blank]) + ds, [c] + cs)
  {
  }

  lemma {:induction false} AskOne(c: Conv, ds: seq<Directive>, cs: seq<Conv>)
    requires Asks(ds, cs)
    ensures Asks([Scan(c), Blank] + ds, [c] + cs)
  {
  }

  lemma {:induction false} SpacedAsked(cs: seq<Conv>, ds: seq<Directive>, more: seq<Conv>)
    requires Asks(ds, more)
    ensures Asks(Spaced(cs) + ds, cs + more)
  {
    if cs == [] {
      assert Spaced(cs) + ds == ds && cs + more == more;
    } else {
      SpacedAsked(cs[1..], ds, more);
      AskOne(cs[0], Spaced(cs[1..]) + ds, cs[1..] + more);
      assert Spaced(cs) + ds == [Scan(cs[0]), Blank] + (Spaced(cs[1..]) + ds);
      assert cs + more == [cs[0]] + (cs[1..] + more);
    }
  }

  /** What the scan format asks for, after the record letter, is what was printed. */
  lemma {:induction false} FormatAsks(fields: seq<Field>)
    ensures Asks([Blank] + (Spaced(SCAN_CALL) + FieldDirectives(fields)), CALL_CONVS + FieldConvs(fields))
  {
    FieldsAsked(fields);
    assert SCAN_CALL == CALL_CONVS;
    var ds := Spaced(SCAN_CALL) + FieldDirectives(fields);
    SpacedAsked(CALL_CONVS, FieldDirectives(fields), FieldConvs(fields));
    assert ([Blank] + ds)[1..] == ds;
  }

  lemma {:induction false} CallValuesFit(e: OpenEvent)
    requires e.flags < Modulus(64)
    ensures AllFit(CALL_CONVS, CallValues(e))
  {
  }

  lemma {:induction false} FieldsFit(fields: seq<Field>, attr: AttrMap, vals: seq<nat>)
    requires Valid(attr) && |vals| == |fields|
    requires forall i :: 0 <= i < |fields| ==> vals[i] == attr[fields[i]]
    ensures AllFit(FieldConvs(fields), vals)
  {
    forall i | 0 <= i < |fields|
      ensures Wide(PrintedAs(fields[i]).bits) && vals[i] < Modulus(PrintedAs(fields[i]).bits)
    {
      FieldFits(fields[i]);
      assert attr[fields[i]] < Modulus(fields[i].Bits());
    }
  }

  /** Each field is printed at least as wide as it is. */
  lemma {:induction false} FieldFits(f: Field)
    ensures Wide(PrintedAs(f).bits) && Modulus(f.Bits()) <= Modulus(PrintedAs(f).bits)
  {
  }

  lemma {:induction false} FitConcat(c1: seq<Conv>, v1: seq<nat>, c2: seq<Conv>, v2: seq<nat>)
    requires AllFit(c1, v1) && AllFit(c2, v2)
    ensures AllFit(c1 + c2, v1 + v2)
  {
  }

  lemma {:induction false} LineFits(e: OpenEvent)
    requires ValidEvent(e)
    ensures AllFit(CALL_CONVS + FieldConvs(LOG_FIELDS), LineValues(e))
  {
    CallValuesFit(e);
    FieldsFit(LOG_FIELDS, e.attr, LineValues(e)[5..]);
    FitConcat(CALL_CONVS, CallValues(e), FieldConvs(LOG_FIELDS), LineValues(e)[5..]);
    assert LineValues(e) == CallValues(e) + LineValues(e)[5..];
  }

  lemma {:induction false} ScanLine(e: OpenEvent)
    requires ValidEvent(e)
    ensures Sscanf(ScanFormat(), LogLine(e)) == LineValues(e)
  {
    SameOrder();
    FormatAsks(SCAN_FIELDS);
    LineFits(e);
    ScanAfterLetter([Blank] + (Spaced(SCAN_CALL) + FieldDirectives(SCAN_FIELDS)), CALL_CONVS + FieldConvs(LOG_FIELDS), LineValues(e));
  }

  /** The record letter is skipped, and the rest of the line read back. */
  lemma {:induction false} ScanAfterLetter(fmt: seq<Directive>, convs: seq<Conv>, vals: seq<nat>)
    requires Asks(fmt, convs) && AllFit(convs, vals)
    ensures Sscanf([SkipChar] + fmt, "O " + (PrintAll(convs, vals) + "\n")) == vals
  {
    var text := PrintAll(convs, vals) + "\n";
    assert ("O " + text)[1..] == " " + text && ([SkipChar] + fmt)[1..] == fmt;
    SscanfInvertsPrint(fmt, convs, vals, " ", "\n");
  }

  lemma {:induction false} AttrBack(fields: seq<Field>, vals: seq<nat>, k: nat)
    requires |fields| == |vals| && k < |fields|
    requires forall i, j :: 0 <= i < j < |fields| ==> fields[i] != fields[j]
    requires forall i :: 0 <= i < |fields| ==> vals[i] < Modulus(fields[i].Bits())
    ensures fields[k] in AttrFrom(fields, vals) && AttrFrom(fields, vals)[fields[k]] == vals[k]
  {
    if k > 0 {
      AttrBack(fields[1..], vals[1..], k - 1);
    }
  }

  lemma {:induction false} AllFieldsBack(e: OpenEvent, vals: seq<nat>)
    requires ValidEvent(e) && |vals| == |SCAN_FIELDS|
    requires forall i :: 0 <= i < |SCAN_FIELDS| ==> vals[i] == e.attr[SCAN_FIELDS[i]]
    ensures AttrFrom(SCAN_FIELDS, vals) == e.attr
  {
    SameOrder();
    EveryFieldOnce();
    FieldsBack(e.attr, SCAN_FIELDS, vals);
  }

  lemma {:induction false} FieldsBack(attr: AttrMap, fields: seq<Field>, vals: seq<nat>)
    requires Valid(attr) && |vals| == |fields|
    requires forall i :: 0 <= i < |fields| ==> vals[i] == attr[fields[i]] && Place(fields[i]) == i
    requires forall f: Field :: Place(f) < |fields| && fields[Place(f)] == f
    ensures AttrFrom(fields, vals) == attr
  {
    forall f: Field
      ensures f in AttrFrom(fields, vals) && AttrFrom(fields, vals)[f] == attr[f]
    {
      AttrBack(fields, vals, Place(f));
    }
  }

  /** parse_open_event recovers every logged open event, field for field and bit for bit. */
  lemma {:induction false} ParseInvertsLog(e: OpenEvent)
    requires ValidEvent(e)
    ensures ParseOpenEvent(LogLine(e)) == Parsed(e)
  {
    ScanLine(e);
    SameOrder();
    SignedOfPattern(32, e.fd);
    SignedOfPattern(32, e.pid);
    SignedOfPattern(32, e.cpu);
    SignedOfPattern(32, e.groupFd);
    AllFieldsBack(e, LineValues(e)[5..]);
  }

  // ---- how the line begins ----

  lemma {:induction false} PrintJoin(c1: seq<Conv>, v1: seq<nat>, c2: seq<Conv>, v2: seq<nat>)
    requires |c1| == |v1| && |c2| == |v2|
    ensures PrintAll(c1 + c2, v1 + v2) == PrintAll(c1, v1) + PrintAll(c2, v2)
    decreases |c1|
  {
    if c1 == [] {
      assert c1 + c2 == c2 && v1 + v2 == v2;
    } else {
      var cs, vs := c1[1..], v1[1..];
      PrintJoin(cs, vs, c2, v2);
      PrintMore(c1[0], v1[0], cs + c2, vs + v2);
      HeadFirst(c1, cs, c2);
      HeadFirst(v1, vs, v2);
      Join3(Print(c1[0], v1[0]), PrintAll(cs, vs), PrintAll(c2, v2));
    }
  }

  lemma {:induction false} HeadFirst<T>(a: seq<T>, rest: seq<T>, b: seq<T>)
    requires a != [] && rest == a[1..]
    ensures a + b == [a[0]] + (rest + b)
  {
  }

  /** The five arguments of the call as they are to be read in the log: four in decimal, the flags in hexadecimal. */
  function CallText(e: OpenEvent): string {
    PrintInt(e.fd) + (" " + (PrintInt(e.pid) + (" " + (PrintInt(e.cpu) + (" " + (PrintInt(e.groupFd) + (" "
    + (PrintNat(e.flags, 16) + " "))))))))
  }

  lemma {:induction false} PrintMore(c: Conv, x: nat, convs: seq<Conv>, vals: seq<nat>)
    requires |convs| == |vals|
    ensures PrintAll([c] + convs, [x] + vals) == Print(c, x) + (" " + PrintAll(convs, vals))
  {
    assert ([c] + convs)[1..] == convs && ([x] + vals)[1..] == vals;
  }

  lemma {:induction false} CallPrinted(e: OpenEvent)
    requires ValidEvent(e)
    ensures PrintAll(CALL_CONVS, CallValues(e)) == CallText(e)
  {
    SignedOfPattern(32, e.fd);
    SignedOfPattern(32, e.pid);
    SignedOfPattern(32, e.cpu);
    SignedOfPattern(32, e.groupFd);
    var d, v := Dec(32), CallValues(e);
    PrintMore(Hex(64), e.flags, [], []);
    PrintMore(d, v[3], [Hex(64)], [e.flags]);
    PrintMore(d, v[2], [d, Hex(64)], v[3..]);
    PrintMore(d, v[1], [d, d, Hex(64)], v[2..]);
    PrintMore(d, v[0], [d, d, d, Hex(64)], v[1..]);
    assert CALL_CONVS == [d] + [d, d, d, Hex(64)] && v == [v[0]] + v[1..];
    assert [d, d, d, Hex(64)] == [d] + [d, d, Hex(64)] && v[1..] == [v[1]] + v[2..];
    assert [d, d, Hex(64)] == [d] + [d, Hex(64)] && v[2..] == [v[2]] + v[3..];
    assert [d, Hex(64)] == [d] + [Hex(64)] && v[3..] == [v[3]] + [e.flags];
    assert [Hex(64)] == [Hex(64)] + [] && [e.flags] == [e.flags] + [];
  }

  /** Every open line begins with the letter and those arguments. */
  lemma {:induction false} LineHead(e: OpenEvent)
    requires ValidEvent(e)
    ensures "O " + CallText(e) <= LogLine(e)
  {
    var vals := LineValues(e)[5..];
    assert LineValues(e) == CallValues(e) + vals;
    PrintJoin(CALL_CONVS, CallValues(e), FieldConvs(LOG_FIELDS), vals);
    CallPrinted(e);
  }

  // ---- widths and formats of the fields ----

  /** The flags are the 37 fields after the first six, single bits but for the two of precise_ip; the others are words. */
  lemma {:induction false} FieldWidths(f: Field)
    ensures f.Bits() == 1 <==> 6 <= Place(f) < 43 && f != PreciseIp
    ensures (f.Bits() == 2 <==> f == PreciseIp) && (f.Bits() == 16 <==> f == SampleMaxStack)
    ensures f.Bits() == 64 <==>
              f in {Config, SamplePeriod, SampleType, ReadFormat} || 45 <= Place(f) <= 48 || f == SampleRegsIntr
    ensures f.Bits() in {1, 2, 16, 32, 64}
  {
  }

  /** Eight fields are logged in hexadecimal, the others in decimal, and the reader expects the same. */
  lemma {:induction false} FieldFormats(f: Field)
    ensures PrintedAs(f).Hex? <==>
              f in {Type, Size, Config, SamplePeriod} || f in {SampleType, ReadFormat, Config1, Config2}
    ensures ScannedAs(f) == PrintedAs(f)
  {
  }
}
