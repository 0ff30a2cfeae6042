/**
  perf_pretty_print_attr as a compiler: the assignments it emits, what C does with them,
  and the proof that they rebuild the attribute from zeroes.
*/
module AttrEmit {
  import opened Scanf
  import opened Attr
  import opened AttrPrint
  import TraceLog

  /** A member named on the left of an assignment; the last four alias a union. */
  datatype Member = Plain(field: Field) | SampleFreq | WakeupWatermark | BpAddr | BpLen {
    /** The storage behind the member. */
    function Storage(): Field {
      match this
      case Plain(f) => f
      case SampleFreq => SamplePeriod
      case WakeupWatermark => WakeupEvents
      case BpAddr => Config1
      case BpLen => Config2
    }
  }

  datatype Assign = Assign(member: Member, value: Expr)

  /** Assignment converts to the width of the member. */
  function Stored(a: Assign): nat { Eval(a.value) % Modulus(a.member.Storage().Bits()) }

  function Execute(code: seq<Assign>, attr: AttrMap): AttrMap {
    if code == [] then attr
    else Execute(code[1..], attr[code[0].member.Storage() := Stored(code[0])])
  }

  function Hex64(x: nat): Expr { HexULL(x) }
  function Hex32(x: nat): Expr { HexLit(x) }

  /** sample_type, branch_sample_type and flags print a plain 0 when nothing is set. */
  function FlagsExpr(bits: seq<nat>, x: nat): Expr {
    if x == 0 then DecLit(0) else MaskExpr(bits, x, Hex64)
  }

  function Set(f: Field, e: Expr): seq<Assign> { [Assign(Plain(f), e)] }

  /** What is printed for one storage field; zero fields are mostly skipped. */
  function EmitField(a: AttrMap, f: Field): seq<Assign>
    requires Valid(a)
  {
    var x := a[f];
    match f
    case Type => Set(f, TypeExpr(x))
    case Config => Set(f, ConfigExpr(a[Type], x))
    case SamplePeriod =>
      if x == 0 then []
      else [Assign(if a[Freq] != 0 then SampleFreq else Plain(SamplePeriod), HexULL(x))]
    case SampleType => Set(f, FlagsExpr(SAMPLE_FLAGS, x))
    case ReadFormat => Set(f, MaskExpr(READ_FLAGS, x, Hex64))
    case PreciseIp => Set(f, DecLit(x))
    case WakeupEvents =>
      [Assign(if a[Watermark] != 0 then WakeupWatermark else Plain(WakeupEvents), DecLit(Signed(32, x)))]
    case BranchSampleType => if x == 0 then [] else Set(f, FlagsExpr(BRANCH_FLAGS, x))
    case BpType => Set(f, if x == 0 then Name(0) else MaskExpr(BREAKPOINT_FLAGS, x, Hex32))
    case Config1 =>
      if a[BpType] != 0 then [Assign(BpAddr, HexULL(x))] else if x == 0 then [] else Set(f, HexULL(x))
    case Config2 =>
      if a[BpType] != 0 then [Assign(BpLen, HexULL(x))] else if x == 0 then [] else Set(f, HexULL(x))
    case _ => if x == 0 then [] else Set(f, NonZeroExpr(f, x))
  }

  predicate PrintedSigned(f: Field) { f == Size || f == Clockid || f == AuxWatermark || f == AuxSampleSize }

  /** The value printed for the fields that are skipped when zero and have no names. */
  function NonZeroExpr(f: Field, x: nat): Expr {
    if f == SampleRegsUser || f == SampleRegsIntr then DecULL(Signed(64, x))
    else if f == SampleStackUser then HexLit(x)
    else if f == SampleMaxStack then DecLit(Signed(16, x))
    else if PrintedSigned(f) then DecLit(Signed(32, x))
    else DecLit(x)
  }

  function EmitFields(a: AttrMap, fields: seq<Field>): seq<Assign>
    requires Valid(a)
  {
    if fields == [] then [] else EmitField(a, fields[0]) + EmitFields(a, fields[1..])
  }

  /** The fields are printed in the order in which the log lists them. */
  function EmitAttr(a: AttrMap): seq<Assign>
    requires Valid(a)
  {
    EmitFields(a, TraceLog.LOG_FIELDS)
  }

  // ---- running the assignments ----

  /** Literals of the %d, %hd and %lldULL kinds come back to the field they were printed from. */
  lemma {:induction false} LiteralBack(bits: nat, x: nat)
    requires Wide(bits) && x < Modulus(bits)
    ensures Pattern(64, Signed(bits, x)) % Modulus(bits) == x
  {
  }

  lemma {:induction false} SmallFits(f: Field, x: nat)
    requires x < Modulus(f.Bits())
    ensures x < Modulus(64) && Pattern(64, x) == x && x % Modulus(f.Bits()) == x
  {
  }

  lemma {:induction false} FlagsExprValue(bits: seq<nat>, x: nat)
    requires x < Modulus(64)
    ensures Eval(FlagsExpr(bits, x)) == x && Eval(MaskExpr(bits, x, Hex64)) == x
  {
    forall n: nat | n < Modulus(64)
      ensures Eval(Hex64(n)) == n
    {
      PatternOfSmall(64, n);
    }
    MaskExprValue(bits, x, Hex64);
  }

  lemma {:induction false} ShortMaskValue(bits: seq<nat>, x: nat)
    requires x < Modulus(64)
    ensures Eval(MaskExpr(bits, x, Hex32)) == x
  {
    forall n: nat | n < Modulus(64)
      ensures Eval(Hex32(n)) == n
    {
      PatternOfSmall(64, n);
    }
    MaskExprValue(bits, x, Hex32);
  }

  lemma {:induction false} DecimalValue(bits: nat, x: nat)
    requires Wide(bits) && x < Modulus(bits)
    ensures Eval(DecLit(Signed(bits, x))) % Modulus(bits) == x
  {
    LiteralBack(bits, x);
  }

  lemma {:induction false} RegsValue(x: nat)
    requires x < Modulus(64)
    ensures Eval(DecULL(Signed(64, x))) % Modulus(64) == x
  {
  }

  lemma {:induction false} SmallValue(f: Field, x: nat)
    requires x < Modulus(f.Bits())
    ensures Eval(DecLit(x)) % Modulus(f.Bits()) == Eval(HexLit(x)) % Modulus(f.Bits()) == x
  {
    SmallFits(f, x);
  }

  lemma {:induction false} RegsWide(f: Field)
    requires f == SampleRegsUser || f == SampleRegsIntr
    ensures f.Bits() == 64
  {
  }

  lemma {:induction false} SignedWide(f: Field)
    requires PrintedSigned(f)
    ensures f.Bits() == 32
  {
  }

  lemma {:induction false} NonZeroValue(f: Field, x: nat)
    requires x < Modulus(f.Bits())
    ensures Eval(NonZeroExpr(f, x)) % Modulus(f.Bits()) == x
  {
    if f == SampleRegsUser || f == SampleRegsIntr {
      RegsWide(f);
      RegsValue(x);
    } else if f == SampleMaxStack {
      assert SampleMaxStack.Bits() == 16;
      DecimalValue(16, x);
    } else if PrintedSigned(f) {
      SignedWide(f);
      DecimalValue(32, x);
    } else {
      SmallValue(f, x);
    }
  }

  lemma {:induction false} TypeAndConfigValue(t: nat, config: nat)
    requires t < Modulus(32) && config < Modulus(64)
    ensures Eval(TypeExpr(t)) % Modulus(32) == t
    ensures Eval(ConfigExpr(t, config)) == config
  {
    LiteralBack(32, t);
    PatternOfSmall(64, t);
    PatternOfSmall(64, config);
    CacheExprValue(config);
  }

  predicate Prints(code: seq<Assign>, f: Field, x: nat) {
    if code == [] then x == 0
    else |code| == 1 && code[0].member.Storage() == f && Stored(code[0]) == x
  }

  lemma {:induction false} SetStores(f: Field, e: Expr, x: nat)
    requires Eval(e) % Modulus(f.Bits()) == x
    ensures Prints(Set(f, e), f, x)
  {
  }

  lemma {:induction false} SetPrints(f: Field, e: Expr, x: nat)
    requires x < Modulus(f.Bits()) && Eval(e) == x
    ensures Prints(Set(f, e), f, x)
  {
    SmallFits(f, x);
    SetStores(f, e, x);
  }

  lemma {:induction false} TypePrinted(a: AttrMap)
    requires Valid(a)
    ensures Prints(EmitField(a, Type), Type, a[Type])
  {
    assert a[Type] < Modulus(Type.Bits());
    TypeAndConfigValue(a[Type], 0);
    SetStores(Type, TypeExpr(a[Type]), a[Type]);
  }

  lemma {:induction false} ConfigPrinted(a: AttrMap)
    requires Valid(a)
    ensures Prints(EmitField(a, Config), Config, a[Config])
  {
    assert a[Type] < Modulus(Type.Bits()) && a[Config] < Modulus(Config.Bits());
    TypeAndConfigValue(a[Type], a[Config]);
    SetPrints(Config, ConfigExpr(a[Type], a[Config]), a[Config]);
  }

  lemma {:induction false} ShortMaskPrinted(f: Field, bits: seq<nat>, x: nat)
    requires x < Modulus(f.Bits())
    ensures Prints(Set(f, MaskExpr(bits, x, Hex32)), f, x)
  {
    SmallFits(f, x);
    ShortMaskValue(bits, x);
    SetPrints(f, MaskExpr(bits, x, Hex32), x);
  }

  lemma {:induction false} BpTypePrinted(a: AttrMap)
    requires Valid(a)
    ensures Prints(EmitField(a, BpType), BpType, a[BpType])
  {
    var x := a[BpType];
    assert x < Modulus(BpType.Bits());
    if x == 0 { SetPrints(BpType, Name(0), 0); } else { ShortMaskPrinted(BpType, BREAKPOINT_FLAGS, x); }
  }

  lemma {:induction false} NamedFieldPrinted(a: AttrMap, f: Field)
    requires Valid(a) && f in {Type, Config, BpType}
    ensures Prints(EmitField(a, f), f, a[f])
  {
    match f
    case Type => TypePrinted(a);
    case Config => ConfigPrinted(a);
    case BpType => BpTypePrinted(a);
  }

  lemma {:induction false} FlagsPrinted(f: Field, bits: seq<nat>, x: nat)
    requires x < Modulus(64) && f.Bits() == 64
    ensures Prints(Set(f, FlagsExpr(bits, x)), f, x) && Prints(Set(f, MaskExpr(bits, x, Hex64)), f, x)
  {
    FlagsExprValue(bits, x);
    SetPrints(f, FlagsExpr(bits, x), x);
    SetPrints(f, MaskExpr(bits, x, Hex64), x);
  }

  lemma {:induction false} MaskFieldPrinted(a: AttrMap, f: Field)
    requires Valid(a) && f in {SampleType, ReadFormat, BranchSampleType}
    ensures Prints(EmitField(a, f), f, a[f])
  {
    assert a[f] < Modulus(f.Bits());
    match f
    case SampleType => FlagsPrinted(f, SAMPLE_FLAGS, a[f]);
    case ReadFormat => FlagsPrinted(f, READ_FLAGS, a[f]);
    case BranchSampleType => FlagsPrinted(f, BRANCH_FLAGS, a[f]);
  }

  lemma {:induction false} WakeupPrinted(a: AttrMap)
    requires Valid(a)
    ensures Prints(EmitField(a, WakeupEvents), WakeupEvents, a[WakeupEvents])
  {
    assert a[WakeupEvents] < Modulus(WakeupEvents.Bits());
    LiteralBack(32, a[WakeupEvents]);
  }

  /** Which member of a union is named goes by another field: freq, watermark, or a breakpoint type. */
  lemma {:induction false} MemberNamed(a: AttrMap, f: Field)
    requires Valid(a) && f in {SamplePeriod, WakeupEvents, Config1, Config2} && EmitField(a, f) != []
    ensures var member := EmitField(a, f)[0].member;
            && (member == SampleFreq <==> f == SamplePeriod && a[Freq] == 1)
            && (member == WakeupWatermark <==> f == WakeupEvents && a[Watermark] == 1)
            && (member == BpAddr <==> f == Config1 && a[BpType] > 0)
            && (member == BpLen <==> f == Config2 && a[BpType] > 0)
            && (member.Plain? ==> member.field == f)
  {
    assert a[Freq] < Modulus(Freq.Bits()) && a[Watermark] < Modulus(Watermark.Bits());
    assert Freq.Bits() == 1 && Watermark.Bits() == 1;
  }

  /** The values that are printed by name: six types, and of each mask the bits that have a macro. */
  lemma {:induction false} NamesUsed(t: nat, k: nat)
    ensures TypeExpr(t) == Name(t) <==> t in {0, 1, 2, 3, 4, 5}
    ensures (k in SAMPLE_FLAGS <==> k < 18) && (k in READ_FLAGS <==> k < 5)
    ensures (k in BRANCH_FLAGS <==> k < 11 || k == 12) && (k in OPEN_FLAGS <==> k < 4) && (k in BREAKPOINT_FLAGS <==> k < 3)
  {
  }

  /** A member of a union stores what its partner holds. */
  lemma {:induction false} UnionFieldPrinted(a: AttrMap, f: Field)
    requires Valid(a) && f in {SamplePeriod, PreciseIp, WakeupEvents, Config1, Config2}
    ensures Prints(EmitField(a, f), f, a[f])
  {
    if f == WakeupEvents {
      WakeupPrinted(a);
    } else {
      LiteralFieldPrinted(a, f);
    }
  }

  lemma {:induction false} LiteralFieldPrinted(a: AttrMap, f: Field)
    requires Valid(a) && f in {SamplePeriod, PreciseIp, Config1, Config2}
    ensures Prints(EmitField(a, f), f, a[f])
  {
    assert a[f] < Modulus(f.Bits());
    SmallFits(f, a[f]);
    if f == SamplePeriod || f == PreciseIp { SetPrints(f, DecLit(a[f]), a[f]); } else { ConfigMemberPrinted(a, f); }
  }

  /** config1 and config2, or the breakpoint's address and length that share their storage. */
  lemma {:induction false} ConfigMemberPrinted(a: AttrMap, f: Field)
    requires Valid(a) && (f == Config1 || f == Config2)
    ensures Prints(EmitField(a, f), f, a[f])
  {
    SmallFits(f, a[f]);
    SetPrints(f, HexULL(a[f]), a[f]);
  }

  lemma {:induction false} OtherFieldPrinted(a: AttrMap, f: Field)
    requires Valid(a)
    requires f !in {Type, Config, BpType} && f !in {SampleType, ReadFormat, BranchSampleType}
    requires f !in {SamplePeriod, PreciseIp, WakeupEvents, Config1, Config2}
    ensures Prints(EmitField(a, f), f, a[f])
  {
    var x := a[f];
    assert x < Modulus(f.Bits());
    assert EmitField(a, f) == if x == 0 then [] else Set(f, NonZeroExpr(f, x));
    NonZeroValue(f, x);
  }

  /** Whatever is printed for a field stores the value of that field; nothing only for zero. */
  lemma {:induction false} FieldPrinted(a: AttrMap, f: Field)
    requires Valid(a)
    ensures Prints(EmitField(a, f), f, a[f])
  {
    if f in {Type, Config, BpType} {
      NamedFieldPrinted(a, f);
    } else if f in {SampleType, ReadFormat, BranchSampleType} {
      MaskFieldPrinted(a, f);
    } else if f in {SamplePeriod, PreciseIp, WakeupEvents, Config1, Config2} {
      UnionFieldPrinted(a, f);
    } else {
      OtherFieldPrinted(a, f);
    }
  }

  lemma {:induction false} ExecuteJoin(c1: seq<Assign>, c2: seq<Assign>, attr: AttrMap)
    ensures Execute(c1 + c2, attr) == Execute(c2, Execute(c1, attr))
    decreases |c1|
  {
    if c1 == [] {
      assert c1 + c2 == c2;
    } else {
      assert (c1 + c2)[1..] == c1[1..] + c2;
      ExecuteJoin(c1[1..], c2, attr[c1[0].member.Storage() := Stored(c1[0])]);
    }
  }

  lemma {:induction false} ExecuteField(code: seq<Assign>, f: Field, x: nat, attr: AttrMap)
    requires Prints(code, f, x) && f in attr && attr[f] == 0
    ensures Execute(code, attr) == attr[f := x]
  {
  }

  /** The fields printed so far have their values and the others are still zero. */
  lemma {:induction false} ExecuteFields(a: AttrMap, fields: seq<Field>, attr: AttrMap)
    requires Valid(a)
    requires forall i, j :: 0 <= i < j < |fields| ==> fields[i] != fields[j]
    requires forall f: Field :: f in attr && attr[f] == (if f in fields then 0 else a[f])
    ensures Execute(EmitFields(a, fields), attr) == a
    decreases |fields|
  {
    if fields == [] {
      assert attr == a;
    } else {
      var f := fields[0];
      FieldPrinted(a, f);
      ExecuteField(EmitField(a, f), f, a[f], attr);
      ExecuteJoin(EmitField(a, f), EmitFields(a, fields[1..]), attr);
      assert forall g: Field :: g in fields <==> g == f || g in fields[1..];
      ExecuteFields(a, fields[1..], attr[f := a[f]]);
    }
  }

  /**
    The assignments printed after the memset rebuild every logged field exactly, through
    skipped zeroes, unions and signed literals.
   */
  lemma {:induction false} EmittedCodeRebuildsAttr(a: AttrMap)
    requires Valid(a)
    ensures Execute(EmitAttr(a), Zeroed()) == a
  {
    TraceLog.EveryFieldOnce();
    var fields := TraceLog.LOG_FIELDS;
    forall f: Field
      ensures f in fields
    {
      assert fields[TraceLog.Place(f)] == f;
    }
    forall i, j | 0 <= i < j < |fields|
      ensures fields[i] != fields[j]
    {
      assert TraceLog.Place(fields[i]) == i && TraceLog.Place(fields[j]) == j;
    }
    ExecuteFields(a, fields, Zeroed());
  }
}
