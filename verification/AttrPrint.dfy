/**
  The C source that perf_pretty_print_attr emits for an attribute, as a list of
  assignments over C expressions, and the proof that running it after the memset
  rebuilds every field.
*/
module AttrPrint {
  import opened Scanf
  import opened Bits

  /** An emitted expression: named header constants, literals, `|` and `<<`. */
  datatype Expr =
    | Name(value: nat)     // PERF_..., HW_BREAKPOINT_...
    | DecLit(v: int)       // printed with %d or %hd
    | DecULL(v: int)       // printed with %lldULL
    | HexLit(x: nat)       // printed with 0x%x
    | HexULL(x: nat)       // printed with 0x%llxULL
    | OrE(left: Expr, right: Expr)
    | Shift(arg: Expr, places: nat)

  /** The value C gives the expression, as a 64-bit pattern. */
  function Eval(e: Expr): (x: nat)
    ensures x < Modulus(64)
  {
    match e
    case Name(n) => Pattern(64, n)
    case DecLit(v) => Pattern(64, v)
    case DecULL(v) => Pattern(64, v)
    case HexLit(x) => Pattern(64, x)
    case HexULL(x) => Pattern(64, x)
    case OrE(a, b) => OrIn64(Eval(a), Eval(b)); Or(Eval(a), Eval(b))
    case Shift(a, k) => Pattern(64, Eval(a) * Pow2(k))
  }

  lemma {:induction false} Pow2Of64()
    ensures Pow2(8) == 0x100 && Pow2(16) == 0x1_0000 && Pow2(64) == Modulus(64)
  {
    EightBytes(64);
    NextByte(0);
    NextByte(8);
  }

  lemma {:induction false} EightBytes(k: nat)
    requires k == 64
    ensures Pow2(k) == Modulus(64)
  {
    FourBytes(k - 64);
    FourBytes(k - 32);
  }

  lemma {:induction false} FourBytes(k: nat)
    ensures Pow2(k + 32) == 0x1_0000_0000 * Pow2(k)
  {
    NextByte(k);
    NextByte(k + 8);
    NextByte(k + 16);
    NextByte(k + 24);
  }

  lemma {:induction false} NextByte(k: nat)
    ensures Pow2(k + 8) == 0x100 * Pow2(k)
  {
    NextHalfByte(k);
    NextHalfByte(k + 4);
  }

  lemma {:induction false} NextHalfByte(k: nat)
    ensures Pow2(k + 4) == 0x10 * Pow2(k)
  {
    assert Pow2(k + 2) == 2 * Pow2(k + 1) == 4 * Pow2(k);
    assert Pow2(k + 4) == 2 * Pow2(k + 3) == 4 * Pow2(k + 2);
  }

  lemma {:induction false} OrIn64(a: nat, b: nat)
    requires a < Modulus(64) && b < Modulus(64)
    ensures Or(a, b) < Modulus(64)
  {
    Pow2Of64();
    OrBelow(a, b, 64);
  }

  // ---- the mask printers ----

  /** The flags of a mask printer, as bit numbers in the order they are tested. */
  const SAMPLE_FLAGS: seq<nat> := [0, 1, 2, 3, 4, 5, 6, 7, 8, 9, 10, 11, 12, 13, 14, 15, 16, 17]
  const BRANCH_FLAGS: seq<nat> := [0, 1, 2, 3, 4, 5, 6, 12, 7, 8, 9, 10]
  const READ_FLAGS: seq<nat> := [0, 1, 2, 3, 4]
  const OPEN_FLAGS: seq<nat> := [0, 1, 2, 3]
  const BREAKPOINT_FLAGS: seq<nat> := [0, 1, 2]

  function Masks(bits: seq<nat>): nat {
    if bits == [] then 0 else Or(Masks(bits[..|bits| - 1]), Pow2(bits[|bits| - 1]))
  }

  function SetBits(bits: seq<nat>, x: nat): seq<nat> {
    if bits == [] then []
    else SetBits(bits[..|bits| - 1], x) + (if Test(x, bits[|bits| - 1]) then [bits[|bits| - 1]] else [])
  }

  /** What is left of x without the named bits. */
  function Residue(bits: seq<nat>, x: nat): nat { AndNot(x, Masks(bits)) }

  /** The printed terms: the named bits that are set, and the rest unless that says nothing. */
  function Terms(bits: seq<nat>, x: nat): seq<nat> {
    var named := Powers(SetBits(bits, x));
    if named != [] && Residue(bits, x) == 0 then named else named + [Residue(bits, x)]
  }

  function Powers(bits: seq<nat>): (s: seq<nat>)
    ensures |s| == |bits|
    ensures forall i :: 0 <= i < |bits| ==> s[i] == Pow2(bits[i])
  {
    seq(|bits|, i requires 0 <= i < |bits| => Pow2(bits[i]))
  }

  function OrAll(terms: seq<nat>): nat {
    if terms == [] then 0 else Or(OrAll(terms[..|terms| - 1]), terms[|terms| - 1])
  }

  lemma {:induction false} TestMasks(bits: seq<nat>, j: nat)
    ensures Test(Masks(bits), j) <==> j in bits
  {
    if bits == [] {
      TestZero(j);
    } else {
      var last := |bits| - 1;
      TestMasks(bits[..last], j);
      TestOr(Masks(bits[..last]), Pow2(bits[last]), j);
      TestPow2(bits[last], j);
      assert bits == bits[..last] + [bits[last]];
    }
  }

  lemma {:induction false} TestSetBits(bits: seq<nat>, x: nat, j: nat)
    ensures j in SetBits(bits, x) <==> j in bits && Test(x, j)
  {
    if bits != [] {
      var last := |bits| - 1;
      TestSetBits(bits[..last], x, j);
      assert bits == bits[..last] + [bits[last]];
    }
  }

  lemma {:induction false} OrAllPowers(bits: seq<nat>)
    ensures OrAll(Powers(bits)) == Masks(bits)
  {
    if bits != [] {
      var last := |bits| - 1;
      assert Powers(bits)[..last] == Powers(bits[..last]);
      OrAllPowers(bits[..last]);
    }
  }

  /** The printed OR-expression has the value of the mask. */
  lemma {:induction false} TermsValue(bits: seq<nat>, x: nat)
    ensures OrAll(Terms(bits, x)) == x
  {
    var on, rest := SetBits(bits, x), Residue(bits, x);
    OrAllPowers(on);
    forall j: nat
      ensures Test(Or(Masks(on), rest), j) <==> Test(x, j)
    {
      TestOr(Masks(on), rest, j);
      TestMasks(on, j);
      TestSetBits(bits, x, j);
      TestAndNot(x, Masks(bits), j);
      TestMasks(bits, j);
    }
    SameBits(Or(Masks(on), rest), x);
    if Powers(on) != [] && rest == 0 {
      OrZero(Masks(on));
    } else {
      assert Terms(bits, x)[..|on|] == Powers(on);
    }
  }

  predicate NoRepeats(bits: seq<nat>) {
    forall i, j :: 0 <= i < j < |bits| ==> bits[i] != bits[j]
  }

  lemma {:induction false} SetBitsOnce(bits: seq<nat>, x: nat)
    requires NoRepeats(bits)
    ensures NoRepeats(SetBits(bits, x))
  {
    if bits != [] {
      var last := |bits| - 1;
      SetBitsOnce(bits[..last], x);
      TestSetBits(bits[..last], x, bits[last]);
    }
  }

  lemma {:induction false} Disjoint(a: nat, b: nat)
    requires forall k: nat :: !(Test(a, k) && Test(b, k))
    ensures And(a, b) == 0
  {
    if And(a, b) > 0 {
      var k := SomeBit(And(a, b));
      TestAnd(a, b, k);
    }
  }

  /** No bit is printed twice, and the residual term has no named bit. */
  lemma {:induction false} TermsDisjoint(bits: seq<nat>, x: nat)
    requires NoRepeats(bits)
    ensures forall i, j :: 0 <= i < j < |Terms(bits, x)| ==> And(Terms(bits, x)[i], Terms(bits, x)[j]) == 0
    ensures forall b :: b in bits ==> !Test(Residue(bits, x), b)
  {
    var terms, on := Terms(bits, x), SetBits(bits, x);
    SetBitsOnce(bits, x);
    forall b | b in bits
      ensures !Test(Residue(bits, x), b)
    {
      TestAndNot(x, Masks(bits), b);
      TestMasks(bits, b);
    }
    forall i, j | 0 <= i < j < |terms|
      ensures And(terms[i], terms[j]) == 0
    {
      forall k: nat
        ensures !(Test(terms[i], k) && Test(terms[j], k))
      {
        TestPow2(on[i], k);
        TestSetBits(bits, x, on[i]);
        if j < |on| { TestPow2(on[j], k); }
      }
      Disjoint(terms[i], terms[j]);
    }
  }

  /** What the printer has done after the first i bits. */
  ghost predicate Stripped(bits: seq<nat>, i: nat, x: nat, terms: seq<nat>, our: nat) {
    && i <= |bits| && terms == Powers(SetBits(bits[..i], x)) && our == Residue(bits[..i], x)
    && (terms == [] || our != 0)
  }

  /** One more bit: printed and stripped if it is left, which may end the work. */
  lemma {:induction false} StripTurn(bits: seq<nat>, i: nat, x: nat, terms: seq<nat>, our: nat)
    requires NoRepeats(bits) && i < |bits| && Stripped(bits, i, x, terms, our)
    ensures var (terms1, our1) := (terms + [Pow2(bits[i])], AndNot(our, Pow2(bits[i])));
            if And(our, Pow2(bits[i])) == 0 then Stripped(bits, i + 1, x, terms, our)
            else if our1 == 0 then terms1 == Terms(bits, x)
            else Stripped(bits, i + 1, x, terms1, our1)
  {
    assert bits[..i + 1] == bits[..i] + [bits[i]];
    StripStep(bits[..i], bits[i], x);
    StripFlag(bits, i, x);
    PrintedMore(bits[..i], bits[i], x);
    if Residue(bits[..i + 1], x) == 0 { NothingLeft(bits, i + 1, x); }
  }

  /** The printer itself: strip one named bit after the other, stop when nothing is left. */
  method StripMask(bits: seq<nat>, x: nat) returns (terms: seq<nat>)
    requires NoRepeats(bits)
    ensures terms == Terms(bits, x)
  {
    var our := x;
    terms := [];
    AndNotZero(x);
    for i := 0 to |bits|
      invariant Stripped(bits, i, x, terms, our)
    {
      StripTurn(bits, i, x, terms, our);
      if And(our, Pow2(bits[i])) != 0 {
        terms := terms + [Pow2(bits[i])];
        our := AndNot(our, Pow2(bits[i]));
        if our == 0 {
          return;
        }
      }
    }
    assert bits[..|bits|] == bits;
    terms := terms + [our];
  }

  /** The terms printed for one more named bit. */
  lemma {:induction false} PrintedMore(done: seq<nat>, b: nat, x: nat)
    ensures Powers(SetBits(done + [b], x)) == Powers(SetBits(done, x)) + if Test(x, b) then [Pow2(b)] else []
  {
    assert (done + [b])[..|done|] == done;
    PowersMore(SetBits(done, x), b);
    assert SetBits(done, x) + [] == SetBits(done, x) && Powers(SetBits(done, x)) + [] == Powers(SetBits(done, x));
  }

  lemma {:induction false} PowersMore(bits: seq<nat>, b: nat)
    ensures Powers(bits + [b]) == Powers(bits) + [Pow2(b)]
  {
  }

  lemma {:induction false} StripFlag(bits: seq<nat>, i: nat, x: nat)
    requires i < |bits| && NoRepeats(bits)
    ensures And(Residue(bits[..i], x), Pow2(bits[i])) != 0 <==> Test(x, bits[i])
  {
    TestMask(Residue(bits[..i], x), bits[i]);
    TestAndNot(x, Masks(bits[..i]), bits[i]);
    TestMasks(bits[..i], bits[i]);
  }

  /** Clearing one more named bit, whether it was set or not. */
  lemma {:induction false} StripStep(done: seq<nat>, b: nat, x: nat)
    ensures Residue(done + [b], x) == AndNot(Residue(done, x), Pow2(b))
    ensures !Test(x, b) ==> Residue(done + [b], x) == Residue(done, x)
  {
    var l, r, same := Residue(done + [b], x), AndNot(Residue(done, x), Pow2(b)), Residue(done, x);
    forall j: nat
      ensures Test(l, j) <==> Test(r, j)
      ensures !Test(x, b) ==> (Test(l, j) <==> Test(same, j))
    {
      TestAndNot(x, Masks(done + [b]), j);
      TestMasks(done + [b], j);
      TestAndNot(Residue(done, x), Pow2(b), j);
      TestAndNot(x, Masks(done), j);
      TestMasks(done, j);
      TestPow2(b, j);
    }
    SameBits(l, r);
    if !Test(x, b) { SameBits(l, same); }
  }

  /** When nothing is left after n flags, the remaining flags print nothing. */
  lemma {:induction false} NothingLeft(bits: seq<nat>, n: nat, x: nat)
    requires n <= |bits| && NoRepeats(bits) && Residue(bits[..n], x) == 0
    ensures SetBits(bits, x) == SetBits(bits[..n], x) && Residue(bits, x) == 0
    decreases |bits| - n
  {
    if n == |bits| {
      assert bits[..n] == bits;
    } else {
      StripFlag(bits, n, x);
      StripStep(bits[..n], bits[n], x);
      assert bits[..n + 1] == bits[..n] + [bits[n]] && bits[..n + 1][..n] == bits[..n];
      NothingLeft(bits, n + 1, x);
    }
  }

  // ---- expressions for field values ----

  /** Every term but a residual one is a name. */
  function TermExprs(terms: seq<nat>, names: nat, residual: nat -> Expr): (s: seq<Expr>)
    ensures |s| == |terms|
  {
    seq(|terms|, i requires 0 <= i < |terms| => if i < names then Name(terms[i]) else residual(terms[i]))
  }

  function Joined(es: seq<Expr>): Expr
    requires es != []
  {
    if |es| == 1 then es[0] else OrE(Joined(es[..|es| - 1]), es[|es| - 1])
  }

  /** A mask printer, with the literal form of its residual term. */
  function MaskExpr(bits: seq<nat>, x: nat, residual: nat -> Expr): Expr {
    Joined(TermExprs(Terms(bits, x), |SetBits(bits, x)|, residual))
  }

  lemma {:induction false} JoinedValue(es: seq<Expr>, terms: seq<nat>)
    requires es != [] && |es| == |terms|
    requires forall i :: 0 <= i < |es| ==> Eval(es[i]) == terms[i]
    ensures Eval(Joined(es)) == OrAll(terms)
  {
    if |es| == 1 {
      assert terms[..0] == [] && OrAll(terms) == Or(OrAll([]), terms[0]);
    } else {
      JoinedValue(es[..|es| - 1], terms[..|es| - 1]);
    }
  }

  lemma {:induction false} OrAllAtLeast(terms: seq<nat>, i: nat)
    requires i < |terms|
    ensures terms[i] <= OrAll(terms)
    decreases |terms|
  {
    var last := |terms| - 1;
    OrGrows(OrAll(terms[..last]), terms[last]);
    if i < last { OrAllAtLeast(terms[..last], i); }
  }

  lemma {:induction false} OrGrows(a: nat, b: nat)
    ensures a <= Or(a, b) && b <= Or(a, b)
  {
    if a > 0 { OrGrows(a / 2, b / 2); }
  }

  /** The emitted expression of a mask has the value of the mask. */
  lemma {:induction false} MaskExprValue(bits: seq<nat>, x: nat, residual: nat -> Expr)
    requires x < Modulus(64)
    requires forall n: nat :: n < Modulus(64) ==> Eval(residual(n)) == n
    ensures Eval(MaskExpr(bits, x, residual)) == x
  {
    var terms := Terms(bits, x);
    var es := TermExprs(terms, |SetBits(bits, x)|, residual);
    TermsValue(bits, x);
    forall i | 0 <= i < |es|
      ensures Eval(es[i]) == terms[i]
    {
      OrAllAtLeast(terms, i);
      PatternOfSmall(64, terms[i]);
    }
    JoinedValue(es, terms);
  }

  /** perf_pretty_print_type */
  function TypeExpr(t: nat): Expr { if t <= 5 then Name(t) else DecLit(Signed(32, t)) }

  /** perf_pretty_print_cache: id | ( op << 8) | ( result << 16 ), the last shift being arithmetic. */
  function CacheExpr(config: nat): Expr {
    var id := config % 0x100;
    var op := (config / 0x100) % 0x100;
    var result := Pattern(64, Signed(64, config) / 0x1_0000);
    OrE(OrE(NamedUpTo(6, id), Shift(NamedUpTo(2, op), 8)), Shift(NamedUpTo(1, result), 16))
  }

  const TYPE_HARDWARE := 0
  const TYPE_SOFTWARE := 1
  const TYPE_HW_CACHE := 3

  /** perf_pretty_print_config: ten hardware and ten software events have names. */
  function ConfigExpr(t: nat, config: nat): Expr {
    if (t == TYPE_HARDWARE || t == TYPE_SOFTWARE) && config <= 9 then Name(config)
    else if t == TYPE_HW_CACHE then CacheExpr(config)
    else HexULL(config)
  }

  /** The arithmetic shift of a negative config, printed and shifted back, keeps the top 48 bits. */
  lemma {:induction false} NegativeShift(config: nat, high: nat)
    requires Modulus(64) / 2 <= config < Modulus(64) && high == config / 0x1_0000
    ensures Pattern(64, Pattern(64, Signed(64, config) / 0x1_0000) * 0x1_0000) == high * 0x1_0000
  {
    var v: int := config - Modulus(64);
    assert config == high * 0x1_0000 + (config % 0x1_0000);
    assert v == (high - 0x1_0000_0000_0000) * 0x1_0000 + (config % 0x1_0000);
    assert v / 0x1_0000 == high - 0x1_0000_0000_0000;
    var result: int := high - 0x1_0000_0000_0000 + Modulus(64);
    assert Pattern(64, v / 0x1_0000) == result;
    MultipleVanishes(high * 0x1_0000, 0xffff);
    assert result * 0x1_0000 == high * 0x1_0000 + 0xffff * Modulus(64);
  }

  lemma {:induction false} MultipleVanishes(x: nat, k: nat)
    requires x < Modulus(64)
    ensures (x + k * Modulus(64)) % Modulus(64) == x
  {
  }

  lemma {:induction false} PositiveShift(config: nat, high: nat)
    requires config < Modulus(64) / 2 && high == config / 0x1_0000
    ensures Pattern(64, Pattern(64, Signed(64, config) / 0x1_0000) * 0x1_0000) == high * 0x1_0000
  {
    assert high * 0x1_0000 <= config;
    PatternOfSmall(64, high);
    PatternOfSmall(64, high * 0x1_0000);
  }

  lemma {:induction false} ThreeParts(config: nat)
    ensures config == config % 0x100 + (config / 0x100) % 0x100 * 0x100 + (config / 0x1_0000) * 0x1_0000
  {
  }

  lemma {:induction false} CacheParts(config: nat)
    requires config < Modulus(64)
    ensures var low, op, result := config % 0x100, (config / 0x100) % 0x100, Pattern(64, Signed(64, config) / 0x1_0000);
            && Pattern(64, result * 0x1_0000) == (config / 0x1_0000) * 0x1_0000
            && config == low + op * 0x100 + (config / 0x1_0000) * 0x1_0000
  {
    ThreeParts(config);
    if config >= Modulus(64) / 2 { NegativeShift(config, config / 0x1_0000); }
    else { PositiveShift(config, config / 0x1_0000); }
  }

  function NamedUpTo(n: nat, x: nat): Expr { if x <= n then Name(x) else HexULL(x) }

  lemma {:induction false} NamedValue(n: nat, x: nat)
    requires x < Modulus(64)
    ensures Eval(NamedUpTo(n, x)) == x
  {
  }

  lemma {:induction false} OrParts(low: nat, op: nat, high: nat)
    requires low < 0x100 && op < 0x100
    ensures Or(Or(low, op * 0x100), high * 0x1_0000) == low + op * 0x100 + high * 0x1_0000
  {
    Pow2Of64();
    OrShifted(low, op, 8);
    OrShifted(low + op * 0x100, high, 16);
  }

  lemma {:induction false} ShiftValue(e: Expr, k: nat, p: nat)
    requires Pow2(k) == p
    ensures Eval(Shift(e, k)) == Pattern(64, Eval(e) * p)
  {
  }

  lemma {:induction false} LowParts(low: nat, op: nat)
    requires low < 0x100 && op < 0x100
    ensures Eval(OrE(NamedUpTo(6, low), Shift(NamedUpTo(2, op), 8))) == Or(low, op * 0x100)
  {
    Pow2Of64();
    NamedValue(6, low);
    OpPart(op);
  }

  lemma {:induction false} OpPart(op: nat)
    requires op < 0x100
    ensures Eval(Shift(NamedUpTo(2, op), 8)) == op * 0x100
  {
    Pow2Of64();
    NamedValue(2, op);
    ShiftValue(NamedUpTo(2, op), 8, 0x100);
    PatternOfSmall(64, op * 0x100);
  }

  lemma {:induction false} ResultPart(result: nat)
    requires result < Modulus(64)
    ensures Eval(Shift(NamedUpTo(1, result), 16)) == Pattern(64, result * 0x1_0000)
  {
    Pow2Of64();
    NamedValue(1, result);
    ShiftValue(NamedUpTo(1, result), 16, 0x1_0000);
  }

  /** The three parts recombine to every 64-bit config, negative ones included. */
  lemma {:induction false} CacheExprValue(config: nat)
    requires config < Modulus(64)
    ensures Eval(CacheExpr(config)) == config
  {
    var low, op := config % 0x100, (config / 0x100) % 0x100;
    var result := Pattern(64, Signed(64, config) / 0x1_0000);
    var left, right := OrE(NamedUpTo(6, low), Shift(NamedUpTo(2, op), 8)), Shift(NamedUpTo(1, result), 16);
    assert CacheExpr(config) == OrE(left, right);
    LowParts(low, op);
    ResultPart(result);
    CacheParts(config);
    OrParts(low, op, config / 0x1_0000);
  }
}
