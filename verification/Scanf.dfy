/**
  The printf and scanf conversions of the trace log, on characters: signed decimal and
  hexadecimal, at the widths of short, int and long long.  A value is its bit pattern.
*/
module Scanf {

  /** %hd, %d, %lld are Dec(16), Dec(32), Dec(64); %x, %lx, %llx are Hex(32), Hex(64), Hex(64). */
  datatype Conv = Dec(bits: nat) | Hex(bits: nat)

  /** A piece of a scanf format: `%*c`, white space, or a conversion. */
  datatype Directive = SkipChar | Blank | Scan(conv: Conv)

  /** 2^bits for the widths that occur. */
  function Modulus(bits: nat): (r: nat)
    ensures r >= 2
  {
    match bits
    case 1 => 2 case 2 => 4 case 16 => 0x1_0000 case 32 => 0x1_0000_0000 case _ => 0x1_0000_0000_0000_0000
  }

  predicate Wide(bits: nat) { bits == 16 || bits == 32 || bits == 64 }

  /** Reading a bit pattern as a two's-complement number, and back. */
  function Signed(bits: nat, x: nat): int {
    if x < Modulus(bits) / 2 then x else x - Modulus(bits)
  }

  function Pattern(bits: nat, v: int): (x: nat)
    ensures x < Modulus(bits)
  {
    v % Modulus(bits)
  }

  lemma {:induction false} PatternOfSigned(bits: nat, x: nat)
    requires x < Modulus(bits)
    ensures Pattern(bits, Signed(bits, x)) == x
  {
  }

  lemma {:induction false} PatternOfSmall(bits: nat, x: nat)
    requires x < Modulus(bits)
    ensures Pattern(bits, x) == x
  {
  }

  lemma {:induction false} SignedOfPattern(bits: nat, v: int)
    requires Wide(bits) && -(Modulus(bits) / 2) <= v < Modulus(bits) / 2
    ensures Signed(bits, Pattern(bits, v)) == v
  {
  }

  // ---- printing ----

  function Digit(d: nat): char
    requires d < 16
  {
    "0123456789abcdef"[d]
  }

  function PrintNat(n: nat, base: nat): (s: string)
    requires base == 10 || base == 16
    ensures s != []
  {
    if n < base then [Digit(n)] else PrintNat(n / base, base) + [Digit(n % base)]
  }

  function Print(c: Conv, x: nat): (s: string)
    ensures s != []
  {
    match c
    case Hex(_) => PrintNat(x, 16)
    case Dec(bits) => PrintInt(Signed(bits, x))
  }

  function PrintInt(v: int): (s: string)
    ensures s != []
  {
    if v < 0 then "-" + PrintNat(-v, 10) else PrintNat(v, 10)
  }

  /** sprintf("%.. ", x) for each value in turn. */
  function PrintAll(convs: seq<Conv>, vals: seq<nat>): string
    requires |convs| == |vals|
  {
    if convs == [] then [] else Print(convs[0], vals[0]) + (" " + PrintAll(convs[1..], vals[1..]))
  }

  // ---- scanning ----

  predicate IsSpace(c: char) { c == ' ' || c == '\n' || c == '\t' || c == '\r' }

  function SkipBlanks(s: string): string {
    if s != [] && IsSpace(s[0]) then SkipBlanks(s[1..]) else s
  }

  /** Value of a digit, or base when c is none. */
  function DigitValue(c: char, base: nat): (d: nat)
    requires base == 10 || base == 16
    ensures d <= base
  {
    if '0' <= c <= '9' then c as int - '0' as int
    else if base == 16 && 'a' <= c <= 'f' then c as int - 'a' as int + 10
    else if base == 16 && 'A' <= c <= 'F' then c as int - 'A' as int + 10
    else base
  }

  predicate IsDigit(c: char, base: nat)
    requires base == 10 || base == 16
  {
    DigitValue(c, base) < base
  }

  /** The longest run of digits, and what follows it. */
  function ScanDigits(s: string, base: nat, acc: nat): (nat, string)
    requires base == 10 || base == 16
    decreases |s|
  {
    if s != [] && IsDigit(s[0], base) then ScanDigits(s[1..], base, acc * base + DigitValue(s[0], base))
    else (acc, s)
  }

  datatype Scanned = NoMatch | Scanned(value: nat, rest: string)

  /** strtoll saturates before the value is cut down to the width of the argument. */
  function Clamp(v: int): int {
    if v >= Modulus(64) / 2 then Modulus(64) / 2 - 1 else if v < -(Modulus(64) / 2) then -(Modulus(64) / 2) else v
  }

  function ScanMagnitude(c: Conv, s: string, negative: bool): Scanned {
    var base := if c.Dec? then 10 else 16;
    var digits := if c.Hex? && |s| >= 2 && s[0] == '0' && (s[1] == 'x' || s[1] == 'X') then s[2..] else s;
    if digits == [] || !IsDigit(digits[0], base) then NoMatch
    else
      var (n, rest) := ScanDigits(digits, base, 0);
      var v: int := if negative then 0 - n else n;
      if c.Dec? then Scanned(Pattern(c.bits, Clamp(v)), rest)
      else if n < Modulus(64) then Scanned(Pattern(c.bits, v), rest)
      else Scanned(Modulus(c.bits) - 1, rest)
  }

  /** One conversion: leading white space and a sign are always accepted. */
  function ScanConv(c: Conv, text: string): Scanned {
    var s := SkipBlanks(text);
    if s != [] && (s[0] == '-' || s[0] == '+') then ScanMagnitude(c, s[1..], s[0] == '-')
    else ScanMagnitude(c, s, false)
  }

  /** sscanf: the values assigned before the first directive that does not match. */
  function Sscanf(fmt: seq<Directive>, text: string): seq<nat> {
    if fmt == [] then []
    else match fmt[0]
      case SkipChar => if text == [] then [] else Sscanf(fmt[1..], text[1..])
      case Blank => Sscanf(fmt[1..], SkipBlanks(text))
      case Scan(c) =>
        match ScanConv(c, text)
        case NoMatch => []
        case Scanned(x, rest) => [x] + Sscanf(fmt[1..], rest)
  }

  // ---- scanning undoes printing ----

  predicate AllDigits(s: string, base: nat)
    requires base == 10 || base == 16
  {
    forall i :: 0 <= i < |s| ==> IsDigit(s[i], base)
  }

  function DigitsValue(s: string, base: nat): nat
    requires base == 10 || base == 16
  {
    if s == [] then 0 else DigitsValue(s[..|s| - 1], base) * base + DigitValue(s[|s| - 1], base)
  }

  lemma {:induction false} DigitBack(d: nat, base: nat)
    requires (base == 10 || base == 16) && d < base
    ensures DigitValue(Digit(d), base) == d && IsDigit(Digit(d), base)
  {
  }

  lemma {:induction false} PrintedDigits(n: nat, base: nat)
    requires base == 10 || base == 16
    ensures AllDigits(PrintNat(n, base), base) && DigitsValue(PrintNat(n, base), base) == n
    decreases n
  {
    var s := PrintNat(n, base);
    if n < base {
      DigitBack(n, base);
      assert s[..0] == [] && DigitsValue(s[..0], base) == 0;
    } else {
      PrintedDigits(n / base, base);
      DigitBack(n % base, base);
      assert s[..|s| - 1] == PrintNat(n / base, base);
    }
  }

  /** A printed number starts with 0 only if it is the single digit 0. */
  lemma {:induction false} NoLeadingZero(n: nat, base: nat)
    requires base == 10 || base == 16
    ensures PrintNat(n, base)[0] == '0' ==> |PrintNat(n, base)| == 1
    ensures n > 0 ==> PrintNat(n, base)[0] != '0'
    decreases n
  {
    if n >= base { NoLeadingZero(n / base, base); }
  }

  /** The scanner takes all the digits, and only them. */
  lemma {:induction false} ScanTakesDigits(s: string, rest: string, base: nat, done: string)
    requires base == 10 || base == 16
    requires AllDigits(s, base) && (rest == [] || !IsDigit(rest[0], base))
    ensures ScanDigits(s + rest, base, DigitsValue(done, base)) == (DigitsValue(done + s, base), rest)
    decreases |s|
  {
    if s == [] {
      assert s + rest == rest && done + s == done;
    } else {
      var more := done + [s[0]];
      assert more[..|more| - 1] == done;
      assert (s + rest)[1..] == s[1..] + rest && more + s[1..] == done + s;
      assert ScanDigits(s + rest, base, DigitsValue(done, base)) == ScanDigits(s[1..] + rest, base, DigitsValue(more, base));
      ScanTakesDigits(s[1..], rest, base, more);
    }
  }

  predicate EndsNumber(rest: string) { rest == [] || IsSpace(rest[0]) }

  /** A printed number is scanned back whole. */
  lemma {:induction false} NumberBack(n: nat, base: nat, rest: string)
    requires (base == 10 || base == 16) && EndsNumber(rest)
    ensures ScanDigits(PrintNat(n, base) + rest, base, 0) == (n, rest)
    ensures IsDigit(PrintNat(n, base)[0], base)
  {
    PrintedDigits(n, base);
    DigitsBack(PrintNat(n, base), rest, base);
  }

  lemma {:induction false} DigitsBack(s: string, rest: string, base: nat)
    requires (base == 10 || base == 16) && AllDigits(s, base) && EndsNumber(rest)
    ensures ScanDigits(s + rest, base, 0) == (DigitsValue(s, base), rest)
  {
    var none: string := [];
    assert DigitsValue(none, base) == 0 && none + s == s;
    ScanTakesDigits(s, rest, base, none);
  }

  lemma {:induction false} DecBack(bits: nat, v: int, rest: string)
    requires Wide(bits) && -(Modulus(bits) / 2) <= v < Modulus(bits) / 2 && EndsNumber(rest)
    ensures var n: nat := if v < 0 then -v else v;
            ScanMagnitude(Dec(bits), PrintNat(n, 10) + rest, v < 0) == Scanned(Pattern(bits, v), rest)
  {
    var n: nat := if v < 0 then -v else v;
    NumberBack(n, 10, rest);
    assert Clamp(v) == v;
  }

  lemma {:induction false} HexBack(bits: nat, n: nat, rest: string)
    requires Wide(bits) && n < Modulus(bits) && EndsNumber(rest)
    ensures ScanMagnitude(Hex(bits), PrintNat(n, 16) + rest, false) == Scanned(n, rest)
  {
    var s := PrintNat(n, 16) + rest;
    NumberBack(n, 16, rest);
    NoPrefix(n, rest);
    HexMagnitude(bits, s, n, rest);
    PatternOfSmall(bits, n);
  }

  lemma {:induction false} HexMagnitude(bits: nat, s: string, n: nat, rest: string)
    requires s != [] && IsDigit(s[0], 16) && !(|s| >= 2 && s[0] == '0' && (s[1] == 'x' || s[1] == 'X'))
    requires ScanDigits(s, 16, 0) == (n, rest) && n < Modulus(64)
    ensures ScanMagnitude(Hex(bits), s, false) == Scanned(Pattern(bits, n), rest)
  {
  }

  /** What %x prints is never taken for a 0x prefix. */
  lemma {:induction false} NoPrefix(n: nat, rest: string)
    requires EndsNumber(rest)
    ensures var s := PrintNat(n, 16) + rest;
            !(|s| >= 2 && s[0] == '0' && (s[1] == 'x' || s[1] == 'X'))
  {
    NoLeadingZero(n, 16);
  }

  lemma {:induction false} ScanUnsigned(c: Conv, s: string)
    requires s != [] && !IsSpace(s[0]) && s[0] != '-' && s[0] != '+'
    ensures ScanConv(c, s) == ScanMagnitude(c, s, false)
  {
  }

  lemma {:induction false} ScanNegative(c: Conv, s: string, rest: string)
    requires s == ['-'] + rest
    ensures ScanConv(c, s) == ScanMagnitude(c, rest, true)
  {
  }

  /** A conversion scans back what it printed. */
  lemma {:induction false} ConvBack(c: Conv, x: nat, rest: string)
    requires Wide(c.bits) && x < Modulus(c.bits) && EndsNumber(rest)
    ensures !IsSpace(Print(c, x)[0])
    ensures ScanConv(c, Print(c, x) + rest) == Scanned(x, rest)
  {
    match c
    case Hex(bits) =>
      NumberBack(x, 16, rest);
      HexBack(bits, x, rest);
      ScanUnsigned(c, PrintNat(x, 16) + rest);
    case Dec(bits) =>
      SignedFits(bits, x);
      IntBack(bits, Signed(bits, x), rest);
      PatternOfSigned(bits, x);
  }

  lemma {:induction false} SignedFits(bits: nat, x: nat)
    requires x < Modulus(bits)
    ensures -(Modulus(bits) / 2) <= Signed(bits, x) < Modulus(bits) / 2
  {
  }

  lemma {:induction false} IntBack(bits: nat, v: int, rest: string)
    requires Wide(bits) && -(Modulus(bits) / 2) <= v < Modulus(bits) / 2 && EndsNumber(rest)
    ensures !IsSpace(PrintInt(v)[0])
    ensures ScanConv(Dec(bits), PrintInt(v) + rest) == Scanned(Pattern(bits, v), rest)
  {
    var n: nat := if v < 0 then -v else v;
    var s := PrintNat(n, 10) + rest;
    NumberBack(n, 10, rest);
    DecBack(bits, v, rest);
    if v < 0 {
      assert PrintInt(v) + rest == ['-'] + s;
      ScanNegative(Dec(bits), ['-'] + s, s);
    } else {
      ScanUnsigned(Dec(bits), s);
    }
  }

  /** Blanks in front make no difference to a conversion. */
  lemma {:induction false} BlanksBefore(c: Conv, blanks: string, s: string)
    requires s != [] && !IsSpace(s[0])
    requires forall i :: 0 <= i < |blanks| ==> IsSpace(blanks[i])
    ensures ScanConv(c, blanks + s) == ScanConv(c, s)
  {
    SkipExactly(blanks, s);
    SkipExactly([], s);
    assert [] + s == s;
  }

  lemma {:induction false} SkipExactly(blanks: string, s: string)
    requires s == [] || !IsSpace(s[0])
    requires forall i :: 0 <= i < |blanks| ==> IsSpace(blanks[i])
    ensures SkipBlanks(blanks + s) == s
    decreases |blanks|
  {
    if blanks == [] {
      assert blanks + s == s;
    } else {
      assert (blanks + s)[1..] == blanks[1..] + s;
      SkipExactly(blanks[1..], s);
    }
  }

  /** fmt asks for the conversions convs in order, with white space anywhere between them. */
  predicate Asks(fmt: seq<Directive>, convs: seq<Conv>)
    decreases |fmt|
  {
    if fmt == [] then convs == []
    else match fmt[0]
      case SkipChar => false
      case Blank => Asks(fmt[1..], convs)
      case Scan(c) => convs != [] && convs[0] == c && Asks(fmt[1..], convs[1..])
  }

  predicate AllFit(convs: seq<Conv>, vals: seq<nat>) {
    && |convs| == |vals|
    && forall i :: 0 <= i < |convs| ==> Wide(convs[i].bits) && vals[i] < Modulus(convs[i].bits)
  }

  /** Scanning with a format undoes printing with the same conversions. */
  lemma {:induction false} SscanfInvertsPrint(fmt: seq<Directive>, convs: seq<Conv>, vals: seq<nat>, blanks: string, tail: string)
    requires Asks(fmt, convs) && AllFit(convs, vals)
    requires forall i :: 0 <= i < |blanks| ==> IsSpace(blanks[i])
    ensures Sscanf(fmt, blanks + (PrintAll(convs, vals) + tail)) == vals
    decreases |fmt|
  {
    if fmt == [] {
    } else if convs == [] {
      NothingAsked(fmt, blanks + (PrintAll(convs, vals) + tail));
    } else {
      var first, rest := Print(convs[0], vals[0]), PrintAll(convs[1..], vals[1..]) + tail;
      PrintedFirst(convs, vals, tail);
      ConvBack(convs[0], vals[0], " " + rest);
      match fmt[0]
      case Blank =>
        BlankStep(fmt, blanks, PrintAll(convs, vals) + tail);
        SscanfInvertsPrint(fmt[1..], convs, vals, [], tail);
      case Scan(c) =>
        ScanStep(fmt, c, vals[0], blanks, first, " " + rest);
        FitRest(convs, vals);
        SscanfInvertsPrint(fmt[1..], convs[1..], vals[1..], " ", tail);
    }
  }

  lemma {:induction false} FitRest(convs: seq<Conv>, vals: seq<nat>)
    requires AllFit(convs, vals) && convs != []
    ensures AllFit(convs[1..], vals[1..]) && vals == [vals[0]] + vals[1..]
  {
  }

  lemma {:induction false} PrintedFirst(convs: seq<Conv>, vals: seq<nat>, tail: string)
    requires convs != [] && |vals| == |convs|
    ensures PrintAll(convs, vals) + tail == Print(convs[0], vals[0]) + (" " + (PrintAll(convs[1..], vals[1..]) + tail))
  {
    Join3(Print(convs[0], vals[0]), PrintAll(convs[1..], vals[1..]), tail);
  }

  lemma {:induction false} Join3(first: string, more: string, tail: string)
    ensures first + (" " + more) + tail == first + (" " + (more + tail))
  {
  }

  lemma {:induction false} BlankStep(fmt: seq<Directive>, blanks: string, text: string)
    requires fmt != [] && fmt[0] == Blank && text != [] && !IsSpace(text[0])
    requires forall i :: 0 <= i < |blanks| ==> IsSpace(blanks[i])
    ensures Sscanf(fmt, blanks + text) == Sscanf(fmt[1..], [] + text)
  {
    SkipExactly(blanks, text);
    assert [] + text == text;
  }

  lemma {:induction false} ScanStep(fmt: seq<Directive>, c: Conv, x: nat, blanks: string, first: string, rest: string)
    requires fmt != [] && fmt[0] == Scan(c) && first != [] && !IsSpace(first[0])
    requires forall i :: 0 <= i < |blanks| ==> IsSpace(blanks[i])
    requires ScanConv(c, first + rest) == Scanned(x, rest)
    ensures Sscanf(fmt, blanks + (first + rest)) == [x] + Sscanf(fmt[1..], rest)
  {
    BlanksBefore(c, blanks, first + rest);
  }

  lemma {:induction false} NothingAsked(fmt: seq<Directive>, text: string)
    requires Asks(fmt, [])
    ensures Sscanf(fmt, text) == []
    decreases |fmt|
  {
    if fmt != [] { NothingAsked(fmt[1..], SkipBlanks(text)); }
  }
}
