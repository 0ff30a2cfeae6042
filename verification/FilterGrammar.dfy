/**
  Tracepoint filters: the grammar that the kernel reads, as a recursive-descent parser,
  and the nested chains that the fuzzer writes.
*/
module FilterGrammar {

  datatype BoolOp = AndOp | OrOp

  /** Field names, comparison operators and values are opaque. */
  datatype Token =
    | LParen | RParen | Bang
    | Join(op: BoolOp)
    | Name(field: nat)
    | Compare(code: nat)
    | Value(text: nat)
    | Space(tab: bool)

  datatype Comparison = Comparison(field: nat, op: nat, text: nat)

  datatype Expr = Leaf(c: Comparison) | NotE(e: Expr) | BinE(op: BoolOp, left: Expr, right: Expr) | Paren(e: Expr)

  datatype Parsed = Failed | Parsed(e: Expr, rest: seq<Token>)

  // ---- the parser:  or := and ("||" and)*,  and := term ("&&" term)*,
  // ---- term := "!" term | "(" or ")" | name operator value

  function ParseTerm(ts: seq<Token>): (r: Parsed)
    ensures r.Parsed? ==> |r.rest| < |ts|
    decreases |ts|, 0
  {
    if ts == [] then Failed
    else match ts[0]
      case Bang =>
        (match ParseTerm(ts[1..])
         case Failed => Failed
         case Parsed(e, rest) => Parsed(NotE(e), rest))
      case LParen =>
        (match ParseOr(ts[1..])
         case Failed => Failed
         case Parsed(e, rest) => if rest != [] && rest[0] == RParen then Parsed(Paren(e), rest[1..]) else Failed)
      case Name(f) =>
        if |ts| >= 3 && ts[1].Compare? && ts[2].Value? then Parsed(Leaf(Comparison(f, ts[1].code, ts[2].text)), ts[3..])
        else Failed
      case _ => Failed
  }

  function ParseAnd(ts: seq<Token>): (r: Parsed)
    ensures r.Parsed? ==> |r.rest| < |ts|
    decreases |ts|, 1
  {
    match ParseTerm(ts)
    case Failed => Failed
    case Parsed(e, rest) => AndTail(e, rest)
  }

  function AndTail(left: Expr, ts: seq<Token>): (r: Parsed)
    ensures r.Parsed? ==> |r.rest| <= |ts|
    decreases |ts|, 1
  {
    if ts == [] || ts[0] != Join(AndOp) then Parsed(left, ts)
    else match ParseTerm(ts[1..])
      case Failed => Failed
      case Parsed(e, rest) => AndTail(BinE(AndOp, left, e), rest)
  }

  function ParseOr(ts: seq<Token>): (r: Parsed)
    ensures r.Parsed? ==> |r.rest| < |ts|
    decreases |ts|, 2
  {
    match ParseAnd(ts)
    case Failed => Failed
    case Parsed(e, rest) => OrTail(e, rest)
  }

  function OrTail(left: Expr, ts: seq<Token>): (r: Parsed)
    ensures r.Parsed? ==> |r.rest| <= |ts|
    decreases |ts|, 2
  {
    if ts == [] || ts[0] != Join(OrOp) then Parsed(left, ts)
    else match ParseAnd(ts[1..])
      case Failed => Failed
      case Parsed(e, rest) => OrTail(BinE(OrOp, left, e), rest)
  }

  /** The text without its white space. */
  function Strip(ts: seq<Token>): seq<Token> {
    if ts == [] then []
    else Strip(ts[..|ts| - 1]) + if ts[|ts| - 1].Space? then [] else [ts[|ts| - 1]]
  }

  lemma {:induction false} StripJoin(a: seq<Token>, b: seq<Token>)
    ensures Strip(a + b) == Strip(a) + Strip(b)
    decreases |b|
  {
    var n := |b| - 1;
    if b == [] {
      assert a + b == a;
    } else {
      assert (a + b)[..|a| + n] == a + b[..n];
      StripJoin(a, b[..n]);
    }
  }

  lemma {:induction false} StripOne(t: Token)
    ensures Strip([t]) == if t.Space? then [] else [t]
  {
  }

  /** A filter text that is one expression. */
  ghost predicate ParsesTo(text: seq<Token>, e: Expr) { ParseOr(Strip(text)) == Parsed(e, []) }

  // ---- the chains ----

  /** Which levels are negated, outermost first; the comparisons and the operators between them, in order. */
  datatype Chain = Chain(nots: seq<bool>, cmps: seq<Comparison>, ops: seq<BoolOp>)

  predicate IsChain(c: Chain) {
    && |c.cmps| == (if c.nots == [] then 1 else |c.nots|)
    && |c.ops| == |c.cmps| - 1
  }

  function CmpText(c: Comparison): seq<Token> { [Name(c.field), Compare(c.op), Value(c.text)] }

  function NotText(b: bool): seq<Token> { if b then [Bang] else [] }

  /** What the first loop writes. */
  function Opens(nots: seq<bool>): seq<Token> {
    if nots == [] then [] else Opens(nots[..|nots| - 1]) + [LParen] + NotText(nots[|nots| - 1])
  }

  /** What the second loop writes. */
  function Items(cmps: seq<Comparison>, ops: seq<BoolOp>): seq<Token>
    requires |cmps| > 0 && |ops| == |cmps| - 1
    decreases |cmps|
  {
    var n := |cmps| - 1;
    (if n == 0 then [] else Items(cmps[..n], ops[..n - 1]) + [Join(ops[n - 1])]) + CmpText(cmps[n]) + [RParen]
  }

  function Text(c: Chain): seq<Token>
    requires IsChain(c)
  {
    if c.nots == [] then CmpText(c.cmps[0]) else Opens(c.nots) + Items(c.cmps, c.ops)
  }

  function MaybeNot(b: bool, e: Expr): Expr { if b then NotE(e) else e }

  /** The expression meant: each level joins the level inside it with one more comparison. */
  function Tree(c: Chain): Expr
    requires IsChain(c)
    decreases |c.nots|
  {
    var n := |c.nots| - 1;
    if n == -1 then Leaf(c.cmps[0])
    else if n == 0 then Paren(MaybeNot(c.nots[0], Leaf(c.cmps[0])))
    else Paren(BinE(c.ops[n - 1], MaybeNot(c.nots[0], Tree(Inner(c))), Leaf(c.cmps[n])))
  }

  /** The chain without its outermost level. */
  function Inner(c: Chain): (r: Chain)
    requires IsChain(c) && |c.nots| > 1
    ensures IsChain(r)
  {
    Chain(c.nots[1..], c.cmps[..|c.nots| - 1], c.ops[..|c.nots| - 2])
  }

  function Depth(e: Expr): nat {
    match e
    case Leaf(_) => 0
    case NotE(e1) => Depth(e1)
    case BinE(_, l, r) => if Depth(l) >= Depth(r) then Depth(l) else Depth(r)
    case Paren(e1) => 1 + Depth(e1)
  }

  function Comparisons(e: Expr): nat {
    match e
    case Leaf(_) => 1
    case NotE(e1) => Comparisons(e1)
    case BinE(_, l, r) => Comparisons(l) + Comparisons(r)
    case Paren(e1) => Comparisons(e1)
  }

  function Joins(e: Expr): nat {
    match e
    case Leaf(_) => 0
    case NotE(e1) => Joins(e1)
    case BinE(_, l, r) => 1 + Joins(l) + Joins(r)
    case Paren(e1) => Joins(e1)
  }

  lemma {:induction false} NotShape(b: bool, e: Expr)
    ensures Depth(MaybeNot(b, e)) == Depth(e) && Comparisons(MaybeNot(b, e)) == Comparisons(e) && Joins(MaybeNot(b, e)) == Joins(e)
  {
  }

  lemma {:induction false} LevelShape(op: BoolOp, e: Expr, c: Comparison)
    ensures var t := Paren(BinE(op, e, Leaf(c)));
            Depth(t) == Depth(e) + 1 && Comparisons(t) == Comparisons(e) + 1 && Joins(t) == Joins(e) + 1
  {
    var t := BinE(op, e, Leaf(c));
    assert Depth(Leaf(c)) == 0 && Comparisons(Leaf(c)) == 1 && Joins(Leaf(c)) == 0;
    assert Depth(t) == Depth(e) && Comparisons(t) == Comparisons(e) + 1 && Joins(t) == Joins(e) + 1;
  }

  /** Nesting, comparisons and operators of a chain with n levels: n, the larger of 1 and n, and one fewer. */
  lemma {:induction false} TreeShape(c: Chain)
    requires IsChain(c)
    ensures Depth(Tree(c)) == |c.nots| && Comparisons(Tree(c)) == |c.cmps| && Joins(Tree(c)) == |c.cmps| - 1
    decreases |c.nots|
  {
    var n := |c.nots| - 1;
    if n > 0 {
      TreeShape(Inner(c));
      NotShape(c.nots[0], Tree(Inner(c)));
      LevelShape(c.ops[n - 1], MaybeNot(c.nots[0], Tree(Inner(c))), c.cmps[n]);
    } else if n == 0 {
      NotShape(c.nots[0], Leaf(c.cmps[0]));
      assert Depth(Leaf(c.cmps[0])) == 0 && Comparisons(Leaf(c.cmps[0])) == 1 && Joins(Leaf(c.cmps[0])) == 0;
    }
  }

  // ---- the text of a chain parses to its tree ----

  lemma {:induction false} OpensFirst(nots: seq<bool>)
    requires nots != []
    ensures Opens(nots) == [LParen] + NotText(nots[0]) + Opens(nots[1..])
    decreases |nots|
  {
    var n := |nots| - 1;
    if n > 0 {
      OpensFirst(nots[..n]);
      assert nots[..n][1..] == nots[1..][..n - 1] == nots[1..n];
      OpenRegroup(NotText(nots[0]), Opens(nots[1..n]), NotText(nots[n]));
    } else {
      assert nots[..n] == [] == nots[1..];
      OpenRegroup(NotText(nots[0]), [], []);
    }
  }

  lemma {:induction false} OpenRegroup(a: seq<Token>, o: seq<Token>, b: seq<Token>)
    ensures ([LParen] + a + o) + [LParen] + b == [LParen] + a + (o + [LParen] + b)
    ensures [] + [LParen] + a == [LParen] + a + []
  {
  }

  /** The text of a level around the text of the level inside it. */
  lemma {:induction false} TextNests(c: Chain)
    requires IsChain(c) && |c.nots| > 1
    ensures var n := |c.nots| - 1;
            Text(c) == [LParen] + (NotText(c.nots[0]) + Text(Inner(c)) + ([Join(c.ops[n - 1])] + CmpText(c.cmps[n]) + [RParen]))
  {
    OpensFirst(c.nots);
    var n := |c.nots| - 1;
    NestRegroup(NotText(c.nots[0]), Opens(c.nots[1..]), Items(c.cmps[..n], c.ops[..n - 1]), [Join(c.ops[n - 1])], CmpText(c.cmps[n]));
  }

  lemma {:induction false} NestRegroup(a: seq<Token>, o: seq<Token>, i: seq<Token>, j: seq<Token>, k: seq<Token>)
    ensures ([LParen] + a + o) + (i + j + k + [RParen]) == [LParen] + (a + (o + i) + (j + k + [RParen]))
  {
  }

  lemma {:induction false} TermIsComparison(c: Comparison, s: seq<Token>)
    ensures ParseTerm(CmpText(c) + s) == Parsed(Leaf(c), s)
  {
  }

  lemma {:induction false} TermIsNegated(b: bool, ts: seq<Token>, e: Expr, rest: seq<Token>)
    requires ParseTerm(ts) == Parsed(e, rest)
    ensures ParseTerm(NotText(b) + ts) == Parsed(MaybeNot(b, e), rest)
  {
    var t := NotText(b) + ts;
    if b {
      assert t[0] == Bang && t[1..] == ts;
    } else {
      assert t == ts;
    }
  }

  /** The parser is at a place where no operator follows. */
  predicate Ends(s: seq<Token>) { s == [] || !s[0].Join? }

  lemma {:induction false} OneTerm(ts: seq<Token>, e: Expr, s: seq<Token>)
    requires ParseTerm(ts) == Parsed(e, s) && Ends(s)
    ensures ParseOr(ts) == Parsed(e, s)
  {
    assert OrTail(e, s) == Parsed(e, s) == AndTail(e, s);
    assert ParseAnd(ts) == Parsed(e, s);
  }

  lemma {:induction false} TwoTerms(ts: seq<Token>, e: Expr, op: BoolOp, us: seq<Token>, e2: Expr, s: seq<Token>)
    requires ParseTerm(ts) == Parsed(e, [Join(op)] + us) && ParseTerm(us) == Parsed(e2, s) && Ends(s)
    ensures ParseOr(ts) == Parsed(BinE(op, e, e2), s)
  {
    var rest := [Join(op)] + us;
    assert rest[1..] == us;
    var both := BinE(op, e, e2);
    assert OrTail(both, s) == Parsed(both, s) == AndTail(both, s);
    if op == AndOp {
      assert ParseAnd(ts) == AndTail(both, s);
    } else {
      assert AndTail(e, rest) == Parsed(e, rest);
      assert ParseAnd(us) == Parsed(e2, s);
      assert OrTail(e, rest) == OrTail(both, s);
    }
  }

  lemma {:induction false} TermIsParen(ts: seq<Token>, e: Expr, s: seq<Token>)
    requires ParseOr(ts) == Parsed(e, [RParen] + s)
    ensures ParseTerm([LParen] + ts) == Parsed(Paren(e), s)
  {
  }

  lemma {:induction false} ChainParses(c: Chain, s: seq<Token>)
    requires IsChain(c)
    ensures ParseTerm(Text(c) + s) == Parsed(Tree(c), s)
    decreases |c.nots|
  {
    var n := |c.nots| - 1;
    if n == -1 {
      TermIsComparison(c.cmps[0], s);
    } else if n == 0 {
      InnermostParses(c, s);
    } else {
      var us := CmpText(c.cmps[n]) + ([RParen] + s);
      var tail := [Join(c.ops[n - 1])] + us;
      TextNests(c);
      ChainParses(Inner(c), tail);
      TermIsNegated(c.nots[0], Text(Inner(c)) + tail, Tree(Inner(c)), tail);
      var ts := NotText(c.nots[0]) + (Text(Inner(c)) + tail);
      TermIsComparison(c.cmps[n], [RParen] + s);
      TwoTerms(ts, MaybeNot(c.nots[0], Tree(Inner(c))), c.ops[n - 1], us, Leaf(c.cmps[n]), [RParen] + s);
      TermIsParen(ts, BinE(c.ops[n - 1], MaybeNot(c.nots[0], Tree(Inner(c))), Leaf(c.cmps[n])), s);
      Regroup(NotText(c.nots[0]), Text(Inner(c)), [Join(c.ops[n - 1])], CmpText(c.cmps[n]), s);
    }
  }

  lemma {:induction false} Regroup(a: seq<Token>, t: seq<Token>, j: seq<Token>, k: seq<Token>, s: seq<Token>)
    ensures [LParen] + (a + t + (j + k + [RParen])) + s == [LParen] + (a + (t + (j + (k + ([RParen] + s)))))
  {
  }

  lemma {:induction false} InnermostText(c: Chain)
    requires IsChain(c) && |c.nots| == 1
    ensures Text(c) == [LParen] + (NotText(c.nots[0]) + (CmpText(c.cmps[0]) + [RParen]))
  {
    assert Opens(c.nots[..0]) == [];
    var a, k := NotText(c.nots[0]), CmpText(c.cmps[0]);
    assert ([] + [LParen] + a) + ([] + k + [RParen]) == [LParen] + (a + (k + [RParen]));
  }

  lemma {:induction false} InnermostRegroup(a: seq<Token>, k: seq<Token>, s: seq<Token>)
    ensures [LParen] + (a + (k + [RParen])) + s == [LParen] + (a + (k + ([RParen] + s)))
  {
  }

  lemma {:induction false} InnermostParses(c: Chain, s: seq<Token>)
    requires IsChain(c) && |c.nots| == 1
    ensures ParseTerm(Text(c) + s) == Parsed(Tree(c), s)
  {
    var us := CmpText(c.cmps[0]) + ([RParen] + s);
    TermIsComparison(c.cmps[0], [RParen] + s);
    TermIsNegated(c.nots[0], us, Leaf(c.cmps[0]), [RParen] + s);
    var ts := NotText(c.nots[0]) + us;
    OneTerm(ts, MaybeNot(c.nots[0], Leaf(c.cmps[0])), [RParen] + s);
    TermIsParen(ts, MaybeNot(c.nots[0], Leaf(c.cmps[0])), s);
    InnermostText(c);
    InnermostRegroup(NotText(c.nots[0]), CmpText(c.cmps[0]), s);
  }

  /** The text of a chain is one filter expression, the chain's own tree, with its nesting and its counts. */
  lemma {:induction false} TextParses(c: Chain)
    requires IsChain(c)
    ensures ParseOr(Text(c)) == Parsed(Tree(c), [])
    ensures Depth(Tree(c)) == |c.nots| && Comparisons(Tree(c)) == |c.cmps| && Joins(Tree(c)) == |c.cmps| - 1
  {
    ChainParses(c, []);
    assert Text(c) + [] == Text(c);
    OneTerm(Text(c), Tree(c), []);
    TreeShape(c);
  }
}
