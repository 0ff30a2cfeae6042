/**
  make_tracepoint_filter: two loops that append to one buffer, the first opening the
  levels and the second filling and closing them.  In its careful mode what it appends is
  a well-formed filter.
*/
module FilterGenerator {
  import opened FilterGrammar

  /** A tracepoint: its number, and how many fields can be filtered on. */
  datatype TraceEvent = TraceEvent(id: int, numFilters: nat)

  const NUM_COMPARISONS := 8

  /** i is the first tracepoint with that number. */
  predicate FirstNumbered(events: seq<TraceEvent>, which: int, i: int) {
    0 <= i < |events| && events[i].id == which && forall j :: 0 <= j < i ==> events[j].id != which
  }

  method Rand(n: int) returns (r: int)
    requires n > 0
    ensures 0 <= r < n
  {
    r :| 0 <= r < n;
  }

  class Generator {
    const traceEvents: seq<TraceEvent>
    /** The static buffer, which calls only append to. */
    var filter: seq<Token>

    constructor (traceEvents: seq<TraceEvent>)
      ensures this.traceEvents == traceEvents && filter == []
    {
      this.traceEvents := traceEvents;
      filter := [];
    }

    method FindEvent(which: int) returns (i: int)
      ensures if i == -1 then forall j :: 0 <= j < |traceEvents| ==> traceEvents[j].id != which
              else FirstNumbered(traceEvents, which, i)
    {
      i := 0;
      while i < |traceEvents|
        invariant 0 <= i <= |traceEvents| && forall j :: 0 <= j < i ==> traceEvents[j].id != which
      {
        if traceEvents[i].id == which {
          return;
        }
        i := i + 1;
      }
      i := -1;
    }

    method Append(t: Token)
      modifies this
      ensures filter == old(filter) + [t]
      ensures Strip(filter) == Strip(old(filter)) + if t.Space? then [] else [t]
    {
      StripJoin(filter, [t]);
      StripOne(t);
      filter := filter + [t];
    }

    method PrintWhitespace(maxAmount: nat)
      modifies this
      ensures old(filter) <= filter && Strip(filter) == Strip(old(filter))
    {
      var max := if maxAmount == 0 then 1 else maxAmount;
      var amount := Rand(max);
      var i := 0;
      while i < amount
        invariant 0 <= i <= amount && old(filter) <= filter && Strip(filter) == Strip(old(filter))
      {
        var tab := Rand(2);
        Append(Space(tab == 1));
        i := i + 1;
      }
    }

    method PrintComparison() returns (ghost op: nat)
      modifies this
      ensures op < NUM_COMPARISONS
      ensures old(filter) <= filter && Strip(filter) == Strip(old(filter)) + [Compare(op)]
    {
      var r := Rand(NUM_COMPARISONS);
      Append(Compare(r));
      op := r;
    }

    method PrintBool() returns (ghost op: BoolOp)
      modifies this
      ensures old(filter) <= filter && Strip(filter) == Strip(old(filter)) + [Join(op)]
    {
      var r := Rand(2);
      Append(Join(if r == 0 then AndOp else OrOp));
      op := if r == 0 then AndOp else OrOp;
    }

    method PrintValue(texts: nat) returns (ghost text: nat)
      modifies this
      ensures old(filter) <= filter && Strip(filter) == Strip(old(filter)) + [Value(text)]
    {
      var r := Rand(texts + 1);
      Append(Value(r));
      text := r;
    }

    /** One side of a comparison: a name or a value as asked for when careful, otherwise either of them or nothing. */
    method PrintOperand(field: nat, texts: nat, byName: bool, tryValid: bool) returns (ghost text: nat)
      modifies this
      ensures old(filter) <= filter
      ensures tryValid ==> Strip(filter) == Strip(old(filter)) + [if byName then Name(field) else Value(text)]
    {
      text := 0;
      if tryValid {
        if byName {
          Append(Name(field));
        } else {
          text := PrintValue(texts);
        }
      } else {
        var r := Rand(3);
        if r == 0 {
          Append(Name(field));
        } else if r == 1 {
          text := PrintValue(texts);
        }
      }
    }

    /** One comparison; when not careful, any of its parts may be missing or out of place. */
    method PrintExpression(event: TraceEvent, maxWhitespace: nat, texts: nat, tryValid: bool) returns (ghost c: Comparison)
      modifies this
      ensures old(filter) <= filter
      ensures event.numFilters == 0 ==> filter == old(filter)
      ensures event.numFilters > 0 && tryValid ==> c.field < event.numFilters && Strip(filter) == Strip(old(filter)) + CmpText(c)
    {
      c := Comparison(0, 0, 0);
      if event.numFilters == 0 {
        return;
      }
      ghost var before := Strip(filter);
      var field := Rand(event.numFilters);
      ghost var op, text := 0, 0;
      var _ := PrintOperand(field, texts, true, tryValid);
      PrintWhitespace(maxWhitespace);
      var doComparison := Rand(3);
      if tryValid || doComparison == 1 {
        op := PrintComparison();
      }
      PrintWhitespace(maxWhitespace);
      assert tryValid ==> Strip(filter) == before + [Name(field)] + [Compare(op)];
      text := PrintOperand(field, texts, false, tryValid);
      PrintWhitespace(maxWhitespace);
      c := Comparison(field, op, text);
      assert tryValid ==> Strip(filter) == before + [Name(field)] + [Compare(op)] + [Value(text)];
      ExpressionText(before, c);
    }

    /** A token that the careful mode always writes, and the other one time in three. */
    method Often(t: Token, tryValid: bool)
      requires !t.Space?
      modifies this
      ensures old(filter) <= filter && (tryValid ==> Strip(filter) == Strip(old(filter)) + [t])
    {
      var r := Rand(3);
      if tryValid || r == 1 {
        Append(t);
      }
    }

    /** One level opened, with a negation now and then. */
    method OpenLevel(maxWhitespace: nat, tryValid: bool) returns (ghost b: bool)
      modifies this
      ensures old(filter) <= filter
      ensures tryValid ==> Strip(filter) == Strip(old(filter)) + [LParen] + NotText(b)
    {
      Often(LParen, tryValid);
      PrintWhitespace(maxWhitespace);
      var bang := Rand(5);
      if bang == 1 {
        Append(Bang);
      }
      b := bang == 1;
    }

    /** The first loop. */
    method OpenLevels(levels: nat, maxWhitespace: nat, tryValid: bool) returns (ghost nots: seq<bool>)
      modifies this
      ensures old(filter) <= filter && |nots| == levels
      ensures tryValid ==> Strip(filter) == Strip(old(filter)) + Opens(nots)
    {
      nots := [];
      var l := 0;
      while l < levels
        invariant 0 <= l <= levels && |nots| == l && old(filter) <= filter
        invariant tryValid ==> Strip(filter) == Strip(old(filter)) + Opens(nots)
      {
        ghost var b := OpenLevel(maxWhitespace, tryValid);
        OpensMore(Strip(old(filter)), nots, b);
        nots := nots + [b];
        l := l + 1;
      }
    }

    /** One turn of the second loop: a comparison, its closing, and what joins it to the next. */
    method CloseLevel(event: TraceEvent, maxWhitespace: nat, texts: nat, tryValid: bool, last: bool)
      returns (ghost c: Comparison, ghost op: BoolOp)
      requires event.numFilters > 0
      modifies this
      ensures old(filter) <= filter
      ensures tryValid ==> c.field < event.numFilters
      ensures tryValid ==>
                Strip(filter) == Strip(old(filter)) + (CmpText(c) + [RParen] + if last then [] else [Join(op)])
    {
      op := AndOp;
      c := PrintExpression(event, maxWhitespace, texts, tryValid);
      Often(RParen, tryValid);
      PrintWhitespace(maxWhitespace);
      if !last {
        var r := Rand(3);
        if tryValid || r == 1 {
          op := PrintBool();
        }
      }
      PrintWhitespace(maxWhitespace);
    }

    /** The second loop, when there are levels to close. */
    method CloseLevels(event: TraceEvent, levels: nat, maxWhitespace: nat, texts: nat, tryValid: bool)
      returns (ghost cmps: seq<Comparison>, ghost ops: seq<BoolOp>)
      requires event.numFilters > 0 && levels > 0
      modifies this
      ensures old(filter) <= filter && |cmps| == levels && |ops| == levels - 1
      ensures tryValid ==> FieldsBelow(cmps, event.numFilters) && Strip(filter) == Strip(old(filter)) + Items(cmps, ops)
    {
      ghost var op;
      ghost var c;
      c, op := CloseLevel(event, maxWhitespace, texts, tryValid, levels == 1);
      cmps, ops := [c], [];
      ItemsOne(c);
      assert Items(cmps, ops) + [] == Items(cmps, ops);
      var l := 1;
      while l < levels
        invariant 1 <= l <= levels && |cmps| == l && |ops| == l - 1 && old(filter) <= filter
        invariant tryValid ==> FieldsBelow(cmps, event.numFilters)
        invariant tryValid ==>
                    Strip(filter) == Strip(old(filter)) + (Items(cmps, ops) + if l == levels then [] else [Join(op)])
      {
        ghost var before := op;
        c, op := CloseLevel(event, maxWhitespace, texts, tryValid, l == levels - 1);
        ItemsMore(cmps, ops, before, c, Strip(old(filter)), if l == levels - 1 then [] else [Join(op)]);
        cmps, ops := cmps + [c], ops + [before];
        l := l + 1;
      }
      assert Items(cmps, ops) + [] == Items(cmps, ops);
    }

    /**
      Fails, appending nothing, exactly for a tracepoint that is unknown or has no fields;
      otherwise in careful mode appends a chain of as many levels as roll picks, at most
      maxLevels, which parses to that chain's tree.
     */
    method MakeTracepointFilter(which: int, maxLevels: nat, maxWhitespace: nat, texts: nat, tryValid: bool, roll: nat)
      returns (r: int, ghost c: Chain)
      modifies this
      ensures r == 0 || r == -1
      ensures r == 0 <==> exists i :: FirstNumbered(traceEvents, which, i) && traceEvents[i].numFilters != 0
      ensures r == -1 ==> filter == old(filter)
      ensures old(filter) <= filter
      ensures r == 0 && tryValid ==>
                var text := filter[|old(filter)|..];
                && IsChain(c) && |c.nots| == roll % (maxLevels + 1)
                && (forall i :: FirstNumbered(traceEvents, which, i) ==> FieldsBelow(c.cmps, traceEvents[i].numFilters))
                && Strip(text) == Text(c) && ParsesTo(text, Tree(c))
                && Depth(Tree(c)) == |c.nots| && Comparisons(Tree(c)) == (if c.nots == [] then 1 else |c.nots|)
                && Joins(Tree(c)) == Comparisons(Tree(c)) - 1
    {
      c := Chain([], [], []);
      var i := FindEvent(which);
      if i == -1 {
        return -1, c;
      }
      OnlyFirst(traceEvents, which, i);
      var event := traceEvents[i];
      if event.numFilters == 0 {
        return -1, c;
      }
      r := 0;
      var levels := roll % (maxLevels + 1);
      ghost var nots;
      PrintWhitespace(maxWhitespace);
      nots := OpenLevels(levels, maxWhitespace, tryValid);
      if levels == 0 {
        ghost var one;
        one := PrintExpression(event, maxWhitespace, texts, tryValid);
        c := Chain(nots, [one], []);
      } else {
        ghost var cmps, ops;
        cmps, ops := CloseLevels(event, levels, maxWhitespace, texts, tryValid);
        c := Chain(nots, cmps, ops);
      }
      if tryValid {
        BothLoops(Strip(old(filter)), c);
        ChainAppended(old(filter), filter, c);
      }
    }
  }

  lemma {:induction false} OnlyFirst(events: seq<TraceEvent>, which: int, i: int)
    requires FirstNumbered(events, which, i)
    ensures forall j :: FirstNumbered(events, which, j) <==> j == i
  {
  }

  ghost predicate FieldsBelow(cmps: seq<Comparison>, n: nat) { forall i :: 0 <= i < |cmps| ==> cmps[i].field < n }

  lemma {:induction false} ExpressionText(before: seq<Token>, c: Comparison)
    ensures before + [Name(c.field)] + [Compare(c.op)] + [Value(c.text)] == before + CmpText(c)
  {
  }

  lemma {:induction false} ItemsOne(c: Comparison)
    ensures Items([c], []) == CmpText(c) + [RParen]
  {
  }

  lemma {:induction false} ItemsMore(cmps: seq<Comparison>, ops: seq<BoolOp>, op: BoolOp, c: Comparison,
                                     before: seq<Token>, tail: seq<Token>)
    requires |cmps| > 0 && |ops| == |cmps| - 1
    ensures before + (Items(cmps, ops) + [Join(op)]) + (CmpText(c) + [RParen] + tail)
            == before + (Items(cmps + [c], ops + [op]) + tail)
  {
  }

  lemma {:induction false} OpensMore(before: seq<Token>, nots: seq<bool>, b: bool)
    ensures before + Opens(nots) + [LParen] + NotText(b) == before + Opens(nots + [b])
  {
    assert (nots + [b])[..|nots|] == nots;
  }

  /** What the two loops have written is the text of the chain. */
  lemma {:induction false} BothLoops(before: seq<Token>, c: Chain)
    requires IsChain(c)
    ensures c.nots == [] ==> before + Opens(c.nots) + CmpText(c.cmps[0]) == before + Text(c)
    ensures c.nots != [] ==> before + Opens(c.nots) + Items(c.cmps, c.ops) == before + Text(c)
  {
  }

  /** All that is promised of a chain's text follows from its having been appended. */
  lemma {:induction false} ChainAppended(before: seq<Token>, after: seq<Token>, c: Chain)
    requires IsChain(c) && before <= after && Strip(after) == Strip(before) + Text(c)
    ensures var text := after[|before|..];
            && Strip(text) == Text(c) && ParsesTo(text, Tree(c))
            && Depth(Tree(c)) == |c.nots| && Comparisons(Tree(c)) == (if c.nots == [] then 1 else |c.nots|)
            && Joins(Tree(c)) == Comparisons(Tree(c)) - 1
  {
    Appended(before, after, Text(c));
    TextParses(c);
  }

  /** What was appended, from the texts before and after. */
  lemma {:induction false} Appended(before: seq<Token>, after: seq<Token>, text: seq<Token>)
    requires before <= after && Strip(after) == Strip(before) + text
    ensures Strip(after[|before|..]) == text
  {
    assert before + after[|before|..] == after;
    StripJoin(before, after[|before|..]);
    assert (Strip(before) + text)[|Strip(before)|..] == text;
    assert (Strip(before) + Strip(after[|before|..]))[|Strip(before)|..] == Strip(after[|before|..]);
  }
}
