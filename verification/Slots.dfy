/**
  Searching a table of slots: the first slot that qualifies, the number that do, and the
  pick of the x-th of them.
*/
module Slots {

  /** The number of slots that qualify. */
  function Count(flags: seq<bool>): (n: nat)
    ensures n <= |flags|
  {
    if flags == [] then 0 else Count(flags[..|flags| - 1]) + if flags[|flags| - 1] then 1 else 0
  }

  /** The qualifying slots before slot i. */
  function Rank(flags: seq<bool>, i: nat): nat
    requires i <= |flags|
  {
    Count(flags[..i])
  }

  /** i is the answer of a search for the first qualifying slot, -1 for none. */
  ghost predicate IsFirst(flags: seq<bool>, i: int) {
    if i == -1 then forall j :: 0 <= j < |flags| ==> !flags[j]
    else 0 <= i < |flags| && flags[i] && forall j :: 0 <= j < i ==> !flags[j]
  }

  /** i is the answer of a search for the qualifying slot with x others before it, -1 for none. */
  ghost predicate Picks(flags: seq<bool>, x: nat, i: int) {
    if i == -1 then x >= Count(flags)
    else 0 <= i < |flags| && flags[i] && Rank(flags, i) == x
  }

  function FirstFrom(flags: seq<bool>, i: nat): (r: int)
    requires i <= |flags|
    ensures if r == -1 then forall j :: i <= j < |flags| ==> !flags[j]
            else i <= r < |flags| && flags[r] && forall j :: i <= j < r ==> !flags[j]
    decreases |flags| - i
  {
    if i == |flags| then -1 else if flags[i] then i else FirstFrom(flags, i + 1)
  }

  /** The first qualifying slot, -1 for none. */
  function First(flags: seq<bool>): (r: int)
    ensures IsFirst(flags, r)
  {
    FirstFrom(flags, 0)
  }

  lemma {:induction false} FirstIs(flags: seq<bool>, i: int)
    requires IsFirst(flags, i)
    ensures First(flags) == i
  {
  }

  lemma {:induction false} RankStep(flags: seq<bool>, i: nat)
    requires i < |flags|
    ensures Rank(flags, i + 1) == Rank(flags, i) + if flags[i] then 1 else 0
  {
    assert flags[..i + 1][..i] == flags[..i];
  }

  lemma {:induction false} RankGrows(flags: seq<bool>, i: nat, j: nat)
    requires i <= j <= |flags|
    ensures Rank(flags, i) <= Rank(flags, j)
    ensures i < j && flags[i] ==> Rank(flags, i) < Rank(flags, j)
    decreases j - i
  {
    if i < j {
      RankStep(flags, i);
      RankGrows(flags, i + 1, j);
    }
  }

  lemma {:induction false} RankEnd(flags: seq<bool>)
    ensures Rank(flags, |flags|) == Count(flags)
  {
    assert flags[..|flags|] == flags;
  }

  /** An x picks at most one slot, and different x pick different slots. */
  lemma {:induction false} PickIsOneToOne(flags: seq<bool>, x: nat, y: nat, i: int, j: int)
    requires Picks(flags, x, i) && Picks(flags, y, j)
    ensures x == y ==> i == j
    ensures x != y && i != -1 ==> i != j
  {
    RankEnd(flags);
    if i != -1 { RankGrows(flags, i, |flags|); }
    if j != -1 { RankGrows(flags, j, |flags|); }
    if 0 <= i < j { RankGrows(flags, i, j); }
    if 0 <= j < i { RankGrows(flags, j, i); }
  }

  /** Every x below the count picks some slot. */
  lemma {:induction false} PickExists(flags: seq<bool>, x: nat) returns (i: int)
    ensures Picks(flags, x, i) && (i == -1 <==> x >= Count(flags))
  {
    RankEnd(flags);
    if x >= Count(flags) {
      i := -1;
    } else {
      i := 0;
      while Rank(flags, i + 1) <= x
        invariant 0 <= i < |flags| && Rank(flags, i) <= x < Count(flags)
        decreases |flags| - i
      {
        i := i + 1;
      }
      RankStep(flags, i);
    }
  }

  /** Every qualifying slot is picked by the one x that is its rank. */
  lemma {:induction false} EverySlotIsPicked(flags: seq<bool>, i: int)
    requires 0 <= i < |flags| && flags[i]
    ensures Rank(flags, i) < Count(flags) && Picks(flags, Rank(flags, i), i)
  {
    RankEnd(flags);
    RankGrows(flags, i, |flags|);
  }

  lemma {:induction false} CountStep(flags: seq<bool>, i: nat, b: bool)
    requires i < |flags|
    ensures Count(flags[i := b]) + (if flags[i] then 1 else 0) == Count(flags) + (if b then 1 else 0)
    decreases |flags|
  {
    var n := |flags| - 1;
    var updated := flags[i := b];
    if i == n {
      assert updated[..n] == flags[..n];
    } else {
      CountStep(flags[..n], i, b);
      assert updated[..n] == flags[..n][i := b];
    }
  }

  lemma {:induction false} CountNone(flags: seq<bool>)
    requires forall i :: 0 <= i < |flags| ==> !flags[i]
    ensures Count(flags) == 0
    decreases |flags|
  {
    if flags != [] { CountNone(flags[..|flags| - 1]); }
  }
}
