/**
  Bitwise operations of C on non-negative integers, written as recursions on the
  binary representation, with the bit-by-bit laws that the mask printers, the
  flag tests and the register masks rest on.
*/
module Bits {

  function Pow2(k: nat): (r: nat)
    ensures r >= 1
  {
    if k == 0 then 1 else 2 * Pow2(k - 1)
  }

  /** Bit k of x: what C's `x & (1 << k)` tests. */
  predicate Test(x: nat, k: nat) {
    if k == 0 then x % 2 == 1 else Test(x / 2, k - 1)
  }

  /** a | b */
  function Or(a: nat, b: nat): nat {
    if a == 0 then b else 2 * Or(a / 2, b / 2) + (if a % 2 == 1 || b % 2 == 1 then 1 else 0)
  }

  /** a & b */
  function And(a: nat, b: nat): nat {
    if a == 0 then 0 else 2 * And(a / 2, b / 2) + (if a % 2 == 1 && b % 2 == 1 then 1 else 0)
  }

  /** a & ~b */
  function AndNot(a: nat, b: nat): nat {
    if a == 0 then 0 else 2 * AndNot(a / 2, b / 2) + (if a % 2 == 1 && b % 2 == 0 then 1 else 0)
  }

  lemma {:induction false} TestZero(k: nat)
    ensures !Test(0, k)
  {
    if k > 0 { TestZero(k - 1); }
  }

  lemma {:induction false} TestPow2(i: nat, k: nat)
    ensures Test(Pow2(i), k) <==> i == k
  {
    if i == 0 {
      if k > 0 { TestZero(k - 1); }
    } else if k > 0 {
      TestPow2(i - 1, k - 1);
    }
  }

  lemma {:induction false} TestOr(a: nat, b: nat, k: nat)
    ensures Test(Or(a, b), k) <==> Test(a, k) || Test(b, k)
  {
    if a == 0 {
      TestZero(k);
    } else if k > 0 {
      TestOr(a / 2, b / 2, k - 1);
      assert Or(a, b) / 2 == Or(a / 2, b / 2);
    }
  }

  lemma {:induction false} TestAnd(a: nat, b: nat, k: nat)
    ensures Test(And(a, b), k) <==> Test(a, k) && Test(b, k)
  {
    if a == 0 {
      TestZero(k);
    } else if k > 0 {
      TestAnd(a / 2, b / 2, k - 1);
      assert And(a, b) / 2 == And(a / 2, b / 2);
    }
  }

  lemma {:induction false} TestAndNot(a: nat, b: nat, k: nat)
    ensures Test(AndNot(a, b), k) <==> Test(a, k) && !Test(b, k)
  {
    if a == 0 {
      TestZero(k);
    } else if k > 0 {
      TestAndNot(a / 2, b / 2, k - 1);
      assert AndNot(a, b) / 2 == AndNot(a / 2, b / 2);
    }
  }

  /** Two numbers with the same bits are equal. */
  lemma {:induction false} SameBits(a: nat, b: nat)
    requires forall k: nat :: Test(a, k) <==> Test(b, k)
    ensures a == b
    decreases a + b
  {
    if a + b > 0 {
      assert Test(a, 0) <==> Test(b, 0);
      forall k: nat
        ensures Test(a / 2, k) <==> Test(b / 2, k)
      {
        assert Test(a, k + 1) <==> Test(b, k + 1);
      }
      SameBits(a / 2, b / 2);
    }
  }

  /** A number is non-zero exactly when it has a set bit; the bit is returned. */
  lemma {:induction false} SomeBit(a: nat) returns (k: nat)
    requires a > 0
    ensures Test(a, k)
  {
    if a % 2 == 1 {
      k := 0;
    } else {
      var j := SomeBit(a / 2);
      k := j + 1;
    }
  }

  lemma {:induction false} TestMask(x: nat, k: nat)
    ensures And(x, Pow2(k)) != 0 <==> Test(x, k)
  {
    if And(x, Pow2(k)) != 0 {
      var j := SomeBit(And(x, Pow2(k)));
      TestAnd(x, Pow2(k), j);
      TestPow2(k, j);
    } else {
      TestAnd(x, Pow2(k), k);
      TestPow2(k, k);
      TestZero(k);
    }
  }

  lemma {:induction false} OrZero(a: nat)
    ensures Or(a, 0) == a
  {
    forall k: nat
      ensures Test(Or(a, 0), k) <==> Test(a, k)
    {
      TestOr(a, 0, k);
      TestZero(k);
    }
    SameBits(Or(a, 0), a);
  }

  lemma {:induction false} AndNotZero(a: nat)
    ensures AndNot(a, 0) == a
  {
    forall k: nat
      ensures Test(AndNot(a, 0), k) <==> Test(a, k)
    {
      TestAndNot(a, 0, k);
      TestZero(k);
    }
    SameBits(AndNot(a, 0), a);
  }

  /** a | (b << k) is an addition when a has no bit at k or above. */
  lemma {:induction false} OrShifted(a: nat, b: nat, k: nat)
    requires a < Pow2(k)
    ensures Or(a, b * Pow2(k)) == a + b * Pow2(k)
  {
    if k > 0 && a > 0 {
      OrShifted(a / 2, b, k - 1);
      Doubled(b, Pow2(k - 1));
    }
  }

  lemma {:induction false} Doubled(b: nat, p: nat)
    ensures b * (2 * p) == 2 * (b * p)
  {
  }

  lemma {:induction false} OrBelow(a: nat, b: nat, k: nat)
    requires a < Pow2(k) && b < Pow2(k)
    ensures Or(a, b) < Pow2(k)
  {
    if a > 0 && k > 0 { OrBelow(a / 2, b / 2, k - 1); }
  }

  lemma {:induction false} AndNotBelow(a: nat, b: nat)
    ensures AndNot(a, b) <= a
  {
    if a > 0 { AndNotBelow(a / 2, b / 2); }
  }

  /** The number of set bits among the lowest n: the weight of a mask. */
  function Weight(x: nat, n: nat): (r: nat)
    ensures r <= n
  {
    if n == 0 then 0 else Weight(x, n - 1) + (if Test(x, n - 1) then 1 else 0)
  }

  function BitsBelow(x: nat, n: nat): set<nat> { set k: nat | k < n && Test(x, k) }

  /** The weight is how many of those bits are set. */
  lemma {:induction false} WeightCounts(x: nat, n: nat)
    ensures Weight(x, n) == |BitsBelow(x, n)|
  {
    if n > 0 {
      WeightCounts(x, n - 1);
      assert BitsBelow(x, n) == if Test(x, n - 1) then BitsBelow(x, n - 1) + {n - 1} else BitsBelow(x, n - 1);
    }
  }

  lemma {:induction false} TestIsQuotient(x: nat, k: nat)
    ensures Test(x, k) <==> x / Pow2(k) % 2 == 1
    decreases k
  {
    if k > 0 {
      TestIsQuotient(x / 2, k - 1);
      QuotientOfHalf(x, Pow2(k - 1));
    }
  }

  lemma {:induction false} QuotientOfHalf(x: nat, p: nat)
    requires p > 0
    ensures x / 2 / p == x / (2 * p)
  {
    var q := x / (2 * p);
    assert 2 * p * q <= x < 2 * p * (q + 1);
    assert p * q <= x / 2 < p * (q + 1);
    QuotientIs(x / 2, p, q);
  }

  lemma {:induction false} QuotientIs(x: nat, p: nat, q: nat)
    requires p > 0 && p * q <= x < p * (q + 1)
    ensures x / p == q
  {
    var d: int := x / p - q;
    assert d * p == x - p * q - x % p;
    AtLeastOnce(d, p);
  }

  lemma {:induction false} AtLeastOnce(d: int, p: nat)
    ensures d >= 1 ==> d * p >= p
    ensures d <= -1 ==> d * p + p <= 0
  {
  }

  lemma {:induction false} LowBits(x: nat)
    ensures Test(x, 0) <==> x % 2 == 1
    ensures Test(x, 1) <==> x / 2 % 2 == 1
    ensures Test(x, 2) <==> x / 4 % 2 == 1
    ensures Test(x, 3) <==> x / 8 % 2 == 1
    ensures Test(x, 4) <==> x / 16 % 2 == 1
  {
    TestIsQuotient(x, 1);
    TestIsQuotient(x, 2);
    TestIsQuotient(x, 3);
    TestIsQuotient(x, 4);
    assert Pow2(1) == 2 && Pow2(2) == 4 && Pow2(3) == 8 && Pow2(4) == 16;
  }
}
