/**
 Reductions of a vector of signed integers to one scalar, in the order the
 metric loops visit the vector (first entry first). Every reduction is
 defined on the prefix read so far, so that "after k iterations the
 accumulator holds the reduction of the first k entries" is a loop
 invariant that can be written down directly.
 */
module Reductions {

  /** Absolute value, as java.lang.Math.abs on a value that is not a NaN. */
  function Abs(x: int): (r: int)
    ensures r >= 0
    ensures r == x || r == -x
  {
    if x < 0 then -x else x
  }

  /** x raised to the n-th power, by repeated multiplication. */
  function Pow(x: int, n: nat): int
  {
    if n == 0 then 1 else x * Pow(x, n - 1)
  }

  /** The vector with every entry negated. */
  function Negated(s: seq<int>): (r: seq<int>)
    ensures |r| == |s|
    ensures forall i | 0 <= i < |s| :: r[i] == -s[i]
  {
    seq(|s|, i requires 0 <= i < |s| => -s[i])
  }

  /**
   The signed maximum: an accumulator that starts at 0 and is replaced by
   every entry that is strictly greater than it. Negative entries are thus
   never reported, and an all-non-positive vector reduces to 0.
   */
  function SignedMax(s: seq<int>): (r: int)
    ensures r >= 0
    ensures forall i | 0 <= i < |s| :: s[i] <= r
    ensures r == 0 || exists i | 0 <= i < |s| :: s[i] == r
  {
    if |s| == 0 then 0
    else
      var m := SignedMax(s[..|s| - 1]);
      if s[|s| - 1] > m then s[|s| - 1] else m
  }

  /** The sum of the n-th powers of the entries, accumulated first entry first. */
  function PowerSum(s: seq<int>, n: nat): int
  {
    if |s| == 0 then 0 else PowerSum(s[..|s| - 1], n) + Pow(s[|s| - 1], n)
  }

  /** The powers the metric loops write out as repeated products. */
  lemma PowSmall(x: int)
    ensures Pow(x, 1) == x
    ensures Pow(x, 2) == x * x
    ensures Pow(x, 3) == x * x * x
    ensures Pow(x, 4) == x * x * x * x
  {
    assert Pow(x, 1) == x * Pow(x, 0) == x;
    assert Pow(x, 2) == x * Pow(x, 1) == x * x;
    assert Pow(x, 3) == x * Pow(x, 2) == x * x * x;
    assert Pow(x, 4) == x * Pow(x, 3) == x * x * x * x;
  }

  /** Negating the base keeps an even power and negates an odd one. */
  lemma {:induction false} PowNegated(x: int, n: nat)
    ensures Pow(-x, n) == if n % 2 == 0 then Pow(x, n) else -Pow(x, n)
  {
    if n > 0 {
      PowNegated(x, n - 1);
      assert Pow(-x, n) == -x * Pow(-x, n - 1);
    }
  }

  /** An even power is never negative. */
  lemma {:induction false} PowEvenNonNegative(x: int, n: nat)
    requires n % 2 == 0
    ensures Pow(x, n) >= 0
  {
    if n > 0 {
      PowEvenNonNegative(x, n - 2);
      assert Pow(x, n) == x * (x * Pow(x, n - 2));
      assert Pow(x, n) == (x * x) * Pow(x, n - 2);
      MulNonNegative(x * x, Pow(x, n - 2));
    }
  }

  /** A positive power vanishes exactly at 0. */
  lemma {:induction false} PowZeroIff(x: int, n: nat)
    requires n > 0
    ensures Pow(x, n) == 0 <==> x == 0
  {
    if n > 1 {
      PowZeroIff(x, n - 1);
      if x != 0 {
        MulNonZero(x, Pow(x, n - 1));
      }
    }
  }

  /** A power of x is bounded in size by the same power of any bound on |x|. */
  lemma {:induction false} PowAbsBound(x: int, b: int, n: nat)
    requires Abs(x) <= b
    ensures Abs(Pow(x, n)) <= Pow(b, n)
  {
    if n > 0 {
      PowAbsBound(x, b, n - 1);
      AbsMul(x, Pow(x, n - 1));
      MulMonotone(Abs(x), b, Abs(Pow(x, n - 1)), Pow(b, n - 1));
    }
  }

  lemma MulNonNegative(a: int, b: int)
    requires a >= 0 && b >= 0
    ensures a * b >= 0
  {
  }

  lemma MulNonZero(a: int, b: int)
    requires a != 0 && b != 0
    ensures a * b != 0
  {
  }

  lemma AbsMul(a: int, b: int)
    ensures Abs(a * b) == Abs(a) * Abs(b)
  {
    if a < 0 && b < 0 {
      assert a * b == (-a) * (-b);
    } else if a < 0 {
      assert -(a * b) == (-a) * b;
    } else if b < 0 {
      assert -(a * b) == a * (-b);
    }
  }

  lemma MulMonotone(a: int, b: int, c: int, d: int)
    requires 0 <= a <= b && 0 <= c <= d
    ensures a * c <= b * d
  {
    assert a * c <= b * c;
    assert b * c <= b * d;
  }

  /** On a vector of three entries the accumulation is the three-term sum. */
  lemma PowerSumOfThree(s: seq<int>, n: nat)
    requires |s| == 3
    ensures PowerSum(s, n) == Pow(s[0], n) + Pow(s[1], n) + Pow(s[2], n)
  {
    assert s[..3] == s;
    assert s[..2][..1] == s[..1];
    assert s[..1][..0] == [];
    assert PowerSum(s[..1], n) == Pow(s[0], n);
    assert PowerSum(s[..2], n) == Pow(s[0], n) + Pow(s[1], n);
  }

  /** Negating the vector keeps an even power sum and negates an odd one. */
  lemma {:induction false} PowerSumNegated(s: seq<int>, n: nat)
    ensures PowerSum(Negated(s), n) == if n % 2 == 0 then PowerSum(s, n) else -PowerSum(s, n)
  {
    if |s| > 0 {
      var t := s[..|s| - 1];
      assert Negated(s)[..|s| - 1] == Negated(t);
      PowerSumNegated(t, n);
      PowNegated(s[|s| - 1], n);
    }
  }

  /** An even power sum is never negative. */
  lemma {:induction false} PowerSumEvenNonNegative(s: seq<int>, n: nat)
    requires n % 2 == 0
    ensures PowerSum(s, n) >= 0
  {
    if |s| > 0 {
      PowerSumEvenNonNegative(s[..|s| - 1], n);
      PowEvenNonNegative(s[|s| - 1], n);
    }
  }

  /** A positive even power sum vanishes exactly when every entry is 0. */
  lemma {:induction false} PowerSumEvenZeroIff(s: seq<int>, n: nat)
    requires n % 2 == 0 && n > 0
    ensures PowerSum(s, n) == 0 <==> forall i | 0 <= i < |s| :: s[i] == 0
  {
    if |s| > 0 {
      var t := s[..|s| - 1];
      PowerSumEvenZeroIff(t, n);
      PowerSumEvenNonNegative(t, n);
      PowEvenNonNegative(s[|s| - 1], n);
      PowZeroIff(s[|s| - 1], n);
      if PowerSum(s, n) == 0 {
        forall i | 0 <= i < |s| ensures s[i] == 0 {
          if i < |s| - 1 {
            assert t[i] == s[i];
          }
        }
      }
    }
  }

  /** Every entry bounded by b in size bounds the power sum by |s| * b^n. */
  lemma {:induction false} PowerSumAbsBound(s: seq<int>, n: nat, b: int)
    requires forall i | 0 <= i < |s| :: Abs(s[i]) <= b
    ensures Abs(PowerSum(s, n)) <= |s| * Pow(b, n)
  {
    if |s| > 0 {
      var t, last := s[..|s| - 1], s[|s| - 1];
      assert forall i | 0 <= i < |t| :: t[i] == s[i];
      PowerSumAbsBound(t, n, b);
      PowAbsBound(last, b, n);
      assert PowerSum(s, n) == PowerSum(t, n) + Pow(last, n);
      MulSucc(|t|, Pow(b, n));
    }
  }

  lemma MulSucc(k: int, p: int)
    ensures (k + 1) * p == k * p + p
  {
  }
}
