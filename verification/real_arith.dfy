/** Exact real arithmetic used by the bond calculator: integer powers and
    left-to-right sums, with the facts about them the analytics rely on. */
module RealArith {

  /** b raised to the natural power n, by repeated multiplication. */
  function Pow(b: real, n: nat): (r: real)
    ensures b != 0.0 ==> r != 0.0
    ensures b > 0.0 ==> r > 0.0
    ensures b >= 1.0 ==> r >= 1.0
  {
    if n == 0 then 1.0 else b * Pow(b, n - 1)
  }

  /** A larger positive base gives a strictly larger positive power. */
  lemma {:induction false} PowStrictlyIncreasing(a: real, b: real, n: nat)
    requires 0.0 < a < b
    requires n >= 1
    ensures Pow(a, n) < Pow(b, n)
  {
    if n == 1 {
      assert Pow(a, 0) == 1.0 && Pow(b, 0) == 1.0;
    } else {
      PowStrictlyIncreasing(a, b, n - 1);
      ProductStrictlyIncreasing(a, Pow(a, n - 1), b, Pow(b, n - 1));
    }
  }

  /** Products of positive factors grow strictly with either factor. */
  lemma ProductStrictlyIncreasing(x: real, y: real, u: real, v: real)
    requires 0.0 < x < u && 0.0 < y <= v
    ensures x * y < u * v
  {
    assert x * y < u * y;
    assert u * y <= u * v;
  }

  /** The sum of a sequence, accumulated from the left as a running total. */
  function Sum(xs: seq<real>): real {
    if |xs| == 0 then 0.0 else Sum(xs[..|xs| - 1]) + xs[|xs| - 1]
  }

  /** Non-negative entries have a non-negative sum; if the last entry is
      moreover positive, the sum is positive. */
  lemma {:induction false} SumNonNegative(xs: seq<real>)
    requires forall k :: 0 <= k < |xs| ==> xs[k] >= 0.0
    ensures Sum(xs) >= 0.0
    ensures |xs| >= 1 && xs[|xs| - 1] > 0.0 ==> Sum(xs) > 0.0
  {
    if |xs| > 0 {
      SumNonNegative(xs[..|xs| - 1]);
    }
  }

  /** A sequence of zeros sums to zero. */
  lemma {:induction false} SumOfZeros(xs: seq<real>)
    requires forall k :: 0 <= k < |xs| ==> xs[k] == 0.0
    ensures Sum(xs) == 0.0
  {
    if |xs| > 0 {
      SumOfZeros(xs[..|xs| - 1]);
    }
  }

  /** When every entry but the last is zero, the sum is the last entry. */
  lemma SumOfLastOnly(xs: seq<real>)
    requires |xs| >= 1
    requires forall k :: 0 <= k < |xs| - 1 ==> xs[k] == 0.0
    ensures Sum(xs) == xs[|xs| - 1]
  {
    SumOfZeros(xs[..|xs| - 1]);
  }

  /** Entry-wise at most gives a sum at most. */
  lemma {:induction false} SumMonotone(xs: seq<real>, ys: seq<real>)
    requires |ys| == |xs|
    requires forall k :: 0 <= k < |xs| ==> xs[k] <= ys[k]
    ensures Sum(xs) <= Sum(ys)
  {
    if |xs| > 0 {
      var m := |xs| - 1;
      SumMonotone(xs[..m], ys[..m]);
    }
  }

  /** Entry-wise at most c times xs gives a sum at most c times the sum of xs. */
  lemma {:induction false} SumBoundedByScaled(xs: seq<real>, ys: seq<real>, c: real)
    requires |ys| == |xs|
    requires forall k :: 0 <= k < |xs| ==> ys[k] <= c * xs[k]
    ensures Sum(ys) <= c * Sum(xs)
  {
    if |xs| > 0 {
      var m := |xs| - 1;
      SumBoundedByScaled(xs[..m], ys[..m], c);
      assert c * Sum(xs) == c * Sum(xs[..m]) + c * xs[m];
    }
  }

  /** Entry-wise at most, and strictly less at the last entry, gives a strictly smaller sum. */
  lemma SumStrictlyMonotone(xs: seq<real>, ys: seq<real>)
    requires |ys| == |xs| >= 1
    requires forall k :: 0 <= k < |xs| ==> xs[k] <= ys[k]
    requires xs[|xs| - 1] < ys[|xs| - 1]
    ensures Sum(xs) < Sum(ys)
  {
    var m := |xs| - 1;
    SumMonotone(xs[..m], ys[..m]);
  }

  /** A non-zero common factor can be cancelled from both sides. */
  lemma CancelFactor(x: real, y: real, c: real)
    requires c != 0.0
    requires x * c == y * c
    ensures x == y
  {
    assert (x - y) * c == 0.0;
  }

  /** The reciprocal of a larger positive number is smaller. */
  lemma ReciprocalDecreasing(x: real, y: real)
    requires 0.0 < x < y
    ensures 0.0 < 1.0 / y < 1.0 / x
  {
  }

  /** A positive quantity shrinks when divided by a factor above one. */
  lemma QuotientBelow(q: real, d: real, x: real)
    requires d > 1.0 && x > 0.0
    requires q * d == x
    ensures 0.0 < q < x
  {
    assert q > 0.0;
    ProductAboveFactor(q, d);
  }

  /** Multiplying a positive number by a factor above one makes it larger. */
  lemma ProductAboveFactor(q: real, d: real)
    requires q > 0.0 && d > 1.0
    ensures q * d > q
  {
    assert q * (d - 1.0) > 0.0;
  }

  /** The algebra of one annuity step: with base * dm == dp, adding the
      discounted coupon face * (base - 1) * dm to face - face * dp leaves
      face - face * dm. */
  lemma AnnuityStep(face: real, coupon: real, base: real, dm: real, dp: real)
    requires coupon == face * (base - 1.0)
    requires base * dm == dp
    ensures face - face * dp + coupon * dm == face - face * dm
  {
    assert coupon * dm == face * (base * dm) - face * dm;
  }

  /** The algebra of the last period of a par bond: with base * dn == dp,
      the final coupon plus principal discounted by dn restores the face
      value that discounting by dp took away. */
  lemma RedemptionStep(face: real, coupon: real, base: real, dn: real, dp: real)
    requires coupon == face * (base - 1.0)
    requires base * dn == dp
    ensures face - face * dp + (coupon + face) * dn == face
  {
    assert (coupon + face) * dn == face * (base * dn);
  }

  /** A quantity that times a positive factor gives a positive result is positive. */
  lemma PositiveFactor(x: real, c: real, y: real)
    requires c > 0.0 && y > 0.0 && x * c == y
    ensures x > 0.0
  {
  }

  /** A quantity that times a positive factor gives a non-negative result is non-negative. */
  lemma NonNegativeFactor(x: real, c: real, y: real)
    requires c > 0.0 && y >= 0.0 && x * c == y
    ensures x >= 0.0
  {
  }

  /** If x * c is at most z * c for a positive c, then x is at most z. */
  lemma FactorBound(x: real, z: real, c: real)
    requires c > 0.0 && x * c <= z * c
    ensures x <= z
  {
  }

  /** A duration d with d * f * p == w, where the weighted sum w is n * p
      and n is t * f periods, is t: a single payment's duration is its time. */
  lemma SingleCashflowDuration(d: real, f: real, p: real, w: real, n: real, t: real)
    requires f != 0.0 && p != 0.0
    requires d * f * p == w && w == n * p && n == t * f
    ensures d == t
  {
    CancelFactor(d * f, t * f, p);
    CancelFactor(d, t, f);
  }

  /** Converting an integer product to a real multiplies the converted factors. */
  lemma IntProductAsReal(x: int, y: int)
    ensures (x * y) as real == x as real * y as real
  {
  }

  /** Multiplying back by a non-zero divisor restores the dividend. */
  lemma DivisionCancels(x: real, d: real)
    requires d != 0.0
    ensures x / d * d == x
  {
  }

  /** Dividing by p and then by f is undone by multiplying by f and then by p. */
  lemma DivisionCancelsTwice(x: real, p: real, f: real)
    requires p != 0.0 && f != 0.0
    ensures x / p / f * f * p == x
  {
    DivisionCancels(x / p, f);
    DivisionCancels(x, p);
  }

  /** A product of non-zero reals is non-zero. */
  lemma NonZeroProduct(x: real, y: real)
    requires x != 0.0 && y != 0.0
    ensures x * y != 0.0
  {
  }
}
