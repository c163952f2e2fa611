/** What the bond calculator promises about its schedule and its metrics,
    proved over exact reals. */
module BondProperties {
  import opened RealArith
  import opened DurationConvexity

  /** One more period of discounting is one more division by 1 + rate. */
  lemma DiscountStep(base: real, m: nat)
    requires base != 0.0 && m >= 1
    ensures base * DiscountFactor(base, m) == DiscountFactor(base, m - 1)
  {
    var p := Pow(base, m - 1);
    assert Pow(base, m) == base * p;
    assert DiscountFactor(base, m) * (base * p) == 1.0;
    assert (base * DiscountFactor(base, m)) * p == 1.0;
    assert DiscountFactor(base, m - 1) * p == 1.0;
    CancelFactor(base * DiscountFactor(base, m), DiscountFactor(base, m - 1), p);
  }

  /** The PVs of m coupons, discounted one to m periods at base. */
  function CouponColumn(coupon: real, base: real, m: nat): (xs: seq<real>)
    requires base != 0.0
    ensures |xs| == m
    ensures forall k :: 0 <= k < m ==> xs[k] == coupon * DiscountFactor(base, k + 1)
  {
    seq(m, k requires 0 <= k < m => coupon * DiscountFactor(base, k + 1))
  }

  /** The PV column of a bullet schedule of n periods: the coupon column
      over the first n - 1 periods, then coupon plus principal discounted n
      periods. */
  lemma BulletPVs(coupon: real, face: real, base: real, n: nat)
    requires base != 0.0 && n >= 1
    ensures var pvs := PVs(Schedule(Cashflows(coupon, face, n), base));
            && pvs[..n - 1] == CouponColumn(coupon, base, n - 1)
            && pvs[n - 1] == (coupon + face) * DiscountFactor(base, n)
  {
    var pvs := PVs(Schedule(Cashflows(coupon, face, n), base));
    var coupons := CouponColumn(coupon, base, n - 1);
    assert forall k :: 0 <= k < n - 1 ==> pvs[..n - 1][k] == coupons[k];
  }

  /** The price of a bullet schedule of n periods is its coupon stream over
      the first n - 1 periods plus the discounted last payment. */
  lemma BulletPrice(coupon: real, face: real, base: real, n: nat)
    requires base != 0.0 && n >= 1
    ensures Sum(PVs(Schedule(Cashflows(coupon, face, n), base)))
            == Sum(CouponColumn(coupon, base, n - 1)) + (coupon + face) * DiscountFactor(base, n)
  {
    var pvs := PVs(Schedule(Cashflows(coupon, face, n), base));
    BulletPVs(coupon, face, base, n);
    assert Sum(pvs) == Sum(pvs[..n - 1]) + pvs[n - 1];
  }

  /** Coupons of a * (base - 1) per period, discounted at base, are worth a
      less the discounted a: the annuity (geometric sum) identity behind
      the closed-form and par bond prices. */
  lemma {:induction false} CouponAnnuity(a: real, coupon: real, base: real, m: nat)
    requires base != 0.0 && coupon == a * (base - 1.0)
    ensures Sum(CouponColumn(coupon, base, m)) == a - a * DiscountFactor(base, m)
  {
    var xs := CouponColumn(coupon, base, m);
    if m == 0 {
      assert DiscountFactor(base, 0) == 1.0;
    } else {
      assert xs[..m - 1] == CouponColumn(coupon, base, m - 1);
      CouponAnnuity(a, coupon, base, m - 1);
      DiscountStep(base, m);
      AnnuityStep(a, coupon, base, DiscountFactor(base, m), DiscountFactor(base, m - 1));
    }
  }

  /** A bullet schedule of n periods whose coupon is a * (base - 1), in
      closed form: the coupons are worth a - a * base^-(n-1) and the last
      payment adds coupon plus face discounted n periods. */
  lemma ClosedFormBulletPrice(a: real, coupon: real, face: real, base: real, n: nat)
    requires base != 0.0 && coupon == a * (base - 1.0) && n >= 1
    ensures Sum(PVs(Schedule(Cashflows(coupon, face, n), base)))
            == a - a * DiscountFactor(base, n - 1) + (coupon + face) * DiscountFactor(base, n)
  {
    BulletPrice(coupon, face, base, n);
    CouponAnnuity(a, coupon, base, n - 1);
  }

  /** The last period of a par bond: when the coupons before it are worth
      face less the face discounted n - 1 periods, adding coupon plus face
      discounted once more gives exactly face. */
  lemma ParRedemption(face: real, coupon: real, base: real, n: nat)
    requires base != 0.0 && coupon == face * (base - 1.0) && n >= 1
    ensures face - face * DiscountFactor(base, n - 1) + (coupon + face) * DiscountFactor(base, n) == face
  {
    DiscountStep(base, n);
    RedemptionStep(face, coupon, base, DiscountFactor(base, n), DiscountFactor(base, n - 1));
  }

  /** A bullet schedule of n periods paying coupons of face * (base - 1) is
      worth exactly face. */
  lemma ParBulletPrice(face: real, coupon: real, base: real, n: nat)
    requires base != 0.0 && coupon == face * (base - 1.0) && n >= 1
    ensures Sum(PVs(Schedule(Cashflows(coupon, face, n), base))) == face
  {
    ClosedFormBulletPrice(face, coupon, face, base, n);
    ParRedemption(face, coupon, base, n);
  }

  /** When the coupon rate equals the yield, the coupon per period is the
      face value times the rate per period. */
  lemma ParCoupon(b: Bond)
    requires b.couponRate == b.ytm && b.freq != 0
    ensures PeriodCoupon(b) == b.faceValue * ((1.0 + PeriodRate(b)) - 1.0)
  {
    var f := b.freq as real;
    assert b.faceValue * b.ytm / f == b.faceValue * (b.ytm / f);
  }

  /** A bond whose coupon rate equals its yield prices at its face value. */
  lemma ParBondPriceOf(b: Bond)
    requires b.couponRate == b.ytm && Discountable(b)
    ensures PriceOf(b) == b.faceValue
  {
    ParCoupon(b);
    ParBulletPrice(b.faceValue, PeriodCoupon(b), 1.0 + PeriodRate(b), Periods(b));
  }

  /** The par bond identity as the calculator reports it: with the coupon
      rate equal to the yield, a bond prices at its face value, and only a
      zero face value makes the metrics undefined. */
  lemma ParBondPrice(b: Bond)
    requires b.couponRate == b.ytm && Discountable(b)
    ensures Analyze(b).Ok? <==> b.faceValue != 0.0
    ensures Analyze(b).Ok? ==> Analyze(b).value.metrics.price == b.faceValue
  {
    AnalyzeOutcome(b);
    ParBondPriceOf(b);
  }

  /** When only the last row has a non-zero PV, the price is that PV and the
      period-weighted sum is that PV times the number of periods. */
  lemma LastRowOnly(rows: seq<Row>)
    requires |rows| >= 1 && rows[|rows| - 1].period == |rows|
    requires forall k :: 0 <= k < |rows| - 1 ==> rows[k].pv == 0.0
    ensures Sum(PVs(rows)) == rows[|rows| - 1].pv
    ensures Sum(WeightedTimes(rows)) == |rows| as real * rows[|rows| - 1].pv
  {
    var pvs, weighted := PVs(rows), WeightedTimes(rows);
    forall k | 0 <= k < |rows| - 1
      ensures weighted[k] == 0.0
    {
      assert weighted[k] == rows[k].period as real * 0.0;
    }
    SumOfLastOnly(pvs);
    SumOfLastOnly(weighted);
  }

  /** Without coupons every PV before the last is zero, and the price is the
      face value discounted over all periods. */
  lemma ZeroCouponRows(b: Bond)
    requires b.couponRate == 0.0 && Discountable(b)
    ensures var rows := ScheduleOf(b);
            && (forall k :: 0 <= k < |rows| - 1 ==> rows[k].cashflow == 0.0 && rows[k].pv == 0.0)
            && rows[|rows| - 1].cashflow == b.faceValue
            && rows[|rows| - 1].pv == b.faceValue * DiscountFactor(1.0 + PeriodRate(b), Periods(b))
  {
    assert PeriodCoupon(b) == 0.0 by {
      assert b.faceValue * 0.0 == 0.0;
    }
  }

  /** Without coupons the price is the discounted face value, and the
      period-weighted sum is the number of periods times the price. */
  lemma ZeroCouponSums(b: Bond)
    requires b.couponRate == 0.0 && Discountable(b)
    ensures PriceOf(b) == b.faceValue * DiscountFactor(1.0 + PeriodRate(b), Periods(b))
    ensures Sum(WeightedTimes(ScheduleOf(b))) == Periods(b) as real * PriceOf(b)
  {
    ZeroCouponRows(b);
    LastRowOnly(ScheduleOf(b));
  }

  /** A table whose only non-zero PV is in its last row, period n, has
      Macaulay duration n / freq in years. */
  lemma SinglePaymentMacaulay(rows: seq<Row>, freq: int, t: real)
    requires freq != 0 && |rows| >= 1 && rows[|rows| - 1].period == |rows|
    requires forall k :: 0 <= k < |rows| - 1 ==> rows[k].pv == 0.0
    requires rows[|rows| - 1].pv != 0.0
    requires |rows| as real == t * freq as real
    ensures Sum(PVs(rows)) != 0.0
    ensures MacaulayDuration(rows, freq) == t
  {
    LastRowOnly(rows);
    var price := Sum(PVs(rows));
    SingleCashflowDuration(MacaulayDuration(rows, freq), freq as real, price,
      Sum(WeightedTimes(rows)), |rows| as real, t);
  }

  /** A zero-coupon bond of non-zero face value has a non-zero price and a
      Macaulay duration equal to its maturity. */
  lemma ZeroCouponMacaulay(b: Bond)
    requires b.couponRate == 0.0 && Discountable(b) && b.faceValue != 0.0
    ensures PriceOf(b) != 0.0
    ensures MacaulayDuration(ScheduleOf(b), b.freq) == b.maturity as real
  {
    ZeroCouponRows(b);
    NonZeroProduct(b.faceValue, DiscountFactor(1.0 + PeriodRate(b), Periods(b)));
    IntProductAsReal(b.maturity, b.freq);
    SinglePaymentMacaulay(ScheduleOf(b), b.freq, b.maturity as real);
  }

  /** A zero-coupon bond: every cashflow but the last is zero, the last is
      the face value, and the Macaulay duration is exactly the maturity. */
  lemma ZeroCouponDuration(b: Bond)
    requires b.couponRate == 0.0 && Discountable(b)
    ensures Analyze(b).Ok? <==> b.faceValue != 0.0
    ensures Analyze(b).Ok? ==>
              var a := Analyze(b).value;
              var n := |a.schedule|;
              && (forall k :: 0 <= k < n - 1 ==> a.schedule[k].cashflow == 0.0)
              && a.schedule[n - 1].cashflow == b.faceValue
              && a.metrics.macaulayDuration == b.maturity as real
  {
    AnalyzeOutcome(b);
    ZeroCouponRows(b);
    if b.faceValue != 0.0 {
      ZeroCouponMacaulay(b);
    } else {
      assert PriceOf(b) == 0.0 by {
        ZeroCouponSums(b);
      }
    }
  }

  /** Modified duration is Macaulay duration discounted by one period of a
      positive yield, so it is strictly smaller whenever Macaulay duration
      is positive. */
  lemma ModifiedBelowMacaulay(b: Bond)
    requires Analyze(b).Ok? && b.freq > 0 && b.ytm > 0.0
    requires Analyze(b).value.metrics.macaulayDuration > 0.0
    ensures 0.0 < Analyze(b).value.metrics.modifiedDuration < Analyze(b).value.metrics.macaulayDuration
  {
    AnalyzeOutcome(b);
    var m := Analyze(b).value.metrics;
    var f := b.freq as real;
    assert b.ytm / f > 0.0;
    QuotientBelow(m.modifiedDuration, 1.0 + b.ytm / f, m.macaulayDuration);
  }

  /** At a zero yield there is nothing to discount and the two durations agree. */
  lemma ModifiedEqualsMacaulayAtZeroYield(b: Bond)
    requires Analyze(b).Ok? && b.ytm == 0.0
    ensures Analyze(b).value.metrics.modifiedDuration == Analyze(b).value.metrics.macaulayDuration
  {
    AnalyzeOutcome(b);
  }

  /** Non-negative PVs give non-negative convexity terms. */
  lemma ConvexityTermsNonNegative(rows: seq<Row>)
    requires forall k :: 0 <= k < |rows| ==> rows[k].pv >= 0.0
    ensures Sum(ConvexityTerms(rows)) >= 0.0
  {
    var terms := ConvexityTerms(rows);
    forall k | 0 <= k < |terms|
      ensures terms[k] >= 0.0
    {
      var i := rows[k].period as real;
      var pv := rows[k].pv;
      assert pv * i >= 0.0;
      assert terms[k] == (pv * i) * (i + 1.0);
    }
    SumNonNegative(terms);
  }

  /** A table of non-negative PVs with a non-zero total has a positive
      price and a non-negative convexity. */
  lemma NonNegativePVsConvexity(rows: seq<Row>, freq: int)
    requires freq != 0 && Sum(PVs(rows)) != 0.0
    requires forall k :: 0 <= k < |rows| ==> rows[k].pv >= 0.0
    ensures Sum(PVs(rows)) > 0.0
    ensures Convexity(rows, freq) >= 0.0
  {
    var price := Sum(PVs(rows));
    assert price > 0.0 by {
      SumNonNegative(PVs(rows));
    }
    ConvexityTermsNonNegative(rows);
    var f := freq as real;
    assert f * f > 0.0;
    NonNegativeFactor(Convexity(rows, freq), price * (f * f), Sum(ConvexityTerms(rows)));
  }

  /** With every PV non-negative, the price is positive and the convexity
      is non-negative. */
  lemma ConvexityNonNegative(b: Bond)
    requires Analyze(b).Ok?
    requires forall k :: 0 <= k < |Analyze(b).value.schedule| ==> Analyze(b).value.schedule[k].pv >= 0.0
    ensures Analyze(b).value.metrics.price > 0.0
    ensures Analyze(b).value.metrics.convexity >= 0.0
  {
    AnalyzeOutcome(b);
    NonNegativePVsConvexity(ScheduleOf(b), b.freq);
  }

  /** The period of every row of a table numbered 1..n, and a non-negative
      PV column whose last entry is positive. */
  predicate PositiveTable(rows: seq<Row>)
  {
    && |rows| >= 1
    && (forall k :: 0 <= k < |rows| ==> rows[k].period == k + 1 && rows[k].pv >= 0.0)
    && rows[|rows| - 1].pv > 0.0
  }

  /** In a positive table the price and the period-weighted sum are positive. */
  lemma PositiveTableSums(rows: seq<Row>)
    requires PositiveTable(rows)
    ensures Sum(PVs(rows)) > 0.0
    ensures Sum(WeightedTimes(rows)) > 0.0
  {
    var n := |rows|;
    var weighted := WeightedTimes(rows);
    SumNonNegative(PVs(rows));
    forall k | 0 <= k < n
      ensures weighted[k] >= 0.0
    {
      assert weighted[k] == (k + 1) as real * rows[k].pv;
    }
    assert weighted[n - 1] == n as real * rows[n - 1].pv;
    SumNonNegative(weighted);
  }

  /** In a table numbered 1..n with non-negative PVs, the period-weighted
      sum is at most n times the price. */
  lemma WeightedTimesBound(rows: seq<Row>)
    requires PositiveTable(rows)
    ensures Sum(WeightedTimes(rows)) <= |rows| as real * Sum(PVs(rows))
  {
    var n := |rows|;
    var pvs, weighted := PVs(rows), WeightedTimes(rows);
    forall k | 0 <= k < n
      ensures weighted[k] <= n as real * pvs[k]
    {
      var i := (k + 1) as real;
      assert weighted[k] == i * pvs[k];
      assert i * pvs[k] <= n as real * pvs[k];
    }
    SumBoundedByScaled(pvs, weighted, n as real);
  }

  /** In a positive table the last convexity term is positive, so the
      convexity sum is positive. */
  lemma PositiveTableConvexitySum(rows: seq<Row>)
    requires PositiveTable(rows)
    ensures Sum(ConvexityTerms(rows)) > 0.0
  {
    var n := |rows|;
    var terms := ConvexityTerms(rows);
    forall k | 0 <= k < n
      ensures terms[k] >= 0.0
    {
      var i := rows[k].period as real;
      var pv := rows[k].pv;
      assert pv * i >= 0.0;
      assert terms[k] == (pv * i) * (i + 1.0);
    }
    assert terms[n - 1] > 0.0 by {
      var i := n as real;
      var pv := rows[n - 1].pv;
      assert pv * i > 0.0;
      assert terms[n - 1] == (pv * i) * (i + 1.0);
    }
    SumNonNegative(terms);
  }

  /** The Macaulay duration of a positive table over t years of freq
      payments lies in (0, t]. */
  lemma PositiveTableMacaulay(rows: seq<Row>, freq: int, t: real)
    requires PositiveTable(rows) && freq >= 1
    requires |rows| as real == t * freq as real
    ensures Sum(PVs(rows)) > 0.0
    ensures 0.0 < MacaulayDuration(rows, freq) <= t
  {
    var f := freq as real;
    var price, weighted := Sum(PVs(rows)), Sum(WeightedTimes(rows));
    PositiveTableSums(rows);
    WeightedTimesBound(rows);
    var mac := MacaulayDuration(rows, freq);
    var fp := f * price;
    assert fp > 0.0;
    assert mac * fp == weighted;
    PositiveFactor(mac, fp, weighted);
    assert weighted <= t * fp;
    FactorBound(mac, t, fp);
  }

  /** The convexity of a positive table is positive. */
  lemma PositiveTableConvexity(rows: seq<Row>, freq: int)
    requires PositiveTable(rows) && freq >= 1
    ensures Sum(PVs(rows)) > 0.0
    ensures Convexity(rows, freq) > 0.0
  {
    var f := freq as real;
    PositiveTableSums(rows);
    PositiveTableConvexitySum(rows);
    assert f * f > 0.0;
    PositiveFactor(Convexity(rows, freq), Sum(PVs(rows)) * (f * f), Sum(ConvexityTerms(rows)));
  }

  /** The conditions of an ordinary bond: positive face value, no negative
      coupon, a positive number of payments a year and of periods, and a
      discount base above zero. */
  predicate Ordinary(b: Bond) {
    b.faceValue > 0.0 && b.couponRate >= 0.0 && b.freq >= 1 && Periods(b) >= 1
    && 1.0 + PeriodRate(b) > 0.0
  }

  /** An ordinary bond has a positive table: non-negative coupons and a
      positive redemption, all discounted by positive factors. */
  lemma OrdinaryTable(b: Bond)
    requires Ordinary(b)
    ensures Discountable(b) && PositiveTable(ScheduleOf(b))
  {
    var rows := ScheduleOf(b);
    var n := |rows|;
    var coupon := PeriodCoupon(b);
    assert coupon >= 0.0 by {
      assert b.faceValue * b.couponRate >= 0.0;
    }
    forall k | 0 <= k < n
      ensures rows[k].pv >= 0.0
    {
      assert rows[k].cashflow >= 0.0 && rows[k].discountFactor > 0.0;
    }
    assert rows[n - 1].cashflow > 0.0 && rows[n - 1].discountFactor > 0.0;
  }

  /** An ordinary bond always has metrics: a positive price, a Macaulay
      duration above zero and at most the maturity, a positive convexity,
      and a modified duration strictly below the Macaulay duration when
      the yield is positive. */
  lemma PositiveBondMetrics(b: Bond)
    requires Ordinary(b)
    ensures Analyze(b).Ok?
    ensures var m := Analyze(b).value.metrics;
            && m.price > 0.0
            && 0.0 < m.macaulayDuration <= b.maturity as real
            && m.convexity > 0.0
            && (b.ytm > 0.0 ==> 0.0 < m.modifiedDuration < m.macaulayDuration)
  {
    OrdinaryTable(b);
    IntProductAsReal(b.maturity, b.freq);
    PositiveTableMacaulay(ScheduleOf(b), b.freq, b.maturity as real);
    PositiveTableConvexity(ScheduleOf(b), b.freq);
    AnalyzeOutcome(b);
    if b.ytm > 0.0 {
      ModifiedBelowMacaulay(b);
    }
  }

  /** A larger positive discount base gives a strictly smaller discount factor. */
  lemma DiscountFactorDecreasing(lo: real, hi: real, i: nat)
    requires 0.0 < lo < hi && i >= 1
    ensures 0.0 < DiscountFactor(hi, i) < DiscountFactor(lo, i)
  {
    PowStrictlyIncreasing(lo, hi, i);
    ReciprocalDecreasing(Pow(lo, i), Pow(hi, i));
  }

  /** A non-negative cashflow is worth no more at a larger positive base,
      and a positive one strictly less. */
  lemma HigherBaseCheaperPV(cf: real, lo: real, hi: real, i: nat)
    requires 0.0 < lo < hi && i >= 1 && cf >= 0.0
    ensures cf * DiscountFactor(hi, i) <= cf * DiscountFactor(lo, i)
    ensures cf > 0.0 ==> cf * DiscountFactor(hi, i) < cf * DiscountFactor(lo, i)
  {
    DiscountFactorDecreasing(lo, hi, i);
  }

  /** Non-negative cashflows with a positive last one are worth strictly
      less when discounted at a larger positive base. */
  lemma HigherBaseCheaper(cashflows: seq<real>, lo: real, hi: real)
    requires 0.0 < lo < hi && |cashflows| >= 1
    requires forall k :: 0 <= k < |cashflows| ==> cashflows[k] >= 0.0
    requires cashflows[|cashflows| - 1] > 0.0
    ensures Sum(PVs(Schedule(cashflows, hi))) < Sum(PVs(Schedule(cashflows, lo)))
  {
    var n := |cashflows|;
    var pvs, pvs2 := PVs(Schedule(cashflows, lo)), PVs(Schedule(cashflows, hi));
    forall k | 0 <= k < n
      ensures pvs2[k] <= pvs[k]
    {
      HigherBaseCheaperPV(cashflows[k], lo, hi, k + 1);
    }
    HigherBaseCheaperPV(cashflows[n - 1], lo, hi, n);
    SumStrictlyMonotone(pvs2, pvs);
  }

  /** The same cashflows discounted at a higher yield are worth strictly
      less: the price of an ordinary bond falls as its yield rises. */
  lemma PriceDecreasesInYield(b: Bond, higher: real)
    requires Ordinary(b) && b.ytm < higher
    ensures Ordinary(b.(ytm := higher))
    ensures PriceOf(b.(ytm := higher)) < PriceOf(b)
  {
    var b2 := b.(ytm := higher);
    assert PeriodRate(b) < PeriodRate(b2);
    assert PeriodCoupon(b2) == PeriodCoupon(b);
    var coupon := PeriodCoupon(b);
    assert coupon >= 0.0 by {
      assert b.faceValue * b.couponRate >= 0.0;
    }
    var cashflows := Cashflows(coupon, b.faceValue, Periods(b));
    HigherBaseCheaper(cashflows, 1.0 + PeriodRate(b), 1.0 + PeriodRate(b2));
  }
}
