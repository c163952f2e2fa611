/** The bond calculator of duration_convexity.py: from face value, coupon rate,
    yield to maturity, maturity in years and payments per year it builds the
    bullet-repayment cashflow schedule, discounts it at the flat per-period
    yield, and reduces the present values to price, Macaulay duration,
    modified duration and convexity.

    Every quantity is an exact real; the floating-point rounding of the Python
    function is not modelled. */
module DurationConvexity {
  import opened RealArith

  /** The five inputs. bond_duration_convexity takes maturity and freq
      as integers, freq defaulting to 2, and does not check their signs. */
  datatype Bond = Bond(faceValue: real, couponRate: real, ytm: real, maturity: int, freq: int := 2)

  /** One line of the cashflow table: period i (from 1), its cashflow,
      the discount factor (1 + rate)^-i and the present value. */
  datatype Row = Row(period: nat, cashflow: real, discountFactor: real, pv: real)

  datatype Metrics = Metrics(price: real, macaulayDuration: real, modifiedDuration: real, convexity: real)

  /** What a successful call returns: the four metrics and the cashflow table. */
  datatype Analysis = Analysis(metrics: Metrics, schedule: seq<Row>)

  /** The ways the computation fails, in the order duration_convexity.py meets them. */
  datatype Error =
    | ZeroFrequency     // the coupon is divided by freq
    | EmptySchedule     // the principal is added to the last cashflow of an empty list
    | ZeroDiscountBase  // 1 + rate is zero and is raised to a negative power
    | ZeroPrice         // the weighted sum is divided by a zero price

  datatype Result<T> = Ok(value: T) | Err(error: Error)

  /** Number of payment periods. */
  function Periods(b: Bond): int {
    b.maturity * b.freq
  }

  /** The coupon paid each period. */
  function PeriodCoupon(b: Bond): real
    requires b.freq != 0
  {
    b.faceValue * b.couponRate / b.freq as real
  }

  /** The flat yield per period. */
  function PeriodRate(b: Bond): real
    requires b.freq != 0
  {
    b.ytm / b.freq as real
  }

  /** The inputs for which a cashflow table can be built and discounted. */
  predicate Discountable(b: Bond) {
    b.freq != 0 && Periods(b) >= 1 && 1.0 + PeriodRate(b) != 0.0
  }

  /** The cashflow list: n coupons, with the principal added to the last one. */
  function Cashflows(coupon: real, face: real, n: nat): (cf: seq<real>)
    requires n >= 1
    ensures |cf| == n
    ensures forall k :: 0 <= k < n - 1 ==> cf[k] == coupon
    ensures cf[n - 1] == coupon + face
  {
    var level := seq(n, _ => coupon);
    level[n - 1 := level[n - 1] + face]
  }

  /** Builds the cashflow list the way bond_duration_convexity does: a list of n coupons,
      then an in-place update of its last entry. With no periods there is no
      last entry to update. */
  method BuildCashflows(coupon: real, face: real, n: int) returns (r: Result<seq<real>>)
    ensures n < 1 ==> r == Err(EmptySchedule)
    ensures n >= 1 ==> r == Ok(Cashflows(coupon, face, n))
  {
    if n < 1 {
      return Err(EmptySchedule);
    }
    var cashflows := new real[n](_ => coupon);
    cashflows[n - 1] := cashflows[n - 1] + face;
    assert forall k :: 0 <= k < n ==> cashflows[k] == Cashflows(coupon, face, n)[k];
    assert cashflows[..] == Cashflows(coupon, face, n);
    r := Ok(cashflows[..]);
  }

  /** (1 + rate)^-i, written with base = 1 + rate. */
  function DiscountFactor(base: real, i: nat): (df: real)
    requires base != 0.0
    ensures df * Pow(base, i) == 1.0
    ensures base > 0.0 ==> df > 0.0
    ensures base >= 1.0 ==> df <= 1.0
  {
    1.0 / Pow(base, i)
  }

  /** The cashflow table: row k is period k + 1, discounted k + 1 times. */
  function Schedule(cashflows: seq<real>, base: real): (rows: seq<Row>)
    requires base != 0.0
    ensures |rows| == |cashflows|
    ensures forall k :: 0 <= k < |rows| ==>
              rows[k].period == k + 1 && rows[k].cashflow == cashflows[k]
              && rows[k].discountFactor == DiscountFactor(base, k + 1)
              && rows[k].pv == rows[k].cashflow * rows[k].discountFactor
  {
    seq(|cashflows|, k requires 0 <= k < |cashflows| =>
      var df := DiscountFactor(base, k + 1);
      Row(k + 1, cashflows[k], df, cashflows[k] * df))
  }

  /** The PV column. */
  function PVs(rows: seq<Row>): seq<real> {
    seq(|rows|, k requires 0 <= k < |rows| => rows[k].pv)
  }

  /** Each PV weighted by its period number. */
  function WeightedTimes(rows: seq<Row>): seq<real> {
    seq(|rows|, k requires 0 <= k < |rows| => rows[k].period as real * rows[k].pv)
  }

  /** Each PV weighted by i * (i + 1) for its period i. */
  function ConvexityTerms(rows: seq<Row>): seq<real> {
    seq(|rows|, k requires 0 <= k < |rows| =>
      var i := rows[k].period as real;
      rows[k].pv * i * (i + 1.0))
  }

  /** The discounted cashflow table of a bond, described period by period. */
  function ScheduleOf(b: Bond): (rows: seq<Row>)
    requires Discountable(b)
    ensures |rows| == Periods(b)
    ensures forall k :: 0 <= k < |rows| ==>
              && rows[k].period == k + 1
              && rows[k].cashflow == (if k == |rows| - 1 then PeriodCoupon(b) + b.faceValue else PeriodCoupon(b))
              && rows[k].discountFactor == DiscountFactor(1.0 + PeriodRate(b), k + 1)
              && rows[k].pv == rows[k].cashflow * rows[k].discountFactor
  {
    Schedule(Cashflows(PeriodCoupon(b), b.faceValue, Periods(b)), 1.0 + PeriodRate(b))
  }

  /** The bond price: the sum of the PV column. */
  function PriceOf(b: Bond): real
    requires Discountable(b)
  {
    Sum(PVs(ScheduleOf(b)))
  }

  /** Macaulay duration in years: the PV-weighted mean period, over freq. */
  function MacaulayDuration(rows: seq<Row>, freq: int): (d: real)
    requires freq != 0 && Sum(PVs(rows)) != 0.0
    ensures d * freq as real * Sum(PVs(rows)) == Sum(WeightedTimes(rows))
  {
    var price := Sum(PVs(rows));
    DivisionCancelsTwice(Sum(WeightedTimes(rows)), price, freq as real);
    Sum(WeightedTimes(rows)) / price / freq as real
  }

  /** Modified duration: Macaulay duration discounted by one period's yield. */
  function ModifiedDuration(macaulay: real, ytm: real, freq: int): (d: real)
    requires freq != 0 && 1.0 + ytm / freq as real != 0.0
    ensures d * (1.0 + ytm / freq as real) == macaulay
  {
    DivisionCancels(macaulay, 1.0 + ytm / freq as real);
    macaulay / (1.0 + ytm / freq as real)
  }

  /** Convexity in years squared: the sum of the i * (i + 1) weighted PVs,
      over the price and freq squared. */
  function Convexity(rows: seq<Row>, freq: int): (c: real)
    requires freq != 0 && Sum(PVs(rows)) != 0.0
    ensures c * (Sum(PVs(rows)) * (freq as real * freq as real)) == Sum(ConvexityTerms(rows))
  {
    var f := freq as real;
    NonZeroProduct(f, f);
    NonZeroProduct(Sum(PVs(rows)), f * f);
    DivisionCancels(Sum(ConvexityTerms(rows)), Sum(PVs(rows)) * (f * f));
    Sum(ConvexityTerms(rows)) / (Sum(PVs(rows)) * (f * f))
  }

  /** The four metrics of a discounted cashflow table. */
  function Reduce(rows: seq<Row>, ytm: real, freq: int): (m: Metrics)
    requires freq != 0 && Sum(PVs(rows)) != 0.0 && 1.0 + ytm / freq as real != 0.0
    ensures m.price == Sum(PVs(rows))
    ensures m.macaulayDuration * freq as real * m.price == Sum(WeightedTimes(rows))
    ensures m.modifiedDuration * (1.0 + ytm / freq as real) == m.macaulayDuration
    ensures m.convexity * (m.price * (freq as real * freq as real)) == Sum(ConvexityTerms(rows))
  {
    var macaulay := MacaulayDuration(rows, freq);
    Metrics(Sum(PVs(rows)), macaulay, ModifiedDuration(macaulay, ytm, freq), Convexity(rows, freq))
  }

  /** The whole calculation, with each failure of bond_duration_convexity
      as an error. */
  function Analyze(b: Bond): (r: Result<Analysis>)
  {
    if b.freq == 0 then Err(ZeroFrequency)
    else if Periods(b) < 1 then Err(EmptySchedule)
    else if 1.0 + PeriodRate(b) == 0.0 then Err(ZeroDiscountBase)
    else
      var rows := ScheduleOf(b);
      var price := Sum(PVs(rows));
      if price == 0.0 then Err(ZeroPrice)
      else
        Ok(Analysis(Reduce(rows, b.ytm, b.freq), rows))
  }

  /** Each input either fails with exactly one error, in the order of
      duration_convexity.py,
      or yields the metrics of its own discounted cashflow table. */
  lemma AnalyzeOutcome(b: Bond)
    ensures Analyze(b) == Err(ZeroFrequency) <==> b.freq == 0
    ensures Analyze(b) == Err(EmptySchedule) <==> b.freq != 0 && Periods(b) < 1
    ensures Analyze(b) == Err(ZeroDiscountBase) <==> b.freq != 0 && Periods(b) >= 1 && 1.0 + PeriodRate(b) == 0.0
    ensures Analyze(b) == Err(ZeroPrice) <==> Discountable(b) && PriceOf(b) == 0.0
    ensures Analyze(b).Ok? <==> Discountable(b) && PriceOf(b) != 0.0
    ensures Analyze(b).Ok? ==> Analyze(b).value.schedule == ScheduleOf(b)
    ensures Analyze(b).Ok? ==> Analyze(b).value.metrics == Reduce(ScheduleOf(b), b.ytm, b.freq)
  {
  }

  /** The calculation step by step as bond_duration_convexity runs it, building the
      cashflow list in place. */
  method BondDurationConvexity(b: Bond) returns (r: Result<Analysis>)
    ensures r == Analyze(b)
  {
    if b.freq == 0 {
      return Err(ZeroFrequency);
    }
    var f := b.freq as real;
    var periods := b.maturity * b.freq;
    var coupon := b.faceValue * b.couponRate / f;
    var rate := b.ytm / f;
    var cashflows := BuildCashflows(coupon, b.faceValue, periods);
    if cashflows.Err? {
      return Err(cashflows.error);
    }
    if 1.0 + rate == 0.0 {
      return Err(ZeroDiscountBase);
    }
    assert coupon == PeriodCoupon(b) && rate == PeriodRate(b) && periods == Periods(b);
    var rows := Schedule(cashflows.value, 1.0 + rate);
    var price := Sum(PVs(rows));
    if price == 0.0 {
      return Err(ZeroPrice);
    }
    r := Ok(Analysis(Reduce(rows, b.ytm, b.freq), rows));
  }
}
