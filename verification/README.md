# Bond price, duration and convexity

A model of `bond_duration_convexity` in `duration_convexity.py`. The function takes five
inputs: face value, annual coupon rate, annual yield to maturity, maturity in years and
payments per year (`freq`, 2 when omitted). From them it computes:

- a bullet-repayment cashflow list of `maturity * freq` periods: one level coupon per
  period, with the principal added in place to the last entry;
- a discount factor `(1 + ytm/freq)^-i` and a present value for each period `i`;
- the bond price, the sum of the present values;
- the Macaulay duration, the period-weighted PV sum over price and `freq`;
- the modified duration, the Macaulay duration over `1 + ytm/freq`;
- the convexity, the `i * (i + 1)` weighted PV sum over `price * freq^2`.

Every quantity is an exact Dafny `real`. An integer power is `Pow`, and a discount
factor is `1 / Pow(1 + rate, i)`.

The project has four files:

- `real_arith.dfy` (module `RealArith`) holds `Pow`, the left-to-right `Sum` and general
  facts about them.
- `duration_convexity.dfy` (module `DurationConvexity`) holds:
  - the data: `Bond`, `Row`, `Metrics`, `Analysis`, and `Error`/`Result`;
  - the pure definition of the calculation, `Analyze`;
  - the method `BondDurationConvexity`, which follows the source step by step. It builds
    the cashflow list in an array and updates the last entry in place.
- `bond_properties.dfy` (module `BondProperties`) proves the properties of the metrics.
- `scenario.dfy` (module `Scenario`) covers the worked example: face 1000, a 5% coupon,
  a 6% yield, 5 years, semi-annual payments.

Over exact reals, with integer `maturity` and `freq`, the source fails in four situations.
Each becomes an `Error` value, in the order the source meets them:

- `ZeroFrequency`: `freq = 0`, at the coupon division (line 35).
- `EmptySchedule`: no periods. The list is empty, so `cashflows[-1]` fails (line 40).
- `ZeroDiscountBase`: `1 + ytm/freq = 0`. Zero is then raised to a negative power (line 46).
- `ZeroPrice`: the price is zero, and the duration divides by it (line 54).

Once these four are excluded, the divisions at lines 55 and 59 cannot fail. Modified
duration divides by the same non-zero base. Convexity divides by `price * freq^2`, a
product of non-zero numbers.

## Model

| member | source | states |
|---|---|---|
| DurationConvexity.Cashflows | duration_convexity.py:39-40 | the list has one entry per period; every entry is the coupon except the last, which is the coupon plus the face value |
| DurationConvexity.BuildCashflows | duration_convexity.py:39-40 | building a list of coupons and then adding the principal in place to its last entry yields `Cashflows` exactly; with no periods it fails with `EmptySchedule` |
| DurationConvexity.DiscountFactor | duration_convexity.py:46 | the factor for period i is the reciprocal of (1 + rate)^i; it is positive when the base is positive and at most 1 when the base is at least 1 |
| DurationConvexity.Schedule | duration_convexity.py:43-47 | the table has one row per cashflow; row k is period k + 1, carries cashflow k and the factor for period k + 1, and has PV equal to cashflow times factor |
| DurationConvexity.ScheduleOf | duration_convexity.py:34-47 | a bond's table has exactly maturity * freq rows, numbered 1..N in order; each row's cashflow is the per-period coupon, plus the face value in the last row; each row is discounted at (1 + ytm/freq)^-i |
| DurationConvexity.MacaulayDuration | duration_convexity.py:53-54 | the duration times freq times the price equals the period-weighted PV sum, so it is that sum divided by price and then by freq |
| DurationConvexity.ModifiedDuration | duration_convexity.py:55 | the modified duration times 1 + ytm/freq equals the Macaulay duration |
| DurationConvexity.Convexity | duration_convexity.py:58-59 | the convexity times price * freq^2 equals the sum of pv_i * i * (i + 1) |
| DurationConvexity.Reduce | duration_convexity.py:50-59 | the price is the sum of the PV column, and the three other metrics stand in their defining ratios to the weighted sums |
| DurationConvexity.AnalyzeOutcome | duration_convexity.py:34-59 | each input fails with exactly one error, in the source's order and under the source's condition (zero freq, no periods, zero discount base, zero price), and otherwise returns its own table and the metrics of that table |
| DurationConvexity.BondDurationConvexity | duration_convexity.py:3-69 | the step-by-step computation, with its in-place update of the cashflow list, returns exactly what `Analyze` defines, error cases included |
| BondProperties.DiscountStep | duration_convexity.py:46 | multiplying the period-m factor by the base gives the period-(m - 1) factor |
| BondProperties.BulletPVs | duration_convexity.py:39-47 | the PVs of a bullet schedule are the discounted coupons for the first n - 1 periods, and then (coupon + face) discounted n times |
| BondProperties.BulletPrice | duration_convexity.py:39-50 | the price of a bullet schedule is the sum of its discounted coupons plus the discounted final payment |
| BondProperties.CouponAnnuity | duration_convexity.py:46-50 | geometric sum: m coupons a * (base - 1) discounted at base sum to a - a * base^-m |
| BondProperties.ClosedFormBulletPrice | duration_convexity.py:39-50 | the price of a bullet schedule equals the annuity closed form plus the discounted principal |
| BondProperties.ParRedemption | duration_convexity.py:40-47 | with the coupon equal to face * rate, the last payment discounted n times restores what the annuity's n - 1 discounted coupons leave short of par |
| BondProperties.ParBulletPrice | duration_convexity.py:39-50 | a bullet schedule whose coupon is face * rate prices at exactly its face value |
| BondProperties.ParCoupon | duration_convexity.py:35-36 | when the coupon rate equals the yield, the per-period coupon is the face value times the per-period rate |
| BondProperties.ParBondPriceOf | duration_convexity.py:35-50 | a bond whose coupon rate equals its yield prices at face |
| BondProperties.ParBondPrice | duration_convexity.py:35-54 | for such a bond the calculation succeeds exactly when the face value is non-zero, and then the returned price is the face value |
| BondProperties.LastRowOnly | duration_convexity.py:50-53 | if only the last row has a PV, the price is that PV and the weighted sum is N times it |
| BondProperties.ZeroCouponRows | duration_convexity.py:35-40 | with a zero coupon rate every cashflow is 0 except the last, which is the face value |
| BondProperties.ZeroCouponSums | duration_convexity.py:46-53 | a zero-coupon bond's price is the face value discounted N times, and its weighted sum is N times its price |
| BondProperties.SinglePaymentMacaulay | duration_convexity.py:53-54 | a table with a single non-zero PV, in period N = t * freq, has Macaulay duration t |
| BondProperties.ZeroCouponMacaulay | duration_convexity.py:53-54 | a zero-coupon bond with non-zero face value has Macaulay duration equal to its maturity |
| BondProperties.ZeroCouponDuration | duration_convexity.py:35-54 | for a zero-coupon bond the calculation succeeds exactly when the face value is non-zero. The returned table then has zero cashflows except a final face-value payment, and the duration equals the maturity exactly |
| BondProperties.ModifiedBelowMacaulay | duration_convexity.py:55 | with a positive freq and yield and a positive Macaulay duration, the modified duration is positive and strictly smaller |
| BondProperties.ModifiedEqualsMacaulayAtZeroYield | duration_convexity.py:55 | at zero yield the modified duration equals the Macaulay duration |
| BondProperties.ConvexityTermsNonNegative | duration_convexity.py:58 | non-negative PVs give a non-negative convexity-term sum |
| BondProperties.NonNegativePVsConvexity | duration_convexity.py:50-59 | non-negative PVs with a non-zero price give a positive price and a non-negative convexity |
| BondProperties.ConvexityNonNegative | duration_convexity.py:50-59 | if every PV in the returned table is non-negative, the returned price is positive and the convexity is non-negative |
| BondProperties.PositiveTableSums | duration_convexity.py:50-53 | a table with non-negative PVs and a positive last PV has a positive price and a positive weighted sum |
| BondProperties.WeightedTimesBound | duration_convexity.py:53 | no period exceeds N, so the weighted sum is at most N times the price |
| BondProperties.PositiveTableConvexitySum | duration_convexity.py:58 | such a table has a positive convexity-term sum |
| BondProperties.PositiveTableMacaulay | duration_convexity.py:53-54 | such a table of N = t * freq rows has a Macaulay duration in (0, t] |
| BondProperties.PositiveTableConvexity | duration_convexity.py:58-59 | such a table has a positive convexity |
| BondProperties.OrdinaryTable | duration_convexity.py:34-47 | a bond with positive face, a non-negative coupon, freq >= 1, at least one period and a positive discount base has a table with non-negative PVs and a positive final PV |
| BondProperties.PositiveBondMetrics | duration_convexity.py:34-59 | such a bond is priced successfully, with positive price, Macaulay duration in (0, maturity], positive convexity, and, at a positive yield, 0 < modified < Macaulay |
| BondProperties.DiscountFactorDecreasing | duration_convexity.py:46 | a higher positive base gives a strictly smaller positive discount factor |
| BondProperties.HigherBaseCheaperPV | duration_convexity.py:47 | a non-negative cashflow's PV does not grow with the base, and a positive one shrinks strictly |
| BondProperties.HigherBaseCheaper | duration_convexity.py:46-50 | non-negative cashflows with a positive last one are worth strictly less at a higher positive base |
| BondProperties.PriceDecreasesInYield | duration_convexity.py:34-50 | raising the yield of such a bond keeps it in that class and strictly lowers its price |
| Scenario.ExampleSchedule | duration_convexity.py:3-40 | the example bond, written without a frequency, takes the default freq of 2 and has 10 periods, with cashflows of 25 in the first nine and 1025 in the last |
| Scenario.ExamplePrice | duration_convexity.py:34-50 | the example bond prices strictly between 957.348 and 957.350 |

## Left out

- The pandas `DataFrame` (lines 62-67) is a foreign library. The table is returned as a
  `seq<Row>` of (period, cashflow, discount factor, PV) records instead.
- The interactive block after the function (lines 72-95) only reads input and prints
  results. It is not part of this model.
- Floating point: every quantity is an exact real, so rounding error in the source's
  results is not modelled. For the same reason the model's error conditions are exact:
  `ZeroPrice` is raised for an exactly zero price, not for one that rounds to zero.
- The only integer checks are the ones the source makes. A negative `maturity` and a
  negative `freq` whose product is positive are accepted, as in the source.
- Input types: `maturity` and `freq` are `int`s. A fractional `maturity` is not modelled.
  The source raises `TypeError` for it at line 39, because `[coupon] * periods` needs an
  integer count. A fractional `freq` is not modelled either.
- Float overflow: `(1 + rate) ** (-i)` at line 46 raises `OverflowError` when the result
  exceeds the float range. For example, a base of 0.01 (ytm = -1.98, freq = 2) over 160
  periods overflows. The model has unbounded reals, so there it returns `Ok`. Overflow and
  underflow elsewhere (to infinity or to zero) are not modelled either.
- Scenario.ExamplePrice: only the example's price is pinned down numerically. Exactly, its
  Macaulay duration is about 4.4717 years, its modified duration about 4.3415 and its
  convexity about 23.663. These values follow from the formulas at lines 53-59, but they
  are not proved bounds in the model.
- PriceDecreasesInYield: it proves strict decrease between any two yields for a bond with
  positive face, a non-negative coupon and a positive discount base. It does not state
  any derivative, so duration is not proved to be the price's sensitivity to yield.
