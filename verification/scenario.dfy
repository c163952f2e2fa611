/** The worked example of the calculator: a 5-year bond of face 1000 with a
    5% coupon paid twice a year, priced at a 6% yield. */
module Scenario {
  import opened RealArith
  import opened DurationConvexity
  import opened BondProperties

  /** Written without a frequency, so it takes the default of two payments a year. */
  function Example(): Bond {
    Bond(1000.0, 0.05, 0.06, 5)
  }

  /** Ten semi-annual periods: nine coupons of 25 and a last payment of 1025. */
  lemma ExampleSchedule()
    ensures Example().freq == 2
    ensures Discountable(Example())
    ensures var rows := ScheduleOf(Example());
            && |rows| == 10
            && (forall k :: 0 <= k < 9 ==> rows[k].cashflow == 25.0)
            && rows[9].cashflow == 1025.0
  {
    assert PeriodCoupon(Example()) == 25.0;
  }

  /** 1.03 to the ninth power, multiplied out. */
  lemma NinthPower()
    ensures Pow(1.03, 9) == 1.304773183829244583
  {
    assert Pow(1.03, 1) == 1.03;
    assert Pow(1.03, 2) == 1.0609;
    assert Pow(1.03, 3) == 1.092727;
    assert Pow(1.03, 4) == 1.12550881;
    assert Pow(1.03, 5) == 1.1592740743;
    assert Pow(1.03, 6) == 1.194052296529;
    assert Pow(1.03, 7) == 1.22987386542487;
    assert Pow(1.03, 8) == 1.2667700813876161;
  }

  /** The example's price is the PV sum of nine coupons of 25 and a final
      1025, discounted at 3% a period. */
  lemma ExampleIsBullet()
    ensures Discountable(Example())
    ensures PriceOf(Example()) == Sum(PVs(Schedule(Cashflows(25.0, 1000.0, 10), 1.03)))
  {
    var b := Example();
    assert PeriodCoupon(b) == 25.0 && PeriodRate(b) == 0.03 && Periods(b) == 10;
  }

  /** That PV sum, through the closed form, is 957.349 to three decimals. */
  lemma ExampleBulletPrice()
    ensures 957.348 < Sum(PVs(Schedule(Cashflows(25.0, 1000.0, 10), 1.03))) < 957.350
  {
    var a := 2500.0 / 3.0;
    ClosedFormBulletPrice(a, 25.0, 1000.0, 1.03, 10);
    NinthPower();
    var p9 := Pow(1.03, 9);
    assert Pow(1.03, 10) == 1.03 * p9;
    assert DiscountFactor(1.03, 9) * p9 == 1.0;
    assert DiscountFactor(1.03, 10) * (1.03 * p9) == 1.0;
  }

  /** The example prices at 957.349 to three decimals. */
  lemma ExamplePrice()
    ensures Discountable(Example())
    ensures 957.348 < PriceOf(Example()) < 957.350
  {
    ExampleIsBullet();
    ExampleBulletPrice();
  }
}
