/** Properties of the profit figures that relate several of them, or several deals. */
module DealLemmas {
  import opened PepperCoins
  import opened Deals
  import opened CardFigures

  /** When the coin offer and the resale are for the same face value (the form
      passes one face to both; they are equal reals for binary-fraction faces),
      the ROI does not depend on face value or quantity: the 100% ROI is the
      effective buyer rate (in percent) plus the multiplier minus 100, and the
      91.5% ROI counts 91.5% of the multiplier. So the deal does not lose money
      at full redemption exactly when rate and multiplier add up to at least 100. */
  lemma {:induction false} RoiClosedForm(d: Deal)
    requires d.pepperDeal.faceValue == d.faceValue
    requires PurchaseCost(d) != 0.0
    ensures CalculateProfit(d).Computed?
    ensures var rep := CalculateProfit(d).report;
      && rep.roi100 == rep.effectiveBuyerRate - 100.0 + d.pepperDeal.multiplier as real
      && rep.roi915 == rep.effectiveBuyerRate - 100.0 + ReducedRedemption * d.pepperDeal.multiplier as real
      && (rep.roi100 >= 0.0 <==> rep.effectiveBuyerRate + d.pepperDeal.multiplier as real >= 100.0)
  {
    var rep := CalculateProfit(d).report;
    var c := PurchaseCost(d);
    var e := EffectiveBuyerRate(d);
    var m := d.pepperDeal.multiplier as real;
    var perDollar100 := e - 1.0 + m / 100.0;
    var perDollar915 := e - 1.0 + ReducedRedemption * m / 100.0;
    assert rep.totalProfit100 == c * perDollar100;
    assert rep.totalProfit915 == c * perDollar915;
    CancelFactor(perDollar100, c);
    CancelFactor(perDollar915, c);
  }

  /** Two deals that differ only in how many cards they buy have the same
      effective rate and the same ROIs. */
  lemma {:induction false} RoiIndependentOfQuantity(d: Deal, d': Deal)
    requires d' == d.(quantity := d'.quantity)
    requires PurchaseCost(d) != 0.0 && PurchaseCost(d') != 0.0
    ensures CalculateProfit(d).Computed? && CalculateProfit(d').Computed?
    ensures CalculateProfit(d').report.roi100 == CalculateProfit(d).report.roi100
    ensures CalculateProfit(d').report.roi915 == CalculateProfit(d).report.roi915
    ensures CalculateProfit(d').report.effectiveBuyerRate == CalculateProfit(d).report.effectiveBuyerRate
  {
    SameCardInputs(d, d');
    PerCardFigures(d);
    PerCardFigures(d');
  }

  /** The form accepts a face value of 0 (app.py:104). The coin offer then has
      face value 0 too, every amount is 0, and the first ROI is 0 / 0, which
      the decimal module rejects as undefined. */
  lemma ZeroFaceValueRaises(d: Deal)
    requires d.faceValue == 0.0 && d.pepperDeal.faceValue == 0.0
    ensures CalculateProfit(d) == Raised(DivisionUndefined)
  {
  }

  /** Inputs the form can produce with a positive face value (app.py:104) and
      at least one card (app.py:105) always yield a report. */
  lemma FormInputsWithPositiveFaceSucceed(d: Deal)
    requires 0.0 < d.faceValue && d.quantity >= 1
    ensures CalculateProfit(d).Computed?
  {
  }

  /** A $500 card at an 85% buyer rate with a two-week delay and a 15X offer. */
  lemma FiveHundredDollarExample()
    ensures CalculateProfit(Deal(500.0, 1, 0.85, PepperDeal("Brand", 500.0, 1, 15, 2, 0))) ==
      Computed(ProfitReport(
        saleProceeds := 426.9,
        pepperValue := 75.0,
        cashProfit := -73.1,
        totalProfit100 := 1.9,
        totalProfit915 := -4.475,
        roi100 := 0.38,
        roi915 := -0.895,
        effectiveBuyerRate := 85.38))
  {
  }
}
