/** The cash side of a gift-card deal and the profit figures that combine it
    with the coin value, as app.py's Deal class computes them.

    All amounts are exact reals; the decimal context's 28-digit rounding is
    not modelled.
 */
module Deals {
  import opened PepperCoins

  /** A resale deal. The delay defaults to two weeks, as in the source's constructor. */
  datatype Deal = Deal(
    faceValue: real,
    quantity: int,
    buyerRate: real,
    pepperDeal: PepperDeal,
    paymentDelayWeeks: int := 2)

  /** The figures calculate_profit returns. Rates and ROIs are percentages. */
  datatype ProfitReport = ProfitReport(
    saleProceeds: real,
    pepperValue: real,
    cashProfit: real,
    totalProfit100: real,
    totalProfit915: real,
    roi100: real,
    roi915: real,
    effectiveBuyerRate: real)

  /** The decimal signals that a division by a zero purchase cost raises:
      0 / 0 is undefined, any other x / 0 is a division by zero. */
  datatype DecimalError = DivisionUndefined | DivisionByZero

  /** Either the report or the exception calculate_profit raises. */
  datatype ProfitResult = Computed(report: ProfitReport) | Raised(error: DecimalError)

  /** The delay tiers that earn a bonus, and the bonus each earns. */
  const DelayTiers: map<int, real> := map[2 := 0.0038, 4 := 0.0075, 8 := 0.015, 16 := 0.03]

  /** The delays the form offers, in increasing order (app.py:107-109). */
  const PaymentDelayOptions: seq<int> := [0, 2, 4, 8, 16]

  /** Fraction of the coin value realised in the reduced-redemption scenario. */
  const ReducedRedemption: real := 0.915

  /** Bonus rate for paying out later: the tier's rate, or nothing for any other week count. */
  function DelayBonus(weeks: int): (bonus: real)
    ensures weeks in DelayTiers ==> bonus == DelayTiers[weeks]
    ensures weeks !in DelayTiers ==> bonus == 0.0
    ensures 0.0 <= bonus <= 0.03
    ensures bonus == 0.03 <==> weeks == 16
  {
    if weeks == 2 then 0.0038
    else if weeks == 4 then 0.0075
    else if weeks == 8 then 0.015
    else if weeks == 16 then 0.03
    else 0.0
  }

  /** Every longer delay the form offers earns a strictly larger bonus. */
  lemma DelayBonusIncreasesAcrossOptions(i: int, j: int)
    requires 0 <= i < j < |PaymentDelayOptions|
    ensures DelayBonus(PaymentDelayOptions[i]) < DelayBonus(PaymentDelayOptions[j])
  {
  }

  /** The buyer rate with the delay bonus added on top of it. */
  function EffectiveBuyerRate(d: Deal): (rate: real)
    ensures d.buyerRate <= rate <= d.buyerRate + 0.03
    ensures rate - d.buyerRate == DelayBonus(d.paymentDelayWeeks)
    ensures d.paymentDelayWeeks !in DelayTiers ==> rate == d.buyerRate
  {
    d.buyerRate + DelayBonus(d.paymentDelayWeeks)
  }

  /** What the cards cost: face value times quantity. It is zero exactly when
      one of the two is, and positive for a positive face and quantity. */
  function PurchaseCost(d: Deal): (cost: real)
    ensures cost == 0.0 <==> d.faceValue == 0.0 || d.quantity == 0
    ensures d.faceValue > 0.0 && d.quantity > 0 ==> cost > 0.0
  {
    d.faceValue * d.quantity as real
  }

  /** The profit figures of a deal, or the error the division by the purchase
      cost raises when that cost is zero. */
  function CalculateProfit(d: Deal): (r: ProfitResult)
    ensures r.Computed? <==> PurchaseCost(d) != 0.0
    ensures r.Raised? ==>
      r.error == (if PepperValue(d.pepperDeal) * d.quantity as real == 0.0 then DivisionUndefined else DivisionByZero)
    ensures r.Computed? ==>
      var rep := r.report;
      && rep.saleProceeds == d.faceValue * EffectiveBuyerRate(d) * d.quantity as real
      && rep.cashProfit == rep.saleProceeds - PurchaseCost(d)
      && rep.pepperValue == PepperValue(d.pepperDeal) * d.quantity as real
      && rep.totalProfit100 - rep.cashProfit == rep.pepperValue
      && rep.totalProfit915 - rep.cashProfit == ReducedRedemption * rep.pepperValue
      && rep.roi100 * PurchaseCost(d) == rep.totalProfit100 * 100.0
      && rep.roi915 * PurchaseCost(d) == rep.totalProfit915 * 100.0
      && rep.effectiveBuyerRate == EffectiveBuyerRate(d) * 100.0
    ensures r.Computed? && r.report.pepperValue >= 0.0 ==>
      r.report.totalProfit100 >= r.report.totalProfit915 >= r.report.cashProfit
    ensures r.Computed? && r.report.pepperValue >= 0.0 && PurchaseCost(d) > 0.0 ==>
      r.report.roi100 >= r.report.roi915
  {
    var effectiveRate := EffectiveBuyerRate(d);
    var saleProceeds := d.faceValue * effectiveRate * d.quantity as real;
    var pepperValue := PepperValue(d.pepperDeal) * d.quantity as real;
    var purchaseCost := PurchaseCost(d);
    var cashProfit := saleProceeds - purchaseCost;
    var pepper100 := cashProfit + pepperValue;
    var pepper915 := cashProfit + pepperValue * ReducedRedemption;
    if purchaseCost == 0.0 then
      Raised(if pepper100 == 0.0 then DivisionUndefined else DivisionByZero)
    else
      Computed(ProfitReport(
        saleProceeds := saleProceeds,
        pepperValue := pepperValue,
        cashProfit := cashProfit,
        totalProfit100 := pepper100,
        totalProfit915 := pepper915,
        roi100 := pepper100 / purchaseCost * 100.0,
        roi915 := pepper915 / purchaseCost * 100.0,
        effectiveBuyerRate := effectiveRate * 100.0))
  }
}
