/** The profit figures of a deal expressed per card: every amount is the
    quantity times the amount for a single card, and the ROIs are the single
    card's figures. The lemmas here do the non-linear arithmetic that the
    statements in DealLemmas rest on. */
module CardFigures {
  import opened PepperCoins
  import opened Deals

  /** x * c / c == x for a non-zero c. */
  lemma CancelFactor(x: real, c: real)
    requires c != 0.0
    ensures (c * x) / c == x
  {
  }

  /** Profit over cost, in percent, is the same for q cards as for one. */
  lemma ScaledReturn(x: real, f: real, q: real)
    requires f * q != 0.0
    ensures (q * x) / (f * q) * 100.0 == x / f * 100.0
  {
    assert f != 0.0 && q != 0.0;
    assert q * x == (f * q) * (x / f);
    CancelFactor(x / f, f * q);
  }

  /** The figures of rep are those of q cards of face value f, sold at rate e,
      each earning coins worth pv: quantity times the single-card amounts, and
      ROIs equal to the single card's profit over its face value. */
  ghost predicate PerCard(f: real, e: real, pv: real, q: real, rep: ProfitReport)
    requires f != 0.0
  {
    && rep.saleProceeds == q * (f * e)
    && rep.pepperValue == q * pv
    && rep.cashProfit == q * (f * e - f)
    && rep.totalProfit100 == q * (f * e - f + pv)
    && rep.totalProfit915 == q * (f * e - f + ReducedRedemption * pv)
    && rep.roi100 == (f * e - f + pv) / f * 100.0
    && rep.roi915 == (f * e - f + ReducedRedemption * pv) / f * 100.0
  }

  /** The arithmetic behind PerCardFigures, on plain reals: figures built as
      calculate_profit builds them are quantity times the single-card figures. */
  lemma PerCardArithmetic(f: real, e: real, pv: real, q: real, rep: ProfitReport)
    requires f * q != 0.0
    requires rep.saleProceeds == f * e * q && rep.pepperValue == pv * q
    requires rep.cashProfit == rep.saleProceeds - f * q
    requires rep.totalProfit100 == rep.cashProfit + rep.pepperValue
    requires rep.totalProfit915 == rep.cashProfit + rep.pepperValue * ReducedRedemption
    requires rep.roi100 == rep.totalProfit100 / (f * q) * 100.0
    requires rep.roi915 == rep.totalProfit915 / (f * q) * 100.0
    ensures f != 0.0 && PerCard(f, e, pv, q, rep)
  {
    assert rep.totalProfit100 == q * (f * e - f + pv);
    assert rep.totalProfit915 == q * (f * e - f + ReducedRedemption * pv);
    ScaledReturn(f * e - f + pv, f, q);
    ScaledReturn(f * e - f + ReducedRedemption * pv, f, q);
  }

  /** The figures of one deal as quantity times the figures of a single card,
      and its ROIs as the single card's profit over its face value. */
  lemma {:induction false} PerCardFigures(d: Deal)
    requires PurchaseCost(d) != 0.0
    ensures CalculateProfit(d).Computed?
    ensures d.faceValue != 0.0
    ensures PerCard(d.faceValue, EffectiveBuyerRate(d), PepperValue(d.pepperDeal), d.quantity as real,
      CalculateProfit(d).report)
  {
    var rep := CalculateProfit(d).report;
    PerCardArithmetic(d.faceValue, EffectiveBuyerRate(d), PepperValue(d.pepperDeal), d.quantity as real, rep);
  }

  /** Two deals that differ only in quantity share the single-card inputs. */
  lemma SameCardInputs(d: Deal, d': Deal)
    requires d' == d.(quantity := d'.quantity)
    ensures d'.faceValue == d.faceValue
    ensures EffectiveBuyerRate(d') == EffectiveBuyerRate(d)
    ensures PepperValue(d'.pepperDeal) == PepperValue(d.pepperDeal)
  {
  }
}
