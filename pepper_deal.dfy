/** The coin side of a gift-card deal: a Pepper coin offer and its cash value.

    Face values are exact reals. The source stores the face value of a
    PepperDeal as a binary float and multiplies it as such. That product is exact
    for binary-fraction face values (whole dollars, quarters); for other faces
    the source differs in the last float bits, which the model ignores.
 */
module PepperCoins {

  /** A coin-program deal, as app.py's PepperDeal constructor stores it.
      Only faceValue and multiplier take part in the valuation; the other
      fields are carried along unchanged. bonusDate is an opaque timestamp
      (the source fills it from the wall clock and never reads it). */
  datatype PepperDeal = PepperDeal(
    brand: string,
    faceValue: real,
    quantity: int,
    multiplier: int,
    regRate: int,
    bonusDate: int)
  {
    /** Coins earned per dollar of face value at a 1X multiplier. */
    const baseCoinsPerDollar: int := 20
    /** Coins that redeem for one dollar. */
    const coinsPerDollarRedemption: int := 2000
  }

  /** Coins the deal earns: face value times 20 coins per dollar times the multiplier. */
  function TotalCoins(p: PepperDeal): (coins: real)
    ensures p.faceValue >= 0.0 && p.multiplier >= 0 ==> coins >= 0.0
  {
    p.faceValue * p.baseCoinsPerDollar as real * p.multiplier as real
  }

  /** Cash value of the coins at full redemption: the coins over 2000 coins per
      dollar, which is one percent of face value per unit of multiplier. */
  function PepperValue(p: PepperDeal): (value: real)
    ensures value == p.faceValue * p.multiplier as real / 100.0
    ensures p.faceValue >= 0.0 && p.multiplier >= 0 ==> value >= 0.0
    ensures value * 2000.0 == TotalCoins(p)
  {
    TotalCoins(p) / p.coinsPerDollarRedemption as real
  }

  /** The valuation reads nothing but the face value and the multiplier. */
  lemma PepperValueIgnoresOtherFields(p: PepperDeal, q: PepperDeal)
    requires p.faceValue == q.faceValue && p.multiplier == q.multiplier
    ensures PepperValue(p) == PepperValue(q)
  {
  }

  /** The value is linear in the face value: k times the face is worth k times as much. */
  lemma PepperValueScalesWithFace(p: PepperDeal, k: real)
    ensures PepperValue(p.(faceValue := k * p.faceValue)) == k * PepperValue(p)
  {
  }
}
