# Pepper gift-card profit calculator: the profit engine in Dafny

This project models the calculation engine of a gift-card deal analyser. A reseller
buys gift cards through a loyalty app that pays "Pepper coins" on the purchase. The
reseller then sells the cards to a buyer at a fraction of face value. The engine
works out the cash value of the coins and the profit and return on investment (ROI)
of the deal under two coin-redemption assumptions: 100% and 91.5%.

- `pepper_deal.dfy`, module `PepperCoins`: the coin offer (`PepperDeal`). Coins are
  face value × 20 per dollar × the multiplier. 2000 coins redeem for one dollar.
- `deal.dfy`, module `Deals`: the resale (`Deal`, a two-week payment delay by
  default), the delay-bonus table, the effective buyer rate, and `CalculateProfit`.
  `CalculateProfit` returns the eight figures of the source's result dictionary as a
  `ProfitReport`, or the decimal exception the source raises when the purchase cost
  is zero.
- `card_figures.dfy`, module `CardFigures`: every figure of a deal written as quantity
  × the figure for one card, and the ROIs as that single card's figures. It also holds
  the non-linear arithmetic the lemmas below rely on.
- `deal_lemmas.dfy`, module `DealLemmas`: properties that relate several figures or
  several deals. These include the closed form of the ROI, the fact that ROI does not
  depend on quantity, the zero-face-value error, and a worked example.

The source's objects are assigned once in their constructors and never changed, so
both classes are modelled as immutable datatypes. Their methods are modelled as
functions.

The delay bonus is added to the buyer rate (`app.py:69`). `app.py` computes no
instant/future coin split, no deposit date, no combined paper-P&L figure and no
caller-chosen redemption rate: only the fixed 100% and 91.5% scenarios exist.

## Model

| member | source | states |
|---|---|---|
| `PepperCoins.TotalCoins` | app.py:33-35 | The coins earned are non-negative when the face value and the multiplier are non-negative. |
| `PepperCoins.PepperValue` | app.py:31-37 | The cash value of the coins is face × multiplier / 100, which is 20 coins per dollar per X redeemed at 2000 coins per dollar. It is non-negative for a non-negative face value and multiplier. Multiplied by 2000 it gives back the coin count. |
| `PepperCoins.PepperValueIgnoresOtherFields` | app.py:20-37 | Brand, quantity, regular rate and bonus date do not affect the coin value. Only face value and multiplier do. |
| `PepperCoins.PepperValueScalesWithFace` | app.py:33-37 | The coin value is linear in the face value. |
| `Deals.DelayBonus` | app.py:52-64 | The bonus is exactly the tier table 2→0.0038, 4→0.0075, 8→0.015, 16→0.03. Every other integer gets 0, so the function is total. The bonus lies in [0, 0.03] and reaches 0.03 only at 16 weeks. |
| `Deals.DelayBonusIncreasesAcrossOptions` | app.py:55-64 | Across the delays the form offers (0, 2, 4, 8, 16), a longer delay gives a strictly larger bonus. |
| `Deals.EffectiveBuyerRate` | app.py:68-69 | The effective rate is the buyer rate plus the bonus, which is additive. It lies between the buyer rate and the buyer rate + 0.03. For an unlisted delay, including 0, it equals the buyer rate exactly. |
| `Deals.PurchaseCost` | app.py:76 | The purchase cost is face × quantity, the definition the `CalculateProfit` contract is phrased in. It is zero exactly when the face value or the quantity is zero, and positive when both are positive. |
| `Deals.CalculateProfit` | app.py:66-92 | A report is produced exactly when the purchase cost face × quantity is non-zero. Otherwise the result is the decimal error: 0/0 is undefined when the coin value times quantity is 0, and any other case is a division by zero. In a report, sale proceeds = face × effective rate × quantity, and cash profit = proceeds − cost. Total profit at 100% minus cash profit is the coin value × quantity. At 91.5% that difference is 0.915 × the same amount. Each ROI × cost = its profit × 100. The reported rate is the effective rate × 100. With a non-negative coin value, profit at 100% ≥ profit at 91.5% ≥ cash profit. With a positive cost as well, ROI at 100% ≥ ROI at 91.5%. |
| `CardFigures.PerCardFigures` | app.py:70-90 | For a non-zero cost, every amount in the report is quantity × the same amount for one card. Both ROIs equal one card's profit over its face value × 100, which does not involve the quantity. |
| `DealLemmas.RoiClosedForm` | app.py:68-91 | When the coin offer and the resale have the same face value (the form passes one face to both; equal as reals for binary-fraction faces): ROI at 100% = reported effective rate (%) − 100 + multiplier. ROI at 91.5% = rate − 100 + 0.915 × multiplier. The deal does not lose money at full redemption (ROI at 100% ≥ 0) exactly when rate + multiplier ≥ 100. |
| `DealLemmas.RoiIndependentOfQuantity` | app.py:70-91 | Two deals that differ only in quantity have the same effective rate and the same two ROIs. |
| `DealLemmas.ZeroFaceValueRaises` | app.py:76-89 | A face value of 0, which the form accepts (`app.py:104`), makes the first ROI 0/0. The decimal module raises for it as an undefined division. |
| `DealLemmas.FormInputsWithPositiveFaceSucceed` | app.py:76-90 | Every form input with a positive face value and quantity ≥ 1 yields a report. |
| `DealLemmas.FiveHundredDollarExample` | app.py:66-92 | One $500 card at an 85% rate, a 2-week delay and a 15X offer: proceeds 426.9, coin value 75, cash profit −73.1, profits 1.9 and −4.475, ROIs 0.38% and −0.895%, effective rate 85.38%. |

## Left out

- The Streamlit form and result display (`app.py:94-180`) are presentation and I/O. The
  only things the model takes from the form are the delay options (`app.py:107-109`),
  the face-value range (`app.py:104`), the minimum quantity of 1 (`app.py:105`), and the
  fact that one face value goes to both objects (`app.py:122`, `app.py:130`).
- Reading the deals archive CSV and cleaning its brand and regular-rate columns
  (`app.py:9-16`), and the per-brand maximum lookups (`app.py:113-117`), are file I/O
  through a foreign library. The unused `sqlite3` import is also left out.
- The bonus date (`app.py:126`) reads the wall clock and is never used. It is an opaque
  integer field of `PepperDeal`.
- Brand, quantity and regular rate of `PepperDeal` are stored and carried along. The
  valuation does not use them, and the deal's own quantity is applied in
  `CalculateProfit`.
- Number representation: `PepperDeal` gets its face value as a binary float and
  multiplies it as a float (`app.py:33-35`). The model treats that product as exact.
  It is exact for binary-fraction face values, such as whole dollars and quarters (the
  form's $25 steps). For other faces (12.34 with a 7X multiplier, say) the source's
  coin value differs from the model's in the last float bits. For the same reason the
  float face of the `PepperDeal` and the `Decimal(str(face))` face of the `Deal`
  (`app.py:130`) are equal reals only for binary-fraction faces. IEEE rounding is not
  modelled.
- Decimal context precision (28 significant digits) and its rounding are not modelled.
  All amounts are exact reals.
- Only the two decimal signals that a zero purchase cost can raise are modelled. No
  other decimal exception can occur on these exact values.
- The dictionary keys of the result become the named fields of `ProfitReport`. Formatting
  to two decimals is display only.
