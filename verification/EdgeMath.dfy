/** Fees and edges: what a two-leg trade is expected to bring per contract. */
module EdgeMath {
  import opened Wrappers
  import opened Levels
  import opened Vwap
  import opened Reals

  datatype FeeSchedule = FeeSchedule(
    takerFeePercent: real, takerFeeForPrice: Option<real -> real>, gasEstimateUsd: Option<real>)

  /** Kalshi's fee rate per unit price; the fee itself is price times rate. */
  function KalshiTakerFee(price: real): real {
    if price <= 0.0 || price >= 1.0 then 0.0 else 0.07 * (1.0 - price)
  }

  const KALSHI_FEES := FeeSchedule(1.75, Some(KalshiTakerFee), None)

  function PolymarketFees(gasEstimateUsd: real): FeeSchedule {
    FeeSchedule(2.0, None, Some(gasEstimateUsd))
  }

  function TakerFeeRate(price: real, fees: FeeSchedule): real {
    match fees.takerFeeForPrice
    case Some(rate) => rate(price)
    case None => fees.takerFeePercent / 100.0
  }

  function FeeCost(price: real, fees: FeeSchedule): real {
    price * TakerFeeRate(price, fees)
  }

  function GrossEdge(buyPrice: real, sellPrice: real): real {
    sellPrice - buyPrice
  }

  datatype EdgeError = ZeroPositionSize

  function NetEdge(grossEdge: real, buyPrice: real, sellPrice: real, buyFees: FeeSchedule, sellFees: FeeSchedule,
                   gasEstimateUsd: real, positionSizeUsd: real): Result<real, EdgeError>
  {
    if positionSizeUsd == 0.0 then Err(ZeroPositionSize)
    else Ok(grossEdge - FeeCost(buyPrice, buyFees) - FeeCost(sellPrice, sellFees) - gasEstimateUsd / positionSizeUsd)
  }

  datatype FeeBreakdown = FeeBreakdown(buyFeeCost: real, sellFeeCost: real, gasFraction: real, totalCosts: real)

  function BuildFeeBreakdown(buyPrice: real, sellPrice: real, buyFees: FeeSchedule, sellFees: FeeSchedule,
                             gasEstimateUsd: real, positionSizeUsd: real): FeeBreakdown
    requires positionSizeUsd != 0.0
  {
    var buy, sell, gas := FeeCost(buyPrice, buyFees), FeeCost(sellPrice, sellFees), gasEstimateUsd / positionSizeUsd;
    FeeBreakdown(buy, sell, gas, buy + sell + gas)
  }

  /** The breakdown holds just the costs that make the difference between gross and net edge at the same prices. */
  lemma BreakdownExplainsNetEdge(grossEdge: real, buyPrice: real, sellPrice: real, buyFees: FeeSchedule,
                                 sellFees: FeeSchedule, gas: real, size: real)
    requires size != 0.0
    ensures NetEdge(grossEdge, buyPrice, sellPrice, buyFees, sellFees, gas, size)
         == Ok(grossEdge - BuildFeeBreakdown(buyPrice, sellPrice, buyFees, sellFees, gas, size).totalCosts)
  {
  }

  /** A flat fee is its percentage of the price; Kalshi charges 7 percent of p * (1 - p), and nothing outside (0,1). */
  lemma FeesCharged(p: real, gas: real, fees: FeeSchedule)
    ensures fees.takerFeeForPrice.None? ==> 100.0 * FeeCost(p, fees) == fees.takerFeePercent * p
    ensures 100.0 * FeeCost(p, PolymarketFees(gas)) == 2.0 * p && PolymarketFees(gas).gasEstimateUsd == Some(gas)
    ensures 100.0 * FeeCost(p, KALSHI_FEES) == (if 0.0 < p < 1.0 then 7.0 * (p * (1.0 - p)) else 0.0)
  {
    if fees.takerFeeForPrice.None? {
      assert fees.takerFeePercent / 100.0 * 100.0 == fees.takerFeePercent;
      assert p * (fees.takerFeePercent / 100.0) * 100.0 == p * (fees.takerFeePercent / 100.0 * 100.0);
    }
    assert p * (0.07 * (1.0 - p)) == 0.07 * (p * (1.0 - p));
  }

  /** On [0,1], a dearer contract costs more with its fee and a dearer sale brings more after its fee. */
  ghost predicate Regular(fees: FeeSchedule) {
    forall p, q :: 0.0 <= p <= q <= 1.0 ==>
      && p + FeeCost(p, fees) <= q + FeeCost(q, fees)
      && p - FeeCost(p, fees) <= q - FeeCost(q, fees)
  }

  /** The nonlinear Kalshi fee 0.07 * p * (1 - p) is regular. */
  lemma KalshiFeesAreRegular()
    ensures Regular(KALSHI_FEES)
  {
    forall p: real, q: real | 0.0 <= p <= q <= 1.0
      ensures p + FeeCost(p, KALSHI_FEES) <= q + FeeCost(q, KALSHI_FEES)
      ensures p - FeeCost(p, KALSHI_FEES) <= q - FeeCost(q, KALSHI_FEES)
    {
      KalshiFee(p);
      KalshiFee(q);
      FeeGap(p, q);
    }
  }

  lemma KalshiFee(p: real)
    requires 0.0 <= p <= 1.0
    ensures FeeCost(p, KALSHI_FEES) == 0.07 * (p - p * p)
  {
  }

  lemma FeeGap(p: real, q: real)
    requires 0.0 <= p <= q <= 1.0
    ensures -(q - p) <= (q - q * q) - (p - p * p) <= q - p
  {
    ProductIsNonNegative(q - p, p + q);
    ProductIsNonNegative(q - p, 2.0 - (p + q));
    assert (q - p) * (p + q) == q * q - p * p;
    assert (q - p) * (2.0 - (p + q)) == 2.0 * (q - p) - (q * q - p * p);
  }

  /** A flat fee of at most one hundred percent is regular. */
  lemma FlatFeesAreRegular(fees: FeeSchedule)
    requires fees.takerFeeForPrice.None? && 0.0 <= fees.takerFeePercent <= 100.0
    ensures Regular(fees)
  {
    var rate := fees.takerFeePercent / 100.0;
    forall p: real, q: real | 0.0 <= p <= q <= 1.0
      ensures p + FeeCost(p, fees) <= q + FeeCost(q, fees)
      ensures p - FeeCost(p, fees) <= q - FeeCost(q, fees)
    {
      assert FeeCost(p, fees) == p * rate && FeeCost(q, fees) == q * rate;
      FlatGap(p, q, rate);
    }
  }

  lemma FlatGap(p: real, q: real, rate: real)
    requires p <= q && 0.0 <= rate <= 1.0
    ensures p + p * rate <= q + q * rate && p - p * rate <= q - q * rate
  {
    ProductIsNonNegative(q - p, rate);
    ProductIsNonNegative(q - p, 1.0 - rate);
    assert (q - p) * rate == q * rate - p * rate;
    assert (q - p) * (1.0 - rate) == (q - p) - (q - p) * rate;
  }

  /** Worse prices on both legs never make for a better net edge. */
  lemma WorsePricesWorseEdge(buy: real, sell: real, buy': real, sell': real,
                             buyFees: FeeSchedule, sellFees: FeeSchedule, gas: real, size: real)
    requires Regular(buyFees) && Regular(sellFees) && size != 0.0
    requires 0.0 <= buy <= buy' <= 1.0 && 0.0 <= sell' <= sell <= 1.0
    ensures NetEdge(GrossEdge(buy', sell'), buy', sell', buyFees, sellFees, gas, size).value
         <= NetEdge(GrossEdge(buy, sell), buy, sell, buyFees, sellFees, gas, size).value
  {
    assert buy + FeeCost(buy, buyFees) <= buy' + FeeCost(buy', buyFees);
    assert sell' - FeeCost(sell', sellFees) <= sell - FeeCost(sell, sellFees);
  }

  ghost predicate Probabilities(levels: seq<PriceLevel>) {
    forall i :: 0 <= i < |levels| ==> 0.0 <= levels[i].price <= 1.0
  }

  lemma {:induction false} WorstPriceIsAPrice(levels: seq<PriceLevel>, q: real)
    requires levels != []
    ensures exists i :: 0 <= i < |levels| && levels[i].price == WorstPrice(levels, q)
  {
    if |levels| > 1 && q > levels[0].quantity {
      WorstPriceIsAPrice(levels[1..], q - levels[0].quantity);
      var i :| 0 <= i < |levels[1..]| && levels[1..][i].price == WorstPrice(levels[1..], q - levels[0].quantity);
      assert levels[i + 1].price == WorstPrice(levels, q);
    } else {
      assert levels[0].price == WorstPrice(levels, q);
    }
  }

  /**
   For every sorted pair of books with prices in [0,1] and regular fees on both legs, the net edge at the
   average prices of a fill is at most the net edge at the best prices.
   */
  lemma VwapEdgeNeverExceedsBestLevelEdge(asks: seq<PriceLevel>, bids: seq<PriceLevel>, buySize: real, sellSize: real,
                                          buyFees: FeeSchedule, sellFees: FeeSchedule, gas: real, size: real)
    requires Sorted(Ascending, asks) && NonNegative(asks) && Probabilities(asks)
    requires Sorted(Descending, bids) && NonNegative(bids) && Probabilities(bids)
    requires Fill(asks, buySize).Some? && Fill(bids, sellSize).Some?
    requires Regular(buyFees) && Regular(sellFees) && size != 0.0
    ensures var buy, sell := Fill(asks, buySize).value.vwap, Fill(bids, sellSize).value.vwap;
      && 0.0 <= asks[0].price <= buy <= 1.0 && 0.0 <= sell <= bids[0].price <= 1.0
      && NetEdge(GrossEdge(buy, sell), buy, sell, buyFees, sellFees, gas, size).value
      <= NetEdge(GrossEdge(asks[0].price, bids[0].price), asks[0].price, bids[0].price,
                 buyFees, sellFees, gas, size).value
  {
    BuyVwapShape(asks, buySize, buySize);
    SellVwapShape(bids, sellSize, sellSize);
    WorstPriceIsAPrice(asks, Fill(asks, buySize).value.filledQty);
    WorstPriceIsAPrice(bids, Fill(bids, sellSize).value.filledQty);
    WorsePricesWorseEdge(asks[0].price, bids[0].price, Fill(asks, buySize).value.vwap,
                         Fill(bids, sellSize).value.vwap, buyFees, sellFees, gas, size);
  }
}
