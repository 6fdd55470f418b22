/** Stop-loss and take-profit thresholds of an open position, and how near the current profit is to them. */
module ExitThresholds {
  import opened Wrappers
  import opened Vwap
  import opened PositionPnl
  import opened Reals

  const SL_MULTIPLIER := -2.0
  const TP_RATIO := 0.8

  /** What entering a leg cost: its entry and immediate close price, its size and its fee rate. */
  datatype LegTerms = LegTerms(
    side: Side, entryPrice: real, size: real, entryClosePrice: Option<real>, entryFeeRate: Option<real>)

  predicate Known(leg: LegTerms) {
    leg.entryClosePrice.Some? && leg.entryFeeRate.Some?
  }

  /** What closing at once would lose on the price, never a gain. */
  function Spread(leg: LegTerms): real
    requires Known(leg)
  {
    var close := leg.entryClosePrice.value;
    Max(0.0, if leg.side.Bought? then leg.entryPrice - close else close - leg.entryPrice)
  }

  function ExitFeeAtEntry(leg: LegTerms): real
    requires Known(leg)
  {
    Value(Value(leg.entryClosePrice.value, leg.size), leg.entryFeeRate.value)
  }

  function LegCost(leg: LegTerms): real
    requires Known(leg)
  {
    Value(Spread(leg), leg.size)
  }

  /** The mark-to-market deficit with which the position starts; zero when anything is unknown. */
  function EntryCostBaseline(k: LegTerms, p: LegTerms): real {
    if !Known(k) || !Known(p) then 0.0
    else -(LegCost(k) + LegCost(p) + (ExitFeeAtEntry(k) + ExitFeeAtEntry(p)))
  }

  function StopLoss(baseline: real, scaledEdge: real): real {
    baseline + scaledEdge * SL_MULTIPLIER
  }

  /** Four fifths of the way from the baseline to the edge, or of the edge alone when that is not above zero. */
  function ComputeTakeProfitThreshold(baseline: real, scaledEdge: real): real {
    var journeyTp := baseline + (scaledEdge - baseline) * TP_RATIO;
    if journeyTp > 0.0 then journeyTp else Max(0.0, scaledEdge * TP_RATIO)
  }

  function CalculateExitProximity(pnl: real, baseline: real, target: real): real {
    var denom := target - baseline;
    if denom == 0.0 then 0.0 else Min(1.0, Max(0.0, (pnl - baseline) / denom))
  }

  // ----- the thresholds are in order -----

  ghost predicate Sensible(leg: LegTerms) {
    && leg.size >= 0.0
    && (leg.entryClosePrice.Some? ==> leg.entryClosePrice.value >= 0.0)
    && (leg.entryFeeRate.Some? ==> leg.entryFeeRate.value >= 0.0)
  }

  lemma BaselineIsNotPositive(k: LegTerms, p: LegTerms)
    requires Sensible(k) && Sensible(p)
    ensures EntryCostBaseline(k, p) <= 0.0
  {
    if Known(k) && Known(p) {
      LegCostIsNonNegative(k);
      LegCostIsNonNegative(p);
    }
  }

  lemma LegCostIsNonNegative(leg: LegTerms)
    requires Sensible(leg) && Known(leg)
    ensures LegCost(leg) >= 0.0 && ExitFeeAtEntry(leg) >= 0.0
  {
    ProductIsNonNegative(Spread(leg), leg.size);
    ProductIsNonNegative(leg.entryClosePrice.value, leg.size);
    ProductIsNonNegative(Value(leg.entryClosePrice.value, leg.size), leg.entryFeeRate.value);
  }

  /** The stop loss is two edges below the baseline. */
  lemma StopLossIsTwoEdgesDown(b: real, e: real)
    ensures StopLoss(b, e) + 2.0 * e == b
  {
  }

  /** The take profit is four fifths of the way from baseline to edge, if that is a gain, else 80% of the edge. */
  lemma TakeProfitIsFourFifths(b: real, e: real)
    ensures 5.0 * ComputeTakeProfitThreshold(b, e) ==
            if b + 4.0 * e > 0.0 then b + 4.0 * e else if e > 0.0 then 4.0 * e else 0.0
  {
  }

  /** Stop loss below the baseline, the baseline not above zero, take profit above zero and within 80% of the edge. */
  lemma ThresholdsAreOrdered(k: LegTerms, p: LegTerms, scaledEdge: real)
    requires Sensible(k) && Sensible(p) && scaledEdge > 0.0
    ensures var b := EntryCostBaseline(k, p);
      && StopLoss(b, scaledEdge) < b <= 0.0
      && 0.0 < ComputeTakeProfitThreshold(b, scaledEdge) <= TP_RATIO * scaledEdge
  {
    BaselineIsNotPositive(k, p);
  }

  // ----- proximity -----

  lemma QuotientIsAtLeastOne(x: real, y: real)
    requires y != 0.0
    ensures y > 0.0 ==> (x / y >= 1.0 <==> x >= y) && (x / y > 0.0 <==> x > 0.0)
    ensures y < 0.0 ==> (x / y >= 1.0 <==> x <= y) && (x / y > 0.0 <==> x < 0.0)
  {
    var q := x / y;
    assert q * y == x;
    assert (q - 1.0) * y == x - y;
    SignOfProduct(q, y);
    SignOfProduct(q - 1.0, y);
  }

  lemma SignOfProduct(a: real, y: real)
    requires y != 0.0
    ensures y > 0.0 ==> (a * y >= 0.0 <==> a >= 0.0) && (a * y > 0.0 <==> a > 0.0)
    ensures y < 0.0 ==> (a * y <= 0.0 <==> a >= 0.0) && (a * y < 0.0 <==> a > 0.0)
  {
  }

  /**
   Each proximity is between 0 and 1, is 1 exactly when its threshold is crossed, and is in between the share of the
   way from the baseline that the profit has come; at most one is positive.
   */
  lemma ProximitiesMeanCrossing(baseline: real, stopLoss: real, takeProfit: real, pnl: real)
    requires stopLoss < baseline < takeProfit
    ensures var sl := CalculateExitProximity(pnl, baseline, stopLoss);
      var tp := CalculateExitProximity(pnl, baseline, takeProfit);
      && 0.0 <= sl <= 1.0 && 0.0 <= tp <= 1.0
      && (sl == 1.0 <==> pnl <= stopLoss) && (tp == 1.0 <==> pnl >= takeProfit)
      && (sl > 0.0 <==> pnl < baseline) && (tp > 0.0 <==> pnl > baseline)
      && (stopLoss <= pnl <= baseline ==> Value(sl, baseline - stopLoss) == baseline - pnl)
      && (baseline <= pnl <= takeProfit ==> Value(tp, takeProfit - baseline) == pnl - baseline)
  {
    QuotientIsAtLeastOne(pnl - baseline, stopLoss - baseline);
    QuotientIsAtLeastOne(pnl - baseline, takeProfit - baseline);
    if stopLoss <= pnl <= baseline {
      QuotientOfOpposites(baseline - pnl, baseline - stopLoss);
    }
    if baseline <= pnl <= takeProfit {
      assert (pnl - baseline) / (takeProfit - baseline) * (takeProfit - baseline) == pnl - baseline;
    }
  }

  lemma QuotientOfOpposites(x: real, y: real)
    requires y != 0.0
    ensures (-x) / (-y) * y == x
  {
    assert (-x) / (-y) * (-y) == -x;
  }

  // ----- scaling -----

  function Scaled(leg: LegTerms, f: real): LegTerms {
    leg.(size := f * leg.size)
  }

  lemma ScaledCosts(leg: LegTerms, f: real)
    requires Known(leg)
    ensures LegCost(Scaled(leg, f)) == f * LegCost(leg)
    ensures ExitFeeAtEntry(Scaled(leg, f)) == f * ExitFeeAtEntry(leg)
  {
    Reassociated(Spread(leg), f, leg.size);
    Reassociated(leg.entryClosePrice.value, f, leg.size);
    Reassociated(leg.entryFeeRate.value, f, Value(leg.entryClosePrice.value, leg.size));
  }

  lemma Reassociated(x: real, f: real, y: real)
    ensures Value(x, f * y) == f * Value(x, y)
    ensures Value(f * y, x) == f * Value(y, x)
  {
    assert x * (f * y) == f * (x * y);
  }

  lemma BaselineScales(k: LegTerms, p: LegTerms, f: real)
    ensures EntryCostBaseline(Scaled(k, f), Scaled(p, f)) == f * EntryCostBaseline(k, p)
  {
    if Known(k) && Known(p) {
      ScaledCosts(k, f);
      ScaledCosts(p, f);
      Shared(f, LegCost(k), LegCost(p), ExitFeeAtEntry(k), ExitFeeAtEntry(p));
    }
  }

  /** Baseline, stop loss and take profit all scale with the size of the legs, across the take-profit fallback. */
  lemma ThresholdsScale(k: LegTerms, p: LegTerms, scaledEdge: real, f: real)
    requires f > 0.0
    ensures var b, b' := EntryCostBaseline(k, p), EntryCostBaseline(Scaled(k, f), Scaled(p, f));
      && b' == f * b
      && StopLoss(b', f * scaledEdge) == f * StopLoss(b, scaledEdge)
      && ComputeTakeProfitThreshold(b', f * scaledEdge) == f * ComputeTakeProfitThreshold(b, scaledEdge)
  {
    BaselineScales(k, p, f);
    StopLossScales(EntryCostBaseline(k, p), scaledEdge, f);
    TakeProfitScales(EntryCostBaseline(k, p), scaledEdge, f);
  }

  lemma Shared(f: real, a: real, b: real, c: real, d: real)
    ensures f * (-(a + b + (c + d))) == -(f * a + f * b + (f * c + f * d))
  {
  }

  lemma StopLossScales(b: real, e: real, f: real)
    ensures StopLoss(f * b, f * e) == f * StopLoss(b, e)
  {
  }

  lemma TakeProfitScales(b: real, e: real, f: real)
    requires f > 0.0
    ensures ComputeTakeProfitThreshold(f * b, f * e) == f * ComputeTakeProfitThreshold(b, e)
  {
    var journey := b + (e - b) * TP_RATIO;
    assert f * b + (f * e - f * b) * TP_RATIO == f * journey;
    SignOfProduct(journey, f);
    SignOfProduct(e * TP_RATIO, f);
    assert (f * e) * TP_RATIO == f * (e * TP_RATIO);
  }

  /** Proximity does not depend on the size of the position. */
  lemma ProximityIsScaleInvariant(pnl: real, baseline: real, target: real, f: real)
    requires f > 0.0
    ensures CalculateExitProximity(f * pnl, f * baseline, f * target) == CalculateExitProximity(pnl, baseline, target)
  {
    var denom := target - baseline;
    assert f * target - f * baseline == f * denom;
    SignOfProduct(denom, f);
    if denom != 0.0 {
      assert f * pnl - f * baseline == f * (pnl - baseline);
      CommonFactor(pnl - baseline, denom, f);
    }
  }

  lemma CommonFactor(x: real, y: real, f: real)
    requires f > 0.0 && y != 0.0 && f * y != 0.0
    ensures (f * x) / (f * y) == x / y
  {
    var q, q' := x / y, (f * x) / (f * y);
    assert q * y == x && q' * (f * y) == f * x;
    assert (q' - q) * (f * y) == 0.0;
  }

  // ----- the composition shown on the dashboard -----

  datatype Thresholds = Thresholds(
    legSize: real, baseline: real, stopLoss: real, takeProfit: real, stopLossProximity: real, takeProfitProximity: real)

  function TermsOf(leg: Leg, size: real, entryClosePrice: Option<real>): LegTerms
    requires Filled(leg) && leg.side.Some?
  {
    LegTerms(leg.side.value, leg.entry.value.fillPrice.value, size, entryClosePrice, leg.entryFeeRate)
  }

  /** The sizes that thresholds are taken at: what remains after a partial exit, as long as both legs remain. */
  function ThresholdSizes(p: Position, exitPartial: bool, orders: seq<OrderRow>): (real, real) {
    var r := ResidualOf(p, orders);
    if exitPartial && orders != [] && Min(r.kalshi, r.polymarket) > 0.0 then (r.kalshi, r.polymarket)
    else (FilledSize(p.kalshi), FilledSize(p.polymarket))
  }

  function ThresholdLegSize(p: Position, exitPartial: bool, orders: seq<OrderRow>): real {
    var r := ResidualOf(p, orders);
    if exitPartial && orders != [] && Min(r.kalshi, r.polymarket) > 0.0 then Min(r.kalshi, r.polymarket)
    else FilledSize(p.kalshi)
  }

  function ThresholdsFrom(baseline: real, legSize: real, initialEdge: real, pnl: real): Thresholds {
    var stopLoss := StopLoss(baseline, initialEdge * legSize);
    var takeProfit := ComputeTakeProfitThreshold(baseline, initialEdge * legSize);
    Thresholds(legSize, baseline, stopLoss, takeProfit,
               CalculateExitProximity(pnl, baseline, stopLoss), CalculateExitProximity(pnl, baseline, takeProfit))
  }

  /** The thresholds for legs held at given sizes, and how near `pnl` is to them. */
  function ThresholdsAt(k: LegTerms, p: LegTerms, legSize: real, initialEdge: real, pnl: real): Thresholds {
    ThresholdsFrom(EntryCostBaseline(k, p), legSize, initialEdge, pnl)
  }

  predicate Placed(p: Position) {
    Filled(p.kalshi) && Filled(p.polymarket) && p.kalshi.side.Some? && p.polymarket.side.Some?
  }

  /** What the dashboard shows for a profit of `pnl`, given the close prices recorded at entry. */
  function Shown(p: Position, exitPartial: bool, orders: seq<OrderRow>, initialEdge: real, pnl: real,
                 closeKalshi: Option<real>, closePolymarket: Option<real>): Thresholds
    requires Placed(p)
  {
    ThresholdsFrom(ShownBaseline(p, exitPartial, orders, closeKalshi, closePolymarket),
                   ThresholdLegSize(p, exitPartial, orders), initialEdge, pnl)
  }

  function ShownBaseline(p: Position, exitPartial: bool, orders: seq<OrderRow>,
                         closeKalshi: Option<real>, closePolymarket: Option<real>): real
    requires Placed(p)
  {
    var (kalshiSize, polymarketSize) := ThresholdSizes(p, exitPartial, orders);
    BaselineAt(p, kalshiSize, polymarketSize, closeKalshi, closePolymarket)
  }

  /** The baseline of legs held at given sizes. */
  function BaselineAt(p: Position, kalshiSize: real, polymarketSize: real,
                      closeKalshi: Option<real>, closePolymarket: Option<real>): real
    requires Placed(p)
  {
    EntryCostBaseline(TermsOf(p.kalshi, kalshiSize, closeKalshi),
                      TermsOf(p.polymarket, polymarketSize, closePolymarket))
  }

  /** What closing a leg at `close` would gain on its entry price; nothing if that is no better. */
  function Gained(leg: Leg, close: real, size: real): real
    requires Filled(leg) && leg.side.Some?
  {
    var entry := leg.entry.value.fillPrice.value;
    if leg.side == Some(Bought) then Value(Max(0.0, close - entry), size) else Value(Max(0.0, entry - close), size)
  }

  lemma LegEntryMark(leg: Leg, size: real, close: real, fee: real)
    requires Filled(leg) && leg.side.Some? && leg.entryFeeRate == Some(fee)
    ensures LegCost(TermsOf(leg, size, Some(close)))
         == Gained(leg, close, size) - CalculateLegPnl(leg.side, leg.entry.value.fillPrice.value, close, size)
    ensures ExitFeeAtEntry(TermsOf(leg, size, Some(close))) == Value(Value(close, size), fee)
  {
    var entry := leg.entry.value.fillPrice.value;
    Opposite(close, entry, size);
  }

  lemma Opposite(a: real, b: real, size: real)
    ensures Value(Max(0.0, b - a), size) == Value(Max(0.0, a - b), size) - Value(a - b, size)
  {
    assert (b - a) * size == -((a - b) * size);
  }

  /**
   The baseline is what the dashboard would have marked at the moment of entry: the mark of the same sizes at the
   recorded close prices and fee rates, less what any close better than its entry would gain.
   */
  lemma BaselineIsEntryMark(p: Position, x: real, y: real, m: Market)
    requires Placed(p)
    requires p.kalshi.entryFeeRate == Some(m.feeKalshi) && p.polymarket.entryFeeRate == Some(m.feePolymarket)
    ensures BaselineAt(p, x, y, Some(m.closeKalshi), Some(m.closePolymarket))
         == MarkedPnl(p, x, y, m) - Gained(p.kalshi, m.closeKalshi, x) - Gained(p.polymarket, m.closePolymarket, y)
  {
    LegEntryMark(p.kalshi, x, m.closeKalshi, m.feeKalshi);
    LegEntryMark(p.polymarket, y, m.closePolymarket, m.feePolymarket);
  }

  /** When neither close is better than its entry, it is that mark. */
  lemma WorseClosesAreMarked(p: Position, x: real, y: real, m: Market)
    requires Placed(p)
    requires p.kalshi.entryFeeRate == Some(m.feeKalshi) && p.polymarket.entryFeeRate == Some(m.feePolymarket)
    requires var k := p.kalshi.entry.value.fillPrice.value;
      if p.kalshi.side == Some(Bought) then m.closeKalshi <= k else m.closeKalshi >= k
    requires var q := p.polymarket.entry.value.fillPrice.value;
      if p.polymarket.side == Some(Bought) then m.closePolymarket <= q else m.closePolymarket >= q
    ensures BaselineAt(p, x, y, Some(m.closeKalshi), Some(m.closePolymarket)) == MarkedPnl(p, x, y, m)
  {
    BaselineIsEntryMark(p, x, y, m);
    assert Value(0.0, x) == 0.0 && Value(0.0, y) == 0.0;
  }

  /** With a close price or a fee rate unknown, there is no baseline to speak of. */
  lemma UnknownTermsHaveNoBaseline(p: Position, x: real, y: real,
                                   closeKalshi: Option<real>, closePolymarket: Option<real>)
    requires Placed(p)
    requires || closeKalshi.None? || closePolymarket.None?
             || p.kalshi.entryFeeRate.None? || p.polymarket.entryFeeRate.None?
    ensures BaselineAt(p, x, y, closeKalshi, closePolymarket) == 0.0
  {
  }

  /** 100 contracts bought at 0.50 and sold at 0.55, closing 2 cents worse on both sides, fees of 2%, an edge of 5. */
  lemma BaselineOfTwoCents(pnl: real)
    ensures var p := Position(Leg(Some("k"), Some(EntryFill(Some(0.50), Some(100.0))), Some(Bought), Some(0.02)),
                              Leg(Some("m"), Some(EntryFill(Some(0.55), Some(100.0))), Some(Sold), Some(0.02)));
      var t := Shown(p, false, [], 0.05, pnl, Some(0.48), Some(0.57));
      t.baseline == -6.1 && t.stopLoss == -16.1 && 5.0 * t.takeProfit == 13.9
  {
    var p := Position(Leg(Some("k"), Some(EntryFill(Some(0.50), Some(100.0))), Some(Bought), Some(0.02)),
                      Leg(Some("m"), Some(EntryFill(Some(0.55), Some(100.0))), Some(Sold), Some(0.02)));
    WorseClosesAreMarked(p, 100.0, 100.0, Market(0.48, 0.57, 0.02, 0.02));
    TakeProfitIsFourFifths(-6.1, 5.0);
  }

  method EnrichThresholds(p: Position, exitPartial: bool, orders: seq<OrderRow>, initialEdge: real, currentPnl: real,
                          closeKalshi: Option<real>, closePolymarket: Option<real>) returns (t: Thresholds)
    requires Placed(p)
    ensures t == Shown(p, exitPartial, orders, initialEdge, currentPnl, closeKalshi, closePolymarket)
    ensures var r, x, y := ResidualOf(p, orders), FilledSize(p.kalshi), FilledSize(p.polymarket);
      var (legSize, k, q) := if exitPartial && orders != [] && r.kalshi > 0.0 && r.polymarket > 0.0
                             then (Min(r.kalshi, r.polymarket), r.kalshi, r.polymarket) else (x, x, y);
      t.legSize == legSize && t.baseline == BaselineAt(p, k, q, closeKalshi, closePolymarket)
  {
    var kalshiSize, polymarketSize := p.kalshi.entry.value.fillSize.value, p.polymarket.entry.value.fillSize.value;
    var thresholdLegSize := kalshiSize;
    var thresholdBaseline := EntryCostBaseline(TermsOf(p.kalshi, kalshiSize, closeKalshi),
                                               TermsOf(p.polymarket, polymarketSize, closePolymarket));
    if exitPartial && |orders| > 0 {
      var residual := GetResidualSize(p, orders);
      var residualLegSize := Min(residual.kalshi, residual.polymarket);
      if residualLegSize > 0.0 {
        thresholdLegSize := residualLegSize;
        thresholdBaseline := EntryCostBaseline(TermsOf(p.kalshi, residual.kalshi, closeKalshi),
                                               TermsOf(p.polymarket, residual.polymarket, closePolymarket));
      }
    }
    t := MeasureExit(thresholdBaseline, thresholdLegSize, initialEdge, currentPnl);
  }

  method MeasureExit(thresholdBaseline: real, thresholdLegSize: real, initialEdge: real, currentPnl: real)
    returns (t: Thresholds)
    ensures t == ThresholdsFrom(thresholdBaseline, thresholdLegSize, initialEdge, currentPnl)
  {
    var scaledInitialEdge := initialEdge * thresholdLegSize;
    var stopLoss := StopLoss(thresholdBaseline, scaledInitialEdge);
    var takeProfit := ComputeTakeProfitThreshold(thresholdBaseline, scaledInitialEdge);
    t := Thresholds(thresholdLegSize, thresholdBaseline, stopLoss, takeProfit,
                    CalculateExitProximity(currentPnl, thresholdBaseline, stopLoss),
                    CalculateExitProximity(currentPnl, thresholdBaseline, takeProfit));
  }

  lemma ThresholdsMakeSense(k: LegTerms, p: LegTerms, legSize: real, initialEdge: real, pnl: real)
    requires Sensible(k) && Sensible(p) && legSize > 0.0 && initialEdge > 0.0
    ensures InOrder(ThresholdsAt(k, p, legSize, initialEdge, pnl), initialEdge, pnl)
  {
    PositiveProduct(initialEdge, legSize);
    ThresholdsAreOrdered(k, p, initialEdge * legSize);
    var t := ThresholdsAt(k, p, legSize, initialEdge, pnl);
    ProximitiesMeanCrossing(t.baseline, t.stopLoss, t.takeProfit, pnl);
  }

  ghost predicate InOrder(t: Thresholds, initialEdge: real, pnl: real) {
    && t.stopLoss < t.baseline <= 0.0 < t.takeProfit && 5.0 * t.takeProfit <= 4.0 * (initialEdge * t.legSize)
    && t.stopLoss == t.baseline - 2.0 * (initialEdge * t.legSize)
    && (t.baseline + 4.0 * (initialEdge * t.legSize) > 0.0 ==>
          5.0 * t.takeProfit == t.baseline + 4.0 * (initialEdge * t.legSize))
    && (t.stopLossProximity == 0.0 || t.takeProfitProximity == 0.0) && Tells(t, pnl)
  }

  /** Both proximities tell whether a profit of `pnl` has crossed its threshold. */
  ghost predicate Tells(t: Thresholds, pnl: real) {
    && (t.stopLossProximity == 1.0 <==> pnl <= t.stopLoss)
    && (t.takeProfitProximity == 1.0 <==> pnl >= t.takeProfit)
  }

  /** A position with an edge, entered on both legs at sensible terms. */
  ghost predicate Entered(p: Position, initialEdge: real, closeKalshi: Option<real>, closePolymarket: Option<real>) {
    && Placed(p) && initialEdge > 0.0 && FilledSize(p.kalshi) > 0.0 && FilledSize(p.polymarket) > 0.0
    && Sensible(TermsOf(p.kalshi, FilledSize(p.kalshi), closeKalshi))
    && Sensible(TermsOf(p.polymarket, FilledSize(p.polymarket), closePolymarket))
  }

  /** Whatever has been closed, thresholds are taken at sizes above zero. */
  lemma SizesArePositive(p: Position, exitPartial: bool, orders: seq<OrderRow>)
    requires FilledSize(p.kalshi) > 0.0 && FilledSize(p.polymarket) > 0.0
    ensures ThresholdSizes(p, exitPartial, orders).0 > 0.0 && ThresholdSizes(p, exitPartial, orders).1 > 0.0
    ensures ThresholdLegSize(p, exitPartial, orders) > 0.0
  {
  }

  /**
   What the dashboard shows is in order, before and after any exits: stop loss < baseline <= 0 < take profit <= 80%
   of the edge, at most one proximity above zero, and each at one exactly when the profit has crossed its threshold.
   */
  lemma ShownThresholdsMakeSense(p: Position, exitPartial: bool, orders: seq<OrderRow>, initialEdge: real, pnl: real,
                                 closeKalshi: Option<real>, closePolymarket: Option<real>)
    requires Entered(p, initialEdge, closeKalshi, closePolymarket)
    ensures InOrder(Shown(p, exitPartial, orders, initialEdge, pnl, closeKalshi, closePolymarket), initialEdge, pnl)
  {
    var (x, y) := ThresholdSizes(p, exitPartial, orders);
    SizesArePositive(p, exitPartial, orders);
    ThresholdsMakeSense(TermsOf(p.kalshi, x, closeKalshi), TermsOf(p.polymarket, y, closePolymarket),
                        ThresholdLegSize(p, exitPartial, orders), initialEdge, pnl);
  }

  lemma PositiveProduct(a: real, b: real)
    requires a > 0.0 && b > 0.0
    ensures a * b > 0.0
  {
  }

  /** At a share `f` of both legs, `f` times the profit is as near to the thresholds as the whole profit was before. */
  lemma ShareIsAsNear(k: LegTerms, p: LegTerms, scaledEdge: real, pnl: real, whole: real, f: real)
    requires 0.0 < f <= 1.0 && pnl == f * whole
    ensures var b, b' := EntryCostBaseline(k, p), EntryCostBaseline(Scaled(k, f), Scaled(p, f));
      && CalculateExitProximity(pnl, b', StopLoss(b', f * scaledEdge))
         == CalculateExitProximity(whole, b, StopLoss(b, scaledEdge))
      && CalculateExitProximity(pnl, b', ComputeTakeProfitThreshold(b', f * scaledEdge))
         == CalculateExitProximity(whole, b, ComputeTakeProfitThreshold(b, scaledEdge))
  {
    BaselineScales(k, p, f);
    MagnifiedProximities(EntryCostBaseline(k, p), EntryCostBaseline(Scaled(k, f), Scaled(p, f)), scaledEdge,
                         pnl, whole, f);
  }

  lemma MagnifiedProximities(b: real, b': real, e: real, pnl: real, whole: real, f: real)
    requires f > 0.0 && pnl == f * whole && b' == f * b
    ensures CalculateExitProximity(pnl, b', StopLoss(b', f * e)) == CalculateExitProximity(whole, b, StopLoss(b, e))
    ensures CalculateExitProximity(pnl, b', ComputeTakeProfitThreshold(b', f * e))
         == CalculateExitProximity(whole, b, ComputeTakeProfitThreshold(b, e))
  {
    StopLossScales(b, e, f);
    TakeProfitScales(b, e, f);
    ProximityOfScaled(pnl, whole, b', b, StopLoss(b', f * e), StopLoss(b, e), f);
    ProximityOfScaled(pnl, whole, b', b, ComputeTakeProfitThreshold(b', f * e), ComputeTakeProfitThreshold(b, e), f);
  }

  lemma ProximityOfScaled(pnl: real, whole: real, b': real, b: real, t': real, t: real, f: real)
    requires f > 0.0 && pnl == f * whole && b' == f * b && t' == f * t
    ensures CalculateExitProximity(pnl, b', t') == CalculateExitProximity(whole, b, t)
  {
    ProximityIsScaleInvariant(whole, b, t, f);
  }

  // ----- after a partial exit -----

  lemma MarkIsAdditive(p: Position, x: real, y: real, x': real, y': real, m: Market)
    requires Filled(p.kalshi) && Filled(p.polymarket)
    ensures MarkedPnl(p, x + x', y + y', m) == MarkedPnl(p, x, y, m) + MarkedPnl(p, x', y', m)
  {
    LegMarkIsAdditive(p.kalshi.side, p.kalshi.entry.value.fillPrice.value, m.closeKalshi, x, x', m.feeKalshi);
    LegMarkIsAdditive(p.polymarket.side, p.polymarket.entry.value.fillPrice.value, m.closePolymarket, y, y',
                      m.feePolymarket);
  }

  lemma LegMarkIsAdditive(side: Option<Side>, entryPrice: real, closePrice: real, x: real, x': real, fee: real)
    ensures CalculateLegPnl(side, entryPrice, closePrice, x + x')
         == CalculateLegPnl(side, entryPrice, closePrice, x) + CalculateLegPnl(side, entryPrice, closePrice, x')
    ensures Value(Value(closePrice, x + x'), fee)
         == Value(Value(closePrice, x), fee) + Value(Value(closePrice, x'), fee)
  {
    SharedOut(closePrice - entryPrice, x, x');
    SharedOut(entryPrice - closePrice, x, x');
    SharedOut(closePrice, x, x');
    Distributes(Value(closePrice, x), Value(closePrice, x'), fee);
  }

  lemma SharedOut(price: real, x: real, x': real)
    ensures Value(price, x + x') == Value(price, x) + Value(price, x')
  {
  }

  /**
   `shown` and `due` have the same thresholds, the one with the proximities of the profit `whole`, the other with
   those of `left`. They differ exactly when a threshold lies between the two profits: then an alarm is shown that
   is not due, or one that is due is missed.
   */
  ghost predicate Errs(shown: Thresholds, due: Thresholds, whole: real, left: real) {
    && shown.stopLoss == due.stopLoss && shown.takeProfit == due.takeProfit
    && (shown.stopLossProximity == 1.0 && due.stopLossProximity != 1.0 <==> whole <= shown.stopLoss < left)
    && (shown.stopLossProximity != 1.0 && due.stopLossProximity == 1.0 <==> left <= shown.stopLoss < whole)
    && (shown.takeProfitProximity == 1.0 && due.takeProfitProximity != 1.0 <==> left < shown.takeProfit <= whole)
    && (shown.takeProfitProximity != 1.0 && due.takeProfitProximity == 1.0 <==> whole < shown.takeProfit <= left)
  }

  lemma TellingErrs(shown: Thresholds, due: Thresholds, whole: real, left: real)
    requires shown.stopLoss == due.stopLoss && shown.takeProfit == due.takeProfit
    requires Tells(shown, whole) && Tells(due, left)
    ensures Errs(shown, due, whole, left)
  {
  }

  /**
   The dashboard compares the profit of the sizes at entry with thresholds of the sizes left. Whatever is left of the
   two legs, its alarms are wrong exactly when the profit `gone` of what has been closed, which it still counts,
   carries the profit of what is left across a threshold, in the one direction or the other.
   */
  lemma PartialExitMisleadsIff(p: Position, orders: seq<OrderRow>, initialEdge: real, m: Market,
                               closeKalshi: Option<real>, closePolymarket: Option<real>)
    requires Entered(p, initialEdge, closeKalshi, closePolymarket)
    ensures var x, y, r := FilledSize(p.kalshi), FilledSize(p.polymarket), ResidualOf(p, orders);
      var left, gone := MarkedPnl(p, r.kalshi, r.polymarket, m), MarkedPnl(p, x - r.kalshi, y - r.polymarket, m);
      && CurrentPnl(p, m) == left + gone
      && Errs(Shown(p, true, orders, initialEdge, left + gone, closeKalshi, closePolymarket),
              Shown(p, true, orders, initialEdge, left, closeKalshi, closePolymarket), left + gone, left)
  {
    var x, y, r := FilledSize(p.kalshi), FilledSize(p.polymarket), ResidualOf(p, orders);
    var left, gone := MarkedPnl(p, r.kalshi, r.polymarket, m), MarkedPnl(p, x - r.kalshi, y - r.polymarket, m);
    MarkIsAdditive(p, r.kalshi, r.polymarket, x - r.kalshi, y - r.polymarket, m);
    ShownErrs(p, orders, initialEdge, left + gone, left, closeKalshi, closePolymarket);
  }

  lemma ShownErrs(p: Position, orders: seq<OrderRow>, initialEdge: real, whole: real, left: real,
                  closeKalshi: Option<real>, closePolymarket: Option<real>)
    requires Entered(p, initialEdge, closeKalshi, closePolymarket)
    ensures Errs(Shown(p, true, orders, initialEdge, whole, closeKalshi, closePolymarket),
                 Shown(p, true, orders, initialEdge, left, closeKalshi, closePolymarket), whole, left)
  {
    ShownThresholdsMakeSense(p, true, orders, initialEdge, whole, closeKalshi, closePolymarket);
    ShownThresholdsMakeSense(p, true, orders, initialEdge, left, closeKalshi, closePolymarket);
    TellingErrs(Shown(p, true, orders, initialEdge, whole, closeKalshi, closePolymarket),
                Shown(p, true, orders, initialEdge, left, closeKalshi, closePolymarket), whole, left);
  }

  /** With 90 of 100 contracts closed on Kalshi only, a stop loss that is due is missed and a take profit shown. */
  lemma MissedStopLoss()
    ensures var (p, orders) := OneLegClosed(); var m := Market(0.90, 0.90, 0.0, 0.0);
      && ResidualOf(p, orders) == Residual(10.0, 100.0, false)
      && Shown(p, true, orders, 0.02, CurrentPnl(p, m), None, None).stopLossProximity != 1.0
      && Shown(p, true, orders, 0.02, CurrentPnl(p, m), None, None).takeProfitProximity == 1.0
      && Shown(p, true, orders, 0.02, MarkedPnl(p, 10.0, 100.0, m), None, None).stopLossProximity == 1.0
  {
    var (p, orders) := OneLegClosed();
    var m := Market(0.90, 0.90, 0.0, 0.0);
    assert CurrentPnl(p, m) == 2.0 && MarkedPnl(p, 10.0, 100.0, m) == -34.0;
    LevelsAtOneLeg(2.0);
    LevelsAtOneLeg(-34.0);
  }

  function OneLegClosed(): (Position, seq<OrderRow>) {
    (HalfClosed().0, [OrderRow("x", Kalshi, Some(0.50), Some(90.0))])
  }

  /** With 10 contracts left on one leg and 100 on the other, the thresholds are those of 10. */
  lemma LevelsAtOneLeg(pnl: real)
    ensures var (p, orders) := OneLegClosed();
      var t := Shown(p, true, orders, 0.02, pnl, None, None);
      && ResidualOf(p, orders) == Residual(10.0, 100.0, false)
      && (t.stopLossProximity == 1.0 <==> pnl <= -0.4) && (t.takeProfitProximity == 1.0 <==> pnl >= 0.16)
  {
    var (p, orders) := OneLegClosed();
    assert orders[1..] == [];
    assert Closed(p, orders[1..], Kalshi) == 0.0 && Closed(p, orders[1..], Polymarket) == 0.0;
    ShownAfterPartialExit(p, orders, 0.02, pnl, None, None);
    ShownMeasures(0.0, 10.0, 0.02, pnl, 0.2);
  }

  // ----- after a partial exit of equal shares -----

  /** A share `f` of both legs is left. */
  ghost predicate ShareLeft(p: Position, orders: seq<OrderRow>, f: real) {
    && 0.0 < f <= 1.0
    && ResidualOf(p, orders).kalshi == f * FilledSize(p.kalshi)
    && ResidualOf(p, orders).polymarket == f * FilledSize(p.polymarket)
  }

  lemma MarkScales(p: Position, x: real, y: real, x': real, y': real, m: Market, f: real)
    requires Filled(p.kalshi) && Filled(p.polymarket) && x' == f * x && y' == f * y
    ensures MarkedPnl(p, x', y', m) == f * MarkedPnl(p, x, y, m)
  {
    var entryK, entryP := p.kalshi.entry.value.fillPrice.value, p.polymarket.entry.value.fillPrice.value;
    LegMarkScales(p.kalshi.side, entryK, m.closeKalshi, x, m.feeKalshi, f);
    LegMarkScales(p.polymarket.side, entryP, m.closePolymarket, y, m.feePolymarket, f);
    Shared(f, -CalculateLegPnl(p.kalshi.side, entryK, m.closeKalshi, x),
           -CalculateLegPnl(p.polymarket.side, entryP, m.closePolymarket, y),
           Value(Value(m.closeKalshi, x), m.feeKalshi), Value(Value(m.closePolymarket, y), m.feePolymarket));
  }

  lemma LegMarkScales(side: Option<Side>, entryPrice: real, closePrice: real, size: real, fee: real, f: real)
    ensures CalculateLegPnl(side, entryPrice, closePrice, f * size)
         == f * CalculateLegPnl(side, entryPrice, closePrice, size)
    ensures Value(Value(closePrice, f * size), fee) == f * Value(Value(closePrice, size), fee)
  {
    Reassociated(closePrice - entryPrice, f, size);
    Reassociated(entryPrice - closePrice, f, size);
    Reassociated(closePrice, f, size);
    Reassociated(fee, f, Value(closePrice, size));
  }

  /**
   Shown for the profit `whole` of the sizes at entry, the thresholds of the sizes left raise an alarm that is not
   due exactly between those thresholds, `f` times the thresholds at entry, and the latter, and miss none that is due.
   */
  ghost predicate Misleads(shown: Thresholds, due: Thresholds, entry: Thresholds, whole: real, f: real) {
    AreShares(shown, entry, f) && AlarmsFalsely(shown, due, entry, whole)
  }

  ghost predicate AreShares(shown: Thresholds, entry: Thresholds, f: real) {
    shown.stopLoss == f * entry.stopLoss && shown.takeProfit == f * entry.takeProfit
  }

  ghost predicate AlarmsFalsely(shown: Thresholds, due: Thresholds, entry: Thresholds, whole: real) {
    && (shown.stopLossProximity == 1.0 && due.stopLossProximity < 1.0 <==> entry.stopLoss < whole <= shown.stopLoss)
    && (shown.takeProfitProximity == 1.0 && due.takeProfitProximity < 1.0
        <==> shown.takeProfit <= whole < entry.takeProfit)
    && (due.stopLossProximity == 1.0 ==> shown.stopLossProximity == 1.0)
    && (due.takeProfitProximity == 1.0 ==> shown.takeProfitProximity == 1.0)
  }

  lemma SameSide(x: real, y: real, x': real, y': real, f: real)
    requires f > 0.0 && x' == f * x && y' == f * y
    ensures x' <= y' <==> x <= y
  {
    SignOfProduct(y - x, f);
    assert (y - x) * f == y' - x';
  }

  lemma NearerToZero(x: real, x': real, f: real)
    requires 0.0 < f <= 1.0 && x' == f * x
    ensures x >= 0.0 ==> x' <= x
    ensures x <= 0.0 ==> x' >= x
  {
    assert (1.0 - f) * x == x - x';
  }

  /** What is shown for `whole` and what a share `f` of it would show, with thresholds `f` times those at entry. */
  lemma AlarmsDiffer(shown: Thresholds, due: Thresholds, entry: Thresholds, sl: real, tp: real, sl': real, tp': real,
                     whole: real, left: real, f: real)
    requires 0.0 < f <= 1.0 && sl' == f * sl && tp' == f * tp && left == f * whole && sl <= 0.0 <= tp
    requires shown.stopLoss == due.stopLoss == sl' && shown.takeProfit == due.takeProfit == tp'
    requires entry.stopLoss == sl && entry.takeProfit == tp && Tells(shown, whole) && Tells(due, left)
    requires due.stopLossProximity <= 1.0 && due.takeProfitProximity <= 1.0
    ensures AlarmsFalsely(shown, due, entry, whole)
  {
    SameSide(whole, sl, left, sl', f);
    SameSide(tp, whole, tp', left, f);
    NearerToZero(sl, sl', f);
    NearerToZero(tp, tp', f);
  }

  lemma LevelsInOrder(b: real, e: real)
    requires b <= 0.0 && e > 0.0
    ensures StopLoss(b, e) <= 0.0 <= ComputeTakeProfitThreshold(b, e)
  {
  }

  lemma LevelsOfShare(b: real, e: real, b': real, e': real, f: real)
    requires f > 0.0 && b' == f * b && e' == f * e
    ensures StopLoss(b', e') == f * StopLoss(b, e)
    ensures ComputeTakeProfitThreshold(b', e') == f * ComputeTakeProfitThreshold(b, e)
  {
    StopLossScales(b, e, f);
    TakeProfitScales(b, e, f);
  }

  /** `t` has the thresholds of a baseline and an edge, and its proximities tell where `pnl` is. */
  ghost predicate Measures(t: Thresholds, b: real, e: real, pnl: real) {
    && t.stopLoss == StopLoss(b, e) && t.takeProfit == ComputeTakeProfitThreshold(b, e) && Tells(t, pnl)
    && t.stopLossProximity <= 1.0 && t.takeProfitProximity <= 1.0
  }

  lemma ShownMeasures(b: real, legSize: real, initialEdge: real, pnl: real, e: real)
    requires b <= 0.0 && e == initialEdge * legSize > 0.0
    ensures Measures(ThresholdsFrom(b, legSize, initialEdge, pnl), b, e, pnl)
  {
    ProximitiesMeanCrossing(b, StopLoss(b, e), ComputeTakeProfitThreshold(b, e), pnl);
  }

  lemma MeasuresAreShares(shown: Thresholds, entry: Thresholds, b: real, e: real, b': real, e': real,
                          pnl: real, pnl': real, f: real)
    requires f > 0.0 && b' == f * b && e' == f * e
    requires Measures(shown, b', e', pnl') && Measures(entry, b, e, pnl)
    ensures AreShares(shown, entry, f)
  {
    LevelsOfShare(b, e, b', e', f);
  }

  lemma MeasuresDiffer(shown: Thresholds, due: Thresholds, entry: Thresholds, b: real, e: real, b': real, e': real,
                       whole: real, left: real, f: real)
    requires b <= 0.0 && e > 0.0 && 0.0 < f <= 1.0 && b' == f * b && e' == f * e && left == f * whole
    requires Measures(shown, b', e', whole) && Measures(due, b', e', left) && Measures(entry, b, e, whole)
    ensures AlarmsFalsely(shown, due, entry, whole)
  {
    LevelsInOrder(b, e);
    LevelsOfShare(b, e, b', e', f);
    AlarmsDiffer(shown, due, entry, StopLoss(b, e), ComputeTakeProfitThreshold(b, e),
                 StopLoss(b', e'), ComputeTakeProfitThreshold(b', e'), whole, left, f);
  }

  lemma ShareMisleadsIff(b: real, legSize: real, b': real, legSize': real, initialEdge: real, whole: real, left: real,
                         e: real, e': real, f: real)
    requires b <= 0.0 && b' <= 0.0 && 0.0 < f <= 1.0 && left == f * whole
    requires e == initialEdge * legSize > 0.0 && e' == initialEdge * legSize' > 0.0
    requires b' == f * b && e' == f * e
    ensures Misleads(ThresholdsFrom(b', legSize', initialEdge, whole), ThresholdsFrom(b', legSize', initialEdge, left),
                     ThresholdsFrom(b, legSize, initialEdge, whole), whole, f)
  {
    ShownMeasures(b, legSize, initialEdge, whole, e);
    ShownMeasures(b', legSize', initialEdge, whole, e');
    ShownMeasures(b', legSize', initialEdge, left, e');
    MeasuresAreShares(ThresholdsFrom(b', legSize', initialEdge, whole), ThresholdsFrom(b, legSize, initialEdge, whole),
                      b, e, b', e', whole, whole, f);
    MeasuresDiffer(ThresholdsFrom(b', legSize', initialEdge, whole), ThresholdsFrom(b', legSize', initialEdge, left),
                   ThresholdsFrom(b, legSize, initialEdge, whole), b, e, b', e', whole, left, f);
  }

  lemma EdgeOfShare(x: real, y: real, x': real, y': real, f: real, initialEdge: real)
    requires initialEdge > 0.0 && f > 0.0 && x > 0.0 && y > 0.0 && x' == f * x && y' == f * y
    ensures initialEdge * Min(x, y) > 0.0 && initialEdge * Min(x', y') > 0.0
    ensures initialEdge * Min(x', y') == f * (initialEdge * Min(x, y))
  {
    SameSide(x, y, x', y', f);
    PositiveProduct(f, Min(x, y));
    PositiveProduct(initialEdge, Min(x, y));
    PositiveProduct(initialEdge, Min(x', y'));
    Exchanged(initialEdge, f, Min(x, y));
  }

  lemma Exchanged(x: real, f: real, y: real)
    ensures x * (f * y) == f * (x * y)
  {
  }

  lemma TermsOfShare(leg: Leg, size: real, close: Option<real>, f: real)
    requires Filled(leg) && leg.side.Some?
    ensures TermsOf(leg, f * size, close) == Scaled(TermsOf(leg, size, close), f)
  {
  }

  lemma BaselineOfShare(p: Position, x: real, y: real, x': real, y': real,
                        closeKalshi: Option<real>, closePolymarket: Option<real>, f: real)
    requires Placed(p) && x' == f * x && y' == f * y
    ensures BaselineAt(p, x', y', closeKalshi, closePolymarket) == f * BaselineAt(p, x, y, closeKalshi, closePolymarket)
  {
    TermsOfShare(p.kalshi, x, closeKalshi, f);
    TermsOfShare(p.polymarket, y, closePolymarket, f);
    BaselineScales(TermsOf(p.kalshi, x, closeKalshi), TermsOf(p.polymarket, y, closePolymarket), f);
  }

  /** The thresholds at given sizes. */
  function AtSizes(p: Position, x: real, y: real, initialEdge: real, pnl: real,
                   closeKalshi: Option<real>, closePolymarket: Option<real>): Thresholds
    requires Placed(p)
  {
    ThresholdsFrom(BaselineAt(p, x, y, closeKalshi, closePolymarket), Min(x, y), initialEdge, pnl)
  }

  lemma ShareOfLegsMisleadsIff(p: Position, x: real, y: real, x': real, y': real, f: real, initialEdge: real,
                               whole: real, left: real, closeKalshi: Option<real>, closePolymarket: Option<real>)
    requires Placed(p) && initialEdge > 0.0 && 0.0 < f <= 1.0 && x > 0.0 && y > 0.0
    requires x' == f * x && y' == f * y && left == f * whole
    requires Sensible(TermsOf(p.kalshi, x, closeKalshi)) && Sensible(TermsOf(p.polymarket, y, closePolymarket))
    ensures Misleads(AtSizes(p, x', y', initialEdge, whole, closeKalshi, closePolymarket),
                     AtSizes(p, x', y', initialEdge, left, closeKalshi, closePolymarket),
                     AtSizes(p, x, y, initialEdge, whole, closeKalshi, closePolymarket), whole, f)
  {
    ProductIsNonNegative(f, x);
    ProductIsNonNegative(f, y);
    BaselineOfShare(p, x, y, x', y', closeKalshi, closePolymarket, f);
    BaselineIsNotPositive(TermsOf(p.kalshi, x, closeKalshi), TermsOf(p.polymarket, y, closePolymarket));
    BaselineIsNotPositive(TermsOf(p.kalshi, x', closeKalshi), TermsOf(p.polymarket, y', closePolymarket));
    EdgeOfShare(x, y, x', y', f, initialEdge);
    ShareMisleadsIff(BaselineAt(p, x, y, closeKalshi, closePolymarket), Min(x, y),
                     BaselineAt(p, x', y', closeKalshi, closePolymarket), Min(x', y'), initialEdge, whole, left,
                     initialEdge * Min(x, y), initialEdge * Min(x', y'), f);
  }

  lemma ShownAfterPartialExit(p: Position, orders: seq<OrderRow>, initialEdge: real, pnl: real,
                              closeKalshi: Option<real>, closePolymarket: Option<real>)
    requires Placed(p) && orders != []
    requires var r := ResidualOf(p, orders); r.kalshi > 0.0 && r.polymarket > 0.0
    ensures var r := ResidualOf(p, orders);
      Shown(p, true, orders, initialEdge, pnl, closeKalshi, closePolymarket)
      == AtSizes(p, r.kalshi, r.polymarket, initialEdge, pnl, closeKalshi, closePolymarket)
  {
  }

  /**
   When the same share of both legs is left, no alarm that is due is missed: a stop loss is shown that what is left
   has not reached exactly for profits above the entry's stop loss and up to the one shown, and a take profit that it
   has not reached exactly for those from the one shown to just below the entry's.
   */
  lemma EqualSharesMisleadIff(p: Position, orders: seq<OrderRow>, f: real, initialEdge: real, m: Market,
                              closeKalshi: Option<real>, closePolymarket: Option<real>)
    requires Entered(p, initialEdge, closeKalshi, closePolymarket) && orders != [] && ShareLeft(p, orders, f)
    ensures var x, y, r := FilledSize(p.kalshi), FilledSize(p.polymarket), ResidualOf(p, orders);
      var whole, left := CurrentPnl(p, m), MarkedPnl(p, r.kalshi, r.polymarket, m);
      Misleads(Shown(p, true, orders, initialEdge, whole, closeKalshi, closePolymarket),
               Shown(p, true, orders, initialEdge, left, closeKalshi, closePolymarket),
               AtSizes(p, x, y, initialEdge, whole, closeKalshi, closePolymarket), whole, f)
  {
    var x, y, r := FilledSize(p.kalshi), FilledSize(p.polymarket), ResidualOf(p, orders);
    var whole, left := CurrentPnl(p, m), MarkedPnl(p, r.kalshi, r.polymarket, m);
    MarkScales(p, x, y, r.kalshi, r.polymarket, m, f);
    PositiveProduct(f, x);
    PositiveProduct(f, y);
    ShareOfLegsMisleadsIff(p, x, y, r.kalshi, r.polymarket, f, initialEdge, whole, left, closeKalshi, closePolymarket);
    ShownAfterPartialExit(p, orders, initialEdge, whole, closeKalshi, closePolymarket);
    ShownAfterPartialExit(p, orders, initialEdge, left, closeKalshi, closePolymarket);
  }

  function HalfClosed(): (Position, seq<OrderRow>) {
    (Position(Leg(Some("k"), Some(EntryFill(Some(0.50), Some(100.0))), Some(Bought), Some(0.0)),
              Leg(Some("m"), Some(EntryFill(Some(0.52), Some(100.0))), Some(Sold), Some(0.0))),
     [OrderRow("x", Kalshi, Some(0.50), Some(50.0)), OrderRow("y", Polymarket, Some(0.52), Some(50.0))])
  }

  lemma HalfIsLeft()
    ensures var (p, orders) := HalfClosed();
      ShareLeft(p, orders, 0.5) && ResidualOf(p, orders) == Residual(50.0, 50.0, false)
  {
    var (p, orders) := HalfClosed();
    assert orders[1..] == [orders[1]] && orders[1..][1..] == [];
    assert Closed(p, orders[1..][1..], Kalshi) == 0.0 && Closed(p, orders[1..][1..], Polymarket) == 0.0;
  }

  /** At an edge of 2 cents and 50 contracts, without entry costs, the stop loss is at -2 and the take profit at 0.8. */
  lemma LevelsAtHalf(pnl: real)
    ensures var (p, orders) := HalfClosed();
      var t := Shown(p, true, orders, 0.02, pnl, None, None);
      && (t.stopLossProximity == 1.0 <==> pnl <= -2.0) && (t.takeProfitProximity == 1.0 <==> pnl >= 0.8)
  {
    var (p, orders) := HalfClosed();
    HalfIsLeft();
    ShownAfterPartialExit(p, orders, 0.02, pnl, None, None);
    ShownMeasures(0.0, 50.0, 0.02, pnl, 1.0);
  }

  /**
   With half of 100 contracts closed, a loss of 3 cents each on those left is shown as a stop loss, and a gain of
   1 cent each as a take profit. At an edge of 2 cents neither is due.
   */
  lemma FalseAlarms()
    ensures var (p, orders) := HalfClosed();
      var loss, gain := Market(0.47, 0.52, 0.0, 0.0), Market(0.51, 0.52, 0.0, 0.0);
      && Shown(p, true, orders, 0.02, CurrentPnl(p, loss), None, None).stopLossProximity == 1.0
      && Shown(p, true, orders, 0.02, MarkedPnl(p, 50.0, 50.0, loss), None, None).stopLossProximity != 1.0
      && Shown(p, true, orders, 0.02, CurrentPnl(p, gain), None, None).takeProfitProximity == 1.0
      && Shown(p, true, orders, 0.02, MarkedPnl(p, 50.0, 50.0, gain), None, None).takeProfitProximity != 1.0
  {
    var (p, orders) := HalfClosed();
    var loss, gain := Market(0.47, 0.52, 0.0, 0.0), Market(0.51, 0.52, 0.0, 0.0);
    assert CurrentPnl(p, loss) == -3.0 && MarkedPnl(p, 50.0, 50.0, loss) == -1.5;
    assert CurrentPnl(p, gain) == 1.0 && MarkedPnl(p, 50.0, 50.0, gain) == 0.5;
    LevelsAtHalf(-3.0);
    LevelsAtHalf(-1.5);
    LevelsAtHalf(1.0);
    LevelsAtHalf(0.5);
  }
}
