/** From price gaps to opportunities: depth, edge and return gates, with a depth-scaled threshold. */
module EdgeCalculator {
  import opened Wrappers
  import opened Levels
  import opened Vwap
  import opened EdgeMath
  import opened Detection
  import opened Reals

  datatype Config = Config(
    minEdgeThreshold: real, detectionMinFillRatio: real, depthEdgeScalingFactor: real, maxDynamicEdgeThreshold: real) {

    predicate Valid() {
      && minEdgeThreshold >= 0.0 && 0.0 < detectionMinFillRatio <= 1.0
      && depthEdgeScalingFactor >= 0.0 && 0.0 < maxDynamicEdgeThreshold <= 1.0
    }
  }

  /** What connectors, degradation protocol, configuration and clock answer; no fees means that the call failed. */
  datatype Env = Env(
    kalshiFees: Option<FeeSchedule>, polymarketFees: Option<FeeSchedule>, multiplier: Platform -> real,
    gasEstimateUsd: real, positionSizeUsd: real, minAnnualizedReturn: real)

  datatype Reason =
    | InsufficientVwapDepth | NegativeEdge | BelowThreshold
    | NoResolutionDate | ResolutionDatePassed | AnnualizedReturnBelowMinimum

  datatype FilteredDislocation = FilteredDislocation(
    pairEventDescription: string, netEdge: real, threshold: Option<real>, reason: Reason,
    bestLevelNetEdge: Option<real>)

  datatype EnrichedOpportunity = EnrichedOpportunity(
    dislocation: RawDislocation, netEdge: real, grossEdge: real, bestLevelNetEdge: real,
    vwapBuyPrice: real, vwapSellPrice: real, buyFillRatio: real, sellFillRatio: real,
    feeBreakdown: FeeBreakdown, annualizedReturn: real, effectiveMinEdge: real)

  const MS_PER_DAY := 86_400_000.0

  // ----- the depth-scaled threshold -----

  function DynamicThreshold(c: Config, minDepth: real): real
    requires minDepth > 0.0
  {
    Min(Value(c.minEdgeThreshold, 1.0 + c.depthEdgeScalingFactor / minDepth), c.maxDynamicEdgeThreshold)
  }

  /** The threshold in force for a trade whose shallower side holds `minDepth` contracts. */
  function BaseThreshold(c: Config, minDepth: real): real {
    if c.depthEdgeScalingFactor > 0.0 && minDepth > 0.0 then DynamicThreshold(c, minDepth) else c.minEdgeThreshold
  }

  /** With scaling on, deeper books never raise the threshold, which stays between the base, if lower, and the cap. */
  lemma DynamicThresholdFallsWithDepth(c: Config, shallow: real, deep: real)
    requires c.Valid() && 0.0 < shallow <= deep
    ensures DynamicThreshold(c, deep) <= DynamicThreshold(c, shallow)
    ensures Min(c.minEdgeThreshold, c.maxDynamicEdgeThreshold) <= DynamicThreshold(c, deep) <= c.maxDynamicEdgeThreshold
  {
    var s, d := c.depthEdgeScalingFactor / shallow, c.depthEdgeScalingFactor / deep;
    ShareShrinks(c.depthEdgeScalingFactor, shallow, deep);
    DearerCostsMore(c.minEdgeThreshold, 1.0 + d, 1.0 + s);
    DearerCostsMore(c.minEdgeThreshold, 1.0, 1.0 + d);
  }

  /**
   The threshold in force, multiplier included: deeper books never raise it, and it stays between the lower and the
   higher of base and cap. Without scaling it is the base, even above the cap.
   */
  lemma ThresholdInForceFallsWithDepth(c: Config, shallow: real, deep: real, multiplier: real)
    requires c.Valid() && 0.0 < shallow <= deep && multiplier >= 0.0
    ensures var low, high := Value(BaseThreshold(c, deep), multiplier), Value(BaseThreshold(c, shallow), multiplier);
      && low <= high
      && (if c.depthEdgeScalingFactor > 0.0
          then Value(Min(c.minEdgeThreshold, c.maxDynamicEdgeThreshold), multiplier) <= low
               && high <= Value(c.maxDynamicEdgeThreshold, multiplier)
          else low == high == Value(c.minEdgeThreshold, multiplier))
  {
    DynamicThresholdFallsWithDepth(c, shallow, deep);
    MoreIsWorthMore(BaseThreshold(c, deep), BaseThreshold(c, shallow), multiplier);
    MoreIsWorthMore(Min(c.minEdgeThreshold, c.maxDynamicEdgeThreshold), BaseThreshold(c, deep), multiplier);
    MoreIsWorthMore(BaseThreshold(c, shallow), c.maxDynamicEdgeThreshold, multiplier);
  }

  /**
   The threshold in force by its settings: the base, and where scaling is on a surcharge that is the same in base
   times factor at every depth, as long as that does not pass the cap.
   */
  predicate InForce(c: Config, depth: real, threshold: real) {
    var base, factor, cap := c.minEdgeThreshold, c.depthEdgeScalingFactor, c.maxDynamicEdgeThreshold;
    if factor <= 0.0 || depth <= 0.0 then threshold == base
    else if (cap - base) * depth <= base * factor then threshold == cap
    else (threshold - base) * depth == base * factor
  }

  /** Just one threshold is in force at a depth. */
  lemma InForceIffBase(c: Config, depth: real, threshold: real)
    ensures InForce(c, depth, threshold) <==> threshold == BaseThreshold(c, depth)
  {
    if c.depthEdgeScalingFactor > 0.0 && depth > 0.0 {
      var base, share := c.minEdgeThreshold, c.depthEdgeScalingFactor / depth;
      assert share * depth == c.depthEdgeScalingFactor;
      Surcharged(base, share, depth, c.depthEdgeScalingFactor);
      SameFactor(threshold - base, base * share, depth);
      SameOrder(c.maxDynamicEdgeThreshold - base, base * share, depth);
    }
  }

  lemma Surcharged(base: real, share: real, depth: real, factor: real)
    requires share * depth == factor
    ensures Value(base, 1.0 + share) == base + base * share
    ensures (base * share) * depth == base * factor
  {
    assert (base * share) * depth == base * (share * depth);
  }

  lemma SameFactor(x: real, y: real, a: real)
    requires a > 0.0
    ensures x * a == y * a <==> x == y
  {
    assert (x - y) * a == x * a - y * a;
  }

  lemma SameOrder(x: real, y: real, a: real)
    requires a > 0.0
    ensures x * a <= y * a <==> x <= y
  {
    assert (y - x) * a == y * a - x * a;
    if x <= y {
      ProductIsNonNegative(y - x, a);
    }
    if y * a - x * a >= 0.0 {
      SignOfFactor(y - x, a);
    }
  }

  /** At a depth equal to the scaling factor the threshold is twice the base, up to the cap. */
  lemma DoubledAtTheFactor(c: Config)
    requires c.depthEdgeScalingFactor > 0.0
    ensures BaseThreshold(c, c.depthEdgeScalingFactor) == Min(2.0 * c.minEdgeThreshold, c.maxDynamicEdgeThreshold)
  {
    assert c.depthEdgeScalingFactor / c.depthEdgeScalingFactor == 1.0;
  }

  lemma MoreIsWorthMore(a: real, b: real, x: real)
    requires x >= 0.0
    ensures a <= b ==> Value(a, x) <= Value(b, x)
  {
    assert (b - a) * x == b * x - a * x;
  }

  lemma ShareShrinks(x: real, a: real, b: real)
    requires x >= 0.0 && 0.0 < a <= b
    ensures 0.0 <= x / b <= x / a
  {
    assert (x / a) * a == x && (x / b) * b == x;
    SignOfFactor(x / b, b);
    SignOfFactor(x / a, a);
    DearerCostsMore(x / a, a, b);
    assert (x / a - x / b) * b >= 0.0;
    SignOfFactor(x / a - x / b, b);
  }

  // ----- the gates -----

  function FeesOf(env: Env, platform: Platform): Option<FeeSchedule> {
    if platform.Kalshi? then env.kalshiFees else env.polymarketFees
  }

  predicate FeesKnown(env: Env, d: RawDislocation) {
    FeesOf(env, d.buyPlatform).Some? && FeesOf(env, d.sellPlatform).Some?
  }

  /** The first fee schedule that has a gas estimate decides; the buying platform's is asked first. */
  function Gas(env: Env, d: RawDislocation): real
    requires FeesKnown(env, d)
  {
    var b, s := FeesOf(env, d.buyPlatform).value.gasEstimateUsd, FeesOf(env, d.sellPlatform).value.gasEstimateUsd;
    if b.Some? then b.value else if s.Some? then s.value else env.gasEstimateUsd
  }

  /** What filling both legs of a dislocation would be like. */
  datatype Legs = Legs(buyTarget: real, sellTarget: real, buy: VwapFillResult, sell: VwapFillResult)

  predicate Fillable(env: Env, d: RawDislocation) {
    && d.buyPrice != 0.0 && d.sellPrice != 0.0
    && Fill(d.buyBook.asks, Ceil(env.positionSizeUsd / d.buyPrice)).Some?
    && Fill(d.sellBook.bids, Ceil(env.positionSizeUsd / d.sellPrice)).Some?
  }

  function LegsOf(env: Env, d: RawDislocation): (legs: Legs)
    requires Fillable(env, d)
    ensures legs.buyTarget > 0.0 && legs.sellTarget > 0.0 && env.positionSizeUsd != 0.0
  {
    var b, s := Ceil(env.positionSizeUsd / d.buyPrice), Ceil(env.positionSizeUsd / d.sellPrice);
    Legs(b, s, Fill(d.buyBook.asks, b).value, Fill(d.sellBook.bids, s).value)
  }

  /** Both legs fill the configured share of the position. */
  predicate DeepEnough(c: Config, env: Env, d: RawDislocation) {
    Fillable(env, d) &&
    var l := LegsOf(env, d);
    && l.buy.filledQty / l.buyTarget >= c.detectionMinFillRatio
    && l.sell.filledQty / l.sellTarget >= c.detectionMinFillRatio
  }

  function EdgeAt(env: Env, d: RawDislocation, gross: real, buy: real, sell: real): real
    requires FeesKnown(env, d) && env.positionSizeUsd != 0.0
  {
    NetEdge(gross, buy, sell, FeesOf(env, d.buyPlatform).value, FeesOf(env, d.sellPlatform).value,
            Gas(env, d), env.positionSizeUsd).value
  }

  function VwapEdge(env: Env, d: RawDislocation): real
    requires FeesKnown(env, d) && Fillable(env, d)
  {
    var l := LegsOf(env, d);
    EdgeAt(env, d, l.sell.vwap - l.buy.vwap, l.buy.vwap, l.sell.vwap)
  }

  function Threshold(c: Config, env: Env, d: RawDislocation): real
    requires Fillable(env, d)
  {
    var l := LegsOf(env, d);
    Value(BaseThreshold(c, Min(l.buy.totalQtyAvailable, l.sell.totalQtyAvailable)), env.multiplier(d.buyPlatform))
  }

  function DaysToResolution(d: RawDislocation, nowMs: int): real
    requires d.pairConfig.resolutionDateMs.Some?
  {
    (d.pairConfig.resolutionDateMs.value - nowMs) as real / MS_PER_DAY
  }

  function AnnualizedReturn(env: Env, d: RawDislocation, nowMs: int): real
    requires FeesKnown(env, d) && Fillable(env, d)
    requires d.pairConfig.resolutionDateMs.Some? && DaysToResolution(d, nowMs) != 0.0
  {
    Value(VwapEdge(env, d), 365.0 / DaysToResolution(d, nowMs))
  }

  predicate ReturnsEnough(env: Env, d: RawDislocation, nowMs: int)
    requires FeesKnown(env, d) && Fillable(env, d)
  {
    && d.pairConfig.resolutionDateMs.Some?
    && DaysToResolution(d, nowMs) > 0.0
    && AnnualizedReturn(env, d, nowMs) >= env.minAnnualizedReturn
  }

  predicate WideEnough(c: Config, env: Env, d: RawDislocation)
    requires FeesKnown(env, d)
  {
    DeepEnough(c, env, d) && VwapEdge(env, d) >= Threshold(c, env, d)
  }

  /** A dislocation is acted upon exactly when it passes every gate. */
  predicate Actionable(c: Config, env: Env, d: RawDislocation, nowMs: int) {
    FeesKnown(env, d) && WideEnough(c, env, d) && ReturnsEnough(env, d, nowMs)
  }

  /** Why a dislocation is dropped, stated gate by gate. */
  predicate DroppedFor(c: Config, env: Env, d: RawDislocation, nowMs: int, reason: Reason)
    requires FeesKnown(env, d)
  {
    match reason
    case InsufficientVwapDepth => !DeepEnough(c, env, d)
    case NegativeEdge => DeepEnough(c, env, d) && VwapEdge(env, d) < Threshold(c, env, d) && VwapEdge(env, d) < 0.0
    case BelowThreshold => DeepEnough(c, env, d) && 0.0 <= VwapEdge(env, d) < Threshold(c, env, d)
    case NoResolutionDate => WideEnough(c, env, d) && d.pairConfig.resolutionDateMs.None?
    case ResolutionDatePassed =>
      WideEnough(c, env, d) && d.pairConfig.resolutionDateMs.Some? && DaysToResolution(d, nowMs) <= 0.0
    case AnnualizedReturnBelowMinimum =>
      && WideEnough(c, env, d) && d.pairConfig.resolutionDateMs.Some? && DaysToResolution(d, nowMs) > 0.0
      && AnnualizedReturn(env, d, nowMs) < env.minAnnualizedReturn
  }

  /** The record that `d` leaves when it is dropped. */
  predicate FilteredAs(c: Config, env: Env, d: RawDislocation, nowMs: int, f: FilteredDislocation) {
    && FeesKnown(env, d) && DroppedFor(c, env, d, nowMs, f.reason)
    && f.pairEventDescription == d.pairConfig.eventDescription
  }

  function Enriched(c: Config, env: Env, d: RawDislocation, nowMs: int): EnrichedOpportunity
    requires Actionable(c, env, d, nowMs)
  {
    var l := LegsOf(env, d);
    EnrichedOpportunity(
      d, VwapEdge(env, d), l.sell.vwap - l.buy.vwap, EdgeAt(env, d, d.grossEdge, d.buyPrice, d.sellPrice),
      l.buy.vwap, l.sell.vwap, l.buy.filledQty / l.buyTarget, l.sell.filledQty / l.sellTarget,
      BuildFeeBreakdown(d.buyPrice, d.sellPrice, FeesOf(env, d.buyPlatform).value, FeesOf(env, d.sellPlatform).value,
                        Gas(env, d), env.positionSizeUsd),
      AnnualizedReturn(env, d, nowMs), Threshold(c, env, d))
  }

  /** The opportunities of a batch, in order; `clock(i)` is the time at which dislocation `i` is judged. */
  function Opportunities(c: Config, env: Env, ds: seq<RawDislocation>, clock: nat -> int): seq<EnrichedOpportunity> {
    if ds == [] then []
    else
      var n := |ds| - 1;
      Opportunities(c, env, ds[..n], clock)
      + if Actionable(c, env, ds[n], clock(n)) then [Enriched(c, env, ds[n], clock(n))] else []
  }

  /** Which gate stops a dislocation, in the order in which they are tried. */
  function StoppedBy(c: Config, env: Env, d: RawDislocation, nowMs: int): (reason: Reason)
    requires FeesKnown(env, d) && !Actionable(c, env, d, nowMs)
    ensures DroppedFor(c, env, d, nowMs, reason)
  {
    if !DeepEnough(c, env, d) then InsufficientVwapDepth
    else if VwapEdge(env, d) < Threshold(c, env, d) then
      if VwapEdge(env, d) < 0.0 then NegativeEdge else BelowThreshold
    else if d.pairConfig.resolutionDateMs.None? then NoResolutionDate
    else if DaysToResolution(d, nowMs) <= 0.0 then ResolutionDatePassed
    else AnnualizedReturnBelowMinimum
  }

  /** The record of a dropped dislocation: its edge if both legs are deep enough, the threshold if that stops it. */
  function RecordOf(c: Config, env: Env, d: RawDislocation, nowMs: int): FilteredDislocation
    requires FeesKnown(env, d) && !Actionable(c, env, d, nowMs)
  {
    var reason, description := StoppedBy(c, env, d, nowMs), d.pairConfig.eventDescription;
    match reason
    case InsufficientVwapDepth => FilteredDislocation(description, 0.0, None, reason, None)
    case NegativeEdge => ThinRecord(c, env, d, reason)
    case BelowThreshold => ThinRecord(c, env, d, reason)
    case _ => FilteredDislocation(description, VwapEdge(env, d), None, reason, None)
  }

  function ThinRecord(c: Config, env: Env, d: RawDislocation, reason: Reason): FilteredDislocation
    requires FeesKnown(env, d) && DeepEnough(c, env, d)
  {
    FilteredDislocation(d.pairConfig.eventDescription, VwapEdge(env, d), Some(Threshold(c, env, d)), reason,
                        Some(EdgeAt(env, d, d.grossEdge, d.buyPrice, d.sellPrice)))
  }

  /** The records of a batch, in order: one for each dislocation that is judged and dropped. */
  function Records(c: Config, env: Env, ds: seq<RawDislocation>, clock: nat -> int): seq<FilteredDislocation> {
    if ds == [] then []
    else
      var n := |ds| - 1;
      Records(c, env, ds[..n], clock)
      + if FeesKnown(env, ds[n]) && !Actionable(c, env, ds[n], clock(n)) then [RecordOf(c, env, ds[n], clock(n))]
        else []
  }

  /** Every record is that of a dislocation which the gate it names has stopped. */
  lemma {:induction false} RecordsAreTrue(c: Config, env: Env, ds: seq<RawDislocation>, clock: nat -> int,
                                          f: FilteredDislocation) returns (i: nat)
    requires f in Records(c, env, ds, clock)
    ensures i < |ds| && FilteredAs(c, env, ds[i], clock(i), f)
  {
    var n := |ds| - 1;
    if f in Records(c, env, ds[..n], clock) {
      i := RecordsAreTrue(c, env, ds[..n], clock, f);
    } else {
      i := n;
    }
  }

  function CountFailed(env: Env, ds: seq<RawDislocation>): nat {
    if ds == [] then 0 else CountFailed(env, ds[..|ds|-1]) + if FeesKnown(env, ds[|ds|-1]) then 0 else 1
  }

  /** A setting that is given and is a number. */
  predicate IsNumber(setting: Option<Option<real>>) {
    setting.Some? && setting.value.Some?
  }

  class EdgeCalculatorService {
    var minEdgeThreshold: real
    var detectionMinFillRatio: real
    var depthEdgeScalingFactor: real
    var maxDynamicEdgeThreshold: real

    constructor ()
      ensures Settings().Valid()
    {
      minEdgeThreshold, detectionMinFillRatio := 0.008, 0.25;
      depthEdgeScalingFactor, maxDynamicEdgeThreshold := 10.0, 0.05;
    }

    function Settings(): Config
      reads this
    {
      Config(minEdgeThreshold, detectionMinFillRatio, depthEdgeScalingFactor, maxDynamicEdgeThreshold)
    }

    /** An absent setting is `None`, one that is not a number is `Some(None)`; neither changes anything. */
    method ReloadConfig(minEdge: Option<Option<real>>, minFill: Option<Option<real>>,
                        scaling: Option<Option<real>>, cap: Option<Option<real>>)
      modifies this
      ensures old(Settings().Valid()) ==> Settings().Valid()
      ensures minEdgeThreshold ==
                if IsNumber(minEdge) && minEdge.value.value >= 0.0 then minEdge.value.value else old(minEdgeThreshold)
      ensures detectionMinFillRatio ==
                if IsNumber(minFill) && 0.0 < minFill.value.value <= 1.0 then minFill.value.value
                else old(detectionMinFillRatio)
      ensures depthEdgeScalingFactor ==
                if IsNumber(scaling) && scaling.value.value >= 0.0 then scaling.value.value
                else old(depthEdgeScalingFactor)
      ensures maxDynamicEdgeThreshold ==
                if IsNumber(cap) && 0.0 < cap.value.value <= 1.0 then cap.value.value else old(maxDynamicEdgeThreshold)
    {
      if IsNumber(minEdge) && minEdge.value.value >= 0.0 {
        minEdgeThreshold := minEdge.value.value;
      }
      if IsNumber(minFill) && 0.0 < minFill.value.value <= 1.0 {
        detectionMinFillRatio := minFill.value.value;
      }
      if IsNumber(scaling) && scaling.value.value >= 0.0 {
        depthEdgeScalingFactor := scaling.value.value;
      }
      if IsNumber(cap) && 0.0 < cap.value.value <= 1.0 {
        maxDynamicEdgeThreshold := cap.value.value;
      }
    }

    method ProcessDislocations(dislocations: seq<RawDislocation>, env: Env, clock: nat -> int)
      returns (opportunities: seq<EnrichedOpportunity>, filtered: seq<FilteredDislocation>, skippedErrors: nat)
      ensures opportunities == Opportunities(Settings(), env, dislocations, clock)
      ensures skippedErrors == CountFailed(env, dislocations)
      ensures |opportunities| + |filtered| + skippedErrors == |dislocations|
      ensures filtered == Records(Settings(), env, dislocations, clock)
      ensures forall f :: f in filtered ==>
        exists i :: 0 <= i < |dislocations| && FilteredAs(Settings(), env, dislocations[i], clock(i), f)
    {
      opportunities, filtered, skippedErrors := [], [], 0;
      for n := 0 to |dislocations|
        invariant opportunities == Opportunities(Settings(), env, dislocations[..n], clock)
        invariant skippedErrors == CountFailed(env, dislocations[..n])
        invariant |opportunities| + |filtered| + skippedErrors == n
        invariant filtered == Records(Settings(), env, dislocations[..n], clock)
      {
        assert dislocations[..n+1][..n] == dislocations[..n];
        var threw;
        threw, opportunities, filtered :=
          ProcessSingleDislocation(dislocations[n], env, clock(n), opportunities, filtered);
        if threw {
          skippedErrors := skippedErrors + 1;
        }
      }
      assert dislocations[..|dislocations|] == dislocations;
      forall f | f in filtered
        ensures exists i :: 0 <= i < |dislocations| && FilteredAs(Settings(), env, dislocations[i], clock(i), f)
      {
        var i := RecordsAreTrue(Settings(), env, dislocations, clock, f);
      }
    }

    method ProcessSingleDislocation(d: RawDislocation, env: Env, nowMs: int,
                                    opportunities: seq<EnrichedOpportunity>, filtered: seq<FilteredDislocation>)
      returns (threw: bool, opportunities': seq<EnrichedOpportunity>, filtered': seq<FilteredDislocation>)
      ensures threw == !FeesKnown(env, d)
      ensures opportunities' == opportunities +
                if Actionable(Settings(), env, d, nowMs) then [Enriched(Settings(), env, d, nowMs)] else []
      ensures filtered' == filtered +
                if threw || Actionable(Settings(), env, d, nowMs) then [] else [RecordOf(Settings(), env, d, nowMs)]
    {
      threw, opportunities', filtered' := false, opportunities, filtered;
      if FeesOf(env, d.buyPlatform).None? || FeesOf(env, d.sellPlatform).None? {
        threw := true;
        return;
      }
      var legs := WalkLegs(d, env);
      if legs.None? {
        filtered' := filtered +
          [FilteredDislocation(d.pairConfig.eventDescription, 0.0, None, InsufficientVwapDepth, None)];
        return;
      }
      var netEdge := VwapEdge(env, d);
      var dropped := ApplyGates(d, env, nowMs, legs.value, netEdge);
      if dropped.Some? {
        filtered' := filtered + [dropped.value];
        return;
      }
      opportunities' := opportunities + [Enriched(Settings(), env, d, nowMs)];
    }

    /** The edge threshold first, then the capital-efficiency gates. */
    method ApplyGates(d: RawDislocation, env: Env, nowMs: int, legs: Legs, netEdge: real)
      returns (dropped: Option<FilteredDislocation>)
      requires FeesKnown(env, d) && DeepEnough(Settings(), env, d)
      requires legs == LegsOf(env, d) && netEdge == VwapEdge(env, d)
      ensures dropped.None? <==> Actionable(Settings(), env, d, nowMs)
      ensures dropped.Some? ==> dropped.value == RecordOf(Settings(), env, d, nowMs)
    {
      var description := d.pairConfig.eventDescription;
      var effectiveThreshold :=
        EffectiveThreshold(legs.buy.totalQtyAvailable, legs.sell.totalQtyAvailable, env.multiplier(d.buyPlatform));
      assert effectiveThreshold == Threshold(Settings(), env, d);
      if netEdge < effectiveThreshold {
        var bestLevelNetEdge := EdgeAt(env, d, d.grossEdge, d.buyPrice, d.sellPrice);
        var reason := if netEdge < 0.0 then NegativeEdge else BelowThreshold;
        return Some(
          FilteredDislocation(description, netEdge, Some(effectiveThreshold), reason, Some(bestLevelNetEdge)));
      }
      var rejection := CheckCapitalEfficiency(Settings(), d, env, nowMs, netEdge);
      if rejection.Some? {
        return Some(FilteredDislocation(description, netEdge, None, rejection.value, None));
      }
      return None;
    }

    /** Walks both books for the configured position; nothing when a side is too shallow. */
    method WalkLegs(d: RawDislocation, env: Env) returns (legs: Option<Legs>)
      ensures legs.Some? <==> DeepEnough(Settings(), env, d)
      ensures legs.Some? ==> legs.value == LegsOf(env, d)
    {
      if d.buyPrice == 0.0 || d.sellPrice == 0.0 {
        return None;
      }
      var buyTarget, sellTarget := Ceil(env.positionSizeUsd / d.buyPrice), Ceil(env.positionSizeUsd / d.sellPrice);
      var buyVwap := CalculateVwapWithFillInfo(d.buyBook, Sell, buyTarget);
      var sellVwap := CalculateVwapWithFillInfo(d.sellBook, Buy, sellTarget);
      if buyVwap.None? || sellVwap.None? {
        return None;
      }
      var buyFillRatio, sellFillRatio := buyVwap.value.filledQty / buyTarget, sellVwap.value.filledQty / sellTarget;
      if buyFillRatio < detectionMinFillRatio || sellFillRatio < detectionMinFillRatio {
        return None;
      }
      return Some(Legs(buyTarget, sellTarget, buyVwap.value, sellVwap.value));
    }

    method EffectiveThreshold(buyDepth: real, sellDepth: real, multiplier: real) returns (threshold: real)
      ensures threshold == Value(BaseThreshold(Settings(), Min(buyDepth, sellDepth)), multiplier)
      ensures (Settings().Valid() && depthEdgeScalingFactor > 0.0
               && buyDepth > 0.0 && sellDepth > 0.0 && multiplier >= 0.0)
              ==> Value(Min(minEdgeThreshold, maxDynamicEdgeThreshold), multiplier) <= threshold
                  <= Value(maxDynamicEdgeThreshold, multiplier)
    {
      if Settings().Valid() && buyDepth > 0.0 && sellDepth > 0.0 && multiplier >= 0.0 {
        ThresholdInForceFallsWithDepth(Settings(), Min(buyDepth, sellDepth), Min(buyDepth, sellDepth), multiplier);
      }
      var dynamicBase := minEdgeThreshold;
      if depthEdgeScalingFactor > 0.0 {
        var minDepth := Min(buyDepth, sellDepth);
        if minDepth > 0.0 {
          dynamicBase := DynamicThreshold(Settings(), minDepth);
        }
      }
      threshold := Value(dynamicBase, multiplier);
    }

    static method CheckCapitalEfficiency(ghost c: Config, d: RawDislocation, env: Env, nowMs: int, netEdge: real)
      returns (rejection: Option<Reason>)
      requires FeesKnown(env, d) && Fillable(env, d) && netEdge == VwapEdge(env, d)
      ensures rejection.None? <==> ReturnsEnough(env, d, nowMs)
      ensures rejection.Some? && WideEnough(c, env, d) ==> DroppedFor(c, env, d, nowMs, rejection.value)
    {
      if d.pairConfig.resolutionDateMs.None? {
        return Some(NoResolutionDate);
      }
      var days := DaysToResolution(d, nowMs);
      if days <= 0.0 {
        return Some(ResolutionDatePassed);
      }
      if Value(netEdge, 365.0 / days) < env.minAnnualizedReturn {
        return Some(AnnualizedReturnBelowMinimum);
      }
      return None;
    }
  }

  // ----- failures -----

  /** With both platforms' fees at hand nothing fails; without one of them every trade across the platforms does. */
  lemma {:induction false} FailsIffFeesAreMissing(env: Env, ds: seq<RawDislocation>)
    requires forall i :: 0 <= i < |ds| ==> ds[i].buyPlatform != ds[i].sellPlatform
    ensures CountFailed(env, ds) == if env.kalshiFees.Some? && env.polymarketFees.Some? then 0 else |ds|
  {
    if ds != [] {
      FailsIffFeesAreMissing(env, ds[..|ds|-1]);
    }
  }

  // ----- soundness of what is emitted -----

  /** What is claimed of a leg is true of its side of the book: how much of the target it fills, and at what average. */
  ghost predicate LegSound(levels: seq<PriceLevel>, target: real, share: real, ratio: real, vwap: real) {
    && target > 0.0 && ratio >= share
    && (NonNegative(levels) ==>
          var filled := Min(target, Total(levels));
          filled > 0.0 && Value(ratio, target) == filled && Value(vwap, filled) == Cost(levels, filled))
  }

  /** What a trade nets at given prices: gross edge less the fee of each leg's own platform and the share of gas. */
  ghost predicate NetAt(env: Env, d: RawDislocation, gross: real, buy: real, sell: real, edge: real) {
    var buyFees := if d.buyPlatform == Kalshi then env.kalshiFees else env.polymarketFees;
    var sellFees := if d.sellPlatform == Kalshi then env.kalshiFees else env.polymarketFees;
    && buyFees.Some? && sellFees.Some? && env.positionSizeUsd != 0.0
    && GasShare(env, buyFees.value, sellFees.value,
                gross - FeeCost(buy, buyFees.value) - FeeCost(sell, sellFees.value) - edge)
  }

  /** The estimate for gas is the buying platform's, else the selling one's, else the configured one. */
  ghost predicate GasShare(env: Env, buyFees: FeeSchedule, sellFees: FeeSchedule, share: real) {
    Value(share, env.positionSizeUsd) ==
    match buyFees.gasEstimateUsd
    case Some(gas) => gas
    case None => if sellFees.gasEstimateUsd.Some? then sellFees.gasEstimateUsd.value else env.gasEstimateUsd
  }

  /** The threshold by the settings, for the shallower of the two books, times the degradation multiplier. */
  ghost predicate ThresholdOf(c: Config, env: Env, d: RawDislocation, threshold: real) {
    exists base :: InForce(c, Min(Total(d.buyBook.asks), Total(d.sellBook.bids)), base)
                   && threshold == Value(base, env.multiplier(d.buyPlatform))
  }

  /** The claimed edges are those at the claimed prices, and the net one clears the threshold. */
  ghost predicate EdgeSound(c: Config, env: Env, o: EnrichedOpportunity) {
    var d, costs := o.dislocation, o.feeBreakdown;
    && o.grossEdge == o.vwapSellPrice - o.vwapBuyPrice
    && NetAt(env, d, o.grossEdge, o.vwapBuyPrice, o.vwapSellPrice, o.netEdge)
    && NetAt(env, d, d.grossEdge, d.buyPrice, d.sellPrice, o.bestLevelNetEdge)
    && o.bestLevelNetEdge == d.grossEdge - costs.totalCosts
    && costs.totalCosts == costs.buyFeeCost + costs.sellFeeCost + costs.gasFraction
    && Some(costs.buyFeeCost) == FeeOn(env, d.buyPlatform, d.buyPrice)
    && Some(costs.sellFeeCost) == FeeOn(env, d.sellPlatform, d.sellPrice)
    && ThresholdOf(c, env, d, o.effectiveMinEdge) && o.netEdge >= o.effectiveMinEdge
  }

  ghost function FeeOn(env: Env, platform: Platform, price: real): Option<real> {
    match if platform == Kalshi then env.kalshiFees else env.polymarketFees
    case Some(fees) => Some(FeeCost(price, fees))
    case None => None
  }

  /** The days that are left until the pair resolves. */
  ghost predicate DaysLeft(d: RawDislocation, nowMs: int, days: real) {
    d.pairConfig.resolutionDateMs.Some? && days * 86_400_000.0 == (d.pairConfig.resolutionDateMs.value - nowMs) as real
  }

  /** The claimed return is the net edge taken over the time that is left until the pair resolves. */
  ghost predicate ReturnSound(env: Env, nowMs: int, o: EnrichedOpportunity) {
    exists days :: DaysLeft(o.dislocation, nowMs, days) && days > 0.0
      && Value(o.annualizedReturn, days) == Value(o.netEdge, 365.0) && o.annualizedReturn >= env.minAnnualizedReturn
  }

  /** Judged at `nowMs`, the opportunity passes every gate on its own books, prices and resolution date. */
  ghost predicate Sound(c: Config, env: Env, nowMs: int, o: EnrichedOpportunity) {
    var d := o.dislocation;
    && d.buyPrice != 0.0 && d.sellPrice != 0.0
    && LegSound(d.buyBook.asks, Ceil(env.positionSizeUsd / d.buyPrice), c.detectionMinFillRatio,
                o.buyFillRatio, o.vwapBuyPrice)
    && LegSound(d.sellBook.bids, Ceil(env.positionSizeUsd / d.sellPrice), c.detectionMinFillRatio,
                o.sellFillRatio, o.vwapSellPrice)
    && EdgeSound(c, env, o) && ReturnSound(env, nowMs, o)
  }

  lemma EmittedOpportunitiesAreSound(c: Config, env: Env, ds: seq<RawDislocation>, clock: nat -> int,
                                     o: EnrichedOpportunity)
    requires o in Opportunities(c, env, ds, clock)
    ensures exists i :: 0 <= i < |ds| && o.dislocation == ds[i] && Sound(c, env, clock(i), o)
  {
    var i := EmittedFrom(c, env, ds, clock, o);
    EnrichedLegs(c, env, ds[i], clock(i));
    EnrichedEdge(c, env, ds[i], clock(i));
    EnrichedReturn(c, env, ds[i], clock(i));
  }

  lemma FillIsSound(levels: seq<PriceLevel>, target: real, share: real)
    requires Fill(levels, target).Some? && Fill(levels, target).value.filledQty / target >= share
    ensures var r := Fill(levels, target).value;
      LegSound(levels, target, share, r.filledQty / target, r.vwap) && r.totalQtyAvailable == Total(levels)
  {
    var r := Fill(levels, target).value;
    Quotient(r.filledQty, target);
    Quotient(Cost(levels, target), r.filledQty);
    if NonNegative(levels) {
      FillsWhatThereIs(levels, target);
    }
  }

  lemma Quotient(x: real, y: real)
    requires y != 0.0
    ensures Value(x / y, y) == x
  {
  }

  lemma EnrichedLegs(c: Config, env: Env, d: RawDislocation, nowMs: int)
    requires Actionable(c, env, d, nowMs)
    ensures var o := Enriched(c, env, d, nowMs); var size, share := env.positionSizeUsd, c.detectionMinFillRatio;
      && LegSound(d.buyBook.asks, Ceil(size / d.buyPrice), share, o.buyFillRatio, o.vwapBuyPrice)
      && LegSound(d.sellBook.bids, Ceil(size / d.sellPrice), share, o.sellFillRatio, o.vwapSellPrice)
  {
    FillIsSound(d.buyBook.asks, LegsOf(env, d).buyTarget, c.detectionMinFillRatio);
    FillIsSound(d.sellBook.bids, LegsOf(env, d).sellTarget, c.detectionMinFillRatio);
  }

  lemma EnrichedEdge(c: Config, env: Env, d: RawDislocation, nowMs: int)
    requires Actionable(c, env, d, nowMs)
    ensures EdgeSound(c, env, Enriched(c, env, d, nowMs))
  {
    var l := LegsOf(env, d);
    EdgeIsNet(env, d, l.sell.vwap - l.buy.vwap, l.buy.vwap, l.sell.vwap);
    EdgeIsNet(env, d, d.grossEdge, d.buyPrice, d.sellPrice);
    BreakdownExplainsNetEdge(d.grossEdge, d.buyPrice, d.sellPrice, FeesOf(env, d.buyPlatform).value,
                             FeesOf(env, d.sellPlatform).value, Gas(env, d), env.positionSizeUsd);
    ThresholdIsOf(c, env, d);
  }

  lemma EdgeIsNet(env: Env, d: RawDislocation, gross: real, buy: real, sell: real)
    requires FeesKnown(env, d) && env.positionSizeUsd != 0.0
    ensures NetAt(env, d, gross, buy, sell, EdgeAt(env, d, gross, buy, sell))
  {
    Quotient(Gas(env, d), env.positionSizeUsd);
  }

  lemma ThresholdIsOf(c: Config, env: Env, d: RawDislocation)
    requires Fillable(env, d)
    ensures ThresholdOf(c, env, d, Threshold(c, env, d))
  {
    var depth := Min(Total(d.buyBook.asks), Total(d.sellBook.bids));
    InForceIffBase(c, depth, BaseThreshold(c, depth));
  }

  lemma EnrichedReturn(c: Config, env: Env, d: RawDislocation, nowMs: int)
    requires Actionable(c, env, d, nowMs)
    ensures ReturnSound(env, nowMs, Enriched(c, env, d, nowMs))
  {
    var days := DaysToResolution(d, nowMs);
    Annualized(VwapEdge(env, d), days);
    DaysAreLeft(d, nowMs);
  }

  lemma DaysAreLeft(d: RawDislocation, nowMs: int)
    requires d.pairConfig.resolutionDateMs.Some?
    ensures DaysLeft(d, nowMs, DaysToResolution(d, nowMs))
  {
  }

  lemma Annualized(edge: real, days: real)
    requires days != 0.0
    ensures Value(Value(edge, 365.0 / days), days) == Value(edge, 365.0)
  {
    assert (365.0 / days) * days == 365.0;
    assert edge * (365.0 / days) * days == edge * ((365.0 / days) * days);
  }

  // ----- soundness of what is dropped -----

  /** The side of a book cannot fill the configured share of the target. */
  ghost predicate LegThin(levels: seq<PriceLevel>, price: real, sizeUsd: real, share: real) {
    price == 0.0 ||
    var target := Ceil(sizeUsd / price);
    target <= 0.0 || (NonNegative(levels) ==>
                        var filled := Min(target, Total(levels)); filled <= 0.0 || filled < Value(share, target))
  }

  /** The net edge at the average prices of the fills of both targets. */
  ghost predicate EdgeOfFills(env: Env, d: RawDislocation, edge: real) {
    && d.buyPrice != 0.0 && d.sellPrice != 0.0
    && var buy := Fill(d.buyBook.asks, Ceil(env.positionSizeUsd / d.buyPrice));
    var sell := Fill(d.sellBook.bids, Ceil(env.positionSizeUsd / d.sellPrice));
    && buy.Some? && sell.Some?
    && NetAt(env, d, sell.value.vwap - buy.value.vwap, buy.value.vwap, sell.value.vwap, edge)
  }

  /** Judged at `nowMs`, the dislocation fails the gate that its record names, on its own books, prices and date. */
  ghost predicate RecordSound(c: Config, env: Env, nowMs: int, d: RawDislocation, f: FilteredDislocation) {
    && f.pairEventDescription == d.pairConfig.eventDescription
    && (f.threshold.Some? <==> f.reason.NegativeEdge? || f.reason.BelowThreshold?)
    && match f.reason
       case InsufficientVwapDepth =>
         f.netEdge == 0.0 && f.threshold.None? && f.bestLevelNetEdge.None? &&
         (LegThin(d.buyBook.asks, d.buyPrice, env.positionSizeUsd, c.detectionMinFillRatio)
          || LegThin(d.sellBook.bids, d.sellPrice, env.positionSizeUsd, c.detectionMinFillRatio))
       case NegativeEdge => BelowOwnThreshold(c, env, d, f) && f.netEdge < 0.0
       case BelowThreshold => BelowOwnThreshold(c, env, d, f) && f.netEdge >= 0.0
       case NoResolutionDate => EdgeOfFills(env, d, f.netEdge) && d.pairConfig.resolutionDateMs.None?
       case ResolutionDatePassed =>
         EdgeOfFills(env, d, f.netEdge) && exists days :: DaysLeft(d, nowMs, days) && days <= 0.0
       case AnnualizedReturnBelowMinimum =>
         && EdgeOfFills(env, d, f.netEdge)
         && exists days :: DaysLeft(d, nowMs, days) && days > 0.0
                           && Value(f.netEdge, 365.0) < Value(env.minAnnualizedReturn, days)
  }

  ghost predicate BelowOwnThreshold(c: Config, env: Env, d: RawDislocation, f: FilteredDislocation) {
    && EdgeOfFills(env, d, f.netEdge) && f.threshold.Some? && f.netEdge < f.threshold.value
    && ThresholdOf(c, env, d, f.threshold.value)
    && f.bestLevelNetEdge.Some? && NetAt(env, d, d.grossEdge, d.buyPrice, d.sellPrice, f.bestLevelNetEdge.value)
  }

  /** Every record of a dropped dislocation is right about it. */
  lemma DroppedDislocationsAreRight(c: Config, env: Env, ds: seq<RawDislocation>, clock: nat -> int,
                                    f: FilteredDislocation)
    requires f in Records(c, env, ds, clock)
    ensures exists i :: 0 <= i < |ds| && RecordSound(c, env, clock(i), ds[i], f)
  {
    var i := RecordedFrom(c, env, ds, clock, f);
    RecordIsSound(c, env, ds[i], clock(i));
  }

  lemma {:induction false} RecordedFrom(c: Config, env: Env, ds: seq<RawDislocation>, clock: nat -> int,
                                        f: FilteredDislocation) returns (i: nat)
    requires f in Records(c, env, ds, clock)
    ensures i < |ds| && FeesKnown(env, ds[i]) && !Actionable(c, env, ds[i], clock(i))
    ensures f == RecordOf(c, env, ds[i], clock(i))
  {
    var n := |ds| - 1;
    if f in Records(c, env, ds[..n], clock) {
      i := RecordedFrom(c, env, ds[..n], clock, f);
    } else {
      i := n;
    }
  }

  lemma RecordIsSound(c: Config, env: Env, d: RawDislocation, nowMs: int)
    requires FeesKnown(env, d) && !Actionable(c, env, d, nowMs)
    ensures RecordSound(c, env, nowMs, d, RecordOf(c, env, d, nowMs))
  {
    if !DeepEnough(c, env, d) {
      ThinLegs(c, env, d);
    } else {
      FillsHaveEdge(env, d);
      EdgeIsNet(env, d, d.grossEdge, d.buyPrice, d.sellPrice);
      ThresholdIsOf(c, env, d);
      if VwapEdge(env, d) >= Threshold(c, env, d) && d.pairConfig.resolutionDateMs.Some? {
        DaysAreLeft(d, nowMs);
        if DaysToResolution(d, nowMs) > 0.0 {
          LowReturn(VwapEdge(env, d), DaysToResolution(d, nowMs), env.minAnnualizedReturn);
        }
      }
    }
  }

  lemma FillsHaveEdge(env: Env, d: RawDislocation)
    requires FeesKnown(env, d) && Fillable(env, d)
    ensures EdgeOfFills(env, d, VwapEdge(env, d))
  {
    var l := LegsOf(env, d);
    EdgeIsNet(env, d, l.sell.vwap - l.buy.vwap, l.buy.vwap, l.sell.vwap);
  }

  lemma LowReturn(edge: real, days: real, minimum: real)
    requires days > 0.0 && Value(edge, 365.0 / days) < minimum
    ensures Value(edge, 365.0) < Value(minimum, days)
  {
    Annualized(edge, days);
    SameOrder(minimum, Value(edge, 365.0 / days), days);
  }

  lemma ThinLegs(c: Config, env: Env, d: RawDislocation)
    requires !DeepEnough(c, env, d)
    ensures LegThin(d.buyBook.asks, d.buyPrice, env.positionSizeUsd, c.detectionMinFillRatio)
         || LegThin(d.sellBook.bids, d.sellPrice, env.positionSizeUsd, c.detectionMinFillRatio)
  {
    if d.buyPrice != 0.0 && d.sellPrice != 0.0 {
      var b, s := Ceil(env.positionSizeUsd / d.buyPrice), Ceil(env.positionSizeUsd / d.sellPrice);
      if Fill(d.buyBook.asks, b).None? || Fill(d.buyBook.asks, b).value.filledQty / b < c.detectionMinFillRatio {
        ThinLeg(d.buyBook.asks, b, c.detectionMinFillRatio);
      } else {
        ThinLeg(d.sellBook.bids, s, c.detectionMinFillRatio);
      }
    }
  }

  lemma ThinLeg(levels: seq<PriceLevel>, target: real, share: real)
    requires Fill(levels, target).None? || Fill(levels, target).value.filledQty / target < share
    ensures target <= 0.0 || (NonNegative(levels) ==>
              Min(target, Total(levels)) <= 0.0 || Min(target, Total(levels)) < Value(share, target))
  {
    if target > 0.0 && NonNegative(levels) {
      FillsWhatThereIs(levels, target);
      if Fill(levels, target).Some? {
        BelowShare(Fill(levels, target).value.filledQty, target, share);
      }
    }
  }

  lemma BelowShare(filled: real, target: real, share: real)
    requires target > 0.0 && filled / target < share
    ensures filled < Value(share, target)
  {
    var ratio := filled / target;
    Quotient(filled, target);
    SameOrder(share, ratio, target);
  }

  ghost predicate ProperBook(book: NormalizedOrderBook) {
    && Sorted(Descending, book.bids) && NonNegative(book.bids) && Probabilities(book.bids)
    && Sorted(Ascending, book.asks) && NonNegative(book.asks) && Probabilities(book.asks)
  }

  /** The platforms' own fee schedules. */
  ghost predicate PlatformFees(env: Env) {
    && env.kalshiFees == Some(KALSHI_FEES)
    && (exists gas :: env.polymarketFees == Some(PolymarketFees(gas)))
  }

  /**
   From detection to opportunity: on proper books and with the platforms' fees, the edge an opportunity
   claims is never above the edge at the best prices that detection saw.
   */
  lemma PipelineEdgesAreConservative(checks: seq<PairCheck>, c: Config, env: Env, clock: nat -> int,
                                     o: EnrichedOpportunity)
    requires forall i :: 0 <= i < |checks| && Evaluable(checks[i]) ==>
               ProperBook(checks[i].kalshiBook.value) && ProperBook(checks[i].polymarketBook.value)
    requires PlatformFees(env)
    requires o in Opportunities(c, env, Found(checks), clock)
    ensures o.netEdge <= o.bestLevelNetEdge
    ensures o.dislocation.buyPrice <= o.vwapBuyPrice && o.vwapSellPrice <= o.dislocation.sellPrice
  {
    var n := EmittedFrom(c, env, Found(checks), clock, o);
    var d := o.dislocation;
    FoundBooksAreProper(checks, d);
    KalshiFeesAreRegular();
    var gas :| env.polymarketFees == Some(PolymarketFees(gas));
    FlatFeesAreRegular(PolymarketFees(gas));
    var l := LegsOf(env, d);
    VwapEdgeNeverExceedsBestLevelEdge(d.buyBook.asks, d.sellBook.bids, l.buyTarget, l.sellTarget,
      FeesOf(env, d.buyPlatform).value, FeesOf(env, d.sellPlatform).value, Gas(env, d), env.positionSizeUsd);
  }

  lemma FoundBooksAreProper(checks: seq<PairCheck>, d: RawDislocation)
    requires forall i :: 0 <= i < |checks| && Evaluable(checks[i]) ==>
               ProperBook(checks[i].kalshiBook.value) && ProperBook(checks[i].polymarketBook.value)
    requires d in Found(checks)
    ensures ProperBook(d.buyBook) && ProperBook(d.sellBook) && d.buyBook.asks != [] && d.sellBook.bids != []
    ensures d.buyPrice == d.buyBook.asks[0].price && d.sellPrice == d.sellBook.bids[0].price
    ensures d.grossEdge == GrossEdge(d.buyPrice, d.sellPrice)
  {
    FoundIffGenuine(checks, d);
    var i :| 0 <= i < |checks| && Genuine(d, checks[i]);
    assert Evaluable(checks[i]);
  }

  lemma {:induction false} EmittedFrom(c: Config, env: Env, ds: seq<RawDislocation>, clock: nat -> int,
                                       o: EnrichedOpportunity) returns (i: nat)
    requires o in Opportunities(c, env, ds, clock)
    ensures i < |ds| && Actionable(c, env, ds[i], clock(i)) && o == Enriched(c, env, ds[i], clock(i))
  {
    var n := |ds| - 1;
    if o in Opportunities(c, env, ds[..n], clock) {
      i := EmittedFrom(c, env, ds[..n], clock, o);
    } else {
      i := n;
    }
  }
}
