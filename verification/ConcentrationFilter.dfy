/** Keeping opportunities away from pairs that traded recently or already hold many positions. */
module ConcentrationFilter {
  import opened Wrappers

  type PairId = string

  /** An opportunity as the filter sees it; `matchId` is absent for pairs that have no match record. */
  datatype Opportunity = Opportunity(id: nat, matchId: Option<PairId>)

  datatype Reason = PairCooldownActive | PairMaxConcurrentReached | PairAboveAverageConcentration

  datatype FilteredOpportunity = FilteredOpportunity(opportunity: Opportunity, reason: Reason)

  datatype Config = Config(cooldownMinutes: int, maxConcurrent: int, diversityThreshold: int)

  /** What the position repository knows: when each pair last opened a position, and how many it has open. */
  datatype Snapshot = Snapshot(latestDates: map<PairId, int>, openCounts: map<PairId, nat>)

  function PairOf(o: Opportunity): PairId {
    if o.matchId.Some? then o.matchId.value else ""
  }

  function Count(counts: map<PairId, nat>, pair: PairId): nat {
    if pair in counts then counts[pair] else 0
  }

  ghost function Total(counts: map<PairId, nat>): nat
    decreases |counts|
  {
    if counts == map[] then 0
    else
      var pair :| pair in counts;
      counts[pair] + Total(counts - {pair})
  }

  lemma TotalWithout(counts: map<PairId, nat>, pair: PairId)
    requires pair in counts
    ensures Total(counts) == counts[pair] + Total(counts - {pair})
    decreases |counts|
  {
    var picked :| picked in counts && Total(counts) == counts[picked] + Total(counts - {picked});
    if picked != pair {
      TotalWithout(counts - {picked}, pair);
      TotalWithout(counts - {pair}, picked);
      assert counts - {picked} - {pair} == counts - {pair} - {picked};
    }
  }

  method SumCounts(counts: map<PairId, nat>) returns (total: nat)
    ensures total == Total(counts)
  {
    total := 0;
    var rest := counts;
    while rest != map[]
      invariant total + Total(rest) == Total(counts)
      decreases |rest|
    {
      var pair :| pair in rest;
      TotalWithout(rest, pair);
      total := total + rest[pair];
      rest := rest - {pair};
    }
  }

  predicate CoolingDown(c: Config, s: Snapshot, nowMs: int, pair: PairId) {
    c.cooldownMinutes > 0 && pair in s.latestDates && nowMs - s.latestDates[pair] < c.cooldownMinutes * 60_000
  }

  predicate Full(c: Config, s: Snapshot, pair: PairId, taken: nat) {
    c.maxConcurrent > 0 && Count(s.openCounts, pair) + taken >= c.maxConcurrent
  }

  ghost predicate DiversityActive(c: Config, s: Snapshot) {
    c.diversityThreshold > 0 && Total(s.openCounts) >= c.diversityThreshold
  }

  /** At or above the mean of the pairs that hold positions. */
  ghost predicate Loaded(s: Snapshot, pair: PairId) {
    s.openCounts == map[] || Count(s.openCounts, pair) * |s.openCounts| >= Total(s.openCounts)
  }

  /** Why an opportunity for `pair` is blocked, if it is, when `taken` of the batch have passed for the pair already. */
  ghost function ReasonFor(c: Config, s: Snapshot, nowMs: int, pair: PairId, taken: nat): Option<Reason> {
    if CoolingDown(c, s, nowMs, pair) then Some(PairCooldownActive)
    else if Full(c, s, pair, taken) then Some(PairMaxConcurrentReached)
    else if DiversityActive(c, s) && Loaded(s, pair) then Some(PairAboveAverageConcentration)
    else None
  }

  function CountPair(ops: seq<Opportunity>, pair: PairId): nat {
    if ops == [] then 0
    else CountPair(ops[..|ops|-1], pair) + if PairOf(ops[|ops|-1]) == pair then 1 else 0
  }

  /** The opportunities that pass, in order. */
  ghost function Passing(c: Config, s: Snapshot, nowMs: int, ops: seq<Opportunity>): seq<Opportunity> {
    if ops == [] then []
    else
      var before, o := Passing(c, s, nowMs, ops[..|ops|-1]), ops[|ops|-1];
      if ReasonFor(c, s, nowMs, PairOf(o), CountPair(before, PairOf(o))).None? then before + [o] else before
  }

  /** The opportunities that do not pass, in order, with the reasons. */
  ghost function Blocked(c: Config, s: Snapshot, nowMs: int, ops: seq<Opportunity>): seq<FilteredOpportunity> {
    if ops == [] then []
    else
      var before, o := Passing(c, s, nowMs, ops[..|ops|-1]), ops[|ops|-1];
      var reason := ReasonFor(c, s, nowMs, PairOf(o), CountPair(before, PairOf(o)));
      Blocked(c, s, nowMs, ops[..|ops|-1]) + if reason.None? then [] else [FilteredOpportunity(o, reason.value)]
  }

  /** `snapshot` is absent when a repository query fails: then everything passes. */
  method FilterOpportunities(ops: seq<Opportunity>, c: Config, snapshot: Option<Snapshot>, nowMs: int)
    returns (passed: seq<Opportunity>, filtered: seq<FilteredOpportunity>)
    ensures snapshot.None? ==> passed == ops && filtered == []
    ensures snapshot.Some? ==>
              && passed == Passing(c, snapshot.value, nowMs, ops)
              && filtered == Blocked(c, snapshot.value, nowMs, ops)
  {
    passed, filtered := [], [];
    if |ops| == 0 {
      return;
    }
    if snapshot.None? {
      return ops, [];
    }
    var s := snapshot.value;
    var totalOpen := SumCounts(s.openCounts);
    var uniquePairsCount := |s.openCounts|;
    var average := if uniquePairsCount > 0 then totalOpen as real / uniquePairsCount as real else 0.0;
    var batchIncrements: map<PairId, nat> := map[];
    for n := 0 to |ops|
      invariant passed == Passing(c, s, nowMs, ops[..n])
      invariant filtered == Blocked(c, s, nowMs, ops[..n])
      invariant forall pair :: Count(batchIncrements, pair) == CountPair(passed, pair)
    {
      assert ops[..n+1][..n] == ops[..n];
      var o := ops[n];
      var pair := PairOf(o);
      var reason := FindReason(c, s, nowMs, pair, Count(batchIncrements, pair), totalOpen, average);
      if reason.Some? {
        filtered := filtered + [FilteredOpportunity(o, reason.value)];
      } else {
        ghost var before := passed;
        passed := passed + [o];
        batchIncrements := batchIncrements[pair := Count(batchIncrements, pair) + 1];
        assert passed[..|passed|-1] == before;
      }
    }
    assert ops[..|ops|] == ops;
  }

  method FindReason(c: Config, s: Snapshot, nowMs: int, pair: PairId, batchCount: nat, totalOpen: nat, average: real)
    returns (reason: Option<Reason>)
    requires totalOpen == Total(s.openCounts)
    requires average == if |s.openCounts| > 0 then totalOpen as real / |s.openCounts| as real else 0.0
    ensures reason == ReasonFor(c, s, nowMs, pair, batchCount)
  {
    reason := None;
    if c.cooldownMinutes > 0 && pair in s.latestDates {
      if nowMs - s.latestDates[pair] < c.cooldownMinutes * 60_000 {
        reason := Some(PairCooldownActive);
      }
    }
    if reason.None? && c.maxConcurrent > 0 {
      if Count(s.openCounts, pair) + batchCount >= c.maxConcurrent {
        reason := Some(PairMaxConcurrentReached);
      }
    }
    if reason.None? && c.diversityThreshold > 0 && totalOpen >= c.diversityThreshold {
      AverageIsMean(s, pair);
      if Count(s.openCounts, pair) as real >= average {
        reason := Some(PairAboveAverageConcentration);
      }
    }
  }

  lemma AverageIsMean(s: Snapshot, pair: PairId)
    ensures s.openCounts == map[] <==> |s.openCounts| == 0
    ensures |s.openCounts| > 0 ==>
              (Count(s.openCounts, pair) as real >= Total(s.openCounts) as real / |s.openCounts| as real
               <==> Loaded(s, pair))
  {
    if |s.openCounts| > 0 {
      MeanComparison(Count(s.openCounts, pair), |s.openCounts|, Total(s.openCounts));
    }
  }

  lemma MeanComparison(count: nat, pairs: nat, total: nat)
    requires pairs > 0
    ensures count as real >= total as real / pairs as real <==> count * pairs >= total
  {
    var mean := total as real / pairs as real;
    assert mean * pairs as real == total as real;
    assert (count as real - mean) * pairs as real == (count * pairs - total) as real;
  }

  // ----- what the filter guarantees -----

  /** Passed and filtered opportunities split the batch, and each keeps its order. */
  ghost predicate Interleaves(a: seq<Opportunity>, b: seq<FilteredOpportunity>, whole: seq<Opportunity>)
    decreases |whole|
  {
    if whole == [] then a == [] && b == []
    else
      var n, last := |whole| - 1, whole[|whole|-1];
      || (a != [] && a[|a|-1] == last && Interleaves(a[..|a|-1], b, whole[..n]))
      || (b != [] && b[|b|-1].opportunity == last && Interleaves(a, b[..|b|-1], whole[..n]))
  }

  lemma {:induction false} PassedAndFilteredPartition(c: Config, s: Snapshot, nowMs: int, ops: seq<Opportunity>)
    ensures Interleaves(Passing(c, s, nowMs, ops), Blocked(c, s, nowMs, ops), ops)
  {
    if ops != [] {
      var n := |ops| - 1;
      PassedAndFilteredPartition(c, s, nowMs, ops[..n]);
      var p, b := Passing(c, s, nowMs, ops), Blocked(c, s, nowMs, ops);
      if ReasonFor(c, s, nowMs, PairOf(ops[n]), CountPair(Passing(c, s, nowMs, ops[..n]), PairOf(ops[n]))).None? {
        assert p[..|p|-1] == Passing(c, s, nowMs, ops[..n]);
        assert b == Blocked(c, s, nowMs, ops[..n]);
      } else {
        assert b[..|b|-1] == Blocked(c, s, nowMs, ops[..n]);
      }
    }
  }

  lemma CountGrows(ops: seq<Opportunity>, o: Opportunity, pair: PairId)
    ensures CountPair(ops + [o], pair) == CountPair(ops, pair) + if PairOf(o) == pair then 1 else 0
  {
    assert (ops + [o])[..|ops|] == ops;
  }

  function AtMost(open: nat, cap: int): int {
    if open > cap then open else cap
  }

  /** With a cap, no pair ends up above it unless it was there before, and then it gets nothing. */
  lemma {:induction false} ConcurrencyIsCapped(c: Config, s: Snapshot, nowMs: int, ops: seq<Opportunity>, pair: PairId)
    requires c.maxConcurrent > 0
    ensures var open := Count(s.openCounts, pair);
      open + CountPair(Passing(c, s, nowMs, ops), pair) <= AtMost(open, c.maxConcurrent)
  {
    if ops != [] {
      var before, o := Passing(c, s, nowMs, ops[..|ops|-1]), ops[|ops|-1];
      ConcurrencyIsCapped(c, s, nowMs, ops[..|ops|-1], pair);
      if ReasonFor(c, s, nowMs, PairOf(o), CountPair(before, PairOf(o))).None? {
        assert !Full(c, s, PairOf(o), CountPair(before, PairOf(o)));
        CountGrows(before, o, pair);
      }
    }
  }

  lemma {:induction false} TotalIsAtMost(counts: map<PairId, nat>, most: nat)
    requires forall pair :: pair in counts ==> counts[pair] <= most
    ensures Total(counts) <= most * |counts|
    decreases |counts|
  {
    if counts != map[] {
      var pair :| pair in counts;
      var rest := counts - {pair};
      TotalWithout(counts, pair);
      TotalIsAtMost(rest, most);
      assert |counts| == |rest| + 1 by {
        assert rest.Keys == counts.Keys - {pair} && |rest| == |rest.Keys| && |counts| == |counts.Keys|;
      }
      OneMore(most, |rest|);
    }
  }

  lemma OneMore(most: nat, n: nat)
    ensures most * (n + 1) == most * n + most
  {
  }

  /** While diversity is active, a pair that passes is strictly below the mean; the most loaded pairs never pass. */
  lemma {:induction false} DiversityFavoursTheLight(c: Config, s: Snapshot, nowMs: int, ops: seq<Opportunity>,
                                                       o: Opportunity)
    requires c.diversityThreshold > 0 && Total(s.openCounts) >= c.diversityThreshold
    requires o in Passing(c, s, nowMs, ops)
    ensures Count(s.openCounts, PairOf(o)) * |s.openCounts| < Total(s.openCounts)
    ensures exists pair :: pair in s.openCounts && s.openCounts[pair] > Count(s.openCounts, PairOf(o))
  {
    var n := |ops| - 1;
    if o in Passing(c, s, nowMs, ops[..n]) {
      DiversityFavoursTheLight(c, s, nowMs, ops[..n], o);
    } else {
      assert !Loaded(s, PairOf(o));
      if forall pair :: pair in s.openCounts ==> s.openCounts[pair] <= Count(s.openCounts, PairOf(o)) {
        TotalIsAtMost(s.openCounts, Count(s.openCounts, PairOf(o)));
        assert false;
      }
    }
  }

  /** Nothing passes for a pair that is still cooling down. */
  lemma {:induction false} PassedPairsHaveCooledDown(c: Config, s: Snapshot, nowMs: int, ops: seq<Opportunity>,
                                                       o: Opportunity)
    requires o in Passing(c, s, nowMs, ops)
    ensures c.cooldownMinutes > 0 && PairOf(o) in s.latestDates ==>
              nowMs - s.latestDates[PairOf(o)] >= c.cooldownMinutes * 60_000
  {
    var n := |ops| - 1;
    if o in Passing(c, s, nowMs, ops[..n]) {
      PassedPairsHaveCooledDown(c, s, nowMs, ops[..n], o);
    }
  }

  /** Whatever is blocked is blocked for the first of the reasons that hold, given what passed before it. */
  lemma {:induction false} BlockedForCause(c: Config, s: Snapshot, nowMs: int, ops: seq<Opportunity>,
                                             f: FilteredOpportunity) returns (i: nat)
    requires f in Blocked(c, s, nowMs, ops)
    ensures i < |ops| && f.opportunity == ops[i]
    ensures var pair := match ops[i].matchId case Some(id) => id case None => "";
      var open, taken := Count(s.openCounts, pair), CountPair(Passing(c, s, nowMs, ops[..i]), pair);
      var cooling := c.cooldownMinutes > 0 && pair in s.latestDates
                     && nowMs - s.latestDates[pair] < c.cooldownMinutes * 60_000;
      var full := c.maxConcurrent > 0 && open + taken >= c.maxConcurrent;
      match f.reason
      case PairCooldownActive => cooling
      case PairMaxConcurrentReached => !cooling && full
      case PairAboveAverageConcentration =>
        && !cooling && !full && c.diversityThreshold > 0 && Total(s.openCounts) >= c.diversityThreshold
        && (s.openCounts == map[] || open * |s.openCounts| >= Total(s.openCounts))
  {
    var n := |ops| - 1;
    if f in Blocked(c, s, nowMs, ops[..n]) {
      i := BlockedForCause(c, s, nowMs, ops[..n], f);
      assert ops[..n][..i] == ops[..i];
    } else {
      i := n;
    }
  }
}
