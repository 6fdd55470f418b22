/** What each counter of an ingested batch counts, and when a pair is a duplicate, told without the counters. */
module IngestionLedger {
  import opened Wrappers
  import opened Ingestion

  // ----- the decisions -----

  /** Approved, to be reviewed, or rejected. */
  datatype Band = Approved | Review | Rejected

  function Low(c: Config, band: Band): Option<real> {
    match band
    case Approved => Some(c.autoApprove)
    case Review => Some(c.minReview)
    case Rejected => None
  }

  function High(c: Config, band: Band): Option<real> {
    match band
    case Approved => None
    case Review => Some(c.autoApprove)
    case Rejected => Some(c.minReview)
  }

  function CounterOf(stats: Stats, band: Band): nat {
    match band
    case Approved => stats.autoApproved
    case Review => stats.pendingReview
    case Rejected => stats.autoRejected
  }

  /** The rows of a source with a score from `low` up to below `high`. */
  function CountRows(rows: seq<Row>, source: Source, low: Option<real>, high: Option<real>): nat {
    if rows == [] then 0
    else
      var row := rows[|rows|-1];
      CountRows(rows[..|rows|-1], source, low, high)
      + if row.origin == source && Within(Some(row.score), low, high) then 1 else 0
  }

  lemma RowsGrow(rows: seq<Row>, row: Row, source: Source, low: Option<real>, high: Option<real>)
    ensures CountRows(rows + [row], source, low, high) == CountRows(rows, source, low, high)
              + if row.origin == source && Within(Some(row.score), low, high) then 1 else 0
  {
    assert (rows + [row])[..|rows|] == rows;
  }

  /** No pair below the review threshold goes to the classifier. */
  ghost predicate Cleared(c: Config, s: State) {
    forall i :: 0 <= i < |s.tasks| && s.tasks[i].stage.Classifying? ==> s.tasks[i].stage.score >= c.minReview
  }

  function StandsIn(c: Config, source: Source, band: Band): Kind {
    Standing(source, Low(c, band), High(c, band))
  }

  /** A decision is counted when its task is done; the task stands for it from the insert on. */
  lemma TurnDecides(c: Config, t: Task, a: Action, dup: bool, stats: Stats, band: Band)
    requires c.Valid() && (t.stage.Classifying? ==> t.stage.score >= c.minReview)
    requires match a
             case Start(_) => t.stage.Waiting?
             case Looked(_, _) => t.stage.Looking?
             case Scored(_, _) => t.stage.Scoring?
             case Insert(_, _) => t.stage.Creating?
             case Created(_) => t.stage.Written?
             case Classified(_) => t.stage.Classifying?
    ensures var (stage, stats') := Turn(c, t, a, dup, stats); var kind := StandsIn(c, t.source, band);
      && CounterOf(stats', band) - CounterOf(stats, band)
         == One(Is(t, kind)) - One(Is(t.(stage := stage), kind))
            + One(Inserts(a) && Within(Some(t.stage.score), Low(c, band), High(c, band)))
      && (stage.Classifying? ==> stage.score >= c.minReview)
  {
  }

  function Balance(c: Config, s: State, source: Source, band: Band): int
    requires source in s.stats
  {
    CountRows(s.table, source, Low(c, band), High(c, band)) - CounterOf(s.stats[source], band)
    - Tally(s.tasks, StandsIn(c, source, band))
  }

  lemma StepKeepsBalance(c: Config, s: State, a: Action, source: Source, band: Band)
    requires c.Valid() && Enabled(c, s, a) && (forall source: Source :: source in s.stats) && Cleared(c, s)
    ensures var s' := Step(c, s, a);
      && source in s'.stats && Cleared(c, s') && Balance(c, s', source, band) == Balance(c, s, source, band)
  {
    StepDecides(c, s, a, source, band);
    StepTallies(c, s, a, StandsIn(c, source, band));
    StepRows(c, s, a, source, Low(c, band), High(c, band));
    StepClears(c, s, a);
  }

  lemma StepDecides(c: Config, s: State, a: Action, source: Source, band: Band)
    requires c.Valid() && Enabled(c, s, a) && (forall source: Source :: source in s.stats) && Cleared(c, s)
    ensures var s', kind := Step(c, s, a), StandsIn(c, source, band); var t := s.tasks[a.task];
      && source in s'.stats && |s'.tasks| == |s.tasks|
      && CounterOf(s'.stats[source], band) - CounterOf(s.stats[source], band)
         == One(Is(t, kind)) - One(Is(s'.tasks[a.task], kind))
            + One(Inserts(a) && t.source == source && Within(Some(t.stage.score), Low(c, band), High(c, band)))
  {
    var t := s.tasks[a.task];
    var dup := FuzzyDuplicate(c, t, s.descriptions);
    var (stage, stats) := Turn(c, t, a, dup, s.stats[t.source]);
    assert Step(c, s, a).stats == s.stats[t.source := stats] && Step(c, s, a).tasks[a.task] == t.(stage := stage);
    if t.source == source {
      TurnDecides(c, t, a, dup, s.stats[t.source], band);
    }
  }

  lemma StepClears(c: Config, s: State, a: Action)
    requires c.Valid() && Enabled(c, s, a) && (forall source: Source :: source in s.stats) && Cleared(c, s)
    ensures Cleared(c, Step(c, s, a))
  {
    StepTallies(c, s, a, Active);
    var s' := Step(c, s, a);
    forall i | 0 <= i < |s'.tasks| && s'.tasks[i].stage.Classifying?
      ensures s'.tasks[i].stage.score >= c.minReview
    {
      assert i != a.task ==> s'.tasks[i] == s.tasks[i];
    }
  }

  lemma StepRows(c: Config, s: State, a: Action, source: Source, low: Option<real>, high: Option<real>)
    requires Enabled(c, s, a) && (forall source: Source :: source in s.stats)
    ensures CountRows(Step(c, s, a).table, source, low, high) == CountRows(s.table, source, low, high)
              + One(Inserts(a) && s.tasks[a.task].source == source
                    && Within(Some(s.tasks[a.task].stage.score), low, high))
  {
    var t := s.tasks[a.task];
    if Inserts(a) {
      RowsGrow(s.table, Row(KeyOf(t.pair), t.stage.score, t.stage.score >= c.autoApprove, t.source), source, low, high);
    }
  }

  lemma {:induction false} RunKeepsBalance(c: Config, s: State, actions: seq<Action>, source: Source, band: Band)
    requires c.Valid() && (forall source: Source :: source in s.stats) && Runs(c, s, actions) && Cleared(c, s)
    ensures Balance(c, After(c, s, actions), source, band) == Balance(c, s, source, band)
    decreases |actions|
  {
    if actions != [] {
      StepKeepsBalance(c, s, actions[0], source, band);
      RunKeepsBalance(c, Step(c, s, actions[0]), actions[1..], source, band);
    }
  }

  /**
   When a batch is over, the pairs counted as approved, to be reviewed and rejected are, source by source, the new rows
   whose score is at or above the approval threshold, between the two thresholds, and below the review threshold.
   */
  lemma CountersMatchScores(c: Config, s: State, actions: seq<Action>, source: Source)
    requires c.Valid() && Fresh(s) && Runs(c, s, actions) && Quiescent(After(c, s, actions))
    ensures var end := After(c, s, actions); var stats := end.stats[source];
      && CountRows(end.table, source, Some(c.autoApprove), None)
         == CountRows(s.table, source, Some(c.autoApprove), None) + stats.autoApproved
      && CountRows(end.table, source, Some(c.minReview), Some(c.autoApprove))
         == CountRows(s.table, source, Some(c.minReview), Some(c.autoApprove)) + stats.pendingReview
      && CountRows(end.table, source, None, Some(c.minReview))
         == CountRows(s.table, source, None, Some(c.minReview)) + stats.autoRejected
  {
    BandMatches(c, s, actions, source, Approved);
    BandMatches(c, s, actions, source, Review);
    BandMatches(c, s, actions, source, Rejected);
  }

  lemma BandMatches(c: Config, s: State, actions: seq<Action>, source: Source, band: Band)
    requires c.Valid() && Fresh(s) && Runs(c, s, actions) && Quiescent(After(c, s, actions))
    ensures var end := After(c, s, actions);
      CountRows(end.table, source, Low(c, band), High(c, band))
      == CountRows(s.table, source, Low(c, band), High(c, band)) + CounterOf(end.stats[source], band)
  {
    RunKeepsBalance(c, s, actions, source, band);
    FreshTallies(s.tasks, StandsIn(c, source, band));
    QuiescentTallies(After(c, s, actions).tasks, StandsIn(c, source, band));
    assert CounterOf(s.stats[source], band) == 0;
  }

  // ----- unresolvable pairs -----

  lemma TurnResolves(c: Config, t: Task, a: Action, dup: bool, stats: Stats)
    requires match a
             case Start(_) => t.stage.Waiting?
             case Looked(_, _) => t.stage.Looking?
             case Scored(_, _) => t.stage.Scoring?
             case Insert(_, _) => t.stage.Creating?
             case Created(_) => t.stage.Written?
             case Classified(_) => t.stage.Classifying?
    ensures var (stage, stats') := Turn(c, t, a, dup, stats);
      stats'.unresolvable - stats.unresolvable
      == One(Is(t, NamelessWaiting(t.source))) - One(Is(t.(stage := stage), NamelessWaiting(t.source)))
  {
  }

  lemma StepCountsNameless(c: Config, s: State, a: Action, source: Source)
    requires Enabled(c, s, a) && (forall source: Source :: source in s.stats)
    ensures var s', kind := Step(c, s, a), NamelessWaiting(source);
      source in s'.stats && |s'.tasks| == |s.tasks| &&
      s'.stats[source].unresolvable - s.stats[source].unresolvable
      == One(Is(s.tasks[a.task], kind)) - One(Is(s'.tasks[a.task], kind))
  {
    var t := s.tasks[a.task];
    var dup := FuzzyDuplicate(c, t, s.descriptions);
    var (stage, stats) := Turn(c, t, a, dup, s.stats[t.source]);
    assert Step(c, s, a).stats == s.stats[t.source := stats] && Step(c, s, a).tasks[a.task] == t.(stage := stage);
    if t.source == source {
      TurnResolves(c, t, a, dup, s.stats[t.source]);
    }
  }

  lemma StepResolves(c: Config, s: State, a: Action, source: Source)
    requires Enabled(c, s, a) && (forall source: Source :: source in s.stats)
    ensures var s' := Step(c, s, a);
      source in s'.stats &&
      s'.stats[source].unresolvable + Tally(s'.tasks, NamelessWaiting(source))
      == s.stats[source].unresolvable + Tally(s.tasks, NamelessWaiting(source))
  {
    StepCountsNameless(c, s, a, source);
    StepTallies(c, s, a, NamelessWaiting(source));
  }

  lemma {:induction false} RunResolves(c: Config, s: State, actions: seq<Action>, source: Source)
    requires (forall source: Source :: source in s.stats) && Runs(c, s, actions)
    ensures var end := After(c, s, actions);
      end.stats[source].unresolvable + Tally(end.tasks, NamelessWaiting(source))
      == s.stats[source].unresolvable + Tally(s.tasks, NamelessWaiting(source))
    decreases |actions|
  {
    if actions != [] {
      StepResolves(c, s, actions[0], source);
      RunResolves(c, Step(c, s, actions[0]), actions[1..], source);
    }
  }

  /** When a batch is over, its unresolvable pairs are those of which an id was absent or empty. */
  lemma UnresolvableLackNames(c: Config, s: State, actions: seq<Action>, source: Source)
    requires Fresh(s) && Runs(c, s, actions) && Quiescent(After(c, s, actions))
    ensures After(c, s, actions).stats[source].unresolvable == Tally(s.tasks, Nameless(source))
  {
    RunResolves(c, s, actions, source);
    FreshTallies(s.tasks, NamelessWaiting(source));
    QuiescentTallies(After(c, s, actions).tasks, NamelessWaiting(source));
  }

  // ----- scoring failures -----

  /** Scoring threw, or the database refused the row for another reason than its key. */
  predicate Fails(s: State, a: Action, source: Source) {
    && a.task < |s.tasks| && s.tasks[a.task].source == source
    && ((a.Scored? && !a.result.Value?) || (a.Insert? && a.outcome.DbError?))
  }

  function Failures(s: State, actions: seq<Action>, source: Source): nat {
    if actions == [] then 0
    else Failures(s, actions[..|actions|-1], source) + if Fails(s, actions[|actions|-1], source) then 1 else 0
  }

  lemma {:induction false} FailuresFirst(s: State, s': State, actions: seq<Action>, source: Source)
    requires |s.tasks| == |s'.tasks| && forall i :: 0 <= i < |s.tasks| ==> s.tasks[i].source == s'.tasks[i].source
    requires actions != []
    ensures Failures(s, actions, source)
         == (if Fails(s, actions[0], source) then 1 else 0) + Failures(s', actions[1..], source)
  {
    var n := |actions| - 1;
    if n > 0 {
      FailuresFirst(s, s', actions[..n], source);
      assert actions[..n][1..] == actions[1..][..n - 1];
    }
  }

  lemma TurnFails(c: Config, t: Task, a: Action, dup: bool, stats: Stats)
    requires match a
             case Start(_) => t.stage.Waiting?
             case Looked(_, _) => t.stage.Looking?
             case Scored(_, _) => t.stage.Scoring?
             case Insert(_, _) => t.stage.Creating?
             case Created(_) => t.stage.Written?
             case Classified(_) => t.stage.Classifying?
    ensures var (stage, stats') := Turn(c, t, a, dup, stats);
      stats'.scoringFailures - stats.scoringFailures
      == One(Is(t, Unlucky(t.source))) - One(Is(t.(stage := stage), Unlucky(t.source)))
         + One((a.Scored? && !a.result.Value?) || (a.Insert? && a.outcome.DbError?))
  {
  }

  lemma StepCountsFailures(c: Config, s: State, a: Action, source: Source)
    requires Enabled(c, s, a) && (forall source: Source :: source in s.stats)
    ensures var s', kind := Step(c, s, a), Unlucky(source);
      source in s'.stats && |s'.tasks| == |s.tasks| &&
      s'.stats[source].scoringFailures - s.stats[source].scoringFailures
      == One(Is(s.tasks[a.task], kind)) - One(Is(s'.tasks[a.task], kind)) + One(Fails(s, a, source))
  {
    var t := s.tasks[a.task];
    var dup := FuzzyDuplicate(c, t, s.descriptions);
    var (stage, stats) := Turn(c, t, a, dup, s.stats[t.source]);
    assert Step(c, s, a).stats == s.stats[t.source := stats] && Step(c, s, a).tasks[a.task] == t.(stage := stage);
    if t.source == source {
      TurnFails(c, t, a, dup, s.stats[t.source]);
    }
  }

  lemma StepFails(c: Config, s: State, a: Action, source: Source)
    requires Enabled(c, s, a) && (forall source: Source :: source in s.stats)
    ensures var s' := Step(c, s, a);
      && source in s'.stats && |s'.tasks| == |s.tasks|
      && (forall i :: 0 <= i < |s.tasks| ==> s.tasks[i].source == s'.tasks[i].source)
      && s'.stats[source].scoringFailures + Tally(s'.tasks, Unlucky(source))
         == s.stats[source].scoringFailures + Tally(s.tasks, Unlucky(source)) + if Fails(s, a, source) then 1 else 0
  {
    StepCountsFailures(c, s, a, source);
    StepTallies(c, s, a, Unlucky(source));
  }

  lemma {:induction false} RunFails(c: Config, s: State, actions: seq<Action>, source: Source)
    requires (forall source: Source :: source in s.stats) && Runs(c, s, actions)
    ensures var end := After(c, s, actions);
      end.stats[source].scoringFailures + Tally(end.tasks, Unlucky(source))
      == s.stats[source].scoringFailures + Tally(s.tasks, Unlucky(source)) + Failures(s, actions, source)
    decreases |actions|
  {
    if actions != [] {
      StepFails(c, s, actions[0], source);
      RunFails(c, Step(c, s, actions[0]), actions[1..], source);
      FailuresFirst(s, Step(c, s, actions[0]), actions, source);
    }
  }

  /** When a batch is over, its scoring failures are the pairs whose scoring threw or whose row the database refused. */
  lemma FailuresAreCounted(c: Config, s: State, actions: seq<Action>, source: Source)
    requires Fresh(s) && Runs(c, s, actions) && Quiescent(After(c, s, actions))
    ensures After(c, s, actions).stats[source].scoringFailures == Failures(s, actions, source)
  {
    RunFails(c, s, actions, source);
    FreshTallies(s.tasks, Unlucky(source));
    QuiescentTallies(After(c, s, actions).tasks, Unlucky(source));
  }

  // ----- duplicates by title -----

  /** Both titles are similar to those of a pair that is described in full. */
  ghost predicate SimilarTo(c: Config, pair: ExternalPair, d: Description) {
    && d.polymarket.Some? && d.polymarket.value != "" && d.kalshi.Some? && d.kalshi.value != ""
    && c.similar(pair.polymarketTitle, d.polymarket.value) && c.similar(pair.kalshiTitle, d.kalshi.value)
  }

  /** An unseen pair goes on to scoring unless it is from OddsPipe and its titles are similar to described ones. */
  lemma SimilarTitlesAreDropped(c: Config, s: State, i: nat)
    requires (forall source: Source :: source in s.stats) && Enabled(c, s, Looked(i, Unseen))
    ensures var s', t := Step(c, s, Looked(i, Unseen)), s.tasks[i];
      if t.source == OddsPipe && exists k :: 0 <= k < |s.descriptions| && SimilarTo(c, t.pair, s.descriptions[k])
      then s'.tasks[i].stage == Done && s'.stats[t.source].deduplicated == s.stats[t.source].deduplicated + 1
      else s'.tasks[i].stage == Scoring && s'.stats == s.stats
  {
    var t, s' := s.tasks[i], Step(c, s, Looked(i, Unseen));
    assert s.stats[t.source := s.stats[t.source]] == s.stats;
    forall k | 0 <= k < |s.descriptions|
      ensures SimilarTo(c, t.pair, s.descriptions[k]) <==>
              var d := s.descriptions[k];
              && Present(d.polymarket) && Present(d.kalshi)
              && c.similar(t.pair.polymarketTitle, d.polymarket.value) && c.similar(t.pair.kalshiTitle, d.kalshi.value)
    {
    }
  }

  /** A pair is described from the moment it is counted as scored, by its own titles. */
  lemma ScoredPairsAreDescribed(c: Config, s: State, a: Action)
    requires (forall source: Source :: source in s.stats) && Enabled(c, s, a)
    ensures var s', t := Step(c, s, a), s.tasks[a.task];
      && (s'.stats[t.source].scored == s.stats[t.source].scored ==> s'.descriptions == s.descriptions)
      && (s'.stats[t.source].scored != s.stats[t.source].scored ==>
            && s'.stats[t.source].scored == s.stats[t.source].scored + 1
            && s'.descriptions ==
                 s.descriptions + [Description(Some(t.pair.polymarketTitle), Some(t.pair.kalshiTitle))])
  {
  }
}
