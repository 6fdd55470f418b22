/**
 Ingestion of externally matched pairs: tasks that share counters, a list of descriptions and a table with a
 unique key, interleaved at every point where the code waits.
 */
module Ingestion {
  import opened Wrappers

  datatype Source = OddsPipe | Predexon

  /** Ids may be absent or empty. */
  datatype ExternalPair = ExternalPair(
    polymarketId: Option<string>, kalshiId: Option<string>, polymarketTitle: string, kalshiTitle: string)

  datatype Key = Key(polymarketId: string, kalshiId: string)

  datatype Row = Row(key: Key, score: real, operatorApproved: bool, origin: Source)

  datatype Description = Description(polymarket: Option<string>, kalshi: Option<string>)

  datatype Stats = Stats(
    fetched: nat, deduplicated: nat, scored: nat, autoApproved: nat, pendingReview: nat, autoRejected: nat,
    scoringFailures: nat, unresolvable: nat, providerError: bool)

  /** How an insert ends at the database. */
  datatype Outcome = Inserted | Duplicate | DbError

  /** What an existence check at the database sees, which may be out of date by the time it is used. */
  datatype Lookup = Seen | Unseen | LookupFailed

  /** Where a task stands: what it waits for. A task whose existence check throws is lost, and nothing counts it. */
  datatype Stage =
    | Waiting
    | Looking
    | Scoring
    | Creating(score: real)
    | Written(score: real, outcome: Outcome)
    | Classifying(score: real)
    | Done
    | Lost

  datatype Task = Task(source: Source, pair: ExternalPair, stage: Stage)

  datatype State = State(
    tasks: seq<Task>, stats: map<Source, Stats>, table: seq<Row>, descriptions: seq<Description>)

  /** Thresholds, the number of tasks that may run at once, and whether two titles are similar enough. */
  datatype Config = Config(
    autoApprove: real, minReview: real, concurrency: nat, similar: (string, string) -> bool)
  {
    predicate Valid() {
      minReview < autoApprove && concurrency >= 1
    }
  }

  datatype Score = LlmScoringError | OtherError | Value(score: real)

  /** One task moves on, with what it has waited for. */
  datatype Action =
    | Start(task: nat)
    | Looked(task: nat, lookup: Lookup)
    | Scored(task: nat, result: Score)
    | Insert(task: nat, outcome: Outcome)
    | Created(task: nat)
    | Classified(task: nat)

  predicate Present(id: Option<string>) {
    id.Some? && id.value != ""
  }

  predicate Resolvable(pair: ExternalPair) {
    Present(pair.polymarketId) && Present(pair.kalshiId)
  }

  function KeyOf(pair: ExternalPair): Key
    requires Resolvable(pair)
  {
    Key(pair.polymarketId.value, pair.kalshiId.value)
  }

  predicate InTable(table: seq<Row>, key: Key) {
    exists i :: 0 <= i < |table| && table[i].key == key
  }

  predicate FuzzyDuplicate(c: Config, t: Task, descriptions: seq<Description>) {
    t.source.OddsPipe? &&
    exists i :: 0 <= i < |descriptions| &&
      var d := descriptions[i];
      && Present(d.polymarket) && Present(d.kalshi)
      && c.similar(t.pair.polymarketTitle, d.polymarket.value) && c.similar(t.pair.kalshiTitle, d.kalshi.value)
  }

  predicate Settled(stage: Stage) {
    stage.Done? || stage.Lost?
  }

  predicate Running(stage: Stage) {
    !stage.Waiting? && !Settled(stage)
  }

  // ----- one step -----

  /** The step is possible: the task waits for just this, and the database keeps its unique key. */
  predicate Enabled(c: Config, s: State, a: Action) {
    a.task < |s.tasks| &&
    var t := s.tasks[a.task];
    match a
    case Start(_) => t.stage.Waiting? && Tally(s.tasks, Active) < c.concurrency
    case Looked(_, lookup) =>
      t.stage.Looking? && Resolvable(t.pair) && (lookup.Seen? ==> InTable(s.table, KeyOf(t.pair)))
    case Scored(_, _) => t.stage.Scoring?
    case Insert(_, outcome) =>
      && t.stage.Creating? && Resolvable(t.pair)
      && (outcome.Inserted? ==> !InTable(s.table, KeyOf(t.pair)))
      && (outcome.Duplicate? ==> InTable(s.table, KeyOf(t.pair)))
    case Created(_) => t.stage.Written?
    case Classified(_) => t.stage.Classifying?
  }

  /** Where the task of an enabled action goes, and what becomes of the counters of its source. */
  function Turn(c: Config, t: Task, a: Action, fuzzyDuplicate: bool, stats: Stats): (Stage, Stats)
    requires match a
             case Start(_) => t.stage.Waiting?
             case Looked(_, _) => t.stage.Looking?
             case Scored(_, _) => t.stage.Scoring?
             case Insert(_, _) => t.stage.Creating?
             case Created(_) => t.stage.Written?
             case Classified(_) => t.stage.Classifying?
  {
    match a
    case Start(_) =>
      if Resolvable(t.pair) then (Looking, stats) else (Done, stats.(unresolvable := stats.unresolvable + 1))
    case Looked(_, lookup) =>
      if lookup.LookupFailed? then (Lost, stats)
      else if lookup.Seen? || fuzzyDuplicate then (Done, stats.(deduplicated := stats.deduplicated + 1))
      else (Scoring, stats)
    case Scored(_, result) =>
      if result.Value? then (Creating(result.score), stats)
      else (Done, stats.(scoringFailures := stats.scoringFailures + 1))
    case Insert(_, outcome) => (Written(t.stage.score, outcome), stats)
    case Created(_) =>
      (match t.stage.outcome
       case Duplicate => (Done, stats.(deduplicated := stats.deduplicated + 1))
       case DbError => (Done, stats.(scoringFailures := stats.scoringFailures + 1))
       case Inserted =>
         if t.stage.score >= c.minReview
         then (Classifying(t.stage.score), stats.(scored := stats.scored + 1))
         else (Done, stats.(scored := stats.scored + 1, autoRejected := stats.autoRejected + 1)))
    case Classified(_) =>
      if t.stage.score >= c.autoApprove
      then (Done, stats.(autoApproved := stats.autoApproved + 1))
      else (Done, stats.(pendingReview := stats.pendingReview + 1))
  }

  function Step(c: Config, s: State, a: Action): State
    requires Enabled(c, s, a) && (forall source: Source :: source in s.stats)
  {
    var t := s.tasks[a.task];
    var (stage, stats) := Turn(c, t, a, FuzzyDuplicate(c, t, s.descriptions), s.stats[t.source]);
    State(
      s.tasks[a.task := t.(stage := stage)],
      s.stats[t.source := stats],
      if a.Insert? && a.outcome.Inserted?
      then s.table + [Row(KeyOf(t.pair), t.stage.score, t.stage.score >= c.autoApprove, t.source)] else s.table,
      if a.Created? && t.stage.outcome.Inserted?
      then s.descriptions + [Description(Some(t.pair.polymarketTitle), Some(t.pair.kalshiTitle))] else s.descriptions)
  }

  // ----- tallies -----

  datatype Kind = Active | Of(source: Source) | InFlight(source: Source) | AtClassifier(source: Source)
                | LostOf(source: Source) | WrittenRow | ApprovedRow(threshold: real)
                | Standing(source: Source, low: Option<real>, high: Option<real>) | Unlucky(source: Source)
                | Nameless(source: Source) | NamelessWaiting(source: Source)

  /** The score of a pair that has a row but is not decided yet. */
  function StandingScore(stage: Stage): Option<real> {
    match stage
    case Written(score, Inserted) => Some(score)
    case Classifying(score) => Some(score)
    case _ => None
  }

  predicate Within(score: Option<real>, low: Option<real>, high: Option<real>) {
    score.Some? && (low.Some? ==> score.value >= low.value) && (high.Some? ==> score.value < high.value)
  }

  /** One of the two ids is absent or empty. */
  predicate LacksName(pair: ExternalPair) {
    pair.polymarketId == None || pair.polymarketId == Some("") || pair.kalshiId == None || pair.kalshiId == Some("")
  }

  /** A task is in flight until one of the counters has it. */
  predicate Is(t: Task, kind: Kind) {
    match kind
    case Active => Running(t.stage)
    case Of(source) => t.source == source
    case InFlight(source) => t.source == source && !Settled(t.stage) && !t.stage.Classifying?
    case LostOf(source) => t.source == source && t.stage.Lost?
    case AtClassifier(source) => t.source == source && t.stage.Classifying?
    case WrittenRow => t.stage.Written? && t.stage.outcome.Inserted?
    case ApprovedRow(threshold) =>
      || (t.stage.Written? && t.stage.outcome.Inserted? && t.stage.score >= threshold)
      || (t.stage.Classifying? && t.stage.score >= threshold)
    case Standing(source, low, high) =>
      && t.source == source && Within(StandingScore(t.stage), low, high)
    case Unlucky(source) => t.source == source && t.stage.Written? && t.stage.outcome.DbError?
    case Nameless(source) => t.source == source && LacksName(t.pair)
    case NamelessWaiting(source) => t.source == source && t.stage.Waiting? && LacksName(t.pair)
  }

  function Tally(tasks: seq<Task>, kind: Kind): nat {
    if tasks == [] then 0 else (if Is(tasks[0], kind) then 1 else 0) + Tally(tasks[1..], kind)
  }

  lemma {:induction false} TallyMove(tasks: seq<Task>, i: nat, t: Task, kind: Kind)
    requires i < |tasks|
    ensures Tally(tasks[i := t], kind) ==
            Tally(tasks, kind) - (if Is(tasks[i], kind) then 1 else 0) + (if Is(t, kind) then 1 else 0)
  {
    if i > 0 {
      assert tasks[i := t][1..] == tasks[1..][i - 1 := t];
      TallyMove(tasks[1..], i - 1, t, kind);
    } else {
      assert tasks[i := t][1..] == tasks[1..];
    }
  }

  // ----- conservation -----

  function Accounted(stats: Stats): nat {
    stats.unresolvable + stats.deduplicated + stats.scored + stats.scoringFailures
  }

  /** Every fetched pair is counted once, still in flight or lost; every scored one is decided or at the classifier. */
  ghost predicate Conserved(s: State, source: Source)
    requires source in s.stats
  {
    var stats := s.stats[source];
    && stats.fetched == Tally(s.tasks, Of(source))
    && stats.fetched == Accounted(stats) + Tally(s.tasks, InFlight(source)) + Tally(s.tasks, LostOf(source))
    && stats.scored == stats.autoApproved + stats.pendingReview + stats.autoRejected
                       + Tally(s.tasks, AtClassifier(source))
  }

  function CountApproved(rows: seq<Row>): nat {
    if rows == [] then 0 else CountApproved(rows[..|rows|-1]) + if rows[|rows|-1].operatorApproved then 1 else 0
  }

  ghost predicate UniqueKeys(table: seq<Row>) {
    forall i, j :: 0 <= i < j < |table| ==> table[i].key != table[j].key
  }

  /** The rows added to the `before` rows are the scored pairs, and their approvals the approved ones. */
  ghost predicate TableMatches(c: Config, s: State, before: seq<Row>)
    requires forall source: Source :: source in s.stats
  {
    && before <= s.table
    && |s.table| == |before| + s.stats[OddsPipe].scored + s.stats[Predexon].scored + Tally(s.tasks, WrittenRow)
    && CountApproved(s.table) == CountApproved(before) + Approvals(s.stats) + Tally(s.tasks, ApprovedRow(c.autoApprove))
  }

  ghost predicate Inv(c: Config, s: State, before: seq<Row>) {
    && (forall source: Source :: source in s.stats && Conserved(s, source))
    && UniqueKeys(s.table)
    && TableMatches(c, s, before)
    && Tally(s.tasks, Active) <= c.concurrency
    && (forall i :: 0 <= i < |s.tasks| && Running(s.tasks[i].stage) ==> Resolvable(s.tasks[i].pair))
  }

  /** What a step does to the tallies of one kind. */
  lemma StepTallies(c: Config, s: State, a: Action, kind: Kind)
    requires Enabled(c, s, a) && (forall source: Source :: source in s.stats)
    ensures var s' := Step(c, s, a);
      && |s'.tasks| == |s.tasks|
      && s'.tasks == s.tasks[a.task := s.tasks[a.task].(stage := s'.tasks[a.task].stage)]
      && Tally(s'.tasks, kind) ==
         Tally(s.tasks, kind) - (if Is(s.tasks[a.task], kind) then 1 else 0)
         + (if Is(s'.tasks[a.task], kind) then 1 else 0)
  {
    TallyMove(s.tasks, a.task, s.tasks[a.task].(stage := Step(c, s, a).tasks[a.task].stage), kind);
  }

  function One(b: bool): int {
    if b then 1 else 0
  }

  function Decided(stats: Stats): nat {
    stats.autoApproved + stats.pendingReview + stats.autoRejected
  }

  /** A turn counts the pair when it leaves flight, and decides it when it leaves the classifier or is rejected. */
  lemma TurnCounts(c: Config, t: Task, a: Action, dup: bool, stats: Stats)
    requires match a
             case Start(_) => t.stage.Waiting?
             case Looked(_, _) => t.stage.Looking?
             case Scored(_, _) => t.stage.Scoring?
             case Insert(_, _) => t.stage.Creating?
             case Created(_) => t.stage.Written?
             case Classified(_) => t.stage.Classifying?
    ensures var (stage, stats') := Turn(c, t, a, dup, stats); CountsMove(stats, stats', t, t.(stage := stage), t.source)
  {
  }

  /** The counters of `source` before and after its task moved from `t` to `t'`. */
  ghost predicate CountsMove(stats: Stats, stats': Stats, t: Task, t': Task, source: Source) {
    && stats'.fetched == stats.fetched
    && Accounted(stats') - Accounted(stats)
       == One(Is(t, InFlight(source))) - One(Is(t', InFlight(source)))
          + One(Is(t, LostOf(source))) - One(Is(t', LostOf(source)))
    && stats'.scored - stats.scored
       == Decided(stats') - Decided(stats) + One(Is(t', AtClassifier(source))) - One(Is(t, AtClassifier(source)))
    && stats'.scored - stats.scored == One(t.source == source && Is(t, WrittenRow))
  }

  /** An approval is counted when its task leaves the classifier; the task stands for it since the insert. */
  lemma TurnApproves(c: Config, t: Task, a: Action, dup: bool, stats: Stats)
    requires c.Valid()
    requires match a
             case Start(_) => t.stage.Waiting?
             case Looked(_, _) => t.stage.Looking?
             case Scored(_, _) => t.stage.Scoring?
             case Insert(_, _) => t.stage.Creating?
             case Created(_) => t.stage.Written?
             case Classified(_) => t.stage.Classifying?
    ensures var (stage, stats') := Turn(c, t, a, dup, stats); var t' := t.(stage := stage);
      stats'.autoApproved - stats.autoApproved
      == One(Is(t, ApprovedRow(c.autoApprove))) - One(Is(t', ApprovedRow(c.autoApprove)))
         + One(a.Insert? && a.outcome.Inserted? && t.stage.score >= c.autoApprove)
  {
  }

  lemma ApprovedGrows(rows: seq<Row>, row: Row)
    ensures CountApproved(rows + [row]) == CountApproved(rows) + One(row.operatorApproved)
  {
    assert (rows + [row])[..|rows|] == rows;
  }

  lemma StepCounts(c: Config, s: State, a: Action, source: Source)
    requires Enabled(c, s, a) && (forall source: Source :: source in s.stats)
    ensures var s' := Step(c, s, a);
      source in s'.stats && CountsMove(s.stats[source], s'.stats[source], s.tasks[a.task], s'.tasks[a.task], source)
  {
    var t := s.tasks[a.task];
    var dup := FuzzyDuplicate(c, t, s.descriptions);
    var (stage, stats) := Turn(c, t, a, dup, s.stats[t.source]);
    assert Step(c, s, a).stats == s.stats[t.source := stats] && Step(c, s, a).tasks[a.task] == t.(stage := stage);
    if t.source == source {
      TurnCounts(c, t, a, dup, s.stats[t.source]);
    }
  }

  lemma StepConserves(c: Config, s: State, a: Action, source: Source)
    requires Enabled(c, s, a) && (forall source: Source :: source in s.stats) && Conserved(s, source)
    ensures source in Step(c, s, a).stats && Conserved(Step(c, s, a), source)
  {
    StepCounts(c, s, a, source);
    StepTallies(c, s, a, Of(source));
    StepTallies(c, s, a, InFlight(source));
    StepTallies(c, s, a, LostOf(source));
    StepTallies(c, s, a, AtClassifier(source));
  }

  /** Only an insert adds a row, and it adds the one its task then stands for. */
  lemma StepOnTable(c: Config, s: State, a: Action)
    requires Enabled(c, s, a) && (forall source: Source :: source in s.stats)
    ensures var s' := Step(c, s, a); var t, t' := s.tasks[a.task], s'.tasks[a.task];
      if !Is(t, WrittenRow) && Is(t', WrittenRow)
      then Resolvable(t.pair) &&
           var key := Key(t.pair.polymarketId.value, t.pair.kalshiId.value);
           && (forall i :: 0 <= i < |s.table| ==> s.table[i].key != key)
           && s'.table == s.table + [Row(key, t'.stage.score, t'.stage.score >= c.autoApprove, t.source)]
      else s'.table == s.table
  {
  }

  lemma StepKeepsKeys(c: Config, s: State, a: Action)
    requires Enabled(c, s, a) && (forall source: Source :: source in s.stats) && UniqueKeys(s.table)
    ensures UniqueKeys(Step(c, s, a).table) && s.table <= Step(c, s, a).table
  {
    StepOnTable(c, s, a);
  }

  lemma StepKeepsTable(c: Config, s: State, a: Action, before: seq<Row>)
    requires c.Valid() && Enabled(c, s, a) && (forall source: Source :: source in s.stats) && TableMatches(c, s, before)
    ensures (forall source: Source :: source in Step(c, s, a).stats) && TableMatches(c, Step(c, s, a), before)
  {
    StepKeepsRows(c, s, a);
    StepKeepsApprovals(c, s, a);
    StepOnTable(c, s, a);
  }

  lemma StepKeepsRows(c: Config, s: State, a: Action)
    requires Enabled(c, s, a) && (forall source: Source :: source in s.stats)
    ensures var s' := Step(c, s, a);
      && (forall source: Source :: source in s'.stats)
      && |s'.table| - s'.stats[OddsPipe].scored - s'.stats[Predexon].scored - Tally(s'.tasks, WrittenRow)
         == |s.table| - s.stats[OddsPipe].scored - s.stats[Predexon].scored - Tally(s.tasks, WrittenRow)
  {
    StepTallies(c, s, a, WrittenRow);
    StepCounts(c, s, a, OddsPipe);
    StepCounts(c, s, a, Predexon);
    StepOnTable(c, s, a);
  }

  function Inserts(a: Action): bool {
    a.Insert? && a.outcome.Inserted?
  }

  /** A step adds an approved row exactly when it inserts a score at or above the threshold. */
  lemma StepApproves(c: Config, s: State, a: Action)
    requires Enabled(c, s, a) && (forall source: Source :: source in s.stats)
    ensures CountApproved(Step(c, s, a).table) ==
            CountApproved(s.table) + One(Inserts(a) && s.tasks[a.task].stage.score >= c.autoApprove)
  {
    var t := s.tasks[a.task];
    if Inserts(a) {
      var row := Row(KeyOf(t.pair), t.stage.score, t.stage.score >= c.autoApprove, t.source);
      assert Step(c, s, a).table == s.table + [row];
      ApprovedGrows(s.table, row);
    } else {
      assert Step(c, s, a).table == s.table;
    }
  }

  function Approvals(stats: map<Source, Stats>): nat
    requires OddsPipe in stats && Predexon in stats
  {
    stats[OddsPipe].autoApproved + stats[Predexon].autoApproved
  }

  lemma StepCountsApprovals(c: Config, s: State, a: Action)
    requires c.Valid() && Enabled(c, s, a) && (forall source: Source :: source in s.stats)
    ensures var s' := Step(c, s, a); var kind := ApprovedRow(c.autoApprove);
      && (forall source: Source :: source in s'.stats)
      && Approvals(s'.stats) - Approvals(s.stats)
         == One(Is(s.tasks[a.task], kind)) - One(Is(s'.tasks[a.task], kind))
            + One(Inserts(a) && s.tasks[a.task].stage.score >= c.autoApprove)
  {
    var t := s.tasks[a.task];
    var dup := FuzzyDuplicate(c, t, s.descriptions);
    var (stage, stats) := Turn(c, t, a, dup, s.stats[t.source]);
    TurnApproves(c, t, a, dup, s.stats[t.source]);
    assert Step(c, s, a).tasks[a.task] == t.(stage := stage);
    assert Step(c, s, a).stats == s.stats[t.source := stats];
    assert t.source == OddsPipe || t.source == Predexon;
  }

  lemma StepKeepsApprovals(c: Config, s: State, a: Action)
    requires c.Valid() && Enabled(c, s, a) && (forall source: Source :: source in s.stats)
    ensures var s' := Step(c, s, a); var kind := ApprovedRow(c.autoApprove);
      && (forall source: Source :: source in s'.stats)
      && CountApproved(s'.table) - Approvals(s'.stats) - Tally(s'.tasks, kind)
         == CountApproved(s.table) - Approvals(s.stats) - Tally(s.tasks, kind)
  {
    StepTallies(c, s, a, ApprovedRow(c.autoApprove));
    StepCountsApprovals(c, s, a);
    StepApproves(c, s, a);
  }

  /** Every step of every interleaving keeps the books balanced and the keys unique. */
  lemma StepKeepsInv(c: Config, s: State, a: Action, before: seq<Row>)
    requires c.Valid() && Enabled(c, s, a) && Inv(c, s, before)
    ensures Inv(c, Step(c, s, a), before)
  {
    forall source: Source
      ensures source in Step(c, s, a).stats && Conserved(Step(c, s, a), source)
    {
      StepConserves(c, s, a, source);
    }
    StepKeepsKeys(c, s, a);
    StepKeepsTable(c, s, a, before);
    StepKeepsTasks(c, s, a);
  }

  lemma StepKeepsTasks(c: Config, s: State, a: Action)
    requires Enabled(c, s, a) && (forall source: Source :: source in s.stats) && Tally(s.tasks, Active) <= c.concurrency
    requires forall i :: 0 <= i < |s.tasks| && Running(s.tasks[i].stage) ==> Resolvable(s.tasks[i].pair)
    ensures var s' := Step(c, s, a);
      && Tally(s'.tasks, Active) <= c.concurrency
      && forall i :: 0 <= i < |s'.tasks| && Running(s'.tasks[i].stage) ==> Resolvable(s'.tasks[i].pair)
  {
    StepTallies(c, s, a, Active);
    var s' := Step(c, s, a);
    forall i | 0 <= i < |s'.tasks| && Running(s'.tasks[i].stage)
      ensures Resolvable(s'.tasks[i].pair)
    {
      assert i != a.task ==> s'.tasks[i] == s.tasks[i];
    }
  }

  // ----- whole runs -----

  predicate Runs(c: Config, s: State, actions: seq<Action>)
    requires forall source: Source :: source in s.stats
    decreases |actions|
  {
    actions == [] || (Enabled(c, s, actions[0]) && Runs(c, StepTotal(c, s, actions[0]), actions[1..]))
  }

  function StepTotal(c: Config, s: State, a: Action): (s': State)
    requires Enabled(c, s, a) && (forall source: Source :: source in s.stats)
    ensures s' == Step(c, s, a) && (forall source: Source :: source in s'.stats)
  {
    Step(c, s, a)
  }

  function After(c: Config, s: State, actions: seq<Action>): (end: State)
    requires (forall source: Source :: source in s.stats) && Runs(c, s, actions)
    ensures forall source: Source :: source in end.stats
    decreases |actions|
  {
    if actions == [] then s else After(c, StepTotal(c, s, actions[0]), actions[1..])
  }

  predicate Quiescent(s: State) {
    forall i :: 0 <= i < |s.tasks| ==> Settled(s.tasks[i].stage)
  }

  lemma {:induction false} RunKeepsInv(c: Config, s: State, actions: seq<Action>, before: seq<Row>)
    requires c.Valid() && Inv(c, s, before) && Runs(c, s, actions)
    ensures Inv(c, After(c, s, actions), before)
    decreases |actions|
  {
    if actions != [] {
      StepKeepsInv(c, s, actions[0], before);
      RunKeepsInv(c, Step(c, s, actions[0]), actions[1..], before);
    }
  }

  lemma {:induction false} QuiescentTallies(tasks: seq<Task>, kind: Kind)
    requires forall i :: 0 <= i < |tasks| ==> Settled(tasks[i].stage)
    requires !kind.Of? && !kind.LostOf? && !kind.Nameless?
    ensures Tally(tasks, kind) == 0
  {
    if tasks != [] {
      QuiescentTallies(tasks[1..], kind);
    }
  }

  /** The batch begins with every task waiting and every other counter at zero. */
  ghost predicate Fresh(s: State) {
    && (forall source: Source :: source in s.stats &&
          s.stats[source] == Stats(Tally(s.tasks, Of(source)), 0, 0, 0, 0, 0, 0, 0, s.stats[source].providerError))
    && (forall i :: 0 <= i < |s.tasks| ==> s.tasks[i].stage.Waiting?)
    && UniqueKeys(s.table)
  }

  lemma {:induction false} FreshTallies(tasks: seq<Task>, kind: Kind)
    requires forall i :: 0 <= i < |tasks| ==> tasks[i].stage.Waiting?
    ensures Tally(tasks, kind) ==
            match kind {
              case Nameless(source) => Tally(tasks, Nameless(source))
              case NamelessWaiting(source) => Tally(tasks, Nameless(source))
              case Of(source) => Tally(tasks, Of(source))
              case InFlight(source) => Tally(tasks, Of(source))
              case _ => 0
            }
  {
    if tasks != [] {
      FreshTallies(tasks[1..], kind);
    }
  }

  lemma FreshIsBalanced(c: Config, s: State)
    requires Fresh(s)
    ensures Inv(c, s, s.table)
  {
    forall source: Source
      ensures source in s.stats && Conserved(s, source)
    {
      FreshTallies(s.tasks, InFlight(source));
      FreshTallies(s.tasks, LostOf(source));
      FreshTallies(s.tasks, AtClassifier(source));
    }
    FreshTallies(s.tasks, WrittenRow);
    FreshTallies(s.tasks, ApprovedRow(c.autoApprove));
    FreshTallies(s.tasks, Active);
  }

  /** The existence checks of a source that fail in a run. */
  function FailedChecks(s: State, actions: seq<Action>, source: Source): nat {
    if actions == [] then 0
    else FailedChecks(s, actions[..|actions|-1], source) + if FailsCheck(s, actions[|actions|-1], source) then 1 else 0
  }

  predicate FailsCheck(s: State, a: Action, source: Source) {
    a.Looked? && a.lookup.LookupFailed? && a.task < |s.tasks| && s.tasks[a.task].source == source
  }

  /** Tasks keep their sources, so it does not matter when their failed checks are counted. */
  lemma {:induction false} FailedChecksFirst(s: State, s': State, actions: seq<Action>, source: Source)
    requires |s.tasks| == |s'.tasks| && forall i :: 0 <= i < |s.tasks| ==> s.tasks[i].source == s'.tasks[i].source
    requires actions != []
    ensures FailedChecks(s, actions, source)
         == (if FailsCheck(s, actions[0], source) then 1 else 0) + FailedChecks(s', actions[1..], source)
  {
    var n := |actions| - 1;
    if n > 0 {
      FailedChecksFirst(s, s', actions[..n], source);
      assert actions[..n][1..] == actions[1..][..n - 1];
    }
  }

  lemma StepLoses(c: Config, s: State, a: Action, source: Source)
    requires Enabled(c, s, a) && (forall source: Source :: source in s.stats)
    ensures var s' := Step(c, s, a);
      && Tally(s'.tasks, LostOf(source)) == Tally(s.tasks, LostOf(source)) + (if FailsCheck(s, a, source) then 1 else 0)
      && |s'.tasks| == |s.tasks| && forall i :: 0 <= i < |s.tasks| ==> s.tasks[i].source == s'.tasks[i].source
  {
    StepTallies(c, s, a, LostOf(source));
  }

  /** A task is lost for each failed check, and for nothing else. */
  lemma {:induction false} LostAreFailedChecks(c: Config, s: State, actions: seq<Action>, source: Source)
    requires (forall source: Source :: source in s.stats) && Runs(c, s, actions)
    ensures Tally(After(c, s, actions).tasks, LostOf(source))
         == Tally(s.tasks, LostOf(source)) + FailedChecks(s, actions, source)
    decreases |actions|
  {
    if actions != [] {
      StepLoses(c, s, actions[0], source);
      LostAreFailedChecks(c, Step(c, s, actions[0]), actions[1..], source);
      FailedChecksFirst(s, Step(c, s, actions[0]), actions, source);
    }
  }

  /**
   Conservation under every interleaving: whenever all tasks are settled, each source's fetched pairs are exactly its
   unresolvable, deduplicated, scored and failed ones and those whose existence check failed, which no counter has.
   So the counters alone add up exactly when no check failed. Its scored pairs are always exactly the approved,
   pending and rejected ones.
   */
  lemma BatchIsConserved(c: Config, s: State, actions: seq<Action>, source: Source)
    requires c.Valid() && Fresh(s) && Runs(c, s, actions) && Quiescent(After(c, s, actions))
    ensures var stats, failed := After(c, s, actions).stats[source], FailedChecks(s, actions, source);
      && stats.fetched == Tally(s.tasks, Of(source)) == Accounted(stats) + failed
      && (stats.fetched == Accounted(stats) <==> failed == 0)
      && stats.scored == stats.autoApproved + stats.pendingReview + stats.autoRejected
  {
    RunConserves(c, s, actions, source);
    QuiescentIsConserved(After(c, s, actions), source);
    RunKeepsTasks(c, s, actions, Of(source));
    LostAreFailedChecks(c, s, actions, source);
    FreshTallies(s.tasks, LostOf(source));
  }

  /** A batch of one pair, of which nothing has been counted but that it was fetched. */
  function LonePair(pair: ExternalPair, stage: Stage): State {
    State([Task(OddsPipe, pair, stage)],
          map[OddsPipe := Stats(1, 0, 0, 0, 0, 0, 0, 0, false), Predexon := Stats(0, 0, 0, 0, 0, 0, 0, 0, false)],
          [], [])
  }

  /** If the existence check of that pair fails, the batch ends with nothing else counted. */
  lemma LostPairIsUncounted(c: Config, pair: ExternalPair)
    requires Resolvable(pair) && c.concurrency >= 1
    ensures var s, looking := LonePair(pair, Waiting), LonePair(pair, Looking);
      && SourcesCounted(s) && Enabled(c, s, Start(0)) && Step(c, s, Start(0)) == looking
      && SourcesCounted(looking) && Enabled(c, looking, Looked(0, LookupFailed))
      && Step(c, looking, Looked(0, LookupFailed)) == LonePair(pair, Lost)
  {
    var s, looking := LonePair(pair, Waiting), LonePair(pair, Looking);
    assert s.tasks[1..] == [] && Tally(s.tasks[1..], Active) == 0;
    CountsBothSources(s);
    CountsBothSources(looking);
    assert Step(c, s, Start(0)).tasks == looking.tasks && Step(c, s, Start(0)).stats == looking.stats;
    var end := Step(c, looking, Looked(0, LookupFailed));
    assert end.tasks == LonePair(pair, Lost).tasks && end.stats == looking.stats;
  }

  ghost predicate SourcesCounted(s: State) {
    forall source: Source :: source in s.stats
  }

  lemma CountsBothSources(s: State)
    requires OddsPipe in s.stats && Predexon in s.stats
    ensures SourcesCounted(s)
  {
    forall source: Source
      ensures source in s.stats
    {
      assert source == OddsPipe || source == Predexon;
    }
  }

  lemma RunConserves(c: Config, s: State, actions: seq<Action>, source: Source)
    requires c.Valid() && Fresh(s) && Runs(c, s, actions)
    ensures Conserved(After(c, s, actions), source)
  {
    FreshIsBalanced(c, s);
    RunKeepsInv(c, s, actions, s.table);
  }

  lemma QuiescentIsConserved(s: State, source: Source)
    requires source in s.stats && Conserved(s, source) && Quiescent(s)
    ensures var stats := s.stats[source];
      && stats.fetched == Tally(s.tasks, Of(source)) == Accounted(stats) + Tally(s.tasks, LostOf(source))
      && stats.scored == stats.autoApproved + stats.pendingReview + stats.autoRejected
  {
    QuiescentTallies(s.tasks, InFlight(source));
    QuiescentTallies(s.tasks, AtClassifier(source));
  }

  /**
   And the table agrees: one new row for each scored pair, one new approval for each approved one, no row of
   before lost, and no key with two rows, even when several tasks found the same key absent.
   */
  lemma BatchMatchesTable(c: Config, s: State, actions: seq<Action>)
    requires c.Valid() && Fresh(s) && Runs(c, s, actions) && Quiescent(After(c, s, actions))
    ensures var end := After(c, s, actions); var odds, pred := end.stats[OddsPipe], end.stats[Predexon];
      && s.table <= end.table && UniqueKeys(end.table)
      && |end.table| == |s.table| + odds.scored + pred.scored
      && CountApproved(end.table) == CountApproved(s.table) + odds.autoApproved + pred.autoApproved
  {
    FreshIsBalanced(c, s);
    RunKeepsInv(c, s, actions, s.table);
    QuiescentTallies(After(c, s, actions).tasks, WrittenRow);
    QuiescentTallies(After(c, s, actions).tasks, ApprovedRow(c.autoApprove));
  }

  lemma {:induction false} RunKeepsTasks(c: Config, s: State, actions: seq<Action>, kind: Kind)
    requires (forall source: Source :: source in s.stats) && Runs(c, s, actions) && (kind.Of? || kind.Nameless?)
    ensures Tally(After(c, s, actions).tasks, kind) == Tally(s.tasks, kind)
    decreases |actions|
  {
    if actions != [] {
      StepTallies(c, s, actions[0], kind);
      RunKeepsTasks(c, Step(c, s, actions[0]), actions[1..], kind);
    }
  }

  // ----- every batch ends -----

  function Rank(stage: Stage): nat {
    match stage
    case Waiting => 6
    case Looking => 5
    case Scoring => 4
    case Creating(_) => 3
    case Written(_, _) => 2
    case Classifying(_) => 1
    case Done => 0
    case Lost => 0
  }

  function Work(tasks: seq<Task>): nat {
    if tasks == [] then 0 else Rank(tasks[0].stage) + Work(tasks[1..])
  }

  lemma {:induction false} WorkMove(tasks: seq<Task>, i: nat, t: Task)
    requires i < |tasks|
    ensures Work(tasks[i := t]) == Work(tasks) - Rank(tasks[i].stage) + Rank(t.stage)
  {
    if i > 0 {
      assert tasks[i := t][1..] == tasks[1..][i - 1 := t];
      WorkMove(tasks[1..], i - 1, t);
    } else {
      assert tasks[i := t][1..] == tasks[1..];
    }
  }

  lemma StepDoesWork(c: Config, s: State, a: Action)
    requires Enabled(c, s, a) && (forall source: Source :: source in s.stats)
    ensures Work(Step(c, s, a).tasks) < Work(s.tasks)
  {
    StepTallies(c, s, a, Active);
    WorkMove(s.tasks, a.task, Step(c, s, a).tasks[a.task]);
  }

  lemma {:induction false} WorkIsBounded(tasks: seq<Task>)
    ensures Work(tasks) <= 6 * |tasks|
  {
    if tasks != [] {
      WorkIsBounded(tasks[1..]);
    }
  }

  /** No run is longer than six steps a task, less what its end still has to do. */
  lemma {:induction false} RunsAreBounded(c: Config, s: State, actions: seq<Action>)
    requires (forall source: Source :: source in s.stats) && Runs(c, s, actions)
    ensures |actions| + Work(After(c, s, actions).tasks) <= Work(s.tasks) <= 6 * |s.tasks|
    decreases |actions|
  {
    WorkIsBounded(s.tasks);
    if actions != [] {
      StepDoesWork(c, s, actions[0]);
      RunsAreBounded(c, Step(c, s, actions[0]), actions[1..]);
    }
  }

  lemma {:induction false} SomeActive(tasks: seq<Task>) returns (i: nat)
    requires Tally(tasks, Active) > 0
    ensures i < |tasks| && Running(tasks[i].stage)
  {
    if Running(tasks[0].stage) {
      i := 0;
    } else {
      var k := SomeActive(tasks[1..]);
      i := k + 1;
    }
  }

  /** Until all tasks are done, some task can move: the batch never gets stuck. */
  lemma NeverStuck(c: Config, s: State, before: seq<Row>) returns (a: Action)
    requires c.Valid() && Inv(c, s, before) && !Quiescent(s)
    ensures Enabled(c, s, a)
  {
    if Tally(s.tasks, Active) > 0 {
      var i := SomeActive(s.tasks);
      match s.tasks[i].stage
      case Looking => a := Looked(i, Unseen);
      case Scoring => a := Scored(i, OtherError);
      case Creating(_) => a := Insert(i, DbError);
      case Written(_, _) => a := Created(i);
      case Classifying(_) => a := Classified(i);
    } else {
      var i :| 0 <= i < |s.tasks| && !Settled(s.tasks[i].stage);
      ActiveTally(s.tasks, i);
      a := Start(i);
    }
  }

  lemma {:induction false} ActiveTally(tasks: seq<Task>, i: nat)
    requires i < |tasks| && Tally(tasks, Active) == 0
    ensures !Running(tasks[i].stage)
  {
    if i > 0 {
      ActiveTally(tasks[1..], i - 1);
    }
  }

  // ----- starting a batch -----

  /** The answer of an enrichment callback: none was given, it threw, or a list that may have holes. */
  datatype Enrichment = Absent | Threw | Enriched(pairs: seq<Option<ExternalPair>>)

  function RawTasks(source: Source, fetched: Option<seq<ExternalPair>>): seq<Task> {
    if fetched.None? then []
    else seq(|fetched.value|, i requires 0 <= i < |fetched.value| => Task(source, fetched.value[i], Waiting))
  }

  lemma {:induction false} TallySums(a: seq<Task>, b: seq<Task>, kind: Kind)
    ensures Tally(a + b, kind) == Tally(a, kind) + Tally(b, kind)
  {
    if a == [] {
      assert a + b == b;
    } else {
      assert (a + b)[1..] == a[1..] + b;
      TallySums(a[1..], b, kind);
    }
  }

  lemma {:induction false} TallyOfSource(tasks: seq<Task>, own: Source, source: Source)
    requires forall i :: 0 <= i < |tasks| ==> tasks[i].source == own
    ensures Tally(tasks, Of(source)) == if own == source then |tasks| else 0
  {
    if tasks != [] {
      TallyOfSource(tasks[1..], own, source);
    }
  }

  lemma {:induction false} TallyIgnoresPairs(a: seq<Task>, b: seq<Task>, source: Source)
    requires |a| == |b| && forall i :: 0 <= i < |a| ==> a[i].source == b[i].source
    ensures Tally(a, Of(source)) == Tally(b, Of(source))
  {
    if a != [] {
      TallyIgnoresPairs(a[1..], b[1..], source);
    }
  }

  /**
   Fetches from both providers, a failed one giving nothing, and takes over an enrichment of the right length,
   hole by hole. What is fetched is what is processed.
   */
  method CollectTasks(oddsPipe: Option<seq<ExternalPair>>, predexon: Option<seq<ExternalPair>>,
                      enrichment: Enrichment, table: seq<Row>, descriptions: seq<Description>) returns (s: State)
    requires UniqueKeys(table)
    ensures Fresh(s) && s.table == table && s.descriptions == descriptions
    ensures var raw := RawTasks(OddsPipe, oddsPipe) + RawTasks(Predexon, predexon);
      && |s.tasks| == |raw|
      && forall i :: 0 <= i < |raw| ==>
           && s.tasks[i].source == raw[i].source
           && s.tasks[i].pair ==
              if enrichment.Enriched? && |enrichment.pairs| == |raw| && enrichment.pairs[i].Some?
              then enrichment.pairs[i].value else raw[i].pair
    ensures s.stats[OddsPipe].providerError == oddsPipe.None? && s.stats[Predexon].providerError == predexon.None?
    ensures s.stats[OddsPipe].fetched == |RawTasks(OddsPipe, oddsPipe)|
    ensures s.stats[Predexon].fetched == |RawTasks(Predexon, predexon)|
  {
    var odds, pred := RawTasks(OddsPipe, oddsPipe), RawTasks(Predexon, predexon);
    ghost var raw := odds + pred;
    var tasks := odds + pred;
    if enrichment.Enriched? && |enrichment.pairs| == |tasks| {
      for i := 0 to |tasks|
        invariant |tasks| == |raw|
        invariant forall j :: 0 <= j < |raw| ==>
                    && tasks[j].source == raw[j].source && tasks[j].stage.Waiting?
                    && tasks[j].pair == if j < i && enrichment.pairs[j].Some? then enrichment.pairs[j].value
                                        else raw[j].pair
      {
        if enrichment.pairs[i].Some? {
          tasks := tasks[i := tasks[i].(pair := enrichment.pairs[i].value)];
        }
      }
    }
    forall source: Source
      ensures Tally(tasks, Of(source)) == |if source.OddsPipe? then odds else pred|
    {
      TallyIgnoresPairs(tasks, raw, source);
      TallySums(odds, pred, Of(source));
      TallyOfSource(odds, OddsPipe, source);
      TallyOfSource(pred, Predexon, source);
    }
    var stats := map[OddsPipe := Stats(|odds|, 0, 0, 0, 0, 0, 0, 0, oddsPipe.None?),
                     Predexon := Stats(|pred|, 0, 0, 0, 0, 0, 0, 0, predexon.None?)];
    forall source: Source
      ensures source in stats && stats[source].fetched == Tally(tasks, Of(source))
    {
      assert source == OddsPipe || source == Predexon;
    }
    s := State(tasks, stats, table, descriptions);
  }
}
