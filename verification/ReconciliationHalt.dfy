/** Resolving flagged positions, and how the reconciliation halt follows them. */
module ReconciliationHalt {
  import opened Wrappers
  import opened Reconciliation
  import opened ReconciliationProgress

  const RECONCILIATION_DISCREPANCY := "reconciliation_discrepancy"

  datatype Action = Acknowledge | ForceClose

  datatype ResolveError = PositionNotFound | NotFlagged | NoContext

  datatype Call = Call(positionId: Id, action: Action)

  /** The tables with the reasons for which trading is halted. */
  datatype Desk = Desk(db: Db, halts: set<string>)

  function FindPosition(positions: seq<Position>, id: Id): (r: Option<Position>)
    ensures r.Some? ==> r.value in positions && r.value.positionId == id
    ensures r.None? ==> forall p :: p in positions ==> p.positionId != id
  {
    if positions == [] then None
    else if positions[0].positionId == id then Some(positions[0])
    else FindPosition(positions[1..], id)
  }

  function WithStatus(positions: seq<Position>, id: Id, status: PositionStatus): seq<Position> {
    seq(|positions|, i requires 0 <= i < |positions| =>
      if positions[i].positionId == id then positions[i].(status := status) else positions[i])
  }

  /** The status a flagged position gets, or why the call is refused. */
  function NewStatus(db: Db, call: Call): Result<PositionStatus, ResolveError> {
    var p := FindPosition(db.positions, call.positionId);
    if p.None? then Err(PositionNotFound)
    else if !p.value.status.ReconciliationRequired? then Err(NotFlagged)
    else if call.action.ForceClose? then Ok(Closed)
    else if p.value.context.None? then Err(NoContext)
    else Ok(p.value.context.value.recommendedStatus)
  }

  function CountFlagged(positions: seq<Position>): nat {
    if positions == [] then 0 else (if FlaggedLive(positions[0]) then 1 else 0) + CountFlagged(positions[1..])
  }

  function Resolve(desk: Desk, call: Call): Desk {
    var status := NewStatus(desk.db, call);
    if status.Err? then desk
    else
      var positions := WithStatus(desk.db.positions, call.positionId, status.value);
      Desk(desk.db.(positions := positions),
           if CountFlagged(positions) == 0 then desk.halts - {RECONCILIATION_DISCREPANCY} else desk.halts)
  }

  function ResolveAll(desk: Desk, calls: seq<Call>): Desk {
    if calls == [] then desk else Resolve(ResolveAll(desk, calls[..|calls|-1]), calls[|calls|-1])
  }

  /** Whether any of the calls was not refused. */
  predicate AnyAccepted(desk: Desk, calls: seq<Call>) {
    calls != [] &&
    (|| AnyAccepted(desk, calls[..|calls|-1])
     || NewStatus(ResolveAll(desk, calls[..|calls|-1]).db, calls[|calls|-1]).Ok?)
  }

  function AfterRun(env: Env, desk: Desk): Desk {
    var run := Reconcile(env, desk.db);
    Desk(run.db, if run.found != [] then desk.halts + {RECONCILIATION_DISCREPANCY}
                 else desk.halts - {RECONCILIATION_DISCREPANCY})
  }

  ghost predicate AnyFlagged(db: Db) {
    exists p :: p in db.positions && FlaggedLive(p)
  }

  /** Every stored context recommends a status that ends the flag. */
  ghost predicate SaneContexts(db: Db) {
    forall p :: p in db.positions && p.context.Some? ==> !p.context.value.recommendedStatus.ReconciliationRequired?
  }

  lemma {:induction false} CountFlaggedIsZero(positions: seq<Position>)
    ensures CountFlagged(positions) == 0 <==> forall p :: p in positions ==> !FlaggedLive(p)
  {
    if positions != [] {
      CountFlaggedIsZero(positions[1..]);
      assert forall p :: p in positions <==> p == positions[0] || p in positions[1..];
    }
  }

  lemma ResolvingUnflags(desk: Desk, call: Call)
    requires SaneContexts(desk.db)
    ensures var desk' := Resolve(desk, call);
      && SaneContexts(desk'.db)
      && (AnyFlagged(desk'.db) ==> AnyFlagged(desk.db))
      && (NewStatus(desk.db, call).Ok? && !AnyFlagged(desk'.db) ==> RECONCILIATION_DISCREPANCY !in desk'.halts)
      && (NewStatus(desk.db, call).Err? || AnyFlagged(desk'.db) ==> desk'.halts == desk.halts)
      && desk'.halts - {RECONCILIATION_DISCREPANCY} == desk.halts - {RECONCILIATION_DISCREPANCY}
  {
    var desk' := Resolve(desk, call);
    CountFlaggedIsZero(desk'.db.positions);
    forall q | q in desk'.db.positions
      ensures q.context.Some? ==> !q.context.value.recommendedStatus.ReconciliationRequired?
      ensures FlaggedLive(q) ==> q in desk.db.positions
    {
      var i :| 0 <= i < |desk'.db.positions| && desk'.db.positions[i] == q;
      assert desk.db.positions[i] in desk.db.positions;
    }
  }

  /** A halt, once set, outlives any calls but the one that clears the last live flag, which lifts it. */
  lemma {:induction false} HaltFollowsFlags(desk: Desk, calls: seq<Call>)
    requires RECONCILIATION_DISCREPANCY in desk.halts && SaneContexts(desk.db)
    ensures var end := ResolveAll(desk, calls);
      && SaneContexts(end.db)
      && (RECONCILIATION_DISCREPANCY in end.halts <==> AnyFlagged(end.db) || !AnyAccepted(desk, calls))
      && end.halts - {RECONCILIATION_DISCREPANCY} == desk.halts - {RECONCILIATION_DISCREPANCY}
  {
    if calls != [] {
      var n := |calls| - 1;
      HaltFollowsFlags(desk, calls[..n]);
      ResolvingUnflags(ResolveAll(desk, calls[..n]), calls[n]);
    }
  }

  lemma RunKeepsSaneContexts(env: Env, db: Db)
    requires WellFormed(db) && SaneContexts(db)
    ensures SaneContexts(Reconcile(env, db).db)
  {
    PendingKeepsSaneContexts(env, db);
    AfterPositionsEvolves(env, db);
    var s := AfterPositions(env, db);
    forall q | q in Reconcile(env, db).db.positions && q.context.Some?
      ensures !q.context.value.recommendedStatus.ReconciliationRequired?
    {
      FlagAllSane(s.db.positions, s.found, q);
    }
  }

  lemma FlagAllSane(positions: seq<Position>, found: seq<Discrepancy>, q: Position)
    requires q in FlagAll(positions, found) && q.context.Some?
    requires forall p :: p in positions && p.context.Some? ==>
               !p.context.value.recommendedStatus.ReconciliationRequired?
    ensures !q.context.value.recommendedStatus.ReconciliationRequired?
  {
    var end := FlagAll(positions, found);
    var i :| 0 <= i < |end| && end[i] == q;
    FlagAllLength(positions, found);
    FlagAllAt(positions, found, i);
  }

  lemma {:induction false} PendingPassKeepsContexts(env: Env, s: Pass, orders: seq<Order>)
    ensures var s' := PendingPass(env, s, orders);
      |s'.db.positions| == |s.db.positions|
      && forall i :: 0 <= i < |s.db.positions| ==> s'.db.positions[i].context == s.db.positions[i].context
    decreases |orders|
  {
    if orders != [] && !Expired(env, s) {
      PendingPassKeepsContexts(env, CheckPending(env, Tick(env, s), orders[0]), orders[1..]);
    }
  }

  lemma PendingKeepsSaneContexts(env: Env, db: Db)
    requires SaneContexts(db)
    ensures SaneContexts(AfterPending(env, db).db)
  {
    var s := Tick(env, Begin(db));
    if !s.timedOut {
      PendingPassKeepsContexts(env, s, PendingOrders(db.orders));
      var end := AfterPending(env, db).db.positions;
      forall q | q in end && q.context.Some?
        ensures !q.context.value.recommendedStatus.ReconciliationRequired?
      {
        var i :| 0 <= i < |end| && end[i] == q;
        assert db.positions[i] in db.positions;
      }
    }
  }

  /**
   A run halts trading exactly when it found discrepancies, and then the halt stays, through any calls, as long
   as a live position is flagged or no call has been accepted; the call that clears the last flag lifts it.
   */
  lemma HaltMatchesRun(env: Env, desk: Desk, calls: seq<Call>)
    requires WellFormed(desk.db) && SaneContexts(desk.db)
    ensures var run := Reconcile(env, desk.db);
      && (RECONCILIATION_DISCREPANCY in AfterRun(env, desk).halts <==> run.found != [])
      && (run.found != [] ==>
            var end := ResolveAll(AfterRun(env, desk), calls);
            RECONCILIATION_DISCREPANCY in end.halts <==>
              AnyFlagged(end.db) || !AnyAccepted(AfterRun(env, desk), calls))
  {
    RunKeepsSaneContexts(env, desk.db);
    if Reconcile(env, desk.db).found != [] {
      HaltFollowsFlags(AfterRun(env, desk), calls);
    }
  }

  lemma FindsTheOnlyOne(positions: seq<Position>, i: nat)
    requires UniquePositions(positions) && i < |positions|
    ensures FindPosition(positions, positions[i].positionId) == Some(positions[i])
  {
    assert positions[i] in positions;
    var hit := FindPosition(positions, positions[i].positionId);
    OnlyOnePosition(positions, positions[i]);
  }

  /** A status given to one position changes no other. */
  lemma OnlyOneChanges(positions: seq<Position>, i: nat, status: PositionStatus)
    requires UniquePositions(positions) && i < |positions|
    ensures WithStatus(positions, positions[i].positionId, status) == positions[i := positions[i].(status := status)]
  {
  }

  /**
   A position flagged by a run and then acknowledged takes the status recommended for the last discrepancy that
   the run found in it, and no other position changes.
   */
  lemma AcknowledgingFollowsTheRun(env: Env, desk: Desk, i: nat)
    requires WellFormed(desk.db) && i < |Reconcile(env, desk.db).db.positions|
    requires LastNaming(Reconcile(env, desk.db).found, Reconcile(env, desk.db).db.positions[i].positionId).Some?
    ensures var found, positions := Reconcile(env, desk.db).found, Reconcile(env, desk.db).db.positions;
      var last := found[LastNaming(found, positions[i].positionId).value];
      var call := Call(positions[i].positionId, Acknowledge);
      var status := if last.discrepancyType.PendingFilled? || last.discrepancyType.PlatformUnavailable? then Open
                    else Closed;
      && NewStatus(AfterRun(env, desk).db, call) == Ok(status)
      && Resolve(AfterRun(env, desk), call).db.positions == positions[i := positions[i].(status := status)]
  {
    var s := AfterPositions(env, desk.db);
    var positions := Reconcile(env, desk.db).db.positions;
    RunLowersMeasure(env, desk.db);
    AfterPositionsEvolves(env, desk.db);
    FlagAllLength(s.db.positions, s.found);
    FlagAllAt(s.db.positions, s.found, i);
    FindsTheOnlyOne(positions, i);
    var last := s.found[LastNaming(s.found, positions[i].positionId).value];
    OnlyOneChanges(positions, i, RecommendedStatus(last.discrepancyType));
  }

  // ----- halts that no resolution lifts -----

  ghost predicate NoFlags(positions: seq<Position>) {
    forall p :: p in positions ==> !p.status.ReconciliationRequired?
  }

  lemma {:induction false} NothingToResolve(desk: Desk, calls: seq<Call>)
    requires NoFlags(desk.db.positions)
    ensures ResolveAll(desk, calls) == desk && !AnyAccepted(desk, calls)
  {
    if calls != [] {
      NothingToResolve(desk, calls[..|calls|-1]);
    }
  }

  /** One forced closing for each of the first `n` positions. */
  function Closings(positions: seq<Position>, n: nat): seq<Call>
    requires n <= |positions|
  {
    seq(n, i requires 0 <= i < n => Call(positions[i].positionId, ForceClose))
  }

  /** The positions after them: the flagged ones of the first `n` are closed, and nothing else has changed. */
  function ClosedUpTo(positions: seq<Position>, n: nat): seq<Position> {
    seq(|positions|, i requires 0 <= i < |positions| =>
      if i < n && positions[i].status.ReconciliationRequired? then positions[i].(status := Closed) else positions[i])
  }

  lemma ClosingOne(desk: Desk, before: seq<Position>, n: nat)
    requires UniquePositions(before) && n < |before| && desk.db.positions == ClosedUpTo(before, n)
    ensures var call := Call(before[n].positionId, ForceClose);
      && Resolve(desk, call).db.positions == ClosedUpTo(before, n + 1)
      && (NewStatus(desk.db, call).Ok? <==> before[n].status.ReconciliationRequired?)
  {
    var now := desk.db.positions;
    assert now[n] == before[n];
    FindsTheOnlyOne(now, n);
    OnlyOneChanges(now, n, Closed);
    assert ClosedUpTo(before, n + 1) ==
           if before[n].status.ReconciliationRequired? then now[n := now[n].(status := Closed)] else now;
  }

  lemma {:induction false} ClosingFlagged(desk: Desk, n: nat)
    requires UniquePositions(desk.db.positions) && n <= |desk.db.positions|
    ensures var before := desk.db.positions; var calls := Closings(before, n);
      && ResolveAll(desk, calls).db.positions == ClosedUpTo(before, n)
      && (AnyAccepted(desk, calls) <==> exists i :: 0 <= i < n && before[i].status.ReconciliationRequired?)
  {
    var before := desk.db.positions;
    if n > 0 {
      ClosingFlagged(desk, n - 1);
      assert Closings(before, n)[..n - 1] == Closings(before, n - 1);
      ClosingOne(ResolveAll(desk, Closings(before, n - 1)), before, n - 1);
    } else {
      assert ClosedUpTo(before, 0) == before;
    }
  }

  /** Some sequence of resolutions, without another run, lifts the halt. */
  ghost predicate ResolvingCanLift(desk: Desk) {
    exists calls :: RECONCILIATION_DISCREPANCY !in ResolveAll(desk, calls).halts
  }

  lemma ClosingLifts(desk: Desk)
    requires RECONCILIATION_DISCREPANCY in desk.halts && SaneContexts(desk.db) && UniquePositions(desk.db.positions)
    requires !NoFlags(desk.db.positions)
    ensures ResolvingCanLift(desk)
  {
    var before := desk.db.positions;
    var calls := Closings(before, |before|);
    ClosingFlagged(desk, |before|);
    HaltFollowsFlags(desk, calls);
    var p :| p in before && p.status.ReconciliationRequired?;
    assert AnyAccepted(desk, calls);
    assert !AnyFlagged(ResolveAll(desk, calls).db);
  }

  lemma UnflaggedStaysHalted(desk: Desk)
    requires RECONCILIATION_DISCREPANCY in desk.halts && NoFlags(desk.db.positions)
    ensures !ResolvingCanLift(desk)
  {
    forall calls
      ensures RECONCILIATION_DISCREPANCY in ResolveAll(desk, calls).halts
    {
      NothingToResolve(desk, calls);
    }
  }

  /**
   The halt that a run causes can be lifted by resolving positions exactly when the run leaves a position flagged,
   a live or a paper one. After a run that found something but left no flag, it takes another run to lift it.
   */
  lemma LiftableIffFlagged(env: Env, desk: Desk)
    requires WellFormed(desk.db) && SaneContexts(desk.db) && Reconcile(env, desk.db).found != []
    ensures ResolvingCanLift(AfterRun(env, desk)) <==> !NoFlags(Reconcile(env, desk.db).db.positions)
  {
    RunKeepsSaneContexts(env, desk.db);
    RunLowersMeasure(env, desk.db);
    if NoFlags(AfterRun(env, desk).db.positions) {
      UnflaggedStaysHalted(AfterRun(env, desk));
    } else {
      ClosingLifts(AfterRun(env, desk));
    }
  }

  /** Nothing a run has found is about a position that exists. */
  ghost predicate NamesNothing(positions: seq<Position>, found: seq<Discrepancy>) {
    forall p :: p in positions ==> LastNaming(found, p.positionId).None?
  }

  /** Flagging leaves no flag exactly when there was none and nothing is named. */
  lemma FlaggedOrNamed(positions: seq<Position>, found: seq<Discrepancy>)
    ensures NoFlags(FlagAll(positions, found)) <==> NoFlags(positions) && NamesNothing(positions, found)
  {
    var end := FlagAll(positions, found);
    FlagAllLength(positions, found);
    forall i | 0 <= i < |positions|
      ensures end[i] == if LastNaming(found, positions[i].positionId).None? then positions[i]
                        else Flagged(positions[i], found[LastNaming(found, positions[i].positionId).value])
    {
      FlagAllAt(positions, found, i);
    }
    if NoFlags(end) {
      forall p | p in positions
        ensures LastNaming(found, p.positionId).None? && !p.status.ReconciliationRequired?
      {
        var i :| 0 <= i < |positions| && positions[i] == p;
        assert end[i] in end;
      }
    }
    if NoFlags(positions) && NamesNothing(positions, found) {
      assert forall i :: 0 <= i < |positions| ==> positions[i] in positions && end[i] == positions[i];
    }
  }

  /** Row by row the same ids and the same flags. */
  ghost predicate SameFlags(a: seq<Position>, b: seq<Position>) {
    |a| == |b| && forall i :: 0 <= i < |a| ==>
      && a[i].positionId == b[i].positionId
      && (a[i].status.ReconciliationRequired? <==> b[i].status.ReconciliationRequired?)
  }

  lemma SameFlagsSameVerdict(a: seq<Position>, b: seq<Position>)
    requires SameFlags(a, b)
    ensures NoFlags(a) <==> NoFlags(b)
  {
    assert forall i :: 0 <= i < |a| ==> a[i] in a && b[i] in b;
  }

  lemma CheckPendingKeepsFlags(env: Env, s: Pass, o: Order)
    requires UniquePositions(s.db.positions)
    ensures SameFlags(s.db.positions, CheckPending(env, s, o).db.positions)
  {
    var exposed := FindSingleLeg(s.db.positions, o.pairId);
    if exposed.Some? {
      OnlyOnePosition(s.db.positions, exposed.value);
      assert forall i :: 0 <= i < |s.db.positions| ==> s.db.positions[i] in s.db.positions;
    }
  }

  lemma {:induction false} PendingPassKeepsFlags(env: Env, s: Pass, orders: seq<Order>)
    requires UniquePositions(s.db.positions)
    ensures SameFlags(s.db.positions, PendingPass(env, s, orders).db.positions)
    decreases |orders|
  {
    if orders != [] && !Expired(env, s) {
      CheckPendingKeepsFlags(env, Tick(env, s), orders[0]);
      PendingPassKeepsFlags(env, CheckPending(env, Tick(env, s), orders[0]), orders[1..]);
    }
  }

  lemma PendingKeepsFlags(env: Env, db: Db)
    requires UniquePositions(db.positions)
    ensures SameFlags(db.positions, AfterPending(env, db).db.positions)
  {
    var s := Tick(env, Begin(db));
    if !s.timedOut {
      PendingPassKeepsFlags(env, s, PendingOrders(db.orders));
    }
  }

  /**
   Seen from before the flagging: no resolution lifts the halt exactly when no position was flagged already and none
   of the discrepancies names a position, as that of a missing order without a single leg does not.
   */
  lemma NoResolutionLiftsIff(env: Env, desk: Desk)
    requires WellFormed(desk.db) && SaneContexts(desk.db) && Reconcile(env, desk.db).found != []
    ensures var s := AfterPositions(env, desk.db);
      !ResolvingCanLift(AfterRun(env, desk)) <==>
      NoFlags(desk.db.positions) && NamesNothing(s.db.positions, s.found)
  {
    LiftableIffFlagged(env, desk);
    AfterPositionsEvolves(env, desk.db);
    PendingKeepsFlags(env, desk.db);
    var s := AfterPositions(env, desk.db);
    FlaggedOrNamed(s.db.positions, s.found);
    SameFlagsSameVerdict(desk.db.positions, s.db.positions);
  }

  /** The one missing order of a pair without a single leg halts trading, and no resolution lifts that halt. */
  lemma NoResolutionLiftsMissingOrder(o: Order)
    requires PendingLive(o)
    ensures var env := Env((k, platform, id) => Answered(NotFound, None, None), true, true, 10);
      var halted := AfterRun(env, Desk(Db([o], []), {}));
      RECONCILIATION_DISCREPANCY in halted.halts && !ResolvingCanLift(halted)
  {
    var env := Env((k, platform, id) => Answered(NotFound, None, None), true, true, 10);
    var db := Db([o], []);
    var s := Tick(env, Begin(db));
    assert PendingOrders([o]) == [o] by { assert PendingOrders([o][1..]) == []; }
    var s' := CheckPending(env, Tick(env, s), o);
    assert PendingPass(env, s, [o]) == s' by { assert PendingPass(env, s', [o][1..]) == s'; }
    assert s'.found == [MissingOrder(db, o)] && s'.db == db;
    assert AfterPending(env, db) == s';
    assert ActivePositions([], false) == [];
    var t := AfterPositions(env, db);
    assert t.found == s'.found && t.db == db;
    FlagAllOfNothing(t.found);
    LiftableIffFlagged(env, Desk(db, {}));
  }
}
