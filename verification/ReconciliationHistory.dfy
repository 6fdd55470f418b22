/** Runs and resolutions in any order: when trading is halted, and how often rows change. */
module ReconciliationHistory {
  import opened Reconciliation
  import opened ReconciliationProgress
  import opened ReconciliationHalt

  // ----- the halt over any mixture of runs and resolutions -----

  datatype Happening = Run(env: Env) | Resolution(call: Call)

  function Happen(desk: Desk, h: Happening): Desk {
    match h
    case Run(env) => AfterRun(env, desk)
    case Resolution(call) => Resolve(desk, call)
  }

  function History(desk: Desk, hs: seq<Happening>): Desk {
    if hs == [] then desk else Happen(History(desk, hs[..|hs|-1]), hs[|hs|-1])
  }

  /** The resolutions since the last run. */
  function CallsSince(hs: seq<Happening>): seq<Call> {
    if hs == [] || hs[|hs|-1].Run? then [] else CallsSince(hs[..|hs|-1]) + [hs[|hs|-1].call]
  }

  /** What happened up to and including the last run. */
  function UpToLastRun(hs: seq<Happening>): (r: seq<Happening>)
    ensures r <= hs && (r != [] ==> r[|r|-1].Run?)
    ensures r == [] ==> forall i :: 0 <= i < |hs| ==> hs[i].Resolution?
  {
    if hs == [] || hs[|hs|-1].Run? then hs else UpToLastRun(hs[..|hs|-1])
  }

  ghost predicate Orderly(desk: Desk) {
    WellFormed(desk.db) && SaneContexts(desk.db)
  }

  lemma ResolvingKeepsTables(desk: Desk, call: Call)
    requires Orderly(desk)
    ensures Orderly(Resolve(desk, call))
  {
    ResolvingUnflags(desk, call);
    var before, after := desk.db.positions, Resolve(desk, call).db.positions;
    assert |after| == |before| && forall i :: 0 <= i < |before| ==> after[i].positionId == before[i].positionId;
    forall o, p | o in desk.db.orders && p in after
      ensures o.pairId != p.positionId
    {
      var i :| 0 <= i < |after| && after[i] == p;
      assert before[i] in before;
    }
  }

  lemma {:induction false} HistoryIsOrderly(desk: Desk, hs: seq<Happening>)
    requires Orderly(desk)
    ensures Orderly(History(desk, hs))
  {
    if hs != [] {
      var before, h := hs[..|hs|-1], hs[|hs|-1];
      HistoryIsOrderly(desk, before);
      match h
      case Run(env) =>
        RunLowersMeasure(env, History(desk, before).db);
        RunKeepsSaneContexts(env, History(desk, before).db);
      case Resolution(call) => ResolvingKeepsTables(History(desk, before), call);
    }
  }

  /** A history is its part up to the last run and the resolutions since. */
  lemma {:induction false} HistorySplits(desk: Desk, hs: seq<Happening>)
    ensures History(desk, hs) == ResolveAll(History(desk, UpToLastRun(hs)), CallsSince(hs))
  {
    if hs != [] && hs[|hs|-1].Resolution? {
      HistorySplits(desk, hs[..|hs|-1]);
      assert CallsSince(hs)[..|CallsSince(hs)|-1] == CallsSince(hs[..|hs|-1]);
    }
  }

  lemma {:induction false} NoHaltArises(desk: Desk, calls: seq<Call>)
    requires RECONCILIATION_DISCREPANCY !in desk.halts
    ensures RECONCILIATION_DISCREPANCY !in ResolveAll(desk, calls).halts
  {
    if calls != [] {
      NoHaltArises(desk, calls[..|calls|-1]);
    }
  }

  /**
   Over any mixture of runs and resolutions, trading is halted exactly when the last run found discrepancies and
   either a live position is still flagged or no resolution has been accepted since.
   */
  lemma HaltOverHistory(desk: Desk, hs: seq<Happening>)
    requires Orderly(desk) && UpToLastRun(hs) != []
    ensures var upTo, calls := UpToLastRun(hs), CallsSince(hs);
      var last := upTo[|upTo|-1];
      var before, end := History(desk, upTo[..|upTo|-1]), History(desk, hs);
      RECONCILIATION_DISCREPANCY in end.halts <==>
      && Reconcile(last.env, before.db).found != []
      && (AnyFlagged(end.db) || !AnyAccepted(History(desk, upTo), calls))
  {
    var upTo, calls := UpToLastRun(hs), CallsSince(hs);
    var before := History(desk, upTo[..|upTo|-1]);
    HistoryIsOrderly(desk, upTo[..|upTo|-1]);
    HistorySplits(desk, hs);
    HaltMatchesRun(upTo[|upTo|-1].env, before, calls);
    if Reconcile(upTo[|upTo|-1].env, before.db).found == [] {
      NoHaltArises(History(desk, upTo), calls);
    }
  }

  // ----- a run without answers -----

  /** Both platforms are connected, but no call is answered. */
  function Unanswered(deadline: nat): Env {
    Env((k, platform, id) => Failed, true, true, deadline)
  }

  lemma {:induction false} UnansweredPendingPass(deadline: nat, s: Pass, orders: seq<Order>)
    ensures var s' := PendingPass(Unanswered(deadline), s, orders); s'.found == s.found && s'.db == s.db
    decreases |orders|
  {
    if orders != [] {
      var env := Unanswered(deadline);
      UnansweredPendingPass(deadline, CheckPending(env, Tick(env, s), orders[0]), orders[1..]);
    }
  }

  lemma {:induction false} UnansweredPositionPass(deadline: nat, s: Pass, positions: seq<Position>)
    ensures var s' := PositionPass(Unanswered(deadline), s, positions); s'.found == s.found && s'.db == s.db
    decreases |positions|
  {
    if positions != [] {
      var env := Unanswered(deadline);
      UnansweredPositionPass(deadline, CheckPosition(env, Look(env, s), positions[0]), positions[1..]);
    }
  }

  /** A run that gets no answer changes no row and lifts whatever halt an earlier run has set. */
  lemma UnansweredRunLifts(desk: Desk, deadline: nat)
    ensures AfterRun(Unanswered(deadline), desk) == Desk(desk.db, desk.halts - {RECONCILIATION_DISCREPANCY})
  {
    var env := Unanswered(deadline);
    var s := Tick(env, Begin(desk.db));
    UnansweredPendingPass(deadline, s, PendingOrders(desk.db.orders));
    var t := AfterPending(env, desk.db);
    UnansweredPositionPass(deadline, Tick(env, t), ActivePositions(t.db.positions, false));
    assert AfterPositions(env, desk.db).found == [];
  }

  /** So a run may lift a halt although the positions that caused it are still flagged. */
  lemma RunLiftsOverFlags(env: Env, desk: Desk, deadline: nat)
    requires Orderly(desk) && Reconcile(env, desk.db).found != [] && AnyFlagged(AfterRun(env, desk).db)
    ensures var end := History(desk, [Run(env), Run(Unanswered(deadline))]);
      RECONCILIATION_DISCREPANCY in AfterRun(env, desk).halts
      && RECONCILIATION_DISCREPANCY !in end.halts && AnyFlagged(end.db)
  {
    var hs := [Run(env), Run(Unanswered(deadline))];
    assert hs[..1] == [Run(env)] && [Run(env)][..0] == [];
    assert History(desk, [Run(env)]) == AfterRun(env, desk);
    UnansweredRunLifts(AfterRun(env, desk), deadline);
  }

  // ----- how often runs change rows -----

  function AfterRuns(db: Db, envs: seq<Env>): Db {
    if envs == [] then db else Reconcile(envs[|envs|-1], AfterRuns(db, envs[..|envs|-1])).db
  }

  /** The runs that changed an order or a position. */
  function ChangingRuns(db: Db, envs: seq<Env>): nat {
    if envs == [] then 0
    else ChangingRuns(db, envs[..|envs|-1]) + if AfterRuns(db, envs) != AfterRuns(db, envs[..|envs|-1]) then 1 else 0
  }

  /**
   However the platforms answer, and however their answers change, no more runs change a row than there are pending
   orders, single-leg positions and unflagged active positions to begin with.
   */
  lemma {:induction false} FewRunsChangeRows(db: Db, envs: seq<Env>)
    requires WellFormed(db)
    ensures WellFormed(AfterRuns(db, envs))
    ensures ChangingRuns(db, envs) + Measure(AfterRuns(db, envs)) <= Measure(db)
  {
    if envs != [] {
      FewRunsChangeRows(db, envs[..|envs|-1]);
      RunLowersMeasure(envs[|envs|-1], AfterRuns(db, envs[..|envs|-1]));
    }
  }
}
