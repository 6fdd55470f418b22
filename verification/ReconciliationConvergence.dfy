/** What a run settles: with stable answers a second run changes nothing, and a clean run was a true one. */
module ReconciliationConvergence {
  import opened Wrappers
  import opened Vwap
  import opened Reconciliation
  import opened ReconciliationProgress

  /** A platform says the same about an order whenever it is asked, be it that the call fails. */
  ghost predicate Stable(env: Env) {
    forall k, l, platform, id :: env.answers(k, platform, id) == env.answers(l, platform, id)
  }

  function Says(env: Env, platform: Platform, id: Id): Answer {
    env.answers(0, platform, id)
  }

  ghost predicate OneSingleLegAPair(db: Db) {
    forall p, q :: p in db.positions && q in db.positions ==>
      SingleLegLive(p) && SingleLegLive(q) && p.pairId == q.pairId ==> p == q
  }

  predicate Terminal(status: PlatformStatus) {
    status.IsFilled? || status.IsCancelled? || status.IsRejected?
  }

  predicate AskedAndAnswered(env: Env, o: Order) {
    env.Available(o.platform) && Says(env, o.platform, o.orderId).Answered?
  }

  /** Nothing about pending order `o` is left to do but to report again that it is missing. */
  ghost predicate Quiet(env: Env, db: Db, found: seq<Discrepancy>, o: Order) {
    AskedAndAnswered(env, o) ==>
      var status := Says(env, o.platform, o.orderId).status;
      && (Terminal(status) ==> forall r :: r in db.orders && r.orderId == o.orderId ==> !PendingLive(r))
      && (status.NotFound? ==>
            forall p :: p in db.positions && SingleLegLive(p) && p.pairId == o.pairId ==> Covered(found, p))
  }

  ghost predicate Covered(found: seq<Discrepancy>, p: Position) {
    exists d :: d in found && d.positionId == p.positionId
  }

  // ----- pending orders of the first run -----

  lemma EvolvedOrder(a: Db, b: Db, r: Order) returns (o: Order)
    requires Evolves(a, b) && r in b.orders
    ensures o in a.orders && OrderEvolves(o, r)
  {
    var i :| 0 <= i < |b.orders| && b.orders[i] == r;
    o := a.orders[i];
  }

  lemma EvolvedPosition(a: Db, b: Db, q: Position) returns (p: Position)
    requires Evolves(a, b) && q in b.positions
    ensures p in a.positions && PositionEvolves(p, q)
  {
    var i :| 0 <= i < |b.positions| && b.positions[i] == q;
    p := a.positions[i];
  }

  /** No position becomes a single leg, so a pair that has at most one keeps at most one. */
  lemma EvolvingKeepsSingleLegs(a: Db, b: Db)
    requires Evolves(a, b) && OneSingleLegAPair(a)
    ensures OneSingleLegAPair(b)
    ensures forall q :: q in b.positions && SingleLegLive(q) ==> q in a.positions
  {
    forall q | q in b.positions && SingleLegLive(q)
      ensures q in a.positions
    {
      var p := EvolvedPosition(a, b, q);
    }
  }

  lemma EvolvingKeepsQuiet(env: Env, a: Db, b: Db, found: seq<Discrepancy>, found': seq<Discrepancy>, o: Order)
    requires Evolves(a, b) && OneSingleLegAPair(a) && Quiet(env, a, found, o)
    requires forall d :: d in found ==> d in found'
    ensures Quiet(env, b, found', o)
  {
    EvolvingKeepsSingleLegs(a, b);
    forall r | r in b.orders && r.orderId == o.orderId && PendingLive(r)
      ensures r in a.orders
    {
      var before := EvolvedOrder(a, b, r);
    }
    if AskedAndAnswered(env, o) && Says(env, o.platform, o.orderId).status.NotFound? {
      forall p | p in b.positions && SingleLegLive(p) && p.pairId == o.pairId
        ensures Covered(found', p)
      {
        assert Covered(found, p);
      }
    }
  }

  lemma CheckingQuiets(env: Env, s: Pass, o: Order)
    requires Stable(env) && OneSingleLegAPair(s.db)
    ensures var s' := CheckPending(env, s, o); Quiet(env, s'.db, s'.found, o) && s.found <= s'.found
  {
    var s' := CheckPending(env, s, o);
    if AskedAndAnswered(env, o) {
      var answer := env.answers(s.calls, o.platform, o.orderId);
      assert answer == Says(env, o.platform, o.orderId);
      if answer.status.NotFound? {
        forall p | p in s'.db.positions && SingleLegLive(p) && p.pairId == o.pairId
          ensures Covered(s'.found, p)
        {
          assert FindSingleLeg(s.db.positions, o.pairId) == Some(p);
          assert MissingOrder(s.db, o) in s'.found;
        }
      } else if Terminal(answer.status) {
        forall r | r in s'.db.orders && r.orderId == o.orderId
          ensures !PendingLive(r)
        {
        }
      }
    }
  }

  lemma {:induction false} PendingPassQuiets(env: Env, s: Pass, orders: seq<Order>, done: seq<Order>)
    requires Stable(env) && OneSingleLegAPair(s.db)
    requires WellFormed(s.db) && AllName(s.db, s.found) && Remaining(s, orders)
    requires forall o :: o in done ==> Quiet(env, s.db, s.found, o)
    ensures var s' := PendingPass(env, s, orders);
      !s'.timedOut ==> forall o :: o in done || o in orders ==> Quiet(env, s'.db, s'.found, o)
    decreases |orders|
  {
    if orders != [] && !Expired(env, s) {
      var o, t := orders[0], Tick(env, s);
      var s' := CheckPending(env, t, o);
      CheckPendingEvolves(env, t, orders);
      CheckingQuiets(env, t, o);
      EvolvingKeepsTables(s.db, s'.db);
      EvolvingKeepsSingleLegs(s.db, s'.db);
      forall r | r in done
        ensures Quiet(env, s'.db, s'.found, r)
      {
        EvolvingKeepsQuiet(env, s.db, s'.db, s.found, s'.found, r);
      }
      PendingPassQuiets(env, s', orders[1..], done + [o]);
      assert forall r :: r in orders ==> r == o || r in orders[1..];
    }
  }

  /** After an unhurried first phase, no pending order asks for anything but a repeated report. */
  lemma AfterPendingIsQuiet(env: Env, db: Db)
    requires Stable(env) && WellFormed(db) && OneSingleLegAPair(db)
    requires !AfterPending(env, db).timedOut
    ensures var s := AfterPending(env, db);
      forall o :: o in s.db.orders && PendingLive(o) ==> Quiet(env, s.db, s.found, o)
  {
    var s := AfterPending(env, db);
    PendingOrdersAreUnique(db.orders);
    PendingPassQuiets(env, Tick(env, Begin(db)), PendingOrders(db.orders), []);
    AfterPendingEvolves(env, db);
    forall o | o in s.db.orders && PendingLive(o)
      ensures Quiet(env, s.db, s.found, o)
    {
      var before := EvolvedOrder(db, s.db, o);
      assert before == o && o in PendingOrders(db.orders);
    }
  }

  // ----- positions of the first run -----

  predicate LegCalm(env: Env, db: Db, p: Position, platform: Platform) {
    var leg := LegOrder(db, p, platform);
    leg.Some? ==>
      && env.Available(platform)
      && (Says(env, platform, leg.value.orderId).Answered? ==>
            CheckOrderDiscrepancy(leg.value.status, Says(env, platform, leg.value.orderId).status).None?)
  }

  /** Verifying `p` finds nothing. */
  predicate Calm(env: Env, db: Db, p: Position) {
    LegCalm(env, db, p, Kalshi) && LegCalm(env, db, p, Polymarket)
  }

  lemma CheckLegFinds(env: Env, s: Pass, p: Position, platform: Platform)
    requires Stable(env)
    ensures var s' := CheckLeg(env, s, p, platform);
      && s'.db == s.db && s'.checks == s.checks && s'.timedOut == s.timedOut
      && s.found <= s'.found
      && (LegCalm(env, s.db, p, platform) <==> s'.found == s.found)
      && (!LegCalm(env, s.db, p, platform) ==> Covered(s'.found, p))
  {
    var leg := LegOrder(s.db, p, platform);
    var s' := CheckLeg(env, s, p, platform);
    if leg.Some? && env.Available(platform) {
      assert env.answers(s.calls, platform, leg.value.orderId) == Says(env, platform, leg.value.orderId);
    }
    if !LegCalm(env, s.db, p, platform) {
      assert |s'.found| == |s.found| + 1 && s'.found[|s.found|].positionId == p.positionId;
      assert s'.found[|s.found|] in s'.found;
    }
  }

  lemma CoveredGrows(found: seq<Discrepancy>, found': seq<Discrepancy>, p: Position)
    requires found <= found' && Covered(found, p)
    ensures Covered(found', p)
  {
    var d :| d in found && d.positionId == p.positionId;
    assert d in found';
  }

  lemma CheckPositionFinds(env: Env, s: Pass, p: Position)
    requires Stable(env)
    ensures var s' := CheckPosition(env, s, p);
      && s'.db == s.db && s'.checks == s.checks && s'.timedOut == s.timedOut
      && s.found <= s'.found
      && (p.status.ReconciliationRequired? || Calm(env, s.db, p) <==> s'.found == s.found)
      && (!p.status.ReconciliationRequired? && !Calm(env, s.db, p) ==> Covered(s'.found, p))
  {
    if !p.status.ReconciliationRequired? {
      BothLegsFind(env, s, p);
    }
  }

  lemma BothLegsFind(env: Env, t: Pass, p: Position)
    requires Stable(env)
    ensures var t'' := CheckLegs(env, t, p);
      && t''.db == t.db && t''.checks == t.checks && t''.timedOut == t.timedOut
      && t.found <= t''.found
      && (Calm(env, t.db, p) <==> t''.found == t.found)
      && (!Calm(env, t.db, p) ==> Covered(t''.found, p))
  {
    CheckLegFinds(env, t, p, Kalshi);
    var t' := CheckLeg(env, t, p, Kalshi);
    CheckLegFinds(env, t', p, Polymarket);
    var t'' := CheckLeg(env, t', p, Polymarket);
    if !LegCalm(env, t.db, p, Kalshi) {
      CoveredGrows(t'.found, t''.found, p);
    }
  }

  lemma {:induction false} PositionPassCovers(env: Env, s: Pass, positions: seq<Position>)
    requires Stable(env)
    ensures var s' := PositionPass(env, s, positions);
      && s'.db == s.db && s.found <= s'.found && (s.timedOut ==> s'.timedOut)
      && (!s'.timedOut ==> forall p :: p in positions && !p.status.ReconciliationRequired? ==>
            Calm(env, s.db, p) || Covered(s'.found, p))
    decreases |positions|
  {
    if positions != [] && !Expired(env, s) {
      var p, t := positions[0], Look(env, s);
      var s' := CheckPosition(env, t, p);
      CheckPositionFinds(env, t, p);
      PositionPassCovers(env, s', positions[1..]);
      var last := PositionPass(env, s', positions[1..]);
      if Covered(s'.found, p) {
        var d :| d in s'.found && d.positionId == p.positionId;
        assert d in last.found;
      }
      assert forall r :: r in positions ==> r == p || r in positions[1..];
    }
  }

  lemma AfterPositionsCovers(env: Env, db: Db)
    requires Stable(env) && WellFormed(db) && !AfterPositions(env, db).timedOut
    ensures var s, t := AfterPending(env, db), AfterPositions(env, db);
      && !s.timedOut && t.db == s.db && s.found <= t.found
      && forall p :: p in t.db.positions && UnflaggedLive(p) ==> Calm(env, t.db, p) || Covered(t.found, p)
  {
    var s := AfterPending(env, db);
    PositionPassCovers(env, Tick(env, s), ActivePositions(s.db.positions, false));
  }

  // ----- the state a run leaves -----

  /** A state in which no run, however long, has anything to change. */
  ghost predicate AtRest(env: Env, db: Db) {
    && (forall o :: o in db.orders && PendingLive(o) && AskedAndAnswered(env, o) ==>
          var status := Says(env, o.platform, o.orderId).status;
          && !Terminal(status)
          && (status.NotFound? ==> FindSingleLeg(db.positions, o.pairId).None?))
    && (forall p :: p in db.positions && UnflaggedLive(p) ==> Calm(env, db, p))
  }

  lemma UnflaggedAreUncovered(positions: seq<Position>, found: seq<Discrepancy>, q: Position)
    requires q in FlagAll(positions, found) && UnflaggedLive(q)
    ensures q in positions && !Covered(found, q)
  {
    var end := FlagAll(positions, found);
    FlagAllLength(positions, found);
    var i :| 0 <= i < |end| && end[i] == q;
    FlagAllAt(positions, found, i);
  }

  lemma NoSingleLegLeft(env: Env, db: Db, found: seq<Discrepancy>, found': seq<Discrepancy>, o: Order)
    requires Quiet(env, db, found, o) && AskedAndAnswered(env, o) && found <= found'
    requires Says(env, o.platform, o.orderId).status.NotFound?
    ensures FindSingleLeg(FlagAll(db.positions, found'), o.pairId).None?
  {
    var exposed := FindSingleLeg(FlagAll(db.positions, found'), o.pairId);
    if exposed.Some? {
      UnflaggedAreUncovered(db.positions, found', exposed.value);
      assert Covered(found, exposed.value);
      CoveredGrows(found, found', exposed.value);
      assert false;
    }
  }

  lemma RunComesToRest(env: Env, db: Db)
    requires Stable(env) && WellFormed(db) && OneSingleLegAPair(db) && !Reconcile(env, db).timedOut
    ensures AtRest(env, Reconcile(env, db).db)
  {
    var s, t, end := AfterPending(env, db), AfterPositions(env, db), Reconcile(env, db).db;
    AfterPositionsCovers(env, db);
    AfterPendingIsQuiet(env, db);
    assert end == Db(s.db.orders, FlagAll(s.db.positions, t.found));
    forall o | o in end.orders && PendingLive(o) && AskedAndAnswered(env, o)
      ensures !Terminal(Says(env, o.platform, o.orderId).status)
      ensures Says(env, o.platform, o.orderId).status.NotFound? ==> FindSingleLeg(end.positions, o.pairId).None?
    {
      assert Quiet(env, s.db, s.found, o);
      if Says(env, o.platform, o.orderId).status.NotFound? {
        NoSingleLegLeft(env, s.db, s.found, t.found, o);
      }
    }
    forall q | q in end.positions && UnflaggedLive(q)
      ensures Calm(env, end, q)
    {
      UnflaggedAreUncovered(s.db.positions, t.found, q);
      assert Calm(env, s.db, q);
    }
  }

  // ----- a run from a state at rest -----

  lemma {:induction false} PendingPassRests(env: Env, s: Pass, orders: seq<Order>)
    requires Stable(env) && AtRest(env, s.db)
    requires forall o :: o in orders ==> o in s.db.orders && PendingLive(o)
    requires forall d :: d in s.found ==> exists o :: o in s.db.orders && d.positionId == o.pairId
    ensures var s' := PendingPass(env, s, orders);
      s'.db == s.db && forall d :: d in s'.found ==> exists o :: o in s.db.orders && d.positionId == o.pairId
    decreases |orders|
  {
    if orders != [] && !Expired(env, s) {
      var o, t := orders[0], Tick(env, s);
      assert o in orders;
      assert env.answers(t.calls, o.platform, o.orderId) == Says(env, o.platform, o.orderId);
      var s' := CheckPending(env, t, o);
      PendingPassRests(env, s', orders[1..]);
    }
  }

  lemma {:induction false} PositionPassRests(env: Env, s: Pass, positions: seq<Position>)
    requires Stable(env)
    requires forall p :: p in positions && !p.status.ReconciliationRequired? ==> Calm(env, s.db, p)
    ensures var s' := PositionPass(env, s, positions); s'.db == s.db && s'.found == s.found
    decreases |positions|
  {
    if positions != [] && !Expired(env, s) {
      var p, t := positions[0], Look(env, s);
      assert p in positions;
      CheckPositionFinds(env, t, p);
      PositionPassRests(env, CheckPosition(env, t, p), positions[1..]);
    }
  }

  lemma RestIsKept(env: Env, db: Db)
    requires Stable(env) && WellFormed(db) && AtRest(env, db)
    ensures Reconcile(env, db).db == db
  {
    var s := Tick(env, Begin(db));
    if !s.timedOut {
      PendingPassRests(env, s, PendingOrders(db.orders));
    }
    var t := AfterPending(env, db);
    if !Expired(env, t) {
      PositionPassRests(env, Tick(env, t), ActivePositions(t.db.positions, false));
    }
    var end := AfterPositions(env, db);
    forall i | 0 <= i < |db.positions|
      ensures |FlagAll(db.positions, end.found)| == |db.positions|
      ensures FlagAll(db.positions, end.found)[i] == db.positions[i]
    {
      FlagAllAt(db.positions, end.found, i);
      assert db.positions[i] in db.positions;
    }
    if db.positions == [] {
      FlagAllOfNothing(end.found);
    }
    assert FlagAll(db.positions, end.found) == db.positions;
  }

  lemma RestIgnoresDeadline(env: Env, db: Db, deadline: nat)
    requires Stable(env) && AtRest(env, db)
    ensures Stable(env.(deadline := deadline)) && AtRest(env.(deadline := deadline), db)
  {
    var later := env.(deadline := deadline);
    forall p | p in db.positions && UnflaggedLive(p)
      ensures Calm(later, db, p)
    {
      assert Calm(env, db, p);
      assert LegCalm(later, db, p, Kalshi) && LegCalm(later, db, p, Polymarket);
    }
    assert forall o :: AskedAndAnswered(later, o) == AskedAndAnswered(env, o);
  }

  /**
   Reconciliation converges: when the platforms give stable answers and a run has the time to finish, no
   later run changes an order or a position, whether it has the time to finish or not.
   */
  lemma SecondRunChangesNothing(env: Env, db: Db, deadline: nat)
    requires Stable(env) && WellFormed(db) && OneSingleLegAPair(db) && !Reconcile(env, db).timedOut
    ensures var after := Reconcile(env, db).db; Reconcile(env.(deadline := deadline), after).db == after
  {
    RunComesToRest(env, db);
    RunKeepsTables(env, db);
    RestIgnoresDeadline(env, Reconcile(env, db).db, deadline);
    RestIsKept(env.(deadline := deadline), Reconcile(env, db).db);
  }

  lemma RunKeepsTables(env: Env, db: Db)
    requires WellFormed(db)
    ensures WellFormed(Reconcile(env, db).db)
  {
    RunLowersMeasure(env, db);
  }

  // ----- a clean run -----

  /** At one of the calls numbered from `first` to before `end` the platform confirmed the status held locally. */
  ghost predicate Confirmed(env: Env, first: nat, end: nat, platform: Platform, o: Order) {
    exists k :: first <= k < end && Confirms(env.answers(k, platform, o.orderId), o)
  }

  predicate Confirms(answer: Answer, o: Order) {
    answer.Answered? && Matches(o.status, answer.status)
  }

  /** The local status is the one that a platform reports. */
  predicate Matches(local: OrderStatus, reported: PlatformStatus) {
    match reported
    case IsFilled => local == Filled
    case IsPending => local == Pending
    case IsCancelled => local == Cancelled
    case IsRejected => local == Rejected
    case IsPartial => local == PartiallyFilled
    case NotFound => false
  }

  ghost predicate LegsConfirmed(env: Env, first: nat, end: nat, db: Db, p: Position) {
    forall platform: Platform ::
      LegOrder(db, p, platform).Some? ==> Confirmed(env, first, end, platform, LegOrder(db, p, platform).value)
  }

  lemma CheckLegConfirms(env: Env, s: Pass, p: Position, platform: Platform)
    requires forall k, platform, id :: env.answers(k, platform, id).Answered?
    ensures var s' := CheckLeg(env, s, p, platform);
      && s'.db == s.db && s.found <= s'.found && s'.timedOut == s.timedOut && s'.checks == s.checks
      && s.calls <= s'.calls
      && (s'.found == s.found && LegOrder(s.db, p, platform).Some? ==>
            Confirmed(env, s.calls, s'.calls, platform, LegOrder(s.db, p, platform).value))
  {
    var leg := LegOrder(s.db, p, platform);
    if leg.Some? && env.Available(platform) {
      var answer := env.answers(s.calls, platform, leg.value.orderId);
      assert CheckOrderDiscrepancy(leg.value.status, answer.status).None? ==> Confirms(answer, leg.value);
    }
  }

  lemma CheckPositionConfirms(env: Env, s: Pass, p: Position)
    requires forall k, platform, id :: env.answers(k, platform, id).Answered?
    ensures var s' := CheckPosition(env, s, p);
      && s'.db == s.db && s.found <= s'.found && s'.timedOut == s.timedOut && s'.checks == s.checks
      && s.calls <= s'.calls
      && (s'.found == s.found && !p.status.ReconciliationRequired? ==> LegsConfirmed(env, s.calls, s'.calls, s.db, p))
  {
    if !p.status.ReconciliationRequired? {
      var t' := CheckLeg(env, s, p, Kalshi);
      CheckLegConfirms(env, s, p, Kalshi);
      CheckLegConfirms(env, t', p, Polymarket);
      var t'' := CheckLeg(env, t', p, Polymarket);
      if t''.found == s.found {
        assert t'.found == s.found;
        forall platform: Platform | LegOrder(s.db, p, platform).Some?
          ensures Confirmed(env, s.calls, t''.calls, platform, LegOrder(s.db, p, platform).value)
        {
        }
      }
    }
  }

  lemma MoreCallsConfirm(env: Env, first: nat, end: nat, first': nat, end': nat, db: Db, p: Position)
    requires first' <= first && end <= end' && LegsConfirmed(env, first, end, db, p)
    ensures LegsConfirmed(env, first', end', db, p)
  {
    forall platform: Platform | LegOrder(db, p, platform).Some?
      ensures Confirmed(env, first', end', platform, LegOrder(db, p, platform).value)
    {
      assert Confirmed(env, first, end, platform, LegOrder(db, p, platform).value);
    }
  }

  lemma {:induction false} PositionPassConfirms(env: Env, s: Pass, positions: seq<Position>)
    requires forall k, platform, id :: env.answers(k, platform, id).Answered?
    ensures var s' := PositionPass(env, s, positions);
      && s'.db == s.db && s.found <= s'.found && (s.timedOut ==> s'.timedOut) && s.calls <= s'.calls
      && (!s'.timedOut && s'.found == s.found ==>
            forall p :: p in positions && !p.status.ReconciliationRequired? ==>
              LegsConfirmed(env, s.calls, s'.calls, s.db, p))
    decreases |positions|
  {
    if positions != [] && !Expired(env, s) {
      var t := Look(env, s);
      var s' := CheckPosition(env, t, positions[0]);
      var last := PositionPass(env, s', positions[1..]);
      CheckPositionConfirms(env, t, positions[0]);
      PositionPassConfirms(env, s', positions[1..]);
      forall p | p in positions && !p.status.ReconciliationRequired? && !last.timedOut && last.found == s.found
        ensures LegsConfirmed(env, s.calls, last.calls, s.db, p)
      {
        if p == positions[0] {
          MoreCallsConfirm(env, s.calls, s'.calls, s.calls, last.calls, s.db, p);
        } else {
          assert p in positions[1..];
          MoreCallsConfirm(env, s'.calls, last.calls, s.calls, last.calls, s.db, p);
        }
      }
    }
  }

  /**
   A clean run is a true one: every call answered, time enough and nothing found mean that each linked order of an
   unflagged active position has the status that its platform reported at a call the run made to verify positions.
   */
  lemma CleanRunIsSound(env: Env, db: Db, p: Position)
    requires forall k, platform, id :: env.answers(k, platform, id).Answered?
    requires !Reconcile(env, db).timedOut && Reconcile(env, db).found == []
    requires p in Reconcile(env, db).db.positions && UnflaggedLive(p)
    ensures LegsConfirmed(env, AfterPending(env, db).calls, Reconcile(env, db).calls, Reconcile(env, db).db, p)
  {
    var s, t := AfterPending(env, db), AfterPositions(env, db);
    PositionPassConfirms(env, Tick(env, s), ActivePositions(s.db.positions, false));
    assert FlagAll(t.db.positions, []) == t.db.positions;
    assert s.found == [] && t.db == s.db;
    assert p in ActivePositions(s.db.positions, false);
  }
}
