/** What a run does to each order, which discrepancies it reports, and when it times out, in the platforms' terms. */
module ReconciliationOutcome {
  import opened Wrappers
  import opened Vwap
  import opened Reconciliation
  import opened ReconciliationProgress
  import opened ReconciliationConvergence

  // ----- pending orders -----

  /** The order after a platform's answer about it: settled as reported, or as it was. */
  ghost predicate SettledAs(o: Order, answer: Answer, o': Order) {
    match answer
    case Failed => o' == o
    case Answered(status, price, size) =>
      match status
      case IsFilled =>
        o' == o.(status := Filled, fillPrice := if price.Some? then price else o.fillPrice,
                 fillSize := if size.Some? then size else o.fillSize)
      case IsCancelled => o' == o.(status := Cancelled)
      case IsRejected => o' == o.(status := Rejected)
      case _ => o' == o
  }

  lemma CheckPendingAt(env: Env, s: Pass, o: Order, i: nat)
    requires UniqueOrders(s.db.orders) && o in s.db.orders && i < |s.db.orders|
    ensures var s' := CheckPending(env, s, o);
      && |s'.db.orders| == |s.db.orders|
      && (s.db.orders[i] != o ==> s'.db.orders[i] == s.db.orders[i])
      && (s.db.orders[i] == o && !env.Available(o.platform) ==> s'.db.orders[i] == o)
      && (s.db.orders[i] == o && env.Available(o.platform) ==>
            SettledAs(o, env.answers(s.calls, o.platform, o.orderId), s'.db.orders[i]))
  {
    var k :| 0 <= k < |s.db.orders| && s.db.orders[k] == o;
    assert s.db.orders[i] != o ==> i != k && s.db.orders[i].orderId != o.orderId;
  }

  /** What became of the row `o` when `orders` were checked. */
  ghost predicate RowOutcome(env: Env, o: Order, checked: bool, o': Order) {
    if checked && env.Available(o.platform) then SettledAs(o, Says(env, o.platform, o.orderId), o') else o' == o
  }

  lemma {:induction false} PendingPassAt(env: Env, s: Pass, orders: seq<Order>, i: nat)
    requires Stable(env) && Unique(s.db) && Remaining(s, orders) && i < |s.db.orders|
    ensures var s' := PendingPass(env, s, orders);
      && |s'.db.orders| == |s.db.orders|
      && (!s'.timedOut ==> RowOutcome(env, s.db.orders[i], s.db.orders[i] in orders, s'.db.orders[i]))
    decreases |orders|
  {
    if orders != [] && !Expired(env, s) {
      var o, t, rest := orders[0], Tick(env, s), orders[1..];
      var s' := CheckPending(env, t, o);
      assert o in orders;
      CheckPendingAt(env, t, o, i);
      CheckPendingEvolvesRows(env, t, orders);
      EvolvingKeepsUnique(s.db, s'.db);
      PendingPassAt(env, s', rest, i);
      assert [o] + rest == orders;
      CheckedOrderIsDone(rest, o);
    }
  }

  /** Each order is checked once: none of those still to be checked has the id of the one just checked. */
  lemma CheckedOrderIsDone(rest: seq<Order>, o: Order)
    requires UniqueOrders([o] + rest)
    ensures forall r :: r in rest ==> r.orderId != o.orderId
  {
    forall r | r in rest
      ensures r.orderId != o.orderId
    {
      var j :| 0 <= j < |rest| && rest[j] == r;
      assert ([o] + rest)[j + 1].orderId != ([o] + rest)[0].orderId;
    }
  }

  /**
   When the platforms' answers are stable and the first phase has time enough, every pending live order whose platform
   is connected ends as that platform says, filled ones with the price and size it reports, and no other order changes.
   */
  lemma PendingOrdersSettle(env: Env, db: Db, i: nat)
    requires Stable(env) && Unique(db) && !AfterPending(env, db).timedOut && i < |db.orders|
    ensures |Reconcile(env, db).db.orders| == |db.orders|
    ensures var o, o' := db.orders[i], Reconcile(env, db).db.orders[i];
      if o.status == Pending && !o.isPaper && env.Available(o.platform)
      then SettledAs(o, Says(env, o.platform, o.orderId), o') else o' == o
  {
    PendingOrdersAreUnique(db.orders);
    PendingPassAt(env, Tick(env, Begin(db)), PendingOrders(db.orders), i);
    assert db.orders[i] in db.orders;
    BeforeFlagging(env, db);
  }

  // ----- single legs -----

  /** The position at index `j` is the first single leg of its pair, and it lacks a leg on `platform`. */
  ghost predicate Exposed(positions: seq<Position>, j: nat, platform: Platform) {
    && j < |positions| && SingleLegLive(positions[j])
    && (if platform.Kalshi? then positions[j].kalshiOrderId.None? else positions[j].polymarketOrderId.None?)
    && forall i :: 0 <= i < j && SingleLegLive(positions[i]) ==> positions[i].pairId != positions[j].pairId
  }

  ghost predicate Completed(p: Position, o: Order, p': Position) {
    p' == if o.platform.Kalshi? then p.(kalshiOrderId := Some(o.orderId), status := Open)
          else p.(polymarketOrderId := Some(o.orderId), status := Open)
  }

  lemma {:induction false} FirstSingleLeg(positions: seq<Position>, j: nat)
    requires j < |positions| && SingleLegLive(positions[j])
    requires forall i :: 0 <= i < j && SingleLegLive(positions[i]) ==> positions[i].pairId != positions[j].pairId
    ensures FindSingleLeg(positions, positions[j].pairId) == Some(positions[j])
  {
    if j > 0 {
      assert forall i :: 0 <= i < j - 1 ==> positions[1..][i] == positions[i + 1];
      FirstSingleLeg(positions[1..], j - 1);
    }
  }

  /** Checking an order of another pair leaves the position alone, and no row before it becomes a single leg. */
  lemma OtherPairKeepsExposed(env: Env, s: Pass, o: Order, j: nat, platform: Platform)
    requires UniquePositions(s.db.positions) && Exposed(s.db.positions, j, platform)
    requires o.pairId != s.db.positions[j].pairId
    ensures var s' := CheckPending(env, s, o);
      Exposed(s'.db.positions, j, platform) && s'.db.positions[j] == s.db.positions[j]
  {
    var exposed := FindSingleLeg(s.db.positions, o.pairId);
    if exposed.Some? {
      OnlyOnePosition(s.db.positions, exposed.value);
      assert s.db.positions[j] in s.db.positions;
    }
  }

  lemma OtherPairKeepsRow(env: Env, s: Pass, o: Order, j: nat)
    requires j < |s.db.positions| && UniquePositions(s.db.positions) && o.pairId != s.db.positions[j].pairId
    ensures var s' := CheckPending(env, s, o); j < |s'.db.positions| && s'.db.positions[j] == s.db.positions[j]
  {
    var exposed := FindSingleLeg(s.db.positions, o.pairId);
    if exposed.Some? {
      OnlyOnePosition(s.db.positions, exposed.value);
      assert s.db.positions[j] in s.db.positions;
    }
  }

  lemma FillCompletes(env: Env, s: Pass, o: Order, j: nat)
    requires UniquePositions(s.db.positions) && Exposed(s.db.positions, j, o.platform)
    requires o.pairId == s.db.positions[j].pairId && env.Available(o.platform)
    requires env.answers(s.calls, o.platform, o.orderId).Answered?
    requires env.answers(s.calls, o.platform, o.orderId).status == IsFilled
    ensures var s' := CheckPending(env, s, o);
      j < |s'.db.positions| && Completed(s.db.positions[j], o, s'.db.positions[j])
  {
    FirstSingleLeg(s.db.positions, j);
  }

  lemma {:induction false} OtherPairsKeepRow(env: Env, s: Pass, orders: seq<Order>, j: nat)
    requires Unique(s.db) && Remaining(s, orders) && j < |s.db.positions|
    requires forall r :: r in orders ==> r.pairId != s.db.positions[j].pairId
    ensures var s' := PendingPass(env, s, orders); j < |s'.db.positions| && s'.db.positions[j] == s.db.positions[j]
    decreases |orders|
  {
    if orders != [] && !Expired(env, s) {
      var s' := CheckPending(env, Tick(env, s), orders[0]);
      assert orders[0] in orders;
      OtherPairKeepsRow(env, Tick(env, s), orders[0], j);
      CheckPendingEvolvesRows(env, Tick(env, s), orders);
      EvolvingKeepsUnique(s.db, s'.db);
      OtherPairsKeepRow(env, s', orders[1..], j);
    }
  }

  lemma {:induction false} PendingPassCompletes(env: Env, s: Pass, orders: seq<Order>, o: Order, j: nat)
    requires Stable(env) && Unique(s.db) && Remaining(s, orders) && o in orders
    requires Exposed(s.db.positions, j, o.platform) && o.pairId == s.db.positions[j].pairId
    requires forall r :: r in orders && r.pairId == o.pairId ==> r == o
    requires AskedAndAnswered(env, o) && Says(env, o.platform, o.orderId).status == IsFilled
    ensures var s' := PendingPass(env, s, orders);
      !s'.timedOut ==> j < |s'.db.positions| && Completed(s.db.positions[j], o, s'.db.positions[j])
    decreases |orders|
  {
    if !Expired(env, s) {
      var t, r, rest := Tick(env, s), orders[0], orders[1..];
      var s' := CheckPending(env, t, r);
      assert r in orders;
      CheckPendingEvolvesRows(env, t, orders);
      EvolvingKeepsUnique(s.db, s'.db);
      if r == o {
        assert env.answers(t.calls, o.platform, o.orderId) == Says(env, o.platform, o.orderId);
        FillCompletes(env, t, o, j);
        forall q | q in rest
          ensures q.pairId != o.pairId
        {
          var k :| 0 <= k < |rest| && rest[k] == q;
          assert orders[k + 1].orderId != orders[0].orderId;
        }
        OtherPairsKeepRow(env, s', rest, j);
      } else {
        OtherPairKeepsExposed(env, t, r, j, o.platform);
        PendingPassCompletes(env, s', rest, o, j);
      }
    }
  }

  /**
   When the only pending order of a pair turns out to be filled, the pair's first single-leg position opens with that
   order linked, if it lacked a leg there, and the other leg stays as it was.
   */
  lemma FilledOrderCompletesItsPair(env: Env, db: Db, o: Order, j: nat)
    requires Stable(env) && Unique(db) && !AfterPending(env, db).timedOut
    requires o in db.orders && PendingLive(o) && AskedAndAnswered(env, o)
    requires Says(env, o.platform, o.orderId).status == IsFilled
    requires forall r :: r in db.orders && PendingLive(r) && r.pairId == o.pairId ==> r == o
    requires Exposed(db.positions, j, o.platform) && db.positions[j].pairId == o.pairId
    ensures var positions := AfterPending(env, db).db.positions;
      j < |positions| && Completed(db.positions[j], o, positions[j])
  {
    PendingOrdersAreUnique(db.orders);
    PendingPassCompletes(env, Tick(env, Begin(db)), PendingOrders(db.orders), o, j);
  }

  // ----- what is reported -----

  /** What a platform said, or that it was not connected, bears out a discrepancy of this kind. */
  ghost predicate BearsOut(env: Env, calls: nat, platform: Platform, id: Id, local: OrderStatus,
                           kind: DiscrepancyType)
  {
    match kind
    case PlatformUnavailable => !env.Available(platform)
    case OrderNotFound => exists k :: 0 <= k < calls && Reports(env.answers(k, platform, id), NotFound)
    case PendingFilled =>
      local == Pending && exists k :: 0 <= k < calls && Reports(env.answers(k, platform, id), IsFilled)
    case OrderStatusMismatch => exists k :: 0 <= k < calls && Contradicts(env.answers(k, platform, id), local)
  }

  predicate Reports(answer: Answer, status: PlatformStatus) {
    answer.Answered? && answer.status == status
  }

  /** A status other than the local one, which is no missing order and no fill of a pending one. */
  predicate Contradicts(answer: Answer, local: OrderStatus) {
    && answer.Answered? && answer.status != NotFound && !Matches(local, answer.status)
    && !(local == Pending && answer.status == IsFilled)
  }

  /** A missing pending order, or a leg of an unflagged live position about which its platform disagrees. */
  ghost predicate IsTrue(env: Env, calls: nat, orders: seq<Order>, db: Db, d: Discrepancy) {
    || (exists o :: o in orders && MissingAsReported(env, calls, o, d))
    || (exists p, platform :: p in db.positions && LegAsReported(env, calls, db, p, platform, d))
  }

  ghost predicate MissingAsReported(env: Env, calls: nat, o: Order, d: Discrepancy) {
    && PendingLive(o) && d.pairId == o.pairId && d.discrepancyType == OrderNotFound && d.localState == Pending
    && BearsOut(env, calls, o.platform, o.orderId, Pending, OrderNotFound)
  }

  ghost predicate LegAsReported(env: Env, calls: nat, db: Db, p: Position, platform: Platform, d: Discrepancy) {
    && UnflaggedLive(p) && d.positionId == p.positionId && d.pairId == p.pairId
    && exists leg :: leg in db.orders && IsLinked(p, platform, leg) && d.localState == leg.status
         && BearsOut(env, calls, platform, leg.orderId, leg.status, d.discrepancyType)
  }

  /** The order is the leg that the position holds on the platform. */
  predicate IsLinked(p: Position, platform: Platform, leg: Order) {
    Some(leg.orderId) == if platform == Kalshi then p.kalshiOrderId else p.polymarketOrderId
  }

  /** A leg is looked up exactly when its order is known, and then it is that order. */
  lemma LegsAreLinkedOrders(db: Db, p: Position, platform: Platform)
    ensures LegOrder(db, p, platform).Some? <==> exists leg :: leg in db.orders && IsLinked(p, platform, leg)
    ensures LegOrder(db, p, platform).Some? ==>
              LegOrder(db, p, platform).value in db.orders && IsLinked(p, platform, LegOrder(db, p, platform).value)
  {
    KnownOrdersAreFound(db.orders, if platform.Kalshi? then p.kalshiOrderId else p.polymarketOrderId);
  }

  lemma {:induction false} KnownOrdersAreFound(orders: seq<Order>, id: Option<Id>)
    ensures FindOrder(orders, id).Some? <==> exists o :: o in orders && Some(o.orderId) == id
  {
    if orders != [] {
      KnownOrdersAreFound(orders[1..], id);
      assert forall o :: o in orders <==> o == orders[0] || o in orders[1..];
    }
  }

  lemma MoreCallsBearOut(env: Env, calls: nat, calls': nat, platform: Platform, id: Id, local: OrderStatus,
                         kind: DiscrepancyType)
    requires calls <= calls' && BearsOut(env, calls, platform, id, local, kind)
    ensures BearsOut(env, calls', platform, id, local, kind)
  {
  }

  lemma MoreCallsKeepTrue(env: Env, calls: nat, calls': nat, orders: seq<Order>, db: Db, found: seq<Discrepancy>)
    requires calls <= calls' && forall d :: d in found ==> IsTrue(env, calls, orders, db, d)
    ensures forall d :: d in found ==> IsTrue(env, calls', orders, db, d)
  {
    forall d | d in found
      ensures IsTrue(env, calls', orders, db, d)
    {
      if o :| o in orders && MissingAsReported(env, calls, o, d) {
        MoreCallsBearOut(env, calls, calls', o.platform, o.orderId, Pending, OrderNotFound);
        assert MissingAsReported(env, calls', o, d);
      } else {
        var p, platform :| p in db.positions && LegAsReported(env, calls, db, p, platform, d);
        var leg :| leg in db.orders && IsLinked(p, platform, leg) && d.localState == leg.status
          && BearsOut(env, calls, platform, leg.orderId, leg.status, d.discrepancyType);
        MoreCallsBearOut(env, calls, calls', platform, leg.orderId, leg.status, d.discrepancyType);
        assert LegAsReported(env, calls', db, p, platform, d);
      }
    }
  }

  lemma {:induction false} PendingPassReports(env: Env, s: Pass, orders: seq<Order>, all: seq<Order>)
    requires forall o :: o in orders ==> o in all && PendingLive(o)
    requires forall d :: d in s.found ==> exists o :: o in all && MissingAsReported(env, s.calls, o, d)
    ensures var s' := PendingPass(env, s, orders);
      && s.calls <= s'.calls
      && forall d :: d in s'.found ==> exists o :: o in all && MissingAsReported(env, s'.calls, o, d)
    decreases |orders|
  {
    if orders != [] && !Expired(env, s) {
      var o, t := orders[0], Tick(env, s);
      var s' := CheckPending(env, t, o);
      assert o in orders;
      forall d | d in s'.found
        ensures exists r :: r in all && MissingAsReported(env, s'.calls, r, d)
      {
        if d in s.found {
          var r :| r in all && MissingAsReported(env, s.calls, r, d);
          MoreCallsBearOut(env, s.calls, s'.calls, r.platform, r.orderId, Pending, OrderNotFound);
          assert MissingAsReported(env, s'.calls, r, d);
        } else {
          assert Reports(env.answers(t.calls, o.platform, o.orderId), NotFound);
          assert MissingAsReported(env, s'.calls, o, d);
        }
      }
      PendingPassReports(env, s', orders[1..], all);
    }
  }

  lemma CheckLegReports(env: Env, s: Pass, p: Position, platform: Platform, orders: seq<Order>)
    requires p in s.db.positions && UnflaggedLive(p)
    requires forall d :: d in s.found ==> IsTrue(env, s.calls, orders, s.db, d)
    ensures var s' := CheckLeg(env, s, p, platform);
      && s'.db == s.db && s.calls <= s'.calls
      && forall d :: d in s'.found ==> IsTrue(env, s'.calls, orders, s'.db, d)
  {
    var s' := CheckLeg(env, s, p, platform);
    var leg := LegOrder(s.db, p, platform);
    MoreCallsKeepTrue(env, s.calls, s'.calls, orders, s.db, s.found);
    if s'.found != s.found {
      var d := s'.found[|s.found|];
      if env.Available(platform) {
        var answer := env.answers(s.calls, platform, leg.value.orderId);
        assert Reports(answer, answer.status);
        assert d.discrepancyType == OrderStatusMismatch ==> Contradicts(answer, leg.value.status);
      }
      LegsAreLinkedOrders(s.db, p, platform);
      assert LegAsReported(env, s'.calls, s'.db, p, platform, d);
      assert forall e :: e in s'.found ==> e in s.found || e == d;
    }
  }

  lemma {:induction false} PositionPassReports(env: Env, s: Pass, positions: seq<Position>, orders: seq<Order>)
    requires forall p :: p in positions ==> p in s.db.positions && IsActive(p.status) && !p.isPaper
    requires forall d :: d in s.found ==> IsTrue(env, s.calls, orders, s.db, d)
    ensures var s' := PositionPass(env, s, positions);
      s'.db == s.db && forall d :: d in s'.found ==> IsTrue(env, s'.calls, orders, s'.db, d)
    decreases |positions|
  {
    if positions != [] && !Expired(env, s) {
      var p, t := positions[0], Look(env, s);
      assert p in positions;
      if !p.status.ReconciliationRequired? {
        CheckLegReports(env, t, p, Kalshi, orders);
        CheckLegReports(env, CheckLeg(env, t, p, Kalshi), p, Polymarket, orders);
      }
      PositionPassReports(env, CheckPosition(env, t, p), positions[1..], orders);
    }
  }

  /** Whatever a run reports is true: some answer it got, or a platform it found unconnected, bears it out. */
  lemma DiscrepanciesAreTrue(env: Env, db: Db, d: Discrepancy)
    requires d in Reconcile(env, db).found
    ensures IsTrue(env, Reconcile(env, db).calls, db.orders, AfterPending(env, db).db, d)
  {
    var s := Tick(env, Begin(db));
    var t := AfterPending(env, db);
    if !s.timedOut {
      PendingPassReports(env, s, PendingOrders(db.orders), db.orders);
    }
    assert forall e :: e in t.found ==> IsTrue(env, t.calls, db.orders, t.db, e);
    if !Expired(env, t) {
      PositionPassReports(env, Tick(env, t), ActivePositions(t.db.positions, false), db.orders);
    }
  }

  /** Nothing is reported of a leg exactly when the local status is the reported one. */
  lemma NoDiscrepancyIffMatching(local: OrderStatus, reported: PlatformStatus)
    ensures CheckOrderDiscrepancy(local, reported).None? <==> Matches(local, reported)
  {
  }

  lemma {:induction false} PendingPassMisses(env: Env, s: Pass, orders: seq<Order>, o: Order)
    requires Stable(env) && AskedAndAnswered(env, o) && Says(env, o.platform, o.orderId).status == NotFound
    ensures var s' := PendingPass(env, s, orders);
      && s.found <= s'.found
      && (!s'.timedOut && o in orders ==> exists d :: d in s'.found && Reported(d, o))
    decreases |orders|
  {
    if orders != [] && !Expired(env, s) {
      var r, t := orders[0], Tick(env, s);
      var s' := CheckPending(env, t, r);
      PendingPassMisses(env, s', orders[1..], o);
      if r == o {
        assert env.answers(t.calls, o.platform, o.orderId) == Says(env, o.platform, o.orderId);
        var d := s'.found[|s.found|];
        assert d in PendingPass(env, s', orders[1..]).found && Reported(d, o);
      }
    }
  }

  predicate Reported(d: Discrepancy, o: Order) {
    d.pairId == o.pairId && d.discrepancyType == OrderNotFound && d.localState == Pending
  }

  /** Every pending live order that its platform does not know is reported. */
  lemma MissingOrdersAreReported(env: Env, db: Db, o: Order)
    requires Stable(env) && o in db.orders && PendingLive(o) && !Reconcile(env, db).timedOut
    requires AskedAndAnswered(env, o) && Says(env, o.platform, o.orderId).status == NotFound
    ensures exists d :: d in Reconcile(env, db).found && Reported(d, o)
  {
    PendingPassMisses(env, Tick(env, Begin(db)), PendingOrders(db.orders), o);
    var t := AfterPending(env, db);
    PositionPassCovers(env, Tick(env, t), ActivePositions(t.db.positions, false));
    var d :| d in t.found && Reported(d, o);
    assert d in Reconcile(env, db).found;
  }

  // ----- counters and time -----

  lemma {:induction false} PendingPassCounts(env: Env, s: Pass, orders: seq<Order>)
    requires Unique(s.db) && Remaining(s, orders)
    ensures var s' := PendingPass(env, s, orders);
      && OrderWork(s'.db.orders) + s'.pendingResolved == OrderWork(s.db.orders) + s.pendingResolved
      && (if s.checks + |orders| <= env.deadline then s'.checks == s.checks + |orders| && s'.timedOut == s.timedOut
          else s'.checks > env.deadline && (orders != [] ==> s'.timedOut))
    decreases |orders|
  {
    if orders != [] && !Expired(env, s) {
      var t := Tick(env, s);
      var s' := CheckPending(env, t, orders[0]);
      assert orders[0] in orders;
      CheckPendingCounts(env, t, orders[0]);
      CheckPendingEvolvesRows(env, t, orders);
      EvolvingKeepsUnique(s.db, s'.db);
      PendingPassCounts(env, s', orders[1..]);
    }
  }

  lemma CheckPendingCounts(env: Env, s: Pass, o: Order)
    requires UniqueOrders(s.db.orders) && o in s.db.orders && PendingLive(o)
    ensures var s' := CheckPending(env, s, o);
      && OrderWork(s'.db.orders) + s'.pendingResolved == OrderWork(s.db.orders) + s.pendingResolved
      && s'.checks == s.checks && s'.timedOut == s.timedOut
  {
    var k :| 0 <= k < |s.db.orders| && s.db.orders[k] == o;
    var s' := CheckPending(env, s, o);
    forall i | 0 <= i < |s.db.orders|
      ensures |s'.db.orders| == |s.db.orders| && (i != k ==> s'.db.orders[i] == s.db.orders[i])
    {
      CheckPendingAt(env, s, o, i);
    }
    CheckPendingAt(env, s, o, k);
    OneRowChanges(s.db.orders, s'.db.orders, k);
  }

  lemma {:induction false} OneRowChanges(a: seq<Order>, b: seq<Order>, k: nat)
    requires k < |a| == |b| && forall i :: 0 <= i < |a| && i != k ==> b[i] == a[i]
    ensures OrderWork(b) - OrderWork(a) == OrderWeight(b[k]) - OrderWeight(a[k])
  {
    if k > 0 {
      OneRowChanges(a[1..], b[1..], k - 1);
    } else {
      assert a[1..] == b[1..];
    }
  }

  lemma {:induction false} PositionPassCounts(env: Env, s: Pass, positions: seq<Position>)
    ensures var s' := PositionPass(env, s, positions);
      && s'.pendingResolved == s.pendingResolved
      && (if s.checks + |positions| <= env.deadline
          then s'.positionsChecked == s.positionsChecked + |positions| && s'.timedOut == s.timedOut
          else positions != [] ==> s'.timedOut)
    decreases |positions|
  {
    if positions != [] && !Expired(env, s) {
      var s' := CheckPosition(env, Look(env, s), positions[0]);
      CheckPositionCounts(env, Look(env, s), positions[0]);
      PositionPassCounts(env, s', positions[1..]);
    }
  }

  lemma CheckPositionCounts(env: Env, s: Pass, p: Position)
    ensures var s' := CheckPosition(env, s, p);
      && s'.pendingResolved == s.pendingResolved && s'.positionsChecked == s.positionsChecked
      && s'.checks == s.checks && s'.timedOut == s.timedOut
  {
  }

  /** The timeout checks of a run that is not cut short: one to begin, one an order, one more, one a position. */
  function ChecksNeeded(env: Env, db: Db): nat {
    2 + |PendingOrders(db.orders)| + |ActivePositions(AfterPending(env, db).db.positions, false)|
  }

  /**
   A run times out exactly when it meets fewer timely checks than it makes. Its count of resolved orders is the number
   of pending orders it settled, and without a timeout its count of positions is that of the active live ones.
   */
  lemma RunKeepsCount(env: Env, db: Db)
    requires Unique(db)
    ensures var end := Reconcile(env, db);
      && OrderWork(end.db.orders) + end.pendingResolved == OrderWork(db.orders)
      && (end.timedOut <==> env.deadline < ChecksNeeded(env, db))
      && (!end.timedOut ==> end.positionsChecked == |ActivePositions(AfterPending(env, db).db.positions, false)|)
  {
    var s, t := Tick(env, Begin(db)), AfterPending(env, db);
    PendingOrdersAreUnique(db.orders);
    BeforeFlagging(env, db);
    if !s.timedOut {
      PendingPassCounts(env, s, PendingOrders(db.orders));
      NothingLookedAt(env, s, PendingOrders(db.orders));
    }
    if !Expired(env, t) {
      PositionPassCounts(env, Tick(env, t), ActivePositions(t.db.positions, false));
    }
  }

  lemma {:induction false} NothingLookedAt(env: Env, s: Pass, orders: seq<Order>)
    ensures PendingPass(env, s, orders).positionsChecked == s.positionsChecked
    decreases |orders|
  {
    if orders != [] && !Expired(env, s) {
      NothingLookedAt(env, CheckPending(env, Tick(env, s), orders[0]), orders[1..]);
    }
  }

  lemma {:induction false} PendingCallsAreVerified(env: Env, s: Pass, orders: seq<Order>)
    requires forall k, platform, id :: env.answers(k, platform, id).Answered?
    ensures var s' := PendingPass(env, s, orders); s'.ordersVerified - s'.calls == s.ordersVerified - s.calls
    decreases |orders|
  {
    if orders != [] && !Expired(env, s) {
      PendingCallsAreVerified(env, CheckPending(env, Tick(env, s), orders[0]), orders[1..]);
    }
  }

  lemma {:induction false} PositionCallsAreVerified(env: Env, s: Pass, positions: seq<Position>)
    requires forall k, platform, id :: env.answers(k, platform, id).Answered?
    ensures var s' := PositionPass(env, s, positions); s'.ordersVerified - s'.calls == s.ordersVerified - s.calls
    decreases |positions|
  {
    if positions != [] && !Expired(env, s) {
      PositionCallsAreVerified(env, CheckPosition(env, Look(env, s), positions[0]), positions[1..]);
    }
  }

  /** If every call is answered, the orders verified are the calls made. */
  lemma AnsweredCallsAreVerified(env: Env, db: Db)
    requires forall k, platform, id :: env.answers(k, platform, id).Answered?
    ensures Reconcile(env, db).ordersVerified == Reconcile(env, db).calls
  {
    var t := AfterPending(env, db);
    PendingCallsAreVerified(env, Tick(env, Begin(db)), PendingOrders(db.orders));
    PositionCallsAreVerified(env, Tick(env, t), ActivePositions(t.db.positions, false));
  }
}
