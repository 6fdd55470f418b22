/** Every run either changes no order and no position, or strictly lowers the amount of unfinished work. */
module ReconciliationProgress {
  import opened Wrappers
  import opened Vwap
  import opened Reconciliation

  // ----- the measure -----

  function OrderWeight(o: Order): nat {
    if PendingLive(o) then 1 else 0
  }

  /** One for an unflagged active position, and one more while it is a single leg. */
  function PositionWeight(p: Position): nat {
    (if SingleLegLive(p) then 1 else 0) + (if UnflaggedLive(p) then 1 else 0)
  }

  function OrderWork(orders: seq<Order>): nat {
    if orders == [] then 0 else OrderWeight(orders[0]) + OrderWork(orders[1..])
  }

  function PositionWork(positions: seq<Position>): nat {
    if positions == [] then 0 else PositionWeight(positions[0]) + PositionWork(positions[1..])
  }

  /** Pending orders, single-leg positions and unflagged active positions, of the live mode. */
  function Measure(db: Db): nat {
    OrderWork(db.orders) + PositionWork(db.positions)
  }

  // ----- the table invariants -----

  ghost predicate UniqueOrders(orders: seq<Order>) {
    forall i, j :: 0 <= i < j < |orders| ==> orders[i].orderId != orders[j].orderId
  }

  ghost predicate UniquePositions(positions: seq<Position>) {
    forall i, j :: 0 <= i < j < |positions| ==> positions[i].positionId != positions[j].positionId
  }

  /** No position has the id of a pair that an order belongs to. */
  ghost predicate DisjointIds(db: Db) {
    forall o, p :: o in db.orders && p in db.positions ==> o.pairId != p.positionId
  }

  ghost predicate Unique(db: Db) {
    UniqueOrders(db.orders) && UniquePositions(db.positions)
  }

  ghost predicate WellFormed(db: Db) {
    Unique(db) && DisjointIds(db)
  }

  // ----- evolution -----

  ghost predicate OrderEvolves(o: Order, o': Order) {
    && o'.orderId == o.orderId && o'.platform == o.platform && o'.pairId == o.pairId && o'.isPaper == o.isPaper
    && (o' == o || OrderWeight(o') < OrderWeight(o))
  }

  ghost predicate PositionEvolves(p: Position, p': Position) {
    && p'.positionId == p.positionId && p'.pairId == p.pairId && p'.isPaper == p.isPaper
    && (p' == p || PositionWeight(p') < PositionWeight(p))
  }

  /** Row by row, nothing changes but by losing weight. */
  ghost predicate Evolves(db: Db, db': Db) {
    && |db'.orders| == |db.orders| && |db'.positions| == |db.positions|
    && (forall i :: 0 <= i < |db.orders| ==> OrderEvolves(db.orders[i], db'.orders[i]))
    && (forall i :: 0 <= i < |db.positions| ==> PositionEvolves(db.positions[i], db'.positions[i]))
  }

  lemma EvolvesTransitive(a: Db, b: Db, c: Db)
    requires Evolves(a, b) && Evolves(b, c)
    ensures Evolves(a, c)
  {
    forall i | 0 <= i < |a.orders|
      ensures OrderEvolves(a.orders[i], c.orders[i])
    {
      assert OrderEvolves(a.orders[i], b.orders[i]) && OrderEvolves(b.orders[i], c.orders[i]);
    }
    forall i | 0 <= i < |a.positions|
      ensures PositionEvolves(a.positions[i], c.positions[i])
    {
      assert PositionEvolves(a.positions[i], b.positions[i]) && PositionEvolves(b.positions[i], c.positions[i]);
    }
  }

  lemma {:induction false} OrderWorkFalls(a: seq<Order>, b: seq<Order>)
    requires |a| == |b| && forall i :: 0 <= i < |a| ==> OrderEvolves(a[i], b[i])
    ensures OrderWork(b) <= OrderWork(a) && (OrderWork(b) == OrderWork(a) <==> a == b)
  {
    if a != [] {
      assert OrderEvolves(a[0], b[0]);
      OrderWorkFalls(a[1..], b[1..]);
      assert a == [a[0]] + a[1..] && b == [b[0]] + b[1..];
    }
  }

  lemma {:induction false} PositionWorkFalls(a: seq<Position>, b: seq<Position>)
    requires |a| == |b| && forall i :: 0 <= i < |a| ==> PositionEvolves(a[i], b[i])
    ensures PositionWork(b) <= PositionWork(a) && (PositionWork(b) == PositionWork(a) <==> a == b)
  {
    if a != [] {
      assert PositionEvolves(a[0], b[0]);
      PositionWorkFalls(a[1..], b[1..]);
      assert a == [a[0]] + a[1..] && b == [b[0]] + b[1..];
    }
  }

  lemma EvolvingLowersMeasure(a: Db, b: Db)
    requires Evolves(a, b)
    ensures Measure(b) <= Measure(a) && (Measure(b) == Measure(a) <==> a == b)
  {
    OrderWorkFalls(a.orders, b.orders);
    PositionWorkFalls(a.positions, b.positions);
  }

  lemma EvolvingKeepsUnique(a: Db, b: Db)
    requires Unique(a) && Evolves(a, b)
    ensures Unique(b)
  {
    forall i, j | 0 <= i < j < |b.orders|
      ensures b.orders[i].orderId != b.orders[j].orderId
    {
      assert OrderEvolves(a.orders[i], b.orders[i]) && OrderEvolves(a.orders[j], b.orders[j]);
    }
    forall i, j | 0 <= i < j < |b.positions|
      ensures b.positions[i].positionId != b.positions[j].positionId
    {
      assert PositionEvolves(a.positions[i], b.positions[i]) && PositionEvolves(a.positions[j], b.positions[j]);
    }
  }

  lemma EvolvingKeepsTables(a: Db, b: Db)
    requires WellFormed(a) && Evolves(a, b)
    ensures WellFormed(b)
  {
    EvolvingKeepsUnique(a, b);
    forall o, p | o in b.orders && p in b.positions
      ensures o.pairId != p.positionId
    {
      var i :| 0 <= i < |b.orders| && b.orders[i] == o;
      var j :| 0 <= j < |b.positions| && b.positions[j] == p;
      assert OrderEvolves(a.orders[i], b.orders[i]) && PositionEvolves(a.positions[j], b.positions[j]);
      assert a.orders[i] in a.orders && a.positions[j] in a.positions;
    }
  }

  // ----- single updates -----

  lemma SettlingEvolves(db: Db, o: Order, status: OrderStatus, fillPrice: Option<real>, fillSize: Option<real>)
    requires UniqueOrders(db.orders) && o in db.orders && PendingLive(o) && !status.Pending?
    ensures Evolves(db, db.(orders := UpdateOrder(db.orders, o.orderId, status, fillPrice, fillSize)))
  {
    var k :| 0 <= k < |db.orders| && db.orders[k] == o;
    assert forall i :: 0 <= i < |db.orders| && i != k ==> db.orders[i].orderId != o.orderId;
  }

  lemma LinkingEvolves(db: Db, p: Position, platform: Platform, orderId: Id)
    requires UniquePositions(db.positions) && p in db.positions && SingleLegLive(p)
    ensures Evolves(db, db.(positions := LinkOrder(db.positions, p.positionId, platform, orderId)))
  {
    var k :| 0 <= k < |db.positions| && db.positions[k] == p;
    assert forall i :: 0 <= i < |db.positions| && i != k ==> db.positions[i].positionId != p.positionId;
  }

  lemma FillingEvolves(db: Db, o: Order, fillPrice: Option<real>, fillSize: Option<real>)
    requires Unique(db) && o in db.orders && PendingLive(o)
    ensures Evolves(db, FillOrder(db, o, fillPrice, fillSize))
  {
    var settled := db.(orders := UpdateOrder(db.orders, o.orderId, Filled, fillPrice, fillSize));
    SettlingEvolves(db, o, Filled, fillPrice, fillSize);
    var exposed := FindSingleLeg(db.positions, o.pairId);
    if exposed.Some? && Lacks(exposed.value, o.platform) {
      LinkingEvolves(settled, exposed.value, o.platform, o.orderId);
      EvolvesTransitive(db, settled, FillOrder(db, o, fillPrice, fillSize));
    }
  }

  /**
   A fill settles its order with the reported price and size, and completes the pair's first single leg if that
   lacks the order's platform: the position opens with the order linked, and no other row changes.
   */
  lemma FillCompletesSingleLeg(db: Db, o: Order, fillPrice: Option<real>, fillSize: Option<real>, p: Position)
    requires WellFormed(db) && o in db.orders && FindSingleLeg(db.positions, o.pairId) == Some(p)
    ensures var db' := FillOrder(db, o, fillPrice, fillSize);
      && Settled(o, Filled, fillPrice, fillSize) in db'.orders
      && (forall r :: r in db.orders && r != o ==> r in db'.orders)
      && (forall q :: q in db.positions && q != p ==> q in db'.positions)
      && (if Lacks(p, o.platform)
          then exists q :: q in db'.positions && q.positionId == p.positionId && q.status.Open?
                 && LinkedTo(q, o.platform) == Some(o.orderId)
                 && LinkedTo(q, Other(o.platform)) == LinkedTo(p, Other(o.platform))
          else db'.positions == db.positions)
  {
    var orders := FillOrder(db, o, fillPrice, fillSize).orders;
    var k :| 0 <= k < |db.orders| && db.orders[k] == o;
    assert orders[k] == Settled(o, Filled, fillPrice, fillSize);
    forall r | r in db.orders && r != o
      ensures r in orders
    {
      var i :| 0 <= i < |db.orders| && db.orders[i] == r;
      assert orders[i] == r;
    }
    if Lacks(p, o.platform) {
      var linked := LinkOrder(db.positions, p.positionId, o.platform, o.orderId);
      var j :| 0 <= j < |db.positions| && db.positions[j] == p;
      assert linked[j] == Linked(p, o.platform, o.orderId);
      forall q | q in db.positions && q != p
        ensures q in linked
      {
        var i :| 0 <= i < |db.positions| && db.positions[i] == q;
        assert linked[i] == q;
      }
    }
  }

  function LinkedTo(p: Position, platform: Platform): Option<Id> {
    if platform.Kalshi? then p.kalshiOrderId else p.polymarketOrderId
  }

  function Other(platform: Platform): Platform {
    if platform.Kalshi? then Polymarket else Kalshi
  }

  // ----- what is found can be flagged -----

  /** A discrepancy names an unflagged live position, or none at all. */
  ghost predicate Names(db: Db, d: Discrepancy) {
    forall p :: p in db.positions && p.positionId == d.positionId ==> UnflaggedLive(p)
  }

  ghost predicate AllName(db: Db, found: seq<Discrepancy>) {
    forall d :: d in found ==> Names(db, d)
  }

  lemma LinkingKeepsNames(db: Db, db': Db, found: seq<Discrepancy>)
    requires AllName(db, found) && |db'.positions| == |db.positions|
    requires forall i :: 0 <= i < |db.positions| ==>
               db'.positions[i] == db.positions[i]
               || (db'.positions[i].positionId == db.positions[i].positionId && UnflaggedLive(db'.positions[i]))
    ensures AllName(db', found)
  {
    forall d, p | d in found && p in db'.positions && p.positionId == d.positionId
      ensures UnflaggedLive(p)
    {
      var i :| 0 <= i < |db'.positions| && db'.positions[i] == p;
      assert Names(db, d) && db.positions[i] in db.positions;
    }
  }

  lemma MissingOrderNames(db: Db, o: Order)
    requires WellFormed(db) && o in db.orders
    ensures Names(db, MissingOrder(db, o))
  {
    var exposed := FindSingleLeg(db.positions, o.pairId);
    if exposed.Some? {
      OnlyOnePosition(db.positions, exposed.value);
    }
  }

  lemma OnlyOnePosition(positions: seq<Position>, p: Position)
    requires UniquePositions(positions) && p in positions
    ensures forall q :: q in positions && q.positionId == p.positionId ==> q == p
  {
    forall q | q in positions && q.positionId == p.positionId
      ensures q == p
    {
      var i :| 0 <= i < |positions| && positions[i] == p;
      var j :| 0 <= j < |positions| && positions[j] == q;
    }
  }

  // ----- the passes -----

  ghost predicate Remaining(s: Pass, orders: seq<Order>) {
    UniqueOrders(orders) && forall o :: o in orders ==> o in s.db.orders && PendingLive(o)
  }

  lemma SettlingKeepsRest(orders: seq<Order>, o: Order, rest: seq<Order>, status: OrderStatus,
                          fillPrice: Option<real>, fillSize: Option<real>)
    requires forall r :: r in rest ==> r in orders && r.orderId != o.orderId
    ensures forall r :: r in rest ==> r in UpdateOrder(orders, o.orderId, status, fillPrice, fillSize)
  {
    forall r | r in rest
      ensures r in UpdateOrder(orders, o.orderId, status, fillPrice, fillSize)
    {
      var i :| 0 <= i < |orders| && orders[i] == r;
      assert UpdateOrder(orders, o.orderId, status, fillPrice, fillSize)[i] == r;
    }
  }

  lemma FilledKeepsAll(db: Db, found: seq<Discrepancy>, o: Order, rest: seq<Order>,
                       fillPrice: Option<real>, fillSize: Option<real>)
    requires Unique(db) && AllName(db, found) && o in db.orders && PendingLive(o)
    requires forall r :: r in rest ==> r in db.orders && r.orderId != o.orderId
    ensures var db' := FillOrder(db, o, fillPrice, fillSize);
      Evolves(db, db') && AllName(db', found) && forall r :: r in rest ==> r in db'.orders
  {
    FillingEvolves(db, o, fillPrice, fillSize);
    SettlingKeepsRest(db.orders, o, rest, Filled, fillPrice, fillSize);
    LinkingKeepsNames(db, FillOrder(db, o, fillPrice, fillSize), found);
  }

  lemma DroppedKeepsAll(db: Db, found: seq<Discrepancy>, o: Order, rest: seq<Order>, status: OrderStatus)
    requires Unique(db) && AllName(db, found) && o in db.orders && PendingLive(o) && !status.Pending?
    requires forall r :: r in rest ==> r in db.orders && r.orderId != o.orderId
    ensures var db' := db.(orders := UpdateOrder(db.orders, o.orderId, status, None, None));
      Evolves(db, db') && AllName(db', found) && forall r :: r in rest ==> r in db'.orders
  {
    SettlingEvolves(db, o, status, None, None);
    SettlingKeepsRest(db.orders, o, rest, status, None, None);
  }

  lemma CheckPendingEvolves(env: Env, s: Pass, orders: seq<Order>)
    requires WellFormed(s.db) && AllName(s.db, s.found) && orders != [] && Remaining(s, orders)
    ensures var s' := CheckPending(env, s, orders[0]);
      Evolves(s.db, s'.db) && AllName(s'.db, s'.found) && Remaining(s', orders[1..])
  {
    var o, rest := orders[0], orders[1..];
    assert o in orders;
    assert forall r :: r in rest ==> r in orders && r.orderId != o.orderId;
    if env.Available(o.platform) {
      var answer := env.answers(s.calls, o.platform, o.orderId);
      if answer.Answered? {
        match answer.status
        case IsFilled => FilledKeepsAll(s.db, s.found, o, rest, answer.fillPrice, answer.fillSize);
        case IsCancelled => DroppedKeepsAll(s.db, s.found, o, rest, Cancelled);
        case IsRejected => DroppedKeepsAll(s.db, s.found, o, rest, Rejected);
        case NotFound => MissingOrderNames(s.db, o);
        case _ =>
      }
    }
  }

  lemma {:induction false} PendingPassEvolves(env: Env, s: Pass, orders: seq<Order>)
    requires WellFormed(s.db) && AllName(s.db, s.found) && Remaining(s, orders)
    ensures var s' := PendingPass(env, s, orders); Evolves(s.db, s'.db) && AllName(s'.db, s'.found)
    decreases |orders|
  {
    if orders != [] && !Expired(env, s) {
      var t := Tick(env, s);
      var s' := CheckPending(env, t, orders[0]);
      CheckPendingEvolves(env, t, orders);
      EvolvingKeepsTables(s.db, s'.db);
      PendingPassEvolves(env, s', orders[1..]);
      EvolvesTransitive(s.db, s'.db, PendingPass(env, s', orders[1..]).db);
    }
  }

  lemma {:induction false} PendingOrdersAreUnique(orders: seq<Order>)
    requires UniqueOrders(orders)
    ensures UniqueOrders(PendingOrders(orders))
  {
    if orders != [] {
      PendingOrdersAreUnique(orders[1..]);
      forall r | r in PendingOrders(orders[1..])
        ensures r.orderId != orders[0].orderId
      {
        var k :| 0 <= k < |orders[1..]| && orders[1..][k] == r;
        assert orders[k + 1] == r;
      }
    }
  }

  lemma AfterPendingEvolves(env: Env, db: Db)
    requires WellFormed(db)
    ensures var s := AfterPending(env, db); Evolves(db, s.db) && WellFormed(s.db) && AllName(s.db, s.found)
  {
    PendingOrdersAreUnique(db.orders);
    var s := Tick(env, Begin(db));
    if !s.timedOut {
      PendingPassEvolves(env, s, PendingOrders(db.orders));
    }
    EvolvingKeepsTables(db, AfterPending(env, db).db);
  }

  lemma CheckLegNames(env: Env, s: Pass, p: Position, platform: Platform)
    requires AllName(s.db, s.found)
    requires forall q :: q in s.db.positions && q.positionId == p.positionId ==> UnflaggedLive(q)
    ensures var s' := CheckLeg(env, s, p, platform); s'.db == s.db && AllName(s'.db, s'.found)
  {
  }

  /** Verifying positions changes no row and finds fault with unflagged live ones only. */
  lemma {:induction false} PositionPassNames(env: Env, s: Pass, positions: seq<Position>)
    requires UniquePositions(s.db.positions) && AllName(s.db, s.found)
    requires forall p :: p in positions ==> p in s.db.positions && IsActive(p.status) && !p.isPaper
    ensures var s' := PositionPass(env, s, positions); s'.db == s.db && AllName(s'.db, s'.found)
    decreases |positions|
  {
    if positions != [] && !Expired(env, s) {
      var p, t := positions[0], Look(env, s);
      assert p in positions;
      OnlyOnePosition(s.db.positions, p);
      CheckPositionNames(env, t, p);
      PositionPassNames(env, CheckPosition(env, t, p), positions[1..]);
    }
  }

  lemma CheckPositionNames(env: Env, t: Pass, p: Position)
    requires AllName(t.db, t.found)
    requires forall q :: q in t.db.positions && q.positionId == p.positionId ==> q == p
    requires IsActive(p.status) && !p.isPaper
    ensures var s' := CheckPosition(env, t, p); s'.db == t.db && AllName(s'.db, s'.found)
  {
    if !p.status.ReconciliationRequired? {
      CheckLegNames(env, t, p, Kalshi);
      CheckLegNames(env, CheckLeg(env, t, p, Kalshi), p, Polymarket);
    }
  }

  lemma AfterPositionsEvolves(env: Env, db: Db)
    requires WellFormed(db)
    ensures var s := AfterPositions(env, db);
      Evolves(db, s.db) && WellFormed(s.db) && AllName(s.db, s.found) && s.db == AfterPending(env, db).db
  {
    AfterPendingEvolves(env, db);
    var s := AfterPending(env, db);
    if !Expired(env, s) {
      PositionPassNames(env, Tick(env, s), ActivePositions(s.db.positions, false));
    }
  }

  // ----- flagging -----

  /** The last of the discrepancies that names a position, if one does. */
  function LastNaming(found: seq<Discrepancy>, id: Id): (r: Option<nat>)
    ensures r.Some? ==> r.value < |found| && found[r.value].positionId == id
    ensures forall k :: 0 <= k < |found| && found[k].positionId == id ==> r.Some? && k <= r.value
  {
    if found == [] then None
    else if found[|found|-1].positionId == id then Some(|found| - 1)
    else LastNaming(found[..|found|-1], id)
  }

  /** Flagging touches exactly the positions named, and leaves each with the verdict of the last one to name it. */
  lemma {:induction false} FlagAllAt(positions: seq<Position>, found: seq<Discrepancy>, i: nat)
    requires i < |positions|
    ensures |FlagAll(positions, found)| == |positions|
    ensures var p, last := positions[i], LastNaming(found, positions[i].positionId);
      FlagAll(positions, found)[i] == if last.None? then p else Flagged(p, found[last.value])
  {
    if found != [] {
      FlagAllAt(positions, found[..|found|-1], i);
    }
  }

  lemma FlaggingEvolves(db: Db, found: seq<Discrepancy>)
    requires AllName(db, found)
    ensures Evolves(db, db.(positions := FlagAll(db.positions, found)))
  {
    forall i | 0 <= i < |db.positions|
      ensures |FlagAll(db.positions, found)| == |db.positions|
      ensures PositionEvolves(db.positions[i], FlagAll(db.positions, found)[i])
    {
      FlagAllAt(db.positions, found, i);
      assert db.positions[i] in db.positions;
      if exists d :: d in found && d.positionId == db.positions[i].positionId {
        var d :| d in found && d.positionId == db.positions[i].positionId;
        assert Names(db, d);
      }
    }
    if db.positions == [] {
      FlagAllOfNothing(found);
    }
  }

  lemma {:induction false} FlagAllOfNothing(found: seq<Discrepancy>)
    ensures FlagAll([], found) == []
  {
    if found != [] {
      FlagAllOfNothing(found[..|found|-1]);
    }
  }

  lemma FlagAllLength(positions: seq<Position>, found: seq<Discrepancy>)
    ensures |FlagAll(positions, found)| == |positions|
  {
    if positions == [] {
      FlagAllOfNothing(found);
    } else {
      FlagAllAt(positions, found, 0);
    }
  }

  /** A run leaves orders and positions as they are exactly when it leaves the measure so; otherwise it lowers it. */
  lemma RunLowersMeasure(env: Env, db: Db)
    requires WellFormed(db)
    ensures var db' := Reconcile(env, db).db;
      && Evolves(db, db') && WellFormed(db')
      && Measure(db') <= Measure(db) && (Measure(db') == Measure(db) <==> db' == db)
  {
    AfterPositionsEvolves(env, db);
    var s := AfterPositions(env, db);
    FlaggingEvolves(s.db, s.found);
    EvolvesTransitive(db, s.db, Reconcile(env, db).db);
    EvolvingLowersMeasure(db, Reconcile(env, db).db);
    EvolvingKeepsTables(db, Reconcile(env, db).db);
  }

  // ----- ids that collide -----

  /**
   A pending order whose pair has no single leg, and a position under the id of that pair which is closed, a paper
   one or flagged already, and which flagging as a missing order would change.
   */
  ghost predicate Collides(db: Db, o: Order, p: Position) {
    && o in db.orders && PendingLive(o) && p in db.positions && p.positionId == o.pairId && !UnflaggedLive(p)
    && FindSingleLeg(db.positions, o.pairId).None? && Flagged(p, MissingOrder(db, o)) != p
  }

  /** Flagging for `d` lowers the weight of a row or leaves it as it is. */
  ghost predicate Harmless(db: Db, d: Discrepancy) {
    forall p :: p in db.positions && p.positionId == d.positionId ==> UnflaggedLive(p) || Flagged(p, d) == p
  }

  ghost predicate AllHarmless(db: Db, found: seq<Discrepancy>) {
    forall d :: d in found ==> Harmless(db, d)
  }

  lemma CheckPendingEvolvesRows(env: Env, s: Pass, orders: seq<Order>)
    requires Unique(s.db) && orders != [] && Remaining(s, orders)
    ensures var s' := CheckPending(env, s, orders[0]); Evolves(s.db, s'.db) && Remaining(s', orders[1..])
  {
    var o, rest := orders[0], orders[1..];
    assert o in orders;
    assert forall r :: r in rest ==> r in orders && r.orderId != o.orderId;
    if env.Available(o.platform) {
      var answer := env.answers(s.calls, o.platform, o.orderId);
      if answer.Answered? {
        match answer.status
        case IsFilled => FilledKeepsAll(s.db, [], o, rest, answer.fillPrice, answer.fillSize);
        case IsCancelled => DroppedKeepsAll(s.db, [], o, rest, Cancelled);
        case IsRejected => DroppedKeepsAll(s.db, [], o, rest, Rejected);
        case _ =>
      }
    }
  }

  lemma {:induction false} PendingPassEvolvesRows(env: Env, s: Pass, orders: seq<Order>)
    requires Unique(s.db) && Remaining(s, orders)
    ensures Evolves(s.db, PendingPass(env, s, orders).db)
    decreases |orders|
  {
    if orders != [] && !Expired(env, s) {
      var s' := CheckPending(env, Tick(env, s), orders[0]);
      CheckPendingEvolvesRows(env, Tick(env, s), orders);
      EvolvingKeepsUnique(s.db, s'.db);
      PendingPassEvolvesRows(env, s', orders[1..]);
      EvolvesTransitive(s.db, s'.db, PendingPass(env, s', orders[1..]).db);
    }
  }

  /** Rows that have evolved do not evolve back. */
  lemma EvolvedThereAndBack(a: Db, b: Db)
    requires Evolves(a, b) && Evolves(b, a)
    ensures a == b
  {
    EvolvingLowersMeasure(a, b);
    EvolvingLowersMeasure(b, a);
  }

  lemma MissingOrderIsHarmless(db: Db, o: Order)
    requires Unique(db) && o in db.orders && PendingLive(o) && forall r, p :: !Collides(db, r, p)
    ensures Harmless(db, MissingOrder(db, o))
  {
    var exposed := FindSingleLeg(db.positions, o.pairId);
    if exposed.Some? {
      OnlyOnePosition(db.positions, exposed.value);
    } else {
      forall p | p in db.positions && p.positionId == o.pairId
        ensures UnflaggedLive(p) || Flagged(p, MissingOrder(db, o)) == p
      {
        assert !Collides(db, o, p);
      }
    }
  }

  lemma {:induction false} IdlePassIsHarmless(env: Env, s: Pass, orders: seq<Order>)
    requires Unique(s.db) && Remaining(s, orders) && AllHarmless(s.db, s.found)
    requires forall r, p :: !Collides(s.db, r, p)
    requires PendingPass(env, s, orders).db == s.db
    ensures AllHarmless(s.db, PendingPass(env, s, orders).found)
    decreases |orders|
  {
    if orders != [] && !Expired(env, s) {
      var o, s' := orders[0], CheckPending(env, Tick(env, s), orders[0]);
      assert o in orders;
      CheckPendingEvolvesRows(env, Tick(env, s), orders);
      EvolvingKeepsUnique(s.db, s'.db);
      PendingPassEvolvesRows(env, s', orders[1..]);
      EvolvedThereAndBack(s.db, s'.db);
      MissingOrderIsHarmless(s.db, o);
      IdlePassIsHarmless(env, s', orders[1..]);
    }
  }

  lemma CheckLegIsHarmless(env: Env, s: Pass, p: Position, platform: Platform)
    requires AllHarmless(s.db, s.found) && forall q :: q in s.db.positions && q.positionId == p.positionId ==> q == p
    requires UnflaggedLive(p)
    ensures var s' := CheckLeg(env, s, p, platform); s'.db == s.db && AllHarmless(s'.db, s'.found)
  {
  }

  lemma CheckPositionIsHarmless(env: Env, s: Pass, p: Position)
    requires AllHarmless(s.db, s.found) && forall q :: q in s.db.positions && q.positionId == p.positionId ==> q == p
    requires IsActive(p.status) && !p.isPaper
    ensures var s' := CheckPosition(env, s, p); s'.db == s.db && AllHarmless(s'.db, s'.found)
  {
    if !p.status.ReconciliationRequired? {
      CheckLegIsHarmless(env, s, p, Kalshi);
      CheckLegIsHarmless(env, CheckLeg(env, s, p, Kalshi), p, Polymarket);
    }
  }

  lemma {:induction false} PositionPassIsHarmless(env: Env, s: Pass, positions: seq<Position>)
    requires UniquePositions(s.db.positions) && AllHarmless(s.db, s.found)
    requires forall p :: p in positions ==> p in s.db.positions && IsActive(p.status) && !p.isPaper
    ensures var s' := PositionPass(env, s, positions); s'.db == s.db && AllHarmless(s'.db, s'.found)
    decreases |positions|
  {
    if positions != [] && !Expired(env, s) {
      var p, t := positions[0], Look(env, s);
      assert p in positions;
      OnlyOnePosition(s.db.positions, p);
      CheckPositionIsHarmless(env, t, p);
      PositionPassIsHarmless(env, CheckPosition(env, t, p), positions[1..]);
    }
  }

  /** Flagging never adds weight to a row, and when it is harmless it evolves the rows. */
  lemma FlaggingRows(db: Db, found: seq<Discrepancy>)
    ensures Measure(db.(positions := FlagAll(db.positions, found))) <= Measure(db)
    ensures AllHarmless(db, found) ==> Evolves(db, db.(positions := FlagAll(db.positions, found)))
  {
    var end := FlagAll(db.positions, found);
    FlagAllLength(db.positions, found);
    forall i | 0 <= i < |end|
      ensures PositionWeight(end[i]) <= PositionWeight(db.positions[i])
      ensures AllHarmless(db, found) ==> PositionEvolves(db.positions[i], end[i])
    {
      FlagAllAt(db.positions, found, i);
      assert db.positions[i] in db.positions;
      var last := LastNaming(found, db.positions[i].positionId);
      if last.Some? && AllHarmless(db, found) {
        assert Harmless(db, found[last.value]);
      }
    }
    NoMoreWork(db.positions, end);
  }

  lemma {:induction false} NoMoreWork(a: seq<Position>, b: seq<Position>)
    requires |a| == |b| && forall i :: 0 <= i < |a| ==> PositionWeight(b[i]) <= PositionWeight(a[i])
    ensures PositionWork(b) <= PositionWork(a)
  {
    if a != [] {
      NoMoreWork(a[1..], b[1..]);
    }
  }

  /** The measure tells whether the run changed anything. */
  ghost predicate MeasureTells(env: Env, db: Db) {
    Measure(Reconcile(env, db).db) == Measure(db) <==> Reconcile(env, db).db == db
  }

  lemma BeforeFlagging(env: Env, db: Db)
    requires Unique(db)
    ensures Evolves(db, AfterPositions(env, db).db) && AfterPositions(env, db).db == AfterPending(env, db).db
    ensures (forall r, p :: !Collides(db, r, p)) && AfterPositions(env, db).db == db ==>
              AllHarmless(db, AfterPositions(env, db).found)
  {
    PendingOrdersAreUnique(db.orders);
    var s := Tick(env, Begin(db));
    var t := AfterPending(env, db);
    if !s.timedOut {
      PendingPassEvolvesRows(env, s, PendingOrders(db.orders));
      if (forall r, p :: !Collides(db, r, p)) && t.db == db {
        IdlePassIsHarmless(env, s, PendingOrders(db.orders));
      }
    }
    EvolvingKeepsUnique(db, t.db);
    if !Expired(env, t) {
      PassReadsOnly(env, Tick(env, t), ActivePositions(t.db.positions, false));
      if AllHarmless(t.db, t.found) {
        PositionPassIsHarmless(env, Tick(env, t), ActivePositions(t.db.positions, false));
      }
    }
  }

  lemma {:induction false} PassReadsOnly(env: Env, s: Pass, positions: seq<Position>)
    ensures PositionPass(env, s, positions).db == s.db
    decreases |positions|
  {
    if positions != [] && !Expired(env, s) {
      PassReadsOnly(env, CheckPosition(env, Look(env, s), positions[0]), positions[1..]);
    }
  }

  lemma WithoutCollisionMeasureTells(env: Env, db: Db)
    requires Unique(db) && forall r, p :: !Collides(db, r, p)
    ensures MeasureTells(env, db)
  {
    var s := AfterPositions(env, db);
    BeforeFlagging(env, db);
    EvolvingLowersMeasure(db, s.db);
    FlaggingRows(s.db, s.found);
    if s.db == db {
      EvolvingLowersMeasure(db, Reconcile(env, db).db);
    }
  }

  /** Answers that `o` is missing, fails to answer about others, and times out before positions are verified. */
  function OnlyMisses(o: Order, orders: nat): Env {
    Env((k, platform, id) => if id == o.orderId then Answered(NotFound, None, None) else Failed, true, true, 1 + orders)
  }

  lemma {:induction false} OnlyMissesOne(s: Pass, o: Order, total: nat, orders: seq<Order>)
    requires s.checks + |orders| <= 1 + total && !s.timedOut
    requires forall r :: r in orders && r.orderId == o.orderId ==> r == o
    requires forall d :: d in s.found ==> d == MissingOrder(s.db, o)
    ensures var s' := PendingPass(OnlyMisses(o, total), s, orders);
      && s'.db == s.db && s'.checks == s.checks + |orders|
      && (forall d :: d in s'.found ==> d == MissingOrder(s.db, o))
      && (o in orders || s.found != [] ==> s'.found != [])
    decreases |orders|
  {
    if orders != [] {
      var env := OnlyMisses(o, total);
      assert orders[0] in orders;
      OnlyMissesOne(CheckPending(env, Tick(env, s), orders[0]), o, total, orders[1..]);
      assert forall r :: r in orders <==> r == orders[0] || r in orders[1..];
    }
  }

  lemma CollisionHidesAChange(db: Db, o: Order, p: Position) returns (env: Env)
    requires Unique(db) && Collides(db, o, p)
    ensures !MeasureTells(env, db)
  {
    var orders := PendingOrders(db.orders);
    env := OnlyMisses(o, |orders|);
    var s := AfterPending(env, db);
    OnlyOneOrder(db.orders, o);
    OnlyMissesOne(Tick(env, Begin(db)), o, |orders|, orders);
    var t := AfterPositions(env, db);
    assert t.db == db && t.found == s.found && t.found != [];
    FlagsJustOne(db, t.found, MissingOrder(db, o), p);
  }

  lemma OnlyOneOrder(orders: seq<Order>, o: Order)
    requires UniqueOrders(orders) && o in orders
    ensures forall r :: r in orders && r.orderId == o.orderId ==> r == o
  {
    forall r | r in orders && r.orderId == o.orderId
      ensures r == o
    {
      var i :| 0 <= i < |orders| && orders[i] == o;
      var j :| 0 <= j < |orders| && orders[j] == r;
    }
  }

  lemma FlagsJustOne(db: Db, found: seq<Discrepancy>, d: Discrepancy, p: Position)
    requires UniquePositions(db.positions) && p in db.positions && p.positionId == d.positionId
    requires found != [] && (forall e :: e in found ==> e == d) && !UnflaggedLive(p) && Flagged(p, d) != p
    ensures var end := FlagAll(db.positions, found);
      end != db.positions && PositionWork(end) == PositionWork(db.positions)
  {
    var end := FlagAll(db.positions, found);
    FlagAllLength(db.positions, found);
    OnlyOnePosition(db.positions, p);
    assert found[|found| - 1] in found;
    forall i | 0 <= i < |end|
      ensures end[i] == if db.positions[i] == p then Flagged(p, d) else db.positions[i]
    {
      FlagAllAt(db.positions, found, i);
      assert db.positions[i] in db.positions;
      var last := LastNaming(found, db.positions[i].positionId);
      if last.Some? {
        assert found[last.value] in found;
      }
    }
    var k :| 0 <= k < |db.positions| && db.positions[k] == p;
    assert end[k] != db.positions[k];
    NoMoreWork(db.positions, end);
    NoMoreWork(end, db.positions);
  }

  /**
   The measure tells of every run whether it changed anything exactly when no ids collide: then and only then is
   there no way for a run to change rows behind the measure's back.
   */
  lemma MeasureTellsIffNoCollision(db: Db)
    requires Unique(db)
    ensures (forall env :: MeasureTells(env, db)) <==> (forall o, p :: !Collides(db, o, p))
  {
    if forall o, p :: !Collides(db, o, p) {
      forall env
        ensures MeasureTells(env, db)
      {
        WithoutCollisionMeasureTells(env, db);
      }
    } else {
      var o, p :| Collides(db, o, p);
      var env := CollisionHidesAChange(db, o, p);
    }
  }

  lemma SinglePositionWork(p: Position)
    ensures PositionWork([p]) == PositionWeight(p)
  {
    assert PositionWork([p][1..]) == 0;
  }

  /**
   Disjoint ids are needed: when a closed position has the id of the pair of a missing order, the run flags
   that position, and the measure does not tell.
   */
  lemma CollidingIdsHideAChange(o: Order, p: Position)
    requires PendingLive(o) && p.status.Closed? && o.pairId == p.positionId
    ensures var env := Env((k, platform, id) => Answered(NotFound, None, None), true, true, 10);
      var db := Db([o], [p]);
      Reconcile(env, db).db != db && Measure(Reconcile(env, db).db) == Measure(db)
  {
    var env := Env((k, platform, id) => Answered(NotFound, None, None), true, true, 10);
    var db := Db([o], [p]);
    var s := Tick(env, Begin(db));
    assert PendingOrders([o]) == [o] by { assert PendingOrders([o][1..]) == []; }
    var s' := CheckPending(env, Tick(env, s), o);
    assert PendingPass(env, s, [o]) == s' by { assert PendingPass(env, s', [o][1..]) == s'; }
    assert FindSingleLeg([p], o.pairId).None?;
    assert AfterPending(env, db) == s' && s'.found == [MissingOrder(db, o)];
    assert ActivePositions([p], false) == [] by { assert ActivePositions([p][1..], false) == []; }
    var d := MissingOrder(db, o);
    assert FlagAll([p], [d]) == Flag([p], d) by { assert [d][..0] == []; }
    var end := Reconcile(env, db).db;
    assert end == Db([o], [Flagged(p, d)]);
    SinglePositionWork(p);
    SinglePositionWork(Flagged(p, d));
  }
}
