/**
 Startup reconciliation of local orders and positions with what the platforms report: the effect of one
 run, as a function of the tables and of the answers that the run gets.
 */
module Reconciliation {
  import opened Wrappers
  import opened Vwap

  type Id = string

  datatype OrderSide = BuySide | SellSide

  datatype OrderStatus = Pending | Filled | PartiallyFilled | Rejected | Cancelled

  datatype PositionStatus = Open | SingleLegExposed | ExitPartial | Closed | ReconciliationRequired

  /** The status of an order as a platform reports it. */
  datatype PlatformStatus = IsFilled | IsPending | IsCancelled | IsRejected | IsPartial | NotFound

  datatype DiscrepancyType = OrderStatusMismatch | OrderNotFound | PendingFilled | PlatformUnavailable

  datatype Context = Context(recommendedStatus: PositionStatus, discrepancyType: DiscrepancyType)

  datatype Order = Order(
    orderId: Id, platform: Platform, pairId: Id, side: OrderSide, status: OrderStatus,
    fillPrice: Option<real>, fillSize: Option<real>, isPaper: bool)

  datatype Position = Position(
    positionId: Id, pairId: Id, status: PositionStatus, isPaper: bool,
    kalshiOrderId: Option<Id>, polymarketOrderId: Option<Id>,
    kalshiSide: Option<OrderSide>, polymarketSide: Option<OrderSide>, context: Option<Context>)

  datatype Db = Db(orders: seq<Order>, positions: seq<Position>)

  datatype Discrepancy = Discrepancy(
    positionId: Id, pairId: Id, discrepancyType: DiscrepancyType, localState: OrderStatus)

  /** A call that throws or takes too long fails; a fill need not carry a price or a size. */
  datatype Answer = Failed | Answered(status: PlatformStatus, fillPrice: Option<real>, fillSize: Option<real>)

  /**
   What a run meets: the answer to its k-th call, which platforms are connected, and how many of its
   timeout checks come before the time is up.
   */
  datatype Env = Env(
    answers: (nat, Platform, Id) -> Answer, kalshiAvailable: bool, polymarketAvailable: bool, deadline: nat) {

    predicate Available(platform: Platform) {
      if platform.Kalshi? then kalshiAvailable else polymarketAvailable
    }
  }

  /** A run in progress. */
  datatype Pass = Pass(
    db: Db, checks: nat, calls: nat, timedOut: bool,
    positionsChecked: nat, ordersVerified: nat, pendingResolved: nat, found: seq<Discrepancy>)

  predicate IsActive(status: PositionStatus) {
    status != Closed
  }

  predicate PendingLive(o: Order) {
    o.status.Pending? && !o.isPaper
  }

  predicate SingleLegLive(p: Position) {
    p.status.SingleLegExposed? && !p.isPaper
  }

  predicate UnflaggedLive(p: Position) {
    IsActive(p.status) && !p.status.ReconciliationRequired? && !p.isPaper
  }

  predicate FlaggedLive(p: Position) {
    p.status.ReconciliationRequired? && !p.isPaper
  }

  // ----- queries -----

  function PendingOrders(orders: seq<Order>): (r: seq<Order>)
    ensures forall o :: o in r <==> o in orders && PendingLive(o)
  {
    if orders == [] then [] else (if PendingLive(orders[0]) then [orders[0]] else []) + PendingOrders(orders[1..])
  }

  function ActivePositions(positions: seq<Position>, isPaper: bool): (r: seq<Position>)
    ensures forall p :: p in r <==> p in positions && IsActive(p.status) && p.isPaper == isPaper
  {
    if positions == [] then []
    else
      (if IsActive(positions[0].status) && positions[0].isPaper == isPaper then [positions[0]] else [])
      + ActivePositions(positions[1..], isPaper)
  }

  function FindOrder(orders: seq<Order>, id: Option<Id>): (r: Option<Order>)
    ensures r.Some? ==> r.value in orders && id == Some(r.value.orderId)
  {
    if id.None? || orders == [] then None
    else if orders[0].orderId == id.value then Some(orders[0])
    else FindOrder(orders[1..], id)
  }

  /** The first live single-leg position of a pair. */
  function FindSingleLeg(positions: seq<Position>, pairId: Id): (r: Option<Position>)
    ensures r.Some? ==> r.value in positions && SingleLegLive(r.value) && r.value.pairId == pairId
    ensures r.None? ==> forall p :: p in positions && SingleLegLive(p) ==> p.pairId != pairId
  {
    if positions == [] then None
    else if SingleLegLive(positions[0]) && positions[0].pairId == pairId then Some(positions[0])
    else FindSingleLeg(positions[1..], pairId)
  }

  // ----- updates -----

  function Settled(o: Order, status: OrderStatus, fillPrice: Option<real>, fillSize: Option<real>): Order {
    o.(status := status,
       fillPrice := if fillPrice.Some? then fillPrice else o.fillPrice,
       fillSize := if fillSize.Some? then fillSize else o.fillSize)
  }

  function UpdateOrder(orders: seq<Order>, id: Id, status: OrderStatus,
                       fillPrice: Option<real>, fillSize: Option<real>): seq<Order>
  {
    seq(|orders|, i requires 0 <= i < |orders| =>
      if orders[i].orderId == id then Settled(orders[i], status, fillPrice, fillSize) else orders[i])
  }

  function Linked(p: Position, platform: Platform, orderId: Id): Position {
    if platform.Kalshi? then p.(kalshiOrderId := Some(orderId), status := Open)
    else p.(polymarketOrderId := Some(orderId), status := Open)
  }

  function LinkOrder(positions: seq<Position>, id: Id, platform: Platform, orderId: Id): seq<Position> {
    seq(|positions|, i requires 0 <= i < |positions| =>
      if positions[i].positionId == id then Linked(positions[i], platform, orderId) else positions[i])
  }

  function RecommendedStatus(kind: DiscrepancyType): PositionStatus {
    match kind
    case PendingFilled => Open
    case PlatformUnavailable => Open
    case _ => Closed
  }

  function Flagged(p: Position, d: Discrepancy): Position {
    p.(status := ReconciliationRequired,
       context := Some(Context(RecommendedStatus(d.discrepancyType), d.discrepancyType)))
  }

  /** Flags the position a discrepancy names; one that does not exist is left alone. */
  function Flag(positions: seq<Position>, d: Discrepancy): seq<Position> {
    seq(|positions|, i requires 0 <= i < |positions| =>
      if positions[i].positionId == d.positionId then Flagged(positions[i], d) else positions[i])
  }

  function FlagAll(positions: seq<Position>, found: seq<Discrepancy>): seq<Position> {
    if found == [] then positions else Flag(FlagAll(positions, found[..|found|-1]), found[|found|-1])
  }

  // ----- pending orders -----

  /** The leg that a filled order may complete: a live single-leg position of its pair that lacks that leg. */
  predicate Lacks(p: Position, platform: Platform) {
    if platform.Kalshi? then p.kalshiOrderId.None? else p.polymarketOrderId.None?
  }

  function FillOrder(db: Db, o: Order, fillPrice: Option<real>, fillSize: Option<real>): Db {
    var orders := UpdateOrder(db.orders, o.orderId, Filled, fillPrice, fillSize);
    var exposed := FindSingleLeg(db.positions, o.pairId);
    if exposed.Some? && Lacks(exposed.value, o.platform) then
      Db(orders, LinkOrder(db.positions, exposed.value.positionId, o.platform, o.orderId))
    else Db(orders, db.positions)
  }

  function MissingOrder(db: Db, o: Order): Discrepancy {
    var exposed := FindSingleLeg(db.positions, o.pairId);
    Discrepancy(if exposed.Some? then exposed.value.positionId else o.pairId, o.pairId, OrderNotFound, Pending)
  }

  function CheckPending(env: Env, s: Pass, o: Order): Pass {
    if !env.Available(o.platform) then s
    else
      var answer := env.answers(s.calls, o.platform, o.orderId);
      var s' := s.(calls := s.calls + 1, ordersVerified := s.ordersVerified + 1);
      if answer.Failed? then s'
      else
        match answer.status
        case IsFilled =>
          s'.(db := FillOrder(s.db, o, answer.fillPrice, answer.fillSize), pendingResolved := s.pendingResolved + 1)
        case IsCancelled =>
          s'.(db := s.db.(orders := UpdateOrder(s.db.orders, o.orderId, Cancelled, None, None)),
              pendingResolved := s.pendingResolved + 1)
        case IsRejected =>
          s'.(db := s.db.(orders := UpdateOrder(s.db.orders, o.orderId, Rejected, None, None)),
              pendingResolved := s.pendingResolved + 1)
        case NotFound => s'.(found := s.found + [MissingOrder(s.db, o)])
        case _ => s'
  }

  /** A timeout check; the time, once up, stays up. */
  function Tick(env: Env, s: Pass): Pass {
    s.(checks := s.checks + 1, timedOut := s.timedOut || s.checks >= env.deadline)
  }

  predicate Expired(env: Env, s: Pass) {
    s.checks >= env.deadline
  }

  function PendingPass(env: Env, s: Pass, orders: seq<Order>): Pass
    decreases |orders|
  {
    if orders == [] then s
    else if Expired(env, s) then Tick(env, s)
    else PendingPass(env, CheckPending(env, Tick(env, s), orders[0]), orders[1..])
  }

  // ----- active positions -----

  function MapStatus(status: PlatformStatus): OrderStatus
    requires !status.NotFound?
  {
    match status
    case IsFilled => Filled
    case IsPending => Pending
    case IsCancelled => Cancelled
    case IsRejected => Rejected
    case IsPartial => PartiallyFilled
  }

  function CheckOrderDiscrepancy(local: OrderStatus, status: PlatformStatus): Option<DiscrepancyType> {
    if status.NotFound? then Some(OrderNotFound)
    else if MapStatus(status) == local then None
    else if local.Pending? && status.IsFilled? then Some(PendingFilled)
    else Some(OrderStatusMismatch)
  }

  function LegOrder(db: Db, p: Position, platform: Platform): Option<Order> {
    FindOrder(db.orders, if platform.Kalshi? then p.kalshiOrderId else p.polymarketOrderId)
  }

  function CheckLeg(env: Env, s: Pass, p: Position, platform: Platform): Pass {
    var leg := LegOrder(s.db, p, platform);
    if leg.None? then s
    else if !env.Available(platform) then
      s.(found := s.found + [Discrepancy(p.positionId, p.pairId, PlatformUnavailable, leg.value.status)])
    else
      var answer := env.answers(s.calls, platform, leg.value.orderId);
      if answer.Failed? then s.(calls := s.calls + 1)
      else
        var kind := CheckOrderDiscrepancy(leg.value.status, answer.status);
        s.(calls := s.calls + 1, ordersVerified := s.ordersVerified + 1,
           found := s.found + if kind.None? then []
                              else [Discrepancy(p.positionId, p.pairId, kind.value, leg.value.status)])
  }

  function CheckLegs(env: Env, s: Pass, p: Position): Pass {
    CheckLeg(env, CheckLeg(env, s, p, Kalshi), p, Polymarket)
  }

  function CheckPosition(env: Env, s: Pass, p: Position): Pass {
    if p.status.ReconciliationRequired? then s else CheckLegs(env, s, p)
  }

  /** A timeout check that lets the run look at one more position. */
  function Look(env: Env, s: Pass): Pass {
    Tick(env, s).(positionsChecked := s.positionsChecked + 1)
  }

  function PositionPass(env: Env, s: Pass, positions: seq<Position>): Pass
    decreases |positions|
  {
    if positions == [] then s
    else if Expired(env, s) then Tick(env, s)
    else PositionPass(env, CheckPosition(env, Look(env, s), positions[0]), positions[1..])
  }

  // ----- a whole run -----

  function Begin(db: Db): Pass {
    Pass(db, 0, 0, false, 0, 0, 0, [])
  }

  function AfterPending(env: Env, db: Db): Pass {
    var s := Tick(env, Begin(db));
    if s.timedOut then s else PendingPass(env, s, PendingOrders(db.orders))
  }

  function AfterPositions(env: Env, db: Db): Pass {
    var s := AfterPending(env, db);
    if Expired(env, s) then Tick(env, s)
    else PositionPass(env, Tick(env, s), ActivePositions(s.db.positions, false))
  }

  /** The run up to and including the flagging of what it found. */
  function Reconcile(env: Env, db: Db): Pass {
    var s := AfterPositions(env, db);
    s.(db := s.db.(positions := FlagAll(s.db.positions, s.found)))
  }
}
