/** The reconciliation service: loops over the tables, updating rows, halt reasons and risk counters in place. */
module ReconciliationService {
  import opened Wrappers
  import opened Vwap
  import opened Reconciliation
  import opened ReconciliationHalt

  // ----- the ledger -----

  /** Buying pays the price of a contract, selling sets aside its complement. */
  function CalculateLegCapital(side: OrderSide, price: real, size: real): real {
    size * (if side.SellSide? then 1.0 - price else price)
  }

  function LegCapital(db: Db, p: Position, platform: Platform): real {
    var leg := LegOrder(db, p, platform);
    if leg.None? || leg.value.fillPrice.None? || leg.value.fillSize.None? then 0.0
    else
      var own := if platform.Kalshi? then p.kalshiSide else p.polymarketSide;
      CalculateLegCapital(if own.Some? then own.value else leg.value.side,
                          leg.value.fillPrice.value, leg.value.fillSize.value)
  }

  function PositionCapital(db: Db, p: Position): real {
    LegCapital(db, p, Kalshi) + LegCapital(db, p, Polymarket)
  }

  predicate TakesSlot(p: Position) {
    p.status.Open? || p.status.SingleLegExposed? || p.status.ExitPartial?
  }

  /** The positions of a mode that take a slot: flagged ones do not. */
  function Slots(positions: seq<Position>, isPaper: bool): nat {
    if positions == [] then 0
    else (if positions[0].isPaper == isPaper && TakesSlot(positions[0]) then 1 else 0) + Slots(positions[1..], isPaper)
  }

  /** The capital that the positions of a mode tie up: flagged ones do. */
  function Deployed(db: Db, positions: seq<Position>, isPaper: bool): real {
    if positions == [] then 0.0
    else
      (if positions[0].isPaper == isPaper && IsActive(positions[0].status) then PositionCapital(db, positions[0])
       else 0.0)
      + Deployed(db, positions[1..], isPaper)
  }

  /** A hedge of equal size, bought on one platform and sold on the other, ties up size * (1 - gross edge). */
  lemma HedgeCapital(db: Db, p: Position, buy: Platform, sell: Platform, size: real)
    requires buy != sell && LegOrder(db, p, buy).Some? && LegOrder(db, p, sell).Some?
    requires LegOrder(db, p, buy).value.fillSize == Some(size) && LegOrder(db, p, sell).value.fillSize == Some(size)
    requires LegOrder(db, p, buy).value.fillPrice.Some? && LegOrder(db, p, sell).value.fillPrice.Some?
    requires (if buy.Kalshi? then p.kalshiSide else p.polymarketSide) == Some(BuySide)
    requires (if sell.Kalshi? then p.kalshiSide else p.polymarketSide) == Some(SellSide)
    ensures var grossEdge := LegOrder(db, p, sell).value.fillPrice.value - LegOrder(db, p, buy).value.fillPrice.value;
      PositionCapital(db, p) == size * (1.0 - grossEdge)
  {
    var bought, sold := LegOrder(db, p, buy).value.fillPrice.value, LegOrder(db, p, sell).value.fillPrice.value;
    assert size * bought + size * (1.0 - sold) == size * (1.0 - (sold - bought));
  }

  lemma {:induction false} SlotsOfActive(positions: seq<Position>, isPaper: bool)
    ensures Slots(ActivePositions(positions, isPaper), isPaper) == Slots(positions, isPaper)
  {
    if positions != [] {
      SlotsOfActive(positions[1..], isPaper);
      var rest := ActivePositions(positions[1..], isPaper);
      assert [] + rest == rest && ([positions[0]] + rest)[1..] == rest;
    }
  }

  lemma {:induction false} DeployedByActive(db: Db, positions: seq<Position>, isPaper: bool)
    ensures Deployed(db, ActivePositions(positions, isPaper), isPaper) == Deployed(db, positions, isPaper)
  {
    if positions != [] {
      DeployedByActive(db, positions[1..], isPaper);
      var rest := ActivePositions(positions[1..], isPaper);
      assert [] + rest == rest && ([positions[0]] + rest)[1..] == rest;
    }
  }

  /** How many positions a discrepancy names: at most one, as ids are unique. */
  function Named(positions: seq<Position>, d: Discrepancy): nat {
    if positions == [] then 0 else (if positions[0].positionId == d.positionId then 1 else 0) + Named(positions[1..], d)
  }

  lemma {:induction false} NamedAtMostOnce(positions: seq<Position>, d: Discrepancy)
    requires forall i, j :: 0 <= i < j < |positions| ==> positions[i].positionId != positions[j].positionId
    ensures Named(positions, d) == if exists p :: p in positions && p.positionId == d.positionId then 1 else 0
  {
    if positions != [] {
      NamedAtMostOnce(positions[1..], d);
      assert forall p :: p in positions <==> p == positions[0] || p in positions[1..];
      forall p | p in positions[1..]
        ensures p.positionId != positions[0].positionId
      {
        var k :| 0 <= k < |positions[1..]| && positions[1..][k] == p;
        assert positions[k + 1] == p;
      }
    }
  }

  /** What one leg ties up, if its order is known and filled: the position's own side decides, else the order's. */
  ghost predicate LegTiesUp(db: Db, p: Position, platform: Platform, capital: real) {
    var leg := LegOrder(db, p, platform);
    if leg.None? || leg.value.fillPrice.None? || leg.value.fillSize.None? then capital == 0.0
    else
      var own := if platform == Kalshi then p.kalshiSide else p.polymarketSide;
      var price, size := leg.value.fillPrice.value, leg.value.fillSize.value;
      && (own == Some(BuySide) || (own.None? && leg.value.side == BuySide) ==> capital == size * price)
      && (own == Some(SellSide) || (own.None? && leg.value.side == SellSide) ==> capital == size * (1.0 - price))
  }

  /** One more position takes a slot if open, single-legged or partly exited, and ties up capital unless closed. */
  lemma {:induction false} LedgerOfOneMore(db: Db, positions: seq<Position>, p: Position, isPaper: bool,
                                           kalshi: real, polymarket: real)
    requires LegTiesUp(db, p, Kalshi, kalshi) && LegTiesUp(db, p, Polymarket, polymarket)
    ensures Slots(positions + [p], isPaper) == Slots(positions, isPaper) +
              if p.isPaper == isPaper && p.status != Closed && p.status != ReconciliationRequired then 1 else 0
    ensures Deployed(db, positions + [p], isPaper) == Deployed(db, positions, isPaper) +
              if p.isPaper == isPaper && p.status != Closed then kalshi + polymarket else 0.0
  {
    TiedUpByLegs(db, p, kalshi, polymarket);
    if positions == [] {
      assert [] + [p] == [p] && [p][1..] == [];
    } else {
      assert (positions + [p])[1..] == positions[1..] + [p];
      LedgerOfOneMore(db, positions[1..], p, isPaper, kalshi, polymarket);
    }
  }

  lemma TiedUpByLegs(db: Db, p: Position, kalshi: real, polymarket: real)
    requires LegTiesUp(db, p, Kalshi, kalshi) && LegTiesUp(db, p, Polymarket, polymarket)
    ensures PositionCapital(db, p) == kalshi + polymarket
  {
  }

  /** Flagging a position frees its slot and keeps its capital tied up. */
  lemma {:induction false} FlaggingFreesSlotsOnly(db: Db, positions: seq<Position>, d: Discrepancy, isPaper: bool)
    requires forall p :: p in positions && p.positionId == d.positionId ==> UnflaggedLive(p)
    ensures Deployed(db, Flag(positions, d), isPaper) == Deployed(db, positions, isPaper)
    ensures Slots(Flag(positions, d), isPaper)
         == Slots(positions, isPaper) - if isPaper then 0 else Named(positions, d)
  {
    if positions != [] {
      assert Flag(positions, d)[1..] == Flag(positions[1..], d);
      assert positions[0] in positions;
      FlaggingFreesSlotsOnly(db, positions[1..], d, isPaper);
      assert forall p :: p in positions <==> p == positions[0] || p in positions[1..];
      var p, p' := positions[0], Flag(positions, d)[0];
      assert PositionCapital(db, p') == PositionCapital(db, p);
    }
  }

  /** The part of the risk manager that reconciliation talks to. */
  class RiskManager {
    var halts: set<string>
    var liveOpenCount: nat
    var paperOpenCount: nat
    var liveCapital: real
    var paperCapital: real

    method HaltTrading(reason: string)
      modifies this`halts
      ensures halts == old(halts) + {reason}
    {
      halts := halts + {reason};
    }

    method ResumeTrading(reason: string)
      modifies this`halts
      ensures halts == old(halts) - {reason}
    {
      halts := halts - {reason};
    }

    method RecalculateFromPositions(openCount: nat, capitalDeployed: real, isPaper: bool)
      modifies this`liveOpenCount, this`liveCapital, this`paperOpenCount, this`paperCapital
      ensures liveOpenCount == (if isPaper then old(liveOpenCount) else openCount)
      ensures liveCapital == (if isPaper then old(liveCapital) else capitalDeployed)
      ensures paperOpenCount == (if isPaper then openCount else old(paperOpenCount))
      ensures paperCapital == (if isPaper then capitalDeployed else old(paperCapital))
    {
      if isPaper {
        paperOpenCount, paperCapital := openCount, capitalDeployed;
      } else {
        liveOpenCount, liveCapital := openCount, capitalDeployed;
      }
    }

    /** Gives back a slot and the returned capital; neither count goes below zero. */
    method ClosePosition(capitalReturned: real, isPaper: bool)
      modifies this`liveOpenCount, this`liveCapital, this`paperOpenCount, this`paperCapital
    {
      if isPaper {
        paperOpenCount := if paperOpenCount > 0 then paperOpenCount - 1 else 0;
        paperCapital := if paperCapital - capitalReturned < 0.0 then 0.0 else paperCapital - capitalReturned;
      } else {
        liveOpenCount := if liveOpenCount > 0 then liveOpenCount - 1 else 0;
        liveCapital := if liveCapital - capitalReturned < 0.0 then 0.0 else liveCapital - capitalReturned;
      }
    }
  }

  class StartupReconciliationService {
    const risk: RiskManager
    var orders: seq<Order>
    var positions: seq<Position>

    constructor (risk: RiskManager, db: Db)
      ensures this.risk == risk && Tables() == db
    {
      this.risk := risk;
      orders, positions := db.orders, db.positions;
    }

    function Tables(): Db
      reads this
    {
      Db(orders, positions)
    }

    function State(): Desk
      reads this, risk
    {
      Desk(Tables(), risk.halts)
    }

    /** The counters of both modes are those of the tables. */
    ghost predicate Balanced()
      reads this, risk
    {
      && risk.liveOpenCount == Slots(positions, false) && risk.liveCapital == Deployed(Tables(), positions, false)
      && risk.paperOpenCount == Slots(positions, true) && risk.paperCapital == Deployed(Tables(), positions, true)
    }

    method Reconcile(env: Env) returns (run: Pass)
      modifies this, risk
      ensures run == Reconciliation.Reconcile(env, old(Tables()))
      ensures State() == AfterRun(env, old(State()))
      ensures Balanced()
    {
      var s := Tick(env, Begin(Tables()));
      if !s.timedOut {
        s := ReconcilePendingOrders(env, s);
      }
      var expired := Expired(env, s);
      s := Tick(env, s);
      if !expired {
        s := ReconcileActivePositions(env, s);
      }
      if |s.found| > 0 {
        HandleDiscrepancies(s.found);
      } else {
        risk.ResumeTrading(RECONCILIATION_DISCREPANCY);
      }
      RecalculateRiskBudget();
      run := s.(db := Tables());
    }

    /** `s` carries the turn of the clock and of the connectors, and the counts of the run. */
    method ReconcilePendingOrders(env: Env, s: Pass) returns (s': Pass)
      requires s.db == Tables()
      modifies this`orders, this`positions
      ensures s' == PendingPass(env, s, PendingOrders(old(orders))) && s'.db == Tables()
    {
      var pendingOrders := PendingOrders(orders);
      s' := s;
      for n := 0 to |pendingOrders|
        invariant s'.db == Tables()
        invariant PendingPass(env, s', pendingOrders[n..]) == PendingPass(env, s, pendingOrders)
      {
        var expired := Expired(env, s');
        s' := Tick(env, s');
        if expired {
          return;
        }
        s' := ReconcilePendingOrder(env, s', pendingOrders[n]);
      }
    }

    method ReconcilePendingOrder(env: Env, s: Pass, order: Order) returns (s': Pass)
      requires s.db == Tables()
      modifies this`orders, this`positions
      ensures s' == CheckPending(env, s, order) && s'.db == Tables()
    {
      s' := s;
      if !env.Available(order.platform) {
        return;
      }
      s' := s'.(ordersVerified := s'.ordersVerified + 1);
      var answer := env.answers(s'.calls, order.platform, order.orderId);
      s' := s'.(calls := s'.calls + 1);
      if answer.Failed? {
        return;
      }
      if answer.status == IsFilled {
        orders := UpdateOrder(orders, order.orderId, Filled, answer.fillPrice, answer.fillSize);
        ResolvePendingFilledOrder(order);
        s' := s'.(pendingResolved := s'.pendingResolved + 1);
      } else if answer.status == IsCancelled || answer.status == IsRejected {
        var status := if answer.status == IsCancelled then Cancelled else Rejected;
        orders := UpdateOrder(orders, order.orderId, status, None, None);
        s' := s'.(pendingResolved := s'.pendingResolved + 1);
      } else if answer.status == NotFound {
        var matchingPosition := FindSingleLeg(positions, order.pairId);
        var positionId := if matchingPosition.Some? then matchingPosition.value.positionId else order.pairId;
        s' := s'.(found := s'.found + [Discrepancy(positionId, order.pairId, OrderNotFound, Pending)]);
      }
      s' := s'.(db := Tables());
    }

    method ResolvePendingFilledOrder(order: Order)
      modifies this`positions
      ensures positions ==
                var exposed := FindSingleLeg(old(positions), order.pairId);
                if exposed.Some? && Lacks(exposed.value, order.platform)
                then LinkOrder(old(positions), exposed.value.positionId, order.platform, order.orderId)
                else old(positions)
    {
      var matchingPosition := FindSingleLeg(positions, order.pairId);
      if matchingPosition.None? {
        return;
      }
      var position := matchingPosition.value;
      if order.platform.Kalshi? && position.kalshiOrderId.None? {
        positions := LinkOrder(positions, position.positionId, Kalshi, order.orderId);
      } else if order.platform.Polymarket? && position.polymarketOrderId.None? {
        positions := LinkOrder(positions, position.positionId, Polymarket, order.orderId);
      }
    }

    method ReconcileActivePositions(env: Env, s: Pass) returns (s': Pass)
      requires s.db == Tables()
      ensures s' == PositionPass(env, s, ActivePositions(positions, false)) && s'.db == Tables()
    {
      var activePositions := ActivePositions(positions, false);
      s' := s;
      for n := 0 to |activePositions|
        invariant s'.db == Tables()
        invariant PositionPass(env, s', activePositions[n..]) == PositionPass(env, s, activePositions)
      {
        if Expired(env, s') {
          s' := Tick(env, s');
          return;
        }
        s' := Look(env, s');
        s' := ReconcileActivePosition(env, s', activePositions[n]);
      }
    }

    method ReconcileActivePosition(env: Env, s: Pass, position: Position) returns (s': Pass)
      requires s.db == Tables()
      ensures s' == CheckPosition(env, s, position) && s'.db == Tables()
    {
      if position.status.ReconciliationRequired? {
        return s;
      }
      s' := VerifyLegs(env, s, position);
    }

    method VerifyLegs(env: Env, s: Pass, position: Position) returns (s': Pass)
      requires s.db == Tables()
      ensures s' == CheckLegs(env, s, position) && s'.db == Tables()
    {
      var kalshi := VerifyLeg(env, s, position, Kalshi);
      s' := VerifyLeg(env, kalshi, position, Polymarket);
    }

    method VerifyLeg(env: Env, s: Pass, position: Position, platform: Platform) returns (s': Pass)
      requires s.db == Tables()
      ensures s' == CheckLeg(env, s, position, platform) && s'.db == Tables()
    {
      s' := s;
      var order := LegOrder(Tables(), position, platform);
      if order.None? {
        return;
      }
      var local := order.value.status;
      if !env.Available(platform) {
        s' := s'.(found := s'.found + [Discrepancy(position.positionId, position.pairId, PlatformUnavailable, local)]);
        return;
      }
      var answer := env.answers(s'.calls, platform, order.value.orderId);
      s' := s'.(calls := s'.calls + 1);
      if answer.Failed? {
        return;
      }
      s' := s'.(ordersVerified := s'.ordersVerified + 1);
      var disc := CheckOrderDiscrepancy(local, answer.status);
      if disc.Some? {
        s' := s'.(found := s'.found + [Discrepancy(position.positionId, position.pairId, disc.value, local)]);
      }
    }

    method HandleDiscrepancies(discrepancies: seq<Discrepancy>)
      modifies this`positions, risk`halts
      ensures positions == FlagAll(old(positions), discrepancies)
      ensures risk.halts == old(risk.halts) + {RECONCILIATION_DISCREPANCY}
    {
      for n := 0 to |discrepancies|
        invariant positions == FlagAll(old(positions), discrepancies[..n])
        invariant risk.halts == old(risk.halts)
      {
        assert discrepancies[..n+1][..n] == discrepancies[..n];
        positions := Flag(positions, discrepancies[n]);
      }
      assert discrepancies[..|discrepancies|] == discrepancies;
      risk.HaltTrading(RECONCILIATION_DISCREPANCY);
    }

    method ResolveDiscrepancy(call: Call) returns (r: Result<(PositionStatus, nat), ResolveError>)
      modifies this, risk
      ensures State() == Resolve(old(State()), call)
      ensures NewStatus(old(Tables()), call).Err? ==>
                r == Err(NewStatus(old(Tables()), call).error) && unchanged(this) && unchanged(risk)
      ensures NewStatus(old(Tables()), call).Ok? ==>
                Balanced() && r == Ok((NewStatus(old(Tables()), call).value, CountFlagged(positions)))
    {
      var position := FindPosition(positions, call.positionId);
      if position.None? {
        return Err(PositionNotFound);
      }
      if !position.value.status.ReconciliationRequired? {
        return Err(NotFlagged);
      }
      var newStatus := Closed;
      if call.action.Acknowledge? {
        if position.value.context.None? {
          return Err(NoContext);
        }
        newStatus := position.value.context.value.recommendedStatus;
        positions := WithStatus(positions, call.positionId, newStatus);
      } else {
        positions := WithStatus(positions, call.positionId, Closed);
        risk.ClosePosition(0.0, position.value.isPaper);
      }
      var remaining := CountFlagged(positions);
      if remaining == 0 {
        risk.ResumeTrading(RECONCILIATION_DISCREPANCY);
      }
      RecalculateRiskBudget();
      return Ok((newStatus, remaining));
    }

    method RecalculateRiskBudget()
      modifies risk`liveOpenCount, risk`liveCapital, risk`paperOpenCount, risk`paperCapital
      ensures Balanced()
    {
      var openCount, capital := SumPositions(false);
      risk.RecalculateFromPositions(openCount, capital, false);
      openCount, capital := SumPositions(true);
      risk.RecalculateFromPositions(openCount, capital, true);
    }

    method SumPositions(isPaper: bool) returns (openCount: nat, capitalDeployed: real)
      ensures openCount == Slots(positions, isPaper)
      ensures capitalDeployed == Deployed(Tables(), positions, isPaper)
    {
      var active := ActivePositions(positions, isPaper);
      SlotsOfActive(positions, isPaper);
      DeployedByActive(Tables(), positions, isPaper);
      openCount, capitalDeployed := 0, 0.0;
      for n := 0 to |active|
        invariant openCount + Slots(active[n..], isPaper) == Slots(active, isPaper)
        invariant capitalDeployed + Deployed(Tables(), active[n..], isPaper) == Deployed(Tables(), active, isPaper)
      {
        assert active[n] in active;
        if TakesSlot(active[n]) {
          openCount := openCount + 1;
        }
        capitalDeployed := capitalDeployed + PositionCapital(Tables(), active[n]);
      }
    }
  }
}
