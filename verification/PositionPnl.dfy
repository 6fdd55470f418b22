/** Realized profit and residual size of a position, from the orders of its pair. */
module PositionPnl {
  import opened Wrappers
  import opened Vwap
  import opened Reals

  type Id = string

  datatype Side = Bought | Sold

  datatype OrderRow = OrderRow(orderId: Id, platform: Platform, fillPrice: Option<real>, fillSize: Option<real>)

  datatype EntryFill = EntryFill(fillPrice: Option<real>, fillSize: Option<real>)

  /** What a position says about one of its legs. */
  datatype Leg = Leg(orderId: Option<Id>, entry: Option<EntryFill>, side: Option<Side>, entryFeeRate: Option<real>)

  datatype Position = Position(kalshi: Leg, polymarket: Leg) {
    function LegOn(platform: Platform): Leg {
      if platform.Kalshi? then kalshi else polymarket
    }
  }

  predicate Filled(leg: Leg) {
    leg.entry.Some? && leg.entry.value.fillPrice.Some? && leg.entry.value.fillSize.Some?
  }

  predicate IsEntry(p: Position, o: OrderRow) {
    p.kalshi.orderId == Some(o.orderId) || p.polymarket.orderId == Some(o.orderId)
  }

  /** Whatever is filled and did not open the position closes it. */
  predicate IsExit(p: Position, o: OrderRow) {
    !IsEntry(p, o) && o.fillPrice.Some? && o.fillSize.Some?
  }

  function FeeRate(leg: Leg): real {
    if leg.entryFeeRate.Some? then leg.entryFeeRate.value else 0.0
  }

  function ExitOrders(p: Position, orders: seq<OrderRow>): (r: seq<OrderRow>)
    ensures forall o :: o in r <==> o in orders && IsExit(p, o)
  {
    if orders == [] then []
    else (if IsExit(p, orders[0]) then [orders[0]] else []) + ExitOrders(p, orders[1..])
  }

  // ----- the normal form -----

  /** The size that the exits of a platform closed. */
  function ExitSize(p: Position, orders: seq<OrderRow>, platform: Platform): real {
    if orders == [] then 0.0
    else
      (if IsExit(p, orders[0]) && orders[0].platform == platform then orders[0].fillSize.value else 0.0)
      + ExitSize(p, orders[1..], platform)
  }

  /** The money that changed hands in the exits of a platform. */
  function ExitNotional(p: Position, orders: seq<OrderRow>, platform: Platform): real {
    if orders == [] then 0.0
    else
      (if IsExit(p, orders[0]) && orders[0].platform == platform
       then Value(orders[0].fillSize.value, orders[0].fillPrice.value) else 0.0)
      + ExitNotional(p, orders[1..], platform)
  }

  function LegGross(leg: Leg, size: real, notional: real): real
    requires Filled(leg)
  {
    var cost := Value(size, leg.entry.value.fillPrice.value);
    if leg.side == Some(Bought) then notional - cost else cost - notional
  }

  function LegFees(leg: Leg, notional: real): real {
    Value(notional, FeeRate(leg))
  }

  function Gross(p: Position, orders: seq<OrderRow>): real
    requires Filled(p.kalshi) && Filled(p.polymarket)
  {
    LegGross(p.kalshi, ExitSize(p, orders, Kalshi), ExitNotional(p, orders, Kalshi))
    + LegGross(p.polymarket, ExitSize(p, orders, Polymarket), ExitNotional(p, orders, Polymarket))
  }

  function Fees(p: Position, orders: seq<OrderRow>, platform: Platform): real {
    LegFees(p.LegOn(platform), ExitNotional(p, orders, platform))
  }

  predicate Settleable(p: Position, orders: seq<OrderRow>) {
    Filled(p.kalshi) && Filled(p.polymarket) && exists o :: o in orders && IsExit(p, o)
  }

  /** Realized profit by sums: nothing before both legs are filled and something has been closed. */
  function NetPnl(p: Position, orders: seq<OrderRow>): Option<real> {
    if Settleable(p, orders)
    then Some(Gross(p, orders) - Fees(p, orders, Kalshi) - Fees(p, orders, Polymarket)) else None
  }

  // ----- the two implementations -----

  /** What one exit adds to gross profit and to fees. */
  function ExitGross(leg: Leg, o: OrderRow): real
    requires Filled(leg) && o.fillPrice.Some? && o.fillSize.Some?
  {
    if leg.side == Some(Bought)
    then Value(o.fillPrice.value - leg.entry.value.fillPrice.value, o.fillSize.value)
    else Value(leg.entry.value.fillPrice.value - o.fillPrice.value, o.fillSize.value)
  }

  function ExitFee(leg: Leg, o: OrderRow): real
    requires o.fillPrice.Some? && o.fillSize.Some?
  {
    Value(Value(o.fillPrice.value, o.fillSize.value), FeeRate(leg))
  }

  lemma {:induction false} SumsSkipEntries(p: Position, orders: seq<OrderRow>, platform: Platform)
    ensures ExitSize(p, ExitOrders(p, orders), platform) == ExitSize(p, orders, platform)
    ensures ExitNotional(p, ExitOrders(p, orders), platform) == ExitNotional(p, orders, platform)
  {
    if orders != [] {
      SumsSkipEntries(p, orders[1..], platform);
      var rest := ExitOrders(p, orders[1..]);
      assert [] + rest == rest && ([orders[0]] + rest)[1..] == rest;
    }
  }

  lemma LegGrossStep(leg: Leg, o: OrderRow, size: real, notional: real)
    requires Filled(leg) && o.fillPrice.Some? && o.fillSize.Some?
    ensures LegGross(leg, size + o.fillSize.value, notional + Value(o.fillSize.value, o.fillPrice.value))
         == LegGross(leg, size, notional) + ExitGross(leg, o)
  {
    var e, fp, fs := leg.entry.value.fillPrice.value, o.fillPrice.value, o.fillSize.value;
    Distributes(size, fs, e);
    Distributes(fp, e, fs);
    Distributes(e, fp, fs);
    assert Value(fs, fp) == Value(fp, fs) && Value(fs, e) == Value(e, fs);
  }

  lemma LegFeesStep(leg: Leg, o: OrderRow, notional: real)
    requires o.fillPrice.Some? && o.fillSize.Some?
    ensures LegFees(leg, notional + Value(o.fillSize.value, o.fillPrice.value))
         == LegFees(leg, notional) + ExitFee(leg, o)
  {
    Distributes(notional, Value(o.fillSize.value, o.fillPrice.value), FeeRate(leg));
    assert Value(o.fillSize.value, o.fillPrice.value) == Value(o.fillPrice.value, o.fillSize.value);
  }

  /** The sums over a longer prefix of the exits. */
  lemma SumsStep(p: Position, exits: seq<OrderRow>, n: nat, platform: Platform)
    requires n < |exits| && IsExit(p, exits[n])
    ensures var own := exits[n].platform == platform;
      && ExitSize(p, exits[..n+1], platform)
         == ExitSize(p, exits[..n], platform) + (if own then exits[n].fillSize.value else 0.0)
      && ExitNotional(p, exits[..n+1], platform)
         == ExitNotional(p, exits[..n], platform)
            + (if own then Value(exits[n].fillSize.value, exits[n].fillPrice.value) else 0.0)
  {
    assert exits[..n+1] == exits[..n] + [exits[n]];
    SumsOfConcatenation(p, exits[..n], [exits[n]], platform);
    assert [exits[n]][1..] == [];
    assert ExitSize(p, [exits[n]][1..], platform) == 0.0 && ExitNotional(p, [exits[n]][1..], platform) == 0.0;
  }

  lemma {:induction false} SumsOfConcatenation(p: Position, a: seq<OrderRow>, b: seq<OrderRow>, platform: Platform)
    ensures ExitSize(p, a + b, platform) == ExitSize(p, a, platform) + ExitSize(p, b, platform)
    ensures ExitNotional(p, a + b, platform) == ExitNotional(p, a, platform) + ExitNotional(p, b, platform)
  {
    if a == [] {
      assert a + b == b;
    } else {
      assert (a + b)[1..] == a[1..] + b;
      SumsOfConcatenation(p, a[1..], b, platform);
    }
  }

  /** Gross profit and fees over a longer prefix of the exits. */
  lemma PnlStep(p: Position, exits: seq<OrderRow>, n: nat)
    requires Filled(p.kalshi) && Filled(p.polymarket) && n < |exits| && IsExit(p, exits[n])
    ensures var o := exits[n]; var leg := p.LegOn(o.platform);
      && Gross(p, exits[..n+1]) == Gross(p, exits[..n]) + ExitGross(leg, o)
      && Fees(p, exits[..n+1], Kalshi)
         == Fees(p, exits[..n], Kalshi) + (if o.platform.Kalshi? then ExitFee(leg, o) else 0.0)
      && Fees(p, exits[..n+1], Polymarket)
         == Fees(p, exits[..n], Polymarket) + (if o.platform.Polymarket? then ExitFee(leg, o) else 0.0)
  {
    var o := exits[n];
    var leg := p.LegOn(o.platform);
    SumsStep(p, exits, n, Kalshi);
    SumsStep(p, exits, n, Polymarket);
    LegGrossStep(leg, o, ExitSize(p, exits[..n], o.platform), ExitNotional(p, exits[..n], o.platform));
    LegFeesStep(leg, o, ExitNotional(p, exits[..n], o.platform));
  }

  lemma NothingClosed(p: Position)
    requires Filled(p.kalshi) && Filled(p.polymarket)
    ensures Gross(p, []) == 0.0 && Fees(p, [], Kalshi) == 0.0 && Fees(p, [], Polymarket) == 0.0
  {
  }

  lemma ExitsDecide(p: Position, orders: seq<OrderRow>)
    ensures ExitOrders(p, orders) == [] <==> !(exists o :: o in orders && IsExit(p, o))
    ensures Filled(p.kalshi) && Filled(p.polymarket) ==> Gross(p, ExitOrders(p, orders)) == Gross(p, orders)
    ensures Fees(p, ExitOrders(p, orders), Kalshi) == Fees(p, orders, Kalshi)
    ensures Fees(p, ExitOrders(p, orders), Polymarket) == Fees(p, orders, Polymarket)
  {
    SumsSkipEntries(p, orders, Kalshi);
    SumsSkipEntries(p, orders, Polymarket);
    if ExitOrders(p, orders) != [] {
      assert ExitOrders(p, orders)[0] in ExitOrders(p, orders);
    }
  }

  function Running(p: Position, exits: seq<OrderRow>): real
    requires Filled(p.kalshi) && Filled(p.polymarket)
  {
    Gross(p, exits) - Fees(p, exits, Kalshi) - Fees(p, exits, Polymarket)
  }

  /** Adds the leg profit of the n-th exit and takes off its fee. */
  method AddExit(p: Position, exits: seq<OrderRow>, n: nat, totalPnl: real) returns (total': real)
    requires Filled(p.kalshi) && Filled(p.polymarket) && n < |exits| && IsExit(p, exits[n])
    requires totalPnl == Running(p, exits[..n])
    ensures total' == Running(p, exits[..n+1])
  {
    PnlStep(p, exits, n);
    var o := exits[n];
    var leg := if o.platform.Kalshi? then p.kalshi else p.polymarket;
    total' := totalPnl + ExitGross(leg, o);
    total' := total' - ExitFee(leg, o);
  }

  method ComputeRealizedPnl(p: Position, allPairOrders: seq<OrderRow>) returns (pnl: Option<real>)
    ensures pnl == NetPnl(p, allPairOrders)
  {
    if !Filled(p.kalshi) || !Filled(p.polymarket) {
      return None;
    }
    var exitOrders := ExitOrders(p, allPairOrders);
    ExitsDecide(p, allPairOrders);
    if |exitOrders| == 0 {
      return None;
    }
    var totalPnl := 0.0;
    NothingClosed(p);
    for n := 0 to |exitOrders|
      invariant totalPnl == Running(p, exitOrders[..n])
    {
      assert exitOrders[n] in exitOrders;
      totalPnl := AddExit(p, exitOrders, n, totalPnl);
    }
    assert exitOrders[..|exitOrders|] == exitOrders;
    assert exitOrders[0] in exitOrders;
    return Some(totalPnl);
  }

  datatype CapitalBreakdown = CapitalBreakdown(
    entryCapitalKalshi: Option<real>, entryCapitalPolymarket: Option<real>,
    feesKalshi: Option<real>, feesPolymarket: Option<real>, grossPnl: Option<real>, netPnl: Option<real>)

  /** A leg whose side is not known counts as bought here, though as sold for its profit. */
  function EntryCapital(leg: Leg): real
    requires Filled(leg)
  {
    var price := leg.entry.value.fillPrice.value;
    Value(leg.entry.value.fillSize.value, if leg.side == Some(Sold) then 1.0 - price else price)
  }

  /**
   The two readings of a leg without a side: capital as if bought, profit as if sold. They agree with reading it as
   sold throughout exactly when capital is the same either way, at a price of one half or for no contracts, and with
   reading it as bought throughout exactly when its exits brought what the entry had cost.
   */
  lemma UnknownSideIsReadBothWays(leg: Leg, size: real, notional: real)
    requires Filled(leg) && leg.side.None?
    ensures var bought, sold := leg.(side := Some(Bought)), leg.(side := Some(Sold));
      var e := leg.entry.value;
      && EntryCapital(leg) == EntryCapital(bought) && LegGross(leg, size, notional) == LegGross(sold, size, notional)
      && (EntryCapital(leg) == EntryCapital(sold) <==> e.fillPrice.value == 0.5 || e.fillSize.value == 0.0)
      && (LegGross(leg, size, notional) == LegGross(bought, size, notional) <==>
            notional == Value(size, e.fillPrice.value))
  {
    var q, p := leg.entry.value.fillSize.value, leg.entry.value.fillPrice.value;
    assert Value(q, p) - Value(q, 1.0 - p) == q * (2.0 * p - 1.0);
    ZeroProduct(q, 2.0 * p - 1.0);
  }

  /** A hedge of equal size ties up the size times one less the gross edge at entry. */
  lemma HedgeTiesUp(bought: Leg, sold: Leg)
    requires Filled(bought) && Filled(sold) && bought.side == Some(Bought) && sold.side == Some(Sold)
    requires bought.entry.value.fillSize == sold.entry.value.fillSize
    ensures EntryCapital(bought) + EntryCapital(sold) ==
            Value(sold.entry.value.fillSize.value,
                  1.0 - (sold.entry.value.fillPrice.value - bought.entry.value.fillPrice.value))
  {
    Distributes(bought.entry.value.fillPrice.value, 1.0 - sold.entry.value.fillPrice.value,
                bought.entry.value.fillSize.value);
  }

  lemma ZeroProduct(a: real, b: real)
    ensures a * b == 0.0 <==> a == 0.0 || b == 0.0
  {
  }

  /** Adds the n-th exit to the fees of its platform and to gross profit. */
  method BreakDownExit(p: Position, exits: seq<OrderRow>, n: nat,
                       feesKalshi: real, feesPolymarket: real, grossPnl: real)
    returns (feesKalshi': real, feesPolymarket': real, grossPnl': real)
    requires Filled(p.kalshi) && Filled(p.polymarket) && n < |exits| && IsExit(p, exits[n])
    requires grossPnl == Gross(p, exits[..n])
    requires feesKalshi == Fees(p, exits[..n], Kalshi) && feesPolymarket == Fees(p, exits[..n], Polymarket)
    ensures grossPnl' == Gross(p, exits[..n+1])
    ensures feesKalshi' == Fees(p, exits[..n+1], Kalshi) && feesPolymarket' == Fees(p, exits[..n+1], Polymarket)
  {
    PnlStep(p, exits, n);
    feesKalshi', feesPolymarket', grossPnl' := feesKalshi, feesPolymarket, grossPnl;
    var o := exits[n];
    if o.platform.Kalshi? {
      feesKalshi' := feesKalshi + ExitFee(p.kalshi, o);
      grossPnl' := grossPnl + ExitGross(p.kalshi, o);
    } else {
      feesPolymarket' := feesPolymarket + ExitFee(p.polymarket, o);
      grossPnl' := grossPnl + ExitGross(p.polymarket, o);
    }
  }

  method ComputeCapitalBreakdown(p: Position, allOrders: seq<OrderRow>) returns (b: CapitalBreakdown)
    ensures b.netPnl == NetPnl(p, allOrders)
    ensures b.grossPnl == if Settleable(p, allOrders) then Some(Gross(p, allOrders)) else None
    ensures if Filled(p.kalshi) && Filled(p.polymarket)
            then b.feesKalshi == Some(Fees(p, allOrders, Kalshi))
              && b.feesPolymarket == Some(Fees(p, allOrders, Polymarket))
              && b.entryCapitalKalshi == Some(EntryCapital(p.kalshi))
              && b.entryCapitalPolymarket == Some(EntryCapital(p.polymarket))
            else b == CapitalBreakdown(None, None, None, None, None, None)
  {
    if !Filled(p.kalshi) || !Filled(p.polymarket) {
      return CapitalBreakdown(None, None, None, None, None, None);
    }
    var exitOrders := ExitOrders(p, allOrders);
    ExitsDecide(p, allOrders);
    var feesKalshi, feesPolymarket, grossPnl := BreakDownExits(p, exitOrders);
    var netPnl := grossPnl - (feesKalshi + feesPolymarket);
    var hasExitOrders := |exitOrders| > 0;
    return CapitalBreakdown(
      Some(EntryCapital(p.kalshi)), Some(EntryCapital(p.polymarket)), Some(feesKalshi), Some(feesPolymarket),
      if hasExitOrders then Some(grossPnl) else None, if hasExitOrders then Some(netPnl) else None);
  }

  method BreakDownExits(p: Position, exits: seq<OrderRow>)
    returns (feesKalshi: real, feesPolymarket: real, grossPnl: real)
    requires Filled(p.kalshi) && Filled(p.polymarket) && forall o :: o in exits ==> IsExit(p, o)
    ensures grossPnl == Gross(p, exits)
    ensures feesKalshi == Fees(p, exits, Kalshi) && feesPolymarket == Fees(p, exits, Polymarket)
  {
    feesKalshi, feesPolymarket, grossPnl := 0.0, 0.0, 0.0;
    NothingClosed(p);
    for n := 0 to |exits|
      invariant grossPnl == Gross(p, exits[..n])
      invariant feesKalshi == Fees(p, exits[..n], Kalshi) && feesPolymarket == Fees(p, exits[..n], Polymarket)
    {
      assert exits[n] in exits;
      feesKalshi, feesPolymarket, grossPnl := BreakDownExit(p, exits, n, feesKalshi, feesPolymarket, grossPnl);
    }
    assert exits[..|exits|] == exits;
  }

  // ----- what the profit depends on -----

  lemma Cancel(x: OrderRow, a: multiset<OrderRow>, b: multiset<OrderRow>)
    requires multiset{x} + a == multiset{x} + b
    ensures a == b
  {
    assert a == (multiset{x} + a) - multiset{x};
    assert b == (multiset{x} + b) - multiset{x};
  }

  function Without(orders: seq<OrderRow>, k: nat): seq<OrderRow>
    requires k < |orders|
  {
    orders[..k] + orders[k+1..]
  }

  lemma WithoutOne(orders: seq<OrderRow>, k: nat)
    requires k < |orders|
    ensures multiset(orders) == multiset{orders[k]} + multiset(Without(orders, k))
  {
    assert orders == orders[..k] + [orders[k]] + orders[k+1..];
  }

  /** Taking one order out of the list changes the sums as taking it from the front does. */
  lemma SumsWithoutOne(p: Position, orders: seq<OrderRow>, k: nat, platform: Platform)
    requires k < |orders|
    ensures ExitSize(p, orders, platform) == ExitSize(p, [orders[k]] + Without(orders, k), platform)
    ensures ExitNotional(p, orders, platform) == ExitNotional(p, [orders[k]] + Without(orders, k), platform)
  {
    var x, y, one := orders[..k], orders[k+1..], [orders[k]];
    assert orders == x + (one + y);
    SumsOfConcatenation(p, x, one + y, platform);
    SumsOfConcatenation(p, one, y, platform);
    SumsOfConcatenation(p, one, x + y, platform);
    SumsOfConcatenation(p, x, y, platform);
  }

  lemma {:induction false} SumsOfPermutation(p: Position, a: seq<OrderRow>, b: seq<OrderRow>, platform: Platform)
    requires multiset(a) == multiset(b)
    ensures ExitSize(p, a, platform) == ExitSize(p, b, platform)
    ensures ExitNotional(p, a, platform) == ExitNotional(p, b, platform)
  {
    if a == [] {
      assert |multiset(b)| == 0;
    } else {
      assert a[0] in multiset(b);
      var k :| 0 <= k < |b| && b[k] == a[0];
      WithoutOne(a, 0);
      WithoutOne(b, k);
      assert Without(a, 0) == a[1..];
      Cancel(a[0], multiset(a[1..]), multiset(Without(b, k)));
      SumsOfPermutation(p, a[1..], Without(b, k), platform);
      SumsWithoutOne(p, b, k, platform);
      assert ([b[k]] + Without(b, k))[1..] == Without(b, k);
    }
  }

  /** The order in which orders are listed does not matter. */
  lemma PnlIgnoresOrder(p: Position, a: seq<OrderRow>, b: seq<OrderRow>)
    requires multiset(a) == multiset(b)
    ensures NetPnl(p, a) == NetPnl(p, b)
  {
    SumsOfPermutation(p, a, b, Kalshi);
    SumsOfPermutation(p, a, b, Polymarket);
    assert forall o :: o in a <==> o in multiset(a);
    assert forall o :: o in b <==> o in multiset(b);
  }

  /** `x` and `y` share out the fill of `o`: the same size and the same money in all. */
  ghost predicate Splits(p: Position, o: OrderRow, x: OrderRow, y: OrderRow) {
    && IsExit(p, o) && IsExit(p, x) && IsExit(p, y)
    && x.platform == y.platform == o.platform
    && x.fillSize.value + y.fillSize.value == o.fillSize.value
    && Value(x.fillSize.value, x.fillPrice.value) + Value(y.fillSize.value, y.fillPrice.value)
       == Value(o.fillSize.value, o.fillPrice.value)
  }

  /** Splitting one exit into two does not matter either. */
  lemma PnlIgnoresSplitting(p: Position, orders: seq<OrderRow>, i: nat, x: OrderRow, y: OrderRow)
    requires i < |orders| && Splits(p, orders[i], x, y)
    ensures NetPnl(p, orders[..i] + [x, y] + orders[i+1..]) == NetPnl(p, orders)
  {
    var before, after := orders[..i], orders[i+1..];
    var split := before + [x, y] + after;
    assert orders == before + [orders[i]] + after;
    forall platform: Platform
      ensures ExitSize(p, split, platform) == ExitSize(p, orders, platform)
      ensures ExitNotional(p, split, platform) == ExitNotional(p, orders, platform)
    {
      SumsOfConcatenation(p, before + [x, y], after, platform);
      SumsOfConcatenation(p, before, [x, y], platform);
      SumsOfConcatenation(p, before + [orders[i]], after, platform);
      SumsOfConcatenation(p, before, [orders[i]], platform);
      SplitSums(p, orders[i], x, y, platform);
    }
    assert x in split && orders[i] in orders;
  }

  lemma SplitSums(p: Position, o: OrderRow, x: OrderRow, y: OrderRow, platform: Platform)
    requires Splits(p, o, x, y)
    ensures ExitSize(p, [x, y], platform) == ExitSize(p, [o], platform)
    ensures ExitNotional(p, [x, y], platform) == ExitNotional(p, [o], platform)
  {
    assert [x, y][1..] == [y] && [y][1..] == [] && [o][1..] == [];
    assert ExitSize(p, [], platform) == 0.0 && ExitNotional(p, [], platform) == 0.0;
  }

  // ----- mark to market -----

  function CalculateLegPnl(side: Option<Side>, entryPrice: real, closePrice: real, size: real): real {
    if side == Some(Bought) then Value(closePrice - entryPrice, size) else Value(entryPrice - closePrice, size)
  }

  /** The prices at which the legs could be closed, and the taker fee rates there. */
  datatype Market = Market(closeKalshi: real, closePolymarket: real, feeKalshi: real, feePolymarket: real)

  /** What closing legs of the given sizes would bring, after taker fees. */
  function MarkedPnl(p: Position, kalshiSize: real, polymarketSize: real, m: Market): real
    requires Filled(p.kalshi) && Filled(p.polymarket)
  {
    CalculateLegPnl(p.kalshi.side, p.kalshi.entry.value.fillPrice.value, m.closeKalshi, kalshiSize)
    + CalculateLegPnl(p.polymarket.side, p.polymarket.entry.value.fillPrice.value, m.closePolymarket, polymarketSize)
    - (Value(Value(m.closeKalshi, kalshiSize), m.feeKalshi)
       + Value(Value(m.closePolymarket, polymarketSize), m.feePolymarket))
  }

  /** The profit that the dashboard marks: always that of the sizes at entry. */
  function CurrentPnl(p: Position, m: Market): real
    requires Filled(p.kalshi) && Filled(p.polymarket)
  {
    MarkedPnl(p, p.kalshi.entry.value.fillSize.value, p.polymarket.entry.value.fillSize.value, m)
  }

  /** The order closed part of the position: it is filled and is neither of the orders that opened it. */
  ghost predicate Closes(p: Position, o: OrderRow, price: real, size: real) {
    && p.kalshi.orderId != Some(o.orderId) && p.polymarket.orderId != Some(o.orderId)
    && o.fillPrice == Some(price) && o.fillSize == Some(size)
  }

  /** The fee rate recorded at entry, or none at all. */
  ghost predicate ChargedAt(leg: Leg, rate: real) {
    if leg.entryFeeRate.Some? then rate == leg.entryFeeRate.value else rate == 0.0
  }

  /** A position closed whole at the marked prices realizes its marked profit, if fees stay those of the entry. */
  lemma ClosingRealizesTheMark(p: Position, x: OrderRow, y: OrderRow, m: Market)
    requires Filled(p.kalshi) && Filled(p.polymarket) && x.platform.Kalshi? && y.platform.Polymarket?
    requires Closes(p, x, m.closeKalshi, FilledSize(p.kalshi)) && ChargedAt(p.kalshi, m.feeKalshi)
    requires Closes(p, y, m.closePolymarket, FilledSize(p.polymarket)) && ChargedAt(p.polymarket, m.feePolymarket)
    ensures NetPnl(p, [x, y]) == Some(CurrentPnl(p, m))
  {
    var exits := [x, y];
    assert x in exits;
    TwoExits(p, x, y);
  }

  lemma SumsOfOneMore(p: Position, orders: seq<OrderRow>, o: OrderRow, platform: Platform)
    requires IsExit(p, o)
    ensures var own := o.platform == platform;
      && ExitSize(p, orders + [o], platform) == ExitSize(p, orders, platform) + (if own then o.fillSize.value else 0.0)
      && ExitNotional(p, orders + [o], platform)
         == ExitNotional(p, orders, platform) + (if own then Value(o.fillSize.value, o.fillPrice.value) else 0.0)
  {
    SumsOfConcatenation(p, orders, [o], platform);
    assert [o][1..] == [];
  }

  /** One more exit adds what its own contracts brought over or under their entry, less the fee on the money. */
  lemma OneMoreExit(p: Position, orders: seq<OrderRow>, o: OrderRow, price: real, size: real, rate: real)
    requires Filled(p.kalshi) && Filled(p.polymarket) && Closes(p, o, price, size)
    requires ChargedAt(if o.platform.Kalshi? then p.kalshi else p.polymarket, rate)
    ensures var leg := if o.platform.Kalshi? then p.kalshi else p.polymarket;
      var entry, before := leg.entry.value.fillPrice.value, NetPnl(p, orders);
      NetPnl(p, orders + [o]) ==
      Some((if before.Some? then before.value else 0.0)
           + Value(if leg.side == Some(Bought) then price - entry else entry - price, size)
           - Value(Value(price, size), rate))
    ensures Fees(p, orders + [o], o.platform) == Fees(p, orders, o.platform) + Value(Value(price, size), rate)
  {
    assert o in orders + [o];
    RunningOfOneMore(p, orders, o, price, size, rate);
    if !Settleable(p, orders) {
      NothingExited(p, orders, Kalshi);
      NothingExited(p, orders, Polymarket);
      NothingClosed(p);
    }
  }

  lemma RunningOfOneMore(p: Position, orders: seq<OrderRow>, o: OrderRow, price: real, size: real, rate: real)
    requires Filled(p.kalshi) && Filled(p.polymarket) && Closes(p, o, price, size)
    requires ChargedAt(if o.platform.Kalshi? then p.kalshi else p.polymarket, rate)
    ensures var leg := if o.platform.Kalshi? then p.kalshi else p.polymarket;
      var entry := leg.entry.value.fillPrice.value;
      Running(p, orders + [o]) == Running(p, orders)
        + Value(if leg.side == Some(Bought) then price - entry else entry - price, size)
        - Value(Value(price, size), rate)
    ensures Fees(p, orders + [o], o.platform) == Fees(p, orders, o.platform) + Value(Value(price, size), rate)
  {
    SumsOfOneMore(p, orders, o, Kalshi);
    SumsOfOneMore(p, orders, o, Polymarket);
    var leg := p.LegOn(o.platform);
    LegGrossStep(leg, o, ExitSize(p, orders, o.platform), ExitNotional(p, orders, o.platform));
    LegFeesStep(leg, o, ExitNotional(p, orders, o.platform));
  }

  lemma {:induction false} NothingExited(p: Position, orders: seq<OrderRow>, platform: Platform)
    requires forall o :: o in orders ==> !IsExit(p, o)
    ensures ExitSize(p, orders, platform) == 0.0 && ExitNotional(p, orders, platform) == 0.0
  {
    if orders != [] {
      assert orders[0] in orders;
      NothingExited(p, orders[1..], platform);
    }
  }

  /** There is no profit yet exactly while a leg is unfilled or no order has closed anything. */
  lemma NoPnlIff(p: Position, orders: seq<OrderRow>)
    ensures NetPnl(p, orders).None? <==>
            || !Filled(p.kalshi) || !Filled(p.polymarket)
            || forall o, price, size :: o in orders ==> !Closes(p, o, price, size)
  {
    forall o | o in orders && IsExit(p, o)
      ensures Closes(p, o, o.fillPrice.value, o.fillSize.value)
    {
    }
  }

  /** The orders that opened the position, and those without a price or a size, do not change the profit. */
  lemma OtherOrdersDoNotCount(p: Position, orders: seq<OrderRow>, o: OrderRow)
    requires || p.kalshi.orderId == Some(o.orderId) || p.polymarket.orderId == Some(o.orderId)
             || o.fillPrice.None? || o.fillSize.None?
    ensures NetPnl(p, orders + [o]) == NetPnl(p, orders)
  {
    SumsOfConcatenation(p, orders, [o], Kalshi);
    SumsOfConcatenation(p, orders, [o], Polymarket);
    assert [o][1..] == [];
    assert forall r :: r in orders + [o] <==> r in orders || r == o;
  }

  lemma TwoExits(p: Position, x: OrderRow, y: OrderRow)
    requires Filled(p.kalshi) && Filled(p.polymarket) && IsExit(p, x) && IsExit(p, y)
    requires x.platform.Kalshi? && y.platform.Polymarket?
    ensures Gross(p, [x, y]) == ExitGross(p.kalshi, x) + ExitGross(p.polymarket, y)
    ensures Fees(p, [x, y], Kalshi) == ExitFee(p.kalshi, x) && Fees(p, [x, y], Polymarket) == ExitFee(p.polymarket, y)
  {
    var exits := [x, y];
    assert exits[..0] == [] && exits[..2] == exits;
    NothingClosed(p);
    PnlStep(p, exits, 0);
    PnlStep(p, exits, 1);
  }

  // ----- residual sizes -----

  function FilledSize(leg: Leg): real {
    if leg.entry.Some? && leg.entry.value.fillSize.Some? then leg.entry.value.fillSize.value else 0.0
  }

  /** The size of the fills on a platform that did not open the position, priced or not. */
  function Closed(p: Position, orders: seq<OrderRow>, platform: Platform): real {
    if orders == [] then 0.0
    else
      (if !IsEntry(p, orders[0]) && orders[0].fillSize.Some? && orders[0].platform == platform
       then orders[0].fillSize.value else 0.0)
      + Closed(p, orders[1..], platform)
  }

  datatype Residual = Residual(kalshi: real, polymarket: real, floored: bool)

  method GetResidualSize(p: Position, allPairOrders: seq<OrderRow>) returns (r: Residual)
    ensures r == ResidualOf(p, allPairOrders)
  {
    var kalshiExitSum, polymarketExitSum := 0.0, 0.0;
    for n := 0 to |allPairOrders|
      invariant kalshiExitSum + Closed(p, allPairOrders[n..], Kalshi) == Closed(p, allPairOrders, Kalshi)
      invariant polymarketExitSum + Closed(p, allPairOrders[n..], Polymarket) == Closed(p, allPairOrders, Polymarket)
    {
      var o := allPairOrders[n];
      if IsEntry(p, o) || o.fillSize.None? {
        continue;
      }
      if o.platform.Kalshi? {
        kalshiExitSum := kalshiExitSum + o.fillSize.value;
      } else {
        polymarketExitSum := polymarketExitSum + o.fillSize.value;
      }
    }
    var kalshiRaw, polymarketRaw := FilledSize(p.kalshi) - kalshiExitSum, FilledSize(p.polymarket) - polymarketExitSum;
    r := Residual(Max(kalshiRaw, 0.0), Max(polymarketRaw, 0.0), kalshiRaw < 0.0 || polymarketRaw < 0.0);
  }

  function ResidualOf(p: Position, orders: seq<OrderRow>): Residual {
    var k := FilledSize(p.kalshi) - Closed(p, orders, Kalshi);
    var m := FilledSize(p.polymarket) - Closed(p, orders, Polymarket);
    Residual(Max(k, 0.0), Max(m, 0.0), k < 0.0 || m < 0.0)
  }

  lemma {:induction false} ClosedSums(p: Position, a: seq<OrderRow>, b: seq<OrderRow>, platform: Platform)
    ensures Closed(p, a + b, platform) == Closed(p, a, platform) + Closed(p, b, platform)
  {
    if a == [] {
      assert a + b == b;
    } else {
      assert (a + b)[1..] == a[1..] + b;
      ClosedSums(p, a[1..], b, platform);
    }
  }

  lemma {:induction false} ClosedIsNonNegative(p: Position, orders: seq<OrderRow>, platform: Platform)
    requires forall i :: 0 <= i < |orders| && orders[i].fillSize.Some? ==> orders[i].fillSize.value >= 0.0
    ensures Closed(p, orders, platform) >= 0.0
  {
    if orders != [] {
      ClosedIsNonNegative(p, orders[1..], platform);
    }
  }

  /** What is left and what was closed make up what was opened, on both legs unless flooring says otherwise. */
  lemma ResidualAccountsForExits(p: Position, orders: seq<OrderRow>)
    ensures var r := ResidualOf(p, orders);
      && r.kalshi >= 0.0 && r.polymarket >= 0.0
      && (!r.floored <==> r.kalshi + Closed(p, orders, Kalshi) == FilledSize(p.kalshi)
                          && r.polymarket + Closed(p, orders, Polymarket) == FilledSize(p.polymarket))
  {
  }

  /** Any other filled order, priced or not, takes its size off the leg on its platform, down to zero. */
  lemma ResidualOfOneMore(p: Position, orders: seq<OrderRow>, o: OrderRow, platform: Platform)
    ensures var atEntry := if platform.Kalshi? then FilledSize(p.kalshi) else FilledSize(p.polymarket);
      var entry := p.kalshi.orderId == Some(o.orderId) || p.polymarket.orderId == Some(o.orderId);
      var r, closed := ResidualOf(p, orders + [o]), Closed(p, orders, platform);
      (if platform.Kalshi? then r.kalshi else r.polymarket) ==
      Max(atEntry - closed
          - (if entry || o.platform != platform || o.fillSize.None? then 0.0 else o.fillSize.value), 0.0)
  {
    ClosedSums(p, orders, [o], platform);
    assert [o][1..] == [] && Closed(p, [], platform) == 0.0;
  }

  /** Further orders never make a residual grow. */
  lemma ResidualNeverGrows(p: Position, orders: seq<OrderRow>, more: seq<OrderRow>)
    requires forall i :: 0 <= i < |more| && more[i].fillSize.Some? ==> more[i].fillSize.value >= 0.0
    ensures var r, r' := ResidualOf(p, orders), ResidualOf(p, orders + more);
      r'.kalshi <= r.kalshi && r'.polymarket <= r.polymarket && (r.floored ==> r'.floored)
  {
    ClosedSums(p, orders, more, Kalshi);
    ClosedSums(p, orders, more, Polymarket);
    ClosedIsNonNegative(p, more, Kalshi);
    ClosedIsNonNegative(p, more, Polymarket);
  }
}
