/**
 Filling a position against an order book: the greedy walk over the levels, and what is best about it.
 */
module Vwap {
  import opened Wrappers
  import opened Levels
  import opened Reals

  datatype Platform = Kalshi | Polymarket

  datatype NormalizedOrderBook = NormalizedOrderBook(
    platform: Platform, contractId: string, bids: seq<PriceLevel>, asks: seq<PriceLevel>)

  datatype CloseSide = Buy | Sell

  datatype VwapFillResult = VwapFillResult(vwap: real, filledQty: real, totalQtyAvailable: real)

  /** What `quantity` contracts at `price` are worth. */
  function Value(quantity: real, price: real): real {
    quantity * price
  }

  function Total(levels: seq<PriceLevel>): real {
    if levels == [] then 0.0 else levels[0].quantity + Total(levels[1..])
  }

  /** What the greedy walk pays for `q` contracts, best level first. */
  function Cost(levels: seq<PriceLevel>, q: real): real {
    if levels == [] || q <= 0.0 then 0.0
    else
      var fill := Min(q, levels[0].quantity);
      Value(fill, levels[0].price) + Cost(levels[1..], q - fill)
  }

  /** What is left of `q` after the walk. */
  function Unfilled(levels: seq<PriceLevel>, q: real): real {
    if levels == [] || q <= 0.0 then q else Unfilled(levels[1..], q - Min(q, levels[0].quantity))
  }

  function Walked(book: NormalizedOrderBook, closeSide: CloseSide): seq<PriceLevel> {
    if closeSide.Buy? then book.bids else book.asks
  }

  function Fill(levels: seq<PriceLevel>, size: real): Option<VwapFillResult> {
    var filled := size - Unfilled(levels, size);
    if size <= 0.0 || levels == [] || filled == 0.0 then None
    else Some(VwapFillResult(Cost(levels, size) / filled, filled, Total(levels)))
  }

  method CalculateVwapWithFillInfo(book: NormalizedOrderBook, closeSide: CloseSide, positionSize: real)
    returns (r: Option<VwapFillResult>)
    ensures r == Fill(Walked(book, closeSide), positionSize)
  {
    if positionSize <= 0.0 {
      return None;
    }
    var levels := if closeSide.Buy? then book.bids else book.asks;
    if |levels| == 0 {
      return None;
    }
    var totalQtyAvailable := SumQuantities(levels);
    var remainingQty, totalCost := WalkLevels(levels, positionSize);
    var filledQty := positionSize - remainingQty;
    if filledQty == 0.0 {
      return None;
    }
    return Some(VwapFillResult(totalCost / filledQty, filledQty, totalQtyAvailable));
  }

  method SumQuantities(levels: seq<PriceLevel>) returns (totalQtyAvailable: real)
    ensures totalQtyAvailable == Total(levels)
  {
    totalQtyAvailable := 0.0;
    for i := 0 to |levels|
      invariant totalQtyAvailable + Total(levels[i..]) == Total(levels)
    {
      totalQtyAvailable := totalQtyAvailable + levels[i].quantity;
    }
  }

  method WalkLevels(levels: seq<PriceLevel>, positionSize: real) returns (remainingQty: real, totalCost: real)
    requires positionSize > 0.0
    ensures remainingQty == Unfilled(levels, positionSize) && totalCost == Cost(levels, positionSize)
  {
    remainingQty, totalCost := positionSize, 0.0;
    var i := 0;
    while i < |levels|
      invariant i <= |levels|
      invariant totalCost + Cost(levels[i..], remainingQty) == Cost(levels, positionSize)
      invariant Unfilled(levels[i..], remainingQty) == Unfilled(levels, positionSize)
      invariant remainingQty > 0.0
    {
      assert levels[i..][1..] == levels[i+1..];
      var fillAtLevel := Min(remainingQty, levels[i].quantity);
      totalCost := totalCost + Value(fillAtLevel, levels[i].price);
      remainingQty := remainingQty - fillAtLevel;
      i := i + 1;
      if remainingQty <= 0.0 {
        break;
      }
    }
  }

  // ----- how much is filled -----

  lemma {:induction false} FillsWhatThereIs(levels: seq<PriceLevel>, q: real)
    requires NonNegative(levels) && q >= 0.0
    ensures Total(levels) >= 0.0
    ensures q - Unfilled(levels, q) == Min(q, Total(levels))
    ensures Cost(levels, q) == Cost(levels, Min(q, Total(levels)))
  {
    if levels != [] {
      var fill := Min(q, levels[0].quantity);
      assert NonNegative(levels[1..]);
      FillsWhatThereIs(levels[1..], q - fill);
      var q' := Min(q, Total(levels));
      var fill' := Min(q', levels[0].quantity);
      FillsWhatThereIs(levels[1..], q' - fill');
    }
  }

  // ----- greedy is optimal -----

  /** Another way to fill: a quantity from each level, within what the level offers. */
  ghost predicate Feasible(levels: seq<PriceLevel>, alloc: seq<real>) {
    |alloc| == |levels| && forall i :: 0 <= i < |alloc| ==> 0.0 <= alloc[i] <= levels[i].quantity
  }

  function Sum(alloc: seq<real>): real {
    if alloc == [] then 0.0 else alloc[0] + Sum(alloc[1..])
  }

  function AllocationCost(levels: seq<PriceLevel>, alloc: seq<real>): real
    requires |alloc| == |levels|
  {
    if levels == [] then 0.0 else Value(alloc[0], levels[0].price) + AllocationCost(levels[1..], alloc[1..])
  }

  lemma DearerCostsMore(x: real, a: real, b: real)
    requires x >= 0.0 && a <= b
    ensures Value(x, a) <= Value(x, b)
  {
  }

  lemma {:induction false} TotalIsNonNegative(levels: seq<PriceLevel>)
    requires NonNegative(levels)
    ensures Total(levels) >= 0.0
  {
    if levels != [] {
      TotalIsNonNegative(levels[1..]);
    }
  }

  /** The first step of the walk. */
  lemma WalkStep(levels: seq<PriceLevel>, q: real)
    requires levels != [] && q >= 0.0 && levels[0].quantity >= 0.0
    ensures var fill := Min(q, levels[0].quantity);
      0.0 <= fill <= q && Cost(levels, q) == Value(fill, levels[0].price) + Cost(levels[1..], q - fill)
  {
  }

  lemma MarginalStep(x: real, y: real, fx: real, fy: real, p: real, p0: real, cx: real, cy: real)
    requires fx <= fy && p <= p0 && cy - cx >= Value((y - fy) - (x - fx), p)
    ensures (Value(fy, p0) + cy) - (Value(fx, p0) + cx) >= Value(y - x, p)
  {
    DearerCostsMore(fy - fx, p, p0);
    Distributes(fy, fx, p0);
    Distributes(y - x, fy - fx, p);
    assert (y - x) - (fy - fx) == (y - fy) - (x - fx);
  }

  lemma FirstLevelTakes(x: real, y: real, c: real, rest: real)
    requires 0.0 <= x <= y <= c + rest && c >= 0.0 && rest >= 0.0
    ensures Min(x, c) <= Min(y, c) && 0.0 <= x - Min(x, c) <= y - Min(y, c) <= rest
  {
  }

  /** With no price below `p`, `y - x` further contracts cost at least `p` each. */
  lemma {:induction false} MarginalCost(levels: seq<PriceLevel>, x: real, y: real, p: real)
    requires NonNegative(levels) && 0.0 <= x <= y <= Total(levels)
    requires forall i :: 0 <= i < |levels| ==> levels[i].price >= p
    ensures Cost(levels, y) - Cost(levels, x) >= Value(y - x, p)
  {
    if levels != [] {
      var c, p0 := levels[0].quantity, levels[0].price;
      var fx, fy := Min(x, c), Min(y, c);
      WalkStep(levels, x);
      WalkStep(levels, y);
      TotalIsNonNegative(levels[1..]);
      FirstLevelTakes(x, y, c, Total(levels[1..]));
      assert NonNegative(levels[1..]) && forall i :: 0 <= i < |levels[1..]| ==> levels[1..][i] == levels[i + 1];
      MarginalCost(levels[1..], x - fx, y - fy, p);
      MarginalStep(x, y, fx, fy, p, p0, Cost(levels[1..], x - fx), Cost(levels[1..], y - fy));
    }
  }

  lemma {:induction false} AllocationIsWithinTotal(levels: seq<PriceLevel>, alloc: seq<real>)
    requires Feasible(levels, alloc)
    ensures 0.0 <= Sum(alloc) <= Total(levels)
  {
    if levels != [] {
      AllocationIsWithinTotal(levels[1..], alloc[1..]);
    }
  }

  /** On ascending asks no way of filling the same quantity costs less than the greedy walk. */
  lemma {:induction false} GreedyIsCheapest(levels: seq<PriceLevel>, alloc: seq<real>)
    requires Sorted(Ascending, levels) && NonNegative(levels) && Feasible(levels, alloc)
    ensures Cost(levels, Sum(alloc)) <= AllocationCost(levels, alloc)
  {
    if levels != [] {
      var rest, q, a := levels[1..], Sum(alloc), alloc[0];
      var fill := Min(q, levels[0].quantity);
      AllocationIsWithinTotal(rest, alloc[1..]);
      WalkStep(levels, q);
      GreedyIsCheapest(rest, alloc[1..]);
      RestIsNoCheaper(levels);
      MarginalCost(rest, q - fill, q - a, levels[0].price);
      GreedyStep(q, a, fill, levels[0].price, Cost(rest, q - fill), Cost(rest, q - a));
    }
  }

  lemma GreedyStep(q: real, a: real, fill: real, p0: real, c: real, c': real)
    requires c' - c >= Value((q - a) - (q - fill), p0)
    ensures Value(fill, p0) + c <= Value(a, p0) + c'
  {
    Distributes(fill, a, p0);
    assert (q - a) - (q - fill) == fill - a;
  }

  lemma RestIsNoCheaper(levels: seq<PriceLevel>)
    requires Sorted(Ascending, levels) && levels != []
    ensures forall i :: 0 <= i < |levels| ==> levels[i].price >= levels[0].price
  {
    forall i | 0 < i < |levels|
      ensures levels[i].price >= levels[0].price
    {
      assert Before(Ascending, levels[0], levels[i]);
    }
  }

  lemma Distributes(x: real, y: real, p: real)
    ensures Value(x - y, p) == Value(x, p) - Value(y, p)
    ensures Value(x + y, p) == Value(x, p) + Value(y, p)
  {
  }

  function Negate(levels: seq<PriceLevel>): seq<PriceLevel> {
    seq(|levels|, i requires 0 <= i < |levels| => PriceLevel(-levels[i].price, levels[i].quantity))
  }

  /** Selling at a price is buying at minus that price. */
  lemma {:induction false} NegatedCost(levels: seq<PriceLevel>, q: real)
    ensures Cost(Negate(levels), q) == -Cost(levels, q)
    ensures Total(Negate(levels)) == Total(levels)
  {
    if levels != [] {
      assert Negate(levels)[1..] == Negate(levels[1..]);
      NegatedCost(levels[1..], q - Min(q, levels[0].quantity));
    }
  }

  lemma {:induction false} NegatedAllocation(levels: seq<PriceLevel>, alloc: seq<real>)
    requires |alloc| == |levels|
    ensures AllocationCost(Negate(levels), alloc) == -AllocationCost(levels, alloc)
  {
    if levels != [] {
      assert Negate(levels)[1..] == Negate(levels[1..]);
      NegatedAllocation(levels[1..], alloc[1..]);
    }
  }

  lemma NegatedOrder(levels: seq<PriceLevel>)
    requires Sorted(Descending, levels)
    ensures Sorted(Ascending, Negate(levels))
  {
    forall i, j | 0 <= i < j < |levels|
      ensures Before(Ascending, Negate(levels)[i], Negate(levels)[j])
    {
      assert Before(Descending, levels[i], levels[j]);
    }
  }

  /** On descending bids no way of filling the same quantity brings in more. */
  lemma GreedyIsDearest(levels: seq<PriceLevel>, alloc: seq<real>)
    requires Sorted(Descending, levels) && NonNegative(levels) && Feasible(levels, alloc)
    ensures Cost(levels, Sum(alloc)) >= AllocationCost(levels, alloc)
  {
    NegatedOrder(levels);
    GreedyIsCheapest(Negate(levels), alloc);
    NegatedCost(levels, Sum(alloc));
    NegatedAllocation(levels, alloc);
  }

  // ----- the shape of the cost -----

  /** The side after `q` contracts have been taken from it. */
  function After(levels: seq<PriceLevel>, q: real): seq<PriceLevel> {
    if levels == [] || q <= 0.0 then levels
    else if q < levels[0].quantity then [PriceLevel(levels[0].price, levels[0].quantity - q)] + levels[1..]
    else After(levels[1..], q - levels[0].quantity)
  }

  /** Filling `a` and then `b` from what remains costs what filling both at once does. */
  lemma {:induction false} FillingInPartsCostsTheSame(levels: seq<PriceLevel>, a: real, b: real)
    requires NonNegative(levels) && a >= 0.0 && b >= 0.0
    ensures Cost(levels, a + b) == Cost(levels, a) + Cost(After(levels, a), b)
  {
    if levels != [] && a > 0.0 {
      WalkStep(levels, a);
      WalkStep(levels, a + b);
      if a < levels[0].quantity {
        PartOfFirstLevel(levels, a, b);
      } else {
        FillingInPartsCostsTheSame(levels[1..], a - levels[0].quantity, b);
        assert a + b - levels[0].quantity == (a - levels[0].quantity) + b;
      }
    }
  }

  lemma PartOfFirstLevel(levels: seq<PriceLevel>, a: real, b: real)
    requires levels != [] && NonNegative(levels) && 0.0 < a < levels[0].quantity && b >= 0.0
    ensures Cost(levels, a + b) == Cost(levels, a) + Cost(After(levels, a), b)
  {
    var c, p0 := levels[0].quantity, levels[0].price;
    var rest := After(levels, a);
    assert rest[1..] == levels[1..] && rest[0] == PriceLevel(p0, c - a);
    WalkStep(levels, a);
    WalkStep(levels, a + b);
    WalkStep(rest, b);
    var f := Min(b, c - a);
    assert Min(a + b, c) == a + f && (a + b) - (a + f) == b - f;
    Distributes(a, f, p0);
    assert Cost(levels[1..], a - a) == 0.0;
  }

  /** The price of the last contract that the walk takes. */
  function WorstPrice(levels: seq<PriceLevel>, q: real): real
    requires levels != []
  {
    if |levels| == 1 || q <= levels[0].quantity then levels[0].price
    else WorstPrice(levels[1..], q - levels[0].quantity)
  }

  /** The cost of `q` contracts lies between `q` at the best price and `q` at the worst price taken. */
  lemma {:induction false} CostIsBetweenBestAndWorst(levels: seq<PriceLevel>, q: real)
    requires Sorted(Ascending, levels) && NonNegative(levels) && levels != [] && 0.0 <= q <= Total(levels)
    ensures Value(q, levels[0].price) <= Cost(levels, q) <= Value(q, WorstPrice(levels, q))
    ensures levels[0].price <= WorstPrice(levels, q)
  {
    var rest, c := levels[1..], levels[0].quantity;
    RestIsNoCheaper(levels);
    MarginalCost(levels, 0.0, q, levels[0].price);
    WalkStep(levels, q);
    if |levels| == 1 || q <= c {
      assert q <= c;
      assert Cost(rest, 0.0) == 0.0;
    } else {
      CostIsBetweenBestAndWorst(rest, q - c);
      DearerCostsMore(c, levels[0].price, WorstPrice(levels, q));
      Distributes(q, c, WorstPrice(levels, q));
    }
  }

  /** Beyond `a` contracts, each costs at least the worst price taken for the first `a`. */
  lemma {:induction false} FurtherContractsCostMore(levels: seq<PriceLevel>, a: real, b: real)
    requires Sorted(Ascending, levels) && NonNegative(levels) && levels != [] && 0.0 <= a <= b <= Total(levels)
    ensures Cost(levels, b) - Cost(levels, a) >= Value(b - a, WorstPrice(levels, a))
  {
    var c := levels[0].quantity;
    if |levels| == 1 || a <= c {
      RestIsNoCheaper(levels);
      MarginalCost(levels, a, b, levels[0].price);
    } else {
      WalkStep(levels, a);
      WalkStep(levels, b);
      FurtherContractsCostMore(levels[1..], a - c, b - c);
      assert (b - c) - (a - c) == b - a;
    }
  }

  /** The average price never falls as the filled quantity grows. */
  lemma AveragePriceRises(levels: seq<PriceLevel>, a: real, b: real)
    requires Sorted(Ascending, levels) && NonNegative(levels) && levels != [] && 0.0 < a <= b <= Total(levels)
    ensures Cost(levels, a) / a <= Cost(levels, b) / b
  {
    CostIsBetweenBestAndWorst(levels, a);
    FurtherContractsCostMore(levels, a, b);
    MarginalAboveAverage(Cost(levels, a), Cost(levels, b), a, b, WorstPrice(levels, a));
  }

  lemma MarginalAboveAverage(ca: real, cb: real, a: real, b: real, w: real)
    requires 0.0 < a <= b && ca <= Value(a, w) && cb - ca >= Value(b - a, w)
    ensures ca / a <= cb / b
  {
    var avg := ca / a;
    assert Value(a, avg) == ca;
    Averaged(ca, a, avg, w);
    DearerCostsMore(b - a, avg, w);
    Distributes(b, a, avg);
    assert Value(b, cb / b) == cb;
    Averaged(cb, b, avg, cb / b);
  }

  lemma Averaged(c: real, a: real, low: real, high: real)
    requires a > 0.0 && Value(a, low) <= c <= Value(a, high)
    ensures low <= c / a <= high
  {
    assert (c / a) * a == c;
    SignOfFactor(c / a - low, a);
    SignOfFactor(high - c / a, a);
  }

  // ----- the same, of the computed prices -----

  /**
   The computed price of buying is between the best and the worst ask taken and does not fall as the
   position grows, also when the book cannot fill it.
   */
  lemma BuyVwapShape(asks: seq<PriceLevel>, small: real, large: real)
    requires Sorted(Ascending, asks) && NonNegative(asks) && small <= large
    requires Fill(asks, small).Some?
    ensures Fill(asks, large).Some?
    ensures var r := Fill(asks, small).value;
      && r.filledQty == Min(small, r.totalQtyAvailable) && r.filledQty > 0.0
      && asks[0].price <= r.vwap <= WorstPrice(asks, r.filledQty)
      && r.vwap <= Fill(asks, large).value.vwap
  {
    FillsWhatThereIs(asks, small);
    FillsWhatThereIs(asks, large);
    var a, b := Min(small, Total(asks)), Min(large, Total(asks));
    CostIsBetweenBestAndWorst(asks, a);
    Averaged(Cost(asks, a), a, asks[0].price, WorstPrice(asks, a));
    AveragePriceRises(asks, a, b);
  }

  /** The computed price of selling mirrors it: between the worst and the best bid taken, and never rising. */
  lemma SellVwapShape(bids: seq<PriceLevel>, small: real, large: real)
    requires Sorted(Descending, bids) && NonNegative(bids) && small <= large
    requires Fill(bids, small).Some?
    ensures Fill(bids, large).Some?
    ensures var r := Fill(bids, small).value;
      && r.filledQty == Min(small, r.totalQtyAvailable) && r.filledQty > 0.0
      && WorstPrice(bids, r.filledQty) <= r.vwap <= bids[0].price
      && Fill(bids, large).value.vwap <= r.vwap
  {
    NegatedOrder(bids);
    NegatedFill(bids, small);
    NegatedFill(bids, large);
    BuyVwapShape(Negate(bids), small, large);
    NegatedWorst(bids, Fill(bids, small).value.filledQty);
  }

  lemma {:induction false} NegatedUnfilled(levels: seq<PriceLevel>, q: real)
    ensures Unfilled(Negate(levels), q) == Unfilled(levels, q)
  {
    if levels != [] {
      assert Negate(levels)[1..] == Negate(levels[1..]);
      NegatedUnfilled(levels[1..], q - Min(q, levels[0].quantity));
    }
  }

  lemma NegatedFill(levels: seq<PriceLevel>, size: real)
    ensures Fill(Negate(levels), size).Some? == Fill(levels, size).Some?
    ensures Fill(levels, size).Some? ==>
              var r := Fill(levels, size).value;
              Fill(Negate(levels), size).value == VwapFillResult(-r.vwap, r.filledQty, r.totalQtyAvailable)
  {
    NegatedUnfilled(levels, size);
    NegatedCost(levels, size);
    var filled := size - Unfilled(levels, size);
    if filled != 0.0 {
      NegatedQuotient(Cost(levels, size), filled);
    }
  }

  lemma NegatedQuotient(c: real, f: real)
    requires f != 0.0
    ensures (-c) / f == -(c / f)
  {
    assert (c / f) * f == c;
    assert ((-c) / f) * f == -c;
    assert ((-c) / f + c / f) * f == 0.0;
  }

  lemma {:induction false} NegatedWorst(levels: seq<PriceLevel>, q: real)
    requires levels != []
    ensures WorstPrice(Negate(levels), q) == -WorstPrice(levels, q)
  {
    if |levels| > 1 && q > levels[0].quantity {
      assert Negate(levels)[1..] == Negate(levels[1..]);
      NegatedWorst(levels[1..], q - levels[0].quantity);
    }
  }
}
