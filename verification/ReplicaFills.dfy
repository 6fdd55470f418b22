/** What an understated book does to a fill: trading on the replica never looks better than it is. */
module ReplicaFills {
  import opened Levels
  import opened KalshiPrice
  import opened KalshiReplica
  import opened ReplicaExactness
  import opened Vwap
  import opened Reals

  ghost predicate Clean(dir: Direction, levels: seq<PriceLevel>) {
    Sorted(dir, levels) && Distinct(levels) && NonNegative(levels)
  }

  /** `more` offers at least what `less` offers, at every price. */
  ghost predicate Offers(more: seq<PriceLevel>, less: seq<PriceLevel>) {
    forall p :: QtyAt(less, p) <= QtyAt(more, p)
  }

  lemma QtyIsNonNegative(levels: seq<PriceLevel>, p: real)
    requires NonNegative(levels)
    ensures QtyAt(levels, p) >= 0.0
  {
    var i := QtyAtCases(levels, p);
  }

  lemma TailQty(levels: seq<PriceLevel>, p: real)
    requires levels != [] && Distinct(levels)
    ensures QtyAt(levels[1..], p) == if p == levels[0].price then 0.0 else QtyAt(levels, p)
  {
    if p == levels[0].price {
      QtyAtAbsent(levels[1..], p);
    }
  }

  lemma TailIsClean(dir: Direction, levels: seq<PriceLevel>)
    requires levels != [] && Clean(dir, levels)
    ensures Clean(dir, levels[1..])
  {
  }

  /** A level in front of the others only makes a fill cheaper. */
  lemma CheaperLevelHelps(asks: seq<PriceLevel>, q: real)
    requires asks != [] && Sorted(Ascending, asks) && NonNegative(asks) && 0.0 <= q <= Total(asks[1..])
    ensures Cost(asks, q) <= Cost(asks[1..], q)
  {
    var fill := Min(q, asks[0].quantity);
    WalkStep(asks, q);
    RestIsNoCheaper(asks);
    MarginalCost(asks[1..], q - fill, q, asks[0].price);
    GreedyStep(q, 0.0, fill, asks[0].price, Cost(asks[1..], q - fill), Cost(asks[1..], q));
    assert Value(0.0, asks[0].price) == 0.0;
  }

  /** A side that offers more at every price holds more, and fills the same quantity for no more money. */
  lemma {:induction false} MoreLiquidityCostsNoMore(more: seq<PriceLevel>, less: seq<PriceLevel>, q: real)
    requires Clean(Ascending, more) && Clean(Ascending, less) && Offers(more, less)
    requires 0.0 <= q <= Total(less)
    ensures Total(less) <= Total(more) && Cost(more, q) <= Cost(less, q)
    decreases |more| + |less|
  {
    TotalIsNonNegative(more);
    if less != [] {
      TailIsClean(Ascending, less);
      assert QtyAt(less, less[0].price) <= QtyAt(more, less[0].price);
      if less[0].quantity == 0.0 {
        EmptyLevelDropped(more, less, q);
        MoreLiquidityCostsNoMore(more, less[1..], q);
      } else {
        var i := QtyAtCases(more, less[0].price);
        assert more[0].price <= less[0].price by {
          if i > 0 { assert Before(Ascending, more[0], more[i]); }
        }
        TailIsClean(Ascending, more);
        if more[0].price < less[0].price {
          UnmatchedLevel(more, less);
          MoreLiquidityCostsNoMore(more[1..], less, q);
          CheaperLevelHelps(more, q);
        } else {
          MatchedLevels(more, less, q);
          var b := Min(q, less[0].quantity);
          WalkStep(less, q);
          TotalIsNonNegative(less[1..]);
          MoreLiquidityCostsNoMore(more[1..], less[1..], q - b);
          DeeperFirstLevel(more, q, b);
        }
      }
    }
  }

  lemma EmptyLevelDropped(more: seq<PriceLevel>, less: seq<PriceLevel>, q: real)
    requires Clean(Ascending, less) && NonNegative(more) && Offers(more, less)
    requires less != [] && less[0].quantity == 0.0 && q >= 0.0
    ensures Offers(more, less[1..]) && Total(less[1..]) == Total(less) && Cost(less[1..], q) == Cost(less, q)
  {
    forall p
      ensures QtyAt(less[1..], p) <= QtyAt(more, p)
    {
      TailQty(less, p);
      QtyIsNonNegative(more, p);
      assert QtyAt(less, p) <= QtyAt(more, p);
    }
    WalkStep(less, q);
    assert Value(0.0, less[0].price) == 0.0;
  }

  lemma UnmatchedLevel(more: seq<PriceLevel>, less: seq<PriceLevel>)
    requires Clean(Ascending, more) && Clean(Ascending, less) && Offers(more, less)
    requires more != [] && less != [] && more[0].price < less[0].price
    ensures Offers(more[1..], less)
  {
    forall p
      ensures QtyAt(less, p) <= QtyAt(more[1..], p)
    {
      TailQty(more, p);
      assert QtyAt(less, p) <= QtyAt(more, p);
      if p == more[0].price {
        RestIsNoCheaper(less);
        QtyAtAbsent(less, p);
      }
    }
  }

  lemma MatchedLevels(more: seq<PriceLevel>, less: seq<PriceLevel>, q: real)
    requires Clean(Ascending, more) && Clean(Ascending, less) && Offers(more, less)
    requires more != [] && less != [] && more[0].price == less[0].price
    ensures Offers(more[1..], less[1..]) && less[0].quantity <= more[0].quantity
  {
    assert QtyAt(less, less[0].price) <= QtyAt(more, less[0].price);
    forall p
      ensures QtyAt(less[1..], p) <= QtyAt(more[1..], p)
    {
      TailQty(more, p);
      TailQty(less, p);
      assert QtyAt(less, p) <= QtyAt(more, p);
    }
  }

  /** Taking more than `b` from the first level is no worse than taking just `b`. */
  lemma DeeperFirstLevel(asks: seq<PriceLevel>, q: real, b: real)
    requires asks != [] && Sorted(Ascending, asks) && NonNegative(asks)
    requires 0.0 <= b <= Min(q, asks[0].quantity) && q - b <= Total(asks[1..])
    ensures Cost(asks, q) <= Value(b, asks[0].price) + Cost(asks[1..], q - b)
  {
    var fill := Min(q, asks[0].quantity);
    WalkStep(asks, q);
    RestIsNoCheaper(asks);
    MarginalCost(asks[1..], q - fill, q - b, asks[0].price);
    GreedyStep(q, b, fill, asks[0].price, Cost(asks[1..], q - fill), Cost(asks[1..], q - b));
  }

  /** A listing of what the exchange offers after change `n` as asks, best first. */
  ghost predicate ListsAsks(asks: seq<PriceLevel>, h: History, n: int)
    requires h.Has(n)
  {
    Clean(Ascending, asks) && forall p :: QtyAt(asks, p) == h.Qty(n, No, 1.0 - p)
  }

  ghost predicate ListsBids(bids: seq<PriceLevel>, h: History, n: int)
    requires h.Has(n)
  {
    Clean(Descending, bids) && forall p :: QtyAt(bids, p) == h.Qty(n, Yes, p)
  }

  /** The levels of a side after some deltas, in the order in which their prices first appeared. */
  function Listing(deltas: seq<BookDelta>, side: Side): seq<PriceLevel> {
    if deltas == [] then []
    else
      var before, d := Listing(deltas[..|deltas|-1], side), deltas[|deltas|-1];
      if d.side == side then Upsert(before, PriceLevel(d.price, QtyAt(before, d.price) + d.quantity)) else before
  }

  lemma {:induction false} ListingOffers(deltas: seq<BookDelta>, side: Side, p: real)
    ensures Distinct(Listing(deltas, side)) && QtyAt(Listing(deltas, side), p) == Net(deltas, side, p)
  {
    if deltas != [] {
      var n := |deltas| - 1;
      var before, d := Listing(deltas[..n], side), deltas[n];
      ListingOffers(deltas[..n], side, p);
      if d.side == side {
        ListingOffers(deltas[..n], side, d.price);
        UpsertOffers(before, PriceLevel(d.price, QtyAt(before, d.price) + d.quantity), p);
      }
    }
  }

  lemma ListingIsNonNegative(h: History, n: int, side: Side)
    requires h.WellFormed() && h.Has(n)
    ensures NonNegative(Listing(h.deltas[..n - h.first], side))
  {
    var levels := Listing(h.deltas[..n - h.first], side);
    ListingOffers(h.deltas[..n - h.first], side, 0.0);
    forall i | 0 <= i < |levels|
      ensures levels[i].quantity >= 0.0
    {
      QtyAtIndex(levels, i);
      ListingOffers(h.deltas[..n - h.first], side, levels[i].price);
      assert h.Qty(n, side, levels[i].price) >= 0.0;
    }
  }

  /** What the exchange offers can always be listed, on both sides: its own account, normalized. */
  lemma EveryBookHasListings(h: History, n: int)
    requires h.WellFormed() && h.Has(n)
    ensures var deltas := h.deltas[..n - h.first];
      var book := NormalizeKalshiLevels(Listing(deltas, Yes), Listing(deltas, No));
      ListsBids(book.bids, h, n) && ListsAsks(book.asks, h, n)
  {
    var deltas := h.deltas[..n - h.first];
    ListingIsClean(h, n, Yes);
    ListingIsClean(h, n, No);
    var yes, no := Listing(deltas, Yes), Listing(deltas, No);
    NormalizedIsClean(yes, no);
    forall p
      ensures QtyAt(NormalizeKalshiLevels(yes, no).bids, p) == h.Qty(n, Yes, p)
      ensures QtyAt(NormalizeKalshiLevels(yes, no).asks, p) == h.Qty(n, No, 1.0 - p)
    {
      NormalizedOffers(yes, no, p);
      ListingOffers(deltas, Yes, p);
      ListingOffers(deltas, No, 1.0 - p);
    }
  }

  lemma ListingIsClean(h: History, n: int, side: Side)
    requires h.WellFormed() && h.Has(n)
    ensures var levels := Listing(h.deltas[..n - h.first], side); Distinct(levels) && NonNegative(levels)
  {
    ListingOffers(h.deltas[..n - h.first], side, 0.0);
    ListingIsNonNegative(h, n, side);
  }

  lemma NormalizedIsClean(yes: seq<PriceLevel>, no: seq<PriceLevel>)
    requires Distinct(yes) && Distinct(no) && NonNegative(yes) && NonNegative(no)
    ensures var book := NormalizeKalshiLevels(yes, no); Clean(Descending, book.bids) && Clean(Ascending, book.asks)
  {
    var book := NormalizeKalshiLevels(yes, no);
    NormalizedOffers(yes, no, 0.0);
    NormalizedSidesAreSortedPermutations(yes, no);
    PermutedNonNegative(yes, book.bids);
    PermutedNonNegative(Complement(no), book.asks);
  }

  /** No quote of an update that offers anything is better than the exchange's own best. */
  lemma BestQuotesAreNoBetter(u: Update, w: World, bids: seq<PriceLevel>, asks: seq<PriceLevel>)
    requires Understates(u, w)
    requires ListsBids(bids, w(u.ticker), u.sequence) && ListsAsks(asks, w(u.ticker), u.sequence)
    ensures forall i :: 0 <= i < |u.book.bids| && u.book.bids[i].quantity > 0.0 ==>
              bids != [] && u.book.bids[i].price <= bids[0].price
    ensures forall i :: 0 <= i < |u.book.asks| && u.book.asks[i].quantity > 0.0 ==>
              asks != [] && asks[0].price <= u.book.asks[i].price
  {
    forall i | 0 <= i < |u.book.bids| && u.book.bids[i].quantity > 0.0
      ensures bids != [] && u.book.bids[i].price <= bids[0].price
    {
      QuotedPriceIsListed(Descending, bids, u.book.bids, i);
    }
    forall i | 0 <= i < |u.book.asks| && u.book.asks[i].quantity > 0.0
      ensures asks != [] && asks[0].price <= u.book.asks[i].price
    {
      QuotedPriceIsListed(Ascending, asks, u.book.asks, i);
    }
  }

  /**
   Over every delivery whose snapshots list only levels that offer something, every update handed out offers
   something at each of its levels, so that its first bid and its first ask are quotes no better than the
   exchange's own best.
   */
  lemma FirstQuotesAreNoBetter(worlds: nat -> World, run: seq<Event>, k: nat) returns (i: nat)
    requires Delivery(worlds, run) && PositiveSnapshots(run) && k < |Run(run).published|
    ensures i <= |run| && Positive(Run(run).published[k].book.bids) && Positive(Run(run).published[k].book.asks)
    ensures var u := Run(run).published[k]; var h := worlds(Resets(run[..i]))(u.ticker);
      h.Has(u.sequence) &&
      forall bids, asks :: ListsBids(bids, h, u.sequence) && ListsAsks(asks, h, u.sequence) ==>
        FirstQuotesWithin(u, bids, asks)
  {
    i := UpdatesNeverOverstate(worlds, run, k);
    LevelsArePositive(run);
    var u := Run(run).published[k];
    var w := worlds(Resets(run[..i]));
    forall bids, asks | ListsBids(bids, w(u.ticker), u.sequence) && ListsAsks(asks, w(u.ticker), u.sequence)
      ensures FirstQuotesWithin(u, bids, asks)
    {
      PositiveQuotesWithin(u, w, bids, asks);
    }
  }

  ghost predicate FirstQuotesWithin(u: Update, bids: seq<PriceLevel>, asks: seq<PriceLevel>) {
    && (u.book.bids != [] ==> bids != [] && u.book.bids[0].price <= bids[0].price)
    && (u.book.asks != [] ==> asks != [] && asks[0].price <= u.book.asks[0].price)
  }

  lemma PositiveQuotesWithin(u: Update, w: World, bids: seq<PriceLevel>, asks: seq<PriceLevel>)
    requires Understates(u, w) && Positive(u.book.bids) && Positive(u.book.asks)
    requires ListsBids(bids, w(u.ticker), u.sequence) && ListsAsks(asks, w(u.ticker), u.sequence)
    ensures FirstQuotesWithin(u, bids, asks)
  {
    if u.book.bids != [] {
      QuotedPriceIsListed(Descending, bids, u.book.bids, 0);
    }
    if u.book.asks != [] {
      QuotedPriceIsListed(Ascending, asks, u.book.asks, 0);
    }
  }

  lemma QuotedPriceIsListed(dir: Direction, truth: seq<PriceLevel>, seen: seq<PriceLevel>, i: nat)
    requires Clean(dir, truth) && Clean(dir, seen) && Offers(truth, seen) && i < |seen| && seen[i].quantity > 0.0
    ensures truth != [] && (if dir.Ascending? then truth[0].price <= seen[i].price else truth[0].price >= seen[i].price)
  {
    QtyAtIndex(seen, i);
    assert QtyAt(seen, seen[i].price) <= QtyAt(truth, seen[i].price);
    var j := QtyAtCases(truth, seen[i].price);
    if j > 0 {
      assert Before(dir, truth[0], truth[j]);
    }
  }

  lemma FillDominates(truth: seq<PriceLevel>, seen: seq<PriceLevel>, size: real)
    requires Clean(Ascending, truth) && Clean(Ascending, seen) && Offers(truth, seen)
    requires Fill(seen, size).Some?
    ensures var r := Fill(seen, size).value;
      && r.totalQtyAvailable <= Total(truth)
      && Fill(truth, r.filledQty).Some?
      && Fill(truth, r.filledQty).value.filledQty == r.filledQty
      && Fill(truth, r.filledQty).value.vwap <= r.vwap
  {
    var r := Fill(seen, size).value;
    BuyVwapShape(seen, size, size);
    TotalIsNonNegative(seen);
    MoreLiquidityCostsNoMore(truth, seen, r.filledQty);
    FillsWhatThereIs(truth, r.filledQty);
    FillsWhatThereIs(seen, size);
    Quotients(Cost(truth, r.filledQty), Cost(seen, r.filledQty), r.filledQty);
  }

  lemma Quotients(x: real, y: real, q: real)
    requires q > 0.0 && x <= y
    ensures x / q <= y / q
  {
    assert (x / q) * q == x && (y / q) * q == y;
    SignOfFactor(y / q - x / q, q);
  }

  lemma {:induction false} NegatedQty(levels: seq<PriceLevel>, p: real)
    ensures QtyAt(Negate(levels), -p) == QtyAt(levels, p)
  {
    if levels != [] {
      assert Negate(levels)[1..] == Negate(levels[1..]);
      NegatedQty(levels[1..], p);
    }
  }

  lemma NegatedOffers(more: seq<PriceLevel>, less: seq<PriceLevel>)
    requires Offers(more, less)
    ensures Offers(Negate(more), Negate(less))
  {
    forall p
      ensures QtyAt(Negate(less), p) <= QtyAt(Negate(more), p)
    {
      NegatedQty(more, -p);
      NegatedQty(less, -p);
      assert QtyAt(less, -p) <= QtyAt(more, -p);
    }
  }

  /**
   Over every delivery, whatever a subscriber computes for a purchase from an update can be bought on the
   exchange's own book, and at no higher average price.
   */
  lemma BuyingIsNeverFlattered(worlds: nat -> World, run: seq<Event>, k: nat, size: real) returns (i: nat)
    requires Delivery(worlds, run) && k < |Run(run).published|
    requires Fill(Run(run).published[k].book.asks, size).Some?
    ensures i <= |run|
    ensures var u := Run(run).published[k]; var h := worlds(Resets(run[..i]))(u.ticker);
      var r := Fill(u.book.asks, size).value;
      h.Has(u.sequence) &&
      forall truth :: ListsAsks(truth, h, u.sequence) ==>
        && r.totalQtyAvailable <= Total(truth)
        && Fill(truth, r.filledQty).Some?
        && Fill(truth, r.filledQty).value.filledQty == r.filledQty
        && Fill(truth, r.filledQty).value.vwap <= r.vwap
  {
    i := UpdatesNeverOverstate(worlds, run, k);
    var u := Run(run).published[k];
    var h := worlds(Resets(run[..i]))(u.ticker);
    forall truth | ListsAsks(truth, h, u.sequence)
      ensures var r := Fill(u.book.asks, size).value;
        && r.totalQtyAvailable <= Total(truth)
        && Fill(truth, r.filledQty).Some?
        && Fill(truth, r.filledQty).value.filledQty == r.filledQty
        && Fill(truth, r.filledQty).value.vwap <= r.vwap
    {
      FillDominates(truth, u.book.asks, size);
    }
  }

  /** And what it computes for a sale can be sold there, at no lower average price. */
  lemma SellingIsNeverFlattered(worlds: nat -> World, run: seq<Event>, k: nat, size: real) returns (i: nat)
    requires Delivery(worlds, run) && k < |Run(run).published|
    requires Fill(Run(run).published[k].book.bids, size).Some?
    ensures i <= |run|
    ensures var u := Run(run).published[k]; var h := worlds(Resets(run[..i]))(u.ticker);
      var r := Fill(u.book.bids, size).value;
      h.Has(u.sequence) &&
      forall truth :: ListsBids(truth, h, u.sequence) ==>
        && r.totalQtyAvailable <= Total(truth)
        && Fill(truth, r.filledQty).Some?
        && Fill(truth, r.filledQty).value.filledQty == r.filledQty
        && r.vwap <= Fill(truth, r.filledQty).value.vwap
  {
    i := UpdatesNeverOverstate(worlds, run, k);
    var u := Run(run).published[k];
    var h := worlds(Resets(run[..i]))(u.ticker);
    forall truth | ListsBids(truth, h, u.sequence)
      ensures var r := Fill(u.book.bids, size).value;
        && r.totalQtyAvailable <= Total(truth)
        && Fill(truth, r.filledQty).Some?
        && Fill(truth, r.filledQty).value.filledQty == r.filledQty
        && r.vwap <= Fill(truth, r.filledQty).value.vwap
    {
      SaleDominates(truth, u.book.bids, size);
    }
  }

  lemma SaleDominates(truth: seq<PriceLevel>, seen: seq<PriceLevel>, size: real)
    requires Clean(Descending, truth) && Clean(Descending, seen) && Offers(truth, seen)
    requires Fill(seen, size).Some?
    ensures var r := Fill(seen, size).value;
      && r.totalQtyAvailable <= Total(truth)
      && Fill(truth, r.filledQty).Some?
      && Fill(truth, r.filledQty).value.filledQty == r.filledQty
      && r.vwap <= Fill(truth, r.filledQty).value.vwap
  {
    var r := Fill(seen, size).value;
    NegatedOrder(truth);
    NegatedOrder(seen);
    NegatedOffers(truth, seen);
    NegatedFill(seen, size);
    NegatedFill(truth, r.filledQty);
    NegatedCost(truth, 0.0);
    NegatedIsDistinct(truth);
    NegatedIsDistinct(seen);
    FillDominates(Negate(truth), Negate(seen), size);
  }

  lemma NegatedIsDistinct(levels: seq<PriceLevel>)
    requires Distinct(levels) && NonNegative(levels)
    ensures Distinct(Negate(levels)) && NonNegative(Negate(levels))
  {
    forall i, j | 0 <= i < j < |levels|
      ensures Negate(levels)[i].price != Negate(levels)[j].price
    {
      assert levels[i].price != levels[j].price;
    }
  }
}
