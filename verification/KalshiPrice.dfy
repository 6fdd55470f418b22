/**
 Kalshi quotes both outcomes as bids. The unified book keeps YES bids and turns a NO bid at
 price n into a YES ask at 1 - n.
 */
module KalshiPrice {
  import opened Levels

  datatype NormalizedLevels = NormalizedLevels(bids: seq<PriceLevel>, asks: seq<PriceLevel>)

  function Complement(levels: seq<PriceLevel>): seq<PriceLevel> {
    seq(|levels|, i requires 0 <= i < |levels| => PriceLevel(1.0 - levels[i].price, levels[i].quantity))
  }

  function NormalizeKalshiLevels(yes: seq<PriceLevel>, no: seq<PriceLevel>): NormalizedLevels {
    NormalizedLevels(Sort(Descending, yes), Sort(Ascending, Complement(no)))
  }

  predicate Uncrossed(book: NormalizedLevels)
    requires book.bids != [] && book.asks != []
  {
    book.bids[0].price <= book.asks[0].price
  }

  /** Both sides come out best price first, and no level is lost, added or changed. */
  lemma NormalizedSidesAreSortedPermutations(yes: seq<PriceLevel>, no: seq<PriceLevel>)
    ensures var book := NormalizeKalshiLevels(yes, no);
      && Sorted(Descending, book.bids) && multiset(book.bids) == multiset(yes)
      && Sorted(Ascending, book.asks) && multiset(book.asks) == multiset(Complement(no))
  {
    SortSorts(Descending, yes);
    SortSorts(Ascending, Complement(no));
  }

  /** The unified book is uncrossed exactly when no YES bid and NO bid add up to more than a dollar. */
  lemma UncrossedIffBidsSumToAtMostOne(yes: seq<PriceLevel>, no: seq<PriceLevel>)
    requires yes != [] && no != []
    ensures Uncrossed(NormalizeKalshiLevels(yes, no)) <==>
            forall i, j :: 0 <= i < |yes| && 0 <= j < |no| ==> yes[i].price + no[j].price <= 1.0
  {
    NormalizedSidesAreSortedPermutations(yes, no);
    var asks := Complement(no);
    var book := NormalizeKalshiLevels(yes, no);
    var i := BestIsFirst(Descending, yes, book.bids);
    var j := BestIsFirst(Ascending, asks, book.asks);
    assert asks[j].price == 1.0 - no[j].price;
    if book.bids[0].price <= book.asks[0].price {
      forall k, l | 0 <= k < |yes| && 0 <= l < |no|
        ensures yes[k].price + no[l].price <= 1.0
      {
        assert Before(Descending, book.bids[0], yes[k]);
        assert Before(Ascending, book.asks[0], asks[l]);
      }
    } else {
      assert yes[i].price + no[j].price > 1.0;
    }
  }

  /** The first level of a sorted permutation is a level of the original that precedes all others. */
  lemma BestIsFirst(dir: Direction, levels: seq<PriceLevel>, sorted: seq<PriceLevel>) returns (best: nat)
    requires levels != [] && multiset(levels) == multiset(sorted) && Sorted(dir, sorted)
    ensures sorted != [] && best < |levels| && levels[best] == sorted[0]
    ensures forall i :: 0 <= i < |levels| ==> Before(dir, sorted[0], levels[i])
  {
    assert |multiset(sorted)| == |multiset(levels)| == |levels|;
    assert sorted[0] in multiset(levels);
    best :| 0 <= best < |levels| && levels[best] == sorted[0];
    forall i | 0 <= i < |levels|
      ensures Before(dir, sorted[0], levels[i])
    {
      assert levels[i] in multiset(sorted);
      var k :| 0 <= k < |sorted| && sorted[k] == levels[i];
    }
  }

  /** What the unified book offers at a price is what Kalshi quotes for it on the matching side. */
  lemma NormalizedOffers(yes: seq<PriceLevel>, no: seq<PriceLevel>, p: real)
    requires Distinct(yes) && Distinct(no)
    ensures var book := NormalizeKalshiLevels(yes, no);
      && Distinct(book.bids) && Distinct(book.asks)
      && QtyAt(book.bids, p) == QtyAt(yes, p)
      && QtyAt(book.asks, p) == QtyAt(no, 1.0 - p)
  {
    NormalizedSidesAreSortedPermutations(yes, no);
    var asks := Complement(no);
    assert Distinct(asks) by {
      forall i, j | 0 <= i < j < |asks|
        ensures asks[i].price != asks[j].price
      {
        assert no[i].price != no[j].price;
      }
    }
    QtyAtPermutation(yes, Sort(Descending, yes), p);
    QtyAtPermutation(asks, Sort(Ascending, asks), p);
    DistinctFromMultiset(yes, Sort(Descending, yes));
    DistinctFromMultiset(asks, Sort(Ascending, asks));
    ComplementOffers(no, p);
  }

  lemma ComplementOffers(no: seq<PriceLevel>, p: real)
    requires Distinct(no)
    ensures QtyAt(Complement(no), p) == QtyAt(no, 1.0 - p)
  {
    if no != [] {
      assert Complement(no)[1..] == Complement(no[1..]);
      ComplementOffers(no[1..], p);
    }
  }
}
