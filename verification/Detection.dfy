/** One detection cycle: which pairs are looked at, and which price gaps between the platforms are found. */
module Detection {
  import opened Wrappers
  import opened Vwap
  import opened EdgeMath

  datatype PairConfig = PairConfig(
    eventDescription: string, matchId: Option<string>, resolutionDateMs: Option<int>,
    kalshiContractId: string, polymarketClobTokenId: string)

  /** An active pair with what the health, degradation and connector services answer about it. */
  datatype PairCheck = PairCheck(
    pair: PairConfig, kalshiStale: bool, polymarketStale: bool, kalshiDegraded: bool, polymarketDegraded: bool,
    kalshiBook: Option<NormalizedOrderBook>, polymarketBook: Option<NormalizedOrderBook>)

  datatype RawDislocation = RawDislocation(
    pairConfig: PairConfig, buyPlatform: Platform, sellPlatform: Platform,
    buyPrice: real, sellPrice: real, grossEdge: real,
    buyBook: NormalizedOrderBook, sellBook: NormalizedOrderBook)

  predicate TwoSided(book: NormalizedOrderBook) {
    book.bids != [] && book.asks != []
  }

  /** The pair has fresh, healthy, two-sided books on both platforms. */
  predicate Evaluable(c: PairCheck) {
    && !c.kalshiStale && !c.polymarketStale && !c.kalshiDegraded && !c.polymarketDegraded
    && c.kalshiBook.Some? && c.polymarketBook.Some?
    && TwoSided(c.kalshiBook.value) && TwoSided(c.polymarketBook.value)
  }

  /** The trade that buys at the best ask of one book and sells at the best bid of the other. */
  function Across(pair: PairConfig, buy: Platform, sell: Platform, buyBook: NormalizedOrderBook,
                  sellBook: NormalizedOrderBook): RawDislocation
    requires TwoSided(buyBook) && TwoSided(sellBook)
  {
    var buyPrice, sellPrice := buyBook.asks[0].price, sellBook.bids[0].price;
    RawDislocation(pair, buy, sell, buyPrice, sellPrice, GrossEdge(buyPrice, sellPrice), buyBook, sellBook)
  }

  function IfProfitable(d: RawDislocation): seq<RawDislocation> {
    if d.grossEdge > 0.0 then [d] else []
  }

  /** The dislocations that one check yields: buying on Polymarket first, then buying on Kalshi. */
  function FoundIn(c: PairCheck): seq<RawDislocation> {
    if Evaluable(c) then
      var k, p := c.kalshiBook.value, c.polymarketBook.value;
      IfProfitable(Across(c.pair, Polymarket, Kalshi, p, k)) + IfProfitable(Across(c.pair, Kalshi, Polymarket, k, p))
    else []
  }

  function Found(checks: seq<PairCheck>): seq<RawDislocation> {
    if checks == [] then [] else Found(checks[..|checks|-1]) + FoundIn(checks[|checks|-1])
  }

  function CountEvaluable(checks: seq<PairCheck>): nat {
    if checks == [] then 0
    else CountEvaluable(checks[..|checks|-1]) + if Evaluable(checks[|checks|-1]) then 1 else 0
  }

  method DetectDislocations(checks: seq<PairCheck>)
    returns (dislocations: seq<RawDislocation>, pairsEvaluated: nat, pairsSkipped: nat)
    ensures dislocations == Found(checks)
    ensures pairsEvaluated == CountEvaluable(checks) && pairsEvaluated + pairsSkipped == |checks|
  {
    dislocations, pairsEvaluated, pairsSkipped := [], 0, 0;
    for n := 0 to |checks|
      invariant dislocations == Found(checks[..n])
      invariant pairsEvaluated == CountEvaluable(checks[..n]) && pairsEvaluated + pairsSkipped == n
    {
      var c := checks[n];
      assert checks[..n+1][..n] == checks[..n];
      if c.kalshiStale { pairsSkipped := pairsSkipped + 1; continue; }
      if c.polymarketStale { pairsSkipped := pairsSkipped + 1; continue; }
      if c.kalshiDegraded { pairsSkipped := pairsSkipped + 1; continue; }
      if c.polymarketDegraded { pairsSkipped := pairsSkipped + 1; continue; }
      if c.kalshiBook.None? { pairsSkipped := pairsSkipped + 1; continue; }
      if c.polymarketBook.None? { pairsSkipped := pairsSkipped + 1; continue; }
      var kalshi, poly := c.kalshiBook.value, c.polymarketBook.value;
      if |kalshi.bids| == 0 || |kalshi.asks| == 0 || |poly.bids| == 0 || |poly.asks| == 0 {
        pairsSkipped := pairsSkipped + 1;
        continue;
      }
      pairsEvaluated := pairsEvaluated + 1;
      var polyBuyPrice, kalshiSellPrice := poly.asks[0].price, kalshi.bids[0].price;
      var grossEdgeA := GrossEdge(polyBuyPrice, kalshiSellPrice);
      if grossEdgeA > 0.0 {
        dislocations := dislocations +
          [RawDislocation(c.pair, Polymarket, Kalshi, polyBuyPrice, kalshiSellPrice, grossEdgeA, poly, kalshi)];
      }
      var kalshiBuyPrice, polySellPrice := kalshi.asks[0].price, poly.bids[0].price;
      var grossEdgeB := GrossEdge(kalshiBuyPrice, polySellPrice);
      if grossEdgeB > 0.0 {
        dislocations := dislocations +
          [RawDislocation(c.pair, Kalshi, Polymarket, kalshiBuyPrice, polySellPrice, grossEdgeB, kalshi, poly)];
      }
    }
    assert checks[..|checks|] == checks;
  }

  predicate UncrossedBook(book: NormalizedOrderBook)
    requires TwoSided(book)
  {
    book.bids[0].price <= book.asks[0].price
  }

  /** With uncrossed books no pair trades in both directions, so a cycle finds at most one gap a pair. */
  lemma {:induction false} UncrossedBooksGiveOneDirection(checks: seq<PairCheck>)
    requires forall i :: 0 <= i < |checks| && Evaluable(checks[i]) ==>
               UncrossedBook(checks[i].kalshiBook.value) && UncrossedBook(checks[i].polymarketBook.value)
    ensures |Found(checks)| <= CountEvaluable(checks)
    ensures forall i :: 0 <= i < |checks| ==> |FoundIn(checks[i])| <= 1
  {
    if checks != [] {
      UncrossedBooksGiveOneDirection(checks[..|checks|-1]);
    }
  }

  /**
   A real price gap between the platforms: both books are fresh, of platforms in good health, and two-sided, and the
   best ask of the one is below the best bid of the other.
   */
  ghost predicate Genuine(d: RawDislocation, c: PairCheck) {
    && !c.kalshiStale && !c.polymarketStale && !c.kalshiDegraded && !c.polymarketDegraded
    && c.kalshiBook.Some? && c.kalshiBook.value.bids != [] && c.kalshiBook.value.asks != []
    && c.polymarketBook.Some? && c.polymarketBook.value.bids != [] && c.polymarketBook.value.asks != []
    && d.pairConfig == c.pair && d.buyPlatform != d.sellPlatform
    && Some(d.buyBook) == (if d.buyPlatform.Kalshi? then c.kalshiBook else c.polymarketBook)
    && Some(d.sellBook) == (if d.sellPlatform.Kalshi? then c.kalshiBook else c.polymarketBook)
    && d.buyPrice == d.buyBook.asks[0].price && d.sellPrice == d.sellBook.bids[0].price
    && d.grossEdge == d.sellPrice - d.buyPrice > 0.0
  }

  lemma FoundInIffGenuine(c: PairCheck, d: RawDislocation)
    ensures d in FoundIn(c) <==> Genuine(d, c)
  {
  }

  /** Exactly the genuine price gaps of evaluable pairs are reported. */
  lemma {:induction false} FoundIffGenuine(checks: seq<PairCheck>, d: RawDislocation)
    ensures d in Found(checks) <==> exists i :: 0 <= i < |checks| && Genuine(d, checks[i])
  {
    if checks != [] {
      var n := |checks| - 1;
      FoundIffGenuine(checks[..n], d);
      FoundInIffGenuine(checks[n], d);
      assert forall i :: 0 <= i < n ==> checks[..n][i] == checks[i];
    }
  }
}
