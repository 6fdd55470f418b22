# Verified model of the arbitrage engine's core

The engine looks for the same event contract priced differently on Kalshi and Polymarket, buys on one platform
and sells on the other. This project models the parts of it on which money depends, in Dafny, and proves what
they promise for every input, every run and every interleaving.

| file | what it models |
|---|---|
| `Reals.dfy`, `Wrappers.dfy` | rounding up, minimum and maximum; optional results |
| `Levels.dfy`, `KalshiPrice.dfy` | sides of an order book, and the unified YES book made from Kalshi's two sides of bids |
| `KalshiReplica.dfy`, `KalshiClient.dfy` | the protocol by which the WebSocket client follows Kalshi's books, and the client that keeps them in place |
| `ReplicaExactness.dfy`, `ReplicaFills.dfy` | the client's books against the exchange's, under loss, duplication, reordering and reconnects, and what that means for a fill |
| `Vwap.dfy`, `EdgeMath.dfy` | greedy fills over book levels; fees and net edges |
| `Detection.dfy`, `EdgeCalculator.dfy` | the detection cycle and the pipeline of gates that turns price gaps into opportunities |
| `ConcentrationFilter.dfy` | cooldown, concurrency cap and diversity of pairs |
| `Ingestion.dfy`, `IngestionLedger.dfy` | ingestion of external pairs as interleaved tasks over shared counters and a table with a unique key; what each counter counts |
| `Reconciliation*.dfy` | startup reconciliation: one run, what it does to each order and reports, its progress, its convergence, the halt it causes, histories of runs and resolutions, the service |
| `RateLimiter.dfy`, `RateLimiterOverlap.dfy` | the dual token bucket, for calls one after another and for calls that overlap |
| `PositionPnl.dfy`, `ExitThresholds.dfy` | realized profit, residual sizes, exit thresholds and proximities |

Each component that the source updates in place is a class or a method with loops, tied by its `ensures` to a
specification function; the lemmas are about those functions, so they hold of the methods.

## What the model takes for granted

- Decimal numbers are exact reals. Equal prices have equal keys: two spellings of one price do not occur.
- The exchange numbers the changes of each market consecutively, never offers a negative quantity, and a
  snapshot tells the book that the exchange had at the snapshot's number. Numbering may start afresh at every
  disconnect and reconnect.
- Where the first quotes of an update are concerned, snapshots list only levels that offer something. The model keeps
  a listed level of quantity zero, as the code does, until a delta touches it.
- Queries return rows in table order. Order and position ids are unique. No pair id is a position id;
  `MeasureTellsIffNoCollision` says exactly which collisions of ids the progress of reconciliation does not survive.
- The clock does not run backwards and is past its first second, and a timer does not fire before its time.

## Where the code differs from what its text suggests

The model follows the code.

- Resolving a discrepancy writes `undefined` to the reconciliation context
  (`src/reconciliation/startup-reconciliation.service.ts:508-511`). The database layer reads that as "leave
  the column", so the context stays.
- A missing order whose pair has no single-leg position halts trading without flagging anything
  (`src/reconciliation/startup-reconciliation.service.ts:298-319,715-757`). Resolving positions can lift the halt
  of a run exactly when the run leaves some position flagged, a live or a paper one: `LiftableIffFlagged`. After a run
  that found something, but named no position and met none flagged before, no resolution does:
  `NoResolutionLiftsIff`, and `NoResolutionLiftsMissingOrder` for one such run.
- A later run that finds nothing lifts any such halt, and a run that gets no answer finds nothing
  (`src/reconciliation/startup-reconciliation.service.ts:132-139,321,397,444`), whether positions are still flagged or
  not: `UnansweredRunLifts`, `RunLiftsOverFlags`. `HaltOverHistory` says when trading is halted after any mixture of
  runs and resolutions.
- After a partial exit the dashboard compares the profit of the whole entry size with thresholds of the residual
  sizes (`src/dashboard/position-enrichment.service.ts:200-210,253-311`). Its alarms are then wrong exactly when the
  profit of what is gone carries that of what is left across a threshold: `PartialExitMisleadsIff`. They may be raised
  without cause (`FalseAlarms`) and, when the legs have been closed unequally, be missed (`MissedStopLoss`). With
  equal shares left none is missed: `EqualSharesMisleadIff`.
- A leg whose side is unknown counts as bought for its capital and as sold for its profit
  (`src/dashboard/dashboard-capital.service.ts:141-150,178-188`): `UnknownSideIsReadBothWays`.
- Acquisitions that overlap are all granted, whether they have to wait or not, because each looks at the tokens
  before any of them takes one (`src/common/utils/rate-limiter.ts:89-101`). A burst entered at one instant overdraws
  the token bucket exactly when it is larger than the tokens when it is granted: `OverlapOverdrawsIff`. Over waves of
  overlapping calls the count has no floor (`CountHasNoFloor`). What is let through in a window has a bound all the
  same, one that grows with the calls in flight: `OverlappingGrantsInWindow`.
- A pair whose existence check throws is fetched and counted nowhere
  (`src/modules/contract-matching/external-pair-processor.service.ts:244-250`): `LostPairIsUncounted`. The counters
  of a batch add up exactly when no check fails: `BatchIsConserved`.

## Model

| member | source | states |
|---|---|---|
| Levels.SortSorts | src/connectors/kalshi/kalshi-websocket.client.ts:364 | the sort used on book sides yields a sorted permutation |
| KalshiPrice.NormalizedSidesAreSortedPermutations | src/common/utils/kalshi-price.util.ts:18-36 | the unified book holds exactly the YES levels and the complemented NO levels, best price first on both sides |
| KalshiPrice.UncrossedIffBidsSumToAtMostOne | src/common/utils/kalshi-price.util.ts:18-36 | the unified book is uncrossed iff no YES bid and NO bid add up to more than one dollar |
| KalshiPrice.NormalizedOffers | src/common/utils/kalshi-price.util.ts:22-30 | at every price the unified book offers what Kalshi quotes on the matching side |
| KalshiReplica.DeduplicateKeepsLast | src/connectors/kalshi/kalshi-websocket.client.ts:440-450 | a deduplicated snapshot has one level a price and keeps the last quantity given for it |
| KalshiReplica.DeltaOffers | src/connectors/kalshi/kalshi-websocket.client.ts:346-386 | a delta moves the quantity at its own price, never below zero, and changes no other price except those it cuts off |
| KalshiReplica.TouchedLevelIsPositive | src/connectors/kalshi/kalshi-websocket.client.ts:346-386 | after a delta any level at its price offers something: an emptied one is gone |
| KalshiReplica.OnlyFullSidesAreCut | src/connectors/kalshi/kalshi-websocket.client.ts:363-367 | a side is cut off iff a new level comes to one of at least 50, and then 50 levels are left |
| KalshiReplica.LevelsArePositive | src/connectors/kalshi/kalshi-websocket.client.ts:303-403 | over every run whose snapshots list only levels that offer something, so do all levels of every held book and every published update |
| KalshiReplica.MapsAgree | src/connectors/kalshi/kalshi-websocket.client.ts:303-344 | after any messages and commands the two maps have the same tickers and agree on the sequence number |
| KalshiReplica.BooksAreConsecutiveReplays | src/connectors/kalshi/kalshi-websocket.client.ts:303-344 | every held book is its last snapshot followed by exactly the consecutive deltas, each once and in order; every other message was out of sequence |
| KalshiReplica.GapFreezesBook | src/connectors/kalshi/kalshi-websocket.client.ts:314-344 | after a gap nothing but the missing delta, a snapshot or a reset changes the book or its number |
| KalshiReplica.RequestsAreSpaced | src/connectors/kalshi/kalshi-websocket.client.ts:456-468 | two requests for one ticker are at least the cooldown apart, unless a disconnect or an unsubscribe of that ticker comes between |
| KalshiReplica.UnusableDeltaIsReported | src/connectors/kalshi/kalshi-websocket.client.ts:314-338 | in every run, when a delta of an unknown market or out of sequence arrives, a snapshot of its market has been asked for within the last cooldown |
| KalshiReplica.ForgottenTickerAsksAtOnce | src/connectors/kalshi/kalshi-websocket.client.ts:173-190 | after a disconnect, or an unsubscribe of its ticker, the next unusable delta asks at once |
| KalshiReplica.UsableMessagesArePublished | src/connectors/kalshi/kalshi-websocket.client.ts:303-403 | each snapshot and each next delta of a held book, and nothing else, hands out one update, of its book as it then is |
| KalshiClient.KalshiWebSocketClient.HandleSnapshot | src/connectors/kalshi/kalshi-websocket.client.ts:303-312 | replaces one book, its number, and tells subscribers; every other book stays |
| KalshiClient.KalshiWebSocketClient.HandleDelta | src/connectors/kalshi/kalshi-websocket.client.ts:314-344 | applies the next delta of a known book in place, otherwise at most asks for a resubscription |
| KalshiClient.KalshiWebSocketClient.ApplyDeltaTo | src/connectors/kalshi/kalshi-websocket.client.ts:346-386 | the in-place change of one side; the other side and the number stay |
| KalshiClient.KalshiWebSocketClient.DeduplicateLevels | src/connectors/kalshi/kalshi-websocket.client.ts:444-450 | the loop computes the deduplicated side |
| KalshiClient.KalshiWebSocketClient.DebouncedResubscribe | src/connectors/kalshi/kalshi-websocket.client.ts:456-468 | sends and remembers a request only when the cooldown is over, and touches no book |
| KalshiClient.KalshiWebSocketClient.HandleUnsubscribe | src/connectors/kalshi/kalshi-websocket.client.ts:186-190 | forgets one ticker in all three maps and nothing else |
| KalshiClient.KalshiWebSocketClient.HandleDisconnect | src/connectors/kalshi/kalshi-websocket.client.ts:173-175 | forgets every ticker in all three maps |
| KalshiClient.KalshiWebSocketClient.HandleReconnect | src/connectors/kalshi/kalshi-websocket.client.ts:507-509 | forgets books and numbers, keeps the resubscription times |
| KalshiClient.Drive | src/connectors/kalshi/kalshi-websocket.client.ts:264-270 | a client fed any run of events ends in the state that the protocol gives for the run |
| ReplicaExactness.BooksTrackTheExchange | src/connectors/kalshi/kalshi-websocket.client.ts:303-386 | over every lossy, duplicating, reordering delivery each book equals the exchange's at its own number above the highest price cut off since its snapshot, and never exceeds it anywhere |
| ReplicaExactness.UntruncatedBooksAreExact | src/connectors/kalshi/kalshi-websocket.client.ts:303-386 | a book from which nothing was cut off equals the exchange's at every price |
| ReplicaExactness.UpdatesNeverOverstate | src/connectors/kalshi/kalshi-websocket.client.ts:388-403 | every update ever handed out is sorted, has distinct prices, and offers at most what the exchange did |
| ReplicaExactness.TruncationLoses | src/connectors/kalshi/kalshi-websocket.client.ts:363-367 | the level at the watermark is gone from the client's book, so exactness cannot reach further down |
| ReplicaFills.MoreLiquidityCostsNoMore | src/common/utils/financial-math.ts:252-278 | a book that offers at least as much at every price fills any quantity for no more money |
| ReplicaFills.EveryBookHasListings | src/common/utils/kalshi-price.util.ts:18-36 | whatever the exchange offers after any number of changes has such listings of bids and asks as the next three rows speak of |
| ReplicaFills.BuyingIsNeverFlattered | src/connectors/kalshi/kalshi-websocket.client.ts:388-403 | what a subscriber computes for a purchase can be bought on the exchange's own book, at no higher average price |
| ReplicaFills.SellingIsNeverFlattered | src/connectors/kalshi/kalshi-websocket.client.ts:388-403 | what a subscriber computes for a sale can be sold on the exchange's own book, at no lower average price |
| ReplicaFills.BestQuotesAreNoBetter | src/connectors/kalshi/kalshi-websocket.client.ts:388-403 | no quote of an update that offers anything is better than the exchange's own best |
| ReplicaFills.FirstQuotesAreNoBetter | src/connectors/kalshi/kalshi-websocket.client.ts:388-403 | over every delivery with positive snapshots, the first bid and the first ask of every update are quotes no better than the exchange's own best |
| Vwap.CalculateVwapWithFillInfo | src/common/utils/financial-math.ts:242-279 | the two loops compute the greedy cost over the filled quantity, the filled quantity and the whole depth; nothing for an empty side or a size of zero or less |
| Vwap.FillsWhatThereIs | src/common/utils/financial-math.ts:255-272 | the walk fills the smaller of the size and the depth, and costs what that quantity costs |
| Vwap.GreedyIsCheapest | src/common/utils/financial-math.ts:263-270 | on ascending asks no allocation of the same quantity within the levels costs less |
| Vwap.GreedyIsDearest | src/common/utils/financial-math.ts:263-270 | on descending bids no allocation of the same quantity within the levels brings in more |
| Vwap.FillingInPartsCostsTheSame | src/common/utils/financial-math.ts:263-270 | filling a, then b from what remains, costs what filling a + b at once does |
| Vwap.AveragePriceRises | src/common/utils/financial-math.ts:263-278 | the average ask price does not fall as the filled quantity grows |
| Vwap.BuyVwapShape | src/common/utils/financial-math.ts:242-279 | the computed ask price is between best and worst price taken and non-decreasing in the position size, partial fills included |
| Vwap.SellVwapShape | src/common/utils/financial-math.ts:242-279 | the computed bid price is between worst and best price taken and non-increasing in the position size, partial fills included |
| EdgeMath.KalshiFeesAreRegular | src/connectors/kalshi/kalshi.connector.ts:595-598 | under the fee 0.07 p (1 - p), dearer purchases cost more and dearer sales bring more, fee included, on all of [0,1] |
| EdgeMath.FlatFeesAreRegular | src/connectors/polymarket/polymarket.connector.ts:500-509 | the same under any flat fee from 0 to 100 percent |
| EdgeMath.FeesCharged | src/connectors/kalshi/kalshi.connector.ts:595-598 | a flat fee is its percentage of the price, Polymarket's 2 percent; Kalshi's is 7 percent of p (1 - p) between 0 and 1 and nothing elsewhere |
| EdgeMath.WorsePricesWorseEdge | src/common/utils/financial-math.ts:54-96 | worse prices on both legs never improve the net edge |
| EdgeMath.VwapEdgeNeverExceedsBestLevelEdge | src/modules/arbitrage-detection/edge-calculator.service.ts:374-395 | on sorted books with prices in [0,1] the net edge at average prices is at most the one at best prices |
| EdgeMath.BreakdownExplainsNetEdge | src/modules/arbitrage-detection/edge-calculator.helpers.ts:32-60 | best-level net edge is gross edge less the breakdown's total, and an error only for a position size of zero |
| Detection.DetectDislocations | src/modules/arbitrage-detection/detection.service.ts:35-234 | evaluated and skipped pairs make up the active ones, and the dislocations are those of the evaluable pairs in order |
| Detection.FoundIffGenuine | src/modules/arbitrage-detection/detection.service.ts:184-233 | a dislocation is reported iff it is a positive gap from the best ask of one book to the best bid of the other of an evaluable pair |
| Detection.UncrossedBooksGiveOneDirection | src/modules/arbitrage-detection/detection.service.ts:187-233 | with uncrossed books each evaluated pair yields at most one dislocation |
| EdgeCalculator.DynamicThresholdFallsWithDepth | src/modules/arbitrage-detection/edge-calculator.service.ts:214-220 | the threshold is non-increasing in depth and stays between min(base, cap) and cap |
| EdgeCalculator.EdgeCalculatorService.ReloadConfig | src/modules/arbitrage-detection/edge-calculator.service.ts:154-212 | each setting changes iff given, numeric and in range; valid settings stay valid |
| EdgeCalculator.EdgeCalculatorService.ProcessDislocations | src/modules/arbitrage-detection/edge-calculator.service.ts:249-290 | opportunities, filtered and failed dislocations make up the input; the opportunities are exactly the actionable ones in order, the filtered records exactly those of the others, in order, each with a reason that holds |
| EdgeCalculator.EdgeCalculatorService.ProcessSingleDislocation | src/modules/arbitrage-detection/edge-calculator.service.ts:292-545 | one dislocation adds one entry to exactly one of the two lists, unless its fees are not to be had |
| EdgeCalculator.EdgeCalculatorService.WalkLegs | src/modules/arbitrage-detection/edge-calculator.service.ts:310-369 | yields both fills iff both books fill the configured share of the target contracts |
| EdgeCalculator.ThresholdInForceFallsWithDepth | src/modules/arbitrage-detection/edge-calculator.service.ts:413-425 | the threshold in force, degradation multiplier included, never rises with depth and stays between the lower of base and cap and the cap while scaling is on; otherwise it is the base |
| EdgeCalculator.InForceIffBase | src/modules/arbitrage-detection/edge-calculator.service.ts:214-220 | the threshold in force is the base, or with scaling on the one whose surcharge times depth is base times factor at every depth, unless that surcharge would pass the cap, which is then met |
| EdgeCalculator.DoubledAtTheFactor | src/modules/arbitrage-detection/edge-calculator.service.ts:214-220 | at a depth equal to the factor it is twice the base, up to the cap |
| EdgeCalculator.DroppedDislocationsAreRight | src/modules/arbitrage-detection/edge-calculator.service.ts:310-516 | every filtered record names a gate that its dislocation fails on its own books, prices, date and settings, with its edge and threshold |
| EdgeCalculator.FailsIffFeesAreMissing | src/modules/arbitrage-detection/edge-calculator.service.ts:249-290 | with both fee schedules no dislocation fails, without one every trade across the platforms does |
| EdgeCalculator.EdgeCalculatorService.CheckCapitalEfficiency | src/modules/arbitrage-detection/edge-calculator.helpers.ts:97-220 | passes iff the resolution date is known, ahead, and the annualized return high enough; otherwise a reason that holds |
| EdgeCalculator.EmittedOpportunitiesAreSound | src/modules/arbitrage-detection/edge-calculator.service.ts:310-516 | every emitted opportunity, on its own books, prices, date and settings: fill ratios and average prices are those of the greedy fill of the target contracts, net and best-level edge those of these prices less each platform's own fee and the gas share, the net edge clears the threshold for the shallower of the two books, the annualized return is the net edge over the days left and high enough |
| EdgeCalculator.PipelineEdgesAreConservative | src/modules/arbitrage-detection/edge-calculator.service.ts:371-395 | from detection to opportunity, under both platforms' fees, the claimed edge is at most the edge at the best prices |
| ConcentrationFilter.FilterOpportunities | src/modules/arbitrage-detection/pair-concentration-filter.service.ts:28-154 | passed and filtered are those of the three limits with the batch's own passes counted in; a failed query passes everything |
| ConcentrationFilter.PassedAndFilteredPartition | src/modules/arbitrage-detection/pair-concentration-filter.service.ts:99-151 | passed and filtered interleave to the input, each in order |
| ConcentrationFilter.ConcurrencyIsCapped | src/modules/arbitrage-detection/pair-concentration-filter.service.ts:114-150 | open plus passed is at most the larger of open and cap, for every pair |
| ConcentrationFilter.DiversityFavoursTheLight | src/modules/arbitrage-detection/pair-concentration-filter.service.ts:79-135 | while diversity is active a passed pair is strictly below the mean, and some pair holds more than it |
| ConcentrationFilter.PassedPairsHaveCooledDown | src/modules/arbitrage-detection/pair-concentration-filter.service.ts:103-112 | nothing passes for a pair still cooling down |
| ConcentrationFilter.BlockedForCause | src/modules/arbitrage-detection/pair-concentration-filter.service.ts:99-145 | every filtered opportunity is one of the batch, and its recorded limit is the first that holds, given what passed before it |
| ConcentrationFilter.SumCounts | src/modules/arbitrage-detection/pair-concentration-filter.service.ts:80-83 | the sum over all pairs, whatever the order of iteration |
| Ingestion.CollectTasks | src/modules/contract-matching/external-pair-processor.service.ts:126-215 | one waiting task for each fetched pair of each provider, enriched only by a list of the right length, hole by hole |
| Ingestion.StepKeepsInv | src/modules/contract-matching/external-pair-processor.service.ts:223-463 | every step of every interleaving keeps counters and table balanced with the tasks in flight, keys unique, and concurrency bounded |
| Ingestion.BatchIsConserved | src/modules/contract-matching/external-pair-processor.service.ts:199-463 | when all tasks are settled, for each source fetched = unresolvable + deduplicated + scored + failures + pairs whose existence check failed, so the counters add up iff no check failed; and scored = approved + pending + rejected |
| Ingestion.LostPairIsUncounted | src/modules/contract-matching/external-pair-processor.service.ts:244-250 | a batch of one pair whose existence check fails ends with nothing counted |
| Ingestion.BatchMatchesTable | src/modules/contract-matching/external-pair-processor.service.ts:311-457 | when all tasks are done there is one new row for each scored pair, one new approved row for each approved one, no old row lost, and no key twice even when several tasks found it absent |
| Ingestion.RunsAreBounded | src/modules/contract-matching/external-pair-processor.service.ts:205-216 | no run is longer than six steps a task |
| Ingestion.NeverStuck | src/modules/contract-matching/external-pair-processor.service.ts:205-216 | until all tasks are done some task can move |
| Ingestion.StepOnTable | src/modules/contract-matching/external-pair-processor.service.ts:311-336 | only an insert of a key not yet there adds a row, approved iff its score reaches the threshold |
| IngestionLedger.CountersMatchScores | src/modules/contract-matching/external-pair-processor.service.ts:337-457 | when a batch is over, approved, pending and rejected pairs are, source by source, the new rows with a score at or above the approval threshold, between the thresholds, and below the review threshold |
| IngestionLedger.UnresolvableLackNames | src/modules/contract-matching/external-pair-processor.service.ts:229-241 | the unresolvable pairs are those of which an id was absent or empty |
| IngestionLedger.FailuresAreCounted | src/modules/contract-matching/external-pair-processor.service.ts:286-463 | the scoring failures are the pairs whose scoring threw or whose row the database refused other than for its key |
| IngestionLedger.SimilarTitlesAreDropped | src/modules/contract-matching/external-pair-processor.service.ts:257-284 | an unseen pair goes on to scoring unless it is from OddsPipe and both its titles are similar to described ones |
| IngestionLedger.ScoredPairsAreDescribed | src/modules/contract-matching/external-pair-processor.service.ts:311-360 | titles are described exactly when their pair is counted as scored |
| ReconciliationProgress.RunLowersMeasure | src/reconciliation/startup-reconciliation.service.ts:69-465 | a run leaves orders and positions unchanged iff it leaves the measure unchanged, and otherwise lowers it |
| ReconciliationProgress.MeasureTellsIffNoCollision | src/reconciliation/startup-reconciliation.service.ts:298-319 | with unique ids, the measure tells of every run whether it changed anything iff no pending order without a single leg has a pair id under which a closed, paper or flagged position is kept that flagging would change |
| ReconciliationProgress.CollidingIdsHideAChange | src/reconciliation/startup-reconciliation.service.ts:298-319 | with a closed position under the id of a missing order's pair the measure misses a change |
| ReconciliationProgress.FillCompletesSingleLeg | src/reconciliation/startup-reconciliation.service.ts:571-609 | a fill settles its order as reported and opens the first single-leg position of its pair, if that lacks the platform, with the order linked and the other leg kept; no other row changes |
| ReconciliationProgress.FlagAllAt | src/reconciliation/startup-reconciliation.service.ts:703-745 | flagging touches exactly the named positions and leaves each with the context of the last discrepancy to name it |
| ReconciliationOutcome.PendingOrdersSettle | src/reconciliation/startup-reconciliation.service.ts:231-335 | with stable answers and time enough each pending live order of a connected platform ends filled, cancelled or rejected as that platform says, filled ones with the price and size reported, or stays as it was; no other order changes |
| ReconciliationOutcome.FilledOrderCompletesItsPair | src/reconciliation/startup-reconciliation.service.ts:266-277 | when the only pending order of a pair was filled, the pair's first single leg opens with it linked if it lacked that leg, and keeps the other |
| ReconciliationOutcome.DiscrepanciesAreTrue | src/reconciliation/startup-reconciliation.service.ts:231-465 | each discrepancy found is borne out by an answer the run got about a pending order or a leg of an unflagged live position, or by a platform not connected |
| ReconciliationOutcome.MissingOrdersAreReported | src/reconciliation/startup-reconciliation.service.ts:298-319 | each pending live order its platform does not know is reported |
| ReconciliationOutcome.NoDiscrepancyIffMatching | src/reconciliation/startup-reconciliation.service.ts:646-701 | a leg is in order iff its local status is the one reported |
| ReconciliationOutcome.LegsAreLinkedOrders | src/reconciliation/startup-reconciliation.service.ts:337-465 | a leg is verified iff the order that the position holds on that platform is known, and it is that order |
| ReconciliationOutcome.AnsweredCallsAreVerified | src/reconciliation/startup-reconciliation.service.ts:69-142 | if every call is answered, the orders counted as verified are the calls made |
| ReconciliationOutcome.RunKeepsCount | src/reconciliation/startup-reconciliation.service.ts:69-142 | the resolved orders counted are the pending ones settled, a run times out iff it meets fewer timely checks than it makes, and without a timeout counts every active live position |
| ReconciliationConvergence.RunComesToRest | src/reconciliation/startup-reconciliation.service.ts:231-465 | with stable answers, time enough and one single leg a pair, a run leaves nothing that a run would change |
| ReconciliationConvergence.SecondRunChangesNothing | src/reconciliation/startup-reconciliation.service.ts:69-142 | a second run then changes no order and no position, even if it times out |
| ReconciliationConvergence.CleanRunIsSound | src/reconciliation/startup-reconciliation.service.ts:337-465 | a run with every call answered, no timeout and nothing found leaves each linked order of an unflagged active position with the status its platform reported at a call the run made to verify positions |
| ReconciliationHalt.HaltMatchesRun | src/reconciliation/startup-reconciliation.service.ts:132-139 | the halt is set after a run iff it found discrepancies, then outlives every resolution but the one that clears the last live flag |
| ReconciliationHalt.HaltFollowsFlags | src/reconciliation/startup-reconciliation.service.ts:467-569 | through any sequence of calls the halt stays iff a live flag is left or no call was accepted; other halts are untouched |
| ReconciliationHalt.RunKeepsSaneContexts | src/reconciliation/startup-reconciliation.service.ts:703-774 | no run stores a context that recommends a flag |
| ReconciliationHalt.AcknowledgingFollowsTheRun | src/reconciliation/startup-reconciliation.service.ts:487-512 | a position flagged by a run and then acknowledged takes the status recommended for the last discrepancy found in it, and no other position changes |
| ReconciliationHalt.LiftableIffFlagged | src/reconciliation/startup-reconciliation.service.ts:467-569 | some calls lift the halt of a run iff the run leaves a position flagged |
| ReconciliationHalt.NoResolutionLiftsIff | src/reconciliation/startup-reconciliation.service.ts:703-757 | no resolution lifts the halt of a run iff no position was flagged before it and nothing it found names a position |
| ReconciliationHalt.NoResolutionLiftsMissingOrder | src/reconciliation/startup-reconciliation.service.ts:298-319 | a single missing order of a pair without positions halts trading so that no resolution lifts the halt |
| ReconciliationHistory.HaltOverHistory | src/reconciliation/startup-reconciliation.service.ts:132-139 | over any mixture of runs and resolutions trading is halted iff the last run found something and a live flag is left or no resolution has been accepted since |
| ReconciliationHistory.UnansweredRunLifts | src/reconciliation/startup-reconciliation.service.ts:132-139 | a run that gets no answer changes no row and lifts any halt of an earlier run |
| ReconciliationHistory.RunLiftsOverFlags | src/reconciliation/startup-reconciliation.service.ts:132-139 | such a run lifts the halt also while the positions that caused it are flagged |
| ReconciliationHistory.FewRunsChangeRows | src/reconciliation/startup-reconciliation.service.ts:69-142 | in any sequence of runs, whatever each is answered, no more runs change a row than the measure counts at the start |
| ReconciliationService.StartupReconciliationService.Reconcile | src/reconciliation/startup-reconciliation.service.ts:69-142 | the tables and halts after a run, and counters of both modes that equal the ledger |
| ReconciliationService.StartupReconciliationService.ReconcilePendingOrders | src/reconciliation/startup-reconciliation.service.ts:231-335 | the loop over pending orders, with its timeout checks, is the first phase of a run |
| ReconciliationService.StartupReconciliationService.ResolvePendingFilledOrder | src/reconciliation/startup-reconciliation.service.ts:571-609 | links the order and opens the position iff the pair's first single leg lacks that leg |
| ReconciliationService.StartupReconciliationService.ReconcileActivePositions | src/reconciliation/startup-reconciliation.service.ts:337-465 | the loop over active positions reads only and is the second phase of a run |
| ReconciliationService.StartupReconciliationService.HandleDiscrepancies | src/reconciliation/startup-reconciliation.service.ts:703-758 | flags every named position in turn and halts trading, leaving other halts |
| ReconciliationService.StartupReconciliationService.ResolveDiscrepancy | src/reconciliation/startup-reconciliation.service.ts:467-569 | refuses in three cases without any effect; otherwise one position gets its status, the halt follows the flags left, the counters equal the ledger |
| ReconciliationService.StartupReconciliationService.RecalculateRiskBudget | src/reconciliation/startup-reconciliation.service.ts:776-839 | the counters of both modes become the ledger's |
| ReconciliationService.FlaggingFreesSlotsOnly | src/reconciliation/startup-reconciliation.service.ts:782-831 | flagging frees just the slot of the position named and keeps the capital tied up |
| ReconciliationService.LedgerOfOneMore | src/reconciliation/startup-reconciliation.service.ts:776-838 | a position takes one slot if open, single-legged or partly exited, and ties up the capital of its filled legs unless closed |
| ReconciliationService.HedgeCapital | src/common/utils/capital.ts:8-15 | a hedge of equal size, bought and sold, ties up size times one less the gross edge |
| RateLimiter.RunStaysInBounds | src/common/utils/rate-limiter.ts:89-164 | over sequential calls each token count stays between zero and its capacity |
| RateLimiter.GrantsInWindow | src/common/utils/rate-limiter.ts:89-164 | any window grants at most capacity, accrual and 0.01 more, despite lazy refilling |
| RateLimiter.ConfiguredBound | src/common/utils/rate-limiter.ts:58-87 | a configured limiter grants at most ceil(1.5 limit) + 0.8 limit T + 0.01 in T seconds, of reads and of writes |
| RateLimiter.NoTokenIsLost | src/common/utils/rate-limiter.ts:147-164 | over every sequential run, grants and what is left with what has accrued since come to at least the capacity, or else to all that was there and has accrued |
| RateLimiter.IdleBucketFills | src/common/utils/rate-limiter.ts:147-164 | however long a bucket was idle, a refill leaves it within 0.01 of what has accrued, up to the capacity |
| RateLimiter.NoNeedlessWait | src/common/utils/rate-limiter.ts:136-145 | a call waits only when those before it have used up all but 1.01 of the capacity or of what there was |
| RateLimiter.FullBucketGrantsBurst | src/common/utils/rate-limiter.ts:89-101 | a full bucket grants calls up to its capacity at one instant |
| RateLimiter.OverlapOverdrawsIff | src/common/utils/rate-limiter.ts:89-145 | acquisitions of one kind entered at one instant, on a bucket in bounds, leave the count at or above zero iff there are no more of them than tokens when they are granted, at once or after their common wait |
| RateLimiter.OneIsOrdinary | src/common/utils/rate-limiter.ts:89-94 | a burst of one is an ordinary acquisition |
| RateLimiter.ConcurrentWaitersOverdraw | src/common/utils/rate-limiter.ts:136-145 | acquisitions that wait together and wake on time overdraw the bucket iff there is more than one |
| RateLimiter.ConcurrentCallsOverdraw | src/common/utils/rate-limiter.ts:89-94 | two acquisitions of one instant at one token do not wait and leave minus one |
| RateLimiterOverlap.OverlappingGrantsInWindow | src/common/utils/rate-limiter.ts:89-164 | calls that enter, wait, are let through and take tokens in any interleaving, at most m of a kind in flight at a time, are let through at most capacity + m - 1 + m times the accrual + 0.01 times in any window |
| RateLimiterOverlap.ConfiguredOverlapBound | src/common/utils/rate-limiter.ts:58-87 | the same for a configured limiter: ceil(1.5 limit) + m - 1 + m 0.8 limit T + 0.01 in T seconds |
| RateLimiterOverlap.CountHasNoFloor | src/common/utils/rate-limiter.ts:136-145 | with only two reads in flight at a time some run brings the count to any number below zero |
| RateLimiterOverlap.UninterruptedIsSequential | src/common/utils/rate-limiter.ts:89-94 | a call that none interrupts is an acquisition of a sequential run |
| RateLimiter.FromLimits | src/common/utils/rate-limiter.ts:58-87 | refuses iff a limit is not positive; otherwise a full limiter of the configured capacities and rates |
| RateLimiter.RateLimiter.AcquireRead | src/common/utils/rate-limiter.ts:89-94 | never waits at a token, always waits when tokens and accrual come to less than one, and keeps both counts in bounds |
| RateLimiter.RateLimiter.AcquireWrite | src/common/utils/rate-limiter.ts:96-101 | the same for writes |
| RateLimiter.RateLimiter.GetUtilization | src/common/utils/rate-limiter.ts:103-109 | percentages between 0 and 100 whose unused share of the capacity is the tokens left, of reads and of writes; asking refills |
| PositionPnl.ComputeRealizedPnl | src/dashboard/dashboard-capital.service.ts:206-289 | the loop computes the profit given by each platform's total size and money of exits, and nothing in the same cases |
| PositionPnl.ComputeCapitalBreakdown | src/dashboard/dashboard-capital.service.ts:88-204 | the separately coded net profit is the same, and gross profit and fees have their own normal forms |
| PositionPnl.UnknownSideIsReadBothWays | src/dashboard/dashboard-capital.service.ts:141-188 | without a side, capital is as if bought and profit as if sold; it is the capital of a sale iff the price is one half or nothing was filled, and the profit of a purchase iff exits brought what the entry cost |
| PositionPnl.PnlIgnoresOrder | src/dashboard/dashboard-capital.service.ts:244-288 | reordering the orders does not change the profit |
| PositionPnl.PnlIgnoresSplitting | src/dashboard/dashboard-capital.service.ts:244-288 | splitting an exit into two of the same size and money in all does not change it |
| PositionPnl.OneMoreExit | src/dashboard/dashboard-capital.service.ts:244-288 | one more exit adds what its contracts brought over or under their entry, by side, less the entry's fee rate on the money that changed hands |
| PositionPnl.OtherOrdersDoNotCount | src/dashboard/dashboard-capital.service.ts:230-243 | entry orders and orders without a price or a size do not change the profit |
| PositionPnl.NoPnlIff | src/dashboard/dashboard-capital.service.ts:206-243 | there is no profit iff a leg is unfilled or no order has closed anything |
| PositionPnl.HedgeTiesUp | src/common/utils/capital.ts:8-15 | the entry capital of a hedge of equal size is the size times one less the gross edge |
| PositionPnl.ClosingRealizesTheMark | src/dashboard/position-enrichment.service.ts:183-210 | closing the whole position at the marked prices realizes the marked profit, if fees stay those of the entry |
| PositionPnl.GetResidualSize | src/common/utils/residual-size.ts:25-66 | the loop leaves what was opened less what was closed, floored at zero |
| PositionPnl.ResidualAccountsForExits | src/common/utils/residual-size.ts:57-65 | residual and exits make up the entry on both legs iff nothing was floored |
| PositionPnl.ResidualOfOneMore | src/common/utils/residual-size.ts:43-65 | any filled order but the entries takes its size off the leg on its platform, down to zero |
| PositionPnl.ResidualNeverGrows | src/common/utils/residual-size.ts:43-65 | further orders never enlarge a residual |
| ExitThresholds.ThresholdsAreOrdered | src/common/constants/exit-thresholds.ts:52-66 | stop loss < baseline <= 0 < take profit <= 80% of the edge, across the fallback |
| ExitThresholds.BaselineIsNotPositive | src/common/utils/financial-math.ts:132-203 | the entry cost baseline is never positive |
| ExitThresholds.BaselineIsEntryMark | src/common/utils/financial-math.ts:132-203 | with everything known the baseline is the mark of the same sizes at the recorded close prices and fee rates, less what a close better than its entry would gain |
| ExitThresholds.WorseClosesAreMarked | src/common/utils/financial-math.ts:132-203 | it is that mark when neither close is better |
| ExitThresholds.UnknownTermsHaveNoBaseline | src/common/utils/financial-math.ts:157-164 | with a close price or a fee rate unknown it is zero |
| ExitThresholds.BaselineOfTwoCents | src/dashboard/position-enrichment.service.ts:231-311 | a worked case: closes two cents worse on both sides at 2 percent put the baseline at -6.10 and the stop loss at -16.10 |
| ExitThresholds.StopLossIsTwoEdgesDown | src/dashboard/position-enrichment.service.ts:290-293 | the stop loss is two edges below the baseline |
| ExitThresholds.TakeProfitIsFourFifths | src/common/constants/exit-thresholds.ts:52-66 | the take profit is four fifths of the way from baseline to edge if that is a gain, else 80 percent of the edge |
| ExitThresholds.ProximitiesMeanCrossing | src/common/constants/exit-thresholds.ts:79-88 | proximities lie in [0,1], each is 1 iff its threshold is crossed and in between the share of the way from the baseline, at most one is positive |
| ExitThresholds.ThresholdsScale | src/common/constants/exit-thresholds.ts:52-66 | baseline, stop loss and take profit scale with the legs, across the fallback |
| ExitThresholds.ProximityIsScaleInvariant | src/common/constants/exit-thresholds.ts:79-88 | proximity does not depend on the size of the position |
| ExitThresholds.EnrichThresholds | src/dashboard/position-enrichment.service.ts:231-311 | after a partial exit leg size and baseline are those of the residual legs if both remain, otherwise those of the entry |
| ExitThresholds.ShownThresholdsMakeSense | src/dashboard/position-enrichment.service.ts:231-311 | for every entered position, before and after any exits, the thresholds shown are ordered and the proximities shown mean crossing |
| ExitThresholds.ShareIsAsNear | src/common/constants/exit-thresholds.ts:52-88 | for a share f of both legs, f times the profit is as near to stop loss and take profit as the whole profit was |
| ExitThresholds.PartialExitMisleadsIff | src/dashboard/position-enrichment.service.ts:200-311 | whatever is left of the legs, the profit compared is that of what is left and of what is gone, and each alarm is raised without cause or missed iff its threshold lies between the profit of what is left and that sum |
| ExitThresholds.EqualSharesMisleadIff | src/dashboard/position-enrichment.service.ts:200-311 | with a share f of both legs left the thresholds shown are f times those at entry; a stop loss not reached by what is left is shown iff the profit is above the one at entry and up to the one shown, a take profit iff it is from the one shown to below the one at entry; none that is due is missed |
| ExitThresholds.MissedStopLoss | src/dashboard/position-enrichment.service.ts:253-311 | with 90 of 100 contracts closed on one leg only, a stop loss that is due is not shown, and a take profit is |
| ExitThresholds.FalseAlarms | src/dashboard/position-enrichment.service.ts:200-311 | with half of 100 contracts closed, one market shows a false stop loss and another a false take profit |

## Left out

- KalshiClient: the text of messages, subscribing, the identity of level arrays (a side is reassigned, not shared), pings, reconnect delays and authentication.
- RequestsAreSpaced: says nothing across a disconnect, or an unsubscribe of the ticker, which clear the time of its last request.
- Vwap and EdgeMath: rounding to 20 digits, conversions to floating point, and the checks for numbers that are not finite.
- EdgeCalculator: the liquidity depth record, which copies fields, and event emission, taken to succeed.
- Ingestion: the tokens of the title similarity, which is a parameter; the optional fields of a row.
- Reconciliation: the texts of discrepancies, audit log and events; changes made to the tables by others during a run.
- ReconciliationService.RiskManager: daily loss limits, reservations and persistence.
- ConcentrationFilter: rounding of the mean.
- The rule that a platform's WebSocket book on Polymarket overwrites only its top price: that book keeps no order to prove.
- The trading engine's execution cycle: its body is unreachable.
- Order execution, exit criteria beyond stop loss and take profit, clustering, LLM calls, REST transport, scheduling, settings and the dashboard's other views.
