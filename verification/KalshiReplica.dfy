/**
 The protocol by which the WebSocket client follows Kalshi's order books: what one message does to
 the client's state, and what a whole run of messages does.
 */
module KalshiReplica {
  import opened Wrappers
  import opened Levels
  import opened KalshiPrice

  const MAX_ORDERBOOK_DEPTH := 50
  const RESUBSCRIBE_COOLDOWN_MS := 1000

  type Ticker = string

  datatype Side = Yes | No

  datatype Book = Book(sequence: int, yes: seq<PriceLevel>, no: seq<PriceLevel>) {
    function Levels(side: Side): seq<PriceLevel> {
      if side.Yes? then yes else no
    }
  }

  /** What reaches the client: messages, in whatever order the network delivers them, and commands. */
  datatype Event =
    | Snapshot(ticker: Ticker, sequence: int, yes: seq<PriceLevel>, no: seq<PriceLevel>)
    | Delta(ticker: Ticker, sequence: int, price: real, quantity: real, side: Side, now: int)
    | Unsubscribe(ticker: Ticker)
    | Disconnect
    | Reconnect

  datatype Update = Update(ticker: Ticker, sequence: int, book: NormalizedLevels)

  datatype Request = Request(ticker: Ticker, at: int)

  datatype Replica = Replica(
    books: map<Ticker, Book>,
    lastSequence: map<Ticker, int>,
    lastResubscribe: map<Ticker, int>,
    requests: seq<Request>,
    published: seq<Update>)

  // ----- one side of a book -----

  function FindIndex(levels: seq<PriceLevel>, p: real): (i: nat)
    ensures i <= |levels|
    ensures i < |levels| ==> levels[i].price == p
    ensures forall j :: 0 <= j < i ==> levels[j].price != p
  {
    if levels == [] || levels[0].price == p then 0 else 1 + FindIndex(levels[1..], p)
  }

  /** The side after one delta: only a new level sorts the side and cuts it to the maximum depth. */
  function ApplyDelta(levels: seq<PriceLevel>, price: real, delta: real): seq<PriceLevel> {
    var i := FindIndex(levels, price);
    if delta > 0.0 then
      if i < |levels| then levels[i := PriceLevel(price, levels[i].quantity + delta)]
      else Truncate(Sort(Descending, levels + [PriceLevel(price, delta)]))
    else if i < |levels| then
      if levels[i].quantity + delta <= 0.0 then levels[..i] + levels[i+1..]
      else levels[i := PriceLevel(price, levels[i].quantity + delta)]
    else levels
  }

  function Truncate(levels: seq<PriceLevel>): seq<PriceLevel> {
    if |levels| > MAX_ORDERBOOK_DEPTH then levels[..MAX_ORDERBOOK_DEPTH] else levels
  }

  /** The highest price that this delta cuts off, if it cuts anything off. */
  function Dropped(levels: seq<PriceLevel>, price: real, delta: real): Option<real> {
    if delta > 0.0 && FindIndex(levels, price) == |levels| && |levels| >= MAX_ORDERBOOK_DEPTH then
      Some(Sort(Descending, levels + [PriceLevel(price, delta)])[MAX_ORDERBOOK_DEPTH].price)
    else None
  }

  function Upsert(levels: seq<PriceLevel>, level: PriceLevel): seq<PriceLevel> {
    var i := FindIndex(levels, level.price);
    if i < |levels| then levels[i := level] else levels + [level]
  }

  /** A snapshot side with one level a price: the place of the first occurrence, the value of the last. */
  function Deduplicate(levels: seq<PriceLevel>): seq<PriceLevel> {
    if levels == [] then [] else Upsert(Deduplicate(levels[..|levels|-1]), levels[|levels|-1])
  }

  /** What a snapshot side says about price `p`: its last word. */
  function LastQty(levels: seq<PriceLevel>, p: real): real {
    if levels == [] then 0.0
    else if levels[|levels|-1].price == p then levels[|levels|-1].quantity
    else LastQty(levels[..|levels|-1], p)
  }

  // ----- the client as a state machine -----

  const EMPTY_REPLICA := Replica(map[], map[], map[], [], [])

  predicate Accepts(r: Replica, e: Event)
    requires e.Delta?
  {
    && (e.ticker in r.lastSequence ==> e.sequence == r.lastSequence[e.ticker] + 1)
    && e.ticker in r.books
  }

  function ApplyToBook(book: Book, e: Event): Book
    requires e.Delta?
  {
    if e.side.Yes? then Book(e.sequence, ApplyDelta(book.yes, e.price, e.quantity), book.no)
    else Book(e.sequence, book.yes, ApplyDelta(book.no, e.price, e.quantity))
  }

  function BookOf(e: Event): Book
    requires e.Snapshot?
  {
    Book(e.sequence, Deduplicate(e.yes), Deduplicate(e.no))
  }

  function UpdateOf(t: Ticker, book: Book): Update {
    Update(t, book.sequence, NormalizeKalshiLevels(book.yes, book.no))
  }

  function Store(r: Replica, t: Ticker, book: Book): Replica {
    r.(books := r.books[t := book],
       lastSequence := r.lastSequence[t := book.sequence],
       published := r.published + [UpdateOf(t, book)])
  }

  function Resubscribe(r: Replica, t: Ticker, now: int): Replica {
    var lastTime := if t in r.lastResubscribe then r.lastResubscribe[t] else 0;
    if now - lastTime < RESUBSCRIBE_COOLDOWN_MS then r
    else r.(lastResubscribe := r.lastResubscribe[t := now], requests := r.requests + [Request(t, now)])
  }

  function Step(r: Replica, e: Event): Replica {
    match e
    case Snapshot(t, _, _, _) => Store(r, t, BookOf(e))
    case Delta(t, _, _, _, _, now) =>
      if Accepts(r, e) then Store(r, t, ApplyToBook(r.books[t], e)) else Resubscribe(r, t, now)
    case Unsubscribe(t) =>
      r.(books := r.books - {t}, lastSequence := r.lastSequence - {t}, lastResubscribe := r.lastResubscribe - {t})
    case Disconnect => r.(books := map[], lastSequence := map[], lastResubscribe := map[])
    case Reconnect => r.(books := map[], lastSequence := map[])
  }

  function Run(run: seq<Event>): Replica {
    if run == [] then EMPTY_REPLICA else Step(Run(run[..|run|-1]), run[|run|-1])
  }

  /** Forgets every book and may restart the numbering of messages. */
  predicate Clears(e: Event, t: Ticker) {
    e.Disconnect? || e.Reconnect? || (e.Unsubscribe? && e.ticker == t)
  }

  // ----- deduplication -----

  /** Deduplicating leaves one level a price and keeps the last quantity given for it. */
  lemma {:induction false} DeduplicateKeepsLast(levels: seq<PriceLevel>, p: real)
    ensures Distinct(Deduplicate(levels))
    ensures QtyAt(Deduplicate(levels), p) == LastQty(levels, p)
  {
    if levels != [] {
      var n := |levels| - 1;
      DeduplicateKeepsLast(levels[..n], p);
      UpsertOffers(Deduplicate(levels[..n]), levels[n], p);
    }
  }

  lemma UpsertOffers(levels: seq<PriceLevel>, level: PriceLevel, p: real)
    requires Distinct(levels)
    ensures Distinct(Upsert(levels, level))
    ensures QtyAt(Upsert(levels, level), p) == if p == level.price then level.quantity else QtyAt(levels, p)
  {
    SameOffer(levels, Upsert(levels, level), level, p);
  }

  /** If `b` is `a` with `level` in it, at its old place or at the end, `b` offers `level` and else what `a` does. */
  lemma SameOffer(a: seq<PriceLevel>, b: seq<PriceLevel>, level: PriceLevel, p: real)
    requires Distinct(a)
    requires var i := FindIndex(a, level.price); b == if i < |a| then a[i := level] else a + [level]
    ensures Distinct(b)
    ensures QtyAt(b, p) == if p == level.price then level.quantity else QtyAt(a, p)
  {
    var i := FindIndex(a, level.price);
    assert forall j :: 0 <= j < |a| && j != i ==> b[j] == a[j];
    assert b[i] == level;
    assert Distinct(b);
    QtyAtIndex(b, i);
    var j := QtyAtCases(b, p);
    if j < |b| && j != i {
      QtyAtIndex(a, j);
    } else if j == |b| {
      QtyAtAbsent(a, p) by {
        assert forall k :: 0 <= k < |a| && k != i ==> a[k].price == b[k].price;
      }
    }
  }

  // ----- what a delta does to the offers of a side -----

  /** The quantity that a lossless book would have at `p` after the delta. */
  function Shifted(levels: seq<PriceLevel>, price: real, delta: real, p: real): real {
    var q := QtyAt(levels, p);
    if p != price then q else if q + delta > 0.0 then q + delta else 0.0
  }

  /** A delta moves the quantity at its own price, never below zero, and nothing else, but for what it cuts off. */
  lemma DeltaOffers(levels: seq<PriceLevel>, price: real, delta: real, p: real)
    requires Distinct(levels) && NonNegative(levels)
    ensures var r := ApplyDelta(levels, price, delta);
      && Distinct(r) && NonNegative(r)
      && (QtyAt(r, p) == Shifted(levels, price, delta, p)
          || (QtyAt(r, p) == 0.0 && Dropped(levels, price, delta).Some? && p <= Dropped(levels, price, delta).value))
  {
    var i := FindIndex(levels, price);
    if i < |levels| {
      QtyAtIndex(levels, i);
      var q := levels[i].quantity + delta;
      if delta > 0.0 || q > 0.0 {
        SameOffer(levels, levels[i := PriceLevel(price, q)], PriceLevel(price, q), p);
      } else {
        RemovedOffers(levels, i, p);
      }
    } else {
      QtyAtAbsent(levels, price);
      if delta > 0.0 {
        InsertedOffers(levels, price, delta, p);
      }
    }
  }

  lemma RemovedOffers(levels: seq<PriceLevel>, i: nat, p: real)
    requires Distinct(levels) && i < |levels|
    ensures var r := levels[..i] + levels[i+1..];
      Distinct(r) && QtyAt(r, p) == if p == levels[i].price then 0.0 else QtyAt(levels, p)
  {
    var r := levels[..i] + levels[i+1..];
    assert forall k :: 0 <= k < |r| ==> r[k] == levels[if k < i then k else k + 1];
    assert Distinct(r);
    var j := QtyAtCases(levels, p);
    if j == |levels| || j == i {
      QtyAtAbsent(r, p);
    } else {
      var k := if j < i then j else j - 1;
      assert r[k] == levels[j];
      QtyAtIndex(r, k);
    }
  }

  lemma InsertedOffers(levels: seq<PriceLevel>, price: real, delta: real, p: real)
    requires Distinct(levels) && NonNegative(levels) && FindIndex(levels, price) == |levels| && delta > 0.0
    ensures var r := ApplyDelta(levels, price, delta);
      && Distinct(r) && NonNegative(r)
      && (QtyAt(r, p) == Shifted(levels, price, delta, p)
          || (QtyAt(r, p) == 0.0 && Dropped(levels, price, delta).Some? && p <= Dropped(levels, price, delta).value))
  {
    var grown := levels + [PriceLevel(price, delta)];
    var sorted := Sort(Descending, grown);
    SameOffer(levels, grown, PriceLevel(price, delta), p);
    QtyAtAbsent(levels, price);
    SortSorts(Descending, grown);
    QtyAtPermutation(grown, sorted, p);
    DistinctFromMultiset(grown, sorted);
    forall k | 0 <= k < |sorted|
      ensures sorted[k].quantity >= 0.0
    {
      assert sorted[k] in multiset(grown);
      assert sorted[k] in grown;
    }
    if |sorted| > MAX_ORDERBOOK_DEPTH {
      TruncatedOffers(sorted, p);
    }
  }

  lemma TruncatedOffers(sorted: seq<PriceLevel>, p: real)
    requires Distinct(sorted) && Sorted(Descending, sorted) && |sorted| > MAX_ORDERBOOK_DEPTH
    ensures QtyAt(Truncate(sorted), p) == QtyAt(sorted, p)
         || (QtyAt(Truncate(sorted), p) == 0.0 && p <= sorted[MAX_ORDERBOOK_DEPTH].price)
  {
    var r := Truncate(sorted);
    var j := QtyAtCases(sorted, p);
    if j < MAX_ORDERBOOK_DEPTH {
      assert r[j] == sorted[j];
      QtyAtIndex(r, j);
    } else {
      QtyAtAbsent(r, p);
      if MAX_ORDERBOOK_DEPTH < j < |sorted| {
        assert Before(Descending, sorted[MAX_ORDERBOOK_DEPTH], sorted[j]);
      }
    }
  }

  ghost predicate OffersIfPresent(levels: seq<PriceLevel>, p: real) {
    forall k :: 0 <= k < |levels| && levels[k].price == p ==> levels[k].quantity > 0.0
  }

  /** A level that a delta empties is gone: whatever level is left at its price has something to offer. */
  lemma TouchedLevelIsPositive(levels: seq<PriceLevel>, price: real, delta: real)
    requires Distinct(levels) && NonNegative(levels)
    ensures OffersIfPresent(ApplyDelta(levels, price, delta), price)
  {
    var i := FindIndex(levels, price);
    if i < |levels| {
      assert forall k :: 0 <= k < |levels| && k != i ==> levels[k].price != price;
      var left := levels[..i] + levels[i+1..];
      assert forall k :: 0 <= k < |left| ==> left[k] == levels[if k < i then k else k + 1];
    } else if delta > 0.0 {
      assert ApplyDelta(levels, price, delta) == Truncate(Sort(Descending, levels + [PriceLevel(price, delta)]));
      NewLevelIsPositive(levels, price, delta);
    } else {
      assert ApplyDelta(levels, price, delta) == levels;
    }
  }

  lemma NewLevelIsPositive(levels: seq<PriceLevel>, price: real, delta: real)
    requires delta > 0.0 && forall j :: 0 <= j < |levels| ==> levels[j].price != price
    ensures OffersIfPresent(Truncate(Sort(Descending, levels + [PriceLevel(price, delta)])), price)
  {
    var grown := levels + [PriceLevel(price, delta)];
    SortSorts(Descending, grown);
    var r := Truncate(Sort(Descending, grown));
    forall k | 0 <= k < |r| && r[k].price == price
      ensures r[k].quantity > 0.0
    {
      assert r[k] in multiset(grown);
      assert r[k] in grown;
    }
  }

  /** Only a new level cuts a side off, if that has 50 levels already, and it leaves 50. */
  lemma OnlyFullSidesAreCut(levels: seq<PriceLevel>, price: real, delta: real)
    ensures Dropped(levels, price, delta).Some? <==>
            delta > 0.0 && |levels| >= 50 && forall i :: 0 <= i < |levels| ==> levels[i].price != price
    ensures Dropped(levels, price, delta).Some? ==> |ApplyDelta(levels, price, delta)| == 50
    ensures delta > 0.0 && Dropped(levels, price, delta).None? ==> |ApplyDelta(levels, price, delta)| >= |levels|
  {
  }

  lemma DeltaKeepsPositive(levels: seq<PriceLevel>, price: real, delta: real)
    requires Positive(levels)
    ensures Positive(ApplyDelta(levels, price, delta))
  {
    var grown := levels + [PriceLevel(price, delta)];
    if delta > 0.0 && FindIndex(levels, price) == |levels| {
      SortSorts(Descending, grown);
      PermutedPositive(grown, Sort(Descending, grown));
    }
  }

  lemma {:induction false} DeduplicateKeepsPositive(levels: seq<PriceLevel>)
    requires Positive(levels)
    ensures Positive(Deduplicate(levels))
  {
    if levels != [] {
      DeduplicateKeepsPositive(levels[..|levels|-1]);
    }
  }

  /** Every snapshot lists only levels that offer something. */
  ghost predicate PositiveSnapshots(run: seq<Event>) {
    forall i :: 0 <= i < |run| && run[i].Snapshot? ==> Positive(run[i].yes) && Positive(run[i].no)
  }

  ghost predicate PositiveBook(book: Book) {
    Positive(book.yes) && Positive(book.no)
  }

  ghost predicate PositiveReplica(r: Replica) {
    && (forall t :: t in r.books ==> PositiveBook(r.books[t]))
    && (forall k :: 0 <= k < |r.published| ==> Positive(r.published[k].book.bids) && Positive(r.published[k].book.asks))
  }

  lemma StoringKeepsPositive(r: Replica, t: Ticker, book: Book)
    requires PositiveReplica(r) && PositiveBook(book)
    ensures PositiveReplica(Store(r, t, book))
  {
    NormalizedSidesAreSortedPermutations(book.yes, book.no);
    PermutedPositive(book.yes, Sort(Descending, book.yes));
    PermutedPositive(Complement(book.no), Sort(Ascending, Complement(book.no)));
  }

  /**
   Over every run whose snapshots list only levels that offer something, so does every book that is held and every
   update that was published.
   */
  lemma {:induction false} LevelsArePositive(run: seq<Event>)
    requires PositiveSnapshots(run)
    ensures PositiveReplica(Run(run))
  {
    if run != [] {
      var before, e := run[..|run|-1], run[|run|-1];
      LevelsArePositive(before);
      if e.Snapshot? {
        DeduplicateKeepsPositive(e.yes);
        DeduplicateKeepsPositive(e.no);
        StoringKeepsPositive(Run(before), e.ticker, BookOf(e));
      } else if e.Delta? && Accepts(Run(before), e) {
        var book := Run(before).books[e.ticker];
        DeltaKeepsPositive(book.Levels(e.side), e.price, e.quantity);
        StoringKeepsPositive(Run(before), e.ticker, ApplyToBook(book, e));
      }
    }
  }

  // ----- the two maps -----

  /** Books and last sequence numbers have the same tickers and agree, whatever was received. */
  lemma {:induction false} MapsAgree(run: seq<Event>)
    ensures var r := Run(run);
      && r.books.Keys == r.lastSequence.Keys
      && forall t :: t in r.books ==> r.books[t].sequence == r.lastSequence[t]
  {
    if run != [] {
      MapsAgree(run[..|run|-1]);
    }
  }

  // ----- gap safety -----

  /** The snapshot a book started from and the deltas applied to it, as positions in the run. */
  datatype Trace = Trace(snapshot: nat, deltas: seq<nat>)

  ghost predicate InRange(run: seq<Event>, t: Ticker, trace: Trace) {
    && trace.snapshot < |run|
    && run[trace.snapshot].Snapshot? && run[trace.snapshot].ticker == t
    && (forall k :: 0 <= k < |trace.deltas| ==> trace.snapshot < trace.deltas[k] < |run|)
    && (forall k :: 0 <= k < |trace.deltas| ==>
          run[trace.deltas[k]].Delta? && run[trace.deltas[k]].ticker == t)
  }

  /** Rebuilding a book from scratch: the snapshot, then the listed deltas in the listed order. */
  function Replay(run: seq<Event>, t: Ticker, trace: Trace): Book
    requires InRange(run, t, trace)
    decreases |trace.deltas|
  {
    if trace.deltas == [] then BookOf(run[trace.snapshot])
    else
      var n := |trace.deltas| - 1;
      ApplyToBook(Replay(run, t, Trace(trace.snapshot, trace.deltas[..n])), run[trace.deltas[n]])
  }

  /** The deltas are in order, each carries the next number, and every other message since was rightly ignored. */
  ghost predicate Consecutive(run: seq<Event>, t: Ticker, trace: Trace)
    requires InRange(run, t, trace)
  {
    && Increasing(trace.deltas)
    && Numbered(run, trace.deltas, run[trace.snapshot].sequence + 1)
    && (forall j :: trace.snapshot < j < |run| ==> Skipped(run, t, trace, j))
  }

  ghost predicate Increasing(deltas: seq<nat>) {
    forall k, l :: 0 <= k < l < |deltas| ==> deltas[k] < deltas[l]
  }

  ghost predicate Numbered(run: seq<Event>, deltas: seq<nat>, first: int)
    requires forall k :: 0 <= k < |deltas| ==> deltas[k] < |run| && run[deltas[k]].Delta?
  {
    forall k :: 0 <= k < |deltas| ==> run[deltas[k]].sequence == first + k
  }

  /** Message `j` was applied, or was none that the book, as it was then, had to follow. */
  ghost predicate Skipped(run: seq<Event>, t: Ticker, trace: Trace, j: nat)
    requires InRange(run, t, trace) && j < |run|
  {
    j in trace.deltas
    || Ignorable(run[j], t, run[trace.snapshot].sequence + 1 + AppliedBefore(trace.deltas, j))
  }

  /** Not a message that a book of `t` waiting for number `expected` has to follow. */
  predicate Ignorable(e: Event, t: Ticker, expected: int) {
    && !Clears(e, t)
    && !(e.Snapshot? && e.ticker == t)
    && !(e.Delta? && e.ticker == t && e.sequence == expected)
  }

  function AppliedBefore(deltas: seq<nat>, j: nat): nat {
    if deltas == [] then 0 else AppliedBefore(deltas[..|deltas|-1], j) + if deltas[|deltas|-1] < j then 1 else 0
  }

  lemma {:induction false} AppliedBeforeAll(deltas: seq<nat>, j: nat)
    requires forall k :: 0 <= k < |deltas| ==> deltas[k] < j
    ensures AppliedBefore(deltas, j) == |deltas|
  {
    if deltas != [] {
      AppliedBeforeAll(deltas[..|deltas|-1], j);
    }
  }

  lemma {:induction false} InRangeOfLonger(run: seq<Event>, e: Event, t: Ticker, trace: Trace)
    requires InRange(run, t, trace)
    ensures InRange(run + [e], t, trace)
  {
    forall k | 0 <= k < |trace.deltas|
      ensures (run + [e])[trace.deltas[k]] == run[trace.deltas[k]]
    {
    }
  }

  lemma {:induction false} ReplayIgnoresTail(run: seq<Event>, e: Event, t: Ticker, trace: Trace)
    requires InRange(run, t, trace) && InRange(run + [e], t, trace)
    ensures Replay(run + [e], t, trace) == Replay(run, t, trace)
    decreases |trace.deltas|
  {
    if trace.deltas != [] {
      var n := |trace.deltas| - 1;
      ReplayIgnoresTail(run, e, t, Trace(trace.snapshot, trace.deltas[..n]));
      assert (run + [e])[trace.deltas[n]] == run[trace.deltas[n]];
    }
  }

  lemma {:induction false} IgnoringKeepsTrace(run: seq<Event>, e: Event, t: Ticker, trace: Trace)
    requires InRange(run, t, trace) && Consecutive(run, t, trace)
    requires Ignorable(e, t, run[trace.snapshot].sequence + 1 + |trace.deltas|)
    ensures InRange(run + [e], t, trace) && Consecutive(run + [e], t, trace)
  {
    InRangeOfLonger(run, e, t, trace);
    AppliedBeforeAll(trace.deltas, |run|);
    forall k | 0 <= k < |trace.deltas|
      ensures (run + [e])[trace.deltas[k]].sequence == run[trace.snapshot].sequence + 1 + k
    {
      assert (run + [e])[trace.deltas[k]] == run[trace.deltas[k]];
    }
    forall j | trace.snapshot < j < |run + [e]|
      ensures Skipped(run + [e], t, trace, j)
    {
      if j < |run| {
        assert Skipped(run, t, trace, j);
        assert (run + [e])[j] == run[j];
      }
    }
  }

  lemma {:induction false} ApplyingExtendsTrace(run: seq<Event>, e: Event, t: Ticker, trace: Trace)
    requires InRange(run, t, trace) && Consecutive(run, t, trace)
    requires e.Delta? && e.ticker == t && e.sequence == run[trace.snapshot].sequence + 1 + |trace.deltas|
    ensures var longer := Trace(trace.snapshot, trace.deltas + [|run|]);
      InRange(run + [e], t, longer) && Consecutive(run + [e], t, longer)
  {
    var run', deltas := run + [e], trace.deltas + [|run|];
    var longer := Trace(trace.snapshot, deltas);
    forall k | 0 <= k < |deltas|
      ensures trace.snapshot < deltas[k] < |run'|
      ensures run'[deltas[k]].Delta? && run'[deltas[k]].ticker == t
      ensures run'[deltas[k]].sequence == run[trace.snapshot].sequence + 1 + k
    {
      if k < |trace.deltas| {
        assert deltas[k] == trace.deltas[k];
        assert run'[deltas[k]] == run[trace.deltas[k]];
      } else {
        assert deltas[k] == |run|;
      }
    }
    assert deltas[..|deltas|-1] == trace.deltas;
    forall j | trace.snapshot < j < |run'|
      ensures Skipped(run', t, longer, j)
    {
      if j < |run| {
        assert Skipped(run, t, trace, j);
        assert run'[j] == run[j];
        assert j in trace.deltas ==> j in deltas;
      } else {
        assert deltas[|deltas|-1] == j;
      }
    }
  }

  /**
   Gap safety over whole runs of arbitrary messages: a book that the client holds is exactly the last
   snapshot with the consecutive deltas that followed it, each applied once and in order.
   */
  lemma {:induction false} BooksAreConsecutiveReplays(run: seq<Event>, t: Ticker) returns (trace: Trace)
    requires t in Run(run).books
    ensures InRange(run, t, trace) && Consecutive(run, t, trace)
    ensures Run(run).books[t] == Replay(run, t, trace)
    ensures Run(run).books[t].sequence == run[trace.snapshot].sequence + |trace.deltas|
  {
    var n := |run| - 1;
    var before, e := run[..n], run[n];
    assert before + [e] == run;
    RunAppend(before, e);
    if e.Snapshot? && e.ticker == t {
      trace := Trace(n, []);
      SnapshotStartsTrace(before, e);
    } else {
      assert t in Run(before).books && !Clears(e, t);
      var earlier := BooksAreConsecutiveReplays(before, t);
      trace := FollowOne(before, e, t, earlier);
    }
  }

  lemma SnapshotStartsTrace(before: seq<Event>, e: Event)
    requires e.Snapshot?
    ensures var trace := Trace(|before|, []);
      && InRange(before + [e], e.ticker, trace) && Consecutive(before + [e], e.ticker, trace)
      && Replay(before + [e], e.ticker, trace) == BookOf(e)
  {
  }

  lemma {:induction false} FollowOne(before: seq<Event>, e: Event, t: Ticker, earlier: Trace) returns (trace: Trace)
    requires t in Run(before).books && !Clears(e, t) && !(e.Snapshot? && e.ticker == t)
    requires InRange(before, t, earlier) && Consecutive(before, t, earlier)
    requires Run(before).books[t] == Replay(before, t, earlier)
    requires Run(before).books[t].sequence == before[earlier.snapshot].sequence + |earlier.deltas|
    ensures InRange(before + [e], t, trace) && Consecutive(before + [e], t, trace)
    ensures t in Run(before + [e]).books && Run(before + [e]).books[t] == Replay(before + [e], t, trace)
    ensures Run(before + [e]).books[t].sequence == (before + [e])[trace.snapshot].sequence + |trace.deltas|
  {
    MapsAgree(before);
    RunAppend(before, e);
    StepOnBook(Run(before), e, t);
    if Follows(e, t, Run(before).books[t]) {
      ApplyingExtendsTrace(before, e, t, earlier);
      ReplayOneMore(before, e, t, earlier);
      trace := Trace(earlier.snapshot, earlier.deltas + [|before|]);
    } else {
      IgnoringKeepsTrace(before, e, t, earlier);
      ReplayIgnoresTail(before, e, t, earlier);
      trace := earlier;
    }
  }

  lemma ReplayOneMore(run: seq<Event>, e: Event, t: Ticker, trace: Trace)
    requires InRange(run, t, trace) && e.Delta?
    requires InRange(run + [e], t, Trace(trace.snapshot, trace.deltas + [|run|]))
    ensures Replay(run + [e], t, Trace(trace.snapshot, trace.deltas + [|run|])) == ApplyToBook(Replay(run, t, trace), e)
  {
    InRangeOfLonger(run, e, t, trace);
    ReplayIgnoresTail(run, e, t, trace);
    assert (trace.deltas + [|run|])[..|trace.deltas|] == trace.deltas;
  }

  predicate Follows(e: Event, t: Ticker, book: Book) {
    e.Delta? && e.ticker == t && e.sequence == book.sequence + 1
  }

  lemma RunAppend(before: seq<Event>, e: Event)
    ensures Run(before + [e]) == Step(Run(before), e)
  {
    assert (before + [e])[..|before + [e]|-1] == before;
  }

  /** What a message that neither resets nor replaces the book of `t` does to it. */
  lemma StepOnBook(r: Replica, e: Event, t: Ticker)
    requires t in r.books && t in r.lastSequence && r.lastSequence[t] == r.books[t].sequence
    requires !Clears(e, t) && !(e.Snapshot? && e.ticker == t)
    ensures t in Step(r, e).books
    ensures Step(r, e).books[t] == if Follows(e, t, r.books[t]) then ApplyToBook(r.books[t], e) else r.books[t]
  {
  }

  /** After a gap, nothing but the missing delta, a snapshot or a reset changes the book. */
  lemma {:induction false} GapFreezesBook(run: seq<Event>, more: seq<Event>, t: Ticker)
    requires t in Run(run).books
    requires forall i :: 0 <= i < |more| ==> Ignorable(more[i], t, Run(run).books[t].sequence + 1)
    ensures t in Run(run + more).books && Run(run + more).books[t] == Run(run).books[t]
    ensures t in Run(run + more).lastSequence && Run(run + more).lastSequence[t] == Run(run).books[t].sequence
  {
    MapsAgree(run);
    if more == [] {
      assert run + more == run;
    } else {
      var n := |more| - 1;
      GapFreezesBook(run, more[..n], t);
      assert run + more == (run + more[..n]) + [more[n]];
      RunAppend(run + more[..n], more[n]);
      StepOnBook(Run(run + more[..n]), more[n], t);
      MapsAgree(run + more);
    }
  }

  // ----- resubscription -----

  /** The clock never runs backwards. */
  ghost predicate Clocked(run: seq<Event>) {
    forall i, j :: 0 <= i < j < |run| && run[i].Delta? && run[j].Delta? ==> run[i].now <= run[j].now
  }

  /** Message `m` of the run is the one that made request `i`. */
  ghost predicate MadeAt(run: seq<Event>, i: nat, m: nat) {
    m < |run| && |Run(run[..m]).requests| == i && |Run(run[..m + 1]).requests| == i + 1
  }

  /** Forgets when `t` was last asked for. */
  predicate Forgets(e: Event, t: Ticker) {
    e.Disconnect? || (e.Unsubscribe? && e.ticker == t)
  }

  lemma RunPrefix(run: seq<Event>, m: nat)
    requires m < |run|
    ensures Run(run[..m + 1]) == Step(Run(run[..m]), run[m])
  {
    assert run[..m + 1] == run[..m] + [run[m]];
    RunAppend(run[..m], run[m]);
  }

  lemma {:induction false} RequestsStay(run: seq<Event>, m: nat)
    requires m <= |run|
    ensures Run(run[..m]).requests <= Run(run).requests
  {
    if m < |run| {
      RequestsStay(run[..|run|-1], m);
      assert run[..|run|-1][..m] == run[..m];
    } else {
      assert run[..m] == run;
    }
  }

  /** What a message that makes a request does. */
  lemma StepRequests(r: Replica, e: Event)
    requires |Step(r, e).requests| == |r.requests| + 1
    ensures e.Delta? && Step(r, e).requests == r.requests + [Request(e.ticker, e.now)]
    ensures e.ticker in r.lastResubscribe ==> e.now - r.lastResubscribe[e.ticker] >= RESUBSCRIBE_COOLDOWN_MS
    ensures Step(r, e).lastResubscribe == r.lastResubscribe[e.ticker := e.now]
  {
  }

  /** A request carries ticker and time of the delta that made it, came after the cooldown, and is remembered. */
  lemma RequestOf(run: seq<Event>, i: nat, m: nat)
    requires MadeAt(run, i, m)
    ensures var e, before, after := run[m], Run(run[..m]).lastResubscribe, Run(run[..m + 1]).lastResubscribe;
      && e.Delta? && i < |Run(run).requests| && Run(run).requests[i] == Request(e.ticker, e.now)
      && (e.ticker in before ==> e.now - before[e.ticker] >= RESUBSCRIBE_COOLDOWN_MS)
      && e.ticker in after && after[e.ticker] == e.now
  {
    RunPrefix(run, m);
    StepRequests(Run(run[..m]), run[m]);
    RequestsStay(run, m + 1);
    assert Run(run[..m + 1]).requests[i] == Request(run[m].ticker, run[m].now);
  }

  /** A message that does not forget the time of `t` leaves it or moves it to its own. */
  lemma StepRemembers(r: Replica, e: Event, t: Ticker)
    requires t in r.lastResubscribe && !Forgets(e, t)
    ensures var last := Step(r, e).lastResubscribe;
      t in last && (last[t] == r.lastResubscribe[t] || (e.Delta? && last[t] == e.now))
  {
  }

  lemma RequestsAccumulate(run: seq<Event>, a: nat, b: nat)
    requires a <= b <= |run|
    ensures |Run(run[..a]).requests| <= |Run(run[..b]).requests|
  {
    RequestsStay(run[..b], a);
    assert run[..b][..a] == run[..a];
  }

  lemma {:induction false} EveryRequestIsMade(run: seq<Event>, i: nat) returns (m: nat)
    requires i < |Run(run).requests|
    ensures MadeAt(run, i, m)
  {
    var n := |run| - 1;
    if i < |Run(run[..n]).requests| {
      m := EveryRequestIsMade(run[..n], i);
      assert run[..n][..m] == run[..m] && run[..n][..m + 1] == run[..m + 1];
    } else {
      m := n;
      assert run[..n + 1] == run;
    }
  }

  /** Until it is forgotten, the time remembered for a ticker never falls behind one that was remembered. */
  lemma {:induction false} TimeIsRemembered(run: seq<Event>, m: nat, n: nat, t: Ticker)
    requires Clocked(run) && m < n <= |run| && run[m].Delta?
    requires forall k :: m < k < n ==> !Forgets(run[k], t)
    requires t in Run(run[..m + 1]).lastResubscribe && Run(run[..m + 1]).lastResubscribe[t] == run[m].now
    ensures t in Run(run[..n]).lastResubscribe && Run(run[..n]).lastResubscribe[t] >= run[m].now
  {
    if m + 1 < n {
      TimeIsRemembered(run, m, n - 1, t);
      RunPrefix(run, n - 1);
      StepRemembers(Run(run[..n - 1]), run[n - 1], t);
      assert run[n - 1].Delta? ==> run[m].now <= run[n - 1].now;
    }
  }

  /** Two requests for a ticker are at least the cooldown apart, unless its time was forgotten in between. */
  lemma RequestsAreSpaced(run: seq<Event>, i: nat, j: nat, m: nat, n: nat)
    requires Clocked(run) && i < j < |Run(run).requests| && MadeAt(run, i, m) && MadeAt(run, j, n)
    requires Run(run).requests[i].ticker == Run(run).requests[j].ticker
    requires forall k :: m < k < n ==> !Forgets(run[k], Run(run).requests[i].ticker)
    ensures Run(run).requests[j].at - Run(run).requests[i].at >= 1000
  {
    RequestOf(run, i, m);
    RequestOf(run, j, n);
    MadeInOrder(run, i, j, m, n);
    TimeIsRemembered(run, m, n, run[m].ticker);
  }

  lemma MadeInOrder(run: seq<Event>, i: nat, j: nat, m: nat, n: nat)
    requires i < j && MadeAt(run, i, m) && MadeAt(run, j, n)
    ensures m < n
  {
    if n < m {
      RequestsAccumulate(run, n + 1, m);
    }
  }

  /** Whatever time is remembered for a ticker is that of a request for it. */
  lemma {:induction false} RememberedWasRequested(run: seq<Event>, t: Ticker) returns (i: nat)
    requires t in Run(run).lastResubscribe
    ensures i < |Run(run).requests| && Run(run).requests[i] == Request(t, Run(run).lastResubscribe[t])
  {
    var n := |run| - 1;
    if |Run(run[..n]).requests| < |Run(run).requests| && run[n].ticker == t {
      i := |Run(run[..n]).requests|;
    } else {
      i := RememberedWasRequested(run[..n], t);
    }
  }

  /**
   No gap goes unreported: when a delta cannot be applied, a snapshot of its ticker has been asked for within
   the last cooldown, be it just now.
   */
  lemma UnusableDeltaIsReported(run: seq<Event>, e: Event) returns (i: nat)
    requires Clocked(run + [e]) && e.Delta? && !Accepts(Run(run), e) && e.now >= 1000
    ensures var requests := Run(run + [e]).requests;
      && i < |requests| && requests[i].ticker == e.ticker
      && e.now - 1000 < requests[i].at <= e.now
  {
    RunAppend(run, e);
    i := RememberedWasRequested(run + [e], e.ticker);
    var m := EveryRequestIsMade(run + [e], i);
    RequestOf(run + [e], i, m);
    assert (run + [e])[|run|] == e;
  }

  /** After its time was forgotten, the next unusable delta of a ticker asks at once. */
  lemma ForgottenTickerAsksAtOnce(run: seq<Event>, f: Event, e: Event)
    requires e.Delta? && Forgets(f, e.ticker) && e.now >= 1000
    ensures Run(run + [f] + [e]).requests == Run(run).requests + [Request(e.ticker, e.now)]
  {
    RunAppend(run, f);
    RunAppend(run + [f], e);
    MapsAgree(run + [f]);
  }

  // ----- what subscribers get -----

  /** A snapshot, or the next delta of a book that is held. */
  predicate Usable(r: Replica, e: Event) {
    e.Snapshot? || (e.Delta? && e.ticker in r.books && e.sequence == r.books[e.ticker].sequence + 1)
  }

  /** Each usable message, and nothing else, hands out one update: the book of its ticker as it is then, normalized. */
  lemma UsableMessagesArePublished(run: seq<Event>, e: Event)
    ensures var before, after := Run(run), Run(run + [e]);
      if Usable(before, e) then
        && e.ticker in after.books && after.books[e.ticker].sequence == e.sequence
        && after.published == before.published +
             [Update(e.ticker, e.sequence,
                     NormalizeKalshiLevels(after.books[e.ticker].yes, after.books[e.ticker].no))]
      else after.published == before.published
  {
    MapsAgree(run);
    RunAppend(run, e);
  }
}
