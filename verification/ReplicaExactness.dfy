/**
 The client's books against the exchange's: exact above the highest price that truncation has cut
 off since the last snapshot, and nowhere more than the exchange offers.
 */
module ReplicaExactness {
  import opened Wrappers
  import opened Levels
  import opened KalshiPrice
  import opened KalshiReplica

  datatype BookDelta = BookDelta(side: Side, price: real, quantity: real)

  /** The exchange's own account of one market: `deltas[k]` is the change numbered `first + k + 1`. */
  datatype History = History(first: int, deltas: seq<BookDelta>) {
    predicate Has(n: int) {
      first <= n <= first + |deltas|
    }

    /** What the exchange offers on a side, at a price, after change number `n`. */
    function Qty(n: int, side: Side, p: real): real
      requires Has(n)
    {
      Net(deltas[..n - first], side, p)
    }

    ghost predicate WellFormed() {
      forall n, side, p :: Has(n) ==> Qty(n, side, p) >= 0.0
    }
  }

  function Net(deltas: seq<BookDelta>, side: Side, p: real): real {
    if deltas == [] then 0.0
    else
      var d := deltas[|deltas|-1];
      Net(deltas[..|deltas|-1], side, p) + if d.side == side && d.price == p then d.quantity else 0.0
  }

  /** One numbering of every market, which lasts until the connection is reset. */
  type World = Ticker -> History

  ghost predicate TellsSide(h: History, n: int, side: Side, levels: seq<PriceLevel>)
    requires h.Has(n)
  {
    forall p :: LastQty(levels, p) == h.Qty(n, side, p)
  }

  /** A message the exchange sent at some time: a snapshot of the book it had, or one of its deltas. */
  ghost predicate Genuine(w: World, e: Event) {
    match e
    case Snapshot(t, n, yes, no) => w(t).Has(n) && TellsSide(w(t), n, Yes, yes) && TellsSide(w(t), n, No, no)
    case Delta(t, n, price, quantity, side, _) =>
      && w(t).Has(n - 1) && w(t).Has(n)
      && w(t).deltas[n - 1 - w(t).first] == BookDelta(side, price, quantity)
    case _ => true
  }

  function Resets(run: seq<Event>): nat {
    if run == [] then 0
    else Resets(run[..|run|-1]) + if run[|run|-1].Disconnect? || run[|run|-1].Reconnect? then 1 else 0
  }

  /** Any loss, duplication and reordering of what the exchange sent since the connection was last reset. */
  ghost predicate Delivery(worlds: nat -> World, run: seq<Event>) {
    && WellFormedWorlds(worlds)
    && (forall i :: 0 <= i < |run| ==> GenuineAt(worlds, run, i))
  }

  ghost predicate WellFormedWorlds(worlds: nat -> World) {
    forall k, t :: worlds(k)(t).WellFormed()
  }

  ghost predicate GenuineAt(worlds: nat -> World, run: seq<Event>, i: nat)
    requires i < |run|
  {
    Genuine(worlds(Resets(run[..i])), run[i])
  }

  /** The highest price cut off the side of a book since its last snapshot. */
  function Watermark(run: seq<Event>, t: Ticker, side: Side): Option<real> {
    if run == [] then None
    else
      var before, e := run[..|run|-1], run[|run|-1];
      var mark := Watermark(before, t, side);
      if Clears(e, t) || (e.Snapshot? && e.ticker == t) then None
      else if t in Run(before).books && e.Delta? && e.ticker == t && e.side == side && Accepts(Run(before), e)
      then Higher(mark, Dropped(Run(before).books[t].Levels(side), e.price, e.quantity))
      else mark
  }

  function Higher(a: Option<real>, b: Option<real>): Option<real> {
    if a.None? then b else if b.None? || a.value >= b.value then a else b
  }

  predicate Above(p: real, mark: Option<real>) {
    mark.None? || p > mark.value
  }

  /** Never more than the exchange offers, and the same at every price above the mark. */
  ghost predicate Tracks(levels: seq<PriceLevel>, h: History, n: int, side: Side, mark: Option<real>)
    requires h.Has(n)
  {
    && Distinct(levels) && NonNegative(levels)
    && (forall p :: QtyAt(levels, p) <= h.Qty(n, side, p))
    && (forall p :: Above(p, mark) ==> QtyAt(levels, p) == h.Qty(n, side, p))
  }

  ghost predicate BookTracks(book: Book, h: History, run: seq<Event>, t: Ticker) {
    && h.Has(book.sequence)
    && forall side :: Tracks(book.Levels(side), h, book.sequence, side, Watermark(run, t, side))
  }

  lemma SnapshotTracks(levels: seq<PriceLevel>, h: History, n: int, side: Side)
    requires h.WellFormed() && h.Has(n) && TellsSide(h, n, side, levels)
    ensures Tracks(Deduplicate(levels), h, n, side, None)
  {
    var kept := Deduplicate(levels);
    forall p
      ensures Distinct(kept) && QtyAt(kept, p) == h.Qty(n, side, p)
    {
      DeduplicateKeepsLast(levels, p);
    }
    assert Distinct(kept) by { DeduplicateKeepsLast(levels, 0.0); }
    forall i | 0 <= i < |kept|
      ensures kept[i].quantity >= 0.0
    {
      QtyAtIndex(kept, i);
      assert h.Qty(n, side, kept[i].price) >= 0.0;
    }
  }

  lemma QtyAfter(h: History, n: int, side: Side, p: real)
    requires h.Has(n - 1) && h.Has(n)
    ensures var d := h.deltas[n - 1 - h.first];
      h.Qty(n, side, p) == h.Qty(n - 1, side, p) + if d.side == side && d.price == p then d.quantity else 0.0
  {
    assert h.deltas[..n - h.first][..n - 1 - h.first] == h.deltas[..n - 1 - h.first];
  }

  lemma DeltaTracks(levels: seq<PriceLevel>, h: History, n: int, side: Side, mark: Option<real>)
    requires h.WellFormed() && h.Has(n - 1) && h.Has(n)
    requires Tracks(levels, h, n - 1, side, mark)
    requires h.deltas[n - 1 - h.first].side == side
    ensures var d := h.deltas[n - 1 - h.first];
      Tracks(ApplyDelta(levels, d.price, d.quantity), h, n, side, Higher(mark, Dropped(levels, d.price, d.quantity)))
  {
    var d := h.deltas[n - 1 - h.first];
    var after := ApplyDelta(levels, d.price, d.quantity);
    var mark' := Higher(mark, Dropped(levels, d.price, d.quantity));
    DeltaOffers(levels, d.price, d.quantity, 0.0);
    forall p
      ensures QtyAt(after, p) <= h.Qty(n, side, p)
      ensures Above(p, mark') ==> QtyAt(after, p) == h.Qty(n, side, p)
    {
      DeltaOffers(levels, d.price, d.quantity, p);
      QtyAfter(h, n, side, p);
      assert h.Qty(n, side, p) >= 0.0;
      assert QtyAt(levels, p) <= h.Qty(n - 1, side, p);
      assert Above(p, mark') ==> Above(p, mark);
    }
  }

  lemma OtherSideTracks(levels: seq<PriceLevel>, h: History, n: int, side: Side, mark: Option<real>)
    requires h.Has(n - 1) && h.Has(n)
    requires Tracks(levels, h, n - 1, side, mark)
    requires h.deltas[n - 1 - h.first].side != side
    ensures Tracks(levels, h, n, side, mark)
  {
    forall p
      ensures h.Qty(n, side, p) == h.Qty(n - 1, side, p)
    {
      QtyAfter(h, n, side, p);
    }
    assert forall p :: QtyAt(levels, p) <= h.Qty(n - 1, side, p);
  }

  /**
   Replica exactness over every run: each book the client holds is the exchange's book at the book's
   own sequence number, less what truncation cut off at or below the watermark.
   */
  lemma {:induction false} BooksTrackTheExchange(worlds: nat -> World, run: seq<Event>, t: Ticker)
    requires Delivery(worlds, run) && t in Run(run).books
    ensures BookTracks(Run(run).books[t], worlds(Resets(run))(t), run, t)
  {
    var n := |run| - 1;
    var before, e := run[..n], run[n];
    var h := worlds(Resets(run))(t);
    assert before + [e] == run;
    RunAppend(before, e);
    assert GenuineAt(worlds, run, n);
    assert worlds(Resets(run))(t).WellFormed();
    if e.Snapshot? && e.ticker == t {
      assert Resets(run) == Resets(before);
      BookOfTracks(worlds(Resets(run)), before, e);
    } else {
      MapsAgree(before);
      DeliveryPrefix(worlds, run);
      assert t in Run(before).books && !Clears(e, t);
      assert Resets(run) == Resets(before);
      BooksTrackTheExchange(worlds, before, t);
      StepTracks(Run(before).books[t], h, before, e, t);
      StepOnBook(Run(before), e, t);
    }
  }

  lemma BookOfTracks(w: World, before: seq<Event>, e: Event)
    requires e.Snapshot? && Genuine(w, e) && w(e.ticker).WellFormed()
    ensures BookTracks(BookOf(e), w(e.ticker), before + [e], e.ticker)
  {
    assert (before + [e])[..|before|] == before;
    SnapshotTracks(e.yes, w(e.ticker), e.sequence, Yes);
    SnapshotTracks(e.no, w(e.ticker), e.sequence, No);
  }

  lemma DeliveryPrefix(worlds: nat -> World, run: seq<Event>)
    requires run != [] && Delivery(worlds, run)
    ensures Delivery(worlds, run[..|run|-1])
  {
    var before := run[..|run|-1];
    forall i | 0 <= i < |before|
      ensures GenuineAt(worlds, before, i)
    {
      assert GenuineAt(worlds, run, i);
      assert before[..i] == run[..i];
    }
  }

  lemma StepTracks(book: Book, h: History, before: seq<Event>, e: Event, t: Ticker)
    requires h.WellFormed() && BookTracks(book, h, before, t)
    requires !Clears(e, t) && !(e.Snapshot? && e.ticker == t)
    requires Follows(e, t, book) ==>
               h.Has(e.sequence) && h.deltas[e.sequence - 1 - h.first] == BookDelta(e.side, e.price, e.quantity)
    requires Holds(Run(before), t, book)
    ensures BookTracks(if Follows(e, t, book) then ApplyToBook(book, e) else book, h, before + [e], t)
  {
    if Follows(e, t, book) {
      FollowedDeltaTracks(book, h, before, e, t, Yes);
      FollowedDeltaTracks(book, h, before, e, t, No);
    } else {
      WatermarkAppend(before, e, t, Yes);
      WatermarkAppend(before, e, t, No);
    }
  }

  ghost predicate Holds(r: Replica, t: Ticker, book: Book) {
    t in r.books && r.books[t] == book && r.books.Keys == r.lastSequence.Keys && r.lastSequence[t] == book.sequence
  }

  lemma FollowedDeltaTracks(book: Book, h: History, before: seq<Event>, e: Event, t: Ticker, side: Side)
    requires h.WellFormed() && BookTracks(book, h, before, t) && Follows(e, t, book) && Holds(Run(before), t, book)
    requires h.Has(e.sequence) && h.deltas[e.sequence - 1 - h.first] == BookDelta(e.side, e.price, e.quantity)
    ensures Tracks(ApplyToBook(book, e).Levels(side), h, e.sequence, side, Watermark(before + [e], t, side))
  {
    WatermarkAppend(before, e, t, side);
    FollowedSideTracks(book.Levels(side), h, e, side, Watermark(before, t, side));
    LevelsAfter(book, e, side);
  }

  lemma LevelsAfter(book: Book, e: Event, side: Side)
    requires e.Delta?
    ensures ApplyToBook(book, e).Levels(side) ==
            if e.side == side then ApplyDelta(book.Levels(side), e.price, e.quantity) else book.Levels(side)
  {
  }

  /** One side of a book after a delta that it follows, be it a delta of this side or the other. */
  lemma FollowedSideTracks(levels: seq<PriceLevel>, h: History, e: Event, side: Side, mark: Option<real>)
    requires h.WellFormed() && e.Delta? && h.Has(e.sequence - 1) && h.Has(e.sequence)
    requires h.deltas[e.sequence - 1 - h.first] == BookDelta(e.side, e.price, e.quantity)
    requires Tracks(levels, h, e.sequence - 1, side, mark)
    ensures Tracks(if e.side == side then ApplyDelta(levels, e.price, e.quantity) else levels, h, e.sequence, side,
                   if e.side == side then Higher(mark, Dropped(levels, e.price, e.quantity)) else mark)
  {
    if e.side == side {
      DeltaTracks(levels, h, e.sequence, side, mark);
    } else {
      OtherSideTracks(levels, h, e.sequence, side, mark);
    }
  }

  lemma WatermarkAppend(before: seq<Event>, e: Event, t: Ticker, side: Side)
    requires !Clears(e, t) && !(e.Snapshot? && e.ticker == t)
    requires t in Run(before).books && Holds(Run(before), t, Run(before).books[t])
    ensures var book := Run(before).books[t];
      Watermark(before + [e], t, side) ==
      if Follows(e, t, book) && e.side == side
      then Higher(Watermark(before, t, side), Dropped(book.Levels(side), e.price, e.quantity))
      else Watermark(before, t, side)
  {
    assert (before + [e])[..|before + [e]|-1] == before;
  }

  /** A book that truncation never touched is the exchange's book, price by price. */
  lemma UntruncatedBooksAreExact(worlds: nat -> World, run: seq<Event>, t: Ticker, side: Side, p: real)
    requires Delivery(worlds, run) && t in Run(run).books
    requires Watermark(run, t, side).None?
    ensures var book := Run(run).books[t]; var h := worlds(Resets(run))(t);
      h.Has(book.sequence) && QtyAt(book.Levels(side), p) == h.Qty(book.sequence, side, p)
  {
    BooksTrackTheExchange(worlds, run, t);
    var book := Run(run).books[t];
    var h := worlds(Resets(run))(t);
    assert Tracks(book.Levels(side), h, book.sequence, side, Watermark(run, t, side));
    assert Above(p, Watermark(run, t, side));
  }

  /**
   Every update ever handed to subscribers was sorted, and at no price better than the exchange's book
   with the update's number, in the numbering of the time `i` at which it was handed out.
   */
  lemma {:induction false} UpdatesNeverOverstate(worlds: nat -> World, run: seq<Event>, k: nat) returns (i: nat)
    requires Delivery(worlds, run) && k < |Run(run).published|
    ensures i <= |run| && Understates(Run(run).published[k], worlds(Resets(run[..i])))
  {
    var n := |run| - 1;
    var before := run[..n];
    assert before + [run[n]] == run;
    DeliveryPrefix(worlds, run);
    if k < |Run(before).published| {
      i := UpdatesNeverOverstate(worlds, before, k);
      assert before[..i] == run[..i];
      PublishedStays(before, run[n], k);
    } else {
      var t := run[n].ticker;
      LastUpdate(before, run[n], k);
      BooksTrackTheExchange(worlds, run, t);
      TrackedBookUnderstates(Run(run).books[t], worlds(Resets(run)), run, t);
      i := |run|;
      assert run[..i] == run;
    }
  }

  lemma PublishedStays(before: seq<Event>, e: Event, k: nat)
    requires k < |Run(before).published|
    ensures k < |Run(before + [e]).published| && Run(before + [e]).published[k] == Run(before).published[k]
  {
    RunAppend(before, e);
  }

  lemma LastUpdate(before: seq<Event>, e: Event, k: nat)
    requires |Run(before).published| <= k < |Run(before + [e]).published|
    ensures (e.Snapshot? || e.Delta?) && e.ticker in Run(before + [e]).books
    ensures Run(before + [e]).published[k] == UpdateOf(e.ticker, Run(before + [e]).books[e.ticker])
  {
    RunAppend(before, e);
  }

  lemma TrackedBookUnderstates(book: Book, w: World, run: seq<Event>, t: Ticker)
    requires BookTracks(book, w(t), run, t)
    ensures Understates(UpdateOf(t, book), w)
  {
    assert Tracks(book.Levels(Yes), w(t), book.sequence, Yes, Watermark(run, t, Yes));
    assert Tracks(book.Levels(No), w(t), book.sequence, No, Watermark(run, t, No));
    var n := UpdateOf(t, book).book;
    forall p
      ensures QtyAt(n.bids, p) <= w(t).Qty(book.sequence, Yes, p)
      ensures QtyAt(n.asks, p) <= w(t).Qty(book.sequence, No, 1.0 - p)
    {
      NormalizedOffers(book.yes, book.no, p);
    }
    NormalizedOffers(book.yes, book.no, 0.0);
    NormalizedSidesAreSortedPermutations(book.yes, book.no);
    PermutedNonNegative(book.yes, n.bids);
    PermutedNonNegative(Complement(book.no), n.asks);
  }

  lemma PermutedNonNegative(a: seq<PriceLevel>, b: seq<PriceLevel>)
    requires NonNegative(a) && multiset(a) == multiset(b)
    ensures NonNegative(b)
  {
    forall i | 0 <= i < |b|
      ensures b[i].quantity >= 0.0
    {
      assert b[i] in multiset(a);
    }
  }

  /** A well-formed unified book that offers no more than the exchange does after change `u.sequence`. */
  ghost predicate Understates(u: Update, w: World) {
    && w(u.ticker).Has(u.sequence)
    && Sorted(Descending, u.book.bids) && Distinct(u.book.bids) && NonNegative(u.book.bids)
    && Sorted(Ascending, u.book.asks) && Distinct(u.book.asks) && NonNegative(u.book.asks)
    && (forall p :: QtyAt(u.book.bids, p) <= w(u.ticker).Qty(u.sequence, Yes, p))
    && (forall p :: QtyAt(u.book.asks, p) <= w(u.ticker).Qty(u.sequence, No, 1.0 - p))
  }

  /** The watermark is needed: what a delta cuts off is gone from the client's book. */
  lemma TruncationLoses(levels: seq<PriceLevel>, price: real, delta: real)
    requires Distinct(levels) && NonNegative(levels) && Dropped(levels, price, delta).Some?
    ensures var p := Dropped(levels, price, delta).value;
      && QtyAt(ApplyDelta(levels, price, delta), p) == 0.0
      && (p == price || exists i :: 0 <= i < |levels| && levels[i].price == p)
  {
    var grown := levels + [PriceLevel(price, delta)];
    var sorted := Sort(Descending, grown);
    SortSorts(Descending, grown);
    SameOffer(levels, grown, PriceLevel(price, delta), price);
    DistinctFromMultiset(grown, sorted);
    QtyAtAbsent(Truncate(sorted), sorted[MAX_ORDERBOOK_DEPTH].price);
    assert sorted[MAX_ORDERBOOK_DEPTH] in multiset(sorted);
    assert sorted[MAX_ORDERBOOK_DEPTH] in grown;
  }
}
