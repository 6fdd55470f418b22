/** The WebSocket client itself: mutable books, updated in place, that follow the protocol of KalshiReplica. */
module KalshiClient {
  import opened Levels
  import opened KalshiPrice
  import opened KalshiReplica

  class LocalOrderbook {
    var sequence: int
    var yes: seq<PriceLevel>
    var no: seq<PriceLevel>

    constructor (sequence: int, yes: seq<PriceLevel>, no: seq<PriceLevel>)
      ensures View() == Book(sequence, yes, no)
    {
      this.sequence, this.yes, this.no := sequence, yes, no;
    }

    function View(): Book
      reads this
    {
      Book(sequence, yes, no)
    }
  }

  class KalshiWebSocketClient {
    var orderbookState: map<Ticker, LocalOrderbook>
    var lastSequence: map<Ticker, int>
    var lastResubscribeTime: map<Ticker, int>
    /** The resubscriptions sent and the updates handed to subscribers, oldest first. */
    var requests: seq<Request>
    var published: seq<Update>

    /** Each ticker has a book of its own, and a sequence number that agrees with it. */
    ghost predicate Valid()
      reads this, orderbookState.Values
    {
      && (forall t, u :: t in orderbookState && u in orderbookState && t != u ==>
            orderbookState[t] != orderbookState[u])
      && orderbookState.Keys == lastSequence.Keys
      && (forall t :: t in orderbookState ==> orderbookState[t].sequence == lastSequence[t])
    }

    ghost function Books(): map<Ticker, Book>
      reads this, orderbookState.Values
    {
      map t | t in orderbookState :: orderbookState[t].View()
    }

    ghost function View(): Replica
      reads this, orderbookState.Values
    {
      Replica(Books(), lastSequence, lastResubscribeTime, requests, published)
    }

    constructor ()
      ensures Valid() && View() == EMPTY_REPLICA
      ensures fresh(orderbookState.Values)
    {
      orderbookState, lastSequence, lastResubscribeTime := map[], map[], map[];
      requests, published := [], [];
    }

    method HandleSnapshot(ticker: Ticker, sequence: int, yesLevels: seq<PriceLevel>, noLevels: seq<PriceLevel>)
      requires Valid()
      modifies this
      ensures Valid() && fresh(orderbookState.Values - old(orderbookState.Values))
      ensures View() == Step(old(View()), Snapshot(ticker, sequence, yesLevels, noLevels))
    {
      var yes := DeduplicateLevels(yesLevels);
      var no := DeduplicateLevels(noLevels);
      var state := new LocalOrderbook(sequence, yes, no);
      assert View() == old(View());
      SetState(ticker, state);
    }

    /** Replaces the book of a ticker and tells the subscribers. */
    method SetState(ticker: Ticker, state: LocalOrderbook)
      requires Valid() && state !in orderbookState.Values
      modifies this
      ensures Valid() && orderbookState.Values <= old(orderbookState.Values) + {state}
      ensures View() == Store(old(View()), ticker, state.View())
    {
      orderbookState := orderbookState[ticker := state];
      lastSequence := lastSequence[ticker := state.sequence];
      EmitUpdate(ticker, state);
      BooksAfterReplacing(ticker, state);
    }

    /** Giving `t` another book, and touching no book but that one, changes what is known of `t` alone. */
    twostate lemma BooksAfterReplacing(t: Ticker, new state: LocalOrderbook)
      requires old(Valid())
      requires orderbookState == old(orderbookState)[t := state]
      requires forall u :: u in old(orderbookState) && u != t ==> unchanged(old(orderbookState)[u])
      ensures Books() == old(Books())[t := state.View()]
    {
    }

    method HandleDelta(ticker: Ticker, sequence: int, price: real, delta: real, side: Side, now: int)
      requires Valid()
      modifies this, orderbookState.Values
      ensures Valid() && orderbookState == old(orderbookState)
      ensures View() == Step(old(View()), Delta(ticker, sequence, price, delta, side, now))
    {
      if ticker in lastSequence && sequence != lastSequence[ticker] + 1 {
        DebouncedResubscribe(ticker, now);
        return;
      }
      if ticker !in orderbookState {
        DebouncedResubscribe(ticker, now);
        return;
      }
      FollowDelta(ticker, sequence, price, delta, side);
    }

    /** Applies an expected delta to the book of its ticker and tells the subscribers. */
    method FollowDelta(ticker: Ticker, sequence: int, price: real, delta: real, side: Side)
      requires Valid() && ticker in orderbookState
      modifies this, orderbookState.Values
      ensures Valid() && orderbookState == old(orderbookState)
      ensures forall now :: View() ==
                Store(old(View()), ticker,
                      ApplyToBook(old(View()).books[ticker], Delta(ticker, sequence, price, delta, side, now)))
    {
      var state := orderbookState[ticker];
      ghost var book := state.View();
      ApplyDeltaTo(state, price, delta, side);
      state.sequence := sequence;
      lastSequence := lastSequence[ticker := sequence];
      EmitUpdate(ticker, state);
      BooksAfterReplacing(ticker, state);
      assert forall now :: state.View() == ApplyToBook(book, Delta(ticker, sequence, price, delta, side, now));
    }

    /** Changes the levels of one side of one book, in place. */
    method ApplyDeltaTo(state: LocalOrderbook, price: real, delta: real, side: Side)
      modifies state
      ensures state.sequence == old(state.sequence)
      ensures state.yes == if side.Yes? then ApplyDelta(old(state.yes), price, delta) else old(state.yes)
      ensures state.no == if side.Yes? then old(state.no) else ApplyDelta(old(state.no), price, delta)
    {
      var levels := if side.Yes? then state.yes else state.no;
      var levelIndex := FindLevel(levels, price);
      if delta > 0.0 {
        if levelIndex < |levels| {
          levels := levels[levelIndex := PriceLevel(price, levels[levelIndex].quantity + delta)];
        } else {
          levels := levels + [PriceLevel(price, delta)];
          levels := Sort(Descending, levels);
          if |levels| > MAX_ORDERBOOK_DEPTH {
            levels := levels[..MAX_ORDERBOOK_DEPTH];
          }
        }
      } else if levelIndex < |levels| {
        levels := levels[levelIndex := PriceLevel(price, levels[levelIndex].quantity + delta)];
        if levels[levelIndex].quantity <= 0.0 {
          levels := levels[..levelIndex] + levels[levelIndex+1..];
        }
      }
      if side.Yes? {
        state.yes := levels;
      } else {
        state.no := levels;
      }
    }

    static method FindLevel(levels: seq<PriceLevel>, price: real) returns (i: nat)
      ensures i == FindIndex(levels, price)
    {
      i := 0;
      while i < |levels| && levels[i].price != price
        invariant i <= |levels|
        invariant FindIndex(levels, price) == i + FindIndex(levels[i..], price)
      {
        i := i + 1;
      }
    }

    /** One level a price; a price seen again keeps its place and takes the new level. */
    static method DeduplicateLevels(levels: seq<PriceLevel>) returns (seen: seq<PriceLevel>)
      ensures seen == Deduplicate(levels)
    {
      seen := [];
      for n := 0 to |levels|
        invariant seen == Deduplicate(levels[..n])
      {
        var i := FindLevel(seen, levels[n].price);
        if i < |seen| {
          seen := seen[i := levels[n]];
        } else {
          seen := seen + [levels[n]];
        }
        assert levels[..n+1][..n] == levels[..n];
      }
      assert levels[..|levels|] == levels;
    }

    method DebouncedResubscribe(ticker: Ticker, now: int)
      modifies this`lastResubscribeTime, this`requests
      ensures View() == Resubscribe(old(View()), ticker, now)
    {
      var lastTime := if ticker in lastResubscribeTime then lastResubscribeTime[ticker] else 0;
      if now - lastTime < RESUBSCRIBE_COOLDOWN_MS {
        return;
      }
      lastResubscribeTime := lastResubscribeTime[ticker := now];
      requests := requests + [Request(ticker, now)];
    }

    method EmitUpdate(ticker: Ticker, state: LocalOrderbook)
      modifies this`published
      ensures published == old(published) + [UpdateOf(ticker, state.View())]
    {
      var book := NormalizeKalshiLevels(state.yes, state.no);
      published := published + [Update(ticker, state.sequence, book)];
    }

    method HandleUnsubscribe(ticker: Ticker)
      requires Valid()
      modifies this
      ensures Valid() && orderbookState.Values <= old(orderbookState.Values)
      ensures View() == Step(old(View()), Unsubscribe(ticker))
    {
      orderbookState := orderbookState - {ticker};
      lastSequence := lastSequence - {ticker};
      lastResubscribeTime := lastResubscribeTime - {ticker};
      BooksAfterRemoving(ticker);
    }

    twostate lemma BooksAfterRemoving(t: Ticker)
      requires orderbookState == old(orderbookState) - {t}
      requires forall u :: u in old(orderbookState) ==> unchanged(old(orderbookState)[u])
      ensures Books() == old(Books()) - {t}
    {
    }

    method HandleDisconnect()
      modifies this
      ensures Valid() && orderbookState == map[]
      ensures View() == Step(old(View()), Disconnect)
    {
      orderbookState, lastSequence, lastResubscribeTime := map[], map[], map[];
    }

    /** The reconnect timer fires: the books go, the resubscription times stay. */
    method HandleReconnect()
      modifies this
      ensures Valid() && orderbookState == map[]
      ensures View() == Step(old(View()), Reconnect)
    {
      orderbookState, lastSequence := map[], map[];
    }
  }

  /** A client fed a run of events ends in the state that the protocol gives for the run. */
  method Drive(run: seq<Event>) returns (client: KalshiWebSocketClient)
    ensures fresh(client) && client.Valid() && client.View() == Run(run)
  {
    client := new KalshiWebSocketClient();
    for n := 0 to |run|
      invariant fresh(client) && fresh(client.orderbookState.Values) && client.Valid()
      invariant client.View() == Run(run[..n])
    {
      assert run[..n+1][..n] == run[..n];
      match run[n]
      case Snapshot(t, s, yes, no) => client.HandleSnapshot(t, s, yes, no);
      case Delta(t, s, p, q, side, now) => client.HandleDelta(t, s, p, q, side, now);
      case Unsubscribe(t) => client.HandleUnsubscribe(t);
      case Disconnect => client.HandleDisconnect();
      case Reconnect => client.HandleReconnect();
    }
    assert run[..|run|] == run;
  }
}
