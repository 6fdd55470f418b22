/**
 Acquisitions that overlap: a call reads the tokens when it enters and takes one later, and other calls may come in
 between. The count of tokens then has no floor, but the calls let through in a window still have a bound.
 */
module RateLimiterOverlap {
  import opened Reals
  import opened RateLimiter

  /** A call waits for its timer, is let through, and is finished once it has taken its token. */
  datatype Call = Waiting(kind: Kind, since: real) | Through(kind: Kind, at: real) | Finished(kind: Kind)

  datatype Flight = Flight(bucket: Bucket, calls: seq<Call>)

  /** One uninterrupted piece of work: between any two of them any others may happen. */
  datatype Move =
    | Enter(kind: Kind, now: real)
    | Wake(call: nat, now: real)
    | TakeToken(call: nat, now: real)
    | Query(now: real)

  /** A timer fires no earlier than it was set to, and a token is taken once, by a call that was let through. */
  predicate Enabled(l: Limits, s: Flight, v: Move)
    requires l.Valid()
  {
    match v
    case Enter(_, _) => true
    case Wake(i, now) =>
      i < |s.calls| && s.calls[i].Waiting? && now >= s.calls[i].since + WaitMs(l.Rate(s.calls[i].kind))
    case TakeToken(i, _) => i < |s.calls| && s.calls[i].Through?
    case Query(_) => true
  }

  function Entered(kind: Kind, now: real, b: Bucket): Call {
    if b.Tokens(kind) < 1.0 then Waiting(kind, now) else Through(kind, now)
  }

  /** Waiting or not, a call that goes on is let through, whatever the tokens are by then. */
  function Step(l: Limits, s: Flight, v: Move): Flight
    requires l.Valid()
  {
    if !Enabled(l, s, v) then s
    else
      match v
      case Enter(kind, now) =>
        var b := Refill(l, s.bucket, now);
        Flight(b, s.calls + [Entered(kind, now, b)])
      case Wake(i, now) => Flight(Refill(l, s.bucket, now), s.calls[i := Through(s.calls[i].kind, now)])
      case TakeToken(i, _) => Flight(Take(s.bucket, s.calls[i].kind), s.calls[i := Finished(s.calls[i].kind)])
      case Query(now) => Flight(Refill(l, s.bucket, now), s.calls)
  }

  function After(l: Limits, b: Bucket, moves: seq<Move>): Flight
    requires l.Valid()
  {
    if moves == [] then Flight(b, []) else Step(l, After(l, b, moves[..|moves|-1]), moves[|moves|-1])
  }

  function TimeOf(b: Bucket, moves: seq<Move>): real {
    if moves == [] then b.lastRefill else moves[|moves|-1].now
  }

  /** Every move is enabled, and the clock never runs backwards. */
  predicate Possible(l: Limits, b: Bucket, moves: seq<Move>)
    requires l.Valid()
  {
    moves == [] ||
    var before, v := moves[..|moves|-1], moves[|moves|-1];
    Possible(l, b, before) && Enabled(l, After(l, b, before), v) && v.now >= TimeOf(b, before)
  }

  // ----- gauges -----

  /** What is summed over calls: those in flight, those let through since `from`, and waits so far, up to a full one. */
  datatype Gauge = InFlight(kind: Kind) | Newly(kind: Kind, from: real) | Waited(kind: Kind, full: real, now: real)

  function Weight(c: Call, g: Gauge): real {
    match g
    case InFlight(kind) => if c.kind == kind && !c.Finished? then 1.0 else 0.0
    case Newly(kind, from) => if c.Through? && c.kind == kind && c.at >= from then 1.0 else 0.0
    case Waited(kind, full, now) => if c.Waiting? && c.kind == kind then Min(full, Max(0.0, now - c.since)) else 0.0
  }

  function Sum(calls: seq<Call>, g: Gauge): real {
    if calls == [] then 0.0 else Sum(calls[..|calls|-1], g) + Weight(calls[|calls|-1], g)
  }

  lemma {:induction false} SumMove(calls: seq<Call>, i: nat, c: Call, g: Gauge)
    requires i < |calls|
    ensures Sum(calls[i := c], g) == Sum(calls, g) - Weight(calls[i], g) + Weight(c, g)
  {
    var n := |calls| - 1;
    if i < n {
      SumMove(calls[..n], i, c, g);
      assert calls[i := c][..n] == calls[..n][i := c];
    } else {
      assert calls[i := c][..n] == calls[..n];
    }
  }

  lemma SumAppend(calls: seq<Call>, c: Call, g: Gauge)
    ensures Sum(calls + [c], g) == Sum(calls, g) + Weight(c, g)
  {
    assert (calls + [c])[..|calls|] == calls;
  }

  /** The calls newly let through and the waits of others come to no more than a full wait of each call in flight. */
  lemma {:induction false} InFlightCovers(calls: seq<Call>, kind: Kind, from: real, full: real, now: real)
    requires full > 0.0
    ensures Sum(calls, Newly(kind, from)) >= 0.0 && Sum(calls, Waited(kind, full, now)) >= 0.0
    ensures Times(Sum(calls, Newly(kind, from)), full) + Sum(calls, Waited(kind, full, now))
         <= Times(Sum(calls, InFlight(kind)), full)
  {
    if calls != [] {
      var rest, c := calls[..|calls|-1], calls[|calls|-1];
      InFlightCovers(rest, kind, from, full, now);
      TimesSums(Sum(rest, Newly(kind, from)), Weight(c, Newly(kind, from)), full);
      TimesSums(Sum(rest, InFlight(kind)), Weight(c, InFlight(kind)), full);
      TimesSums(0.0, 0.0, full);
    } else {
      TimesSums(0.0, 0.0, full);
    }
  }

  /** As time passes each call in flight adds at most that time. */
  lemma {:induction false} WaitingGrows(calls: seq<Call>, kind: Kind, full: real, t: real, t': real)
    requires t <= t'
    ensures Sum(calls, Waited(kind, full, t'))
         <= Sum(calls, Waited(kind, full, t)) + Times(Sum(calls, InFlight(kind)), t' - t)
  {
    if calls != [] {
      var rest, c := calls[..|calls|-1], calls[|calls|-1];
      WaitingGrows(rest, kind, full, t, t');
      TimesSums(Sum(rest, InFlight(kind)), Weight(c, InFlight(kind)), t' - t);
    }
  }

  function Times(n: real, x: real): real {
    n * x
  }

  lemma TimesSums(a: real, b: real, x: real)
    ensures Times(a + b, x) == Times(a, x) + Times(b, x)
    ensures Times(x, a + b) == Times(x, a) + Times(x, b)
    ensures Times(1.0, x) == x && Times(0.0, x) == 0.0
  {
  }

  lemma TimesGrows(a: real, b: real, x: real)
    requires a <= b && x >= 0.0
    ensures Times(a, x) <= Times(b, x)
  {
    ProductIsNonNegative(b - a, x);
    assert (b - a) * x == b * x - a * x;
  }

  // ----- what a run lets through -----

  /** The move lets a call of `kind` through. */
  predicate Lets(l: Limits, s: Flight, v: Move, kind: Kind) {
    || (v.Enter? && v.kind == kind && Refill(l, s.bucket, v.now).Tokens(kind) >= 1.0)
    || (v.Wake? && v.call < |s.calls| && s.calls[v.call].kind == kind)
  }

  function LetBy(l: Limits, s: Flight, v: Move, kind: Kind): real {
    if Lets(l, s, v, kind) then 1.0 else 0.0
  }

  /** The calls of one kind let through from time `from` to time `until`. */
  function Granted(l: Limits, b: Bucket, moves: seq<Move>, kind: Kind, from: real, until: real): nat
    requires l.Valid()
  {
    if moves == [] then 0
    else
      var before, v := moves[..|moves|-1], moves[|moves|-1];
      Granted(l, b, before, kind, from, until)
      + if Lets(l, After(l, b, before), v, kind) && from <= v.now <= until then 1 else 0
  }

  /** The move takes the token of a call of `kind` let through at `from` or later. */
  predicate Takes(s: Flight, v: Move, kind: Kind, from: real) {
    && v.TakeToken? && v.call < |s.calls|
    && s.calls[v.call].Through? && s.calls[v.call].kind == kind && s.calls[v.call].at >= from
  }

  function Taken(l: Limits, b: Bucket, moves: seq<Move>, kind: Kind, from: real): nat
    requires l.Valid()
  {
    if moves == [] then 0
    else
      var before, v := moves[..|moves|-1], moves[|moves|-1];
      Taken(l, b, before, kind, from) + if Takes(After(l, b, before), v, kind, from) then 1 else 0
  }

  /** No more than `m` calls of `kind` are ever in flight. */
  predicate AtMost(l: Limits, b: Bucket, moves: seq<Move>, kind: Kind, m: nat)
    requires l.Valid()
  {
    Sum(After(l, b, moves).calls, InFlight(kind)) <= m as real
    && (moves != [] ==> AtMost(l, b, moves[..|moves|-1], kind, m))
  }

  ghost predicate NotOverfull(l: Limits, b: Bucket) {
    forall kind: Kind :: b.Tokens(kind) <= l.Max(kind)
  }

  /** A refill neither overfills the bucket nor raises its potential, and caps that but for 0.01. */
  lemma RefillCaps(l: Limits, b: Bucket, kind: Kind, now: real)
    requires l.Valid() && NotOverfull(l, b) && now >= b.lastRefill
    ensures var r := Refill(l, b, now);
      && NotOverfull(l, r) && b.lastRefill <= r.lastRefill <= now
      && r.Tokens(kind) <= Potential(l, r, kind, now) <= Potential(l, b, kind, now)
      && Potential(l, r, kind, now) <= l.Max(kind) + 0.01
  {
    AccruedGrows(l.readRate, now - b.lastRefill);
    AccruedGrows(l.writeRate, now - b.lastRefill);
    assert b.Tokens(Read) <= l.Max(Read) && b.Tokens(Write) <= l.Max(Write);
    assert Accrued(l.Rate(kind), now - now) == 0.0;
  }

  lemma {:induction false} BucketIsNotOverfull(l: Limits, b: Bucket, moves: seq<Move>)
    requires l.Valid() && NotOverfull(l, b) && Possible(l, b, moves)
    ensures NotOverfull(l, After(l, b, moves).bucket) && After(l, b, moves).bucket.lastRefill <= TimeOf(b, moves)
  {
    if moves != [] {
      var before, v := moves[..|moves|-1], moves[|moves|-1];
      BucketIsNotOverfull(l, b, before);
      var s := After(l, b, before);
      RefillCaps(l, s.bucket, Read, v.now);
      if v.TakeToken? {
        TakingDoesNotOverfill(l, s.bucket, s.calls[v.call].kind);
      }
    }
  }

  lemma TakingDoesNotOverfill(l: Limits, b: Bucket, kind: Kind)
    requires NotOverfull(l, b)
    ensures NotOverfull(l, Take(b, kind))
  {
    assert b.Tokens(Read) <= l.Max(Read) && b.Tokens(Write) <= l.Max(Write);
  }

  /** What a move adds to a gauge: that of a call that comes in, or the change in one that goes on. */
  function Change(l: Limits, s: Flight, v: Move, g: Gauge): real
    requires l.Valid() && Enabled(l, s, v)
  {
    match v
    case Enter(kind, now) => Weight(Entered(kind, now, Refill(l, s.bucket, now)), g)
    case Wake(i, now) => Weight(Through(s.calls[i].kind, now), g) - Weight(s.calls[i], g)
    case TakeToken(i, _) => Weight(Finished(s.calls[i].kind), g) - Weight(s.calls[i], g)
    case Query(_) => 0.0
  }

  lemma StepChanges(l: Limits, s: Flight, v: Move, g: Gauge)
    requires l.Valid() && Enabled(l, s, v)
    ensures Sum(Step(l, s, v).calls, g) == Sum(s.calls, g) + Change(l, s, v, g)
  {
    match v
    case Enter(kind, now) => SumAppend(s.calls, Entered(kind, now, Refill(l, s.bucket, now)), g);
    case Wake(i, now) => SumMove(s.calls, i, Through(s.calls[i].kind, now), g);
    case TakeToken(i, _) => SumMove(s.calls, i, Finished(s.calls[i].kind), g);
    case Query(_) =>
  }

  /** One step keeps the balance of calls let through, tokens taken and calls that still owe theirs. */
  lemma StepBalances(l: Limits, s: Flight, v: Move, kind: Kind, from: real)
    requires l.Valid() && Enabled(l, s, v)
    ensures (if Lets(l, s, v, kind) && from <= v.now then 1.0 else 0.0)
         == (if Takes(s, v, kind, from) then 1.0 else 0.0)
            + Sum(Step(l, s, v).calls, Newly(kind, from)) - Sum(s.calls, Newly(kind, from))
  {
    StepChanges(l, s, v, Newly(kind, from));
  }

  lemma {:induction false} CallsBalance(l: Limits, b: Bucket, moves: seq<Move>, kind: Kind, from: real, until: real)
    requires l.Valid() && Possible(l, b, moves) && TimeOf(b, moves) <= until
    ensures Granted(l, b, moves, kind, from, until) as real
         == Taken(l, b, moves, kind, from) as real + Sum(After(l, b, moves).calls, Newly(kind, from))
  {
    if moves != [] {
      CallsBalance(l, b, moves[..|moves|-1], kind, from, until);
      StepBalances(l, After(l, b, moves[..|moves|-1]), moves[|moves|-1], kind, from);
    }
  }

  /** Until a call has been let through, no newly let one has taken a token. */
  lemma FirstTakesNothing(l: Limits, b: Bucket, moves: seq<Move>, kind: Kind, from: real, until: real)
    requires l.Valid() && Possible(l, b, moves) && moves != [] && TimeOf(b, moves) <= until
    requires Granted(l, b, moves[..|moves|-1], kind, from, until) == 0 < Granted(l, b, moves, kind, from, until)
    ensures Taken(l, b, moves, kind, from) == 0
  {
    var before := moves[..|moves|-1];
    CallsBalance(l, b, before, kind, from, until);
    InFlightCovers(After(l, b, before).calls, kind, from, l.Rate(kind), 0.0);
  }

  /** One step raises the potential by no more than accrues, less the token it takes; letting through caps it. */
  lemma StepAccounts(l: Limits, s: Flight, v: Move, kind: Kind, from: real, t: real)
    requires l.Valid() && NotOverfull(l, s.bucket) && Enabled(l, s, v) && s.bucket.lastRefill <= t <= v.now
    ensures Potential(l, Step(l, s, v).bucket, kind, v.now) + (if Takes(s, v, kind, from) then 1.0 else 0.0)
         <= Potential(l, s.bucket, kind, t) + Accrued(l.Rate(kind), v.now - t)
    ensures Lets(l, s, v, kind) ==> Potential(l, Step(l, s, v).bucket, kind, v.now) <= l.Max(kind) + 0.01
  {
    PotentialGrows(l, s.bucket, kind, t, v.now);
    RefillCaps(l, s.bucket, kind, v.now);
  }

  /** Tokens taken by newly let calls come out of the capacity and what accrues since `from`. */
  lemma {:induction false} TokensAreAccountedFor(l: Limits, b: Bucket, moves: seq<Move>, kind: Kind,
                                                 from: real, until: real)
    requires l.Valid() && NotOverfull(l, b) && Possible(l, b, moves) && TimeOf(b, moves) <= until
    requires Granted(l, b, moves, kind, from, until) > 0
    ensures from <= TimeOf(b, moves)
    ensures Potential(l, After(l, b, moves).bucket, kind, TimeOf(b, moves)) + Taken(l, b, moves, kind, from) as real
         <= l.Max(kind) + 0.01 + Accrued(l.Rate(kind), TimeOf(b, moves) - from)
  {
    var before, v := moves[..|moves|-1], moves[|moves|-1];
    var t := TimeOf(b, before);
    BucketIsNotOverfull(l, b, before);
    StepAccounts(l, After(l, b, before), v, kind, from, t);
    if Granted(l, b, before, kind, from, until) > 0 {
      TokensAreAccountedFor(l, b, before, kind, from, until);
      AccruedSums(l.Rate(kind), t - from, v.now - t);
      assert (t - from) + (v.now - t) == v.now - from;
    } else {
      FirstTakesNothing(l, b, moves, kind, from, until);
      AccruedGrows(l.Rate(kind), v.now - from);
    }
  }

  // ----- the bound -----

  /** What `m` calls at a time may be let through in a window in which `a` tokens accrue. */
  function Allowance(max: real, m: nat, a: real): real {
    max + 0.01 + (m as real - 1.0) + Times(m as real, a)
  }

  /**
   Counted in full waits: the calls let through since `from`, and the waits that others have behind them, come to no
   more than a full wait for each of the capacity and the other calls at a time, and `m` times the time since `from`.
   */
  ghost predicate Allowed(l: Limits, b: Bucket, moves: seq<Move>, kind: Kind, m: nat, full: real,
                          from: real, until: real)
    requires l.Valid()
  {
    Fits(Granted(l, b, moves, kind, from, until) as real,
         Sum(After(l, b, moves).calls, Waited(kind, full, TimeOf(b, moves))),
         l.Max(kind), m as real, full, TimeOf(b, moves) - from)
  }

  predicate Fits(granted: real, waited: real, max: real, m: real, full: real, time: real) {
    Times(granted, full) + waited <= Times(max + 0.01 + (m - 1.0), full) + Times(m, time)
  }

  lemma {:induction false} GrantsAreAllowed(l: Limits, b: Bucket, moves: seq<Move>, kind: Kind, m: nat,
                                            from: real, until: real)
    requires l.Valid() && NotOverfull(l, b) && Possible(l, b, moves) && AtMost(l, b, moves, kind, m)
    requires TimeOf(b, moves) <= until && Granted(l, b, moves, kind, from, until) > 0
    ensures from <= TimeOf(b, moves) && Allowed(l, b, moves, kind, m, WaitMs(l.Rate(kind)), from, until)
  {
    var before := moves[..|moves|-1];
    if Granted(l, b, before, kind, from, until) > 0 {
      GrantsAreAllowed(l, b, before, kind, m, from, until);
    }
    OneMoreIsAllowed(l, b, moves, kind, m, from, until);
  }

  lemma OneMoreIsAllowed(l: Limits, b: Bucket, moves: seq<Move>, kind: Kind, m: nat, from: real, until: real)
    requires l.Valid() && NotOverfull(l, b) && Possible(l, b, moves) && AtMost(l, b, moves, kind, m) && moves != []
    requires TimeOf(b, moves) <= until && Granted(l, b, moves, kind, from, until) > 0
    requires var before := moves[..|moves|-1];
      Granted(l, b, before, kind, from, until) > 0 ==>
        from <= TimeOf(b, before) && Allowed(l, b, before, kind, m, WaitMs(l.Rate(kind)), from, until)
    ensures from <= TimeOf(b, moves) && Allowed(l, b, moves, kind, m, WaitMs(l.Rate(kind)), from, until)
  {
    var before, v := moves[..|moves|-1], moves[|moves|-1];
    if Granted(l, b, before, kind, from, until) == 0 {
      FirstTakesNothing(l, b, moves, kind, from, until);
      BalanceIsAllowed(l, b, moves, kind, m, from, until);
    } else if v.Enter? && Lets(l, After(l, b, before), v, kind) {
      EnteringIsInFlight(l, After(l, b, before), v, kind);
      PassingLeavesAToken(l, b, moves, kind, from, until);
      BalanceIsAllowed(l, b, moves, kind, m, from, until);
    } else {
      var lets := OneMoreStep(l, b, moves, kind, from, until);
      LaterIsAllowed(l, b, moves, kind, m, WaitMs(l.Rate(kind)), from, until, lets);
    }
  }

  /** If nothing taken by a newly let call is missing from the capacity, the allowance holds. */
  lemma BalanceIsAllowed(l: Limits, b: Bucket, moves: seq<Move>, kind: Kind, m: nat, from: real, until: real)
    requires l.Valid() && Possible(l, b, moves) && Sum(After(l, b, moves).calls, InFlight(kind)) <= m as real
    requires from <= TimeOf(b, moves) <= until
    requires var taken := Taken(l, b, moves, kind, from) as real;
      || taken == 0.0
      || (m >= 1 && taken + 1.0 <= l.Max(kind) + 0.01 + Accrued(l.Rate(kind), TimeOf(b, moves) - from))
    ensures Allowed(l, b, moves, kind, m, WaitMs(l.Rate(kind)), from, until)
  {
    var calls, rate, t := After(l, b, moves).calls, l.Rate(kind), TimeOf(b, moves);
    WaitIsPositive(rate);
    CallsBalance(l, b, moves, kind, from, until);
    InFlightCovers(calls, kind, from, WaitMs(rate), t);
    AccruedOverWait(rate, t - from);
    AccruedGrows(rate, t - from);
    OwedFits(l.Max(kind), m as real, WaitMs(rate), t - from, Accrued(rate, t - from),
             Granted(l, b, moves, kind, from, until) as real, Taken(l, b, moves, kind, from) as real,
             Sum(calls, Newly(kind, from)), Sum(calls, Waited(kind, WaitMs(rate), t)), Sum(calls, InFlight(kind)));
  }

  lemma AccruedOverWait(rate: real, ms: real)
    requires rate > 0.0
    ensures Times(Accrued(rate, ms), WaitMs(rate)) == ms
  {
    assert (1.0 / rate) * rate == 1.0;
    assert (ms / 1000.0 * rate) * (1.0 / rate * 1000.0) == ms / 1000.0 * ((1.0 / rate) * rate) * 1000.0;
  }

  /** When what is let through is what was taken and what calls in flight still owe. */
  lemma OwedFits(max: real, m: real, full: real, time: real, a: real, granted: real, taken: real, newly: real,
                 waited: real, flying: real)
    requires max >= 1.0 && full > 0.0 && time >= 0.0 && Times(a, full) == time && granted == taken + newly
    requires Times(newly, full) + waited <= Times(flying, full) && flying <= m && m >= 0.0
    requires taken == 0.0 || (taken + 1.0 <= max + 0.01 + a && m >= 1.0)
    ensures Fits(granted, waited, max, m, full, time)
  {
    TimesSums(taken, newly, full);
    TimesGrows(flying, m, full);
    TimesSums(max + 0.01 - 1.0, m, full);
    TimesGrows(0.0, m, time);
    TimesSums(0.0, 0.0, time);
    TimesSums(0.0, 0.0, full);
    if taken == 0.0 {
      TimesGrows(0.0, max + 0.01 - 1.0, full);
    } else {
      TimesGrows(taken, max + 0.01 - 1.0 + a, full);
      TimesSums(max + 0.01 - 1.0, a, full);
      TimesGrows(1.0, m, time);
    }
  }

  lemma TokensArePotential(l: Limits, b: Bucket, kind: Kind, t: real)
    requires l.Valid() && b.lastRefill <= t
    ensures b.Tokens(kind) <= Potential(l, b, kind, t)
  {
    AccruedGrows(l.Rate(kind), t - b.lastRefill);
  }

  lemma EnteringIsInFlight(l: Limits, s: Flight, v: Move, kind: Kind)
    requires l.Valid() && v.Enter? && Lets(l, s, v, kind)
    ensures Step(l, s, v).bucket.Tokens(kind) >= 1.0 && Sum(Step(l, s, v).calls, InFlight(kind)) >= 1.0
  {
    SumAppend(s.calls, Through(kind, v.now), InFlight(kind));
    InFlightIsNonNegative(s.calls, kind);
  }

  lemma {:induction false} InFlightIsNonNegative(calls: seq<Call>, kind: Kind)
    ensures Sum(calls, InFlight(kind)) >= 0.0
  {
    if calls != [] {
      InFlightIsNonNegative(calls[..|calls|-1], kind);
    }
  }

  /** A call that finds a token leaves one of the capacity for itself. */
  lemma PassingLeavesAToken(l: Limits, b: Bucket, moves: seq<Move>, kind: Kind, from: real, until: real)
    requires l.Valid() && NotOverfull(l, b) && Possible(l, b, moves) && moves != [] && TimeOf(b, moves) <= until
    requires Granted(l, b, moves, kind, from, until) > 0 && After(l, b, moves).bucket.Tokens(kind) >= 1.0
    ensures Taken(l, b, moves, kind, from) as real + 1.0
         <= l.Max(kind) + 0.01 + Accrued(l.Rate(kind), TimeOf(b, moves) - from)
  {
    TokensAreAccountedFor(l, b, moves, kind, from, until);
    BucketIsNotOverfull(l, b, moves);
    TokensArePotential(l, After(l, b, moves).bucket, kind, TimeOf(b, moves));
  }

  lemma LaterIsAllowed(l: Limits, b: Bucket, moves: seq<Move>, kind: Kind, m: nat, full: real, from: real, until: real,
                       lets: real)
    requires l.Valid() && moves != [] && TimeOf(b, moves[..|moves|-1]) <= TimeOf(b, moves)
    requires Sum(After(l, b, moves[..|moves|-1]).calls, InFlight(kind)) <= m as real
    requires Allowed(l, b, moves[..|moves|-1], kind, m, full, from, until)
    requires AddsWaits(l, b, moves, kind, full, from, until, lets)
    ensures Allowed(l, b, moves, kind, m, full, from, until)
  {
    var before, t, now := moves[..|moves|-1], TimeOf(b, moves[..|moves|-1]), TimeOf(b, moves);
    GrowthFits(Granted(l, b, before, kind, from, until) as real, lets, Granted(l, b, moves, kind, from, until) as real,
               Sum(After(l, b, before).calls, Waited(kind, full, t)),
               Sum(After(l, b, moves).calls, Waited(kind, full, now)),
               Sum(After(l, b, before).calls, InFlight(kind)), l.Max(kind), m as real, full, t - from, now - from,
               now - t);
  }

  /** The last move lets `lets` calls through, against their own full waits; the others add the time that passed. */
  ghost predicate AddsWaits(l: Limits, b: Bucket, moves: seq<Move>, kind: Kind, full: real, from: real, until: real,
                            lets: real)
    requires l.Valid() && moves != []
  {
    var before, calls := moves[..|moves|-1], After(l, b, moves[..|moves|-1]).calls;
    var t, now := TimeOf(b, before), TimeOf(b, moves);
    && Granted(l, b, moves, kind, from, until) as real == Granted(l, b, before, kind, from, until) as real + lets
    && Times(lets, full) + Sum(After(l, b, moves).calls, Waited(kind, full, now))
       <= Sum(calls, Waited(kind, full, t)) + Times(Sum(calls, InFlight(kind)), now - t)
  }

  lemma OneMoreStep(l: Limits, b: Bucket, moves: seq<Move>, kind: Kind, from: real, until: real) returns (lets: real)
    requires l.Valid() && moves != [] && Enabled(l, After(l, b, moves[..|moves|-1]), moves[|moves|-1])
    requires from <= TimeOf(b, moves[..|moves|-1]) <= TimeOf(b, moves) <= until
    requires !(moves[|moves|-1].Enter? && Lets(l, After(l, b, moves[..|moves|-1]), moves[|moves|-1], kind))
    ensures AddsWaits(l, b, moves, kind, WaitMs(l.Rate(kind)), from, until, lets)
  {
    var before, v := moves[..|moves|-1], moves[|moves|-1];
    lets := LetBy(l, After(l, b, before), v, kind);
    GrantedStep(l, b, moves, kind, from, until);
    StepAddsWaits(l, After(l, b, before), v, kind, TimeOf(b, before));
  }

  lemma GrantedStep(l: Limits, b: Bucket, moves: seq<Move>, kind: Kind, from: real, until: real)
    requires l.Valid() && moves != [] && from <= TimeOf(b, moves) <= until
    ensures Granted(l, b, moves, kind, from, until) as real
         == Granted(l, b, moves[..|moves|-1], kind, from, until) as real
            + LetBy(l, After(l, b, moves[..|moves|-1]), moves[|moves|-1], kind)
  {
  }

  lemma GrowthFits(granted: real, lets: real, granted': real, waited: real, waited': real, flying: real,
                   max: real, m: real, full: real, time: real, time': real, passed: real)
    requires Fits(granted, waited, max, m, full, time) && passed == time' - time >= 0.0 && flying <= m
    requires Times(lets, full) + waited' <= waited + Times(flying, passed) && granted' == granted + lets
    ensures Fits(granted', waited', max, m, full, time')
  {
    TimesSums(granted, lets, full);
    TimesGrows(flying, m, passed);
    TimesSums(time, passed, m);
  }

  /** A call that has waited is let through against its own full wait; the others add the time that passed. */
  lemma StepAddsWaits(l: Limits, s: Flight, v: Move, kind: Kind, t: real)
    requires l.Valid() && Enabled(l, s, v) && t <= v.now && !(v.Enter? && Lets(l, s, v, kind))
    ensures var full := WaitMs(l.Rate(kind));
      Times(LetBy(l, s, v, kind), full) + Sum(Step(l, s, v).calls, Waited(kind, full, v.now))
      <= Sum(s.calls, Waited(kind, full, t)) + Times(Sum(s.calls, InFlight(kind)), v.now - t)
  {
    var full := WaitMs(l.Rate(kind));
    WaitingGrows(s.calls, kind, full, t, v.now);
    StepChanges(l, s, v, Waited(kind, full, v.now));
    WaitIsPositive(l.Rate(kind));
    TimesSums(0.0, 0.0, full);
  }

  /**
   However calls overlap, with at most `m` of a kind in flight at a time, any window of `window` milliseconds lets
   through at most the capacity, `m - 1` more, `m` times what accrues, and 0.01.
   */
  lemma {:induction false} OverlappingGrantsInWindow(l: Limits, b: Bucket, moves: seq<Move>, kind: Kind, m: nat,
                                                     from: real, window: real)
    requires l.Valid() && NotOverfull(l, b) && Possible(l, b, moves) && AtMost(l, b, moves, kind, m) && window >= 0.0
    ensures Granted(l, b, moves, kind, from, from + window) as real
         <= Allowance(l.Max(kind), m, Accrued(l.Rate(kind), window))
  {
    var until := from + window;
    if moves != [] && TimeOf(b, moves) > until {
      OverlappingGrantsInWindow(l, b, moves[..|moves|-1], kind, m, from, window);
    } else if Granted(l, b, moves, kind, from, until) > 0 {
      GrantsAreAllowed(l, b, moves, kind, m, from, until);
      AllowedInWindow(l, b, moves, kind, m, from, window);
    } else {
      NothingIsAllowed(l, kind, m, window);
    }
  }

  lemma NothingIsAllowed(l: Limits, kind: Kind, m: nat, window: real)
    requires l.Valid() && window >= 0.0
    ensures 0.0 <= Allowance(l.Max(kind), m, Accrued(l.Rate(kind), window))
  {
    AccruedGrows(l.Rate(kind), window);
    ProductIsNonNegative(m as real, Accrued(l.Rate(kind), window));
  }

  lemma AllowedInWindow(l: Limits, b: Bucket, moves: seq<Move>, kind: Kind, m: nat, from: real, window: real)
    requires l.Valid() && from <= TimeOf(b, moves) <= from + window
    requires Allowed(l, b, moves, kind, m, WaitMs(l.Rate(kind)), from, from + window)
    ensures Granted(l, b, moves, kind, from, from + window) as real
         <= Allowance(l.Max(kind), m, Accrued(l.Rate(kind), window))
  {
    var full, t := WaitMs(l.Rate(kind)), TimeOf(b, moves);
    WaitIsPositive(l.Rate(kind));
    InFlightCovers(After(l, b, moves).calls, kind, from, full, t);
    AccruedOverWait(l.Rate(kind), window);
    FittingIsAllowed(Granted(l, b, moves, kind, from, from + window) as real,
                     Sum(After(l, b, moves).calls, Waited(kind, full, t)), l.Max(kind), m, full, t - from, window,
                     Accrued(l.Rate(kind), window));
  }

  /** Dividing by the full wait. */
  lemma FittingIsAllowed(granted: real, waited: real, max: real, m: nat, full: real, time: real, window: real, a: real)
    requires full > 0.0 && waited >= 0.0 && time <= window && Times(a, full) == window
    requires Fits(granted, waited, max, m as real, full, time)
    ensures granted <= Allowance(max, m, a)
  {
    var n := m as real;
    ProductIsNonNegative(n, window - time);
    assert Times(n, time) <= Times(n, window) == Times(Times(n, a), full) by {
      assert n * (window - time) == n * window - n * time;
      assert n * window == n * a * full;
    }
    TimesSums(max + 0.01 + (n - 1.0), Times(n, a), full);
    SignOfFactor(Allowance(max, m, a) - granted, full) by {
      assert (Allowance(max, m, a) - granted) * full == Times(Allowance(max, m, a), full) - Times(granted, full);
    }
  }

  /** A limiter made for `limit` requests of a kind a second, with at most `m` of them in flight at a time. */
  lemma ConfiguredOverlapBound(readLimit: real, writeLimit: real, start: real, moves: seq<Move>, kind: Kind,
                               limit: real, m: nat, from: real, seconds: real)
    requires readLimit > 0.0 && writeLimit > 0.0 && seconds >= 0.0
    requires limit == if kind.Read? then readLimit else writeLimit
    requires var l := LimitsFor(readLimit, writeLimit); var b := Bucket(l.maxRead, l.maxWrite, start);
      Possible(l, b, moves) && AtMost(l, b, moves, kind, m)
    ensures var l := LimitsFor(readLimit, writeLimit); var b := Bucket(l.maxRead, l.maxWrite, start);
      Granted(l, b, moves, kind, from, from + 1000.0 * seconds) as real
      <= Allowance(Ceil(1.5 * limit), m, 0.8 * limit * seconds)
  {
    var l := LimitsFor(readLimit, writeLimit);
    OverlappingGrantsInWindow(l, Bucket(l.maxRead, l.maxWrite, start), moves, kind, m, from, 1000.0 * seconds);
    ConfiguredAllowance(readLimit, writeLimit, kind, limit, m, seconds);
  }

  lemma ConfiguredAllowance(readLimit: real, writeLimit: real, kind: Kind, limit: real, m: nat, seconds: real)
    requires readLimit > 0.0 && writeLimit > 0.0 && limit == if kind.Read? then readLimit else writeLimit
    ensures var l := LimitsFor(readLimit, writeLimit);
      Allowance(l.Max(kind), m, Accrued(l.Rate(kind), 1000.0 * seconds))
      == Allowance(Ceil(1.5 * limit), m, 0.8 * limit * seconds)
  {
    var l := LimitsFor(readLimit, writeLimit);
    assert l.Max(kind) == Ceil(1.5 * limit) && l.Rate(kind) == limit * 0.8;
    SameAllowance(l.Max(kind), m, l.Rate(kind), limit, seconds);
  }

  lemma SameAllowance(max: real, m: nat, rate: real, limit: real, seconds: real)
    requires rate == limit * 0.8
    ensures Allowance(max, m, Accrued(rate, 1000.0 * seconds)) == Allowance(max, m, 0.8 * limit * seconds)
  {
    AccruedInSeconds(limit, seconds);
  }

  // ----- single calls, and waves of calls -----

  lemma Appended(l: Limits, b: Bucket, moves: seq<Move>, v: Move, kind: Kind, m: nat)
    requires l.Valid() && Possible(l, b, moves) && AtMost(l, b, moves, kind, m)
    requires Enabled(l, After(l, b, moves), v) && v.now >= TimeOf(b, moves)
    requires Sum(After(l, b, moves).calls, InFlight(kind)) + Change(l, After(l, b, moves), v, InFlight(kind))
          <= m as real
    ensures After(l, b, moves + [v]) == Step(l, After(l, b, moves), v) && TimeOf(b, moves + [v]) == v.now
    ensures Possible(l, b, moves + [v]) && AtMost(l, b, moves + [v], kind, m)
    ensures Sum(After(l, b, moves + [v]).calls, InFlight(kind))
         == Sum(After(l, b, moves).calls, InFlight(kind)) + Change(l, After(l, b, moves), v, InFlight(kind))
  {
    assert (moves + [v])[..|moves|] == moves;
    StepChanges(l, After(l, b, moves), v, InFlight(kind));
  }

  /** The moves of a call that no other interrupts. */
  function Alone(l: Limits, b: Bucket, op: Op): seq<Move>
    requires op.Acquire?
  {
    if Waits(l, b, op) then [Enter(op.kind, op.now)] + [Wake(0, op.wakeUp)] + [TakeToken(0, op.wakeUp)]
    else [Enter(op.kind, op.now)] + [TakeToken(0, op.now)]
  }

  /** An uninterrupted call is an acquisition of a sequential run. */
  lemma UninterruptedIsSequential(l: Limits, b: Bucket, op: Op)
    requires l.Valid() && op.Acquire? && b.lastRefill <= op.now && op.wakeUp >= op.now + WaitMs(l.Rate(op.kind))
    ensures Possible(l, b, Alone(l, b, op)) && AtMost(l, b, Alone(l, b, op), op.kind, 1)
    ensures After(l, b, Alone(l, b, op)).bucket == Exec(l, b, op)
  {
    var enter := Enter(op.kind, op.now);
    Appended(l, b, [], enter, op.kind, 1);
    assert [] + [enter] == [enter];
    WaitIsPositive(l.Rate(op.kind));
    if Waits(l, b, op) {
      Appended(l, b, [enter], Wake(0, op.wakeUp), op.kind, 1);
      Appended(l, b, [enter] + [Wake(0, op.wakeUp)], TakeToken(0, op.wakeUp), op.kind, 1);
    } else {
      Appended(l, b, [enter], TakeToken(0, op.now), op.kind, 1);
    }
  }

  /** All reads are finished, nothing has accrued since the last refill, and `n` reads were let through too many. */
  ghost predicate Sunk(l: Limits, b: Bucket, moves: seq<Move>, n: nat)
    requires l.Valid()
  {
    var s := After(l, b, moves);
    && Possible(l, b, moves) && AtMost(l, b, moves, Read, 2) && Sum(s.calls, InFlight(Read)) == 0.0
    && s.bucket.readTokens == -(n as real) && s.bucket.lastRefill == TimeOf(b, moves)
  }

  /** Two reads that wait at the same time are both let through on the one token that accrues meanwhile. */
  lemma TwoEnter(l: Limits, b: Bucket, moves: seq<Move>, n: nat) returns (more: seq<Move>)
    requires l.Valid() && Sunk(l, b, moves, n)
    ensures var s, t, k := After(l, b, more), TimeOf(b, more), |After(l, b, moves).calls|;
      && Possible(l, b, more) && AtMost(l, b, more, Read, 2) && Sum(s.calls, InFlight(Read)) == 2.0
      && s.bucket.readTokens == -(n as real) && s.bucket.lastRefill == t
      && |s.calls| == k + 2 && s.calls[k] == Waiting(Read, t) && s.calls[k + 1] == Waiting(Read, t)
  {
    var t := TimeOf(b, moves);
    assert Accrued(l.readRate, 0.0) == 0.0 && Accrued(l.writeRate, 0.0) == 0.0;
    Appended(l, b, moves, Enter(Read, t), Read, 2);
    Appended(l, b, moves + [Enter(Read, t)], Enter(Read, t), Read, 2);
    more := moves + [Enter(Read, t)] + [Enter(Read, t)];
  }

  lemma OneAccrues(l: Limits, b: Bucket, w: real)
    requires l.Valid() && b.readTokens <= 0.0 && w == b.lastRefill + WaitMs(l.readRate)
    ensures Refill(l, b, w).readTokens == b.readTokens + 1.0 && Refill(l, b, w).lastRefill == w
  {
    AccruedInExactWait(l.readRate);
    assert w - b.lastRefill == WaitMs(l.readRate);
  }

  lemma TwoWake(l: Limits, b: Bucket, moves: seq<Move>, k: nat, n: nat) returns (more: seq<Move>)
    requires l.Valid() && Possible(l, b, moves) && AtMost(l, b, moves, Read, 2)
    requires var s, t := After(l, b, moves), TimeOf(b, moves);
      && Sum(s.calls, InFlight(Read)) == 2.0 && s.bucket.readTokens == -(n as real) && s.bucket.lastRefill == t
      && |s.calls| == k + 2 && s.calls[k] == Waiting(Read, t) && s.calls[k + 1] == Waiting(Read, t)
    ensures var s, t := After(l, b, more), TimeOf(b, more);
      && Possible(l, b, more) && AtMost(l, b, more, Read, 2) && Sum(s.calls, InFlight(Read)) == 2.0
      && s.bucket.readTokens == 1.0 - n as real && s.bucket.lastRefill == t
      && |s.calls| == k + 2 && s.calls[k] == Through(Read, t) && s.calls[k + 1] == Through(Read, t)
  {
    var w := TimeOf(b, moves) + WaitMs(l.readRate);
    WaitIsPositive(l.readRate);
    OneAccrues(l, After(l, b, moves).bucket, w);
    RefillTwice(l, After(l, b, moves).bucket, w);
    Appended(l, b, moves, Wake(k, w), Read, 2);
    Appended(l, b, moves + [Wake(k, w)], Wake(k + 1, w), Read, 2);
    more := moves + [Wake(k, w)] + [Wake(k + 1, w)];
  }

  /**
   The count itself has no floor, even with only two reads in flight at a time: each wave of two takes one token more
   than accrues.
   */
  lemma {:induction false} CountHasNoFloor(l: Limits, start: real, n: nat) returns (moves: seq<Move>)
    requires l.Valid()
    ensures Sunk(l, Bucket(0.0, 0.0, start), moves, n)
  {
    var b := Bucket(0.0, 0.0, start);
    if n == 0 {
      moves := [];
    } else {
      var before := CountHasNoFloor(l, start, n - 1);
      var k := |After(l, b, before).calls|;
      var entered := TwoEnter(l, b, before, n - 1);
      var woken := TwoWake(l, b, entered, k, n - 1);
      moves := TwoTake(l, b, woken, k, n - 1);
    }
  }

  lemma TwoTake(l: Limits, b: Bucket, moves: seq<Move>, k: nat, n: nat) returns (more: seq<Move>)
    requires l.Valid() && Possible(l, b, moves) && AtMost(l, b, moves, Read, 2)
    requires var s, t := After(l, b, moves), TimeOf(b, moves);
      && Sum(s.calls, InFlight(Read)) == 2.0 && s.bucket.readTokens == 1.0 - n as real && s.bucket.lastRefill == t
      && |s.calls| == k + 2 && s.calls[k] == Through(Read, t) && s.calls[k + 1] == Through(Read, t)
    ensures Sunk(l, b, more, n + 1)
  {
    var t := TimeOf(b, moves);
    Appended(l, b, moves, TakeToken(k, t), Read, 2);
    Appended(l, b, moves + [TakeToken(k, t)], TakeToken(k + 1, t), Read, 2);
    more := moves + [TakeToken(k, t)] + [TakeToken(k + 1, t)];
  }
}
