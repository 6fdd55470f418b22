/** A token bucket for reads and one for writes, refilled lazily from one shared clock reading. */
module RateLimiter {
  import opened Wrappers
  import opened Reals

  datatype Kind = Read | Write

  datatype Limits = Limits(maxRead: real, maxWrite: real, readRate: real, writeRate: real) {
    function Max(kind: Kind): real {
      if kind.Read? then maxRead else maxWrite
    }

    function Rate(kind: Kind): real {
      if kind.Read? then readRate else writeRate
    }

    predicate Valid() {
      maxRead >= 1.0 && maxWrite >= 1.0 && readRate > 0.0 && writeRate > 0.0
    }
  }

  /** Times are in milliseconds, rates in tokens a second. */
  datatype Bucket = Bucket(readTokens: real, writeTokens: real, lastRefill: real) {
    function Tokens(kind: Kind): real {
      if kind.Read? then readTokens else writeTokens
    }
  }

  /** The tokens that accrue in `ms` milliseconds. */
  function Accrued(rate: real, ms: real): real {
    ms / 1000.0 * rate
  }

  function Refill(l: Limits, b: Bucket, now: real): Bucket {
    var readToAdd, writeToAdd := Accrued(l.readRate, now - b.lastRefill), Accrued(l.writeRate, now - b.lastRefill);
    if readToAdd >= 0.01 || writeToAdd >= 0.01 then
      Bucket(Min(l.maxRead, b.readTokens + readToAdd), Min(l.maxWrite, b.writeTokens + writeToAdd), now)
    else b
  }

  function Take(b: Bucket, kind: Kind): Bucket {
    if kind.Read? then b.(readTokens := b.readTokens - 1.0) else b.(writeTokens := b.writeTokens - 1.0)
  }

  /** One call: an acquisition entered at `now` whose timer, if it has to wait, fires at `wakeUp`; or a query. */
  datatype Op = Acquire(kind: Kind, now: real, wakeUp: real) | Utilization(now: real)

  predicate Waits(l: Limits, b: Bucket, op: Op) {
    op.Acquire? && Refill(l, b, op.now).Tokens(op.kind) < 1.0
  }

  function WaitMs(rate: real): real
    requires rate != 0.0
  {
    1.0 / rate * 1000.0
  }

  /** When the call returns; an acquisition is granted then. */
  function DoneAt(l: Limits, b: Bucket, op: Op): real {
    if Waits(l, b, op) then op.wakeUp else op.now
  }

  function Exec(l: Limits, b: Bucket, op: Op): Bucket {
    var first := Refill(l, b, op.now);
    if op.Utilization? then first
    else Take(if Waits(l, b, op) then Refill(l, first, op.wakeUp) else first, op.kind)
  }

  function State(l: Limits, b: Bucket, ops: seq<Op>): Bucket {
    if ops == [] then b else Exec(l, State(l, b, ops[..|ops|-1]), ops[|ops|-1])
  }

  function Clock(l: Limits, b: Bucket, ops: seq<Op>): real {
    if ops == [] then b.lastRefill else DoneAt(l, State(l, b, ops[..|ops|-1]), ops[|ops|-1])
  }

  /** Calls come one after another on a clock that never runs backwards, and no timer fires early. */
  predicate Sequential(l: Limits, b: Bucket, ops: seq<Op>)
    requires l.Valid()
  {
    ops == [] ||
    var before, op := ops[..|ops|-1], ops[|ops|-1];
    && Sequential(l, b, before)
    && op.now >= Clock(l, b, before)
    && (Waits(l, State(l, b, before), op) ==> op.wakeUp >= op.now + WaitMs(l.Rate(op.kind)))
  }

  /** The acquisitions of one kind granted from time `from` to time `until`. */
  function Grants(l: Limits, b: Bucket, ops: seq<Op>, kind: Kind, from: real, until: real): nat {
    if ops == [] then 0
    else
      var op := ops[|ops|-1];
      Grants(l, b, ops[..|ops|-1], kind, from, until)
      + if op.Acquire? && op.kind == kind && from <= Clock(l, b, ops) <= until then 1 else 0
  }

  ghost predicate InBounds(l: Limits, b: Bucket) {
    forall kind: Kind :: 0.0 <= b.Tokens(kind) <= l.Max(kind)
  }

  lemma AccruedSums(rate: real, a: real, b: real)
    ensures Accrued(rate, a) + Accrued(rate, b) == Accrued(rate, a + b)
  {
    assert (a + b) / 1000.0 == a / 1000.0 + b / 1000.0;
  }

  lemma AccruedGrows(rate: real, ms: real)
    requires rate > 0.0 && ms >= 0.0
    ensures Accrued(rate, ms) >= 0.0
  {
  }

  lemma AccruedInWait(rate: real, ms: real)
    requires rate > 0.0 && ms >= WaitMs(rate)
    ensures Accrued(rate, ms) >= 1.0
  {
    var w := 1.0 / rate;
    assert w * rate == 1.0;
    assert ms / 1000.0 >= w;
    assert (ms / 1000.0 - w) * rate >= 0.0;
  }

  /** What the bucket would hold if the tokens accrued since the last refill were in it, uncapped. */
  function Potential(l: Limits, b: Bucket, kind: Kind, now: real): real {
    b.Tokens(kind) + Accrued(l.Rate(kind), now - b.lastRefill)
  }

  /** A refill keeps the bounds, never raises the potential, and leaves it within 0.01 of the capacity. */
  lemma RefillBounds(l: Limits, b: Bucket, kind: Kind, now: real)
    requires l.Valid() && InBounds(l, b) && now >= b.lastRefill
    ensures var r := Refill(l, b, now);
      && InBounds(l, r) && b.lastRefill <= r.lastRefill <= now
      && 0.0 <= Potential(l, r, kind, now) <= Potential(l, b, kind, now)
      && Potential(l, r, kind, now) <= l.Max(kind) + 0.01
      && r.Tokens(kind) >= Min(l.Max(kind), b.Tokens(kind))
  {
    AccruedGrows(l.readRate, now - b.lastRefill);
    AccruedGrows(l.writeRate, now - b.lastRefill);
    var r := Refill(l, b, now);
    assert 0.0 <= b.Tokens(Read) <= l.Max(Read) && 0.0 <= b.Tokens(Write) <= l.Max(Write);
    assert Accrued(l.Rate(kind), now - now) == 0.0;
  }

  /** After a wait there is a token to take. */
  lemma WaitingEarnsAToken(l: Limits, b: Bucket, kind: Kind, now: real)
    requires l.Valid() && InBounds(l, b) && now - b.lastRefill >= WaitMs(l.Rate(kind))
    ensures Refill(l, b, now).Tokens(kind) >= 1.0
  {
    AccruedInWait(l.Rate(kind), now - b.lastRefill);
    assert 0.0 <= b.Tokens(kind) <= l.Max(kind);
  }

  lemma WaitIsPositive(rate: real)
    requires rate > 0.0
    ensures WaitMs(rate) > 0.0
  {
    assert (1.0 / rate) * rate == 1.0;
  }

  /** One call keeps every token count between zero and its capacity, and accounts for each grant. */
  lemma ExecBounds(l: Limits, b: Bucket, op: Op, kind: Kind, before: real)
    requires l.Valid() && InBounds(l, b) && b.lastRefill <= before <= op.now
    requires Waits(l, b, op) ==> op.wakeUp >= op.now + WaitMs(l.Rate(op.kind))
    ensures var r := Exec(l, b, op); var t := DoneAt(l, b, op);
      var granted := if op.Acquire? && op.kind == kind then 1.0 else 0.0;
      && InBounds(l, r) && r.lastRefill <= t && t >= op.now
      && Potential(l, r, kind, t) >= 0.0
      && granted + Potential(l, r, kind, t) <= Potential(l, b, kind, before) + Accrued(l.Rate(kind), t - before)
      && granted + Potential(l, r, kind, t) <= l.Max(kind) + 0.01
  {
    var first := Refill(l, b, op.now);
    var t := DoneAt(l, b, op);
    RefillBounds(l, b, kind, op.now);
    PotentialGrows(l, b, kind, before, op.now);
    if Waits(l, b, op) {
      WaitIsPositive(l.Rate(op.kind));
      RefillBounds(l, first, kind, t);
      PotentialGrows(l, first, kind, op.now, t);
      WaitingEarnsAToken(l, first, op.kind, t);
      AccruedSums(l.Rate(kind), op.now - before, t - op.now);
      assert (op.now - before) + (t - op.now) == t - before;
      TakeBounds(l, Refill(l, first, t), op.kind, kind, t);
    } else if op.Acquire? {
      TakeBounds(l, first, op.kind, kind, t);
    }
  }

  lemma PotentialGrows(l: Limits, b: Bucket, kind: Kind, t: real, t': real)
    ensures Potential(l, b, kind, t') == Potential(l, b, kind, t) + Accrued(l.Rate(kind), t' - t)
  {
    AccruedSums(l.Rate(kind), t - b.lastRefill, t' - t);
    assert (t - b.lastRefill) + (t' - t) == t' - b.lastRefill;
  }

  lemma TakeBounds(l: Limits, b: Bucket, taken: Kind, kind: Kind, t: real)
    requires l.Valid() && InBounds(l, b) && b.Tokens(taken) >= 1.0 && t >= b.lastRefill
    ensures InBounds(l, Take(b, taken))
    ensures Potential(l, Take(b, taken), kind, t) == Potential(l, b, kind, t) - if taken == kind then 1.0 else 0.0
    ensures Potential(l, Take(b, taken), kind, t) >= 0.0
  {
    AccruedGrows(l.Rate(kind), t - b.lastRefill);
    forall k: Kind
      ensures 0.0 <= Take(b, taken).Tokens(k) <= l.Max(k)
    {
      assert 0.0 <= b.Tokens(k) <= l.Max(k);
    }
    assert 0.0 <= Take(b, taken).Tokens(kind);
  }

  /** Token counts stay within their bounds over every sequential run. */
  lemma {:induction false} RunStaysInBounds(l: Limits, b: Bucket, ops: seq<Op>)
    requires l.Valid() && InBounds(l, b) && Sequential(l, b, ops)
    ensures InBounds(l, State(l, b, ops)) && State(l, b, ops).lastRefill <= Clock(l, b, ops)
  {
    if ops != [] {
      var before := ops[..|ops|-1];
      RunStaysInBounds(l, b, before);
      ExecBounds(l, State(l, b, before), ops[|ops|-1], Read, Clock(l, b, before));
    }
  }

  /**
   The grants from time `from` on, with what is left to grant, never exceed the capacity, what accrues
   meanwhile, and the 0.01 that lazy refilling may carry over.
   */
  lemma {:induction false} GrantsAreAccountedFor(l: Limits, b: Bucket, ops: seq<Op>, kind: Kind,
                                                   from: real, until: real)
    requires l.Valid() && InBounds(l, b) && Sequential(l, b, ops) && ops != []
    requires from <= Clock(l, b, ops) <= until
    ensures Grants(l, b, ops, kind, from, until) as real + Potential(l, State(l, b, ops), kind, Clock(l, b, ops))
         <= l.Max(kind) + 0.01 + Accrued(l.Rate(kind), Clock(l, b, ops) - from)
    ensures Potential(l, State(l, b, ops), kind, Clock(l, b, ops)) >= 0.0
  {
    var before, op := ops[..|ops|-1], ops[|ops|-1];
    var t, t' := Clock(l, b, before), Clock(l, b, ops);
    RunStaysInBounds(l, b, before);
    ExecBounds(l, State(l, b, before), op, kind, t);
    if before != [] && from <= t {
      GrantsAreAccountedFor(l, b, before, kind, from, until);
      AccruedSums(l.Rate(kind), t - from, t' - t);
      assert (t - from) + (t' - t) == t' - from;
    } else {
      NoGrantsBefore(l, b, before, kind, from, until);
      AccruedGrows(l.Rate(kind), t' - from);
    }
  }

  lemma {:induction false} NoGrantsBefore(l: Limits, b: Bucket, ops: seq<Op>, kind: Kind, from: real, until: real)
    requires l.Valid() && InBounds(l, b) && Sequential(l, b, ops)
    requires ops == [] || Clock(l, b, ops) < from
    ensures Grants(l, b, ops, kind, from, until) == 0
  {
    if ops != [] {
      var before := ops[..|ops|-1];
      RunStaysInBounds(l, b, before);
      ExecBounds(l, State(l, b, before), ops[|ops|-1], kind, Clock(l, b, before));
      NoGrantsBefore(l, b, before, kind, from, until);
    }
  }

  /** In any window of `window` milliseconds, at most capacity + accrual + 0.01 acquisitions are granted. */
  lemma {:induction false} GrantsInWindow(l: Limits, b: Bucket, ops: seq<Op>, kind: Kind, from: real, window: real)
    requires l.Valid() && InBounds(l, b) && Sequential(l, b, ops) && window >= 0.0
    ensures Grants(l, b, ops, kind, from, from + window) as real
         <= l.Max(kind) + 0.01 + Accrued(l.Rate(kind), window)
  {
    AccruedGrows(l.Rate(kind), window);
    if ops == [] {
    } else if Clock(l, b, ops) < from {
      NoGrantsBefore(l, b, ops, kind, from, from + window);
    } else if Clock(l, b, ops) > from + window {
      GrantsInWindow(l, b, ops[..|ops|-1], kind, from, window);
    } else {
      var t := Clock(l, b, ops);
      GrantsAreAccountedFor(l, b, ops, kind, from, from + window);
      AccruedSums(l.Rate(kind), t - from, from + window - t);
      AccruedGrows(l.Rate(kind), from + window - t);
      assert (t - from) + (from + window - t) == window;
    }
  }

  // ----- no token is lost -----

  /** A refill keeps what has accrued, up to the capacity. */
  lemma RefillLosesNothing(l: Limits, b: Bucket, kind: Kind, now: real)
    requires l.Valid() && InBounds(l, b) && now >= b.lastRefill
    ensures Potential(l, Refill(l, b, now), kind, now) >= Min(l.Max(kind), Potential(l, b, kind, now))
  {
    assert Accrued(l.Rate(kind), now - now) == 0.0;
  }

  /** However long a bucket was idle, a refill leaves it within 0.01 of what has accrued, up to the capacity. */
  lemma IdleBucketFills(l: Limits, b: Bucket, kind: Kind, now: real)
    requires l.Valid() && InBounds(l, b) && now >= b.lastRefill
    ensures Refill(l, b, now).Tokens(kind) + 0.01
         >= Min(l.Max(kind), b.Tokens(kind) + Accrued(l.Rate(kind), now - b.lastRefill))
  {
  }

  /** One call loses no token but at the cap. */
  lemma ExecLosesNothing(l: Limits, b: Bucket, op: Op, kind: Kind, before: real)
    requires l.Valid() && InBounds(l, b) && b.lastRefill <= before <= op.now
    requires Waits(l, b, op) ==> op.wakeUp >= op.now + WaitMs(l.Rate(op.kind))
    ensures var t := DoneAt(l, b, op);
      (if op.Acquire? && op.kind == kind then 1.0 else 0.0) + Potential(l, Exec(l, b, op), kind, t)
      >= Min(l.Max(kind), Potential(l, b, kind, before) + Accrued(l.Rate(kind), t - before))
  {
    var first := Refill(l, b, op.now);
    var t := DoneAt(l, b, op);
    RefillBounds(l, b, kind, op.now);
    RefillLosesNothing(l, b, kind, op.now);
    PotentialGrows(l, b, kind, before, op.now);
    if Waits(l, b, op) {
      WaitIsPositive(l.Rate(op.kind));
      RefillLosesNothing(l, first, kind, t);
      PotentialGrows(l, first, kind, op.now, t);
      AccruedGrows(l.Rate(kind), t - op.now);
      AccruedSums(l.Rate(kind), op.now - before, t - op.now);
      assert (op.now - before) + (t - op.now) == t - before;
      TakingCostsOne(l, Refill(l, first, t), op.kind, kind, t);
    } else if op.Acquire? {
      TakingCostsOne(l, first, op.kind, kind, t);
    }
  }

  lemma TakingCostsOne(l: Limits, b: Bucket, taken: Kind, kind: Kind, t: real)
    ensures Potential(l, Take(b, taken), kind, t) == Potential(l, b, kind, t) - if taken == kind then 1.0 else 0.0
  {
  }

  /**
   No token is lost but at the cap: over every sequential run, the grants and what is left with what has accrued since
   come to at least the capacity, or else to what was there at the start and all that has accrued.
   */
  lemma {:induction false} NoTokenIsLost(l: Limits, b: Bucket, ops: seq<Op>, kind: Kind, until: real)
    requires l.Valid() && InBounds(l, b) && Sequential(l, b, ops) && Clock(l, b, ops) <= until
    ensures b.lastRefill <= Clock(l, b, ops)
    ensures Grants(l, b, ops, kind, b.lastRefill, until) as real
            + Potential(l, State(l, b, ops), kind, Clock(l, b, ops))
         >= Min(l.Max(kind), b.Tokens(kind) + Accrued(l.Rate(kind), Clock(l, b, ops) - b.lastRefill))
  {
    if ops != [] {
      var before, op := ops[..|ops|-1], ops[|ops|-1];
      var t, t' := Clock(l, b, before), Clock(l, b, ops);
      RunStaysInBounds(l, b, before);
      ExecBounds(l, State(l, b, before), op, kind, t);
      ExecLosesNothing(l, State(l, b, before), op, kind, t);
      NoTokenIsLost(l, b, before, kind, until);
      AccruedGrows(l.Rate(kind), t' - t);
      AccruedSums(l.Rate(kind), t - b.lastRefill, t' - t);
      assert (t - b.lastRefill) + (t' - t) == t' - b.lastRefill;
    }
  }

  /** A call waits only when the calls before it have used up all but a token of the capacity, or of what there was. */
  lemma NoNeedlessWait(l: Limits, b: Bucket, ops: seq<Op>, op: Op)
    requires l.Valid() && InBounds(l, b) && Sequential(l, b, ops) && op.Acquire? && op.now >= Clock(l, b, ops)
    requires Waits(l, State(l, b, ops), op)
    ensures Grants(l, b, ops, op.kind, b.lastRefill, op.now) as real + 1.01
          > Min(l.Max(op.kind), b.Tokens(op.kind) + Accrued(l.Rate(op.kind), op.now - b.lastRefill))
  {
    var s, t, rate := State(l, b, ops), Clock(l, b, ops), l.Rate(op.kind);
    RunStaysInBounds(l, b, ops);
    NoTokenIsLost(l, b, ops, op.kind, op.now);
    IdleBucketFills(l, s, op.kind, op.now);
    PotentialGrows(l, s, op.kind, t, op.now);
    AccruedGrows(rate, op.now - t);
    AccruedSums(rate, t - b.lastRefill, op.now - t);
    assert (t - b.lastRefill) + (op.now - t) == op.now - b.lastRefill;
  }

  function Burst(kind: Kind, now: real, n: nat): seq<Op> {
    if n == 0 then [] else Burst(kind, now, n - 1) + [Acquire(kind, now, now)]
  }

  lemma GrantedAtOnce(l: Limits, b: Bucket, kind: Kind, now: real)
    requires b.lastRefill == now && b.Tokens(kind) >= 1.0
    ensures var op := Acquire(kind, now, now); !Waits(l, b, op) && Exec(l, b, op) == Take(b, kind)
  {
    assert Accrued(l.readRate, 0.0) == 0.0 && Accrued(l.writeRate, 0.0) == 0.0;
  }

  lemma AppendedAtOnce(l: Limits, b: Bucket, ops: seq<Op>, kind: Kind, now: real)
    requires l.Valid() && Sequential(l, b, ops) && Clock(l, b, ops) == now
    requires State(l, b, ops).lastRefill == now && State(l, b, ops).Tokens(kind) >= 1.0
    ensures var more := ops + [Acquire(kind, now, now)];
      && Sequential(l, b, more) && Clock(l, b, more) == now && State(l, b, more) == Take(State(l, b, ops), kind)
      && Grants(l, b, more, kind, now, now) == Grants(l, b, ops, kind, now, now) + 1
  {
    var more := ops + [Acquire(kind, now, now)];
    assert more[..|more|-1] == ops;
    GrantedAtOnce(l, State(l, b, ops), kind, now);
  }

  /** A full bucket grants calls up to its capacity at one instant, without a wait. */
  lemma {:induction false} FullBucketGrantsBurst(l: Limits, now: real, kind: Kind, n: nat)
    requires l.Valid() && n as real <= l.Max(kind)
    ensures var full := Bucket(l.maxRead, l.maxWrite, now);
      && Sequential(l, full, Burst(kind, now, n)) && Clock(l, full, Burst(kind, now, n)) == now
      && Grants(l, full, Burst(kind, now, n), kind, now, now) == n
      && State(l, full, Burst(kind, now, n)).Tokens(kind) == l.Max(kind) - n as real
      && State(l, full, Burst(kind, now, n)).lastRefill == now
  {
    if n > 0 {
      FullBucketGrantsBurst(l, now, kind, n - 1);
      AppendedAtOnce(l, Bucket(l.maxRead, l.maxWrite, now), Burst(kind, now, n - 1), kind, now);
    }
  }

  // ----- the limiter -----

  function LimitsFor(readLimit: real, writeLimit: real): (l: Limits)
    requires readLimit > 0.0 && writeLimit > 0.0
    ensures l.Valid()
    ensures l.maxRead == Ceil(1.5 * readLimit) && 5.0 * l.readRate == 4.0 * readLimit
    ensures l.maxWrite == Ceil(1.5 * writeLimit) && 5.0 * l.writeRate == 4.0 * writeLimit
  {
    Limits(Ceil(readLimit * 1.5), Ceil(writeLimit * 1.5), readLimit * 0.8, writeLimit * 0.8)
  }

  datatype LimitError = NonPositiveLimit

  class RateLimiter {
    const limits: Limits
    var readTokens: real
    var writeTokens: real
    var lastRefill: real

    constructor (limits: Limits, now: real)
      ensures this.limits == limits && View() == Bucket(limits.maxRead, limits.maxWrite, now)
    {
      this.limits := limits;
      readTokens, writeTokens, lastRefill := limits.maxRead, limits.maxWrite, now;
    }

    function View(): Bucket
      reads this
    {
      Bucket(readTokens, writeTokens, lastRefill)
    }

    method DoRefill(now: real)
      modifies this
      ensures View() == Refill(limits, old(View()), now)
    {
      var elapsed := now - lastRefill;
      var readToAdd := Accrued(limits.readRate, elapsed);
      var writeToAdd := Accrued(limits.writeRate, elapsed);
      if readToAdd >= 0.01 || writeToAdd >= 0.01 {
        readTokens := Min(limits.maxRead, readTokens + readToAdd);
        writeTokens := Min(limits.maxWrite, writeTokens + writeToAdd);
        lastRefill := now;
      }
    }

    /** `wakeUp` is the time at which the timer fires, should the call have to wait for one. */
    method AcquireRead(now: real, wakeUp: real) returns (grantedAt: real)
      requires limits.Valid() && InBounds(limits, View()) && lastRefill <= now
      requires wakeUp >= now + WaitMs(limits.readRate)
      modifies this
      ensures View() == Exec(limits, old(View()), Acquire(Read, now, wakeUp))
      ensures grantedAt == DoneAt(limits, old(View()), Acquire(Read, now, wakeUp))
      ensures old(readTokens) >= 1.0 ==> grantedAt == now
      ensures old(readTokens) + Accrued(limits.readRate, now - old(lastRefill)) < 1.0 ==> grantedAt == wakeUp
      ensures InBounds(limits, View()) && lastRefill <= grantedAt
    {
      ghost var before := View();
      RefillBounds(limits, before, Read, now);
      DoRefill(now);
      grantedAt := WaitIfNeeded(readTokens, now, wakeUp);
      readTokens := readTokens - 1.0;
      ExecBounds(limits, before, Acquire(Read, now, wakeUp), Read, now);
    }

    method AcquireWrite(now: real, wakeUp: real) returns (grantedAt: real)
      requires limits.Valid() && InBounds(limits, View()) && lastRefill <= now
      requires wakeUp >= now + WaitMs(limits.writeRate)
      modifies this
      ensures View() == Exec(limits, old(View()), Acquire(Write, now, wakeUp))
      ensures grantedAt == DoneAt(limits, old(View()), Acquire(Write, now, wakeUp))
      ensures old(writeTokens) >= 1.0 ==> grantedAt == now
      ensures old(writeTokens) + Accrued(limits.writeRate, now - old(lastRefill)) < 1.0 ==> grantedAt == wakeUp
      ensures InBounds(limits, View()) && lastRefill <= grantedAt
    {
      ghost var before := View();
      RefillBounds(limits, before, Write, now);
      DoRefill(now);
      grantedAt := WaitIfNeeded(writeTokens, now, wakeUp);
      writeTokens := writeTokens - 1.0;
      ExecBounds(limits, before, Acquire(Write, now, wakeUp), Write, now);
    }

    method WaitIfNeeded(tokens: real, now: real, wakeUp: real) returns (resumedAt: real)
      modifies this
      ensures resumedAt == if tokens < 1.0 then wakeUp else now
      ensures View() == if tokens < 1.0 then Refill(limits, old(View()), wakeUp) else old(View())
    {
      resumedAt := now;
      if tokens < 1.0 {
        resumedAt := wakeUp;
        DoRefill(wakeUp);
      }
    }

    /** How much of each capacity is used, in percent; asking refills the buckets too. */
    method GetUtilization(now: real) returns (read: real, write: real)
      requires limits.Valid() && InBounds(limits, View()) && lastRefill <= now
      modifies this
      ensures View() == Exec(limits, old(View()), Utilization(now)) && InBounds(limits, View())
      ensures 0.0 <= read <= 100.0 && 0.0 <= write <= 100.0
      ensures Unused(read, limits.maxRead) == readTokens && Unused(write, limits.maxWrite) == writeTokens
      ensures (read == 0.0 <==> readTokens == limits.maxRead) && (write == 0.0 <==> writeTokens == limits.maxWrite)
    {
      RefillBounds(limits, View(), Read, now);
      DoRefill(now);
      assert 0.0 <= View().Tokens(Read) <= limits.Max(Read) && 0.0 <= View().Tokens(Write) <= limits.Max(Write);
      ShareOf(readTokens, limits.maxRead);
      ShareOf(writeTokens, limits.maxWrite);
      read := (1.0 - readTokens / limits.maxRead) * 100.0;
      write := (1.0 - writeTokens / limits.maxWrite) * 100.0;
    }
  }

  /** The tokens left of a capacity of which `percent` is used. */
  function Unused(percent: real, max: real): real {
    (100.0 - percent) / 100.0 * max
  }

  lemma ShareOf(x: real, max: real)
    requires max >= 1.0 && 0.0 <= x <= max
    ensures 0.0 <= x / max <= 1.0 && (x / max == 1.0 <==> x == max)
  {
    var q := x / max;
    assert q * max == x;
    SignOfFactor(q, max);
    SignOfFactor(1.0 - q, max);
  }

  method FromLimits(readLimit: real, writeLimit: real, now: real) returns (r: Result<RateLimiter, LimitError>)
    ensures r.Err? <==> readLimit <= 0.0 || writeLimit <= 0.0
    ensures r.Ok? ==> fresh(r.value) && r.value.limits == LimitsFor(readLimit, writeLimit)
    ensures r.Ok? ==> InBounds(r.value.limits, r.value.View()) && r.value.lastRefill == now
  {
    if readLimit <= 0.0 || writeLimit <= 0.0 {
      return Err(NonPositiveLimit);
    }
    var limiter := new RateLimiter(LimitsFor(readLimit, writeLimit), now);
    return Ok(limiter);
  }

  // ----- calls that overlap -----

  /** `n` calls entered at one instant: each refills before any of them goes on. */
  function EnterTogether(l: Limits, b: Bucket, now: real, n: nat): Bucket {
    if n == 0 then b else Refill(l, EnterTogether(l, b, now, n - 1), now)
  }

  /** The same calls going on: after a wait each refills once more, and each takes its token whatever is left. */
  function ResumeTogether(l: Limits, b: Bucket, kind: Kind, waited: bool, wakeUp: real, n: nat): Bucket {
    if n == 0 then b
    else
      var before := ResumeTogether(l, b, kind, waited, wakeUp, n - 1);
      Take(if waited then Refill(l, before, wakeUp) else before, kind)
  }

  /** `n` overlapping acquisitions of one kind: all of them look at the tokens before one of them takes any. */
  function Overlap(l: Limits, b: Bucket, kind: Kind, now: real, wakeUp: real, n: nat): Bucket {
    var entered := EnterTogether(l, b, now, n);
    ResumeTogether(l, entered, kind, entered.Tokens(kind) < 1.0, wakeUp, n)
  }

  /** The tokens there when overlapping acquisitions are granted: those at entry, or those at the common wake-up. */
  function TokensWhenGranted(l: Limits, b: Bucket, kind: Kind, now: real, wakeUp: real): real {
    var first := Refill(l, b, now);
    if first.Tokens(kind) < 1.0 then Refill(l, first, wakeUp).Tokens(kind) else first.Tokens(kind)
  }

  lemma RefillTwice(l: Limits, b: Bucket, now: real)
    ensures Refill(l, Refill(l, b, now), now) == Refill(l, b, now)
  {
    assert Accrued(l.readRate, 0.0) == 0.0 && Accrued(l.writeRate, 0.0) == 0.0;
  }

  lemma {:induction false} EnteringRefillsOnce(l: Limits, b: Bucket, now: real, n: nat)
    requires n > 0
    ensures EnterTogether(l, b, now, n) == Refill(l, b, now)
  {
    if n > 1 {
      EnteringRefillsOnce(l, b, now, n - 1);
      RefillTwice(l, b, now);
    }
  }

  lemma {:induction false} ResumingAtOnce(l: Limits, b: Bucket, kind: Kind, wakeUp: real, n: nat)
    ensures ResumeTogether(l, b, kind, false, wakeUp, n).Tokens(kind) == b.Tokens(kind) - n as real
  {
    if n > 0 {
      ResumingAtOnce(l, b, kind, wakeUp, n - 1);
    }
  }

  lemma {:induction false} ResumingAfterWait(l: Limits, b: Bucket, kind: Kind, wakeUp: real, n: nat)
    requires n > 0 && Refill(l, b, wakeUp).lastRefill == wakeUp
    ensures var r := ResumeTogether(l, b, kind, true, wakeUp, n);
      r.lastRefill == wakeUp && r.Tokens(kind) == Refill(l, b, wakeUp).Tokens(kind) - n as real
  {
    if n > 1 {
      ResumingAfterWait(l, b, kind, wakeUp, n - 1);
      assert Accrued(l.readRate, 0.0) == 0.0 && Accrued(l.writeRate, 0.0) == 0.0;
    }
  }

  lemma WaitRefills(l: Limits, b: Bucket, kind: Kind, now: real, wakeUp: real)
    requires l.Valid() && b.lastRefill <= now && wakeUp >= now + WaitMs(l.Rate(kind))
    ensures Refill(l, Refill(l, b, now), wakeUp).lastRefill == wakeUp
  {
    AccruedInWait(l.Rate(kind), wakeUp - Refill(l, b, now).lastRefill);
  }

  /**
   The bound is one of calls made one after another. Overlapping calls are all granted, waiting or not: they leave
   the count at or above zero exactly when there are no more of them than tokens when they are granted.
   */
  lemma OverlapOverdrawsIff(l: Limits, b: Bucket, kind: Kind, now: real, wakeUp: real, n: nat)
    requires l.Valid() && InBounds(l, b) && b.lastRefill <= now && wakeUp >= now + WaitMs(l.Rate(kind)) && n > 0
    ensures var left := Overlap(l, b, kind, now, wakeUp, n).Tokens(kind);
      && left == TokensWhenGranted(l, b, kind, now, wakeUp) - n as real
      && (left >= 0.0 <==> n as real <= TokensWhenGranted(l, b, kind, now, wakeUp))
  {
    EnteringRefillsOnce(l, b, now, n);
    var entered := Refill(l, b, now);
    if entered.Tokens(kind) < 1.0 {
      WaitRefills(l, b, kind, now, wakeUp);
      ResumingAfterWait(l, entered, kind, wakeUp, n);
    } else {
      ResumingAtOnce(l, entered, kind, wakeUp, n);
    }
  }

  /** One call that overlaps with no other is an ordinary acquisition. */
  lemma OneIsOrdinary(l: Limits, b: Bucket, kind: Kind, now: real, wakeUp: real)
    ensures Overlap(l, b, kind, now, wakeUp, 1) == Exec(l, b, Acquire(kind, now, wakeUp))
  {
    assert EnterTogether(l, b, now, 1) == Refill(l, b, now);
    var first := Refill(l, b, now);
    assert ResumeTogether(l, first, kind, first.Tokens(kind) < 1.0, wakeUp, 0) == first;
  }

  /** Of calls that wait at the same time and wake on time, just one can be served: more overdraw the bucket. */
  lemma ConcurrentWaitersOverdraw(l: Limits, b: Bucket, kind: Kind, now: real, n: nat)
    requires l.Valid() && InBounds(l, b) && b.lastRefill == now && b.Tokens(kind) < 1.0 && n > 0
    ensures Overlap(l, b, kind, now, now + WaitMs(l.Rate(kind)), n).Tokens(kind) < 0.0 <==> n > 1
  {
    var rate := l.Rate(kind);
    var wakeUp := now + WaitMs(rate);
    OverlapOverdrawsIff(l, b, kind, now, wakeUp, n);
    assert Accrued(l.readRate, 0.0) == 0.0 && Accrued(l.writeRate, 0.0) == 0.0;
    assert Refill(l, b, now) == b;
    AccruedInExactWait(rate);
    AccruedInWait(rate, wakeUp - now);
    WaitIsPositive(rate);
    AccruedGrows(l.Rate(if kind.Read? then Write else Read), wakeUp - now);
    assert 0.0 <= b.Tokens(kind) <= l.Max(kind);
  }

  lemma AccruedInExactWait(rate: real)
    requires rate > 0.0
    ensures Accrued(rate, WaitMs(rate)) == 1.0
  {
    assert (1.0 / rate) * rate == 1.0;
    assert WaitMs(rate) / 1000.0 == 1.0 / rate;
  }

  /** At one token, two calls of the same instant are both granted at once and leave one less than none. */
  lemma ConcurrentCallsOverdraw(l: Limits, now: real, wakeUp: real)
    requires l.Valid() && wakeUp >= now + WaitMs(l.readRate)
    ensures Overlap(l, Bucket(1.0, 1.0, now), Read, now, wakeUp, 2).readTokens == -1.0
  {
    assert Accrued(l.readRate, 0.0) == 0.0 && Accrued(l.writeRate, 0.0) == 0.0;
    OverlapOverdrawsIff(l, Bucket(1.0, 1.0, now), Read, now, wakeUp, 2);
  }

  /** A limiter made for `limit` requests a second grants at most ceil(1.5 limit) + 0.8 limit T + 0.01 in T seconds. */
  lemma ConfiguredBound(readLimit: real, writeLimit: real, start: real, ops: seq<Op>, from: real, seconds: real)
    requires readLimit > 0.0 && writeLimit > 0.0 && seconds >= 0.0
    requires var l := LimitsFor(readLimit, writeLimit); Sequential(l, Bucket(l.maxRead, l.maxWrite, start), ops)
    ensures var l := LimitsFor(readLimit, writeLimit); var b := Bucket(l.maxRead, l.maxWrite, start);
      && Grants(l, b, ops, Read, from, from + 1000.0 * seconds) as real
         <= Ceil(1.5 * readLimit) + 0.8 * readLimit * seconds + 0.01
      && Grants(l, b, ops, Write, from, from + 1000.0 * seconds) as real
         <= Ceil(1.5 * writeLimit) + 0.8 * writeLimit * seconds + 0.01
  {
    var l := LimitsFor(readLimit, writeLimit);
    var b := Bucket(l.maxRead, l.maxWrite, start);
    GrantsInWindow(l, b, ops, Read, from, 1000.0 * seconds);
    GrantsInWindow(l, b, ops, Write, from, 1000.0 * seconds);
    AccruedInSeconds(readLimit, seconds);
    AccruedInSeconds(writeLimit, seconds);
  }

  lemma AccruedInSeconds(limit: real, seconds: real)
    ensures Accrued(limit * 0.8, 1000.0 * seconds) == 0.8 * limit * seconds
  {
    assert 1000.0 * seconds / 1000.0 == seconds;
  }
}
