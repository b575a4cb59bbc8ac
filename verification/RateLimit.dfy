/** The two token buckets of the server: the keyed limiter in front of the
    authentication routes, which forgets idle buckets, and the bucket every
    connection carries. Tokens and seconds are reals. */
module RateLimit {
  import opened RoomTypes

  /** One token per `every` seconds, at most `burst` of them. */
  datatype Rate = Rate(every: real, burst: int) {
    predicate Limits() { every > 0.0 && burst > 0 }
  }

  datatype Bucket = Bucket(tokens: real, last: real)

  function Min(x: real, y: real): (r: real) {
    if x <= y then x else y
  }

  /** What a bucket holds at `now`. */
  function Refilled(c: Rate, b: Bucket, now: real): (tokens: real)
    requires c.Limits()
  {
    Min(c.burst as real, b.tokens + (now - b.last) / c.every)
  }

  function Admits(c: Rate, b: Bucket, now: real): (ok: bool)
    requires c.Limits()
  {
    Refilled(c, b, now) >= 1.0
  }

  function Spent(c: Rate, b: Bucket, now: real): (b': Bucket)
    requires c.Limits()
  {
    var tokens := Refilled(c, b, now);
    Bucket(if tokens >= 1.0 then tokens - 1.0 else tokens, now)
  }

  function FullBucket(c: Rate, now: real): (b: Bucket) {
    Bucket(c.burst as real, now)
  }

  function BucketOf(c: Rate, buckets: map<string, Bucket>, key: string, now: real): (b: Bucket) {
    if key in buckets then buckets[key] else FullBucket(c, now)
  }

  // ---------------------------------------------------------------- runs

  datatype Call = Call(key: string, at: real)

  datatype Decision = Decision(key: string, at: real, ok: bool)

  ghost predicate InOrder(calls: seq<Call>) {
    forall i, j :: 0 <= i < j < |calls| ==> calls[i].at <= calls[j].at
  }

  ghost predicate NotBefore(calls: seq<Call>, t: real) {
    forall call <- calls :: t <= call.at
  }

  /** The limiter that never deletes a bucket. */
  function PlainRun(c: Rate, buckets: map<string, Bucket>, calls: seq<Call>): (out: seq<Decision>)
    requires c.Limits()
    ensures |out| == |calls|
    decreases |calls|
  {
    if calls == [] then [] else
      var call := calls[0];
      var b := BucketOf(c, buckets, call.key, call.at);
      [Decision(call.key, call.at, Admits(c, b, call.at))]
      + PlainRun(c, buckets[call.key := Spent(c, b, call.at)], calls[1..])
  }

  datatype Limiter = Limiter(buckets: map<string, Bucket>, lastSweep: Option<real>)

  predicate Idle(c: Rate, b: Bucket, now: real) {
    now - b.last > c.every * c.burst as real
  }

  function Kept(c: Rate, buckets: map<string, Bucket>, now: real): (kept: map<string, Bucket>) {
    map key | key in buckets && !Idle(c, buckets[key], now) :: buckets[key]
  }

  function Swept(c: Rate, sweepEvery: real, l: Limiter, now: real): (l': Limiter) {
    if l.lastSweep.Some? && now - l.lastSweep.value < sweepEvery then l
    else Limiter(Kept(c, l.buckets, now), Some(now))
  }

  function AllowStep(c: Rate, sweepEvery: real, l: Limiter, key: string, now: real): (r: (Limiter, bool)) {
    if !c.Limits() then (l, true) else
      var l1 := Swept(c, sweepEvery, l, now);
      var b := BucketOf(c, l1.buckets, key, now);
      (l1.(buckets := l1.buckets[key := Spent(c, b, now)]), Admits(c, b, now))
  }

  /** The limiter of the source: sweeping, and switched off by a rate that does not limit. */
  function LimiterRun(c: Rate, sweepEvery: real, l: Limiter, calls: seq<Call>): (out: seq<Decision>)
    ensures |out| == |calls|
    decreases |calls|
  {
    if calls == [] then [] else
      var step := AllowStep(c, sweepEvery, l, calls[0].key, calls[0].at);
      [Decision(calls[0].key, calls[0].at, step.1)] + LimiterRun(c, sweepEvery, step.0, calls[1..])
  }

  const NEW_LIMITER := Limiter(map[], None)

  /** The decisions about one key, in order. */
  function For(key: string, out: seq<Decision>): (mine: seq<Decision>) {
    if out == [] then [] else (if out[0].key == key then [out[0]] else []) + For(key, out[1..])
  }

  function CallsFor(key: string, calls: seq<Call>): (mine: seq<Call>) {
    if calls == [] then [] else (if calls[0].key == key then [calls[0]] else []) + CallsFor(key, calls[1..])
  }

  /** A connection's bucket: `last` is None until the first frame. */
  datatype Budget = Budget(tokens: real, last: Option<real>)

  const NEW_BUDGET := Budget(0.0, None)

  /** The bucket a budget stands for at `now`. */
  function AsBucket(c: Rate, b: Budget, now: real): (r: Bucket) {
    if b.last.None? then FullBucket(c, now) else Bucket(b.tokens, b.last.value)
  }

  function Charge(c: Rate, b: Budget, now: real): (r: (Budget, bool))
    requires c.Limits()
  {
    var tokens := if b.last.None? then c.burst as real
                  else Min(c.burst as real, b.tokens + (now - b.last.value) / c.every);
    if tokens < 1.0 then (Budget(tokens, Some(now)), false) else (Budget(tokens - 1.0, Some(now)), true)
  }

  function BudgetRun(c: Rate, b: Budget, calls: seq<Call>): (out: seq<Decision>)
    requires c.Limits()
    ensures |out| == |calls|
    decreases |calls|
  {
    if calls == [] then [] else
      var r := Charge(c, b, calls[0].at);
      [Decision(calls[0].key, calls[0].at, r.1)] + BudgetRun(c, r.0, calls[1..])
  }

  /** How many calls were let through at times in [from, until]. */
  function AdmittedIn(out: seq<Decision>, from: real, until: real): (n: nat) {
    if out == [] then 0 else
      (if out[0].ok && from <= out[0].at <= until then 1 else 0) + AdmittedIn(out[1..], from, until)
  }

  // ---------------------------------------------------------------- what a refill earns

  lemma EarnedSplit(c: Rate, x: real, y: real)
    requires c.Limits()
    ensures (x + y) / c.every == x / c.every + y / c.every
  {}

  lemma EarnedMonotone(c: Rate, x: real, y: real)
    requires c.Limits() && x <= y
    ensures x / c.every <= y / c.every
  {
    EarnedSplit(c, x, y - x);
    assert (y - x) / c.every >= 0.0;
  }

  lemma EarnedOne(c: Rate, x: real)
    requires c.Limits() && x >= c.every
    ensures x / c.every >= 1.0
  {
    EarnedMonotone(c, c.every, x);
  }

  lemma EarnedFull(c: Rate, x: real)
    requires c.Limits() && x > c.every * c.burst as real
    ensures x / c.every >= c.burst as real
  {
    var full := c.burst as real;
    EarnedMonotone(c, c.every * full, x);
    assert c.every * full / c.every == full;
  }

  // ---------------------------------------------------------------- eviction

  /** Every bucket is in the past and owes nothing. */
  ghost predicate Sound(c: Rate, buckets: map<string, Bucket>, t: real) {
    forall key <- buckets :: 0.0 <= buckets[key].tokens && buckets[key].last <= t
  }

  ghost predicate FullBy(c: Rate, b: Bucket, t: real)
    requires c.Limits()
  {
    b.tokens + (t - b.last) / c.every >= c.burst as real
  }

  /** The sweeping map has the plain one's buckets, except some that are full again. */
  ghost predicate Forgets(c: Rate, swept: map<string, Bucket>, plain: map<string, Bucket>, t: real)
    requires c.Limits()
  {
    && Sound(c, plain, t)
    && (forall key <- swept :: key in plain && swept[key] == plain[key])
    && (forall key <- plain :: key !in swept ==> FullBy(c, plain[key], t))
  }

  lemma FullStaysFull(c: Rate, b: Bucket, t: real, now: real)
    requires c.Limits() && t <= now && FullBy(c, b, t)
    ensures FullBy(c, b, now)
  {
    EarnedMonotone(c, t - b.last, now - b.last);
  }

  lemma ForgetsLater(c: Rate, swept: map<string, Bucket>, plain: map<string, Bucket>, t: real, now: real)
    requires c.Limits() && t <= now && Forgets(c, swept, plain, t)
    ensures Forgets(c, swept, plain, now)
  {
    forall key <- plain | key !in swept
      ensures FullBy(c, plain[key], now)
    {
      FullStaysFull(c, plain[key], t, now);
    }
  }

  lemma IdleIsFull(c: Rate, b: Bucket, now: real)
    requires c.Limits() && 0.0 <= b.tokens && Idle(c, b, now)
    ensures FullBy(c, b, now)
  {
    EarnedFull(c, now - b.last);
  }

  lemma SweepForgets(c: Rate, swept: map<string, Bucket>, plain: map<string, Bucket>, now: real)
    requires c.Limits() && Forgets(c, swept, plain, now)
    ensures Forgets(c, Kept(c, swept, now), plain, now)
  {
    forall key <- plain | key !in Kept(c, swept, now)
      ensures FullBy(c, plain[key], now)
    {
      if key in swept {
        IdleIsFull(c, plain[key], now);
      }
    }
  }

  lemma SpentSound(c: Rate, b: Bucket, now: real)
    requires c.Limits() && 0.0 <= b.tokens && b.last <= now
    ensures 0.0 <= Spent(c, b, now).tokens && Spent(c, b, now).last == now
    ensures Spent(c, b, now).tokens <= c.burst as real
  {
    EarnedMonotone(c, 0.0, now - b.last);
    assert 0.0 / c.every == 0.0;
  }

  /** A forgotten bucket and the fresh one that replaces it decide alike. */
  lemma ForgottenDecidesAlike(c: Rate, swept: map<string, Bucket>, plain: map<string, Bucket>, key: string, now: real)
    requires c.Limits() && Forgets(c, swept, plain, now)
    ensures Refilled(c, BucketOf(c, swept, key, now), now) == Refilled(c, BucketOf(c, plain, key, now), now)
    ensures Spent(c, BucketOf(c, swept, key, now), now) == Spent(c, BucketOf(c, plain, key, now), now)
  {
    assert (now - now) / c.every == 0.0;
  }

  lemma {:induction false} ForgettingRunsAlike(c: Rate, sweepEvery: real, l: Limiter, plain: map<string, Bucket>, t: real, calls: seq<Call>)
    requires c.Limits() && Forgets(c, l.buckets, plain, t) && InOrder(calls) && NotBefore(calls, t)
    ensures LimiterRun(c, sweepEvery, l, calls) == PlainRun(c, plain, calls)
    decreases |calls|
  {
    if calls != [] {
      var call := calls[0];
      assert call in calls;
      ForgetsLater(c, l.buckets, plain, t, call.at);
      SweepForgets(c, l.buckets, plain, call.at);
      var l1 := Swept(c, sweepEvery, l, call.at);
      ForgottenDecidesAlike(c, l1.buckets, plain, call.key, call.at);
      var b := BucketOf(c, plain, call.key, call.at);
      SpentSound(c, b, call.at);
      var l2 := AllowStep(c, sweepEvery, l, call.key, call.at).0;
      ForgettingRunsAlike(c, sweepEvery, l2, plain[call.key := Spent(c, b, call.at)], call.at, calls[1..]);
    }
  }

  /** Lazy eviction is unobservable. */
  lemma EvictionUnobservable(c: Rate, sweepEvery: real, calls: seq<Call>)
    requires c.Limits() && InOrder(calls)
    ensures LimiterRun(c, sweepEvery, NEW_LIMITER, calls) == PlainRun(c, map[], calls)
  {
    ForgettingRunsAlike(c, sweepEvery, NEW_LIMITER, map[], if calls == [] then 0.0 else calls[0].at, calls);
  }

  lemma {:induction false} SwitchedOff(c: Rate, sweepEvery: real, l: Limiter, calls: seq<Call>)
    requires c.burst <= 0 || c.every <= 0.0
    ensures forall d <- LimiterRun(c, sweepEvery, l, calls) :: d.ok
    decreases |calls|
  {
    if calls != [] {
      SwitchedOff(c, sweepEvery, AllowStep(c, sweepEvery, l, calls[0].key, calls[0].at).0, calls[1..]);
    }
  }

  // ---------------------------------------------------------------- one key is one bucket

  ghost predicate Holds(c: Rate, buckets: map<string, Bucket>, key: string, b: Budget) {
    if key in buckets then b == Budget(buckets[key].tokens, Some(buckets[key].last)) else b.last.None?
  }

  lemma ChargeIsSpend(c: Rate, buckets: map<string, Bucket>, key: string, b: Budget, now: real)
    requires c.Limits() && Holds(c, buckets, key, b)
    ensures Charge(c, b, now).1 == Admits(c, BucketOf(c, buckets, key, now), now)
    ensures Holds(c, buckets[key := Spent(c, BucketOf(c, buckets, key, now), now)], key, Charge(c, b, now).0)
  {
    assert (now - now) / c.every == 0.0;
  }

  lemma {:induction false} KeyRunsAlone(c: Rate, buckets: map<string, Bucket>, calls: seq<Call>, key: string, b: Budget)
    requires c.Limits() && Holds(c, buckets, key, b)
    ensures For(key, PlainRun(c, buckets, calls)) == BudgetRun(c, b, CallsFor(key, calls))
    decreases |calls|
  {
    if calls != [] {
      var call := calls[0];
      var spent := Spent(c, BucketOf(c, buckets, call.key, call.at), call.at);
      var out := PlainRun(c, buckets, calls);
      assert out[1..] == PlainRun(c, buckets[call.key := spent], calls[1..]);
      if call.key == key {
        ChargeIsSpend(c, buckets, key, b, call.at);
        var r := Charge(c, b, call.at);
        KeyRunsAlone(c, buckets[key := spent], calls[1..], key, r.0);
        assert CallsFor(key, calls) == [call] + CallsFor(key, calls[1..]);
        assert CallsFor(key, calls)[1..] == CallsFor(key, calls[1..]);
      } else {
        KeyRunsAlone(c, buckets[call.key := spent], calls[1..], key, b);
        assert CallsFor(key, calls) == CallsFor(key, calls[1..]);
      }
    }
  }

  /** One key of the limiter decides exactly as one connection's bucket would,
      whatever the other keys do and whenever the sweeps come. */
  lemma KeyIsOneBudget(c: Rate, sweepEvery: real, calls: seq<Call>, key: string)
    requires c.Limits() && InOrder(calls)
    ensures For(key, LimiterRun(c, sweepEvery, NEW_LIMITER, calls)) == BudgetRun(c, NEW_BUDGET, CallsFor(key, calls))
  {
    EvictionUnobservable(c, sweepEvery, calls);
    KeyRunsAlone(c, map[], calls, key, NEW_BUDGET);
  }

  // ---------------------------------------------------------------- admission

  ghost predicate BudgetSound(c: Rate, b: Budget, t: real) {
    b.last.Some? ==> 0.0 <= b.tokens && b.last.value <= t
  }

  lemma ChargeSound(c: Rate, b: Budget, now: real)
    requires c.Limits() && BudgetSound(c, b, now)
    ensures BudgetSound(c, Charge(c, b, now).0, now)
    ensures var b' := Charge(c, b, now).0; b'.last == Some(now) && 0.0 <= b'.tokens
    ensures var b' := Charge(c, b, now).0; b'.tokens + (if Charge(c, b, now).1 then 1.0 else 0.0) == Refilled(c, AsBucket(c, b, now), now)
  {
    if b.last.Some? {
      EarnedMonotone(c, 0.0, now - b.last.value);
    }
    assert 0.0 / c.every == 0.0;
    assert (now - now) / c.every == 0.0;
  }

  lemma {:induction false} NoneBefore(c: Rate, b: Budget, calls: seq<Call>, from: real, until: real)
    requires c.Limits() && (forall call <- calls :: until < call.at)
    ensures AdmittedIn(BudgetRun(c, b, calls), from, until) == 0
    decreases |calls|
  {
    if calls != [] {
      assert calls[0] in calls;
      NoneBefore(c, Charge(c, b, calls[0].at).0, calls[1..], from, until);
    }
  }

  /** Inside the window the tokens held pay for everything still admitted. */
  lemma {:induction false} TokensPay(c: Rate, b: Budget, t: real, calls: seq<Call>, from: real, until: real)
    requires c.Limits() && InOrder(calls) && NotBefore(calls, t)
    requires b.last == Some(t) && 0.0 <= b.tokens && from <= t <= until
    ensures AdmittedIn(BudgetRun(c, b, calls), from, until) as real <= b.tokens + (until - t) / c.every
    decreases |calls|
  {
    EarnedMonotone(c, 0.0, until - t);
    assert 0.0 / c.every == 0.0;
    if calls != [] {
      var call := calls[0];
      assert call in calls;
      var b' := Charge(c, b, call.at).0;
      if until < call.at {
        NoneBefore(c, b, calls, from, until);
      } else {
        ChargeSound(c, b, call.at);
        TokensPay(c, b', call.at, calls[1..], from, until);
        EarnedSplit(c, call.at - t, until - call.at);
      }
    }
  }

  lemma {:induction false} BudgetBound(c: Rate, b: Budget, calls: seq<Call>, from: real, until: real)
    requires c.Limits() && InOrder(calls) && from <= until
    requires calls != [] ==> BudgetSound(c, b, calls[0].at)
    ensures AdmittedIn(BudgetRun(c, b, calls), from, until) as real <= c.burst as real + (until - from) / c.every
    decreases |calls|
  {
    EarnedMonotone(c, 0.0, until - from);
    assert 0.0 / c.every == 0.0;
    if calls != [] {
      var call := calls[0];
      var b' := Charge(c, b, call.at).0;
      ChargeSound(c, b, call.at);
      if call.at < from {
        BudgetBound(c, b', calls[1..], from, until);
      } else if until < call.at {
        NoneBefore(c, b, calls, from, until);
      } else {
        TokensPay(c, b', call.at, calls[1..], from, until);
        EarnedMonotone(c, until - call.at, until - from);
      }
    }
  }

  /** In any window one key is admitted at most burst + length/every times. */
  lemma AdmissionBound(c: Rate, sweepEvery: real, calls: seq<Call>, key: string, from: real, until: real)
    requires c.Limits() && InOrder(calls) && from <= until
    ensures AdmittedIn(For(key, LimiterRun(c, sweepEvery, NEW_LIMITER, calls)), from, until) as real
         <= c.burst as real + (until - from) / c.every
  {
    KeyIsOneBudget(c, sweepEvery, calls, key);
    CallsForInOrder(key, calls);
    BudgetBound(c, NEW_BUDGET, CallsFor(key, calls), from, until);
  }

  lemma {:induction false} CallsForFrom(key: string, calls: seq<Call>)
    ensures forall call <- CallsFor(key, calls) :: call in calls && call.key == key
    decreases |calls|
  {
    if calls != [] {
      CallsForFrom(key, calls[1..]);
    }
  }

  lemma {:induction false} CallsForInOrder(key: string, calls: seq<Call>)
    requires InOrder(calls)
    ensures InOrder(CallsFor(key, calls))
    decreases |calls|
  {
    if calls != [] {
      CallsForInOrder(key, calls[1..]);
      CallsForFrom(key, calls[1..]);
      var rest := CallsFor(key, calls[1..]);
      assert forall call <- rest :: calls[0].at <= call.at;
    }
  }

  /** A call one refill after the bucket's previous one, or the first, is let through. */
  lemma {:induction false} SpacedCallsPass(c: Rate, b: Budget, calls: seq<Call>, i: nat)
    requires c.Limits() && InOrder(calls) && i < |calls| && BudgetSound(c, b, calls[0].at)
    requires i > 0 ==> calls[i].at - calls[i-1].at >= c.every
    requires i == 0 && b.last.Some? ==> calls[0].at - b.last.value >= c.every
    ensures BudgetRun(c, b, calls)[i].ok
    decreases |calls|
  {
    ChargeSound(c, b, calls[0].at);
    var b' := Charge(c, b, calls[0].at).0;
    if i == 0 {
      if b.last.Some? {
        EarnedOne(c, calls[0].at - b.last.value);
      }
    } else {
      SpacedCallsPass(c, b', calls[1..], i - 1);
    }
  }

  /** The same for the limiter: a call at least one refill after every earlier
      call of its key is admitted. */
  lemma SpacedKeyPasses(c: Rate, sweepEvery: real, calls: seq<Call>, key: string, i: nat)
    requires c.Limits() && InOrder(calls) && i < |CallsFor(key, calls)|
    requires i > 0 ==> CallsFor(key, calls)[i].at - CallsFor(key, calls)[i-1].at >= c.every
    ensures var mine := For(key, LimiterRun(c, sweepEvery, NEW_LIMITER, calls));
            |mine| == |CallsFor(key, calls)| && mine[i].ok
  {
    KeyIsOneBudget(c, sweepEvery, calls, key);
    CallsForInOrder(key, calls);
    SpacedCallsPass(c, NEW_BUDGET, CallsFor(key, calls), i);
  }

  // ---------------------------------------------------------------- the objects

  /** The keyed limiter of the authentication routes. */
  class InMemoryRateLimiter {
    var buckets: map<string, Bucket>
    var lastSweep: Option<real>
    const rate: Rate
    const sweepEvery: real

    ghost function View(): (l: Limiter) reads this {
      Limiter(buckets, lastSweep)
    }

    constructor (every: real, burst: int)
      ensures View() == NEW_LIMITER && rate == Rate(every, burst) && sweepEvery == 300.0
    {
      buckets := map[];
      lastSweep := None;
      rate := Rate(every, burst);
      sweepEvery := 300.0;
    }

    method Allow(key: string, now: real) returns (ok: bool)
      modifies this
      ensures (View(), ok) == AllowStep(rate, sweepEvery, old(View()), key, now)
    {
      if rate.burst <= 0 || rate.every <= 0.0 {
        return true;
      }
      Sweep(now);
      ghost var swept := buckets;
      if key !in buckets {
        buckets := buckets[key := Bucket(rate.burst as real, now)];
      }
      var b := buckets[key];
      var tokens := Min(rate.burst as real, b.tokens + (now - b.last) / rate.every);
      buckets := buckets[key := Bucket(tokens, now)];
      if tokens >= 1.0 {
        buckets := buckets[key := Bucket(tokens - 1.0, now)];
        assert buckets == swept[key := Bucket(tokens - 1.0, now)];
        return true;
      }
      assert buckets == swept[key := Bucket(tokens, now)];
      return false;
    }

    /** Visits the buckets in any order and deletes the idle ones. */
    method Sweep(now: real)
      modifies this
      ensures View() == Swept(rate, sweepEvery, old(View()), now)
    {
      if lastSweep.Some? && now - lastSweep.value < sweepEvery {
        return;
      }
      lastSweep := Some(now);
      var idleForFull := rate.every * rate.burst as real;
      var todo := buckets.Keys;
      while todo != {}
        invariant todo <= buckets.Keys <= old(buckets).Keys
        invariant forall key <- buckets :: buckets[key] == old(buckets)[key]
        invariant forall key <- buckets :: key in todo || !Idle(rate, old(buckets)[key], now)
        invariant forall key <- old(buckets) :: key in buckets || Idle(rate, old(buckets)[key], now)
        invariant lastSweep == Some(now)
      {
        var key :| key in todo;
        if now - buckets[key].last > idleForFull {
          buckets := buckets - {key};
        }
        todo := todo - {key};
      }
    }
  }

  /** The bucket owned by a connection's read loop. */
  class ConnectionBucket {
    var tokens: real
    var last: Option<real>

    ghost function View(): (b: Budget) reads this {
      Budget(tokens, last)
    }

    constructor ()
      ensures View() == NEW_BUDGET
    {
      tokens := 0.0;
      last := None;
    }

    method Allow(now: real, c: Rate) returns (ok: bool)
      requires c.Limits()
      modifies this
      ensures (View(), ok) == Charge(c, old(View()), now)
    {
      if last.None? {
        tokens := c.burst as real;
      } else {
        tokens := Min(c.burst as real, tokens + (now - last.value) / c.every);
      }
      last := Some(now);
      if tokens < 1.0 {
        return false;
      }
      tokens := tokens - 1.0;
      return true;
    }
  }
}
