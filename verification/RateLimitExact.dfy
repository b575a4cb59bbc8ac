/** Exactly when a token bucket refuses, and that refusals leave no trace. */
module RateLimitExact {
  import opened RoomTypes
  import opened RateLimit

  // --- runs from the other end -----------------------------------------------

  /** The bucket after a run. */
  function After(c: Rate, b: Budget, calls: seq<Call>): (b': Budget)
    requires c.Limits()
    decreases |calls|
  {
    if calls == [] then b else After(c, Charge(c, b, calls[0].at).0, calls[1..])
  }

  lemma {:induction false} RunSnoc(c: Rate, b: Budget, calls: seq<Call>, x: Call)
    requires c.Limits()
    ensures BudgetRun(c, b, calls + [x]) == BudgetRun(c, b, calls) + [Decision(x.key, x.at, Charge(c, After(c, b, calls), x.at).1)]
    ensures After(c, b, calls + [x]) == Charge(c, After(c, b, calls), x.at).0
    decreases |calls|
  {
    if calls == [] {
      assert [] + [x] == [x] && [x][1..] == [];
    } else {
      RunSnoc(c, Charge(c, b, calls[0].at).0, calls[1..], x);
      assert (calls + [x])[1..] == calls[1..] + [x];
    }
  }

  lemma {:induction false} RunPrefix(c: Rate, b: Budget, calls: seq<Call>, i: nat)
    requires c.Limits() && i <= |calls|
    ensures BudgetRun(c, b, calls[..i]) == BudgetRun(c, b, calls)[..i]
    decreases |calls|
  {
    if i > 0 {
      RunPrefix(c, Charge(c, b, calls[0].at).0, calls[1..], i - 1);
      assert calls[..i][1..] == calls[1..][..i-1];
    }
  }

  /** Admissions from place `j` on. */
  function AdmittedFrom(out: seq<Decision>, j: nat): (n: nat) {
    if |out| <= j then 0
    else AdmittedFrom(out[..|out|-1], j) + if out[|out|-1].ok then 1 else 0
  }

  lemma AdmittedFromSnoc(out: seq<Decision>, d: Decision, j: nat)
    requires j <= |out|
    ensures AdmittedFrom(out + [d], j) == AdmittedFrom(out, j) + if d.ok then 1 else 0
  {
    assert (out + [d])[..|out|] == out;
  }

  lemma {:induction false} AdmittedInSnoc(out: seq<Decision>, d: Decision, from: real, until: real)
    ensures AdmittedIn(out + [d], from, until) == AdmittedIn(out, from, until) + (if d.ok && from <= d.at <= until then 1 else 0)
  {
    if out == [] {
      assert [] + [d] == [d] && [d][1..] == [];
    } else {
      AdmittedInSnoc(out[1..], d, from, until);
      assert (out + [d])[1..] == out[1..] + [d];
    }
  }

  /** Admissions from a place on fall into any window that begins by then. */
  lemma {:induction false} FromIsIn(out: seq<Decision>, j: nat, from: real, until: real)
    requires forall k :: j <= k < |out| ==> from <= out[k].at <= until
    ensures AdmittedFrom(out, j) <= AdmittedIn(out, from, until)
  {
    if j < |out| {
      var front, last := out[..|out|-1], out[|out|-1];
      FromIsIn(front, j, from, until);
      AdmittedInSnoc(front, last, from, until);
      assert out == front + [last];
    }
  }

  lemma {:induction false} TimesKept(c: Rate, b: Budget, calls: seq<Call>)
    requires c.Limits()
    ensures forall k :: 0 <= k < |calls| ==> BudgetRun(c, b, calls)[k].at == calls[k].at
    decreases |calls|
  {
    if calls != [] {
      TimesKept(c, Charge(c, b, calls[0].at).0, calls[1..]);
    }
  }

  // --- when a call is refused --------------------------------------------------

  /** The tokens of a used bucket are what a full one at some earlier call would have
      left: since call `j`, nothing earned was lost to the cap. */
  ghost predicate Since(c: Rate, calls: seq<Call>, j: nat)
    requires c.Limits() && j < |calls|
  {
    var b, out, t := After(c, NEW_BUDGET, calls), BudgetRun(c, NEW_BUDGET, calls), calls[|calls|-1].at;
    && b.last == Some(t)
    && b.tokens == c.burst as real - AdmittedFrom(out, j) as real + (t - calls[j].at) / c.every
  }

  lemma {:induction false} SomeSince(c: Rate, calls: seq<Call>) returns (j: nat)
    requires c.Limits() && calls != []
    ensures j < |calls| && Since(c, calls, j)
    decreases |calls|
  {
    var front, x := calls[..|calls|-1], calls[|calls|-1];
    assert calls == front + [x];
    RunSnoc(c, NEW_BUDGET, front, x);
    var out, b := BudgetRun(c, NEW_BUDGET, front), After(c, NEW_BUDGET, front);
    var d := Decision(x.key, x.at, Charge(c, b, x.at).1);
    if front == [] {
      j := 0;
      FullSince(c, calls, x, out, d);
    } else {
      var i := SomeSince(c, front);
      var t := front[|front|-1].at;
      var uncapped := b.tokens + (x.at - t) / c.every;
      EarnedSplit(c, t - front[i].at, x.at - t);
      if uncapped <= c.burst as real {
        j := i;
        AdmittedFromSnoc(out, d, i);
      } else {
        j := |front|;
        FullSince(c, calls, x, out, d);
      }
    }
  }

  lemma FullSince(c: Rate, calls: seq<Call>, x: Call, out: seq<Decision>, d: Decision)
    requires c.Limits() && |calls| == |out| + 1 && calls[|out|] == x
    requires BudgetRun(c, NEW_BUDGET, calls) == out + [d] && d.ok
    requires After(c, NEW_BUDGET, calls) == Budget(c.burst as real - 1.0, Some(x.at))
    ensures Since(c, calls, |out|)
  {
    AdmittedFromSnoc(out, d, |out|);
    assert (x.at - x.at) / c.every == 0.0;
  }

  /** More was let through since an earlier call than a full bucket could have paid
      for, with this call on top. */
  ghost predicate Overspent(c: Rate, out: seq<Decision>, from: real, t: real)
    requires c.Limits()
  {
    AdmittedIn(out, from, t) as real + 1.0 > c.burst as real + (t - from) / c.every
  }

  lemma RefusedIsOverspent(c: Rate, calls: seq<Call>, x: Call) returns (j: nat)
    requires c.Limits() && InOrder(calls + [x])
    requires !Charge(c, After(c, NEW_BUDGET, calls), x.at).1
    ensures j < |calls| && Overspent(c, BudgetRun(c, NEW_BUDGET, calls), calls[j].at, x.at)
  {
    assert calls != [];
    j := SomeSince(c, calls);
    var out, t := BudgetRun(c, NEW_BUDGET, calls), calls[|calls|-1].at;
    TimesKept(c, NEW_BUDGET, calls);
    forall k | j <= k < |out|
      ensures calls[j].at <= out[k].at <= x.at
    {
      assert (calls + [x])[k] == calls[k] && (calls + [x])[j] == calls[j] && (calls + [x])[|calls|] == x;
    }
    FromIsIn(out, j, calls[j].at, x.at);
    EarnedSplit(c, t - calls[j].at, x.at - t);
  }

  lemma AdmittedIsPaid(c: Rate, b: Budget, calls: seq<Call>, x: Call, from: real)
    requires c.Limits() && InOrder(calls + [x]) && b.last.None? && from <= x.at
    requires Charge(c, After(c, b, calls), x.at).1
    ensures !Overspent(c, BudgetRun(c, b, calls), from, x.at)
  {
    RunSnoc(c, b, calls, x);
    BudgetBound(c, b, calls + [x], from, x.at);
    OneMore(BudgetRun(c, b, calls), Decision(x.key, x.at, true), from);
  }

  lemma OneMore(out: seq<Decision>, d: Decision, from: real)
    requires d.ok && from <= d.at
    ensures AdmittedIn(out + [d], from, d.at) as real == AdmittedIn(out, from, d.at) as real + 1.0
  {
    AdmittedInSnoc(out, d, from, d.at);
  }

  /** A call is refused exactly when, since some earlier call, one more would be too
      many: burst and refill, not a token less. */
  lemma RefusedIff(c: Rate, calls: seq<Call>, i: nat)
    requires c.Limits() && InOrder(calls) && i < |calls|
    ensures !BudgetRun(c, NEW_BUDGET, calls)[i].ok <==>
      exists j :: 0 <= j < i && Overspent(c, BudgetRun(c, NEW_BUDGET, calls)[..i], calls[j].at, calls[i].at)
  {
    var front, x := calls[..i], calls[i];
    RunPrefix(c, NEW_BUDGET, calls, i);
    RunPrefix(c, NEW_BUDGET, calls, i + 1);
    assert calls[..i+1] == front + [x];
    RunSnoc(c, NEW_BUDGET, front, x);
    if Charge(c, After(c, NEW_BUDGET, front), x.at).1 {
      forall j | 0 <= j < i
        ensures !Overspent(c, BudgetRun(c, NEW_BUDGET, calls)[..i], calls[j].at, calls[i].at)
      {
        AdmittedIsPaid(c, NEW_BUDGET, front, x, calls[j].at);
      }
    } else {
      var j := RefusedIsOverspent(c, front, x);
    }
  }

  /** The same of the limiter, key by key, whatever other keys and sweeps do. */
  lemma RefusedKeyIff(c: Rate, sweepEvery: real, calls: seq<Call>, key: string, i: nat)
    requires c.Limits() && InOrder(calls) && i < |CallsFor(key, calls)|
    ensures var mine, own := For(key, LimiterRun(c, sweepEvery, NEW_LIMITER, calls)), CallsFor(key, calls);
      && |mine| == |own|
      && (!mine[i].ok <==> exists j :: 0 <= j < i && Overspent(c, mine[..i], own[j].at, own[i].at))
  {
    KeyIsOneBudget(c, sweepEvery, calls, key);
    CallsForInOrder(key, calls);
    RefusedIff(c, CallsFor(key, calls), i);
  }

  // --- refusals leave no trace ---------------------------------------------------

  /** Later refills do not see a refused call. */
  lemma RefusedIsForgotten(c: Rate, b: Budget, t: real, now: real)
    requires c.Limits() && !Charge(c, b, t).1
    ensures Charge(c, Charge(c, b, t).0, now) == Charge(c, b, now)
  {
    EarnedSplit(c, t - b.last.value, now - t);
  }

  lemma {:induction false} BudgetWithoutRefused(c: Rate, b: Budget, calls: seq<Call>, i: nat)
    requires c.Limits() && i < |calls|
    requires !BudgetRun(c, b, calls)[i].ok
    ensures BudgetRun(c, b, calls[..i] + calls[i+1..]) == BudgetRun(c, b, calls)[..i] + BudgetRun(c, b, calls)[i+1..]
    decreases |calls|
  {
    var rest := calls[1..];
    var b1 := Charge(c, b, calls[0].at).0;
    if i == 0 {
      assert calls[..0] + calls[1..] == rest;
      if rest != [] {
        RefusedIsForgotten(c, b, calls[0].at, rest[0].at);
      }
    } else {
      BudgetWithoutRefused(c, b1, rest, i - 1);
      assert (calls[..i] + calls[i+1..])[1..] == rest[..i-1] + rest[i..];
      assert (calls[..i] + calls[i+1..])[0] == calls[0];
    }
  }

  /** Two maps whose buckets refill alike from now on. */
  ghost predicate Alike(c: Rate, m: map<string, Bucket>, m': map<string, Bucket>)
    requires c.Limits()
  {
    && m.Keys == m'.Keys
    && forall key <- m, now: real :: Refilled(c, m[key], now) == Refilled(c, m'[key], now)
  }

  lemma {:induction false} AlikeRunAlike(c: Rate, m: map<string, Bucket>, m': map<string, Bucket>, calls: seq<Call>)
    requires c.Limits() && Alike(c, m, m')
    ensures PlainRun(c, m, calls) == PlainRun(c, m', calls)
    decreases |calls|
  {
    if calls != [] {
      var x := calls[0];
      var b, b' := BucketOf(c, m, x.key, x.at), BucketOf(c, m', x.key, x.at);
      assert Refilled(c, b, x.at) == Refilled(c, b', x.at);
      AlikeRunAlike(c, m[x.key := Spent(c, b, x.at)], m'[x.key := Spent(c, b', x.at)], calls[1..]);
    }
  }

  lemma RefusedAlike(c: Rate, m: map<string, Bucket>, x: Call)
    requires c.Limits() && !Admits(c, BucketOf(c, m, x.key, x.at), x.at)
    ensures Alike(c, m[x.key := Spent(c, BucketOf(c, m, x.key, x.at), x.at)], m)
  {
    assert (x.at - x.at) / c.every == 0.0;
    assert x.key in m;
    var b := m[x.key];
    forall now: real
      ensures Refilled(c, Spent(c, b, x.at), now) == Refilled(c, b, now)
    {
      EarnedSplit(c, x.at - b.last, now - x.at);
    }
  }

  lemma {:induction false} PlainWithoutRefused(c: Rate, m: map<string, Bucket>, calls: seq<Call>, i: nat)
    requires c.Limits() && i < |calls|
    requires !PlainRun(c, m, calls)[i].ok
    ensures PlainRun(c, m, calls[..i] + calls[i+1..]) == PlainRun(c, m, calls)[..i] + PlainRun(c, m, calls)[i+1..]
    decreases |calls|
  {
    var x, rest := calls[0], calls[1..];
    var m1 := m[x.key := Spent(c, BucketOf(c, m, x.key, x.at), x.at)];
    var left := calls[..i] + calls[i+1..];
    if i == 0 {
      RefusedAlike(c, m, x);
      AlikeRunAlike(c, m1, m, rest);
      assert left == rest;
    } else {
      PlainWithoutRefused(c, m1, rest, i - 1);
      assert left[0] == x && left[1..] == rest[..i-1] + rest[i..];
      PlainHead(c, m, calls);
      PlainHead(c, m, left);
      Spliced(PlainRun(c, m, calls)[0], PlainRun(c, m1, rest), i);
    }
  }

  lemma PlainHead(c: Rate, m: map<string, Bucket>, calls: seq<Call>)
    requires c.Limits() && calls != []
    ensures var x := calls[0]; var b := BucketOf(c, m, x.key, x.at);
      PlainRun(c, m, calls) == [Decision(x.key, x.at, Admits(c, b, x.at))] + PlainRun(c, m[x.key := Spent(c, b, x.at)], calls[1..])
  {}

  lemma Spliced(d: Decision, out: seq<Decision>, i: nat)
    requires 0 < i <= |out|
    ensures ([d] + out)[..i] + ([d] + out)[i+1..] == [d] + (out[..i-1] + out[i..])
  {}

  lemma WithoutInOrder(calls: seq<Call>, i: nat)
    requires InOrder(calls) && i < |calls|
    ensures InOrder(calls[..i] + calls[i+1..])
  {}

  /** Deleting a refused call from a run of the limiter changes no other answer. */
  lemma RefusalsLeaveNoTrace(c: Rate, sweepEvery: real, calls: seq<Call>, i: nat)
    requires c.Limits() && InOrder(calls) && i < |calls|
    requires !LimiterRun(c, sweepEvery, NEW_LIMITER, calls)[i].ok
    ensures LimiterRun(c, sweepEvery, NEW_LIMITER, calls[..i] + calls[i+1..])
         == LimiterRun(c, sweepEvery, NEW_LIMITER, calls)[..i] + LimiterRun(c, sweepEvery, NEW_LIMITER, calls)[i+1..]
  {
    WithoutInOrder(calls, i);
    EvictionUnobservable(c, sweepEvery, calls);
    EvictionUnobservable(c, sweepEvery, calls[..i] + calls[i+1..]);
    PlainWithoutRefused(c, map[], calls, i);
  }
}
