/** Why a racer's run ends: which action gives which terminal status, at which
    instant, and that the match reports exactly that. */
module RoomCauses {
  import opened RoomTypes
  import opened RoomSteps
  import opened RoomActions
  import opened RoomInvariant
  import opened RoomPreservation
  import opened RoomRuns
  import opened RoomOutcome

  // --- the causes ------------------------------------------------------------

  /** A terminal status, with the instant of a finish. */
  datatype Outcome = Outcome(status: Status, finishedAtMs: Option<int>)

  /** A connected racer who has sent nothing for fifteen seconds, or, in a words or
      quote match past its first ten seconds, nothing in three fifths of them. */
  ghost predicate Silent(r: Room, id: SeatId, now: int)
    requires r.mtch.Some? && id in r.pool
  {
    var m, s := r.mtch.value, r.pool[id];
    var n := (now - m.goAtMs) / 1000;
    && !s.disconnected
    && (|| now - s.lastBatchMs >= 15000
        || (&& (m.settings.mode == "words" || m.settings.mode == "quote")
            && now - m.goAtMs >= 10000
            && 5 * (n - |Buckets(m.goAtMs, s.batches)|) >= 3 * n))
  }

  /** What action `a` makes of roster seat `id`, if it is racing and `a` ends its run. */
  ghost function Cause(r: Room, a: Action, id: SeatId): (o: Option<Outcome>)
    requires r.Wf() && r.mtch.Some? && id in r.pool
  {
    var mid := r.mtch.value.id;
    if r.pool[id].status != Active then None else
    match a
    case FinishA(sess, of, forfeit, now) =>
      if of != mid || FindSeat(r.pool, r.seats, sess) != Some(id) then None
      else if forfeit then Some(Outcome(Dnf, None)) else Some(Outcome(Finished, Some(now)))
    case ForceEndA(of, _, _) => if of == mid then Some(Outcome(Dnf, None)) else None
    case SweepAfkA(of, now) => if of == mid && Silent(r, id, now) then Some(Outcome(Dnf, None)) else None
    case GraceExpireA(at, _) =>
      if at == id && r.pool[id].sess.None? && r.pool[id].disconnected then Some(Outcome(Dnf, None)) else None
    case LeaveA(sess, _) => if FindSeat(r.pool, r.seats, sess) == Some(id) then Some(Outcome(Left, None)) else None
    case _ => None
  }

  // --- the AFK sweep ---------------------------------------------------------

  lemma ShareAtLeast(idle: int, n: int)
    requires n > 0
    ensures idle as real / n as real >= AFK_KICK_SHARE <==> 5 * idle >= 3 * n
  {
    var q := idle as real / n as real;
    assert q * n as real == idle as real;
    if q >= 0.6 {
      Product(q, 0.6, n as real);
    } else {
      Product(0.6, q, n as real);
      assert 0.6 * n as real > q * n as real;
    }
  }

  lemma Product(a: real, b: real, n: real)
    requires a >= b && n > 0.0
    ensures a * n >= b * n && (a > b ==> a * n > b * n)
  {}

  /** The counters stand for the set of seconds with a batch in them. */
  lemma SweptIffSilent(r: Room, id: SeatId, now: int)
    requires r.Wf() && RosterOk(r) && r.mtch.Some? && id in r.mtch.value.roster && r.pool[id].status == Active
    ensures SweptOut(r.pool[id], r.mtch.value, now) <==> Silent(r, id, now)
  {
    var m, s := r.mtch.value, r.pool[id];
    assert s.activeBuckets == |Buckets(m.goAtMs, s.batches)|;
    if now - m.goAtMs >= 10000 {
      var n := (now - m.goAtMs) / 1000;
      ShareAtLeast(if n - s.activeBuckets < 0 then 0 else n - s.activeBuckets, n);
    }
  }

  // --- before the end --------------------------------------------------------

  /** Seat `id` of `r1` carries what the cause says, or is as it was. */
  ghost predicate Carried(s: Seat, o: Option<Outcome>, s1: Seat) {
    match o
    case None => s1.status == s.status && s1.finishedAtMs == s.finishedAtMs
    case Some(out) => s1.status == out.status && (out.finishedAtMs.Some? ==> s1.finishedAtMs == out.finishedAtMs.value)
  }

  /** The match is the same one, and seat `id` is where the cause puts it. */
  ghost predicate Follows(r: Room, r1: Room, id: SeatId, o: Option<Outcome>) {
    && r.Wf() && r1.Wf() && r.mtch.Some? && r1.mtch.Some? && id in r.pool && id in r1.pool
    && r1.mtch.value.id == r.mtch.value.id && r1.mtch.value.roster == r.mtch.value.roster
    && r1.mtch.value.goAtMs == r.mtch.value.goAtMs && r1.mtch.value.ended == r.mtch.value.ended
    && r1.ends == r.ends && r1.started == r.started
    && Carried(r.pool[id], o, r1.pool[id])
  }

  /** A roster seat of the running match, in the room if it is racing. */
  ghost predicate OnRoster(r: Room, id: SeatId) {
    r.Wf() && r.mtch.Some? && id in r.mtch.value.roster && (r.pool[id].status == Active ==> id in r.seats)
  }

  lemma LeavingFollows(r: Room, sess: SessionId, now: int, id: SeatId)
    requires OnRoster(r, id)
    ensures Follows(r, Leaving(r, sess), id, Cause(r, LeaveA(sess, now), id))
  {
    var found := FindSeat(r.pool, r.seats, sess);
    if found.Some? {
      DepartedFollows(r, found.value, id);
    }
  }

  lemma DepartedFollows(r: Room, at: SeatId, id: SeatId)
    requires OnRoster(r, id) && at in r.pool
    ensures Follows(r, Departed(r, at), id, if at == id && r.pool[id].status == Active then Some(Outcome(Left, None)) else None)
  {}

  lemma ReleasingFollows(r: Room, at: SeatId, id: SeatId)
    requires OnRoster(r, id) && at in r.pool
    ensures Follows(r, Releasing(r, at), id, None)
  {
    DepartedFollows(r, at, id);
    assert r.pool[id].status == Active ==> Present(r, r.pool[id].playerId);
  }

  lemma GracedFollows(r: Room, at: SeatId, now: int, id: SeatId)
    requires OnRoster(r, id) && at in r.pool
    ensures Follows(r, Graced(r, at), id, Cause(r, GraceExpireA(at, now), id))
  {
    assert r.pool[id].status == Active ==> Present(r, r.pool[id].playerId);
  }

  lemma FinishingFollows(r: Room, sess: SessionId, mid: MatchId, forfeit: bool, now: int, id: SeatId)
    requires OnRoster(r, id)
    ensures Follows(r, Finishing(r, sess, mid, forfeit, now), id, Cause(r, FinishA(sess, mid, forfeit, now), id))
  {
    var found := FindSeat(r.pool, r.seats, sess);
    if found.None? || mid != r.mtch.value.id || r.pool[found.value].status != Active {
      assert Finishing(r, sess, mid, forfeit, now) == r;
    } else if forfeit {
      ResolvedFollows(r, found.value, id, Outcome(Dnf, None), r.pool[found.value].(status := Dnf), now);
    } else {
      FinishedFollows(r, sess, mid, now, id);
    }
  }

  lemma FinishedFollows(r: Room, sess: SessionId, mid: MatchId, now: int, id: SeatId)
    requires OnRoster(r, id) && mid == r.mtch.value.id
    requires var found := FindSeat(r.pool, r.seats, sess); found.Some? && r.pool[found.value].status == Active
    ensures Follows(r, Finishing(r, sess, mid, false, now), id, Cause(r, FinishA(sess, mid, false, now), id))
  {
    var at := FindSeat(r.pool, r.seats, sess).value;
    ResolvedFollows(r, at, id, Outcome(Finished, Some(now)), r.pool[at].(status := Finished, finishedAtMs := now), now);
  }

  lemma ResolvedFollows(r: Room, at: SeatId, id: SeatId, o: Outcome, s: Seat, now: int)
    requires OnRoster(r, id) && at in r.pool && Carried(r.pool[at], Some(o), s)
    ensures Follows(r, Put(r, at, s), id, if at == id then Some(o) else None)
    ensures Follows(r, Arm(Put(r, at, s), now), id, if at == id then Some(o) else None)
  {}

  lemma SweepingFollows(r: Room, mid: MatchId, now: int, id: SeatId)
    requires OnRoster(r, id) && RosterOk(r) && !r.mtch.value.ended
    ensures Follows(r, Sweeping(r, mid, SweepSet(r, now)), id, Cause(r, SweepAfkA(mid, now), id))
  {
    if r.pool[id].status == Active {
      SweptIffSilent(r, id, now);
    }
  }

  lemma ForcingFollows(r: Room, mid: MatchId, reason: Reason, now: int, id: SeatId)
    requires OnRoster(r, id) && !r.mtch.value.ended
    ensures Follows(r, Sweeping(r, mid, r.pool.Keys), id, Cause(r, ForceEndA(mid, reason, now), id))
  {}

  lemma ConnectionFollows(r: Room, a: Action, id: SeatId)
    requires OnRoster(r, id) && Applicable(r, a) && a.OfConnection()
    ensures Follows(r, Perform(r, a), id, None)
  {
    ConnectionRewires(r, a);
    RewiredFollows(r, Perform(r, a), id);
  }

  lemma RewiredFollows(r: Room, r': Room, id: SeatId)
    requires OnRoster(r, id) && RewiresOnly(r, r')
    ensures Follows(r, r', id, None)
  {
    assert Rewired(r.pool[id], r'.pool[id]);
  }

  lemma LobbyFollows(r: Room, a: Action, id: SeatId)
    requires OnRoster(r, id) && Applicable(r, a) && r.inMatch
    requires a.KickA? || a.TransferHostA? || a.ReadyA? || a.SettingsA? || a.StartMatchA? || a.ReapIdleA?
    ensures Perform(r, a) == r
  {}

  lemma SeatingFollows(r: Room, a: Action, id: SeatId)
    requires OnRoster(r, id) && a.TakeSeatA? && a.id !in r.pool
    ensures Follows(r, Perform(r, a), id, None)
  {}

  lemma RelayFollows(r: Room, a: Action, id: SeatId)
    requires OnRoster(r, id) && a.RelayA?
    ensures Follows(r, Perform(r, a), id, None)
  {}

  lemma ResolvingFollows(r: Room, a: Action, id: SeatId)
    requires OnRoster(r, id) && RosterOk(r) && !r.mtch.value.ended && Applicable(r, a) && Resolves(a)
    ensures Follows(r, Pre(r, a), id, Cause(r, a, id))
  {
    match a
    case LeaveA(sess, now) => LeavingFollows(r, sess, now, id);
    case ReleaseA(at, now) => ReleasingFollows(r, at, id);
    case GraceExpireA(at, now) => GracedFollows(r, at, now, id);
    case FinishA(sess, mid, forfeit, now) => FinishingFollows(r, sess, mid, forfeit, now, id);
    case ForceEndA(mid, reason, now) => ForcingFollows(r, mid, reason, now, id);
    case SweepAfkA(mid, now) => SweepingFollows(r, mid, now, id);
  }

  lemma PreFollows(r: Room, a: Action, id: SeatId)
    requires OnRoster(r, id) && RosterOk(r) && !r.mtch.value.ended && r.inMatch && Applicable(r, a)
    requires a.TakeSeatA? ==> a.id !in r.pool
    ensures Follows(r, Pre(r, a), id, Cause(r, a, id))
  {
    if Resolves(a) {
      ResolvingFollows(r, a, id);
    } else if a.OfConnection() {
      ConnectionFollows(r, a, id);
    } else if a.TakeSeatA? {
      SeatingFollows(r, a, id);
    } else if a.RelayA? {
      RelayFollows(r, a, id);
    } else {
      LobbyFollows(r, a, id);
    }
  }

  // --- what the match reports ------------------------------------------------

  /** Place `i` of match `mid` is reported as `o`: by its seat while the match runs,
      by the end record afterwards. */
  ghost predicate Reports(r: Room, mid: MatchId, i: nat, o: Outcome)
    requires r.Wf()
  {
    || (r.mtch.Some? && r.mtch.value.id == mid && i < |r.mtch.value.roster|
        && ShowsSeat(r.pool[r.mtch.value.roster[i]], o))
    || exists k :: 0 <= k < |r.ends| && r.ends[k].id == mid && ShowsResult(r.ends[k], i, o)
  }

  ghost predicate ShowsSeat(s: Seat, o: Outcome) {
    && s.status != Active && s.status == o.status
    && o.finishedAtMs == if s.status == Finished then Some(s.finishedAtMs) else None
  }

  ghost predicate ShowsResult(e: EndRecord, i: nat, o: Outcome) {
    i < |e.results| && e.results[i].status == o.status && e.results[i].finishedAtMs == o.finishedAtMs
  }

  /** Still racing, and reported nowhere. */
  ghost predicate StillRacing(r: Room, mid: MatchId, i: nat)
    requires r.Wf()
  {
    && r.mtch.Some? && r.mtch.value.id == mid && i < |r.mtch.value.roster|
    && r.pool[r.mtch.value.roster[i]].status == Active
  }

  /** The running match has no end record yet. */
  lemma NotEndedYet(r: Room, k: nat)
    requires r.Wf() && LogsOk(r) && r.mtch.Some? && k < |r.ends|
    ensures r.ends[k].id != r.mtch.value.id
  {
    assert r.ends[k].id == r.started[k].id && r.started[|r.ends|].id == r.mtch.value.id;
  }

  /** The end of a match reports every roster seat as it stands. */
  lemma EndReports(r: Room, reason: Reason, now: int, i: nat, o: Outcome)
    requires r.Wf() && r.mtch.Some? && !r.mtch.value.ended && i < |r.mtch.value.roster|
    requires r.pool[r.mtch.value.roster[i]].status != Active
    requires forall k :: 0 <= k < |r.ends| ==> r.ends[k].id != r.mtch.value.id
    ensures Reports(EndMatch(r, reason, now), r.mtch.value.id, i, o) <==> ShowsSeat(r.pool[r.mtch.value.roster[i]], o)
  {
    var r', mid := EndMatch(r, reason, now), r.mtch.value.id;
    var e := r'.ends[|r.ends|];
    assert r'.ends == r.ends + [e] && e.id == mid && r'.mtch.None?;
    assert ShowsResult(e, i, o) <==> ShowsSeat(r.pool[r.mtch.value.roster[i]], o);
    if ShowsSeat(r.pool[r.mtch.value.roster[i]], o) {
      assert r'.ends[|r.ends|].id == mid && ShowsResult(r'.ends[|r.ends|], i, o);
    }
  }

  /** While the match goes on its seats report themselves. */
  lemma GoingReports(r: Room, mid: MatchId, i: nat, o: Outcome)
    requires r.Wf() && r.mtch.Some? && r.mtch.value.id == mid && i < |r.mtch.value.roster|
    requires forall k :: 0 <= k < |r.ends| ==> r.ends[k].id != mid
    ensures Reports(r, mid, i, o) <==> ShowsSeat(r.pool[r.mtch.value.roster[i]], o)
  {}

  lemma RosterSeat(r: Room, id: SeatId)
    requires Inv(r) && r.mtch.Some? && id in r.mtch.value.roster
    ensures OnRoster(r, id) && RosterOk(r) && !r.mtch.value.ended && r.inMatch && !AllTerminal(r)
  {
    InvIsNotDone(r);
  }

  /** From the room to what it reports just before the end. */
  lemma PreReports(r: Room, r1: Room, i: nat, cause: Option<Outcome>, o: Outcome)
    requires r.mtch.Some? && i < |r.mtch.value.roster| && Follows(r, r1, r.mtch.value.roster[i], cause)
    requires cause.Some? ==> cause.value.status in {Finished, Dnf, Left} && (cause.value.finishedAtMs.Some? <==> cause.value.status == Finished)
    requires cause.Some? ==> r.pool[r.mtch.value.roster[i]].status == Active
    ensures var id := r.mtch.value.roster[i];
      && (ShowsSeat(r1.pool[id], o) <==> cause == Some(o) || ShowsSeat(r.pool[id], o))
      && (r1.pool[id].status == Active <==> r.pool[id].status == Active && cause.None?)
  {}

  lemma CauseIsTerminal(r: Room, a: Action, id: SeatId)
    requires r.Wf() && r.mtch.Some? && id in r.pool && Cause(r, a, id).Some?
    ensures var o := Cause(r, a, id).value;
      o.status in {Finished, Dnf, Left} && (o.finishedAtMs.Some? <==> o.status == Finished)
    ensures r.pool[id].status == Active
  {}

  /** Once ended or not: the same report, from the seat or from the record. */
  lemma FinaleReports(r1: Room, ended: bool, reason: Reason, now: int, i: nat, o: Outcome)
    requires r1.Wf() && r1.mtch.Some? && !r1.mtch.value.ended && i < |r1.mtch.value.roster|
    requires forall k :: 0 <= k < |r1.ends| ==> r1.ends[k].id != r1.mtch.value.id
    requires ended ==> AllTerminal(r1)
    ensures var id, mid := r1.mtch.value.roster[i], r1.mtch.value.id;
      var r' := if ended then EndMatch(r1, reason, now) else r1;
      && (Reports(r', mid, i, o) <==> ShowsSeat(r1.pool[id], o))
      && (r1.pool[id].status == Active ==> StillRacing(r', mid, i))
  {
    if ended {
      assert r1.pool[r1.mtch.value.roster[i]].status != Active;
      EndReports(r1, reason, now, i, o);
    } else {
      GoingReports(r1, r1.mtch.value.id, i, o);
    }
  }

  lemma NoRecordYet(r: Room)
    requires Inv(r) && r.mtch.Some?
    ensures forall k :: 0 <= k < |r.ends| ==> r.ends[k].id != r.mtch.value.id
  {
    forall k | 0 <= k < |r.ends|
      ensures r.ends[k].id != r.mtch.value.id
    {
      NotEndedYet(r, k);
    }
  }

  /** Over one action: what the match then reports of a roster seat is what it
      reported, or what the action caused. */
  lemma PerformReports(r: Room, a: Action, i: nat, o: Outcome)
    requires Inv(r) && Legal(r, a) && r.mtch.Some? && i < |r.mtch.value.roster|
    ensures var id, mid := r.mtch.value.roster[i], r.mtch.value.id;
      && (Reports(Perform(r, a), mid, i, o) <==> Cause(r, a, id) == Some(o) || Reports(r, mid, i, o))
      && (r.pool[id].status == Active && Cause(r, a, id).None? ==> StillRacing(Perform(r, a), mid, i))
  {
    var id := r.mtch.value.roster[i];
    RosterSeat(r, id);
    NoRecordYet(r);
    PreFollows(r, a, id);
    if Cause(r, a, id).Some? {
      CauseIsTerminal(r, a, id);
    }
    PreReports(r, Pre(r, a), i, Cause(r, a, id), o);
    GoingReports(r, r.mtch.value.id, i, o);
    FinaleReports(Pre(r, a), EndsMatch(r, a), ReasonOf(a), if a.Timed() then a.now else 0, i, o);
    PerformIs(r, a);
  }

  // --- over one action -------------------------------------------------------

  lemma TickCause(r: Room, a: Action, id: SeatId)
    requires r.Wf() && r.mtch.Some? && id in r.pool
    ensures Cause(Tick(r, a), a, id) == Cause(r, a, id)
  {}

  /** A racer is reported as the action made it, and races on if it made it nothing. */
  lemma OutcomeIsItsCause(r: Room, a: Action, mid: MatchId, i: nat, o: Outcome)
    requires Inv(r) && Legal(r, a) && StillRacing(r, mid, i)
    ensures var id := r.mtch.value.roster[i];
      && (Reports(Step(r, a), mid, i, o) <==> Cause(r, a, id) == Some(o))
      && (Cause(r, a, id).None? ==> StillRacing(Step(r, a), mid, i))
  {
    var id := r.mtch.value.roster[i];
    var t := Tick(r, a);
    TickCore(r, a);
    NoRecordYet(t);
    PerformReports(t, a, i, o);
    GoingReports(t, mid, i, o);
    TickCause(r, a, id);
  }

  /** Finished at `t`: exactly by its own finish at `t`, without forfeit, while racing. */
  lemma FinishedByFinishing(r: Room, a: Action, mid: MatchId, i: nat, t: int)
    requires Inv(r) && Legal(r, a) && StillRacing(r, mid, i)
    ensures Reports(Step(r, a), mid, i, Outcome(Finished, Some(t))) <==>
      a.FinishA? && a.mid == mid && !a.forfeit && a.now == t && FindSeat(r.pool, r.seats, a.sess) == Some(r.mtch.value.roster[i])
  {
    OutcomeIsItsCause(r, a, mid, i, Outcome(Finished, Some(t)));
  }

  /** Left: exactly by leaving. */
  lemma LeftByLeaving(r: Room, a: Action, mid: MatchId, i: nat)
    requires Inv(r) && Legal(r, a) && StillRacing(r, mid, i)
    ensures Reports(Step(r, a), mid, i, Outcome(Left, None)) <==>
      a.LeaveA? && FindSeat(r.pool, r.seats, a.sess) == Some(r.mtch.value.roster[i])
  {
    OutcomeIsItsCause(r, a, mid, i, Outcome(Left, None));
  }

  /** Dnf, and no instant: by its own forfeit, a timer of the match, the end of its
      grace window, or a sweep that finds it silent; by nothing else. */
  lemma DnfByTheRest(r: Room, a: Action, mid: MatchId, i: nat)
    requires Inv(r) && Legal(r, a) && StillRacing(r, mid, i)
    ensures var id := r.mtch.value.roster[i];
      Reports(Step(r, a), mid, i, Outcome(Dnf, None)) <==>
      || (a.FinishA? && a.mid == mid && a.forfeit && FindSeat(r.pool, r.seats, a.sess) == Some(id))
      || (a.ForceEndA? && a.mid == mid)
      || (a.SweepAfkA? && a.mid == mid && Silent(r, id, a.now))
      || (a.GraceExpireA? && a.id == id && r.pool[id].sess.None? && r.pool[id].disconnected)
  {
    OutcomeIsItsCause(r, a, mid, i, Outcome(Dnf, None));
  }

  /** The AFK sweep resolves a racer exactly when it is silent. */
  lemma SweepResolvesTheSilent(r: Room, mid: MatchId, now: int, i: nat)
    requires Inv(r) && r.clock <= now && StillRacing(r, mid, i)
    ensures var r' := Step(r, SweepAfkA(mid, now));
      && (Silent(r, r.mtch.value.roster[i], now) <==> Reports(r', mid, i, Outcome(Dnf, None)))
      && (!Silent(r, r.mtch.value.roster[i], now) <==> StillRacing(r', mid, i))
  {
    OutcomeIsItsCause(r, SweepAfkA(mid, now), mid, i, Outcome(Dnf, None));
    if Silent(r, r.mtch.value.roster[i], now) {
      NotBoth(Step(r, SweepAfkA(mid, now)), mid, i, Outcome(Dnf, None), r, SweepAfkA(mid, now));
    }
  }

  /** No seat is reported and racing at once. */
  lemma NotBoth(r': Room, mid: MatchId, i: nat, o: Outcome, r: Room, a: Action)
    requires Inv(r) && Legal(r, a) && r' == Step(r, a) && Reports(r', mid, i, o)
    ensures !StillRacing(r', mid, i)
  {
    StepInv(r, a);
    if r'.mtch.Some? && r'.mtch.value.id == mid {
      NoRecordYet(r');
    }
  }

  // --- the finish window -----------------------------------------------------

  ghost function WindowOf(r: Room, mid: MatchId): (at: Option<int>) {
    if r.mtch.Some? && r.mtch.value.id == mid then r.mtch.value.finishWindowAtMs else None
  }

  /** A racer of a words or quote match finishes. */
  ghost predicate FirstFinish(r: Room, a: Action)
    requires r.Wf()
  {
    && r.mtch.Some? && a.FinishA? && a.mid == r.mtch.value.id && !a.forfeit
    && (r.mtch.value.settings.mode == "words" || r.mtch.value.settings.mode == "quote")
    && r.mtch.value.finishWindowAtMs.None?
    && var found := FindSeat(r.pool, r.seats, a.sess);
       found.Some? && r.pool[found.value].status == Active
  }

  lemma PreWindow(r: Room, a: Action)
    requires r.Wf() && Applicable(r, a) && r.mtch.Some? && r.inMatch
    ensures var m := Pre(r, a).mtch;
      && m.Some? && m.value.id == r.mtch.value.id && m.value.ended == r.mtch.value.ended
      && (m.value.finishWindowAtMs != r.mtch.value.finishWindowAtMs ==> FirstFinish(r, a) && m.value.finishWindowAtMs == Some(a.now))
      && (FirstFinish(r, a) && !AllTerminal(Pre(r, a)) ==> m.value.finishWindowAtMs == Some(a.now))
  {
    if a.OfConnection() {
      ConnectionRewires(r, a);
    } else if a.FinishA? {
      FinishingWindow(r, a.sess, a.mid, a.forfeit, a.now);
    } else {
      OtherWindow(r, a);
    }
  }

  lemma FinishingWindow(r: Room, sess: SessionId, mid: MatchId, forfeit: bool, now: int)
    requires r.Wf() && r.mtch.Some?
    ensures var r1 := Finishing(r, sess, mid, forfeit, now); var a := FinishA(sess, mid, forfeit, now);
      && r1.mtch.Some? && r1.mtch.value.id == r.mtch.value.id && r1.mtch.value.ended == r.mtch.value.ended
      && (r1.mtch != r.mtch ==> FirstFinish(r, a) && r1.mtch.value.finishWindowAtMs == Some(now))
      && (FirstFinish(r, a) && !AllTerminal(r1) ==> r1.mtch.value.finishWindowAtMs == Some(now))
  {}

  lemma OtherWindow(r: Room, a: Action)
    requires r.Wf() && Applicable(r, a) && r.mtch.Some? && r.inMatch && !a.OfConnection() && !a.FinishA?
    ensures Pre(r, a).mtch == r.mtch
  {}

  /** In a running match the window changes exactly when a racer of a words or quote
      match finishes first and somebody is still racing; it is armed at that instant. */
  lemma WindowArmedByFirstFinish(r: Room, a: Action)
    requires Inv(r) && Legal(r, a) && r.mtch.Some?
    ensures var mid := r.mtch.value.id; var r' := Step(r, a);
      r'.mtch.Some? && r'.mtch.value.id == mid ==>
        && (WindowOf(r', mid) != WindowOf(r, mid) <==> FirstFinish(r, a))
        && (FirstFinish(r, a) ==> WindowOf(r', mid) == Some(a.now))
  {
    TickCore(r, a);
    TickWindow(r, a);
    PerformWindow(Tick(r, a), a);
  }

  lemma TickWindow(r: Room, a: Action)
    requires r.Wf()
    ensures (FirstFinish(Tick(r, a), a) <==> FirstFinish(r, a)) && Tick(r, a).mtch == r.mtch
  {}

  lemma PerformWindow(r: Room, a: Action)
    requires Inv(r) && Legal(r, a) && r.mtch.Some?
    ensures var mid := r.mtch.value.id; var r' := Perform(r, a);
      r'.mtch.Some? && r'.mtch.value.id == mid ==>
        && (WindowOf(r', mid) != WindowOf(r, mid) <==> FirstFinish(r, a))
        && (FirstFinish(r, a) ==> WindowOf(r', mid) == Some(a.now))
  {
    InvIsNotDone(r);
    PreWindow(r, a);
    PerformIs(r, a);
    if EndsMatch(r, a) {
      EndedIsNone(Pre(r, a), ReasonOf(a), a.now);
    } else {
      FirstFinishEnds(r, a);
    }
  }

  lemma EndedIsNone(r: Room, reason: Reason, now: int)
    requires r.Wf() && (r.mtch.Some? ==> !r.mtch.value.ended)
    ensures EndMatch(r, reason, now).mtch.None?
  {}

  lemma FirstFinishEnds(r: Room, a: Action)
    requires r.Wf() && Applicable(r, a) && !EndsMatch(r, a)
    ensures FirstFinish(r, a) ==> !AllTerminal(Pre(r, a))
  {}

  // --- over whole runs -------------------------------------------------------

  /** The first cause that meets seat `id` while match `mid` runs. */
  ghost function FirstCause(r: Room, run: seq<Action>, mid: MatchId, id: SeatId): (o: Option<Outcome>)
    requires Inv(r) && LegalRun(r, run)
    decreases |run|
  {
    if run == [] || r.mtch.None? || r.mtch.value.id != mid || id !in r.mtch.value.roster then None
    else if Cause(r, run[0], id).Some? then Cause(r, run[0], id)
    else
      StepInv(r, run[0]);
      FirstCause(Step(r, run[0]), run[1..], mid, id)
  }

  /** What an ended match reported stays as it is. */
  lemma EndedReportStays(r: Room, a: Action, mid: MatchId, i: nat, o: Outcome)
    requires Inv(r) && Legal(r, a) && HasEnded(r, mid)
    ensures HasEnded(Step(r, a), mid) && (Reports(Step(r, a), mid, i, o) <==> Reports(r, mid, i, o))
  {
    StepInv(r, a);
    EndsGrow(r, a);
    var r' := Step(r, a);
    var k :| 0 <= k < |r.ends| && r.ends[k].id == mid;
    assert r'.ends[k] == r.ends[k];
    OnlyRecord(r, mid, k);
    OnlyRecord(r', mid, k);
  }

  /** An ended match has one record and does not run. */
  lemma OnlyRecord(r: Room, mid: MatchId, k: nat)
    requires r.Wf() && LogsOk(r) && k < |r.ends| && r.ends[k].id == mid
    ensures forall j :: 0 <= j < |r.ends| && r.ends[j].id == mid ==> j == k
    ensures r.mtch.Some? ==> r.mtch.value.id != mid
  {
    forall j | 0 <= j < |r.ends| && r.ends[j].id == mid
      ensures j == k
    {
      assert r.started[j].id == r.started[k].id;
    }
    if r.mtch.Some? {
      NotEndedYet(r, k);
    }
  }

  /** What is reported of a resolved seat stays. */
  lemma ReportStays(r: Room, a: Action, mid: MatchId, i: nat, was: Outcome, o: Outcome)
    requires Inv(r) && Legal(r, a) && Reports(r, mid, i, was)
    ensures Reports(Step(r, a), mid, i, o) <==> Reports(r, mid, i, o)
  {
    if HasEnded(r, mid) {
      EndedReportStays(r, a, mid, i, o);
    } else {
      var id := r.mtch.value.roster[i];
      var t := Tick(r, a);
      TickCore(r, a);
      PerformReports(t, a, i, o);
      assert Reports(t, mid, i, o) <==> Reports(r, mid, i, o);
    }
  }

  lemma {:induction false} RunKeepsReport(r: Room, run: seq<Action>, mid: MatchId, i: nat, was: Outcome, o: Outcome)
    requires Inv(r) && LegalRun(r, run) && Reports(r, mid, i, was)
    ensures Reports(Run(r, run), mid, i, o) <==> Reports(r, mid, i, o)
    decreases |run|
  {
    if run != [] {
      StepInv(r, run[0]);
      ReportStays(r, run[0], mid, i, was, was);
      ReportStays(r, run[0], mid, i, was, o);
      RunKeepsReport(Step(r, run[0]), run[1..], mid, i, was, o);
    }
  }

  /** Over any run: a racer is reported as the first thing that caused its end, and
      not at all while nothing has. */
  lemma {:induction false} ReportIsFirstCause(r: Room, run: seq<Action>, mid: MatchId, i: nat, o: Outcome)
    requires Inv(r) && LegalRun(r, run) && StillRacing(r, mid, i)
    ensures Reports(Run(r, run), mid, i, o) <==> FirstCause(r, run, mid, r.mtch.value.roster[i]) == Some(o)
    decreases |run|
  {
    var id := r.mtch.value.roster[i];
    if run == [] {
      NoRecordYet(r);
      GoingReports(r, mid, i, o);
    } else {
      StepInv(r, run[0]);
      OutcomeIsItsCause(r, run[0], mid, i, o);
      if Cause(r, run[0], id).Some? {
        OutcomeIsItsCause(r, run[0], mid, i, Cause(r, run[0], id).value);
        RunKeepsReport(Step(r, run[0]), run[1..], mid, i, Cause(r, run[0], id).value, o);
      } else {
        SameRoster(r, run[0], mid, i);
        ReportIsFirstCause(Step(r, run[0]), run[1..], mid, i, o);
      }
    }
  }

  lemma SameRoster(r: Room, a: Action, mid: MatchId, i: nat)
    requires Inv(r) && Legal(r, a) && StillRacing(r, mid, i) && StillRacing(Step(r, a), mid, i)
    ensures Step(r, a).mtch.value.roster == r.mtch.value.roster
  {
    var t := Tick(r, a);
    TickCore(r, a);
    RosterSeat(t, r.mtch.value.roster[i]);
    PreFollows(t, a, r.mtch.value.roster[i]);
    PerformIs(t, a);
    if EndsMatch(t, a) {
      EndedIsNone(Pre(t, a), ReasonOf(a), a.now);
    }
  }

  /** A match starts with all its seats racing, so the last theorem covers every
      match from its start. */
  lemma EverybodyStartsRacing(r: Room, a: Action, i: nat)
    requires Inv(r) && Legal(r, a) && a.StartMatchA? && CanStart(r, a.sess, a.force) && i < |r.seats|
    ensures StillRacing(Step(r, a), a.mid, i) && Step(r, a).mtch.value.roster == r.seats
  {}
}
