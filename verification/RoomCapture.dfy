/** What is captured is what was accepted: batch by batch, event by event, from the
    sender's action to the snapshot of the ended match. */
module RoomCapture {
  import opened RoomTypes
  import opened RoomSteps
  import opened RoomActions
  import opened RoomInvariant
  import opened RoomPreservation
  import opened RoomRuns
  import opened RoomOutcome

  // --- logs ------------------------------------------------------------------

  /** The events of a capture, batch by batch. */
  ghost function EventsOf(bs: seq<CapturedBatch>): (es: seq<seq<Event>>) {
    if bs == [] then [] else EventsOf(bs[..|bs|-1]) + [bs[|bs|-1].events]
  }

  /** The events player `p` sent, batch by batch, in the order of acceptance. */
  ghost function SentBy(log: seq<Accepted>, p: PlayerId): (es: seq<seq<Event>>) {
    if log == [] then []
    else
      var f := log[|log|-1].frame;
      SentBy(log[..|log|-1], p) + if f.PeerBatch? && f.from == p then [f.events] else []
  }

  /** The entries of match `mid`. */
  ghost function OfMatch(log: seq<Accepted>, mid: MatchId): (of: seq<Accepted>) {
    if log == [] then []
    else OfMatch(log[..|log|-1], mid) + if log[|log|-1].frame.matchId == mid then [log[|log|-1]] else []
  }

  lemma SentBySnoc(log: seq<Accepted>, x: Accepted, p: PlayerId)
    ensures SentBy(log + [x], p) == SentBy(log, p) + (if x.frame.PeerBatch? && x.frame.from == p then [x.frame.events] else [])
  {
    assert (log + [x])[..|log|] == log;
  }

  lemma OfMatchSnoc(log: seq<Accepted>, x: Accepted, mid: MatchId)
    ensures OfMatch(log + [x], mid) == OfMatch(log, mid) + (if x.frame.matchId == mid then [x] else [])
  {
    assert (log + [x])[..|log|] == log;
  }

  lemma EventsOfSnoc(bs: seq<CapturedBatch>, b: CapturedBatch)
    ensures EventsOf(bs + [b]) == EventsOf(bs) + [b.events]
  {
    assert (bs + [b])[..|bs|] == bs;
  }

  lemma {:induction false} NoneOfMatch(log: seq<Accepted>, mid: MatchId)
    requires forall x <- log :: x.frame.matchId != mid
    ensures OfMatch(log, mid) == []
  {
    if log != [] {
      NoneOfMatch(log[..|log|-1], mid);
    }
  }

  /** The batch an action gets accepted, as the sender sent it. */
  ghost function NewlyAccepted(r: Room, a: Action): (log: seq<Accepted>)
    requires r.Wf()
  {
    if !a.RelayA? then [] else
      var me := FindSeat(r.pool, r.seats, a.sess);
      if me.None? || !Acceptable(r, me.value, a.batch) then []
      else [Accepted(me.value, PeerBatch(a.batch.matchId, r.pool[me.value].playerId, a.batch.version, a.batch.events))]
  }

  /** Everything accepted over a run, in order. */
  ghost function LogOf(r: Room, run: seq<Action>): (log: seq<Accepted>)
    requires Inv(r) && LegalRun(r, run)
    decreases |run|
  {
    if run == [] then [] else
      StepInv(r, run[0]);
      NewlyAccepted(r, run[0]) + LogOf(Step(r, run[0]), run[1..])
  }

  // --- one action ------------------------------------------------------------

  /** Captures, players, the match and its logs stay. */
  ghost predicate CaptureKept(r: Room, r1: Room) {
    && r.Wf() && r1.Wf() && r.pool.Keys <= r1.pool.Keys
    && (forall id <- r.pool :: SameCapture(r.pool[id], r1.pool[id]))
    && r1.accepted == r.accepted && r1.ends == r.ends && r1.started == r.started && r1.mtch.Some? == r.mtch.Some?
    && (r.mtch.Some? ==> r1.mtch.value.id == r.mtch.value.id && r1.mtch.value.roster == r.mtch.value.roster
                         && r1.mtch.value.ended == r.mtch.value.ended && r1.mtch.value.goAtMs == r.mtch.value.goAtMs)
  }

  ghost predicate SameCapture(s: Seat, s': Seat) {
    s'.playerId == s.playerId && s'.userId == s.userId && s'.batches == s.batches && s'.activeBuckets == s.activeBuckets
  }

  lemma PutKept(r: Room, at: SeatId, s: Seat)
    requires r.Wf() && at in r.pool && SameCapture(r.pool[at], s)
    ensures CaptureKept(r, Put(r, at, s))
  {}

  lemma DepartKept(r: Room, r1: Room, at: SeatId)
    requires CaptureKept(r, r1) && at in r1.pool
    ensures CaptureKept(r, Depart(r1, at))
  {}

  lemma ArmKept(r: Room, r1: Room, now: int)
    requires CaptureKept(r, r1)
    ensures CaptureKept(r, Arm(r1, now))
  {}

  lemma DepartedKept(r: Room, id: SeatId)
    requires r.Wf() && id in r.pool
    ensures CaptureKept(r, Departed(r, id))
  {
    PutKept(r, id, r.pool[id].(status := Left, sess := None));
    DepartKept(r, Put(r, id, r.pool[id].(status := Left, sess := None)), id);
    DepartKept(r, r, id);
  }

  lemma LeavingKept(r: Room, sess: SessionId)
    requires r.Wf()
    ensures CaptureKept(r, Leaving(r, sess))
  {
    var found := FindSeat(r.pool, r.seats, sess);
    if found.Some? {
      DepartedKept(r, found.value);
    }
  }

  lemma ReleasingKept(r: Room, id: SeatId)
    requires r.Wf() && id in r.pool
    ensures CaptureKept(r, Releasing(r, id))
  {
    DepartedKept(r, id);
  }

  lemma GracedKept(r: Room, id: SeatId)
    requires r.Wf() && id in r.pool
    ensures CaptureKept(r, Graced(r, id))
  {
    var s := r.pool[id];
    PutKept(r, id, s.(status := Dnf));
    PutKept(r, id, s.(disconnected := false));
    DepartKept(r, Put(r, id, s.(status := Dnf)), id);
    DepartKept(r, Put(r, id, s.(disconnected := false)), id);
  }

  lemma FinishingKept(r: Room, sess: SessionId, mid: MatchId, forfeit: bool, now: int)
    requires r.Wf()
    ensures CaptureKept(r, Finishing(r, sess, mid, forfeit, now))
  {
    var found := FindSeat(r.pool, r.seats, sess);
    if found.Some? {
      var s := r.pool[found.value];
      PutKept(r, found.value, s.(status := Dnf));
      PutKept(r, found.value, s.(status := Finished, finishedAtMs := now));
      ArmKept(r, Put(r, found.value, s.(status := Finished, finishedAtMs := now)), now);
    }
  }

  lemma SweepingKept(r: Room, mid: MatchId, out: set<SeatId>)
    requires r.Wf()
    ensures CaptureKept(r, Sweeping(r, mid, out))
  {}

  lemma ResolvingKept(r: Room, a: Action)
    requires r.Wf() && Applicable(r, a) && Resolves(a)
    ensures CaptureKept(r, Pre(r, a))
  {
    match a
    case LeaveA(sess, _) => LeavingKept(r, sess);
    case ReleaseA(id, _) => ReleasingKept(r, id);
    case GraceExpireA(id, _) => GracedKept(r, id);
    case FinishA(sess, mid, forfeit, now) => FinishingKept(r, sess, mid, forfeit, now);
    case ForceEndA(mid, _, _) => SweepingKept(r, mid, r.pool.Keys);
    case SweepAfkA(mid, now) => SweepingKept(r, mid, SweepSet(r, now));
  }

  lemma ConnectionKept(r: Room, a: Action)
    requires r.Wf() && Applicable(r, a) && a.OfConnection()
    ensures CaptureKept(r, Perform(r, a))
  {
    ConnectionRewires(r, a);
    assert forall id <- r.pool :: Rewired(r.pool[id], Perform(r, a).pool[id]);
  }

  lemma HostKept(r: Room, sess: SessionId, target: PlayerId, now: int)
    requires r.Wf()
    ensures CaptureKept(r, Kick(r, sess, target, now)) && CaptureKept(r, TransferHost(r, sess, target, now))
  {}

  lemma ReadyKept(r: Room, sess: SessionId, value: bool, now: int)
    requires r.Wf()
    ensures CaptureKept(r, SetReady(r, sess, value, now))
  {}

  lemma SettingsKept(r: Room, sess: SessionId, ns: Settings, now: int)
    requires r.Wf()
    ensures CaptureKept(r, UpdateSettings(r, sess, ns, now))
  {}

  lemma LobbyKept(r: Room, a: Action)
    requires r.Wf() && Applicable(r, a) && (a.KickA? || a.TransferHostA? || a.ReadyA? || a.SettingsA?)
    ensures CaptureKept(r, Perform(r, a))
  {
    match a
    case KickA(sess, target, now) => HostKept(r, sess, target, now);
    case TransferHostA(sess, target, now) => HostKept(r, sess, target, now);
    case ReadyA(sess, value, now) => ReadyKept(r, sess, value, now);
    case SettingsA(sess, ns, now) => SettingsKept(r, sess, ns, now);
  }

  lemma SeatKept(r: Room, a: Action)
    requires r.Wf() && a.TakeSeatA? && a.id !in r.pool
    ensures CaptureKept(r, Perform(r, a))
  {}

  lemma LeaveAllKept(r: Room, now: int)
    requires Inv(r) && r.mtch.None?
    ensures CaptureKept(r, LeaveAll(r, now)) && LeaveAll(r, now).mtch == r.mtch
    decreases |r.seats|
  {
    if r.seats != [] {
      assert Without(r.seats, r.seats[0]) == r.seats[1..];
      LeaveSeatInv(r, r.seats[0], now);
      DepartedKept(r, r.seats[0]);
      LeaveAllKept(LeaveSeat(r, r.seats[0], now), now);
    }
  }

  lemma ReapKept(r: Room, now: int)
    requires Inv(r)
    ensures CaptureKept(r, ReapIdle(r, now))
  {
    if IdleStateOf(r, now) == Expire {
      LeaveAllKept(r, now);
    }
  }

  /** Nothing but a relay and a start touches captures or the log. */
  lemma PreKept(r: Room, a: Action)
    requires Inv(r) && Applicable(r, a) && (a.TakeSeatA? ==> a.id !in r.pool) && !a.RelayA? && !a.StartMatchA?
    ensures CaptureKept(r, Pre(r, a))
  {
    if Resolves(a) {
      ResolvingKept(r, a);
    } else if a.OfConnection() {
      ConnectionKept(r, a);
    } else if a.TakeSeatA? {
      SeatKept(r, a);
    } else if a.ReapIdleA? {
      ReapKept(r, a.now);
    } else {
      LobbyKept(r, a);
    }
  }

  // --- the running match -----------------------------------------------------

  /** Roster seat `id` has captured exactly what was accepted from it. */
  ghost predicate Captured(r: Room, id: SeatId)
    requires r.Wf() && id in r.pool
  {
    EventsOf(r.pool[id].batches) == SentBy(r.accepted, r.pool[id].playerId)
  }

  /** Players of the roster are told apart. */
  ghost predicate DistinctPlayers(r: Room)
    requires r.Wf()
  {
    r.mtch.Some? ==> forall x <- r.mtch.value.roster, y <- r.mtch.value.roster :: r.pool[x].playerId == r.pool[y].playerId ==> x == y
  }

  ghost predicate AllCaptured(r: Room)
    requires r.Wf()
  {
    r.mtch.Some? ==> forall id <- r.mtch.value.roster :: Captured(r, id)
  }

  /** The room against everything accepted so far: the room's own log is the part of
      its running match, and every snapshot holds what its player sent. */
  ghost predicate Faithful(r: Room, log: seq<Accepted>) {
    && r.Wf() && DistinctPlayers(r) && AllCaptured(r)
    && (r.mtch.Some? ==> r.accepted == OfMatch(log, r.mtch.value.id))
    && (forall x <- log :: x.frame.PeerBatch? && x.frame.matchId in StartedIds(r))
    && (forall k, i :: 0 <= k < |r.ends| && 0 <= i < |r.ends[k].runs| ==> Kept(r.ends[k], i, log))
  }

  ghost predicate Kept(e: EndRecord, i: nat, log: seq<Accepted>)
    requires i < |e.runs|
  {
    EventsOf(e.runs[i].batches) == SentBy(OfMatch(log, e.id), e.runs[i].playerId)
  }

  lemma KeptFaithful(r: Room, r1: Room, log: seq<Accepted>)
    requires Faithful(r, log) && CaptureKept(r, r1)
    ensures Faithful(r1, log)
  {
    assert StartedIds(r1) == StartedIds(r);
    if r1.mtch.Some? {
      forall id | id in r1.mtch.value.roster
        ensures Captured(r1, id)
      {
        assert Captured(r, id);
      }
    }
  }

  /** The snapshot of an ended match holds each roster player's capture. */
  lemma EndSnapshots(r: Room, reason: Reason, now: int, i: nat)
    requires r.Wf() && r.mtch.Some? && !r.mtch.value.ended && i < |r.mtch.value.roster|
    ensures var e := EndMatch(r, reason, now).ends; var id := r.mtch.value.roster[i];
      && |e| == |r.ends| + 1 && e[..|r.ends|] == r.ends && e[|r.ends|].id == r.mtch.value.id
      && |e[|r.ends|].runs| == |r.mtch.value.roster|
      && e[|r.ends|].runs[i].batches == r.pool[id].batches && e[|r.ends|].runs[i].playerId == r.pool[id].playerId
  {}

  lemma EndFaithful(r: Room, reason: Reason, now: int, log: seq<Accepted>)
    requires Faithful(r, log) && r.mtch.Some? && !r.mtch.value.ended && r.mtch.value.roster != []
    ensures Faithful(EndMatch(r, reason, now), log)
  {
    var r', m := EndMatch(r, reason, now), r.mtch.value;
    EndSnapshots(r, reason, now, 0);
    assert r'.mtch.None? && StartedIds(r') == StartedIds(r);
    forall k, i | 0 <= k < |r'.ends| && 0 <= i < |r'.ends[k].runs|
      ensures Kept(r'.ends[k], i, log)
    {
      if k < |r.ends| {
        assert r'.ends[k] == r.ends[k];
      } else {
        EndSnapshots(r, reason, now, i);
        assert m.roster[i] in m.roster && Captured(r, m.roster[i]);
      }
    }
  }

  lemma StartFaithful(r: Room, sess: SessionId, force: bool, mid: MatchId, now: int, log: seq<Accepted>)
    requires SeatsOk(r) && Faithful(r, log) && mid !in StartedIds(r)
    ensures Faithful(StartMatch(r, sess, force, mid, now), log)
  {
    var r' := StartMatch(r, sess, force, mid, now);
    if r' != r {
      NoneOfMatch(log, mid);
      assert r'.started == r.started + [r'.started[|r.started|]];
      assert forall x :: x in StartedIds(r) ==> x in StartedIds(r') by {
        forall s | s in r.started
          ensures s in r'.started
        {}
      }
      assert forall id <- r.pool :: r'.pool[id].playerId == r.pool[id].playerId;
      assert forall id <- r.seats :: r'.pool[id].batches == [];
    }
  }

  /** An accepted batch, as one action: captured on its sender as it was sent and
      when it was received, and logged. */
  lemma AcceptedAsSent(r: Room, sess: SessionId, eb: EventBatch, recvMs: int, now: int)
    requires r.Wf()
    requires var me := FindSeat(r.pool, r.seats, sess); me.Some? && Acceptable(r, me.value, eb)
    ensures var r', me := Relay(r, sess, eb, recvMs, now), FindSeat(r.pool, r.seats, sess).value;
      && r'.pool.Keys == r.pool.Keys
      && r'.pool[me].batches == r.pool[me].batches + [CapturedBatch(eb.batchSeq, recvMs, eb.events)]
      && r'.accepted == r.accepted + [Accepted(me, PeerBatch(eb.matchId, r.pool[me].playerId, eb.version, eb.events))]
      && (forall id <- r.pool :: (id != me ==> r'.pool[id].batches == r.pool[id].batches) && r'.pool[id].playerId == r.pool[id].playerId)
      && r'.ends == r.ends && r'.started == r.started && r'.mtch == r.mtch
  {
    var r', me := Relay(r, sess, eb, recvMs, now), FindSeat(r.pool, r.seats, sess).value;
    forall id | id in r.pool
      ensures id != me ==> r'.pool[id].batches == r.pool[id].batches
      ensures r'.pool[id].playerId == r.pool[id].playerId
    {
      SeatAccepts(r.pool[id], r.mtch.value.goAtMs, eb, recvMs, PeerBatch(r.mtch.value.id, r.pool[me].playerId, eb.version, eb.events));
    }
    SeatAccepts(r.pool[me], r.mtch.value.goAtMs, eb, recvMs, PeerBatch(r.mtch.value.id, r.pool[me].playerId, eb.version, eb.events));
  }

  lemma SeatAccepts(s: Seat, goAtMs: int, eb: EventBatch, recvMs: int, f: Frame)
    ensures HandBatch(s, f).batches == s.batches && HandBatch(s, f).playerId == s.playerId
    ensures var c := Capture(s, goAtMs, eb, recvMs);
      c.batches == s.batches + [CapturedBatch(eb.batchSeq, recvMs, eb.events)] && c.playerId == s.playerId
  {}

  lemma RelayCaptures(r: Room, r': Room, me: SeatId, b: CapturedBatch, x: Accepted, id: SeatId)
    requires r.Wf() && r'.Wf() && DistinctPlayers(r) && r.mtch.Some? && id in r.mtch.value.roster && me in r.mtch.value.roster
    requires r'.pool.Keys == r.pool.Keys && r'.accepted == r.accepted + [x] && Captured(r, id)
    requires x.frame.PeerBatch? && x.frame.from == r.pool[me].playerId && x.frame.events == b.events
    requires r'.pool[id].playerId == r.pool[id].playerId
    requires r'.pool[id].batches == if id == me then r.pool[id].batches + [b] else r.pool[id].batches
    ensures Captured(r', id)
  {
    SentBySnoc(r.accepted, x, r.pool[id].playerId);
    EventsOfSnoc(r.pool[id].batches, b);
  }

  lemma RelayFaithful(r: Room, a: Action, log: seq<Accepted>)
    requires r.Wf() && StatusOk(r) && LogsOk(r) && Faithful(r, log) && a.RelayA?
    ensures Faithful(Perform(r, a), log + NewlyAccepted(r, a))
  {
    var found := FindSeat(r.pool, r.seats, a.sess);
    if found.Some? && Acceptable(r, found.value, a.batch) {
      AcceptedFaithful(r, a.sess, a.batch, a.recvMs, a.now, log);
    } else {
      assert log + [] == log;
    }
  }

  lemma AcceptedFaithful(r: Room, sess: SessionId, eb: EventBatch, recvMs: int, now: int, log: seq<Accepted>)
    requires r.Wf() && StatusOk(r) && LogsOk(r) && Faithful(r, log)
    requires var me := FindSeat(r.pool, r.seats, sess); me.Some? && Acceptable(r, me.value, eb)
    ensures var me := FindSeat(r.pool, r.seats, sess).value;
      Faithful(Relay(r, sess, eb, recvMs, now), log + [Accepted(me, PeerBatch(eb.matchId, r.pool[me].playerId, eb.version, eb.events))])
  {
    var r', me := Relay(r, sess, eb, recvMs, now), FindSeat(r.pool, r.seats, sess).value;
    var x := Accepted(me, PeerBatch(eb.matchId, r.pool[me].playerId, eb.version, eb.events));
    AcceptedAsSent(r, sess, eb, recvMs, now);
    LoggedFaithful(r, r', me, CapturedBatch(eb.batchSeq, recvMs, eb.events), x, log);
  }

  /** A batch captured on its sender and logged: nothing else need be known of it. */
  lemma LoggedFaithful(r: Room, r': Room, me: SeatId, b: CapturedBatch, x: Accepted, log: seq<Accepted>)
    requires r.Wf() && r'.Wf() && LogsOk(r) && Faithful(r, log) && r.mtch.Some? && me in r.mtch.value.roster
    requires r'.pool.Keys == r.pool.Keys && r'.accepted == r.accepted + [x]
    requires r'.ends == r.ends && r'.started == r.started && r'.mtch == r.mtch
    requires x.frame.PeerBatch? && x.frame.matchId == r.mtch.value.id && x.frame.from == r.pool[me].playerId && x.frame.events == b.events
    requires r'.pool[me].batches == r.pool[me].batches + [b]
    requires forall id <- r.pool :: (id != me ==> r'.pool[id].batches == r.pool[id].batches) && r'.pool[id].playerId == r.pool[id].playerId
    ensures Faithful(r', log + [x])
  {
    OfMatchSnoc(log, x, r.mtch.value.id);
    assert r.started[|r.ends|] in r.started && StartedIds(r') == StartedIds(r);
    forall id | id in r.mtch.value.roster
      ensures Captured(r', id)
    {
      RelayCaptures(r, r', me, b, x, id);
    }
    forall k, i | 0 <= k < |r'.ends| && 0 <= i < |r'.ends[k].runs|
      ensures Kept(r'.ends[k], i, log + [x])
    {
      assert Kept(r.ends[k], i, log);
      assert r.ends[k].id == r.started[k].id && r.started[k].id != r.mtch.value.id;
      OldRecordKept(r.ends[k], i, log, x);
    }
  }

  lemma OldRecordKept(e: EndRecord, i: nat, log: seq<Accepted>, x: Accepted)
    requires i < |e.runs| && Kept(e, i, log) && x.frame.matchId != e.id
    ensures Kept(e, i, log + [x])
  {
    OfMatchSnoc(log, x, e.id);
    assert OfMatch(log, e.id) + [] == OfMatch(log, e.id);
  }

  // --- whole runs ------------------------------------------------------------

  lemma PerformFaithful(r: Room, a: Action, log: seq<Accepted>)
    requires Inv(r) && Legal(r, a) && Faithful(r, log)
    ensures Faithful(Perform(r, a), log + NewlyAccepted(r, a))
  {
    if a.RelayA? {
      RelayFaithful(r, a, log);
    } else {
      assert log + [] == log;
      if a.StartMatchA? {
        StartFaithful(r, a.sess, a.force, a.mid, a.now, log);
      } else {
        QuietFaithful(r, a, log);
      }
    }
  }

  lemma QuietFaithful(r: Room, a: Action, log: seq<Accepted>)
    requires Inv(r) && Legal(r, a) && Faithful(r, log) && !a.RelayA? && !a.StartMatchA?
    ensures Faithful(Perform(r, a), log)
  {
    InvIsNotDone(r);
    PerformIs(r, a);
    PreKept(r, a);
    KeptFaithful(r, Pre(r, a), log);
    if EndsMatch(r, a) {
      RosterNotEmpty(r);
      EndFaithful(Pre(r, a), ReasonOf(a), a.now, log);
    }
  }

  lemma RosterNotEmpty(r: Room)
    requires Inv(r)
    ensures r.mtch.Some? ==> !r.mtch.value.ended && r.mtch.value.roster != []
  {}

  lemma TickFaithful(r: Room, a: Action, log: seq<Accepted>)
    requires Faithful(r, log)
    ensures Faithful(Tick(r, a), log) && NewlyAccepted(Tick(r, a), a) == NewlyAccepted(r, a)
  {
    var t := Tick(r, a);
    assert StartedIds(t) == StartedIds(r);
    if t.mtch.Some? {
      forall id | id in t.mtch.value.roster
        ensures Captured(t, id)
      {
        assert Captured(r, id);
      }
    }
  }

  /** Over any run, with `log` everything accepted before it. */
  lemma {:induction false} RunFaithful(r: Room, run: seq<Action>, log: seq<Accepted>)
    requires Inv(r) && LegalRun(r, run) && Faithful(r, log)
    ensures Faithful(Run(r, run), log + LogOf(r, run))
    decreases |run|
  {
    if run == [] {
      assert log + [] == log;
    } else {
      StepInv(r, run[0]);
      StepFaithful(r, run[0], log);
      var added, rest := NewlyAccepted(r, run[0]), LogOf(Step(r, run[0]), run[1..]);
      RunFaithful(Step(r, run[0]), run[1..], log + added);
      Regroup(log, added, rest);
      assert LogOf(r, run) == added + rest;
    }
  }

  lemma Regroup(a: seq<Accepted>, b: seq<Accepted>, c: seq<Accepted>)
    ensures (a + b) + c == a + (b + c)
  {}

  lemma StepFaithful(r: Room, a: Action, log: seq<Accepted>)
    requires Inv(r) && Legal(r, a) && Faithful(r, log)
    ensures Faithful(Step(r, a), log + NewlyAccepted(r, a))
  {
    TickCore(r, a);
    TickFaithful(r, a, log);
    PerformFaithful(Tick(r, a), a, log);
  }

  /** From a new room on: while a match runs, each roster seat has captured exactly the
      batches accepted from its player in this match, event by event and in order. */
  lemma CaptureIsWhatWasSent(now: int, run: seq<Action>, id: SeatId)
    requires LegalRun(FreshRoom(now), run)
    requires var r := Run(FreshRoom(now), run); r.mtch.Some? && id in r.mtch.value.roster
    ensures var r := Run(FreshRoom(now), run); var mid, p := r.mtch.value.id, r.pool[id].playerId;
      && EventsOf(r.pool[id].batches) == SentBy(r.accepted, p)
      && r.accepted == OfMatch(LogOf(FreshRoom(now), run), mid)
  {
    FreshFaithful(now);
    RunFaithful(FreshRoom(now), run, []);
    assert [] + LogOf(FreshRoom(now), run) == LogOf(FreshRoom(now), run);
    assert Captured(Run(FreshRoom(now), run), id);
  }

  /** And the snapshot of every ended match holds, for each of its players, exactly the
      batches accepted from him in that match. */
  lemma SnapshotIsWhatWasSent(now: int, run: seq<Action>, k: nat, i: nat)
    requires LegalRun(FreshRoom(now), run)
    requires var r := Run(FreshRoom(now), run); k < |r.ends| && i < |r.ends[k].runs|
    ensures var e := Run(FreshRoom(now), run).ends[k];
      EventsOf(e.runs[i].batches) == SentBy(OfMatch(LogOf(FreshRoom(now), run), e.id), e.runs[i].playerId)
  {
    FreshFaithful(now);
    RunFaithful(FreshRoom(now), run, []);
    assert [] + LogOf(FreshRoom(now), run) == LogOf(FreshRoom(now), run);
    assert Kept(Run(FreshRoom(now), run).ends[k], i, LogOf(FreshRoom(now), run));
  }

  lemma FreshFaithful(now: int)
    ensures Faithful(FreshRoom(now), [])
  {}
}
