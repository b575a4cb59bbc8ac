/** What one action does to a room, told without the step functions: which seats it
    resolves and how, what it captures and hands over, who goes, and whether it ends
    the match. The step functions are proved to do exactly this. */
module RoomOutcome {
  import opened RoomTypes
  import opened RoomSteps
  import opened RoomActions
  import opened RoomInvariant

  // --- the room just before its match may end ------------------------------

  ghost function Departed(r: Room, id: SeatId): (r': Room)
    requires r.Wf() && id in r.pool
  {
    Depart(if Racing(r, id) then Put(r, id, r.pool[id].(status := Left, sess := None)) else r, id)
  }

  ghost function Graced(r: Room, id: SeatId): (r': Room)
    requires r.Wf() && id in r.pool
  {
    var s := r.pool[id];
    if s.sess.Some? || !s.disconnected || !Present(r, s.playerId) then r
    else Depart(Put(r, id, if Racing(r, id) then s.(status := Dnf) else s.(disconnected := false)), id)
  }

  ghost function Finishing(r: Room, sess: SessionId, mid: MatchId, forfeit: bool, now: int): (r': Room)
    requires r.Wf()
  {
    var found := FindSeat(r.pool, r.seats, sess);
    if found.None? || r.mtch.None? || mid != r.mtch.value.id || r.pool[found.value].status != Active then r
    else
      var s := r.pool[found.value];
      if forfeit then Put(r, found.value, s.(status := Dnf)) else
        var r1 := Put(r, found.value, s.(status := Finished, finishedAtMs := now));
        if AllTerminal(r1) then r1 else Arm(r1, now)
  }

  ghost function Leaving(r: Room, sess: SessionId): (r': Room)
    requires r.Wf()
  {
    var found := FindSeat(r.pool, r.seats, sess);
    if found.None? then r else Departed(r, found.value)
  }

  ghost function Releasing(r: Room, id: SeatId): (r': Room)
    requires r.Wf() && id in r.pool
  {
    if !Present(r, r.pool[id].playerId) || Racing(r, id) then r else Departed(r, id)
  }

  ghost function Sweeping(r: Room, mid: MatchId, out: set<SeatId>): (r': Room)
    requires r.Wf()
  {
    if IsCurrent(r, mid) then DnfWhere(r, out) else r
  }

  /** The actions that can resolve a racer, and with the last one the match. */
  predicate Resolves(a: Action) {
    a.OfMatch() || a.LeaveA? || a.ReleaseA? || a.GraceExpireA?
  }

  predicate Applicable(r: Room, a: Action) {
    (a.NamesSeat() ==> a.id in r.pool) && (a.ReapIdleA? ==> r.inMatch == r.mtch.Some?)
  }

  ghost function Pre(r: Room, a: Action): (r': Room)
    requires r.Wf() && Applicable(r, a)
    ensures r'.Wf()
  {
    match a
    case LeaveA(sess, _) => Leaving(r, sess)
    case ReleaseA(id, _) => Releasing(r, id)
    case GraceExpireA(id, _) => Graced(r, id)
    case FinishA(sess, mid, forfeit, now) => Finishing(r, sess, mid, forfeit, now)
    case ForceEndA(mid, _, _) => Sweeping(r, mid, r.pool.Keys)
    case SweepAfkA(mid, now) => Sweeping(r, mid, SweepSet(r, now))
    case _ => Perform(r, a)
  }

  function ReasonOf(a: Action): (reason: Reason) {
    if a.ForceEndA? then a.reason else AllFinished
  }

  /** The action ends the match: nobody races any more. */
  ghost predicate EndsMatch(r: Room, a: Action)
    requires r.Wf() && Applicable(r, a)
  {
    Resolves(a) && AllTerminal(Pre(r, a))
  }

  lemma LeaveIs(r: Room, sess: SessionId, now: int)
    requires r.Wf() && !AllTerminal(r)
    ensures Leave(r, sess, now) == EndIfDone(Leaving(r, sess), now)
  {}

  lemma ReleaseIs(r: Room, id: SeatId, now: int)
    requires r.Wf() && !AllTerminal(r) && id in r.pool
    ensures Release(r, id, now) == EndIfDone(Releasing(r, id), now)
  {}

  lemma GraceIs(r: Room, id: SeatId, now: int)
    requires r.Wf() && !AllTerminal(r) && id in r.pool
    ensures GraceExpire(r, id, now) == EndIfDone(Graced(r, id), now)
  {
    if !Racing(r, id) {
      RacerLeft(r, Depart(Put(r, id, r.pool[id].(disconnected := false)), id));
    }
  }

  /** A room with a racer left is not done. */
  lemma RacerLeft(r: Room, r1: Room)
    requires r.Wf() && !AllTerminal(r) && r1.Wf() && r1.mtch == r.mtch
    requires forall id <- r.pool :: r.pool[id].status == Active ==> id in r1.pool && r1.pool[id].status == Active
    ensures !AllTerminal(r1)
  {}

  lemma FinishIs(r: Room, sess: SessionId, mid: MatchId, forfeit: bool, now: int)
    requires r.Wf() && !AllTerminal(r)
    ensures Finish(r, sess, mid, forfeit, now) == EndIfDone(Finishing(r, sess, mid, forfeit, now), now)
  {
    var found := FindSeat(r.pool, r.seats, sess);
    if found.Some? && !forfeit {
      ArmIsNotDone(Put(r, found.value, r.pool[found.value].(status := Finished, finishedAtMs := now)), now);
    }
  }

  lemma ArmIsNotDone(r: Room, now: int)
    requires r.Wf()
    ensures AllTerminal(Arm(r, now)) <==> AllTerminal(r)
  {}

  lemma SweepIs(r: Room, mid: MatchId, now: int)
    requires r.Wf() && !AllTerminal(r)
    ensures SweepAfk(r, mid, now) == EndIfDone(Sweeping(r, mid, SweepSet(r, now)), now)
  {
    assert DnfWhere(r, {}).pool == r.pool;
  }

  lemma ForceEndIs(r: Room, mid: MatchId, reason: Reason, now: int)
    requires r.Wf() && !AllTerminal(r)
    ensures var r1 := Sweeping(r, mid, r.pool.Keys);
      && (IsCurrent(r, mid) <==> AllTerminal(r1))
      && ForceEnd(r, mid, reason, now) == if AllTerminal(r1) then EndMatch(r1, reason, now) else r1
  {}

  lemma DepartureIs(r: Room, a: Action)
    requires r.Wf() && Applicable(r, a) && !AllTerminal(r) && (a.LeaveA? || a.ReleaseA? || a.GraceExpireA?)
    ensures Perform(r, a) == EndIfDone(Pre(r, a), a.now)
  {
    match a
    case LeaveA(sess, now) => LeaveIs(r, sess, now);
    case ReleaseA(id, now) => ReleaseIs(r, id, now);
    case GraceExpireA(id, now) => GraceIs(r, id, now);
  }

  lemma FinishingIs(r: Room, a: Action)
    requires r.Wf() && !AllTerminal(r) && a.FinishA?
    ensures Perform(r, a) == EndIfDone(Pre(r, a), a.now)
  {
    FinishIs(r, a.sess, a.mid, a.forfeit, a.now);
  }

  lemma SweepingIs(r: Room, a: Action)
    requires r.Wf() && !AllTerminal(r) && a.SweepAfkA?
    ensures Perform(r, a) == EndIfDone(Pre(r, a), a.now)
  {
    SweepIs(r, a.mid, a.now);
  }

  lemma ForcingIs(r: Room, a: Action)
    requires r.Wf() && !AllTerminal(r) && a.ForceEndA?
    ensures Perform(r, a) == if AllTerminal(Pre(r, a)) then EndMatch(Pre(r, a), a.reason, a.now) else Pre(r, a)
  {
    ForceEndIs(r, a.mid, a.reason, a.now);
  }

  /** An action is what happens before the end, and then the end if nobody races. */
  lemma PerformIs(r: Room, a: Action)
    requires r.Wf() && Applicable(r, a) && !AllTerminal(r)
    ensures EndsMatch(r, a) ==> a.Timed()
    ensures Perform(r, a) == if EndsMatch(r, a) then EndMatch(Pre(r, a), ReasonOf(a), a.now) else Pre(r, a)
  {
    if a.FinishA? {
      FinishingIs(r, a);
    } else if a.SweepAfkA? {
      SweepingIs(r, a);
    } else if a.ForceEndA? {
      ForcingIs(r, a);
    } else if Resolves(a) {
      DepartureIs(r, a);
    }
  }

  // --- connections -----------------------------------------------------------

  /** Only the connection, its frames and the silence clock may differ. */
  ghost predicate Rewired(s: Seat, s': Seat) {
    && s'.playerId == s.playerId && s'.userId == s.userId && s'.joinSeq == s.joinSeq && s'.ready == s.ready
    && s'.status == s.status && s'.finishedAtMs == s.finishedAtMs
    && s'.lastSeq == s.lastSeq && s'.batches == s.batches && s'.eventCount == s.eventCount
    && s'.activeBuckets == s.activeBuckets && s'.lastBucket == s.lastBucket
  }

  ghost predicate RewiresOnly(r: Room, r': Room) {
    && r.Wf() && r' == r.(pool := r'.pool) && r'.pool.Keys == r.pool.Keys
    && forall id <- r.pool :: Rewired(r.pool[id], r'.pool[id])
  }

  lemma PutRewires(r: Room, at: SeatId, s: Seat)
    requires r.Wf() && at in r.pool && Rewired(r.pool[at], s)
    ensures RewiresOnly(r, Put(r, at, s))
  {}

  lemma DetachRewires(r: Room, at: SeatId)
    requires r.Wf() && at in r.pool
    ensures RewiresOnly(r, Detach(r, at))
  {
    PutRewires(r, at, Park(r.pool[at]));
  }

  lemma DisconnectRewires(r: Room, sess: SessionId)
    requires r.Wf()
    ensures RewiresOnly(r, Disconnect(r, sess))
  {
    var found := FindSeat(r.pool, r.seats, sess);
    if found.Some? {
      PutRewires(r, found.value, Park(r.pool[found.value]));
    }
  }

  lemma BindRewires(r: Room, at: SeatId, sess: SessionId)
    requires r.Wf() && at in r.pool
    ensures RewiresOnly(r, Bind(r, at, sess))
  {
    PutRewires(r, at, r.pool[at].(sess := Some(sess), drain := Some(Drain(sess, Racing(r, at)))));
  }

  lemma TurnRewires(r: Room, at: SeatId, now: int)
    requires r.Wf() && at in r.pool
    ensures RewiresOnly(r, DrainTurn(r, at, now))
  {
    var s := r.pool[at];
    assert r.pool[at := s] == r.pool && DrainTurn(r, at, now) == Put(r, at, TurnedSeat(s, now));
    PutRewires(r, at, TurnedSeat(s, now));
  }

  lemma SendRewires(r: Room, at: SeatId)
    requires r.Wf() && at in r.pool
    ensures RewiresOnly(r, SendPending(r, at))
  {
    PutRewires(r, at, SendPending(r, at).pool[at]);
  }

  lemma AbandonRewires(r: Room, at: SeatId)
    requires r.Wf() && at in r.pool
    ensures RewiresOnly(r, AbandonDrain(r, at))
  {
    PutRewires(r, at, AbandonDrain(r, at).pool[at]);
  }

  lemma LinkRewires(r: Room, a: Action)
    requires r.Wf() && Applicable(r, a) && (a.DetachA? || a.DisconnectA? || a.BindA?)
    ensures RewiresOnly(r, Perform(r, a))
  {
    match a
    case DetachA(at) => DetachRewires(r, at);
    case DisconnectA(sess) => DisconnectRewires(r, sess);
    case BindA(at, sess) => BindRewires(r, at, sess);
  }

  lemma DrainRewires(r: Room, a: Action)
    requires r.Wf() && Applicable(r, a) && (a.DrainTurnA? || a.SendPendingA? || a.AbandonDrainA?)
    ensures RewiresOnly(r, Perform(r, a))
  {
    match a
    case DrainTurnA(at, now) => TurnRewires(r, at, now);
    case SendPendingA(at) => SendRewires(r, at);
    case AbandonDrainA(at) => AbandonRewires(r, at);
  }

  /** A connection's sections touch nothing of the match. */
  lemma ConnectionRewires(r: Room, a: Action)
    requires r.Wf() && Applicable(r, a) && a.OfConnection()
    ensures RewiresOnly(r, Perform(r, a))
  {
    if a.DetachA? || a.DisconnectA? || a.BindA? {
      LinkRewires(r, a);
    } else {
      DrainRewires(r, a);
    }
  }

  lemma InvIsNotDone(r: Room)
    requires Inv(r)
    ensures r.Wf() && !AllTerminal(r) && (r.inMatch <==> r.mtch.Some?)
  {}
}
