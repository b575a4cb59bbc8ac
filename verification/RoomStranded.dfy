/** The seat a takeover during a drain leaves behind: in the room, marked
    connected, and with no connection. Who can take it back, and when. */
module RoomStranded {
  import opened RoomTypes
  import opened RoomSteps
  import opened RoomActions
  import opened RoomInvariant
  import opened RoomPreservation
  import opened RoomRuns
  import opened RoomRelay

  /** Seated, not disconnected, no connection, and no drain that could change that. */
  ghost predicate Stranded(r: Room, id: SeatId) {
    && r.Wf() && id in r.seats
    && r.pool[id].sess.None? && !r.pool[id].disconnected && r.pool[id].drain.None?
  }

  /** While the link holds a refused re-attachment is harmless: a seated seat refuses
      a new connection exactly when a live one holds it. */
  lemma RefusedOnlyWhenHeld(r: Room, id: SeatId)
    requires r.Wf() && id in r.seats && LinkedAt(r, id)
    ensures !CanBind(r, id) <==> r.pool[id].sess.Some? && !r.pool[id].disconnected
  {
    assert Present(r, r.pool[id].playerId);
  }

  /** A stranded seat refuses everybody and stays: another takeover, a
      re-attachment and the end of a grace window all change nothing. */
  lemma StrandedRefusesEverybody(r: Room, id: SeatId, sess: SessionId, now: int)
    requires Stranded(r, id)
    ensures !CanBind(r, id) && Present(r, r.pool[id].playerId)
    ensures Detach(r, id) == r && Bind(r, id, sess) == r && GraceExpire(r, id, now) == r
  {}

  /** Nobody holds the seat and nobody can take it back: it is gone or stranded. */
  ghost predicate Lost(r: Room, id: SeatId) {
    r.Wf() && id in r.pool && (id in r.seats ==> Stranded(r, id))
  }

  ghost predicate SameLink(s: Seat, s': Seat) {
    s'.disconnected == s.disconnected && s'.sess == s.sess && s'.drain == s.drain
  }

  // --- one action at a time ----------------------------------------------

  lemma QuietLost(r: Room, r': Room, id: SeatId)
    requires Lost(r, id) && r'.Wf() && id in r'.pool
    requires id in r'.seats ==> id in r.seats && SameLink(r.pool[id], r'.pool[id])
    ensures Lost(r', id)
  {}

  lemma PutLost(r: Room, at: SeatId, s: Seat, id: SeatId)
    requires Lost(r, id) && at in r.pool && (at == id && id in r.seats ==> SameLink(r.pool[id], s))
    ensures Lost(Put(r, at, s), id)
  {}

  lemma EndLost(r: Room, reason: Reason, now: int, id: SeatId)
    requires Lost(r, id)
    ensures Lost(EndMatch(r, reason, now), id)
  {
    if r.mtch.Some? && !r.mtch.value.ended {
      EndedSeatIs(r, r.mtch.value, id);
      QuietLost(r, EndMatch(r, reason, now), id);
    }
  }

  lemma DoneLost(r: Room, now: int, id: SeatId)
    requires Lost(r, id)
    ensures Lost(EndIfDone(r, now), id)
  {
    EndLost(r, AllFinished, now, id);
  }

  /** Any seat goes, or this one does. */
  lemma DepartLost(r: Room, at: SeatId, s: Seat, now: int, id: SeatId)
    requires Lost(r, id) && Sorted(r.pool, r.seats) && at in r.pool
    ensures Lost(Depart(Put(r, at, s), at), id) && Lost(EndIfDone(Depart(Put(r, at, s), at), now), id)
  {
    WithoutSorted(r.pool, r.seats, at);
    var r' := Depart(Put(r, at, s), at);
    assert r'.seats == Without(r.seats, at) && r'.pool == r.pool[at := s];
    QuietLost(r, r', id);
    DoneLost(r', now, id);
  }

  lemma LeaveSeatLost(r: Room, at: SeatId, now: int, id: SeatId)
    requires Lost(r, id) && Sorted(r.pool, r.seats) && at in r.pool
    ensures Lost(LeaveSeat(r, at, now), id)
  {
    var s := if Racing(r, at) then r.pool[at].(status := Left, sess := None) else r.pool[at];
    DepartLost(r, at, s, now, id);
    assert !Racing(r, at) ==> Put(r, at, s) == r;
  }

  lemma LeaveAllLost(r: Room, now: int, id: SeatId)
    requires Lost(r, id) && Inv(r) && r.mtch.None?
    ensures Lost(LeaveAll(r, now), id)
    decreases |r.seats|
  {
    if r.seats != [] {
      assert Without(r.seats, r.seats[0]) == r.seats[1..];
      LeaveSeatInv(r, r.seats[0], now);
      LeaveSeatLost(r, r.seats[0], now, id);
      LeaveAllLost(LeaveSeat(r, r.seats[0], now), now, id);
    }
  }

  lemma GraceExpireLost(r: Room, at: SeatId, now: int, id: SeatId)
    requires Lost(r, id) && Sorted(r.pool, r.seats) && at in r.pool
    ensures Lost(GraceExpire(r, at, now), id)
  {
    var s := r.pool[at];
    DepartLost(r, at, if Racing(r, at) then s.(status := Dnf) else s.(disconnected := false), now, id);
  }

  lemma LeaveLost(r: Room, sess: SessionId, now: int, id: SeatId)
    requires Lost(r, id) && Sorted(r.pool, r.seats)
    ensures Lost(Leave(r, sess, now), id)
  {
    var found := FindSeat(r.pool, r.seats, sess);
    if found.Some? {
      LeaveSeatLost(r, found.value, now, id);
    }
  }

  lemma ReapLost(r: Room, now: int, id: SeatId)
    requires Inv(r) && Lost(r, id)
    ensures Lost(ReapIdle(r, now), id)
  {
    if IdleStateOf(r, now) == Expire {
      LeaveAllLost(r, now, id);
    }
  }

  lemma DepartureLost(r: Room, a: Action, id: SeatId)
    requires Inv(r) && Legal(r, a) && Lost(r, id) && a.OfDeparture()
    ensures Lost(Perform(r, a), id)
  {
    match a
    case LeaveA(sess, now) => LeaveLost(r, sess, now, id);
    case ReleaseA(at, now) => LeaveSeatLost(r, at, now, id);
    case GraceExpireA(at, now) => GraceExpireLost(r, at, now, id);
    case ReapIdleA(now) => ReapLost(r, now, id);
  }

  lemma ResolvedLost(r: Room, at: SeatId, s: Seat, now: int, id: SeatId)
    requires Lost(r, id) && at in r.pool && SameLink(r.pool[at], s)
    ensures Lost(EndIfDone(Put(r, at, s), now), id) && Lost(EndOrArm(Put(r, at, s), now), id)
  {
    PutLost(r, at, s, id);
    EndLost(Put(r, at, s), AllFinished, now, id);
    QuietLost(Put(r, at, s), Arm(Put(r, at, s), now), id);
  }

  lemma FinishLost(r: Room, sess: SessionId, mid: MatchId, forfeit: bool, now: int, id: SeatId)
    requires Lost(r, id)
    ensures Lost(Finish(r, sess, mid, forfeit, now), id)
  {
    var found := FindSeat(r.pool, r.seats, sess);
    if found.Some? {
      var s := r.pool[found.value];
      ResolvedLost(r, found.value, s.(status := Dnf), now, id);
      ResolvedLost(r, found.value, s.(status := Finished, finishedAtMs := now), now, id);
    }
  }

  lemma DnfLost(r: Room, out: set<SeatId>, id: SeatId)
    requires Lost(r, id)
    ensures Lost(DnfWhere(r, out), id)
  {
    QuietLost(r, DnfWhere(r, out), id);
  }

  lemma MatchLost(r: Room, a: Action, id: SeatId)
    requires r.Wf() && Lost(r, id) && a.OfMatch()
    ensures Lost(Perform(r, a), id)
  {
    match a
    case FinishA(sess, mid, forfeit, now) => FinishLost(r, sess, mid, forfeit, now, id);
    case ForceEndA(mid, reason, now) =>
      DnfLost(r, r.pool.Keys, id);
      EndLost(DnfWhere(r, r.pool.Keys), reason, now, id);
    case SweepAfkA(mid, now) =>
      DnfLost(r, SweepSet(r, now), id);
      DoneLost(DnfWhere(r, SweepSet(r, now)), now, id);
  }

  lemma ConnectionLost(r: Room, a: Action, id: SeatId)
    requires r.Wf() && Legal(r, a) && Lost(r, id) && a.OfConnection()
    ensures Lost(Perform(r, a), id)
  {
    match a
    case DetachA(at) => if at != id { PutLost(r, at, Park(r.pool[at]), id); }
    case DisconnectA(sess) =>
      var found := FindSeat(r.pool, r.seats, sess);
      if found.Some? { PutLost(r, found.value, Park(r.pool[found.value]), id); }
    case BindA(at, sess) =>
      if at != id || id !in r.seats {
        PutLost(r, at, r.pool[at].(sess := Some(sess), drain := Some(Drain(sess, Racing(r, at)))), id);
      }
    case DrainTurnA(at, now) =>
      if at != id || id !in r.seats { PutLost(r, at, DrainTurn(r, at, now).pool[at], id); }
    case SendPendingA(at) => PutLost(r, at, SendPending(r, at).pool[at], id);
    case AbandonDrainA(at) =>
      if at != id || id !in r.seats { PutLost(r, at, r.pool[at].(drain := None), id); }
  }

  lemma RelayLost(r: Room, sess: SessionId, eb: EventBatch, recvMs: int, now: int, id: SeatId)
    requires Lost(r, id)
    ensures Lost(Relay(r, sess, eb, recvMs, now), id)
  {
    QuietLost(r, Relay(r, sess, eb, recvMs, now), id);
  }

  lemma LobbyLost(r: Room, a: Action, id: SeatId)
    requires r.Wf() && Legal(r, a) && Lost(r, id) && (a.KickA? || a.TransferHostA? || a.ReadyA? || a.SettingsA?)
    ensures Lost(Perform(r, a), id)
  {
    QuietLost(r, Perform(r, a), id);
  }

  lemma TakeSeatLost(r: Room, at: SeatId, sess: SessionId, p: PlayerId, u: UserId, asHost: bool, now: int, id: SeatId)
    requires Lost(r, id) && at !in r.pool
    ensures Lost(TakeSeat(r, at, sess, p, u, asHost, now), id)
  {
    QuietLost(r, TakeSeat(r, at, sess, p, u, asHost, now), id);
  }

  /** The action starts a match. */
  ghost predicate Starts(r: Room, a: Action)
    requires r.Wf()
  {
    a.StartMatchA? && CanStart(r, a.sess, a.force)
  }

  lemma PerformLost(r: Room, a: Action, id: SeatId)
    requires Inv(r) && Legal(r, a) && Lost(r, id) && !Starts(r, a)
    ensures Lost(Perform(r, a), id)
  {
    if a.OfDeparture() {
      DepartureLost(r, a, id);
    } else if a.OfMatch() {
      MatchLost(r, a, id);
    } else if a.OfConnection() {
      ConnectionLost(r, a, id);
    } else if a.RelayA? {
      RelayLost(r, a.sess, a.batch, a.recvMs, a.now, id);
    } else if a.TakeSeatA? {
      TakeSeatLost(r, a.id, a.sess, a.player, a.user, a.asHost, a.now, id);
    } else if !a.StartMatchA? {
      LobbyLost(r, a, id);
    }
  }

  // --- how long it stays that way ------------------------------------------

  lemma LostStep(r: Room, a: Action, id: SeatId)
    requires Inv(r) && Legal(r, a) && Lost(r, id) && !Starts(r, a)
    ensures Lost(Step(r, a), id)
  {
    TickCore(r, a);
    PerformLost(Tick(r, a), a, id);
  }

  /** Over one action, exactly: a stranded seat stays in the room and becomes
      reclaimable iff a match starts; short of that it stays stranded or goes. */
  lemma OnlyAStartFreesIt(r: Room, a: Action, id: SeatId)
    requires Inv(r) && Legal(r, a) && Stranded(r, id)
    ensures id in Step(r, a).seats && CanBind(Step(r, a), id) <==> Starts(r, a)
    ensures !Starts(r, a) ==> Lost(Step(r, a), id)
  {
    if Starts(r, a) {
      StartFrees(Tick(r, a), a.sess, a.force, a.mid, a.now, id);
    } else {
      LostStep(r, a, id);
    }
  }

  lemma StartFrees(r: Room, sess: SessionId, force: bool, mid: MatchId, now: int, id: SeatId)
    requires Stranded(r, id) && CanStart(r, sess, force)
    ensures var r' := StartMatch(r, sess, force, mid, now); id in r'.seats && CanBind(r', id)
  {
    var r' := StartMatch(r, sess, force, mid, now);
    assert r'.pool[id].disconnected && r'.pool[id].playerId == r.pool[id].playerId;
  }

  ghost predicate NoStart(r: Room, run: seq<Action>)
    requires Inv(r) && LegalRun(r, run)
    decreases |run|
  {
    run == [] || (!Starts(r, run[0]) && (StepInv(r, run[0]); NoStart(Step(r, run[0]), run[1..])))
  }

  /** Over any run in which no match starts, a stranded seat is stranded or gone:
      its account is refused however often it tries. */
  lemma {:induction false} LostUntilAStart(r: Room, run: seq<Action>, id: SeatId)
    requires Inv(r) && LegalRun(r, run) && NoStart(r, run) && Lost(r, id)
    ensures Lost(Run(r, run), id)
    decreases |run|
  {
    if run != [] {
      StepInv(r, run[0]);
      LostStep(r, run[0], id);
      LostUntilAStart(Step(r, run[0]), run[1..], id);
    }
  }
}
