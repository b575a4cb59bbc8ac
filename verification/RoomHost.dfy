/** Who is in the room and who hosts it, action by action. */
module RoomHost {
  import opened RoomTypes
  import opened RoomSteps
  import opened RoomActions
  import opened RoomInvariant
  import opened RoomPreservation

  /** The earliest joiner still seated. */
  function First(r: Room): (p: Option<PlayerId>)
    requires r.Wf()
  {
    if r.seats == [] then None else Some(r.pool[r.seats[0]].playerId)
  }

  /** No seat is added, and seats keep who they are. */
  ghost predicate Members(r: Room, r': Room) {
    && r.Wf() && r'.Wf()
    && r.pool.Keys == r'.pool.Keys
    && (forall id <- r.pool :: r'.pool[id].playerId == r.pool[id].playerId
                            && r'.pool[id].userId == r.pool[id].userId
                            && r'.pool[id].joinSeq == r.pool[id].joinSeq)
    && |r'.seats| <= |r.seats| && (forall id <- r'.seats :: id in r.seats)
  }

  /** Moreover the host role stays where it is or passes to the earliest joiner. */
  ghost predicate Shrinks(r: Room, r': Room) {
    Members(r, r') && (r'.hostId == r.hostId || r'.hostId == First(r'))
  }

  /** The earliest joiner of a room is the earliest joiner of any later, smaller
      room it is still in. */
  lemma FirstStays(r: Room, r': Room)
    requires SeatsOk(r) && SeatsOk(r') && Shrinks(r, r') && r.seats != []
    requires Present(r', First(r).value)
    ensures First(r') == First(r)
  {
    var x :| x in r'.seats && r'.pool[x].playerId == First(r).value;
    assert x == r.seats[0];
    assert r'.seats[0] in r.seats;
  }

  lemma ShrinksTrans(r: Room, r1: Room, r2: Room)
    requires SeatsOk(r1) && SeatsOk(r2) && HostOk(r1) && HostOk(r2) && Shrinks(r, r1) && Shrinks(r1, r2)
    ensures Shrinks(r, r2)
  {
    if r2.hostId == r1.hostId && r1.hostId != r.hostId && r1.seats != [] {
      FirstStays(r1, r2);
    }
  }

  lemma PutShrinks(r: Room, id: SeatId, s: Seat)
    requires r.Wf() && id in r.pool
    requires s.playerId == r.pool[id].playerId && s.userId == r.pool[id].userId && s.joinSeq == r.pool[id].joinSeq
    ensures Shrinks(r, Put(r, id, s)) && Shrinks(r, Depart(Put(r, id, s), id))
  {}

  lemma BackToLobbyShrinks(r: Room, m: Match, reason: Reason, now: int)
    requires r.Wf() && r.mtch == Some(m)
    ensures Members(r, BackToLobby(r, m, reason, now)) && BackToLobby(r, m, reason, now).hostId == r.hostId
  {
    forall id | id in r.pool
      ensures var s := EndedPool(r, m)[id];
        s.playerId == r.pool[id].playerId && s.userId == r.pool[id].userId && s.joinSeq == r.pool[id].joinSeq
    {
      EndedSeatIs(r, m, id);
    }
  }

  lemma EndMatchShrinks(r: Room, reason: Reason, now: int)
    requires r.Wf()
    ensures Shrinks(r, EndMatch(r, reason, now))
  {
    if r.mtch.Some? && !r.mtch.value.ended {
      BackToLobbyShrinks(r, r.mtch.value, reason, now);
    }
  }

  /** The match ends after a change that kept the room's membership in order. */
  lemma EndAfterShrinks(r: Room, r1: Room, reason: Reason, now: int)
    requires Shrinks(r, r1) && Core(r1) && AllTerminal(r1)
    ensures Shrinks(r, EndMatch(r1, reason, now))
  {
    EndMatchShrinks(r1, reason, now);
    EndMatchInv(r1, reason, now);
    ShrinksTrans(r, r1, EndMatch(r1, reason, now));
  }

  lemma DoneShrinks(r: Room, r1: Room, now: int)
    requires Shrinks(r, r1) && Core(r1)
    ensures Shrinks(r, EndIfDone(r1, now))
  {
    if AllTerminal(r1) {
      EndAfterShrinks(r, r1, AllFinished, now);
    }
  }

  lemma MildSelf(r: Room, id: SeatId)
    requires TagsOk(r) && id in r.pool
    ensures Mild(r, r.pool[id], r.pool[id])
  {
    assert forall f :: f in r.pool[id].queue || f in r.pool[id].pending || f in r.pool[id].backlog ==> f.matchId in StartedIds(r);
  }

  lemma DepartAndEndShrinks(r: Room, id: SeatId, s: Seat, now: int)
    requires Core(r) && id in r.pool && Mild(r, r.pool[id], s) && s.status != Active
    ensures Shrinks(r, EndIfDone(Depart(Put(r, id, s), id), now))
  {
    PutDepartCore(r, id, s);
    PutShrinks(r, id, s);
    DoneShrinks(r, Depart(Put(r, id, s), id), now);
  }

  lemma ResolveAndEndShrinks(r: Room, id: SeatId, s: Seat, now: int)
    requires Core(r) && id in r.pool && Mild(r, r.pool[id], s)
    ensures Shrinks(r, EndIfDone(Put(r, id, s), now))
  {
    PutCore(r, id, s);
    PutShrinks(r, id, s);
    DoneShrinks(r, Put(r, id, s), now);
  }

  lemma LeaveSeatShrinks(r: Room, id: SeatId, now: int)
    requires Inv(r) && id in r.pool
    ensures Shrinks(r, LeaveSeat(r, id, now))
  {
    MildSelf(r, id);
    if Racing(r, id) {
      DepartAndEndShrinks(r, id, r.pool[id].(status := Left, sess := None), now);
    } else {
      assert Put(r, id, r.pool[id]) == r;
      DepartAndEndShrinks(r, id, r.pool[id], now);
    }
  }

  lemma LeaveShrinks(r: Room, sess: SessionId, now: int)
    requires Inv(r)
    ensures Shrinks(r, Leave(r, sess, now))
  {
    var found := FindSeat(r.pool, r.seats, sess);
    if found.Some? {
      LeaveSeatShrinks(r, found.value, now);
    }
  }

  lemma ReleaseShrinks(r: Room, id: SeatId, now: int)
    requires Inv(r) && id in r.pool
    ensures Shrinks(r, Release(r, id, now))
  {
    LeaveSeatShrinks(r, id, now);
  }

  lemma GraceExpireShrinks(r: Room, id: SeatId, now: int)
    requires Inv(r) && id in r.pool
    ensures Shrinks(r, GraceExpire(r, id, now))
  {
    var s := r.pool[id];
    if s.sess.None? && s.disconnected && Present(r, s.playerId) {
      var s' := if Racing(r, id) then s.(status := Dnf) else s.(disconnected := false);
      MildSelf(r, id);
      DepartAndEndShrinks(r, id, s', now);
      if !Racing(r, id) {
        PutShrinks(r, id, s');
      }
    }
  }

  lemma FinishShrinks(r: Room, sess: SessionId, mid: MatchId, forfeit: bool, now: int)
    requires Inv(r)
    ensures Shrinks(r, Finish(r, sess, mid, forfeit, now))
  {
    var found := FindSeat(r.pool, r.seats, sess);
    if found.Some? && r.mtch.Some? && mid == r.mtch.value.id && r.pool[found.value].status == Active {
      var s := r.pool[found.value];
      if forfeit {
        MildSelf(r, found.value);
        ResolveAndEndShrinks(r, found.value, s.(status := Dnf), now);
      } else {
        FinishedShrinks(r, found.value, s.(status := Finished, finishedAtMs := now), now);
      }
    }
  }

  lemma FinishedShrinks(r: Room, id: SeatId, s: Seat, now: int)
    requires Inv(r) && id in r.pool && r.pool[id].status == Active && s == r.pool[id].(status := Finished, finishedAtMs := now)
    ensures Shrinks(r, EndOrArm(Put(r, id, s), now))
  {
    MildSelf(r, id);
    ResolveAndEndShrinks(r, id, s, now);
    PutShrinks(r, id, s);
    ArmShrinks(r, Put(r, id, s), now);
  }

  lemma ArmShrinks(r: Room, r1: Room, now: int)
    requires Shrinks(r, r1)
    ensures Shrinks(r, Arm(r1, now))
  {}

  lemma DnfShrinks(r: Room, out: set<SeatId>)
    requires r.Wf()
    ensures Shrinks(r, DnfWhere(r, out))
  {}

  lemma ForceEndShrinks(r: Room, mid: MatchId, reason: Reason, now: int)
    requires Inv(r)
    ensures Shrinks(r, ForceEnd(r, mid, reason, now))
  {
    if IsCurrent(r, mid) {
      DnfWhereCore(r, r.pool.Keys);
      DnfShrinks(r, r.pool.Keys);
      EndAfterShrinks(r, DnfWhere(r, r.pool.Keys), reason, now);
    }
  }

  lemma SweepShrinks(r: Room, mid: MatchId, now: int)
    requires Inv(r)
    ensures Shrinks(r, SweepAfk(r, mid, now))
  {
    var out := SweepSet(r, now);
    DnfWhereCore(r, out);
    DnfShrinks(r, out);
    DoneShrinks(r, DnfWhere(r, out), now);
  }

  lemma LeaveAllShrinks(r: Room, now: int)
    requires Inv(r) && r.mtch.None?
    ensures Shrinks(r, LeaveAll(r, now))
    decreases |r.seats|
  {
    if r.seats != [] {
      assert Without(r.seats, r.seats[0]) == r.seats[1..];
      var r1 := LeaveSeat(r, r.seats[0], now);
      LeaveSeatInv(r, r.seats[0], now);
      LeaveSeatShrinks(r, r.seats[0], now);
      LeaveAllInv(r1, now);
      LeaveAllShrinks(r1, now);
      ShrinksTrans(r, r1, LeaveAll(r1, now));
    }
  }

  lemma ReapShrinks(r: Room, now: int)
    requires Inv(r)
    ensures Shrinks(r, ReapIdle(r, now))
  {
    if IdleStateOf(r, now) == Expire {
      LeaveAllShrinks(r, now);
    }
  }

  lemma ReconnectShrinks(r: Room, a: Action)
    requires r.Wf() && Legal(r, a)
    requires a.OfConnection()
    ensures Shrinks(r, Perform(r, a))
  {
    match a
    case DetachA(id) => PutShrinks(r, id, Park(r.pool[id]));
    case DisconnectA(sess) => DisconnectShrinks(r, sess);
    case BindA(id, sess) =>
      PutShrinks(r, id, r.pool[id].(sess := Some(sess), drain := Some(Drain(sess, Racing(r, id)))));
    case DrainTurnA(id, now) => DrainTurnShrinks(r, id, now);
    case SendPendingA(id) => SendPendingShrinks(r, id);
    case AbandonDrainA(id) => PutShrinks(r, id, r.pool[id].(drain := None));
    case _ =>
  }

  lemma DrainTurnShrinks(r: Room, id: SeatId, now: int)
    requires r.Wf() && id in r.pool
    ensures Shrinks(r, DrainTurn(r, id, now))
  {
    PutShrinks(r, id, DrainTurn(r, id, now).pool[id]);
  }

  lemma SendPendingShrinks(r: Room, id: SeatId)
    requires r.Wf() && id in r.pool
    ensures Shrinks(r, SendPending(r, id))
  {
    PutShrinks(r, id, SendPending(r, id).pool[id]);
  }

  lemma DisconnectShrinks(r: Room, sess: SessionId)
    requires r.Wf()
    ensures Shrinks(r, Disconnect(r, sess))
  {
    var found := FindSeat(r.pool, r.seats, sess);
    if found.Some? {
      PutShrinks(r, found.value, Park(r.pool[found.value]));
    }
  }

  lemma KickShrinks(r: Room, sess: SessionId, target: PlayerId, now: int)
    requires r.Wf()
    ensures Shrinks(r, Kick(r, sess, target, now))
  {}

  lemma ReadyShrinks(r: Room, sess: SessionId, value: bool, now: int)
    requires r.Wf()
    ensures Shrinks(r, SetReady(r, sess, value, now))
  {}

  lemma SettingsShrinks(r: Room, sess: SessionId, ns: Settings, now: int)
    requires r.Wf()
    ensures Shrinks(r, UpdateSettings(r, sess, ns, now))
  {}

  lemma StartShrinks(r: Room, sess: SessionId, force: bool, mid: MatchId, now: int)
    requires r.Wf()
    ensures Shrinks(r, StartMatch(r, sess, force, mid, now))
  {}

  lemma RelayShrinks(r: Room, sess: SessionId, eb: EventBatch, recvMs: int, now: int)
    requires r.Wf()
    ensures Shrinks(r, Relay(r, sess, eb, recvMs, now))
  {}

  lemma DepartureShrinks(r: Room, a: Action)
    requires Inv(r) && Legal(r, a) && a.OfDeparture()
    ensures Shrinks(r, Perform(r, a))
  {
    match a
    case LeaveA(sess, now) => LeaveShrinks(r, sess, now);
    case ReleaseA(id, now) => ReleaseShrinks(r, id, now);
    case GraceExpireA(id, now) => GraceExpireShrinks(r, id, now);
    case ReapIdleA(now) => ReapShrinks(r, now);
  }

  lemma MatchShrinks(r: Room, a: Action)
    requires Inv(r) && Legal(r, a) && (a.OfMatch() || a.StartMatchA? || a.RelayA?)
    ensures Shrinks(r, Perform(r, a))
  {
    match a
    case FinishA(sess, mid, forfeit, now) => FinishShrinks(r, sess, mid, forfeit, now);
    case ForceEndA(mid, reason, now) => ForceEndShrinks(r, mid, reason, now);
    case SweepAfkA(mid, now) => SweepShrinks(r, mid, now);
    case StartMatchA(sess, force, mid, now) => StartShrinks(r, sess, force, mid, now);
    case RelayA(sess, eb, recvMs, now) => RelayShrinks(r, sess, eb, recvMs, now);
  }

  lemma LobbyShrinks(r: Room, a: Action)
    requires r.Wf() && Legal(r, a) && (a.KickA? || a.ReadyA? || a.SettingsA?)
    ensures Shrinks(r, Perform(r, a))
  {
    match a
    case KickA(sess, target, now) => KickShrinks(r, sess, target, now);
    case ReadyA(sess, value, now) => ReadyShrinks(r, sess, value, now);
    case SettingsA(sess, ns, now) => SettingsShrinks(r, sess, ns, now);
  }

  /** Only a seating adds a seat, and only a transfer moves the host role other
      than to the earliest joiner. */
  lemma PerformShrinks(r: Room, a: Action)
    requires Inv(r) && Legal(r, a) && !a.TakeSeatA?
    ensures Members(r, Perform(r, a)) && (a.TransferHostA? || Shrinks(r, Perform(r, a)))
  {
    if a.OfDeparture() {
      DepartureShrinks(r, a);
    } else if a.OfMatch() || a.StartMatchA? || a.RelayA? {
      MatchShrinks(r, a);
    } else if a.OfConnection() {
      ReconnectShrinks(r, a);
    } else if !a.TransferHostA? {
      LobbyShrinks(r, a);
    }
  }

  // --- the theorems ------------------------------------------------------

  /** A room whose host is gone and that has shrunk is hosted by its earliest joiner. */
  lemma ShrinksHost(r: Room, r': Room)
    requires Shrinks(r, r') && HostOk(r')
    ensures r.hostId.Some? && !Present(r', r.hostId.value) ==> r'.hostId == First(r')
    ensures Hosted(r) ==> Hosted(r')
  {
    if r'.seats != [] {
      assert r'.seats[0] in r.seats;
    }
  }

  lemma TransferHostHost(r: Room, sess: SessionId, target: PlayerId, now: int)
    requires r.Wf() && HostOk(r)
    ensures var r' := TransferHost(r, sess, target, now);
      && (r.hostId.Some? ==> Present(r', r.hostId.value))
      && (Hosted(r) ==> Hosted(r'))
  {}

  /** What an action may do to the host role, if it seats nobody. */
  lemma PerformHost(r: Room, a: Action)
    requires Inv(r) && Legal(r, a) && (a.Timed() ==> r.clock == a.now) && !a.TakeSeatA?
    ensures var r' := Perform(r, a);
      && (r.hostId.Some? && !Present(r', r.hostId.value) ==> r'.hostId == First(r'))
      && (Hosted(r) ==> Hosted(r'))
  {
    if a.TransferHostA? {
      TransferHostHost(r, a.sess, a.player, a.now);
    } else {
      PerformInv(r, a);
      PerformShrinks(r, a);
      ShrinksHost(r, Perform(r, a));
    }
  }

  lemma TakeSeatHost(r: Room, id: SeatId, sess: SessionId, p: PlayerId, u: UserId, asHost: bool, now: int)
    requires Inv(r) && id !in r.pool
    ensures var r' := TakeSeat(r, id, sess, p, u, asHost, now);
      && (r.hostId.Some? ==> Present(r', r.hostId.value))
      && (Hosted(r) ==> (Hosted(r') <==> asHost || r.seats != []))
  {
    var r' := TakeSeat(r, id, sess, p, u, asHost, now);
    if r.hostId.Some? {
      var x :| x in r.seats && r.pool[x].playerId == r.hostId.value;
      assert x in r'.seats && r'.pool[x].playerId == r.hostId.value;
    }
  }

  lemma FirstIsEarliest(r: Room)
    requires SeatsOk(r) && r.seats != []
    ensures forall id <- r.seats :: r.pool[r.seats[0]].joinSeq <= r.pool[id].joinSeq
  {}

  /** When the host goes and somebody stays, the earliest joiner of those who stay
      becomes host. */
  lemma HostSuccession(r: Room, a: Action)
    requires Inv(r) && Legal(r, a) && r.hostId.Some?
    requires Step(r, a).seats != [] && !Present(Step(r, a), r.hostId.value)
    ensures var r' := Step(r, a);
      && r'.hostId == Some(r'.pool[r'.seats[0]].playerId)
      && forall id <- r'.seats :: r'.pool[r'.seats[0]].joinSeq <= r'.pool[id].joinSeq
  {
    TickCore(r, a);
    StepInv(r, a);
    FirstIsEarliest(Step(r, a));
    if a.TakeSeatA? {
      TakeSeatHost(Tick(r, a), a.id, a.sess, a.player, a.user, a.asHost, a.now);
    } else {
      PerformHost(Tick(r, a), a);
    }
  }

  ghost predicate Hosted(r: Room) {
    r.seats == [] || r.hostId.Some?
  }

  /** A nonempty room is left without a host by exactly one kind of action: a
      plain join that lands in a room whose last seat has just gone. */
  lemma HostLostOnlyByJoiningEmptyRoom(r: Room, a: Action)
    requires Inv(r) && Legal(r, a) && Hosted(r)
    ensures Hosted(Step(r, a)) <==> !(a.TakeSeatA? && !a.asHost && r.seats == [])
  {
    TickCore(r, a);
    var t := Tick(r, a);
    match a
    case TakeSeatA(id, sess, p, u, asHost, now) => TakeSeatHost(t, id, sess, p, u, asHost, now);
    case _ => PerformHost(t, a);
  }
}
