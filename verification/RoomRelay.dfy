/** Relaying across a reconnect: every accepted batch reaches every other roster
    seat once and in order, whatever happens to the seat's connection meanwhile. */
module RoomRelay {
  import opened RoomTypes
  import opened RoomSteps
  import opened RoomActions
  import opened RoomInvariant
  import opened RoomPreservation
  import opened RoomRuns

  // --- what a seat got, and what it should get ---------------------------

  /** The peer batches of match `mid` among `fs`, in order. */
  ghost function BatchesOf(fs: seq<Frame>, mid: MatchId): seq<Frame> {
    if fs == [] then []
    else
      var last := fs[|fs|-1];
      BatchesOf(fs[..|fs|-1], mid) + (if last.PeerBatch? && last.matchId == mid then [last] else [])
  }

  /** The batches accepted from seats other than `id`, in acceptance order. */
  ghost function FromOthers(log: seq<Accepted>, id: SeatId): seq<Frame> {
    if log == [] then []
    else
      var last := log[|log|-1];
      FromOthers(log[..|log|-1], id) + (if last.sender != id then [last.frame] else [])
  }

  /** Handed over, taken by a drain, still buffered: in that order. */
  ghost function Got(s: Seat, mid: MatchId): seq<Frame> {
    BatchesOf(s.queue, mid) + BatchesOf(s.pending, mid) + BatchesOf(s.backlog, mid)
  }

  /** Seat `id`, if it is a roster seat still in the room, has got exactly the
      others' batches, and if it is live it has nothing left over. */
  ghost predicate DeliveredTo(r: Room, id: SeatId)
    requires r.Wf()
  {
    r.mtch.Some? && id in r.mtch.value.roster && id in r.seats ==>
      SeatDelivered(r.pool[id], r.mtch.value.id, FromOthers(r.accepted, id))
  }

  ghost predicate SeatDelivered(s: Seat, mid: MatchId, due: seq<Frame>) {
    && Got(s, mid) == due
    && (!s.disconnected ==> BatchesOf(s.pending, mid) == [] && BatchesOf(s.backlog, mid) == [])
  }

  /** A seat that is not marked disconnected has a connection, and so has a seat
      whose backlog is being replayed. */
  ghost predicate LinkedAt(r: Room, id: SeatId)
    requires r.Wf()
  {
    id in r.seats ==> SeatLinked(r.pool[id])
  }

  ghost predicate SeatLinked(s: Seat) {
    && (s.disconnected || s.sess.Some?)
    && (s.drain.Some? ==> s.sess.Some?)
  }

  // --- filters -----------------------------------------------------------

  lemma BatchesOfSnoc(fs: seq<Frame>, f: Frame, mid: MatchId)
    ensures BatchesOf(fs + [f], mid) == BatchesOf(fs, mid) + (if f.PeerBatch? && f.matchId == mid then [f] else [])
  {
    assert (fs + [f])[..|fs|] == fs;
  }

  lemma {:induction false} BatchesOfConcat(a: seq<Frame>, b: seq<Frame>, mid: MatchId)
    ensures BatchesOf(a + b, mid) == BatchesOf(a, mid) + BatchesOf(b, mid)
  {
    if b == [] {
      assert a + b == a;
    } else {
      var b' := b[..|b|-1];
      assert a + b == (a + b') + [b[|b|-1]];
      BatchesOfSnoc(a + b', b[|b|-1], mid);
      BatchesOfConcat(a, b', mid);
    }
  }

  lemma {:induction false} NoBatchesOf(fs: seq<Frame>, mid: MatchId)
    requires forall f <- fs :: f.matchId != mid
    ensures BatchesOf(fs, mid) == []
  {
    if fs != [] {
      NoBatchesOf(fs[..|fs|-1], mid);
    }
  }

  lemma FromOthersSnoc(log: seq<Accepted>, a: Accepted, id: SeatId)
    ensures FromOthers(log + [a], id) == FromOthers(log, id) + (if a.sender != id then [a.frame] else [])
  {
    assert (log + [a])[..|log|] == log;
  }

  // --- one seat at a time ------------------------------------------------

  lemma HandBatchDelivers(s: Seat, f: Frame, mid: MatchId, due: seq<Frame>)
    requires SeatDelivered(s, mid, due) && f.PeerBatch? && f.matchId == mid
    requires s.disconnected || s.sess.Some?
    ensures SeatDelivered(HandBatch(s, f), mid, due + [f])
  {
    BatchesOfSnoc(s.queue, f, mid);
    BatchesOfSnoc(s.backlog, f, mid);
  }

  lemma BatchesOfCons(f: Frame, rest: seq<Frame>, mid: MatchId)
    ensures BatchesOf([f] + rest, mid) == BatchesOf([f], mid) + BatchesOf(rest, mid)
    ensures BatchesOf([f], mid) == if f.PeerBatch? && f.matchId == mid then [f] else []
  {
    BatchesOfConcat([f], rest, mid);
    BatchesOfSnoc([], f, mid);
    assert [] + [f] == [f];
  }

  /** Sending the first frame taken changes where it is, not what was got. */
  lemma ShiftOne(queue: seq<Frame>, pending: seq<Frame>, mid: MatchId)
    requires pending != []
    ensures BatchesOf(queue + [pending[0]], mid) + BatchesOf(pending[1..], mid)
         == BatchesOf(queue, mid) + BatchesOf(pending, mid)
    ensures |BatchesOf(pending[1..], mid)| <= |BatchesOf(pending, mid)|
  {
    var f, rest := pending[0], pending[1..];
    assert pending == [f] + rest;
    BatchesOfCons(f, rest, mid);
    BatchesOfSnoc(queue, f, mid);
    Regroup(BatchesOf(queue, mid), BatchesOf([f], mid), BatchesOf(rest, mid));
  }

  lemma Regroup(a: seq<Frame>, b: seq<Frame>, c: seq<Frame>)
    ensures (a + b) + c == a + (b + c)
  {}

  lemma SendPendingDelivers(s: Seat, mid: MatchId, due: seq<Frame>)
    requires SeatDelivered(s, mid, due) && s.pending != []
    ensures SeatDelivered(s.(queue := s.queue + [s.pending[0]], pending := s.pending[1..]), mid, due)
  {
    ShiftOne(s.queue, s.pending, mid);
  }

  lemma EnterMatchDelivers(r: Room, id: SeatId, mid: MatchId, goAtMs: int)
    requires TagsOk(r) && id in r.pool && mid !in StartedIds(r)
    ensures SeatDelivered(EnterMatch(r.pool[id], goAtMs), mid, [])
  {
    NoBatchesOf(r.pool[id].queue, mid);
    NoBatchesOf(r.pool[id].pending, mid);
  }

  // --- one action at a time, one seat at a time ---------------------------

  /** From `r` to `r'` no batch due to seat `x` is lost and its connection is not
      forgotten: two separate promises, neither of which needs the other, and
      neither of which speaks of any other seat. */
  ghost predicate Carries(r: Room, r': Room, x: SeatId) {
    && r.Wf() && r'.Wf()
    && (DeliveredTo(r, x) ==> DeliveredTo(r', x))
    && (LinkedAt(r, x) ==> LinkedAt(r', x))
  }

  /** The seat's frames and connection flags stay as they are. */
  ghost predicate SameFrames(s: Seat, s': Seat) {
    && s'.queue == s.queue && s'.pending == s.pending && s'.backlog == s.backlog
    && s'.disconnected == s.disconnected && s'.sess == s.sess && s'.drain == s.drain
  }

  /** An action that leaves the seat's frames alone and keeps the match. */
  lemma QuietCarries(r: Room, r': Room, x: SeatId)
    requires r.Wf() && r'.Wf()
    requires x in r'.seats ==> x in r.seats && SameFrames(r.pool[x], r'.pool[x])
    requires r'.accepted == r.accepted && r'.mtch.Some? == r.mtch.Some?
    requires r.mtch.Some? ==> r'.mtch.value.id == r.mtch.value.id && r'.mtch.value.roster == r.mtch.value.roster
    ensures Carries(r, r', x)
  {}

  lemma PutDelivered(r: Room, id: SeatId, s: Seat, x: SeatId)
    requires r.Wf() && id in r.pool
    requires r.mtch.Some? && id in r.mtch.value.roster && id in r.seats && DeliveredTo(r, id) ==>
      SeatDelivered(s, r.mtch.value.id, FromOthers(r.accepted, id))
    ensures DeliveredTo(r, x) ==> DeliveredTo(Put(r, id, s), x)
  {}

  lemma PutLinked(r: Room, id: SeatId, s: Seat, x: SeatId)
    requires r.Wf() && id in r.pool && (x == id && id in r.seats && SeatLinked(r.pool[id]) ==> SeatLinked(s))
    ensures LinkedAt(r, x) ==> LinkedAt(Put(r, id, s), x)
  {}

  /** A finished match leaves nothing to relay. */
  lemma EndCarries(r: Room, reason: Reason, now: int, x: SeatId)
    requires r.Wf() && r.mtch.Some? && !r.mtch.value.ended
    ensures Carries(r, EndMatch(r, reason, now), x)
  {
    if x in r.seats {
      EndedSeatIs(r, r.mtch.value, x);
    }
  }

  lemma DoneCarries(r: Room, now: int, x: SeatId)
    requires r.Wf() && (r.mtch.Some? ==> !r.mtch.value.ended)
    ensures Carries(r, EndIfDone(r, now), x)
  {
    if AllTerminal(r) {
      EndCarries(r, AllFinished, now, x);
    }
  }

  /** Whatever becomes of a seat that goes, the others are served as before. */
  lemma DepartCarries(r: Room, id: SeatId, s: Seat, x: SeatId)
    requires r.Wf() && Sorted(r.pool, r.seats) && id in r.pool
    ensures Carries(r, Depart(Put(r, id, s), id), x)
  {
    WithoutSorted(r.pool, r.seats, id);
    var r' := Depart(Put(r, id, s), id);
    assert r'.seats == Without(r.seats, id) && r'.pool == r.pool[id := s];
    QuietCarries(r, r', x);
  }

  lemma DepartAndEndCarries(r: Room, id: SeatId, s: Seat, now: int, x: SeatId)
    requires r.Wf() && Sorted(r.pool, r.seats) && id in r.pool && (r.mtch.Some? ==> !r.mtch.value.ended)
    ensures Carries(r, EndIfDone(Depart(Put(r, id, s), id), now), x)
    ensures Carries(r, Depart(Put(r, id, s), id), x)
  {
    DepartCarries(r, id, s, x);
    DoneCarries(Depart(Put(r, id, s), id), now, x);
  }

  lemma LeaveSeatCarries(r: Room, id: SeatId, now: int, x: SeatId)
    requires r.Wf() && Sorted(r.pool, r.seats) && id in r.pool && (r.mtch.Some? ==> !r.mtch.value.ended)
    ensures Carries(r, LeaveSeat(r, id, now), x)
  {
    var s := if Racing(r, id) then r.pool[id].(status := Left, sess := None) else r.pool[id];
    DepartAndEndCarries(r, id, s, now, x);
    assert !Racing(r, id) ==> Put(r, id, s) == r;
  }

  lemma GraceExpireCarries(r: Room, id: SeatId, now: int, x: SeatId)
    requires r.Wf() && Sorted(r.pool, r.seats) && id in r.pool && (r.mtch.Some? ==> !r.mtch.value.ended)
    ensures Carries(r, GraceExpire(r, id, now), x)
  {
    var s := r.pool[id];
    DepartAndEndCarries(r, id, if Racing(r, id) then s.(status := Dnf) else s.(disconnected := false), now, x);
  }

  lemma LeaveAllCarries(r: Room, now: int, x: SeatId)
    requires r.mtch.None? && Inv(r)
    ensures Carries(r, LeaveAll(r, now), x)
    decreases |r.seats|
  {
    if r.seats != [] {
      assert Without(r.seats, r.seats[0]) == r.seats[1..];
      LeaveSeatInv(r, r.seats[0], now);
      LeaveSeatCarries(r, r.seats[0], now, x);
      LeaveAllCarries(LeaveSeat(r, r.seats[0], now), now, x);
    }
  }

  lemma FinishCarries(r: Room, sess: SessionId, mid: MatchId, forfeit: bool, now: int, x: SeatId)
    requires r.Wf() && (r.mtch.Some? ==> !r.mtch.value.ended)
    ensures Carries(r, Finish(r, sess, mid, forfeit, now), x)
  {
    var found := FindSeat(r.pool, r.seats, sess);
    if found.Some? && r.mtch.Some? && mid == r.mtch.value.id && r.pool[found.value].status == Active {
      var s := r.pool[found.value];
      if forfeit {
        ResolvedCarries(r, found.value, s.(status := Dnf), now, x);
      } else {
        ResolvedCarries(r, found.value, s.(status := Finished, finishedAtMs := now), now, x);
      }
    }
  }

  lemma ResolvedCarries(r: Room, id: SeatId, s: Seat, now: int, x: SeatId)
    requires r.Wf() && (r.mtch.Some? ==> !r.mtch.value.ended) && id in r.pool && SameFrames(r.pool[id], s)
    ensures Carries(r, EndIfDone(Put(r, id, s), now), x) && Carries(r, EndOrArm(Put(r, id, s), now), x)
  {
    QuietCarries(r, Put(r, id, s), x);
    DoneCarries(Put(r, id, s), now, x);
    ArmCarries(Put(r, id, s), now, x);
  }

  lemma ArmCarries(r: Room, now: int, x: SeatId)
    requires r.Wf()
    ensures Carries(r, Arm(r, now), x)
  {
    QuietCarries(r, Arm(r, now), x);
  }

  lemma DnfCarries(r: Room, out: set<SeatId>, x: SeatId)
    requires r.Wf()
    ensures Carries(r, DnfWhere(r, out), x)
  {
    QuietCarries(r, DnfWhere(r, out), x);
  }

  lemma StartCarries(r: Room, sess: SessionId, force: bool, mid: MatchId, now: int, x: SeatId)
    requires r.Wf() && TagsOk(r) && mid !in StartedIds(r)
    ensures Carries(r, StartMatch(r, sess, force, mid, now), x)
  {
    if CanStart(r, sess, force) && x in r.seats {
      EnterMatchDelivers(r, x, mid, now + COUNTDOWN_LEAD_MS);
    }
  }

  lemma TurnDelivers(s: Seat, mid: MatchId, due: seq<Frame>, now: int)
    requires SeatDelivered(s, mid, due)
    ensures SeatDelivered(TurnedSeat(s, now), mid, due)
  {}

  lemma DrainTurnCarries(r: Room, id: SeatId, now: int, x: SeatId)
    requires r.Wf() && id in r.pool
    ensures Carries(r, DrainTurn(r, id, now), x)
  {
    var s := r.pool[id];
    assert r.pool[id := s] == r.pool;
    assert DrainTurn(r, id, now) == Put(r, id, TurnedSeat(s, now));
    if r.mtch.Some? && id in r.mtch.value.roster && id in r.seats && DeliveredTo(r, id) {
      TurnDelivers(s, r.mtch.value.id, FromOthers(r.accepted, id), now);
    }
    PutDelivered(r, id, TurnedSeat(s, now), x);
    PutLinked(r, id, TurnedSeat(s, now), x);
  }

  lemma SendPendingCarries(r: Room, id: SeatId, x: SeatId)
    requires r.Wf() && id in r.pool
    ensures Carries(r, SendPending(r, id), x)
  {
    var s := r.pool[id];
    if s.pending != [] {
      if r.mtch.Some? && id in r.mtch.value.roster && id in r.seats && DeliveredTo(r, id) {
        SendPendingDelivers(s, r.mtch.value.id, FromOthers(r.accepted, id));
      }
      PutDelivered(r, id, SendPending(r, id).pool[id], x);
      PutLinked(r, id, SendPending(r, id).pool[id], x);
    }
  }

  lemma TakeSeatCarries(r: Room, id: SeatId, sess: SessionId, p: PlayerId, u: UserId, asHost: bool, now: int, x: SeatId)
    requires r.Wf() && id !in r.pool
    ensures Carries(r, TakeSeat(r, id, sess, p, u, asHost, now), x)
  {}

  lemma LobbyCarries(r: Room, a: Action, x: SeatId)
    requires r.Wf() && Legal(r, a) && (a.KickA? || a.TransferHostA? || a.ReadyA? || a.SettingsA?)
    ensures Carries(r, Perform(r, a), x)
  {
    QuietCarries(r, Perform(r, a), x);
  }

  /** A takeover of the account's own seat `x` lands while that seat's backlog is
      still being replayed to an earlier connection. */
  ghost predicate TakeoverDuringDrain(r: Room, a: Action, x: SeatId) {
    a.DetachA? && a.id == x && x in r.pool && x in r.seats && r.pool[x].drain.Some?
  }

  /** Parking a seat loses no batch; it forgets a connection only mid-drain. */
  lemma ParkCarries(r: Room, id: SeatId, x: SeatId)
    requires r.Wf() && id in r.pool
    ensures DeliveredTo(r, x) ==> DeliveredTo(Put(r, id, Park(r.pool[id])), x)
    ensures x != id || id !in r.seats || r.pool[id].drain.None? ==> Carries(r, Put(r, id, Park(r.pool[id])), x)
  {
    PutDelivered(r, id, Park(r.pool[id]), x);
    if x != id || id !in r.seats || r.pool[id].drain.None? {
      PutLinked(r, id, Park(r.pool[id]), x);
    }
  }

  lemma DetachDelivered(r: Room, id: SeatId, x: SeatId)
    requires r.Wf() && id in r.pool
    ensures DeliveredTo(r, x) ==> DeliveredTo(Detach(r, id), x)
  {
    ParkCarries(r, id, x);
  }

  lemma ConnectionCarries(r: Room, a: Action, x: SeatId)
    requires r.Wf() && Legal(r, a) && !TakeoverDuringDrain(r, a, x)
    requires a.DetachA? || a.DisconnectA? || a.BindA? || a.AbandonDrainA?
    ensures Carries(r, Perform(r, a), x)
  {
    match a
    case DetachA(id) => ParkCarries(r, id, x);
    case DisconnectA(sess) =>
      var found := FindSeat(r.pool, r.seats, sess);
      if found.Some? { ParkCarries(r, found.value, x); }
    case BindA(id, sess) =>
      PutDelivered(r, id, r.pool[id].(sess := Some(sess), drain := Some(Drain(sess, Racing(r, id)))), x);
      PutLinked(r, id, r.pool[id].(sess := Some(sess), drain := Some(Drain(sess, Racing(r, id)))), x);
    case AbandonDrainA(id) =>
      PutDelivered(r, id, r.pool[id].(drain := None), x);
      PutLinked(r, id, r.pool[id].(drain := None), x);
    case _ =>
  }

  lemma LeaveCarries(r: Room, sess: SessionId, now: int, x: SeatId)
    requires r.Wf() && Sorted(r.pool, r.seats) && (r.mtch.Some? ==> !r.mtch.value.ended)
    ensures Carries(r, Leave(r, sess, now), x)
  {
    var found := FindSeat(r.pool, r.seats, sess);
    if found.Some? {
      LeaveSeatCarries(r, found.value, now, x);
    }
  }

  lemma ReleaseCarries(r: Room, id: SeatId, now: int, x: SeatId)
    requires r.Wf() && Sorted(r.pool, r.seats) && id in r.pool && (r.mtch.Some? ==> !r.mtch.value.ended)
    ensures Carries(r, Release(r, id, now), x)
  {
    LeaveSeatCarries(r, id, now, x);
  }

  lemma ForceEndCarries(r: Room, mid: MatchId, reason: Reason, now: int, x: SeatId)
    requires r.Wf()
    ensures Carries(r, ForceEnd(r, mid, reason, now), x)
  {
    DnfCarries(r, r.pool.Keys, x);
    if IsCurrent(r, mid) {
      EndCarries(DnfWhere(r, r.pool.Keys), reason, now, x);
    }
  }

  lemma SweepCarries(r: Room, mid: MatchId, now: int, x: SeatId)
    requires r.Wf() && (r.mtch.Some? ==> !r.mtch.value.ended)
    ensures Carries(r, SweepAfk(r, mid, now), x)
  {
    var out := SweepSet(r, now);
    DnfCarries(r, out, x);
    DoneCarries(DnfWhere(r, out), now, x);
  }

  lemma ReapCarries(r: Room, now: int, x: SeatId)
    requires Inv(r)
    ensures Carries(r, ReapIdle(r, now), x)
  {
    if IdleStateOf(r, now) == Expire {
      LeaveAllCarries(r, now, x);
    }
  }

  /** Every action but a relay and a takeover of the seat mid-drain keeps both promises. */
  lemma PerformCarries(r: Room, a: Action, x: SeatId)
    requires Inv(r) && Legal(r, a) && !a.RelayA? && !TakeoverDuringDrain(r, a, x)
    ensures Carries(r, Perform(r, a), x)
  {
    match a
    case TakeSeatA(id, sess, p, u, asHost, now) => TakeSeatCarries(r, id, sess, p, u, asHost, now, x);
    case LeaveA(sess, now) => LeaveCarries(r, sess, now, x);
    case ReleaseA(id, now) => ReleaseCarries(r, id, now, x);
    case GraceExpireA(id, now) => GraceExpireCarries(r, id, now, x);
    case FinishA(sess, mid, forfeit, now) => FinishCarries(r, sess, mid, forfeit, now, x);
    case ForceEndA(mid, reason, now) => ForceEndCarries(r, mid, reason, now, x);
    case SweepAfkA(mid, now) => SweepCarries(r, mid, now, x);
    case ReapIdleA(now) => ReapCarries(r, now, x);
    case StartMatchA(sess, force, mid, now) => StartCarries(r, sess, force, mid, now, x);
    case DrainTurnA(id, now) => DrainTurnCarries(r, id, now, x);
    case SendPendingA(id) => SendPendingCarries(r, id, x);
    case KickA(_, _, _) => LobbyCarries(r, a, x);
    case TransferHostA(_, _, _) => LobbyCarries(r, a, x);
    case ReadyA(_, _, _) => LobbyCarries(r, a, x);
    case SettingsA(_, _, _) => LobbyCarries(r, a, x);
    case _ => ConnectionCarries(r, a, x);
  }

  // --- the relay itself --------------------------------------------------

  /** Another roster seat in the room that is marked connected and has no connection. */
  ghost predicate Deaf(r: Room, me: SeatId, id: SeatId)
    requires r.Wf() && r.mtch.Some?
  {
    && id in r.mtch.value.roster && id in r.seats && id != me
    && r.pool[id].sess.None? && !r.pool[id].disconnected
  }

  /** The action is a relay that will be accepted, and seat `id` cannot hear it. */
  ghost predicate UnheardBy(r: Room, a: Action, id: SeatId)
    requires r.Wf()
  {
    && a.RelayA?
    && var me := FindSeat(r.pool, r.seats, a.sess);
       me.Some? && Acceptable(r, me.value, a.batch) && Deaf(r, me.value, id)
  }

  lemma RelayLinked(r: Room, sess: SessionId, eb: EventBatch, recvMs: int, now: int, x: SeatId)
    requires r.Wf()
    ensures LinkedAt(r, x) ==> LinkedAt(Relay(r, sess, eb, recvMs, now), x)
  {}

  /** What the fan-out leaves of one seat that is not deaf. */
  lemma SeatHears(s: Seat, mine: bool, goAtMs: int, eb: EventBatch, recvMs: int, f: Frame, mid: MatchId, due: seq<Frame>)
    requires SeatDelivered(s, mid, due) && f.PeerBatch? && f.matchId == mid
    requires mine || s.disconnected || s.sess.Some?
    ensures SeatDelivered(if mine then Capture(s, goAtMs, eb, recvMs) else HandBatch(s, f), mid, if mine then due else due + [f])
  {
    if !mine {
      HandBatchDelivers(s, f, mid, due);
    }
  }

  lemma HeardByIt(r: Room, sess: SessionId, eb: EventBatch, recvMs: int, now: int, id: SeatId)
    requires r.Wf() && DeliveredTo(r, id) && !UnheardBy(r, RelayA(sess, eb, recvMs, now), id)
    ensures DeliveredTo(Relay(r, sess, eb, recvMs, now), id)
  {
    var found := FindSeat(r.pool, r.seats, sess);
    if found.Some? && Acceptable(r, found.value, eb) && id in r.mtch.value.roster && id in r.seats {
      var me, m := found.value, r.mtch.value;
      var f := PeerBatch(m.id, r.pool[me].playerId, eb.version, eb.events);
      FromOthersSnoc(r.accepted, Accepted(me, f), id);
      SeatHears(r.pool[id], id == me, m.goAtMs, eb, recvMs, f, m.id, FromOthers(r.accepted, id));
      assert Relay(r, sess, eb, recvMs, now).accepted == r.accepted + [Accepted(me, f)];
    }
  }

  /** A deaf seat misses exactly the batch that was accepted. */
  lemma DeafSeatMisses(r: Room, id: SeatId, sess: SessionId, eb: EventBatch, recvMs: int, now: int)
    requires r.Wf() && DeliveredTo(r, id)
    requires UnheardBy(r, RelayA(sess, eb, recvMs, now), id)
    ensures var r' := Relay(r, sess, eb, recvMs, now);
      && |r'.accepted| == |r.accepted| + 1 && r'.pool[id] == r.pool[id]
      && FromOthers(r'.accepted, id) == Got(r'.pool[id], r.mtch.value.id) + [r'.accepted[|r.accepted|].frame]
      && !DeliveredTo(r', id)
  {
    var me := FindSeat(r.pool, r.seats, sess).value;
    var f := PeerBatch(r.mtch.value.id, r.pool[me].playerId, eb.version, eb.events);
    FromOthersSnoc(r.accepted, Accepted(me, f), id);
  }

  // --- what can go wrong for one seat, exactly ----------------------------

  /** Of all legal actions only an accepted relay that the seat is deaf to loses it a
      batch, and that always does. */
  lemma DeliveryLostOnlyUnheard(r: Room, a: Action, id: SeatId)
    requires Inv(r) && Legal(r, a) && DeliveredTo(r, id)
    ensures DeliveredTo(Step(r, a), id) <==> !UnheardBy(r, a, id)
  {
    var t := Tick(r, a);
    TickCore(r, a);
    TickSeat(r, a, id);
    if a.RelayA? {
      RelayDelivery(t, a, id);
    } else {
      OtherDelivery(t, a, id);
    }
  }

  lemma TickSeat(r: Room, a: Action, id: SeatId)
    requires r.Wf()
    ensures Tick(r, a).Wf() && (DeliveredTo(Tick(r, a), id) <==> DeliveredTo(r, id)) && (UnheardBy(Tick(r, a), a, id) <==> UnheardBy(r, a, id))
  {}

  lemma RelayDelivery(r: Room, a: Action, id: SeatId)
    requires r.Wf() && DeliveredTo(r, id) && a.RelayA?
    ensures DeliveredTo(Perform(r, a), id) <==> !UnheardBy(r, a, id)
  {
    if UnheardBy(r, a, id) {
      DeafSeatMisses(r, id, a.sess, a.batch, a.recvMs, a.now);
    } else {
      HeardByIt(r, a.sess, a.batch, a.recvMs, a.now, id);
    }
  }

  lemma OtherDelivery(r: Room, a: Action, id: SeatId)
    requires Inv(r) && Legal(r, a) && DeliveredTo(r, id) && !a.RelayA?
    ensures DeliveredTo(Perform(r, a), id)
  {
    if TakeoverDuringDrain(r, a, id) {
      DetachDelivered(r, id, id);
    } else {
      PerformCarries(r, a, id);
    }
  }

  /** A seat becomes deaf in one way only: a takeover of it during its drain is
      exactly what breaks the link between "not disconnected" and "has a
      connection". */
  lemma LinkBrokenOnlyByTakeover(r: Room, a: Action, id: SeatId)
    requires Inv(r) && Legal(r, a) && LinkedAt(r, id)
    ensures LinkedAt(Step(r, a), id) <==> !TakeoverDuringDrain(r, a, id)
  {
    if TakeoverDuringDrain(r, a, id) {
      assert Step(r, a).pool[id].sess.None? && Step(r, a).pool[id].drain.Some?;
    } else {
      CalmStepKeepsLink(r, a, id);
    }
  }

  lemma CalmStepKeepsLink(r: Room, a: Action, id: SeatId)
    requires Inv(r) && Legal(r, a) && LinkedAt(r, id) && !TakeoverDuringDrain(r, a, id)
    ensures LinkedAt(Step(r, a), id)
  {
    TickCore(r, a);
    var t := Tick(r, a);
    if a.RelayA? {
      RelayLinked(t, a.sess, a.batch, a.recvMs, a.now, id);
    } else {
      PerformCarries(t, a, id);
    }
  }

  // --- whole runs --------------------------------------------------------

  /** Every accepted batch finds the seat listening. */
  ghost predicate HeardRun(r: Room, run: seq<Action>, id: SeatId)
    requires Inv(r) && LegalRun(r, run)
    decreases |run|
  {
    run == [] || (!UnheardBy(r, run[0], id) && (StepInv(r, run[0]); HeardRun(Step(r, run[0]), run[1..], id)))
  }

  /** Delivery to the seat holds at every point of the run. */
  ghost predicate AlwaysDelivered(r: Room, run: seq<Action>, id: SeatId)
    requires Inv(r) && LegalRun(r, run)
    decreases |run|
  {
    DeliveredTo(r, id) && (run == [] || (StepInv(r, run[0]); AlwaysDelivered(Step(r, run[0]), run[1..], id)))
  }

  /** Over whole runs, exactly: delivery to a seat holds throughout iff it held at
      the start and the seat was deaf to no accepted batch. */
  lemma {:induction false} DeliveredThroughoutIff(r: Room, run: seq<Action>, id: SeatId)
    requires Inv(r) && LegalRun(r, run)
    ensures AlwaysDelivered(r, run, id) <==> DeliveredTo(r, id) && HeardRun(r, run, id)
    decreases |run|
  {
    if run != [] && DeliveredTo(r, id) {
      StepInv(r, run[0]);
      DeliveryLostOnlyUnheard(r, run[0], id);
      DeliveredThroughoutIff(Step(r, run[0]), run[1..], id);
      if !DeliveredTo(Step(r, run[0]), id) {
        assert !AlwaysDelivered(Step(r, run[0]), run[1..], id);
      }
    }
  }

  /** The seat itself is never taken over during its own drain; what happens to the
      other seats does not matter. */
  ghost predicate CalmFor(r: Room, run: seq<Action>, id: SeatId)
    requires Inv(r) && LegalRun(r, run)
    decreases |run|
  {
    run == [] ||
    (!TakeoverDuringDrain(r, run[0], id) && (StepInv(r, run[0]); CalmFor(Step(r, run[0]), run[1..], id)))
  }

  ghost predicate RelayingTo(r: Room, id: SeatId) {
    r.Wf() && DeliveredTo(r, id) && LinkedAt(r, id)
  }

  lemma CalmStepRelays(r: Room, a: Action, id: SeatId)
    requires Inv(r) && Legal(r, a) && RelayingTo(r, id) && !TakeoverDuringDrain(r, a, id)
    ensures RelayingTo(Step(r, a), id)
  {
    CalmStepKeepsLink(r, a, id);
    DeliveryLostOnlyUnheard(r, a, id);
  }

  /** Over any run in which the seat itself is not taken over during its drain, and
      whatever relays, drops, resumes and takeovers of other seats interleave: while
      it is a roster seat in the room, what was handed to it, then what a drain has
      taken, then what is buffered, is exactly the sequence of batches accepted from
      the other seats. */
  lemma {:induction false} RelayAcrossReconnect(r: Room, run: seq<Action>, id: SeatId)
    requires Inv(r) && LegalRun(r, run) && CalmFor(r, run, id) && RelayingTo(r, id)
    ensures RelayingTo(Run(r, run), id)
    decreases |run|
  {
    if run != [] {
      StepInv(r, run[0]);
      CalmStepRelays(r, run[0], id);
      RelayAcrossReconnect(Step(r, run[0]), run[1..], id);
    }
  }

  /** The same from a fresh room, read off for a seat that is live: its connections
      have been handed the others' batches, all of them, once, in acceptance order. */
  lemma LiveSeatHasEveryBatch(now: int, run: seq<Action>, id: SeatId)
    requires LegalRun(FreshRoom(now), run) && CalmFor(FreshRoom(now), run, id)
    requires var r := Run(FreshRoom(now), run);
      r.mtch.Some? && id in r.mtch.value.roster && id in r.seats && !r.pool[id].disconnected
    ensures var r := Run(FreshRoom(now), run);
      BatchesOf(r.pool[id].queue, r.mtch.value.id) == FromOthers(r.accepted, id)
  {
    RelayAcrossReconnect(FreshRoom(now), run, id);
  }

  // --- what the takeover costs -------------------------------------------

  /** Draining touches nothing but the seat, and leaves it connected with whatever
      connection it had. */
  lemma {:induction false} DrainedIs(r: Room, id: SeatId, now: int)
    requires r.Wf() && id in r.pool && r.pool[id].drain.Some?
    ensures var r' := Drained(r, id, now);
      && id in r'.pool && r' == r.(pool := r.pool[id := r'.pool[id]])
      && r'.pool[id].sess == r.pool[id].sess && !r'.pool[id].disconnected
    decreases 2 * |r.pool[id].backlog| + |r.pool[id].pending|
  {
    var s := r.pool[id];
    if s.pending != [] {
      DrainedIs(SendPending(r, id), id, now);
    } else if s.backlog != [] {
      DrainedIs(DrainTurn(r, id, now), id, now);
    }
  }

  lemma {:induction false} DrainedDelivered(r: Room, id: SeatId, now: int)
    requires r.Wf() && id in r.pool && r.pool[id].drain.Some? && DeliveredTo(r, id)
    ensures DeliveredTo(Drained(r, id, now), id)
    decreases 2 * |r.pool[id].backlog| + |r.pool[id].pending|
  {
    if r.pool[id].pending != [] {
      SendPendingCarries(r, id, id);
      DrainedDelivered(SendPending(r, id), id, now);
    } else {
      DrainTurnCarries(r, id, now, id);
      if r.pool[id].backlog != [] {
        DrainedDelivered(DrainTurn(r, id, now), id, now);
      }
    }
  }

  /** The room after the takeover and the rest of the drain. */
  lemma TakenOverMidDrain(r: Room, id: SeatId, now: int)
    requires r.Wf() && id in r.seats && r.pool[id].drain.Some? && r.pool[id].sess.Some?
    ensures Detach(r, id) == Put(r, id, Park(r.pool[id]))
    ensures var r2 := Drained(Detach(r, id), id, now);
      && id in r2.pool && r2 == r.(pool := r.pool[id := r2.pool[id]])
      && r2.pool[id].sess.None? && !r2.pool[id].disconnected
      && (DeliveredTo(r, id) ==> DeliveredTo(r2, id))
  {
    assert Present(r, r.pool[id].playerId);
    var r1 := Put(r, id, Park(r.pool[id]));
    DrainedIs(r1, id, now);
    if DeliveredTo(r, id) {
      DetachDelivered(r, id, id);
      DrainedDelivered(r1, id, now);
    }
  }

  /** It costs batches, whatever the drain had left to do: once the interrupted
      drain has gone live, the seat is marked connected without a connection, and
      the next batch accepted from any other seat is neither handed over nor
      buffered. */
  lemma TakeoverDuringDrainLosesBatch(r: Room, id: SeatId, sess: SessionId, eb: EventBatch, recvMs: int, now: int)
    requires r.Wf() && DeliveredTo(r, id) && r.mtch.Some? && id in r.mtch.value.roster && id in r.seats
    requires r.pool[id].drain.Some? && r.pool[id].sess.Some?
    requires var me := FindSeat(r.pool, r.seats, sess); me.Some? && me.value != id && Acceptable(r, me.value, eb)
    ensures var r2 := Drained(Detach(r, id), id, now);
      var r3 := Relay(r2, sess, eb, recvMs, now);
      && id in r2.pool && r2.pool[id].sess.None? && !r2.pool[id].disconnected && DeliveredTo(r2, id)
      && r3.pool[id] == r2.pool[id] && |r3.accepted| == |r.accepted| + 1
      && FromOthers(r3.accepted, id) == Got(r3.pool[id], r.mtch.value.id) + [r3.accepted[|r.accepted|].frame]
      && !DeliveredTo(r3, id)
  {
    TakenOverMidDrain(r, id, now);
    var r2 := Drained(Detach(r, id), id, now);
    SameFindSeat(r, r2, id, sess);
    DeafSeatMisses(r2, id, sess, eb, recvMs, now);
  }

  lemma SameFindSeat(r: Room, r': Room, id: SeatId, sess: SessionId)
    requires r.Wf() && r'.Wf() && r'.seats == r.seats
    requires forall x <- r.seats :: x != id ==> r'.pool[x] == r.pool[x]
    requires FindSeat(r.pool, r.seats, sess).Some? && FindSeat(r.pool, r.seats, sess).value != id
    requires id in r'.pool && r'.pool[id].sess.None?
    ensures FindSeat(r'.pool, r'.seats, sess) == FindSeat(r.pool, r.seats, sess)
    decreases |r.seats|
  {
    if r.seats != [] && r.pool[r.seats[0]].sess != Some(sess) {
      var q, q' := r.(seats := r.seats[1..]), r'.(seats := r'.seats[1..]);
      SameFindSeat(q, q', id, sess);
    }
  }
}
