/** Who is handed `match_end`, and how often. */
module RoomEnding {
  import opened RoomTypes
  import opened RoomSteps
  import opened RoomActions
  import opened RoomInvariant
  import opened RoomPreservation
  import opened RoomRuns
  import opened RoomOutcome

  /** How many times a seat was handed, is being sent or keeps the end of match `mid`. */
  ghost function EndCount(s: Seat, mid: MatchId): (n: nat) {
    multiset(s.queue)[MatchEndFrame(mid)] + multiset(s.pending)[MatchEndFrame(mid)] + multiset(s.backlog)[MatchEndFrame(mid)]
  }

  /** No seat has more end frames than it had, and a new seat has none. */
  ghost predicate NoMoreEnds(r: Room, r': Room) {
    && r.pool.Keys <= r'.pool.Keys
    && forall id <- r'.pool, mid ::
         EndCount(r'.pool[id], mid) <= if id in r.pool then EndCount(r.pool[id], mid) else 0
  }

  ghost predicate SameFrames(s: Seat, s': Seat) {
    s'.queue == s.queue && s'.pending == s.pending && s'.backlog == s.backlog
  }

  ghost predicate FramesKept(r: Room, r': Room) {
    r'.pool.Keys == r.pool.Keys && forall id <- r.pool :: SameFrames(r.pool[id], r'.pool[id])
  }

  // --- before the end --------------------------------------------------------

  lemma DepartedKeeps(r: Room, id: SeatId)
    requires r.Wf() && id in r.pool
    ensures FramesKept(r, Departed(r, id)) && Departed(r, id).ends == r.ends
  {}

  lemma LeavingKeeps(r: Room, sess: SessionId)
    requires r.Wf()
    ensures FramesKept(r, Leaving(r, sess)) && Leaving(r, sess).ends == r.ends
  {
    var found := FindSeat(r.pool, r.seats, sess);
    if found.Some? {
      DepartedKeeps(r, found.value);
    }
  }

  lemma ReleasingKeeps(r: Room, id: SeatId)
    requires r.Wf() && id in r.pool
    ensures FramesKept(r, Releasing(r, id)) && Releasing(r, id).ends == r.ends
  {
    DepartedKeeps(r, id);
  }

  lemma GracedKeeps(r: Room, id: SeatId)
    requires r.Wf() && id in r.pool
    ensures FramesKept(r, Graced(r, id)) && Graced(r, id).ends == r.ends
  {}

  lemma FinishingKeeps(r: Room, sess: SessionId, mid: MatchId, forfeit: bool, now: int)
    requires r.Wf()
    ensures FramesKept(r, Finishing(r, sess, mid, forfeit, now)) && Finishing(r, sess, mid, forfeit, now).ends == r.ends
  {}

  lemma SweepingKeeps(r: Room, mid: MatchId, out: set<SeatId>)
    requires r.Wf()
    ensures FramesKept(r, Sweeping(r, mid, out)) && Sweeping(r, mid, out).ends == r.ends
  {}

  /** What resolves a racer hands over nothing by itself. */
  lemma ResolvingKeeps(r: Room, a: Action)
    requires r.Wf() && Applicable(r, a) && Resolves(a)
    ensures FramesKept(r, Pre(r, a)) && Pre(r, a).ends == r.ends
  {
    match a
    case LeaveA(sess, _) => LeavingKeeps(r, sess);
    case ReleaseA(id, _) => ReleasingKeeps(r, id);
    case GraceExpireA(id, _) => GracedKeeps(r, id);
    case FinishA(sess, mid, forfeit, now) => FinishingKeeps(r, sess, mid, forfeit, now);
    case ForceEndA(mid, _, _) => SweepingKeeps(r, mid, r.pool.Keys);
    case SweepAfkA(mid, now) => SweepingKeeps(r, mid, SweepSet(r, now));
  }

  // --- the other actions -----------------------------------------------------

  lemma PutNoMore(r: Room, at: SeatId, s: Seat)
    requires r.Wf() && at in r.pool && forall mid :: EndCount(s, mid) <= EndCount(r.pool[at], mid)
    ensures NoMoreEnds(r, Put(r, at, s))
  {}

  lemma TurnNoMore(r: Room, at: SeatId, now: int)
    requires r.Wf() && at in r.pool
    ensures NoMoreEnds(r, DrainTurn(r, at, now))
  {
    var s := r.pool[at];
    assert r.pool[at := s] == r.pool && DrainTurn(r, at, now) == Put(r, at, TurnedSeat(s, now));
    PutNoMore(r, at, TurnedSeat(s, now));
  }

  lemma SendNoMore(r: Room, at: SeatId)
    requires r.Wf() && at in r.pool
    ensures NoMoreEnds(r, SendPending(r, at))
  {
    var s := r.pool[at];
    if s.pending != [] {
      assert s.pending == [s.pending[0]] + s.pending[1..];
      PutNoMore(r, at, SendPending(r, at).pool[at]);
    }
  }

  lemma PutKeeps(r: Room, at: SeatId, s: Seat)
    requires r.Wf() && at in r.pool && SameFrames(r.pool[at], s)
    ensures FramesKept(r, Put(r, at, s))
  {}

  lemma ParkNoMore(r: Room, a: Action)
    requires r.Wf() && Applicable(r, a) && (a.DetachA? || a.DisconnectA?)
    ensures FramesKept(r, Perform(r, a))
  {
    if a.DetachA? {
      PutKeeps(r, a.id, Park(r.pool[a.id]));
    } else {
      var found := FindSeat(r.pool, r.seats, a.sess);
      if found.Some? {
        PutKeeps(r, found.value, Park(r.pool[found.value]));
      }
    }
  }

  lemma BindNoMore(r: Room, a: Action)
    requires r.Wf() && Applicable(r, a) && (a.BindA? || a.AbandonDrainA?)
    ensures FramesKept(r, Perform(r, a))
  {
    if a.BindA? {
      PutKeeps(r, a.id, r.pool[a.id].(sess := Some(a.sess), drain := Some(Drain(a.sess, Racing(r, a.id)))));
    } else {
      PutKeeps(r, a.id, r.pool[a.id].(drain := None));
    }
  }

  lemma ConnectionNoMore(r: Room, a: Action)
    requires r.Wf() && Applicable(r, a) && a.OfConnection()
    ensures NoMoreEnds(r, Perform(r, a)) && Perform(r, a).ends == r.ends
  {
    ConnectionRewires(r, a);
    if a.DrainTurnA? {
      TurnNoMore(r, a.id, a.now);
    } else if a.SendPendingA? {
      SendNoMore(r, a.id);
    } else if a.BindA? || a.AbandonDrainA? {
      BindNoMore(r, a);
    } else {
      ParkNoMore(r, a);
    }
  }

  lemma BatchNoMore(s: Seat, f: Frame, mid: MatchId, goAtMs: int, eb: EventBatch, recvMs: int)
    requires f.PeerBatch?
    ensures EndCount(HandBatch(s, f), mid) == EndCount(s, mid) && EndCount(Capture(s, goAtMs, eb, recvMs), mid) == EndCount(s, mid)
  {}

  lemma RelayNoMore(r: Room, sess: SessionId, eb: EventBatch, recvMs: int, now: int)
    requires r.Wf()
    ensures NoMoreEnds(r, Relay(r, sess, eb, recvMs, now)) && Relay(r, sess, eb, recvMs, now).ends == r.ends
  {
    var r' := Relay(r, sess, eb, recvMs, now);
    var found := FindSeat(r.pool, r.seats, sess);
    if found.Some? && Acceptable(r, found.value, eb) {
      forall id, mid | id in r'.pool
        ensures EndCount(r'.pool[id], mid) <= EndCount(r.pool[id], mid)
      {
        RelayedSeat(r, found.value, eb, recvMs, now, sess, id, mid);
      }
    }
  }

  lemma RelayedSeat(r: Room, me: SeatId, eb: EventBatch, recvMs: int, now: int, sess: SessionId, id: SeatId, mid: MatchId)
    requires r.Wf() && FindSeat(r.pool, r.seats, sess) == Some(me) && Acceptable(r, me, eb) && id in r.pool
    ensures EndCount(Relay(r, sess, eb, recvMs, now).pool[id], mid) == EndCount(r.pool[id], mid)
  {
    var f := PeerBatch(r.mtch.value.id, r.pool[me].playerId, eb.version, eb.events);
    BatchNoMore(r.pool[id], f, mid, r.mtch.value.goAtMs, eb, recvMs);
  }

  lemma StartNoMore(r: Room, sess: SessionId, force: bool, mid: MatchId, now: int)
    requires r.Wf()
    ensures NoMoreEnds(r, StartMatch(r, sess, force, mid, now)) && StartMatch(r, sess, force, mid, now).ends == r.ends
  {}

  lemma HostKeeps(r: Room, sess: SessionId, target: PlayerId, now: int)
    requires r.Wf()
    ensures FramesKept(r, Kick(r, sess, target, now)) && Kick(r, sess, target, now).ends == r.ends
    ensures FramesKept(r, TransferHost(r, sess, target, now)) && TransferHost(r, sess, target, now).ends == r.ends
  {}

  lemma ReadyKeeps(r: Room, sess: SessionId, value: bool, now: int)
    requires r.Wf()
    ensures FramesKept(r, SetReady(r, sess, value, now)) && SetReady(r, sess, value, now).ends == r.ends
  {}

  lemma SettingsKeeps(r: Room, sess: SessionId, ns: Settings, now: int)
    requires r.Wf()
    ensures FramesKept(r, UpdateSettings(r, sess, ns, now)) && UpdateSettings(r, sess, ns, now).ends == r.ends
  {}

  lemma LobbyNoMore(r: Room, a: Action)
    requires r.Wf() && Applicable(r, a) && (a.KickA? || a.TransferHostA? || a.ReadyA? || a.SettingsA?)
    ensures FramesKept(r, Perform(r, a)) && Perform(r, a).ends == r.ends
  {
    match a
    case KickA(sess, target, now) => HostKeeps(r, sess, target, now);
    case TransferHostA(sess, target, now) => HostKeeps(r, sess, target, now);
    case ReadyA(sess, value, now) => ReadyKeeps(r, sess, value, now);
    case SettingsA(sess, ns, now) => SettingsKeeps(r, sess, ns, now);
  }

  lemma SeatNoMore(r: Room, a: Action)
    requires r.Wf() && a.TakeSeatA? && a.id !in r.pool
    ensures NoMoreEnds(r, Perform(r, a)) && Perform(r, a).ends == r.ends
  {}

  lemma LeaveAllKeeps(r: Room, now: int)
    requires Inv(r) && r.mtch.None?
    ensures LeaveAll(r, now).pool == r.pool && LeaveAll(r, now).ends == r.ends
    decreases |r.seats|
  {
    if r.seats != [] {
      assert Without(r.seats, r.seats[0]) == r.seats[1..];
      LeaveSeatInv(r, r.seats[0], now);
      LeaveAllKeeps(LeaveSeat(r, r.seats[0], now), now);
    }
  }

  lemma ReapKeeps(r: Room, now: int)
    requires Inv(r)
    ensures FramesKept(r, ReapIdle(r, now)) && ReapIdle(r, now).ends == r.ends
  {
    if IdleStateOf(r, now) == Expire {
      LeaveAllKeeps(r, now);
    }
  }

  /** Short of the end of a match nobody gets a further end frame. */
  lemma PreNoMore(r: Room, a: Action)
    requires Inv(r) && Applicable(r, a) && (a.TakeSeatA? ==> a.id !in r.pool)
    ensures NoMoreEnds(r, Pre(r, a)) && Pre(r, a).ends == r.ends
  {
    if Resolves(a) {
      ResolvingKeeps(r, a);
    } else if a.OfConnection() {
      ConnectionNoMore(r, a);
    } else if a.RelayA? {
      RelayNoMore(r, a.sess, a.batch, a.recvMs, a.now);
    } else if a.StartMatchA? {
      StartNoMore(r, a.sess, a.force, a.mid, a.now);
    } else if a.TakeSeatA? {
      SeatNoMore(r, a);
    } else if a.ReapIdleA? {
      ReapKeeps(r, a.now);
    } else {
      LobbyNoMore(r, a);
    }
  }

  // --- the end ---------------------------------------------------------------

  /** A roster seat at the end: connected, it is sent the frame last; in its grace
      window and present, it keeps it last; otherwise it gets none. */
  ghost predicate Handed(s: Seat, present: bool, s': Seat, mid: MatchId) {
    && s'.sess == s.sess && s'.disconnected == s.disconnected && s'.pending == s.pending
    && (if s.sess.Some? then s'.queue == s.queue + [MatchEndFrame(mid)] && (s'.backlog == s.backlog || s'.backlog == [])
        else if s.disconnected && present then s'.queue == s.queue && s'.backlog == s.backlog + [MatchEndFrame(mid)]
        else s'.queue == s.queue && (s'.backlog == s.backlog || s'.backlog == []))
  }

  lemma EndHands(r: Room, reason: Reason, now: int, id: SeatId)
    requires r.Wf() && r.mtch.Some? && !r.mtch.value.ended && id in r.pool
    ensures var r', mid := EndMatch(r, reason, now), r.mtch.value.id;
      && id in r'.pool
      && (id in r.mtch.value.roster ==> Handed(r.pool[id], Present(r, r.pool[id].playerId), r'.pool[id], mid))
      && (id !in r.mtch.value.roster ==>
            r'.pool[id].queue == r.pool[id].queue && r'.pool[id].pending == r.pool[id].pending
            && (r'.pool[id].backlog == r.pool[id].backlog || r'.pool[id].backlog == []))
      && (id in r'.seats ==> id in r.seats)
      && (id in r.seats && r.pool[id].disconnected ==> id in r'.seats)
  {
    assert EndMatch(r, reason, now).pool == EndedPool(r, r.mtch.value);
  }

  lemma HandedCount(s: Seat, present: bool, s': Seat, mid: MatchId, of: MatchId)
    requires Handed(s, present, s', mid)
    ensures EndCount(s', of) <= EndCount(s, of) + (if of == mid then 1 else 0)
    ensures s.sess.Some? || (s.disconnected && present) ==> EndCount(s, mid) == 0 ==> EndCount(s', mid) == 1
    ensures !(s.sess.Some? || (s.disconnected && present)) ==> EndCount(s', mid) <= EndCount(s, mid)
  {}

  /** What the end of the match has given seat `id` between `r` and `r'`: the frame
      last in the queue of a connected seat, last in the backlog of one in its grace
      window that is still there, and nowhere else. */
  ghost predicate EndGiven(r: Room, r': Room, id: SeatId) {
    && r.mtch.Some? && id in r.pool && id in r'.pool && (forall x <- r.seats :: x in r.pool)
    && var s, s', f := r.pool[id], r'.pool[id], MatchEndFrame(r.mtch.value.id);
    && s'.pending == s.pending
    && (s'.sess.Some? ==> s'.queue == s.queue + [f] && NotKept(s, s'))
    && (s'.sess.None? && s'.disconnected && id in r'.seats ==> s'.queue == s.queue && s'.backlog == s.backlog + [f])
    && (s'.sess.None? && !s'.disconnected ==> s'.queue == s.queue && NotKept(s, s'))
    && (s'.sess.None? && id !in r'.seats && (forall x <- r.seats :: x != id ==> r.pool[x].playerId != s.playerId) ==>
          s'.queue == s.queue && NotKept(s, s'))
  }

  ghost predicate NotKept(s: Seat, s': Seat) {
    s'.backlog == s.backlog || s'.backlog == []
  }

  /** From the room to just before its end: who is where stays, seats only go. */
  ghost predicate Thins(r: Room, r1: Room) {
    && r.Wf() && r1.Wf() && r1.pool.Keys == r.pool.Keys && (forall x <- r1.seats :: x in r.seats) && (r.mtch.None? ==> r1.mtch.None?)
    && (forall x <- r.pool :: r1.pool[x].playerId == r.pool[x].playerId)
    && (r.mtch.Some? ==> r1.mtch.Some? && r1.mtch.value.id == r.mtch.value.id && r1.mtch.value.roster == r.mtch.value.roster
                         && r1.mtch.value.ended == r.mtch.value.ended)
  }

  lemma DepartedThins(r: Room, id: SeatId)
    requires r.Wf() && id in r.pool
    ensures Thins(r, Departed(r, id))
  {}

  lemma GracedThins(r: Room, id: SeatId)
    requires r.Wf() && id in r.pool
    ensures Thins(r, Graced(r, id))
  {}

  lemma FinishingThins(r: Room, sess: SessionId, mid: MatchId, forfeit: bool, now: int)
    requires r.Wf()
    ensures Thins(r, Finishing(r, sess, mid, forfeit, now))
  {}

  lemma SweepingThins(r: Room, mid: MatchId, out: set<SeatId>)
    requires r.Wf()
    ensures Thins(r, Sweeping(r, mid, out))
  {}

  lemma LeavingThins(r: Room, sess: SessionId)
    requires r.Wf()
    ensures Thins(r, Leaving(r, sess))
  {
    var found := FindSeat(r.pool, r.seats, sess);
    if found.Some? {
      DepartedThins(r, found.value);
    }
  }

  lemma ReleasingThins(r: Room, id: SeatId)
    requires r.Wf() && id in r.pool
    ensures Thins(r, Releasing(r, id))
  {
    DepartedThins(r, id);
  }

  lemma ResolvingThins(r: Room, a: Action)
    requires r.Wf() && Applicable(r, a) && Resolves(a)
    ensures Thins(r, Pre(r, a))
  {
    match a
    case LeaveA(sess, _) => LeavingThins(r, sess);
    case ReleaseA(id, _) => ReleasingThins(r, id);
    case GraceExpireA(id, _) => GracedThins(r, id);
    case FinishA(sess, mid, forfeit, now) => FinishingThins(r, sess, mid, forfeit, now);
    case ForceEndA(mid, _, _) => SweepingThins(r, mid, r.pool.Keys);
    case SweepAfkA(mid, now) => SweepingThins(r, mid, SweepSet(r, now));
  }

  lemma EndingGives(r: Room, r1: Room, reason: Reason, now: int, id: SeatId)
    requires r.mtch.Some? && !r.mtch.value.ended && id in r.mtch.value.roster && id in r.pool && Thins(r, r1) && FramesKept(r, r1)
    ensures EndGiven(r, EndMatch(r1, reason, now), id)
  {
    assert SameFrames(r.pool[id], r1.pool[id]);
    EndHands(r1, reason, now, id);
  }

  /** Whenever an action adds an end record, each seat of the roster is given the end
      of that match so. */
  lemma MatchEndIsHanded(r: Room, a: Action, id: SeatId)
    requires Inv(r) && Legal(r, a) && r.mtch.Some? && id in r.mtch.value.roster
    requires Step(r, a).ends != r.ends
    ensures EndGiven(r, Step(r, a), id)
  {
    TickCore(r, a);
    PerformGives(Tick(r, a), a, id);
  }

  lemma PerformGives(r: Room, a: Action, id: SeatId)
    requires Inv(r) && Legal(r, a) && r.mtch.Some? && id in r.mtch.value.roster
    requires Perform(r, a).ends != r.ends
    ensures EndGiven(r, Perform(r, a), id)
  {
    InvIsNotDone(r);
    PerformIs(r, a);
    PreNoMore(r, a);
    ResolvingKeeps(r, a);
    ResolvingThins(r, a);
    EndingGives(r, Pre(r, a), ReasonOf(a), a.now, id);
  }

  // --- over runs -------------------------------------------------------------

  /** Nobody holds the end of a match twice, nor of one that has not ended. */
  ghost predicate OnceAtMost(r: Room) {
    forall id <- r.pool, mid :: EndCount(r.pool[id], mid) <= if HasEnded(r, mid) then 1 else 0
  }

  lemma EndCounts(r: Room, reason: Reason, now: int, id: SeatId, mid: MatchId)
    requires r.Wf() && r.mtch.Some? && !r.mtch.value.ended && id in r.pool
    ensures var r' := EndMatch(r, reason, now);
      id in r'.pool && EndCount(r'.pool[id], mid) <= EndCount(r.pool[id], mid) + (if mid == r.mtch.value.id then 1 else 0)
  {
    EndHands(r, reason, now, id);
    if id in r.mtch.value.roster {
      HandedCount(r.pool[id], Present(r, r.pool[id].playerId), EndMatch(r, reason, now).pool[id], r.mtch.value.id, mid);
    }
  }

  lemma EndLogs(r: Room, reason: Reason, now: int)
    requires r.Wf() && r.mtch.Some? && !r.mtch.value.ended
    ensures var r' := EndMatch(r, reason, now);
      r'.pool.Keys == r.pool.Keys && HasEnded(r', r.mtch.value.id) && forall mid :: HasEnded(r, mid) ==> HasEnded(r', mid)
  {
    var r' := EndMatch(r, reason, now);
    assert |r'.ends| == |r.ends| + 1 && r'.ends[..|r.ends|] == r.ends && r'.ends[|r.ends|].id == r.mtch.value.id;
    forall mid | HasEnded(r, mid)
      ensures HasEnded(r', mid)
    {
      var k :| 0 <= k < |r.ends| && r.ends[k].id == mid;
      assert r'.ends[k].id == mid;
    }
  }

  lemma EndingOnce(r: Room, reason: Reason, now: int)
    requires r.Wf() && r.mtch.Some? && !r.mtch.value.ended && OnceAtMost(r) && !HasEnded(r, r.mtch.value.id)
    ensures OnceAtMost(EndMatch(r, reason, now))
  {
    var r' := EndMatch(r, reason, now);
    EndLogs(r, reason, now);
    forall id, mid | id in r'.pool
      ensures EndCount(r'.pool[id], mid) <= if HasEnded(r', mid) then 1 else 0
    {
      EndCounts(r, reason, now, id, mid);
      assert id in r.pool && EndCount(r.pool[id], mid) <= if HasEnded(r, mid) then 1 else 0;
      assert HasEnded(r, mid) ==> HasEnded(r', mid);
    }
  }

  lemma PreOnce(r: Room, r1: Room)
    requires OnceAtMost(r) && NoMoreEnds(r, r1) && r1.ends == r.ends
    ensures OnceAtMost(r1)
  {
    forall id, mid | id in r1.pool
      ensures EndCount(r1.pool[id], mid) <= if HasEnded(r1, mid) then 1 else 0
    {
      assert HasEnded(r1, mid) <==> HasEnded(r, mid);
    }
  }

  lemma RunningIsNotEnded(r: Room)
    requires Inv(r) && r.mtch.Some?
    ensures !HasEnded(r, r.mtch.value.id)
  {
    assert r.started[|r.ends|].id == r.mtch.value.id;
    assert forall k :: 0 <= k < |r.ends| ==> r.ends[k].id == r.started[k].id;
  }

  lemma PerformOnce(r: Room, a: Action)
    requires Inv(r) && Legal(r, a) && OnceAtMost(r)
    ensures OnceAtMost(Perform(r, a))
  {
    InvIsNotDone(r);
    PerformIs(r, a);
    PreNoMore(r, a);
    PreOnce(r, Pre(r, a));
    if EndsMatch(r, a) {
      ResolvingThins(r, a);
      PreIsRunning(r, a);
      EndingOnce(Pre(r, a), ReasonOf(a), a.now);
    }
  }

  lemma PreIsRunning(r: Room, a: Action)
    requires Inv(r) && Applicable(r, a) && EndsMatch(r, a) && Thins(r, Pre(r, a)) && Pre(r, a).ends == r.ends
    ensures r.mtch.Some? && !Pre(r, a).mtch.value.ended && !HasEnded(Pre(r, a), Pre(r, a).mtch.value.id)
  {
    RunningIsNotEnded(r);
    assert HasEnded(Pre(r, a), r.mtch.value.id) <==> HasEnded(r, r.mtch.value.id);
  }

  /** Over any run: no seat, live or long gone, ever holds the end of one match twice,
      or of a match that has not ended. */
  lemma {:induction false} NobodyIsToldTwice(r: Room, run: seq<Action>)
    requires Inv(r) && LegalRun(r, run) && OnceAtMost(r)
    ensures OnceAtMost(Run(r, run))
    decreases |run|
  {
    if run != [] {
      StepInv(r, run[0]);
      TickCore(r, run[0]);
      StepOnce(r, run[0]);
      NobodyIsToldTwice(Step(r, run[0]), run[1..]);
    }
  }

  lemma StepOnce(r: Room, a: Action)
    requires Inv(r) && Legal(r, a) && OnceAtMost(r)
    ensures OnceAtMost(Step(r, a))
  {
    TickCore(r, a);
    assert forall mid :: HasEnded(Tick(r, a), mid) <==> HasEnded(r, mid);
    PerformOnce(Tick(r, a), a);
  }

  /** Connected seats and seats kept for their grace window hold the end of the match
      once, the others do not hold it. */
  ghost predicate ToldOnce(r: Room, r': Room, id: SeatId) {
    && r.mtch.Some? && id in r.pool && id in r'.pool && (forall x <- r.seats :: x in r.pool)
    && var s', mid := r'.pool[id], r.mtch.value.id;
    && (s'.sess.Some? || (s'.disconnected && id in r'.seats) ==> EndCount(s', mid) == 1)
    && (s'.sess.None? && !s'.disconnected ==> EndCount(s', mid) == 0)
    && (s'.sess.None? && id !in r'.seats && (forall x <- r.seats :: x != id ==> r.pool[x].playerId != r.pool[id].playerId) ==>
          EndCount(s', mid) == 0)
  }

  lemma GivenCount(r: Room, r': Room, id: SeatId)
    requires EndGiven(r, r', id) && EndCount(r.pool[id], r.mtch.value.id) == 0
    ensures ToldOnce(r, r', id)
  {}

  lemma ToldWhenItEnds(r: Room, a: Action, id: SeatId)
    requires Inv(r) && Legal(r, a) && r.mtch.Some? && id in r.mtch.value.roster && OnceAtMost(r)
    requires Step(r, a).ends != r.ends
    ensures ToldOnce(r, Step(r, a), id)
  {
    RunningIsNotEnded(r);
    MatchEndIsHanded(r, a, id);
    GivenCount(r, Step(r, a), id);
  }

  /** From a new room on: whenever a match ends, every seat of its roster is told so. */
  lemma EachIsToldOnce(now: int, run: seq<Action>, a: Action, id: SeatId)
    requires LegalRun(FreshRoom(now), run)
    requires var r := Run(FreshRoom(now), run);
      Legal(r, a) && Step(r, a).ends != r.ends && r.mtch.Some? && id in r.mtch.value.roster
    ensures ToldOnce(Run(FreshRoom(now), run), Step(Run(FreshRoom(now), run), a), id)
  {
    NobodyIsToldTwice(FreshRoom(now), run);
    ToldWhenItEnds(Run(FreshRoom(now), run), a, id);
  }
}
