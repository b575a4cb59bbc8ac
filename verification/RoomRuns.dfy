/** What holds over whole runs of a room. */
module RoomRuns {
  import opened RoomTypes
  import opened RoomSteps
  import opened RoomActions
  import opened RoomInvariant
  import opened RoomPreservation

  ghost predicate LegalRun(r: Room, run: seq<Action>)
    requires Inv(r)
    decreases |run|
  {
    run == [] || (Legal(r, run[0]) && (StepInv(r, run[0]); LegalRun(Step(r, run[0]), run[1..])))
  }

  /** The room after a run. The invariant holds after every legal run. */
  ghost function Run(r: Room, run: seq<Action>): (r': Room)
    requires Inv(r) && LegalRun(r, run)
    ensures Inv(r')
    decreases |run|
  {
    if run == [] then r else
      StepInv(r, run[0]);
      Run(Step(r, run[0]), run[1..])
  }

  lemma NewRoomInv(now: int)
    ensures Inv(NewRoom(now))
  {}

  /** A new room, which every run starts from. */
  function FreshRoom(now: int): (r: Room)
    ensures r == NewRoom(now) && Inv(r)
  {
    NewRoomInv(now);
    NewRoom(now)
  }

  // --- one match, one match_end ------------------------------------------

  ghost function EndsOf(r: Room, mid: MatchId): set<nat> {
    set k: nat | k < |r.ends| && r.ends[k].id == mid
  }

  lemma OneEnd(r: Room, i: nat)
    requires r.Wf() && LogsOk(r) && i < |r.started|
    ensures var s := r.started[i];
      if r.mtch.Some? && r.mtch.value.id == s.id then EndsOf(r, s.id) == {}
      else i < |r.ends| && EndsOf(r, s.id) == {i} && Agrees(s, r.ends[i])
  {
    assert forall k: nat :: k < |r.ends| ==> r.ends[k].id == r.started[k].id;
  }

  /** In every reachable room, a match that was started and is not running has
      left exactly one end record, which agrees with its start; a running match
      has left none. */
  lemma OneEndPerMatch(now: int, run: seq<Action>, i: nat)
    requires LegalRun(FreshRoom(now), run)
    requires i < |Run(FreshRoom(now), run).started|
    ensures var r := Run(FreshRoom(now), run);
      var s := r.started[i];
      if r.mtch.Some? && r.mtch.value.id == s.id then EndsOf(r, s.id) == {}
      else i < |r.ends| && EndsOf(r, s.id) == {i} && Agrees(s, r.ends[i])
  {
    OneEnd(Run(FreshRoom(now), run), i);
  }

  // --- what an action may change of a match ------------------------------

  /** From `r` to `r'` the running match goes on: its roster is frozen, captures
      only grow, and a resolved seat's status and capture are final. */
  ghost predicate GoesOn(r: Room, r': Room) {
    && r.Wf() && r'.Wf()
    && r'.ends == r.ends && r'.started == r.started
    && r.pool.Keys <= r'.pool.Keys
    && (forall id <- r.pool :: Same(r.pool[id], r'.pool[id]))
    && r'.mtch.Some? == r.mtch.Some?
    && (r.mtch.Some? ==>
          && r'.mtch.value.id == r.mtch.value.id
          && r'.mtch.value.goAtMs == r.mtch.value.goAtMs
          && r'.mtch.value.roster == r.mtch.value.roster
          && (r.mtch.value.finishWindowAtMs.Some? ==> r'.mtch.value.finishWindowAtMs == r.mtch.value.finishWindowAtMs))
  }

  ghost predicate Same(s: Seat, s': Seat) {
    && s'.playerId == s.playerId && s'.userId == s.userId && s'.joinSeq == s.joinSeq
    && s.batches <= s'.batches
    && (s.status != Active ==> s'.status == s.status && s'.batches == s.batches
                               && s'.eventCount == s.eventCount && s'.finishedAtMs == s.finishedAtMs)
  }

  /** An action lets the match go on, or lets it go on and then ends it. */
  ghost predicate Advances(r: Room, r': Room) {
    GoesOn(r, r') || exists r1, reason, now :: Ends(r, r1, reason, now, r')
  }

  ghost predicate Ends(r: Room, r1: Room, reason: Reason, now: int, r': Room) {
    GoesOn(r, r1) && AllTerminal(r1) && !r1.mtch.value.ended && r' == EndMatch(r1, reason, now)
  }

  lemma StandsStill(r: Room)
    requires r.Wf()
    ensures Advances(r, r)
  {
    assert GoesOn(r, r);
  }

  lemma DoneAdvances(r: Room, r1: Room, now: int)
    requires GoesOn(r, r1) && StatusOk(r1)
    ensures Advances(r, EndIfDone(r1, now))
  {
    if AllTerminal(r1) {
      assert Ends(r, r1, AllFinished, now, EndIfDone(r1, now));
    }
  }

  lemma PutGoesOn(r: Room, id: SeatId, s: Seat)
    requires r.Wf() && id in r.pool && Same(r.pool[id], s)
    ensures GoesOn(r, Put(r, id, s))
  {}

  lemma DepartGoesOn(r: Room, r1: Room, id: SeatId)
    requires GoesOn(r, r1) && id in r1.pool
    ensures GoesOn(r, Depart(r1, id))
  {}

  lemma LeaveSeatAdvances(r: Room, id: SeatId, now: int)
    requires Inv(r) && id in r.pool
    ensures Advances(r, LeaveSeat(r, id, now))
  {
    if Racing(r, id) {
      var s := r.pool[id].(status := Left, sess := None);
      PutGoesOn(r, id, s);
      DepartGoesOn(r, Put(r, id, s), id);
      PutCore(r, id, s);
      DepartCore(Put(r, id, s), id);
      DoneAdvances(r, Depart(Put(r, id, s), id), now);
    } else {
      DepartGoesOn(r, r, id);
      DepartCore(r, id);
      DoneAdvances(r, Depart(r, id), now);
    }
  }

  lemma LeaveAdvances(r: Room, sess: SessionId, now: int)
    requires Inv(r)
    ensures Advances(r, Leave(r, sess, now))
  {
    var found := FindSeat(r.pool, r.seats, sess);
    if found.Some? {
      LeaveSeatAdvances(r, found.value, now);
    } else {
      StandsStill(r);
    }
  }

  lemma GraceExpireAdvances(r: Room, id: SeatId, now: int)
    requires Inv(r) && id in r.pool
    ensures Advances(r, GraceExpire(r, id, now))
  {
    var s := r.pool[id];
    if s.sess.None? && s.disconnected && Present(r, s.playerId) {
      if Racing(r, id) {
        PutGoesOn(r, id, s.(status := Dnf));
        DepartGoesOn(r, Put(r, id, s.(status := Dnf)), id);
        PutCore(r, id, s.(status := Dnf));
        DepartCore(Put(r, id, s.(status := Dnf)), id);
        DoneAdvances(r, Depart(Put(r, id, s.(status := Dnf)), id), now);
      } else {
        PutGoesOn(r, id, s.(disconnected := false));
        DepartGoesOn(r, Put(r, id, s.(disconnected := false)), id);
      }
    }
  }

  lemma ResolvePutStatus(r: Room, id: SeatId, s: Seat)
    requires r.Wf() && StatusOk(r) && id in r.pool && r.pool[id].status == Active && s.status in {Finished, Dnf, Left}
    ensures StatusOk(Put(r, id, s))
  {}

  lemma ArmGoesOn(r: Room, r1: Room, now: int)
    requires GoesOn(r, r1)
    ensures GoesOn(r, Arm(r1, now))
  {}

  lemma FinishAdvances(r: Room, sess: SessionId, mid: MatchId, forfeit: bool, now: int)
    requires Inv(r)
    ensures Advances(r, Finish(r, sess, mid, forfeit, now))
  {
    var found := FindSeat(r.pool, r.seats, sess);
    if found.Some? && r.mtch.Some? && mid == r.mtch.value.id && r.pool[found.value].status == Active {
      var s := r.pool[found.value];
      var s' := if forfeit then s.(status := Dnf) else s.(status := Finished, finishedAtMs := now);
      ResolvedSeatAdvances(r, found.value, s', now);
    } else {
      StandsStill(r);
    }
  }

  lemma ResolvedSeatAdvances(r: Room, id: SeatId, s: Seat, now: int)
    requires Inv(r) && id in r.pool && r.pool[id].status == Active && Same(r.pool[id], s) && s.status in {Finished, Dnf}
    ensures Advances(r, EndIfDone(Put(r, id, s), now)) && Advances(r, EndOrArm(Put(r, id, s), now))
  {
    PutGoesOn(r, id, s);
    ResolvePutStatus(r, id, s);
    DoneAdvances(r, Put(r, id, s), now);
    ArmGoesOn(r, Put(r, id, s), now);
  }

  lemma DnfGoesOn(r: Room, out: set<SeatId>)
    requires r.Wf()
    ensures GoesOn(r, DnfWhere(r, out))
  {}

  lemma ForceEndAdvances(r: Room, mid: MatchId, reason: Reason, now: int)
    requires Inv(r)
    ensures Advances(r, ForceEnd(r, mid, reason, now))
  {
    DnfGoesOn(r, r.pool.Keys);
    if IsCurrent(r, mid) {
      assert Ends(r, DnfWhere(r, r.pool.Keys), reason, now, ForceEnd(r, mid, reason, now));
    } else {
      StandsStill(r);
    }
  }

  lemma SweepAdvances(r: Room, mid: MatchId, now: int)
    requires Inv(r)
    ensures Advances(r, SweepAfk(r, mid, now))
  {
    if SweepAfk(r, mid, now) == r {
      StandsStill(r);
    } else {
      DnfAdvances(r, SweepSet(r, now), now);
    }
  }

  lemma DnfAdvances(r: Room, out: set<SeatId>, now: int)
    requires Inv(r)
    ensures Advances(r, EndIfDone(DnfWhere(r, out), now))
  {
    DnfGoesOn(r, out);
    DnfWhereCore(r, out);
    DoneAdvances(r, DnfWhere(r, out), now);
  }

  lemma LeaveAllGoesOn(r: Room, now: int)
    requires Inv(r) && r.mtch.None?
    ensures GoesOn(r, LeaveAll(r, now))
    decreases |r.seats|
  {
    if r.seats != [] {
      assert Without(r.seats, r.seats[0]) == r.seats[1..];
      LeaveSeatInv(r, r.seats[0], now);
      LeaveAllGoesOn(LeaveSeat(r, r.seats[0], now), now);
    }
  }

  lemma RelayGoesOn(r: Room, sess: SessionId, eb: EventBatch, recvMs: int, now: int)
    requires r.Wf()
    ensures GoesOn(r, Relay(r, sess, eb, recvMs, now))
  {
    var r' := Relay(r, sess, eb, recvMs, now);
    var found := FindSeat(r.pool, r.seats, sess);
    if found.Some? && Acceptable(r, found.value, eb) {
      forall id | id in r.pool
        ensures Same(r.pool[id], r'.pool[id])
      {
        BatchSame(r.pool[id], r.mtch.value.goAtMs, eb, recvMs, PeerBatch(r.mtch.value.id, r.pool[found.value].playerId, eb.version, eb.events));
      }
    }
  }

  lemma BatchSame(s: Seat, goAtMs: int, eb: EventBatch, recvMs: int, f: Frame)
    ensures s.status == Active ==> Same(s, Capture(s, goAtMs, eb, recvMs))
    ensures Same(s, HandBatch(s, f))
  {}

  /** A reconnect action rewrites one seat's connection and nothing else. */
  lemma ReconnectGoesOn(r: Room, a: Action)
    requires r.Wf() && Legal(r, a)
    requires a.OfConnection()
    ensures GoesOn(r, Perform(r, a))
  {
    match a
    case DetachA(id) => PutGoesOn(r, id, Park(r.pool[id]));
    case DisconnectA(sess) => DisconnectGoesOn(r, sess);
    case BindA(id, sess) =>
      PutGoesOn(r, id, r.pool[id].(sess := Some(sess), drain := Some(Drain(sess, Racing(r, id)))));
    case DrainTurnA(id, now) => DrainTurnGoesOn(r, id, now);
    case SendPendingA(id) => SendPendingGoesOn(r, id);
    case AbandonDrainA(id) => PutGoesOn(r, id, r.pool[id].(drain := None));
    case _ =>
  }

  lemma DrainTurnGoesOn(r: Room, id: SeatId, now: int)
    requires r.Wf() && id in r.pool
    ensures GoesOn(r, DrainTurn(r, id, now))
  {
    PutGoesOn(r, id, DrainTurn(r, id, now).pool[id]);
  }

  lemma SendPendingGoesOn(r: Room, id: SeatId)
    requires r.Wf() && id in r.pool
    ensures GoesOn(r, SendPending(r, id))
  {
    PutGoesOn(r, id, SendPending(r, id).pool[id]);
  }

  lemma DisconnectGoesOn(r: Room, sess: SessionId)
    requires r.Wf()
    ensures GoesOn(r, Disconnect(r, sess))
  {
    var found := FindSeat(r.pool, r.seats, sess);
    if found.Some? {
      PutGoesOn(r, found.value, Park(r.pool[found.value]));
    }
  }

  lemma TakeSeatGoesOn(r: Room, id: SeatId, sess: SessionId, p: PlayerId, u: UserId, asHost: bool, now: int)
    requires r.Wf() && id !in r.pool
    ensures GoesOn(r, TakeSeat(r, id, sess, p, u, asHost, now))
  {}

  lemma HostActionGoesOn(r: Room, sess: SessionId, p: PlayerId, now: int)
    requires r.Wf()
    ensures GoesOn(r, Kick(r, sess, p, now)) && GoesOn(r, TransferHost(r, sess, p, now))
  {}

  lemma ReadyGoesOn(r: Room, sess: SessionId, value: bool, now: int)
    requires r.Wf()
    ensures GoesOn(r, SetReady(r, sess, value, now))
  {
    var found := FindSeat(r.pool, r.seats, sess);
    if found.Some? {
      PutGoesOn(r, found.value, r.pool[found.value].(ready := value));
    }
  }

  lemma SettingsGoesOn(r: Room, sess: SessionId, ns: Settings, now: int)
    requires r.Wf()
    ensures GoesOn(r, UpdateSettings(r, sess, ns, now))
  {}

  lemma DepartureAdvances(r: Room, a: Action)
    requires Inv(r) && Legal(r, a) && a.OfDeparture()
    ensures Advances(r, Perform(r, a))
  {
    match a
    case LeaveA(sess, now) => LeaveAdvances(r, sess, now);
    case ReleaseA(id, now) => ReleaseAdvances(r, id, now);
    case GraceExpireA(id, now) => GraceExpireAdvances(r, id, now);
    case ReapIdleA(now) => ReapAdvances(r, now);
  }

  lemma MatchAdvances(r: Room, a: Action)
    requires Inv(r) && Legal(r, a) && a.OfMatch()
    ensures Advances(r, Perform(r, a))
  {
    match a
    case FinishA(sess, mid, forfeit, now) => FinishAdvances(r, sess, mid, forfeit, now);
    case ForceEndA(mid, reason, now) => ForceEndAdvances(r, mid, reason, now);
    case SweepAfkA(mid, now) => SweepAdvances(r, mid, now);
  }

  lemma LobbyGoesOn(r: Room, a: Action)
    requires Inv(r) && Legal(r, a) && (a.TakeSeatA? || a.KickA? || a.TransferHostA? || a.ReadyA? || a.SettingsA?)
    ensures GoesOn(r, Perform(r, a))
  {
    match a
    case TakeSeatA(id, sess, p, u, asHost, now) => TakeSeatGoesOn(r, id, sess, p, u, asHost, now);
    case KickA(sess, p, now) => HostActionGoesOn(r, sess, p, now);
    case TransferHostA(sess, p, now) => HostActionGoesOn(r, sess, p, now);
    case ReadyA(sess, value, now) => ReadyGoesOn(r, sess, value, now);
    case SettingsA(sess, ns, now) => SettingsGoesOn(r, sess, ns, now);
  }

  /** Every action but a match start lets the match go on or ends it. */
  lemma PerformAdvances(r: Room, a: Action)
    requires Inv(r) && Legal(r, a)
    ensures Advances(r, Perform(r, a)) || (a.StartMatchA? && r.mtch.None? && Perform(r, a).ends == r.ends)
  {
    if a.OfDeparture() {
      DepartureAdvances(r, a);
    } else if a.OfMatch() {
      MatchAdvances(r, a);
    } else if a.OfConnection() {
      ReconnectGoesOn(r, a);
    } else if a.RelayA? {
      RelayGoesOn(r, a.sess, a.batch, a.recvMs, a.now);
    } else if a.StartMatchA? {
      StartAdvances(r, a.sess, a.force, a.mid, a.now);
    } else {
      LobbyGoesOn(r, a);
    }
  }

  lemma ReleaseAdvances(r: Room, id: SeatId, now: int)
    requires Inv(r) && id in r.pool
    ensures Advances(r, Release(r, id, now))
  {
    if Release(r, id, now) == r {
      StandsStill(r);
    } else {
      LeaveSeatAdvances(r, id, now);
    }
  }

  lemma StartAdvances(r: Room, sess: SessionId, force: bool, mid: MatchId, now: int)
    requires Inv(r)
    ensures var r' := StartMatch(r, sess, force, mid, now); GoesOn(r, r') || (r.mtch.None? && r'.ends == r.ends)
  {}

  lemma ReapAdvances(r: Room, now: int)
    requires Inv(r)
    ensures Advances(r, ReapIdle(r, now))
  {
    if IdleStateOf(r, now) == Expire {
      LeaveAllGoesOn(r, now);
    }
  }

  // --- the first terminal status is final --------------------------------

  /** Roster seat `i` of match `mid` is resolved as `st` with `n` batches: on the
      seat while the match runs, in its end record afterwards. */
  ghost predicate Resolved(r: Room, mid: MatchId, i: nat, st: Status, n: nat)
    requires r.Wf()
  {
    || (&& r.mtch.Some? && r.mtch.value.id == mid && i < |r.mtch.value.roster|
        && var s := r.pool[r.mtch.value.roster[i]];
           st != Active && s.status == st && |s.batches| == n)
    || Recorded(r, mid, i, st, n)
  }

  ghost predicate Recorded(r: Room, mid: MatchId, i: nat, st: Status, n: nat) {
    exists k :: 0 <= k < |r.ends| && r.ends[k].id == mid && i < |r.ends[k].results|
             && r.ends[k].results[i].status == st && r.ends[k].results[i].batchCount == n
  }

  lemma RecordedStays(r: Room, r': Room, mid: MatchId, i: nat, st: Status, n: nat)
    requires Recorded(r, mid, i, st, n) && r.ends <= r'.ends
    ensures Recorded(r', mid, i, st, n)
  {
    var k :| 0 <= k < |r.ends| && r.ends[k].id == mid && i < |r.ends[k].results|
          && r.ends[k].results[i].status == st && r.ends[k].results[i].batchCount == n;
    assert r'.ends[k] == r.ends[k];
  }

  lemma AdvancesLogs(r: Room, r': Room)
    requires Advances(r, r')
    ensures r.ends <= r'.ends
  {}

  lemma ResolvedAdvances(r: Room, r': Room, mid: MatchId, i: nat, st: Status, n: nat)
    requires r.Wf() && r'.Wf() && Advances(r, r') && Resolved(r, mid, i, st, n)
    ensures Resolved(r', mid, i, st, n)
  {
    AdvancesLogs(r, r');
    if Recorded(r, mid, i, st, n) {
      RecordedStays(r, r', mid, i, st, n);
    } else if !GoesOn(r, r') {
      var r1, reason, now :| Ends(r, r1, reason, now, r');
      var m := r1.mtch.value;
      assert r'.ends == r.ends + [EndRecordOf(r1, m, reason, now)];
      assert r'.ends[|r.ends|].results[i] == ResultOf(r1.pool[m.roster[i]], m.goAtMs, now);
    }
  }

  lemma ResolvedStep(r: Room, a: Action, mid: MatchId, i: nat, st: Status, n: nat)
    requires Inv(r) && Legal(r, a) && Resolved(r, mid, i, st, n)
    ensures Resolved(Step(r, a), mid, i, st, n)
  {
    var t := Tick(r, a);
    TickCore(r, a);
    PerformAdvances(t, a);
    assert Resolved(t, mid, i, st, n);
    if Advances(t, Perform(t, a)) {
      ResolvedAdvances(t, Perform(t, a), mid, i, st, n);
    } else {
      RecordedStays(t, Perform(t, a), mid, i, st, n);
    }
  }

  /** Whatever happens afterwards, a roster seat that once left the racing state
      is reported with that status and that many batches. */
  lemma {:induction false} FirstTerminalStatusWins(r: Room, run: seq<Action>, mid: MatchId, i: nat, st: Status, n: nat)
    requires Inv(r) && LegalRun(r, run) && Resolved(r, mid, i, st, n)
    ensures Resolved(Run(r, run), mid, i, st, n)
    decreases |run|
  {
    if run != [] {
      StepInv(r, run[0]);
      ResolvedStep(r, run[0], mid, i, st, n);
      FirstTerminalStatusWins(Step(r, run[0]), run[1..], mid, i, st, n);
    }
  }

  // --- timers of an ended match ------------------------------------------

  ghost predicate HasEnded(r: Room, mid: MatchId) {
    exists k :: 0 <= k < |r.ends| && r.ends[k].id == mid
  }

  lemma EndsGrow(r: Room, a: Action)
    requires Inv(r) && Legal(r, a)
    ensures r.ends <= Step(r, a).ends
  {
    TickCore(r, a);
    PerformAdvances(Tick(r, a), a);
    if Advances(Tick(r, a), Step(r, a)) {
      AdvancesLogs(Tick(r, a), Step(r, a));
    }
  }

  lemma {:induction false} EndedStays(r: Room, run: seq<Action>, mid: MatchId)
    requires Inv(r) && LegalRun(r, run) && HasEnded(r, mid)
    ensures HasEnded(Run(r, run), mid)
    decreases |run|
  {
    if run != [] {
      StepInv(r, run[0]);
      EndsGrow(r, run[0]);
      var k :| 0 <= k < |r.ends| && r.ends[k].id == mid;
      assert Step(r, run[0]).ends[k].id == mid;
      EndedStays(Step(r, run[0]), run[1..], mid);
    }
  }

  /** The finish window is armed once: while its match runs the instant stays,
      whoever finishes later. */
  lemma {:induction false} FinishWindowArmedOnce(r: Room, run: seq<Action>, at: int)
    requires Inv(r) && LegalRun(r, run) && r.mtch.Some? && r.mtch.value.finishWindowAtMs == Some(at)
    ensures var e, mid := Run(r, run), r.mtch.value.id;
      HasEnded(e, mid) || (e.mtch.Some? && e.mtch.value.id == mid && e.mtch.value.finishWindowAtMs == Some(at))
    decreases |run|
  {
    if run != [] {
      StepInv(r, run[0]);
      WindowStays(r, run[0], at);
      if HasEnded(Step(r, run[0]), r.mtch.value.id) {
        EndedStays(Step(r, run[0]), run[1..], r.mtch.value.id);
      } else {
        FinishWindowArmedOnce(Step(r, run[0]), run[1..], at);
      }
    }
  }

  lemma WindowStays(r: Room, a: Action, at: int)
    requires Inv(r) && Legal(r, a) && r.mtch.Some? && r.mtch.value.finishWindowAtMs == Some(at)
    ensures var r', mid := Step(r, a), r.mtch.value.id;
      HasEnded(r', mid) || (r'.mtch.Some? && r'.mtch.value.id == mid && r'.mtch.value.finishWindowAtMs == Some(at))
  {
    var t := Tick(r, a);
    TickCore(r, a);
    PerformAdvances(t, a);
    AdvancesKeepsWindow(t, Perform(t, a), at);
  }

  lemma AdvancesKeepsWindow(r: Room, r': Room, at: int)
    requires r.Wf() && r'.Wf() && Advances(r, r') && r.mtch.Some? && r.mtch.value.finishWindowAtMs == Some(at)
    ensures var mid := r.mtch.value.id;
      HasEnded(r', mid) || (r'.mtch.Some? && r'.mtch.value.id == mid && r'.mtch.value.finishWindowAtMs == Some(at))
  {
    if !GoesOn(r, r') {
      var r1, reason, now :| Ends(r, r1, reason, now, r');
      assert r'.ends == r.ends + [EndRecordOf(r1, r1.mtch.value, reason, now)];
      assert r'.ends[|r.ends|].id == r.mtch.value.id;
    }
  }

  /** Once a match has ended, its deadline, its finish window and its AFK sweep
      change nothing, however late they fire and whatever runs meanwhile. */
  lemma StaleTimersDoNothing(r: Room, run: seq<Action>, mid: MatchId, reason: Reason, now: int)
    requires Inv(r) && LegalRun(r, run) && HasEnded(r, mid)
    ensures ForceEnd(Run(r, run), mid, reason, now) == Run(r, run)
    ensures SweepAfk(Run(r, run), mid, now) == Run(r, run)
  {
    EndedStays(r, run, mid);
    var e := Run(r, run);
    var k :| 0 <= k < |e.ends| && e.ends[k].id == mid;
    assert e.started[k].id == mid;
  }

  // --- timing ------------------------------------------------------------

  /** The sweep spares a seat in its grace window: it keeps racing, and so the
      match goes on. */
  lemma SweepSparesGracedSeats(r: Room, mid: MatchId, now: int, id: SeatId)
    requires Inv(r) && id in r.pool && Racing(r, id) && r.pool[id].disconnected
    ensures SweepAfk(r, mid, now).mtch == r.mtch && SweepAfk(r, mid, now).pool[id] == r.pool[id]
  {
    var r1 := DnfWhere(r, SweepSet(r, now));
    assert r1.pool[id] == r.pool[id];
    assert !AllTerminal(r1);
  }

  /** The sweep eliminates nobody before ten seconds after "go". */
  lemma SweepWaitsTenSeconds(r: Room, mid: MatchId, now: int)
    requires Inv(r) && SweepAfk(r, mid, now) != r
    ensures r.mtch.Some? && r.mtch.value.id == mid && now - r.mtch.value.goAtMs >= 10000
  {
    var id :| id in SweepSet(r, now);
    assert id in r.mtch.value.roster && SweptOut(r.pool[id], r.mtch.value, now);
  }
}
