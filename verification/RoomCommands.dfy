/** Which action starts a match, seats or removes somebody, changes a ready flag, the
    settings or the idle clock, and what an end record tells: each as one condition on
    the room before the action. */
module RoomCommands {
  import opened RoomTypes
  import opened RoomSettings
  import opened RoomSteps
  import opened RoomActions
  import opened RoomInvariant
  import opened RoomPreservation
  import opened RoomHost
  import opened RoomOutcome
  import opened RoomEnding
  import opened RoomCapture

  // --- who may do what -------------------------------------------------------

  /** `sess` holds the seat of the host. */
  ghost predicate ByHost(r: Room, sess: SessionId)
    requires r.Wf()
  {
    var me := FindSeat(r.pool, r.seats, sess);
    me.Some? && r.hostId == Some(r.pool[me.value].playerId)
  }

  /** The host starts a match outside one, with two players or more, by force or with
      everybody else ready. */
  ghost predicate Begins(r: Room, a: Action)
    requires r.Wf()
  {
    && a.StartMatchA? && ByHost(r, a.sess) && !r.inMatch && |r.seats| >= 2
    && (a.force || forall id <- r.seats :: r.hostId != Some(r.pool[id].playerId) ==> r.pool[id].ready)
  }

  /** The host changes the settings outside a match, to valid ones. */
  ghost predicate Resettles(r: Room, a: Action)
    requires r.Wf()
  {
    a.SettingsA? && ByHost(r, a.sess) && !r.inMatch && ValidSettings(a.settings.(name := SanitizeRoomName(a.settings.name)))
  }

  /** The holder of seat `id` sets its ready flag outside a match. */
  ghost predicate Readies(r: Room, a: Action, id: SeatId)
    requires r.Wf()
  {
    a.ReadyA? && !r.inMatch && FindSeat(r.pool, r.seats, a.sess) == Some(id)
  }

  /** Seat `id` goes by this action, whether or not a match ends with it. */
  ghost predicate Goes(r: Room, a: Action, id: SeatId)
    requires r.Wf() && id in r.pool
  {
    var s := r.pool[id];
    match a
    case LeaveA(sess, _) => FindSeat(r.pool, r.seats, sess) == Some(id)
    case ReleaseA(at, _) => at == id && !Racing(r, id)
    case GraceExpireA(at, _) => at == id && s.sess.None? && s.disconnected
    case KickA(sess, player, _) => ByHost(r, sess) && !r.inMatch && s.playerId == player && r.hostId != Some(player)
    case ReapIdleA(now) => !r.inMatch && now - r.lastActivityMs >= 3600000
    case _ => false
  }

  /** The match that ran has ended. */
  ghost predicate Ended(r: Room, r': Room) {
    r.mtch.Some? && r'.mtch.None?
  }

  // --- what an end does to all this ------------------------------------------

  ghost predicate SameLobby(r: Room, r': Room) {
    && r'.settings == r.settings && r'.started == r.started
    && r'.lastActivityMs == r.lastActivityMs && r'.idleWarned == r.idleWarned
  }

  lemma EndKeepsLobby(r: Room, reason: Reason, now: int)
    requires r.Wf() && r.mtch.Some? && !r.mtch.value.ended
    ensures SameLobby(r, EndMatch(r, reason, now)) && Ended(r, EndMatch(r, reason, now))
  {}

  lemma EndSeat(r: Room, reason: Reason, now: int, id: SeatId)
    requires r.Wf() && r.mtch.Some? && !r.mtch.value.ended && id in r.pool
    ensures var r' := EndMatch(r, reason, now);
      && id in r'.pool
      && (id in r'.seats <==> id in r.seats && (r.pool[id].sess.Some? || r.pool[id].disconnected))
      && (id in r.seats ==> !r'.pool[id].ready)
  {}

  /** Before the end: the match still runs, and nothing of the lobby has changed. */
  ghost predicate BeforeEnd(r: Room, r1: Room) {
    && SameLobby(r, r1) && r1.Wf() && (r.mtch.Some? <==> r1.mtch.Some?)
    && (r.mtch.Some? ==> r1.mtch.value.ended == r.mtch.value.ended)
  }

  lemma ResolvingLobby(r: Room, a: Action)
    requires r.Wf() && Applicable(r, a) && Resolves(a)
    ensures BeforeEnd(r, Pre(r, a))
  {
    match a
    case LeaveA(sess, _) => LeavingLobby(r, sess);
    case ReleaseA(id, _) => DepartedLobby(r, id);
    case GraceExpireA(id, _) => GracedLobby(r, id);
    case FinishA(sess, mid, forfeit, now) => FinishingLobby(r, sess, mid, forfeit, now);
    case ForceEndA(mid, _, _) => SweepingLobby(r, mid, r.pool.Keys);
    case SweepAfkA(mid, now) => SweepingLobby(r, mid, SweepSet(r, now));
  }

  lemma DepartedLobby(r: Room, id: SeatId)
    requires r.Wf() && id in r.pool
    ensures BeforeEnd(r, Departed(r, id))
  {}

  lemma LeavingLobby(r: Room, sess: SessionId)
    requires r.Wf()
    ensures BeforeEnd(r, Leaving(r, sess))
  {
    var found := FindSeat(r.pool, r.seats, sess);
    if found.Some? {
      DepartedLobby(r, found.value);
    }
  }

  lemma GracedLobby(r: Room, id: SeatId)
    requires r.Wf() && id in r.pool
    ensures BeforeEnd(r, Graced(r, id))
  {}

  lemma FinishingLobby(r: Room, sess: SessionId, mid: MatchId, forfeit: bool, now: int)
    requires r.Wf()
    ensures BeforeEnd(r, Finishing(r, sess, mid, forfeit, now))
  {}

  lemma SweepingLobby(r: Room, mid: MatchId, out: set<SeatId>)
    requires r.Wf()
    ensures BeforeEnd(r, Sweeping(r, mid, out))
  {}

  // --- who is in the room ----------------------------------------------------

  /** Seat `id` before the end: there unless it goes, connected as it was, and as ready. */
  ghost predicate StaysUnless(r: Room, r1: Room, id: SeatId, goes: bool) {
    && r.Wf() && r1.Wf() && id in r.pool && id in r1.pool
    && (id in r1.seats <==> id in r.seats && !goes)
    && (id in r1.seats ==> r1.pool[id].sess == r.pool[id].sess && r1.pool[id].disconnected == r.pool[id].disconnected)
    && r1.pool[id].ready == r.pool[id].ready
  }

  lemma DepartedStays(r: Room, at: SeatId, id: SeatId)
    requires r.Wf() && Sorted(r.pool, r.seats) && at in r.pool && id in r.pool
    ensures StaysUnless(r, Departed(r, at), id, at == id)
  {
    WithoutSorted(r.pool, r.seats, at);
  }

  lemma LeavingStays(r: Room, sess: SessionId, id: SeatId)
    requires r.Wf() && Sorted(r.pool, r.seats) && id in r.pool
    ensures StaysUnless(r, Leaving(r, sess), id, FindSeat(r.pool, r.seats, sess) == Some(id))
  {
    var found := FindSeat(r.pool, r.seats, sess);
    if found.Some? {
      DepartedStays(r, found.value, id);
    }
  }

  lemma ReleasingStays(r: Room, at: SeatId, id: SeatId)
    requires r.Wf() && Sorted(r.pool, r.seats) && at in r.pool && id in r.seats
    ensures StaysUnless(r, Releasing(r, at), id, at == id && !Racing(r, id))
  {
    DepartedStays(r, at, id);
    assert Present(r, r.pool[id].playerId);
  }

  lemma PutDepartStays(r: Room, at: SeatId, s: Seat, id: SeatId)
    requires r.Wf() && Sorted(r.pool, r.seats) && at in r.pool && id in r.pool && s.ready == r.pool[at].ready
    ensures StaysUnless(r, Depart(Put(r, at, s), at), id, at == id)
  {
    WithoutSorted(r.pool, r.seats, at);
  }

  lemma GracedStays(r: Room, at: SeatId, id: SeatId)
    requires r.Wf() && Sorted(r.pool, r.seats) && at in r.pool && id in r.seats
    ensures StaysUnless(r, Graced(r, at), id, at == id && r.pool[id].sess.None? && r.pool[id].disconnected)
  {
    var s := r.pool[at];
    PutDepartStays(r, at, if Racing(r, at) then s.(status := Dnf) else s.(disconnected := false), id);
    assert Present(r, r.pool[id].playerId);
  }

  lemma FinishingStays(r: Room, sess: SessionId, mid: MatchId, forfeit: bool, now: int, id: SeatId)
    requires r.Wf() && id in r.pool
    ensures StaysUnless(r, Finishing(r, sess, mid, forfeit, now), id, false)
  {}

  lemma SweepingStays(r: Room, mid: MatchId, out: set<SeatId>, id: SeatId)
    requires r.Wf() && id in r.pool
    ensures StaysUnless(r, Sweeping(r, mid, out), id, false)
  {}

  lemma ResolvingStays(r: Room, a: Action, id: SeatId)
    requires r.Wf() && Sorted(r.pool, r.seats) && Applicable(r, a) && Resolves(a) && id in r.seats
    ensures StaysUnless(r, Pre(r, a), id, Goes(r, a, id))
  {
    match a
    case LeaveA(sess, _) => LeavingStays(r, sess, id);
    case ReleaseA(at, _) => ReleasingStays(r, at, id);
    case GraceExpireA(at, _) => GracedStays(r, at, id);
    case FinishA(sess, mid, forfeit, now) => FinishingStays(r, sess, mid, forfeit, now, id);
    case ForceEndA(mid, _, _) => SweepingStays(r, mid, r.pool.Keys, id);
    case SweepAfkA(mid, now) => SweepingStays(r, mid, SweepSet(r, now), id);
  }

  lemma KickingStays(r: Room, sess: SessionId, player: PlayerId, now: int, id: SeatId)
    requires SeatsOk(r) && id in r.seats
    ensures StaysUnless(r, Kick(r, sess, player, now), id, Goes(r, KickA(sess, player, now), id))
  {
    var found := FindPlayer(r.pool, r.seats, player);
    if found.Some? {
      WithoutSorted(r.pool, r.seats, found.value);
    }
  }

  lemma LeaveAllEmpties(r: Room, now: int)
    requires r.Wf() && r.mtch.None?
    ensures LeaveAll(r, now).seats == [] && LeaveAll(r, now).pool == r.pool && SameLobby(r, LeaveAll(r, now))
    decreases |r.seats|
  {
    if r.seats != [] {
      assert Without(r.seats, r.seats[0]) == r.seats[1..];
      LeaveAllEmpties(LeaveSeat(r, r.seats[0], now), now);
    }
  }

  lemma ReapingStays(r: Room, now: int, id: SeatId)
    requires r.Wf() && r.inMatch == r.mtch.Some? && id in r.seats
    ensures StaysUnless(r, ReapIdle(r, now), id, Goes(r, ReapIdleA(now), id))
  {
    if IdleStateOf(r, now) == Expire {
      LeaveAllEmpties(r, now);
    }
  }

  lemma OthersStay(r: Room, a: Action, id: SeatId)
    requires r.Wf() && Applicable(r, a) && !Resolves(a) && !a.KickA? && !a.ReapIdleA? && !a.TakeSeatA? && id in r.pool
    ensures var r' := Perform(r, a); id in r'.pool && r'.seats == r.seats
  {
    if a.OfConnection() {
      ConnectionRewires(r, a);
    }
  }

  /** A seat of the room is there after an action unless that action removes it, or ends
      the match while the seat has neither a connection nor a grace window. */
  lemma WhoStays(r: Room, a: Action, id: SeatId)
    requires Inv(r) && Legal(r, a) && id in r.seats
    ensures id in Step(r, a).seats <==>
      !Goes(r, a, id) && (Ended(r, Step(r, a)) ==> r.pool[id].sess.Some? || r.pool[id].disconnected)
  {
    TickCore(r, a);
    TickGoes(r, a, id);
    PerformStays(Tick(r, a), a, id);
  }

  lemma TickGoes(r: Room, a: Action, id: SeatId)
    requires r.Wf() && id in r.pool
    ensures Goes(Tick(r, a), a, id) <==> Goes(r, a, id)
  {}

  lemma PerformStays(r: Room, a: Action, id: SeatId)
    requires Inv(r) && Legal(r, a) && id in r.seats
    ensures id in Perform(r, a).seats <==>
      !Goes(r, a, id) && (Ended(r, Perform(r, a)) ==> r.pool[id].sess.Some? || r.pool[id].disconnected)
  {
    InvIsNotDone(r);
    PerformIs(r, a);
    if Resolves(a) {
      ResolvingStays(r, a, id);
      ResolvingLobby(r, a);
      if EndsMatch(r, a) {
        StillOne(r, Pre(r, a));
        EndSeat(Pre(r, a), ReasonOf(a), a.now, id);
        EndKeepsLobby(Pre(r, a), ReasonOf(a), a.now);
      }
    } else {
      NonEndingStays(r, a, id);
    }
  }

  lemma StillOne(r: Room, r1: Room)
    requires Inv(r) && BeforeEnd(r, r1) && AllTerminal(r1)
    ensures r.mtch.Some? && r1.mtch.Some? && !r1.mtch.value.ended
  {}

  lemma NonEndingStays(r: Room, a: Action, id: SeatId)
    requires Inv(r) && Legal(r, a) && !Resolves(a) && id in r.seats
    ensures id in Perform(r, a).seats <==> !Goes(r, a, id)
    ensures !Ended(r, Perform(r, a))
  {
    NonEndingRuns(r, a);
    if a.KickA? {
      KickingStays(r, a.sess, a.player, a.now, id);
    } else if a.ReapIdleA? {
      ReapingStays(r, a.now, id);
    } else if a.TakeSeatA? {
      SeatingStays(r, a, id);
    } else {
      OthersStay(r, a, id);
    }
  }

  lemma SeatingStays(r: Room, a: Action, id: SeatId)
    requires r.Wf() && a.TakeSeatA?
    ensures var r' := Perform(r, a);
      && r'.seats == (if |r.seats| < 5 then r.seats + [a.id] else r.seats) && (id in r.seats ==> id in r'.seats)
      && (|r.seats| < 5 ==> SeatedAs(r, a, r'))
  {}

  lemma NonEndingRuns(r: Room, a: Action)
    requires r.Wf() && Applicable(r, a) && !Resolves(a)
    ensures !Ended(r, Perform(r, a))
  {
    if a.OfConnection() {
      ConnectionRewires(r, a);
    }
  }

  /** The new seat is its taker's, connected, in the lobby and not ready. */
  ghost predicate SeatedAs(r: Room, a: Action, r': Room)
    requires a.TakeSeatA?
  {
    && a.id in r'.pool && r'.nextSeq == r.nextSeq + 1
    && var s := r'.pool[a.id];
    && s.sess == Some(a.sess) && s.playerId == a.player && s.userId == a.user && s.joinSeq == r.nextSeq
    && s.status == NoStatus && !s.ready && !s.disconnected && s.queue == [] && s.backlog == [] && s.pending == []
    && r'.hostId == if a.asHost then Some(a.player) else r.hostId
  }

  /** Whoever is new in the room took a seat while fewer than five were taken, and is last. */
  lemma WhoComes(r: Room, a: Action, id: SeatId)
    requires Inv(r) && Legal(r, a)
    ensures id in Step(r, a).seats && id !in r.seats <==> a.TakeSeatA? && a.id == id && |r.seats| < 5
    ensures a.TakeSeatA? && |r.seats| < 5 ==> Step(r, a).seats == r.seats + [a.id] && SeatedAs(r, a, Step(r, a))
  {
    TickCore(r, a);
    if a.TakeSeatA? {
      SeatingStays(Tick(r, a), a, id);
    } else {
      PerformShrinks(Tick(r, a), a);
    }
  }

  // --- starting a match, settings and the idle clock ---------------------------

  /** The action shows life in the room. */
  ghost predicate Stirs(r: Room, a: Action)
    requires r.Wf()
  {
    match a
    case TakeSeatA(_, _, _, _, _, _) => |r.seats| < 5
    case KickA(sess, player, _) => ByHost(r, sess) && !r.inMatch && Present(r, player) && r.hostId != Some(player)
    case TransferHostA(sess, player, _) => ByHost(r, sess) && !r.inMatch && Present(r, player) && r.hostId != Some(player)
    case ReadyA(sess, value, _) => exists id <- r.seats :: Readies(r, a, id) && r.pool[id].ready != value
    case SettingsA(_, _, _) => Resettles(r, a)
    case StartMatchA(_, _, _, _) => Begins(r, a)
    case RelayA(sess, batch, _, _) => var me := FindSeat(r.pool, r.seats, sess); me.Some? && Acceptable(r, me.value, batch)
    case _ => false
  }

  /** What an action does to the lobby's own fields. */
  ghost predicate Lobbied(r: Room, a: Action, r': Room)
    requires r.Wf()
  {
    && r'.settings == (if Resettles(r, a) then a.settings.(name := SanitizeRoomName(a.settings.name)) else r.settings)
    && (r'.started != r.started <==> Begins(r, a))
    && r'.lastActivityMs == (if Stirs(r, a) then a.now else r.lastActivityMs)
    && (r'.idleWarned <==> !Stirs(r, a) && (r.idleWarned || Warns(r, a)))
  }

  /** The idle warning: an hour less a minute without life, outside a match. */
  ghost predicate Warns(r: Room, a: Action) {
    a.ReapIdleA? && !r.inMatch && 3540000 <= a.now - r.lastActivityMs < 3600000
  }

  lemma SeatingLobbied(r: Room, a: Action)
    requires r.Wf() && a.TakeSeatA?
    ensures Lobbied(r, a, Perform(r, a))
  {}

  lemma KickLobbied(r: Room, a: Action)
    requires r.Wf() && a.KickA?
    ensures Lobbied(r, a, Perform(r, a))
  {}

  lemma TransferLobbied(r: Room, a: Action)
    requires r.Wf() && a.TransferHostA?
    ensures Lobbied(r, a, Perform(r, a))
  {}

  lemma ReadyLobbied(r: Room, a: Action)
    requires r.Wf() && a.ReadyA?
    ensures Lobbied(r, a, Perform(r, a))
  {}

  lemma SettingsLobbied(r: Room, a: Action)
    requires r.Wf() && a.SettingsA?
    ensures Lobbied(r, a, Perform(r, a))
  {}

  lemma StartLobbied(r: Room, a: Action)
    requires r.Wf() && a.StartMatchA?
    ensures Lobbied(r, a, Perform(r, a))
  {
    if Begins(r, a) {
      assert |Perform(r, a).started| == |r.started| + 1;
    }
  }

  lemma RelayLobbied(r: Room, a: Action)
    requires r.Wf() && a.RelayA?
    ensures Lobbied(r, a, Perform(r, a))
  {}

  lemma ReapLobbied(r: Room, a: Action)
    requires r.Wf() && a.ReapIdleA? && r.inMatch == r.mtch.Some?
    ensures Lobbied(r, a, Perform(r, a))
  {
    if IdleStateOf(r, a.now) == Expire {
      LeaveAllEmpties(r, a.now);
    }
  }

  lemma NonEndingLobbied(r: Room, a: Action)
    requires r.Wf() && Applicable(r, a) && !Resolves(a)
    ensures Lobbied(r, a, Perform(r, a))
  {
    match a
    case TakeSeatA(_, _, _, _, _, _) => SeatingLobbied(r, a);
    case KickA(_, _, _) => KickLobbied(r, a);
    case TransferHostA(_, _, _) => TransferLobbied(r, a);
    case ReadyA(_, _, _) => ReadyLobbied(r, a);
    case SettingsA(_, _, _) => SettingsLobbied(r, a);
    case StartMatchA(_, _, _, _) => StartLobbied(r, a);
    case RelayA(_, _, _, _) => RelayLobbied(r, a);
    case ReapIdleA(_) => ReapLobbied(r, a);
    case _ => ConnectionRewires(r, a);
  }

  lemma UnchangedLobbied(r: Room, a: Action, r': Room)
    requires r.Wf() && Resolves(a) && SameLobby(r, r')
    ensures Lobbied(r, a, r')
  {}

  lemma ResolvedLobby(r: Room, a: Action)
    requires Inv(r) && Legal(r, a) && Resolves(a)
    ensures SameLobby(r, Perform(r, a))
  {
    InvIsNotDone(r);
    PerformIs(r, a);
    ResolvingLobby(r, a);
    if EndsMatch(r, a) {
      StillOne(r, Pre(r, a));
      EndKeepsLobby(Pre(r, a), ReasonOf(a), a.now);
    }
  }

  lemma PerformLobbied(r: Room, a: Action)
    requires Inv(r) && Legal(r, a)
    ensures Lobbied(r, a, Perform(r, a))
  {
    if Resolves(a) {
      ResolvedLobby(r, a);
      UnchangedLobbied(r, a, Perform(r, a));
    } else {
      InvIsNotDone(r);
      NonEndingLobbied(r, a);
    }
  }

  lemma TickBegins(r: Room, a: Action)
    requires r.Wf()
    ensures (Begins(Tick(r, a), a) <==> Begins(r, a)) && (Resettles(Tick(r, a), a) <==> Resettles(r, a))
  {}

  lemma TickStirs(r: Room, a: Action)
    requires r.Wf()
    ensures Stirs(Tick(r, a), a) <==> Stirs(r, a)
  {
    var t := Tick(r, a);
    if a.ReadyA? {
      assert forall id <- r.seats :: Readies(t, a, id) <==> Readies(r, a, id);
    } else if a.StartMatchA? || a.SettingsA? {
      TickBegins(r, a);
    } else if a.KickA? || a.TransferHostA? {
      assert Present(t, a.player) <==> Present(r, a.player);
      assert ByHost(t, a.sess) <==> ByHost(r, a.sess);
    }
  }

  lemma TickLobbied(r: Room, a: Action, r': Room)
    requires r.Wf() && (Stirs(Tick(r, a), a) <==> Stirs(r, a))
    requires (Begins(Tick(r, a), a) <==> Begins(r, a)) && (Resettles(Tick(r, a), a) <==> Resettles(r, a))
    ensures Lobbied(Tick(r, a), a, r') <==> Lobbied(r, a, r')
  {}

  /** Settings change exactly when the host sets valid ones outside a match, to those
      with the sanitized name; a match starts exactly on `Begins`; the idle clock is set
      exactly by an action that stirs, and the warning is off from then until the room
      has been silent for fifty-nine minutes. */
  lemma LobbyFollowsItsCommands(r: Room, a: Action)
    requires Inv(r) && Legal(r, a)
    ensures Lobbied(r, a, Step(r, a))
  {
    TickCore(r, a);
    PerformLobbied(Tick(r, a), a);
    TickBegins(r, a);
    TickStirs(r, a);
    TickLobbied(r, a, Step(r, a));
  }

  /** Nothing of an earlier match is left on a seat that begins one. */
  ghost predicate FreshRacer(s: Seat, s': Seat, goAtMs: int) {
    && s' == s.(status := Active, lastSeq := 0, batches := [], eventCount := 0, finishedAtMs := 0, lastBatchMs := goAtMs,
                activeBuckets := 0, lastBucket := -1, disconnected := s'.disconnected, backlog := [])
    && (s'.disconnected <==> s'.sess.None?)
  }

  /** The match that begins: five seconds ahead, on the room's settings, with everybody
      in the room and nobody else; its timer leaves thirty seconds beyond its length. */
  lemma MatchBegins(r: Room, a: Action)
    requires r.Wf() && Begins(r, a)
    ensures var r' := Step(r, a);
      && r'.inMatch && r'.mtch == Some(Match(a.mid, a.now + 5000, r.settings, r.seats, None, false))
      && (forall id <- r.pool :: id in r'.pool && if id in r.seats then FreshRacer(r.pool[id], r'.pool[id], a.now + 5000) else r'.pool[id] == r.pool[id])
      && r'.accepted == [] && r'.seats == r.seats && |r'.started| == |r.started| + 1 && r'.started[..|r.started|] == r.started
      && StartedAs(r, a.mid, r'.started[|r.started|])
  {}

  ghost predicate StartedAs(r: Room, mid: MatchId, s: StartRecord)
    requires r.Wf()
  {
    && s.id == mid && |s.players| == |r.seats|
    && (forall i :: 0 <= i < |r.seats| ==> s.players[i] == r.pool[r.seats[i]].playerId)
    && s.deadlineDelayMs == 35000 +
         if r.settings.mode == "words" || r.settings.mode == "quote" then 3000 * r.settings.wordCount else r.settings.durationMs
  }

  /** The host passes its role to anybody in the room, outside a match; nobody else does. */
  lemma HostPassesItsRole(r: Room, a: Action)
    requires r.Wf() && a.TransferHostA?
    ensures Step(r, a).hostId ==
      if ByHost(r, a.sess) && !r.inMatch && Present(r, a.player) then Some(a.player) else r.hostId
  {
    assert Present(Tick(r, a), a.player) <==> Present(r, a.player);
  }

  // --- ready flags -------------------------------------------------------------

  /** The ready flag of a seat that is in the room after an action. */
  ghost predicate ReadyAfter(r: Room, a: Action, id: SeatId, ended: bool, ready: bool)
    requires r.Wf() && id in r.pool
  {
    ready <==> !ended && if Readies(r, a, id) then a.value else r.pool[id].ready && !Resettles(r, a)
  }

  lemma CommandReadies(r: Room, a: Action, id: SeatId)
    requires r.Wf() && id in r.seats && (a.ReadyA? || a.SettingsA?)
    ensures var r' := Perform(r, a); id in r'.pool && ReadyAfter(r, a, id, false, r'.pool[id].ready)
  {}

  lemma OtherReadies(r: Room, a: Action, id: SeatId)
    requires r.Wf() && id in r.seats && (a.KickA? || a.TransferHostA? || a.StartMatchA? || (a.TakeSeatA? && a.id !in r.pool))
    ensures var r' := Perform(r, a); id in r'.pool && r'.pool[id].ready == r.pool[id].ready
  {}

  lemma RelayReadies(r: Room, a: Action, id: SeatId)
    requires r.Wf() && id in r.seats && a.RelayA?
    ensures var r' := Perform(r, a); id in r'.pool && r'.pool[id].ready == r.pool[id].ready
  {}

  lemma NonEndingReadies(r: Room, a: Action, id: SeatId)
    requires Inv(r) && Legal(r, a) && !Resolves(a) && id in r.seats
    ensures var r' := Perform(r, a); id in r'.pool && ReadyAfter(r, a, id, false, r'.pool[id].ready)
  {
    if a.ReadyA? || a.SettingsA? {
      CommandReadies(r, a, id);
    } else if a.ReapIdleA? {
      ReapingStays(r, a.now, id);
    } else if a.RelayA? {
      RelayReadies(r, a, id);
    } else if a.OfConnection() {
      ConnectionRewires(r, a);
      assert Rewired(r.pool[id], Perform(r, a).pool[id]);
    } else {
      OtherReadies(r, a, id);
    }
  }

  lemma PerformReadies(r: Room, a: Action, id: SeatId)
    requires Inv(r) && Legal(r, a) && id in r.seats && id in Perform(r, a).seats
    ensures ReadyAfter(r, a, id, Ended(r, Perform(r, a)), Perform(r, a).pool[id].ready)
  {
    InvIsNotDone(r);
    PerformIs(r, a);
    if Resolves(a) {
      ResolvingStays(r, a, id);
      ResolvingLobby(r, a);
      if EndsMatch(r, a) {
        StillOne(r, Pre(r, a));
        EndSeat(Pre(r, a), ReasonOf(a), a.now, id);
        EndKeepsLobby(Pre(r, a), ReasonOf(a), a.now);
      }
    } else {
      NonEndingRuns(r, a);
      NonEndingReadies(r, a, id);
    }
  }

  /** A seat is ready after an action exactly when its holder said so last: new settings
      and the end of a match clear the flag, and nothing else changes it. */
  lemma ReadyIsWhatItsHolderSaid(r: Room, a: Action, id: SeatId)
    requires Inv(r) && Legal(r, a) && id in r.seats && id in Step(r, a).seats
    ensures ReadyAfter(r, a, id, Ended(r, Step(r, a)), Step(r, a).pool[id].ready)
  {
    TickCore(r, a);
    PerformReadies(Tick(r, a), a, id);
  }

  // --- what the end record tells -----------------------------------------------

  /** Place `i` of the record, from what its seat captured: the seconds of its window
      without a batch, and their share of the window. */
  ghost predicate TellsIdle(e: EndRecord, i: nat, goAtMs: int, endMs: int)
    requires i < |e.results| && i < |e.runs|
  {
    var x := e.results[i];
    var n := (endMs - goAtMs) / 1000;
    var idle := n - |Buckets(goAtMs, e.runs[i].batches)|;
    && (endMs - goAtMs < 1000 ==> x.afkMs == 0 && x.afkShare == 0.0)
    && (endMs - goAtMs >= 1000 && idle >= 0 ==> x.afkMs == 1000 * idle && x.afkShare * n as real == idle as real)
    && (endMs - goAtMs >= 1000 && idle < 0 ==> x.afkMs == 0 && x.afkShare == 0.0)
  }

  /** A finisher's window ends where it finished, everybody else's with the match. */
  function WindowEnd(x: MatchResult, now: int): (endMs: int) {
    if x.finishedAtMs.Some? && x.finishedAtMs.value > 0 then x.finishedAtMs.value else now
  }

  lemma AfkTells(s: Seat, goAtMs: int, endMs: int)
    requires s.activeBuckets == |Buckets(goAtMs, s.batches)|
    ensures var (afkMs, share) := AfkAt(s, goAtMs, endMs); var n := (endMs - goAtMs) / 1000;
      var idle := n - |Buckets(goAtMs, s.batches)|;
      && (endMs - goAtMs < 1000 ==> afkMs == 0 && share == 0.0)
      && (endMs - goAtMs >= 1000 && idle >= 0 ==> afkMs == 1000 * idle && share * n as real == idle as real)
      && (endMs - goAtMs >= 1000 && idle < 0 ==> afkMs == 0 && share == 0.0)
  {
    if endMs - goAtMs >= 1000 {
      var n := (endMs - goAtMs) / 1000;
      assert n > 0;
      var idle := if n - s.activeBuckets < 0 then 0 else n - s.activeBuckets;
      assert AfkAt(s, goAtMs, endMs) == (idle * 1000, idle as real / n as real);
      assert (idle as real / n as real) * n as real == idle as real;
    } else {
      assert TruncDiv(endMs - goAtMs, 1000) <= 0;
    }
  }

  /** The places of the record as they would be told of the room before the action. */
  lemma PlaceTells(r: Room, r1: Room, reason: Reason, now: int, i: nat)
    requires CaptureKept(r, r1) && RosterOk(r) && r.mtch.Some? && i < |r.mtch.value.roster|
    ensures var m := r.mtch.value; var e := EndRecordOf(r1, r1.mtch.value, reason, now);
      && e.id == m.id && e.reason == reason && |e.results| == |e.runs| == |m.roster|
      && TellsIdle(e, i, m.goAtMs, WindowEnd(e.results[i], now))
      && e.runs[i].userId == r.pool[m.roster[i]].userId && e.runs[i].batches == r.pool[m.roster[i]].batches
  {
    var m, id := r.mtch.value, r.mtch.value.roster[i];
    var s := r1.pool[id];
    assert AfkOk(m.goAtMs, r.pool[id]) && SameCapture(r.pool[id], s);
    AfkTells(s, m.goAtMs, WindowEnd(ResultOf(s, m.goAtMs, now), now));
  }

  lemma EndAppends(r: Room, reason: Reason, now: int)
    requires r.Wf() && r.mtch.Some? && !r.mtch.value.ended
    ensures EndMatch(r, reason, now).ends == r.ends + [EndRecordOf(r, r.mtch.value, reason, now)]
  {}

  lemma PerformTells(r: Room, a: Action, i: nat)
    requires Inv(r) && Legal(r, a) && r.mtch.Some? && i < |r.mtch.value.roster| && Perform(r, a).ends != r.ends
    ensures RecordTells(r, a, Perform(r, a), i)
  {
    InvIsNotDone(r);
    PerformIs(r, a);
    if Resolves(a) {
      ResolvingKept(r, a);
      if EndsMatch(r, a) {
        EndAppends(Pre(r, a), ReasonOf(a), a.now);
        PlaceTells(r, Pre(r, a), ReasonOf(a), a.now, i);
      }
    } else {
      PreNoMore(r, a);
    }
  }

  /** The action has added one record of the running match, for the reason its timer
      names or because all are done, and place `i` tells what its seat captured. */
  ghost predicate RecordTells(r: Room, a: Action, r': Room, i: nat)
    requires r.Wf() && r.mtch.Some? && i < |r.mtch.value.roster|
  {
    && a.Timed() && |r'.ends| == |r.ends| + 1 && r'.ends[..|r.ends|] == r.ends
    && var e, m := r'.ends[|r.ends|], r.mtch.value;
    && e.id == m.id && e.reason == (if a.ForceEndA? then a.reason else AllFinished) && |e.results| == |e.runs| == |m.roster|
    && TellsIdle(e, i, m.goAtMs, WindowEnd(e.results[i], a.now))
    && e.runs[i].userId == r.pool[m.roster[i]].userId && e.runs[i].batches == r.pool[m.roster[i]].batches
  }

  /** Whenever an action adds an end record, it tells of every roster player what was
      captured of it, and the idle time that the capture shows. */
  lemma EndRecordTells(r: Room, a: Action, i: nat)
    requires Inv(r) && Legal(r, a) && r.mtch.Some? && i < |r.mtch.value.roster| && Step(r, a).ends != r.ends
    ensures RecordTells(r, a, Step(r, a), i)
  {
    TickCore(r, a);
    PerformTells(Tick(r, a), a, i);
  }

  // --- connections -------------------------------------------------------------

  /** The connection of seat `id` after an action: a bind gives one to a seat that has
      lost its own; a takeover, a socket drop and leaving a race take it away. */
  ghost function SessAfter(r: Room, a: Action, id: SeatId): (sess: Option<SessionId>)
    requires r.Wf() && id in r.pool
  {
    var s := r.pool[id];
    match a
    case BindA(at, sess) => if at == id && s.disconnected && Present(r, s.playerId) then Some(sess) else s.sess
    case DetachA(at) => if at == id && Present(r, s.playerId) then None else s.sess
    case DisconnectA(sess) => if FindSeat(r.pool, r.seats, sess) == Some(id) then None else s.sess
    case LeaveA(sess, _) => if FindSeat(r.pool, r.seats, sess) == Some(id) && Racing(r, id) then None else s.sess
    case _ => s.sess
  }

  /** Whether it is in its grace window: a takeover and a drop open the window, a drain
      with nothing left and its expiry close it, a start sets it to what the seat is. */
  ghost predicate GracedAfter(r: Room, a: Action, id: SeatId)
    requires r.Wf() && id in r.pool
  {
    var s := r.pool[id];
    match a
    case DetachA(at) => s.disconnected || (at == id && Present(r, s.playerId) && s.sess.Some?)
    case DisconnectA(sess) => s.disconnected || FindSeat(r.pool, r.seats, sess) == Some(id)
    case DrainTurnA(at, _) => s.disconnected && !(at == id && s.drain.Some? && s.pending == [] && s.backlog == [])
    case GraceExpireA(at, _) => s.disconnected && !(at == id && s.sess.None? && Present(r, s.playerId) && !Racing(r, id))
    case StartMatchA(_, _, _, _) => if Begins(r, a) && id in r.seats then s.sess.None? else s.disconnected
    case _ => s.disconnected
  }

  ghost predicate Linked(r: Room, a: Action, id: SeatId, r': Room)
    requires r.Wf() && id in r.pool
  {
    id in r'.pool && r'.pool[id].sess == SessAfter(r, a, id) && (r'.pool[id].disconnected <==> GracedAfter(r, a, id))
  }

  lemma EndLinks(r: Room, reason: Reason, now: int, id: SeatId)
    requires r.Wf() && r.mtch.Some? && !r.mtch.value.ended && id in r.pool
    ensures var r' := EndMatch(r, reason, now);
      id in r'.pool && r'.pool[id].sess == r.pool[id].sess && r'.pool[id].disconnected == r.pool[id].disconnected
  {}

  lemma DepartedLinks(r: Room, at: SeatId, id: SeatId)
    requires r.Wf() && id in r.pool && at in r.pool
    ensures var s, r' := r.pool[id], Departed(r, at);
      id in r'.pool && r'.pool[id] == if at == id && Racing(r, id) then s.(status := Left, sess := None) else s
  {}

  lemma LeavingLinks(r: Room, a: Action, id: SeatId)
    requires r.Wf() && id in r.pool && a.LeaveA?
    ensures Linked(r, a, id, Leaving(r, a.sess))
  {
    var found := FindSeat(r.pool, r.seats, a.sess);
    if found.Some? {
      DepartedLinks(r, found.value, id);
    }
  }

  lemma ReleasingLinks(r: Room, a: Action, id: SeatId)
    requires r.Wf() && id in r.pool && Applicable(r, a) && a.ReleaseA?
    ensures Linked(r, a, id, Releasing(r, a.id))
  {
    DepartedLinks(r, a.id, id);
  }

  lemma GracedLinks(r: Room, a: Action, id: SeatId)
    requires r.Wf() && id in r.pool && Applicable(r, a) && a.GraceExpireA?
    ensures Linked(r, a, id, Pre(r, a))
  {}

  lemma FinishingLinks(r: Room, a: Action, id: SeatId)
    requires r.Wf() && id in r.pool && a.FinishA?
    ensures Linked(r, a, id, Finishing(r, a.sess, a.mid, a.forfeit, a.now))
  {}

  lemma SweepingLinks(r: Room, mid: MatchId, out: set<SeatId>, id: SeatId)
    requires r.Wf() && id in r.pool
    ensures var s, r' := r.pool[id], Sweeping(r, mid, out);
      id in r'.pool && (r'.pool[id] == s || r'.pool[id] == s.(status := Dnf))
  {}

  lemma ResolvingLinks(r: Room, a: Action, id: SeatId)
    requires r.Wf() && id in r.pool && Applicable(r, a) && Resolves(a)
    ensures Linked(r, a, id, Pre(r, a))
  {
    match a
    case LeaveA(_, _) => LeavingLinks(r, a, id);
    case ReleaseA(_, _) => ReleasingLinks(r, a, id);
    case GraceExpireA(_, _) => GracedLinks(r, a, id);
    case FinishA(_, _, _, _) => FinishingLinks(r, a, id);
    case ForceEndA(mid, _, _) => SweepingLinks(r, mid, r.pool.Keys, id);
    case SweepAfkA(mid, now) => SweepingLinks(r, mid, SweepSet(r, now), id);
  }

  lemma ResolvedLinks(r: Room, a: Action, id: SeatId)
    requires Inv(r) && Legal(r, a) && Resolves(a) && id in r.pool
    ensures Linked(r, a, id, Perform(r, a))
  {
    InvIsNotDone(r);
    PerformIs(r, a);
    ResolvingLobby(r, a);
    ResolvingLinks(r, a, id);
    if EndsMatch(r, a) {
      StillOne(r, Pre(r, a));
      EndLinks(Pre(r, a), ReasonOf(a), a.now, id);
    }
  }

  lemma ParkLinks(r: Room, a: Action, id: SeatId)
    requires r.Wf() && id in r.pool && Applicable(r, a) && (a.DetachA? || a.DisconnectA? || a.BindA?)
    ensures Linked(r, a, id, Perform(r, a))
  {}

  lemma DrainLinks(r: Room, a: Action, id: SeatId)
    requires r.Wf() && id in r.pool && Applicable(r, a) && (a.DrainTurnA? || a.SendPendingA? || a.AbandonDrainA?)
    ensures Linked(r, a, id, Perform(r, a))
  {}

  lemma CommandLinks(r: Room, a: Action, id: SeatId)
    requires r.Wf() && id in r.pool && (a.KickA? || a.TransferHostA? || a.ReadyA? || a.SettingsA?)
    ensures Linked(r, a, id, Perform(r, a))
  {}

  lemma RaceLinks(r: Room, a: Action, id: SeatId)
    requires r.Wf() && id in r.pool && (a.StartMatchA? || a.RelayA? || (a.TakeSeatA? && a.id !in r.pool))
    ensures Linked(r, a, id, Perform(r, a))
  {}

  lemma ReapLinks(r: Room, a: Action, id: SeatId)
    requires r.Wf() && id in r.pool && Applicable(r, a) && a.ReapIdleA?
    ensures Linked(r, a, id, Perform(r, a))
  {
    if IdleStateOf(r, a.now) == Expire {
      LeaveAllEmpties(r, a.now);
    }
  }

  lemma PerformLinks(r: Room, a: Action, id: SeatId)
    requires Inv(r) && Legal(r, a) && id in r.pool
    ensures Linked(r, a, id, Perform(r, a))
  {
    if Resolves(a) {
      ResolvedLinks(r, a, id);
    } else if a.DetachA? || a.DisconnectA? || a.BindA? {
      ParkLinks(r, a, id);
    } else if a.OfConnection() {
      DrainLinks(r, a, id);
    } else if a.StartMatchA? || a.RelayA? || a.TakeSeatA? {
      RaceLinks(r, a, id);
    } else if a.ReapIdleA? {
      ReapLinks(r, a, id);
    } else {
      CommandLinks(r, a, id);
    }
  }

  lemma TickLinks(r: Room, a: Action, id: SeatId, r': Room)
    requires r.Wf() && id in r.pool
    ensures Linked(Tick(r, a), a, id, r') <==> Linked(r, a, id, r')
  {}

  /** Who holds a seat, and whether it is in its grace window, after any action. */
  lemma ConnectionsFollowTheirSections(r: Room, a: Action, id: SeatId)
    requires Inv(r) && Legal(r, a) && id in r.pool
    ensures Linked(r, a, id, Step(r, a))
  {
    TickCore(r, a);
    PerformLinks(Tick(r, a), a, id);
    TickLinks(r, a, id, Step(r, a));
  }
}
