/** Every legal action keeps the room invariant. */
module RoomPreservation {
  import opened RoomTypes
  import opened RoomSettings
  import opened RoomSteps
  import opened RoomActions
  import opened RoomInvariant

  // --- building blocks ---------------------------------------------------

  /** A change of one seat that is at most a resolution: identity and capture
      stay, an active seat may become terminal, and frames are of known matches. */
  ghost predicate Mild(r: Room, s: Seat, s': Seat) {
    && s'.playerId == s.playerId && s'.userId == s.userId && s'.joinSeq == s.joinSeq
    && (s'.status == s.status || (s.status == Active && s'.status in {Finished, Dnf, Left}))
    && s'.lastSeq == s.lastSeq && s'.batches == s.batches && s'.eventCount == s.eventCount
    && s'.activeBuckets == s.activeBuckets && s'.lastBucket == s.lastBucket
    && (s'.lastBatchMs == s.lastBatchMs || s'.lastBatchMs == r.clock)
    && (forall f :: f in s'.queue || f in s'.pending || f in s'.backlog ==> f.matchId in StartedIds(r))
  }

  ghost predicate MildPool(r: Room, pool: map<SeatId, Seat>) {
    pool.Keys == r.pool.Keys && forall id <- r.pool :: Mild(r, r.pool[id], pool[id])
  }

  lemma MildSeats(r: Room, pool: map<SeatId, Seat>)
    requires SeatsOk(r) && MildPool(r, pool)
    ensures SeatsOk(r.(pool := pool))
  {}

  lemma MildHost(r: Room, pool: map<SeatId, Seat>)
    requires r.Wf() && HostOk(r) && MildPool(r, pool)
    ensures HostOk(r.(pool := pool))
  {
    if r.hostId.Some? {
      var id :| id in r.seats && r.pool[id].playerId == r.hostId.value;
      assert pool[id].playerId == r.hostId.value;
    }
  }

  lemma MildStatus(r: Room, pool: map<SeatId, Seat>)
    requires r.Wf() && StatusOk(r) && MildPool(r, pool)
    ensures StatusOk(r.(pool := pool))
  {}

  lemma MildRoster(r: Room, pool: map<SeatId, Seat>)
    requires r.Wf() && RosterOk(r) && MildPool(r, pool)
    ensures RosterOk(r.(pool := pool))
  {}

  lemma MildLogs(r: Room, pool: map<SeatId, Seat>)
    requires r.Wf() && LogsOk(r) && MildPool(r, pool)
    ensures LogsOk(r.(pool := pool)) && TagsOk(r.(pool := pool))
  {}

  lemma MildCore(r: Room, pool: map<SeatId, Seat>)
    requires Core(r) && MildPool(r, pool)
    ensures Core(r.(pool := pool))
    ensures HasRacer(r) && (forall id <- r.pool :: pool[id].status == r.pool[id].status) ==> HasRacer(r.(pool := pool))
  {
    MildSeats(r, pool);
    MildHost(r, pool);
    MildStatus(r, pool);
    MildRoster(r, pool);
    MildLogs(r, pool);
  }

  lemma PutCore(r: Room, id: SeatId, s: Seat)
    requires Core(r) && id in r.pool && Mild(r, r.pool[id], s)
    ensures Core(Put(r, id, s))
    ensures HasRacer(r) && s.status == r.pool[id].status ==> HasRacer(Put(r, id, s))
  {
    forall x | x in r.pool ensures Mild(r, r.pool[x], r.pool[x]) {
      assert forall f :: f in r.pool[x].queue || f in r.pool[x].pending || f in r.pool[x].backlog ==> f.matchId in StartedIds(r);
    }
    MildCore(r, r.pool[id := s]);
  }

  /** Dropping seats that are not racing, with the host role kept in order. */
  lemma FewerCore(r: Room, seats: seq<SeatId>, host: Option<PlayerId>)
    requires Core(r)
    requires Sorted(r.pool, seats) && |seats| <= |r.seats| && forall x <- seats :: x in r.seats
    requires forall id <- r.seats :: r.pool[id].status == Active ==> id in seats
    requires HostOk(r.(seats := seats, hostId := host))
    ensures Core(r.(seats := seats, hostId := host))
  {
    var r' := r.(seats := seats, hostId := host);
    assert SeatsOk(r');
    assert StatusOk(r');
    assert RosterOk(r') && LogsOk(r');
  }

  lemma DepartHost(r: Room, id: SeatId)
    requires SeatsOk(r) && HostOk(r) && id in r.pool
    ensures HostOk(Depart(r, id))
  {
    WithoutSorted(r.pool, r.seats, id);
    if r.hostId.Some? && r.hostId != Some(r.pool[id].playerId) {
      var h :| h in r.seats && r.pool[h].playerId == r.hostId.value;
      assert h in Depart(r, id).seats;
    }
  }

  lemma DepartCore(r: Room, id: SeatId)
    requires Core(r) && id in r.pool && r.pool[id].status != Active
    ensures Core(Depart(r, id))
    ensures HasRacer(r) ==> HasRacer(Depart(r, id))
  {
    WithoutSorted(r.pool, r.seats, id);
    DepartHost(r, id);
    var r' := Depart(r, id);
    assert r' == r.(seats := r'.seats, hostId := r'.hostId);
    FewerCore(r, r'.seats, r'.hostId);
  }

  /** A seat is resolved, or only touched, and leaves the room. */
  lemma PutDepartCore(r: Room, id: SeatId, s: Seat)
    requires Core(r) && id in r.pool && Mild(r, r.pool[id], s) && s.status != Active
    ensures Core(Depart(Put(r, id, s), id))
  {
    PutCore(r, id, s);
    DepartCore(Put(r, id, s), id);
  }

  lemma TickCore(r: Room, a: Action)
    requires Inv(r) && Legal(r, a)
    ensures Inv(Tick(r, a)) && Legal(Tick(r, a), a)
  {}

  // --- the end of a match ------------------------------------------------

  lemma AfkShareBounds(s: Seat, goAtMs: int, endMs: int)
    requires s.activeBuckets >= 0
    ensures 0.0 <= AfkAt(s, goAtMs, endMs).1 <= 1.0
  {
    var buckets := TruncDiv(endMs - goAtMs, AFK_BUCKET_MS);
    if buckets > 0 {
      var idle := if buckets - s.activeBuckets < 0 then 0 else buckets - s.activeBuckets;
      QuotientBounds(idle as real, buckets as real);
    }
  }

  lemma QuotientBounds(a: real, b: real)
    requires 0.0 <= a <= b && b > 0.0
    ensures 0.0 <= a / b <= 1.0
  {}

  lemma EndRecordAgrees(r: Room, reason: Reason, now: int)
    requires Core(r) && AllTerminal(r)
    ensures Agrees(r.started[|r.ends|], EndRecordOf(r, r.mtch.value, reason, now))
  {
    var m := r.mtch.value;
    var e := EndRecordOf(r, m, reason, now);
    forall i | 0 <= i < |m.roster|
      ensures e.results[i].status == r.pool[m.roster[i]].status && e.results[i].status in {Finished, Dnf, Left}
      ensures CaptureOk(e.runs[i].batches, e.results[i].batchCount, e.results[i].eventCount)
      ensures 0.0 <= e.results[i].afkShare <= 1.0
    {
      var s := r.pool[m.roster[i]];
      assert m.roster[i] in m.roster;
      AfkShareBounds(s, m.goAtMs, if s.status == Finished && s.finishedAtMs > 0 then s.finishedAtMs else now);
    }
  }

  /** What the end of a match leaves of one seat. */
  lemma EndedSeatIs(r: Room, m: Match, id: SeatId)
    requires r.Wf() && id in r.pool
    ensures var s, s' := r.pool[id], EndedPool(r, m)[id];
      && s'.playerId == s.playerId && s'.userId == s.userId && s'.joinSeq == s.joinSeq
      && s'.sess == s.sess && s'.disconnected == s.disconnected
      && s'.drain == s.drain && s'.pending == s.pending
      && (id in r.seats ==> s'.status == NoStatus)
      && (id !in r.seats ==> s'.status == s.status)
      && (forall f :: f in s'.queue || f in s'.pending || f in s'.backlog ==>
            f in s.queue || f in s.pending || f in s.backlog || f == MatchEndFrame(m.id))
  {}

  lemma EndMatchLogs(r: Room, reason: Reason, now: int)
    requires Core(r) && AllTerminal(r)
    ensures LogsOk(EndMatch(r, reason, now))
  {
    EndRecordAgrees(r, reason, now);
    var r' := EndMatch(r, reason, now);
    assert r'.started == r.started && r'.mtch.None?;
    assert r'.ends == r.ends + [EndRecordOf(r, r.mtch.value, reason, now)];
  }

  lemma EndMatchTags(r: Room, reason: Reason, now: int)
    requires r.Wf() && LogsOk(r) && TagsOk(r) && StatusOk(r) && AllTerminal(r)
    ensures TagsOk(EndMatch(r, reason, now))
  {
    var r' := EndMatch(r, reason, now);
    assert r'.started == r.started && r'.pool == EndedPool(r, r.mtch.value);
    assert r.mtch.value.id in StartedIds(r) by {
      assert r.started[|r.ends|] in r.started;
    }
    forall id | id in r'.pool
      ensures forall f :: f in r'.pool[id].queue || f in r'.pool[id].pending || f in r'.pool[id].backlog ==> f.matchId in StartedIds(r)
    {
      EndedSeatIs(r, r.mtch.value, id);
    }
  }

  lemma FewerSeatsOk(r: Room, r': Room)
    requires SeatsOk(r) && r'.Wf() && r'.pool.Keys == r.pool.Keys && r'.nextSeq == r.nextSeq
    requires forall id <- r.pool ::
      r'.pool[id].joinSeq == r.pool[id].joinSeq && r'.pool[id].playerId == r.pool[id].playerId
    requires Sorted(r'.pool, r'.seats) && |r'.seats| <= |r.seats| && forall x <- r'.seats :: x in r.seats
    ensures SeatsOk(r')
  {}

  lemma BackToLobbySeats(r: Room, m: Match, reason: Reason, now: int)
    requires SeatsOk(r) && r.mtch == Some(m)
    ensures SeatsOk(BackToLobby(r, m, reason, now))
  {
    var pool := EndedPool(r, m);
    forall id | id in r.pool
      ensures pool[id].joinSeq == r.pool[id].joinSeq && pool[id].playerId == r.pool[id].playerId
    {
      EndedSeatIs(r, m, id);
    }
    SurvivorsSorted(pool, r.seats);
    FewerSeatsOk(r, BackToLobby(r, m, reason, now));
  }

  lemma EndMatchSeats(r: Room, reason: Reason, now: int)
    requires SeatsOk(r) && StatusOk(r) && AllTerminal(r)
    ensures SeatsOk(EndMatch(r, reason, now))
  {
    BackToLobbySeats(r, r.mtch.value, reason, now);
  }

  lemma EndMatchHost(r: Room, reason: Reason, now: int)
    requires r.Wf() && StatusOk(r) && AllTerminal(r)
    ensures HostOk(EndMatch(r, reason, now))
  {
    var r' := EndMatch(r, reason, now);
    if r'.hostId.Some? && r'.hostId != r.hostId {
      assert r'.seats[0] in r'.seats && r'.pool[r'.seats[0]].playerId == r'.hostId.value;
    }
  }

  lemma EndMatchStatus(r: Room, reason: Reason, now: int)
    requires r.Wf() && StatusOk(r) && AllTerminal(r)
    ensures StatusOk(EndMatch(r, reason, now))
  {
    var m := r.mtch.value;
    var r' := EndMatch(r, reason, now);
    assert r'.pool == EndedPool(r, m) && r'.mtch.None? && !r'.inMatch;
    assert forall id <- r'.seats :: id in r.seats;
    forall id | id in r'.pool
      ensures r'.pool[id].status != Active && (id in r'.seats ==> r'.pool[id].status == NoStatus)
    {
      EndedSeatIs(r, m, id);
    }
  }

  lemma EndMatchInv(r: Room, reason: Reason, now: int)
    requires Core(r) && AllTerminal(r)
    ensures Inv(EndMatch(r, reason, now))
    ensures EndMatch(r, reason, now).mtch.None?
  {
    EndMatchSeats(r, reason, now);
    EndMatchHost(r, reason, now);
    EndMatchStatus(r, reason, now);
    EndMatchLogs(r, reason, now);
    EndMatchTags(r, reason, now);
  }

  lemma EndIfDoneInv(r: Room, now: int)
    requires Core(r)
    ensures Inv(EndIfDone(r, now))
  {
    if AllTerminal(r) {
      EndMatchInv(r, AllFinished, now);
    }
  }

  lemma DnfWhereCore(r: Room, out: set<SeatId>)
    requires Core(r)
    ensures Core(DnfWhere(r, out))
  {
    forall x | x in r.pool ensures Mild(r, r.pool[x], DnfWhere(r, out).pool[x]) {
      assert forall f :: f in r.pool[x].queue || f in r.pool[x].pending || f in r.pool[x].backlog ==> f.matchId in StartedIds(r);
    }
    MildCore(r, DnfWhere(r, out).pool);
  }

  // --- membership actions ------------------------------------------------

  lemma LeaveSeatInv(r: Room, id: SeatId, now: int)
    requires Inv(r) && id in r.pool
    ensures Inv(LeaveSeat(r, id, now))
  {
    if Racing(r, id) {
      var s := r.pool[id].(status := Left, sess := None);
      PutCore(r, id, s);
      DepartCore(Put(r, id, s), id);
      EndIfDoneInv(Depart(Put(r, id, s), id), now);
    } else {
      DepartCore(r, id);
      EndIfDoneInv(Depart(r, id), now);
    }
  }

  lemma GraceExpireInv(r: Room, id: SeatId, now: int)
    requires Inv(r) && id in r.pool
    ensures Inv(GraceExpire(r, id, now))
  {
    var s := r.pool[id];
    if s.sess.Some? || !s.disconnected || !Present(r, s.playerId) {
    } else if Racing(r, id) {
      PutCore(r, id, s.(status := Dnf));
      DepartCore(Put(r, id, s.(status := Dnf)), id);
      EndIfDoneInv(Depart(Put(r, id, s.(status := Dnf)), id), now);
    } else {
      PutCore(r, id, s.(disconnected := false));
      DepartCore(Put(r, id, s.(disconnected := false)), id);
    }
  }

  lemma KickInv(r: Room, sess: SessionId, target: PlayerId, now: int)
    requires Inv(r)
    ensures Inv(Kick(r, sess, target, now))
  {
    var r' := Kick(r, sess, target, now);
    var hit := FindPlayer(r.pool, r.seats, target);
    if r' != r && hit.Some? {
      WithoutSorted(r.pool, r.seats, hit.value);
      FewerCore(r, Without(r.seats, hit.value), r.hostId);
    }
  }

  /** `r'` is `r` with one more seat, still without a status, at the end. */
  ghost predicate OneMore(r: Room, r': Room, id: SeatId) {
    && r.Wf() && id !in r.pool && r'.pool.Keys == r.pool.Keys + {id}
    && (forall x <- r.pool :: r'.pool[x] == r.pool[x])
    && r'.seats == r.seats + [id] && r'.nextSeq == r.nextSeq + 1
    && r'.pool[id].joinSeq == r.nextSeq && r'.pool[id].status == NoStatus
    && r'.pool[id].queue == r'.pool[id].pending == r'.pool[id].backlog == []
    && r'.mtch == r.mtch && r'.inMatch == r.inMatch && r'.clock == r.clock
    && r'.started == r.started && r'.ends == r.ends && r'.settings == r.settings
  }

  lemma OneMoreSeats(r: Room, r': Room, id: SeatId)
    requires OneMore(r, r', id) && SeatsOk(r) && |r.seats| < ROOM_CAPACITY
    requires !Present(r, r'.pool[id].playerId)
    ensures SeatsOk(r')
  {}

  lemma OneMoreStatus(r: Room, r': Room, id: SeatId)
    requires OneMore(r, r', id) && StatusOk(r) && HasRacer(r)
    ensures StatusOk(r') && HasRacer(r')
  {
    if r.mtch.Some? {
      var x :| x in r.mtch.value.roster && r.pool[x].status == Active;
      assert r'.pool[x].status == Active;
    }
  }

  lemma OneMoreRest(r: Room, r': Room, id: SeatId)
    requires OneMore(r, r', id) && RosterOk(r) && LogsOk(r) && TagsOk(r)
    ensures r'.Wf() && RosterOk(r') && LogsOk(r') && TagsOk(r')
  {}

  lemma TakeSeatInv(r: Room, id: SeatId, sess: SessionId, p: PlayerId, u: UserId, asHost: bool, now: int)
    requires Inv(r) && id !in r.pool && !Present(r, p)
    ensures Inv(TakeSeat(r, id, sess, p, u, asHost, now))
  {
    var r' := TakeSeat(r, id, sess, p, u, asHost, now);
    if |r.seats| < ROOM_CAPACITY {
      OneMoreSeats(r, r', id);
      OneMoreStatus(r, r', id);
      OneMoreRest(r, r', id);
      assert HostOk(r') by {
        assert r'.seats[|r.seats|] == id;
        assert forall x <- r.seats :: x in r'.seats;
      }
    }
  }

  lemma UnreadyMild(r: Room, x: SeatId)
    requires TagsOk(r) && x in r.pool
    ensures Mild(r, r.pool[x], r.pool[x]) && Mild(r, r.pool[x], r.pool[x].(ready := false))
  {
    assert forall f :: f in r.pool[x].queue || f in r.pool[x].pending || f in r.pool[x].backlog ==> f.matchId in StartedIds(r);
  }

  lemma NewSettingsInv(r: Room, ns: Settings, now: int)
    requires Inv(r) && ValidSettings(ns)
    ensures Inv(Touch(r.(settings := ns), now))
  {}

  function Unready(r: Room): (pool: map<SeatId, Seat>)
    requires r.Wf()
  {
    map id | id in r.pool :: if id in r.seats then r.pool[id].(ready := false) else r.pool[id]
  }

  lemma UnreadyInv(r: Room)
    requires Inv(r)
    ensures Inv(r.(pool := Unready(r)))
  {
    forall x | x in r.pool ensures Mild(r, r.pool[x], Unready(r)[x]) {
      UnreadyMild(r, x);
    }
    MildCore(r, Unready(r));
  }

  lemma SettingsInv(r: Room, sess: SessionId, ns: Settings, now: int)
    requires Inv(r)
    ensures Inv(UpdateSettings(r, sess, ns, now))
  {
    var clean := ns.(name := SanitizeRoomName(ns.name));
    var r' := UpdateSettings(r, sess, ns, now);
    if r' != r {
      assert ValidSettings(clean) && r' == Touch(r.(pool := Unready(r)).(settings := clean), now);
      UnreadyInv(r);
      NewSettingsInv(r.(pool := Unready(r)), clean, now);
    }
  }

  lemma LeaveAllInv(r: Room, now: int)
    requires Inv(r) && r.mtch.None?
    ensures Inv(LeaveAll(r, now)) && LeaveAll(r, now).seats == [] && LeaveAll(r, now).mtch.None?
    decreases |r.seats|
  {
    if r.seats != [] {
      assert Without(r.seats, r.seats[0]) == r.seats[1..];
      LeaveSeatInv(r, r.seats[0], now);
      LeaveAllInv(LeaveSeat(r, r.seats[0], now), now);
    }
  }

  // --- reconnect actions -------------------------------------------------

  lemma PutInv(r: Room, id: SeatId, s: Seat)
    requires Inv(r) && id in r.pool && Mild(r, r.pool[id], s) && s.status == r.pool[id].status
    ensures Inv(Put(r, id, s))
  {
    PutCore(r, id, s);
  }

  lemma DrainTurnInv(r: Room, id: SeatId, now: int)
    requires Inv(r) && id in r.pool && r.clock == now
    ensures Inv(DrainTurn(r, id, now))
  {
    var s := r.pool[id];
    if s.drain.Some? && s.pending == [] {
      PutInv(r, id, if s.backlog != [] then s.(pending := s.backlog, backlog := [])
                    else s.(disconnected := false, drain := None,
                            lastBatchMs := if s.drain.value.midMatch then now else s.lastBatchMs));
    }
  }

  lemma SendPendingInv(r: Room, id: SeatId)
    requires Inv(r) && id in r.pool
    ensures Inv(SendPending(r, id))
  {
    if r.pool[id].pending != [] {
      PutInv(r, id, SendPending(r, id).pool[id]);
    }
  }

  // --- match actions -----------------------------------------------------

  lemma StartMatchSeats(r: Room, sess: SessionId, force: bool, mid: MatchId, now: int)
    requires SeatsOk(r) && HostOk(r) && CanStart(r, sess, force)
    ensures SeatsOk(StartMatch(r, sess, force, mid, now)) && HostOk(StartMatch(r, sess, force, mid, now))
  {
    var r' := StartMatch(r, sess, force, mid, now);
    FewerSeatsOk(r, r');
    var me := FindSeat(r.pool, r.seats, sess).value;
    assert r'.pool[me].playerId == r.pool[me].playerId;
  }

  lemma StartMatchStatus(r: Room, sess: SessionId, force: bool, mid: MatchId, now: int)
    requires SeatsOk(r) && StatusOk(r) && CanStart(r, sess, force)
    ensures StatusOk(StartMatch(r, sess, force, mid, now)) && HasRacer(StartMatch(r, sess, force, mid, now))
  {
    var r' := StartMatch(r, sess, force, mid, now);
    assert r'.mtch.value.roster == r.seats && r'.seats == r.seats;
    assert r.seats[0] in r.seats && r'.pool[r.seats[0]].status == Active;
  }

  lemma StartMatchRoster(r: Room, sess: SessionId, force: bool, mid: MatchId, now: int)
    requires r.Wf() && CanStart(r, sess, force) && r.clock == now
    ensures RosterOk(StartMatch(r, sess, force, mid, now))
  {
    assert Buckets(now + COUNTDOWN_LEAD_MS, []) == {};
  }

  lemma StartMatchLogs(r: Room, sess: SessionId, force: bool, mid: MatchId, now: int)
    requires r.Wf() && LogsOk(r) && StatusOk(r) && SettingsOk(r) && TagsOk(r)
    requires CanStart(r, sess, force) && mid !in StartedIds(r)
    ensures LogsOk(StartMatch(r, sess, force, mid, now)) && TagsOk(StartMatch(r, sess, force, mid, now))
  {
    var r' := StartMatch(r, sess, force, mid, now);
    forall x | x in StartedIds(r) ensures x in StartedIds(r') {
      var s :| s in r.started && s.id == x;
      assert s in r'.started;
    }
    forall i | 0 <= i < |r.started| ensures r.started[i].id != mid {
      assert r.started[i] in r.started;
    }
  }

  lemma StartMatchInv(r: Room, sess: SessionId, force: bool, mid: MatchId, now: int)
    requires Inv(r) && mid !in StartedIds(r) && r.clock == now
    ensures Inv(StartMatch(r, sess, force, mid, now))
  {
    if CanStart(r, sess, force) {
      StartMatchSeats(r, sess, force, mid, now);
      StartMatchStatus(r, sess, force, mid, now);
      StartMatchRoster(r, sess, force, mid, now);
      StartMatchLogs(r, sess, force, mid, now);
    }
  }

  // --- relaying a batch --------------------------------------------------

  lemma BucketMonotone(goAtMs: int, a: int, b: int)
    requires a <= b
    ensures Bucket(goAtMs, a) <= Bucket(goAtMs, b)
  {}

  lemma CaptureCounts(s: Seat, goAtMs: int, eb: EventBatch, recvMs: int)
    requires CaptureOk(s.batches, s.lastSeq, s.eventCount)
    requires eb.events != [] && eb.batchSeq == s.lastSeq + 1 && s.eventCount + |eb.events| <= MAX_CAPTURED_EVENTS
    ensures var s' := Capture(s, goAtMs, eb, recvMs); CaptureOk(s'.batches, s'.lastSeq, s'.eventCount)
  {
    var bs := s.batches + [CapturedBatch(eb.batchSeq, recvMs, eb.events)];
    assert bs[..|bs|-1] == s.batches;
  }

  lemma BucketsAppend(goAtMs: int, bs: seq<CapturedBatch>, b: CapturedBatch)
    ensures Buckets(goAtMs, bs + [b])
         == Buckets(goAtMs, bs) + (if Bucket(goAtMs, b.recvMs) >= 0 then {Bucket(goAtMs, b.recvMs)} else {})
  {
    assert forall x :: x in bs + [b] <==> x in bs || x == b;
  }

  /** The last counted bucket is reached by some batch, so an in-order batch does
      not fall below it. */
  lemma NotBelowLast(s: Seat, goAtMs: int, recvMs: int)
    requires AfkOk(goAtMs, s) && forall b <- s.batches :: b.recvMs <= recvMs
    ensures s.lastBucket >= 0 ==> s.lastBucket <= Bucket(goAtMs, recvMs)
  {
    if s.lastBucket >= 0 {
      var b :| b in s.batches && Bucket(goAtMs, b.recvMs) == s.lastBucket;
      BucketMonotone(goAtMs, b.recvMs, recvMs);
    }
  }

  /** Counting a bucket only when it is past the last one counted keeps the exact
      number of distinct buckets, because batches are received in order. */
  lemma CaptureAfk(s: Seat, goAtMs: int, eb: EventBatch, recvMs: int)
    requires AfkOk(goAtMs, s) && forall b <- s.batches :: b.recvMs <= recvMs
    ensures AfkOk(goAtMs, Capture(s, goAtMs, eb, recvMs))
  {
    var k := Bucket(goAtMs, recvMs);
    NotBelowLast(s, goAtMs, recvMs);
    BucketsAppend(goAtMs, s.batches, CapturedBatch(eb.batchSeq, recvMs, eb.events));
    CountedOnce(Buckets(goAtMs, s.batches), s.lastBucket, k);
  }

  /** A bucket past the last counted one is new; any other is there already. */
  lemma CountedOnce(before: set<int>, last: int, k: int)
    requires last >= -1 && (forall b <- before :: b <= last) && (last >= 0 ==> last in before && last <= k)
    ensures var after := before + (if k >= 0 then {k} else {});
            if k > last then |after| == |before| + 1 && after == before + {k} else after == before
  {
    if k > last {
      assert k !in before;
    } else if k >= 0 {
      assert k == last;
    }
  }

  lemma {:induction false} AtMost(bs: set<int>, n: nat)
    requires forall b <- bs :: 0 <= b < n
    ensures |bs| <= n
  {
    if n == 0 {
      assert forall x :: x !in bs;
      assert bs == {};
    } else if n - 1 in bs {
      AtMost(bs - {n - 1}, n - 1);
    } else {
      AtMost(bs, n - 1);
    }
  }

  /** The counter never exceeds the number of buckets up to the last one counted. */
  lemma ActiveBucketsBound(goAtMs: int, s: Seat)
    requires AfkOk(goAtMs, s)
    ensures 0 <= s.activeBuckets <= s.lastBucket + 1
  {
    AtMost(Buckets(goAtMs, s.batches), s.lastBucket + 1);
  }

  /** `r'` is `r` with a longer capture on roster seat `me`. */
  ghost predicate Captured(r: Room, r': Room, me: SeatId) {
    && r.Wf() && r.mtch.Some? && me in r.seats && me in r'.pool
    && r' == r.(pool := r.pool[me := r'.pool[me]])
    && var s, s' := r.pool[me], r'.pool[me];
       && s'.playerId == s.playerId && s'.userId == s.userId && s'.joinSeq == s.joinSeq && s'.status == s.status
       && s'.queue == s.queue && s'.pending == s.pending && s'.backlog == s.backlog
       && CaptureOk(s'.batches, s'.lastSeq, s'.eventCount) && AfkOk(r.mtch.value.goAtMs, s')
       && r.mtch.value.goAtMs - COUNTDOWN_LEAD_MS <= s'.lastBatchMs
  }

  lemma CapturedSeats(r: Room, r': Room, me: SeatId)
    requires Captured(r, r', me) && SeatsOk(r) && HostOk(r)
    ensures SeatsOk(r') && HostOk(r')
  {
    FewerSeatsOk(r, r');
    assert forall id <- r.pool :: r'.pool[id].playerId == r.pool[id].playerId;
    if r.hostId.Some? {
      var id :| id in r.seats && r.pool[id].playerId == r.hostId.value;
      assert r'.pool[id].playerId == r.hostId.value;
    }
  }

  lemma CapturedStatus(r: Room, r': Room, me: SeatId)
    requires Captured(r, r', me) && StatusOk(r) && HasRacer(r)
    ensures StatusOk(r') && HasRacer(r')
  {
    assert forall id <- r.pool :: r'.pool[id].status == r.pool[id].status;
    var x :| x in r.mtch.value.roster && r.pool[x].status == Active;
    assert r'.pool[x].status == Active;
  }

  lemma CapturedRest(r: Room, r': Room, me: SeatId)
    requires Captured(r, r', me) && RosterOk(r) && LogsOk(r) && TagsOk(r)
    ensures RosterOk(r') && LogsOk(r') && TagsOk(r')
  {}

  lemma CapturePutInv(r: Room, me: SeatId, eb: EventBatch, recvMs: int)
    requires Inv(r) && me in r.seats && Acceptable(r, me, eb)
    requires r.mtch.value.goAtMs - COUNTDOWN_LEAD_MS <= recvMs && forall b <- r.pool[me].batches :: b.recvMs <= recvMs
    ensures Inv(Put(r, me, Capture(r.pool[me], r.mtch.value.goAtMs, eb, recvMs)))
  {
    CaptureCounts(r.pool[me], r.mtch.value.goAtMs, eb, recvMs);
    CaptureAfk(r.pool[me], r.mtch.value.goAtMs, eb, recvMs);
    var r' := Put(r, me, Capture(r.pool[me], r.mtch.value.goAtMs, eb, recvMs));
    CapturedSeats(r, r', me);
    CapturedStatus(r, r', me);
    CapturedRest(r, r', me);
  }

  /** The pool after relaying `f`, before the sender's own capture. */
  ghost function HandedPool(r: Room, me: SeatId, f: Frame): map<SeatId, Seat>
    requires r.mtch.Some?
  {
    map id | id in r.pool ::
      if id != me && id in r.mtch.value.roster then HandBatch(r.pool[id], f) else r.pool[id]
  }

  lemma HandedMild(r: Room, me: SeatId, f: Frame, x: SeatId)
    requires r.mtch.Some? && TagsOk(r) && f.matchId in StartedIds(r) && x in r.pool
    ensures Mild(r, r.pool[x], HandedPool(r, me, f)[x])
  {
    assert forall g :: g in r.pool[x].queue || g in r.pool[x].pending || g in r.pool[x].backlog ==> g.matchId in StartedIds(r);
  }

  lemma HandedInv(r: Room, me: SeatId, f: Frame)
    requires Inv(r) && r.mtch.Some? && f.matchId == r.mtch.value.id
    ensures Inv(r.(pool := HandedPool(r, me, f)))
  {
    assert r.started[|r.ends|] in r.started;
    var pool := HandedPool(r, me, f);
    forall x | x in r.pool ensures Mild(r, r.pool[x], pool[x]) && pool[x].status == r.pool[x].status {
      HandedMild(r, me, f, x);
    }
    MildCore(r, pool);
  }

  lemma LoggedInv(r: Room, accepted: seq<Accepted>, now: int)
    requires Inv(r)
    ensures Inv(Touch(r.(accepted := accepted), now))
  {}

  lemma RelayShape(r: Room, sess: SessionId, eb: EventBatch, recvMs: int, now: int)
    requires r.Wf()
    requires FindSeat(r.pool, r.seats, sess).Some? && Acceptable(r, FindSeat(r.pool, r.seats, sess).value, eb)
    ensures var r', me := Relay(r, sess, eb, recvMs, now), FindSeat(r.pool, r.seats, sess).value;
      var f := PeerBatch(r.mtch.value.id, r.pool[me].playerId, eb.version, eb.events);
      var r1 := r.(pool := HandedPool(r, me, f));
      && r1.pool[me] == r.pool[me]
      && r' == Touch(Put(r1, me, Capture(r.pool[me], r.mtch.value.goAtMs, eb, recvMs))
                     .(accepted := r.accepted + [Accepted(me, f)]), now)
  {
    var r', me := Relay(r, sess, eb, recvMs, now), FindSeat(r.pool, r.seats, sess).value;
    var f := PeerBatch(r.mtch.value.id, r.pool[me].playerId, eb.version, eb.events);
    assert r'.pool == HandedPool(r, me, f)[me := Capture(r.pool[me], r.mtch.value.goAtMs, eb, recvMs)];
  }

  lemma RelayInv(r: Room, sess: SessionId, eb: EventBatch, recvMs: int, now: int)
    requires Inv(r) && PromptBatch(r, sess, recvMs)
    ensures Inv(Relay(r, sess, eb, recvMs, now))
  {
    var found := FindSeat(r.pool, r.seats, sess);
    if found.Some? && Acceptable(r, found.value, eb) {
      var me := found.value;
      var f := PeerBatch(r.mtch.value.id, r.pool[me].playerId, eb.version, eb.events);
      RelayShape(r, sess, eb, recvMs, now);
      HandedInv(r, me, f);
      var r1 := r.(pool := HandedPool(r, me, f));
      CapturePutInv(r1, me, eb, recvMs);
      LoggedInv(Put(r1, me, Capture(r.pool[me], r.mtch.value.goAtMs, eb, recvMs)), r.accepted + [Accepted(me, f)], now);
    }
  }

  lemma FinishInv(r: Room, sess: SessionId, mid: MatchId, forfeit: bool, now: int)
    requires Inv(r)
    ensures Inv(Finish(r, sess, mid, forfeit, now))
  {
    var found := FindSeat(r.pool, r.seats, sess);
    if found.Some? && r.mtch.Some? && mid == r.mtch.value.id && r.pool[found.value].status == Active {
      var s := r.pool[found.value];
      if forfeit {
        PutCore(r, found.value, s.(status := Dnf));
        EndIfDoneInv(Put(r, found.value, s.(status := Dnf)), now);
      } else {
        FinishedInv(r, found.value, s.(status := Finished, finishedAtMs := now), now);
      }
    }
  }

  lemma FinishedInv(r: Room, id: SeatId, s: Seat, now: int)
    requires Inv(r) && id in r.pool && r.pool[id].status == Active && s == r.pool[id].(status := Finished, finishedAtMs := now)
    ensures Inv(EndOrArm(Put(r, id, s), now))
  {
    PutCore(r, id, s);
    EndIfDoneInv(Put(r, id, s), now);
    if !AllTerminal(Put(r, id, s)) {
      ArmInv(Put(r, id, s), now);
    }
  }

  lemma ArmInv(r: Room, now: int)
    requires Inv(r)
    ensures Inv(Arm(r, now))
  {}

  lemma ForceEndInv(r: Room, mid: MatchId, reason: Reason, now: int)
    requires Inv(r)
    ensures Inv(ForceEnd(r, mid, reason, now))
  {
    if IsCurrent(r, mid) {
      DnfWhereCore(r, r.pool.Keys);
      EndMatchInv(DnfWhere(r, r.pool.Keys), reason, now);
    }
  }

  lemma SweepAfkInv(r: Room, mid: MatchId, now: int)
    requires Inv(r)
    ensures Inv(SweepAfk(r, mid, now))
  {
    DnfWhereCore(r, SweepSet(r, now));
    EndIfDoneInv(DnfWhere(r, SweepSet(r, now)), now);
  }

  // --- the theorem -------------------------------------------------------

  /** Every action the environment can take keeps the invariant. */
  lemma StepInv(r: Room, a: Action)
    requires Inv(r) && Legal(r, a)
    ensures Inv(Step(r, a))
  {
    TickCore(r, a);
    PerformInv(Tick(r, a), a);
  }

  lemma PerformInv(r: Room, a: Action)
    requires Inv(r) && Legal(r, a) && (a.Timed() ==> r.clock == a.now)
    ensures Inv(Perform(r, a))
  {
    if a.StartMatchA? || a.RelayA? || a.FinishA? || a.ForceEndA? || a.SweepAfkA? || a.ReapIdleA? {
      PerformMatchInv(r, a);
    } else if a.NamesSeat() || a.DisconnectA? {
      PerformSeatInv(r, a);
    } else {
      PerformLobbyInv(r, a);
    }
  }

  lemma PerformLobbyInv(r: Room, a: Action)
    requires Inv(r) && Legal(r, a)
    requires a.TakeSeatA? || a.LeaveA? || a.KickA? || a.TransferHostA? || a.ReadyA? || a.SettingsA?
    ensures Inv(Perform(r, a))
  {
    match a
    case TakeSeatA(id, sess, player, user, asHost, now) => TakeSeatInv(r, id, sess, player, user, asHost, now);
    case LeaveA(sess, now) => LeaveInv(r, sess, now);
    case KickA(sess, player, now) => KickInv(r, sess, player, now);
    case TransferHostA(sess, player, now) => TransferInv(r, sess, player, now);
    case ReadyA(sess, value, now) => ReadyInv(r, sess, value, now);
    case SettingsA(sess, settings, now) => SettingsInv(r, sess, settings, now);
    case _ =>
  }

  lemma PerformSeatInv(r: Room, a: Action)
    requires Inv(r) && Legal(r, a) && (a.NamesSeat() || a.DisconnectA?) && (a.Timed() ==> r.clock == a.now)
    ensures Inv(Perform(r, a))
  {
    match a
    case ReleaseA(id, now) => ReleaseInv(r, id, now);
    case DetachA(id) => DetachInv(r, id);
    case DisconnectA(sess) => DisconnectInv(r, sess);
    case GraceExpireA(id, now) => GraceExpireInv(r, id, now);
    case BindA(id, sess) => BindInv(r, id, sess);
    case DrainTurnA(id, now) => DrainTurnInv(r, id, now);
    case SendPendingA(id) => SendPendingInv(r, id);
    case AbandonDrainA(id) => AbandonDrainInv(r, id);
    case _ =>
  }

  lemma PerformMatchInv(r: Room, a: Action)
    requires Inv(r) && Legal(r, a) && (a.Timed() ==> r.clock == a.now)
    requires a.StartMatchA? || a.RelayA? || a.FinishA? || a.ForceEndA? || a.SweepAfkA? || a.ReapIdleA?
    ensures Inv(Perform(r, a))
  {
    match a
    case StartMatchA(sess, force, mid, now) => StartMatchInv(r, sess, force, mid, now);
    case RelayA(sess, eb, recvMs, now) => RelayInv(r, sess, eb, recvMs, now);
    case FinishA(sess, mid, forfeit, now) => FinishInv(r, sess, mid, forfeit, now);
    case ForceEndA(mid, reason, now) => ForceEndInv(r, mid, reason, now);
    case SweepAfkA(mid, now) => SweepAfkInv(r, mid, now);
    case ReapIdleA(now) => ReapIdleInv(r, now);
    case _ =>
  }

  lemma ReleaseInv(r: Room, id: SeatId, now: int)
    requires Inv(r) && id in r.pool
    ensures Inv(Release(r, id, now))
  {
    LeaveSeatInv(r, id, now);
  }

  lemma LeaveInv(r: Room, sess: SessionId, now: int)
    requires Inv(r)
    ensures Inv(Leave(r, sess, now))
  {
    var found := FindSeat(r.pool, r.seats, sess);
    if found.Some? {
      LeaveSeatInv(r, found.value, now);
    }
  }

  lemma DetachInv(r: Room, id: SeatId)
    requires Inv(r) && id in r.pool
    ensures Inv(Detach(r, id))
  {
    PutInv(r, id, Park(r.pool[id]));
  }

  lemma DisconnectInv(r: Room, sess: SessionId)
    requires Inv(r)
    ensures Inv(Disconnect(r, sess))
  {
    var found := FindSeat(r.pool, r.seats, sess);
    if found.Some? {
      PutInv(r, found.value, Park(r.pool[found.value]));
    }
  }

  lemma BindInv(r: Room, id: SeatId, sess: SessionId)
    requires Inv(r) && id in r.pool
    ensures Inv(Bind(r, id, sess))
  {
    PutInv(r, id, r.pool[id].(sess := Some(sess), drain := Some(Drain(sess, Racing(r, id)))));
  }

  lemma AbandonDrainInv(r: Room, id: SeatId)
    requires Inv(r) && id in r.pool
    ensures Inv(AbandonDrain(r, id))
  {
    PutInv(r, id, r.pool[id].(drain := None));
  }

  lemma TransferInv(r: Room, sess: SessionId, target: PlayerId, now: int)
    requires Inv(r)
    ensures Inv(TransferHost(r, sess, target, now))
  {}

  lemma ReadyInv(r: Room, sess: SessionId, value: bool, now: int)
    requires Inv(r)
    ensures Inv(SetReady(r, sess, value, now))
  {
    var found := FindSeat(r.pool, r.seats, sess);
    if found.Some? {
      PutInv(r, found.value, r.pool[found.value].(ready := value));
    }
  }

  lemma ReapIdleInv(r: Room, now: int)
    requires Inv(r)
    ensures Inv(ReapIdle(r, now))
  {
    if IdleStateOf(r, now) == Expire {
      LeaveAllInv(r, now);
    }
  }
}
