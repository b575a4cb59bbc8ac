/** The room as the mutable object it is: fields written under the room lock,
    slices edited in place, rosters walked in loops. Each method is proved to do
    to the object what its step function does to the room value. */
module RoomObject {
  import opened RoomTypes
  import opened RoomSettings
  import opened RoomSteps
  import opened RoomActions
  import opened RoomInvariant
  import opened RegistryModel

  /** Registry.users under its own leaf lock. */
  class AccountIndex {
    var users: map<UserId, SeatRef>

    constructor ()
      ensures users == map[]
    {
      users := map[];
    }

    method IndexSeat(room: RoomId, seat: SeatId, u: UserId)
      modifies this
      ensures users == if u == "" then old(users) else old(users)[u := SeatRef(room, seat)]
    {
      if u == "" {
        return;
      }
      users := users[u := SeatRef(room, seat)];
    }

    /** Drops the entry of `u`, but only while it still names this seat. */
    method UnindexSeat(room: RoomId, seat: SeatId, u: UserId)
      modifies this
      ensures users == if u != "" && u in old(users) && old(users)[u] == SeatRef(room, seat)
                       then old(users) - {u} else old(users)
    {
      if u == "" {
        return;
      }
      if u in users && users[u] == SeatRef(room, seat) {
        users := users - {u};
      }
    }
  }

  ghost predicate Distinct(ids: seq<SeatId>) {
    forall i, j :: 0 <= i < j < |ids| ==> ids[i] != ids[j]
  }

  /** Entries of the index that point into room `rid` name the seat's own account. */
  ghost predicate Consistent(users: map<UserId, SeatRef>, rid: RoomId, pool: map<SeatId, Seat>) {
    forall u <- users :: users[u].room == rid ==>
      u != "" && users[u].seat in pool && pool[users[u].seat].userId == u
  }

  /** Two rounds of removals unindex what one round would. */
  lemma UnindexedTwice(users: map<UserId, SeatRef>, rid: RoomId, a: seq<SeatId>, b: seq<SeatId>, c: seq<SeatId>)
    requires (forall x <- c :: x in b) && (forall x <- b :: x in a)
    ensures Unindexed(Unindexed(users, rid, a, b), rid, b, c) == Unindexed(users, rid, a, c)
  {}

  lemma UnindexedNone(users: map<UserId, SeatRef>, rid: RoomId, a: seq<SeatId>)
    ensures Unindexed(users, rid, a, a) == users
  {}

  lemma {:induction false} WithoutIs(seats: seq<SeatId>, i: nat)
    requires i < |seats| && seats[i] !in seats[..i]
    ensures Without(seats, seats[i]) == seats[..i] + seats[i+1..]
  {
    if i > 0 {
      assert seats[0] in seats[..i];
      assert seats[1..][i-1] == seats[i] && seats[1..][..i-1] == seats[1..i];
      WithoutIs(seats[1..], i - 1);
      assert seats[..i] == [seats[0]] + seats[1..i];
    }
  }

  lemma {:induction false} WithoutAbsent(seats: seq<SeatId>, id: SeatId)
    requires id !in seats
    ensures Without(seats, id) == seats
  {
    if seats != [] {
      WithoutAbsent(seats[1..], id);
      assert seats == [seats[0]] + seats[1..];
    }
  }

  class LiveRoom {
    const rid: RoomId
    const index: AccountIndex
    var pool: map<SeatId, Seat>
    var seats: seq<SeatId>
    var hostId: Option<PlayerId>
    var inMatch: bool
    var mtch: Option<Match>
    var nextSeq: nat
    var settings: Settings
    var lastActivityMs: int
    var idleWarned: bool
    ghost var clock: int
    ghost var accepted: seq<Accepted>
    ghost var started: seq<StartRecord>
    ghost var ends: seq<EndRecord>

    /** The room value this object stands for. */
    ghost function View(): Room
      reads this
    {
      Room(pool, seats, hostId, inMatch, mtch, nextSeq, settings, lastActivityMs, idleWarned,
           clock, accepted, started, ends)
    }

    /** What the methods rely on: pointers resolve, no seat is listed twice, and
        the account index is consistent with this room. */
    ghost predicate Valid()
      reads this, index
    {
      && View().Wf()
      && Distinct(seats)
      && (mtch.Some? ==> Distinct(mtch.value.roster))
      && Consistent(index.users, rid, pool)
    }

    constructor (rid: RoomId, index: AccountIndex, now: int)
      requires forall u <- index.users :: index.users[u].room != rid
      ensures this.rid == rid && this.index == index
      ensures View() == NewRoom(now) && Valid()
    {
      this.rid := rid;
      this.index := index;
      pool, seats, hostId, inMatch, mtch := map[], [], None, false, None;
      nextSeq, settings, lastActivityMs, idleWarned := 0, DefaultSettings(""), now, false;
      clock, accepted, started, ends := now, [], [], [];
    }

    // --- locked helpers --------------------------------------------------

    method FindSeatLocked(sess: SessionId) returns (r: Option<SeatId>)
      requires View().Wf()
      ensures r == FindSeat(pool, seats, sess)
    {
      var i := 0;
      while i < |seats|
        invariant 0 <= i <= |seats|
        invariant FindSeat(pool, seats, sess) == FindSeat(pool, seats[i..], sess)
      {
        if pool[seats[i]].sess == Some(sess) {
          return Some(seats[i]);
        }
        i := i + 1;
      }
      return None;
    }

    method SeatIndexByIdLocked(p: PlayerId) returns (i: int)
      requires View().Wf()
      ensures i < 0 ==> FindPlayer(pool, seats, p).None? && !Present(View(), p)
      ensures i >= 0 ==> i < |seats| && FindPlayer(pool, seats, p) == Some(seats[i]) && Present(View(), p)
    {
      i := 0;
      while i < |seats|
        invariant 0 <= i <= |seats|
        invariant FindPlayer(pool, seats, p) == FindPlayer(pool, seats[i..], p)
      {
        if pool[seats[i]].playerId == p {
          assert seats[i] in seats;
          return;
        }
        i := i + 1;
      }
      return -1;
    }

    method TouchLocked(now: int)
      modifies this`lastActivityMs, this`idleWarned
      ensures View() == Touch(old(View()), now)
    {
      lastActivityMs := now;
      idleWarned := false;
    }

    /** The single choke point of seat removal: the index entry goes with the seat. */
    method RemoveSeatLocked(idx: nat)
      requires Valid() && idx < |seats|
      modifies this`seats, index
      ensures View() == old(View()).(seats := old(seats)[..idx] + old(seats)[idx+1..])
      ensures index.users == Unindexed(old(index.users), rid, old(seats), seats)
      ensures Valid()
    {
      var id := seats[idx];
      index.UnindexSeat(rid, id, pool[id].userId);
      seats := seats[..idx] + seats[idx+1..];
      assert forall x :: x in seats <==> x in old(seats) && x != id by {
        assert old(seats) == old(seats)[..idx] + [id] + old(seats)[idx+1..];
      }
    }

    method RemoveFromSeatsLocked(target: SeatId)
      requires Valid()
      modifies this`seats, index
      ensures View() == old(View()).(seats := Without(old(seats), target))
      ensures index.users == Unindexed(old(index.users), rid, old(seats), seats)
      ensures Valid()
    {
      var i := 0;
      while i < |seats|
        invariant 0 <= i <= |seats| && seats == old(seats) && index.users == old(index.users)
        invariant target !in seats[..i]
      {
        if seats[i] == target {
          WithoutIs(seats, i);
          RemoveSeatLocked(i);
          return;
        }
        i := i + 1;
      }
      WithoutAbsent(seats, target);
      UnindexedNone(index.users, rid, seats);
    }

    method ReassignHostLocked()
      requires View().Wf()
      modifies this`hostId
      ensures View() == Rehost(old(View()))
    {
      if |seats| == 0 {
        hostId := None;
      } else {
        hostId := Some(pool[seats[0]].playerId);
      }
    }

    /** Remove the seat and pass the host role on if it held it. */
    method DepartLocked(id: SeatId)
      requires Valid() && id in pool
      modifies this`seats, this`hostId, index
      ensures View() == Depart(old(View()), id)
      ensures index.users == Unindexed(old(index.users), rid, old(seats), seats)
      ensures Valid()
    {
      var wasHost := hostId == Some(pool[id].playerId);
      RemoveFromSeatsLocked(id);
      if wasHost {
        ReassignHostLocked();
      }
    }

    method AllTerminalLocked() returns (done: bool)
      requires View().Wf()
      ensures done == AllTerminal(View())
    {
      if mtch.None? {
        return false;
      }
      var roster := mtch.value.roster;
      var i := 0;
      while i < |roster|
        invariant 0 <= i <= |roster|
        invariant forall j :: 0 <= j < i ==> pool[roster[j]].status != Active
      {
        if pool[roster[i]].status == Active {
          assert roster[i] in roster;
          return false;
        }
        i := i + 1;
      }
      return true;
    }

    // --- the end of a match ----------------------------------------------

    /** The results broadcast and the runs persisted, one roster walk each. */
    method RecordLocked(m: Match, reason: Reason, now: int) returns (e: EndRecord)
      requires forall id <- m.roster :: id in pool
      ensures e == EndRecordOf(View(), m, reason, now)
    {
      var runs: seq<RunSnapshot> := [];
      for i := 0 to |m.roster|
        invariant |runs| == i && forall j :: 0 <= j < i ==> runs[j] == RunOf(pool[m.roster[j]])
      {
        runs := runs + [RunOf(pool[m.roster[i]])];
      }
      var results: seq<MatchResult> := [];
      for i := 0 to |m.roster|
        invariant |results| == i && forall j :: 0 <= j < i ==> results[j] == ResultOf(pool[m.roster[j]], m.goAtMs, now)
      {
        results := results + [ResultOf(pool[m.roster[i]], m.goAtMs, now)];
      }
      e := EndRecord(m.id, reason, results, runs);
    }

    /** Hand `match_end` to one roster seat, if it can still get it. */
    method HandEndLocked(m: Match, id: SeatId)
      requires View().Wf() && id in pool
      modifies this`pool
      ensures pool == old(pool)[id := HandedEnd(old(View()), m, true, id)]
    {
      var s := pool[id];
      if s.sess.Some? {
        pool := pool[id := s.(queue := s.queue + [MatchEndFrame(m.id)])];
      } else if s.disconnected {
        var k := SeatIndexByIdLocked(s.playerId);
        if k >= 0 {
          pool := pool[id := s.(backlog := s.backlog + [MatchEndFrame(m.id)])];
        }
      }
    }

    method HandEndsLocked(m: Match)
      requires View().Wf() && Distinct(m.roster) && forall id <- m.roster :: id in pool
      modifies this`pool
      ensures pool.Keys == old(pool).Keys
      ensures forall id <- pool :: pool[id] == HandedEnd(old(View()), m, id in m.roster, id)
    {
      ghost var before := View();
      for i := 0 to |m.roster|
        invariant pool.Keys == before.pool.Keys
        invariant forall id <- pool :: pool[id] == HandedEnd(before, m, id in m.roster[..i], id)
      {
        var id := m.roster[i];
        assert id !in m.roster[..i];
        SamePresence(before, View(), before.pool[id].playerId);
        HandEndLocked(m, id);
        assert forall x :: x in m.roster[..i+1] <==> x in m.roster[..i] || x == id;
      }
      assert m.roster[..|m.roster|] == m.roster;
    }

    /** Every seat in the room is put back to its lobby state. */
    method ResetSeatsLocked()
      requires View().Wf() && Distinct(seats)
      modifies this`pool
      ensures pool.Keys == old(pool).Keys
      ensures forall id <- pool :: pool[id] == if id in seats then LobbyReset(old(pool)[id]) else old(pool)[id]
    {
      ghost var before := pool;
      for i := 0 to |seats|
        invariant pool.Keys == before.Keys
        invariant forall id <- pool :: pool[id] == if id in seats[..i] then LobbyReset(before[id]) else before[id]
      {
        var id := seats[i];
        assert id !in seats[..i];
        pool := pool[id := LobbyReset(pool[id])];
      }
      assert seats[..|seats|] == seats;
    }

    /** Removes the seat at `i` if its connection is gone for good. */
    method ReapOneLocked(i: nat)
      requires Valid() && i < |seats|
      modifies this`seats, index
      ensures var gone := pool[old(seats)[i]].sess.None? && !pool[old(seats)[i]].disconnected;
        View() == old(View()).(seats := if gone then old(seats)[..i] + old(seats)[i+1..] else old(seats))
      ensures index.users == Unindexed(old(index.users), rid, old(seats), seats)
      ensures Valid() && forall x <- seats :: x in old(seats)
    {
      UnindexedNone(index.users, rid, seats);
      if pool[seats[i]].sess.None? && !pool[seats[i]].disconnected {
        RemoveSeatLocked(i);
      }
    }

    /** The reap walks backwards, so the indices still to visit stay valid. */
    method ReapSeatsLocked()
      requires Valid()
      modifies this`seats, index
      ensures View() == old(View()).(seats := Survivors(pool, old(seats)))
      ensures index.users == Unindexed(old(index.users), rid, old(seats), seats)
      ensures Valid()
    {
      ghost var all := seats;
      UnindexedNone(index.users, rid, seats);
      assert all[..|all|] + Survivors(pool, all[|all|..]) == all;
      var i := |seats|;
      while i > 0
        invariant 0 <= i <= |all|
        invariant seats == all[..i] + Survivors(pool, all[i..])
        invariant forall x <- seats :: x in all
        invariant index.users == Unindexed(old(index.users), rid, all, seats)
        invariant View() == old(View()).(seats := seats) && Valid()
      {
        i := i - 1;
        ReapTurn(pool, all, i);
        ghost var mid := seats;
        ReapOneLocked(i);
        assert seats == all[..i] + Survivors(pool, all[i..]);
        UnindexedTwice(old(index.users), rid, all, mid, seats);
      }
      assert all[0..] == all;
    }

    method CloseSeatsLocked(m: Match)
      requires Valid() && Distinct(m.roster) && forall id <- m.roster :: id in pool
      modifies this`pool
      ensures pool == EndedPool(old(View()), m) && Valid()
    {
      ghost var before := View();
      HandEndsLocked(m);
      ResetSeatsLocked();
      EndedPoolIs(before, m, pool);
      SameUsers(index.users, rid, before.pool, pool);
    }

    method BackToLobbyLocked(reason: Reason, now: int)
      requires Valid() && mtch.Some?
      modifies this, index
      ensures View() == BackToLobby(old(View()), old(mtch).value, reason, now)
      ensures index.users == Unindexed(old(index.users), rid, old(seats), seats)
      ensures Valid()
    {
      var m := mtch.value;
      var e := RecordLocked(m, reason, now);
      CloseSeatsLocked(m);
      mtch := None;
      inMatch := false;
      ReapSeatsLocked();
      ends := ends + [e];
    }

    method EndMatchLocked(reason: Reason, now: int)
      requires Valid()
      modifies this, index
      ensures View() == EndMatch(old(View()), reason, now) && Valid()
      ensures index.users == Unindexed(old(index.users), rid, old(seats), seats)
    {
      UnindexedNone(index.users, rid, seats);
      if mtch.None? || mtch.value.ended {
        return;
      }
      BackToLobbyLocked(reason, now);
      if hostId.None? {
        ReassignHostLocked();
      } else {
        var k := SeatIndexByIdLocked(hostId.value);
        if k < 0 {
          ReassignHostLocked();
        }
      }
    }

    /** End the match if that was the last racer. */
    method EndIfDoneLocked(now: int)
      requires Valid()
      modifies this, index
      ensures View() == EndIfDone(old(View()), now) && Valid()
      ensures index.users == Unindexed(old(index.users), rid, old(seats), seats)
    {
      UnindexedNone(index.users, rid, seats);
      var done := AllTerminalLocked();
      if done {
        EndMatchLocked(AllFinished, now);
      }
    }

    /** A seat goes, and the match with it if it was the last racer. */
    method DepartAndEndLocked(id: SeatId, now: int)
      requires Valid() && id in pool
      modifies this, index
      ensures View() == EndIfDone(Depart(old(View()), id), now) && Valid()
      ensures index.users == Unindexed(old(index.users), rid, old(seats), seats)
    {
      DepartLocked(id);
      ghost var mid := seats;
      EndIfDoneLocked(now);
      EndIfDoneSeats(Depart(old(View()), id), now);
      UnindexedTwice(old(index.users), rid, old(seats), mid, seats);
    }

    method SetSeatLocked(id: SeatId, s: Seat)
      requires Valid() && id in pool && s.userId == pool[id].userId
      modifies this`pool
      ensures View() == Put(old(View()), id, s) && Valid()
    {
      pool := pool[id := s];
    }

    // --- membership ------------------------------------------------------

    method AddSeatLocked(id: SeatId, s: Seat)
      requires Valid() && id !in pool
      modifies this`pool, this`seats, this`nextSeq, index
      ensures View() == Put(old(View()), id, s).(seats := old(seats) + [id], nextSeq := old(nextSeq) + 1) && Valid()
      ensures index.users == if s.userId != "" then old(index.users)[s.userId := SeatRef(rid, id)] else old(index.users)
    {
      pool := pool[id := s];
      nextSeq := nextSeq + 1;
      seats := seats + [id];
      index.IndexSeat(rid, id, s.userId);
    }

    method SeatSession(id: SeatId, sess: SessionId, p: PlayerId, u: UserId, asHost: bool, now: int) returns (ok: bool)
      requires Valid() && id !in pool
      modifies this, index
      ensures View() == TakeSeat(old(View()), id, sess, p, u, asHost, now) && Valid()
      ensures ok == (|old(seats)| < ROOM_CAPACITY)
      ensures index.users == if ok && u != "" then old(index.users)[u := SeatRef(rid, id)] else old(index.users)
    {
      if |seats| >= ROOM_CAPACITY {
        return false;
      }
      AddSeatLocked(id, NewSeat(sess, p, u, nextSeq));
      TouchLocked(now);
      if asHost {
        hostId := Some(p);
      }
      return true;
    }

    method LeaveSeatLocked(id: SeatId, now: int)
      requires Valid() && id in pool
      modifies this, index
      ensures View() == LeaveSeat(old(View()), id, now) && Valid()
      ensures index.users == Unindexed(old(index.users), rid, old(seats), seats)
    {
      if mtch.Some? && pool[id].status == Active {
        SetSeatLocked(id, pool[id].(status := Left, sess := None));
      }
      DepartAndEndLocked(id, now);
    }

    method ReleaseSeat(id: SeatId, now: int) returns (ok: bool)
      requires Valid() && id in pool
      modifies this, index
      ensures View() == Release(old(View()), id, now) && Valid()
      ensures ok == !ReleaseRefused(old(View()), id)
      ensures index.users == Unindexed(old(index.users), rid, old(seats), seats)
    {
      UnindexedNone(index.users, rid, seats);
      var k := SeatIndexByIdLocked(pool[id].playerId);
      if k < 0 {
        return true;
      }
      if mtch.Some? && pool[id].status == Active {
        return false;
      }
      LeaveSeatLocked(id, now);
      return true;
    }

    method OnGraceExpire(id: SeatId, now: int)
      requires Valid() && id in pool
      modifies this, index
      ensures View() == GraceExpire(old(View()), id, now) && Valid()
      ensures index.users == Unindexed(old(index.users), rid, old(seats), seats)
    {
      UnindexedNone(index.users, rid, seats);
      var s := pool[id];
      if s.sess.Some? || !s.disconnected {
        return;
      }
      var k := SeatIndexByIdLocked(s.playerId);
      if k < 0 {
        return;
      }
      if mtch.Some? && s.status == Active {
        SetSeatLocked(id, s.(status := Dnf));
        DepartAndEndLocked(id, now);
      } else {
        SetSeatLocked(id, s.(disconnected := false));
        DepartLocked(id);
      }
    }

    method KickSeat(sess: SessionId, target: PlayerId, now: int)
      requires Valid()
      modifies this, index
      ensures View() == Kick(old(View()), sess, target, now) && Valid()
      ensures index.users == Unindexed(old(index.users), rid, old(seats), seats)
    {
      UnindexedNone(index.users, rid, seats);
      var me := FindSeatLocked(sess);
      if me.None? || hostId != Some(pool[me.value].playerId) || inMatch {
        return;
      }
      var k := SeatIndexByIdLocked(target);
      if k < 0 || hostId == Some(target) {
        return;
      }
      WithoutIs(seats, k);
      RemoveSeatLocked(k);
      TouchLocked(now);
    }

    method ClearReadyLocked()
      requires Valid()
      modifies this`pool
      ensures Valid() && pool == map id | id in old(pool) ::
        if id in seats then old(pool)[id].(ready := false) else old(pool)[id]
    {
      ghost var before := pool;
      for i := 0 to |seats|
        invariant pool.Keys == before.Keys
        invariant forall id <- pool :: pool[id] == if id in seats[..i] then before[id].(ready := false) else before[id]
      {
        pool := pool[seats[i] := pool[seats[i]].(ready := false)];
      }
      assert seats[..|seats|] == seats;
      SameUsers(index.users, rid, before, pool);
    }

    method UpdateRoomSettings(sess: SessionId, ns: Settings, now: int)
      requires Valid()
      modifies this
      ensures View() == UpdateSettings(old(View()), sess, ns, now) && Valid()
    {
      var me := FindSeatLocked(sess);
      if me.None? || hostId != Some(pool[me.value].playerId) || inMatch {
        return;
      }
      var name := Sanitized(ns.name);
      if !ValidSettings(ns.(name := name)) {
        return;
      }
      settings := ns.(name := name);
      ClearReadyLocked();
      TouchLocked(now);
    }

    // --- reconnect -------------------------------------------------------

    method DetachSeat(id: SeatId)
      requires Valid() && id in pool
      modifies this`pool
      ensures View() == Detach(old(View()), id) && Valid()
    {
      var k := SeatIndexByIdLocked(pool[id].playerId);
      if k < 0 || pool[id].sess.None? {
        return;
      }
      SetSeatLocked(id, pool[id].(sess := None, disconnected := true));
    }

    method DropSession(sess: SessionId) returns (found: bool)
      requires Valid()
      modifies this`pool
      ensures View() == Disconnect(old(View()), sess) && Valid()
      ensures found == FindSeat(old(pool), seats, sess).Some?
    {
      var me := FindSeatLocked(sess);
      if me.None? {
        return false;
      }
      SetSeatLocked(me.value, pool[me.value].(sess := None, disconnected := true));
      return true;
    }

    method BindSeat(id: SeatId, sess: SessionId) returns (ok: bool)
      requires Valid() && id in pool
      modifies this`pool
      ensures View() == Bind(old(View()), id, sess) && Valid()
      ensures ok == CanBind(old(View()), id)
    {
      var s := pool[id];
      var k := SeatIndexByIdLocked(s.playerId);
      if !s.disconnected || k < 0 {
        return false;
      }
      var midMatch := mtch.Some? && s.status == Active;
      SetSeatLocked(id, s.(sess := Some(sess), drain := Some(Drain(sess, midMatch))));
      return true;
    }

    /** One locked turn of reattach's drain loop: take the backlog, or go live. */
    method DrainTurnLocked(id: SeatId, now: int) returns (live: bool)
      requires Valid() && id in pool && pool[id].drain.Some?
      modifies this`pool
      ensures View() == DrainTurn(old(View()), id, now) && Valid() && id in pool
      ensures live <==> old(pool)[id].pending == [] && old(pool)[id].backlog == []
    {
      var s := pool[id];
      assert pool[id := s] == pool;
      if s.pending != [] {
        return false;
      }
      if s.backlog == [] {
        SetSeatLocked(id, s.(disconnected := false, drain := None,
                             lastBatchMs := if s.drain.value.midMatch then now else s.lastBatchMs));
        return true;
      }
      SetSeatLocked(id, s.(pending := s.backlog, backlog := []));
      return false;
    }

    /** One send of the drain, off the room lock. */
    method SendPendingFrame(id: SeatId)
      requires Valid() && id in pool && pool[id].pending != []
      modifies this`pool
      ensures View() == SendPending(old(View()), id) && Valid() && id in pool
    {
      var s := pool[id];
      SetSeatLocked(id, s.(queue := s.queue + [s.pending[0]], pending := s.pending[1..]));
    }

    method SendAll(id: SeatId)
      requires Valid() && id in pool
      modifies this`pool
      ensures View() == SentAll(old(View()), id) && Valid() && id in pool
    {
      while pool[id].pending != []
        invariant Valid() && id in pool
        invariant SentAll(View(), id) == SentAll(old(View()), id)
        decreases |pool[id].pending|
      {
        SendPendingFrame(id);
      }
    }

    /** The exit for a connection that died during the sends. */
    method AbandonDrainOf(id: SeatId)
      requires Valid() && id in pool
      modifies this`pool
      ensures View() == AbandonDrain(old(View()), id) && Valid()
    {
      if pool[id].drain.Some? && pool[id].pending == [] {
        SetSeatLocked(id, pool[id].(drain := None));
      }
    }

    /** reattach's drain loop. Any other section may run between its sections; here
        none does. `dying` is whether the connection is found dead after a round
        of sends. */
    method DrainBacklog(id: SeatId, now: int, dying: bool)
      requires Valid() && id in pool && pool[id].drain.Some?
      modifies this`pool
      ensures Valid()
      ensures View() ==
        if dying && (old(pool)[id].pending != [] || old(pool)[id].backlog != [])
        then AbandonDrain(SentAll(DrainTurn(old(View()), id, now), id), id)
        else Drained(old(View()), id, now)
    {
      ghost var first := true;
      while true
        invariant Valid() && id in pool && pool[id].drain.Some?
        invariant Drained(View(), id, now) == Drained(old(View()), id, now)
        invariant first ==> View() == old(View())
        invariant !first ==> !dying
        decreases |pool[id].pending| + |pool[id].backlog|
      {
        ghost var before := View();
        var live := DrainTurnLocked(id, now);
        if live {
          return;
        }
        ghost var taken := View();
        SendAll(id);
        SentAllIs(taken, id);
        if dying {
          AbandonDrainOf(id);
          return;
        }
        SentAllDrains(taken, id, now);
        first := false;
      }
    }

    // --- the match -------------------------------------------------------

    method EnterSeatsLocked(goAtMs: int)
      requires Valid()
      modifies this`pool
      ensures Valid() && pool == map id | id in old(pool) ::
        if id in seats then EnterMatch(old(pool)[id], goAtMs) else old(pool)[id]
    {
      ghost var before := pool;
      for i := 0 to |seats|
        invariant pool.Keys == before.Keys
        invariant forall id <- pool :: pool[id] == if id in seats[..i] then EnterMatch(before[id], goAtMs) else before[id]
      {
        var s := pool[seats[i]];
        assert seats[i] !in seats[..i];
        pool := pool[seats[i] := s.(status := Active, lastSeq := 0, batches := [], eventCount := 0,
                                    finishedAtMs := 0, lastBatchMs := goAtMs, activeBuckets := 0, lastBucket := -1,
                                    disconnected := s.sess.None?, backlog := [])];
      }
      assert seats[..|seats|] == seats;
      SameUsers(index.users, rid, before, pool);
    }

    method ReadyEnoughLocked(force: bool) returns (ok: bool)
      requires View().Wf()
      ensures ok == (force || forall id <- seats :: hostId == Some(pool[id].playerId) || pool[id].ready)
    {
      if !force {
        for i := 0 to |seats|
          invariant forall j :: 0 <= j < i ==> hostId == Some(pool[seats[j]].playerId) || pool[seats[j]].ready
        {
          if hostId != Some(pool[seats[i]].playerId) && !pool[seats[i]].ready {
            assert seats[i] in seats;
            return false;
          }
        }
      }
      return true;
    }

    method Start(sess: SessionId, force: bool, mid: MatchId, now: int)
      requires Valid()
      modifies this
      ensures View() == StartMatch(old(View()), sess, force, mid, now) && Valid()
    {
      var me := FindSeatLocked(sess);
      if me.None? || hostId != Some(pool[me.value].playerId) || inMatch || |seats| < 2 {
        return;
      }
      var ok := ReadyEnoughLocked(force);
      if !ok {
        return;
      }
      BeginMatchLocked(mid, now);
    }

    method BeginMatchLocked(mid: MatchId, now: int)
      requires Valid()
      modifies this
      ensures Valid()
      ensures var r := old(View());
        View() == Touch(r.(
          pool := map id | id in r.pool ::
            if id in r.seats then EnterMatch(r.pool[id], now + COUNTDOWN_LEAD_MS) else r.pool[id],
          mtch := Some(Match(mid, now + COUNTDOWN_LEAD_MS, r.settings, r.seats, None, false)), inMatch := true,
          accepted := [],
          started := r.started + [StartRecord(mid, Players(r), DeadlineDelayMs(r.settings))]), now)
    {
      ghost var players := Players(View());
      var goAt := now + COUNTDOWN_LEAD_MS;
      EnterSeatsLocked(goAt);
      mtch := Some(Match(mid, goAt, settings, seats, None, false));
      inMatch := true;
      accepted := [];
      started := started + [StartRecord(mid, players, DeadlineDelayMs(settings))];
      TouchLocked(now);
    }

    /** Hand the relayed batch to every other roster seat, buffering where needed. */
    method FanOutLocked(me: SeatId, f: Frame)
      requires Valid() && me in pool && mtch.Some?
      modifies this`pool
      ensures Valid() && pool == map id | id in old(pool) ::
        if id != me && id in mtch.value.roster then HandBatch(old(pool)[id], f) else old(pool)[id]
    {
      ghost var before := pool;
      var roster := mtch.value.roster;
      for i := 0 to |roster|
        invariant pool.Keys == before.Keys
        invariant forall id <- pool :: pool[id] ==
                    (if id != me && id in roster[..i] then HandBatch(before[id], f) else before[id])
      {
        var other := roster[i];
        assert other !in roster[..i];
        var s := pool[other];
        if other != me {
          if s.disconnected {
            pool := pool[other := s.(backlog := s.backlog + [f])];
          } else if s.sess.Some? {
            pool := pool[other := s.(queue := s.queue + [f])];
          }
        }
        assert forall x :: x in roster[..i+1] <==> x in roster[..i] || x == other;
      }
      assert roster[..|roster|] == roster;
      SameUsers(index.users, rid, before, pool);
    }

    method RelayEventBatch(sess: SessionId, eb: EventBatch, recvMs: int, now: int) returns (taken: bool)
      requires Valid()
      modifies this
      ensures View() == Relay(old(View()), sess, eb, recvMs, now) && Valid()
      ensures taken == (FindSeat(old(pool), seats, sess).Some?
                        && Acceptable(old(View()), FindSeat(old(pool), seats, sess).value, eb))
    {
      var me := FindSeatLocked(sess);
      if me.None? || mtch.None? {
        return false;
      }
      var id := me.value;
      if eb.matchId != mtch.value.id || pool[id].status != Active || eb.events == []
         || eb.batchSeq != pool[id].lastSeq + 1 || pool[id].eventCount + |eb.events| > MAX_CAPTURED_EVENTS {
        return false;
      }
      AcceptBatchLocked(id, sess, eb, recvMs, now);
      return true;
    }

    /** The batch is captured on its sender and handed to everybody else. */
    method AcceptBatchLocked(id: SeatId, ghost sess: SessionId, eb: EventBatch, recvMs: int, now: int)
      requires Valid() && FindSeat(pool, seats, sess) == Some(id) && Acceptable(View(), id, eb)
      modifies this
      ensures View() == Relay(old(View()), sess, eb, recvMs, now) && Valid()
    {
      var f := PeerBatch(mtch.value.id, pool[id].playerId, eb.version, eb.events);
      FanOutLocked(id, f);
      SetSeatLocked(id, Capture(pool[id], mtch.value.goAtMs, eb, recvMs));
      assert pool == Relay(old(View()), sess, eb, recvMs, now).pool;
      accepted := accepted + [Accepted(id, f)];
      TouchLocked(now);
    }

    method FinishRun(sess: SessionId, mid: MatchId, forfeit: bool, now: int)
      requires Valid()
      modifies this, index
      ensures View() == Finish(old(View()), sess, mid, forfeit, now) && Valid()
      ensures index.users == Unindexed(old(index.users), rid, old(seats), seats)
    {
      UnindexedNone(index.users, rid, seats);
      var me := FindSeatLocked(sess);
      if me.None? || mtch.None? || mid != mtch.value.id || pool[me.value].status != Active {
        return;
      }
      if forfeit {
        SetSeatLocked(me.value, pool[me.value].(status := Dnf));
        EndIfDoneLocked(now);
        return;
      }
      SetSeatLocked(me.value, pool[me.value].(status := Finished, finishedAtMs := now));
      var done := AllTerminalLocked();
      if done {
        EndMatchLocked(AllFinished, now);
      } else if IsCounted(mtch.value.settings.mode) && mtch.value.finishWindowAtMs.None? {
        mtch := Some(mtch.value.(finishWindowAtMs := Some(now)));
      }
    }

    /** Walk the roster and dnf every racing seat among `out`. */
    method DnfLocked(out: set<SeatId>)
      requires Valid() && mtch.Some?
      modifies this`pool
      ensures View() == DnfWhere(old(View()), out) && Valid()
    {
      ghost var before := pool;
      var roster := mtch.value.roster;
      for i := 0 to |roster|
        invariant pool.Keys == before.Keys
        invariant forall id <- pool :: pool[id] == DnfIf(before[id], id in roster[..i] && id in out)
      {
        var id := roster[i];
        assert id !in roster[..i];
        if id in out && pool[id].status == Active {
          pool := pool[id := pool[id].(status := Dnf)];
        }
        assert forall x :: x in roster[..i+1] <==> x in roster[..i] || x == id;
      }
      assert roster[..|roster|] == roster;
      SameUsers(index.users, rid, before, pool);
      DnfPool(old(View()), out, pool);
    }

    /** onDeadline and onFinishWindow. */
    method OnTimer(mid: MatchId, reason: Reason, now: int)
      requires Valid()
      modifies this, index
      ensures View() == ForceEnd(old(View()), mid, reason, now) && Valid()
      ensures index.users == Unindexed(old(index.users), rid, old(seats), seats)
    {
      UnindexedNone(index.users, rid, seats);
      if mtch.None? || mtch.value.id != mid || mtch.value.ended {
        return;
      }
      DnfLocked(pool.Keys);
      EndMatchLocked(reason, now);
    }

    method SweepAfkSeats(mid: MatchId, now: int)
      requires Valid()
      modifies this, index
      ensures View() == SweepAfk(old(View()), mid, now) && Valid()
      ensures index.users == Unindexed(old(index.users), rid, old(seats), seats)
    {
      UnindexedNone(index.users, rid, seats);
      if mtch.None? || mtch.value.id != mid || mtch.value.ended {
        return;
      }
      var m := mtch.value;
      var out: set<SeatId> := {};
      for i := 0 to |m.roster|
        invariant out == set j | 0 <= j < i && SweptOut(pool[m.roster[j]], m, now) :: m.roster[j]
      {
        if SweptOut(pool[m.roster[i]], m, now) {
          out := out + {m.roster[i]};
        }
      }
      assert out == SweepSet(View(), now);
      if out != {} {
        DnfLocked(out);
        EndIfDoneLocked(now);
      }
    }

    // --- the idle reaper -------------------------------------------------

    /** The reaper's `expire` arm: the first seat leaves until none is left. */
    method EmptyRoomLocked(now: int)
      requires Valid() && mtch.None?
      modifies this, index
      ensures View() == LeaveAll(old(View()), now) && Valid() && seats == []
      ensures index.users == Unindexed(old(index.users), rid, old(seats), seats)
    {
      UnindexedNone(index.users, rid, seats);
      while |seats| > 0
        invariant Valid() && mtch.None? && LeaveAll(View(), now) == LeaveAll(old(View()), now)
        invariant forall x <- seats :: x in old(seats)
        invariant index.users == Unindexed(old(index.users), rid, old(seats), seats)
        decreases |seats|
      {
        ghost var mid := seats;
        assert Without(seats, seats[0]) == seats[1..];
        LeaveSeatLocked(seats[0], now);
        UnindexedTwice(old(index.users), rid, old(seats), mid, seats);
      }
    }

    method ReapIdleRoom(now: int)
      requires Valid() && inMatch == mtch.Some?
      modifies this, index
      ensures View() == ReapIdle(old(View()), now) && Valid()
      ensures index.users == Unindexed(old(index.users), rid, old(seats), seats)
    {
      UnindexedNone(index.users, rid, seats);
      if inMatch {
        return;
      }
      var idle := now - lastActivityMs;
      if idle >= ROOM_IDLE_TIMEOUT_MS {
        EmptyRoomLocked(now);
      } else if idle >= ROOM_IDLE_TIMEOUT_MS - ROOM_IDLE_WARNING_MS && !idleWarned {
        idleWarned := true;
      }
    }

    method PassHost(sess: SessionId, target: PlayerId, now: int)
      requires Valid()
      modifies this
      ensures View() == TransferHost(old(View()), sess, target, now) && Valid()
    {
      var me := FindSeatLocked(sess);
      if me.None? || hostId != Some(pool[me.value].playerId) || inMatch {
        return;
      }
      var k := SeatIndexByIdLocked(target);
      if k < 0 || hostId == Some(target) {
        return;
      }
      hostId := Some(target);
      TouchLocked(now);
    }

    method SetReadyFlag(sess: SessionId, value: bool, now: int)
      requires Valid()
      modifies this
      ensures View() == SetReady(old(View()), sess, value, now) && Valid()
    {
      var me := FindSeatLocked(sess);
      if me.None? || inMatch || pool[me.value].ready == value {
        return;
      }
      SetSeatLocked(me.value, pool[me.value].(ready := value));
      TouchLocked(now);
    }
  }

  /** Sending moves what was taken to the queue, in order. */
  lemma {:induction false} SentAllIs(r: Room, id: SeatId)
    requires r.Wf() && id in r.pool
    ensures var s := r.pool[id];
      SentAll(r, id) == Put(r, id, s.(queue := s.queue + s.pending, pending := []))
    decreases |r.pool[id].pending|
  {
    var s := r.pool[id];
    if s.pending == [] {
      assert s.queue + s.pending == s.queue && r.pool[id := s] == r.pool;
    } else {
      SentAllIs(SendPending(r, id), id);
      assert s.queue + [s.pending[0]] + s.pending[1..] == s.queue + s.pending;
    }
  }

  function Live(s: Seat, now: int): (s': Seat)
    requires s.drain.Some?
  {
    s.(queue := s.queue + s.pending + s.backlog, pending := [], backlog := [], disconnected := false, drain := None,
       lastBatchMs := if s.drain.value.midMatch then now else s.lastBatchMs)
  }

  lemma LastTurn(r: Room, id: SeatId, now: int)
    requires r.Wf() && id in r.pool && r.pool[id].drain.Some? && r.pool[id].backlog == []
    ensures Drained(r, id, now) == Put(r, id, Live(r.pool[id], now))
  {
    var s := r.pool[id];
    SentAllDrains(r, id, now);
    SentAllIs(r, id);
    assert s.queue + s.pending + [] == s.queue + s.pending;
  }

  /** A whole drain: what was taken and what is buffered, in that order, and live. */
  lemma DrainedIsAll(r: Room, id: SeatId, now: int)
    requires r.Wf() && id in r.pool && r.pool[id].drain.Some?
    ensures Drained(r, id, now) == Put(r, id, Live(r.pool[id], now))
  {
    if r.pool[id].backlog == [] {
      LastTurn(r, id, now);
    } else {
      SentAllDrains(r, id, now);
      SentAllIs(r, id);
      var taken := DrainTurn(SentAll(r, id), id, now);
      var s, t := r.pool[id], taken.pool[id];
      LastTurn(taken, id, now);
      assert t == s.(queue := s.queue + s.pending, pending := s.backlog, backlog := []);
      assert t.queue + t.pending + [] == s.queue + s.pending + s.backlog;
      assert taken.pool[id := Live(t, now)] == r.pool[id := Live(s, now)];
    }
  }

  lemma {:induction false} SentAllDrains(r: Room, id: SeatId, now: int)
    requires r.Wf() && id in r.pool && r.pool[id].drain.Some?
    ensures SentAll(r, id).pool[id].drain.Some? && Drained(SentAll(r, id), id, now) == Drained(r, id, now)
    decreases |r.pool[id].pending|
  {
    if r.pool[id].pending != [] {
      SentAllDrains(SendPending(r, id), id, now);
    }
  }


  /** The invariant of the state machine is more than the methods ask for. */
  lemma InvIsValid(room: LiveRoom)
    requires Inv(room.View()) && Consistent(room.index.users, room.rid, room.pool)
    ensures room.Valid() && room.inMatch == room.mtch.Some?
  {
    assert forall i, j :: 0 <= i < j < |room.seats| ==>
      room.pool[room.seats[i]].joinSeq < room.pool[room.seats[j]].joinSeq;
  }

  ghost function DnfIf(s: Seat, due: bool): Seat {
    if due && s.status == Active then s.(status := Dnf) else s
  }

  lemma DnfPool(r: Room, out: set<SeatId>, pool: map<SeatId, Seat>)
    requires r.Wf() && r.mtch.Some? && pool.Keys == r.pool.Keys
    requires forall id <- pool :: pool[id] == DnfIf(r.pool[id], id in r.mtch.value.roster && id in out)
    ensures pool == DnfWhere(r, out).pool
  {}

  lemma EndIfDoneSeats(r: Room, now: int)
    requires r.Wf()
    ensures forall x <- EndIfDone(r, now).seats :: x in r.seats
  {}

  /** Seat `id` of `r` with the match end handed to it, if it is its turn. */
  ghost function HandedEnd(r: Room, m: Match, due: bool, id: SeatId): Seat
    requires r.Wf() && id in r.pool
  {
    var s := r.pool[id];
    if due then HandEnd(s, Present(r, s.playerId), MatchEndFrame(m.id)) else s
  }

  lemma SameUsers(users: map<UserId, SeatRef>, rid: RoomId, pool: map<SeatId, Seat>, pool': map<SeatId, Seat>)
    requires Consistent(users, rid, pool) && pool'.Keys == pool.Keys
    requires forall id <- pool :: pool'[id].userId == pool[id].userId
    ensures Consistent(users, rid, pool')
  {}

  lemma EndedPoolIs(r: Room, m: Match, pool: map<SeatId, Seat>)
    requires r.Wf() && pool.Keys == r.pool.Keys
    requires forall id <- pool ::
      pool[id] == (var s := HandedEnd(r, m, id in m.roster, id); if id in r.seats then LobbyReset(s) else s)
    ensures pool == EndedPool(r, m)
  {}

  /** One turn of the backwards reap. */
  lemma ReapTurn(pool: map<SeatId, Seat>, all: seq<SeatId>, i: nat)
    requires i < |all| && forall id <- all :: id in pool
    ensures var now := all[..i+1] + Survivors(pool, all[i+1..]);
      && now[i] == all[i]
      && all[..i] + Survivors(pool, all[i..])
         == if pool[all[i]].sess.None? && !pool[all[i]].disconnected then now[..i] + now[i+1..] else now
  {
    assert all[i..][0] == all[i] && all[i..][1..] == all[i+1..];
    var now := all[..i+1] + Survivors(pool, all[i+1..]);
    assert now[..i] == all[..i] && now[i+1..] == Survivors(pool, all[i+1..]);
    assert all[..i+1] == all[..i] + [all[i]];
  }

  lemma SamePresence(r: Room, r': Room, p: PlayerId)
    requires r.Wf() && r'.Wf() && r'.seats == r.seats
    requires forall id <- r.seats :: r'.pool[id].playerId == r.pool[id].playerId
    ensures Present(r', p) == Present(r, p)
  {}
}
