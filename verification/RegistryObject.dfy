/** The registry as the object it is: `create` and `join` written out as they run
    under the registry lock, here without another goroutine in between. */
module RegistryObject {
  import opened RoomTypes
  import opened RoomSteps
  import opened RoomActions
  import opened RegistryModel
  import opened RegistryRuns

  /** A seat object nobody has made yet, for a session that is not in the room
      `code` already, unless by its account's seat. It may have been in any room
      before, this one included. */
  ghost predicate Newcomer(g: Registry, code: Code, who: Joiner) {
    && NewSeatId(g, who.seat)
    && (code in g.rooms && Usable(g, g.rooms[code]) && !HeldHere(g, code, who.user) ==>
          !Present(g.store[g.rooms[code]].room, who.player))
  }

  predicate HeldHere(g: Registry, code: Code, u: UserId) {
    code in g.rooms && SeatOfUser(g, u).Some? && SeatOfUser(g, u).value.room == g.rooms[code]
  }

  ghost predicate ClockAt(g: Registry, now: int) {
    forall rid <- g.store :: g.store[rid].room.clock <= now
  }

  /** The account's seat is racing. */
  ghost predicate RacingElsewhere(g: Registry, u: UserId) {
    var held := SeatOfUser(g, u);
    && held.Some? && Usable(g, held.value.room) && held.value.seat in g.store[held.value.room].room.pool
    && Racing(g.store[held.value.room].room, held.value.seat)
  }

  // ---------------------------------------------------------------- uninterrupted

  /** The seat `held` is released, and its room removed if that leaves it empty. */
  function GivenUp(g: Registry, held: SeatRef, now: int): (g': Registry)
    requires Usable(g, held.room) && held.seat in g.store[held.room].room.pool
  {
    Pruned(Update(g, held.room, Release(g.store[held.room].room.(clock := now), held.seat, now)), g.store[held.room].code)
  }

  function SeatedIn(g: Registry, rid: RoomId, who: Joiner, asHost: bool, now: int): (g': Registry)
    requires Usable(g, rid)
  {
    g.(store := g.store[rid := g.store[rid].(room :=
         TakeSeat(g.store[rid].room.(clock := now), who.seat, who.sess, who.player, who.user, asHost, now))],
       users := if who.user == "" then g.users else g.users[who.user := SeatRef(rid, who.seat)])
  }

  function Opened(g: Registry, now: int, code: Code, newRoom: RoomId): (g': Registry) {
    g.(rooms := g.rooms[code := newRoom], store := g.store[newRoom := Listed(code, NewRoom(now))])
  }

  lemma GivenUpOk(g: Registry, who: Joiner, held: SeatRef, dest: Option<RoomId>, now: int)
    requires Ok(g) && OpOk(g.(op := Releasing(who, held, dest))) && ClockAt(g, now)
    requires !ReleaseRefused(g.store[held.room].room, held.seat)
    ensures Ok(GivenUp(g, held, now)) && OpOk(GivenUp(g, held, now).(op := TowardsSeat(who, dest)))
  {
    var g0 := g.(op := Releasing(who, held, dest));
    ReleaseOk(g0, now, "", 0);
    var g1 := Next(g0, now, "", 0).0;
    PruningOk(g1, now, "", 0);
    assert Next(g1, now, "", 0).0 == GivenUp(g, held, now).(op := TowardsSeat(who, dest));
  }

  lemma GivenUpRest(g: Registry, held: SeatRef, now: int)
    requires Usable(g, held.room) && held.seat in g.store[held.room].room.pool
    ensures var g' := GivenUp(g, held, now);
      && g'.store.Keys == g.store.Keys && (forall rid <- g.store :: rid != held.room ==> g'.store[rid] == g.store[rid])
      && (forall c <- g'.rooms :: c in g.rooms)
  {}

  lemma SeatedOk(g: Registry, rid: RoomId, who: Joiner, asHost: bool, now: int)
    requires Ok(g) && OpOk(g.(op := Seating(who, rid, asHost))) && g.store[rid].room.clock <= now
    requires !Present(g.store[rid].room, who.player) && g.op.Free?
    ensures Ok(SeatedIn(g, rid, who, asHost, now)) && HoldsSeat(SeatedIn(g, rid, who, asHost, now), who.user, rid, who.seat)
  {
    var g0 := g.(op := Seating(who, rid, asHost));
    SeatingOk(g0, now, "", 0);
    SeatingAdds(g.store, rid, who, asHost, now);
    assert Next(g0, now, "", 0).0 == SeatedIn(g, rid, who, asHost, now);
  }

  lemma OpenedOk(g: Registry, who: Joiner, now: int, code: Code, newRoom: RoomId)
    requires Ok(g) && OpOk(g.(op := Opening(who))) && code !in g.rooms && newRoom !in g.store
    ensures Ok(Opened(g, now, code, newRoom)) && OpOk(Opened(g, now, code, newRoom).(op := Seating(who, newRoom, true)))
  {
    var g0 := g.(op := Opening(who));
    OpeningOk(g0, now, code, newRoom);
    assert Next(g0, now, code, newRoom).0 == Opened(g, now, code, newRoom).(op := Seating(who, newRoom, true));
  }

  lemma RefusedWhenRacing(g: Registry, who: Joiner, held: SeatRef, dest: Option<RoomId>)
    requires Ok(g) && SeatOfUser(g, who.user) == Some(held) && OpOk(g.(op := Releasing(who, held, dest)))
    ensures ReleaseRefused(g.store[held.room].room, held.seat) <==> RacingElsewhere(g, who.user)
  {
    assert RoomOk(g.store, held.room);
  }

  /** What `create` leaves and answers. */
  function Created(g: Registry, who: Joiner, now: int, code: Code, newRoom: RoomId): (r: (Registry, Outcome))
    requires OpOk(Begin(g, BeginCreate(who)).0)
  {
    var held := SeatOfUser(g, who.user);
    if held.Some? && ReleaseRefused(g.store[held.value.room].room, held.value.seat) then (g, InMatchElsewhere)
    else
      var g1 := if held.Some? then GivenUp(g, held.value, now) else g;
      (SeatedIn(Opened(g1, now, code, newRoom), newRoom, who, true, now), Seated(newRoom))
  }

  /** A new room with its host in it, or nothing at all while the account races. */
  lemma CreatedIs(g: Registry, who: Joiner, now: int, code: Code, newRoom: RoomId)
    requires Ok(g) && g.op.Free? && NewSeatId(g, who.seat) && ClockAt(g, now) && code !in g.rooms && newRoom !in g.store
    ensures OpOk(Begin(g, BeginCreate(who)).0)
    ensures var (g', out) := Created(g, who, now, code, newRoom);
      && Ok(g') && (out == InMatchElsewhere <==> RacingElsewhere(g, who.user))
      && (if out == InMatchElsewhere then g' == g
          else out == Seated(newRoom) && HoldsSeat(g', who.user, newRoom, who.seat) && g'.rooms[code] == newRoom)
  {
    BeginOk(g, BeginCreate(who));
    var held := SeatOfUser(g, who.user);
    if held.Some? {
      RefusedWhenRacing(g, who, held.value, None);
    }
    if !RacingElsewhere(g, who.user) {
      CreatedSeats(g, who, now, code, newRoom);
    }
  }

  /** From giving up the old seat to the seat in the new room. */
  lemma OpenedAndSeated(g: Registry, who: Joiner, now: int, code: Code, newRoom: RoomId)
    requires Ok(g) && g.op.Free? && OpOk(g.(op := Opening(who))) && code !in g.rooms && newRoom !in g.store
    ensures var g' := SeatedIn(Opened(g, now, code, newRoom), newRoom, who, true, now);
      Ok(g') && HoldsSeat(g', who.user, newRoom, who.seat) && code in g'.rooms && g'.rooms[code] == newRoom
  {
    OpenedOk(g, who, now, code, newRoom);
    SeatedOk(Opened(g, now, code, newRoom), newRoom, who, true, now);
  }

  lemma CreatedSeats(g: Registry, who: Joiner, now: int, code: Code, newRoom: RoomId)
    requires Ok(g) && g.op.Free? && ClockAt(g, now) && code !in g.rooms && newRoom !in g.store
    requires OpOk(Begin(g, BeginCreate(who)).0) && Created(g, who, now, code, newRoom).1 != InMatchElsewhere
    ensures var (g', out) := Created(g, who, now, code, newRoom);
      Ok(g') && out == Seated(newRoom) && HoldsSeat(g', who.user, newRoom, who.seat) && g'.rooms[code] == newRoom
  {
    var held := SeatOfUser(g, who.user);
    if held.Some? {
      GivenUpOk(g, who, held.value, None, now);
      GivenUpRest(g, held.value, now);
      OpenedAndSeated(GivenUp(g, held.value, now), who, now, code, newRoom);
    } else {
      OpenedAndSeated(g, who, now, code, newRoom);
    }
  }

  /** What `join` leaves and answers. */
  ghost function Joined(g: Registry, code: Code, who: Joiner, now: int): (r: (Registry, Outcome))
    requires OpOk(Begin(g, BeginJoin(code, who)).0)
  {
    if code !in g.rooms then (g, RoomNotFound) else
      var room := g.rooms[code];
      var held := SeatOfUser(g, who.user);
      if held.Some? && held.value.room == room then
        (Update(g, room, Detach(g.store[room].room, held.value.seat)), Reclaim(room, held.value.seat))
      else if |g.store[room].room.seats| >= ROOM_CAPACITY then (g, RoomFull)
      else if held.Some? && ReleaseRefused(g.store[held.value.room].room, held.value.seat) then (g, InMatchElsewhere)
      else
        var g1 := if held.Some? then GivenUp(g, held.value, now) else g;
        if !Usable(g1, room) then (g1, RoomFull) else (SeatedIn(g1, room, who, false, now), Seated(room))
  }

  /** Which of the five answers a join gives. */
  ghost predicate Answers(g: Registry, code: Code, who: Joiner, out: Outcome) {
    if code !in g.rooms then out == RoomNotFound else
      var room, held := g.rooms[code], SeatOfUser(g, who.user);
      if held.Some? && held.value.room == room then out == Reclaim(room, held.value.seat)
      else if room in g.store && |g.store[room].room.seats| >= ROOM_CAPACITY then out == RoomFull
      else if RacingElsewhere(g, who.user) then out == InMatchElsewhere
      else out == Seated(room)
  }

  /** The registry stays in order, a refusal changes nothing, a reclaim names the
      seat the account holds, and a seat given is a seat held. */
  ghost predicate Settled(g: Registry, who: Joiner, g': Registry, out: Outcome) {
    && Ok(g')
    && (out.Failed() ==> g' == g)
    && (out.Reclaim? ==> HoldsSeat(g, who.user, out.room, out.seat))
    && (out.Seated? ==> HoldsSeat(g', who.user, out.room, who.seat))
  }

  lemma JoinedIs(g: Registry, code: Code, who: Joiner, now: int)
    requires Ok(g) && g.op.Free? && Newcomer(g, code, who) && ClockAt(g, now)
    ensures OpOk(Begin(g, BeginJoin(code, who)).0)
    ensures Answers(g, code, who, Joined(g, code, who, now).1)
    ensures Settled(g, who, Joined(g, code, who, now).0, Joined(g, code, who, now).1)
  {
    BeginOk(g, BeginJoin(code, who));
    if code in g.rooms {
      var room := g.rooms[code];
      var held := SeatOfUser(g, who.user);
      if held.Some? && held.value.room == room {
        JoinedReclaims(g, code, who, now);
      } else if |g.store[room].room.seats| < ROOM_CAPACITY {
        if held.Some? {
          JoinedMoves(g, code, who, now);
        } else {
          JoinedSeats(g, code, who, now);
        }
      }
    }
  }

  lemma JoinedReclaims(g: Registry, code: Code, who: Joiner, now: int)
    requires Ok(g) && g.op.Free? && code in g.rooms && OpOk(Begin(g, BeginJoin(code, who)).0)
    requires SeatOfUser(g, who.user).Some? && SeatOfUser(g, who.user).value.room == g.rooms[code]
    ensures Answers(g, code, who, Joined(g, code, who, now).1)
    ensures Settled(g, who, Joined(g, code, who, now).0, Joined(g, code, who, now).1)
  {
    var g0 := Begin(g, BeginJoin(code, who)).0;
    DetachOk(g0, now, "", 0);
    assert Next(g0, now, "", 0).0 == Joined(g, code, who, now).0;
    RoomUsable(g, g.rooms[code]);
  }

  lemma JoinedSeats(g: Registry, code: Code, who: Joiner, now: int)
    requires Ok(g) && g.op.Free? && Newcomer(g, code, who) && ClockAt(g, now) && code in g.rooms
    requires OpOk(g.(op := Checking(who, g.rooms[code], None))) && SeatOfUser(g, who.user).None?
    requires |g.store[g.rooms[code]].room.seats| < ROOM_CAPACITY
    ensures OpOk(Begin(g, BeginJoin(code, who)).0)
    ensures Answers(g, code, who, Joined(g, code, who, now).1)
    ensures Settled(g, who, Joined(g, code, who, now).0, Joined(g, code, who, now).1)
  {
    SeatedOk(g, g.rooms[code], who, false, now);
  }

  lemma JoinedMoves(g: Registry, code: Code, who: Joiner, now: int)
    requires Ok(g) && g.op.Free? && Newcomer(g, code, who) && ClockAt(g, now) && code in g.rooms
    requires OpOk(Begin(g, BeginJoin(code, who)).0) && |g.store[g.rooms[code]].room.seats| < ROOM_CAPACITY
    requires SeatOfUser(g, who.user).Some? && SeatOfUser(g, who.user).value.room != g.rooms[code]
    ensures Answers(g, code, who, Joined(g, code, who, now).1)
    ensures Settled(g, who, Joined(g, code, who, now).0, Joined(g, code, who, now).1)
  {
    var room, held := g.rooms[code], SeatOfUser(g, who.user).value;
    CheckedToReleasing(g, who, room, held);
    RefusedWhenRacing(g, who, held, Some(room));
    if !ReleaseRefused(g.store[held.room].room, held.seat) {
      MovedOver(g, room, who, held, now);
    }
  }

  lemma CheckedToReleasing(g: Registry, who: Joiner, room: RoomId, held: SeatRef)
    requires OpOk(g.(op := Checking(who, room, Some(held)))) && |g.store[room].room.seats| < ROOM_CAPACITY
    ensures OpOk(g.(op := Releasing(who, held, Some(room))))
  {}

  lemma MovedOver(g: Registry, room: RoomId, who: Joiner, held: SeatRef, now: int)
    requires Ok(g) && g.op.Free? && ClockAt(g, now) && Usable(g, room) && !Present(g.store[room].room, who.player)
    requires OpOk(g.(op := Releasing(who, held, Some(room)))) && !ReleaseRefused(g.store[held.room].room, held.seat)
    ensures var g1 := GivenUp(g, held, now);
      Usable(g1, room) && Ok(SeatedIn(g1, room, who, false, now)) && HoldsSeat(SeatedIn(g1, room, who, false, now), who.user, room, who.seat)
  {
    GivenUpOk(g, who, held, Some(room), now);
    GivenUpRest(g, held, now);
    SeatedOk(GivenUp(g, held, now), room, who, false, now);
  }

  // ---------------------------------------------------------------- the object

  class LiveRegistry {
    var rooms: map<Code, RoomId>
    var store: map<RoomId, Listed>
    var users: map<UserId, SeatRef>

    ghost function View(): (g: Registry) reads this {
      Registry(rooms, store, users, Free)
    }

    constructor ()
      ensures View() == EmptyRegistry()
    {
      rooms, store, users := map[], map[], map[];
    }

    method SeatOf(u: UserId) returns (held: Option<SeatRef>)
      ensures held == SeatOfUser(View(), u)
    {
      if u == "" || u !in users {
        return None;
      }
      held := Some(users[u]);
    }

    method RemoveIfEmptyLocked(code: Code)
      modifies this
      ensures View() == Pruned(old(View()), code)
    {
      if code in rooms && rooms[code] in store && store[rooms[code]].room.seats == [] {
        rooms := rooms - {code};
      }
    }

    /** Puts a room as it is now, and unindexes the seats that went. */
    method SetRoom(rid: RoomId, r: Room)
      requires rid in store
      modifies this
      ensures View() == Update(old(View()), rid, r)
    {
      users := Unindexed(users, rid, store[rid].room.seats, r.seats);
      store := store[rid := store[rid].(room := r)];
    }

    method GiveUp(held: SeatRef, now: int) returns (ok: bool)
      requires Usable(View(), held.room) && held.seat in store[held.room].room.pool
      modifies this
      ensures ok <==> !ReleaseRefused(old(store)[held.room].room, held.seat)
      ensures View() == if ok then GivenUp(old(View()), held, now) else old(View())
    {
      var cur := store[held.room].room;
      if ReleaseRefused(cur, held.seat) {
        return false;
      }
      SetRoom(held.room, Release(cur.(clock := now), held.seat, now));
      RemoveIfEmptyLocked(store[held.room].code);
      ok := true;
    }

    method TakeSeatIn(rid: RoomId, who: Joiner, asHost: bool, now: int)
      requires Usable(View(), rid)
      modifies this
      ensures View() == SeatedIn(old(View()), rid, who, asHost, now)
    {
      var r := store[rid].room;
      var r' := TakeSeat(r.(clock := now), who.seat, who.sess, who.player, who.user, asHost, now);
      store := store[rid := store[rid].(room := r')];
      if who.user != "" {
        users := users[who.user := SeatRef(rid, who.seat)];
      }
    }

    method Create(who: Joiner, now: int, code: Code, newRoom: RoomId) returns (out: Outcome)
      requires Ok(View()) && NewSeatId(View(), who.seat) && ClockAt(View(), now)
      requires code !in rooms && newRoom !in store
      modifies this
      ensures OpOk(Begin(old(View()), BeginCreate(who)).0)
      ensures (View(), out) == Created(old(View()), who, now, code, newRoom)
    {
      BeginOk(View(), BeginCreate(who));
      var held := SeatOf(who.user);
      if held.Some? {
        var ok := GiveUp(held.value, now);
        if !ok {
          return InMatchElsewhere;
        }
      }
      store := store[newRoom := Listed(code, NewRoom(now))];
      rooms := rooms[code := newRoom];
      TakeSeatIn(newRoom, who, true, now);
      out := Seated(newRoom);
    }

    method Join(code: Code, who: Joiner, now: int) returns (out: Outcome)
      requires Ok(View()) && Newcomer(View(), code, who) && ClockAt(View(), now)
      modifies this
      ensures OpOk(Begin(old(View()), BeginJoin(code, who)).0)
      ensures (View(), out) == Joined(old(View()), code, who, now)
    {
      BeginOk(View(), BeginJoin(code, who));
      if code !in rooms {
        return RoomNotFound;
      }
      var room := rooms[code];
      var held := SeatOf(who.user);
      if held.Some? && held.value.room == room {
        SetRoom(room, Detach(store[room].room, held.value.seat));
        return Reclaim(room, held.value.seat);
      }
      if |store[room].room.seats| >= ROOM_CAPACITY {
        return RoomFull;
      }
      ghost var g := View();
      if held.Some? {
        var ok := GiveUp(held.value, now);
        if !ok {
          return InMatchElsewhere;
        }
        GivenUpRest(g, held.value, now);
      }
      TakeSeatIn(room, who, false, now);
      out := Seated(room);
    }
  }
}
