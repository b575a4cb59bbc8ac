/** One seat per account, in every state any interleaving can reach. */
module RegistryRuns {
  import opened RoomTypes
  import opened RoomSteps
  import opened RoomActions
  import opened RoomInvariant
  import opened RoomPreservation
  import opened RoomRuns
  import opened RoomHost
  import opened RegistryModel

  // --- a room acts -------------------------------------------------------

  lemma StoreRooms(store: map<RoomId, Listed>, rid: RoomId, l: Listed)
    requires RoomsOk(store) && Inv(l.room)
    ensures RoomsOk(store[rid := l])
  {
    var store' := store[rid := l];
    forall x | x in store' ensures RoomOk(store', x) {
      assert x != rid ==> RoomOk(store, x);
    }
  }

  ghost predicate UniquePlayers(r: Room) {
    r.Wf() && forall x, y :: x in r.seats && y in r.seats && r.pool[x].playerId == r.pool[y].playerId ==> x == y
  }

  lemma RoomUsable(g: Registry, rid: RoomId)
    requires RoomsOk(g.store) && rid in g.store
    ensures Usable(g, rid)
    ensures UniquePlayers(g.store[rid].room)
  {
    assert RoomOk(g.store, rid);
  }

  /** `g'` is `g` after room `rid` has only lost seats. */
  ghost predicate RoomShrank(g: Registry, g': Registry, rid: RoomId, r': Room) {
    rid in g.store && Members(g.store[rid].room, r') && g' == Update(g, rid, r')
  }

  lemma ShrankListing(g: Registry, g': Registry, rid: RoomId, r': Room)
    requires RoomShrank(g, g', rid, r') && ListingOk(g)
    ensures ListingOk(g')
    ensures forall x :: Lists(g, x) ==> Lists(g', x)
  {
    if r'.seats != [] {
      assert r'.seats[0] in g.store[rid].room.seats;
    }
  }

  lemma ShrankIndex(g: Registry, g': Registry, rid: RoomId, r': Room)
    requires RoomShrank(g, g', rid, r') && IndexOk(g)
    ensures IndexOk(g')
  {
    forall x, id | x in g'.store && id in g'.store[x].room.seats ensures Indexed(g', x, id) {
      assert id in g.store[x].room.seats && Indexed(g, x, id);
    }
    forall u | u in g'.users
      ensures u != "" && g'.users[u].room in g'.store
      ensures var q := g'.store[g'.users[u].room].room;
        g'.users[u].seat in q.seats && g'.users[u].seat in q.pool && q.pool[g'.users[u].seat].userId == u
    {
      assert g'.users[u] == g.users[u] && u in g.users;
    }
  }

  lemma ShrankUsable(g: Registry, g': Registry, rid: RoomId, r': Room, x: RoomId)
    requires RoomShrank(g, g', rid, r') && Usable(g, x)
    ensures Usable(g', x) && |g'.store[x].room.seats| <= |g.store[x].room.seats|
  {}

  /** Player ids are unique in the room, so a seat that goes takes its id along. */
  lemma ShrankHeld(g: Registry, g': Registry, rid: RoomId, r': Room, u: UserId, held: SeatRef)
    requires RoomShrank(g, g', rid, r') && RoomsOk(g.store) && HeldOk(g, u, held)
    ensures HeldOk(g', u, held)
  {
    ShrankUsable(g, g', rid, r', held.room);
    RoomUsable(g, rid);
    if held.room == rid {
      var r := g.store[rid].room;
      assert r'.pool[held.seat].playerId == r.pool[held.seat].playerId;
      assert forall id <- r'.seats :: id in r.seats && r'.pool[id].playerId == r.pool[id].playerId;
    }
  }

  /** An account whose seat has gone is seatless. */
  lemma GoneIsSeatless(g: Registry, u: UserId, held: SeatRef)
    requires HeldOk(g, u, held) && IndexOk(g) && held.seat !in g.store[held.room].room.seats
    ensures Seatless(g, u)
  {}

  lemma ShrankOp(g: Registry, g': Registry, rid: RoomId, r': Room)
    requires RoomShrank(g, g', rid, r') && RoomsOk(g.store) && ListingOk(g) && OpOk(g)
    ensures OpOk(g')
  {
    ShrankListing(g, g', rid, r');
    match g.op
    case Checking(who, room, held) =>
      ShrankUsable(g, g', rid, r', room);
      if held.Some? { ShrankHeld(g, g', rid, r', who.user, held.value); }
    case Releasing(who, ref, dest) =>
      if dest.Some? { ShrankUsable(g, g', rid, r', dest.value); }
      ShrankHeld(g, g', rid, r', who.user, ref);
    case Pruning(who, cur, dest) => if dest.Some? { ShrankUsable(g, g', rid, r', dest.value); }
    case Detaching(_, room, _) => ShrankUsable(g, g', rid, r', room);
    case Seating(_, room, _) => ShrankUsable(g, g', rid, r', room);
    case _ =>
  }

  lemma ShrankOk(g: Registry, rid: RoomId, r': Room)
    requires Ok(g) && OpOk(g) && rid in g.store && Members(g.store[rid].room, r')
    requires RoomsOk(g.store[rid := g.store[rid].(room := r')])
    ensures Ok(Update(g, rid, r')) && OpOk(Update(g, rid, r'))
  {
    var g' := Update(g, rid, r');
    ShrankListing(g, g', rid, r');
    ShrankIndex(g, g', rid, r');
    ShrankOp(g, g', rid, r');
  }

  // --- what the sections of create and join do to one room ----------------

  /** Room `rid` may be replaced by `r'`: still in order, with no seat added. */
  ghost predicate Replaceable(store: map<RoomId, Listed>, rid: RoomId, r': Room) {
    rid in store && Members(store[rid].room, r') && RoomsOk(store[rid := store[rid].(room := r')])
  }

  lemma StepReplaces(store: map<RoomId, Listed>, rid: RoomId, a: Action)
    requires RoomsOk(store) && RoomOk(store, rid) && Legal(store[rid].room, a) && !a.TakeSeatA?
    ensures Replaceable(store, rid, Step(store[rid].room, a))
  {
    var r := store[rid].room;
    StepInv(r, a);
    TickCore(r, a);
    PerformShrinks(Tick(r, a), a);
    StoreRooms(store, rid, store[rid].(room := Step(r, a)));
  }

  lemma DetachReplaces(store: map<RoomId, Listed>, rid: RoomId, id: SeatId)
    requires RoomsOk(store) && rid in store && store[rid].room.Wf() && id in store[rid].room.pool
    ensures Replaceable(store, rid, Detach(store[rid].room, id))
  {
    var r := store[rid].room;
    assert RoomOk(store, rid);
    DetachInv(r, id);
    ReconnectShrinks(r, DetachA(id));
    StoreRooms(store, rid, store[rid].(room := Detach(r, id)));
  }

  /** A release that is not refused leaves a room without the seat. */
  lemma ReleaseRemoves(r: Room, id: SeatId, now: int)
    requires r.Wf() && Sorted(r.pool, r.seats) && id in r.pool && !ReleaseRefused(r, id)
    ensures id !in Release(r, id, now).seats
  {
    WithoutSorted(r.pool, r.seats, id);
    if Present(r, r.pool[id].playerId) {
      assert Release(r, id, now) == EndIfDone(Depart(r, id), now);
      EndKeepsOut(Depart(r, id), id, now);
    }
  }

  lemma EndKeepsOut(r: Room, id: SeatId, now: int)
    requires r.Wf() && id !in r.seats
    ensures id !in EndIfDone(r, now).seats
  {}

  lemma ReleaseReplaces(store: map<RoomId, Listed>, rid: RoomId, id: SeatId, now: int)
    requires RoomsOk(store) && rid in store && store[rid].room.Wf() && id in store[rid].room.pool
    requires store[rid].room.clock <= now && !ReleaseRefused(store[rid].room, id)
    ensures var r' := Release(store[rid].room.(clock := now), id, now);
      Replaceable(store, rid, r') && id !in r'.seats
  {
    assert RoomOk(store, rid);
    StepReplaces(store, rid, ReleaseA(id, now));
    ReleaseRemoves(store[rid].room.(clock := now), id, now);
  }

  lemma SeatingAdds(store: map<RoomId, Listed>, rid: RoomId, who: Joiner, asHost: bool, now: int)
    requires RoomsOk(store) && rid in store && store[rid].room.Wf() && |store[rid].room.seats| < ROOM_CAPACITY
    requires store[rid].room.clock <= now && who.seat !in store[rid].room.pool && !Present(store[rid].room, who.player)
    ensures var r := store[rid].room;
      var r' := TakeSeat(r.(clock := now), who.seat, who.sess, who.player, who.user, asHost, now);
      && RoomsOk(store[rid := store[rid].(room := r')]) && r'.seats == r.seats + [who.seat]
      && r'.pool == r.pool[who.seat := NewSeat(who.sess, who.player, who.user, r.nextSeq)]
  {
    assert RoomOk(store, rid);
    var a := TakeSeatA(who.seat, who.sess, who.player, who.user, asHost, now);
    StepInv(store[rid].room, a);
    StoreRooms(store, rid, store[rid].(room := Step(store[rid].room, a)));
  }

  // --- the sections of create and join -----------------------------------

  lemma HeldIsOk(g: Registry, u: UserId)
    requires Ok(g) && SeatOfUser(g, u).Some?
    ensures HeldOk(g, u, SeatOfUser(g, u).value)
  {
    RoomUsable(g, g.users[u].room);
  }

  lemma BeginCreateOk(g: Registry, who: Joiner)
    requires Ok(g) && OpOk(g) && LegalMove(g, BeginCreate(who))
    ensures OpOk(Begin(g, BeginCreate(who)).0)
  {
    if SeatOfUser(g, who.user).Some? {
      HeldIsOk(g, who.user);
    }
  }

  /** Joining the room the account is in already. */
  lemma BeginReclaimOk(g: Registry, code: Code, who: Joiner)
    requires Ok(g) && OpOk(g) && LegalMove(g, BeginJoin(code, who)) && code in g.rooms
    requires SeatOfUser(g, who.user).Some? && SeatOfUser(g, who.user).value.room == g.rooms[code]
    ensures OpOk(Begin(g, BeginJoin(code, who)).0)
  {
    RoomUsable(g, g.rooms[code]);
  }

  /** Joining any other room. */
  lemma BeginMoveOk(g: Registry, code: Code, who: Joiner)
    requires Ok(g) && OpOk(g) && LegalMove(g, BeginJoin(code, who)) && code in g.rooms
    requires SeatOfUser(g, who.user).Some? ==> SeatOfUser(g, who.user).value.room != g.rooms[code]
    ensures OpOk(Begin(g, BeginJoin(code, who)).0)
  {
    RoomUsable(g, g.rooms[code]);
    if SeatOfUser(g, who.user).Some? {
      HeldIsOk(g, who.user);
      HeldElsewhere(g, code, SeatOfUser(g, who.user).value.room);
    }
  }

  /** Another room with a seat has another code. */
  lemma HeldElsewhere(g: Registry, code: Code, room: RoomId)
    requires ListingOk(g) && code in g.rooms && room != g.rooms[code]
    requires room in g.store && g.store[room].room.seats != []
    ensures DistinctRooms(g, room, g.rooms[code])
  {
    assert Lists(g, room);
  }

  lemma OpIsApart(g: Registry, op: Op)
    requires Ok(g)
    ensures Ok(g.(op := op))
  {}

  lemma BeginOk(g: Registry, v: Move)
    requires Ok(g) && OpOk(g) && (v.BeginCreate? || v.BeginJoin?) && LegalMove(g, v)
    ensures Ok(Begin(g, v).0) && OpOk(Begin(g, v).0)
  {
    var held := SeatOfUser(g, v.who.user);
    assert Begin(g, v).0 == g.(op := Begin(g, v).0.op);
    OpIsApart(g, Begin(g, v).0.op);
    if v.BeginCreate? {
      BeginCreateOk(g, v.who);
    } else if v.code in g.rooms {
      if held.Some? && held.value.room == g.rooms[v.code] {
        BeginReclaimOk(g, v.code, v.who);
      } else {
        BeginMoveOk(g, v.code, v.who);
      }
    }
  }

  lemma PrunedOk(g: Registry, code: Code)
    requires Ok(g)
    ensures Ok(Pruned(g, code))
    ensures forall rid :: Lists(g, rid) && g.store[rid].code != code ==> Lists(Pruned(g, code), rid)
  {}

  lemma ReleaseOk(g: Registry, now: int, code: Code, newRoom: RoomId)
    requires Ok(g) && OpOk(g) && g.op.Releasing? && g.store[g.op.ref.room].room.clock <= now
    ensures Ok(Next(g, now, code, newRoom).0) && OpOk(Next(g, now, code, newRoom).0)
  {
    if !ReleaseRefused(g.store[g.op.ref.room].room, g.op.ref.seat) {
      ReleasedOk(g, now, code, newRoom);
    }
  }

  lemma ReleasedOk(g: Registry, now: int, code: Code, newRoom: RoomId)
    requires Ok(g) && OpOk(g) && g.op.Releasing? && g.store[g.op.ref.room].room.clock <= now
    requires !ReleaseRefused(g.store[g.op.ref.room].room, g.op.ref.seat)
    ensures Ok(Next(g, now, code, newRoom).0) && OpOk(Next(g, now, code, newRoom).0)
  {
    var ref, u := g.op.ref, g.op.who.user;
    ReleaseReplaces(g.store, ref.room, ref.seat, now);
    var r' := Release(g.store[ref.room].room.(clock := now), ref.seat, now);
    ShrankOk(g, ref.room, r');
    GoneIsSeatless(Update(g, ref.room, r'), u, ref);
  }

  lemma OpeningOk(g: Registry, now: int, code: Code, newRoom: RoomId)
    requires Ok(g) && OpOk(g) && g.op.Opening? && code !in g.rooms && newRoom !in g.store
    ensures Ok(Next(g, now, code, newRoom).0) && OpOk(Next(g, now, code, newRoom).0)
  {
    NewRoomInv(now);
    StoreRooms(g.store, newRoom, Listed(code, NewRoom(now)));
    OpeningIndex(g, now, code, newRoom);
  }

  lemma OpeningIndex(g: Registry, now: int, code: Code, newRoom: RoomId)
    requires IndexOk(g) && ListingOk(g) && OpOk(g) && g.op.Opening? && code !in g.rooms && newRoom !in g.store
    ensures var g' := Next(g, now, code, newRoom).0; IndexOk(g') && ListingOk(g') && OpOk(g')
  {
    var g' := Next(g, now, code, newRoom).0;
    forall x, id | x in g'.store && id in g'.store[x].room.seats ensures Indexed(g', x, id) {
      assert id in g.store[x].room.seats && Indexed(g, x, id);
    }
  }

  lemma SeatingOk(g: Registry, now: int, code: Code, newRoom: RoomId)
    requires Ok(g) && OpOk(g) && g.op.Seating? && g.store[g.op.room].room.clock <= now
    requires !Present(g.store[g.op.room].room, g.op.who.player)
    ensures Ok(Next(g, now, code, newRoom).0) && OpOk(Next(g, now, code, newRoom).0)
  {
    var rid, who := g.op.room, g.op.who;
    SeatingAdds(g.store, rid, who, g.op.asHost, now);
    SeatedIndex(g, Next(g, now, code, newRoom).0, rid, who);
  }

  lemma SeatedIndex(g: Registry, g': Registry, rid: RoomId, who: Joiner)
    requires IndexOk(g) && ListingOk(g) && Seatless(g, who.user) && Lists(g, rid) && NewSeatId(g, who.seat)
    requires g'.rooms == g.rooms && rid in g'.store && g'.store == g.store[rid := g'.store[rid]]
    requires g'.store[rid].code == g.store[rid].code
    requires g'.users == if who.user == "" then g.users else g.users[who.user := SeatRef(rid, who.seat)]
    requires g'.store[rid].room.seats == g.store[rid].room.seats + [who.seat]
    requires who.seat in g'.store[rid].room.pool && g'.store[rid].room.pool[who.seat].userId == who.user
    requires forall id <- g.store[rid].room.pool ::
      id in g'.store[rid].room.pool && g'.store[rid].room.pool[id] == g.store[rid].room.pool[id]
    ensures IndexOk(g') && ListingOk(g')
  {
    forall x, id | x in g'.store && id in g'.store[x].room.seats ensures Indexed(g', x, id) {
      if !(x == rid && id == who.seat) {
        assert id in g.store[x].room.seats && Indexed(g, x, id);
      }
    }
  }

  lemma DetachOk(g: Registry, now: int, code: Code, newRoom: RoomId)
    requires Ok(g) && OpOk(g) && g.op.Detaching?
    ensures Ok(Next(g, now, code, newRoom).0) && OpOk(Next(g, now, code, newRoom).0)
  {
    DetachReplaces(g.store, g.op.room, g.op.seat);
    ShrankOk(g, g.op.room, Detach(g.store[g.op.room].room, g.op.seat));
  }

  lemma PruningOp(g: Registry, g': Registry, code: Code)
    requires OpOk(g) && g.op.Pruning? && code == g.store[g.op.cur].code
    requires g' == Pruned(g, code).(op := TowardsSeat(g.op.who, g.op.dest))
    requires forall rid :: Lists(g, rid) && g.store[rid].code != code ==> Lists(Pruned(g, code), rid)
    ensures OpOk(g')
  {
    if g.op.dest.Some? {
      assert Lists(Pruned(g, code), g.op.dest.value);
    }
  }

  lemma PruningOk(g: Registry, now: int, code: Code, newRoom: RoomId)
    requires Ok(g) && OpOk(g) && g.op.Pruning?
    ensures Ok(Next(g, now, code, newRoom).0) && OpOk(Next(g, now, code, newRoom).0)
  {
    PrunedOk(g, g.store[g.op.cur].code);
    PruningOp(g, Next(g, now, code, newRoom).0, g.store[g.op.cur].code);
  }

  lemma ProceedOk(g: Registry, now: int, code: Code, newRoom: RoomId)
    requires Ok(g) && OpOk(g) && LegalMove(g, Proceed(now, code, newRoom))
    ensures Ok(Next(g, now, code, newRoom).0) && OpOk(Next(g, now, code, newRoom).0)
  {
    match g.op
    case Detaching(_, _, _) => DetachOk(g, now, code, newRoom);
    case Releasing(_, _, _) => ReleaseOk(g, now, code, newRoom);
    case Pruning(_, _, _) => PruningOk(g, now, code, newRoom);
    case Opening(_) => OpeningOk(g, now, code, newRoom);
    case Seating(_, _, _) => SeatingOk(g, now, code, newRoom);
    case _ =>
  }

  lemma RoomActsOk(g: Registry, rid: RoomId, a: Action)
    requires Ok(g) && OpOk(g) && LegalMove(g, RoomActs(rid, a))
    ensures Ok(Moved(g, RoomActs(rid, a)).0) && OpOk(Moved(g, RoomActs(rid, a)).0)
  {
    StepReplaces(g.store, rid, a);
    ShrankOk(g, rid, Step(g.store[rid].room, a));
  }

  /** Every move keeps the registry in order. */
  lemma MoveOk(g: Registry, v: Move)
    requires Ok(g) && OpOk(g) && LegalMove(g, v)
    ensures Ok(Moved(g, v).0) && OpOk(Moved(g, v).0)
  {
    match v
    case RoomActs(rid, a) => RoomActsOk(g, rid, a);
    case BeginCreate(_) => BeginOk(g, v);
    case BeginJoin(_, _) => BeginOk(g, v);
    case RemoveIfEmpty(code) => PrunedOk(g, code);
    case Proceed(now, code, newRoom) => ProceedOk(g, now, code, newRoom);
  }

  // --- whole runs --------------------------------------------------------

  ghost predicate LegalMoves(g: Registry, moves: seq<Move>)
    requires Ok(g) && OpOk(g)
    decreases |moves|
  {
    moves == [] || (LegalMove(g, moves[0]) && (MoveOk(g, moves[0]); LegalMoves(Moved(g, moves[0]).0, moves[1..])))
  }

  ghost function MoveAll(g: Registry, moves: seq<Move>): (g': Registry)
    requires Ok(g) && OpOk(g) && LegalMoves(g, moves)
    ensures Ok(g') && OpOk(g')
    decreases |moves|
  {
    if moves == [] then g else
      MoveOk(g, moves[0]);
      MoveAll(Moved(g, moves[0]).0, moves[1..])
  }

  function EmptyRegistry(): (g: Registry)
    ensures Ok(g) && OpOk(g)
  {
    Registry(map[], map[], map[], Free)
  }

  /** The seat held by account `u`, wherever it is. */
  ghost predicate HoldsSeat(g: Registry, u: UserId, rid: RoomId, id: SeatId) {
    && Usable(g, rid) && id in g.store[rid].room.seats && g.store[rid].room.pool[id].userId == u
  }

  /** In every state any interleaving reaches from an empty registry: an account
      holds at most one seat in the whole process, the index finds exactly that
      seat, every seat lives in a listed room, and no room is over capacity. */
  lemma OneSeatPerAccount(moves: seq<Move>, u: UserId, rid: RoomId, id: SeatId)
    requires LegalMoves(EmptyRegistry(), moves) && u != ""
    ensures var g := MoveAll(EmptyRegistry(), moves);
      && (HoldsSeat(g, u, rid, id) <==> SeatOfUser(g, u) == Some(SeatRef(rid, id)))
      && (HoldsSeat(g, u, rid, id) ==> Lists(g, rid) && |g.store[rid].room.seats| <= ROOM_CAPACITY)
  {
    var g := MoveAll(EmptyRegistry(), moves);
    if rid in g.store {
      RoomUsable(g, rid);
      assert RoomOk(g.store, rid);
      if id in g.store[rid].room.seats {
        assert Indexed(g, rid, id);
      }
    }
  }

  /** A refused create or join changes nothing: no room, no seat, no index entry. */
  lemma FailureCostsNothing(g: Registry, v: Move)
    requires OpOk(g) && LegalMove(g, v) && Moved(g, v).1.Failed()
    ensures var g' := Moved(g, v).0;
      g'.rooms == g.rooms && g'.store == g.store && g'.users == g.users && g'.op.Free?
  {}

  /** Nor do the sections before a refusal: only a seat's release, its detachment
      for a reclaim and the seating itself touch rooms or the index. */
  lemma LooksBeforeItLeaps(g: Registry, v: Move)
    requires OpOk(g) && LegalMove(g, v)
    requires v.BeginCreate? || v.BeginJoin? || (v.Proceed? && g.op.Checking?)
    ensures var g' := Moved(g, v).0; g'.rooms == g.rooms && g'.store == g.store && g'.users == g.users
  {}

  /** What stands between the capacity check and the seating. */
  ghost predicate PastCheck(g: Registry) {
    || (g.op.Releasing? && g.op.dest.Some?)
    || (g.op.Pruning? && g.op.dest.Some?)
    || g.op.Seating?
  }

  /** Past the capacity check a join is never told that the room is full, whatever
      the rooms do in between: it is seated or refused for a race elsewhere, and
      once seated, its new seat is the one the account index names. */
  lemma CheckedJoinIsSeated(g: Registry, v: Move)
    requires Ok(g) && OpOk(g) && LegalMove(g, v) && PastCheck(g)
    ensures Moved(g, v).1 != RoomFull && Moved(g, v).1 != RoomNotFound
    ensures v.Proceed? && g.op.Seating? ==>
      && Moved(g, v).1 == Seated(g.op.room)
      && HoldsSeat(Moved(g, v).0, g.op.who.user, g.op.room, g.op.who.seat)
      && (g.op.who.user != "" ==> SeatOfUser(Moved(g, v).0, g.op.who.user) == Some(SeatRef(g.op.room, g.op.who.seat)))
    ensures v.RoomActs? ==> PastCheck(Moved(g, v).0)
  {
    if v.Proceed? && g.op.Seating? {
      SeatingAdds(g.store, g.op.room, g.op.who, g.op.asHost, v.now);
    }
  }

  /** A join is refused for a race elsewhere exactly when the account's seat in
      another room is still racing at the moment of its release. */
  lemma RefusedIffRacing(g: Registry, v: Move)
    requires Ok(g) && OpOk(g) && LegalMove(g, v) && v.Proceed? && g.op.Releasing?
    ensures Moved(g, v).1 == InMatchElsewhere <==>
      (var r := g.store[g.op.ref.room].room; g.op.ref.seat in r.seats && Racing(r, g.op.ref.seat))
  {
    assert RoomOk(g.store, g.op.ref.room);
    var r := g.store[g.op.ref.room].room;
    assert r.pool[g.op.ref.seat].status == Active ==> g.op.ref.seat in r.seats;
  }

  /** The move drops code `c`: its room has no seats, and either somebody asks for its
      removal or the create or join under way has just released a seat of it. */
  ghost predicate Drops(g: Registry, v: Move, c: Code)
    requires Ok(g) && OpOk(g) && LegalMove(g, v) && c in g.rooms
  {
    && g.rooms[c] in g.store && g.store[g.rooms[c]].room.seats == []
    && ((v.RemoveIfEmpty? && v.code == c) || (v.Proceed? && g.op.Pruning? && g.store[g.op.cur].code == c))
  }

  /** A code is listed after a move exactly when it was and is not dropped, or is the one
      a create opens; no move changes the room behind a code. */
  lemma ListingIs(g: Registry, v: Move, c: Code)
    requires Ok(g) && OpOk(g) && LegalMove(g, v)
    ensures var g' := Moved(g, v).0;
      && (c in g'.rooms <==> (c in g.rooms && !Drops(g, v, c)) || (v.Proceed? && g.op.Opening? && v.code == c))
      && (c in g'.rooms && c in g.rooms ==> g'.rooms[c] == g.rooms[c])
  {}
}
