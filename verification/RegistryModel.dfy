/** The process-wide registry: rooms by code, the account index, and the one
    create or join that may hold the registry lock.

    `create` and `join` hold `Registry.mu` while they take room locks one after
    another. Each such room-locked section is one step here, and between two of
    them any room may take any action of its own. */
module RegistryModel {
  import opened RoomTypes
  import opened RoomSteps
  import opened RoomActions
  import opened RoomInvariant

  type RoomId = nat
  type Code = string

  datatype SeatRef = SeatRef(room: RoomId, seat: SeatId)

  /** The session asking for a seat, and the seat object it would get. */
  datatype Joiner = Joiner(sess: SessionId, player: PlayerId, user: UserId, seat: SeatId)

  /** Where the create or join holding the registry lock stands. `dest` is the
      room being joined; a create has none until it opens its own. */
  datatype Op =
    | Free
    | Detaching(who: Joiner, room: RoomId, seat: SeatId)
    | Checking(who: Joiner, room: RoomId, held: Option<SeatRef>)
    | Releasing(who: Joiner, ref: SeatRef, dest: Option<RoomId>)
    | Pruning(who: Joiner, cur: RoomId, dest: Option<RoomId>)
    | Opening(who: Joiner)
    | Seating(who: Joiner, room: RoomId, asHost: bool)

  datatype Outcome = Pending | Seated(room: RoomId) | Reclaim(room: RoomId, seat: SeatId)
                   | RoomNotFound | RoomFull | InMatchElsewhere
  {
    predicate Failed() { RoomNotFound? || RoomFull? || InMatchElsewhere? }
  }

  datatype Listed = Listed(code: Code, room: Room)

  datatype Registry = Registry(
    rooms: map<Code, RoomId>, store: map<RoomId, Listed>, users: map<UserId, SeatRef>, op: Op)

  datatype Move =
    | RoomActs(room: RoomId, action: Action)
    | BeginCreate(who: Joiner)
    | BeginJoin(code: Code, who: Joiner)
    | Proceed(now: int, code: Code, newRoom: RoomId) // the code and id a create would use
    | RemoveIfEmpty(code: Code)

  // --- the account index -------------------------------------------------

  function SeatOfUser(g: Registry, u: UserId): Option<SeatRef> {
    if u != "" && u in g.users then Some(g.users[u]) else None
  }

  /** unindexSeat for every seat that `after` no longer has: an entry goes only if
      it still names the seat being removed. */
  function Unindexed(users: map<UserId, SeatRef>, rid: RoomId, before: seq<SeatId>, after: seq<SeatId>): map<UserId, SeatRef> {
    map u | u in users && !(users[u].room == rid && users[u].seat in before && users[u].seat !in after) :: users[u]
  }

  function Update(g: Registry, rid: RoomId, r: Room): Registry
    requires rid in g.store
  {
    g.(store := g.store[rid := g.store[rid].(room := r)],
       users := Unindexed(g.users, rid, g.store[rid].room.seats, r.seats))
  }

  function Pruned(g: Registry, code: Code): Registry {
    if code in g.rooms && g.rooms[code] in g.store && g.store[g.rooms[code]].room.seats == []
    then g.(rooms := g.rooms - {code}) else g
  }

  // --- moves -------------------------------------------------------------

  ghost predicate LegalMove(g: Registry, v: Move) {
    match v
    case RoomActs(rid, a) =>
      && RoomOk(g.store, rid) && Legal(g.store[rid].room, a)
      && !(a.TakeSeatA? || a.ReleaseA? || a.DetachA?)
    case BeginCreate(who) => g.op.Free? && NewSeatId(g, who.seat)
    case BeginJoin(_, who) => g.op.Free? && NewSeatId(g, who.seat)
    case RemoveIfEmpty(_) => g.op.Free?
    case Proceed(now, code, newRoom) =>
      && !g.op.Free?
      && (forall rid <- g.store :: g.store[rid].room.clock <= now)
      && (g.op.Opening? ==> code !in g.rooms && newRoom !in g.store)
      && (g.op.Seating? && Usable(g, g.op.room) ==> !Present(g.store[g.op.room].room, g.op.who.player))
  }

  predicate NewSeatId(g: Registry, id: SeatId) {
    forall rid <- g.store :: id !in g.store[rid].room.pool
  }

  /** The first section of `create` and of `join`, under the registry lock. */
  function Begin(g: Registry, v: Move): (Registry, Outcome)
    requires v.BeginCreate? || v.BeginJoin?
  {
    var held := SeatOfUser(g, v.who.user);
    match v
    case BeginCreate(who) =>
      (g.(op := if held.Some? then Releasing(who, held.value, None) else Opening(who)), Pending)
    case BeginJoin(code, who) =>
      if code !in g.rooms then (g, RoomNotFound)
      else
        var room := g.rooms[code];
        if held.Some? && held.value.room == room then (g.(op := Detaching(who, room, held.value.seat)), Pending)
        else (g.(op := Checking(who, room, held)), Pending)
  }

  function TowardsSeat(who: Joiner, dest: Option<RoomId>): Op {
    if dest.Some? then Seating(who, dest.value, false) else Opening(who)
  }

  /** The next section of the create or join under way. */
  function Next(g: Registry, now: int, code: Code, newRoom: RoomId): (Registry, Outcome)
    requires OpOk(g)
  {
    match g.op
    case Free => (g, Pending)
    case Detaching(who, rid, seat) =>
      (Update(g, rid, Detach(g.store[rid].room, seat)).(op := Free), Reclaim(rid, seat))
    case Checking(who, rid, held) =>
      if |g.store[rid].room.seats| >= ROOM_CAPACITY then (g.(op := Free), RoomFull)
      else if held.Some? then (g.(op := Releasing(who, held.value, Some(rid))), Pending)
      else (g.(op := Seating(who, rid, false)), Pending)
    case Releasing(who, held, dest) =>
      var cur := g.store[held.room].room;
      if ReleaseRefused(cur, held.seat) then (g.(op := Free), InMatchElsewhere)
      else (Update(g, held.room, Release(cur.(clock := now), held.seat, now)).(op := Pruning(who, held.room, dest)), Pending)
    case Pruning(who, cur, dest) =>
      (Pruned(g, g.store[cur].code).(op := TowardsSeat(who, dest)), Pending)
    case Opening(who) =>
      (g.(rooms := g.rooms[code := newRoom],
          store := g.store[newRoom := Listed(code, NewRoom(now))],
          op := Seating(who, newRoom, true)), Pending)
    case Seating(who, rid, asHost) =>
      var r := g.store[rid].room;
      var r' := TakeSeat(r.(clock := now), who.seat, who.sess, who.player, who.user, asHost, now);
      if |r.seats| >= ROOM_CAPACITY then (g.(op := Free), RoomFull)
      else
        (g.(store := g.store[rid := g.store[rid].(room := r')],
            users := if who.user == "" then g.users else g.users[who.user := SeatRef(rid, who.seat)],
            op := Free), Seated(rid))
  }

  /** One move of the whole system, with the answer given if it completes a
      create or a join. */
  function Moved(g: Registry, v: Move): (Registry, Outcome)
    requires OpOk(g)
    requires v.RoomActs? ==> RoomOk(g.store, v.room) && (v.action.NamesSeat() ==> v.action.id in g.store[v.room].room.pool)
  {
    match v
    case RoomActs(rid, a) => (Update(g, rid, Step(g.store[rid].room, a)), Pending)
    case BeginCreate(_) => Begin(g, v)
    case BeginJoin(_, _) => Begin(g, v)
    case Proceed(now, code, newRoom) => Next(g, now, code, newRoom)
    case RemoveIfEmpty(code) => (Pruned(g, code), Pending)
  }

  // --- the invariant -----------------------------------------------------

  ghost predicate RoomsOk(store: map<RoomId, Listed>) {
    forall rid {:trigger RoomOk(store, rid)} :: rid in store ==> RoomOk(store, rid)
  }

  ghost predicate RoomOk(store: map<RoomId, Listed>, rid: RoomId) {
    rid in store && Inv(store[rid].room)
  }

  /** A room the step functions may be applied to. */
  ghost predicate Usable(g: Registry, rid: RoomId) {
    rid in g.store && g.store[rid].room.Wf()
  }

  /** The account index is exactly the set of account seats. */
  ghost predicate IndexOk(g: Registry) {
    && (forall u <- g.users ::
          && u != "" && g.users[u].room in g.store
          && var r := g.store[g.users[u].room].room;
             g.users[u].seat in r.seats && g.users[u].seat in r.pool && r.pool[g.users[u].seat].userId == u)
    && (forall rid, id :: rid in g.store && id in g.store[rid].room.seats ==> Indexed(g, rid, id))
  }

  ghost predicate Indexed(g: Registry, rid: RoomId, id: SeatId)
    requires rid in g.store
  {
    && id in g.store[rid].room.pool
    && var u := g.store[rid].room.pool[id].userId;
       u != "" ==> u in g.users && g.users[u] == SeatRef(rid, id)
  }

  /** Codes and rooms match, and a room with a seat is listed. */
  ghost predicate ListingOk(g: Registry) {
    && (forall c <- g.rooms :: g.rooms[c] in g.store && g.store[g.rooms[c]].code == c)
    && (forall rid <- g.store :: g.store[rid].room.seats != [] ==> Lists(g, rid))
  }

  ghost predicate Lists(g: Registry, rid: RoomId) {
    rid in g.store && g.store[rid].code in g.rooms && g.rooms[g.store[rid].code] == rid
  }

  ghost predicate Ok(g: Registry) {
    RoomsOk(g.store) && IndexOk(g) && ListingOk(g)
  }

  ghost predicate Seatless(g: Registry, u: UserId) {
    u == "" || u !in g.users
  }

  /** A seat looked up at the beginning: still the account's, or gone for good. */
  ghost predicate HeldOk(g: Registry, u: UserId, held: SeatRef) {
    && u != "" && Usable(g, held.room)
    && var r := g.store[held.room].room;
       && held.seat in r.pool && r.pool[held.seat].userId == u
       && (u in g.users ==> g.users[u] == held)
       && (held.seat !in r.seats ==> !Present(r, r.pool[held.seat].playerId))
  }

  /** Room to spare in a listed room other than `cur`. */
  ghost predicate DestOk(g: Registry, dest: Option<RoomId>, cur: RoomId) {
    dest.Some? ==> Lists(g, dest.value) && Usable(g, dest.value) && |g.store[dest.value].room.seats| < ROOM_CAPACITY
                   && DistinctRooms(g, cur, dest.value)
  }

  ghost predicate DistinctRooms(g: Registry, x: RoomId, y: RoomId) {
    x != y && x in g.store && y in g.store && g.store[x].code != g.store[y].code
  }

  /** What holds at each point of a create or join, whatever other rooms do. */
  ghost predicate OpOk(g: Registry) {
    && (!g.op.Free? ==> NewSeatId(g, g.op.who.seat))
    && match g.op
       case Free => true
       case Detaching(who, rid, seat) => Usable(g, rid) && seat in g.store[rid].room.pool
       case Checking(who, rid, held) =>
         && Lists(g, rid) && Usable(g, rid)
         && (held.Some? ==> HeldOk(g, who.user, held.value) && DistinctRooms(g, held.value.room, rid))
         && (held.None? ==> Seatless(g, who.user))
       case Releasing(who, held, dest) => HeldOk(g, who.user, held) && DestOk(g, dest, held.room)
       case Pruning(who, cur, dest) => cur in g.store && Seatless(g, who.user) && DestOk(g, dest, cur)
       case Opening(who) => Seatless(g, who.user)
       case Seating(who, rid, asHost) =>
         Lists(g, rid) && Usable(g, rid) && |g.store[rid].room.seats| < ROOM_CAPACITY && Seatless(g, who.user)
  }
}
