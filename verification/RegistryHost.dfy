/** The host role across the registry: which move leaves a room without a host,
    and a run from the empty registry that does. */
module RegistryHost {
  import opened RoomTypes
  import opened RoomSteps
  import opened RoomActions
  import opened RoomInvariant
  import opened RoomHost
  import opened RegistryModel
  import opened RegistryRuns

  /** The room at `rid` is empty or has a host. */
  ghost predicate HostedAt(g: Registry, rid: RoomId) {
    rid in g.store ==> g.store[rid].room.Wf() && Hosted(g.store[rid].room)
  }

  /** A join that is about to be seated in a room whose last seat has gone since
      the join looked. */
  ghost predicate JoinsEmptyRoom(g: Registry, v: Move, rid: RoomId) {
    && v.Proceed? && g.op.Seating? && !g.op.asHost && g.op.room == rid
    && rid in g.store && g.store[rid].room.seats == []
  }

  lemma SeatingHost(g: Registry, v: Move)
    requires OpOk(g) && g.op.Seating? && v.Proceed? && RoomOk(g.store, g.op.room) && HostedAt(g, g.op.room)
    ensures HostedAt(Moved(g, v).0, g.op.room) <==> !JoinsEmptyRoom(g, v, g.op.room)
  {
    var r := g.store[g.op.room].room.(clock := v.now);
    var who := g.op.who;
    if who.seat !in r.pool {
      TakeSeatHostAt(g.store[g.op.room].room, v.now, who, g.op.asHost);
    }
  }

  lemma TakeSeatHostAt(r: Room, now: int, who: Joiner, asHost: bool)
    requires Inv(r) && who.seat !in r.pool && Hosted(r) && |r.seats| < ROOM_CAPACITY
    ensures Hosted(TakeSeat(r.(clock := now), who.seat, who.sess, who.player, who.user, asHost, now)) <==> asHost || r.seats != []
  {
    var r' := TakeSeat(r.(clock := now), who.seat, who.sess, who.player, who.user, asHost, now);
    assert r'.seats == r.seats + [who.seat];
    assert r'.hostId == if asHost then Some(who.player) else r.hostId;
  }

  lemma ActHost(r: Room, a: Action)
    requires Inv(r) && Legal(r, a) && !a.TakeSeatA? && Hosted(r)
    ensures Hosted(Step(r, a))
  {
    HostLostOnlyByJoiningEmptyRoom(r, a);
  }

  lemma ReleasingHost(g: Registry, v: Move, rid: RoomId)
    requires OpOk(g) && v.Proceed? && g.op.Releasing? && HostedAt(g, rid)
    requires rid in g.store ==> RoomOk(g.store, rid) && g.store[rid].room.clock <= v.now
    ensures HostedAt(Next(g, v.now, v.code, v.newRoom).0, rid)
  {
    var held := g.op.ref;
    if held.room == rid && !ReleaseRefused(g.store[rid].room, held.seat) {
      ActHost(g.store[rid].room, ReleaseA(held.seat, v.now));
    }
  }

  lemma DetachingHost(g: Registry, v: Move, rid: RoomId)
    requires OpOk(g) && v.Proceed? && g.op.Detaching? && HostedAt(g, rid)
    requires rid in g.store ==> RoomOk(g.store, rid)
    ensures HostedAt(Next(g, v.now, v.code, v.newRoom).0, rid)
  {
    if g.op.room == rid {
      ActHost(g.store[rid].room, DetachA(g.op.seat));
    }
  }

  lemma OtherSectionHost(g: Registry, v: Move, rid: RoomId)
    requires OpOk(g) && v.Proceed? && HostedAt(g, rid)
    requires !g.op.Seating? && !g.op.Releasing? && !g.op.Detaching?
    ensures HostedAt(Next(g, v.now, v.code, v.newRoom).0, rid)
  {}

  lemma SectionHost(g: Registry, v: Move, rid: RoomId)
    requires OpOk(g) && LegalMove(g, v) && v.Proceed? && !g.op.Seating? && HostedAt(g, rid)
    requires rid in g.store ==> RoomOk(g.store, rid)
    ensures HostedAt(Moved(g, v).0, rid)
  {
    if g.op.Releasing? {
      ReleasingHost(g, v, rid);
    } else if g.op.Detaching? {
      DetachingHost(g, v, rid);
    } else {
      OtherSectionHost(g, v, rid);
    }
  }

  /** Over one move of the whole system, exactly: a room loses its hostedness iff a
      plain join is seated in it while it has no seats. */
  lemma HostLostOnlyByLateJoin(g: Registry, v: Move, rid: RoomId)
    requires Ok(g) && OpOk(g) && LegalMove(g, v) && HostedAt(g, rid)
    ensures HostedAt(Moved(g, v).0, rid) <==> !JoinsEmptyRoom(g, v, rid)
  {
    if rid in g.store {
      assert RoomOk(g.store, rid);
    }
    if v.Proceed? {
      if g.op.Seating? && g.op.room == rid {
        SeatingHost(g, v);
      } else if !g.op.Seating? {
        SectionHost(g, v, rid);
      }
    } else if v.RoomActs? && v.room == rid {
      ActHost(g.store[rid].room, v.action);
    }
  }

  // --- such a run --------------------------------------------------------

  /** `g` comes out of the empty registry by `n` legal moves. */
  ghost predicate ReachedIn(g: Registry, n: nat)
    decreases n
  {
    if n == 0 then g == EmptyRegistry()
    else exists q: Registry, v: Move :: ReachedIn(q, n - 1) && Takes(q, v, g)
  }

  ghost predicate Takes(q: Registry, v: Move, g: Registry) {
    Ok(q) && OpOk(q) && LegalMove(q, v) && g == Moved(q, v).0
  }

  ghost predicate Reached(g: Registry) {
    exists n: nat :: ReachedIn(g, n)
  }

  lemma Extend(g: Registry, v: Move) returns (g': Registry)
    requires Reached(g) && Ok(g) && OpOk(g) && LegalMove(g, v)
    ensures Reached(g') && Ok(g') && OpOk(g') && g' == Moved(g, v).0
  {
    MoveOk(g, v);
    g' := Moved(g, v).0;
    var n: nat :| ReachedIn(g, n);
    assert ReachedIn(g, n + 1 - 1) && Takes(g, v, g');
    assert ReachedIn(g', n + 1);
  }

  const HOST := Joiner(10, 0, "", 0)
  const GUEST := Joiner(11, 1, "", 1)

  /** A guest's room has been opened, and nobody sits in it yet. */
  lemma Opened() returns (g: Registry)
    ensures Reached(g) && Ok(g) && OpOk(g) && g.op == Seating(HOST, 0, true)
    ensures g.rooms == map["R" := 0] && g.store == map[0 := Listed("R", NewRoom(0))] && g.users == map[]
  {
    g := EmptyRegistry();
    assert ReachedIn(g, 0);
    g := Extend(g, BeginCreate(HOST));
    g := Extend(g, Proceed(0, "R", 0));
  }

  /** One room, and where its only visitor so far stands. */
  ghost predicate OneRoom(g: Registry, seats: seq<SeatId>) {
    && g.rooms == map["R" := 0] && g.store.Keys == {0} && g.store[0].code == "R" && g.users == map[]
    && var r := g.store[0].room;
       && r.Wf() && r.seats == seats && r.pool.Keys == {0} && r.pool[0].playerId == 0 && r.pool[0].userId == ""
       && r.mtch == None && r.clock == 0
  }

  /** He sits in it as its host. */
  lemma Created() returns (g: Registry)
    ensures Reached(g) && Ok(g) && OpOk(g) && g.op.Free? && OneRoom(g, [0])
    ensures g.store[0].room.pool[0].sess == Some(10) && g.store[0].room.hostId == Some(0)
  {
    g := Opened();
    FirstSeat(g);
    g := Extend(g, Proceed(0, "", 0));
  }

  lemma FirstSeat(g: Registry)
    requires OpOk(g) && g.op == Seating(HOST, 0, true) && g.users == map[]
    requires g.rooms == map["R" := 0] && g.store == map[0 := Listed("R", NewRoom(0))]
    ensures LegalMove(g, Proceed(0, "", 0))
    ensures var g' := Moved(g, Proceed(0, "", 0)).0;
      && g'.op.Free? && OneRoom(g', [0])
      && g'.store[0].room.pool[0].sess == Some(10) && g'.store[0].room.hostId == Some(0)
  {}

  /** The host leaves, and the empty room is still listed. */
  lemma Left() returns (g: Registry)
    ensures Reached(g) && Ok(g) && OpOk(g) && g.op.Free? && OneRoom(g, []) && g.store[0].room.hostId == None
  {
    g := Created();
    assert RoomOk(g.store, 0);
    LastSeatGoes(g);
    g := Extend(g, RoomActs(0, LeaveA(10, 0)));
  }

  lemma LastSeatGoes(g: Registry)
    requires OneRoom(g, [0]) && g.store[0].room.hostId == Some(0) && g.store[0].room.pool[0].sess == Some(10)
    ensures Legal(g.store[0].room, LeaveA(10, 0))
    ensures OneRoom(Update(g, 0, Step(g.store[0].room, LeaveA(10, 0))), [])
    ensures Step(g.store[0].room, LeaveA(10, 0)).hostId == None
  {
    assert FindSeat(g.store[0].room.pool, g.store[0].room.seats, 10) == Some(0);
  }

  /** Before it is removed a join finds it, */
  lemma Found() returns (g: Registry)
    ensures Reached(g) && Ok(g) && OpOk(g) && OneRoom(g, []) && g.store[0].room.hostId == None
    ensures g.op == Checking(GUEST, 0, None)
  {
    g := Left();
    JoinLooks(g);
    g := Extend(g, BeginJoin("R", GUEST));
  }

  lemma JoinLooks(g: Registry)
    requires OneRoom(g, []) && g.op.Free? && OpOk(g)
    ensures LegalMove(g, BeginJoin("R", GUEST)) && Moved(g, BeginJoin("R", GUEST)).0 == g.(op := Checking(GUEST, 0, None))
  {}

  /** and room in it. */
  lemma Checked() returns (g: Registry)
    ensures Reached(g) && Ok(g) && OpOk(g) && OneRoom(g, []) && g.store[0].room.hostId == None
    ensures g.op == Seating(GUEST, 0, false)
  {
    g := Found();
    JoinChecks(g);
    g := Extend(g, Proceed(0, "", 0));
  }

  lemma JoinChecks(g: Registry)
    requires OneRoom(g, []) && g.op == Checking(GUEST, 0, None) && OpOk(g)
    ensures LegalMove(g, Proceed(0, "", 0)) && Moved(g, Proceed(0, "", 0)).0 == g.(op := Seating(GUEST, 0, false))
  {}

  /** A listed room with somebody in it and nobody hosting it can be reached. */
  lemma HostlessRoomIsReachable()
    ensures exists g :: Reached(g) && Lists(g, 0) && g.store[0].room.seats != [] && g.store[0].room.hostId == None
  {
    var g := Checked();
    LateSeat(g);
    g := Extend(g, Proceed(0, "", 0));
  }

  lemma LateSeat(g: Registry)
    requires OpOk(g) && OneRoom(g, []) && g.op == Seating(GUEST, 0, false) && g.store[0].room.hostId == None
    ensures LegalMove(g, Proceed(0, "", 0))
    ensures var g' := Moved(g, Proceed(0, "", 0)).0;
      Lists(g', 0) && g'.store[0].room.seats == [1] && g'.store[0].room.hostId == None
  {}
}
