/** Rooms inside the registry: whatever the registry runs, the history of each room
    is a legal run of that room, so what holds over room runs holds there. */
module RegistryHistories {
  import opened RoomTypes
  import opened RoomSteps
  import opened RoomActions
  import opened RoomInvariant
  import opened RoomRuns
  import opened RoomRelay
  import opened RegistryModel
  import opened RegistryRuns

  // --- one move ------------------------------------------------------------

  /** The action that move `v` of the registry is to room `rid`, if it is one. */
  function ActionOf(g: Registry, v: Move, rid: RoomId): (a: Option<Action>)
    requires OpOk(g)
  {
    match v
    case RoomActs(room, a) => if room == rid then Some(a) else None
    case Proceed(now, _, _) =>
      (match g.op
       case Detaching(_, room, seat) => if room == rid then Some(DetachA(seat)) else None
       case Releasing(_, held, _) =>
         if held.room == rid && !ReleaseRefused(g.store[rid].room, held.seat) then Some(ReleaseA(held.seat, now)) else None
       case Seating(who, room, asHost) =>
         if room == rid then Some(TakeSeatA(who.seat, who.sess, who.player, who.user, asHost, now)) else None
       case _ => None)
    case _ => None
  }

  /** From `r` to `r'` the room took the action, or none. */
  ghost predicate Took(r: Room, a: Option<Action>, r': Room) {
    match a
    case None => r' == r
    case Some(act) => Inv(r) && Legal(r, act) && r' == Step(r, act)
  }

  lemma SeatingTook(g: Registry, v: Move, rid: RoomId)
    requires OpOk(g) && LegalMove(g, v) && v.Proceed? && g.op.Seating? && g.op.room == rid && RoomOk(g.store, rid)
    ensures rid in Moved(g, v).0.store && Took(g.store[rid].room, ActionOf(g, v, rid), Moved(g, v).0.store[rid].room)
  {}

  lemma ReleasingTook(g: Registry, v: Move, rid: RoomId)
    requires OpOk(g) && LegalMove(g, v) && v.Proceed? && g.op.Releasing? && g.op.ref.room == rid && RoomOk(g.store, rid)
    ensures rid in Moved(g, v).0.store && Took(g.store[rid].room, ActionOf(g, v, rid), Moved(g, v).0.store[rid].room)
  {}

  lemma DetachingTook(g: Registry, v: Move, rid: RoomId)
    requires OpOk(g) && LegalMove(g, v) && v.Proceed? && g.op.Detaching? && g.op.room == rid && RoomOk(g.store, rid)
    ensures rid in Moved(g, v).0.store && Took(g.store[rid].room, ActionOf(g, v, rid), Moved(g, v).0.store[rid].room)
  {}

  lemma ElsewhereTook(g: Registry, v: Move, rid: RoomId)
    requires OpOk(g) && LegalMove(g, v) && v.Proceed? && rid in g.store
    requires g.op.Detaching? || g.op.Seating? ==> g.op.room != rid
    requires g.op.Releasing? ==> g.op.ref.room != rid
    ensures rid in Moved(g, v).0.store && Took(g.store[rid].room, ActionOf(g, v, rid), Moved(g, v).0.store[rid].room)
  {}

  lemma ActsTook(g: Registry, v: Move, rid: RoomId)
    requires OpOk(g) && LegalMove(g, v) && !v.Proceed? && rid in g.store
    ensures rid in Moved(g, v).0.store && Took(g.store[rid].room, ActionOf(g, v, rid), Moved(g, v).0.store[rid].room)
  {}

  /** Over one move a room takes one legal action of its own, or none. */
  lemma MoveIsAnAction(g: Registry, v: Move, rid: RoomId)
    requires Ok(g) && OpOk(g) && LegalMove(g, v) && rid in g.store
    ensures rid in Moved(g, v).0.store && Took(g.store[rid].room, ActionOf(g, v, rid), Moved(g, v).0.store[rid].room)
  {
    assert RoomOk(g.store, rid);
    if !v.Proceed? {
      ActsTook(g, v, rid);
    } else if g.op.Seating? && g.op.room == rid {
      SeatingTook(g, v, rid);
    } else if g.op.Releasing? && g.op.ref.room == rid {
      ReleasingTook(g, v, rid);
    } else if g.op.Detaching? && g.op.room == rid {
      DetachingTook(g, v, rid);
    } else {
      ElsewhereTook(g, v, rid);
    }
  }

  /** A room the registry did not have is a new one. */
  lemma NewRoomsAreFresh(g: Registry, v: Move, rid: RoomId)
    requires OpOk(g) && LegalMove(g, v) && rid !in g.store && rid in Moved(g, v).0.store
    ensures v.Proceed? && Moved(g, v).0.store[rid].room == NewRoom(v.now)
  {}

  // --- whole runs ----------------------------------------------------------

  /** No join of its own account catches seat `id` of room `rid` during its drain. */
  ghost predicate CalmMoves(g: Registry, moves: seq<Move>, rid: RoomId, id: SeatId)
    requires Ok(g) && OpOk(g) && LegalMoves(g, moves)
    decreases |moves|
  {
    moves == [] ||
    (MoveOk(g, moves[0]);
     !CatchesDrain(g, moves[0], rid, id) && CalmMoves(Moved(g, moves[0]).0, moves[1..], rid, id))
  }

  ghost predicate CatchesDrain(g: Registry, v: Move, rid: RoomId, id: SeatId) {
    && v.Proceed? && g.op.Detaching? && g.op.room == rid && g.op.seat == id
    && rid in g.store && id in g.store[rid].room.pool && g.store[rid].room.pool[id].drain.Some?
  }

  /** `run` is a legal run of `r`, ending in `r'`, with no takeover of seat `id`
      during its drain if `calm`. */
  ghost predicate IsRun(r: Room, run: seq<Action>, r': Room, id: SeatId, calm: bool) {
    Inv(r) && LegalRun(r, run) && Run(r, run) == r' && (calm ==> CalmFor(r, run, id))
  }

  lemma RunCons(r: Room, a: Action, rest: seq<Action>, r': Room, id: SeatId, calm: bool)
    requires Inv(r) && Legal(r, a) && IsRun(Step(r, a), rest, r', id, calm)
    requires calm ==> !TakeoverDuringDrain(r, a, id)
    ensures IsRun(r, [a] + rest, r', id, calm)
  {
    assert ([a] + rest)[1..] == rest;
  }

  lemma CalmAction(g: Registry, v: Move, rid: RoomId, id: SeatId)
    requires OpOk(g) && LegalMove(g, v) && rid in g.store && ActionOf(g, v, rid).Some? && !CatchesDrain(g, v, rid, id)
    ensures !TakeoverDuringDrain(g.store[rid].room, ActionOf(g, v, rid).value, id)
  {}

  /** What the registry's moves were to one room. */
  lemma {:induction false} RoomRunOf(g: Registry, moves: seq<Move>, rid: RoomId, id: SeatId) returns (run: seq<Action>)
    requires Ok(g) && OpOk(g) && LegalMoves(g, moves) && rid in g.store
    ensures rid in MoveAll(g, moves).store
    ensures IsRun(g.store[rid].room, run, MoveAll(g, moves).store[rid].room, id, CalmMoves(g, moves, rid, id))
    decreases |moves|
  {
    assert RoomOk(g.store, rid);
    if moves == [] {
      run := [];
    } else {
      MoveOk(g, moves[0]);
      MoveIsAnAction(g, moves[0], rid);
      var g1 := Moved(g, moves[0]).0;
      run := RoomRunOf(g1, moves[1..], rid, id);
      run := Prefixed(g, moves, rid, id, run);
    }
  }

  lemma Prefixed(g: Registry, moves: seq<Move>, rid: RoomId, id: SeatId, rest: seq<Action>) returns (run: seq<Action>)
    requires Ok(g) && OpOk(g) && LegalMoves(g, moves) && rid in g.store && moves != []
    requires Ok(Moved(g, moves[0]).0) && OpOk(Moved(g, moves[0]).0) && LegalMoves(Moved(g, moves[0]).0, moves[1..])
    requires var g1 := Moved(g, moves[0]).0;
      && rid in g1.store && Took(g.store[rid].room, ActionOf(g, moves[0], rid), g1.store[rid].room)
      && rid in MoveAll(g1, moves[1..]).store
      && IsRun(g1.store[rid].room, rest, MoveAll(g1, moves[1..]).store[rid].room, id, CalmMoves(g1, moves[1..], rid, id))
    ensures rid in MoveAll(g, moves).store
    ensures IsRun(g.store[rid].room, run, MoveAll(g, moves).store[rid].room, id, CalmMoves(g, moves, rid, id))
  {
    var calm := CalmMoves(g, moves, rid, id);
    match ActionOf(g, moves[0], rid)
    case None => run := rest;
    case Some(a) =>
      if calm {
        CalmAction(g, moves[0], rid, id);
      }
      RunCons(g.store[rid].room, a, rest, MoveAll(g, moves).store[rid].room, id, calm);
      run := [a] + rest;
  }

  /** The whole history of a room that was made on the way. */
  lemma {:induction false} HistoryOf(g: Registry, moves: seq<Move>, rid: RoomId, id: SeatId) returns (born: int, run: seq<Action>)
    requires Ok(g) && OpOk(g) && LegalMoves(g, moves) && rid !in g.store && rid in MoveAll(g, moves).store
    ensures IsRun(FreshRoom(born), run, MoveAll(g, moves).store[rid].room, id, CalmMoves(g, moves, rid, id))
    decreases |moves|
  {
    MoveOk(g, moves[0]);
    var g1 := Moved(g, moves[0]).0;
    if rid in g1.store {
      NewRoomsAreFresh(g, moves[0], rid);
      born := moves[0].now;
      run := RoomRunOf(g1, moves[1..], rid, id);
    } else {
      born, run := HistoryOf(g1, moves[1..], rid, id);
    }
  }

  // --- what holds of every room of every registry run ------------------------

  /** Every started match of every room has exactly one agreeing end record, or runs. */
  lemma EveryMatchEndsOnce(moves: seq<Move>, rid: RoomId, i: nat)
    requires LegalMoves(EmptyRegistry(), moves) && rid in MoveAll(EmptyRegistry(), moves).store
    requires i < |MoveAll(EmptyRegistry(), moves).store[rid].room.started|
    ensures var r := MoveAll(EmptyRegistry(), moves).store[rid].room;
      var s := r.started[i];
      r.Wf() &&
      if r.mtch.Some? && r.mtch.value.id == s.id then EndsOf(r, s.id) == {}
      else i < |r.ends| && EndsOf(r, s.id) == {i} && Agrees(s, r.ends[i])
  {
    var born, run := HistoryOf(EmptyRegistry(), moves, rid, 0);
    OneEndPerMatch(born, run, i);
  }

  /** Every live roster seat of every room has been handed every batch of the others,
      once, in order, unless its own account's join caught it during its drain. */
  lemma EveryLiveSeatIsServed(moves: seq<Move>, rid: RoomId, id: SeatId)
    requires LegalMoves(EmptyRegistry(), moves) && rid in MoveAll(EmptyRegistry(), moves).store
    requires CalmMoves(EmptyRegistry(), moves, rid, id)
    requires var r := MoveAll(EmptyRegistry(), moves).store[rid].room;
      r.mtch.Some? && id in r.mtch.value.roster && id in r.seats && id in r.pool && !r.pool[id].disconnected
    ensures var r := MoveAll(EmptyRegistry(), moves).store[rid].room;
      BatchesOf(r.pool[id].queue, r.mtch.value.id) == FromOthers(r.accepted, id)
  {
    var born, run := HistoryOf(EmptyRegistry(), moves, rid, id);
    LiveSeatHasEveryBatch(born, run, id);
  }

  /** A terminal status in any room is final, whatever the registry runs next. */
  lemma TerminalStatusIsFinal(g: Registry, moves: seq<Move>, rid: RoomId, mid: MatchId, i: nat, st: Status, n: nat)
    requires Ok(g) && OpOk(g) && LegalMoves(g, moves) && rid in g.store
    requires g.store[rid].room.Wf() && Resolved(g.store[rid].room, mid, i, st, n)
    ensures rid in MoveAll(g, moves).store && MoveAll(g, moves).store[rid].room.Wf()
    ensures Resolved(MoveAll(g, moves).store[rid].room, mid, i, st, n)
  {
    var run := RoomRunOf(g, moves, rid, 0);
    FirstTerminalStatusWins(g.store[rid].room, run, mid, i, st, n);
  }

  /** A finish window armed in any room keeps its instant until its match has ended. */
  lemma FinishWindowIsFinal(g: Registry, moves: seq<Move>, rid: RoomId, at: int)
    requires Ok(g) && OpOk(g) && LegalMoves(g, moves) && rid in g.store
    requires var m := g.store[rid].room.mtch; m.Some? && m.value.finishWindowAtMs == Some(at)
    ensures rid in MoveAll(g, moves).store
    ensures var e, mid := MoveAll(g, moves).store[rid].room, g.store[rid].room.mtch.value.id;
      HasEnded(e, mid) || (e.mtch.Some? && e.mtch.value.id == mid && e.mtch.value.finishWindowAtMs == Some(at))
  {
    var run := RoomRunOf(g, moves, rid, 0);
    FinishWindowArmedOnce(g.store[rid].room, run, at);
  }
}
