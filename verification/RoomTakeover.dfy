/** A reachable run in which a seat loses a batch: the account is taken over while
    its reconnect is still being drained. */
module RoomTakeover {
  import opened RoomTypes
  import opened RoomSteps
  import opened RoomActions
  import opened RoomRelay
  import opened RoomStranded

  /** `r` comes out of a fresh room by `n` legal actions. */
  ghost predicate ReachedIn(r: Room, n: nat)
    decreases n
  {
    if n == 0 then r == NewRoom(0)
    else exists q: Room, a: Action :: ReachedIn(q, n - 1) && Takes(q, a, r)
  }

  ghost predicate Takes(q: Room, a: Action, r: Room) {
    q.Wf() && !a.ReapIdleA? && Legal(q, a) && r == Step(q, a)
  }

  ghost predicate Reached(r: Room) {
    exists n: nat :: ReachedIn(r, n)
  }

  lemma Extend(r: Room, a: Action) returns (r': Room)
    requires Reached(r) && r.Wf() && Legal(r, a) && !a.ReapIdleA?
    ensures Reached(r') && r' == Step(r, a)
  {
    r' := Step(r, a);
    var n: nat :| ReachedIn(r, n);
    assert ReachedIn(r, n + 1 - 1) && Takes(r, a, r');
    assert ReachedIn(r', n + 1);
  }

  lemma NewIsReached()
    ensures Reached(NewRoom(0))
  {
    assert ReachedIn(NewRoom(0), 0);
  }

  /** A live seat with nothing buffered. */
  ghost predicate Quiet(s: Seat, sess: SessionId, p: PlayerId) {
    && s.sess == Some(sess) && s.playerId == p && !s.disconnected && s.drain.None?
    && s.backlog == [] && s.pending == [] && s.queue == []
  }

  /** The host alone. */
  lemma Opened() returns (r: Room)
    ensures Reached(r) && r.Wf() && r.seats == [0] && r.pool.Keys == {0} && r.hostId == Some(0)
    ensures r.started == [] && r.clock == 0 && r.mtch == None && !r.inMatch
    ensures Quiet(r.pool[0], 10, 0)
  {
    NewIsReached();
    r := NewRoom(0);
    r := Extend(r, TakeSeatA(0, 10, 0, "", true, 0));
  }

  lemma Seated() returns (r: Room)
    ensures Reached(r) && r.Wf()
    ensures r.seats == [0, 1] && r.hostId == Some(0) && r.started == [] && r.clock == 0 && r.mtch == None
    ensures Quiet(r.pool[0], 10, 0) && Quiet(r.pool[1], 11, 1) && !r.inMatch
  {
    r := Opened();
    r := Extend(r, TakeSeatA(1, 11, 1, "", false, 0));
  }

  /** Two racers, the first of them live, and no batch accepted yet. */
  ghost predicate MidMatch(r: Room)
    requires r.Wf()
  {
    && r.seats == [0, 1] && r.clock == 0 && r.accepted == []
    && r.mtch.Some? && r.mtch.value.id == 0 && r.mtch.value.roster == [0, 1] && r.mtch.value.goAtMs == 5000
    && Quiet(r.pool[0], 10, 0) && r.pool[0].status == Active && r.pool[0].lastSeq == 0
    && r.pool[0].eventCount == 0 && r.pool[0].batches == []
    && r.pool[1].playerId == 1 && r.pool[1].backlog == r.pool[1].pending == r.pool[1].queue == []
  }

  /** The countdown has started and both race. */
  lemma Started() returns (r: Room)
    ensures Reached(r) && r.Wf() && MidMatch(r) && Quiet(r.pool[1], 11, 1)
  {
    r := Seated();
    assert FindSeat(r.pool, r.seats, 10) == Some(0);
    r := Extend(r, StartMatchA(10, true, 0, 0));
  }

  /** Seat 1 loses its connection. */
  lemma Dropped() returns (r: Room)
    ensures Reached(r) && r.Wf() && MidMatch(r)
    ensures r.pool[1].disconnected && r.pool[1].sess.None? && r.pool[1].drain.None?
  {
    r := Started();
    assert FindSeat(r.pool, r.seats, 11) == Some(1);
    r := Extend(r, DisconnectA(11));
  }

  /** It comes back on connection 12 and is being drained. */
  lemma Draining() returns (r: Room)
    ensures Reached(r) && r.Wf() && MidMatch(r)
    ensures r.pool[1].disconnected && r.pool[1].sess == Some(12) && r.pool[1].drain.Some?
  {
    r := Dropped();
    assert Present(r, 1);
    r := Extend(r, BindA(1, 12));
  }

  /** The account connects once more, and the seat is detached. */
  lemma Detached() returns (r: Room)
    ensures Reached(r) && r.Wf() && MidMatch(r)
    ensures r.pool[1].disconnected && r.pool[1].sess.None? && r.pool[1].drain.Some?
  {
    r := Draining();
    assert Present(r, 1);
    r := Extend(r, DetachA(1));
  }

  /** The drain that was under way goes live without a connection. */
  lemma TakenOver() returns (r: Room)
    ensures Reached(r) && r.Wf() && MidMatch(r)
    ensures !r.pool[1].disconnected && r.pool[1].sess.None? && r.pool[1].drain.None?
  {
    r := Detached();
    r := Extend(r, DrainTurnA(1, 0));
  }

  /** The account's seat can be left in a running match where nobody can take it back. */
  lemma StrandedSeatIsReachable()
    ensures exists r :: Reached(r) && Stranded(r, 1) && r.mtch.Some? && 1 in r.mtch.value.roster
  {
    var r := TakenOver();
  }

  lemma FirstBatchIsLegal(r: Room, eb: EventBatch)
    requires r.Wf() && MidMatch(r) && eb.matchId == 0 && eb.batchSeq == 1 && |eb.events| == 1
    ensures FindSeat(r.pool, r.seats, 10) == Some(0) && Acceptable(r, 0, eb) && Legal(r, RelayA(10, eb, 0, 0))
    ensures Step(r, RelayA(10, eb, 0, 0)) == Relay(r, 10, eb, 0, 0)
  {}

  /** A room can be reached in which a racing seat, present and marked connected,
      has neither been handed nor keeps buffered a batch that was accepted from
      another seat. */
  lemma BatchIsLost()
    ensures exists r :: Reached(r) && r.Wf() && r.mtch.Some? && !DeliveredTo(r, 1)
  {
    var r := TakenOver();
    var eb := EventBatch(0, 1, 1, ["key"]);
    FirstBatchIsLegal(r, eb);
    DeafSeatMisses(r, 1, 10, eb, 0, 0);
    r := Extend(r, RelayA(10, eb, 0, 0));
  }
}
