/** What each critical section of a room does, as a function on room values.

    One function per locked section of the source. A section the source splits
    (`reattach`: bind, take the backlog, send, go live) is split here at the same
    lock boundaries, so that other sections may run in between. */
module RoomSteps {
  import opened RoomTypes
  import opened RoomSettings

  // --- lookups -----------------------------------------------------------

  /** The first seat of `seats` held by session `sess`. */
  function FindSeat(pool: map<SeatId, Seat>, seats: seq<SeatId>, sess: SessionId): (r: Option<SeatId>)
    requires forall id <- seats :: id in pool
    ensures r.Some? ==> r.value in seats && pool[r.value].sess == Some(sess)
    ensures r.None? ==> forall id <- seats :: pool[id].sess != Some(sess)
  {
    if seats == [] then None
    else if pool[seats[0]].sess == Some(sess) then Some(seats[0])
    else FindSeat(pool, seats[1..], sess)
  }

  /** The first seat of `seats` carrying player id `p`. */
  function FindPlayer(pool: map<SeatId, Seat>, seats: seq<SeatId>, p: PlayerId): (r: Option<SeatId>)
    requires forall id <- seats :: id in pool
    ensures r.Some? ==> r.value in seats && pool[r.value].playerId == p
    ensures r.None? ==> forall id <- seats :: pool[id].playerId != p
  {
    if seats == [] then None
    else if pool[seats[0]].playerId == p then Some(seats[0])
    else FindPlayer(pool, seats[1..], p)
  }

  predicate Present(r: Room, p: PlayerId)
    requires r.Wf()
  {
    exists id <- r.seats :: r.pool[id].playerId == p
  }

  /** `seats` without its first occurrence of `id`, order kept. */
  function Without(seats: seq<SeatId>, id: SeatId): (s: seq<SeatId>)
    ensures |s| <= |seats| && forall x <- s :: x in seats
  {
    if seats == [] then []
    else if seats[0] == id then seats[1..]
    else [seats[0]] + Without(seats[1..], id)
  }

  /** The seats of `seats` whose connection is not gone for good, order kept. */
  function Survivors(pool: map<SeatId, Seat>, seats: seq<SeatId>): (s: seq<SeatId>)
    requires forall id <- seats :: id in pool
    ensures |s| <= |seats|
    ensures forall x :: x in s <==> x in seats && (pool[x].sess.Some? || pool[x].disconnected)
  {
    if seats == [] then []
    else
      var rest := Survivors(pool, seats[1..]);
      if pool[seats[0]].sess.Some? || pool[seats[0]].disconnected then [seats[0]] + rest else rest
  }

  // --- AFK accounting ----------------------------------------------------

  /** Go's integer division, which truncates toward zero. */
  function TruncDiv(a: int, b: int): (q: int)
    requires b > 0
    ensures a >= 0 ==> q == a / b
  {
    if a >= 0 then a / b else -((-a) / b)
  }

  function Bucket(goAtMs: int, recvMs: int): int {
    TruncDiv(recvMs - goAtMs, AFK_BUCKET_MS)
  }

  /** afkAtLocked: idle time within [goAt, end], and its share of the window. */
  function AfkAt(s: Seat, goAtMs: int, endMs: int): (r: (int, real)) {
    var buckets := TruncDiv(endMs - goAtMs, AFK_BUCKET_MS);
    if buckets <= 0 then (0, 0.0)
    else
      var idle := if buckets - s.activeBuckets < 0 then 0 else buckets - s.activeBuckets;
      (idle * AFK_BUCKET_MS, idle as real / buckets as real)
  }

  // --- building blocks ---------------------------------------------------

  function Put(r: Room, id: SeatId, s: Seat): Room {
    r.(pool := r.pool[id := s])
  }

  function Touch(r: Room, now: int): Room {
    r.(lastActivityMs := now, idleWarned := false)
  }

  function Rehost(r: Room): Room
    requires r.Wf()
  {
    r.(hostId := if r.seats == [] then None else Some(r.pool[r.seats[0]].playerId))
  }

  /** Remove `id` from the seat list, passing the host role on if it held it. */
  function Depart(r: Room, id: SeatId): (r': Room)
    requires r.Wf() && id in r.pool
    ensures r'.Wf()
  {
    var r1 := r.(seats := Without(r.seats, id));
    if r.hostId == Some(r.pool[id].playerId) then Rehost(r1) else r1
  }

  predicate Racing(r: Room, id: SeatId)
    requires id in r.pool
  {
    r.mtch.Some? && r.pool[id].status == Active
  }

  predicate AllTerminal(r: Room)
    requires r.Wf()
  {
    r.mtch.Some? && forall id <- r.mtch.value.roster :: r.pool[id].status != Active
  }

  // --- match end ---------------------------------------------------------

  function Reported(s: Status): Status {
    if s == Active then Dnf else s
  }

  function ResultOf(s: Seat, goAtMs: int, endedAtMs: int): MatchResult {
    var status := Reported(s.status);
    var windowEnd := if status == Finished && s.finishedAtMs > 0 then s.finishedAtMs else endedAtMs;
    var (afkMs, afkShare) := AfkAt(s, goAtMs, windowEnd);
    MatchResult(s.playerId, status, |s.batches|, s.eventCount,
                if status == Finished then Some(s.finishedAtMs) else None, afkMs, afkShare)
  }

  function RunOf(s: Seat): RunSnapshot {
    RunSnapshot(s.playerId, s.userId, Reported(s.status), s.batches)
  }

  function EndRecordOf(r: Room, m: Match, reason: Reason, now: int): (e: EndRecord)
    requires forall id <- m.roster :: id in r.pool
  {
    EndRecord(m.id, reason,
              seq(|m.roster|, i requires 0 <= i < |m.roster| => ResultOf(r.pool[m.roster[i]], m.goAtMs, now)),
              seq(|m.roster|, i requires 0 <= i < |m.roster| => RunOf(r.pool[m.roster[i]])))
  }

  /** `match_end` goes straight to a connected seat, into the backlog of a graced
      one that is still in the room, and nowhere else. */
  function HandEnd(s: Seat, present: bool, end: Frame): Seat {
    if s.sess.Some? then s.(queue := s.queue + [end])
    else if s.disconnected && present then s.(backlog := s.backlog + [end])
    else s
  }

  function LobbyReset(s: Seat): Seat {
    s.(ready := false, status := NoStatus, lastSeq := 0, batches := [],
       backlog := if s.disconnected then s.backlog else [])
  }

  /** What the end of match `m` leaves of seat `id`. */
  function EndedSeat(r: Room, m: Match, id: SeatId): (s': Seat)
    requires r.Wf() && id in r.pool
  {
    var s := r.pool[id];
    var handed := if id in m.roster then HandEnd(s, Present(r, s.playerId), MatchEndFrame(m.id)) else s;
    if id in r.seats then LobbyReset(handed) else handed
  }

  function EndedPool(r: Room, m: Match): (p: map<SeatId, Seat>)
    requires r.Wf()
    ensures p.Keys == r.pool.Keys
  {
    map id | id in r.pool :: EndedSeat(r, m, id)
  }

  /** The room back in its lobby, before the host role is looked at. */
  function BackToLobby(r: Room, m: Match, reason: Reason, now: int): (r': Room)
    requires r.Wf() && r.mtch == Some(m)
    ensures r'.Wf()
  {
    var pool := EndedPool(r, m);
    r.(pool := pool, mtch := None, inMatch := false, seats := Survivors(pool, r.seats),
       ends := r.ends + [EndRecordOf(r, m, reason, now)])
  }

  function EndMatch(r: Room, reason: Reason, now: int): (r': Room)
    requires r.Wf()
    ensures r'.Wf()
  {
    if r.mtch.None? || r.mtch.value.ended then r
    else
      var r1 := BackToLobby(r, r.mtch.value, reason, now);
      if r1.hostId.Some? && Present(r1, r1.hostId.value) then r1 else Rehost(r1)
  }

  function EndIfDone(r: Room, now: int): (r': Room)
    requires r.Wf()
    ensures r'.Wf()
  {
    if AllTerminal(r) then EndMatch(r, AllFinished, now) else r
  }

  // --- membership --------------------------------------------------------

  function NewSeat(sess: SessionId, p: PlayerId, u: UserId, joinSeq: nat): Seat {
    Seat(Some(sess), p, u, false, joinSeq, NoStatus, 0, [], 0, 0, 0, 0, 0, false, [], None, [], [])
  }

  /** `seat`: refused, changing nothing, when the room is full. */
  function TakeSeat(r: Room, id: SeatId, sess: SessionId, p: PlayerId, u: UserId, asHost: bool, now: int): (r': Room)
    requires r.Wf()
    ensures r'.Wf()
  {
    if |r.seats| >= ROOM_CAPACITY then r
    else
      var r1 := Touch(Put(r, id, NewSeat(sess, p, u, r.nextSeq)), now)
                .(seats := r.seats + [id], nextSeq := r.nextSeq + 1);
      if asHost then r1.(hostId := Some(p)) else r1
  }

  /** leaveSeatLocked. */
  function LeaveSeat(r: Room, id: SeatId, now: int): (r': Room)
    requires r.Wf() && id in r.pool
    ensures r'.Wf()
  {
    var r1 := if Racing(r, id) then Put(r, id, r.pool[id].(status := Left, sess := None)) else r;
    EndIfDone(Depart(r1, id), now)
  }

  function Leave(r: Room, sess: SessionId, now: int): (r': Room)
    requires r.Wf()
    ensures r'.Wf()
  {
    match FindSeat(r.pool, r.seats, sess)
    case None => r
    case Some(id) => LeaveSeat(r, id, now)
  }

  /** releaseSeat's answer; a refusal changes nothing. */
  predicate ReleaseRefused(r: Room, id: SeatId)
    requires r.Wf() && id in r.pool
  {
    Present(r, r.pool[id].playerId) && Racing(r, id)
  }

  function Release(r: Room, id: SeatId, now: int): (r': Room)
    requires r.Wf() && id in r.pool
    ensures r'.Wf()
  {
    if !Present(r, r.pool[id].playerId) || Racing(r, id) then r else LeaveSeat(r, id, now)
  }

  function Park(s: Seat): Seat {
    s.(sess := None, disconnected := true)
  }

  function Detach(r: Room, id: SeatId): (r': Room)
    requires r.Wf() && id in r.pool
    ensures r'.Wf()
  {
    if !Present(r, r.pool[id].playerId) || r.pool[id].sess.None? then r
    else Put(r, id, Park(r.pool[id]))
  }

  function Disconnect(r: Room, sess: SessionId): (r': Room)
    requires r.Wf()
    ensures r'.Wf()
  {
    match FindSeat(r.pool, r.seats, sess)
    case None => r
    case Some(id) => Put(r, id, Park(r.pool[id]))
  }

  function GraceExpire(r: Room, id: SeatId, now: int): (r': Room)
    requires r.Wf() && id in r.pool
    ensures r'.Wf()
  {
    var s := r.pool[id];
    if s.sess.Some? || !s.disconnected || !Present(r, s.playerId) then r
    else if Racing(r, id) then EndIfDone(Depart(Put(r, id, s.(status := Dnf)), id), now)
    else Depart(Put(r, id, s.(disconnected := false)), id)
  }

  function Kick(r: Room, sess: SessionId, target: PlayerId, now: int): (r': Room)
    requires r.Wf()
    ensures r'.Wf()
  {
    match FindSeat(r.pool, r.seats, sess)
    case None => r
    case Some(me) =>
      if r.hostId != Some(r.pool[me].playerId) || r.inMatch then r
      else
        match FindPlayer(r.pool, r.seats, target)
        case None => r
        case Some(id) =>
          if r.hostId == Some(target) then r
          else Touch(r.(seats := Without(r.seats, id)), now)
  }

  function TransferHost(r: Room, sess: SessionId, target: PlayerId, now: int): (r': Room)
    requires r.Wf()
    ensures r'.Wf()
  {
    match FindSeat(r.pool, r.seats, sess)
    case None => r
    case Some(me) =>
      if r.hostId != Some(r.pool[me].playerId) || r.inMatch then r
      else if !Present(r, target) || r.hostId == Some(target) then r
      else Touch(r.(hostId := Some(target)), now)
  }

  function SetReady(r: Room, sess: SessionId, value: bool, now: int): (r': Room)
    requires r.Wf()
    ensures r'.Wf()
  {
    match FindSeat(r.pool, r.seats, sess)
    case None => r
    case Some(id) =>
      if r.inMatch || r.pool[id].ready == value then r
      else Touch(Put(r, id, r.pool[id].(ready := value)), now)
  }

  function UpdateSettings(r: Room, sess: SessionId, ns: Settings, now: int): (r': Room)
    requires r.Wf()
    ensures r'.Wf()
  {
    match FindSeat(r.pool, r.seats, sess)
    case None => r
    case Some(me) =>
      var clean := ns.(name := SanitizeRoomName(ns.name));
      if r.hostId != Some(r.pool[me].playerId) || r.inMatch || !ValidSettings(clean) then r
      else Touch(r.(settings := clean,
                    pool := map id | id in r.pool ::
                      if id in r.seats then r.pool[id].(ready := false) else r.pool[id]), now)
  }

  // --- reconnect ---------------------------------------------------------

  predicate CanBind(r: Room, id: SeatId)
    requires r.Wf() && id in r.pool
  {
    r.pool[id].disconnected && Present(r, r.pool[id].playerId)
  }

  /** reattach, first section: bind the new session, keep the seat buffering. */
  function Bind(r: Room, id: SeatId, sess: SessionId): (r': Room)
    requires r.Wf() && id in r.pool
    ensures r'.Wf()
  {
    if !CanBind(r, id) then r
    else Put(r, id, r.pool[id].(sess := Some(sess), drain := Some(Drain(sess, Racing(r, id)))))
  }

  /** reattach, one turn of the drain loop: take the backlog, or go live. */
  function DrainTurn(r: Room, id: SeatId, now: int): (r': Room)
    requires r.Wf() && id in r.pool
    ensures r'.Wf()
  {
    var s := r.pool[id];
    if s.drain.None? || s.pending != [] then r
    else if s.backlog != [] then Put(r, id, s.(pending := s.backlog, backlog := []))
    else Put(r, id, s.(disconnected := false, drain := None,
                       lastBatchMs := if s.drain.value.midMatch then now else s.lastBatchMs))
  }

  /** What a drain turn makes of its seat. */
  function TurnedSeat(s: Seat, now: int): (s': Seat) {
    if s.drain.None? || s.pending != [] then s
    else if s.backlog != [] then s.(pending := s.backlog, backlog := [])
    else s.(disconnected := false, drain := None, lastBatchMs := if s.drain.value.midMatch then now else s.lastBatchMs)
  }

  /** reattach, off the lock: send the next frame that was taken. */
  function SendPending(r: Room, id: SeatId): (r': Room)
    requires r.Wf() && id in r.pool
    ensures r'.Wf()
  {
    var s := r.pool[id];
    if s.pending == [] then r
    else Put(r, id, s.(queue := s.queue + [s.pending[0]], pending := s.pending[1..]))
  }

  /** All the frames taken, sent one by one. */
  function SentAll(r: Room, id: SeatId): (r': Room)
    requires r.Wf() && id in r.pool
    ensures r'.Wf() && id in r'.pool
    decreases |r.pool[id].pending|
  {
    if r.pool[id].pending == [] then r else SentAll(SendPending(r, id), id)
  }

  /** The drain of seat `id` run to its end: what was taken is sent, what is
      buffered is taken and sent, and the seat goes live. */
  function Drained(r: Room, id: SeatId, now: int): (r': Room)
    requires r.Wf() && id in r.pool && r.pool[id].drain.Some?
    ensures r'.Wf()
    decreases 2 * |r.pool[id].backlog| + |r.pool[id].pending|
  {
    if r.pool[id].pending != [] then Drained(SendPending(r, id), id, now)
    else if r.pool[id].backlog != [] then Drained(DrainTurn(r, id, now), id, now)
    else DrainTurn(r, id, now)
  }

  /** reattach gives up after a round of sends because the connection is dying. */
  function AbandonDrain(r: Room, id: SeatId): (r': Room)
    requires r.Wf() && id in r.pool
    ensures r'.Wf()
  {
    var s := r.pool[id];
    if s.drain.None? || s.pending != [] then r else Put(r, id, s.(drain := None))
  }

  // --- the match ---------------------------------------------------------

  predicate CanStart(r: Room, sess: SessionId, force: bool)
    requires r.Wf()
  {
    var me := FindSeat(r.pool, r.seats, sess);
    && me.Some?
    && r.hostId == Some(r.pool[me.value].playerId)
    && !r.inMatch
    && |r.seats| >= 2
    && (force || forall id <- r.seats :: r.hostId == Some(r.pool[id].playerId) || r.pool[id].ready)
  }

  function EnterMatch(s: Seat, goAtMs: int): Seat {
    s.(status := Active, lastSeq := 0, batches := [], eventCount := 0, finishedAtMs := 0,
       lastBatchMs := goAtMs, activeBuckets := 0, lastBucket := -1,
       disconnected := s.sess.None?, backlog := [])
  }

  /** The player ids of the seats, in join order. */
  function Players(r: Room): (ps: seq<PlayerId>)
    requires r.Wf()
    ensures |ps| == |r.seats| && forall i :: 0 <= i < |ps| ==> ps[i] == r.pool[r.seats[i]].playerId
  {
    seq(|r.seats|, i requires 0 <= i < |r.seats| => r.pool[r.seats[i]].playerId)
  }

  function StartMatch(r: Room, sess: SessionId, force: bool, mid: MatchId, now: int): (r': Room)
    requires r.Wf()
    ensures r'.Wf()
  {
    if !CanStart(r, sess, force) then r
    else
      var goAt := now + COUNTDOWN_LEAD_MS;
      Touch(r.(
        pool := map id | id in r.pool ::
          if id in r.seats then EnterMatch(r.pool[id], goAt) else r.pool[id],
        mtch := Some(Match(mid, goAt, r.settings, r.seats, None, false)), inMatch := true,
        accepted := [],
        started := r.started + [StartRecord(mid, Players(r), DeadlineDelayMs(r.settings))]), now)
  }

  datatype EventBatch = EventBatch(matchId: MatchId, batchSeq: int, version: int, events: seq<Event>)

  /** Does relayEventBatch accept the batch from seat `id`? */
  predicate Acceptable(r: Room, id: SeatId, eb: EventBatch)
    requires id in r.pool
  {
    && r.mtch.Some?
    && eb.matchId == r.mtch.value.id
    && r.pool[id].status == Active
    && eb.events != []
    && eb.batchSeq == r.pool[id].lastSeq + 1
    && r.pool[id].eventCount + |eb.events| <= MAX_CAPTURED_EVENTS
  }

  function Capture(s: Seat, goAtMs: int, eb: EventBatch, recvMs: int): Seat {
    var s1 := s.(lastSeq := eb.batchSeq,
                 batches := s.batches + [CapturedBatch(eb.batchSeq, recvMs, eb.events)],
                 eventCount := s.eventCount + |eb.events|,
                 lastBatchMs := recvMs);
    var bucket := Bucket(goAtMs, recvMs);
    if bucket > s.lastBucket then s1.(lastBucket := bucket, activeBuckets := s.activeBuckets + 1) else s1
  }

  /** Hand a relayed batch to one other roster seat. */
  function HandBatch(s: Seat, f: Frame): Seat {
    if s.disconnected then s.(backlog := s.backlog + [f])
    else if s.sess.Some? then s.(queue := s.queue + [f])
    else s
  }

  function Relay(r: Room, sess: SessionId, eb: EventBatch, recvMs: int, now: int): (r': Room)
    requires r.Wf()
    ensures r'.Wf()
  {
    match FindSeat(r.pool, r.seats, sess)
    case None => r
    case Some(me) =>
      if !Acceptable(r, me, eb) then r
      else
        var m := r.mtch.value;
        var f := PeerBatch(m.id, r.pool[me].playerId, eb.version, eb.events);
        Touch(r.(
          pool := map id | id in r.pool ::
            if id == me then Capture(r.pool[id], m.goAtMs, eb, recvMs)
            else if id in m.roster then HandBatch(r.pool[id], f)
            else r.pool[id],
          accepted := r.accepted + [Accepted(me, f)]), now)
  }

  /** The first finish of a counted match arms the finish window. */
  function Arm(r: Room, now: int): (r': Room)
    requires r.Wf()
    ensures r'.Wf()
  {
    if r.mtch.Some? && IsCounted(r.mtch.value.settings.mode) && r.mtch.value.finishWindowAtMs.None?
    then r.(mtch := Some(r.mtch.value.(finishWindowAtMs := Some(now)))) else r
  }

  function EndOrArm(r: Room, now: int): (r': Room)
    requires r.Wf()
    ensures r'.Wf()
  {
    if AllTerminal(r) then EndMatch(r, AllFinished, now) else Arm(r, now)
  }

  function Finish(r: Room, sess: SessionId, mid: MatchId, forfeit: bool, now: int): (r': Room)
    requires r.Wf()
    ensures r'.Wf()
  {
    match FindSeat(r.pool, r.seats, sess)
    case None => r
    case Some(me) =>
      if r.mtch.None? || mid != r.mtch.value.id || r.pool[me].status != Active then r
      else if forfeit then EndIfDone(Put(r, me, r.pool[me].(status := Dnf)), now)
      else
        EndOrArm(Put(r, me, r.pool[me].(status := Finished, finishedAtMs := now)), now)
  }

  /** Every racing roster seat that `out` picks is dnf'd. */
  function DnfWhere(r: Room, out: set<SeatId>): (r': Room)
    requires r.Wf()
    ensures r'.Wf()
  {
    r.(pool := map id | id in r.pool ::
         if r.mtch.Some? && id in r.mtch.value.roster && id in out && r.pool[id].status == Active
         then r.pool[id].(status := Dnf) else r.pool[id])
  }

  predicate IsCurrent(r: Room, mid: MatchId) {
    r.mtch.Some? && r.mtch.value.id == mid && !r.mtch.value.ended
  }

  /** onDeadline and onFinishWindow: the same body under two reasons. */
  function ForceEnd(r: Room, mid: MatchId, reason: Reason, now: int): (r': Room)
    requires r.Wf()
    ensures r'.Wf()
  {
    if !IsCurrent(r, mid) then r
    else EndMatch(DnfWhere(r, r.pool.Keys), reason, now)
  }

  /** sweepAfk's judgement of one seat. */
  predicate SweptOut(s: Seat, m: Match, now: int) {
    && s.status == Active
    && !s.disconnected
    && (now - s.lastBatchMs >= AFK_TRAILING_MS
        || (IsCounted(m.settings.mode) && now - m.goAtMs >= AFK_WARMUP_MS
            && AfkAt(s, m.goAtMs, now).1 >= AFK_KICK_SHARE))
  }

  function SweepSet(r: Room, now: int): (out: set<SeatId>)
    requires r.Wf()
  {
    if r.mtch.None? then {}
    else set id | id in r.mtch.value.roster && SweptOut(r.pool[id], r.mtch.value, now)
  }

  function SweepAfk(r: Room, mid: MatchId, now: int): (r': Room)
    requires r.Wf()
    ensures r'.Wf()
  {
    if !IsCurrent(r, mid) then r
    else if SweepSet(r, now) == {} then r
    else EndIfDone(DnfWhere(r, SweepSet(r, now)), now)
  }

  // --- the idle reaper ---------------------------------------------------

  datatype IdleState = Quiet | Warn | Expire

  function IdleStateOf(r: Room, now: int): IdleState {
    var idle := now - r.lastActivityMs;
    if r.inMatch then Quiet
    else if idle >= ROOM_IDLE_TIMEOUT_MS then Expire
    else if idle >= ROOM_IDLE_TIMEOUT_MS - ROOM_IDLE_WARNING_MS && !r.idleWarned then Warn
    else Quiet
  }

  /** Every seat leaves, first to last. */
  function LeaveAll(r: Room, now: int): (r': Room)
    requires r.Wf() && r.mtch.None?
    ensures r'.Wf()
    decreases |r.seats|
  {
    if r.seats == [] then r
    else
      var id := r.seats[0];
      assert Without(r.seats, id) == r.seats[1..];
      LeaveAll(LeaveSeat(r, id, now), now)
  }

  function ReapIdle(r: Room, now: int): (r': Room)
    requires r.Wf() && r.inMatch == r.mtch.Some?
    ensures r'.Wf()
  {
    match IdleStateOf(r, now)
    case Quiet => r
    case Warn => r.(idleWarned := true)
    case Expire => LeaveAll(r, now)
  }
}
