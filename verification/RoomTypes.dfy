/** The vocabulary of one multiplayer room: seats, frames, the running match and
    the records it leaves behind, with the production constants.

    A Go `*seat` is shared by the room's seat list and the match roster. Here a
    pointer is a `SeatId` into the room's `pool`, so the sharing is kept: a write
    through the roster is seen through the seat list and the other way round. */
module RoomTypes {

  datatype Option<+T> = None | Some(value: T)

  type SeatId = nat
  type SessionId = nat
  type PlayerId = nat
  type MatchId = nat
  type UserId = string // "" for a guest
  type Event = string // one opaque keystroke event

  const ROOM_CAPACITY := 5
  const COUNTDOWN_LEAD_MS := 5000
  const DEADLINE_SLACK_MS := 30000
  const WORD_MS_PER_WORD := 3000
  const MAX_CAPTURED_EVENTS := 480000
  const MAX_DURATION_MS := 3600000
  const MAX_WORD_COUNT := 3000
  const AFK_BUCKET_MS := 1000
  const AFK_TRAILING_MS := 15000
  const AFK_WARMUP_MS := 10000
  const AFK_KICK_SHARE := 0.6
  const ROOM_IDLE_TIMEOUT_MS := 3600000
  const ROOM_IDLE_WARNING_MS := 60000

  /** seatActive and the protocol's terminal statuses; `NoStatus` is the empty string. */
  datatype Status = NoStatus | Active | Finished | Dnf | Left

  datatype Reason = AllFinished | Deadline | FinishWindow

  datatype CapturedBatch = CapturedBatch(batchSeq: int, recvMs: int, events: seq<Event>)

  /** The two frames whose hand-over is tracked. `matchId` on a peer batch is a
      tag of the model: the wire frame does not carry it. */
  datatype Frame =
    | PeerBatch(matchId: MatchId, from: PlayerId, version: int, events: seq<Event>)
    | MatchEndFrame(matchId: MatchId)

  /** A reconnect that is replaying a backlog: who runs it, and whether it began
      while the seat was racing. */
  datatype Drain = Drain(sess: SessionId, midMatch: bool)

  /** The last three fields are the model's log of what was handed to the seat's
      connection: `pending` was taken off the backlog and not sent yet, `queue`
      is everything sent so far, in order. */
  datatype Seat = Seat(
    sess: Option<SessionId>, playerId: PlayerId, userId: UserId, ready: bool, joinSeq: nat,
    status: Status, lastSeq: int, batches: seq<CapturedBatch>, eventCount: int,
    finishedAtMs: int, lastBatchMs: int, activeBuckets: int, lastBucket: int,
    disconnected: bool, backlog: seq<Frame>,
    drain: Option<Drain>, pending: seq<Frame>, queue: seq<Frame>)

  datatype TextSource = TextSource(kind: string, quoteId: string)

  datatype Settings = Settings(
    name: string, visibility: string, mode: string, durationMs: int, wordCount: int,
    lang: string, dictHash: string, textSource: TextSource)

  datatype Match = Match(
    id: MatchId, goAtMs: int, settings: Settings, roster: seq<SeatId>,
    finishWindowAtMs: Option<int>, ended: bool)

  datatype MatchResult = MatchResult(
    playerId: PlayerId, status: Status, batchCount: nat, eventCount: int,
    finishedAtMs: Option<int>, afkMs: int, afkShare: real)

  datatype RunSnapshot = RunSnapshot(
    playerId: PlayerId, userId: UserId, status: Status, batches: seq<CapturedBatch>)

  /** What one match end puts out: the `match_end` results and the snapshot
      handed to the match store. */
  datatype EndRecord = EndRecord(
    id: MatchId, reason: Reason, results: seq<MatchResult>, runs: seq<RunSnapshot>)

  /** What one match start fixes: the roster's players and the deadline delay. */
  datatype StartRecord = StartRecord(id: MatchId, players: seq<PlayerId>, deadlineDelayMs: int)

  /** One accepted event batch of the running match, as relayed. */
  datatype Accepted = Accepted(sender: SeatId, frame: Frame)

  /** The room, between two critical sections. `pool` holds every seat object the
      room ever made; `clock` is the latest clock reading; `accepted`, `started`
      and `ends` are logs. */
  datatype Room = Room(
    pool: map<SeatId, Seat>, seats: seq<SeatId>, hostId: Option<PlayerId>,
    inMatch: bool, mtch: Option<Match>, nextSeq: nat, settings: Settings,
    lastActivityMs: int, idleWarned: bool,
    clock: int, accepted: seq<Accepted>, started: seq<StartRecord>, ends: seq<EndRecord>)
  {
    ghost predicate Wf() {
      && (forall id <- seats :: id in pool)
      && (mtch.Some? ==> forall id <- mtch.value.roster :: id in pool)
    }
  }
}
