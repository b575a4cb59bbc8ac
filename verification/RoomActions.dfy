/** A room as a state machine: every critical section is one action, and a run is
    a sequence of actions in any order the environment can produce. */
module RoomActions {
  import opened RoomTypes
  import opened RoomSettings
  import opened RoomSteps

  datatype Action =
    | TakeSeatA(id: SeatId, sess: SessionId, player: PlayerId, user: UserId, asHost: bool, now: int)
    | LeaveA(sess: SessionId, now: int)
    | ReleaseA(id: SeatId, now: int)
    | DetachA(id: SeatId)
    | DisconnectA(sess: SessionId)
    | GraceExpireA(id: SeatId, now: int)
    | KickA(sess: SessionId, player: PlayerId, now: int)
    | TransferHostA(sess: SessionId, player: PlayerId, now: int)
    | ReadyA(sess: SessionId, value: bool, now: int)
    | SettingsA(sess: SessionId, settings: Settings, now: int)
    | BindA(id: SeatId, sess: SessionId)
    | DrainTurnA(id: SeatId, now: int)
    | SendPendingA(id: SeatId)
    | AbandonDrainA(id: SeatId)
    | StartMatchA(sess: SessionId, force: bool, mid: MatchId, now: int)
    | RelayA(sess: SessionId, batch: EventBatch, recvMs: int, now: int)
    | FinishA(sess: SessionId, mid: MatchId, forfeit: bool, now: int)
    | ForceEndA(mid: MatchId, reason: Reason, now: int)
    | SweepAfkA(mid: MatchId, now: int)
    | ReapIdleA(now: int)
  {
    predicate Timed() {
      !(DetachA? || DisconnectA? || BindA? || SendPendingA? || AbandonDrainA?)
    }

    /** Sections that rewrite one seat's connection. */
    predicate OfConnection() {
      DetachA? || DisconnectA? || BindA? || DrainTurnA? || SendPendingA? || AbandonDrainA?
    }

    /** Sections in which seats go. */
    predicate OfDeparture() {
      LeaveA? || ReleaseA? || GraceExpireA? || ReapIdleA?
    }

    /** Sections of a running match. */
    predicate OfMatch() {
      FinishA? || ForceEndA? || SweepAfkA?
    }

    predicate NamesSeat() {
      ReleaseA? || DetachA? || GraceExpireA? || BindA? || DrainTurnA? || SendPendingA? || AbandonDrainA?
    }
  }

  /** What the environment guarantees about the next action.
      - The clock does not run backwards, and a batch is received after the
        countdown that announced its match id and no earlier than the seat's
        previous batch.
      - A seat object is new when it is seated, and no seat of the room carries
        its player id at that moment; a match id is new when a match starts.
      - At most one drain runs per seat, and a connection tears itself down only
        after its own drain has returned. */
  ghost predicate Legal(r: Room, a: Action)
    requires r.Wf()
  {
    && (a.Timed() ==> r.clock <= a.now)
    && (a.NamesSeat() ==> a.id in r.pool)
    && match a {
         case TakeSeatA(id, _, player, _, _, _) => id !in r.pool && !Present(r, player)
         case DisconnectA(sess) => forall id <- r.seats :: r.pool[id].sess == Some(sess) ==> r.pool[id].drain.None?
         case BindA(id, _) => r.pool[id].drain.None?
         case StartMatchA(_, _, mid, _) => mid !in StartedIds(r)
         case RelayA(sess, eb, recvMs, now) => recvMs <= now && PromptBatch(r, sess, recvMs)
         case _ => true
       }
  }

  function StartedIds(r: Room): set<MatchId> {
    set s <- r.started :: s.id
  }

  ghost predicate PromptBatch(r: Room, sess: SessionId, recvMs: int)
    requires r.Wf()
  {
    var me := FindSeat(r.pool, r.seats, sess);
    r.mtch.Some? && me.Some? ==>
      && r.mtch.value.goAtMs - COUNTDOWN_LEAD_MS <= recvMs
      && forall b <- r.pool[me.value].batches :: b.recvMs <= recvMs
  }

  function Perform(r: Room, a: Action): (r': Room)
    requires r.Wf() && (a.NamesSeat() ==> a.id in r.pool) && (a.ReapIdleA? ==> r.inMatch == r.mtch.Some?)
    ensures r'.Wf()
  {
    match a
    case TakeSeatA(id, sess, player, user, asHost, now) => TakeSeat(r, id, sess, player, user, asHost, now)
    case LeaveA(sess, now) => Leave(r, sess, now)
    case ReleaseA(id, now) => Release(r, id, now)
    case DetachA(id) => Detach(r, id)
    case DisconnectA(sess) => Disconnect(r, sess)
    case GraceExpireA(id, now) => GraceExpire(r, id, now)
    case KickA(sess, player, now) => Kick(r, sess, player, now)
    case TransferHostA(sess, player, now) => TransferHost(r, sess, player, now)
    case ReadyA(sess, value, now) => SetReady(r, sess, value, now)
    case SettingsA(sess, settings, now) => UpdateSettings(r, sess, settings, now)
    case BindA(id, sess) => Bind(r, id, sess)
    case DrainTurnA(id, now) => DrainTurn(r, id, now)
    case SendPendingA(id) => SendPending(r, id)
    case AbandonDrainA(id) => AbandonDrain(r, id)
    case StartMatchA(sess, force, mid, now) => StartMatch(r, sess, force, mid, now)
    case RelayA(sess, eb, recvMs, now) => Relay(r, sess, eb, recvMs, now)
    case FinishA(sess, mid, forfeit, now) => Finish(r, sess, mid, forfeit, now)
    case ForceEndA(mid, reason, now) => ForceEnd(r, mid, reason, now)
    case SweepAfkA(mid, now) => SweepAfk(r, mid, now)
    case ReapIdleA(now) => ReapIdle(r, now)
  }

  function Tick(r: Room, a: Action): Room {
    if a.Timed() then r.(clock := a.now) else r
  }

  /** One action, with the clock moved to its reading. */
  function Step(r: Room, a: Action): (r': Room)
    requires r.Wf() && (a.NamesSeat() ==> a.id in r.pool) && (a.ReapIdleA? ==> r.inMatch == r.mtch.Some?)
    ensures r'.Wf()
  {
    Perform(Tick(r, a), a)
  }

  /** newRoom: no seats, default settings, no match. */
  function NewRoom(now: int): (r: Room)
    ensures r.Wf()
  {
    Room(map[], [], None, false, None, 0, DefaultSettings(""), now, false, now, [], [], [])
  }
}
