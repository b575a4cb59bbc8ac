# Verification of the TypeMore server core

A Dafny model of the parts of the TypeMore server whose correctness is hardest to
see by reading one function: multiplayer rooms and the registry that owns them,
the rate limiters and the password-hashing gate, leaderboard paging and board
keys, and the replay worker's decisions and start-up. `dafny verify dfyconfig.toml`
checks everything.

## What is modelled

**Rooms** (`RoomTypes`, `Settings`, `RoomSteps`, `RoomActions`). A room is a value
with a pool of seat objects; the seat list and a match roster hold pool ids, so a
write through one is seen through the other, as with the source's shared pointers.
Every section that runs under the room lock is one action. `reattach` is split at
its lock boundaries into bind, drain turn, send and go-live, so anything may run in
between. Logs record accepted batches, match starts, match ends and the frames
handed to each seat. `RoomInvariant` and `RoomPreservation` state and prove what
every action keeps; `RoomRuns`, `RoomHost` and `RoomRelay` prove what holds over
all runs. `RoomOutcome` splits an action into what it does and whether the match ends
with it; on that, `RoomCauses` proves which action gives which terminal status and whom
the AFK sweep eliminates, `RoomEnding` who is handed `match_end`, `RoomCapture` that
what is persisted is what was sent, and `RoomCommands` who comes and goes, when a match
starts, and what the end record tells. `RoomTakeover` builds a reachable run that loses a batch, `RoomStranded`
says what becomes of the seat, and `RegistryHost` builds a run that leaves a room
without a host.

**The room as an object** (`RoomObject`). `LiveRoom` and `AccountIndex` are the
mutable classes with the source's loops. Each method is proved to do to the object
what its action does to the value, and to keep the account index exact.

**The registry** (`RegistryModel`, `RegistryRuns`, `RegistryHistories`,
`RegistryJoins`, `RegistryObject`). `create` and `join` hold the registry lock while they take room
locks one after another; each such section is one move, and between two of them any
room may act; the history of each room is a legal run of the room machine. The
object form runs them without interference.

**The lobby** (`Lobby`). Listing, comparator, sort.

**Limits** (`RateLimit`, `RateLimitExact`, `HashGate`). Token buckets over reals, as
runs and as objects, with the exact condition on which a call is refused. The gate is a state machine in which every atomic operation of every
request is a step.

**Leaderboards** (`Paging`, `BoardKeys`). The store's queries are filters over a
ranked board; the handlers are proved to answer slices of it. Keys are printed and
parsed over byte strings.

**Replay** (`Verdicts`, `Revalidation`, `Seeding`, `Watchdog`). The decision table
with a judge as any function, the batches over the runs table, the parallel seed
over an unbuffered channel, and the interrupt handshake of one core call.

## Where the code and what is said of it differ

- An account takeover (`detachSeat`) during a drain of the same seat leaves a seat
  that is not marked disconnected and has no connection; batches accepted meanwhile
  are lost to it (`RoomRelay.TakeoverDuringDrainLosesBatch`, `RoomTakeover.BatchIsLost`).
  A seat this does not happen to misses no batch, whatever happens to the others
  (`RoomRelay.RelayAcrossReconnect`).
- The comment there expects a seat whose re-attachment fails to be gone from the
  room. That seat stays, and refuses its account until a match starts or it goes
  (`RoomStranded.StrandedRefusesEverybody`, `RoomStranded.OnlyAStartFreesIt`,
  `RoomTakeover.StrandedSeatIsReachable`).
- A nonempty room has a host unless a plain join lands in a room whose last seat has
  just gone (`RegistryHost.HostLostOnlyByLateJoin`, `RegistryHost.HostlessRoomIsReachable`).
- `?cursor=` pages add one for the cursor's row whether or not it is still on the
  board (`Paging.ContinuationRanks`).
- `ParseBucketKey` is described as rejecting what could not have come out of `Key`;
  for language keys it also accepts other spellings of the size
  (`BoardKeys.LanguageKeyPrintsBack`, `BoardKeys.OtherSpellings`).
- Revalidation is described as idempotent; under the judge without a version the
  version is stored as NULL, and NULL is always stale, so every pass claims the same
  runs up to its limit (`Revalidation.BatchShrinksStale`, `Revalidation.Worker.Revalidate`).
- Reporting the first error in worker order is described as stable; which worker
  holds which broken file is the schedule's choice, so it is stable only with one
  worker or one possible error (`Seeding.MessageIsStableIff`; two broken files and
  two workers are an input, `Seeding.MessageDependsOnTheSchedule`).
- A stored room name can begin or end with a space: a control character hides a
  space from the trim, and the cut at 32 characters can fall behind one
  (`RoomSettings.SanitizingTwice`, `RoomSettings.CutBehindASpace`). It can be nothing
  but spaces (`RoomSettings.BlankNameStoredIff`, `RoomSettings.BlankRoomName`).

## Assumptions

- The clock does not run backwards, and a batch is received no earlier than the
  countdown that announced its match and the seat's previous batch.
- Match ids, seat objects, player ids, room codes and room ids are new when made.
- At most one drain runs per seat, and a connection tears itself down only after its
  own drain has returned.
- A queue records what was handed to a connection; the connection may still drop it.
- Timers and resume tokens are any-time actions: a grace timer, a deadline or a bind
  may come at any moment, which allows more runs than the source does.

## Model

| member | source | states |
|---|---|---|
| RoomSettings.DefaultSettings | internal/protocol/protocol.go:730-747 | a new room's settings are valid and private, whatever name was asked for |
| RoomSettings.DeadlineDelayMs | internal/ws/room_match.go:119-151 | valid settings arm the deadline at 35 s plus the duration or 3 s a word, at most 9035 s |
| RoomSettings.Sanitized | internal/protocol/protocol.go:618-636 | the counting loop computes trim, drop control characters, first 32 characters |
| RoomSettings.SanitizedIsClean | internal/protocol/protocol.go:618-636 | at most 32 characters, none of them a control or replacement character |
| RoomSettings.SanitizingTwice | internal/protocol/protocol.go:618-636 | sanitizing again changes nothing exactly when, of the characters kept from the trimmed name, neither the first nor the last of the first 32 is a space |
| RoomSettings.BlankNameStoredIff | internal/protocol/protocol.go:621-709 | a room is stored under a blank name exactly when something is kept of the trimmed name and its first 32 kept characters are all spaces; such settings pass validation |
| RoomSettings.BlankNameIsHidden | internal/protocol/protocol.go:621-636 | a name stored blank begins, once trimmed, with a character to drop, and ends with one unless more than 32 characters are kept |
| RoomSettings.PlainName | internal/protocol/protocol.go:618-636 | on a name with nothing to drop: never stored blank, never with a leading space, and sanitizing again changes it exactly if the trimmed name is longer than 32 with a space in the thirty-second place |
| RoomSettings.CutBehindASpace | internal/protocol/protocol.go:618-636 | 31 plain characters, a space and more text are stored with the trailing space, and a second pass removes it |
| RoomPreservation.StepInv | internal/ws/room.go:110-608 | every legal action of a room keeps: seats in strict join order, at most five, one per player; the host id empty or a current seat; in a match iff a match exists, with a racing roster seat, and every racing seat seated; no status outside a match; captures and counters exact; settings valid; deadlines in range; one end record per ended match |
| RoomPreservation.EndMatchInv | internal/ws/room_match.go:368-462 | ending a match from a state with no racer left restores the whole invariant: statuses cleared, dead seats reaped, host passed on, one end record logged |
| RoomPreservation.EndRecordAgrees | internal/ws/room_persist.go:21-49 | match_end results and persisted snapshot cover the frozen roster in order and agree on player, terminal status and batch count; idle share in [0, 1] |
| RoomPreservation.CaptureCounts | internal/ws/room_match.go:203-233 | an accepted batch keeps the capture numbered 1..lastSeq, eventCount the sum of the batch sizes, at most 480000 (which events: RoomCapture.CaptureIsWhatWasSent) |
| RoomPreservation.CaptureAfk | internal/ws/room_match.go:234-240 | counting a bucket only past the last one counted keeps activeBuckets equal to the number of distinct nonnegative one-second buckets (truncating division) |
| RoomPreservation.ActiveBucketsBound | internal/ws/room_match.go:234-240 | activeBuckets is at most lastBucket + 1 |
| RoomPreservation.AfkShareBounds | internal/ws/room_afk.go:14-24 | the reported idle share lies in [0, 1] for any counters and instants |
| RoomPreservation.StartMatchInv | internal/ws/room_match.go:86-175 | starting a match keeps the invariant: everybody seated races, with empty captures and an armed deadline in range |
| RoomPreservation.RelayInv | internal/ws/room_match.go:182-262 | accepting and fanning out a batch keeps the invariant |
| RoomPreservation.SweepAfkInv | internal/ws/room_afk.go:68-113 | the AFK sweep keeps the invariant and ends the match if it resolved the last racer |
| RoomPreservation.ReapIdleInv | internal/ws/room_idle.go:86-118 | reaping an idle room keeps the invariant |
| RoomRuns.Run | internal/ws/room.go:110-608 | the invariant holds after every run of legal actions, in any order |
| RoomRuns.OneEndPerMatch | internal/ws/room_match.go:86-462 | in every reachable room each started match that is not running has left exactly one end record, which agrees with its start; a running one none |
| RoomRuns.PerformAdvances | internal/ws/room_match.go:269-462 | each action goes on with the match as it was or ends it, and when it ends it the end record is of that very step |
| RoomRuns.FirstTerminalStatusWins | internal/ws/room_match.go:269-462 | a roster seat that left the racing state keeps its status and batch count over any further run, up to and in the end record |
| RoomRuns.StaleTimersDoNothing | internal/ws/room_match.go:311-345 | deadline, finish window and AFK sweep of an ended match change nothing, however late and whatever runs meanwhile |
| RoomRuns.FinishWindowArmedOnce | internal/ws/room_match.go:296-304 | over any run, once armed the finish window keeps its instant until the match has ended |
| RoomRuns.SweepSparesGracedSeats | internal/ws/room_afk.go:68-113 | the sweep leaves a seat inside its grace window racing and its match running |
| RoomRuns.SweepWaitsTenSeconds | internal/ws/room_afk.go:68-113 | the sweep changes nothing before ten seconds after go |
| RoomCapture.AcceptedAsSent | internal/ws/room_match.go:203-246 | an accepted batch is appended to its sender's capture with its number, receive time and events, and handed on with the same events; no other capture changes |
| RoomCapture.CaptureIsWhatWasSent | internal/ws/room_match.go:182-262 | from a new room, over any run: while a match runs, the events of each roster seat's captured batches are, batch by batch in order, those of the batches accepted from its player in this match |
| RoomCapture.SnapshotIsWhatWasSent | internal/ws/room_persist.go:21-49 | from a new room, over any run: the snapshot of every ended match holds for each of its players exactly the batches accepted from him in that match, in order |
| RoomEnding.MatchEndIsHanded | internal/ws/room_match.go:421-429 | whenever an action adds an end record, each roster seat with a connection is sent match_end last in its queue, one in its grace window and still present keeps it last in its backlog, and any other gets none |
| RoomEnding.NobodyIsToldTwice | internal/ws/room_match.go:368-429 | over any run no seat, live or long gone, is ever sent, being sent or keeping two match_ends of one match, or one of a match that has not ended |
| RoomEnding.EachIsToldOnce | internal/ws/room_match.go:421-429 | from a new room: when a match ends, a connected or graced roster seat holds its match_end exactly once and the others not at all |
| RoomCauses.FinishedByFinishing | internal/ws/room_match.go:269-305 | a racing roster seat is reported Finished at t exactly by its own finish of this match at t, without forfeit |
| RoomCauses.LeftByLeaving | internal/ws/room.go:150-191 | and reported Left exactly by leaving |
| RoomCauses.DnfByTheRest | internal/ws/room_match.go:269-345 | and reported Dnf, with no instant, exactly by its forfeit, a timer of this match, a sweep that finds it silent, or the end of its grace window |
| RoomCauses.SweepResolvesTheSilent | internal/ws/room_afk.go:68-113 | the sweep resolves a racer exactly when it is connected and has sent nothing for 15 s, or, in a words or quote match ten seconds in, nothing in three fifths of its whole seconds, counted from the capture itself |
| RoomCauses.WindowArmedByFirstFinish | internal/ws/room_match.go:296-304 | while the match goes on, the finish window changes exactly when a racer of a words or quote match finishes without forfeit and none is armed, and is armed at that instant |
| RoomCauses.ReportIsFirstCause | internal/ws/room_match.go:269-462 | over any run: what a seat that starts racing is reported as, by itself or in the end record, is the first of these causes to meet it, and nothing before one does |
| RoomCauses.EverybodyStartsRacing | internal/ws/room_match.go:118-135 | a match that starts has everybody in the room on its roster, racing, in seat order |
| RoomCommands.WhoStays | internal/ws/room.go:150-608 | a seat of the room is gone after an action exactly if it left, was released outside a race, ran out of grace, was kicked by the host outside a match, was reaped after an idle hour, or had neither connection nor grace when the match ended |
| RoomCommands.WhoComes | internal/ws/room.go:110-144 | a seat is new in the room exactly by taking one while fewer than five are taken; it is last, connected, in the lobby and not ready |
| RoomCommands.LobbyFollowsItsCommands | internal/ws/room_match.go:86-119 | a match starts exactly when the host asks outside one, with two seats or more, by force or with every other seat ready; settings change exactly when the host sets valid ones outside a match; the idle clock moves exactly on an action that shows life |
| RoomCommands.MatchBegins | internal/ws/room_match.go:118-151 | the match starts five seconds ahead on the room's settings, with exactly the seats of the room, nothing left of an earlier match, and a deadline thirty seconds past its length |
| RoomCommands.ReadyIsWhatItsHolderSaid | internal/ws/room.go:391-450 | a seat is ready exactly as its holder last said outside a match; new settings and the end of a match clear the flag and nothing else changes it |
| RoomCommands.HostPassesItsRole | internal/ws/room.go:515-549 | the host passes its role to whoever it names in the room, outside a match, and nobody else does |
| RoomCommands.ConnectionsFollowTheirSections | internal/ws/room.go:206-387 | after any action: who holds a seat and whether it is in its grace window, action by action |
| RoomCommands.EndRecordTells | internal/ws/room_match.go:385-419 | every end record is of the running match, gives the reason of its timer or all finished, snapshots each capture under its account, and tells the idle seconds that capture shows up to the finish or the end |
| RoomHost.HostSuccession | internal/ws/room.go:719-733 | when an action removes the host and somebody stays, the earliest joiner of those who stay is host |
| RoomHost.HostLostOnlyByJoiningEmptyRoom | internal/ws/room.go:110-144 | a hosted room ends up nonempty without a host exactly by a plain join into a room with no seats |
| RoomHost.PerformHost | internal/ws/room.go:515-549 | an action that seats nobody never leaves a departed host in place: the earliest joiner takes over, and a hosted room stays hosted |
| RegistryHost.HostLostOnlyByLateJoin | internal/ws/registry.go:154-186 | of all moves of the system, exactly a plain join seated in a room that has no seats leaves that room without a host |
| RegistryHost.HostlessRoomIsReachable | internal/ws/room.go:150-161 | from the empty registry: create, leave, and a join between the leave and the removal of the room give a listed, seated room with no host |
| RoomRelay.RelayAcrossReconnect | internal/ws/room_match.go:226-261 | for one seat, over any run in which that seat is not taken over during its own drain, whatever happens to the others: while it is a roster seat in the room, handed over, then taken by a drain, then buffered is exactly the sequence of batches accepted from the others, in order, without gap or duplicate |
| RoomRelay.LiveSeatHasEveryBatch | internal/ws/room.go:296-387 | from a fresh room, for a seat not taken over during its own drain: when it is live it has been handed every batch of the others, once, in acceptance order, over all its connections |
| RoomRelay.DeliveryLostOnlyUnheard | internal/ws/room_match.go:182-262 | for one seat and any legal action: delivery to it is lost exactly by an accepted relay while it is not marked disconnected and has no connection |
| RoomRelay.DeliveredThroughoutIff | internal/ws/room_match.go:182-262 | for one seat over a whole run: delivery to it holds at every point iff it held at the start and no accepted batch found it in that state |
| RoomRelay.DeafSeatMisses | internal/ws/room_match.go:252-261 | such a seat misses exactly the batch that was accepted |
| RoomRelay.LinkBrokenOnlyByTakeover | internal/ws/room.go:206-220 | one seat gets into that state by exactly one action: an account takeover of that very seat while its reconnect is drained |
| RoomRelay.TakeoverDuringDrainLosesBatch | internal/ws/room.go:330-387 | whatever the interrupted drain had taken or buffered, once it has gone live the next batch accepted from another seat is neither handed over nor buffered |
| RoomTakeover.BatchIsLost | internal/ws/room.go:206-387 | that state is reachable from a new room: two players, a drop, a resume, a takeover mid-drain |
| RoomStranded.RefusedOnlyWhenHeld | internal/ws/room.go:330-335 | a seated seat with its link intact refuses a re-attachment exactly when a live connection holds it |
| RoomStranded.StrandedRefusesEverybody | internal/ws/room.go:206-387 | the seat such a takeover leaves is present and refuses: another takeover, a re-attachment and a grace expiry change nothing |
| RoomStranded.OnlyAStartFreesIt | internal/ws/room.go:193-220 | over one action such a seat becomes reclaimable exactly when a match starts; otherwise it stays as it is or goes |
| RoomStranded.LostUntilAStart | internal/ws/room.go:193-220 | over any run in which no match starts nobody can take the seat back |
| RoomTakeover.StrandedSeatIsReachable | internal/ws/room.go:206-387 | such a seat is reachable in a running match |
| RegistryRuns.MoveOk | internal/ws/registry.go:119-245 | every section of create and join and every room action keeps: the account index is exactly the set of account seats; seated rooms are listed; every room in order |
| RegistryRuns.OneSeatPerAccount | internal/ws/registry.go:119-228 | in every state any interleaving reaches, an account holds a seat iff the index names that seat, so at most one in the process; its room is listed and holds at most five |
| RegistryHistories.MoveIsAnAction | internal/ws/registry.go:119-245 | over one move of the system each room takes one legal action of its own, or none |
| RegistryHistories.RoomRunOf | internal/ws/registry.go:119-245 | over any registry run the history of each room is a legal run of that room |
| RegistryHistories.HistoryOf | internal/ws/registry.go:119-135 | and of a room made on the way, a legal run from a new room |
| RegistryHistories.EveryMatchEndsOnce | internal/ws/room_match.go:86-462 | in every room of every registry run each started match that is not running has exactly one agreeing end record |
| RegistryHistories.EveryLiveSeatIsServed | internal/ws/room_match.go:226-261 | in every room of every registry run a live roster seat has been handed every batch of the others, once, in order, unless a join of its own account caught it during its drain |
| RegistryHistories.TerminalStatusIsFinal | internal/ws/room_match.go:269-462 | a terminal status in any room is final, whatever the registry runs next |
| RegistryHistories.FinishWindowIsFinal | internal/ws/room_match.go:296-304 | an armed finish window in any room keeps its instant until its match has ended |
| RegistryRuns.ListingIs | internal/ws/registry.go:119-245 | a code is listed after a move exactly if it was and its room is not an empty one being removed, or it is the one a create opens; the room behind a code never changes |
| RegistryRuns.CheckedJoinIsSeated | internal/ws/registry.go:154-186 | past the capacity check no interleaved action of any room makes the final seating fail, and the index names the new seat |
| RegistryRuns.RefusedIffRacing | internal/ws/room.go:247-268 | a release is refused exactly when the seat is present and racing |
| RegistryJoins.FailedJoinCostNothing | internal/ws/registry.go:154-186 | over a whole create or join with rooms acting in between: if it is refused, every move up to the refusal was a room acting on its own or changed nothing |
| RegistryJoins.LeaptIsSeated | internal/ws/registry.go:119-186 | once the old seat is given up, the answer is a seat, whatever interleaves |
| RegistryJoins.AnsweredWithinFiveSections | internal/ws/registry.go:119-186 | over any run a create or join is answered within five of its own sections, however many rooms act in between |
| RegistryObject.JoinedIs | internal/ws/registry.go:154-186 | which of the five answers a join gives, each exactly when: not found, reclaim, full, racing elsewhere, seated; refusals change nothing |
| RegistryObject.CreatedIs | internal/ws/registry.go:119-135 | create opens a room with its host seated, or refuses exactly when the account is racing and then changes nothing |
| RegistryObject.LiveRegistry.Join | internal/ws/registry.go:154-186 | the method computes that answer and that new registry |
| RegistryObject.LiveRegistry.Create | internal/ws/registry.go:119-135 | the method computes that answer and that new registry |
| RegistryObject.LiveRegistry.GiveUp | internal/ws/registry.go:175-181 | releases the old seat and removes its emptied room, or refuses and changes nothing |
| RegistryObject.LiveRegistry.RemoveIfEmptyLocked | internal/ws/registry.go:241-245 | drops the code of a seatless room and nothing else |
| RegistryObject.LiveRegistry.SeatOf | internal/ws/registry.go:217-228 | finds the indexed seat of a nonempty account id |
| RoomObject.AccountIndex.IndexSeat | internal/ws/registry.go:190-197 | points a nonempty account at the seat |
| RoomObject.AccountIndex.UnindexSeat | internal/ws/registry.go:204-213 | drops the entry only while it still names this seat |
| RoomObject.LiveRoom.constructor | internal/ws/room.go:92-104 | a new room is the empty room of the state machine |
| RoomObject.LiveRoom.SeatSession | internal/ws/room.go:110-144 | refuses a full room, otherwise appends the seat in place and indexes it |
| RoomObject.LiveRoom.LeaveSeatLocked | internal/ws/room.go:167-191 | marks a racer left, removes the seat, passes the host on, ends the match if it was the last racer |
| RoomObject.LiveRoom.DetachSeat | internal/ws/room.go:206-220 | parks the seat object for the next connection |
| RoomObject.LiveRoom.ReleaseSeat | internal/ws/room.go:254-268 | answers false and changes nothing for a racing seat, otherwise leaves |
| RoomObject.LiveRoom.DropSession | internal/ws/room.go:296-321 | parks the seat of a dropped connection |
| RoomObject.LiveRoom.BindSeat | internal/ws/room.go:330-346 | binds the new session exactly if the seat is disconnected and present |
| RoomObject.LiveRoom.DrainTurnLocked | internal/ws/room.go:357-378 | one locked turn of the drain loop: takes the backlog or goes live, exactly when nothing is left |
| RoomObject.LiveRoom.SendPendingFrame | internal/ws/room.go:380-382 | one send moves the first frame taken to the connection |
| RoomObject.LiveRoom.AbandonDrainOf | internal/ws/room.go:383-385 | the exit for a dying connection leaves the seat disconnected and buffering |
| RoomObject.LiveRoom.DrainBacklog | internal/ws/room.go:357-387 | the loop over those sections, with the dying exit: the whole drain, or one round and out |
| RoomObject.DrainedIsAll | internal/ws/room.go:357-387 | a whole drain hands over what was taken, then what is buffered, in order, and goes live |
| RoomObject.LiveRoom.SetReadyFlag | internal/ws/room.go:391-416 | sets the flag outside a match only |
| RoomObject.LiveRoom.UpdateRoomSettings | internal/ws/room.go:421-450 | stores sanitized valid settings from the host outside a match and clears every ready flag |
| RoomObject.LiveRoom.KickSeat | internal/ws/room.go:478-512 | removes the target seat under the conditions of the source |
| RoomObject.LiveRoom.PassHost | internal/ws/room.go:515-549 | moves the host role to a present target |
| RoomObject.LiveRoom.OnGraceExpire | internal/ws/room.go:570-608 | resolves a still-disconnected seat: dnf mid-race, departure otherwise; leaves a reclaimed one alone |
| RoomObject.LiveRoom.FindSeatLocked | internal/ws/room.go:679-686 | the scan finds the first seat of the session |
| RoomObject.LiveRoom.SeatIndexByIdLocked | internal/ws/room.go:706-713 | the scan finds the first index of the player id, or -1 when absent |
| RoomObject.LiveRoom.RemoveSeatLocked | internal/ws/room.go:719-722 | cuts the seat out of the slice, order kept, and unindexes it |
| RoomObject.LiveRoom.RemoveFromSeatsLocked | internal/ws/room.go:688-695 | removes the one occurrence of the seat |
| RoomObject.LiveRoom.ReassignHostLocked | internal/ws/room.go:727-733 | first remaining seat, or nobody |
| RoomObject.LiveRoom.Start | internal/ws/room_match.go:86-175 | starts the match exactly when the host may, resetting each seat in the loop |
| RoomObject.LiveRoom.RelayEventBatch | internal/ws/room_match.go:182-262 | captures and fans out exactly the acceptable batch: to the queue of a live seat, the backlog of a disconnected one (RoomCapture.AcceptedAsSent) |
| RoomObject.LiveRoom.FinishRun | internal/ws/room_match.go:269-305 | first terminal status only; arms the finish window once; ends the match with the last racer (RoomCauses.FinishedByFinishing) |
| RoomObject.LiveRoom.OnTimer | internal/ws/room_match.go:311-345 | dnf for whoever still races, then the end, for the current match only |
| RoomObject.LiveRoom.AllTerminalLocked | internal/ws/room_match.go:349-359 | the scan answers whether no roster seat races |
| RoomObject.LiveRoom.RecordLocked | internal/ws/room_match.go:385-419 | the loops build the results and the snapshot of the frozen roster, in roster order |
| RoomObject.LiveRoom.ReapSeatsLocked | internal/ws/room_match.go:436-455 | the reverse loop removes exactly the seats without a connection and without grace, order kept, index kept exact |
| RoomObject.LiveRoom.EndMatchLocked | internal/ws/room_match.go:368-462 | the whole end: record, hand-over, back to lobby, reap, host (RoomEnding.MatchEndIsHanded, RoomCommands.EndRecordTells) |
| RoomObject.LiveRoom.SweepAfkSeats | internal/ws/room_afk.go:68-113 | the roster loop eliminates exactly the silent or mostly idle live racers (RoomCauses.SweepResolvesTheSilent) |
| RoomObject.LiveRoom.ReapIdleRoom | internal/ws/room_idle.go:86-118 | warns once at the warning age and empties the room at the timeout, never mid-match |
| RoomObject.LiveRoom.TouchLocked | internal/ws/room_idle.go:54-57 | moves the activity clock and re-arms the warning |
| RoomObject.InvIsValid | internal/ws/room.go:110-608 | every room in order is a usable object: the class invariant follows from the state machine's |
| Lobby.ListedRoomsAreComplete | internal/ws/lobby.go:164-201 | a reachable room is listed iff open and seated, with its number of players, one to five, whether it is in a match, and exactly one positive dimension, chosen by the mode |
| Lobby.CompareIsTotal | internal/ws/lobby.go:139-153 | the comparator is antisymmetric and transitive and equates entries with one code only |
| Lobby.LobbyIsIndependentOfVisitingOrder | internal/ws/lobby.go:124-155 | two listings of the same rooms visited in different orders are the same list |
| Lobby.FullerThenOlderThenByCode | internal/ws/lobby.go:139-153 | of two listed rooms the fuller comes first, of two as full the older, of two as old the smaller code, character by character |
| Lobby.OpenRooms | internal/ws/lobby.go:124-155 | collects the listed rooms and returns them sorted, none lost or repeated |
| RateLimit.EvictionUnobservable | internal/auth/ratelimit.go:46-88 | for every call sequence in time order over any keys, the sweeping limiter answers as one that never deletes |
| RateLimit.SwitchedOff | internal/auth/ratelimit.go:46-49 | a nonpositive burst or period admits everything |
| RateLimit.KeyIsOneBudget | internal/ws/ratelimit.go:59-71 | one key of the limiter decides exactly as one connection bucket fed that key's calls, whatever other keys and sweeps do |
| RateLimit.AdmissionBound | internal/auth/ratelimit.go:57-71 | in any run and any window of length T one key is admitted at most burst + T/period times |
| RateLimit.BudgetBound | internal/ws/ratelimit.go:59-71 | the same bound for a connection bucket from any state |
| RateLimitExact.RefusedKeyIff | internal/auth/ratelimit.go:57-71 | in any run, whatever other keys and sweeps do: a call of a key is refused exactly if, for some earlier call of it at s, the admissions since s and one more exceed burst + (t - s)/period |
| RateLimitExact.RefusedIff | internal/ws/ratelimit.go:59-71 | the same of a connection bucket |
| RateLimitExact.RefusalsLeaveNoTrace | internal/auth/ratelimit.go:57-71 | deleting a refused call from a run of the limiter changes no other answer |
| RateLimitExact.BudgetWithoutRefused | internal/ws/ratelimit.go:59-71 | nor from a run of a connection bucket |
| RateLimit.SpacedKeyPasses | internal/auth/ratelimit.go:57-71 | a call at least one period after the previous one of its key is admitted |
| RateLimit.InMemoryRateLimiter.Allow | internal/auth/ratelimit.go:46-71 | the method is the specified step: answer and new state |
| RateLimit.InMemoryRateLimiter.Sweep | internal/auth/ratelimit.go:77-88 | the deleting loop, in any visiting order, removes exactly the idle buckets, at most once per five minutes |
| RateLimit.ConnectionBucket.Allow | internal/ws/ratelimit.go:59-71 | the method is the specified step; a fresh bucket is full |
| HashGate.ApplyInv | internal/auth/hashgate.go:74-132 | every atomic operation of any request keeps: in-flight is the number of counted requests, slots the number of holders, and the historical maximum is in peak or in the hands of a request mid-loop |
| HashGate.GateBound | internal/auth/hashgate.go:74-132 | over all interleavings: hashing requests <= in-flight <= slots held <= limit, and peak <= limit |
| HashGate.PeakIsHistoricalMax | internal/auth/hashgate.go:121-130 | with no count mid-loop, peak equals the largest in-flight count of the whole run |
| HashGate.RetriesAreBounded | internal/auth/hashgate.go:121-130 | a failed compare-and-swap means peak rose, so a request that counted n retries at most n times |
| HashGate.UndisturbedCountEnds | internal/auth/hashgate.go:121-130 | load and swap without interference leave the loop with peak covering the count |
| HashGate.SlotFirstOverstatesThePeak | internal/auth/hashgate.go:103-119 | with the opposite release order a gate of one reports a peak of two |
| HashGate.FreeSlotIsUsable | internal/auth/hashgate.go:74-119 | in every reachable state a request outside gets in exactly while fewer than the limit hold a slot, and whoever is inside can do its next operation |
| HashGate.CountersCount | internal/auth/hashgate.go:74-100 | over any run the two counters are the numbers of requests admitted and shed |
| HashGate.HashConcurrencyFor | internal/auth/hashgate.go:166-175 | as many 19 MiB hashes as fit, clamped to 2..64 |
| HashGate.HashingFitsTheBudget | internal/auth/hashgate.go:166-190 | a gate sized from a budget of two hashes or more never commits nor reports more memory than the budget |
| Paging.PlaceIsUnique | internal/leaderboard/store.go:60-77 | every position, on the board or not, has one place on it |
| Paging.PageIsSlice | internal/leaderboard/store.go:64-67 | the store's filtered page after a position is the slice of the ranking after it |
| Paging.PageBeforeIsSlice | internal/leaderboard/store.go:68-74 | the page before a position is the slice ending there, and the count above is the place |
| Paging.PageView | internal/leaderboard/handler.go:366-373 | the loop ranks the rows consecutively |
| Paging.HandlePage | internal/leaderboard/handler.go:182-245 | up to limit rows from the cursor on, a next cursor iff more follow, ranks counted from the cursor's place plus two |
| Paging.ContinuationRanks | internal/leaderboard/handler.go:206-225 | those ranks are true exactly when the cursor's row is still on the board |
| Paging.HandleAround | internal/leaderboard/handler.go:256-329 | 204 iff the caller has no row; otherwise a slice of exactly min(limit, n) rows with the caller in it, centred up to the ends, true ranks, prev iff a row precedes, next iff one follows |
| Paging.HandleBefore | internal/leaderboard/handler.go:333-363 | the rows right above a position with true ranks, prev iff more precede |
| Paging.FollowNext | internal/leaderboard/handler.go:182-245 | following next with any limits gives every row from there on once, in order, with true ranks, and stops |
| Paging.FollowPrev | internal/leaderboard/handler.go:333-363 | following prev gives every row above once, and stops |
| Paging.WalkFromPageOne | internal/leaderboard/handler.go:182-245 | page one and its continuations are the whole board, ranks 1..n |
| Paging.WalkOutOfWindow | internal/leaderboard/handler.go:256-363 | so are any player's window and the pages reached out of it both ways |
| BoardKeys.ParseKey | internal/leaderboard/bucket.go:197-286 | parsing the printed key of any valid bucket returns that bucket |
| BoardKeys.KeysAreInjective | internal/leaderboard/bucket.go:165-202 | two valid buckets with one key are one bucket, across both key spaces |
| BoardKeys.LanguageKeysAreNotQuoteKeys | internal/leaderboard/bucket.go:175-202 | no language key starts with the quote prefix |
| BoardKeys.AcceptedIsValid | internal/leaderboard/bucket.go:204-286 | what the parser accepts is a valid bucket, of the quote shape iff the key has the prefix |
| BoardKeys.QuoteKeyPrintsBack | internal/leaderboard/bucket.go:211-224 | a quote key is accepted iff it is the canonical text of a non-nil UUID, and then prints back to itself |
| BoardKeys.LanguageKeyPrintsBack | internal/leaderboard/bucket.go:226-238 | an accepted language key prints back to itself exactly when its size is one to five digits with no leading zero |
| BoardKeys.OtherSpellings | internal/leaderboard/bucket.go:226-238 | every language board also answers to a plus sign, a leading zero and a size 2^32 higher |
| BoardKeys.BuiltBucketsReadBack | internal/leaderboard/bucket.go:152-166 | a bucket built from a run's columns takes the column of its mode and reads back from its key |
| Verdicts.RowsPartition | internal/replay/decide.go:231-264 | the decision table is total and its rows exclude one another |
| Verdicts.DecideFollowsTheTable | internal/replay/decide.go:265-400 | each decision has its row's status, reason, attempts, stored numbers and divergence |
| Verdicts.MetricsCompareSame | internal/replay/decide.go:451-474 | metrics compare equal iff all three are present and within 1e-9, and a divergence names one that is not |
| Verdicts.JudgesCannotChangeRefusals | internal/replay/decide.go:254-264 | two judges' decisions differ, but for the policy block and version, on the judged row alone |
| Verdicts.JudgedRowIsTheJudges | internal/replay/decide.go:385-399 | on the judged row the run is flagged iff the judge asks for review and accepted otherwise |
| Verdicts.FlagReasonIs | internal/replay/decide.go:385-399 | a run flagged by the judge has reason bot_pattern exactly if the judge names reasons, suspicion_threshold exactly if it names none |
| Verdicts.DivergenceIsTheFirst | internal/replay/decide.go:451-474 | a metric mismatch names the first of wpm, raw, acc that is not close, with the client's number and the server's |
| Verdicts.PolicyIsWhatTheJudgeSaid | internal/replay/decide.go:326-352 | a judged run records the judge's version, threshold, rules and unknown flags, and its suspicion to half a millionth |
| Verdicts.VerdictWord | internal/replay/decide.go:265-400 | the verdict is error where nothing could be played or compared, invalid on the core's refusal, valid otherwise; the core's output is stored exactly for what it replayed |
| Verdicts.RejudgingDiffersOnMetricsOnly | internal/replay/decide.go:159-208 | re-judging differs from first judging exactly where the metric comparison decided |
| Revalidation.BatchShrinksStale | internal/replay/queries.sql:30-71 | a re-judged row leaves the stale set if and only if the judge has a version |
| Revalidation.BatchKeepsConsistent | internal/replay/pgstore/pgstore.go:121-168 | a batch keeps "judged iff a verdict row exists" and takes exactly its rows off the queue |
| Revalidation.JudgingStamps | internal/replay/worker.go:231-252 | whatever the world answers, each decision carries both stamps and leaves the pending status |
| Revalidation.RowAfterJudging | internal/replay/pgstore/pgstore.go:134-219 | a judged row takes status, error, attempts and validation from the decision and both stamps, with no version as NULL; it is stale again only under a judge without a version |
| Revalidation.NothingStaleMeans | internal/replay/queries.sql:30-71 | nothing is stale exactly when every judged, not overridden run was judged under this policy version or later and by this bundle; an overridden run is never judged again |
| Revalidation.Worker.Process | internal/replay/worker.go:254-294 | each claimed row is judged once, no other row changes, the tally adds up and failed runs are among the flagged |
| Revalidation.Worker.RunBatch | internal/replay/worker.go:226-229 | the pending set shrinks by min(batch, pending) |
| Revalidation.Worker.RevalidateBatch | internal/replay/worker.go:244-252 | a batch of stale rows is re-judged and, under a versioned judge, leaves the stale set |
| Revalidation.Worker.Revalidate | cmd/replayctl/main.go:395-406 | the loop ends; under a versioned judge each row is re-judged at most once and nothing is stale afterwards or the limit was reached; under one without a version the stale set never changes; a pass over no stale rows claims nothing |
| Seeding.WorkersFor | internal/replay/registry.go:609-615 | as many workers as processors or as files, whichever is fewer, and one at least |
| Seeding.StepInv | internal/replay/registry.go:617-654 | every send, receive, load and exit keeps: each index handed to one worker; loaded, in its hands, or lost to its error; errors have causes |
| Seeding.SeedingEnds | internal/replay/registry.go:617-654 | every schedule is finite and none gets stuck, whatever failed |
| Seeding.SeedingIsTheSequentialMap | internal/replay/registry.go:608-665 | under every schedule each index is worked off once; the result is an error iff some core or file fails, an error one of them produced, and otherwise the load of every name in order |
| Seeding.MessageIsStableIff | internal/replay/registry.go:656-664 | every schedule reports the same error, or none, exactly when there is one worker or the broken files and the first dead core have at most one error between them |
| Seeding.ReportableIsReported | internal/replay/registry.go:656-664 | with two workers or more each of those errors is reported by some schedule |
| Seeding.LoneWorkerIsStable | internal/replay/registry.go:656-664 | one worker reports the first broken file |
| Seeding.NewRegistry | internal/replay/registry.go:557-591 | starts iff there are files, the seed succeeded and the hashes are distinct; the index then points each hash at its one entry |
| Seeding.BodiesAreTheFiles | internal/replay/registry.go:725-733 | whatever the schedule, the body served for a hash is that of the one file that loads to it |
| Watchdog.StepInv | internal/replay/core.go:267-302 | every step of caller and watchdog keeps: a live watchdog belongs to the current call, and a raised flag to its expired deadline |
| Watchdog.OwnDeadlineOnly | internal/replay/core.go:267-302 | a call starts with the flag down and is stopped only after its own deadline |
| Watchdog.AwaitIsReachable | internal/replay/core.go:284-292 | the wait for the watchdog can always be ended by a step of the watchdog |
| Watchdog.WithoutTheWaitTheNextCallDies | internal/replay/core.go:271-274 | without the wait, a call can be stopped whose deadline has not passed |

## Left out

- Frames other than peer batches and match_end (room_state, peer_status, chat, hello), nicknames, guest naming and freemods: they carry no state the properties depend on.
- The grace list and resume-token lookup: a bind may be tried at any time for any seat.
- `displaceLocked` and the closing of the old connection, WebSocket reads and writes, heartbeats, JSON, gzip and HTTP plumbing.
- The retry in `enterRoom`: two attempts do not suffice when three connections of one account race.
- RoomObject.LiveRoom.DrainBacklog: the loop as a whole runs without interference; what may land between its sections is the state machine's.
- RoomObject.LiveRoom.DropSession: registering the resume token and starting the grace timer are not modelled; grace may expire at any time.
- RegistryObject.LiveRegistry.Join: rooms in the object form are values in a map, not shared objects; interleaving is the state machine's.
- RateLimit.InMemoryRateLimiter.Allow: the mutex is not modelled, each call is one step; durations are reals, so the overflow of period times burst and floating-point rounding are not captured.
- HashGate.GateBound: the wait before a request is shed is any delay, and context cancellation is a shed.
- Paging.HandlePage: cursor tokens are the positions they encode; a malformed token, a conflicting combination of asks, a missing session and a store error are the error answers left out.
- Lobby.OpenRooms: rooms are snapshots; the sort is an insertion sort standing for the library's.
- Verdicts.DecideFollowsTheTable: JSON is decoded contents, numbers are reals, NaN and infinities are not modelled; the replay itself is any function.
- Revalidation.Worker.Revalidate: a claim takes any stale rows rather than the oldest, and no other transaction holds rows locked.
- Seeding.SeedingIsTheSequentialMap: a load is a function of the file name; reading, parsing and hashing a dictionary are inside it.
- BoardKeys.QuoteKeyPrintsBack: the UUID library is modelled from its documented spellings; its source is not part of this model.
- SQL, migrations, account flows, moderation, quotes, profiles, badges and configuration.
- `loop` in the replay worker, persisting a finished match and the catalogue: single-branch code with no property across functions.
