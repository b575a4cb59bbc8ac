/** What every action of a room keeps. */
module RoomInvariant {
  import opened RoomTypes
  import opened RoomSettings
  import opened RoomSteps
  import opened RoomActions

  // --- the invariant, by topic ------------------------------------------

  /** Seats are in strict join order, within capacity, one per player id. */
  ghost predicate SeatsOk(r: Room) {
    && r.Wf()
    && |r.seats| <= ROOM_CAPACITY
    && (forall i, j :: 0 <= i < j < |r.seats| ==> r.pool[r.seats[i]].joinSeq < r.pool[r.seats[j]].joinSeq)
    && (forall id <- r.seats :: r.pool[id].joinSeq < r.nextSeq)
    && (forall x, y :: x in r.seats && y in r.seats && r.pool[x].playerId == r.pool[y].playerId ==> x == y)
  }

  /** The host id is empty or names a current seat. */
  ghost predicate HostOk(r: Room)
    requires r.Wf()
  {
    r.hostId.Some? ==> Present(r, r.hostId.value)
  }

  /** Who may carry which status. */
  ghost predicate StatusOk(r: Room)
    requires r.Wf()
  {
    && r.inMatch == r.mtch.Some?
    && (r.mtch.Some? ==>
          && !r.mtch.value.ended
          && (forall i, j :: 0 <= i < j < |r.mtch.value.roster| ==> r.mtch.value.roster[i] != r.mtch.value.roster[j])
          && (forall id <- r.mtch.value.roster :: r.pool[id].status != NoStatus))
    && (forall id <- r.pool :: r.pool[id].status == Active ==>
          r.mtch.Some? && id in r.mtch.value.roster && id in r.seats)
    && (forall id <- r.seats :: (r.mtch.None? || id !in r.mtch.value.roster) ==> r.pool[id].status == NoStatus)
  }

  function EventsIn(bs: seq<CapturedBatch>): nat {
    if bs == [] then 0 else EventsIn(bs[..|bs|-1]) + |bs[|bs|-1].events|
  }

  /** Batches are numbered 1, 2, ..., none is empty, and the event count is their sum. */
  ghost predicate CaptureOk(bs: seq<CapturedBatch>, lastSeq: int, eventCount: int) {
    && lastSeq == |bs|
    && (forall i :: 0 <= i < |bs| ==> bs[i].batchSeq == i + 1 && bs[i].events != [])
    && eventCount == EventsIn(bs) <= MAX_CAPTURED_EVENTS
  }

  /** The distinct one-second buckets, from 0 on, in which a batch was received. */
  ghost function Buckets(goAtMs: int, bs: seq<CapturedBatch>): set<int> {
    set b | b in bs && Bucket(goAtMs, b.recvMs) >= 0 :: Bucket(goAtMs, b.recvMs)
  }

  /** The O(1) counters are the size and the maximum of that set. */
  ghost predicate AfkOk(goAtMs: int, s: Seat) {
    var bs := Buckets(goAtMs, s.batches);
    && s.activeBuckets == |bs|
    && s.lastBucket >= -1
    && (s.lastBucket >= 0 ==> s.lastBucket in bs)
    && forall b <- bs :: b <= s.lastBucket
  }

  ghost predicate RosterOk(r: Room)
    requires r.Wf()
  {
    r.mtch.Some? ==>
      && r.mtch.value.goAtMs - COUNTDOWN_LEAD_MS <= r.clock
      && forall id <- r.mtch.value.roster ::
           && CaptureOk(r.pool[id].batches, r.pool[id].lastSeq, r.pool[id].eventCount)
           && AfkOk(r.mtch.value.goAtMs, r.pool[id])
           && r.mtch.value.goAtMs - COUNTDOWN_LEAD_MS <= r.pool[id].lastBatchMs
  }

  /** Everything in flight to a seat belongs to a match that was started. */
  ghost predicate TagsOk(r: Room) {
    forall id <- r.pool, f ::
      (f in r.pool[id].queue || f in r.pool[id].pending || f in r.pool[id].backlog) ==> f.matchId in StartedIds(r)
  }

  /** The results broadcast and the runs persisted tell the same story: one entry
      per roster player, all terminal, with a well-numbered capture. */
  ghost predicate Agrees(s: StartRecord, e: EndRecord) {
    && e.id == s.id
    && |e.results| == |e.runs| == |s.players|
    && forall i :: 0 <= i < |s.players| ==>
         && e.results[i].playerId == e.runs[i].playerId == s.players[i]
         && e.results[i].status == e.runs[i].status
         && e.results[i].status in {Finished, Dnf, Left}
         && e.results[i].batchCount == |e.runs[i].batches|
         && CaptureOk(e.runs[i].batches, e.results[i].batchCount, e.results[i].eventCount)
         && 0.0 <= e.results[i].afkShare <= 1.0
  }

  /** Matches start one after another, each ended match left exactly one record,
      and only the last one may still be running. */
  ghost predicate LogsOk(r: Room)
    requires r.Wf()
  {
    && |r.started| == |r.ends| + (if r.mtch.Some? then 1 else 0)
    && (forall i :: 0 <= i < |r.ends| ==> Agrees(r.started[i], r.ends[i]))
    && (forall i, j :: 0 <= i < j < |r.started| ==> r.started[i].id != r.started[j].id)
    && (forall i :: 0 <= i < |r.started| ==> 0 < r.started[i].deadlineDelayMs <= 9035000)
    && (r.mtch.Some? ==>
          var s := r.started[|r.ends|];
          && s.id == r.mtch.value.id
          && |s.players| == |r.mtch.value.roster|
          && forall i :: 0 <= i < |s.players| ==> s.players[i] == r.pool[r.mtch.value.roster[i]].playerId)
  }

  ghost predicate SettingsOk(r: Room) {
    ValidSettings(r.settings) && (r.mtch.Some? ==> ValidSettings(r.mtch.value.settings))
  }

  /** The invariant inside a critical section: all of it but the racer. */
  ghost predicate Core(r: Room) {
    && SeatsOk(r)
    && HostOk(r)
    && StatusOk(r)
    && RosterOk(r)
    && TagsOk(r)
    && LogsOk(r)
    && SettingsOk(r)
  }

  ghost predicate HasRacer(r: Room)
    requires r.Wf()
  {
    r.mtch.Some? ==> exists id :: id in r.mtch.value.roster && r.pool[id].status == Active
  }

  /** What holds whenever the room lock is free. */
  ghost predicate Inv(r: Room) {
    Core(r) && HasRacer(r)
  }

  // --- seat lists --------------------------------------------------------

  ghost predicate Sorted(pool: map<SeatId, Seat>, seats: seq<SeatId>) {
    && (forall id <- seats :: id in pool)
    && forall i, j :: 0 <= i < j < |seats| ==> pool[seats[i]].joinSeq < pool[seats[j]].joinSeq
  }

  lemma SortedCons(pool: map<SeatId, Seat>, head: SeatId, tail: seq<SeatId>)
    requires head in pool && Sorted(pool, tail)
    requires forall x <- tail :: pool[head].joinSeq < pool[x].joinSeq
    ensures Sorted(pool, [head] + tail)
  {}

  /** Deleting a seat keeps the join order of the rest. */
  lemma {:induction false} WithoutSorted(pool: map<SeatId, Seat>, seats: seq<SeatId>, id: SeatId)
    requires Sorted(pool, seats)
    ensures Sorted(pool, Without(seats, id))
    ensures |Without(seats, id)| == |seats| - (if id in seats then 1 else 0)
    ensures forall x :: x in Without(seats, id) <==> x in seats && x != id
  {
    if seats != [] {
      assert seats == [seats[0]] + seats[1..];
      if seats[0] != id {
        WithoutSorted(pool, seats[1..], id);
        SortedCons(pool, seats[0], Without(seats[1..], id));
      }
    }
  }

  /** So does reaping the dead ones. */
  lemma {:induction false} SurvivorsSorted(pool: map<SeatId, Seat>, seats: seq<SeatId>)
    requires Sorted(pool, seats)
    ensures Sorted(pool, Survivors(pool, seats)) && |Survivors(pool, seats)| <= |seats|
  {
    if seats != [] {
      assert seats == [seats[0]] + seats[1..];
      SurvivorsSorted(pool, seats[1..]);
      SortedCons(pool, seats[0], Survivors(pool, seats[1..]));
    }
  }
}
