/** The public room list: what one room shows, and the order of the list. */
module Lobby {
  import opened RoomTypes
  import opened RoomSettings
  import opened RoomInvariant

  /** A room with the two facts it is registered under. */
  datatype Listing = Listing(code: string, createdAtMs: int, room: Room)

  datatype Entry = Entry(
    code: string, createdAtMs: int, name: string, playerCount: nat, inMatch: bool,
    mode: string, lang: string, durationMs: Option<int>, wordCount: Option<int>)

  function LobbyEntryOf(l: Listing): (e: Option<Entry>) {
    var s := l.room.settings;
    if s.visibility != "open" || |l.room.seats| == 0 then None
    else Some(Entry(
      l.code, l.createdAtMs, s.name, |l.room.seats|, l.room.inMatch, s.mode, s.lang,
      if s.mode == "time" then Some(s.durationMs) else None,
      if s.mode != "time" && IsCounted(s.mode) then Some(s.wordCount) else None))
  }

  /** Of every reachable room: listed iff open and seated, with its one to five
      players, whether it is racing, and exactly one positive dimension. */
  lemma ListedRoomsAreComplete(l: Listing)
    requires Inv(l.room)
    ensures LobbyEntryOf(l).Some? <==> l.room.settings.visibility == "open" && l.room.seats != []
    ensures LobbyEntryOf(l).Some? ==>
      var e := LobbyEntryOf(l).value;
      && 1 <= e.playerCount <= ROOM_CAPACITY && e.playerCount == |l.room.seats| && (e.inMatch <==> l.room.mtch.Some?)
      && (e.durationMs.Some? <==> e.mode == "time") && (e.wordCount.Some? <==> e.mode != "time")
      && (e.durationMs.Some? ==> 0 < e.durationMs.value <= MAX_DURATION_MS)
      && (e.wordCount.Some? ==> 0 < e.wordCount.value <= MAX_WORD_COUNT)
  {
    assert |l.room.seats| <= ROOM_CAPACITY;
    assert ValidSettings(l.room.settings);
  }

  // ---------------------------------------------------------------- the comparator

  function CompareInts(a: int, b: int): (d: int) {
    if a < b then -1 else if a > b then 1 else 0
  }

  /** Bytewise comparison. */
  function CompareStrings(a: string, b: string): (d: int) {
    if a == [] && b == [] then 0
    else if a == [] then -1
    else if b == [] then 1
    else if a[0] < b[0] then -1
    else if a[0] > b[0] then 1
    else CompareStrings(a[1..], b[1..])
  }

  /** Fullest first, then oldest, then by code. */
  function Compare(a: Entry, b: Entry): (d: int) {
    if b.playerCount != a.playerCount then b.playerCount - a.playerCount
    else if CompareInts(a.createdAtMs, b.createdAtMs) != 0 then CompareInts(a.createdAtMs, b.createdAtMs)
    else CompareStrings(a.code, b.code)
  }

  lemma {:induction false} StringsAntisymmetric(a: string, b: string)
    ensures CompareStrings(a, b) == -CompareStrings(b, a)
    ensures CompareStrings(a, b) == 0 <==> a == b
  {
    if a != [] && b != [] && a[0] == b[0] {
      StringsAntisymmetric(a[1..], b[1..]);
      assert a == [a[0]] + a[1..] && b == [b[0]] + b[1..];
    }
  }

  lemma {:induction false} StringsTransitive(a: string, b: string, c: string)
    requires CompareStrings(a, b) <= 0 && CompareStrings(b, c) <= 0
    ensures CompareStrings(a, c) <= 0
  {
    if a != [] && b != [] && c != [] && a[0] == b[0] == c[0] {
      StringsTransitive(a[1..], b[1..], c[1..]);
    }
  }

  /** A strict total order on entries with distinct codes. */
  lemma CompareIsTotal(a: Entry, b: Entry, c: Entry)
    ensures Compare(a, b) < 0 <==> Compare(b, a) > 0
    ensures Compare(a, b) == 0 ==> a.code == b.code
    ensures Compare(a, b) <= 0 && Compare(b, c) <= 0 ==> Compare(a, c) <= 0
  {
    StringsAntisymmetric(a.code, b.code);
    if CompareStrings(a.code, b.code) <= 0 && CompareStrings(b.code, c.code) <= 0 {
      StringsTransitive(a.code, b.code, c.code);
    }
  }

  // ---------------------------------------------------------------- the list

  ghost predicate Sorted(s: seq<Entry>) {
    forall i, j :: 0 <= i < j < |s| ==> Compare(s[i], s[j]) <= 0
  }

  ghost predicate DistinctCodes(s: seq<Entry>) {
    forall i, j :: 0 <= i < j < |s| ==> s[i].code != s[j].code
  }

  /** The entries of the listed rooms, in visiting order. */
  function Entries(rooms: seq<Listing>): (out: seq<Entry>) {
    if rooms == [] then []
    else Entries(rooms[..|rooms|-1]) + Shown(rooms[|rooms|-1])
  }

  function Shown(l: Listing): (out: seq<Entry>) {
    match LobbyEntryOf(l) case None => [] case Some(e) => [e]
  }

  lemma HeadsAgree(a: seq<Entry>, b: seq<Entry>)
    requires Sorted(a) && Sorted(b) && multiset(a) == multiset(b) && DistinctCodes(a) && a != [] && b != []
    ensures a[0] == b[0]
  {
    assert a[0] in multiset(b) && b[0] in multiset(a);
    FirstIsLeast(a, b[0]);
    FirstIsLeast(b, a[0]);
    CompareIsTotal(a[0], b[0], b[0]);
    var k :| 0 <= k < |a| && a[k] == b[0];
  }

  lemma BagTail(s: seq<Entry>)
    requires s != []
    ensures s == [s[0]] + s[1..] && multiset(s[1..]) == multiset(s) - multiset{s[0]}
  {
    assert s == [s[0]] + s[1..];
  }

  /** Two sorted lists of the same entries are the same list. */
  lemma {:induction false} SortedOnce(a: seq<Entry>, b: seq<Entry>)
    requires Sorted(a) && Sorted(b) && multiset(a) == multiset(b) && DistinctCodes(a)
    ensures a == b
  {
    assert |multiset(a)| == |a| && |multiset(b)| == |b|;
    if a != [] {
      HeadsAgree(a, b);
      BagTail(a);
      BagTail(b);
      SortedOnce(a[1..], b[1..]);
    }
  }

  lemma FirstIsLeast(s: seq<Entry>, e: Entry)
    requires Sorted(s) && e in s
    ensures Compare(s[0], e) <= 0
  {
    StringsAntisymmetric(e.code, e.code);
  }

  ghost predicate SameRooms(a: seq<Listing>, b: seq<Listing>) {
    multiset(a) == multiset(b)
  }

  function EntryBag(l: Listing): (m: multiset<Entry>) {
    multiset(Shown(l))
  }

  lemma EntriesSnoc(rooms: seq<Listing>, l: Listing)
    ensures multiset(Entries(rooms + [l])) == multiset(Entries(rooms)) + EntryBag(l)
  {
    assert (rooms + [l])[..|rooms|] == rooms;
  }

  lemma {:induction false} EntriesWithout(rooms: seq<Listing>, i: nat)
    requires i < |rooms|
    ensures multiset(Entries(rooms)) == multiset(Entries(rooms[..i] + rooms[i+1..])) + EntryBag(rooms[i])
  {
    var n := |rooms| - 1;
    assert rooms == rooms[..n] + [rooms[n]];
    EntriesSnoc(rooms[..n], rooms[n]);
    if i == n {
      assert rooms[..i] + rooms[i+1..] == rooms[..n];
    } else {
      var front := rooms[..n][..i] + rooms[..n][i+1..];
      assert rooms[..i] + rooms[i+1..] == front + [rooms[n]];
      EntriesWithout(rooms[..n], i);
      EntriesSnoc(front, rooms[n]);
    }
  }

  lemma RoomsWithout(b: seq<Listing>, i: nat)
    requires i < |b|
    ensures multiset(b[..i] + b[i+1..]) == multiset(b) - multiset{b[i]}
  {
    assert b == b[..i] + [b[i]] + b[i+1..];
  }

  lemma {:induction false} SameRoomsSameEntries(a: seq<Listing>, b: seq<Listing>)
    requires SameRooms(a, b)
    ensures multiset(Entries(a)) == multiset(Entries(b))
    decreases |a|
  {
    assert |multiset(a)| == |a| && |multiset(b)| == |b|;
    if a != [] {
      var n := |a| - 1;
      assert a[n] in multiset(b);
      var i :| 0 <= i < |b| && b[i] == a[n];
      RoomsWithout(a, n);
      RoomsWithout(b, i);
      assert a[..n] + a[n+1..] == a[..n];
      SameRoomsSameEntries(a[..n], b[..i] + b[i+1..]);
      EntriesWithout(a, n);
      EntriesWithout(b, i);
    }
  }

  /** What openRooms may answer after visiting `rooms` in that order. */
  ghost predicate IsLobby(rooms: seq<Listing>, out: seq<Entry>) {
    Sorted(out) && multiset(out) == multiset(Entries(rooms))
  }

  ghost predicate DistinctRooms(rooms: seq<Listing>) {
    forall i, j :: 0 <= i < j < |rooms| ==> rooms[i].code != rooms[j].code
  }

  lemma {:induction false} EntriesHaveRooms(rooms: seq<Listing>)
    ensures forall e <- Entries(rooms) :: exists l <- rooms :: l.code == e.code
    ensures DistinctRooms(rooms) ==> DistinctCodes(Entries(rooms))
  {
    if rooms != [] {
      var n := |rooms| - 1;
      EntriesHaveRooms(rooms[..n]);
      assert forall e <- Entries(rooms[..n]) :: exists l <- rooms :: l.code == e.code;
      if LobbyEntryOf(rooms[n]).Some? {
        assert LobbyEntryOf(rooms[n]).value.code == rooms[n].code && rooms[n] in rooms;
      }
    }
  }

  lemma {:induction false} DistinctIsABagFact(a: seq<Entry>, b: seq<Entry>)
    requires multiset(a) == multiset(b) && DistinctCodes(a)
    ensures DistinctCodes(b)
  {
    forall i, j | 0 <= i < j < |b|
      ensures b[i].code != b[j].code
    {
      var x, y := b[i], b[j];
      if x.code == y.code {
        assert x in multiset(a) && y in multiset(a);
        assert x == y;
        TwiceIn(b, i, j);
        OnceIn(a, x);
        assert false;
      }
    }
  }

  lemma TwiceIn(s: seq<Entry>, i: nat, j: nat)
    requires i < j < |s| && s[i] == s[j]
    ensures multiset(s)[s[i]] >= 2
  {
    assert s == s[..j] + [s[j]] + s[j+1..];
    assert s[i] in s[..j];
  }

  lemma {:induction false} OnceIn(s: seq<Entry>, e: Entry)
    requires DistinctCodes(s)
    ensures multiset(s)[e] <= 1
  {
    if s != [] {
      OnceIn(s[1..], e);
      assert s == [s[0]] + s[1..];
      if s[0] == e {
        assert e !in s[1..];
      }
    }
  }

  /** The list does not depend on the order in which the rooms were visited. */
  lemma LobbyIsIndependentOfVisitingOrder(rooms: seq<Listing>, again: seq<Listing>, out: seq<Entry>, out': seq<Entry>)
    requires SameRooms(rooms, again) && DistinctRooms(rooms)
    requires IsLobby(rooms, out) && IsLobby(again, out')
    ensures out == out'
  {
    SameRoomsSameEntries(rooms, again);
    EntriesHaveRooms(rooms);
    DistinctIsABagFact(Entries(rooms), out);
    SortedOnce(out, out');
  }

  /** `a` is a prefix of `b`, or smaller at the first character where they differ. */
  ghost predicate Lexical(a: string, b: string) {
    exists n :: 0 <= n <= |a| && n <= |b| && a[..n] == b[..n] && (n == |a| || (n < |b| && a[n] < b[n]))
  }

  lemma {:induction false} StringsAreLexical(a: string, b: string)
    requires CompareStrings(a, b) <= 0
    ensures Lexical(a, b)
  {
    if a != [] && b != [] && a[0] == b[0] {
      StringsAreLexical(a[1..], b[1..]);
      var n :| 0 <= n <= |a[1..]| && n <= |b[1..]| && a[1..][..n] == b[1..][..n]
            && (n == |a[1..]| || (n < |b[1..]| && a[1..][n] < b[1..][n]));
      assert a[..n+1] == [a[0]] + a[1..][..n] && b[..n+1] == [b[0]] + b[1..][..n];
    } else {
      assert a[..0] == b[..0];
    }
  }

  /** Fuller rooms come first; of two as full, the older one; of two as old, by code. */
  lemma FullerThenOlderThenByCode(rooms: seq<Listing>, out: seq<Entry>, i: nat, j: nat)
    requires IsLobby(rooms, out) && i < j < |out|
    ensures out[i].playerCount >= out[j].playerCount
    ensures out[i].playerCount == out[j].playerCount ==> out[i].createdAtMs <= out[j].createdAtMs
    ensures out[i].playerCount == out[j].playerCount && out[i].createdAtMs == out[j].createdAtMs ==> Lexical(out[i].code, out[j].code)
  {
    assert Compare(out[i], out[j]) <= 0;
    if CompareStrings(out[i].code, out[j].code) <= 0 {
      StringsAreLexical(out[i].code, out[j].code);
    }
  }

  lemma BagInsert(s: seq<Entry>, e: Entry, i: nat)
    requires i <= |s|
    ensures multiset(s[..i] + [e] + s[i..]) == multiset(s) + multiset{e}
  {
    assert s == s[..i] + s[i..];
  }

  lemma BagSnoc(found: seq<Entry>, i: nat)
    requires i < |found|
    ensures multiset(found[..i+1]) == multiset(found[..i]) + multiset{found[i]}
  {
    assert found[..i+1] == found[..i] + [found[i]];
  }

  /** Rooms in, sorted entries out. */
  method OpenRooms(rooms: seq<Listing>) returns (out: seq<Entry>)
    ensures IsLobby(rooms, out)
  {
    var found: seq<Entry> := [];
    for i := 0 to |rooms|
      invariant found == Entries(rooms[..i])
    {
      assert rooms[..i+1][..i] == rooms[..i];
      var entry := LobbyEntryOf(rooms[i]);
      if entry.Some? {
        found := found + [entry.value];
      }
    }
    assert rooms[..|rooms|] == rooms;
    out := SortEntries(found);
  }

  /** A plain insertion sort. */
  method SortEntries(found: seq<Entry>) returns (out: seq<Entry>)
    ensures Sorted(out) && multiset(out) == multiset(found)
  {
    out := [];
    for i := 0 to |found|
      invariant Sorted(out) && multiset(out) == multiset(found[..i])
    {
      BagSnoc(found, i);
      out := Insert(out, found[i]);
    }
    assert found[..|found|] == found;
  }

  method Insert(s: seq<Entry>, e: Entry) returns (out: seq<Entry>)
    requires Sorted(s)
    ensures Sorted(out) && multiset(out) == multiset(s) + multiset{e}
  {
    var i := Place(s, e);
    BagInsert(s, e, i);
    InsertedSorted(s, e, i);
    return s[..i] + [e] + s[i..];
  }

  /** The end of the entries that do not come after `e`. */
  method Place(s: seq<Entry>, e: Entry) returns (i: nat)
    ensures i <= |s|
    ensures i > 0 ==> Compare(s[i-1], e) <= 0
    ensures forall k :: i <= k < |s| ==> Compare(e, s[k]) < 0
  {
    i := |s|;
    while i > 0 && Compare(e, s[i-1]) < 0
      invariant i <= |s|
      invariant forall k :: i <= k < |s| ==> Compare(e, s[k]) < 0
    {
      i := i - 1;
    }
    if i > 0 {
      CompareIsTotal(e, s[i-1], e);
    }
  }

  lemma InsertedSorted(s: seq<Entry>, e: Entry, i: nat)
    requires Sorted(s) && i <= |s|
    requires i > 0 ==> Compare(s[i-1], e) <= 0
    requires forall k :: i <= k < |s| ==> Compare(e, s[k]) < 0
    ensures Sorted(s[..i] + [e] + s[i..])
  {
    forall k | 0 <= k < i
      ensures Compare(s[k], e) <= 0
    {
      if k < i - 1 {
        CompareIsTotal(s[k], s[i-1], e);
      }
    }
  }
}
