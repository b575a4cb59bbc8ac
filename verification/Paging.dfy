/** Keyset paging over one board, in ranking order: score down, then the time it
    was achieved, then the player. The store's queries are filters over the
    board; the handlers are built from them. */
module Paging {
  import opened RoomTypes

  datatype Cursor = Cursor(score: int, achievedAt: int, userId: nat)

  /** `rank` is zero until a handler sets it; `run` stands for the other columns. */
  datatype Entry = Entry(rank: int, score: int, achievedAt: int, userId: nat, run: string)

  function CursorFor(e: Entry): (c: Cursor) {
    Cursor(e.score, e.achievedAt, e.userId)
  }

  predicate Outranks(a: Cursor, b: Cursor) {
    || a.score > b.score
    || (a.score == b.score && a.achievedAt < b.achievedAt)
    || (a.score == b.score && a.achievedAt == b.achievedAt && a.userId < b.userId)
  }

  ghost predicate InOrder(board: seq<Entry>, i: nat, j: nat)
    requires i < j < |board|
  {
    Outranks(CursorFor(board[i]), CursorFor(board[j])) && board[i].userId != board[j].userId
  }

  /** A board as the ranking view orders it: one row a player, best first. */
  ghost predicate Ranking(board: seq<Entry>) {
    forall i, j {:trigger InOrder(board, i, j)} :: 0 <= i < j < |board| ==> InOrder(board, i, j)
  }

  lemma RankingTail(board: seq<Entry>)
    requires Ranking(board) && board != []
    ensures Ranking(board[1..])
  {
    forall i, j | 0 <= i < j < |board| - 1
      ensures InOrder(board[1..], i, j)
    {
      assert InOrder(board, i + 1, j + 1);
    }
  }

  // ---------------------------------------------------------------- the store

  function Below(board: seq<Entry>, c: Cursor): (rows: seq<Entry>) {
    if board == [] then []
    else (if Outranks(c, CursorFor(board[0])) then [board[0]] else []) + Below(board[1..], c)
  }

  function Above(board: seq<Entry>, c: Cursor): (rows: seq<Entry>) {
    if board == [] then []
    else (if Outranks(CursorFor(board[0]), c) then [board[0]] else []) + Above(board[1..], c)
  }

  function Page(board: seq<Entry>, after: Option<Cursor>, limit: nat): (rows: seq<Entry>) {
    var rest := if after.None? then board else Below(board, after.value);
    if |rest| <= limit then rest else rest[..limit]
  }

  /** The rows nearest the position, nearest last. */
  function PageBefore(board: seq<Entry>, before: Cursor, limit: nat): (rows: seq<Entry>) {
    var rest := Above(board, before);
    if |rest| <= limit then rest else rest[|rest|-limit..]
  }

  function RankAbove(board: seq<Entry>, at: Cursor): (n: nat) {
    |Above(board, at)|
  }

  function RowOf(board: seq<Entry>, user: nat): (e: Option<Entry>) {
    if board == [] then None
    else if board[0].userId == user then Some(board[0])
    else RowOf(board[1..], user)
  }

  function EntryFor(board: seq<Entry>, user: nat): (e: Option<Entry>) {
    match RowOf(board, user)
    case None => None
    case Some(row) => Some(row.(rank := RankAbove(board, CursorFor(row)) + 1))
  }

  // ---------------------------------------------------------------- positions

  function MinNat(a: int, b: int): (m: int) {
    if a <= b then a else b
  }

  function LessTo0(a: nat, b: nat): (d: nat) {
    if a <= b then 0 else a - b
  }

  /** `c` sits at place `k`: the first `k` rows outrank it, and it outranks the
      rest, its own row aside when it still has one. */
  ghost predicate AtPlace(board: seq<Entry>, c: Cursor, k: nat) {
    && k <= |board|
    && (forall i :: 0 <= i < k ==> Outranks(CursorFor(board[i]), c))
    && (forall i :: k + Own(board, c, k) <= i < |board| ==> Outranks(c, CursorFor(board[i])))
  }

  /** One if the row at `k` is the cursor's own, zero otherwise. */
  function Own(board: seq<Entry>, c: Cursor, k: nat): (own: nat) {
    if k < |board| && CursorFor(board[k]) == c then 1 else 0
  }

  lemma {:induction false} AboveIsPrefix(board: seq<Entry>, c: Cursor, k: nat)
    requires AtPlace(board, c, k)
    ensures Above(board, c) == board[..k]
  {
    if k > 0 {
      assert forall i :: 0 <= i < |board| - 1 ==> board[1..][i] == board[i+1];
      assert AtPlace(board[1..], c, k - 1);
      AboveIsPrefix(board[1..], c, k - 1);
      assert board[..k] == [board[0]] + board[1..][..k-1];
    } else {
      NoneAbove(board, c);
    }
  }

  lemma {:induction false} NoneAbove(board: seq<Entry>, c: Cursor)
    requires forall e <- board :: !Outranks(CursorFor(e), c)
    ensures Above(board, c) == []
  {
    if board != [] {
      NoneAbove(board[1..], c);
    }
  }

  lemma {:induction false} AllBelow(board: seq<Entry>, c: Cursor)
    requires forall e <- board :: Outranks(c, CursorFor(e))
    ensures Below(board, c) == board
  {
    if board != [] {
      AllBelow(board[1..], c);
    }
  }

  lemma TailOfTail(board: seq<Entry>, k: nat)
    requires 1 <= k <= |board|
    ensures board[1..][k-1..] == board[k..]
  {}

  lemma {:induction false} BelowIsSuffix(board: seq<Entry>, c: Cursor, k: nat)
    requires AtPlace(board, c, k)
    ensures Below(board, c) == board[k + Own(board, c, k)..]
  {
    if k > 0 {
      assert forall i :: 0 <= i < |board| - 1 ==> board[1..][i] == board[i+1];
      assert AtPlace(board[1..], c, k - 1);
      BelowIsSuffix(board[1..], c, k - 1);
      assert Own(board[1..], c, k - 1) == Own(board, c, k);
      TailOfTail(board, k + Own(board, c, k));
    } else if Own(board, c, 0) == 1 {
      AllBelow(board[1..], c);
    } else {
      AllBelow(board, c);
    }
  }

  /** The place of a position: how many leading rows outrank it. */
  function PlaceOf(board: seq<Entry>, c: Cursor): (k: nat) {
    if board == [] || !Outranks(CursorFor(board[0]), c) then 0 else 1 + PlaceOf(board[1..], c)
  }

  /** Every position has one place on every board. */
  lemma {:induction false} PlaceExists(board: seq<Entry>, c: Cursor)
    requires Ranking(board)
    ensures AtPlace(board, c, PlaceOf(board, c))
  {
    if board != [] {
      if Outranks(CursorFor(board[0]), c) {
        RankingTail(board);
        PlaceExists(board[1..], c);
        var k := PlaceOf(board[1..], c);
        assert forall i :: 0 < i < |board| ==> board[i] == board[1..][i-1];
        assert Own(board, c, k + 1) == Own(board[1..], c, k);
      } else {
        forall i | 0 < i < |board|
          ensures Outranks(CursorFor(board[0]), CursorFor(board[i]))
        {
          assert InOrder(board, 0, i);
        }
      }
    }
  }

  lemma PlaceIsUnique(board: seq<Entry>, c: Cursor, k: nat)
    requires Ranking(board) && AtPlace(board, c, k)
    ensures k == PlaceOf(board, c)
  {
    PlaceExists(board, c);
    AboveIsPrefix(board, c, k);
    AboveIsPrefix(board, c, PlaceOf(board, c));
    assert |board[..k]| == k;
  }

  lemma RowPlace(board: seq<Entry>, k: nat)
    requires Ranking(board) && k < |board|
    ensures AtPlace(board, CursorFor(board[k]), k) && Own(board, CursorFor(board[k]), k) == 1
    ensures PlaceOf(board, CursorFor(board[k])) == k
  {
    forall i | 0 <= i < k
      ensures Outranks(CursorFor(board[i]), CursorFor(board[k]))
    {
      assert InOrder(board, i, k);
    }
    forall i | k < i < |board|
      ensures Outranks(CursorFor(board[k]), CursorFor(board[i]))
    {
      assert InOrder(board, k, i);
    }
    PlaceIsUnique(board, CursorFor(board[k]), k);
  }

  /** The store's page after a position is the slice after it. */
  lemma PageIsSlice(board: seq<Entry>, c: Cursor, limit: nat)
    requires Ranking(board)
    ensures var lo := PlaceOf(board, c) + Own(board, c, PlaceOf(board, c));
            lo <= |board| && Page(board, Some(c), limit) == board[lo..MinNat(lo + limit, |board|)]
  {
    PlaceExists(board, c);
    BelowIsSuffix(board, c, PlaceOf(board, c));
  }

  /** The store's page before a position is the slice before it, and the count
      above a position is its place. */
  lemma PageBeforeIsSlice(board: seq<Entry>, c: Cursor, limit: nat)
    requires Ranking(board)
    ensures PlaceOf(board, c) <= |board| && RankAbove(board, c) == PlaceOf(board, c)
    ensures PageBefore(board, c, limit) == board[LessTo0(PlaceOf(board, c), limit)..PlaceOf(board, c)]
  {
    PlaceExists(board, c);
    AboveIsPrefix(board, c, PlaceOf(board, c));
  }

  lemma {:induction false} RowOfNone(board: seq<Entry>, user: nat)
    ensures RowOf(board, user).None? <==> forall e <- board :: e.userId != user
    ensures RowOf(board, user).Some? ==> RowOf(board, user).value in board && RowOf(board, user).value.userId == user
  {
    if board != [] {
      RowOfNone(board[1..], user);
    }
  }

  /** The same around a row of the board. */
  lemma AfterRow(board: seq<Entry>, k: nat, limit: nat)
    requires Ranking(board) && k < |board|
    ensures Page(board, Some(CursorFor(board[k])), limit) == board[k+1..MinNat(k + 1 + limit, |board|)]
  {
    RowPlace(board, k);
    PageIsSlice(board, CursorFor(board[k]), limit);
  }

  lemma BeforeRow(board: seq<Entry>, k: nat, limit: nat)
    requires Ranking(board) && k < |board|
    ensures PageBefore(board, CursorFor(board[k]), limit) == board[LessTo0(k, limit)..k]
    ensures RankAbove(board, CursorFor(board[k])) == k
  {
    RowPlace(board, k);
    PageBeforeIsSlice(board, CursorFor(board[k]), limit);
  }

  // ---------------------------------------------------------------- answers

  datatype Answer = Answer(entries: seq<Entry>, prev: Option<Cursor>, next: Option<Cursor>)

  /** Rows lo..hi with their true ranks. */
  function Window(board: seq<Entry>, lo: nat, hi: nat): (rows: seq<Entry>)
    requires lo <= hi <= |board|
    ensures |rows| == hi - lo
  {
    Ranked(board[lo..hi], lo + 1)
  }

  function Ranked(rows: seq<Entry>, firstRank: int): (out: seq<Entry>)
    ensures |out| == |rows|
    ensures forall i :: 0 <= i < |rows| ==> out[i] == rows[i].(rank := firstRank + i)
  {
    seq(|rows|, i requires 0 <= i < |rows| => rows[i].(rank := firstRank + i))
  }

  lemma RankedJoin(board: seq<Entry>, lo: nat, mid: nat, hi: nat)
    requires lo <= mid <= hi <= |board|
    ensures Window(board, lo, mid) + Window(board, mid, hi) == Window(board, lo, hi)
  {}

  method PageView(rows: seq<Entry>, firstRank: int) returns (views: seq<Entry>)
    ensures views == Ranked(rows, firstRank)
  {
    views := [];
    for i := 0 to |rows|
      invariant |views| == i
      invariant forall k :: 0 <= k < i ==> views[k] == rows[k].(rank := firstRank + k)
    {
      views := views + [rows[i].(rank := firstRank + i)];
    }
  }

  /** The board index at which the page after a cursor starts: its place, past
      its own row if that is still there. */
  function StartAfter(board: seq<Entry>, cursor: Option<Cursor>): (lo: nat) {
    match cursor
    case None => 0
    case Some(c) => PlaceOf(board, c) + Own(board, c, PlaceOf(board, c))
  }

  /** Page one, or the page after a cursor: up to `limit` rows, and a next cursor
      iff more follow. Ranks count from the place plus two, cursor row or not. */
  method HandlePage(board: seq<Entry>, cursor: Option<Cursor>, limit: nat) returns (r: Answer)
    requires Ranking(board) && limit >= 1
    ensures StartAfter(board, cursor) <= |board|
    ensures var lo := StartAfter(board, cursor);
            var hi := MinNat(lo + limit, |board|);
            && r.entries == Ranked(board[lo..hi], if cursor.None? then 1 else PlaceOf(board, cursor.value) + 2)
            && r.prev == None
            && r.next == if hi < |board| then Some(CursorFor(board[hi-1])) else None
  {
    var firstRank := 1;
    if cursor.Some? {
      PageBeforeIsSlice(board, cursor.value, limit);
      PageIsSlice(board, cursor.value, limit + 1);
      firstRank := RankAbove(board, cursor.value) + 2;
    }
    ghost var lo := StartAfter(board, cursor);
    var rows := Page(board, cursor, limit + 1);
    assert rows == board[lo..MinNat(lo + limit + 1, |board|)];
    var next := None;
    if |rows| > limit {
      rows := rows[..limit];
      next := Some(CursorFor(rows[limit-1]));
    }
    assert rows == board[lo..MinNat(lo + limit, |board|)];
    var views := PageView(rows, firstRank);
    r := Answer(views, None, next);
  }

  /** The rows above a position, always with their true ranks. */
  method HandleBefore(board: seq<Entry>, before: Cursor, limit: nat) returns (r: Answer)
    requires Ranking(board) && limit >= 1
    ensures PlaceOf(board, before) <= |board|
    ensures var k := PlaceOf(board, before);
            var lo := LessTo0(k, limit);
            && r.entries == Window(board, lo, k)
            && r.prev == (if lo > 0 then Some(CursorFor(board[lo])) else None)
            && r.next == None
  {
    PageBeforeIsSlice(board, before, limit);
    var rows := PageBefore(board, before, limit);
    var firstRank := RankAbove(board, before) + 1 - |rows|;
    var prev := None;
    if |rows| > 0 && firstRank > 1 {
      prev := Some(CursorFor(rows[0]));
    }
    var views := PageView(rows, firstRank);
    r := Answer(views, prev, None);
  }

  /** Where a window of `limit` rows around row `k` of `n` starts: half of the
      rest above, moved so that neither end hangs over the board. */
  function AroundStart(n: nat, k: nat, limit: nat): (lo: nat)
    requires k < n && limit >= 1
    ensures lo <= k < lo + MinNat(limit, n) <= n
    ensures lo > 0 ==> k - lo >= (limit - 1) / 2
    ensures lo + limit < n ==> k - lo <= (limit - 1) / 2
  {
    var half := (limit - 1) / 2;
    if n <= limit || k <= half then 0
    else if k - half <= n - limit then k - half
    else n - limit
  }

  /** How many rows each side of row `k` fills when the window is lo..hi. */
  predicate Fills(n: nat, k: nat, limit: nat, lo: nat, hi: nat)
    requires k < n && limit >= 1
  {
    var up := MinNat((limit - 1) / 2, k);
    var down := limit - 1 - up;
    var have := MinNat(down + 1, n - k - 1);
    && lo <= k < hi <= n
    && (if have > down then lo == k - up && k + 1 + down == hi < n
        else lo == k - Most(up, MinNat(limit - 1 - have, k)) && k + 1 + have == hi == n)
  }

  function Most(a: int, b: int): (m: int) {
    if a < b then b else a
  }

  lemma AroundFills(n: nat, k: nat, limit: nat)
    requires k < n && limit >= 1
    ensures Fills(n, k, limit, AroundStart(n, k, limit), AroundStart(n, k, limit) + MinNat(limit, n))
  {}

  /** `?around=me`: None is 204, the caller has no row here. Otherwise the
      caller's row is row `k`, and the answer is the window around it. */
  method HandleAround(board: seq<Entry>, user: nat, limit: nat) returns (r: Option<Answer>, ghost k: nat)
    requires Ranking(board) && limit >= 1
    ensures r.None? <==> forall e <- board :: e.userId != user
    ensures r.Some? ==>
      && k < |board| && board[k].userId == user
      && var lo := AroundStart(|board|, k, limit);
         var hi := lo + MinNat(limit, |board|);
      && r.value.entries == Window(board, lo, hi)
      && r.value.prev == (if lo > 0 then Some(CursorFor(board[lo])) else None)
      && r.value.next == (if hi < |board| then Some(CursorFor(board[hi-1])) else None)
  {
    RowOfNone(board, user);
    var entry := EntryFor(board, user);
    if entry.None? {
      return None, 0;
    }
    var me := entry.value;
    k :| 0 <= k < |board| && board[k] == RowOf(board, user).value;
    BeforeRow(board, k, 0);
    AroundFills(|board|, k, limit);
    ghost var lo: nat := AroundStart(|board|, k, limit);
    var answer := WindowOf(board, me, limit, k, lo, lo + MinNat(limit, |board|));
    r := Some(answer);
  }

  method WindowOf(board: seq<Entry>, me: Entry, limit: nat, ghost k: nat, ghost lo: nat, ghost hi: nat) returns (r: Answer)
    requires Ranking(board) && limit >= 1 && k < |board| && Fills(|board|, k, limit, lo, hi)
    requires me == board[k].(rank := k + 1)
    ensures r.entries == Window(board, lo, hi)
    ensures r.prev == if lo > 0 then Some(CursorFor(board[lo])) else None
    ensures r.next == if hi < |board| then Some(CursorFor(board[hi-1])) else None
  {
    var below, next, wantAbove := RowsBelow(board, me, limit, k, lo, hi);
    var above: seq<Entry> := [];
    if wantAbove > 0 {
      BeforeRow(board, k, wantAbove);
      above := PageBefore(board, CursorFor(me), wantAbove);
    }
    assert above == board[lo..k];
    var rows := above + [me] + below;
    var firstRank := me.rank - |above|;
    var prev := None;
    if firstRank > 1 {
      prev := Some(CursorFor(rows[0]));
    }
    AroundRows(board, k, lo, hi, me);
    var views := PageView(rows, firstRank);
    r := Answer(views, prev, next);
  }

  /** The half of the window below the caller, and how many rows to take above
      once the rows that are not there below are spent above. */
  method RowsBelow(board: seq<Entry>, me: Entry, limit: nat, ghost k: nat, ghost lo: nat, ghost hi: nat)
    returns (below: seq<Entry>, next: Option<Cursor>, wantAbove: nat)
    requires Ranking(board) && limit >= 1 && k < |board| && Fills(|board|, k, limit, lo, hi)
    requires me == board[k].(rank := k + 1)
    ensures below == board[k+1..hi] && wantAbove == k - lo
    ensures next == if hi < |board| then Some(CursorFor(board[hi-1])) else None
  {
    wantAbove := (limit - 1) / 2;
    if wantAbove > me.rank - 1 {
      wantAbove := me.rank - 1;
    }
    below, next := PageUnder(board, me, limit - 1 - wantAbove, k);
    if next.None? {
      var spare := MinNat(limit - 1 - |below|, me.rank - 1);
      if spare > wantAbove {
        wantAbove := spare;
      }
    }
  }

  /** Up to `want` rows after the caller's, and a cursor iff the board goes on. */
  method PageUnder(board: seq<Entry>, me: Entry, want: nat, ghost k: nat) returns (below: seq<Entry>, next: Option<Cursor>)
    requires Ranking(board) && k < |board| && CursorFor(me) == CursorFor(board[k])
    ensures below == board[k+1..MinNat(k + 1 + want, |board|)]
    ensures next == if k + 1 + want < |board| then Some(CursorFor(board[k+want])) else None
  {
    AfterRow(board, k, want + 1);
    below := Page(board, Some(CursorFor(me)), want + 1);
    next := None;
    if |below| > want {
      SliceFront(board, k + 1, MinNat(k + 2 + want, |board|), want);
      below := below[..want];
      next := Some(if want > 0 then CursorFor(below[want-1]) else CursorFor(me));
    }
  }

  lemma SliceFront(board: seq<Entry>, a: nat, b: nat, m: nat)
    requires a <= b <= |board| && m <= b - a
    ensures board[a..b][..m] == board[a..a+m]
  {}

  /** Ranking overwrites the rank the caller's row was fetched with. */
  lemma AroundRows(board: seq<Entry>, k: nat, lo: nat, hi: nat, me: Entry)
    requires lo <= k < hi <= |board| && me == board[k].(rank := me.rank)
    ensures Ranked(board[lo..k] + [me] + board[k+1..hi], lo + 1) == Window(board, lo, hi)
  {
    var rows := board[lo..k] + [me] + board[k+1..hi];
    forall i | 0 <= i < hi - lo
      ensures Ranked(rows, lo + 1)[i] == Window(board, lo, hi)[i]
    {}
  }

  // ---------------------------------------------------------------- walking

  /** `c` points behind row `at`, or at page one. */
  ghost predicate Behind(board: seq<Entry>, c: Option<Cursor>, at: nat) {
    at <= |board| && if c.None? then at == 0 else at > 0 && c.value == CursorFor(board[at-1])
  }

  /** `c` is row `at`, or there is nothing above it. */
  ghost predicate Before(board: seq<Entry>, c: Option<Cursor>, at: nat) {
    at <= |board| && if c.None? then at == 0 else at < |board| && c.value == CursorFor(board[at])
  }

  /** A page asked for with a cursor made on this board has true ranks. */
  method NextPage(board: seq<Entry>, cursor: Option<Cursor>, limit: nat, ghost lo: nat) returns (r: Answer)
    requires Ranking(board) && limit >= 1 && Behind(board, cursor, lo)
    ensures var hi := MinNat(lo + limit, |board|);
            && r.entries == Window(board, lo, hi)
            && (if hi < |board| then r.next.Some? && Behind(board, r.next, hi) else r.next.None?)
  {
    if cursor.Some? {
      RowPlace(board, lo - 1);
    }
    r := HandlePage(board, cursor, limit);
  }

  /** Following `next` from row `at` on, with any limits, gives every row from
      there to the end, once, with its true rank, and stops. */
  method FollowNext(board: seq<Entry>, start: Option<Cursor>, ghost at: nat, limits: nat -> nat) returns (rows: seq<Entry>)
    requires Ranking(board) && (forall i :: limits(i) >= 1) && Behind(board, start, at)
    ensures rows == Window(board, at, |board|)
  {
    rows := [];
    var cursor := start;
    ghost var lo: nat := at;
    var more := true;
    var pages := 0;
    while more
      invariant at <= lo <= |board|
      invariant if more then Behind(board, cursor, lo) else lo == |board|
      invariant rows == Window(board, at, lo)
      decreases more, |board| - lo
    {
      var page := NextPage(board, cursor, limits(pages), lo);
      ghost var hi: nat := MinNat(lo + limits(pages), |board|);
      RankedJoin(board, at, lo, hi);
      rows := rows + page.entries;
      lo := hi;
      cursor := page.next;
      more := cursor.Some?;
      pages := pages + 1;
    }
  }

  /** Following `prev` upward, prepending each page, gives every row above. */
  method FollowPrev(board: seq<Entry>, start: Option<Cursor>, ghost at: nat, limits: nat -> nat) returns (rows: seq<Entry>)
    requires Ranking(board) && (forall i :: limits(i) >= 1) && Before(board, start, at)
    ensures rows == Window(board, 0, at)
  {
    rows := [];
    var cursor := start;
    ghost var lo: nat := at;
    var pages := 0;
    while cursor.Some?
      invariant lo <= at && Before(board, cursor, lo)
      invariant rows == Window(board, lo, at)
      decreases cursor.Some?, lo
    {
      RowPlace(board, lo);
      var page := HandleBefore(board, cursor.value, limits(pages));
      ghost var up: nat := LessTo0(lo, limits(pages));
      RankedJoin(board, up, lo, at);
      rows := page.entries + rows;
      lo := up;
      cursor := page.prev;
      pages := pages + 1;
    }
  }

  /** Page one and its continuations are the whole board, ranks 1..n. */
  method WalkFromPageOne(board: seq<Entry>, limits: nat -> nat) returns (rows: seq<Entry>)
    requires Ranking(board) && (forall i :: limits(i) >= 1)
    ensures rows == Ranked(board, 1)
  {
    rows := FollowNext(board, None, 0, limits);
    assert board[0..|board|] == board;
  }

  /** A window around a player who is on the board, with the cursors out of it. */
  method WindowAround(board: seq<Entry>, user: nat, limit: nat) returns (r: Answer, ghost lo: nat, ghost hi: nat)
    requires Ranking(board) && limit >= 1
    requires exists e <- board :: e.userId == user
    ensures lo <= hi <= |board| && r.entries == Window(board, lo, hi)
    ensures Before(board, r.prev, lo)
    ensures if hi < |board| then r.next.Some? && Behind(board, r.next, hi) else r.next.None?
  {
    ghost var k;
    var window;
    window, k := HandleAround(board, user, limit);
    lo := AroundStart(|board|, k, limit);
    hi := lo + MinNat(limit, |board|);
    r := window.value;
  }

  /** So are a window around any player and the pages reached out of it both ways. */
  method WalkOutOfWindow(board: seq<Entry>, user: nat, limit: nat, limits: nat -> nat) returns (rows: seq<Entry>)
    requires Ranking(board) && limit >= 1 && (forall i :: limits(i) >= 1)
    requires exists e <- board :: e.userId == user
    ensures rows == Ranked(board, 1)
  {
    ghost var lo;
    ghost var hi;
    var window;
    window, lo, hi := WindowAround(board, user, limit);
    var up := FollowPrev(board, window.prev, lo, limits);
    RankedJoin(board, 0, lo, hi);
    rows := up + window.entries;
    if window.next.Some? {
      var down := FollowNext(board, window.next, hi, limits);
      RankedJoin(board, 0, hi, |board|);
      rows := rows + down;
    }
    assert board[0..|board|] == board;
  }

  // ---------------------------------------------------------------- a cursor whose row is gone

  /** A nonempty continuation page carries true ranks exactly when the cursor's
      row is still on the board; otherwise each rank is one too high. */
  lemma ContinuationRanks(board: seq<Entry>, c: Cursor, limit: nat)
    requires Ranking(board) && limit >= 1 && StartAfter(board, Some(c)) < |board|
    ensures var lo := StartAfter(board, Some(c)); var hi := MinNat(lo + limit, |board|);
            Ranked(board[lo..hi], PlaceOf(board, c) + 2) == Window(board, lo, hi) <==> exists e <- board :: CursorFor(e) == c
  {
    var k := PlaceOf(board, c);
    var lo := StartAfter(board, Some(c));
    var hi := MinNat(lo + limit, |board|);
    assert Ranked(board[lo..hi], k + 2) == Window(board, lo, hi) <==> Own(board, c, k) == 1 by {
      assert Ranked(board[lo..hi], k + 2)[0].rank == k + 2 && Window(board, lo, hi)[0].rank == lo + 1;
    }
    if Own(board, c, k) == 1 {
      assert board[k] in board;
    }
    forall i | 0 <= i < |board| && CursorFor(board[i]) == c
      ensures Own(board, c, k) == 1
    {
      RowPlace(board, i);
    }
  }
}
