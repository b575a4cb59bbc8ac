/** Room settings: sanitising, validating and the bound they put on a match. */
module RoomSettings {
  import opened RoomTypes

  const ROOM_NAME_MIN := 1
  const ROOM_NAME_MAX := 32
  const LANG_MAX := 32
  const DICT_HASH_MAX := 64
  const QUOTE_ID_MAX := 64

  predicate IsCounted(mode: string) {
    mode == "words" || mode == "quote"
  }

  /** ValidateSettings: true exactly where the source returns nil. */
  predicate ValidSettings(s: Settings) {
    && ROOM_NAME_MIN <= |s.name| <= ROOM_NAME_MAX
    && (s.visibility == "open" || s.visibility == "private")
    && (if s.mode == "time" then 0 < s.durationMs <= MAX_DURATION_MS
        else IsCounted(s.mode) && 0 < s.wordCount <= MAX_WORD_COUNT)
    && 0 < |s.lang| <= LANG_MAX
    && (if s.mode == "quote"
        then s.textSource.kind == "quote" && 0 < |s.textSource.quoteId| <= QUOTE_ID_MAX
        else 0 < |s.dictHash| <= DICT_HASH_MAX && s.textSource.kind == "seeded")
  }

  function DefaultSettings(name: string): (s: Settings)
    ensures ValidSettings(s) && s.visibility == "private"
  {
    var clean := SanitizeRoomName(name);
    Settings(if clean == "" then "Room" else clean, "private", "time", 30000, 0, "en", "en-default", TextSource("seeded", ""))
  }

  function MatchDurationMs(s: Settings): (d: int) {
    if IsCounted(s.mode) then s.wordCount * WORD_MS_PER_WORD else s.durationMs
  }

  function DeadlineDelayMs(s: Settings): (d: int)
    ensures ValidSettings(s) ==> 0 < d <= 9035000
    ensures ValidSettings(s) ==> d == 35000 + if s.mode == "time" then s.durationMs else 3000 * s.wordCount
  {
    COUNTDOWN_LEAD_MS + MatchDurationMs(s) + DEADLINE_SLACK_MS
  }

  // ---------------------------------------------------------------- room names

  /** Unicode White_Space, which trimming removes. */
  predicate IsSpace(c: char) {
    || '\U{0009}' <= c <= '\U{000D}' || c == ' ' || c == '\U{0085}' || c == '\U{00A0}' || c == '\U{1680}'
    || '\U{2000}' <= c <= '\U{200A}' || c == '\U{2028}' || c == '\U{2029}' || c == '\U{202F}' || c == '\U{205F}'
    || c == '\U{3000}'
  }

  /** Control characters and the replacement character, which are dropped. */
  predicate IsDropped(c: char) {
    c <= '\U{001F}' || '\U{007F}' <= c <= '\U{009F}' || c == '\U{FFFD}'
  }

  function TrimLeft(s: string): (t: string)
    ensures |t| <= |s| && (t != "" ==> !IsSpace(t[0]))
    ensures s != "" && !IsSpace(s[0]) ==> t == s
  {
    if s != "" && IsSpace(s[0]) then TrimLeft(s[1..]) else s
  }

  function TrimRight(s: string): (t: string)
    ensures t <= s && (t != "" ==> !IsSpace(t[|t|-1]))
    ensures s != "" && !IsSpace(s[|s|-1]) ==> t == s
  {
    if s != "" && IsSpace(s[|s|-1]) then TrimRight(s[..|s|-1]) else s
  }

  function Kept(s: string): (t: string)
    ensures |t| <= |s|
  {
    if s == "" then "" else Kept(s[..|s|-1]) + if IsDropped(s[|s|-1]) then "" else [s[|s|-1]]
  }

  function First32(s: string): (t: string) {
    if |s| <= ROOM_NAME_MAX then s else s[..ROOM_NAME_MAX]
  }

  function Trimmed(name: string): (t: string) {
    TrimRight(TrimLeft(name))
  }

  function SanitizeRoomName(name: string): (clean: string)
    ensures |clean| <= ROOM_NAME_MAX
  {
    First32(Kept(Trimmed(name)))
  }

  /** One pass over the trimmed name, writing at most 32 characters. */
  method Sanitized(name: string) returns (clean: string)
    ensures clean == SanitizeRoomName(name)
  {
    var trimmed := Trimmed(name);
    clean := "";
    var n := 0;
    var i := 0;
    while i < |trimmed|
      invariant i <= |trimmed| && n == |clean| <= ROOM_NAME_MAX
      invariant clean == Kept(trimmed[..i])
    {
      var c := trimmed[i];
      KeptSnoc(trimmed[..i], c);
      assert trimmed[..i+1] == trimmed[..i] + [c];
      if !IsDropped(c) {
        if n >= ROOM_NAME_MAX {
          FullName(trimmed, i);
          return;
        }
        clean := clean + [c];
        n := n + 1;
      }
      i := i + 1;
    }
    assert trimmed[..i] == trimmed;
  }

  lemma {:induction false} KeptPrefix(s: string, i: nat)
    requires i <= |s|
    ensures Kept(s[..i]) <= Kept(s)
  {
    if i < |s| {
      KeptPrefix(s[..|s|-1], i);
      assert s[..|s|-1][..i] == s[..i];
    } else {
      assert s[..i] == s;
    }
  }

  /** Once 32 characters are written the rest of the name does not matter. */
  lemma FullName(s: string, i: nat)
    requires i <= |s| && |Kept(s[..i])| == ROOM_NAME_MAX
    ensures First32(Kept(s)) == Kept(s[..i])
  {
    KeptPrefix(s, i);
  }

  lemma KeptSnoc(s: string, c: char)
    ensures Kept(s + [c]) == if IsDropped(c) then Kept(s) else Kept(s) + [c]
  {
    assert (s + [c])[..|s|] == s;
  }

  lemma {:induction false} NothingDropped(s: string)
    requires forall i :: 0 <= i < |s| ==> !IsDropped(s[i])
    ensures Kept(s) == s
  {
    if s != "" {
      var front, last := s[..|s|-1], s[|s|-1];
      NothingDropped(front);
      KeptSnoc(front, last);
      assert s == front + [last];
    }
  }

  lemma {:induction false} KeptDropsAll(s: string)
    ensures forall i :: 0 <= i < |Kept(s)| ==> !IsDropped(Kept(s)[i])
  {
    if s != "" {
      KeptDropsAll(s[..|s|-1]);
    }
  }

  /** A sanitized name has no control characters and at most 32 characters. */
  lemma SanitizedIsClean(name: string)
    ensures |SanitizeRoomName(name)| <= ROOM_NAME_MAX
    ensures forall i :: 0 <= i < |SanitizeRoomName(name)| ==> !IsDropped(SanitizeRoomName(name)[i])
  {
    KeptDropsAll(Trimmed(name));
  }

  /** Sanitizing twice is sanitizing once exactly when, of the characters kept
      from the trimmed name, neither the first nor the last one stored is a space. */
  lemma SanitizingTwice(name: string)
    ensures var k := Kept(Trimmed(name));
      SanitizeRoomName(SanitizeRoomName(name)) == SanitizeRoomName(name) <==>
      k == "" || (!IsSpace(k[0]) && !IsSpace(k[(if |k| <= ROOM_NAME_MAX then |k| else ROOM_NAME_MAX) - 1]))
  {
    var clean := SanitizeRoomName(name);
    var trimmed := Trimmed(clean);
    SanitizedIsClean(name);
    if trimmed == clean {
      NothingDropped(clean);
    } else {
      TrimShortens(clean);
    }
  }

  lemma TrimShortens(s: string)
    requires Trimmed(s) != s
    ensures |Trimmed(s)| < |s|
  {
    if s != "" && IsSpace(s[0]) {
      assert TrimLeft(s) == TrimLeft(s[1..]);
    }
  }

  predicate AllSpaces(s: string) {
    forall i :: 0 <= i < |s| ==> IsSpace(s[i])
  }

  /** A room is stored under a blank name exactly when something is kept of the
      trimmed name and its first 32 kept characters are all spaces; settings that
      are valid otherwise are then accepted. */
  lemma BlankNameStoredIff(name: string, s: Settings)
    ensures var k := Kept(Trimmed(name)); var clean := SanitizeRoomName(name);
      && (clean != "" && AllSpaces(clean) <==> k != "" && forall i :: 0 <= i < |k| && i < ROOM_NAME_MAX ==> IsSpace(k[i]))
      && (clean != "" && ValidSettings(s) ==> ValidSettings(s.(name := clean)))
  {}

  lemma {:induction false} FirstKept(s: string)
    requires s != "" && !IsDropped(s[0])
    ensures Kept(s) != "" && Kept(s)[0] == s[0]
  {
    if |s| > 1 {
      FirstKept(s[..|s|-1]);
    }
  }

  /** What a caller can read off a name that is stored blank: trimmed, it begins with
      a character to drop, and it ends with one unless more than 32 are kept. */
  lemma BlankNameIsHidden(name: string)
    requires SanitizeRoomName(name) != "" && AllSpaces(SanitizeRoomName(name))
    ensures var t := Trimmed(name);
      t != "" && IsDropped(t[0]) && (IsDropped(t[|t|-1]) || |Kept(t)| > ROOM_NAME_MAX)
  {
    var t, clean := Trimmed(name), SanitizeRoomName(name);
    assert IsSpace(clean[|clean|-1]);
    TrimmedEnds(name);
    if !IsDropped(t[0]) {
      FirstKept(t);
    }
    if !IsDropped(t[|t|-1]) {
      KeptSnoc(t[..|t|-1], t[|t|-1]);
      assert t == t[..|t|-1] + [t[|t|-1]];
      var k := Kept(t);
      assert !IsSpace(k[|k|-1]);
    }
  }

  /** On a name without characters to drop, both conditions can be read off the
      trimmed name: it is never stored blank, and it is stored for good unless it is
      longer than 32 characters with a space in the thirty-second place. */
  lemma PlainName(name: string)
    requires forall i :: 0 <= i < |Trimmed(name)| ==> !IsDropped(Trimmed(name)[i])
    ensures var t := Trimmed(name); var clean := SanitizeRoomName(name);
      && clean == First32(t)
      && (clean == "" || !IsSpace(clean[0]))
      && (SanitizeRoomName(clean) == clean <==> |t| <= ROOM_NAME_MAX || !IsSpace(t[ROOM_NAME_MAX - 1]))
  {
    NothingDropped(Trimmed(name));
    SanitizingTwice(name);
    TrimmedEnds(name);
  }

  lemma TrimmedEnds(name: string)
    ensures var t := Trimmed(name); t != "" ==> !IsSpace(t[0]) && !IsSpace(t[|t|-1])
  {
    var l := TrimLeft(name);
    assert TrimRight(l) <= l;
  }

  /** An ordinary long name: cut behind the space, it is stored with the space, and
      sanitizing it again removes that. */
  lemma CutBehindASpace(front: string, rest: string)
    requires |front| == ROOM_NAME_MAX - 1 && rest != ""
    requires !IsSpace(front[0]) && !IsSpace(rest[|rest|-1])
    requires forall i :: 0 <= i < |front| ==> !IsDropped(front[i])
    requires forall i :: 0 <= i < |rest| ==> !IsDropped(rest[i])
    ensures SanitizeRoomName(front + " " + rest) == front + " "
    ensures SanitizeRoomName(front + " ") != front + " "
  {
    var name := front + " " + rest;
    assert name[0] == front[0] && name[|name|-1] == rest[|rest|-1];
    assert Trimmed(name) == name;
    PlainName(name);
    assert First32(name) == front + " ";
  }

  /** A control character hides the space behind it from the trim: the stored
      name can be a blank, and passes validation. */
  lemma BlankRoomName(control: char, s: Settings)
    requires IsDropped(control) && !IsSpace(control)
    ensures SanitizeRoomName([control, ' ', control]) == " " && SanitizeRoomName(" ") == ""
    ensures ValidSettings(s) ==> ValidSettings(s.(name := SanitizeRoomName([control, ' ', control])))
  {
    KeptSnoc("", control);
    KeptSnoc([control], ' ');
    KeptSnoc([control, ' '], control);
    assert [control] == "" + [control] && [control] + [' '] == [control, ' '];
    assert [control, ' '] + [control] == [control, ' ', control];
    assert TrimLeft(" ") == TrimLeft("") == "";
  }
}
