/** Board keys: the printer and the parser of the two key spaces, language boards
    and quote boards. A string is a sequence of bytes written as characters. */
module BoardKeys {
  import opened RoomTypes

  const MAX_LANG_LEN := 32
  const MAX_SOURCE_LEN := 16
  const QUOTE_PREFIX := "quote:"

  type Nibble = x: int | 0 <= x < 16 witness 0

  /** The 128 bits of a UUID, four at a time. */
  type Uuid = u: seq<Nibble> | |u| == 32 witness [0, 0, 0, 0, 0, 0, 0, 0, 0, 0, 0, 0, 0, 0, 0, 0, 0, 0, 0, 0, 0, 0, 0, 0, 0, 0, 0, 0, 0, 0, 0, 0]

  const NIL_UUID: Uuid := [0, 0, 0, 0, 0, 0, 0, 0, 0, 0, 0, 0, 0, 0, 0, 0, 0, 0, 0, 0, 0, 0, 0, 0, 0, 0, 0, 0, 0, 0, 0, 0]

  datatype Bucket = Bucket(mode: string, dimension: int, lang: string, textSource: string, quoteId: Uuid)

  predicate IsQuote(b: Bucket) {
    b.quoteId != NIL_UUID
  }

  predicate IsRankedShape(mode: string, dimension: int) {
    || (mode == "time" && dimension in {15000, 30000, 60000})
    || (mode == "words" && dimension in {25, 50, 100})
  }

  predicate ComponentChar(c: char) {
    'a' <= c <= 'z' || 'A' <= c <= 'Z' || '0' <= c <= '9' || c == '_' || c == '-' || c == '.'
  }

  predicate ValidComponent(v: string, maxLen: nat) {
    0 < |v| <= maxLen && forall c <- v :: ComponentChar(c)
  }

  /** The one rule set behind every constructor. */
  predicate Valid(b: Bucket) {
    if IsQuote(b) then b.mode == "" && b.dimension == 0 && b.lang == "" && b.textSource == ""
    else
      && (b.mode == "time" || b.mode == "words")
      && 0 < b.dimension <= (if b.mode == "time" then MAX_DURATION_MS else MAX_WORD_COUNT)
      && IsRankedShape(b.mode, b.dimension)
      && ValidComponent(b.lang, MAX_LANG_LEN)
      && ValidComponent(b.textSource, MAX_SOURCE_LEN)
      && b.textSource != "quote"
  }

  // ---------------------------------------------------------------- numbers

  predicate IsDigit(c: char) {
    '0' <= c <= '9'
  }

  function DigitValue(c: char): (v: int)
    requires IsDigit(c)
    ensures 0 <= v < 10
  {
    c as int - '0' as int
  }

  function DigitChar(v: int): (c: char)
    requires 0 <= v < 10
    ensures IsDigit(c) && DigitValue(c) == v
  {
    (v + '0' as int) as char
  }

  function Digits(n: nat): (s: string) {
    if n < 10 then [DigitChar(n)] else Digits(n / 10) + [DigitChar(n % 10)]
  }

  function Itoa(n: int): (s: string) {
    if n < 0 then "-" + Digits(-n) else Digits(n)
  }

  predicate AllDigits(s: string) {
    forall c <- s :: IsDigit(c)
  }

  function DigitsValue(s: string): (v: nat)
    requires AllDigits(s)
  {
    if s == "" then 0 else 10 * DigitsValue(s[..|s|-1]) + DigitValue(s[|s|-1])
  }

  /** An optional sign, then decimal digits, within 64 bits; leading zeros allowed. */
  function Atoi(s: string): (n: Option<int>) {
    var signed := s != "" && (s[0] == '+' || s[0] == '-');
    var digits := if signed then s[1..] else s;
    if digits == "" || !AllDigits(digits) then None else
      var v: int := DigitsValue(digits);
      var n: int := if signed && s[0] == '-' then -v else v;
      if -0x8000_0000_0000_0000 <= n < 0x8000_0000_0000_0000 then Some(n) else None
  }

  /** The conversion to int32 keeps the low 32 bits. */
  function ToInt32(n: int): (m: int)
    ensures -0x8000_0000 <= m < 0x8000_0000
  {
    (n + 0x8000_0000) % 0x1_0000_0000 - 0x8000_0000
  }

  // ---------------------------------------------------------------- UUID text

  function HexChar(x: Nibble): (c: char) {
    "0123456789abcdef"[x]
  }

  /** Either case is read. */
  function HexValue(c: char): (x: Option<Nibble>) {
    if IsDigit(c) then Some(DigitValue(c))
    else if 'a' <= c <= 'f' then Some(c as int - 'a' as int + 10)
    else if 'A' <= c <= 'F' then Some(c as int - 'A' as int + 10)
    else None
  }

  predicate IsDash(j: nat) {
    j == 8 || j == 13 || j == 18 || j == 23
  }

  /** Where nibble `i` stands in the dashed text. */
  function At(i: nat): (j: nat)
    requires i < 32
    ensures i <= j < 36 && !IsDash(j)
  {
    if i < 8 then i else if i < 12 then i + 1 else if i < 16 then i + 2 else if i < 20 then i + 3 else i + 4
  }

  /** Which nibble stands at place `j`. */
  function NibbleAt(j: nat): (i: nat)
    requires j < 36 && !IsDash(j)
    ensures i < 32 && At(i) == j
  {
    if j < 8 then j else if j < 13 then j - 1 else if j < 18 then j - 2 else if j < 23 then j - 3 else j - 4
  }

  /** The canonical lower-case dashed text (section 4 of RFC 9562). */
  function UuidText(u: Uuid): (s: string)
    ensures |s| == 36
  {
    seq(36, j requires 0 <= j < 36 => if IsDash(j) then '-' else HexChar(u[NibbleAt(j)]))
  }

  predicate DashedText(s: string) {
    |s| == 36 && s[8] == s[13] == s[18] == s[23] == '-' && forall i :: 0 <= i < 32 ==> HexValue(s[At(i)]).Some?
  }

  function DashedValue(s: string): (u: Uuid)
    requires DashedText(s)
  {
    seq(32, i requires 0 <= i < 32 => HexValue(s[At(i)]).value)
  }

  function ParseDashed(s: string): (u: Option<Uuid>) {
    if DashedText(s) then Some(DashedValue(s)) else None
  }

  function ParsePlain(s: string): (u: Option<Uuid>)
    requires |s| == 32
  {
    if forall i :: 0 <= i < 32 ==> HexValue(s[i]).Some?
    then Some(seq(32, i requires 0 <= i < 32 => HexValue(s[i]).value)) else None
  }

  function Lower(s: string): (l: string) {
    seq(|s|, i requires 0 <= i < |s| => if 'A' <= s[i] <= 'Z' then (s[i] as int + 32) as char else s[i])
  }

  /** Every spelling the UUID library reads: dashed, undashed, braced, urn. */
  function ParseUuid(s: string): (u: Option<Uuid>) {
    if |s| == 36 then ParseDashed(s)
    else if |s| == 45 then (if Lower(s[..9]) == "urn:uuid:" then ParseDashed(s[9..]) else None)
    else if |s| == 38 then ParseDashed(s[1..37])
    else if |s| == 32 then ParsePlain(s)
    else None
  }

  // ---------------------------------------------------------------- keys

  function Key(b: Bucket): (key: string) {
    if IsQuote(b) then QUOTE_PREFIX + UuidText(b.quoteId)
    else b.mode + ":" + Itoa(b.dimension) + ":" + b.lang + ":" + b.textSource
  }

  function Split(s: string): (parts: seq<string>)
    ensures parts != []
  {
    if s == "" then [""]
    else if s[0] == ':' then [""] + Split(s[1..])
    else var rest := Split(s[1..]); [[s[0]] + rest[0]] + rest[1..]
  }

  predicate HasQuotePrefix(key: string) {
    QUOTE_PREFIX <= key
  }

  function ParseQuoteKey(key: string): (b: Option<Bucket>)
    requires HasQuotePrefix(key)
  {
    var rest := key[|QUOTE_PREFIX|..];
    var id := ParseUuid(rest);
    if id.None? || UuidText(id.value) != rest then None
    else NewQuoteBucket(id.value)
  }

  function ParseLanguageKey(key: string): (b: Option<Bucket>) {
    var parts := Split(key);
    if |parts| != 4 then None else
      var dim := Atoi(parts[1]);
      if dim.None? then None else
        var b := Bucket(parts[0], ToInt32(dim.value), parts[2], parts[3], NIL_UUID);
        if Valid(b) then Some(b) else None
  }

  function ParseBucketKey(key: string): (b: Option<Bucket>) {
    if HasQuotePrefix(key) then ParseQuoteKey(key) else ParseLanguageKey(key)
  }

  function NewQuoteBucket(quoteId: Uuid): (b: Option<Bucket>) {
    var b := Bucket("", 0, "", "", quoteId);
    if Valid(b) then Some(b) else None
  }

  function NewBucket(mode: string, durationMs: Option<int>, wordCount: Option<int>, lang: string, textSource: string): (b: Option<Bucket>) {
    if mode == "time" && durationMs.Some? then Checked(Bucket(mode, durationMs.value, lang, textSource, NIL_UUID))
    else if mode == "words" && wordCount.Some? then Checked(Bucket(mode, wordCount.value, lang, textSource, NIL_UUID))
    else None
  }

  function Checked(b: Bucket): (r: Option<Bucket>) {
    if Valid(b) then Some(b) else None
  }

  // ---------------------------------------------------------------- numbers read back

  lemma {:induction false} DigitsReadBack(n: nat)
    ensures AllDigits(Digits(n)) && Digits(n) != "" && DigitsValue(Digits(n)) == n
    ensures Digits(n)[0] == '0' ==> n == 0
  {
    if n >= 10 {
      DigitsReadBack(n / 10);
      assert Digits(n)[..|Digits(n)|-1] == Digits(n / 10);
    }
  }

  lemma {:induction false} DigitsLength(n: nat, k: nat)
    requires 0 < k && n < Pow10(k)
    ensures |Digits(n)| <= k
  {
    if n >= 10 {
      assert k > 1;
      DigitsLength(n / 10, k - 1);
    }
  }

  function Pow10(k: nat): (p: nat) {
    if k == 0 then 1 else 10 * Pow10(k - 1)
  }

  lemma {:induction false} DigitsValueBound(s: string)
    requires AllDigits(s)
    ensures DigitsValue(s) < Pow10(|s|)
  {
    if s != "" {
      DigitsValueBound(s[..|s|-1]);
    }
  }

  lemma {:induction false} DigitsPrintBack(s: string)
    requires AllDigits(s) && s != "" && (s[0] != '0' || |s| == 1)
    ensures Digits(DigitsValue(s)) == s
    ensures s[0] != '0' ==> DigitsValue(s) > 0
  {
    var front := s[..|s|-1];
    assert s == front + [s[|s|-1]];
    if |s| > 1 {
      DigitsPrintBack(front);
    } else {
      assert front == "";
    }
  }

  lemma AtoiItoa(n: nat)
    requires n < 0x8000_0000_0000_0000
    ensures Atoi(Itoa(n)) == Some(n)
  {
    DigitsReadBack(n);
    assert Digits(n)[0] in Digits(n);
  }

  // ---------------------------------------------------------------- UUID read back

  lemma UuidReadBack(u: Uuid)
    ensures ParseUuid(UuidText(u)) == Some(u)
  {
    var s := UuidText(u);
    forall i | 0 <= i < 32
      ensures HexValue(s[At(i)]) == Some(u[i])
    {
      assert NibbleAt(At(i)) == i;
      HexReadBack(u[i]);
    }
    assert DashedValue(s) == u;
  }

  lemma HexReadBack(x: Nibble)
    ensures HexValue(HexChar(x)) == Some(x)
  {}

  // ---------------------------------------------------------------- splitting

  predicate NoColon(s: string) {
    ':' !in s
  }

  lemma {:induction false} SplitOne(s: string)
    requires NoColon(s)
    ensures Split(s) == [s]
  {
    if s != "" {
      SplitOne(s[1..]);
      assert s == [s[0]] + s[1..];
    }
  }

  lemma {:induction false} SplitJoin(s: string, rest: string)
    requires NoColon(s)
    ensures Split(s + ":" + rest) == [s] + Split(rest)
  {
    var all := s + ":" + rest;
    if s == "" {
      assert all[1..] == rest;
    } else {
      SplitJoin(s[1..], rest);
      assert all[1..] == s[1..] + ":" + rest;
      assert s == [s[0]] + s[1..];
    }
  }

  lemma SplitTwo(c: string, d: string)
    requires NoColon(c) && NoColon(d)
    ensures Split(c + ":" + d) == [c, d]
  {
    SplitJoin(c, d);
    SplitOne(d);
  }

  lemma SplitFour(a: string, b: string, c: string, d: string)
    requires NoColon(a) && NoColon(b) && NoColon(c) && NoColon(d)
    ensures Split(a + ":" + b + ":" + c + ":" + d) == [a, b, c, d]
  {
    var last := c + ":" + d;
    var rest := b + ":" + last;
    assert a + ":" + b + ":" + c + ":" + d == a + ":" + rest;
    SplitJoin(a, rest);
    SplitJoin(b, last);
    SplitTwo(c, d);
  }

  function Joined(parts: seq<string>): (s: string)
    requires parts != []
  {
    if |parts| == 1 then parts[0] else parts[0] + ":" + Joined(parts[1..])
  }

  lemma JoinedHead(c: char, parts: seq<string>)
    requires parts != []
    ensures Joined([[c] + parts[0]] + parts[1..]) == [c] + Joined(parts)
  {
    assert ([[c] + parts[0]] + parts[1..])[1..] == parts[1..];
    if |parts| > 1 {
      assert ([c] + parts[0]) + ":" + Joined(parts[1..]) == [c] + (parts[0] + ":" + Joined(parts[1..]));
    }
  }

  lemma {:induction false} SplitJoined(s: string)
    ensures Joined(Split(s)) == s && forall p <- Split(s) :: NoColon(p)
  {
    if s != "" {
      SplitJoined(s[1..]);
      var rest := Split(s[1..]);
      if s[0] == ':' {
        assert ([""] + rest)[1..] == rest;
        assert s == ":" + s[1..];
      } else {
        JoinedHead(s[0], rest);
        assert rest[0] in rest && NoColon(rest[0]);
        assert NoColon([s[0]] + rest[0]) && forall p <- rest[1..] :: p in rest;
        assert s == [s[0]] + s[1..];
      }
    }
  }

  // ---------------------------------------------------------------- the promises

  lemma ComponentsHaveNoColon(b: Bucket)
    requires Valid(b) && !IsQuote(b)
    ensures NoColon(b.mode) && NoColon(b.lang) && NoColon(b.textSource) && NoColon(Itoa(b.dimension))
  {
    DigitsReadBack(b.dimension);
    assert !ComponentChar(':') && !IsDigit(':');
  }

  /** No language key opens like a quote key. */
  lemma LanguageKeysAreNotQuoteKeys(b: Bucket)
    requires Valid(b) && !IsQuote(b)
    ensures !HasQuotePrefix(Key(b))
  {
    assert Key(b)[0] == b.mode[0];
    assert QUOTE_PREFIX[0] == 'q';
  }

  /** Parsing the printed key of any valid bucket returns that bucket. */
  lemma ParseKey(b: Bucket)
    requires Valid(b)
    ensures ParseBucketKey(Key(b)) == Some(b)
  {
    if IsQuote(b) {
      assert Key(b)[|QUOTE_PREFIX|..] == UuidText(b.quoteId);
      UuidReadBack(b.quoteId);
    } else {
      LanguageKeysAreNotQuoteKeys(b);
      ComponentsHaveNoColon(b);
      SplitFour(b.mode, Itoa(b.dimension), b.lang, b.textSource);
      AtoiItoa(b.dimension);
    }
  }

  /** Two boards never share a key, across both key spaces. */
  lemma KeysAreInjective(a: Bucket, b: Bucket)
    requires Valid(a) && Valid(b) && Key(a) == Key(b)
    ensures a == b
  {
    ParseKey(a);
    ParseKey(b);
  }

  /** What is accepted is valid, and the two key spaces give the two shapes. */
  lemma AcceptedIsValid(key: string)
    requires ParseBucketKey(key).Some?
    ensures Valid(ParseBucketKey(key).value)
    ensures IsQuote(ParseBucketKey(key).value) <==> HasQuotePrefix(key)
  {}

  /** An accepted quote key is the one spelling of its board. */
  lemma QuoteKeyPrintsBack(key: string)
    requires HasQuotePrefix(key)
    ensures ParseBucketKey(key).Some? <==> exists u: Uuid :: u != NIL_UUID && key == QUOTE_PREFIX + UuidText(u)
    ensures ParseBucketKey(key).Some? ==> Key(ParseBucketKey(key).value) == key
  {
    assert key == QUOTE_PREFIX + key[|QUOTE_PREFIX|..];
    forall u: Uuid | u != NIL_UUID && key == QUOTE_PREFIX + UuidText(u)
      ensures ParseBucketKey(key).Some?
    {
      assert key[|QUOTE_PREFIX|..] == UuidText(u);
      UuidReadBack(u);
    }
    if ParseBucketKey(key).Some? {
      var u := ParseUuid(key[|QUOTE_PREFIX|..]).value;
      assert u != NIL_UUID && key == QUOTE_PREFIX + UuidText(u);
    }
  }

  /** The spelling Itoa gives a ranked size: one to five digits, the first not zero. */
  predicate CanonicalSize(text: string) {
    0 < |text| <= 5 && AllDigits(text) && text[0] != '0'
  }

  lemma SizeTextIsCanonical(n: int)
    requires 0 < n < 100000
    ensures CanonicalSize(Itoa(n))
  {
    DigitsReadBack(n);
    assert Pow10(5) == 100000 by {
      assert Pow10(1) == 10 && Pow10(2) == 100 && Pow10(3) == 1000 && Pow10(4) == 10000;
    }
    DigitsLength(n, 5);
  }

  lemma CanonicalSizeIsSmall(text: string)
    requires CanonicalSize(text)
    ensures 0 < DigitsValue(text) < 100000 && Digits(DigitsValue(text)) == text
  {
    DigitsPrintBack(text);
    DigitsValueBound(text);
    PowGrows(|text|, 5);
    assert Pow10(5) == 100000 by {
      assert Pow10(1) == 10 && Pow10(2) == 100 && Pow10(3) == 1000 && Pow10(4) == 10000;
    }
  }

  lemma PlainDigitsAreRead(text: string)
    requires AllDigits(text) && text != "" && DigitsValue(text) < 100000
    ensures Atoi(text) == Some(DigitsValue(text)) && ToInt32(DigitsValue(text)) == DigitsValue(text)
  {
    assert text[0] in text;
  }

  lemma CanonicalSizePrintsBack(text: string)
    requires CanonicalSize(text)
    ensures Atoi(text).Some? && Itoa(ToInt32(Atoi(text).value)) == text
  {
    CanonicalSizeIsSmall(text);
    PlainDigitsAreRead(text);
  }

  lemma {:induction false} PowGrows(a: nat, b: nat)
    requires a <= b
    ensures Pow10(a) <= Pow10(b)
  {
    if a < b {
      PowGrows(a, b - 1);
    }
  }

  /** An accepted language key is the one spelling of its board exactly when its
      size is written canonically: a sign, a leading zero or a number that wraps
      around 32 bits is read, and printed back differently. */
  lemma LanguageKeyPrintsBack(key: string)
    requires ParseBucketKey(key).Some? && !HasQuotePrefix(key)
    ensures |Split(key)| == 4
    ensures Key(ParseBucketKey(key).value) == key <==> CanonicalSize(Split(key)[1])
  {
    var b := ParseBucketKey(key).value;
    var parts := Split(key);
    SplitJoined(key);
    JoinedFour(parts);
    SizeTextIsCanonical(b.dimension);
    if CanonicalSize(parts[1]) {
      CanonicalSizePrintsBack(parts[1]);
    }
    if Key(b) == key {
      ComponentsHaveNoColon(b);
      SplitFour(b.mode, Itoa(b.dimension), b.lang, b.textSource);
      assert parts[1] == Itoa(b.dimension);
    }
  }

  lemma JoinedFour(parts: seq<string>)
    requires |parts| == 4
    ensures Joined(parts) == parts[0] + ":" + parts[1] + ":" + parts[2] + ":" + parts[3]
  {
    assert parts[1..][1..] == parts[2..] && parts[2..][1..] == parts[3..];
    assert Joined(parts[3..]) == parts[3];
    assert Joined(parts[2..]) == parts[2] + ":" + parts[3];
    assert Joined(parts[1..]) == parts[1] + ":" + (parts[2] + ":" + parts[3]);
  }

  function KeyWithSize(b: Bucket, text: string): (key: string) {
    b.mode + ":" + text + ":" + b.lang + ":" + b.textSource
  }

  /** A plus sign, a leading zero, or two to the thirty-second more. */
  predicate OtherSize(n: nat, text: string) {
    text == "+" + Digits(n) || text == "0" + Digits(n) || text == Digits(n + 0x1_0000_0000)
  }

  lemma PlusReads(digits: string)
    requires AllDigits(digits) && digits != "" && DigitsValue(digits) < 0x8000_0000
    ensures Atoi("+" + digits) == Some(DigitsValue(digits)) && "+" + digits != digits
  {
    var text := "+" + digits;
    assert text[0] == '+' && text[1..] == digits && |text| != |digits|;
  }

  lemma ZeroReads(digits: string)
    requires AllDigits(digits) && digits != "" && DigitsValue(digits) < 0x8000_0000
    ensures Atoi("0" + digits) == Some(DigitsValue(digits)) && "0" + digits != digits
  {
    var text := "0" + digits;
    LeadingZero(digits);
    assert text[0] == '0' && |text| != |digits|;
  }

  lemma Wraps(n: nat)
    requires n < 0x8000_0000
    ensures ToInt32(n) == n == ToInt32(n + 0x1_0000_0000)
  {}

  lemma WrapReads(n: nat)
    requires n < 0x8000_0000
    ensures Atoi(Digits(n + 0x1_0000_0000)) == Some(n + 0x1_0000_0000)
    ensures Digits(n + 0x1_0000_0000) != Digits(n)
  {
    var m: nat := n + 0x1_0000_0000;
    AtoiItoa(m);
    DigitsReadBack(m);
    DigitsReadBack(n);
    assert DigitsValue(Digits(m)) != DigitsValue(Digits(n));
  }

  lemma OtherSizeReads(n: nat, text: string)
    requires n < 0x8000_0000 && OtherSize(n, text)
    ensures Atoi(text).Some? && ToInt32(Atoi(text).value) == n && text != Digits(n)
  {
    Wraps(n);
    WrapReads(n);
    DigitsReadBack(n);
    PlusReads(Digits(n));
    ZeroReads(Digits(n));
  }

  /** Every language board has other accepted spellings. */
  lemma OtherSpellings(b: Bucket, text: string)
    requires Valid(b) && !IsQuote(b) && OtherSize(b.dimension, text)
    ensures ParseBucketKey(KeyWithSize(b, text)) == Some(b) && KeyWithSize(b, text) != Key(b)
  {
    OtherSizeReads(b.dimension, text);
    SpelledAnyhow(b, text);
    ComponentsHaveNoColon(b);
    SplitFour(b.mode, Itoa(b.dimension), b.lang, b.textSource);
    SplitFour(b.mode, text, b.lang, b.textSource);
    assert Split(Key(b))[1] != Split(KeyWithSize(b, text))[1];
  }

  lemma {:induction false} LeadingZero(s: string)
    requires AllDigits(s)
    ensures AllDigits("0" + s) && DigitsValue("0" + s) == DigitsValue(s)
  {
    if s != "" {
      LeadingZero(s[..|s|-1]);
      assert ("0" + s)[..|s|] == "0" + s[..|s|-1];
    } else {
      assert ("0" + s)[..0] == "";
    }
  }

  lemma SpelledAnyhow(b: Bucket, text: string)
    requires Valid(b) && !IsQuote(b) && Atoi(text).Some? && ToInt32(Atoi(text).value) == b.dimension
    ensures NoColon(text) && ParseBucketKey(KeyWithSize(b, text)) == Some(b)
  {
    assert NoColon(text) by {
      assert text != "" && !IsDigit(':');
      assert text == [text[0]] + text[1..];
    }
    ComponentsHaveNoColon(b);
    SplitFour(b.mode, text, b.lang, b.textSource);
    assert KeyWithSize(b, text)[0] == b.mode[0];
    assert QUOTE_PREFIX[0] == 'q';
  }

  /** A bucket built from a run's columns has a key that reads back to it. */
  lemma BuiltBucketsReadBack(mode: string, durationMs: Option<int>, wordCount: Option<int>, lang: string, textSource: string)
    requires NewBucket(mode, durationMs, wordCount, lang, textSource).Some?
    ensures var b := NewBucket(mode, durationMs, wordCount, lang, textSource).value;
            && ParseBucketKey(Key(b)) == Some(b)
            && Some(b.dimension) == (if mode == "time" then durationMs else wordCount)
  {
    ParseKey(NewBucket(mode, durationMs, wordCount, lang, textSource).value);
  }
}
