/**
 JSON text as Python's `json.dumps` prints it and `json.loads` reads it back, over sequences of
 code points. Floating-point numbers are not part of this model.
 */
module Json {
  import opened Wrappers
  import opened Decimal

  type Text = seq<int>

  datatype Value =
    | Null
    | Bool(b: bool)
    | Int(n: int)
    | Str(s: Text)
    | Arr(items: seq<Value>)
    | Obj(members: seq<Member>)
  datatype Member = Member(key: Text, value: Value)

  const QUOTE := 34
  const BACKSLASH := 92
  const LETTER_U := 117

  predicate IsCodePoint(c: int) {
    0 <= c < 0x110000
  }

  predicate IsHigh(c: int) {
    0xD800 <= c < 0xDC00
  }

  predicate IsLow(c: int) {
    0xDC00 <= c < 0xE000
  }

  function Join(high: int, low: int): int {
    0x10000 + (high - 0xD800) * 0x400 + (low - 0xDC00)
  }

  // ----- strings: printing -----

  function HexDigit(d: int): int
    requires 0 <= d < 16
  {
    if d < 10 then 48 + d else 87 + d
  }

  function HexValue(c: int): Option<int> {
    if 48 <= c <= 57 then Some(c - 48)
    else if 97 <= c <= 102 then Some(c - 87)
    else if 65 <= c <= 70 then Some(c - 55)
    else None
  }

  /** Digits are printed in lower case and read in either. */
  lemma HexIff(c: int, d: int)
    requires 0 <= d < 16
    ensures HexDigit(d) == "0123456789abcdef"[d] as int
    ensures HexValue(c) == Some(d) <==> c == "0123456789abcdef"[d] as int || c == "0123456789ABCDEF"[d] as int
  {
  }

  /** A `\uXXXX` escape. */
  function UEscape(n: int): Text
    requires 0 <= n < 0x10000
  {
    [BACKSLASH, LETTER_U, HexDigit(n / 4096), HexDigit(n / 256 % 16), HexDigit(n / 16 % 16), HexDigit(n % 16)]
  }

  /** Short escapes: code of the letter after the backslash, or 0. */
  function ShortEscape(c: int): int {
    if c == QUOTE then QUOTE
    else if c == BACKSLASH then BACKSLASH
    else if c == 8 then 98
    else if c == 12 then 102
    else if c == 10 then 110
    else if c == 13 then 114
    else if c == 9 then 116
    else 0
  }

  function EscapeChar(c: int, ascii: bool): Text
    requires IsCodePoint(c)
  {
    if ShortEscape(c) != 0 then [BACKSLASH, ShortEscape(c)]
    else if c < 32 then UEscape(c)
    else if !ascii || c < 127 then [c]
    else if c < 0x10000 then UEscape(c)
    else
      SplitJoins(c);
      UEscape(HighOf(c)) + UEscape(LowOf(c))
  }

  predicate IsText(t: Text) {
    forall i :: 0 <= i < |t| ==> IsCodePoint(t[i])
  }

  function Escape(t: Text, ascii: bool): Text
    requires IsText(t)
  {
    if t == [] then [] else EscapeChar(t[0], ascii) + Escape(t[1..], ascii)
  }

  // ----- strings: reading -----

  function ReadHex4(s: Text): Option<int> {
    if |s| < 4 then None
    else match (HexValue(s[0]), HexValue(s[1]), HexValue(s[2]), HexValue(s[3]))
      case (Some(a), Some(b), Some(c), Some(d)) => Some(a * 4096 + b * 256 + c * 16 + d)
      case _ => None
  }

  function ShortUnescape(c: int): Option<int> {
    if c == QUOTE || c == BACKSLASH || c == 47 then Some(c)
    else if c == 98 then Some(8)
    else if c == 102 then Some(12)
    else if c == 110 then Some(10)
    else if c == 114 then Some(13)
    else if c == 116 then Some(9)
    else None
  }

  /** The short escapes that are read, `\"`, `\\`, `\/` and five letters, and no other. */
  lemma ShortUnescapeIff(c: int, r: int)
    ensures ShortUnescape(c) == Some(r) <==>
      (c, r) in {(34, 34), (92, 92), (47, 47), (98, 8), (102, 12), (110, 10), (114, 13), (116, 9)}
  {
  }

  /** One code unit and the rest of the input. */
  datatype Unit = BadUnit | Unit(c: int, rest: Text)

  predicate StartsUEscape(s: Text) {
    |s| >= 2 && s[0] == BACKSLASH && s[1] == LETTER_U
  }

  /** Reads one character of a string body; joins an escaped surrogate pair. */
  function ReadUnit(s: Text): (u: Unit)
    ensures u.Unit? ==> |u.rest| < |s|
  {
    if s == [] || s[0] == QUOTE || s[0] < 32 then BadUnit
    else if s[0] != BACKSLASH then Unit(s[0], s[1..])
    else if StartsUEscape(s) then
      match ReadHex4(s[2..])
      case None => BadUnit
      case Some(high) =>
        if IsHigh(high) && StartsUEscape(s[6..]) then
          match ReadHex4(s[8..])
          case None => BadUnit
          case Some(low) => if IsLow(low) then Unit(Join(high, low), s[12..]) else Unit(high, s[6..])
        else Unit(high, s[6..])
    else if |s| >= 2 && ShortUnescape(s[1]).Some? then Unit(ShortUnescape(s[1]).value, s[2..])
    else BadUnit
  }

  datatype ReadText = BadText | ReadText(text: Text, rest: Text)

  /** Reads a string body up to and including its closing quote. */
  function ReadString(s: Text): (r: ReadText)
    ensures r.ReadText? ==> |r.rest| < |s|
    decreases |s|
  {
    if s != [] && s[0] == QUOTE then ReadText([], s[1..])
    else match ReadUnit(s)
      case BadUnit => BadText
      case Unit(c, rest) =>
        match ReadString(rest)
        case BadText => BadText
        case ReadText(text, after) => ReadText([c] + text, after)
  }

  // ----- strings: the round trip -----

  lemma HexDigits(n: int)
    requires 0 <= n < 0x10000
    ensures n / 4096 < 16
    ensures n == n / 4096 * 4096 + n / 256 % 16 * 256 + n / 16 % 16 * 16 + n % 16
    ensures forall d :: 0 <= d < 16 ==> HexValue(HexDigit(d)) == Some(d)
  {
    assert n / 16 / 16 == n / 256 && n / 256 / 16 == n / 4096;
  }

  lemma HexRoundTrip(n: int, rest: Text)
    requires 0 <= n < 0x10000
    ensures StartsUEscape(UEscape(n) + rest)
    ensures ReadHex4((UEscape(n) + rest)[2..]) == Some(n)
    ensures (UEscape(n) + rest)[6..] == rest
  {
    var s := (UEscape(n) + rest)[2..];
    HexDigits(n);
    assert s[0] == HexDigit(n / 4096) && s[1] == HexDigit(n / 256 % 16) && s[2] == HexDigit(n / 16 % 16)
      && s[3] == HexDigit(n % 16);
  }

  /** A lone high surrogate is read back alone unless an escaped low one follows. */
  predicate JoinsNext(c: int, rest: Text) {
    IsHigh(c) && StartsUEscape(rest) && (ReadHex4(rest[2..]).None? || IsLow(ReadHex4(rest[2..]).value))
  }

  lemma UEscapeReads(c: int, rest: Text)
    requires 0 <= c < 0x10000 && !JoinsNext(c, rest)
    ensures ReadUnit(UEscape(c) + rest) == Unit(c, rest)
  {
    var s := UEscape(c) + rest;
    HexRoundTrip(c, rest);
    if StartsUEscape(rest) {
      assert s[8..] == rest[2..];
    }
  }

  lemma PairReads(high: int, low: int, rest: Text)
    requires IsHigh(high) && IsLow(low)
    ensures ReadUnit(UEscape(high) + UEscape(low) + rest) == Unit(Join(high, low), rest)
  {
    var tail := UEscape(low) + rest;
    var s := UEscape(high) + tail;
    assert UEscape(high) + UEscape(low) + rest == s;
    HexRoundTrip(high, tail);
    HexRoundTrip(low, rest);
    assert s[8..] == s[6..][2..] && s[12..] == s[6..][6..];
  }

  function HighOf(c: int): int {
    0xD800 + (c - 0x10000) / 0x400
  }

  function LowOf(c: int): int {
    0xDC00 + (c - 0x10000) % 0x400
  }

  lemma SplitJoins(c: int)
    requires 0x10000 <= c < 0x110000
    ensures IsHigh(HighOf(c)) && IsLow(LowOf(c)) && Join(HighOf(c), LowOf(c)) == c
  {
  }

  lemma ShortReads(c: int, rest: Text)
    requires ShortEscape(c) != 0
    ensures ReadUnit([BACKSLASH, ShortEscape(c)] + rest) == Unit(c, rest)
    ensures !StartsUEscape([BACKSLASH, ShortEscape(c)] + rest)
  {
    var s := [BACKSLASH, ShortEscape(c)] + rest;
    assert s[0] == BACKSLASH && s[1] == ShortEscape(c) && s[2..] == rest;
  }

  lemma PlainReads(c: int, rest: Text)
    requires c >= 32 && ShortEscape(c) == 0
    ensures ReadUnit([c] + rest) == Unit(c, rest)
    ensures !StartsUEscape([c] + rest)
  {
    var s := [c] + rest;
    assert s[0] == c && s[1..] == rest;
  }

  lemma CharReads(c: int, ascii: bool, rest: Text)
    requires IsCodePoint(c) && (ascii ==> !JoinsNext(c, rest))
    ensures ReadUnit(EscapeChar(c, ascii) + rest) == Unit(c, rest)
  {
    if ShortEscape(c) != 0 {
      ShortReads(c, rest);
    } else if c < 32 {
      UEscapeReads(c, rest);
    } else if !ascii || c < 127 {
      PlainReads(c, rest);
    } else if c < 0x10000 {
      UEscapeReads(c, rest);
    } else {
      SplitJoins(c);
      PairReads(HighOf(c), LowOf(c), rest);
    }
  }

  /** What an ASCII print-and-read makes of a text: each adjacent surrogate pair becomes one character. */
  function Merge(t: Text): Text {
    if t == [] then []
    else if |t| >= 2 && IsHigh(t[0]) && IsLow(t[1]) then [Join(t[0], t[1])] + Merge(t[2..])
    else [t[0]] + Merge(t[1..])
  }

  predicate NoSplitPair(t: Text) {
    forall i :: 0 <= i < |t| - 1 ==> !(IsHigh(t[i]) && IsLow(t[i + 1]))
  }

  /** What an escaped character's own `\u` escape, if it starts with one, denotes. */
  lemma EscapeStart(d: int, tail: Text)
    requires IsCodePoint(d) && StartsUEscape(EscapeChar(d, true) + tail)
    ensures ReadHex4((EscapeChar(d, true) + tail)[2..]) == Some(if d < 0x10000 then d else HighOf(d))
  {
    if ShortEscape(d) != 0 {
      ShortReads(d, tail);
    } else if d < 32 || 127 <= d < 0x10000 {
      HexRoundTrip(d, tail);
    } else if d < 127 {
      PlainReads(d, tail);
    } else {
      PairStart(d, tail);
    }
  }

  lemma PairStart(d: int, tail: Text)
    requires 0x10000 <= d && IsCodePoint(d)
    ensures ReadHex4((UEscape(HighOf(d)) + UEscape(LowOf(d)) + tail)[2..]) == Some(HighOf(d))
  {
    SplitJoins(d);
    HexRoundTrip(HighOf(d), UEscape(LowOf(d)) + tail);
    assert UEscape(HighOf(d)) + UEscape(LowOf(d)) + tail == UEscape(HighOf(d)) + (UEscape(LowOf(d)) + tail);
  }

  /** After a high surrogate, only a low surrogate's escape would join. */
  lemma NextDoesNotJoin(c: int, t: Text, rest: Text)
    requires IsText(t) && IsHigh(c) && (t == [] || !IsLow(t[0]))
    ensures !JoinsNext(c, Escape(t, true) + [QUOTE] + rest)
  {
    var s := Escape(t, true) + [QUOTE] + rest;
    if t == [] {
      assert s[0] == QUOTE;
    } else if StartsUEscape(s) {
      EscapeCons(t, true, rest);
      EscapeStart(t[0], Escape(t[1..], true) + [QUOTE] + rest);
      if t[0] >= 0x10000 {
        SplitJoins(t[0]);
      }
    }
  }

  lemma EscapeCons(t: Text, ascii: bool, rest: Text)
    requires IsText(t) && t != []
    ensures Escape(t, ascii) + [QUOTE] + rest == EscapeChar(t[0], ascii) + (Escape(t[1..], ascii) + [QUOTE] + rest)
  {
  }

  lemma EscapeCharNotQuote(c: int, ascii: bool, rest: Text)
    requires IsCodePoint(c)
    ensures EscapeChar(c, ascii) + rest != [] && (EscapeChar(c, ascii) + rest)[0] != QUOTE
  {
  }

  /** ASCII printing then reading: exactly the merged text, for every text. */
  lemma {:induction false} AsciiStringReads(t: Text, rest: Text)
    requires IsText(t)
    ensures ReadString(Escape(t, true) + [QUOTE] + rest) == ReadText(Merge(t), rest)
    decreases |t|
  {
    var s := Escape(t, true) + [QUOTE] + rest;
    if t == [] {
      assert s[0] == QUOTE && s[1..] == rest;
    } else {
      EscapeCons(t, true, rest);
      if |t| >= 2 && IsHigh(t[0]) && IsLow(t[1]) {
        EscapeCons(t[1..], true, rest);
        var tail := Escape(t[2..], true) + [QUOTE] + rest;
        assert t[1..][1..] == t[2..];
        assert s == UEscape(t[0]) + UEscape(t[1]) + tail;
        PairReads(t[0], t[1], tail);
        AsciiStringReads(t[2..], rest);
      } else {
        var tail := Escape(t[1..], true) + [QUOTE] + rest;
        if IsHigh(t[0]) {
          NextDoesNotJoin(t[0], t[1..], rest);
        }
        CharReads(t[0], true, tail);
        EscapeCharNotQuote(t[0], true, tail);
        AsciiStringReads(t[1..], rest);
      }
    }
  }

  /** Raw printing then reading: the text itself, for every text. */
  lemma {:induction false} RawStringReads(t: Text, rest: Text)
    requires IsText(t)
    ensures ReadString(Escape(t, false) + [QUOTE] + rest) == ReadText(t, rest)
    decreases |t|
  {
    var s := Escape(t, false) + [QUOTE] + rest;
    if t == [] {
      assert s[0] == QUOTE && s[1..] == rest;
    } else {
      EscapeCons(t, false, rest);
      var tail := Escape(t[1..], false) + [QUOTE] + rest;
      CharReads(t[0], false, tail);
      EscapeCharNotQuote(t[0], false, tail);
      RawStringReads(t[1..], rest);
      assert [t[0]] + t[1..] == t;
    }
  }

  lemma {:induction false} MergeShortens(t: Text)
    ensures |Merge(t)| <= |t|
    ensures |Merge(t)| == |t| ==> NoSplitPair(t)
    ensures NoSplitPair(t) ==> Merge(t) == t
    decreases |t|
  {
    if t != [] {
      if |t| >= 2 && IsHigh(t[0]) && IsLow(t[1]) {
        MergeShortens(t[2..]);
      } else {
        MergeShortens(t[1..]);
        assert t == [t[0]] + t[1..];
        if NoSplitPair(t) {
          forall i | 0 <= i < |t[1..]| - 1 ensures !(IsHigh(t[1..][i]) && IsLow(t[1..][i + 1])) {
            assert t[1..][i] == t[i + 1] && t[1..][i + 1] == t[i + 2];
          }
        }
        if NoSplitPair(t[1..]) {
          forall i | 0 <= i < |t| - 1 ensures !(IsHigh(t[i]) && IsLow(t[i + 1])) {
            if i > 0 {
              assert t[1..][i - 1] == t[i] && t[1..][i] == t[i + 1];
            }
          }
        }
      }
    }
  }

  /** A text survives ASCII printing and reading exactly when it has no split surrogate pair. */
  lemma AsciiRoundTripIff(t: Text, rest: Text)
    requires IsText(t)
    ensures ReadString(Escape(t, true) + [QUOTE] + rest) == ReadText(t, rest) <==> NoSplitPair(t)
  {
    AsciiStringReads(t, rest);
    MergeShortens(t);
  }
}
