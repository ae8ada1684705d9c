/**
 What `json.loads` can yield from decoded text. UTF-8 never decodes to a surrogate code point, so
 a surrogate in a loaded value comes from an escape, and an escaped pair is joined on reading.
 */
module JsonDecoded {
  import opened Wrappers
  import opened Json
  import opened JsonText

  /** A text that UTF-8 can decode to: code points, none of them a surrogate. */
  predicate Decoded(s: Text) {
    forall i :: 0 <= i < |s| ==> IsCodePoint(s[i]) && !IsHigh(s[i]) && !IsLow(s[i])
  }

  lemma {:induction false} BlanksOf(s: Text)
    requires Decoded(s)
    ensures Decoded(SkipBlanks(s))
  {
    if s != [] && IsBlank(s[0]) {
      BlanksOf(s[1..]);
    }
  }

  lemma HexIsUnit(s: Text)
    ensures ReadHex4(s).Some? ==> 0 <= ReadHex4(s).value < 0x10000
  {
    forall c: int ensures HexValue(c).Some? ==> 0 <= HexValue(c).value < 16 {}
  }

  /** After a high surrogate has been read, the next character read is not a low one. */
  lemma UnitYields(s: Text)
    requires Decoded(s) && ReadUnit(s).Unit?
    ensures var u := ReadUnit(s);
      && Decoded(u.rest) && IsCodePoint(u.c)
      && (IsHigh(u.c) && ReadUnit(u.rest).Unit? ==> !IsLow(ReadUnit(u.rest).c))
  {
    var u := ReadUnit(s);
    if StartsUEscape(s) {
      HexIsUnit(s[2..]);
      if |s| >= 8 {
        HexIsUnit(s[8..]);
      }
    }
    if IsHigh(u.c) {
      assert StartsUEscape(s) && ReadHex4(s[2..]) == Some(u.c) && u.rest == s[6..];
      assert StartsUEscape(u.rest) ==> u.rest[2..] == s[8..];
    }
  }

  lemma {:induction false} StringYields(s: Text)
    requires Decoded(s) && ReadString(s).ReadText?
    ensures Decoded(ReadString(s).rest) && IsText(ReadString(s).text) && NoSplitPair(ReadString(s).text)
    ensures ReadString(s).text != [] ==> ReadUnit(s).Unit? && ReadUnit(s).c == ReadString(s).text[0]
    decreases |s|
  {
    if s[0] != QUOTE {
      UnitYields(s);
      StringYields(ReadUnit(s).rest);
    }
  }

  lemma NumberYields(s: Text)
    requires Decoded(s) && ReadNumber(s).ReadValue?
    ensures Decoded(ReadNumber(s).rest) && ReadNumber(s).v.Int?
  {
  }

  /** A value that can be dumped and loaded again. */
  predicate Lasting(v: Value) {
    IsValue(v) && Survives(v, true)
  }

  predicate AllLasting(items: seq<Value>) {
    forall i :: 0 <= i < |items| ==> Lasting(items[i])
  }

  predicate LastingMember(m: Member) {
    IsMember(m) && MemberSurvives(m, true)
  }

  predicate LastingMembers(members: seq<Member>) {
    DistinctKeys(members) && forall i :: 0 <= i < |members| ==> LastingMember(members[i])
  }

  predicate HasKey(members: seq<Member>, key: Text) {
    exists i :: 0 <= i < |members| && members[i].key == key
  }

  lemma {:induction false} PutKeys(members: seq<Member>, m: Member, key: Text)
    requires HasKey(PutMember(members, m), key)
    ensures key == m.key || HasKey(members, key)
  {
    if members != [] && members[0].key != key && members[0].key != m.key {
      var i :| 0 <= i < |PutMember(members, m)| && PutMember(members, m)[i].key == key;
      assert PutMember(members[1..], m)[i - 1].key == key;
      PutKeys(members[1..], m, key);
      if HasKey(members[1..], key) {
        var j :| 0 <= j < |members[1..]| && members[1..][j].key == key;
        assert members[j + 1].key == key;
      }
    } else if members != [] && members[0].key == m.key && key != m.key {
      var i :| 0 <= i < |PutMember(members, m)| && PutMember(members, m)[i].key == key;
      assert i > 0 && members[i].key == key;
    }
  }

  lemma {:induction false} PutYields(members: seq<Member>, m: Member)
    requires LastingMembers(members) && LastingMember(m)
    ensures LastingMembers(PutMember(members, m))
  {
    if members != [] {
      assert members == [members[0]] + members[1..];
      if members[0].key != m.key {
        PutYields(members[1..], m);
        var rest := PutMember(members[1..], m);
        forall i | 0 <= i < |rest| ensures rest[i].key != members[0].key {
          PutKeys(members[1..], m, rest[i].key);
        }
      }
    }
  }

  lemma {:induction false} ReadYields(s: Text)
    requires Decoded(s) && Read(s).ReadValue?
    ensures Lasting(Read(s).v) && Decoded(Read(s).rest)
    decreases |s|, 0
  {
    if s[0] == QUOTE {
      StringYields(s[1..]);
    } else if s[0] == 91 {
      var inside := SkipBlanks(s[1..]);
      BlanksOf(s[1..]);
      if !(inside != [] && inside[0] == 93) {
        ArrayYields(inside);
      }
    } else if s[0] == 123 {
      var inside := SkipBlanks(s[1..]);
      BlanksOf(s[1..]);
      if !(inside != [] && inside[0] == 125) {
        ObjectYields(inside, []);
      }
    } else if s[0] != 110 && s[0] != 116 && s[0] != 102 {
      NumberYields(s);
    }
  }

  lemma {:induction false} ArrayYields(s: Text)
    requires Decoded(s) && ReadArray(s).ReadItems?
    ensures AllLasting(ReadArray(s).items) && Decoded(ReadArray(s).rest)
    decreases |s|, 1
  {
    ReadYields(s);
    var next := SkipBlanks(Read(s).rest);
    BlanksOf(Read(s).rest);
    if next[0] != 93 {
      BlanksOf(next[1..]);
      ArrayYields(SkipBlanks(next[1..]));
    }
  }

  lemma {:induction false} ObjectYields(s: Text, seen: seq<Member>)
    requires Decoded(s) && LastingMembers(seen) && ReadObject(s, seen).ReadMembers?
    ensures LastingMembers(ReadObject(s, seen).members) && Decoded(ReadObject(s, seen).rest)
    decreases |s|, 1
  {
    var key := ReadString(s[1..]);
    StringYields(s[1..]);
    var colon := SkipBlanks(key.rest);
    BlanksOf(key.rest);
    var value := SkipBlanks(colon[1..]);
    BlanksOf(colon[1..]);
    ReadYields(value);
    var members := PutMember(seen, Member(key.text, Read(value).v));
    PutYields(seen, Member(key.text, Read(value).v));
    var next := SkipBlanks(Read(value).rest);
    BlanksOf(Read(value).rest);
    if next[0] != 125 {
      BlanksOf(next[1..]);
      ObjectYields(SkipBlanks(next[1..]), members);
    }
  }

  /**
   Whatever is loaded from decoded text has no adjacent surrogate pair in any of its texts, keys
   included; dumped in the ASCII form and loaded again, it is the same value.
   */
  lemma LoadedSurvives(s: Text)
    requires Decoded(s) && Loads(s).Some?
    ensures Lasting(Loads(s).value)
    ensures Loads(Print(Loads(s).value, true)) == Loads(s)
  {
    BlanksOf(s);
    ReadYields(SkipBlanks(s));
    RoundTripIff(Loads(s).value, true);
  }
}
