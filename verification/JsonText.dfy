/** Whole JSON values: `json.dumps(v, ensure_ascii=...)` and `json.loads`, and what survives them. */
module JsonText {
  import opened Wrappers
  import opened Decimal
  import opened Json

  const NULL: Text := [110, 117, 108, 108]
  const TRUE: Text := [116, 114, 117, 101]
  const FALSE: Text := [102, 97, 108, 115, 101]
  const COMMA := 44
  const COLON := 58
  const MINUS := 45
  const SPACE := 32

  // ----- printing -----

  predicate DistinctKeys(members: seq<Member>) {
    forall i, j :: 0 <= i < j < |members| ==> members[i].key != members[j].key
  }

  /** A value Python can hold in dictionaries and lists: texts of code points, keys that differ. */
  predicate IsValue(v: Value) {
    match v
    case Null => true
    case Bool(_) => true
    case Int(_) => true
    case Str(t) => IsText(t)
    case Arr(items) => forall i :: 0 <= i < |items| ==> IsValue(items[i])
    case Obj(members) => DistinctKeys(members) && forall i :: 0 <= i < |members| ==> IsMember(members[i])
  }

  predicate IsMember(m: Member) {
    IsText(m.key) && IsValue(m.value)
  }

  function PrintInt(n: int): Text {
    if n < 0 then [MINUS] + Digits(-n) else Digits(n)
  }

  /** Only a negative number has a sign, and the rest is the numeral of its size. */
  lemma PrintIntMeans(n: int)
    ensures PrintInt(n)[0] == MINUS <==> n < 0
    ensures var digits := if n < 0 then PrintInt(n)[1..] else PrintInt(n);
      AllDigits(digits) && Decimal.Value(digits) == if n < 0 then -n else n
  {
    ValueOfDigits(if n < 0 then -n else n);
    assert IsDigit(Digits(if n < 0 then -n else n)[0]);
  }

  function PrintText(t: Text, ascii: bool): Text
    requires IsText(t)
  {
    [QUOTE] + Escape(t, ascii) + [QUOTE]
  }

  function Print(v: Value, ascii: bool): Text
    requires IsValue(v)
    decreases v, 0
  {
    match v
    case Null => NULL
    case Bool(b) => if b then TRUE else FALSE
    case Int(n) => PrintInt(n)
    case Str(t) => PrintText(t, ascii)
    case Arr(items) => [91] + PrintItems(items, ascii) + [93]
    case Obj(members) => [123] + PrintMembers(members, ascii) + [125]
  }

  function PrintItems(items: seq<Value>, ascii: bool): Text
    requires forall i :: 0 <= i < |items| ==> IsValue(items[i])
    decreases items, 0
  {
    if items == [] then []
    else if |items| == 1 then Print(items[0], ascii)
    else Print(items[0], ascii) + [COMMA, SPACE] + PrintItems(items[1..], ascii)
  }

  function PrintMember(m: Member, ascii: bool): Text
    requires IsMember(m)
    decreases m, 1
  {
    PrintText(m.key, ascii) + [COLON, SPACE] + Print(m.value, ascii)
  }

  function PrintMembers(members: seq<Member>, ascii: bool): Text
    requires forall i :: 0 <= i < |members| ==> IsMember(members[i])
    decreases members, 0
  {
    if members == [] then []
    else if |members| == 1 then PrintMember(members[0], ascii)
    else PrintMember(members[0], ascii) + [COMMA, SPACE] + PrintMembers(members[1..], ascii)
  }

  // ----- reading -----

  predicate IsBlank(c: int) {
    c == 32 || c == 9 || c == 10 || c == 13
  }

  function SkipBlanks(s: Text): (r: Text)
    ensures |r| <= |s|
  {
    if s != [] && IsBlank(s[0]) then SkipBlanks(s[1..]) else s
  }

  function DigitRun(s: Text): (k: nat)
    ensures k <= |s| && AllDigits(s[..k])
  {
    if s == [] || !IsDigit(s[0]) then 0
    else
      var k := 1 + DigitRun(s[1..]);
      assert s[..k] == [s[0]] + s[1..][..k - 1];
      k
  }

  datatype ReadValue = BadValue | ReadValue(v: Value, rest: Text)
  datatype ReadItems = BadItems | ReadItems(items: seq<Value>, rest: Text)
  datatype ReadMembers = BadMembers | ReadMembers(members: seq<Member>, rest: Text)

  /** Integers only; a fraction or exponent is outside this model. */
  function ReadNumber(s: Text): (r: ReadValue)
    ensures r.ReadValue? ==> |r.rest| < |s|
  {
    var negative := s != [] && s[0] == MINUS;
    var body := if negative then s[1..] else s;
    if body == [] || !IsDigit(body[0]) then BadValue
    else
      var k := if body[0] == 48 then 1 else DigitRun(body);
      var rest := body[k..];
      if rest != [] && (rest[0] == 46 || rest[0] == 101 || rest[0] == 69) then BadValue
      else ReadValue(Int(if negative then -(Decimal.Value(body[..k]) as int) else Decimal.Value(body[..k])), rest)
  }

  /** Python dictionaries keep a key's first place and its last value. */
  function PutMember(members: seq<Member>, m: Member): seq<Member> {
    if members == [] then [m]
    else if members[0].key == m.key then [m] + members[1..]
    else [members[0]] + PutMember(members[1..], m)
  }

  function Read(s: Text): (r: ReadValue)
    ensures r.ReadValue? ==> |r.rest| < |s|
    decreases |s|, 0
  {
    if s == [] then BadValue
    else if s[0] == QUOTE then
      match ReadString(s[1..])
      case BadText => BadValue
      case ReadText(t, rest) => ReadValue(Str(t), rest)
    else if s[0] == 91 then
      var inside := SkipBlanks(s[1..]);
      if inside != [] && inside[0] == 93 then ReadValue(Arr([]), inside[1..])
      else
        match ReadArray(inside)
        case BadItems => BadValue
        case ReadItems(items, rest) => ReadValue(Arr(items), rest)
    else if s[0] == 123 then
      var inside := SkipBlanks(s[1..]);
      if inside != [] && inside[0] == 125 then ReadValue(Obj([]), inside[1..])
      else
        match ReadObject(inside, [])
        case BadMembers => BadValue
        case ReadMembers(members, rest) => ReadValue(Obj(members), rest)
    else if s[0] == 110 then (if NULL <= s then ReadValue(Null, s[4..]) else BadValue)
    else if s[0] == 116 then (if TRUE <= s then ReadValue(Bool(true), s[4..]) else BadValue)
    else if s[0] == 102 then (if FALSE <= s then ReadValue(Bool(false), s[5..]) else BadValue)
    else ReadNumber(s)
  }

  /** After `[`: items up to and including `]`. */
  function ReadArray(s: Text): (r: ReadItems)
    ensures r.ReadItems? ==> |r.rest| < |s|
    decreases |s|, 1
  {
    match Read(s)
    case BadValue => BadItems
    case ReadValue(v, after) =>
      var next := SkipBlanks(after);
      if next != [] && next[0] == 93 then ReadItems([v], next[1..])
      else if next != [] && next[0] == COMMA then
        match ReadArray(SkipBlanks(next[1..]))
        case BadItems => BadItems
        case ReadItems(items, rest) => ReadItems([v] + items, rest)
      else BadItems
  }

  /** After `{`: members up to and including `}`, added to those read so far. */
  function ReadObject(s: Text, seen: seq<Member>): (r: ReadMembers)
    ensures r.ReadMembers? ==> |r.rest| < |s|
    decreases |s|, 1
  {
    if s == [] || s[0] != QUOTE then BadMembers
    else
      match ReadString(s[1..])
      case BadText => BadMembers
      case ReadText(key, afterKey) =>
        var colon := SkipBlanks(afterKey);
        if colon == [] || colon[0] != COLON then BadMembers
        else
          match Read(SkipBlanks(colon[1..]))
          case BadValue => BadMembers
          case ReadValue(v, after) =>
            var members := PutMember(seen, Member(key, v));
            var next := SkipBlanks(after);
            if next != [] && next[0] == 125 then ReadMembers(members, next[1..])
            else if next != [] && next[0] == COMMA then ReadObject(SkipBlanks(next[1..]), members)
            else BadMembers
  }

  /** `json.loads`. */
  function Loads(s: Text): Option<Value> {
    match Read(SkipBlanks(s))
    case BadValue => None
    case ReadValue(v, rest) => if SkipBlanks(rest) == [] then Some(v) else None
  }

  // ----- what printing and reading make of a value -----

  /** Read back from the ASCII form, each adjacent surrogate pair of a text has become one character. */
  function NormText(t: Text, ascii: bool): Text {
    if ascii then Merge(t) else t
  }

  function Norm(v: Value, ascii: bool): Value
    decreases v, 0
  {
    match v
    case Str(t) => Str(NormText(t, ascii))
    case Arr(items) => Arr(NormItems(items, ascii))
    case Obj(members) => Obj(PutAll([], NormMembers(members, ascii)))
    case _ => v
  }

  function NormItems(items: seq<Value>, ascii: bool): (r: seq<Value>)
    ensures |r| == |items|
    decreases items, 0
  {
    if items == [] then [] else [Norm(items[0], ascii)] + NormItems(items[1..], ascii)
  }

  function NormMember(m: Member, ascii: bool): Member
    decreases m, 1
  {
    Member(NormText(m.key, ascii), Norm(m.value, ascii))
  }

  function NormMembers(members: seq<Member>, ascii: bool): (r: seq<Member>)
    ensures |r| == |members|
    decreases members, 0
  {
    if members == [] then [] else [NormMember(members[0], ascii)] + NormMembers(members[1..], ascii)
  }

  /** Members read one after the other into a dictionary. */
  function PutAll(seen: seq<Member>, members: seq<Member>): seq<Member>
    decreases |members|
  {
    if members == [] then seen else PutAll(PutMember(seen, members[0]), members[1..])
  }

  // ----- the round trip -----

  /** What may follow a printed value inside a larger print. */
  predicate Delimits(rest: Text) {
    rest == [] || !(IsDigit(rest[0]) || rest[0] == 46 || rest[0] == 69 || rest[0] == 101)
  }

  lemma {:induction false} DigitRunOf(d: Text, rest: Text)
    requires AllDigits(d) && (rest == [] || !IsDigit(rest[0]))
    ensures DigitRun(d + rest) == |d|
  {
    if d == [] {
      assert d + rest == rest;
    } else {
      assert (d + rest)[1..] == d[1..] + rest;
      DigitRunOf(d[1..], rest);
    }
  }

  lemma {:induction false} LeadingZero(n: nat)
    ensures Digits(n)[0] == 48 ==> n == 0
  {
    if n >= 10 {
      LeadingZero(n / 10);
    }
  }

  lemma DigitsRead(n: nat, rest: Text)
    requires Delimits(rest)
    ensures ReadNumber(Digits(n) + rest) == ReadValue(Int(n), rest)
  {
    var d := Digits(n);
    DigitRunOf(d, rest);
    LeadingZero(n);
    ValueOfDigits(n);
    var s := d + rest;
    assert IsDigit(s[0]);
    assert s[..|d|] == d && s[|d|..] == rest;
  }

  lemma MinusReads(n: int, rest: Text)
    requires n > 0 && Delimits(rest)
    ensures ReadNumber([MINUS] + Digits(n) + rest) == ReadValue(Int(-n), rest)
  {
    DigitsRead(n, rest);
    var body := Digits(n) + rest;
    var m := [MINUS] + body;
    assert [MINUS] + Digits(n) + rest == m && m[1..] == body;
    assert IsDigit(body[0]);
    MinusFlips(m, n, rest);
  }

  /** A minus sign negates what is read after it. */
  lemma MinusFlips(s: Text, n: int, rest: Text)
    requires s != [] && s[0] == MINUS && n > 0 && ReadNumber(s[1..]) == ReadValue(Int(n), rest)
    requires s[1..] != [] && IsDigit(s[1..][0])
    ensures ReadNumber(s) == ReadValue(Int(-n), rest)
  {
  }

  lemma NumberReads(n: int, rest: Text)
    requires Delimits(rest)
    ensures Read(PrintInt(n) + rest) == ReadValue(Int(n), rest)
  {
    if n < 0 {
      MinusReads(-n, rest);
    } else {
      DigitsRead(n, rest);
      assert IsDigit((Digits(n) + rest)[0]);
    }
    ReadIsNumber(PrintInt(n) + rest);
  }

  lemma ReadIsNumber(s: Text)
    requires s != [] && (s[0] == MINUS || IsDigit(s[0]))
    ensures Read(s) == ReadNumber(s)
  {
    ReadOther(s, s[0]);
  }

  lemma ReadOther(s: Text, c: int)
    requires s != [] && s[0] == c && c != QUOTE && c != 91 && c != 123 && c != 110 && c != 116 && c != 102
    ensures Read(s) == ReadNumber(s)
  {
  }

  lemma TextReads(t: Text, ascii: bool, rest: Text)
    requires IsText(t)
    ensures (PrintText(t, ascii) + rest)[0] == QUOTE
    ensures ReadString((PrintText(t, ascii) + rest)[1..]) == ReadText(NormText(t, ascii), rest)
  {
    var s := PrintText(t, ascii) + rest;
    assert s[1..] == Escape(t, ascii) + [QUOTE] + rest;
    if ascii {
      AsciiStringReads(t, rest);
    } else {
      RawStringReads(t, rest);
    }
  }

  /** A printed value starts with neither a blank nor a closing bracket. */
  lemma PrintStarts(v: Value, ascii: bool)
    requires IsValue(v)
    ensures Print(v, ascii) != []
    ensures !IsBlank(Print(v, ascii)[0]) && Print(v, ascii)[0] != 93 && Print(v, ascii)[0] != 125
  {
    if v.Int? {
      assert IsDigit(Digits(if v.n < 0 then -v.n else v.n)[0]);
    }
  }

  lemma NoBlanks(s: Text)
    requires s == [] || !IsBlank(s[0])
    ensures SkipBlanks(s) == s && SkipBlanks([SPACE] + s) == s
  {
    assert ([SPACE] + s)[1..] == s;
  }

  lemma {:induction false} ValueReads(v: Value, ascii: bool, rest: Text)
    requires IsValue(v) && Delimits(rest)
    ensures Read(Print(v, ascii) + rest) == ReadValue(Norm(v, ascii), rest)
    decreases v, 0
  {
    var s := Print(v, ascii) + rest;
    match v
    case Null => assert s[..4] == NULL && s[4..] == rest;
    case Bool(b) => LiteralReads(b, rest);
    case Int(n) => NumberReads(n, rest);
    case Str(t) => TextReads(t, ascii, rest);
    case Arr(items) => ArrayReads(items, ascii, rest);
    case Obj(members) => ObjectReads(members, ascii, rest);
  }

  lemma LiteralReads(b: bool, rest: Text)
    ensures Read((if b then TRUE else FALSE) + rest) == ReadValue(Bool(b), rest)
  {
    var t := if b then TRUE else FALSE;
    var s := t + rest;
    assert s[..|t|] == t && s[|t|..] == rest && s[0] == t[0];
  }

  lemma {:induction false} ArrayReads(items: seq<Value>, ascii: bool, rest: Text)
    requires forall i :: 0 <= i < |items| ==> IsValue(items[i])
    ensures Read([91] + PrintItems(items, ascii) + [93] + rest) == ReadValue(Norm(Arr(items), ascii), rest)
    decreases items, 1
  {
    var s := [91] + PrintItems(items, ascii) + [93] + rest;
    var inside := PrintItems(items, ascii) + [93] + rest;
    assert s[1..] == inside;
    if items == [] {
      assert inside[0] == 93 && inside[1..] == rest;
      NoBlanks(inside);
    } else {
      ItemsStart(items, ascii, [93] + rest);
      assert inside == PrintItems(items, ascii) + ([93] + rest);
      NoBlanks(inside);
      ItemsRead(items, ascii, rest);
    }
  }

  lemma ArrayEnds(s: Text, v: Value, rest: Text)
    requires Read(s) == ReadValue(v, [93] + rest)
    ensures ReadArray(s) == ReadItems([v], rest)
  {
    var after := [93] + rest;
    assert after[0] == 93 && after[1..] == rest;
  }

  lemma ArrayGoesOn(s: Text, v: Value, more: Text, items: seq<Value>, rest: Text)
    requires Read(s) == ReadValue(v, [COMMA] + ([SPACE] + more)) && |more| < |s|
    requires more != [] && !IsBlank(more[0]) && ReadArray(more) == ReadItems(items, rest)
    ensures ReadArray(s) == ReadItems([v] + items, rest)
  {
    var after := [COMMA] + ([SPACE] + more);
    assert after[0] == COMMA && after[1..] == [SPACE] + more;
    NoBlanks(after);
    NoBlanks(more);
  }

  lemma ItemsStart(items: seq<Value>, ascii: bool, tail: Text)
    requires items != [] && forall i :: 0 <= i < |items| ==> IsValue(items[i])
    ensures PrintItems(items, ascii) != []
    ensures !IsBlank((PrintItems(items, ascii) + tail)[0]) && (PrintItems(items, ascii) + tail)[0] != 93
  {
    PrintStarts(items[0], ascii);
  }

  lemma Regroup(a: Text, b: Text, close: int, rest: Text)
    ensures a + [COMMA, SPACE] + b + [close] + rest == a + ([COMMA] + ([SPACE] + (b + [close] + rest)))
    ensures a + [close] + rest == a + ([close] + rest)
    ensures b + [close] + rest == b + ([close] + rest)
  {
  }

  lemma {:induction false} ItemsRead(items: seq<Value>, ascii: bool, rest: Text)
    requires items != [] && forall i :: 0 <= i < |items| ==> IsValue(items[i])
    ensures ReadArray(PrintItems(items, ascii) + [93] + rest) == ReadItems(NormItems(items, ascii), rest)
    decreases items, 0
  {
    var v, s := items[0], PrintItems(items, ascii) + [93] + rest;
    if |items| == 1 {
      var after := [93] + rest;
      Regroup(Print(v, ascii), [], 93, rest);
      ValueReads(v, ascii, after);
      ArrayEnds(s, Norm(v, ascii), rest);
      assert NormItems(items[1..], ascii) == [];
    } else {
      var more := PrintItems(items[1..], ascii) + [93] + rest;
      var after := [COMMA] + ([SPACE] + more);
      Regroup(Print(v, ascii), PrintItems(items[1..], ascii), 93, rest);
      ValueReads(v, ascii, after);
      ItemsStart(items[1..], ascii, [93] + rest);
      ItemsRead(items[1..], ascii, rest);
      ArrayGoesOn(s, Norm(v, ascii), more, NormItems(items[1..], ascii), rest);
    }
  }

  lemma {:induction false} ObjectReads(members: seq<Member>, ascii: bool, rest: Text)
    requires forall i :: 0 <= i < |members| ==> IsMember(members[i])
    ensures Read([123] + PrintMembers(members, ascii) + [125] + rest) == ReadValue(Norm(Obj(members), ascii), rest)
    decreases members, 2
  {
    var inside := PrintMembers(members, ascii) + [125] + rest;
    assert [123] + PrintMembers(members, ascii) + [125] + rest == [123] + inside;
    if members == [] {
      assert inside == [125] + rest;
      EmptyObjectReads(rest);
    } else {
      MembersStart(members, ascii, [125] + rest);
      assert inside == PrintMembers(members, ascii) + ([125] + rest);
      MembersRead(members, [], ascii, rest);
      ObjectOpens(inside, PutAll([], NormMembers(members, ascii)), rest);
    }
  }

  lemma EmptyObjectReads(rest: Text)
    ensures Read([123] + ([125] + rest)) == ReadValue(Obj([]), rest)
  {
    var s := [123] + ([125] + rest);
    assert s[1..] == [125] + rest && ([125] + rest)[1..] == rest;
    NoBlanks([125] + rest);
  }

  lemma ObjectOpens(inside: Text, members: seq<Member>, rest: Text)
    requires inside != [] && inside[0] == QUOTE && ReadObject(inside, []) == ReadMembers(members, rest)
    ensures Read([123] + inside) == ReadValue(Obj(members), rest)
  {
    assert ([123] + inside)[1..] == inside;
    NoBlanks(inside);
  }

  lemma MembersStart(members: seq<Member>, ascii: bool, tail: Text)
    requires members != [] && forall i :: 0 <= i < |members| ==> IsMember(members[i])
    ensures PrintMembers(members, ascii) != [] && (PrintMembers(members, ascii) + tail)[0] == QUOTE
  {
    assert PrintMember(members[0], ascii)[0] == PrintText(members[0].key, ascii)[0] == QUOTE;
  }

  /** The text begins with this member, and `after` follows it. */
  ghost predicate BeginsWith(s: Text, m: Member, after: Text) {
    && s != [] && s[0] == QUOTE && ReadString(s[1..]).ReadText? && ReadString(s[1..]).text == m.key
    && var colon := SkipBlanks(ReadString(s[1..]).rest);
       colon != [] && colon[0] == COLON && Read(SkipBlanks(colon[1..])) == ReadValue(m.value, after)
  }

  lemma {:induction false} MemberReads(m: Member, ascii: bool, after: Text)
    requires IsMember(m) && Delimits(after)
    ensures BeginsWith(PrintMember(m, ascii) + after, NormMember(m, ascii), after)
    decreases m, 0
  {
    var s := PrintMember(m, ascii) + after;
    var value := Print(m.value, ascii) + after;
    var colon := [COLON] + ([SPACE] + value);
    assert s == PrintText(m.key, ascii) + colon;
    TextReads(m.key, ascii, colon);
    NoBlanks(colon);
    assert colon[1..] == [SPACE] + value;
    PrintStarts(m.value, ascii);
    assert value[0] == Print(m.value, ascii)[0];
    NoBlanks(value);
    ValueReads(m.value, ascii, after);
  }

  lemma ObjectEnds(s: Text, seen: seq<Member>, m: Member, rest: Text)
    requires BeginsWith(s, m, [125] + rest)
    ensures ReadObject(s, seen) == ReadMembers(PutMember(seen, m), rest)
  {
    var after := [125] + rest;
    assert after[0] == 125 && after[1..] == rest && m == Member(m.key, m.value);
    NoBlanks(after);
  }

  lemma ObjectGoesOn(s: Text, seen: seq<Member>, m: Member, more: Text)
    requires BeginsWith(s, m, [COMMA] + ([SPACE] + more)) && more != [] && more[0] == QUOTE
    ensures ReadObject(s, seen) == ReadObject(more, PutMember(seen, m))
  {
    var after := [COMMA] + ([SPACE] + more);
    assert after[0] == COMMA && after[1..] == [SPACE] + more && m == Member(m.key, m.value);
    NoBlanks(after);
    NoBlanks(more);
  }

  /** What follows the first of these members in their print. */
  function AfterFirst(members: seq<Member>, ascii: bool, rest: Text): Text
    requires members != [] && forall i :: 0 <= i < |members| ==> IsMember(members[i])
  {
    if |members| == 1 then [125] + rest
    else [COMMA] + ([SPACE] + (PrintMembers(members[1..], ascii) + [125] + rest))
  }

  lemma {:induction false} MembersBegin(members: seq<Member>, ascii: bool, rest: Text)
    requires members != [] && forall i :: 0 <= i < |members| ==> IsMember(members[i])
    ensures BeginsWith(PrintMembers(members, ascii) + [125] + rest,
                       NormMember(members[0], ascii), AfterFirst(members, ascii, rest))
    decreases members, 0
  {
    if |members| == 1 {
      Regroup(PrintMember(members[0], ascii), [], 125, rest);
    } else {
      Regroup(PrintMember(members[0], ascii), PrintMembers(members[1..], ascii), 125, rest);
    }
    MemberReads(members[0], ascii, AfterFirst(members, ascii, rest));
  }

  lemma {:induction false} MembersRead(members: seq<Member>, seen: seq<Member>, ascii: bool, rest: Text)
    requires members != [] && forall i :: 0 <= i < |members| ==> IsMember(members[i])
    ensures ReadObject(PrintMembers(members, ascii) + [125] + rest, seen)
      == ReadMembers(PutAll(seen, NormMembers(members, ascii)), rest)
    decreases members, 1
  {
    var m, s := NormMember(members[0], ascii), PrintMembers(members, ascii) + [125] + rest;
    MembersBegin(members, ascii, rest);
    PutFirst(seen, members, ascii);
    if |members| == 1 {
      ObjectEnds(s, seen, m, rest);
    } else {
      MembersGoOn(members, seen, ascii, rest);
      MembersRead(members[1..], PutMember(seen, m), ascii, rest);
    }
  }

  lemma PutFirst(seen: seq<Member>, members: seq<Member>, ascii: bool)
    requires members != []
    ensures PutAll(seen, NormMembers(members, ascii))
      == PutAll(PutMember(seen, NormMember(members[0], ascii)), NormMembers(members[1..], ascii))
  {
    var all := NormMembers(members, ascii);
    assert all[0] == NormMember(members[0], ascii) && all[1..] == NormMembers(members[1..], ascii);
  }

  lemma MembersGoOn(members: seq<Member>, seen: seq<Member>, ascii: bool, rest: Text)
    requires |members| > 1 && forall i :: 0 <= i < |members| ==> IsMember(members[i])
    requires BeginsWith(PrintMembers(members, ascii) + [125] + rest,
                        NormMember(members[0], ascii), AfterFirst(members, ascii, rest))
    ensures ReadObject(PrintMembers(members, ascii) + [125] + rest, seen)
         == ReadObject(PrintMembers(members[1..], ascii) + [125] + rest, PutMember(seen, NormMember(members[0], ascii)))
  {
    var more := PrintMembers(members[1..], ascii) + [125] + rest;
    MembersStart(members[1..], ascii, [125] + rest);
    assert more == PrintMembers(members[1..], ascii) + ([125] + rest);
    ObjectGoesOn(PrintMembers(members, ascii) + [125] + rest, seen, NormMember(members[0], ascii), more);
  }

  /** `json.loads(json.dumps(v))`, for every value: its texts with adjacent surrogate pairs joined. */
  lemma LoadsPrints(v: Value, ascii: bool)
    requires IsValue(v)
    ensures Loads(Print(v, ascii)) == Some(Norm(v, ascii))
  {
    PrintStarts(v, ascii);
    NoBlanks(Print(v, ascii));
    assert Print(v, ascii) + [] == Print(v, ascii);
    ValueReads(v, ascii, []);
  }

  // ----- what stands around a value -----

  /** Spaces, tabs and line ends only. */
  predicate Blanks(s: Text) {
    forall i :: 0 <= i < |s| ==> s[i] in {9, 10, 13, 32}
  }

  lemma {:induction false} SkipBlanksIff(s: Text)
    ensures Blanks(s) <==> SkipBlanks(s) == []
    decreases |s|
  {
    if s != [] && IsBlank(s[0]) {
      SkipBlanksIff(s[1..]);
      assert s == [s[0]] + s[1..];
    }
  }

  lemma {:induction false} BlanksSkipped(blank: Text, s: Text)
    requires Blanks(blank) && (s == [] || !IsBlank(s[0]))
    ensures SkipBlanks(blank + s) == s
    decreases |blank|
  {
    if blank == [] {
      assert blank + s == s;
    } else {
      assert (blank + s)[1..] == blank[1..] + s;
      BlanksSkipped(blank[1..], s);
    }
  }

  /**
   A dumped value between other text is loaded if and only if that text is blank, for text after
   it that cannot go on a number.
   */
  lemma LoadsPadded(v: Value, ascii: bool, left: Text, right: Text)
    requires IsValue(v) && Blanks(left) && Delimits(right)
    ensures Loads(left + Print(v, ascii) + right) == if Blanks(right) then Some(Norm(v, ascii)) else None
  {
    var s := Print(v, ascii) + right;
    PrintStarts(v, ascii);
    BlanksSkipped(left, s);
    assert left + Print(v, ascii) + right == left + s;
    ValueReads(v, ascii, right);
    SkipBlanksIff(right);
  }

  /** A number with a leading zero is not loaded. */
  lemma LeadingZeroRejected(d: Text)
    requires d != [] && AllDigits(d)
    ensures Loads([48] + d) == None
  {
    var s := [48] + d;
    NoBlanks(s);
    ReadIsNumber(s);
    assert s[1..] == d;
    NoBlanks(d);
  }

  // ----- exactly what survives -----

  predicate TextSurvives(t: Text, ascii: bool) {
    ascii ==> NoSplitPair(t)
  }

  /** Every text of the value, keys included, survives this printing. */
  predicate Survives(v: Value, ascii: bool) {
    match v
    case Str(t) => TextSurvives(t, ascii)
    case Arr(items) => forall i :: 0 <= i < |items| ==> Survives(items[i], ascii)
    case Obj(members) => forall i :: 0 <= i < |members| ==> MemberSurvives(members[i], ascii)
    case _ => true
  }

  predicate MemberSurvives(m: Member, ascii: bool) {
    TextSurvives(m.key, ascii) && Survives(m.value, ascii)
  }

  lemma {:induction false} PutNew(members: seq<Member>, m: Member)
    requires forall i :: 0 <= i < |members| ==> members[i].key != m.key
    ensures PutMember(members, m) == members + [m]
  {
    if members != [] {
      PutNew(members[1..], m);
    }
  }

  /** Each member's key differs from all before it. */
  ghost predicate FreshKeys(seen: seq<Member>, members: seq<Member>)
    decreases members
  {
    members == [] ||
    (PutMember(seen, members[0]) == seen + [members[0]] && FreshKeys(seen + [members[0]], members[1..]))
  }

  lemma {:induction false} DistinctIsFresh(seen: seq<Member>, members: seq<Member>)
    requires DistinctKeys(seen + members)
    ensures FreshKeys(seen, members)
    decreases members
  {
    if members != [] {
      forall i | 0 <= i < |seen| ensures seen[i].key != members[0].key {
        assert (seen + members)[i] == seen[i] && (seen + members)[|seen|] == members[0];
      }
      PutNew(seen, members[0]);
      assert seen + [members[0]] + members[1..] == seen + members;
      DistinctIsFresh(seen + [members[0]], members[1..]);
    }
  }

  lemma {:induction false} FreshPut(seen: seq<Member>, members: seq<Member>)
    requires FreshKeys(seen, members)
    ensures PutAll(seen, members) == seen + members
    decreases members
  {
    if members != [] {
      FreshPut(seen + [members[0]], members[1..]);
      ConsAssoc(seen, members);
    }
  }

  lemma ConsAssoc(seen: seq<Member>, members: seq<Member>)
    requires members != []
    ensures seen + [members[0]] + members[1..] == seen + members
  {
  }

  /** Members with distinct keys are put one after the other. */
  lemma PutDistinct(members: seq<Member>)
    requires DistinctKeys(members)
    ensures PutAll([], members) == members
  {
    assert [] + members == members;
    DistinctIsFresh([], members);
    FreshPut([], members);
  }

  lemma {:induction false} PutGrows(members: seq<Member>, m: Member)
    ensures |members| <= |PutMember(members, m)| <= |members| + 1
    ensures |PutMember(members, m)| == |members| + 1 ==> PutMember(members, m) == members + [m]
  {
    if members != [] && members[0].key != m.key {
      PutGrows(members[1..], m);
    }
  }

  /** A dictionary that lost no member kept them all as they came. */
  lemma {:induction false} PutAllGrows(seen: seq<Member>, members: seq<Member>)
    ensures |PutAll(seen, members)| <= |seen| + |members|
    ensures |PutAll(seen, members)| == |seen| + |members| ==> PutAll(seen, members) == seen + members
    decreases |members|
  {
    if members != [] {
      PutGrows(seen, members[0]);
      PutAllGrows(PutMember(seen, members[0]), members[1..]);
      ConsAssoc(seen, members);
    }
  }

  lemma TextSurvivesIff(t: Text, ascii: bool)
    ensures NormText(t, ascii) == t <==> TextSurvives(t, ascii)
  {
    MergeShortens(t);
  }

  lemma {:induction false} SurvivesIff(v: Value, ascii: bool)
    requires IsValue(v)
    ensures Norm(v, ascii) == v <==> Survives(v, ascii)
    decreases v, 0
  {
    match v
    case Str(t) => TextSurvivesIff(t, ascii);
    case Arr(items) =>
      ItemsSurviveIff(items, ascii);
    case Obj(members) =>
      var normed := NormMembers(members, ascii);
      MembersSurviveIff(members, ascii);
      PutAllGrows([], normed);
      assert [] + normed == normed;
      PutDistinct(members);
    case _ =>
  }

  lemma {:induction false} ItemsSurviveIff(items: seq<Value>, ascii: bool)
    requires forall i :: 0 <= i < |items| ==> IsValue(items[i])
    ensures NormItems(items, ascii) == items <==> forall i :: 0 <= i < |items| ==> Survives(items[i], ascii)
    decreases items, 1
  {
    if items != [] {
      SurvivesIff(items[0], ascii);
      ItemsSurviveIff(items[1..], ascii);
      assert items == [items[0]] + items[1..];
      assert NormItems(items, ascii) == items <==>
        Norm(items[0], ascii) == items[0] && NormItems(items[1..], ascii) == items[1..] by {
        assert NormItems(items, ascii)[1..] == NormItems(items[1..], ascii);
      }
    }
  }

  lemma {:induction false} MembersSurviveIff(members: seq<Member>, ascii: bool)
    requires forall i :: 0 <= i < |members| ==> IsMember(members[i])
    ensures NormMembers(members, ascii) == members <==>
      forall i :: 0 <= i < |members| ==> MemberSurvives(members[i], ascii)
    decreases members, 1
  {
    if members != [] {
      TextSurvivesIff(members[0].key, ascii);
      SurvivesIff(members[0].value, ascii);
      MembersSurviveIff(members[1..], ascii);
      assert members == [members[0]] + members[1..];
      assert NormMembers(members, ascii) == members
        <==> NormMember(members[0], ascii) == members[0] && NormMembers(members[1..], ascii) == members[1..] by {
        assert NormMembers(members, ascii)[1..] == NormMembers(members[1..], ascii);
      }
    }
  }

  /** A value is loaded back as it was dumped if and only if none of its texts has a split surrogate pair. */
  lemma RoundTripIff(v: Value, ascii: bool)
    requires IsValue(v)
    ensures Loads(Print(v, ascii)) == Some(v) <==> Survives(v, ascii)
  {
    LoadsPrints(v, ascii);
    SurvivesIff(v, ascii);
  }

  /** Values that survive print differently when they differ. */
  lemma PrintInjective(v: Value, w: Value, ascii: bool)
    requires IsValue(v) && IsValue(w) && Survives(v, ascii) && Survives(w, ascii) && Print(v, ascii) == Print(w, ascii)
    ensures v == w
  {
    RoundTripIff(v, ascii);
    RoundTripIff(w, ascii);
  }

  // ----- what a print consists of -----

  /** Every code point of the text is visible ASCII or a space: in particular no newline. */
  predicate IsVisible(t: Text) {
    forall i :: 0 <= i < |t| ==> 32 <= t[i] < 127
  }

  lemma {:induction false} EscapeIsVisible(t: Text)
    requires IsText(t)
    ensures IsVisible(Escape(t, true))
  {
    if t != [] {
      EscapeCharIsVisible(t[0]);
      EscapeIsVisible(t[1..]);
    }
  }

  lemma UEscapeIsVisible(n: int)
    requires 0 <= n < 0x10000
    ensures IsVisible(UEscape(n))
  {
    HexDigits(n);
  }

  lemma EscapeCharIsVisible(c: int)
    requires IsCodePoint(c)
    ensures IsVisible(EscapeChar(c, true))
  {
    if c < 0x10000 {
      UEscapeIsVisible(c);
    } else {
      SplitJoins(c);
      UEscapeIsVisible(HighOf(c));
      UEscapeIsVisible(LowOf(c));
    }
  }

  lemma {:induction false} PrintIsAscii(v: Value)
    requires IsValue(v)
    ensures IsVisible(Print(v, true))
    decreases v, 0
  {
    match v
    case Null =>
    case Bool(_) =>
    case Int(n) => assert AllDigits(Digits(if n < 0 then -n else n));
    case Str(t) => EscapeIsVisible(t);
    case Arr(items) => ItemsAreAscii(items);
    case Obj(members) => MembersAreAscii(members);
  }

  lemma {:induction false} ItemsAreAscii(items: seq<Value>)
    requires forall i :: 0 <= i < |items| ==> IsValue(items[i])
    ensures IsVisible(PrintItems(items, true))
    decreases items, 0
  {
    if items != [] {
      PrintIsAscii(items[0]);
      if |items| > 1 {
        ItemsAreAscii(items[1..]);
      }
    }
  }

  lemma {:induction false} MembersAreAscii(members: seq<Member>)
    requires forall i :: 0 <= i < |members| ==> IsMember(members[i])
    ensures IsVisible(PrintMembers(members, true))
    decreases members, 0
  {
    if members != [] {
      EscapeIsVisible(members[0].key);
      PrintIsAscii(members[0].value);
      if |members| > 1 {
        MembersAreAscii(members[1..]);
      }
    }
  }

  /** No control characters, so a print is always one line. */
  predicate NoControls(t: Text) {
    forall i :: 0 <= i < |t| ==> t[i] >= 32
  }

  lemma {:induction false} EscapeHasNoControls(t: Text, ascii: bool)
    requires IsText(t)
    ensures NoControls(Escape(t, ascii))
  {
    if t != [] {
      var c := t[0];
      if c < 0x10000 {
        UEscapeIsVisible(c);
      } else {
        SplitJoins(c);
        UEscapeIsVisible(HighOf(c));
        UEscapeIsVisible(LowOf(c));
      }
      assert NoControls(EscapeChar(c, ascii));
      EscapeHasNoControls(t[1..], ascii);
    }
  }

  lemma {:induction false} PrintHasNoControls(v: Value, ascii: bool)
    requires IsValue(v)
    ensures NoControls(Print(v, ascii))
    decreases v, 0
  {
    match v
    case Null =>
    case Bool(_) =>
    case Int(n) => assert AllDigits(Digits(if n < 0 then -n else n));
    case Str(t) => EscapeHasNoControls(t, ascii);
    case Arr(items) => ItemsHaveNoControls(items, ascii);
    case Obj(members) => MembersHaveNoControls(members, ascii);
  }

  lemma {:induction false} ItemsHaveNoControls(items: seq<Value>, ascii: bool)
    requires forall i :: 0 <= i < |items| ==> IsValue(items[i])
    ensures NoControls(PrintItems(items, ascii))
    decreases items, 0
  {
    if items != [] {
      PrintHasNoControls(items[0], ascii);
      if |items| > 1 {
        ItemsHaveNoControls(items[1..], ascii);
      }
    }
  }

  lemma {:induction false} MembersHaveNoControls(members: seq<Member>, ascii: bool)
    requires forall i :: 0 <= i < |members| ==> IsMember(members[i])
    ensures NoControls(PrintMembers(members, ascii))
    decreases members, 0
  {
    if members != [] {
      EscapeHasNoControls(members[0].key, ascii);
      PrintHasNoControls(members[0].value, ascii);
      if |members| > 1 {
        MembersHaveNoControls(members[1..], ascii);
      }
    }
  }
}
