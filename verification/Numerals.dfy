/**
 Which bytes the lease holder reads as a number (`int(line[5:])` at scripts/host_memory.py:513),
 as a grammar: blanks around an optional sign and digits with single underscores between them.
 */
module Numerals {
  import opened Wrappers
  import opened Decimal
  import opened LeaseHolder

  /** Spaces, tabs, line ends, vertical tabs and form feeds only. */
  predicate Blank(s: seq<int>) {
    forall i :: 0 <= i < |s| ==> s[i] in {9, 10, 11, 12, 13, 32}
  }

  /** The numeral's last digit, and before it nothing, another numeral, or one and an underscore. */
  predicate Reads(s: seq<int>, n: nat)
    decreases |s|
  {
    && s != []
    && var k := |s| - 1;
       && 48 <= s[k] <= 57 && n % 10 == s[k] - 48
       && (if k == 0 then n < 10 else if s[k - 1] == 95 then Reads(s[..k - 1], n / 10) else Reads(s[..k], n / 10))
  }

  predicate ReadsSigned(s: seq<int>, v: int) {
    || (v >= 0 && (Reads(s, v) || (s != [] && s[0] == 43 && Reads(s[1..], v))))
    || (v <= 0 && s != [] && s[0] == 45 && Reads(s[1..], -v))
  }

  // ----- digits and underscores -----

  lemma {:induction false} DropJoins(a: seq<int>, b: seq<int>)
    requires forall i :: 0 <= i < |a| ==> IsDigit(a[i]) || a[i] == 95
    requires forall i :: 0 <= i < |b| ==> IsDigit(b[i]) || b[i] == 95
    ensures DropUnderscores(a + b) == DropUnderscores(a) + DropUnderscores(b)
    decreases |a|
  {
    if a == [] {
      assert a + b == b;
    } else {
      assert (a + b)[1..] == a[1..] + b;
      DropJoins(a[1..], b);
    }
  }

  lemma ValueOfLast(s: seq<int>, d: int)
    requires AllDigits(s) && IsDigit(d)
    ensures Value(s + [d]) == 10 * Value(s) + (d - 48)
  {
    assert (s + [d])[..|s|] == s;
  }

  lemma DropsNone(d: int)
    requires IsDigit(d) || d == 95
    ensures DropUnderscores([d]) == if d == 95 then [] else [d]
  {
    assert [d][1..] == [];
  }

  /** What stands before the last digit. */
  function Shorter(s: seq<int>): seq<int>
    requires |s| > 1
  {
    if s[|s| - 2] == 95 then s[..|s| - 2] else s[..|s| - 1]
  }

  lemma NumeralStep(s: seq<int>)
    requires |s| > 1
    ensures IsNumeral(s) <==> IsNumeral(Shorter(s)) && IsDigit(s[|s| - 1])
  {
    var t := Shorter(s);
    assert t <= s;
    if IsNumeral(t) && IsDigit(s[|s| - 1]) {
      assert forall i :: 0 <= i < |t| ==> s[i] == t[i];
    }
    if IsNumeral(s) {
      assert s[|s| - 2] == 95 ==> IsDigit(s[|s| - 3]);
      assert s[0] != 95;
    }
  }

  predicate Marks(s: seq<int>) {
    forall i :: 0 <= i < |s| ==> IsDigit(s[i]) || s[i] == 95
  }

  lemma ValueOfOneMore(t: seq<int>, d: int)
    requires Marks(t) && IsDigit(d)
    ensures Marks(t + [d]) && Value(DropUnderscores(t + [d])) == 10 * Value(DropUnderscores(t)) + (d - 48)
  {
    DropsNone(d);
    DropJoins(t, [d]);
    ValueOfLast(DropUnderscores(t), d);
  }

  lemma DropsUnderscore(t: seq<int>)
    requires Marks(t)
    ensures Marks(t + [95]) && DropUnderscores(t + [95]) == DropUnderscores(t)
  {
    DropsNone(95);
    DropJoins(t, [95]);
    assert DropUnderscores(t) + [] == DropUnderscores(t);
  }

  lemma ShorterIs(s: seq<int>)
    requires |s| > 1
    ensures s == Shorter(s) + (if s[|s| - 2] == 95 then [95] else []) + [s[|s| - 1]]
  {
  }

  lemma ValueOfLonger(t: seq<int>, mark: seq<int>, d: int)
    requires Marks(t) && IsDigit(d) && (mark == [] || mark == [95])
    ensures Marks(t + mark + [d])
    ensures Value(DropUnderscores(t + mark + [d])) == 10 * Value(DropUnderscores(t)) + (d - 48)
  {
    if mark == [] {
      assert t + mark == t;
    } else {
      DropsUnderscore(t);
    }
    ValueOfOneMore(t + mark, d);
  }

  lemma ValueStep(s: seq<int>)
    requires |s| > 1 && IsNumeral(s) && IsNumeral(Shorter(s))
    ensures Value(DropUnderscores(s)) == 10 * Value(DropUnderscores(Shorter(s))) + (s[|s| - 1] - 48)
  {
    ShorterIs(s);
    ValueOfLonger(Shorter(s), if s[|s| - 2] == 95 then [95] else [], s[|s| - 1]);
  }

  lemma {:induction false} ReadsIff(s: seq<int>, n: nat)
    ensures Reads(s, n) <==> IsNumeral(s) && Value(DropUnderscores(s)) == n
    decreases |s|
  {
    if |s| == 1 {
      OneDigit(s, n);
    } else if |s| > 1 {
      ReadsIff(Shorter(s), n / 10);
      NumeralStep(s);
      if IsNumeral(s) {
        ValueStep(s);
      }
    }
  }

  lemma OneDigit(s: seq<int>, n: nat)
    requires |s| == 1
    ensures Reads(s, n) <==> IsNumeral(s) && Value(DropUnderscores(s)) == n
  {
    if IsDigit(s[0]) {
      DropsNone(s[0]);
      assert s == [s[0]];
      ValueOfLast([], s[0]);
      assert [] + [s[0]] == s;
    }
  }

  // ----- blanks around it -----

  lemma {:induction false} LeftOff(text: seq<int>) returns (i: nat)
    ensures i <= |text| && StripLeft(text) == text[i..] && Blank(text[..i])
    decreases |text|
  {
    i := 0;
    if text != [] && IsSpace(text[0]) {
      var rest := text[1..];
      var k := LeftOff(rest);
      i := k + 1;
      BlankCons(text, k);
    }
  }

  lemma BlankCons(text: seq<int>, k: nat)
    requires k < |text| && IsSpace(text[0]) && Blank(text[1..][..k])
    ensures Blank(text[..k + 1]) && text[1..][k..] == text[k + 1..]
  {
    assert text[..k + 1] == [text[0]] + text[1..][..k];
  }

  lemma {:induction false} RightOff(text: seq<int>) returns (j: nat)
    ensures j <= |text| && StripRight(text) == text[..j] && Blank(text[j..])
    decreases |text|
  {
    j := |text|;
    if text != [] && IsSpace(text[|text| - 1]) {
      var init := text[..|text| - 1];
      j := RightOff(init);
      BlankSnoc(text, j);
    }
  }

  lemma BlankSnoc(text: seq<int>, j: nat)
    requires j < |text| && IsSpace(text[|text| - 1]) && Blank(text[..|text| - 1][j..])
    ensures Blank(text[j..]) && text[..|text| - 1][..j] == text[..j]
  {
    assert text[j..] == text[..|text| - 1][j..] + [text[|text| - 1]];
  }

  lemma {:induction false} LeftIs(blank: seq<int>, rest: seq<int>)
    requires Blank(blank) && rest != [] && !IsSpace(rest[0])
    ensures StripLeft(blank + rest) == rest
    decreases |blank|
  {
    if blank == [] {
      assert blank + rest == rest;
    } else {
      assert (blank + rest)[1..] == blank[1..] + rest;
      LeftIs(blank[1..], rest);
    }
  }

  lemma {:induction false} RightIs(rest: seq<int>, blank: seq<int>)
    requires Blank(blank) && rest != [] && !IsSpace(rest[|rest| - 1])
    ensures StripRight(rest + blank) == rest
    decreases |blank|
  {
    if blank == [] {
      assert rest + blank == rest;
    } else {
      var n := |blank| - 1;
      assert (rest + blank)[..|rest| + n] == rest + blank[..n];
      RightIs(rest, blank[..n]);
    }
  }

  /** Text is a number in blanks. */
  ghost predicate NumberIn(text: seq<int>, v: int) {
    exists i, j :: 0 <= i <= j <= |text| && Surrounds(text, i, j) && ReadsSigned(text[i..j], v)
  }

  predicate Surrounds(text: seq<int>, i: int, j: int)
    requires 0 <= i <= j <= |text|
  {
    Blank(text[..i]) && Blank(text[j..])
  }

  lemma SignedEnds(s: seq<int>, v: int)
    requires ReadsSigned(s, v)
    ensures s != [] && !IsSpace(s[0]) && !IsSpace(s[|s| - 1])
  {
    if Reads(s, if v >= 0 then v else -v) {
      ReadsIff(s, if v >= 0 then v else -v);
    }
  }

  lemma StrippedIs(text: seq<int>, i: nat, j: nat, v: int)
    requires i <= j <= |text| && Surrounds(text, i, j) && ReadsSigned(text[i..j], v)
    ensures StripRight(StripLeft(text)) == text[i..j]
  {
    var s := text[i..j];
    SignedEnds(s, v);
    assert text == text[..i] + text[i..] && text[i..] == s + text[j..];
    LeftIs(text[..i], text[i..]);
    RightIs(s, text[j..]);
  }

  lemma BodyIff(body: seq<int>, v: int)
    ensures v >= 0 && Reads(body, v) <==> IsNumeral(body) && Value(DropUnderscores(body)) == v
  {
    if v >= 0 {
      ReadsIff(body, v);
    }
  }

  lemma NoSignInside(s: seq<int>, v: int)
    requires s != [] && (s[0] == 43 || s[0] == 45) && v >= 0
    ensures !Reads(s, v)
  {
    ReadsIff(s, v);
  }

  lemma SignedIff(s: seq<int>, v: int)
    ensures ReadsSigned(s, v) <==> ParseSigned(s) == Some(v)
  {
    if s != [] && s[0] == 43 {
      BodyIff(s[1..], v);
      if v >= 0 { NoSignInside(s, v); }
    } else if s != [] && s[0] == 45 {
      BodyIff(s[1..], -v);
      if v >= 0 { NoSignInside(s, v); }
    } else {
      BodyIff(s, v);
    }
  }

  /** The holder reads a number exactly from blanks around an optional sign and a numeral. */
  lemma ParseIntIff(text: seq<int>, v: int)
    ensures ParseInt(text) == Some(v) <==> NumberIn(text, v)
  {
    if i, j :| 0 <= i <= j <= |text| && Surrounds(text, i, j) && ReadsSigned(text[i..j], v) {
      StrippedIs(text, i, j, v);
      SignedIff(text[i..j], v);
    }
    if ParseInt(text) == Some(v) {
      var i, j := Blanks(text);
      SignedIff(text[i..j], v);
    }
  }

  lemma Blanks(text: seq<int>) returns (i: nat, j: nat)
    ensures i <= j <= |text| && Surrounds(text, i, j) && StripRight(StripLeft(text)) == text[i..j]
  {
    i := LeftOff(text);
    var k := RightOff(text[i..]);
    j := i + k;
    assert text[i..][..k] == text[i..j] && text[i..][k..] == text[j..];
  }
}
