/** Where a line ends in a text of code points or bytes. */
module Newlines {
  const NEWLINE := 10

  /** Index of the first newline, or the length. */
  function LineEnd(s: seq<int>): (k: nat)
    ensures k <= |s| && NEWLINE !in s[..k]
    ensures k < |s| ==> s[k] == NEWLINE
  {
    if s == [] || s[0] == NEWLINE then 0
    else
      var k := LineEnd(s[1..]) + 1;
      assert s[..k] == [s[0]] + s[1..][..k - 1];
      k
  }

  lemma {:induction false} LineEndAt(a: seq<int>, b: seq<int>)
    requires NEWLINE !in a
    ensures LineEnd(a + [NEWLINE] + b) == |a|
  {
    if a != [] {
      assert (a + [NEWLINE] + b)[1..] == a[1..] + [NEWLINE] + b;
      assert a[0] in a;
      LineEndAt(a[1..], b);
    }
  }

  lemma {:induction false} LineEndOfAppend(a: seq<int>, b: seq<int>)
    requires LineEnd(a) < |a|
    ensures LineEnd(a + b) == LineEnd(a)
  {
    if a[0] != NEWLINE {
      assert (a + b)[1..] == a[1..] + b;
      LineEndOfAppend(a[1..], b);
    }
  }
}
