/**
 What the changelog resolver writes, hunk by hunk, in terms of the lines themselves: which hunks
 are resolved, and what stands in their place (scripts/cas-merge-drivers.py:77-113).
 */
module ChangelogLaws {
  import opened Wrappers
  import opened ChangelogMerge

  // ----- markers -----

  /** A marker is so many times its own character. */
  lemma {:induction false} RepeatIs(c: char, size: nat)
    ensures |Repeat(c, size)| == size && forall i :: 0 <= i < size ==> Repeat(c, size)[i] == c
  {
    if size > 0 {
      RepeatIs(c, size - 1);
    }
  }

  /** A line opens a hunk exactly if it begins with that many "<", and so for the other two markers. */
  lemma MarkersMean(size: nat, line: Line)
    ensures StartsWith(line, MarkersOf(size).open) <==>
      |line.text| >= size && forall i :: 0 <= i < size ==> line.text[i] == '<'
    ensures StartsWith(line, MarkersOf(size).middle) <==>
      |line.text| >= size && forall i :: 0 <= i < size ==> line.text[i] == '='
    ensures StartsWith(line, MarkersOf(size).close) <==>
      |line.text| >= size && forall i :: 0 <= i < size ==> line.text[i] == '>'
  {
    RepeatIs('<', size);
    RepeatIs('=', size);
    RepeatIs('>', size);
  }

  // ----- headings and blank lines -----

  /** The characters that Python strips. */
  lemma SpaceIff(c: char)
    ensures IsSpace(c) <==> c as int in {
      9, 10, 11, 12, 13, 28, 29, 30, 31, 32, 133, 160, 5760, 8192, 8193, 8194, 8195, 8196, 8197, 8198, 8199, 8200, 8201,
      8202, 8232, 8233, 8239, 8287, 12288}
  {
  }

  lemma {:induction false} StripOnlySpaces(s: string)
    ensures Strip(s) == "" <==> forall i :: 0 <= i < |s| ==> IsSpace(s[i])
    decreases |s|
  {
    if s != "" {
      if IsSpace(s[0]) {
        StripOnlySpaces(s[1..]);
        assert forall i :: 0 < i < |s| ==> s[i] == s[1..][i - 1];
      } else if IsSpace(s[|s| - 1]) {
        StripOnlySpaces(s[..|s| - 1]);
        assert s[0] == s[..|s| - 1][0];
      }
    }
  }

  /** Stripping a text that does not begin with a space cuts off trailing spaces only. */
  lemma {:induction false} StripCutsEnd(s: string)
    requires s != "" && !IsSpace(s[0])
    ensures Strip(s) <= s && forall i :: |Strip(s)| <= i < |s| ==> IsSpace(s[i])
    decreases |s|
  {
    if IsSpace(s[|s| - 1]) {
      StripCutsEnd(s[..|s| - 1]);
    }
  }

  /** The same letter, in either case. */
  predicate SameLetter(c: char, lower: char) {
    c == lower || ('a' <= lower <= 'z' && c as int + 32 == lower as int)
  }

  /** The line begins with "## [unreleased]", in any mix of cases. */
  predicate NamesUnreleased(text: string) {
    |text| >= 15 && forall i :: 0 <= i < 15 ==> SameLetter(text[i], "## [unreleased]"[i])
  }

  lemma LowerIs(s: string, i: nat)
    requires i < |s| && i < 15
    ensures Lower(s)[i] == "## [unreleased]"[i] <==> SameLetter(s[i], "## [unreleased]"[i])
  {
    var c := "## [unreleased]"[i];
    assert !('A' <= c <= 'Z');
  }

  lemma UnreleasedIff(line: Line)
    requires IsHeading(line)
    ensures IsUnreleased(Some(line)) <==> NamesUnreleased(line.text)
  {
    var text := line.text;
    var bare := Strip(text);
    assert text[0] == '#';
    StripCutsEnd(text);
    forall i: nat | i < |bare| && i < 15
      ensures Lower(bare)[i] == "## [unreleased]"[i] <==> SameLetter(text[i], "## [unreleased]"[i])
    {
      assert bare[i] == text[i];
      LowerIs(bare, i);
    }
    if NamesUnreleased(text) {
      assert SameLetter(text[14], "## [unreleased]"[14]);
      assert text[14] == ']' && !IsSpace(text[14]);
      assert |bare| >= 15;
    }
  }

  // ----- the section a hunk lies in -----

  predicate HeadingAt(items: seq<Item>, h: int)
    requires 0 <= h < |items|
  {
    items[h].Plain? && "## " <= items[h].line.text
  }

  /** Item h is the last heading outside a hunk before item i. */
  predicate Governs(items: seq<Item>, h: int, i: int) {
    0 <= h < i <= |items| && HeadingAt(items, h) && forall j :: h < j < i ==> !HeadingAt(items, j)
  }

  lemma {:induction false} HeadingIs(items: seq<Item>, i: nat)
    requires i <= |items|
    ensures forall h :: Governs(items, h, i) ==> HeadingAfter(items[..i], None) == Some(items[h].line)
    ensures HeadingAfter(items[..i], None).Some? ==>
      exists h :: Governs(items, h, i) && HeadingAfter(items[..i], None) == Some(items[h].line)
    decreases i
  {
    if i > 0 {
      HeadingIs(items, i - 1);
      HeadingStep(items[..i - 1], items[i - 1], None);
      assert items[..i] == items[..i - 1] + [items[i - 1]];
      if HeadingAt(items, i - 1) {
        assert Governs(items, i - 1, i);
      } else {
        assert forall h :: Governs(items, h, i) ==> Governs(items, h, i - 1);
        assert forall h :: Governs(items, h, i - 1) ==> Governs(items, h, i);
      }
    }
  }

  lemma {:induction false} HeadingStep(items: seq<Item>, item: Item, heading: Option<Line>)
    ensures HeadingAfter(items + [item], heading) == After(item, HeadingAfter(items, heading))
    decreases |items|
  {
    if items == [] {
      assert items + [item] == [item] && [item][1..] == [];
    } else {
      assert (items + [item])[1..] == items[1..] + [item];
      HeadingStep(items[1..], item, After(items[0], heading));
    }
  }

  // ----- one hunk -----

  predicate NoHeadingIn(lines: seq<Line>) {
    forall k :: 0 <= k < |lines| ==> !("## " <= lines[k].text)
  }

  /** The hunk lies under an Unreleased heading and neither side brings a heading of its own. */
  predicate Resolves(items: seq<Item>, i: int) {
    && 0 <= i < |items| && items[i].Hunk? && NoHeadingIn(items[i].ours) && NoHeadingIn(items[i].theirs)
    && exists h :: 0 <= h < i && Governs(items, h, i) && NamesUnreleased(items[h].line.text)
  }

  lemma ResolvesIff(items: seq<Item>, i: nat)
    requires i < |items|
    ensures Resolvable(items[i], HeadingAfter(items[..i], None)) <==> Resolves(items, i)
  {
    HeadingIs(items, i);
    var heading := HeadingAfter(items[..i], None);
    assert IsUnreleased(heading) <==> exists h :: Governs(items, h, i) && NamesUnreleased(items[h].line.text) by {
      if h :| Governs(items, h, i) && NamesUnreleased(items[h].line.text) {
        UnreleasedIff(items[h].line);
      }
      if IsUnreleased(heading) {
        var h :| Governs(items, h, i) && heading == Some(items[h].line);
        UnreleasedIff(items[h].line);
      }
    }
    if items[i].Hunk? {
      AnyHeadingIff(items[i].ours + items[i].theirs);
      NoHeadingJoin(items[i].ours, items[i].theirs);
    }
  }

  lemma {:induction false} AnyHeadingIff(lines: seq<Line>)
    ensures AnyHeading(lines) <==> !NoHeadingIn(lines)
    decreases |lines|
  {
    if lines != [] {
      AnyHeadingIff(lines[1..]);
      assert lines == [lines[0]] + lines[1..];
    }
  }

  lemma NoHeadingJoin(a: seq<Line>, b: seq<Line>)
    ensures NoHeadingIn(a + b) <==> NoHeadingIn(a) && NoHeadingIn(b)
  {
    assert forall k :: 0 <= k < |b| ==> (a + b)[|a| + k] == b[k];
    assert forall k :: 0 <= k < |a| ==> (a + b)[k] == a[k];
  }

  predicate HasText(line: Line) {
    exists k :: 0 <= k < |line.text| && !IsSpace(line.text[k])
  }

  /** A blank line is put between two sides that meet in text. */
  function Between(ours: seq<Line>, theirs: seq<Line>): seq<Line> {
    if ours != [] && theirs != [] && HasText(ours[|ours| - 1]) && HasText(theirs[0]) then [Line("\n")] else []
  }

  /** What stands for item i: ours, then theirs, for a resolved hunk; the item itself otherwise. */
  function Shown(items: seq<Item>, i: nat): seq<Line>
    requires i < |items|
  {
    if Resolves(items, i) then items[i].ours + Between(items[i].ours, items[i].theirs) + items[i].theirs
    else match items[i]
      case Plain(line) => [line]
      case Hunk(opening, ours, mid, theirs, closing) => [opening] + ours + Opt(mid) + theirs + Opt(closing)
  }

  lemma ShownIs(items: seq<Item>, i: nat)
    requires i < |items|
    ensures Piece(items[i], HeadingAfter(items[..i], None)) == Shown(items, i)
  {
    ResolvesIff(items, i);
    if items[i].Hunk? && items[i].ours != [] && items[i].theirs != [] {
      StripOnlySpaces(items[i].ours[|items[i].ours| - 1].text);
      StripOnlySpaces(items[i].theirs[0].text);
    }
  }

  // ----- the whole text -----

  function Joined(items: seq<Item>, n: nat): seq<Line>
    requires n <= |items|
  {
    if n == 0 then [] else Joined(items, n - 1) + Shown(items, n - 1)
  }

  lemma {:induction false} OutputUpTo(items: seq<Item>, n: nat)
    requires n <= |items|
    ensures Output(items[..n], None) == Joined(items, n)
    decreases n
  {
    if n == 0 {
      assert items[..n] == [];
    } else {
      OutputUpTo(items, n - 1);
      OutputOneMore(items, n - 1, items[..n - 1], items[..n]);
    }
  }

  lemma OutputOneMore(items: seq<Item>, i: nat, init: seq<Item>, more: seq<Item>)
    requires i < |items| && init == items[..i] && more == items[..i + 1]
    ensures Output(more, None) == Output(init, None) + Shown(items, i)
  {
    ShownIs(items, i);
    LastOf(items, i, init, more);
    OutputStep(init, items[i], more);
  }

  lemma LastOf(items: seq<Item>, i: nat, init: seq<Item>, more: seq<Item>)
    requires i < |items| && init == items[..i] && more == items[..i + 1]
    ensures more == init + [items[i]]
  {
  }

  lemma OutputStep(items: seq<Item>, item: Item, more: seq<Item>)
    requires more == items + [item]
    ensures Output(more, None) == Output(items, None) + Piece(item, HeadingAfter(items, None))
  {
    OutputSplits(items, [item], None);
    Single(MarkersOf(0), item, HeadingAfter(items, None));
  }

  /** The resolver's output, for every text: what stands for each item, in order. */
  lemma OutputIs(items: seq<Item>)
    ensures Output(items, None) == Joined(items, |items|)
  {
    OutputUpTo(items, |items|);
    assert items[..|items|] == items;
  }

  /** The hunks that are left for a person. */
  function Unresolved(items: seq<Item>, n: nat): set<nat>
    requires n <= |items|
  {
    set i: nat | i < n && items[i].Hunk? && !Resolves(items, i)
  }

  lemma {:induction false} RefusedStep(items: seq<Item>, item: Item, heading: Option<Line>)
    ensures Refused(items + [item], heading)
         == Refused(items, heading) + if item.Hunk? && !Resolvable(item, HeadingAfter(items, heading)) then 1 else 0
    decreases |items|
  {
    if items == [] {
      assert items + [item] == [item] && [item][1..] == [];
    } else {
      assert (items + [item])[1..] == items[1..] + [item];
      RefusedStep(items[1..], item, After(items[0], heading));
    }
  }

  lemma {:induction false} RefusedUpTo(items: seq<Item>, n: nat)
    requires n <= |items|
    ensures Refused(items[..n], None) == |Unresolved(items, n)|
    decreases n
  {
    if n == 0 {
      assert items[..n] == [] && Unresolved(items, n) == {};
    } else {
      RefusedUpTo(items, n - 1);
      RefusedOneMore(items, n - 1, items[..n - 1], items[..n]);
      UnresolvedOneMore(items, n - 1);
    }
  }

  lemma RefusedOneMore(items: seq<Item>, i: nat, init: seq<Item>, more: seq<Item>)
    requires i < |items| && init == items[..i] && more == items[..i + 1]
    ensures Refused(more, None) == Refused(init, None) + if items[i].Hunk? && !Resolves(items, i) then 1 else 0
  {
    ResolvesIff(items, i);
    RefusedStep(init, items[i], None);
    assert more == init + [items[i]];
  }

  lemma UnresolvedOneMore(items: seq<Item>, i: nat)
    requires i < |items|
    ensures |Unresolved(items, i + 1)|
         == |Unresolved(items, i)| + if items[i].Hunk? && !Resolves(items, i) then 1 else 0
  {
    var now := items[i].Hunk? && !Resolves(items, i);
    assert Unresolved(items, i + 1) == Unresolved(items, i) + if now then {i} else {};
  }

  /** The reported count is the number of hunks that are not resolved. */
  lemma RefusedIs(items: seq<Item>)
    ensures Refused(items, None) == |Unresolved(items, |items|)|
  {
    RefusedUpTo(items, |items|);
    assert items[..|items|] == items;
  }

  /** A hunk under a released version, `## [1.2.0]` say, is refused and stands as it was. */
  lemma ReleasedIsRefused(items: seq<Item>, h: nat, i: nat)
    requires i < |items| && items[i].Hunk? && Governs(items, h, i)
    requires exists k :: 3 < k < 14 && k < |items[h].line.text| && '0' <= items[h].line.text[k] <= '9'
    ensures !Resolves(items, i) && Shown(items, i) == Raw(items[i]) && i in Unresolved(items, |items|)
  {
    assert forall g :: Governs(items, g, i) ==> g == h;
    var k :| 3 < k < 14 && k < |items[h].line.text| && '0' <= items[h].line.text[k] <= '9';
    assert 'a' <= "## [unreleased]"[k] <= 'z';
    assert !SameLetter(items[h].line.text[k], "## [unreleased]"[k]);
  }
}
