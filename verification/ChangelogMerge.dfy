/**
 The changelog merge resolver (`resolve_unreleased` in scripts/cas-merge-drivers.py), on the
 lines of the merged text, each with its own line ending.
 */
module ChangelogMerge {
  import opened Wrappers

  /** A line with its line ending. */
  datatype Line = Line(text: string)

  function Repeat(c: char, n: nat): string {
    if n == 0 then "" else [c] + Repeat(c, n - 1)
  }

  predicate StartsWith(line: Line, prefix: string) {
    prefix <= line.text
  }

  /** The three marker prefixes for a marker size. */
  datatype Markers = Markers(open: string, middle: string, close: string)

  function MarkersOf(size: nat): Markers {
    Markers(Repeat('<', size), Repeat('=', size), Repeat('>', size))
  }

  predicate IsHeading(line: Line) {
    StartsWith(line, "## ")
  }

  // ----- headings and blank lines -----

  /** Python's whitespace. */
  predicate IsSpace(c: char) {
    || '\t' <= c <= '\r' || '\U{1c}' <= c <= ' ' || c == '\U{85}' || c == '\U{a0}' || c == '\U{1680}'
    || '\U{2000}' <= c <= '\U{200a}' || c == '\U{2028}' || c == '\U{2029}' || c == '\U{202f}'
    || c == '\U{205f}' || c == '\U{3000}'
  }

  function Strip(s: string): string {
    if s == "" then ""
    else if IsSpace(s[0]) then Strip(s[1..])
    else if IsSpace(s[|s| - 1]) then Strip(s[..|s| - 1])
    else s
  }

  function Lower(s: string): string {
    seq(|s|, i requires 0 <= i < |s| => if 'A' <= s[i] <= 'Z' then s[i] + 32 as char else s[i])
  }

  predicate IsUnreleased(heading: Option<Line>) {
    heading.Some? && "## [unreleased]" <= Lower(Strip(heading.value.text))
  }

  predicate IsBlank(line: Line) {
    Strip(line.text) == ""
  }

  // ----- the text as plain lines and conflict hunks -----

  /** A hunk's middle and close markers may be missing at the end of the text. */
  datatype Item =
    | Plain(line: Line)
    | Hunk(opening: Line, ours: seq<Line>, mid: Option<Line>, theirs: seq<Line>, closing: Option<Line>)

  function Opt(line: Option<Line>): seq<Line> {
    if line.Some? then [line.value] else []
  }

  function Raw(item: Item): (lines: seq<Line>)
    ensures |lines| > 0
  {
    match item
    case Plain(line) => [line]
    case Hunk(opening, ours, mid, theirs, closing) => [opening] + ours + Opt(mid) + theirs + Opt(closing)
  }

  function Flatten(items: seq<Item>): seq<Line> {
    if items == [] then [] else Raw(items[0]) + Flatten(items[1..])
  }

  /** The first line from `from` on that starts with the prefix, or the end. */
  function Seek(lines: seq<Line>, from: nat, prefix: string): (n: nat)
    requires from <= |lines|
    ensures from <= n <= |lines|
    ensures forall i :: from <= i < n ==> !StartsWith(lines[i], prefix)
    ensures n < |lines| ==> StartsWith(lines[n], prefix)
    decreases |lines| - from
  {
    if from == |lines| || StartsWith(lines[from], prefix) then from else Seek(lines, from + 1, prefix)
  }

  lemma {:induction false} SeekIs(lines: seq<Line>, from: nat, prefix: string, n: nat)
    requires from <= n <= |lines| && (forall i :: from <= i < n ==> !StartsWith(lines[i], prefix))
    requires n < |lines| ==> StartsWith(lines[n], prefix)
    ensures Seek(lines, from, prefix) == n
    decreases n - from
  {
    if from < n {
      SeekIs(lines, from + 1, prefix, n);
    }
  }

  /** The hunk that opens at the first line, when its middle marker is line a and its close line b. */
  function HunkOf(lines: seq<Line>, a: nat, b: nat): Item
    requires 0 < a < b <= |lines| || 0 < a == b == |lines|
  {
    if a == |lines| then Hunk(lines[0], lines[1..], None, [], None)
    else Hunk(lines[0], lines[1..a], Some(lines[a]), lines[a + 1..b], if b < |lines| then Some(lines[b]) else None)
  }

  function Stop(lines: seq<Line>, b: nat): nat {
    if b < |lines| then b + 1 else |lines|
  }

  lemma HunkOfIsPrefix(lines: seq<Line>, a: nat, b: nat)
    requires 0 < a < b <= |lines| || 0 < a == b == |lines|
    ensures Raw(HunkOf(lines, a, b)) == lines[..Stop(lines, b)]
  {
    assert lines[..a] == [lines[0]] + lines[1..a];
    if a < |lines| {
      assert lines[..a + 1] == lines[..a] + [lines[a]];
      assert lines[..b] == lines[..a + 1] + lines[a + 1..b];
      if b < |lines| {
        assert lines[..b + 1] == lines[..b] + [lines[b]];
      }
    } else {
      assert lines[..a] == lines;
    }
  }

  function MiddleAt(m: Markers, lines: seq<Line>): (a: nat)
    requires lines != []
    ensures 0 < a <= |lines|
  {
    Seek(lines, 1, m.middle)
  }

  function CloseAt(m: Markers, lines: seq<Line>): (b: nat)
    requires lines != []
    ensures var a := MiddleAt(m, lines); 0 < a < b <= |lines| || 0 < a == b == |lines|
  {
    var a := MiddleAt(m, lines);
    if a == |lines| then a else Seek(lines, a + 1, m.close)
  }

  function HunkAt(m: Markers, lines: seq<Line>): (hunk: Item)
    requires lines != []
    ensures hunk.Hunk?
  {
    HunkOf(lines, MiddleAt(m, lines), CloseAt(m, lines))
  }

  /** Where the hunk that opens at the first line stops. */
  function HunkStop(m: Markers, lines: seq<Line>): (stop: nat)
    requires lines != []
    ensures 0 < stop <= |lines|
  {
    Stop(lines, CloseAt(m, lines))
  }

  lemma HunkIsPrefix(m: Markers, lines: seq<Line>)
    requires lines != []
    ensures Raw(HunkAt(m, lines)) == lines[..HunkStop(m, lines)]
  {
    HunkOfIsPrefix(lines, MiddleAt(m, lines), CloseAt(m, lines));
  }

  function Parse(m: Markers, lines: seq<Line>): seq<Item> {
    if lines == [] then []
    else if StartsWith(lines[0], m.open) then
      [HunkAt(m, lines)] + Parse(m, lines[HunkStop(m, lines)..])
    else [Plain(lines[0])] + Parse(m, lines[1..])
  }

  lemma FlattenCons(item: Item, rest: seq<Item>)
    ensures Flatten([item] + rest) == Raw(item) + Flatten(rest)
  {
    assert ([item] + rest)[1..] == rest;
  }

  lemma Rejoin(lines: seq<Line>, n: nat)
    requires n <= |lines|
    ensures lines[..n] + lines[n..] == lines
  {
  }

  /** Parsing loses nothing. */
  lemma {:induction false} ParseIsLossless(m: Markers, lines: seq<Line>)
    ensures Flatten(Parse(m, lines)) == lines
    decreases |lines|
  {
    if lines != [] {
      if StartsWith(lines[0], m.open) {
        HunkIsPrefix(m, lines);
        LosslessStep(m, lines, HunkAt(m, lines), HunkStop(m, lines));
      } else {
        LosslessStep(m, lines, Plain(lines[0]), 1);
      }
    }
  }

  lemma {:induction false} LosslessStep(m: Markers, lines: seq<Line>, item: Item, n: nat)
    requires 0 < n <= |lines| && Raw(item) == lines[..n]
    ensures Flatten([item] + Parse(m, lines[n..])) == lines
    decreases |lines|, 0
  {
    ParseIsLossless(m, lines[n..]);
    FlattenCons(item, Parse(m, lines[n..]));
    Rejoin(lines, n);
  }

  /** What every parsed item looks like; a hunk that misses a marker ends the text. */
  predicate ItemOk(m: Markers, item: Item, last: bool) {
    match item
    case Plain(line) => !StartsWith(line, m.open)
    case Hunk(opening, ours, mid, theirs, closing) =>
      && StartsWith(opening, m.open)
      && NoneStarts(ours, m.middle) && NoneStarts(theirs, m.close)
      && (mid.Some? ==> StartsWith(mid.value, m.middle)) && (closing.Some? ==> StartsWith(closing.value, m.close))
      && (mid.None? ==> theirs == [] && closing.None?)
      && (!last ==> mid.Some? && closing.Some?)
  }

  predicate ItemsOk(m: Markers, items: seq<Item>) {
    items == [] || (ItemOk(m, items[0], |items| == 1) && ItemsOk(m, items[1..]))
  }

  predicate NoneStarts(lines: seq<Line>, prefix: string) {
    forall i :: 0 <= i < |lines| ==> !StartsWith(lines[i], prefix)
  }

  // ----- resolving -----

  predicate AnyHeading(lines: seq<Line>) {
    lines != [] && (IsHeading(lines[0]) || AnyHeading(lines[1..]))
  }

  predicate CarriesHeading(hunk: Item)
    requires hunk.Hunk?
  {
    AnyHeading(hunk.ours + hunk.theirs)
  }

  /** The hunk is kept on both sides: it lies in Unreleased and carries no heading. */
  predicate Resolvable(item: Item, heading: Option<Line>) {
    item.Hunk? && IsUnreleased(heading) && !CarriesHeading(item)
  }

  /** The blank line between the two sides, when both touch with text. */
  function Seam(hunk: Item): (blank: seq<Line>)
    requires hunk.Hunk?
    ensures |blank| <= 1
  {
    if hunk.ours == [] || hunk.theirs == [] then []
    else if IsBlank(hunk.ours[|hunk.ours| - 1]) || IsBlank(hunk.theirs[0]) then []
    else [Line("\n")]
  }

  function Piece(item: Item, heading: Option<Line>): seq<Line> {
    if Resolvable(item, heading) then item.ours + Seam(item) + item.theirs else Raw(item)
  }

  function After(item: Item, heading: Option<Line>): Option<Line> {
    if item.Plain? && IsHeading(item.line) then Some(item.line) else heading
  }

  function Output(items: seq<Item>, heading: Option<Line>): seq<Line> {
    if items == [] then [] else Piece(items[0], heading) + Output(items[1..], After(items[0], heading))
  }

  function Refused(items: seq<Item>, heading: Option<Line>): nat {
    if items == [] then 0 else
      var here := if items[0].Hunk? && !Resolvable(items[0], heading) then 1 else 0;
      here + Refused(items[1..], After(items[0], heading))
  }

  // ----- the loops -----

  /** The output so far and what the remaining lines add make the whole output. */
  ghost predicate Going(m: Markers, lines: seq<Line>, index: nat, heading: Option<Line>, out: seq<Line>,
                        unresolved: nat) {
    && index <= |lines|
    && out + Output(Parse(m, lines[index..]), heading) == Output(Parse(m, lines), None)
    && unresolved + Refused(Parse(m, lines[index..]), heading) == Refused(Parse(m, lines), None)
  }

  /** `resolve_unreleased` on the lines of a text. */
  method ResolveUnreleased(lines: seq<Line>, size: nat) returns (out: seq<Line>, unresolved: nat)
    ensures var items := Parse(MarkersOf(size), lines);
      out == Output(items, None) && unresolved == Refused(items, None)
  {
    var m := MarkersOf(size);
    out, unresolved := [], 0;
    var heading: Option<Line> := None;
    var index := 0;
    assert lines[0..] == lines;
    while index < |lines|
      invariant Going(m, lines, index, heading, out, unresolved)
      decreases |lines| - index
    {
      var line := lines[index];
      if StartsWith(line, m.open) {
        out, unresolved, index := TakeHunk(m, lines, index, heading, out, unresolved);
      } else {
        PlainStep(m, lines, index, heading, out, unresolved);
        if IsHeading(line) {
          heading := Some(line);
        }
        out := out + [line];
        index := index + 1;
      }
    }
  }

  /** The conflict branch of the loop: read both sides, keep both or refuse, and step past the hunk. */
  method TakeHunk(m: Markers, lines: seq<Line>, index: nat, heading: Option<Line>, sofar: seq<Line>, refused: nat)
    returns (out: seq<Line>, unresolved: nat, stop: nat)
    requires index < |lines| && StartsWith(lines[index], m.open) && Going(m, lines, index, heading, sofar, refused)
    ensures Going(m, lines, stop, heading, out, unresolved) && index < stop
  {
    var ours, theirs, raw;
    ghost var hunk;
    ours, theirs, raw, stop, hunk := ReadHunk(m, lines, index);
    var piece, kept := Emit(hunk, heading, ours, theirs, raw);
    out := sofar + piece;
    unresolved := if kept then refused else refused + 1;
    HunkStep(m, lines, index, heading, sofar, refused, hunk, stop, piece, kept);
  }

  /** Both sides of the hunk that opens at `index`, and the line after it. */
  method ReadHunk(m: Markers, lines: seq<Line>, index: nat)
    returns (ours: seq<Line>, theirs: seq<Line>, raw: seq<Line>, stop: nat, ghost hunk: Item)
    requires index < |lines|
    ensures index < stop <= |lines| && hunk == HunkAt(m, lines[index..]) && stop == index + HunkStop(m, lines[index..])
    ensures ours == hunk.ours && theirs == hunk.theirs && raw == Raw(hunk)
  {
    var cursor, hunkEnd;
    ours, cursor := Gather(lines, index + 1, m.middle);
    theirs, hunkEnd := Gather(lines, cursor + 1, m.close);
    stop := if hunkEnd + 1 < |lines| then hunkEnd + 1 else |lines|;
    raw := lines[index..stop];
    hunk := HunkAt(m, lines[index..]);
    SidesGathered(m, lines, index, cursor, if cursor == |lines| then cursor else hunkEnd, ours, theirs);
    RawGathered(m, lines, index, stop);
  }

  /** Both sides with their blank line, or the hunk as it stands. */
  method Emit(ghost hunk: Item, heading: Option<Line>, ours: seq<Line>, theirs: seq<Line>, raw: seq<Line>)
    returns (piece: seq<Line>, kept: bool)
    requires hunk.Hunk? && hunk.ours == ours && hunk.theirs == theirs && Raw(hunk) == raw
    ensures piece == Piece(hunk, heading) && (kept <==> Resolvable(hunk, heading))
  {
    kept := IsUnreleased(heading) && !AnyHeading(ours + theirs);
    if kept {
      piece := ours;
      if ours != [] && theirs != [] && !IsBlank(ours[|ours| - 1]) && !IsBlank(theirs[0]) {
        piece := piece + [Line("\n")];
      }
      piece := piece + theirs;
    } else {
      piece := raw;
    }
  }

  /** An inner loop: the lines from `from` up to the first with the prefix. */
  method Gather(lines: seq<Line>, from: nat, prefix: string) returns (part: seq<Line>, cursor: nat)
    ensures from > |lines| ==> part == [] && cursor == from
    ensures from <= |lines| ==> cursor == Seek(lines, from, prefix) && part == lines[from..cursor]
  {
    part, cursor := [], from;
    while cursor < |lines| && !StartsWith(lines[cursor], prefix)
      invariant from <= cursor && (from > |lines| ==> part == [] && cursor == from)
      invariant from <= |lines| ==> cursor <= |lines| && part == lines[from..cursor]
      invariant from <= |lines| ==> Seek(lines, cursor, prefix) == Seek(lines, from, prefix)
    {
      part := part + [lines[cursor]];
      cursor := cursor + 1;
    }
  }

  lemma {:induction false} SeekShift(lines: seq<Line>, index: nat, from: nat, prefix: string)
    requires index + from <= |lines|
    ensures Seek(lines[index..], from, prefix) + index == Seek(lines, index + from, prefix)
    decreases |lines| - from
  {
    if index + from < |lines| && !StartsWith(lines[index + from], prefix) {
      SeekShift(lines, index, from + 1, prefix);
    }
  }

  lemma SliceOfRest(lines: seq<Line>, index: nat, a: nat, b: nat)
    requires a <= b && index + b <= |lines|
    ensures lines[index..][a..b] == lines[index + a..index + b]
  {
  }

  lemma PositionsGathered(m: Markers, lines: seq<Line>, index: nat, cursor: nat, hunkEnd: nat)
    requires index < |lines| && cursor == Seek(lines, index + 1, m.middle)
    requires if cursor == |lines| then hunkEnd == cursor else hunkEnd == Seek(lines, cursor + 1, m.close)
    ensures MiddleAt(m, lines[index..]) == cursor - index && CloseAt(m, lines[index..]) == hunkEnd - index
  {
    SeekShift(lines, index, 1, m.middle);
    if cursor < |lines| {
      SeekShift(lines, index, cursor - index + 1, m.close);
    }
  }

  lemma FieldsGathered(lines: seq<Line>, index: nat, cursor: nat, hunkEnd: nat)
    requires index < cursor < hunkEnd <= |lines| || index < cursor == hunkEnd == |lines|
    ensures HunkOf(lines[index..], cursor - index, hunkEnd - index).ours == lines[index + 1..cursor]
    ensures HunkOf(lines[index..], cursor - index, hunkEnd - index).theirs == Theirs(lines, cursor, hunkEnd)
  {
    SliceOfRest(lines, index, 1, cursor - index);
    if cursor < |lines| {
      SliceOfRest(lines, index, cursor - index + 1, hunkEnd - index);
    }
  }

  function Theirs(lines: seq<Line>, cursor: nat, hunkEnd: nat): seq<Line> {
    if cursor < hunkEnd <= |lines| then lines[cursor + 1..hunkEnd] else []
  }

  lemma HunkGathered(m: Markers, lines: seq<Line>, index: nat, cursor: nat, hunkEnd: nat)
    requires index < |lines| && cursor == Seek(lines, index + 1, m.middle)
    requires if cursor == |lines| then hunkEnd == cursor else hunkEnd == Seek(lines, cursor + 1, m.close)
    ensures HunkAt(m, lines[index..]) == HunkOf(lines[index..], cursor - index, hunkEnd - index)
    ensures index + HunkStop(m, lines[index..]) == Stop(lines, hunkEnd)
  {
    PositionsGathered(m, lines, index, cursor, hunkEnd);
  }

  lemma SidesGathered(m: Markers, lines: seq<Line>, index: nat, cursor: nat, hunkEnd: nat, ours: seq<Line>,
                      theirs: seq<Line>)
    requires index < |lines| && cursor == Seek(lines, index + 1, m.middle)
    requires if cursor == |lines| then hunkEnd == cursor else hunkEnd == Seek(lines, cursor + 1, m.close)
    requires ours == lines[index + 1..cursor] && theirs == Theirs(lines, cursor, hunkEnd)
    ensures HunkAt(m, lines[index..]).ours == ours && HunkAt(m, lines[index..]).theirs == theirs
    ensures index + HunkStop(m, lines[index..]) == Stop(lines, hunkEnd)
  {
    HunkGathered(m, lines, index, cursor, hunkEnd);
    FieldsGathered(lines, index, cursor, hunkEnd);
  }

  lemma RawGathered(m: Markers, lines: seq<Line>, index: nat, stop: nat)
    requires index < |lines| && stop == index + HunkStop(m, lines[index..])
    ensures Raw(HunkAt(m, lines[index..])) == lines[index..stop]
  {
    HunkIsPrefix(m, lines[index..]);
    SliceOfRest(lines, index, 0, stop - index);
  }

  lemma Extend(out: seq<Line>, piece: seq<Line>, rest: seq<Line>)
    ensures (out + piece) + rest == out + (piece + rest)
  {
  }

  lemma HunkStep(m: Markers, lines: seq<Line>, index: nat, heading: Option<Line>, out: seq<Line>, unresolved: nat,
                 hunk: Item, stop: nat, piece: seq<Line>, kept: bool)
    requires index < |lines| && StartsWith(lines[index], m.open) && Going(m, lines, index, heading, out, unresolved)
    requires hunk == HunkAt(m, lines[index..]) && stop == index + HunkStop(m, lines[index..])
    requires piece == Piece(hunk, heading) && (kept <==> Resolvable(hunk, heading))
    ensures Going(m, lines, stop, heading, out + piece, if kept then unresolved else unresolved + 1)
  {
    assert lines[index..][stop - index..] == lines[stop..];
    var items := Parse(m, lines[index..]);
    var rest := Parse(m, lines[stop..]);
    assert items[0] == hunk && items[1..] == rest;
    Extend(out, piece, Output(rest, heading));
  }

  lemma PlainStep(m: Markers, lines: seq<Line>, index: nat, heading: Option<Line>, out: seq<Line>, unresolved: nat)
    requires index < |lines| && !StartsWith(lines[index], m.open) && Going(m, lines, index, heading, out, unresolved)
    ensures Going(m, lines, index + 1, After(Plain(lines[index]), heading), out + [lines[index]], unresolved)
  {
    assert lines[index..][1..] == lines[index + 1..];
    var items := Parse(m, lines[index..]);
    var rest := Parse(m, lines[index + 1..]);
    assert items[0] == Plain(lines[index]) && items[1..] == rest;
    Extend(out, [lines[index]], Output(rest, After(items[0], heading)));
  }

  // ----- parsing and printing are inverse -----

  lemma HunkAtOk(m: Markers, lines: seq<Line>)
    requires lines != [] && StartsWith(lines[0], m.open)
    ensures ItemOk(m, HunkAt(m, lines), HunkStop(m, lines) == |lines|)
  {
  }

  lemma {:induction false} ParseIsOk(m: Markers, lines: seq<Line>)
    ensures ItemsOk(m, Parse(m, lines))
    decreases |lines|
  {
    if lines != [] {
      var items := Parse(m, lines);
      if StartsWith(lines[0], m.open) {
        var stop := HunkStop(m, lines);
        HunkAtOk(m, lines);
        ParseIsOk(m, lines[stop..]);
        assert items[1..] == Parse(m, lines[stop..]);
      } else {
        ParseIsOk(m, lines[1..]);
        assert items[1..] == Parse(m, lines[1..]);
      }
    }
  }

  lemma HunkRead(lines: seq<Line>, m: Markers, a: nat, b: nat)
    requires 0 < a < b <= |lines| || 0 < a == b == |lines|
    requires a < |lines| ==> StartsWith(lines[a], m.middle)
    requires b < |lines| ==> StartsWith(lines[b], m.close)
    requires forall i :: 0 < i < a ==> !StartsWith(lines[i], m.middle)
    requires forall i :: a < i < b ==> !StartsWith(lines[i], m.close)
    ensures MiddleAt(m, lines) == a && CloseAt(m, lines) == b && HunkAt(m, lines) == HunkOf(lines, a, b)
  {
    SeekIs(lines, 1, m.middle, a);
    if a < |lines| {
      SeekIs(lines, a + 1, m.close, b);
    }
  }

  /** Where the parts of a hunk stand in its lines. */
  lemma RawShape(hunk: Item, rest: seq<Line>, a: nat, b: nat)
    requires hunk.Hunk? && a == 1 + |hunk.ours|
    requires hunk.mid.None? ==> b == a && hunk.theirs == [] && hunk.closing.None? && rest == []
    requires hunk.mid.Some? ==> b == a + 1 + |hunk.theirs|
    requires hunk.closing.None? ==> rest == []
    ensures var lines := Raw(hunk) + rest;
      && a <= b <= |lines| && lines[0] == hunk.opening && lines[1..a] == hunk.ours
      && (hunk.mid.None? ==> |lines| == a)
      && (hunk.mid.Some? ==> a < b && lines[a] == hunk.mid.value && lines[a + 1..b] == hunk.theirs)
      && (hunk.closing.Some? && hunk.mid.Some? ==>
           b < |lines| && lines[b] == hunk.closing.value && |Raw(hunk)| == b + 1)
      && (hunk.closing.None? ==> b == |lines| == |Raw(hunk)|)
  {
  }

  lemma SliceStarts(lines: seq<Line>, from: nat, to: nat, prefix: string)
    requires from <= to <= |lines| && NoneStarts(lines[from..to], prefix)
    ensures forall i :: from <= i < to ==> !StartsWith(lines[i], prefix)
  {
    assert forall i :: from <= i < to ==> lines[i] == lines[from..to][i - from];
  }

  lemma HunkOfIs(hunk: Item, lines: seq<Line>, a: nat, b: nat)
    requires hunk.Hunk? && 0 < a <= b <= |lines| && lines[0] == hunk.opening && lines[1..a] == hunk.ours
    requires hunk.mid.None? ==> a == b == |lines| && hunk.theirs == [] && hunk.closing.None?
    requires hunk.mid.Some? ==> a < b && lines[a] == hunk.mid.value && lines[a + 1..b] == hunk.theirs
    requires hunk.closing.Some? ==> b < |lines| && lines[b] == hunk.closing.value
    requires hunk.closing.None? ==> b == |lines|
    ensures HunkOf(lines, a, b) == hunk
  {
    if hunk.mid.None? {
      assert lines[1..] == lines[1..a];
    }
  }

  /** A hunk's own lines, with anything after them, read back as that hunk. */
  lemma HunkReadsBack(m: Markers, hunk: Item, rest: seq<Line>)
    requires hunk.Hunk? && ItemOk(m, hunk, rest == [])
    ensures var lines := Raw(hunk) + rest; HunkAt(m, lines) == hunk && HunkStop(m, lines) == |Raw(hunk)|
  {
    var lines := Raw(hunk) + rest;
    var a := 1 + |hunk.ours|;
    var b := if hunk.mid.None? then a else a + 1 + |hunk.theirs|;
    RawShape(hunk, rest, a, b);
    SliceStarts(lines, 1, a, m.middle);
    if hunk.mid.Some? {
      SliceStarts(lines, a + 1, b, m.close);
    }
    HunkRead(lines, m, a, b);
    HunkOfIs(hunk, lines, a, b);
  }

  /** Well-formed items are what their lines parse to. */
  lemma {:induction false} ItemsReadBack(m: Markers, items: seq<Item>)
    requires ItemsOk(m, items)
    ensures Parse(m, Flatten(items)) == items
    decreases |items|
  {
    if items != [] {
      ItemsReadBack(m, items[1..]);
      var lines := Flatten(items);
      var rest := Flatten(items[1..]);
      assert lines == Raw(items[0]) + rest;
      if items[0].Hunk? {
        if |items| > 1 { assert rest == Raw(items[1]) + Flatten(items[1..][1..]); }
        HunkReadsBack(m, items[0], rest);
        assert lines[|Raw(items[0])|..] == rest;
      } else {
        assert lines[1..] == rest;
      }
    }
  }

  // ----- the second pass -----

  function Plains(lines: seq<Line>): seq<Item> {
    if lines == [] then [] else [Plain(lines[0])] + Plains(lines[1..])
  }

  /** The items with every resolved hunk replaced by the lines it became. */
  function Kept(items: seq<Item>, heading: Option<Line>): seq<Item> {
    if items == [] then [] else
      var rest := Kept(items[1..], After(items[0], heading));
      if Resolvable(items[0], heading) then Plains(Piece(items[0], heading)) + rest else [items[0]] + rest
  }

  /** No line that a resolved hunk became looks like the start of a hunk. */
  predicate Clean(m: Markers, items: seq<Item>, heading: Option<Line>) {
    items == [] ||
    ((Resolvable(items[0], heading) ==> NoneStarts(Piece(items[0], heading), m.open))
      && Clean(m, items[1..], After(items[0], heading)))
  }

  lemma PlainsRest(lines: seq<Line>, rest: seq<Item>)
    requires lines != []
    ensures var items := Plains(lines) + rest;
      items != [] && items[0] == Plain(lines[0]) && items[1..] == Plains(lines[1..]) + rest
  {
    ConsRest(Plain(lines[0]), Plains(lines[1..]), rest);
  }

  lemma ConsRest(item: Item, items: seq<Item>, rest: seq<Item>)
    ensures (([item] + items) + rest)[0] == item && (([item] + items) + rest)[1..] == items + rest
  {
  }

  lemma Reassociate(lines: seq<Line>, rest: seq<Line>)
    requires lines != []
    ensures lines + rest == [lines[0]] + (lines[1..] + rest)
  {
  }

  lemma {:induction false} PlainsFlatten(lines: seq<Line>, rest: seq<Item>)
    ensures Flatten(Plains(lines) + rest) == lines + Flatten(rest)
    decreases |lines|
  {
    if lines == [] {
      assert Plains(lines) + rest == rest;
    } else {
      PlainsRest(lines, rest);
      PlainsFlatten(lines[1..], rest);
      Reassociate(lines, Flatten(rest));
    }
  }

  lemma {:induction false} PlainsOk(m: Markers, lines: seq<Line>, rest: seq<Item>)
    ensures ItemsOk(m, Plains(lines) + rest) <==> NoneStarts(lines, m.open) && ItemsOk(m, rest)
    decreases |lines|
  {
    if lines == [] {
      assert Plains(lines) + rest == rest;
    } else {
      PlainsRest(lines, rest);
      PlainsOk(m, lines[1..], rest);
      NoneStartsStep(lines, m.open);
    }
  }

  lemma NoneStartsStep(lines: seq<Line>, prefix: string)
    requires lines != []
    ensures NoneStarts(lines, prefix) <==> !StartsWith(lines[0], prefix) && NoneStarts(lines[1..], prefix)
  {
    assert lines == [lines[0]] + lines[1..];
  }

  lemma {:induction false} KeptIsOutput(m: Markers, items: seq<Item>, heading: Option<Line>)
    ensures Flatten(Kept(items, heading)) == Output(items, heading)
    ensures ItemsOk(m, items) ==> (ItemsOk(m, Kept(items, heading)) <==> Clean(m, items, heading))
    decreases |items|
  {
    if items != [] {
      var rest := Kept(items[1..], After(items[0], heading));
      KeptIsOutput(m, items[1..], After(items[0], heading));
      if Resolvable(items[0], heading) {
        PlainsFlatten(Piece(items[0], heading), rest);
        PlainsOk(m, Piece(items[0], heading), rest);
      } else {
        var kept := [items[0]] + rest;
        assert Kept(items, heading) == kept && kept[1..] == rest;
      }
    }
  }

  /**
   The second pass reads exactly the refused hunks as hunks, and every kept line as a plain
   line, if and only if no kept line starts with the opening marker.
   */
  lemma SecondPassReads(m: Markers, lines: seq<Line>)
    ensures var items := Parse(m, lines);
      Parse(m, Output(items, None)) == Kept(items, None) <==> Clean(m, items, None)
  {
    var items := Parse(m, lines);
    ParseIsOk(m, lines);
    KeptIsOutput(m, items, None);
    ParseIsOk(m, Output(items, None));
    if Clean(m, items, None) {
      ItemsReadBack(m, Kept(items, None));
    }
  }

  /** The heading in force after these items. */
  function HeadingAfter(items: seq<Item>, heading: Option<Line>): Option<Line> {
    if items == [] then heading else HeadingAfter(items[1..], After(items[0], heading))
  }

  lemma {:induction false} NotHeading(lines: seq<Line>, i: nat)
    requires !AnyHeading(lines) && i < |lines|
    ensures !IsHeading(lines[i])
    decreases i
  {
    if i > 0 {
      NotHeading(lines[1..], i - 1);
    }
  }

  /** What a resolved hunk becomes carries no heading. */
  lemma PieceHasNoHeading(item: Item, heading: Option<Line>, i: nat)
    requires Resolvable(item, heading) && i < |Piece(item, heading)|
    ensures !IsHeading(Piece(item, heading)[i])
  {
    var both := item.ours + item.theirs;
    if i < |item.ours| {
      NotHeading(both, i);
      assert Piece(item, heading)[i] == both[i];
    } else if i >= |item.ours| + |Seam(item)| {
      NotHeading(both, i - |Seam(item)|);
      assert Piece(item, heading)[i] == both[i - |Seam(item)|];
    }
  }

  lemma {:induction false} PlainsPass(lines: seq<Line>, rest: seq<Item>, heading: Option<Line>)
    requires forall i :: 0 <= i < |lines| ==> !IsHeading(lines[i])
    ensures Output(Plains(lines) + rest, heading) == lines + Output(rest, heading)
    ensures Refused(Plains(lines) + rest, heading) == Refused(rest, heading)
    decreases |lines|
  {
    if lines == [] {
      assert Plains(lines) + rest == rest;
    } else {
      PlainsRest(lines, rest);
      assert !IsHeading(lines[0]);
      PlainsPass(lines[1..], rest, heading);
      Reassociate(lines, Output(rest, heading));
    }
  }

  lemma {:induction false} KeptResolvesSame(items: seq<Item>, heading: Option<Line>)
    ensures Output(Kept(items, heading), heading) == Output(items, heading)
    ensures Refused(Kept(items, heading), heading) == Refused(items, heading)
    decreases |items|
  {
    if items != [] {
      var after := After(items[0], heading);
      var rest := Kept(items[1..], after);
      KeptResolvesSame(items[1..], after);
      if Resolvable(items[0], heading) {
        var piece := Piece(items[0], heading);
        forall i | 0 <= i < |piece| ensures !IsHeading(piece[i]) {
          PieceHasNoHeading(items[0], heading, i);
        }
        PlainsPass(piece, rest, heading);
      } else {
        var kept := [items[0]] + rest;
        assert Kept(items, heading) == kept && kept[1..] == rest;
      }
    }
  }

  /** Resolving twice gives the text and the count of resolving once. */
  lemma ResolveIsIdempotent(m: Markers, lines: seq<Line>)
    requires Clean(m, Parse(m, lines), None)
    ensures var out := Output(Parse(m, lines), None);
      Output(Parse(m, out), None) == out && Refused(Parse(m, out), None) == Refused(Parse(m, lines), None)
  {
    SecondPassReads(m, lines);
    KeptResolvesSame(Parse(m, lines), None);
  }

  const HEAD_LINE := Line("## [Unreleased]\n")

  /** A line of markers alone. */
  function MarkerLine(c: char, size: nat): Line {
    Line(Repeat(c, size) + "\n")
  }

  /** One side keeps a line that looks like an opening marker; the other side is empty. */
  function KeepsMarker(size: nat): Item {
    Hunk(MarkerLine('<', size), [MarkerLine('<', size)], Some(MarkerLine('=', size)), [], Some(MarkerLine('>', size)))
  }

  /** What that line is to the second pass. */
  function LoneMarker(size: nat): Item {
    Hunk(MarkerLine('<', size), [], None, [], None)
  }

  /** A kept line that looks like an opening marker, whatever the marker size: the second pass drops it. */
  lemma KeptMarkerIsDropped(size: nat)
    requires size > 0
    ensures var m, kept := MarkersOf(size), MarkerLine('<', size);
      && Output(Parse(m, [HEAD_LINE] + Raw(KeepsMarker(size))), None) == [HEAD_LINE, kept]
      && Output(Parse(m, [HEAD_LINE, kept]), None) == [HEAD_LINE]
  {
    var m, kept := MarkersOf(size), MarkerLine('<', size);
    UnreleasedHeading();
    MarkerShapes(size);
    SmallPieces(size, Some(HEAD_LINE));
    OneHunk(m, HEAD_LINE, KeepsMarker(size));
    OneHunk(m, HEAD_LINE, LoneMarker(size));
    assert [HEAD_LINE] + [kept] == [HEAD_LINE, kept] && [HEAD_LINE] + [] == [HEAD_LINE];
  }

  lemma RepeatStarts(c: char, size: nat)
    requires size > 0
    ensures Repeat(c, size)[0] == c && MarkerLine(c, size).text[0] == c
    ensures StartsWith(MarkerLine(c, size), Repeat(c, size))
  {
  }

  lemma OtherStart(line: Line, c: char, size: nat)
    requires size > 0 && line.text != "" && line.text[0] != c
    ensures !StartsWith(line, Repeat(c, size))
  {
    RepeatStarts(c, size);
  }

  lemma MarkerShapes(size: nat)
    requires size > 0
    ensures ItemOk(MarkersOf(size), KeepsMarker(size), true) && ItemOk(MarkersOf(size), LoneMarker(size), true)
    ensures !IsHeading(MarkerLine('<', size)) && !StartsWith(HEAD_LINE, MarkersOf(size).open)
  {
    RepeatStarts('<', size);
    RepeatStarts('=', size);
    RepeatStarts('>', size);
    OtherStart(MarkerLine('<', size), '=', size);
    OtherStart(HEAD_LINE, '<', size);
  }

  lemma SmallPieces(size: nat, heading: Option<Line>)
    requires IsUnreleased(heading) && !IsHeading(MarkerLine('<', size))
    ensures Piece(KeepsMarker(size), heading) == [MarkerLine('<', size)]
    ensures Piece(LoneMarker(size), heading) == [] && Raw(LoneMarker(size)) == [MarkerLine('<', size)]
  {
    var none: seq<Line> := [];
    var kept := MarkerLine('<', size);
    assert [kept] + none == [kept] && [kept][1..] == none && none + none == none;
    assert !AnyHeading([kept]) && !AnyHeading(none);
  }

  lemma UnreleasedHeading()
    ensures IsUnreleased(Some(HEAD_LINE)) && IsHeading(HEAD_LINE)
  {
    var text, bare := HEAD_LINE.text, "## [Unreleased]";
    assert text[..|text| - 1] == bare;
    assert Strip(text) == Strip(bare) == bare;
    assert Lower(bare) == "## [unreleased]";
  }

  lemma Single(m: Markers, item: Item, heading: Option<Line>)
    ensures Output([item], heading) == Piece(item, heading) && Flatten([item]) == Raw(item)
    ensures ItemsOk(m, [item]) <==> ItemOk(m, item, true)
  {
    assert [item][1..] == [];
  }

  lemma OneHunk(m: Markers, head: Line, hunk: Item)
    requires IsHeading(head) && !StartsWith(head, m.open) && hunk.Hunk? && ItemOk(m, hunk, true)
    ensures Output(Parse(m, [head] + Raw(hunk)), None) == [head] + Piece(hunk, Some(head))
  {
    Single(m, hunk, Some(head));
    ItemsReadBack(m, [hunk]);
    var lines := [head] + Raw(hunk);
    assert lines[1..] == Raw(hunk);
    var items := Parse(m, lines);
    assert items == [Plain(head)] + [hunk] && items[1..] == [hunk];
  }

  // ----- fixed points -----

  /** No hunk here is resolved. */
  predicate Quiet(items: seq<Item>, heading: Option<Line>) {
    items == [] || (!Resolvable(items[0], heading) && Quiet(items[1..], After(items[0], heading)))
  }

  lemma ResolvedIsShorter(m: Markers, item: Item, last: bool, heading: Option<Line>)
    requires Resolvable(item, heading) && ItemOk(m, item, last)
    ensures |Piece(item, heading)| < |Raw(item)|
  {
  }

  lemma {:induction false} OutputLength(m: Markers, items: seq<Item>, heading: Option<Line>)
    requires ItemsOk(m, items)
    ensures |Output(items, heading)| <= |Flatten(items)|
    ensures Output(items, heading) == Flatten(items) <==> Quiet(items, heading)
    ensures |Output(items, heading)| == |Flatten(items)| <==> Quiet(items, heading)
    decreases |items|
  {
    if items != [] {
      OutputLength(m, items[1..], After(items[0], heading));
      if Resolvable(items[0], heading) {
        ResolvedIsShorter(m, items[0], |items| == 1, heading);
      }
    }
  }

  /**
   For every text: resolving changes nothing if and only if no hunk in it lies in Unreleased
   without a heading of its own. Applied to an output, this is exactly when a second pass
   changes the text.
   */
  lemma FixedPointIff(m: Markers, lines: seq<Line>)
    ensures Output(Parse(m, lines), None) == lines <==> Quiet(Parse(m, lines), None)
  {
    ParseIsOk(m, lines);
    ParseIsLossless(m, lines);
    OutputLength(m, Parse(m, lines), None);
  }

  lemma {:induction false} QuietCounts(items: seq<Item>, heading: Option<Line>)
    requires Quiet(items, heading)
    ensures Refused(items, heading) == Hunks(items)
  {
    if items != [] {
      QuietCounts(items[1..], After(items[0], heading));
    }
  }

  /**
   Exactly when resolving twice gives the text and count of resolving once: the output has no
   resolvable hunk, and as many hunks as were refused.
   */
  lemma IdempotentIff(m: Markers, lines: seq<Line>)
    ensures var items := Parse(m, lines); var out := Output(items, None); var again := Parse(m, out);
      (Output(again, None) == out && Refused(again, None) == Refused(items, None))
      <==> Quiet(again, None) && Hunks(again) == Refused(items, None)
  {
    var again := Parse(m, Output(Parse(m, lines), None));
    FixedPointIff(m, Output(Parse(m, lines), None));
    if Quiet(again, None) {
      QuietCounts(again, None);
    }
  }

  // ----- exactly when, on the input -----

  predicate NoHeadings(lines: seq<Line>) {
    forall i :: 0 <= i < |lines| ==> !IsHeading(lines[i])
  }

  /** After the first hunk that keeps an opening marker no heading line follows. */
  predicate NoHeadingAfterMarker(m: Markers, items: seq<Item>, heading: Option<Line>) {
    items == [] ||
    if Resolvable(items[0], heading) && !NoneStarts(Piece(items[0], heading), m.open)
    then NoHeadings(Flatten(items[1..]))
    else NoHeadingAfterMarker(m, items[1..], After(items[0], heading))
  }

  lemma {:induction false} AnyHeadingMeans(lines: seq<Line>)
    requires NoHeadings(lines)
    ensures !AnyHeading(lines)
  {
    if lines != [] {
      AnyHeadingMeans(lines[1..]);
    }
  }

  lemma PieceNoHeadings(item: Item, heading: Option<Line>)
    requires Resolvable(item, heading)
    ensures NoHeadings(Piece(item, heading))
  {
    forall i | 0 <= i < |Piece(item, heading)| ensures !IsHeading(Piece(item, heading)[i]) {
      PieceHasNoHeading(item, heading, i);
    }
  }

  lemma {:induction false} OutputNoHeadings(items: seq<Item>, heading: Option<Line>)
    requires NoHeadings(Flatten(items))
    ensures NoHeadings(Output(items, heading))
    decreases |items|
  {
    if items != [] {
      NoHeadingsSplit(Raw(items[0]), Flatten(items[1..]));
      OutputNoHeadings(items[1..], After(items[0], heading));
      if Resolvable(items[0], heading) {
        PieceNoHeadings(items[0], heading);
      }
      NoHeadingsJoin(Piece(items[0], heading), Output(items[1..], After(items[0], heading)));
    }
  }

  lemma NoHeadingsSplit(a: seq<Line>, b: seq<Line>)
    requires NoHeadings(a + b)
    ensures NoHeadings(a) && NoHeadings(b)
  {
    assert forall i :: 0 <= i < |a| ==> (a + b)[i] == a[i];
    assert forall i :: 0 <= i < |b| ==> (a + b)[|a| + i] == b[i];
  }

  lemma NoHeadingsJoin(a: seq<Line>, b: seq<Line>)
    requires NoHeadings(a) && NoHeadings(b)
    ensures NoHeadings(a + b)
  {
  }

  /** A hunk read from lines without headings carries none. */
  lemma HunkCarriesNone(m: Markers, lines: seq<Line>)
    requires lines != [] && NoHeadings(lines)
    ensures !CarriesHeading(HunkAt(m, lines))
  {
    var hunk := HunkAt(m, lines);
    NoHeadingsJoin(hunk.ours, hunk.theirs);
    AnyHeadingMeans(hunk.ours + hunk.theirs);
  }

  /** Lines in Unreleased, one of which opens a hunk: with no heading after them that hunk is resolvable. */
  lemma {:induction false} MarkerIsResolved(m: Markers, lines: seq<Line>, tail: seq<Line>, heading: Option<Line>)
    requires IsUnreleased(heading) && !NoneStarts(lines, m.open) && NoHeadings(lines + tail)
    ensures !Quiet(Parse(m, lines + tail), heading)
    decreases |lines|
  {
    var all := lines + tail;
    var items := Parse(m, all);
    if StartsWith(all[0], m.open) {
      HunkCarriesNone(m, all);
      assert items[0] == HunkAt(m, all);
    } else {
      NoneStartsStep(lines, m.open);
      assert all[1..] == lines[1..] + tail;
      NoHeadingsSplit([all[0]], all[1..]);
      MarkerIsResolved(m, lines[1..], tail, heading);
      assert items[0] == Plain(all[0]) && items[1..] == Parse(m, all[1..]);
      assert !IsHeading(all[0]);
    }
  }

  /** Plain lines without headings are skipped. */
  lemma {:induction false} QuietAfterPlain(m: Markers, lines: seq<Line>, tail: seq<Line>, heading: Option<Line>)
    requires NoneStarts(lines, m.open) && NoHeadings(lines)
    ensures Quiet(Parse(m, lines + tail), heading) <==> Quiet(Parse(m, tail), heading)
    decreases |lines|
  {
    var all := lines + tail;
    if lines == [] {
      assert all == tail;
    } else {
      NoneStartsStep(lines, m.open);
      assert all[1..] == lines[1..] + tail && all[0] == lines[0];
      QuietAfterPlain(m, lines[1..], tail, heading);
      var items := Parse(m, all);
      assert items[0] == Plain(all[0]) && items[1..] == Parse(m, all[1..]);
      assert !IsHeading(lines[0]);
    }
  }

  /** An item left as it is reads back as itself. */
  lemma QuietAfterItem(m: Markers, item: Item, tail: seq<Line>, heading: Option<Line>)
    requires ItemOk(m, item, tail == []) && !Resolvable(item, heading)
    ensures Quiet(Parse(m, Raw(item) + tail), heading) <==> Quiet(Parse(m, tail), After(item, heading))
  {
    var all := Raw(item) + tail;
    var items := Parse(m, all);
    if item.Hunk? {
      HunkReadsBack(m, item, tail);
      assert all[|Raw(item)|..] == tail;
      assert all[0] == item.opening;
    } else {
      assert all[1..] == tail;
    }
    assert items[0] == item && items[1..] == Parse(m, tail);
  }

  lemma ItemOkSomewhere(m: Markers, item: Item, last: bool)
    requires ItemOk(m, item, false)
    ensures ItemOk(m, item, last)
  {
  }

  lemma {:induction false} UncleanIsNotQuiet(m: Markers, items: seq<Item>, heading: Option<Line>)
    requires ItemsOk(m, items) && !Clean(m, items, heading) && NoHeadingAfterMarker(m, items, heading)
    ensures !Quiet(Parse(m, Output(items, heading)), heading)
    decreases |items|
  {
    var item, after := items[0], After(items[0], heading);
    var tail := Output(items[1..], after);
    if Resolvable(item, heading) {
      PieceNoHeadings(item, heading);
      if !NoneStarts(Piece(item, heading), m.open) {
        OutputNoHeadings(items[1..], after);
        NoHeadingsJoin(Piece(item, heading), tail);
        MarkerIsResolved(m, Piece(item, heading), tail, heading);
      } else {
        UncleanIsNotQuiet(m, items[1..], after);
        QuietAfterPlain(m, Piece(item, heading), tail, heading);
      }
    } else {
      UncleanIsNotQuiet(m, items[1..], after);
      ItemOkSomewhere(m, item, tail == []);
      QuietAfterItem(m, item, tail, heading);
    }
  }

  /**
   For a text in which no heading follows the first kept opening marker, resolving twice gives
   the text and count of resolving once if and only if no kept line is an opening marker.
   */
  lemma IdempotentIffClean(m: Markers, lines: seq<Line>)
    requires NoHeadingAfterMarker(m, Parse(m, lines), None)
    ensures var items := Parse(m, lines); var out := Output(items, None);
      (Output(Parse(m, out), None) == out && Refused(Parse(m, out), None) == Refused(items, None))
      <==> Clean(m, items, None)
  {
    var items := Parse(m, lines);
    if Clean(m, items, None) {
      ResolveIsIdempotent(m, lines);
    } else {
      ParseIsOk(m, lines);
      UncleanIsNotQuiet(m, items, None);
      FixedPointIff(m, Output(items, None));
    }
  }

  // ----- what the output holds -----

  /** `a` appears in `b` in order. */
  predicate Within(a: seq<Line>, b: seq<Line>) {
    a == [] || (b != [] && ((a[0] == b[0] && Within(a[1..], b[1..])) || Within(a, b[1..])))
  }

  lemma {:induction false} WithinLater(a: seq<Line>, front: seq<Line>, b: seq<Line>)
    requires Within(a, b)
    ensures Within(a, front + b)
    decreases |front|
  {
    if front == [] {
      assert front + b == b;
    } else {
      assert (front + b)[1..] == front[1..] + b;
      WithinLater(a, front[1..], b);
    }
  }

  lemma {:induction false} WithinJoin(a: seq<Line>, b: seq<Line>, c: seq<Line>, d: seq<Line>)
    requires Within(a, b) && Within(c, d)
    ensures Within(a + c, b + d)
    decreases |b|
  {
    if a == [] {
      assert a + c == c;
      WithinLater(c, b, d);
    } else {
      assert (b + d)[1..] == b[1..] + d && (a + c)[1..] == a[1..] + c;
      if a[0] == b[0] && Within(a[1..], b[1..]) {
        WithinJoin(a[1..], b[1..], c, d);
      } else {
        WithinJoin(a, b[1..], c, d);
      }
    }
  }

  lemma {:induction false} WithinSelf(a: seq<Line>)
    ensures Within(a, a)
    decreases |a|
  {
    if a != [] {
      WithinSelf(a[1..]);
    }
  }

  lemma WithinMiddle(front: seq<Line>, a: seq<Line>, back: seq<Line>)
    ensures Within(a, front + a + back)
  {
    WithinSelf(a);
    WithinJoin(a, a, [], back);
    assert a + [] == a;
    WithinLater(a, front, a + back);
    assert front + (a + back) == front + a + back;
  }

  /** One side's text: every hunk replaced by that side. */
  function Side(items: seq<Item>, ours: bool): seq<Line> {
    if items == [] then [] else SideOf(items[0], ours) + Side(items[1..], ours)
  }

  function SideOf(item: Item, ours: bool): seq<Line> {
    match item
    case Plain(line) => [line]
    case Hunk(_, mine, _, other, _) => if ours then mine else other
  }

  lemma SideWithinPiece(item: Item, heading: Option<Line>, ours: bool)
    ensures Within(SideOf(item, ours), Piece(item, heading))
  {
    var side := SideOf(item, ours);
    if item.Plain? {
      WithinSelf(side);
    } else if Resolvable(item, heading) {
      if ours {
        WithinMiddle([], side, Seam(item) + item.theirs);
        assert [] + side + (Seam(item) + item.theirs) == Piece(item, heading);
      } else {
        WithinMiddle(item.ours + Seam(item), side, []);
        assert item.ours + Seam(item) + side + [] == Piece(item, heading);
      }
    } else {
      SideWithinRaw(item, ours);
    }
  }

  lemma SideWithinRaw(hunk: Item, ours: bool)
    requires hunk.Hunk?
    ensures Within(SideOf(hunk, ours), Raw(hunk))
  {
    if ours {
      var back := Opt(hunk.mid) + hunk.theirs + Opt(hunk.closing);
      WithinMiddle([hunk.opening], hunk.ours, back);
      assert [hunk.opening] + hunk.ours + back == Raw(hunk);
    } else {
      WithinMiddle([hunk.opening] + hunk.ours + Opt(hunk.mid), hunk.theirs, Opt(hunk.closing));
    }
  }

  /** Both sides' whole texts survive in the output, each in its own order. */
  lemma {:induction false} OutputKeepsBothSides(items: seq<Item>, heading: Option<Line>, ours: bool)
    ensures Within(Side(items, ours), Output(items, heading))
    decreases |items|
  {
    if items != [] {
      var after := After(items[0], heading);
      OutputKeepsBothSides(items[1..], after, ours);
      SideWithinPiece(items[0], heading, ours);
      WithinJoin(SideOf(items[0], ours), Piece(items[0], heading), Side(items[1..], ours), Output(items[1..], after));
    }
  }

  lemma {:induction false} OutputSplits(a: seq<Item>, b: seq<Item>, heading: Option<Line>)
    ensures Output(a + b, heading) == Output(a, heading) + Output(b, HeadingAfter(a, heading))
    decreases |a|
  {
    if a == [] {
      assert a + b == b;
    } else {
      assert (a + b)[1..] == a[1..] + b;
      OutputSplits(a[1..], b, After(a[0], heading));
    }
  }

  lemma OutputAround(items: seq<Item>, i: nat)
    requires i <= |items|
    ensures Output(items, None) == Output(items[..i], None) + Output(items[i..], HeadingAfter(items[..i], None))
  {
    SplitsAt(items, i, items[..i], items[i..]);
  }

  lemma SplitsAt(items: seq<Item>, i: nat, a: seq<Item>, b: seq<Item>)
    requires i <= |items| && a == items[..i] && b == items[i..]
    ensures Output(items, None) == Output(a, None) + Output(b, HeadingAfter(a, None))
  {
    var joined := a + b;
    assert joined == items;
    OutputSplits(a, b, None);
  }

  lemma OutputHead(items: seq<Item>, i: nat, heading: Option<Line>)
    requires i < |items|
    ensures Output(items[i..], heading) == Piece(items[i], heading) + Output(items[i + 1..], After(items[i], heading))
  {
    assert items[i..][1..] == items[i + 1..];
  }

  /**
   Every plain line and every hunk outside Unreleased or with a heading stands unchanged
   between the outputs of what surrounds it.
   */
  lemma RefusedStands(items: seq<Item>, i: nat)
    requires i < |items| && !Resolvable(items[i], HeadingAfter(items[..i], None))
    ensures var heading := HeadingAfter(items[..i], None);
      Output(items, None)
        == Output(items[..i], None) + (Raw(items[i]) + Output(items[i + 1..], After(items[i], heading)))
  {
    OutputAround(items, i);
    OutputHead(items, i, HeadingAfter(items[..i], None));
  }

  /** The marker lines of the resolved hunks, and the blank lines put between their sides. */
  function Gone(hunk: Item): seq<Line>
    requires hunk.Hunk?
  {
    [hunk.opening] + Opt(hunk.mid) + Opt(hunk.closing)
  }

  function Dropped(items: seq<Item>, heading: Option<Line>): seq<Line> {
    if items == [] then [] else
      var rest := Dropped(items[1..], After(items[0], heading));
      if Resolvable(items[0], heading) then Gone(items[0]) + rest else rest
  }

  function Blanks(items: seq<Item>, heading: Option<Line>): seq<Line> {
    if items == [] then [] else
      var rest := Blanks(items[1..], After(items[0], heading));
      if Resolvable(items[0], heading) then Seam(items[0]) + rest else rest
  }

  function Resolved(items: seq<Item>, heading: Option<Line>): nat {
    if items == [] then 0
    else (if Resolvable(items[0], heading) then 1 else 0) + Resolved(items[1..], After(items[0], heading))
  }

  function Hunks(items: seq<Item>): nat {
    if items == [] then 0 else (if items[0].Hunk? then 1 else 0) + Hunks(items[1..])
  }

  lemma PieceConserves(item: Item, heading: Option<Line>, line: Line)
    requires Resolvable(item, heading)
    ensures multiset(Piece(item, heading))[line] + multiset(Gone(item))[line]
      == multiset(Raw(item))[line] + multiset(Seam(item))[line]
  {
  }

  lemma CountJoin(a: seq<Line>, b: seq<Line>, line: Line)
    ensures multiset(a + b)[line] == multiset(a)[line] + multiset(b)[line]
  {
  }

  /**
   Lines are conserved, with their multiplicity: only the markers of resolved hunks go, and
   only the blank lines of their seams come.
   */
  lemma {:induction false} LinesConserved(items: seq<Item>, heading: Option<Line>, line: Line)
    ensures multiset(Output(items, heading))[line] + multiset(Dropped(items, heading))[line]
         == multiset(Flatten(items))[line] + multiset(Blanks(items, heading))[line]
    decreases |items|
  {
    if items != [] {
      var after := After(items[0], heading);
      LinesConserved(items[1..], after, line);
      CountJoin(Piece(items[0], heading), Output(items[1..], after), line);
      CountJoin(Raw(items[0]), Flatten(items[1..]), line);
      if Resolvable(items[0], heading) {
        PieceConserves(items[0], heading, line);
        CountJoin(Gone(items[0]), Dropped(items[1..], after), line);
        CountJoin(Seam(items[0]), Blanks(items[1..], after), line);
      }
    }
  }

  /** At most one blank line per resolved hunk; every hunk is either resolved or counted as refused. */
  lemma {:induction false} HunksCounted(items: seq<Item>, heading: Option<Line>)
    ensures |Blanks(items, heading)| <= Resolved(items, heading)
    ensures forall i :: 0 <= i < |Blanks(items, heading)| ==> Blanks(items, heading)[i] == Line("\n")
    ensures Resolved(items, heading) + Refused(items, heading) == Hunks(items)
    decreases |items|
  {
    if items != [] {
      HunksCounted(items[1..], After(items[0], heading));
    }
  }
}
