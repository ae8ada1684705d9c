/**
 The observation record inside a flake issue (scripts/ci-queue-flakes.py): the issue body that
 `reconcile` writes and the single marker line from which `issue_state` reads the record back.
 */
module FlakeRecord {
  import opened Wrappers
  import opened Decimal
  import opened Newlines
  import opened Json
  import JsonText
  import JsonDecoded

  /** Code points of a literal. */
  function T(s: string): Text {
    seq(|s|, i requires 0 <= i < |s| => s[i] as int)
  }

  // ----- finding markers -----

  const PREFIX := T("<!-- cas-queue-flake: ")
  const SUFFIX := T(" -->")

  /** The line is matched by the whole marker pattern. */
  predicate IsMarker(line: Text) {
    |line| > |PREFIX| + |SUFFIX| && PREFIX <= line && line[|line| - |SUFFIX|..] == SUFFIX
  }

  /** A marker is the two fixed parts with something between them. */
  lemma MarkerIff(line: Text)
    ensures IsMarker(line) <==>
      exists inside: Text :: inside != [] && line == T("<!-- cas-queue-flake: ") + inside + T(" -->")
  {
    if IsMarker(line) {
      var inside := line[|PREFIX|..|line| - |SUFFIX|];
      assert line == PREFIX + inside + SUFFIX;
    }
  }

  function Captured(line: Text): seq<Text> {
    if IsMarker(line) then [line[|PREFIX|..|line| - |SUFFIX|]] else []
  }

  /** `MARKER.findall`: a match never crosses a newline, so it is found line by line. */
  function Markers(text: Text): seq<Text>
    decreases |text|
  {
    var k := LineEnd(text);
    if k == |text| then Captured(text)
    else Captured(text[..k]) + Markers(text[k + 1..])
  }

  lemma MarkersOfLine(line: Text, rest: Text)
    requires NEWLINE !in line
    ensures Markers(line + [NEWLINE] + rest) == Captured(line) + Markers(rest)
  {
    var s := line + [NEWLINE] + rest;
    LineEndAt(line, rest);
    assert s[..|line|] == line && s[|line| + 1..] == rest;
  }

  // ----- text that cannot hold a marker -----

  const COMMENT := T("<!--")

  /** No `<!--` starts anywhere. */
  predicate NoComment(t: Text) {
    forall i :: 0 <= i <= |t| ==> !(COMMENT <= t[i..])
  }

  lemma MarkerStartsComment(line: Text)
    requires IsMarker(line)
    ensures COMMENT <= line
  {
    assert COMMENT == PREFIX[..4];
    assert line[..4] == PREFIX[..4];
  }

  lemma CutLine(t: Text, k: nat, rest: Text)
    requires k < |t| && t[k] == NEWLINE
    ensures t + [NEWLINE] + rest == t[..k] + [NEWLINE] + (t[k + 1..] + [NEWLINE] + rest)
  {
    assert t == t[..k] + [NEWLINE] + t[k + 1..];
  }

  lemma {:induction false} NoCommentNoMarkers(t: Text, rest: Text)
    requires NoComment(t)
    ensures Markers(t + [NEWLINE] + rest) == Markers(rest)
    decreases |t|
  {
    var k := LineEnd(t);
    var line := t[..k];
    assert t[0..] == t && !(COMMENT <= t);
    assert !(COMMENT <= line);
    if IsMarker(line) {
      MarkerStartsComment(line);
    }
    if k == |t| {
      assert line == t;
      MarkersOfLine(t, rest);
    } else {
      var more := t[k + 1..];
      assert NoComment(more) by {
        forall i | 0 <= i <= |more| ensures !(COMMENT <= more[i..]) {
          assert more[i..] == t[k + 1 + i..];
        }
      }
      CutLine(t, k, rest);
      MarkersOfLine(line, more + [NEWLINE] + rest);
      NoCommentNoMarkers(more, rest);
    }
  }

  /** Python's `str.replace` for a non-empty pattern. */
  function Replace(s: Text, pattern: Text, with: Text): Text
    requires pattern != []
    decreases |s|
  {
    if s == [] then []
    else if pattern <= s then with + Replace(s[|pattern|..], pattern, with)
    else [s[0]] + Replace(s[1..], pattern, with)
  }

  const ESCAPED := T("&lt;!--")
  const FENCE := T("```")
  const BROKEN_FENCE := T("` ` `")

  lemma {:induction false} StartKept(u: Text, w: Text)
    requires w <= Replace(u, COMMENT, ESCAPED) && 38 !in w
    ensures w <= u
    decreases |w|
  {
    if w != [] {
      var r := Replace(u, COMMENT, ESCAPED);
      assert r[0] == w[0] && w[0] in w;
      assert ESCAPED[0] == 38;
      assert r[1..] == Replace(u[1..], COMMENT, ESCAPED);
      assert w[1..] <= r[1..];
      StartKept(u[1..], w[1..]);
      assert u == [u[0]] + u[1..] && w == [w[0]] + w[1..];
    }
  }

  /** No comment survives the replacement, whatever the output was. */
  lemma {:induction false} ReplaceRemovesComments(s: Text)
    ensures NoComment(Replace(s, COMMENT, ESCAPED))
    decreases |s|
  {
    var r := Replace(s, COMMENT, ESCAPED);
    if s == [] {
      assert forall i :: 0 <= i <= |r| ==> r[i..] == [];
    } else if COMMENT <= s {
      var tail := Replace(s[4..], COMMENT, ESCAPED);
      ReplaceRemovesComments(s[4..]);
      forall i | 0 <= i <= |r| ensures !(COMMENT <= r[i..]) {
        if i < |ESCAPED| {
          assert r[i..][0] == ESCAPED[i] != COMMENT[0];
        } else {
          assert r[i..] == tail[i - |ESCAPED|..];
        }
      }
    } else {
      var tail := Replace(s[1..], COMMENT, ESCAPED);
      ReplaceRemovesComments(s[1..]);
      assert s == [s[0]] + s[1..] && r == [s[0]] + tail && COMMENT == [COMMENT[0]] + COMMENT[1..];
      if COMMENT[1..] <= tail {
        StartKept(s[1..], COMMENT[1..]);
      }
      forall i | 0 <= i <= |r| ensures !(COMMENT <= r[i..]) {
        if i > 0 {
          assert r[i..] == tail[i - 1..];
        } else {
          assert r[0..] == r && r[1..] == tail;
        }
      }
    }
  }

  // ----- test identities -----

  const FLAKY_LIST: Text := [102, 108, 97, 107, 121]
  const RUNNER: Text := [114, 117, 110, 110, 101, 114]
  const BINARY: Text := [98, 105, 110, 97, 114, 121]
  const NAME: Text := [110, 97, 109, 101]
  const PROJECT: Text := [112, 114, 111, 106, 101, 99, 116]
  const FILE: Text := [102, 105, 108, 101]
  const TITLES: Text := [116, 105, 116, 108, 101, 115]
  const SCHEMA: Text := [115, 99, 104, 101, 109, 97]
  const RUNS: Text := [114, 117, 110, 115]
  const TEST: Text := [116, 101, 115, 116]
  const RUST: Text := [114, 117, 115, 116]
  const PLAYWRIGHT: Text := [112, 108, 97, 121, 119, 114, 105, 103, 104, 116]
  const STEP: Text := [115, 116, 101, 112]

  datatype Test =
    | Rust(binary: Text, name: Text)
    | Playwright(project: Text, file: Text, titles: seq<Text>)
    | Step(name: Text)

  predicate IsTest(t: Test) {
    match t
    case Rust(binary, name) => IsText(binary) && IsText(name)
    case Playwright(project, file, titles) =>
      IsText(project) && IsText(file) && forall i :: 0 <= i < |titles| ==> IsText(titles[i])
    case Step(name) => IsText(name)
  }

  function Strings(texts: seq<Text>): (r: seq<Value>)
    ensures |r| == |texts| && forall i :: 0 <= i < |r| ==> r[i] == Str(texts[i])
  {
    seq(|texts|, i requires 0 <= i < |texts| => Str(texts[i]))
  }

  function IdentityValue(t: Test): Value {
    match t
    case Rust(binary, name) => Arr([Str(RUST), Str(binary), Str(name)])
    case Playwright(project, file, titles) => Arr([Str(PLAYWRIGHT), Str(project), Str(file), Arr(Strings(titles))])
    case Step(name) => Arr([Str(STEP), Str(name)])
  }

  lemma IdentityPrintable(t: Test)
    requires IsTest(t)
    ensures JsonText.IsValue(IdentityValue(t)) && JsonText.Survives(IdentityValue(t), false)
  {
  }

  /** `identity`: the presentation key of a test. */
  function Identity(t: Test): Text
    requires IsTest(t)
  {
    IdentityPrintable(t);
    JsonText.Print(IdentityValue(t), false)
  }

  /** Two tests share a key only when they are the same test. */
  lemma IdentityInjective(a: Test, b: Test)
    requires IsTest(a) && IsTest(b) && Identity(a) == Identity(b)
    ensures a == b
  {
    IdentityPrintable(a);
    IdentityPrintable(b);
    JsonText.PrintInjective(IdentityValue(a), IdentityValue(b), false);
    assert IdentityValue(a).items == IdentityValue(b).items;
    if a.Playwright? && b.Playwright? {
      assert Strings(a.titles) == Strings(b.titles);
      forall i | 0 <= i < |a.titles| ensures a.titles[i] == b.titles[i] {
        assert Strings(a.titles)[i] == Strings(b.titles)[i];
      }
    }
  }

  /** Characters that JSON prints as they are. */
  predicate IsPlain(t: Text) {
    forall i :: 0 <= i < |t| ==> t[i] >= 32 && t[i] != 34 && t[i] != 92
  }

  lemma {:induction false} PlainEscapes(t: Text)
    requires IsText(t) && IsPlain(t)
    ensures Escape(t, false) == t
  {
    if t != [] {
      PlainEscapes(t[1..]);
      assert EscapeChar(t[0], false) == [t[0]];
      assert t == [t[0]] + t[1..];
    }
  }

  function Quoted(t: Text): Text {
    T("\"") + t + T("\"")
  }

  lemma PlainString(t: Text)
    requires IsText(t) && IsPlain(t)
    ensures JsonText.Print(Str(t), false) == Quoted(t) && JsonText.PrintItems([Str(t)], false) == Quoted(t)
  {
    PlainEscapes(t);
    assert T("\"") == [34];
  }

  lemma CommaIs()
    ensures T(", ") == [JsonText.COMMA, JsonText.SPACE]
  {
  }

  lemma ItemsFirst(v: Value, rest: seq<Value>, items: seq<Value>)
    requires items == [v] + rest && rest != [] && forall i :: 0 <= i < |items| ==> JsonText.IsValue(items[i])
    requires forall i :: 0 <= i < |rest| ==> JsonText.IsValue(rest[i])
    ensures JsonText.IsValue(v)
    ensures JsonText.PrintItems(items, false)
         == JsonText.Print(v, false) + [JsonText.COMMA, JsonText.SPACE] + JsonText.PrintItems(rest, false)
  {
    assert items[0] == v && items[1..] == rest;
  }

  lemma PlainStringFirst(t: Text, rest: seq<Value>)
    requires IsText(t) && IsPlain(t) && rest != [] && forall i :: 0 <= i < |rest| ==> JsonText.IsValue(rest[i])
    ensures var items := [Str(t)] + rest;
      JsonText.PrintItems(items, false) == Quoted(t) + T(", ") + JsonText.PrintItems(rest, false)
  {
    PlainString(t);
    CommaIs();
    ItemsFirst(Str(t), rest, [Str(t)] + rest);
  }

  lemma RunnersPlain()
    ensures IsText(STEP) && IsPlain(STEP) && IsText(RUST) && IsPlain(RUST)
    ensures STEP == T("step") && RUST == T("rust")
  {
  }

  /** The key as text, where the names need no escape: `["step", "name"]` and `["rust", "binary", "name"]`. */
  lemma StepIdentityIs(t: Test)
    requires IsTest(t) && t.Step? && IsPlain(t.name)
    ensures Identity(t) == T("[") + (Quoted(T("step")) + T(", ") + Quoted(t.name)) + T("]")
  {
    IdentityPrintable(t);
    RunnersPlain();
    PlainString(t.name);
    PlainStringFirst(STEP, [Str(t.name)]);
    assert [Str(STEP)] + [Str(t.name)] == [Str(STEP), Str(t.name)];
    assert T("[") == [91] && T("]") == [93];
  }

  lemma RustIdentityIs(t: Test)
    requires IsTest(t) && t.Rust? && IsPlain(t.binary) && IsPlain(t.name)
    ensures Identity(t)
         == T("[") + (Quoted(T("rust")) + T(", ") + (Quoted(t.binary) + T(", ") + Quoted(t.name))) + T("]")
  {
    IdentityPrintable(t);
    RunnersPlain();
    PlainString(t.name);
    PlainStringFirst(t.binary, [Str(t.name)]);
    PlainStringFirst(RUST, [Str(t.binary)] + [Str(t.name)]);
    assert [Str(RUST)] + ([Str(t.binary)] + [Str(t.name)]) == [Str(RUST), Str(t.binary), Str(t.name)];
    assert T("[") == [91] && T("]") == [93];
  }

  lemma IdentityIsOneLine(t: Test)
    requires IsTest(t)
    ensures NEWLINE !in Identity(t)
  {
    IdentityPrintable(t);
    JsonText.PrintHasNoControls(IdentityValue(t), false);
  }

  // ----- the issue body -----

  const LEAD := T("Merge-queue ") + T("fail-then-pass: ") + T("**FLAKY**. Fix this test; ")
    + T("close this issue with the ") + T("fix PR.")
  const STEP_NOTE := T("The step remains covered ") + T("on later trees; its ") + T("quarantine issue tracks ")
    + T("the recovered failure.")
  const QUARANTINE_NOTE := T("An open ") + T("`flaky-quarantine` issue ") + T("excludes this identity ")
    + T("from subsequent queue ") + T("trees.")
  const RUNS_TITLE := T("Independent runs:")
  const FAILURE_TITLE := T("Latest initial failure:")
  const TEXT_FENCE := T("```text")
  const KEY_LEAD := T("Test id: `")
  const KEY_END := T("`")
  const COMMIT_LEAD := T("Evaluated commit: ")
  const URL_LEAD := T("- https://github.com/")
  const URL_MIDDLE := T("/actions/runs/")

  /** Lines, each ended by a newline, then a tail. */
  function Lines(lines: seq<Text>, tail: Text): Text {
    if lines == [] then tail else lines[0] + [NEWLINE] + Lines(lines[1..], tail)
  }

  /** One line that no marker can match. */
  predicate PlainLine(line: Text) {
    NEWLINE !in line && !(COMMENT <= line)
  }

  lemma {:induction false} PlainLinesHaveNoMarkers(lines: seq<Text>, tail: Text)
    requires AllPlain(lines)
    ensures Markers(Lines(lines, tail)) == Markers(tail)
  {
    if lines != [] {
      assert PlainLine(lines[0]);
      if IsMarker(lines[0]) {
        MarkerStartsComment(lines[0]);
      }
      MarkersOfLine(lines[0], Lines(lines[1..], tail));
      PlainLinesHaveNoMarkers(lines[1..], tail);
    }
  }

  function Truncate(s: Text, n: nat): Text {
    if |s| <= n then s else s[..n]
  }

  /** The failing output as the body shows it (scripts/ci-queue-flakes.py:451). */
  function Shown(output: Text): Text {
    Replace(Replace(Truncate(output, 16000), FENCE, BROKEN_FENCE), COMMENT, ESCAPED)
  }

  /** No occurrence of the pattern starts before place n. */
  predicate NoneBefore(s: Text, pattern: Text, n: nat) {
    forall i :: 0 <= i < n && i <= |s| ==> !(pattern <= s[i..])
  }

  lemma NoneShift(s: Text, pattern: Text, n: nat)
    requires s != [] && n > 0 && NoneBefore(s, pattern, n)
    ensures NoneBefore(s[1..], pattern, n - 1) && !(pattern <= s)
  {
    assert s[0..] == s;
    forall i | 0 <= i < n - 1 && i <= |s[1..]| ensures !(pattern <= s[1..][i..]) {
      assert s[1..][i..] == s[i + 1..];
    }
  }

  /** Text without the pattern is kept. */
  lemma {:induction false} ReplaceKeeps(s: Text, pattern: Text, with: Text)
    requires pattern != [] && NoneBefore(s, pattern, |s|)
    ensures Replace(s, pattern, with) == s
    decreases |s|
  {
    if s != [] {
      NoneShift(s, pattern, |s|);
      ReplaceKeeps(s[1..], pattern, with);
    }
  }

  lemma ShiftedSlices(s: Text, n: nat, k: nat)
    requires 0 < n && n + k <= |s|
    ensures s[1..][n - 1..] == s[n..] && s[1..][n - 1 + k..] == s[n + k..]
    ensures [s[0]] + s[1..][..n - 1] == s[..n]
  {
  }

  lemma HeadJoins(c: int, a: Text, b: Text)
    ensures [c] + (a + b) == ([c] + a) + b
  {
  }

  lemma ReplaceHere(s: Text, pattern: Text, with: Text)
    requires pattern != [] && pattern <= s
    ensures Replace(s, pattern, with) == with + Replace(s[|pattern|..], pattern, with)
  {
  }

  lemma ReplaceSkips(s: Text, pattern: Text, with: Text)
    requires pattern != [] && s != [] && !(pattern <= s)
    ensures Replace(s, pattern, with) == [s[0]] + Replace(s[1..], pattern, with)
  {
  }

  lemma ReplaceLater(s: Text, n: nat, pattern: Text, with: Text, tail: Text)
    requires pattern != [] && 0 < n <= |s| && !(pattern <= s)
    requires Replace(s[1..], pattern, with) == s[1..][..n - 1] + tail
    ensures Replace(s, pattern, with) == s[..n] + tail
  {
    ReplaceSkips(s, pattern, with);
    HeadJoins(s[0], s[1..][..n - 1], tail);
    ShiftedSlices(s, n, 0);
  }

  /** The first occurrence is replaced, and what follows it is treated alike. */
  lemma {:induction false} ReplaceFirst(s: Text, n: nat, pattern: Text, with: Text, rest: Text)
    requires pattern != [] && n + |pattern| <= |s| && pattern <= s[n..] && NoneBefore(s, pattern, n)
    requires rest == s[n + |pattern|..]
    ensures Replace(s, pattern, with) == s[..n] + (with + Replace(rest, pattern, with))
    decreases n
  {
    var tail := with + Replace(rest, pattern, with);
    if n == 0 {
      assert s[0..] == s;
      ReplaceHere(s, pattern, with);
      assert s[..0] + tail == tail;
    } else {
      NoneShift(s, pattern, n);
      ShiftedSlices(s, n, |pattern|);
      ReplaceFirst(s[1..], n - 1, pattern, with, rest);
      ReplaceLater(s, n, pattern, with, tail);
    }
  }

  predicate Harmless(s: Text) {
    NoneBefore(s, T("```"), |s|) && NoneBefore(s, T("<!--"), |s|)
  }

  /**
   What the issue shows of an output: the first 16000 characters of it, unchanged where they hold
   no fence of three backticks and no comment opening.
   */
  lemma ShownMeans(output: Text)
    ensures |output| > 16000 ==> Shown(output) == Shown(output[..16000])
    ensures |output| <= 16000 && Harmless(output) ==> Shown(output) == output
  {
    if |output| <= 16000 && Harmless(output) {
      ReplaceKeeps(output, FENCE, BROKEN_FENCE);
      ReplaceKeeps(output, COMMENT, ESCAPED);
    }
  }

  function MarkerLine(state: Value): Text
    requires JsonText.IsValue(state)
  {
    PREFIX + JsonText.Print(state, true) + SUFFIX
  }

  function RunLine(repository: Text, run: Text): Text {
    URL_LEAD + repository + URL_MIDDLE + run
  }

  function RunLines(repository: Text, runs: seq<Text>): (r: seq<Text>)
    ensures |r| == |runs| && forall i :: 0 <= i < |r| ==> r[i] == RunLine(repository, runs[i])
  {
    seq(|runs|, i requires 0 <= i < |runs| => RunLine(repository, runs[i]))
  }

  function Opening(test: Test): seq<Text>
    requires IsTest(test)
  {
    var note := if test.Step? then STEP_NOTE else QUARANTINE_NOTE;
    [LEAD, [], note, [], KEY_LEAD + Identity(test) + KEY_END, [], RUNS_TITLE]
  }

  /** The note about coverage is for steps, the one about exclusion for all other tests. */
  lemma NoteIs(test: Test)
    requires IsTest(test)
    ensures Opening(test)[2][..9] == if test.Step? then T("The step ") else T("An open `")
  {
    assert STEP_NOTE[..9] == T("The step ") && QUARANTINE_NOTE[..9] == T("An open `");
  }

  function Closing(head: Text): seq<Text> {
    [[], COMMIT_LEAD + head, [], FAILURE_TITLE, TEXT_FENCE]
  }

  function Preface(test: Test, repository: Text, head: Text, runs: seq<Text>): seq<Text>
    requires IsTest(test)
  {
    Opening(test) + (if runs == [] then [[]] else RunLines(repository, runs)) + Closing(head)
  }

  function Ending(state: Value): Text
    requires JsonText.IsValue(state)
  {
    Lines([FENCE, [], MarkerLine(state)], [])
  }

  /** The whole body (scripts/ci-queue-flakes.py:445-452). */
  function Body(test: Test, repository: Text, head: Text, runs: seq<Text>, output: Text, state: Value): Text
    requires IsTest(test) && JsonText.IsValue(state)
  {
    Lines(Preface(test, repository, head, runs),
          Shown(output) + [NEWLINE] + Ending(state))
  }

  /** What the workflow passes in: repository name, commit id and run ids are single lines. */
  predicate SingleLines(repository: Text, head: Text, runs: seq<Text>) {
    NEWLINE !in repository && NEWLINE !in head && forall i :: 0 <= i < |runs| ==> NEWLINE !in runs[i]
  }

  lemma PlainByFirst(line: Text)
    requires NEWLINE !in line && (line == [] || line[0] != 60)
    ensures PlainLine(line)
  {
    assert COMMENT[0] == 60;
  }

  /** A literal without newlines that does not start with `<`. */
  lemma LiteralIsPlain(s: string)
    requires '\n' !in s && s != "" && s[0] != '<'
    ensures NEWLINE !in T(s) && T(s)[0] == s[0] as int && PlainLine(T(s))
  {
    forall i | 0 <= i < |T(s)| ensures T(s)[i] != NEWLINE {
      assert s[i] in s;
      assert ('\n' as int) == 10;
    }
    PlainByFirst(T(s));
  }

  lemma RunLineIsPlain(repository: Text, run: Text)
    requires NEWLINE !in repository && NEWLINE !in run
    ensures PlainLine(RunLine(repository, run))
  {
    LiteralIsPlain("- https://github.com/");
    LiteralIsPlain("/actions/runs/");
    PlainByFirst(RunLine(repository, run));
  }

  lemma LeadIsPlain()
    ensures PlainLine(LEAD)
  {
    LiteralIsPlain("Merge-queue ");
    LiteralIsPlain("fail-then-pass: ");
    LiteralIsPlain("**FLAKY**. Fix this test; ");
    LiteralIsPlain("close this issue with the ");
    LiteralIsPlain("fix PR.");
    PlainByFirst(LEAD);
  }

  lemma StepNoteIsPlain()
    ensures PlainLine(STEP_NOTE)
  {
    LiteralIsPlain("The step remains covered ");
    LiteralIsPlain("on later trees; its ");
    LiteralIsPlain("quarantine issue tracks ");
    LiteralIsPlain("the recovered failure.");
    PlainByFirst(STEP_NOTE);
  }

  lemma QuarantineNoteIsPlain()
    ensures PlainLine(QUARANTINE_NOTE)
  {
    LiteralIsPlain("An open ");
    LiteralIsPlain("`flaky-quarantine` issue ");
    LiteralIsPlain("excludes this identity ");
    LiteralIsPlain("from subsequent queue ");
    LiteralIsPlain("trees.");
    PlainByFirst(QUARANTINE_NOTE);
  }

  lemma TitlesArePlain()
    ensures PlainLine(RUNS_TITLE) && PlainLine(FAILURE_TITLE) && PlainLine(TEXT_FENCE) && PlainLine(FENCE)
  {
    LiteralIsPlain("Independent runs:");
    LiteralIsPlain("Latest initial failure:");
    LiteralIsPlain("```text");
    LiteralIsPlain("```");
  }

  lemma KeyLineIsPlain(test: Test)
    requires IsTest(test)
    ensures PlainLine(KEY_LEAD + Identity(test) + KEY_END)
  {
    IdentityIsOneLine(test);
    LiteralIsPlain("Test id: `");
    LiteralIsPlain("`");
    PlainByFirst(KEY_LEAD + Identity(test) + KEY_END);
  }

  lemma CommitLineIsPlain(head: Text)
    requires NEWLINE !in head
    ensures PlainLine(COMMIT_LEAD + head)
  {
    LiteralIsPlain("Evaluated commit: ");
    PlainByFirst(COMMIT_LEAD + head);
  }

  predicate AllPlain(lines: seq<Text>) {
    forall i :: 0 <= i < |lines| ==> PlainLine(lines[i])
  }

  lemma MarkerLineIsMarker(state: Value)
    requires JsonText.IsValue(state)
    ensures NEWLINE !in MarkerLine(state)
    ensures Captured(MarkerLine(state)) == [JsonText.Print(state, true)]
  {
    var json := JsonText.Print(state, true);
    JsonText.PrintHasNoControls(state, true);
    JsonText.PrintStarts(state, true);
    var line := MarkerLine(state);
    assert NEWLINE !in PREFIX && NEWLINE !in SUFFIX;
    assert line[|line| - |SUFFIX|..] == SUFFIX && line[..|PREFIX|] == PREFIX;
    assert line[|PREFIX|..|line| - |SUFFIX|] == json;
  }

  lemma EndingHasOneMarker(state: Value)
    requires JsonText.IsValue(state)
    ensures Markers(Ending(state)) == [JsonText.Print(state, true)]
  {
    var marker := MarkerLine(state);
    var blank: Text := [];
    var lines, fence, last := [FENCE, blank, marker], [FENCE, blank], marker + [NEWLINE] + [];
    assert lines[1..] == [blank, marker] && [blank, marker][1..] == [marker] && [marker][1..] == [];
    assert fence[1..] == [blank] && [blank][1..] == [];
    assert Lines([marker], []) == last;
    assert Lines([blank, marker], []) == Lines([blank], last);
    assert Lines(lines, []) == Lines(fence, last);
    TitlesArePlain();
    PlainByFirst(blank);
    PlainLinesHaveNoMarkers(fence, last);
    MarkerLineIsMarker(state);
    MarkersOfLine(marker, []);
    assert Markers([]) == [];
  }

  // The body for arbitrary inputs, single-line or not.

  lemma {:induction false} MarkersAppend(a: Text, b: Text)
    ensures Markers(a + [NEWLINE] + b) == Markers(a) + Markers(b)
    decreases |a|
  {
    var k := LineEnd(a);
    if k == |a| {
      OneLine(a, k);
      MarkersOfLine(a, b);
    } else {
      MarkersAppend(a[k + 1..], b);
      FirstLine(a, k, b);
    }
  }

  lemma OneLine(t: Text, k: nat)
    requires LineEnd(t) == k == |t|
    ensures NEWLINE !in t && Markers(t) == Captured(t)
  {
    assert t[..k] == t;
  }

  lemma FirstLine(t: Text, k: nat, rest: Text)
    requires LineEnd(t) == k < |t| && Markers(t[k + 1..] + [NEWLINE] + rest) == Markers(t[k + 1..]) + Markers(rest)
    ensures Markers(t + [NEWLINE] + rest) == Markers(t) + Markers(rest)
  {
    var line, more := t[..k], t[k + 1..];
    MarkersStep(t);
    CutLine(t, k, rest);
    MarkersOfLine(line, more + [NEWLINE] + rest);
    Reassociate(Captured(line), Markers(more), Markers(rest));
  }

  lemma MarkersStep(t: Text)
    requires LineEnd(t) < |t|
    ensures Markers(t) == Captured(t[..LineEnd(t)]) + Markers(t[LineEnd(t) + 1..])
  {
  }

  /** The markers inside each of these texts, in order. */
  function MarkersIn(lines: seq<Text>): seq<Text> {
    if lines == [] then [] else Markers(lines[0]) + MarkersIn(lines[1..])
  }

  lemma {:induction false} LinesMarkers(lines: seq<Text>, tail: Text)
    ensures Markers(Lines(lines, tail)) == MarkersIn(lines) + Markers(tail)
  {
    if lines != [] {
      MarkersAppend(lines[0], Lines(lines[1..], tail));
      LinesMarkers(lines[1..], tail);
      Reassociate(Markers(lines[0]), MarkersIn(lines[1..]), Markers(tail));
    }
  }

  lemma Reassociate(a: seq<Text>, b: seq<Text>, c: seq<Text>)
    ensures a + (b + c) == (a + b) + c
  {
  }

  lemma {:induction false} MarkersInAppend(a: seq<Text>, b: seq<Text>)
    ensures MarkersIn(a + b) == MarkersIn(a) + MarkersIn(b)
  {
    if a == [] {
      assert a + b == b;
    } else {
      assert (a + b)[0] == a[0] && (a + b)[1..] == a[1..] + b;
      MarkersInAppend(a[1..], b);
      Reassociate(Markers(a[0]), MarkersIn(a[1..]), MarkersIn(b));
    }
  }

  lemma {:induction false} PlainMarkersIn(lines: seq<Text>)
    requires AllPlain(lines)
    ensures MarkersIn(lines) == []
  {
    if lines != [] {
      assert PlainLine(lines[0]);
      if IsMarker(lines[0]) {
        MarkerStartsComment(lines[0]);
      }
      assert LineEnd(lines[0]) == |lines[0]|;
      PlainMarkersIn(lines[1..]);
    }
  }

  lemma OpeningIsPlain(test: Test)
    requires IsTest(test)
    ensures AllPlain(Opening(test))
  {
    LeadIsPlain();
    StepNoteIsPlain();
    QuarantineNoteIsPlain();
    TitlesArePlain();
    PlainByFirst([]);
    KeyLineIsPlain(test);
  }

  lemma AfterCommitIsPlain()
    ensures MarkersIn([[], FAILURE_TITLE, TEXT_FENCE]) == []
    ensures MarkersIn([[]]) == []
  {
    PlainByFirst([]);
    TitlesArePlain();
    PlainMarkersIn([[], FAILURE_TITLE, TEXT_FENCE]);
    PlainMarkersIn([[]]);
  }

  lemma ClosingMarkers(head: Text)
    ensures MarkersIn(Closing(head)) == Markers(COMMIT_LEAD + head)
  {
    var commit := COMMIT_LEAD + head;
    AfterCommitIsPlain();
    MarkersInAppend([[]], [commit] + [[], FAILURE_TITLE, TEXT_FENCE]);
    MarkersInAppend([commit], [[], FAILURE_TITLE, TEXT_FENCE]);
    assert [commit][1..] == [];
    assert Closing(head) == [[]] + ([commit] + [[], FAILURE_TITLE, TEXT_FENCE]);
  }

  lemma PrefaceMarkers(test: Test, repository: Text, head: Text, runs: seq<Text>)
    requires IsTest(test)
    ensures MarkersIn(Preface(test, repository, head, runs))
         == MarkersIn(RunLines(repository, runs)) + Markers(COMMIT_LEAD + head)
  {
    var middle := if runs == [] then [[]] else RunLines(repository, runs);
    OpeningIsPlain(test);
    PlainMarkersIn(Opening(test));
    ClosingMarkers(head);
    AfterCommitIsPlain();
    ThreeParts(Opening(test), middle, Closing(head));
  }

  lemma ThreeParts(a: seq<Text>, b: seq<Text>, c: seq<Text>)
    requires MarkersIn(a) == []
    ensures MarkersIn(a + b + c) == MarkersIn(b) + MarkersIn(c)
  {
    MarkersInAppend(a + b, c);
    MarkersInAppend(a, b);
  }

  /**
   Whatever the inputs, the body's markers are those that the repository name, the run ids and
   the commit id bring along, followed by the state.
   */
  lemma BodyMarkers(test: Test, repository: Text, head: Text, runs: seq<Text>, output: Text, state: Value)
    requires IsTest(test) && JsonText.IsValue(state)
    ensures Markers(Body(test, repository, head, runs, output, state))
         == MarkersIn(RunLines(repository, runs)) + Markers(COMMIT_LEAD + head) + [JsonText.Print(state, true)]
  {
    LinesMarkers(Preface(test, repository, head, runs), Shown(output) + [NEWLINE] + Ending(state));
    PrefaceMarkers(test, repository, head, runs);
    ReplaceRemovesComments(Replace(Truncate(output, 16000), FENCE, BROKEN_FENCE));
    NoCommentNoMarkers(Shown(output), Ending(state));
    EndingHasOneMarker(state);
  }

  /** Exactly one marker, for every output and state, if and only if the outside names carry none. */
  lemma BodyHasOneMarkerIff(test: Test, repository: Text, head: Text, runs: seq<Text>, output: Text, state: Value)
    requires IsTest(test) && JsonText.IsValue(state)
    ensures |Markers(Body(test, repository, head, runs, output, state))| == 1 <==>
              MarkersIn(RunLines(repository, runs)) == [] && Markers(COMMIT_LEAD + head) == []
  {
    BodyMarkers(test, repository, head, runs, output, state);
  }

  /** Single-line names, which is what the workflow supplies, carry none. */
  lemma BodyHasOneMarker(test: Test, repository: Text, head: Text, runs: seq<Text>, output: Text, state: Value)
    requires IsTest(test) && JsonText.IsValue(state) && SingleLines(repository, head, runs)
    ensures Markers(Body(test, repository, head, runs, output, state)) == [JsonText.Print(state, true)]
  {
    BodyMarkers(test, repository, head, runs, output, state);
    CommitLineIsPlain(head);
    PlainMarkersIn([COMMIT_LEAD + head]);
    forall i | 0 <= i < |runs| ensures PlainLine(RunLines(repository, runs)[i]) {
      RunLineIsPlain(repository, runs[i]);
    }
    PlainMarkersIn(RunLines(repository, runs));
  }

  // ----- reading the record back -----

  function Get(v: Value, key: Text): Option<Value> {
    if v.Obj? then Find(v.members, key) else None
  }

  lemma {:induction false} FindAt(members: seq<Member>, i: nat)
    requires JsonText.DistinctKeys(members) && i < |members|
    ensures Find(members, members[i].key) == Some(members[i].value)
  {
    if i > 0 {
      assert members[1..][i - 1] == members[i];
      FindAt(members[1..], i - 1);
    }
  }

  function Find(members: seq<Member>, key: Text): Option<Value> {
    if members == [] then None
    else if members[0].key == key then Some(members[0].value)
    else Find(members[1..], key)
  }

  /** Python's `str.isdigit` on a run id. */
  predicate DigitString(v: Value) {
    v.Str? && v.s != [] && AllDigits(v.s)
  }

  function TextOf(v: Value, key: Text): Option<Text> {
    match Get(v, key)
    case Some(Str(t)) => Some(t)
    case _ => None
  }

  predicate AllStrings(items: seq<Value>) {
    forall i :: 0 <= i < |items| ==> items[i].Str?
  }

  function TextsOf(items: seq<Value>): (r: seq<Text>)
    requires AllStrings(items)
    ensures |r| == |items| && forall i :: 0 <= i < |r| ==> r[i] == items[i].s
  {
    seq(|items|, i requires 0 <= i < |items| => items[i].s)
  }

  /** The test fields stored in a record, when `identity` accepts them as strings. */
  function TestOf(v: Value): Option<Test> {
    match TextOf(v, RUNNER)
    case None => None
    case Some(runner) =>
      if runner == RUST then
        match (TextOf(v, BINARY), TextOf(v, NAME))
        case (Some(binary), Some(name)) => Some(Rust(binary, name))
        case _ => None
      else if runner == PLAYWRIGHT then
        match (TextOf(v, PROJECT), TextOf(v, FILE), Get(v, TITLES))
        case (Some(project), Some(file), Some(Arr(titles))) =>
          if AllStrings(titles) then Some(Playwright(project, file, TextsOf(titles))) else None
        case _ => None
      else if runner == STEP then
        match TextOf(v, NAME)
        case Some(name) => Some(Step(name))
        case None => None
      else None
  }

  datatype Record = Record(test: Test, runs: seq<Text>)

  /** `issue_state` on the value inside the marker. */
  function RecordOf(state: Value): Option<Record> {
    if Get(state, SCHEMA) !in {Some(Int(1)), Some(Bool(true))} then None   // Python's `True` equals 1
    else
      match (Get(state, RUNS), Get(state, TEST))
      case (Some(Arr(runs)), Some(test)) =>
        if (forall i :: 0 <= i < |runs| ==> DigitString(runs[i])) && TestOf(test).Some? then
          Some(Record(TestOf(test).value, TextsOf(runs)))
        else None
      case _ => None
  }

  /** Which values are records: schema 1, runs that are all digit strings, and a test of a known runner. */
  lemma RecordIff(state: Value, r: Record)
    ensures RecordOf(state) == Some(r) <==>
      && Get(state, T("schema")) in {Some(Int(1)), Some(Bool(true))}
      && Get(state, T("runs")) == Some(Arr(Strings(r.runs)))
      && (forall i :: 0 <= i < |r.runs| ==> r.runs[i] != [] && AllDigits(r.runs[i]))
      && Get(state, T("test")).Some? && TestOf(Get(state, T("test")).value) == Some(r.test)
  {
    RecordNames();
    match Get(state, RUNS)
    case Some(Arr(runs)) =>
      if forall i :: 0 <= i < |runs| ==> DigitString(runs[i]) {
        assert Strings(TextsOf(runs)) == runs;
      }
      if runs == Strings(r.runs) {
        assert forall i :: 0 <= i < |r.runs| ==> runs[i] == Str(r.runs[i]);
        assert TextsOf(runs) == r.runs;
      }
    case _ =>
  }

  lemma RecordNames()
    ensures SCHEMA == T("schema") && RUNS == T("runs") && TEST == T("test")
  {
  }

  /** `issue_state`: exactly one marker, readable JSON, a valid record. */
  function IssueState(body: Text): Option<Value> {
    var markers := Markers(body);
    if |markers| != 1 then None
    else
      match JsonText.Loads(markers[0])
      case None => None
      case Some(state) => if RecordOf(state).Some? then Some(state) else None
  }

  function TestMembers(t: Test): seq<Member> {
    match t
    case Rust(binary, name) =>
      [Member(RUNNER, Str(RUST)), Member(BINARY, Str(binary)), Member(NAME, Str(name))]
    case Playwright(project, file, titles) =>
      [Member(RUNNER, Str(PLAYWRIGHT)), Member(PROJECT, Str(project)), Member(FILE, Str(file)),
       Member(TITLES, Arr(Strings(titles)))]
    case Step(name) => [Member(RUNNER, Str(STEP)), Member(NAME, Str(name))]
  }

  /** The record `reconcile` writes for a new issue. */
  function RecordValue(r: Record): Value {
    Obj([Member(SCHEMA, Int(1)), Member(RUNS, Arr(Strings(r.runs))), Member(TEST, Obj(TestMembers(r.test)))])
  }

  predicate NoSplitTest(t: Test) {
    match t
    case Rust(binary, name) => NoSplitPair(binary) && NoSplitPair(name)
    case Playwright(project, file, titles) =>
      NoSplitPair(project) && NoSplitPair(file) && forall i :: 0 <= i < |titles| ==> NoSplitPair(titles[i])
    case Step(name) => NoSplitPair(name)
  }

  function MergeAll(texts: seq<Text>): (r: seq<Text>)
    ensures |r| == |texts| && forall i :: 0 <= i < |r| ==> r[i] == Merge(texts[i])
  {
    if texts == [] then [] else [Merge(texts[0])] + MergeAll(texts[1..])
  }

  /** The test with every adjacent surrogate pair of its texts joined. */
  function MergeTest(t: Test): Test {
    match t
    case Rust(binary, name) => Rust(Merge(binary), Merge(name))
    case Playwright(project, file, titles) => Playwright(Merge(project), Merge(file), MergeAll(titles))
    case Step(name) => Step(Merge(name))
  }

  lemma MergeTestIff(t: Test)
    ensures MergeTest(t) == t <==> NoSplitTest(t)
  {
    match t
    case Rust(binary, name) =>
      MergeShortens(binary);
      MergeShortens(name);
    case Playwright(project, file, titles) =>
      MergeShortens(project);
      MergeShortens(file);
      forall i | 0 <= i < |titles| ensures Merge(titles[i]) == titles[i] <==> NoSplitPair(titles[i]) {
        MergeShortens(titles[i]);
      }
      assert MergeAll(titles) == titles <==> forall i :: 0 <= i < |titles| ==> MergeAll(titles)[i] == titles[i];
    case Step(name) => MergeShortens(name);
  }

  predicate GoodRuns(runs: seq<Text>) {
    forall i :: 0 <= i < |runs| ==> runs[i] != [] && AllDigits(runs[i])
  }

  // What the reader makes of a member whose key is one of the literals.

  predicate IsAscii(t: Text) {
    forall i :: 0 <= i < |t| ==> 0 <= t[i] < 128
  }

  lemma PlainMerges(t: Text)
    requires IsAscii(t)
    ensures IsText(t) && Merge(t) == t
  {
    MergeShortens(t);
  }

  /** Keys are ASCII and differ: reading back changes the values alone. */
  lemma NormLiteralKeys(members: seq<Member>)
    requires JsonText.DistinctKeys(members) && forall i :: 0 <= i < |members| ==> IsAscii(members[i].key)
    ensures JsonText.Norm(Obj(members), true) == Obj(NormValues(members))
  {
    NormValuesAre(members);
    assert JsonText.DistinctKeys(NormValues(members));
    JsonText.PutDistinct(NormValues(members));
  }

  function NormValues(members: seq<Member>): (r: seq<Member>)
    ensures |r| == |members|
    ensures forall i :: 0 <= i < |r| ==> r[i] == Member(members[i].key, JsonText.Norm(members[i].value, true))
  {
    seq(|members|, i requires 0 <= i < |members| => Member(members[i].key, JsonText.Norm(members[i].value, true)))
  }

  lemma {:induction false} NormValuesAre(members: seq<Member>)
    requires forall i :: 0 <= i < |members| ==> IsAscii(members[i].key)
    ensures JsonText.NormMembers(members, true) == NormValues(members)
  {
    if members != [] {
      PlainMerges(members[0].key);
      NormValuesAre(members[1..]);
      assert NormValues(members) == [NormValues(members)[0]] + NormValues(members[1..]);
    }
  }

  lemma {:induction false} NormStrings(texts: seq<Text>)
    ensures JsonText.NormItems(Strings(texts), true) == Strings(MergeAll(texts))
  {
    if texts != [] {
      NormStrings(texts[1..]);
      assert Strings(texts)[0] == Str(texts[0]) && Strings(texts)[1..] == Strings(texts[1..]);
      assert Strings(MergeAll(texts)) == [Str(Merge(texts[0]))] + Strings(MergeAll(texts[1..]));
    }
  }

  lemma TestKeys(t: Test)
    ensures JsonText.DistinctKeys(TestMembers(t))
    ensures forall i :: 0 <= i < |TestMembers(t)| ==> IsAscii(TestMembers(t)[i].key)
    ensures RUST != PLAYWRIGHT && RUST != STEP && PLAYWRIGHT != STEP
    ensures IsAscii(RUST) && IsAscii(PLAYWRIGHT) && IsAscii(STEP)
  {
    assert RUNNER[0] == 114 && BINARY[0] == 98 && NAME[0] == 110 && PROJECT[0] == 112 && FILE[0] == 102
      && TITLES[0] == 116;
    assert RUST[0] == 114 && PLAYWRIGHT[0] == 112 && STEP[0] == 115;
  }

  lemma NormTest(t: Test)
    ensures JsonText.Norm(Obj(TestMembers(t)), true) == Obj(TestMembers(MergeTest(t)))
  {
    TestKeys(t);
    NormLiteralKeys(TestMembers(t));
    NormTestValues(t);
  }

  lemma NormText(t: Text)
    ensures JsonText.Norm(Str(t), true) == Str(Merge(t))
  {
  }

  lemma NormTestValues(t: Test)
    ensures NormValues(TestMembers(t)) == TestMembers(MergeTest(t))
  {
    match t
    case Rust(binary, name) => RustValues(binary, name);
    case Playwright(project, file, titles) => PlaywrightValues(project, file, titles);
    case Step(name) => StepValues(name);
  }

  lemma RustValues(binary: Text, name: Text)
    ensures NormValues(TestMembers(Rust(binary, name))) == TestMembers(Rust(Merge(binary), Merge(name)))
  {
    RunnerMerges();
    NormRust(RUST, binary, name);
  }

  lemma PlaywrightValues(project: Text, file: Text, titles: seq<Text>)
    ensures NormValues(TestMembers(Playwright(project, file, titles)))
         == TestMembers(Playwright(Merge(project), Merge(file), MergeAll(titles)))
  {
    RunnerMerges();
    NormStrings(titles);
    NormPlaywright(PLAYWRIGHT, project, file, Arr(Strings(titles)));
  }

  lemma StepValues(name: Text)
    ensures NormValues(TestMembers(Step(name))) == TestMembers(Step(Merge(name)))
  {
    RunnerMerges();
    NormStep(STEP, name);
  }

  /** The value of this member is read back as `v`. */
  predicate ReadsAs(m: Member, v: Value) {
    JsonText.Norm(m.value, true) == v
  }

  lemma NormStep(runner: Text, name: Text)
    ensures NormValues([Member(RUNNER, Str(runner)), Member(NAME, Str(name))])
         == [Member(RUNNER, Str(Merge(runner))), Member(NAME, Str(Merge(name)))]
  {
    NormText(runner);
    NormText(name);
  }

  lemma NormRust(runner: Text, binary: Text, name: Text)
    ensures NormValues([Member(RUNNER, Str(runner)), Member(BINARY, Str(binary)), Member(NAME, Str(name))])
         == [Member(RUNNER, Str(Merge(runner))), Member(BINARY, Str(Merge(binary))), Member(NAME, Str(Merge(name)))]
  {
    NormText(runner);
    NormText(binary);
    NormText(name);
    NormThree(Member(RUNNER, Str(runner)), Member(BINARY, Str(binary)), Member(NAME, Str(name)),
              Str(Merge(runner)), Str(Merge(binary)), Str(Merge(name)));
  }

  lemma NormThree(a: Member, b: Member, c: Member, x: Value, y: Value, z: Value)
    requires ReadsAs(a, x) && ReadsAs(b, y) && ReadsAs(c, z)
    ensures NormValues([a, b, c]) == [Member(a.key, x), Member(b.key, y), Member(c.key, z)]
  {
    var normed := NormValues([a, b, c]);
    assert normed[0].value == x && normed[1].value == y && normed[2].value == z;
  }

  lemma NormPlaywright(runner: Text, project: Text, file: Text, titles: Value)
    ensures NormValues([Member(RUNNER, Str(runner)), Member(PROJECT, Str(project)), Member(FILE, Str(file)),
                        Member(TITLES, titles)])
         == [Member(RUNNER, Str(Merge(runner))), Member(PROJECT, Str(Merge(project))), Member(FILE, Str(Merge(file))),
             Member(TITLES, JsonText.Norm(titles, true))]
  {
    NormText(runner);
    NormText(project);
    NormText(file);
    NormFour(Member(RUNNER, Str(runner)), Member(PROJECT, Str(project)), Member(FILE, Str(file)),
             Member(TITLES, titles),
             Str(Merge(runner)), Str(Merge(project)), Str(Merge(file)), JsonText.Norm(titles, true));
  }

  lemma NormFour(a: Member, b: Member, c: Member, d: Member, x: Value, y: Value, z: Value, w: Value)
    requires ReadsAs(a, x) && ReadsAs(b, y) && ReadsAs(c, z) && ReadsAs(d, w)
    ensures NormValues([a, b, c, d]) == [Member(a.key, x), Member(b.key, y), Member(c.key, z), Member(d.key, w)]
  {
    var normed := NormValues([a, b, c, d]);
    assert normed[0].value == x && normed[1].value == y && normed[2].value == z && normed[3].value == w;
  }

  lemma RunnerMerges()
    ensures Merge(RUST) == RUST && Merge(PLAYWRIGHT) == PLAYWRIGHT && Merge(STEP) == STEP
    ensures IsText(RUST) && IsText(PLAYWRIGHT) && IsText(STEP)
  {
    TestKeys(Step([]));
    PlainMerges(RUST);
    PlainMerges(PLAYWRIGHT);
    PlainMerges(STEP);
  }

  /** A stored test is read as that test. */
  lemma TestReads(t: Test)
    ensures TestOf(Obj(TestMembers(t))) == Some(t)
  {
    var m := TestMembers(t);
    TestKeys(t);
    FindAt(m, 0);
    FindAt(m, 1);
    if !t.Step? {
      FindAt(m, 2);
    }
    if t.Playwright? {
      FindAt(m, 3);
      assert TextsOf(Strings(t.titles)) == t.titles;
    }
  }

  lemma RecordKeys(r: Record)
    ensures var m := RecordValue(r).members;
      JsonText.DistinctKeys(m) && forall i :: 0 <= i < |m| ==> IsAscii(m[i].key)
  {
    assert SCHEMA[0] == 115 && RUNS[0] == 114 && TEST[0] == 116;
  }

  lemma RecordReads(r: Record)
    requires GoodRuns(r.runs)
    ensures RecordOf(RecordValue(r)) == Some(r)
  {
    TestReads(r.test);
    RecordKeys(r);
    var m := RecordValue(r).members;
    FindAt(m, 0);
    FindAt(m, 1);
    FindAt(m, 2);
    assert forall i :: 0 <= i < |r.runs| ==> DigitString(Strings(r.runs)[i]);
    assert TextsOf(Strings(r.runs)) == r.runs;
  }

  lemma DigitsMerge(runs: seq<Text>)
    requires GoodRuns(runs)
    ensures MergeAll(runs) == runs
  {
    forall i | 0 <= i < |runs| ensures MergeAll(runs)[i] == runs[i] {
      PlainMerges(runs[i]);
    }
  }

  lemma NormRecord(r: Record)
    requires GoodRuns(r.runs)
    ensures JsonText.Norm(RecordValue(r), true) == RecordValue(Record(MergeTest(r.test), r.runs))
  {
    RecordKeys(r);
    NormLiteralKeys(RecordValue(r).members);
    NormStrings(r.runs);
    DigitsMerge(r.runs);
    NormTest(r.test);
    assert NormValues(RecordValue(r).members) == RecordValue(Record(MergeTest(r.test), r.runs)).members;
  }

  /** Members with ASCII keys that differ make a value of their values. */
  lemma MembersAreValue(members: seq<Member>)
    requires JsonText.DistinctKeys(members)
    requires forall i :: 0 <= i < |members| ==> IsAscii(members[i].key) && JsonText.IsValue(members[i].value)
    ensures JsonText.IsValue(Obj(members))
  {
    forall i | 0 <= i < |members| ensures JsonText.IsMember(members[i]) {
      PlainMerges(members[i].key);
    }
  }

  lemma TestValues(t: Test, m: seq<Member>)
    requires IsTest(t) && m == TestMembers(t) && IsText(RUST) && IsText(PLAYWRIGHT) && IsText(STEP)
    ensures forall i :: 0 <= i < |m| ==> JsonText.IsValue(m[i].value)
  {
    if t.Playwright? {
      assert JsonText.IsValue(Arr(Strings(t.titles)));
    }
  }

  lemma TestIsValue(t: Test)
    requires IsTest(t)
    ensures JsonText.IsValue(Obj(TestMembers(t)))
  {
    TestKeys(t);
    RunnerMerges();
    TestValues(t, TestMembers(t));
    MembersAreValue(TestMembers(t));
  }

  lemma RecordIsValue(r: Record)
    requires IsTest(r.test) && GoodRuns(r.runs)
    ensures JsonText.IsValue(RecordValue(r))
  {
    var m := RecordValue(r).members;
    RecordKeys(r);
    TestIsValue(r.test);
    assert JsonText.IsValue(Arr(Strings(r.runs)));
    MembersAreValue(m);
  }

  /** The body of a new issue for a record. */
  function RecordBody(r: Record, repository: Text, head: Text, output: Text): Text
    requires IsTest(r.test) && GoodRuns(r.runs)
  {
    RecordIsValue(r);
    Body(r.test, repository, head, r.runs, output, RecordValue(r))
  }

  /** What the issue body gives back, for every record: the test with its surrogate pairs joined. */
  lemma RecordReadBack(r: Record, repository: Text, head: Text, output: Text)
    requires IsTest(r.test) && GoodRuns(r.runs) && SingleLines(repository, head, r.runs)
    ensures IssueState(RecordBody(r, repository, head, output)) == Some(RecordValue(Record(MergeTest(r.test), r.runs)))
  {
    RecordIsValue(r);
    BodyHasOneMarker(r.test, repository, head, r.runs, output, RecordValue(r));
    JsonText.LoadsPrints(RecordValue(r), true);
    NormRecord(r);
    RecordReads(Record(MergeTest(r.test), r.runs));
  }

  /** The record read back is the record written if and only if no text of the test has a split surrogate pair. */
  lemma RecordSurvivesIff(r: Record, repository: Text, head: Text, output: Text)
    requires IsTest(r.test) && GoodRuns(r.runs) && SingleLines(repository, head, r.runs)
    ensures IssueState(RecordBody(r, repository, head, output)) == Some(RecordValue(r)) <==> NoSplitTest(r.test)
    ensures RecordOf(RecordValue(r)) == Some(r)
  {
    RecordReadBack(r, repository, head, output);
    RecordReads(r);
    RecordReads(Record(MergeTest(r.test), r.runs));
    MergeTestIff(r.test);
  }

  // ----- tests that reach the record -----

  lemma {:induction false} FoundLasts(members: seq<Member>, key: Text)
    requires JsonDecoded.LastingMembers(members) && Find(members, key).Some?
    ensures JsonDecoded.Lasting(Find(members, key).value)
    decreases |members|
  {
    if members[0].key == key {
      assert JsonDecoded.LastingMember(members[0]);
    } else {
      assert forall i :: 0 <= i < |members[1..]| ==> members[1..][i] == members[i + 1];
      FoundLasts(members[1..], key);
    }
  }

  lemma GetLasts(v: Value, key: Text)
    requires JsonDecoded.Lasting(v) && Get(v, key).Some?
    ensures JsonDecoded.Lasting(Get(v, key).value)
  {
    FoundLasts(v.members, key);
  }

  lemma TextLasts(v: Value, key: Text)
    requires JsonDecoded.Lasting(v) && TextOf(v, key).Some?
    ensures IsText(TextOf(v, key).value) && NoSplitPair(TextOf(v, key).value)
  {
    GetLasts(v, key);
  }

  /** A test read from a value that lasts is a test that survives. */
  lemma TestLasts(v: Value)
    requires JsonDecoded.Lasting(v) && TestOf(v).Some?
    ensures IsTest(TestOf(v).value) && NoSplitTest(TestOf(v).value)
  {
    var t := TestOf(v).value;
    match t
    case Rust(_, _) =>
      TextLasts(v, BINARY);
      TextLasts(v, NAME);
    case Playwright(_, _, _) =>
      TextLasts(v, PROJECT);
      TextLasts(v, FILE);
      GetLasts(v, TITLES);
      assert forall i :: 0 <= i < |t.titles| ==> JsonDecoded.Lasting(Get(v, TITLES).value.items[i]);
    case Step(_) => TextLasts(v, NAME);
  }

  /** `receipt['flaky'][i]` of a receipt file's decoded text. */
  function FlakyTest(text: Text, i: nat): Option<Test> {
    match JsonText.Loads(text)
    case None => None
    case Some(receipt) =>
      match Get(receipt, FLAKY_LIST)
      case Some(Arr(tests)) => if i < |tests| then TestOf(tests[i]) else None
      case _ => None
  }

  /**
   Every test that a receipt hands to `reconcile` has texts without adjacent surrogate pairs, so
   its record is read back from the issue exactly as it was written.
   */
  lemma ReceiptTestSurvives(text: Text, i: nat, runs: seq<Text>, repository: Text, head: Text, output: Text)
    requires JsonDecoded.Decoded(text) && FlakyTest(text, i).Some?
    requires GoodRuns(runs) && SingleLines(repository, head, runs)
    ensures var r := Record(FlakyTest(text, i).value, runs);
      && IsTest(r.test) && NoSplitTest(r.test)
      && IssueState(RecordBody(r, repository, head, output)) == Some(RecordValue(r))
      && RecordOf(RecordValue(r)) == Some(r)
  {
    var receipt := JsonText.Loads(text).value;
    JsonDecoded.LoadedSurvives(text);
    GetLasts(receipt, FLAKY_LIST);
    var tests := Get(receipt, FLAKY_LIST).value.items;
    assert JsonDecoded.Lasting(tests[i]);
    TestLasts(tests[i]);
    RecordSurvivesIff(Record(FlakyTest(text, i).value, runs), repository, head, output);
  }

  function StoredTests(tests: seq<Test>): (values: seq<Value>)
    ensures |values| == |tests| && forall i :: 0 <= i < |values| ==> values[i] == Obj(TestMembers(tests[i]))
  {
    seq(|tests|, i requires 0 <= i < |tests| => Obj(TestMembers(tests[i])))
  }

  /** The flaky tests of a receipt are read as the tests they were stored for. */
  lemma FlakyTestsRead(text: Text, receipt: Value, tests: seq<Test>, i: nat)
    requires JsonText.Loads(text) == Some(receipt) && Get(receipt, T("flaky")) == Some(Arr(StoredTests(tests)))
    requires i < |tests|
    ensures FlakyTest(text, i) == Some(tests[i])
  {
    assert FLAKY_LIST == T("flaky");
    TestReads(tests[i]);
  }
}
