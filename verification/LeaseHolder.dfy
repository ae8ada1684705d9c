/**
 The lease-holder process (`hold` in scripts/host_memory.py). It chunks its owner's message
 stream in chunks of any size, remembers the tracked process groups, and leaves either on a
 complete `release` line or, after the end of the stream, once every tracked group is dead.
 */
module LeaseHolder {
  import opened Wrappers
  import opened Decimal
  import opened Newlines

  const RELEASE: seq<int> := [114, 101, 108, 101, 97, 115, 101]
  const PGID: seq<int> := [112, 103, 105, 100, 32]

  // ----- Python's int() on a byte string -----

  predicate IsSpace(c: int) {
    c == 32 || 9 <= c <= 13
  }

  function StripLeft(s: seq<int>): seq<int> {
    if s != [] && IsSpace(s[0]) then StripLeft(s[1..]) else s
  }

  function StripRight(s: seq<int>): seq<int> {
    if s != [] && IsSpace(s[|s| - 1]) then StripRight(s[..|s| - 1]) else s
  }

  /** Digits with single underscores strictly between digits. */
  predicate IsNumeral(s: seq<int>) {
    && s != []
    && IsDigit(s[0]) && IsDigit(s[|s| - 1])
    && (forall i :: 0 <= i < |s| ==> IsDigit(s[i]) || s[i] == 95)
    && (forall i :: 0 < i < |s| && s[i] == 95 ==> IsDigit(s[i - 1]))
  }

  function DropUnderscores(s: seq<int>): (r: seq<int>)
    requires forall i :: 0 <= i < |s| ==> IsDigit(s[i]) || s[i] == 95
    ensures AllDigits(r)
    ensures AllDigits(s) ==> r == s
  {
    if s == [] then []
    else if s[0] == 95 then DropUnderscores(s[1..])
    else [s[0]] + DropUnderscores(s[1..])
  }

  /** An optional sign and a numeral. */
  function ParseSigned(s: seq<int>): Option<int> {
    var signed := s != [] && (s[0] == 43 || s[0] == 45);
    var body := if signed then s[1..] else s;
    if !IsNumeral(body) then None
    else
      var n: int := Value(DropUnderscores(body));
      Some(if signed && s[0] == 45 then -n else n)
  }

  function ParseInt(text: seq<int>): Option<int> {
    ParseSigned(StripRight(StripLeft(text)))
  }

  lemma ParseDigits(n: nat)
    ensures ParseInt(Digits(n)) == Some(n)
  {
    var d := Digits(n);
    assert IsDigit(d[0]) && IsDigit(d[|d| - 1]);
    assert StripLeft(d) == d && StripRight(d) == d;
    ValueOfDigits(n);
  }

  // ----- what the stream means, line by line -----

  /** The complete lines of a stream: every maximal piece that a newline ends. */
  function CompleteLines(s: seq<int>): seq<seq<int>>
    decreases |s|
  {
    var k := LineEnd(s);
    if k == |s| then [] else [s[..k]] + CompleteLines(s[k + 1..])
  }

  predicate IsTrack(line: seq<int>) {
    PGID <= line
  }

  /** A `pgid` line whose number Python cannot read ends the holder with an exception. */
  predicate IsMalformed(line: seq<int>) {
    IsTrack(line) && ParseInt(line[5..]).None?
  }

  function TrackedBy(line: seq<int>): set<int> {
    if IsTrack(line) && ParseInt(line[5..]).Some? then {ParseInt(line[5..]).value} else {}
  }

  /** Every group that one of these lines tracks. */
  function Tracked(lines: seq<seq<int>>): set<int> {
    if lines == [] then {} else TrackedBy(lines[0]) + Tracked(lines[1..])
  }

  predicate Stops(line: seq<int>) {
    line == RELEASE || IsMalformed(line)
  }

  // ----- the scanner, as the loop runs it -----

  datatype Scan = Released | Malformed | Open(groups: set<int>, pending: seq<int>)

  /** The inner loop at scripts/host_memory.py:508-513. */
  function ScanPending(groups: set<int>, pending: seq<int>): Scan
    decreases |pending|
  {
    var k := LineEnd(pending);
    if k == |pending| then Open(groups, pending)
    else
      var line := pending[..k];
      if line == RELEASE then Released
      else if IsMalformed(line) then Malformed
      else ScanPending(groups + TrackedBy(line), pending[k + 1..])
  }

  lemma CutAppend(a: seq<int>, b: seq<int>, k: nat)
    requires k < |a|
    ensures (a + b)[..k] == a[..k] && (a + b)[k + 1..] == a[k + 1..] + b
  {
  }

  /** Reading two chunks is the same as reading their concatenation. */
  lemma {:induction false} ScanAppend(groups: set<int>, a: seq<int>, b: seq<int>)
    ensures ScanPending(groups, a + b) == Continued(ScanPending(groups, a), b)
    decreases |a|
  {
    var k := LineEnd(a);
    if k < |a| {
      LineEndOfAppend(a, b);
      CutAppend(a, b, k);
      var line, more := a[..k], a[k + 1..];
      ScanStep(groups, a, line, more);
      ScanStep(groups, a + b, line, more + b);
      if !Stops(line) {
        ScanAppend(groups + TrackedBy(line), more, b);
      }
    }
  }

  /** A scan that goes on with more bytes, unless it has stopped. */
  function Continued(scan: Scan, b: seq<int>): Scan {
    match scan
    case Open(groups, pending) => ScanPending(groups, pending + b)
    case other => other
  }

  lemma ScanStep(groups: set<int>, s: seq<int>, line: seq<int>, more: seq<int>)
    requires LineEnd(s) == |line| < |s| && line == s[..|line|] && more == s[|line| + 1..]
    ensures ScanPending(groups, s)
         == if line == RELEASE then Released
            else if IsMalformed(line) then Malformed
            else ScanPending(groups + TrackedBy(line), more)
  {
  }

  predicate NoStop(lines: seq<seq<int>>) {
    forall i :: 0 <= i < |lines| ==> !Stops(lines[i])
  }

  /** Some line is `release` and no line before it stopped the holder. */
  predicate ReleasedBy(lines: seq<seq<int>>) {
    exists i :: 0 <= i < |lines| && lines[i] == RELEASE && NoStop(lines[..i])
  }

  lemma ReleaseIsNotTrack()
    ensures !IsTrack(RELEASE)
  {
    assert RELEASE[0] != PGID[0];
  }

  lemma ReleasedByCons(line: seq<int>, rest: seq<seq<int>>)
    ensures NoStop([line] + rest) <==> !Stops(line) && NoStop(rest)
    ensures line == RELEASE ==> ReleasedBy([line] + rest)
    ensures IsMalformed(line) ==> !ReleasedBy([line] + rest)
    ensures !Stops(line) ==> (ReleasedBy([line] + rest) <==> ReleasedBy(rest))
  {
    var lines := [line] + rest;
    assert lines[1..] == rest;
    assert forall i :: 0 < i < |lines| ==> lines[i] == rest[i - 1];
    if NoStop(lines) {
      forall i | 0 <= i < |rest| ensures !Stops(rest[i]) {
        assert lines[i + 1] == rest[i];
      }
    }
    ReleaseIsNotTrack();
    if line == RELEASE {
      assert lines[0] == RELEASE && lines[..0] == [];
    }
    if ReleasedBy(lines) {
      var i :| 0 <= i < |lines| && lines[i] == RELEASE && NoStop(lines[..i]);
      if i > 0 {
        assert lines[..i][0] == line;
        assert lines[..i] == [line] + rest[..i - 1];
        var before := rest[..i - 1];
        forall j | 0 <= j < |before| ensures !Stops(before[j]) {
          assert lines[..i][j + 1] == before[j];
        }
        assert rest[i - 1] == RELEASE && NoStop(rest[..i - 1]);
      }
    }
    if ReleasedBy(rest) && !Stops(line) {
      var i :| 0 <= i < |rest| && rest[i] == RELEASE && NoStop(rest[..i]);
      assert lines[..i + 1] == [line] + rest[..i];
      assert lines[i + 1] == RELEASE && NoStop(lines[..i + 1]);
    }
  }

  /** Which outcome a stream has, in terms of its complete lines alone. */
  lemma {:induction false} ScanMeansLines(groups: set<int>, s: seq<int>)
    ensures ScanPending(groups, s).Open? <==> NoStop(CompleteLines(s))
    ensures ScanPending(groups, s).Open? ==> ScanPending(groups, s).groups == groups + Tracked(CompleteLines(s))
    ensures ScanPending(groups, s).Released? <==> ReleasedBy(CompleteLines(s))
    decreases |s|
  {
    var k := LineEnd(s);
    if k < |s| {
      var line, rest := s[..k], CompleteLines(s[k + 1..]);
      ReleasedByCons(line, rest);
      assert ([line] + rest)[1..] == rest;
      ScanMeansLines(groups + TrackedBy(line), s[k + 1..]);
    }
  }

  // ----- the whole process -----

  /** How a run of the holder ends; `Waiting` and `Draining` are runs that have not ended. */
  datatype Outcome = LeftOnRelease | Crashed | LeftDrained | Waiting | Draining

  /** Bytes received before the end of the stream; an empty read is the end. */
  function Received(chunks: seq<seq<int>>): seq<int> {
    if chunks == [] || chunks[0] == [] then [] else chunks[0] + Received(chunks[1..])
  }

  predicate Ended(chunks: seq<seq<int>>) {
    [] in chunks
  }

  predicate SomePollQuiet(groups: set<int>, polls: seq<set<int>>) {
    exists i :: 0 <= i < |polls| && groups !! polls[i]
  }

  /** What a run does, as a function of the received bytes and not of their chunking. */
  function HoldOutcome(stream: seq<int>, ended: bool, polls: seq<set<int>>): Outcome {
    match ScanPending({}, stream)
    case Released => LeftOnRelease
    case Malformed => Crashed
    case Open(groups, _) =>
      if !ended then Waiting
      else if SomePollQuiet(groups, polls) then LeftDrained
      else Draining
  }

  lemma {:induction false} ReceivedPrefix(chunks: seq<seq<int>>, n: nat)
    requires n < |chunks| && [] !in chunks[..n]
    ensures chunks[n] == [] ==> Received(chunks) == Received(chunks[..n])
    ensures chunks[n] != [] ==> Received(chunks[..n + 1]) == Received(chunks[..n]) + chunks[n]
  {
    if n == 0 {
      assert chunks[..1] == [chunks[0]];
      assert [chunks[0]][1..] == [];
    } else {
      assert chunks[0] in chunks[..n];
      assert chunks[..n][1..] == chunks[1..][..n - 1];
      assert chunks[..n + 1][1..] == chunks[1..][..n];
      ReceivedPrefix(chunks[1..], n - 1);
    }
  }

  /** A run that got its answer from a prefix of the stream keeps it when more arrives. */
  lemma {:induction false} DecidedEarly(chunks: seq<seq<int>>, n: nat)
    requires n <= |chunks| && [] !in chunks[..n]
    requires !ScanPending({}, Received(chunks[..n])).Open?
    ensures ScanPending({}, Received(chunks)) == ScanPending({}, Received(chunks[..n]))
    decreases |chunks| - n
  {
    if n == |chunks| {
      assert chunks[..n] == chunks;
    } else {
      ReceivedPrefix(chunks, n);
      if chunks[n] != [] {
        ScanAppend({}, Received(chunks[..n]), chunks[n]);
        DecidedEarly(chunks, n + 1);
      }
    }
  }

  /** The inner loop: take every complete line out of `pending`. */
  method ConsumeLines(tracked: set<int>, received: seq<int>) returns (scan: Scan)
    ensures scan == ScanPending(tracked, received)
  {
    var groups, pending := tracked, received;
    while LineEnd(pending) < |pending|
      invariant ScanPending(groups, pending) == ScanPending(tracked, received)
      decreases |pending|
    {
      var k := LineEnd(pending);
      var line := pending[..k];
      ScanStep(groups, pending, line, pending[k + 1..]);
      if line == RELEASE {
        return Released;
      }
      if PGID <= line {
        var group := ParseInt(line[5..]);
        if group.None? {
          return Malformed;
        }
        groups := groups + {group.value};
      } else {
        assert groups + {} == groups;
      }
      pending := pending[k + 1..];
    }
    return Open(groups, pending);
  }

  /** The reading loop: until a release, a malformed line, the end of the stream, or no more input. */
  method Listen(chunks: seq<seq<int>>) returns (scan: Scan, ended: bool)
    ensures scan == ScanPending({}, Received(chunks))
    ensures scan.Open? ==> ended == Ended(chunks)
  {
    var groups: set<int>, pending: seq<int> := {}, [];
    for n := 0 to |chunks|
      invariant [] !in chunks[..n]
      invariant ScanPending({}, Received(chunks[..n])) == Open(groups, pending)
    {
      ReceivedPrefix(chunks, n);
      var chunk := chunks[n];
      if chunk == [] {
        return Open(groups, pending), true;
      }
      ScanAppend({}, Received(chunks[..n]), chunk);
      pending := pending + chunk;
      assert chunks[..n + 1] == chunks[..n] + [chunk];
      scan := ConsumeLines(groups, pending);
      if !scan.Open? {
        DecidedEarly(chunks, n + 1);
        return scan, false;
      }
      groups, pending := scan.groups, scan.pending;
    }
    assert chunks[..|chunks|] == chunks;
    return Open(groups, pending), false;
  }

  /** The draining loop: until a poll shows every tracked group dead. */
  method Drain(groups: set<int>, polls: seq<set<int>>) returns (quiet: bool)
    ensures quiet == SomePollQuiet(groups, polls)
  {
    for i := 0 to |polls|
      invariant forall j :: 0 <= j < i ==> !(groups !! polls[j])
    {
      if groups !! polls[i] {
        return true;
      }
    }
    return false;
  }

  /**
   The holder process. `chunks` are the results of successive `os.read` calls and `polls` the
   groups alive at successive polls; a run that uses them up is still waiting or draining.
   */
  method Hold(chunks: seq<seq<int>>, polls: seq<set<int>>) returns (outcome: Outcome)
    ensures outcome == HoldOutcome(Received(chunks), Ended(chunks), polls)
  {
    var scan, ended := Listen(chunks);
    if scan.Released? {
      return LeftOnRelease;
    }
    if scan.Malformed? {
      return Crashed;
    }
    if !ended {
      return Waiting;
    }
    var quiet := Drain(scan.groups, polls);
    return if quiet then LeftDrained else Draining;
  }

  /** Some line cannot be read and no line before it stopped the holder. */
  predicate CrashedBy(lines: seq<seq<int>>) {
    exists i :: 0 <= i < |lines| && IsMalformed(lines[i]) && NoStop(lines[..i])
  }

  lemma {:induction false} FirstStop(lines: seq<seq<int>>) returns (k: nat)
    requires !NoStop(lines)
    ensures k < |lines| && Stops(lines[k]) && NoStop(lines[..k])
    decreases |lines|
  {
    var n := |lines| - 1;
    if NoStop(lines[..n]) {
      k := n;
      assert forall i :: 0 <= i < n ==> lines[..n][i] == lines[i];
    } else {
      k := FirstStop(lines[..n]);
      assert lines[..n][..k] == lines[..k];
    }
  }

  lemma NoEarlierStop(lines: seq<seq<int>>, i: nat, j: nat)
    ensures i < j <= |lines| && NoStop(lines[..j]) ==> !Stops(lines[i])
  {
    if i < j <= |lines| && NoStop(lines[..j]) {
      assert lines[..j][i] == lines[i];
    }
  }

  /** A stream stops the holder in exactly one way. */
  lemma OneStop(lines: seq<seq<int>>)
    ensures CrashedBy(lines) <==> !NoStop(lines) && !ReleasedBy(lines)
    ensures ReleasedBy(lines) ==> !NoStop(lines)
  {
    ReleaseIsNotTrack();
    if !NoStop(lines) {
      var k := FirstStop(lines);
      forall i | 0 <= i < |lines| && Stops(lines[i]) && NoStop(lines[..i]) ensures i == k {
        NoEarlierStop(lines, i, k);
        NoEarlierStop(lines, k, i);
      }
    }
  }

  /**
   The three ways to leave, and nothing else: a complete `release` line, a `pgid` line that
   cannot be read, or the end of the stream and then a poll that shows every tracked group dead.
   */
  lemma HoldLeavesOnlyWhenAllowed(stream: seq<int>, ended: bool, polls: seq<set<int>>)
    ensures var lines, outcome := CompleteLines(stream), HoldOutcome(stream, ended, polls);
      && (outcome == LeftOnRelease <==> ReleasedBy(lines))
      && (outcome == Crashed <==> CrashedBy(lines))
      && (outcome == LeftDrained <==> ended && NoStop(lines) && SomePollQuiet(Tracked(lines), polls))
  {
    ScanMeansLines({}, stream);
    OneStop(CompleteLines(stream));
    assert {} + Tracked(CompleteLines(stream)) == Tracked(CompleteLines(stream));
  }

  // ----- what an owner writes -----

  /** `track`: the bytes of one `pgid` message. */
  function TrackMessage(group: nat): seq<int> {
    PGID + Digits(group) + [NEWLINE]
  }

  /** Everything the owner has written: its tracked groups, then maybe a release. */
  function OwnerStream(tracked: seq<nat>, released: bool): seq<int> {
    if tracked == [] then (if released then RELEASE + [NEWLINE] else [])
    else TrackMessage(tracked[0]) + OwnerStream(tracked[1..], released)
  }

  function GroupSet(tracked: seq<nat>): (r: set<int>)
    ensures forall g: nat :: g in r <==> g in tracked
  {
    if tracked == [] then {} else {tracked[0]} + GroupSet(tracked[1..])
  }

  lemma ScanLine(groups: set<int>, line: seq<int>, rest: seq<int>)
    requires NEWLINE !in line && !Stops(line)
    ensures ScanPending(groups, line + [NEWLINE] + rest) == ScanPending(groups + TrackedBy(line), rest)
  {
    var s := line + [NEWLINE] + rest;
    LineEndAt(line, rest);
    assert s[..|line|] == line && s[|line| + 1..] == rest;
  }

  lemma TrackLine(group: nat)
    ensures NEWLINE !in PGID + Digits(group)
    ensures !Stops(PGID + Digits(group)) && TrackedBy(PGID + Digits(group)) == {group}
  {
    var digits := Digits(group);
    NoNewline(digits);
    ParseDigits(group);
    TracksNumber(PGID + digits, digits, group);
  }

  lemma NoNewline(digits: seq<int>)
    requires AllDigits(digits)
    ensures NEWLINE !in PGID + digits
  {
    assert NEWLINE !in PGID && NEWLINE !in digits;
  }

  lemma TracksNumber(line: seq<int>, number: seq<int>, group: nat)
    requires line == PGID + number && ParseInt(number) == Some(group)
    ensures !Stops(line) && TrackedBy(line) == {group}
  {
    assert line[5..] == number;
    assert line[0] == PGID[0] != RELEASE[0];
  }

  lemma ScanTrackMessage(groups: set<int>, group: nat, rest: seq<int>)
    ensures ScanPending(groups, TrackMessage(group) + rest) == ScanPending(groups + {group}, rest)
  {
    TrackLine(group);
    ScanLine(groups, PGID + Digits(group), rest);
    assert TrackMessage(group) + rest == PGID + Digits(group) + [NEWLINE] + rest;
  }

  lemma ScanReleaseMessage(groups: set<int>)
    ensures ScanPending(groups, RELEASE + [NEWLINE]) == Released
  {
    LineEndAt(RELEASE, []);
    var s := RELEASE + [NEWLINE];
    assert s + [] == s && s[..|RELEASE|] == RELEASE;
  }

  /** The holder recovers exactly the groups its owner tracked, and sees its release. */
  lemma {:induction false} ScanOwnerStream(groups: set<int>, tracked: seq<nat>, released: bool)
    ensures ScanPending(groups, OwnerStream(tracked, released))
         == if released then Released else Open(groups + GroupSet(tracked), [])
    decreases tracked
  {
    if tracked == [] {
      ScanReleaseMessage(groups);
      assert groups + {} == groups;
    } else {
      ScanTrackMessage(groups, tracked[0], OwnerStream(tracked[1..], released));
      ScanOwnerStream(groups + {tracked[0]}, tracked[1..], released);
      assert groups + {tracked[0]} + GroupSet(tracked[1..]) == groups + GroupSet(tracked);
    }
  }

  /** Nothing that `track` and `close` write makes the holder crash. */
  lemma OwnerNeverCrashesHolder(tracked: seq<nat>, released: bool, ended: bool, polls: seq<set<int>>)
    ensures HoldOutcome(OwnerStream(tracked, released), ended, polls) != Crashed
    ensures !CrashedBy(CompleteLines(OwnerStream(tracked, released)))
  {
    ScanOwnerStream({}, tracked, released);
    HoldLeavesOnlyWhenAllowed(OwnerStream(tracked, released), ended, polls);
  }
}
