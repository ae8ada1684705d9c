/**
 The compile guard (`compile_guard` in scripts/assembly-memory.py): it samples memory while a
 build runs, stops and continues the build's process group, and cleans up on every way out.
 */
module CompileGuard {
  import opened Wrappers
  import opened AssemblyBudget
  import opened AssemblyPolicy

  datatype Signal = Stop | Cont | Term | Kill
  datatype Action = Sample | Pause | Resume | ReserveBreachedAbort | PauseDeadlineAbort

  /** Where in a turn a watched signal lands: before the group is signalled, just after, or in the sleep. */
  datatype Landing = Early | AfterSignal | Late

  /**
   One turn of the loop: whether the child has exited, the memory snapshot, whether the group
   still exists, the clock at a pause and at the deadline check, and an interrupt.
   */
  datatype Turn = Turn(exited: Option<int>, shot: Snapshot, present: bool, stoppedAt: real, checkedAt: real,
                       interrupt: Option<Landing>)

  /** `Running` is a loop that has not ended within the turns given. */
  datatype End = Returned(code: int) | Breached | PauseExpired | Unreadable | GroupGone | Interrupted | Running

  /**
   The way out: `cut` is a first watched signal that lands after the loop was left and before
   the handlers are ignored, `present` whether the group still exists, `timely` whether the
   child exits within the five seconds it is given.
   */
  datatype Exit = Exit(cut: bool, present: bool, timely: bool)

  function Sampled(s: Settings, t: Turn): Option<Memory> { MemoryBudget(s.reserveGib, t.shot) }

  predicate Low(s: Settings, t: Turn) {
    Sampled(s, t).Some? && Sampled(s, t).value.budget < GUARD_HEADROOM_BYTES
  }

  predicate High(s: Settings, t: Turn) {
    Sampled(s, t).Some? && Sampled(s, t).value.budget >= 2 * GUARD_HEADROOM_BYTES
  }

  predicate Breaches(s: Settings, t: Turn) {
    Sampled(s, t).Some? && Sampled(s, t).value.available < Sampled(s, t).value.reserve
  }

  /**
   The three conditions in the host's own numbers: 2 GiB beside the taste run do not leave the
   reserve, 4 GiB beside it do, and what is available does not cover the reserve.
   */
  lemma SampleMeans(s: Settings, t: Turn)
    requires Sampled(s, t).Some?
    ensures Low(s, t) <==>
      !LeaveReserve(s.reserveGib, t.shot.total, t.shot.available - t.shot.taste - 2 * 0x4000_0000)
    ensures High(s, t) <==>
      LeaveReserve(s.reserveGib, t.shot.total, t.shot.available - t.shot.taste - 4 * 0x4000_0000)
    ensures Breaches(s, t) <==> !LeaveReserve(s.reserveGib, t.shot.total, t.shot.available)
  {
    BudgetLeavesReserve(s.reserveGib, t.shot, 2 * 0x4000_0000);
    BudgetLeavesReserve(s.reserveGib, t.shot, 4 * 0x4000_0000);
    ReserveIff(s.reserveGib, t.shot.total, t.shot.available);
  }

  /** The last sample outside the band between one and two headrooms was a low one. */
  predicate LastWasLow(s: Settings, turns: seq<Turn>) {
    exists j :: 0 <= j < |turns| && Low(s, turns[j]) && forall k :: j < k < |turns| ==> !High(s, turns[k])
  }

  /** A pause that is in force since turn p. */
  predicate PausedSince(s: Settings, turns: seq<Turn>, p: nat) {
    && p < |turns| && Low(s, turns[p]) && !LastWasLow(s, turns[..p])
    && forall k :: p < k < |turns| ==> !High(s, turns[k])
  }

  lemma LowStep(s: Settings, turns: seq<Turn>, t: Turn)
    ensures LastWasLow(s, turns + [t]) <==> Low(s, t) || (LastWasLow(s, turns) && !High(s, t))
  {
    var longer := turns + [t];
    if Low(s, t) {
      assert Low(s, longer[|turns|]);
    } else if LastWasLow(s, turns) && !High(s, t) {
      var j :| 0 <= j < |turns| && Low(s, turns[j]) && forall k :: j < k < |turns| ==> !High(s, turns[k]);
      assert Low(s, longer[j]);
    }
    if LastWasLow(s, longer) && !Low(s, t) {
      var j :| 0 <= j < |longer| && Low(s, longer[j]) && forall k :: j < k < |longer| ==> !High(s, longer[k]);
      assert j < |turns| && Low(s, turns[j]);
      assert !High(s, longer[|turns|]);
      assert forall k :: j < k < |turns| ==> turns[k] == longer[k];
    }
  }

  // ----- signal logs -----

  /** A process group with this history of signals is stopped. */
  predicate Stopped(signals: seq<Signal>) {
    signals != [] && match signals[|signals| - 1] {
      case Stop => true
      case Cont => false
      case Kill => false
      case Term => Stopped(signals[..|signals| - 1])
    }
  }

  /** Stop first, then strictly in turn. */
  predicate Alternates(signals: seq<Signal>) {
    forall i :: 0 <= i < |signals| ==> signals[i] == if i % 2 == 0 then Stop else Cont
  }

  lemma AlternatesStopped(signals: seq<Signal>)
    requires Alternates(signals)
    ensures Stopped(signals) <==> |signals| % 2 == 1
  {
    if signals != [] {
      assert signals[|signals| - 1] == if (|signals| - 1) % 2 == 0 then Stop else Cont;
    }
  }

  /** Each signal was sent in its own turn: a stop on a low sample, a continue on a high one. */
  predicate Justified(s: Settings, turns: seq<Turn>, signals: seq<Signal>, sentAt: seq<nat>) {
    && |sentAt| == |signals| && Alternates(signals)
    && (forall i :: 0 <= i < |sentAt| ==> sentAt[i] < |turns|)
    && (forall i, j :: 0 <= i < j < |sentAt| ==> sentAt[i] < sentAt[j])
    && (forall i ::
         0 <= i < |sentAt| ==> if signals[i] == Stop then Low(s, turns[sentAt[i]]) else High(s, turns[sentAt[i]]))
  }

  lemma JustifiedStep(s: Settings, turns: seq<Turn>, signals: seq<Signal>, sentAt: seq<nat>, t: Turn)
    requires Justified(s, turns, signals, sentAt)
    ensures Justified(s, turns + [t], signals, sentAt)
    ensures |signals| % 2 == 0 && Low(s, t) ==> Justified(s, turns + [t], signals + [Stop], sentAt + [|turns|])
    ensures |signals| % 2 == 1 && High(s, t) ==> Justified(s, turns + [t], signals + [Cont], sentAt + [|turns|])
  {
    assert forall i :: 0 <= i < |turns| ==> (turns + [t])[i] == turns[i];
  }

  // ----- one run of the loop -----

  datatype Loop = Loop(end: End, paused: bool, pausedAt: real, signals: seq<Signal>, events: seq<Action>)

  const STARTED := Loop(Running, false, 0.0, [], [])

  /** The signal a sample calls for, given the group's present state. */
  function Due(s: Settings, paused: bool, t: Turn): Option<Signal> {
    if Low(s, t) && !paused then Some(Stop)
    else if High(s, t) && paused then Some(Cont)
    else None
  }

  /** The state after a turn whose signal, if any, was sent, up to the deadline check and the sleep. */
  function Settled(s: Settings, l: Loop, t: Turn): Loop {
    var due := Due(s, l.paused, t);
    var paused := if due.Some? then due.value == Stop else l.paused;
    var pausedAt := if due == Some(Stop) then t.stoppedAt else l.pausedAt;
    var signals := if due.Some? then l.signals + [due.value] else l.signals;
    if t.interrupt == Some(AfterSignal) then l.(end := Interrupted, signals := signals)
    else if paused && t.checkedAt - pausedAt >= Wait(s) as real then
      Loop(PauseExpired, paused, pausedAt, signals, l.events + [PauseDeadlineAbort])
    else
      var action := if due == Some(Stop) then Pause else if due == Some(Cont) then Resume else Sample;
      Loop(if t.interrupt == Some(Late) then Interrupted else Running, paused, pausedAt, signals, l.events + [action])
  }

  function Turned(s: Settings, l: Loop, t: Turn): Loop {
    if t.interrupt == Some(Early) then l.(end := Interrupted)
    else if t.exited.Some? then l.(end := Returned(t.exited.value))
    else if Sampled(s, t).None? then l.(end := Unreadable)
    else if Breaches(s, t) then l.(end := Breached, events := l.events + [ReserveBreachedAbort])
    else if Due(s, l.paused, t).Some? && !t.present then l.(end := GroupGone)
    else Settled(s, l, t)
  }

  /** The loop over a sequence of turns; turns after the one that leaves it do not happen. */
  function Replay(s: Settings, turns: seq<Turn>): Loop {
    if turns == [] then STARTED else
      var before := Replay(s, turns[..|turns| - 1]);
      if before.end == Running then Turned(s, before, turns[|turns| - 1]) else before
  }

  /** The monitoring loop at lines 403-425. */
  method Monitor(s: Settings, turns: seq<Turn>) returns (end: End, signals: seq<Signal>, events: seq<Action>)
    ensures var run := Replay(s, turns); end == run.end && signals == run.signals && events == run.events
  {
    end, signals, events := Running, [], [];
    var paused, pausedAt := false, 0.0;
    var i := 0;
    while i < |turns| && end == Running
      invariant i <= |turns|
      invariant Replay(s, turns[..i]).(pausedAt := 0.0) == Loop(end, paused, 0.0, signals, events)
      invariant paused ==> pausedAt == Replay(s, turns[..i]).pausedAt
      decreases |turns| - i
    {
      assert turns[..i + 1][..i] == turns[..i];
      end, paused, pausedAt, signals, events := TakeTurn(s, turns[i], paused, pausedAt, signals, events);
      i := i + 1;
    }
    StaysEnded(s, turns, i);
    assert turns[..|turns|] == turns;
  }

  /** One turn of the loop, statement by statement. */
  method TakeTurn(s: Settings, t: Turn, wasPaused: bool, wasPausedAt: real, sent: seq<Signal>, log: seq<Action>)
    returns (end: End, paused: bool, pausedAt: real, signals: seq<Signal>, events: seq<Action>)
    ensures Turned(s, Loop(Running, wasPaused, wasPausedAt, sent, log), t)
      == Loop(end, paused, pausedAt, signals, events)
  {
    end, paused, pausedAt, signals, events := Running, wasPaused, wasPausedAt, sent, log;
    if t.interrupt == Some(Early) { end := Interrupted; return; }
    if t.exited.Some? { end := Returned(t.exited.value); return; }
    var sampled := Sampled(s, t);
    if sampled.None? { end := Unreadable; return; }
    var memory := sampled.value;
    var action := Sample;
    if memory.available < memory.reserve {
      events, end := events + [ReserveBreachedAbort], Breached;
      return;
    }
    if memory.budget < GUARD_HEADROOM_BYTES {
      if !paused {
        if !t.present { end := GroupGone; return; }
        signals := signals + [Stop];
        if t.interrupt == Some(AfterSignal) { end := Interrupted; return; }
        paused, pausedAt, action := true, t.stoppedAt, Pause;
      }
    } else if paused && memory.budget >= 2 * GUARD_HEADROOM_BYTES {
      if !t.present { end := GroupGone; return; }
      signals := signals + [Cont];
      if t.interrupt == Some(AfterSignal) { end := Interrupted; return; }
      paused, action := false, Resume;
    }
    if t.interrupt == Some(AfterSignal) { end := Interrupted; return; }
    if paused && t.checkedAt - pausedAt >= Wait(s) as real {
      events, end := events + [PauseDeadlineAbort], PauseExpired;
      return;
    }
    events := events + [action];
    if t.interrupt == Some(Late) { end := Interrupted; }
  }

  lemma {:induction false} StaysEnded(s: Settings, turns: seq<Turn>, n: nat)
    requires n <= |turns| && (Replay(s, turns[..n]).end != Running || n == |turns|)
    ensures Replay(s, turns) == Replay(s, turns[..n])
    decreases |turns|
  {
    if n == |turns| {
      assert turns[..n] == turns;
    } else {
      var shorter := turns[..|turns| - 1];
      assert shorter[..n] == turns[..n];
      StaysEnded(s, shorter, n);
    }
  }

  // ----- what every run keeps -----

  /** Every one of these turns samples, keeps the reserve and finds the child running. */
  ghost predicate AllGood(s: Settings, turns: seq<Turn>) {
    forall k :: 0 <= k < |turns| ==> Sampled(s, turns[k]).Some? && !Breaches(s, turns[k]) && turns[k].exited.None?
  }

  /** A loop still running after these turns: its state is the hysteresis of the samples. */
  ghost predicate LoopHolds(s: Settings, turns: seq<Turn>, l: Loop, sentAt: seq<nat>) {
    && Justified(s, turns, l.signals, sentAt)
    && (l.paused <==> |l.signals| % 2 == 1) && (l.paused <==> LastWasLow(s, turns))
    && AllGood(s, turns)
    && (l.paused ==> PausedFrom(s, turns, l.pausedAt) && turns[|turns| - 1].checkedAt - l.pausedAt < Wait(s) as real)
  }

  ghost predicate PausedFrom(s: Settings, turns: seq<Turn>, at: real) {
    turns != [] && exists p: nat :: PausedSince(s, turns, p) && turns[p].stoppedAt == at
  }

  lemma PausedFromStep(s: Settings, turns: seq<Turn>, t: Turn, at: real)
    ensures PausedFrom(s, turns, at) && !High(s, t) ==> PausedFrom(s, turns + [t], at)
    ensures Low(s, t) && !LastWasLow(s, turns) ==> PausedFrom(s, turns + [t], t.stoppedAt)
  {
    var longer := turns + [t];
    if PausedFrom(s, turns, at) && !High(s, t) {
      var p: nat :| PausedSince(s, turns, p) && turns[p].stoppedAt == at;
      assert longer[..p] == turns[..p];
      assert PausedSince(s, longer, p);
    }
    if Low(s, t) && !LastWasLow(s, turns) {
      assert longer[..|turns|] == turns;
      assert PausedSince(s, longer, |turns|);
    }
  }

  /** What a turn does to the flag and the signals, without the history. */
  lemma TurnShape(s: Settings, l: Loop, t: Turn)
    requires l.end == Running
    ensures var next := Turned(s, l, t);
      && (next.signals == l.signals
          || (next.signals == l.signals + [Stop] && Low(s, t) && !l.paused)
          || (next.signals == l.signals + [Cont] && High(s, t) && l.paused))
      && (next.end == Running || next.end == PauseExpired ==>
            && Sampled(s, t).Some? && !Breaches(s, t) && t.exited.None?
            && (next.paused <==> Low(s, t) || (l.paused && !High(s, t)))
            && |next.signals| == |l.signals| + (if next.paused == l.paused then 0 else 1)
            && next.pausedAt == (if Low(s, t) && !l.paused then t.stoppedAt else l.pausedAt)
            && (next.end == Running ==> !next.paused || t.checkedAt - next.pausedAt < Wait(s) as real)
            && (next.end == PauseExpired ==> next.paused && t.checkedAt - next.pausedAt >= Wait(s) as real))
  {
  }

  lemma TurnJustified(s: Settings, turns: seq<Turn>, l: Loop, sentAt: seq<nat>, t: Turn) returns (sentAt': seq<nat>)
    requires Justified(s, turns, l.signals, sentAt) && l.end == Running && (l.paused <==> |l.signals| % 2 == 1)
    ensures Justified(s, turns + [t], Turned(s, l, t).signals, sentAt')
  {
    sentAt' := if Turned(s, l, t).signals == l.signals then sentAt else sentAt + [|turns|];
    TurnShape(s, l, t);
    JustifiedStep(s, turns, l.signals, sentAt, t);
  }

  lemma TurnPauses(s: Settings, turns: seq<Turn>, l: Loop, t: Turn)
    requires l.end == Running && (l.paused <==> LastWasLow(s, turns)) && (l.paused ==> PausedFrom(s, turns, l.pausedAt))
    requires Turned(s, l, t).end == Running || Turned(s, l, t).end == PauseExpired
    ensures Turned(s, l, t).paused <==> LastWasLow(s, turns + [t])
    ensures Turned(s, l, t).paused ==> PausedFrom(s, turns + [t], Turned(s, l, t).pausedAt)
  {
    TurnShape(s, l, t);
    LowStep(s, turns, t);
    PausedFromStep(s, turns, t, l.pausedAt);
  }

  lemma TurnGood(s: Settings, turns: seq<Turn>, l: Loop, t: Turn)
    requires AllGood(s, turns) && l.end == Running && Turned(s, l, t).end == Running
    requires l.paused <==> |l.signals| % 2 == 1
    ensures AllGood(s, turns + [t]) && (turns + [t])[|turns|] == t
    ensures Turned(s, l, t).paused <==> |Turned(s, l, t).signals| % 2 == 1
    ensures Turned(s, l, t).paused ==> t.checkedAt - Turned(s, l, t).pausedAt < Wait(s) as real
  {
    TurnShape(s, l, t);
  }

  lemma TurnKeeps(s: Settings, turns: seq<Turn>, l: Loop, sentAt: seq<nat>, t: Turn) returns (sentAt': seq<nat>)
    requires LoopHolds(s, turns, l, sentAt) && l.end == Running && Turned(s, l, t).end == Running
    ensures LoopHolds(s, turns + [t], Turned(s, l, t), sentAt')
  {
    sentAt' := TurnJustified(s, turns, l, sentAt, t);
    TurnPauses(s, turns, l, t);
    TurnGood(s, turns, l, t);
  }

  lemma {:induction false} RunningHolds(s: Settings, turns: seq<Turn>) returns (sentAt: seq<nat>)
    requires Replay(s, turns).end == Running
    ensures LoopHolds(s, turns, Replay(s, turns), sentAt)
    decreases |turns|
  {
    if turns == [] {
      sentAt := [];
    } else {
      var shorter := turns[..|turns| - 1];
      var earlier := RunningHolds(s, shorter);
      assert turns == shorter + [turns[|turns| - 1]];
      sentAt := TurnKeeps(s, shorter, Replay(s, shorter), earlier, turns[|turns| - 1]);
    }
  }

  /** A loop that was left, was left in one of its turns, after turns that all slept. */
  lemma {:induction false} LeftIn(s: Settings, turns: seq<Turn>) returns (n: nat)
    requires Replay(s, turns).end != Running
    ensures n < |turns| && Replay(s, turns[..n]).end == Running
    ensures Replay(s, turns) == Turned(s, Replay(s, turns[..n]), turns[n]) == Replay(s, turns[..n + 1])
    decreases |turns|
  {
    var shorter := turns[..|turns| - 1];
    if Replay(s, shorter).end == Running {
      n := |turns| - 1;
      assert turns[..n + 1] == turns;
    } else {
      n := LeftIn(s, shorter);
      assert shorter[..n] == turns[..n] && shorter[..n + 1] == turns[..n + 1];
    }
  }

  // ----- the guarantees -----

  /**
   In every run, interrupted anywhere or not, the loop's signals alternate from a stop, and
   each was sent on a sample outside the band: none while the budget is between one and two
   headrooms.
   */
  lemma SignalsAlternate(s: Settings, turns: seq<Turn>) returns (sentAt: seq<nat>)
    ensures Justified(s, turns, Replay(s, turns).signals, sentAt)
  {
    if Replay(s, turns).end == Running {
      sentAt := RunningHolds(s, turns);
    } else {
      var n := LeftIn(s, turns);
      var before := RunningHolds(s, turns[..n]);
      assert turns[..n + 1] == turns[..n] + [turns[n]];
      sentAt := TurnJustified(s, turns[..n], Replay(s, turns[..n]), before, turns[n]);
      JustifiedLonger(s, turns, n + 1, Replay(s, turns).signals, sentAt);
    }
  }

  lemma JustifiedLonger(s: Settings, turns: seq<Turn>, n: nat, signals: seq<Signal>, sentAt: seq<nat>)
    requires n <= |turns| && Justified(s, turns[..n], signals, sentAt)
    ensures Justified(s, turns, signals, sentAt)
  {
    assert forall i :: 0 <= i < |sentAt| ==> turns[..n][sentAt[i]] == turns[sentAt[i]];
  }

  /** While the loop runs, the group is stopped exactly when the last sample outside the band was low. */
  lemma StoppedIsHysteresis(s: Settings, turns: seq<Turn>)
    requires Replay(s, turns).end == Running
    ensures Stopped(Replay(s, turns).signals) <==> LastWasLow(s, turns)
  {
    var sentAt := RunningHolds(s, turns);
    AlternatesStopped(Replay(s, turns).signals);
  }

  /** A normal return hands back the child's own code, and no sample before it fell below the reserve. */
  lemma ReturnMeansReserveKept(s: Settings, turns: seq<Turn>) returns (n: nat)
    requires Replay(s, turns).end.Returned?
    ensures n < |turns| && turns[n].exited == Some(Replay(s, turns).end.code)
    ensures forall k :: 0 <= k < n ==> turns[k].exited.None? && Sampled(s, turns[k]).Some? && !Breaches(s, turns[k])
  {
    n := LeftIn(s, turns);
    var sentAt := RunningHolds(s, turns[..n]);
    forall k | 0 <= k < n ensures turns[k].exited.None? && Sampled(s, turns[k]).Some? && !Breaches(s, turns[k]) {
      assert turns[..n][k] == turns[k];
    }
  }

  /** The loop is left for the reserve in turn n. */
  ghost predicate BreachesAt(s: Settings, turns: seq<Turn>, n: nat) {
    && n < |turns| && Replay(s, turns[..n]).end == Running
    && Breaches(s, turns[n]) && turns[n].exited.None? && turns[n].interrupt != Some(Early)
  }

  /**
   The reserve abort happens if and only if some turn that the loop reaches samples below the
   reserve while the child still runs; that turn sends no signal.
   */
  lemma BreachedIff(s: Settings, turns: seq<Turn>)
    ensures Replay(s, turns).end == Breached <==> exists n: nat :: BreachesAt(s, turns, n)
    ensures forall n: nat :: BreachesAt(s, turns, n) ==> Replay(s, turns).signals == Replay(s, turns[..n]).signals
  {
    if Replay(s, turns).end == Breached {
      var n := LeftIn(s, turns);
      assert BreachesAt(s, turns, n);
    }
    forall n: nat | BreachesAt(s, turns, n)
      ensures Replay(s, turns).end == Breached && Replay(s, turns).signals == Replay(s, turns[..n]).signals
    {
      assert turns[..n + 1][..n] == turns[..n];
      StaysEnded(s, turns, n + 1);
    }
  }

  /**
   A pause in force since turn p is shorter than the deadline plus one gap between checks at
   the next check, whatever that turn does.
   */
  lemma {:induction false} PauseIsBounded(s: Settings, turns: seq<Turn>, t: Turn, p: nat, gap: real)
    requires Replay(s, turns).end == Running && PausedSince(s, turns, p)
    requires t.checkedAt - turns[|turns| - 1].checkedAt <= gap
    ensures t.checkedAt - turns[p].stoppedAt < (if s.waitSecs.Some? then s.waitSecs.value else 600) as real + gap
  {
    var sentAt := RunningHolds(s, turns);
    SincePaused(s, turns, p);
    var q: nat :| PausedSince(s, turns, q) && turns[q].stoppedAt == Replay(s, turns).pausedAt;
    OnePause(s, turns, p, q);
  }

  lemma SincePaused(s: Settings, turns: seq<Turn>, p: nat)
    requires PausedSince(s, turns, p)
    ensures LastWasLow(s, turns)
  {
    assert Low(s, turns[p]);
  }

  lemma LowBefore(s: Settings, turns: seq<Turn>, p: nat, q: nat)
    ensures PausedSince(s, turns, p) && p < q <= |turns| ==> LastWasLow(s, turns[..q])
  {
    if PausedSince(s, turns, p) && p < q <= |turns| {
      assert Low(s, turns[..q][p]);
    }
  }

  lemma OnePause(s: Settings, turns: seq<Turn>, p: nat, q: nat)
    requires PausedSince(s, turns, p) && PausedSince(s, turns, q)
    ensures p == q
  {
    LowBefore(s, turns, p, q);
    LowBefore(s, turns, q, p);
  }

  /** The abort for a pause that lasts happens only when the deadline has passed, with the group stopped. */
  lemma ExpiryMeansDeadline(s: Settings, turns: seq<Turn>) returns (n: nat, p: nat)
    requires Replay(s, turns).end == PauseExpired
    ensures n < |turns| && PausedSince(s, turns[..n + 1], p)
    ensures turns[n].checkedAt - turns[p].stoppedAt >= (if s.waitSecs.Some? then s.waitSecs.value else 600) as real
    ensures Stopped(Replay(s, turns).signals)
  {
    n := LeftIn(s, turns);
    var before := RunningHolds(s, turns[..n]);
    p := ExpiryTurn(s, turns[..n], Replay(s, turns[..n]), before, turns[n]);
    assert turns[..n + 1] == turns[..n] + [turns[n]];
  }

  lemma ExpiryTurn(s: Settings, turns: seq<Turn>, l: Loop, before: seq<nat>, t: Turn) returns (p: nat)
    requires LoopHolds(s, turns, l, before) && l.end == Running && Turned(s, l, t).end == PauseExpired
    ensures PausedSince(s, turns + [t], p) && t.checkedAt - (turns + [t])[p].stoppedAt >= Wait(s) as real
    ensures Stopped(Turned(s, l, t).signals)
  {
    TurnPauses(s, turns, l, t);
    TurnShape(s, l, t);
    var sentAt := TurnJustified(s, turns, l, before, t);
    AlternatesStopped(Turned(s, l, t).signals);
    p :| PausedSince(s, turns + [t], p) && (turns + [t])[p].stoppedAt == Turned(s, l, t).pausedAt;
  }

  // ----- the way out -----

  /** The signals `finally` sends, unless a first watched signal cuts it short. */
  function Cleanup(end: End, exit: Exit): seq<Signal> {
    if exit.cut && end != Interrupted then []
    else (if exit.present then [Cont, Term] else []) + (if exit.timely then [] else [Kill])
  }

  /**
   The whole guard from the moment the child exists. `early` is a watched signal that arrived
   while the child was being created.
   */
  method Guard(s: Settings, early: bool, turns: seq<Turn>, exit: Exit) returns (end: End, signals: seq<Signal>)
    ensures end == if early then Interrupted else Replay(s, turns).end
    ensures end != Running ==> signals == (if early then [] else Replay(s, turns).signals) + Cleanup(end, exit)
    ensures end == Running ==> signals == Replay(s, turns).signals
    // A finished guard leaves the group stopped exactly when its cleanup was cut short in a pause.
    ensures end != Running ==>
      (Stopped(signals) && exit.present <==>
        exit.cut && end != Interrupted && exit.present && Stopped(Replay(s, turns).signals))
  {
    signals := [];
    if early {
      end := Interrupted;
    } else {
      var events;
      end, signals, events := Monitor(s, turns);
      if end == Running { return; }
    }
    ghost var sent := signals;
    if !(exit.cut && end != Interrupted) {
      if exit.present { signals := signals + [Cont]; }
      if exit.present { signals := signals + [Term]; }
      if !exit.timely { signals := signals + [Kill]; }
    }
    assert signals == sent + Cleanup(end, exit);
    CleanupResumes(sent, end, exit);
  }

  /** After the cleanup runs to its end, an existing group is not stopped, and got its TERM while running. */
  lemma CleanupResumes(sent: seq<Signal>, end: End, exit: Exit)
    ensures exit.present && !(exit.cut && end != Interrupted) ==>
      !Stopped(sent + Cleanup(end, exit)) && !Stopped(sent + [Cont])
    ensures exit.cut && end != Interrupted ==> sent + Cleanup(end, exit) == sent
  {
    assert (sent + [Cont, Term])[..|sent| + 1] == sent + [Cont];
  }

  /** The promise that a started group is never left stopped has this one exception. */
  lemma CutCleanupLeavesStopped() returns (s: Settings, turns: seq<Turn>, exit: Exit)
    ensures exit.present && Replay(s, turns).end == PauseExpired
    ensures Stopped(Replay(s, turns).signals + Cleanup(Replay(s, turns).end, exit))
  {
    s := Settings(None, None, None, None, 1);
    var tight := Snapshot(16 * GIB, 9 * GIB, 0);
    var first := Turn(None, tight, true, 0.0, 0.0, None);
    var second := Turn(None, tight, true, 0.0, 600.0, None);
    turns := [first, second];
    exit := Exit(true, true, true);
    assert turns[..1] == [first] && [first][..0] == [];
    assert Replay(s, [first]) == Turned(s, STARTED, first);
    assert Replay(s, turns).signals == [Stop];
    assert Replay(s, turns).signals + Cleanup(PauseExpired, exit) == [Stop];
  }
}
