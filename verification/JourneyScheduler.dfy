/**
 The background journey scheduler (scripts/journey-background.py): one state record that the
 `offer`, `tick` and `run` commands change under a lock, so each command is one atomic step.
 */
module JourneyScheduler {
  import opened Wrappers

  type Tree = string
  type Inputs = string
  datatype Status = PASS | FAIL

  datatype Pending = Pending(tree: Tree, tip: string, inputs: Inputs, offeredEpoch: int, skipped: seq<Tree>)
  datatype Running = Running(tree: Tree, tip: string, pid: int, startedEpoch: int, artifacts: string,
                             inputs: Inputs, skipped: seq<Tree>)
  datatype Receipt = Receipt(status: Status, tip: string, artifacts: string, inputs: Inputs,
                             detail: string, finishedEpoch: int)
  datatype State = State(lastStarted: int, running: Option<Running>, pending: Option<Pending>,
                         receipts: map<Tree, Receipt>)

  const EMPTY := State(0, None, None, map[])

  // ----- each command as a function of the state -----

  datatype Offering = Offering(tip: string, tree: Tree, inputs: Inputs, green: bool, now: int)
  datatype Tick = Tick(now: int, hostIdle: bool, minInterval: int, alive: bool, pid: int, artifacts: string)

  /** The offer will be queued: it is green and its tree is neither done, running nor pending. */
  predicate Accepts(s: State, o: Offering) {
    && o.green
    && o.tree !in s.receipts
    && (s.running.Some? ==> s.running.value.tree != o.tree)
    && (s.pending.Some? ==> s.pending.value.tree != o.tree)
  }

  function AfterOffer(s: State, o: Offering): State {
    if !Accepts(s, o) then s
    else
      var skipped := if s.pending.Some? then s.pending.value.skipped + [s.pending.value.tree] else [];
      s.(pending := Some(Pending(o.tree, o.tip, o.inputs, o.now, skipped)))
  }

  function AfterFinish(s: State, tree: Tree, receipt: Receipt): State {
    s.(running := if s.running.Some? && s.running.value.tree == tree then None else s.running,
       receipts := s.receipts[tree := receipt])
  }

  function AfterReap(s: State, alive: bool, now: int): State {
    if s.running.Some? && !alive then
      var r := s.running.value;
      AfterFinish(s, r.tree, Receipt(FAIL, r.tip, r.artifacts, r.inputs, "runner exited without a result", now))
    else s
  }

  /** `decide` answers "start". */
  predicate Starts(s: State, t: Tick) {
    var reaped := AfterReap(s, t.alive, t.now);
    && reaped.running.None? && reaped.pending.Some?
    && t.now - reaped.lastStarted >= t.minInterval && t.hostIdle
  }

  function AfterTick(s: State, t: Tick): State {
    var reaped := AfterReap(s, t.alive, t.now);
    if Starts(s, t) then
      var p := reaped.pending.value;
      reaped.(running := Some(Running(p.tree, p.tip, t.pid, t.now, t.artifacts, p.inputs, p.skipped)),
              pending := None, lastStarted := t.now)
    else reaped
  }

  function Lookup(s: State, tree: Tree, inputs: Inputs): Option<Receipt> {
    if tree in s.receipts && s.receipts[tree].status == PASS && s.receipts[tree].inputs == inputs
    then Some(s.receipts[tree]) else None
  }

  // ----- the commands as the source runs them -----

  class Scheduler {
    var lastStarted: int
    var running: Option<Running>
    var pending: Option<Pending>
    var receipts: map<Tree, Receipt>

    function Snapshot(): State
      reads this
    {
      State(lastStarted, running, pending, receipts)
    }

    constructor ()
      ensures Snapshot() == EMPTY
    {
      lastStarted, running, pending, receipts := 0, None, None, map[];
    }

    method Offer(o: Offering) returns (queued: bool)
      modifies this
      ensures Snapshot() == AfterOffer(old(Snapshot()), o)
      ensures queued == Accepts(old(Snapshot()), o)
    {
      if !o.green {
        return false;
      }
      if o.tree in receipts {
        return false;
      }
      if running.Some? && running.value.tree == o.tree {
        return false;
      }
      if pending.Some? && pending.value.tree == o.tree {
        return false;
      }
      var skipped := [];
      if pending.Some? {
        skipped := pending.value.skipped + [pending.value.tree];
      }
      pending := Some(Pending(o.tree, o.tip, o.inputs, o.now, skipped));
      return true;
    }

    method RecordFinish(tree: Tree, receipt: Receipt)
      modifies this`running, this`receipts
      ensures Snapshot() == AfterFinish(old(Snapshot()), tree, receipt)
    {
      if running.Some? && running.value.tree == tree {
        running := None;
      }
      receipts := receipts[tree := receipt];
    }

    method Reap(alive: bool, now: int)
      modifies this`running, this`receipts
      ensures Snapshot() == AfterReap(old(Snapshot()), alive, now)
    {
      if running.Some? && !alive {
        var r := running.value;
        RecordFinish(r.tree, Receipt(FAIL, r.tip, r.artifacts, r.inputs, "runner exited without a result", now));
      }
    }

    /** `decide` reaps in place even when its answer is "wait". */
    method Decide(t: Tick) returns (start: bool)
      modifies this`running, this`receipts
      ensures Snapshot() == AfterReap(old(Snapshot()), t.alive, t.now)
      ensures start == Starts(old(Snapshot()), t)
    {
      Reap(t.alive, t.now);
      if running.Some? {
        return false;
      }
      if pending.None? {
        return false;
      }
      if t.now - lastStarted < t.minInterval {
        return false;
      }
      return t.hostIdle;
    }

    method RunTick(t: Tick) returns (started: bool)
      modifies this
      ensures Snapshot() == AfterTick(old(Snapshot()), t)
      ensures started == Starts(old(Snapshot()), t)
    {
      started := Decide(t);
      if started {
        var p := pending.value;
        running := Some(Running(p.tree, p.tip, t.pid, t.now, t.artifacts, p.inputs, p.skipped));
        pending := None;
        lastStarted := t.now;
      }
    }
  }

  // ----- histories -----

  /** A runner process that has neither reported nor died. */
  datatype Runner = Runner(tree: Tree, tip: string, artifacts: string)

  datatype Event =
    | Offered(o: Offering)
    | Ticked(t: Tick)
    | Reported(status: Status, detail: string, now: int, otherwise: Inputs)
    | RunnerDied

  /** One start: what it ran, what it passed over, when, the interval it had to respect, and the host then. */
  datatype Start = Start(tree: Tree, inputs: Inputs, skipped: seq<Tree>, at: int, minInterval: int, idle: bool)

  datatype World = World(state: State, runner: Option<Runner>, accepted: seq<Offering>, starts: seq<Start>)

  const BEGIN := World(EMPTY, None, [], [])

  /** A live runner is never reported dead, and only a live runner reports. */
  predicate Possible(w: World, e: Event) {
    match e
    case Offered(_) => true
    case Ticked(t) => w.runner.Some? ==> t.alive
    case Reported(_, _, _, _) => w.runner.Some?
    case RunnerDied => w.runner.Some?
  }

  /** The end of `command_run`: the runner records its own tree (lines 254-258). */
  function AfterReport(s: State, r: Runner, status: Status, detail: string, now: int, otherwise: Inputs): State {
    var inputs := if s.running.Some? then s.running.value.inputs else otherwise;
    AfterFinish(s, r.tree, Receipt(status, r.tip, r.artifacts, inputs, detail, now))
  }

  function After(w: World, e: Event): World
    requires Possible(w, e)
  {
    match e
    case Offered(o) =>
      w.(state := AfterOffer(w.state, o), accepted := if Accepts(w.state, o) then w.accepted + [o] else w.accepted)
    case Ticked(t) =>
      if Starts(w.state, t) then
        var p := AfterReap(w.state, t.alive, t.now).pending.value;
        World(AfterTick(w.state, t), Some(Runner(p.tree, p.tip, t.artifacts)), w.accepted,
              w.starts + [Start(p.tree, p.inputs, p.skipped, t.now, t.minInterval, t.hostIdle)])
      else w.(state := AfterTick(w.state, t))
    case Reported(status, detail, now, otherwise) =>
      w.(state := AfterReport(w.state, w.runner.value, status, detail, now, otherwise), runner := None)
    case RunnerDied =>
      w.(runner := None)
  }

  predicate History(events: seq<Event>)
    decreases |events|, 0
  {
    events == [] || (History(events[..|events| - 1]) && Possible(Replay(events[..|events| - 1]), events[|events| - 1]))
  }

  function Replay(events: seq<Event>): World
    requires History(events)
    decreases |events|, 1
  {
    if events == [] then BEGIN else After(Replay(events[..|events| - 1]), events[|events| - 1])
  }

  // ----- what every history keeps -----

  function Trees(offers: seq<Offering>): seq<Tree> {
    seq(|offers|, i requires 0 <= i < |offers| => offers[i].tree)
  }

  /** Each start's skipped trees and its own tree, start by start. */
  function Consumed(starts: seq<Start>): seq<Tree> {
    if starts == [] then []
    else
      var last := starts[|starts| - 1];
      Consumed(starts[..|starts| - 1]) + last.skipped + [last.tree]
  }

  function Queued(s: State): seq<Tree> {
    if s.pending.Some? then s.pending.value.skipped + [s.pending.value.tree] else []
  }

  /** Nothing accepted is lost, reordered or invented. */
  predicate Ledger(w: World) {
    Trees(w.accepted) == Consumed(w.starts) + Queued(w.state)
  }

  predicate Disjoint(s: State) {
    && (s.running.Some? ==> s.running.value.tree !in s.receipts)
    && (s.pending.Some? ==> s.pending.value.tree !in s.receipts)
    && (s.running.Some? && s.pending.Some? ==> s.running.value.tree != s.pending.value.tree)
  }

  predicate WasStarted(starts: seq<Start>, tree: Tree) {
    exists i :: 0 <= i < |starts| && starts[i].tree == tree
  }

  predicate StartedOnce(starts: seq<Start>) {
    forall i, j :: 0 <= i < j < |starts| ==> starts[i].tree != starts[j].tree
  }

  /** Exactly the started trees are running or receipted. */
  ghost predicate Accounted(w: World) {
    && StartedOnce(w.starts)
    && forall tree: Tree :: WasStarted(w.starts, tree) <==>
         tree in w.state.receipts || (w.state.running.Some? && w.state.running.value.tree == tree)
  }

  /** When the latest start was, 0 before the first. */
  function LatestStart(starts: seq<Start>): int {
    if starts == [] then 0 else starts[|starts| - 1].at
  }

  /** Every start was on an idle host, and the interval it had to respect after the start before. */
  predicate Spaced(w: World) {
    && (forall i :: 0 <= i < |w.starts| ==> w.starts[i].idle)
    && (forall i :: 0 < i < |w.starts| ==> w.starts[i].at - w.starts[i - 1].at >= w.starts[i].minInterval)
    && w.state.lastStarted == LatestStart(w.starts)
  }

  predicate StartOf(starts: seq<Start>, tree: Tree, inputs: Inputs) {
    exists i :: 0 <= i < |starts| && starts[i].tree == tree && starts[i].inputs == inputs
  }

  predicate OfferOf(accepted: seq<Offering>, tree: Tree, inputs: Inputs) {
    exists i :: 0 <= i < |accepted| && accepted[i].tree == tree && accepted[i].inputs == inputs && accepted[i].green
  }

  /** The pending record is the newest accepted offer. */
  predicate Newest(w: World) {
    w.state.pending.Some? ==>
      && w.accepted != []
      && var o := w.accepted[|w.accepted| - 1];
         w.state.pending.value.tree == o.tree && w.state.pending.value.inputs == o.inputs
           && w.state.pending.value.tip == o.tip
  }

  /** Inputs travel unchanged from a green offer to its start to its receipt. */
  ghost predicate Provenance(w: World) {
    && (forall i :: 0 <= i < |w.accepted| ==> w.accepted[i].green)
    && (forall i :: 0 <= i < |w.starts| ==> OfferOf(w.accepted, w.starts[i].tree, w.starts[i].inputs))
    && (w.state.running.Some? ==> StartOf(w.starts, w.state.running.value.tree, w.state.running.value.inputs))
    && (forall tree | tree in w.state.receipts :: StartOf(w.starts, tree, w.state.receipts[tree].inputs))
  }

  predicate RunnerKnown(w: World) {
    w.runner.Some? ==> w.state.running.Some? && w.state.running.value.tree == w.runner.value.tree
  }

  ghost predicate Inv(w: World) {
    Ledger(w) && Disjoint(w.state) && Accounted(w) && Spaced(w) && Newest(w) && Provenance(w) && RunnerKnown(w)
  }

  lemma OfferKeeps(w: World, o: Offering)
    requires Inv(w)
    ensures Inv(After(w, Offered(o)))
  {
    var v := After(w, Offered(o));
    if Accepts(w.state, o) {
      assert Trees(v.accepted) == Trees(w.accepted) + [o.tree];
      assert v.accepted[|w.accepted|] == o;
      forall tree, inputs | OfferOf(w.accepted, tree, inputs) ensures OfferOf(v.accepted, tree, inputs) {
        var i :| 0 <= i < |w.accepted| && w.accepted[i].tree == tree && w.accepted[i].inputs == inputs
          && w.accepted[i].green;
        assert v.accepted[i] == w.accepted[i];
      }
    }
  }

  /** Recording the running tree's result, whoever records it. */
  lemma FinishKeeps(w: World, receipt: Receipt, v: World)
    requires Inv(w) && w.state.running.Some? && receipt.inputs == w.state.running.value.inputs
    requires v == World(AfterFinish(w.state, w.state.running.value.tree, receipt), None, w.accepted, w.starts)
    ensures Inv(v)
  {
    FinishAccounts(w, receipt, v);
    FinishProves(w, receipt, v);
  }

  lemma FinishAccounts(w: World, receipt: Receipt, v: World)
    requires Inv(w) && w.state.running.Some?
    requires v == World(AfterFinish(w.state, w.state.running.value.tree, receipt), None, w.accepted, w.starts)
    ensures Disjoint(v.state) && Accounted(v)
  {
  }

  lemma FinishProves(w: World, receipt: Receipt, v: World)
    requires Inv(w) && w.state.running.Some? && receipt.inputs == w.state.running.value.inputs
    requires v == World(AfterFinish(w.state, w.state.running.value.tree, receipt), None, w.accepted, w.starts)
    ensures Provenance(v)
  {
  }

  lemma ReapKeeps(w: World, t: Tick)
    requires Inv(w) && Possible(w, Ticked(t))
    ensures Inv(w.(state := AfterReap(w.state, t.alive, t.now)))
  {
    if w.state.running.Some? && !t.alive {
      var r := w.state.running.value;
      FinishKeeps(w, Receipt(FAIL, r.tip, r.artifacts, r.inputs, "runner exited without a result", t.now),
                  w.(state := AfterReap(w.state, t.alive, t.now)));
    }
  }

  /** The pending tree is started on an idle host, late enough. */
  predicate IsStart(w: World, t: Tick, v: World) {
    && w.state.running.None? && w.state.pending.Some? && t.now - w.state.lastStarted >= t.minInterval && t.hostIdle
    && var p := w.state.pending.value;
       v == World(w.state.(running := Some(Running(p.tree, p.tip, t.pid, t.now, t.artifacts, p.inputs, p.skipped)),
                           pending := None, lastStarted := t.now),
                  Some(Runner(p.tree, p.tip, t.artifacts)), w.accepted,
                  w.starts + [Start(p.tree, p.inputs, p.skipped, t.now, t.minInterval, t.hostIdle)])
  }

  /** Starting the pending tree moves its offers from the queue to the starts. */
  lemma StartKeeps(w: World, t: Tick, v: World)
    requires Inv(w) && IsStart(w, t, v)
    ensures Inv(v)
  {
    StartLedger(w, t, v);
    StartAccounts(w, t, v);
    StartProves(w, t, v);
  }

  lemma StartLedger(w: World, t: Tick, v: World)
    requires Ledger(w) && Spaced(w) && IsStart(w, t, v)
    ensures Ledger(v) && Spaced(v)
  {
    var p := w.state.pending.value;
    assert v.starts[..|v.starts| - 1] == w.starts;
    assert Consumed(v.starts) == Consumed(w.starts) + p.skipped + [p.tree];
    assert Consumed(w.starts) + (p.skipped + [p.tree]) == Consumed(w.starts) + p.skipped + [p.tree] + [];
  }

  lemma StartAccounts(w: World, t: Tick, v: World)
    requires Disjoint(w.state) && Accounted(w) && IsStart(w, t, v)
    ensures Disjoint(v.state) && Accounted(v)
  {
    var start := v.starts[|w.starts|];
    StartsGrow(w.starts, start);
    StartIsNew(w.starts, start);
  }

  lemma StartProves(w: World, t: Tick, v: World)
    requires Provenance(w) && Newest(w) && IsStart(w, t, v)
    ensures Provenance(v)
  {
    var p := w.state.pending.value;
    StartsGrow(w.starts, v.starts[|w.starts|]);
    assert OfferOf(v.accepted, p.tree, p.inputs) by {
      assert v.accepted[|v.accepted| - 1].green;
    }
  }

  lemma StartIsNew(starts: seq<Start>, start: Start)
    requires StartedOnce(starts) && !WasStarted(starts, start.tree)
    ensures StartedOnce(starts + [start])
  {
    var grown := starts + [start];
    forall i, j | 0 <= i < j < |grown| ensures grown[i].tree != grown[j].tree {
      if j == |starts| {
        assert WasStarted(starts, starts[i].tree);
      }
    }
  }

  lemma StartsGrow(starts: seq<Start>, start: Start)
    ensures forall tree :: WasStarted(starts + [start], tree) <==> WasStarted(starts, tree) || tree == start.tree
    ensures forall tree, inputs :: StartOf(starts, tree, inputs) ==> StartOf(starts + [start], tree, inputs)
    ensures StartOf(starts + [start], start.tree, start.inputs)
  {
    var grown := starts + [start];
    assert grown[|starts|] == start;
    forall tree | WasStarted(starts, tree) ensures WasStarted(grown, tree) {
      var i :| 0 <= i < |starts| && starts[i].tree == tree;
      assert grown[i].tree == tree;
    }
    forall tree, inputs | StartOf(starts, tree, inputs) ensures StartOf(grown, tree, inputs) {
      var i :| 0 <= i < |starts| && starts[i].tree == tree && starts[i].inputs == inputs;
      assert grown[i] == starts[i];
    }
  }

  lemma AfterKeeps(w: World, e: Event)
    requires Inv(w) && Possible(w, e)
    ensures Inv(After(w, e))
  {
    match e
    case Offered(o) => OfferKeeps(w, o);
    case Ticked(t) =>
      ReapKeeps(w, t);
      var reaped := w.(state := AfterReap(w.state, t.alive, t.now));
      if Starts(w.state, t) {
        StartKeeps(reaped, t, After(w, e));
      }
    case Reported(status, detail, now, otherwise) =>
      var r := w.runner.value;
      FinishKeeps(w, Receipt(status, r.tip, r.artifacts, w.state.running.value.inputs, detail, now), After(w, e));
    case RunnerDied =>
  }

  lemma {:induction false} HistoryKeeps(events: seq<Event>)
    requires History(events)
    ensures Inv(Replay(events))
  {
    if events != [] {
      HistoryKeeps(events[..|events| - 1]);
      AfterKeeps(Replay(events[..|events| - 1]), events[|events| - 1]);
    } else {
      assert Trees([]) == [];
    }
  }

  // ----- the promises, over every history -----

  /**
   The accepted offers are, in order, what the starts consumed and what is still queued; no
   tree is started twice, consecutive starts keep the interval of the later one, and every start
   was on an idle host.
   */
  lemma EveryHistory(events: seq<Event>)
    requires History(events)
    ensures var w := Replay(events);
            && Trees(w.accepted) == Consumed(w.starts) + Queued(w.state)
            && Disjoint(w.state) && StartedOnce(w.starts)
            && (forall i :: 0 < i < |w.starts| ==> w.starts[i].at - w.starts[i - 1].at >= w.starts[i].minInterval)
            && (forall i :: 0 <= i < |w.starts| ==> w.starts[i].idle)
  {
    HistoryKeeps(events);
  }

  /**
   When a tick starts a run, exactly: nothing runs or what ran is dead, something is queued, the
   latest start is long enough ago, and the host is idle.
   */
  lemma TickStartsIff(events: seq<Event>, t: Tick)
    requires History(events) && History(events + [Ticked(t)])
    ensures var w, v := Replay(events), Replay(events + [Ticked(t)]);
      if (w.state.running.None? || !t.alive) && w.state.pending.Some? && t.hostIdle
           && t.now - LatestStart(w.starts) >= t.minInterval
      then |v.starts| == |w.starts| + 1 && v.starts[..|w.starts|] == w.starts && v.runner.Some? && Queued(v.state) == []
      else v.starts == w.starts && v.runner == w.runner && Queued(v.state) == Queued(w.state)
  {
    HistoryKeeps(events);
    ReplayStep(events, Ticked(t));
  }

  /** When an offer is accepted, exactly: it is green, its tree was never started, and it is not the one queued. */
  lemma OfferAcceptedIff(events: seq<Event>, o: Offering)
    requires History(events) && History(events + [Offered(o)])
    ensures var w, v := Replay(events), Replay(events + [Offered(o)]);
      if o.green && !WasStarted(w.starts, o.tree)
           && (Queued(w.state) == [] || Queued(w.state)[|Queued(w.state)| - 1] != o.tree)
      then v.accepted == w.accepted + [o] && Queued(v.state) == Queued(w.state) + [o.tree]
      else v == w
  {
    HistoryKeeps(events);
    ReplayStep(events, Offered(o));
  }

  /** A run whose process is gone without a report is recorded as failed by the next tick. */
  lemma DeadRunFails(events: seq<Event>, t: Tick)
    requires History(events) && History(events + [Ticked(t)]) && Replay(events).state.running.Some? && !t.alive
    ensures var w, v := Replay(events).state, Replay(events + [Ticked(t)]).state;
      && w.running.value.tree in v.receipts && v.receipts[w.running.value.tree].status == FAIL
      && v.receipts[w.running.value.tree].inputs == w.running.value.inputs
  {
    ReplayStep(events, Ticked(t));
  }

  /** A start runs the newest accepted offer: its tree and its inputs. */
  lemma StartTakesNewest(events: seq<Event>, t: Tick)
    requires History(events + [Ticked(t)]) && History(events) && Starts(Replay(events).state, t)
    ensures var w, v := Replay(events), Replay(events + [Ticked(t)]);
            && w.accepted != [] && v.starts != []
            && v.starts[|v.starts| - 1].tree == w.accepted[|w.accepted| - 1].tree
            && v.starts[|v.starts| - 1].inputs == w.accepted[|w.accepted| - 1].inputs
  {
    HistoryKeeps(events);
    ReplayStep(events, Ticked(t));
    StartIsNewest(Replay(events), t);
  }

  lemma ReplayStep(events: seq<Event>, e: Event)
    requires History(events) && History(events + [e])
    ensures Possible(Replay(events), e) && Replay(events + [e]) == After(Replay(events), e)
  {
    var more := events + [e];
    assert more[..|more| - 1] == events && more[|events|] == e;
  }

  lemma StartIsNewest(w: World, t: Tick)
    requires Inv(w) && Starts(w.state, t) && Possible(w, Ticked(t))
    ensures var v := After(w, Ticked(t));
      && w.accepted != [] && v.starts != []
      && v.starts[|v.starts| - 1].tree == w.accepted[|w.accepted| - 1].tree
      && v.starts[|v.starts| - 1].inputs == w.accepted[|w.accepted| - 1].inputs
  {
  }

  /** Nothing but its own report or death ends a run. */
  lemma RunNeverCancelled(events: seq<Event>, e: Event)
    requires History(events) && Replay(events).runner.Some? && Possible(Replay(events), e)
    requires !e.Reported? && !e.RunnerDied?
    ensures After(Replay(events), e).state.running == Replay(events).state.running
    ensures After(Replay(events), e).runner == Replay(events).runner
  {
    HistoryKeeps(events);
  }

  predicate PassReported(events: seq<Event>, k: nat, tree: Tree)
    requires History(events)
  {
    && k < |events| && events[k].Reported? && events[k].status == PASS
    && History(events[..k]) && Replay(events[..k]).runner.Some? && Replay(events[..k]).runner.value.tree == tree
  }

  lemma PrefixHistory(events: seq<Event>, k: nat)
    requires History(events) && k <= |events|
    ensures History(events[..k])
    decreases |events|
  {
    if k < |events| {
      PrefixHistory(events[..|events| - 1], k);
      assert events[..|events| - 1][..k] == events[..k];
    } else {
      assert events[..k] == events;
    }
  }

  /** A receipt passes only because the runner of that very tree reported PASS. */
  lemma {:induction false} PassWasReported(events: seq<Event>, tree: Tree) returns (k: nat)
    requires History(events) && tree in Replay(events).state.receipts
    requires Replay(events).state.receipts[tree].status == PASS
    ensures PassReported(events, k, tree)
    decreases |events|
  {
    if events == [] {
      assert false;
    } else {
      var n := |events| - 1;
      var w := Replay(events[..n]);
      if tree in w.state.receipts && w.state.receipts[tree].status == PASS {
        k := PassWasReported(events[..n], tree);
        assert events[..n][..k] == events[..k];
      } else {
        k := n;
      }
    }
  }

  /**
   What a cut may reuse: a receipt that `lookup` returns belongs to a run that was started for
   that tree with exactly those inputs, offered green, and reported PASS by its own runner.
   */
  lemma ReuseIsEarned(events: seq<Event>, tree: Tree, inputs: Inputs)
    requires History(events) && Lookup(Replay(events).state, tree, inputs).Some?
    ensures StartOf(Replay(events).starts, tree, inputs) && OfferOf(Replay(events).accepted, tree, inputs)
    ensures exists k :: PassReported(events, k, tree)
  {
    HistoryKeeps(events);
    var w := Replay(events);
    assert StartOf(w.starts, tree, w.state.receipts[tree].inputs);
    var i :| 0 <= i < |w.starts| && w.starts[i].tree == tree && w.starts[i].inputs == inputs;
    assert OfferOf(w.accepted, w.starts[i].tree, w.starts[i].inputs);
    var k := PassWasReported(events, tree);
  }

  lemma ReceiptSurvives(w: World, e: Event, tree: Tree)
    requires Inv(w) && Possible(w, e) && tree in w.state.receipts
    ensures tree in After(w, e).state.receipts && After(w, e).state.receipts[tree] == w.state.receipts[tree]
  {
  }

  /** A receipt is final: no later event changes it. */
  lemma {:induction false} ReceiptIsFinal(events: seq<Event>, n: nat, tree: Tree)
    requires History(events) && n <= |events| && History(events[..n]) && tree in Replay(events[..n]).state.receipts
    ensures tree in Replay(events).state.receipts
    ensures Replay(events).state.receipts[tree] == Replay(events[..n]).state.receipts[tree]
    decreases |events|
  {
    if n == |events| {
      assert events[..n] == events;
    } else {
      var init := events[..|events| - 1];
      assert init[..n] == events[..n];
      ReceiptIsFinal(init, n, tree);
      HistoryKeeps(init);
      ReceiptSurvives(Replay(init), events[|events| - 1], tree);
    }
  }

  /** And every pass can be reused from then on, for the inputs that its start had. */
  lemma PassIsReusable(events: seq<Event>, k: nat, tree: Tree) returns (inputs: Inputs)
    requires History(events) && PassReported(events, k, tree)
    ensures StartOf(Replay(events).starts, tree, inputs) && Lookup(Replay(events).state, tree, inputs).Some?
  {
    PrefixHistory(events, k + 1);
    assert events[..k + 1] == events[..k] + [events[k]];
    HistoryKeeps(events[..k]);
    ReplayStep(events[..k], events[k]);
    ReceiptIsFinal(events, k + 1, tree);
    inputs := Replay(events).state.receipts[tree].inputs;
    HistoryKeeps(events);
  }
}
