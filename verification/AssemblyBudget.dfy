/**
 The memory arithmetic behind assembly admission (`memory_budget`, `execution_plan` and
 `admit_phase` in scripts/assembly-proof.py).
 */
module AssemblyBudget {
  import opened Wrappers
  import HostAdmission
  import HostAdmissionRuns
  import opened AssemblyPolicy

  const COMPILE_JOB_BYTES := GIB / 4
  const PRODUCER_BYTES := 8 * GIB
  const SCRIPT_BYTES := 2 * GIB
  const TEST_FIXED_BYTES := 4 * GIB
  const TEST_THREAD_BYTES := GIB / 4
  const DEFAULT_WAIT_SECS := 600

  /** A memory snapshot as the operating system and the taste file show it. */
  datatype Snapshot = Snapshot(total: int, available: int, taste: nat)
  datatype Memory = Memory(total: int, available: int, reserve: int, taste: nat, budget: int)

  function Reserve(configured: Knob, total: int): int {
    if configured.Some? then configured.value * GIB else Max(8 * GIB, total / 4)
  }

  /** `None` is the error for a snapshot that cannot be true. */
  function MemoryBudget(configured: Knob, shot: Snapshot): Option<Memory> {
    if !(0 < shot.total && 0 <= shot.available <= shot.total) then None else
      var reserve := Reserve(configured, shot.total);
      Some(Memory(shot.total, shot.available, reserve, shot.taste, Max(0, shot.available - reserve - shot.taste)))
  }

  /** A positive need fits the budget exactly when it fits beside the reserve and the taste run. */
  lemma BudgetMeansAvailable(configured: Knob, shot: Snapshot, need: int)
    requires MemoryBudget(configured, shot).Some? && need > 0
    ensures var m := MemoryBudget(configured, shot).value;
      need <= m.budget <==> need + m.reserve + m.taste <= m.available
  {
  }

  /**
   These bytes leave the reserve: the configured number of gibibytes, else 8 GiB and a quarter of
   the memory, rounded down.
   */
  predicate LeaveReserve(configured: Knob, total: int, bytes: int) {
    if configured.Some? then bytes >= configured.value * 0x4000_0000
    else bytes >= 8 * 0x4000_0000 && 4 * bytes + 3 >= total
  }

  /** A positive need fits the budget exactly when what it leaves beside the taste run covers the reserve. */
  lemma BudgetLeavesReserve(configured: Knob, shot: Snapshot, need: int)
    requires MemoryBudget(configured, shot).Some? && need > 0
    ensures need <= MemoryBudget(configured, shot).value.budget
       <==> LeaveReserve(configured, shot.total, shot.available - shot.taste - need)
  {
    ReserveIff(configured, shot.total, shot.available - shot.taste - need);
  }

  lemma ReserveIff(configured: Knob, total: int, bytes: int)
    ensures Reserve(configured, total) <= bytes <==> LeaveReserve(configured, total, bytes)
  {
  }

  // ----- phases -----

  datatype Phase = Scripts | Compile | Tests

  /** What `count` jobs or threads of a phase are estimated to use. */
  function Estimate(phase: Phase, count: int): int {
    match phase
    case Scripts => SCRIPT_BYTES
    case Compile => PRODUCER_BYTES + LINK_BYTES + GUARD_HEADROOM_BYTES + count * COMPILE_JOB_BYTES
    case Tests => TEST_FIXED_BYTES + count * TEST_THREAD_BYTES
  }

  /** The script tier runs once; compile jobs obey the knob and test threads the cores. */
  function Cap(phase: Phase, buildJobs: Knob, cores: Positive): Positive {
    match phase
    case Scripts => 1
    case Compile => KnobOr(buildJobs, cores)
    case Tests => cores
  }

  function PhaseCount(phase: Phase, buildJobs: Knob, cores: Positive, budget: int): int {
    match phase
    case Scripts => if budget >= SCRIPT_BYTES then 1 else 0
    case Compile =>
      Min(KnobOr(buildJobs, cores),
          Max(0, (budget - PRODUCER_BYTES - LINK_BYTES - GUARD_HEADROOM_BYTES) / COMPILE_JOB_BYTES))
    case Tests =>
      Min(cores, Max(0, (budget - TEST_FIXED_BYTES) / TEST_THREAD_BYTES))
  }

  /** Division as a bound: `n` units fit exactly when `n` is at most the quotient. */
  lemma Quotient(room: int, unit: int, n: int)
    requires unit > 0
    ensures n <= room / unit <==> n * unit <= room
  {
    var q := room / unit;
    assert q * unit <= room < (q + 1) * unit;
    if n <= q {
      assert n * unit <= q * unit;
    } else {
      assert (q + 1) * unit <= n * unit;
    }
  }

  /** The granted count is the largest that fits: n is granted or less than granted iff it fits under the cap. */
  lemma CountIsLargest(phase: Phase, buildJobs: Knob, cores: Positive, budget: int, n: int)
    requires n > 0
    ensures 0 <= PhaseCount(phase, buildJobs, cores, budget) <= Cap(phase, buildJobs, cores)
    ensures n <= PhaseCount(phase, buildJobs, cores, budget)
       <==> n <= Cap(phase, buildJobs, cores) && Estimate(phase, n) <= budget
  {
    match phase
    case Scripts =>
    case Compile => Quotient(budget - PRODUCER_BYTES - LINK_BYTES - GUARD_HEADROOM_BYTES, COMPILE_JOB_BYTES, n);
    case Tests => Quotient(budget - TEST_FIXED_BYTES, TEST_THREAD_BYTES, n);
  }

  /** The bytes of a phase, and how many jobs or threads it may have at most, as numbers. */
  predicate InNumbers(phase: Phase, buildJobs: Knob, cores: Positive, n: int, bytes: int, most: int) {
    match phase
    case Scripts => bytes == 2147483648 && most == 1
    case Compile =>
      bytes == 8589934592 + 2254857831 + 2147483648 + n * 268435456
        && most == if buildJobs.Some? then buildJobs.value else cores
    case Tests => bytes == 4294967296 + n * 268435456 && most == cores
  }

  /**
   When a phase gets n jobs or threads, in the host's own numbers: the snapshot is possible, n is
   under the phase's limit, and its bytes leave the reserve beside the taste run.
   */
  lemma GrantedIff(configured: Knob, shot: Snapshot, phase: Phase, buildJobs: Knob, cores: Positive, n: int,
                   bytes: int, most: int)
    requires n > 0 && InNumbers(phase, buildJobs, cores, n, bytes, most)
    ensures MemoryBudget(configured, shot).Some? <==> 0 < shot.total && 0 <= shot.available <= shot.total
    ensures MemoryBudget(configured, shot).Some? ==>
      (n <= PhaseCount(phase, buildJobs, cores, MemoryBudget(configured, shot).value.budget) <==>
        n <= most && LeaveReserve(configured, shot.total, shot.available - shot.taste - bytes))
  {
    if MemoryBudget(configured, shot).Some? {
      CountIsLargest(phase, buildJobs, cores, MemoryBudget(configured, shot).value.budget, n);
      BudgetLeavesReserve(configured, shot, bytes);
    }
  }

  /**
   A phase granted beside an admitted taste run leaves room for the run's whole estimate: the
   lane is read in a state of a run of the admission protocol in which that lease is live.
   */
  lemma PhaseBesideTasteRun(states: seq<HostAdmission.State>, labels: seq<HostAdmissionRuns.Label>, i: nat,
                            c: HostAdmission.Client,
                            configured: Knob, shot: Snapshot, phase: Phase, buildJobs: Knob, cores: Positive,
                            count: int)
    requires HostAdmissionRuns.IsRun(states, labels) && i < |states|
    requires HostAdmissionRuns.LiveAs(states[i], c, HostAdmission.TasteLease)
    requires shot.taste == HostAdmissionRuns.TasteLaneBytes(states[i])
    requires MemoryBudget(configured, shot).Some?
    requires count == PhaseCount(phase, buildJobs, cores, MemoryBudget(configured, shot).value.budget) && count > 0
    ensures Estimate(phase, count) + Reserve(configured, shot.total) + states[i].procs[c].estimate <= shot.available
    ensures count < Cap(phase, buildJobs, cores)
      ==> Estimate(phase, count + 1) + Reserve(configured, shot.total) + states[i].procs[c].estimate > shot.available
  {
    HostAdmissionRuns.TasteLaneShowsEstimate(states, labels, i, c);
    var budget := MemoryBudget(configured, shot).value.budget;
    CountIsLargest(phase, buildJobs, cores, budget, count);
    CountIsLargest(phase, buildJobs, cores, budget, count + 1);
    BudgetMeansAvailable(configured, shot, Estimate(phase, count));
    BudgetMeansAvailable(configured, shot, Estimate(phase, count + 1));
  }

  // ----- the plan for the two producers -----

  function PlanCap(requested: Knob, cores: Positive): Positive {
    Min(KnobOr(requested, cores), Max(1, cores / 2))
  }

  /** Compile jobs per producer; 0 means the legs run one after the other. */
  function PlanJobs(requested: Knob, cores: Positive, budget: int): int {
    Min(PlanCap(requested, cores),
        Max(0, (budget - 2 * PRODUCER_BYTES - SCRIPT_BYTES - LINK_BYTES - GUARD_HEADROOM_BYTES)
               / (2 * COMPILE_JOB_BYTES)))
  }

  /** Both producers with `jobs` each, the script tier, one link and the guard's headroom. */
  function ConcurrentBytes(jobs: int): int {
    2 * (PRODUCER_BYTES + jobs * COMPILE_JOB_BYTES) + SCRIPT_BYTES + LINK_BYTES + GUARD_HEADROOM_BYTES
  }

  lemma PlanIsLargest(requested: Knob, cores: Positive, budget: int, n: int)
    requires n > 0
    ensures 0 <= PlanJobs(requested, cores, budget) <= PlanCap(requested, cores)
    ensures n <= PlanJobs(requested, cores, budget) <==> n <= PlanCap(requested, cores) && ConcurrentBytes(n) <= budget
  {
    Quotient(budget - 2 * PRODUCER_BYTES - SCRIPT_BYTES - LINK_BYTES - GUARD_HEADROOM_BYTES, 2 * COMPILE_JOB_BYTES, n);
  }

  /** The plan in numbers: at most the knob or the cores, at most half of the cores but at least one. */
  lemma PlanIff(requested: Knob, cores: Positive, budget: int, n: int)
    requires n > 0
    ensures n <= PlanJobs(requested, cores, budget) <==>
      && n <= (if requested.Some? then requested.value else cores)
      && (n == 1 || 2 * n <= cores)
      && 2 * (8589934592 + n * 268435456) + 2147483648 + 2254857831 + 2147483648 <= budget
  {
    PlanIsLargest(requested, cores, budget, n);
    Quotient(cores, 2, n);
  }

  /** On the same budget, admission grants each leg of a concurrent plan at least its planned jobs. */
  lemma PlanIsAdmitted(requested: Knob, cores: Positive, budget: int)
    requires PlanJobs(requested, cores, budget) > 0
    ensures PhaseCount(Compile, requested, cores, budget) >= PlanJobs(requested, cores, budget)
    ensures PhaseCount(Scripts, requested, cores, budget) == 1
    ensures PhaseCount(Tests, requested, cores, budget) > 0
    // While one producer holds its estimate and the scripts run, the other is still admitted.
    ensures PhaseCount(Compile, requested, cores,
                       budget - PRODUCER_BYTES - PlanJobs(requested, cores, budget) * COMPILE_JOB_BYTES - SCRIPT_BYTES)
         >= PlanJobs(requested, cores, budget)
  {
    var jobs := PlanJobs(requested, cores, budget);
    PlanIsLargest(requested, cores, budget, jobs);
    CountIsLargest(Compile, requested, cores, budget, jobs);
    CountIsLargest(Tests, requested, cores, budget, 1);
    CountIsLargest(Compile, requested, cores, budget - PRODUCER_BYTES - jobs * COMPILE_JOB_BYTES - SCRIPT_BYTES, jobs);
  }

  // ----- the admission loop -----

  datatype Settings = Settings(reserveGib: Knob, waitSecs: Knob, pollSecs: Knob, buildJobs: Knob, cores: Positive)

  /** One turn of the loop: what the host shows and how long the loop has waited. */
  datatype Reading = Reading(shot: Snapshot, elapsed: real)
  datatype Event = Event(memory: Memory, phase: Phase, count: int, elapsed: real)
  /** `Waiting` is a loop that still sleeps after the turns given. */
  datatype Outcome = Granted(count: int) | Expired | NoSnapshot | Waiting

  function Wait(s: Settings): Positive { KnobOr(s.waitSecs, DEFAULT_WAIT_SECS) }

  function CountAt(s: Settings, phase: Phase, turn: Reading): int {
    var memory := MemoryBudget(s.reserveGib, turn.shot);
    if memory.None? then 0 else PhaseCount(phase, s.buildJobs, s.cores, memory.value.budget)
  }

  /** The loop sleeps after this turn. */
  predicate Sleeps(s: Settings, phase: Phase, turn: Reading) {
    MemoryBudget(s.reserveGib, turn.shot).Some? && CountAt(s, phase, turn) == 0 && turn.elapsed < Wait(s) as real
  }

  function EventOf(s: Settings, phase: Phase, turn: Reading): Event
    requires MemoryBudget(s.reserveGib, turn.shot).Some?
  {
    Event(MemoryBudget(s.reserveGib, turn.shot).value, phase, CountAt(s, phase, turn), turn.elapsed)
  }

  /** `turns[n]` is the turn that ends the loop: every earlier one slept. */
  predicate EndsAt(s: Settings, phase: Phase, turns: seq<Reading>, n: nat) {
    && n < |turns| && !Sleeps(s, phase, turns[n])
    && forall j :: 0 <= j < n ==> Sleeps(s, phase, turns[j])
  }

  class Execution {
    var phases: seq<Event>

    constructor ()
      ensures phases == []
    {
      phases := [];
    }

    /** `admit_phase`: an event for every turn that has a snapshot, and the first decisive turn's verdict. */
    method AdmitPhase(s: Settings, phase: Phase, turns: seq<Reading>) returns (outcome: Outcome, ghost last: nat)
      modifies this
      ensures outcome == Waiting <==> forall j :: 0 <= j < |turns| ==> Sleeps(s, phase, turns[j])
      ensures outcome != Waiting ==> EndsAt(s, phase, turns, last)
      ensures outcome == NoSnapshot ==> MemoryBudget(s.reserveGib, turns[last].shot) == None
      ensures outcome.Granted? ==> outcome.count == CountAt(s, phase, turns[last]) > 0
      ensures outcome == Expired ==>
        MemoryBudget(s.reserveGib, turns[last].shot).Some? && CountAt(s, phase, turns[last]) == 0
      ensures outcome == Expired ==>
        turns[last].elapsed >= (if s.waitSecs.Some? then s.waitSecs.value else 600) as real
      ensures last <= |turns|
      ensures |phases| == |old(phases)| + last + (if outcome.Granted? || outcome == Expired then 1 else 0)
      ensures phases[..|old(phases)|] == old(phases)
      ensures forall j :: 0 <= j < |phases| - |old(phases)| ==>
        MemoryBudget(s.reserveGib, turns[j].shot).Some? && phases[|old(phases)| + j] == EventOf(s, phase, turns[j])
    {
      var n := 0;
      last := 0;
      while n < |turns|
        invariant n <= |turns| && last == n
        invariant forall j :: 0 <= j < n ==> Sleeps(s, phase, turns[j])
        invariant |phases| == |old(phases)| + n && phases[..|old(phases)|] == old(phases)
        invariant forall j :: 0 <= j < n ==> phases[|old(phases)| + j] == EventOf(s, phase, turns[j])
      {
        var memory := MemoryBudget(s.reserveGib, turns[n].shot);
        if memory.None? { return NoSnapshot, n; }
        var count := PhaseCount(phase, s.buildJobs, s.cores, memory.value.budget);
        phases := phases + [Event(memory.value, phase, count, turns[n].elapsed)];
        CountIsLargest(phase, s.buildJobs, s.cores, memory.value.budget, 1);
        if count > 0 { return Granted(count), n; }
        if turns[n].elapsed >= Wait(s) as real { return Expired, n; }
        n := n + 1;
        last := n;
      }
      outcome := Waiting;
    }
  }

  /** What a granted phase means in the host's own numbers, and that one more would not have fitted. */
  lemma GrantedMeans(s: Settings, phase: Phase, turn: Reading)
    requires CountAt(s, phase, turn) > 0
    ensures var n := CountAt(s, phase, turn); var reserve := Reserve(s.reserveGib, turn.shot.total);
      && n <= Cap(phase, s.buildJobs, s.cores)
      && Estimate(phase, n) + reserve + turn.shot.taste <= turn.shot.available
      && (n < Cap(phase, s.buildJobs, s.cores) ==>
           Estimate(phase, n + 1) + reserve + turn.shot.taste > turn.shot.available)
  {
    var n := CountAt(s, phase, turn);
    var memory := MemoryBudget(s.reserveGib, turn.shot).value;
    CountIsLargest(phase, s.buildJobs, s.cores, memory.budget, n);
    CountIsLargest(phase, s.buildJobs, s.cores, memory.budget, n + 1);
    BudgetMeansAvailable(s.reserveGib, turn.shot, Estimate(phase, n));
    BudgetMeansAvailable(s.reserveGib, turn.shot, Estimate(phase, n + 1));
  }

  /** A sleep lasts for the polling interval, 2 seconds unless set, or reaches the deadline. */
  predicate ClockKeeps(s: Settings, turns: seq<Reading>) {
    && (|turns| > 0 ==> turns[0].elapsed >= 0.0)
    && forall j :: 0 < j < |turns| ==>
         || turns[j].elapsed >= turns[j - 1].elapsed + (if s.pollSecs.Some? then s.pollSecs.value else 2) as real
         || turns[j].elapsed >= (if s.waitSecs.Some? then s.waitSecs.value else 600) as real
  }

  /** The loop always ends: turns that all sleep have used up their polls before the deadline. */
  lemma {:induction false} AttemptsAreBounded(s: Settings, phase: Phase, turns: seq<Reading>, n: nat)
    requires ClockKeeps(s, turns) && n < |turns|
    requires forall j :: 0 <= j <= n ==> Sleeps(s, phase, turns[j])
    ensures var poll := (if s.pollSecs.Some? then s.pollSecs.value else 2) as real;
      n as real * poll <= turns[n].elapsed < (if s.waitSecs.Some? then s.waitSecs.value else 600) as real
  {
    assert Sleeps(s, phase, turns[n]);
    if n > 0 {
      var poll := (if s.pollSecs.Some? then s.pollSecs.value else 2) as real;
      AttemptsAreBounded(s, phase, turns, n - 1);
      assert n as real * poll == (n - 1) as real * poll + poll;
      assert turns[n].elapsed >= turns[n - 1].elapsed + poll;
    } else {
      assert n as real == 0.0;
    }
  }
}
