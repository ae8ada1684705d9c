/**
 Linker admission (`link_capacity` and `claim_slot` in scripts/assembly-memory.py): a pool of slot
 files whose capacity is recomputed from a fresh memory sample at every claim.
 */
module LinkSlots {
  import opened Wrappers
  import opened AssemblyPolicy

  const DEFAULT_LINK_JOBS := 8

  function Capacity(jobs: Knob, budget: int): int {
    Min(KnobOr(jobs, DEFAULT_LINK_JOBS), Max(1, (budget - GUARD_HEADROOM_BYTES) / LINK_BYTES))
  }

  predicate Fits(budget: int) {
    budget >= LINK_BYTES + GUARD_HEADROOM_BYTES
  }

  /** One more link beside these stays under the configured maximum, 8 unless set, and fits the budget. */
  predicate Admits(jobs: Knob, budget: int, links: nat) {
    links < (if jobs.Some? then jobs.value else 8) && (links + 1) * LINK_BYTES + GUARD_HEADROOM_BYTES <= budget
  }

  /** The capacity rule of the script is that condition, whatever the budget. */
  lemma CapacityIff(jobs: Knob, budget: int, links: nat)
    ensures Fits(budget) && links < Capacity(jobs, budget) <==> Admits(jobs, budget, links)
  {
    RoomIff(budget - GUARD_HEADROOM_BYTES, links);
  }

  lemma RoomIff(room: int, links: nat)
    ensures links < room / LINK_BYTES <==> (links + 1) * LINK_BYTES <= room
  {
    var n := room / LINK_BYTES;
    assert n * LINK_BYTES <= room < (n + 1) * LINK_BYTES;
    if links + 1 <= n {
      assert (links + 1) * LINK_BYTES <= n * LINK_BYTES;
    } else {
      assert (n + 1) * LINK_BYTES <= (links + 1) * LINK_BYTES;
    }
  }

  /** The capacity that a claim reports: the most links that both rules allow, and at least one. */
  lemma CapacityIsLargest(jobs: Knob, budget: int)
    ensures var n := Capacity(jobs, budget);
      && 1 <= n && (n == 1 || Admits(jobs, budget, n - 1)) && !Admits(jobs, budget, n)
  {
    var n := Capacity(jobs, budget);
    CapacityIff(jobs, budget, n - 1);
    CapacityIff(jobs, budget, n);
  }

  // ----- one claim -----

  /** A slot file of the listing: the number in its name, and whether its lock was taken. */
  datatype Probe = Probe(index: nat, busy: bool)

  /** An admitted link locks the file at a place of the listing, or a new one. */
  datatype Claim =
    | Refused(active: nat, capacity: int)
    | Admitted(index: nat, reused: Option<nat>, active: nat, capacity: int)

  function Indices(probes: seq<Probe>): (r: set<nat>)
    ensures forall k :: 0 <= k < |probes| ==> probes[k].index in r
  {
    if probes == [] then {} else Indices(probes[..|probes| - 1]) + {probes[|probes| - 1].index}
  }

  lemma {:induction false} IndexMeans(probes: seq<Probe>, i: nat) returns (k: nat)
    requires i in Indices(probes)
    ensures k < |probes| && probes[k].index == i
  {
    k := |probes| - 1;
    if probes[k].index != i {
      k := IndexMeans(probes[..k], i);
    }
  }

  /** How many files are busy, files whose names hold the same number each for itself. */
  function BusyCount(probes: seq<Probe>): nat {
    if probes == [] then 0
    else BusyCount(probes[..|probes| - 1]) + if probes[|probes| - 1].busy then 1 else 0
  }

  /** The places of the busy files. */
  function BusyPlaces(probes: seq<Probe>): set<nat> {
    set k: nat | k < |probes| && probes[k].busy
  }

  lemma {:induction false} BusyCountIsPlaces(probes: seq<Probe>)
    ensures BusyCount(probes) == |BusyPlaces(probes)|
    decreases |probes|
  {
    if probes != [] {
      var n := |probes| - 1;
      BusyCountIsPlaces(probes[..n]);
      assert BusyPlaces(probes) == BusyPlaces(probes[..n]) + if probes[n].busy then {n} else {};
    }
  }

  /** The first of the free files with the least number. */
  predicate IsLeastFree(probes: seq<Probe>, k: nat) {
    && k < |probes| && !probes[k].busy
    && forall j :: 0 <= j < |probes| && !probes[j].busy ==> NoSmaller(probes, k, j)
  }

  predicate FirstGap(indices: set<nat>, index: nat) {
    index !in indices && forall j :: 0 <= j < index ==> j in indices
  }

  /** The file selected: the least free one, else a new one under the first unused number. */
  predicate Selected(probes: seq<Probe>, index: nat, reused: Option<nat>) {
    match reused
    case Some(k) => IsLeastFree(probes, k) && probes[k].index == index
    case None => FirstGap(Indices(probes), index) && forall j :: 0 <= j < |probes| ==> probes[j].busy
  }

  /** The places of the free files, in the order of the listing. */
  function FreeOf(probes: seq<Probe>): seq<nat> {
    if probes == [] then []
    else FreeOf(probes[..|probes| - 1]) + if probes[|probes| - 1].busy then [] else [|probes| - 1]
  }

  lemma {:induction false} FreeMeans(probes: seq<Probe>, k: nat)
    ensures k in FreeOf(probes) <==> k < |probes| && !probes[k].busy
    ensures forall i :: 0 <= i < |FreeOf(probes)| ==> FreeOf(probes)[i] < |probes|
    ensures forall i, j :: 0 <= i < j < |FreeOf(probes)| ==> FreeOf(probes)[i] < FreeOf(probes)[j]
    decreases |probes|
  {
    if probes != [] {
      FreeMeans(probes[..|probes| - 1], k);
    }
  }

  predicate IsProbed(probes: seq<Probe>, free: seq<nat>, indices: set<nat>, active: nat) {
    indices == Indices(probes) && free == FreeOf(probes) && active == BusyCount(probes)
  }

  lemma ProbeStep(probes: seq<Probe>, probe: Probe, free: seq<nat>, indices: set<nat>, active: nat)
    requires IsProbed(probes, free, indices, active)
    ensures IsProbed(probes + [probe], if probe.busy then free else free + [|probes|], indices + {probe.index},
                     if probe.busy then active + 1 else active)
  {
    assert (probes + [probe])[..|probes|] == probes;
  }

  /** Probe every slot file, keeping the free ones locked and counting the busy ones. */
  method ProbeAll(probes: seq<Probe>) returns (free: seq<nat>, indices: set<nat>, active: nat)
    ensures IsProbed(probes, free, indices, active)
  {
    free, indices, active := [], {}, 0;
    ghost var done: seq<Probe> := [];
    for n := 0 to |probes|
      invariant done == probes[..n] && IsProbed(done, free, indices, active)
    {
      var probe := probes[n];
      ProbeStep(done, probe, free, indices, active);
      done := done + [probe];
      indices := indices + {probe.index};
      if !probe.busy {
        free := free + [n];
      } else {
        active := active + 1;
      }
    }
    assert probes[..|probes|] == probes;
  }

  method FirstUnused(indices: set<nat>) returns (index: nat)
    ensures FirstGap(indices, index)
  {
    index := 0;
    ghost var passed: set<nat> := {};
    while index in indices
      invariant forall j :: 0 <= j < index ==> j in indices
      invariant forall j :: j in passed ==> j < index
      decreases indices - passed
    {
      assert index in indices - passed;
      passed := passed + {index};
      index := index + 1;
    }
  }

  /** `min` over the locked free files, by number. */
  method LeastFree(probes: seq<Probe>, free: seq<nat>) returns (k: nat)
    requires free == FreeOf(probes) && free != []
    ensures IsLeastFree(probes, k)
  {
    k := free[0];
    var at := 0;
    FreeMeans(probes, k);
    for n := 1 to |free|
      invariant 0 <= at < n && free[at] == k < |probes|
      invariant forall i :: 0 <= i < n ==> NoSmaller(probes, k, free[i])
    {
      FreeMeans(probes, free[n]);
      if probes[free[n]].index < probes[k].index {
        k, at := free[n], n;
      }
    }
    FreeMeans(probes, k);
    forall j | 0 <= j < |probes| && !probes[j].busy ensures NoSmaller(probes, k, j) {
      FreeMeans(probes, j);
    }
  }

  /** By number, then by place, file k does not come after file j. */
  predicate NoSmaller(probes: seq<Probe>, k: nat, j: nat) {
    k < |probes| && j < |probes|
      && (probes[k].index < probes[j].index || (probes[k].index == probes[j].index && k <= j))
  }

  /** `claim_slot` under the admission lock, for a directory listed in any order. */
  method ClaimSlot(probes: seq<Probe>, budget: int, jobs: Knob) returns (claim: Claim)
    ensures claim.active == |BusyPlaces(probes)|
    ensures claim.Admitted? <==>
      && claim.active < (if jobs.Some? then jobs.value else 8)
      && (claim.active + 1) * LINK_BYTES + GUARD_HEADROOM_BYTES <= budget
    ensures claim.Admitted? ==> Selected(probes, claim.index, claim.reused)
    ensures 1 <= claim.capacity <= (if jobs.Some? then jobs.value else 8)
    ensures claim.capacity > 1 ==> claim.capacity * LINK_BYTES + GUARD_HEADROOM_BYTES <= budget
    ensures claim.capacity == (if jobs.Some? then jobs.value else 8)
         || (claim.capacity + 1) * LINK_BYTES + GUARD_HEADROOM_BYTES > budget
  {
    var capacity := Capacity(jobs, budget);
    var free, indices, active := ProbeAll(probes);
    BusyCountIsPlaces(probes);
    CapacityIff(jobs, budget, active);
    CapacityIsLargest(jobs, budget);
    if !(Fits(budget) && active < capacity) {
      return Refused(active, capacity);
    }
    if free != [] {
      var k := LeastFree(probes, free);
      return Admitted(probes[k].index, Some(k), active, capacity);
    }
    forall k | 0 <= k < |probes| ensures probes[k].busy {
      FreeMeans(probes, k);
    }
    var index := FirstUnused(indices);
    return Admitted(index, None, active, capacity);
  }

  // ----- a directory in which every number has one file -----

  predicate NoDuplicates(probes: seq<Probe>) {
    forall i, j :: 0 <= i < j < |probes| ==> probes[i].index != probes[j].index
  }

  function BusyIndices(probes: seq<Probe>): set<nat> {
    set k | 0 <= k < |probes| && probes[k].busy :: probes[k].index
  }

  predicate IsLeast(x: nat, s: set<nat>) {
    x in s && forall y :: y in s ==> x <= y
  }

  /** The selected slot by number: the least free one, else the first unused name. */
  predicate Selects(files: set<nat>, busy: set<nat>, index: nat) {
    if files <= busy then FirstGap(files, index) else IsLeast(index, files - busy)
  }

  lemma {:induction false} BusyCountIsSize(probes: seq<Probe>)
    requires NoDuplicates(probes)
    ensures BusyCount(probes) == |BusyIndices(probes)|
    decreases |probes|
  {
    if probes != [] {
      var n := |probes| - 1;
      var before, last := probes[..n], probes[n];
      BusyCountIsSize(before);
      assert probes == before + [last];
      BusyStep(before, last);
      assert last.index !in BusyIndices(before);
    }
  }

  lemma BusyStep(probes: seq<Probe>, probe: Probe)
    ensures BusyIndices(probes + [probe]) == BusyIndices(probes) + if probe.busy then {probe.index} else {}
  {
    var longer := probes + [probe];
    forall i ensures i in BusyIndices(longer) <==> i in BusyIndices(probes) || (probe.busy && i == probe.index) {
      if i in BusyIndices(probes) {
        var k :| 0 <= k < |probes| && probes[k].busy && probes[k].index == i;
        assert longer[k] == probes[k];
      }
      assert longer[|probes|] == probe;
    }
  }

  /** There a claim sees and selects what the numbers alone determine. */
  lemma SelectedByNumber(probes: seq<Probe>, index: nat, reused: Option<nat>)
    requires NoDuplicates(probes) && Selected(probes, index, reused)
    ensures BusyCount(probes) == |BusyIndices(probes)| && Selects(Indices(probes), BusyIndices(probes), index)
  {
    BusyCountIsSize(probes);
    var files, busy := Indices(probes), BusyIndices(probes);
    forall k | 0 <= k < |probes| ensures probes[k].index in files && (probes[k].index in busy <==> probes[k].busy) {
    }
    if reused.Some? {
      assert index in files - busy;
      forall y | y in files - busy ensures index <= y {
        var k := IndexMeans(probes, y);
      }
    } else {
      forall y | y in files ensures y in busy {
        var k := IndexMeans(probes, y);
      }
    }
  }

  // ----- the pool over time -----

  /** Slot files, live leases, and what the claims so far have used. */
  datatype Pool = Pool(files: set<nat>, held: set<nat>, largest: nat, lastBudget: int)

  const EMPTY := Pool({}, {}, 0, 0)

  /** While a claim probes, leases may end; whatever still runs at the end was seen busy. */
  datatype Event =
    | Ends(index: nat)
    | Claims(jobs: Knob, budget: int, ended: set<nat>, busy: set<nat>, index: nat)

  predicate Next(p: Pool, e: Event, q: Pool) {
    match e
    case Ends(i) => q == p.(held := p.held - {i})
    case Claims(jobs, budget, ended, busy, index) =>
      var capacity := Capacity(jobs, budget);
      && ended <= p.held && p.held - ended <= busy <= p.held
      && q == (if Fits(budget) && |busy| < capacity then
                 Pool(p.files + {index}, p.held - ended + {index}, Max(p.largest, capacity), budget)
               else p.(held := p.held - ended))
      && (Fits(budget) && |busy| < capacity ==> Selects(p.files, busy, index))
  }

  function Upto(n: nat): (r: set<nat>)
    ensures forall i: nat :: i in r <==> i < n
  {
    if n == 0 then {} else Upto(n - 1) + {n - 1}
  }

  lemma {:induction false} UptoSize(n: nat)
    ensures |Upto(n)| == n
  {
    if n > 0 {
      UptoSize(n - 1);
      assert n - 1 !in Upto(n - 1);
    }
  }

  /** The files are 0..n-1 with n no more than the largest capacity, and live links fit. */
  ghost predicate Inv(p: Pool) {
    && p.files == Upto(|p.files|)
    && |p.files| <= p.largest
    && p.held <= p.files
    && (p.held != {} ==> |p.held| * LINK_BYTES + GUARD_HEADROOM_BYTES <= p.lastBudget)
  }

  lemma SubsetSize(a: set<nat>, b: set<nat>)
    requires a <= b
    ensures |a| <= |b|
  {
    assert b == a + (b - a);
  }

  /** The admission itself: the live links and the new one fit the budget just sampled. */
  lemma ClaimFits(p: Pool, e: Event, q: Pool)
    requires Inv(p) && Next(p, e, q) && e.Claims? && Admits(e.jobs, e.budget, |e.busy|)
    ensures e.index !in p.held - e.ended
    ensures (|p.held - e.ended| + 1) * LINK_BYTES + GUARD_HEADROOM_BYTES <= e.budget
    ensures |q.held| == |p.held - e.ended| + 1 && |q.held| <= (if e.jobs.Some? then e.jobs.value else 8)
  {
    SubsetSize(p.held - e.ended, e.busy);
    CapacityIff(e.jobs, e.budget, |e.busy|);
  }

  lemma FilesStayDense(p: Pool, e: Event, q: Pool)
    requires Inv(p) && Next(p, e, q) && e.Claims? && Admits(e.jobs, e.budget, |e.busy|)
    ensures q.files == Upto(|q.files|) && |q.files| <= q.largest
  {
    var n := |p.files|;
    UptoSize(n);
    CapacityIff(e.jobs, e.budget, |e.busy|);
    if p.files <= e.busy {
      assert e.busy == p.files;
      assert e.index == n by {
        assert n !in p.files && (e.index > n ==> n in p.files);
        assert e.index < n ==> e.index in p.files;
      }
      assert q.files == Upto(n + 1);
      UptoSize(n + 1);
    } else {
      assert q.files == p.files;
    }
  }

  lemma NextKeeps(p: Pool, e: Event, q: Pool)
    requires Inv(p) && Next(p, e, q)
    ensures Inv(q)
  {
    if e.Claims? && Admits(e.jobs, e.budget, |e.busy|) {
      ClaimFits(p, e, q);
      FilesStayDense(p, e, q);
    } else {
      if e.Claims? { CapacityIff(e.jobs, e.budget, |e.busy|); }
      SubsetSize(q.held, p.held);
    }
  }

  /** A claim admits exactly under the condition on the links it counts, and changes nothing else. */
  lemma ClaimAdmitsIff(p: Pool, e: Event, q: Pool)
    requires Inv(p) && Next(p, e, q) && e.Claims?
    ensures if Admits(e.jobs, e.budget, |e.busy|)
            then q.held == p.held - e.ended + {e.index} && e.index !in p.held - e.ended
                 && q.files == p.files + {e.index} && Selects(p.files, e.busy, e.index)
            else q.held == p.held - e.ended && q.files == p.files
  {
    CapacityIff(e.jobs, e.budget, |e.busy|);
  }

  lemma {:induction false} LeastExists(s: set<nat>) returns (least: nat)
    requires s != {}
    ensures IsLeast(least, s)
    decreases |s|
  {
    least :| least in s;
    if s != {least} {
      var rest := s - {least};
      assert rest != {};
      var other := LeastExists(rest);
      assert forall y :: y in s ==> y == least || y in rest;
      least := if least < other then least else other;
    }
  }

  /** A claim is possible with any knob, sample and view of the leases, also while some of them end. */
  lemma ClaimIsPossible(p: Pool, jobs: Knob, budget: int, ended: set<nat>, busy: set<nat>)
    returns (index: nat, q: Pool)
    requires Inv(p) && ended <= p.held && p.held - ended <= busy <= p.held
    ensures Next(p, Claims(jobs, budget, ended, busy, index), q)
  {
    if p.files <= busy {
      index := |p.files|;
    } else {
      index := LeastExists(p.files - busy);
    }
    var capacity := Capacity(jobs, budget);
    q := if Fits(budget) && |busy| < capacity then
           Pool(p.files + {index}, p.held - ended + {index}, Max(p.largest, capacity), budget)
         else p.(held := p.held - ended);
  }

  ghost predicate IsRun(pools: seq<Pool>, events: seq<Event>) {
    && |pools| == |events| + 1 && pools[0] == EMPTY
    && forall i :: 0 <= i < |events| ==> Next(pools[i], events[i], pools[i + 1])
  }

  /** From an empty directory, for any mix of callers, caps and samples. */
  lemma {:induction false} PoolStaysBounded(pools: seq<Pool>, events: seq<Event>, i: nat)
    requires IsRun(pools, events) && i < |pools|
    ensures Inv(pools[i])
  {
    if i == 0 {
      assert Upto(0) == {};
    } else {
      PoolStaysBounded(pools, events, i - 1);
      NextKeeps(pools[i - 1], events[i - 1], pools[i]);
    }
  }

  /** While no claim of a run has a configured maximum over n, neither files nor live links exceed n. */
  lemma {:induction false} PoolUnderMaximum(pools: seq<Pool>, events: seq<Event>, i: nat, n: nat)
    requires IsRun(pools, events) && i < |pools|
    requires forall k :: 0 <= k < i && events[k].Claims? ==>
      (if events[k].jobs.Some? then events[k].jobs.value else 8) <= n
    ensures |pools[i].held| <= |pools[i].files| <= n && pools[i].largest <= n
  {
    PoolStaysBounded(pools, events, i);
    SubsetSize(pools[i].held, pools[i].files);
    if i > 0 {
      PoolUnderMaximum(pools, events, i - 1, n);
      assert Next(pools[i - 1], events[i - 1], pools[i]);
    }
  }
}
