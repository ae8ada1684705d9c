/**
 The link RSS sampler (`LinkRssSampler` in scripts/assembly-memory.py): it follows a linker driver's
 process tree over snapshots in which processes die, are reparented, and have their PIDs reused.
 */
module RssSampler {
  import opened Wrappers
  import Closures

  type Pid = nat

  /** One row of a snapshot; `start` tells two processes with the same PID apart. */
  datatype Row = Row(parent: Pid, start: string, rss: nat, name: string, state: char)
  type Snapshot = map<Pid, Row>

  /** A process lifetime. */
  datatype Life = Life(pid: Pid, start: string)

  predicate Present(snap: Snapshot, l: Life) {
    l.pid in snap && snap[l.pid].start == l.start
  }

  /** This snapshot shows the child under the parent. */
  predicate Linked(snap: Snapshot, parent: Life, child: Life) {
    Present(snap, parent) && Present(snap, child) && snap[child.pid].parent == parent.pid
  }

  predicate LinkedIn(history: seq<Snapshot>, parent: Life, child: Life) {
    exists i :: 0 <= i < |history| && Linked(history[i], parent, child)
  }

  predicate IsChain(history: seq<Snapshot>, chain: seq<Life>) {
    forall i :: 0 < i < |chain| ==> LinkedIn(history, chain[i - 1], chain[i])
  }

  /** The lifetime reaches the driver's lifetime by parent links that snapshots showed. */
  ghost predicate Descends(history: seq<Snapshot>, root: Life, l: Life) {
    exists chain :: |chain| > 0 && chain[0] == root && chain[|chain| - 1] == l && IsChain(history, chain)
  }

  lemma RootDescends(history: seq<Snapshot>, root: Life)
    ensures Descends(history, root, root)
  {
    var chain := [root];
    assert IsChain(history, chain) && chain[|chain| - 1] == root;
  }

  lemma DescendsStep(history: seq<Snapshot>, root: Life, parent: Life, child: Life)
    requires Descends(history, root, parent) && LinkedIn(history, parent, child)
    ensures Descends(history, root, child)
  {
    var chain :| |chain| > 0 && chain[0] == root && chain[|chain| - 1] == parent && IsChain(history, chain);
    var longer := chain + [child];
    forall i | 0 < i < |longer| ensures LinkedIn(history, longer[i - 1], longer[i]) {
      if i < |chain| {
        assert LinkedIn(history, chain[i - 1], chain[i]);
      }
    }
    assert IsChain(history, longer) && longer[|longer| - 1] == child;
  }

  lemma DescendsLater(history: seq<Snapshot>, snap: Snapshot, root: Life, l: Life)
    requires Descends(history, root, l)
    ensures Descends(history + [snap], root, l)
  {
    var chain :| |chain| > 0 && chain[0] == root && chain[|chain| - 1] == l && IsChain(history, chain);
    forall i | 0 < i < |chain| ensures LinkedIn(history + [snap], chain[i - 1], chain[i]) {
      assert LinkedIn(history, chain[i - 1], chain[i]);
      var k :| 0 <= k < |history| && Linked(history[k], chain[i - 1], chain[i]);
      assert Linked((history + [snap])[k], chain[i - 1], chain[i]);
    }
    assert IsChain(history + [snap], chain);
  }

  // ----- one pass over a snapshot -----

  /** Known lifetimes that this snapshot still shows; a reused PID is not among them. */
  function Survivors(known: map<Pid, string>, snap: Snapshot): set<Pid> {
    set pid | pid in known && pid in snap && snap[pid].start == known[pid]
  }

  /** Each process that a row names as parent, with its children. */
  function ChildEdges(snap: Snapshot): map<Pid, set<Pid>> {
    map parent | parent in Parents(snap) :: Children(snap, {parent})
  }

  function Parents(snap: Snapshot): set<Pid> {
    set pid | pid in snap :: snap[pid].parent
  }

  lemma ChildOf(snap: Snapshot, parent: Pid, pid: Pid)
    ensures pid in Closures.Next(ChildEdges(snap), parent) <==> pid in snap && snap[pid].parent == parent
  {
  }

  /** The least set around the seeds that holds every child of its members. */
  ghost predicate IsTree(snap: Snapshot, seeds: set<Pid>, pids: set<Pid>) {
    Closures.IsClosure(ChildEdges(snap), seeds, pids)
  }

  function Children(snap: Snapshot, pids: set<Pid>): set<Pid> {
    set pid | pid in snap && snap[pid].parent in pids
  }

  /** The tracked lifetimes once the pass holds `current`. */
  ghost predicate Records(known: map<Pid, string>, snap: Snapshot, current: set<Pid>, adopted: map<Pid, string>) {
    && adopted.Keys == known.Keys + current && current <= snap.Keys
    && forall pid | pid in adopted :: adopted[pid] == if pid in current then snap[pid].start else known[pid]
  }

  ghost predicate AllDescend(history: seq<Snapshot>, root: Life, known: map<Pid, string>) {
    forall pid | pid in known :: Descends(history, root, Life(pid, known[pid]))
  }

  lemma AllDescendLater(history: seq<Snapshot>, snap: Snapshot, root: Life, known: map<Pid, string>)
    requires AllDescend(history, root, known)
    ensures AllDescend(history + [snap], root, known)
  {
    forall pid | pid in known ensures Descends(history + [snap], root, Life(pid, known[pid])) {
      DescendsLater(history, snap, root, Life(pid, known[pid]));
    }
  }

  /** The fixpoint loop at lines 183-190, recording every adopted lifetime. */
  method Adopt(known: map<Pid, string>, snap: Snapshot, ghost history: seq<Snapshot>, ghost root: Life)
    returns (adopted: map<Pid, string>, current: set<Pid>)
    requires AllDescend(history, root, known)
    requires |history| > 0 && history[|history| - 1] == snap
    ensures IsTree(snap, Survivors(known, snap), current) && Records(known, snap, current, adopted)
    ensures AllDescend(history, root, adopted)
  {
    adopted := known;
    current := Survivors(known, snap);
    AdoptStart(known, snap, history, root);
    while true
      invariant Adopting(known, snap, history, root, adopted, current)
      decreases snap.Keys - current
    {
      var found := Children(snap, current) - current;
      if found == {} {
        NoMoreChildren(snap, current);
        break;
      }
      AdoptStep(known, snap, history, root, adopted, current, found);
      adopted := Widen(adopted, snap, found);
      current := current + found;
    }
  }

  /** What holds after any number of turns of the loop. */
  ghost predicate Adopting(known: map<Pid, string>, snap: Snapshot, history: seq<Snapshot>, root: Life,
                           adopted: map<Pid, string>, current: set<Pid>) {
    && Survivors(known, snap) <= current && Closures.Least(ChildEdges(snap), Survivors(known, snap), current)
    && Records(known, snap, current, adopted) && AllDescend(history, root, adopted)
  }

  lemma AdoptStart(known: map<Pid, string>, snap: Snapshot, history: seq<Snapshot>, root: Life)
    requires AllDescend(history, root, known)
    ensures Adopting(known, snap, history, root, known, Survivors(known, snap))
  {
    assert known.Keys == known.Keys + Survivors(known, snap);
  }

  /** The newly found lifetimes are recorded over whatever was known under their PIDs. */
  function Widen(adopted: map<Pid, string>, snap: Snapshot, found: set<Pid>): map<Pid, string>
    requires found <= snap.Keys
  {
    map pid | pid in adopted.Keys + found :: if pid in found then snap[pid].start else adopted[pid]
  }

  lemma AdoptStep(known: map<Pid, string>, snap: Snapshot, history: seq<Snapshot>, root: Life,
                  adopted: map<Pid, string>, current: set<Pid>, found: set<Pid>)
    requires |history| > 0 && history[|history| - 1] == snap
    requires Adopting(known, snap, history, root, adopted, current)
    requires found == Children(snap, current) - current && found != {}
    ensures Adopting(known, snap, history, root, Widen(adopted, snap, found), current + found)
    ensures snap.Keys - (current + found) < snap.Keys - current
  {
    GrowsToLeast(snap, Survivors(known, snap), current, found);
    Grows(snap, current, found);
    AdoptedDescend(known, adopted, Widen(adopted, snap, found), snap, history, root, current, found);
  }

  lemma NoMoreChildren(snap: Snapshot, current: set<Pid>)
    requires Children(snap, current) - current == {}
    ensures Closures.Closed(ChildEdges(snap), current)
  {
    forall parent, pid | parent in current && pid in Closures.Next(ChildEdges(snap), parent) ensures pid in current {
      ChildOf(snap, parent, pid);
      assert pid in current || pid in Children(snap, current) - current;
    }
  }

  lemma Grows(snap: Snapshot, current: set<Pid>, found: set<Pid>)
    requires found != {} && found == Children(snap, current) - current
    ensures snap.Keys - (current + found) < snap.Keys - current
  {
    var some :| some in found;
    assert some in snap.Keys - current && some !in snap.Keys - (current + found);
  }

  lemma AdoptedDescend(known: map<Pid, string>, adopted: map<Pid, string>, wider: map<Pid, string>, snap: Snapshot,
                       history: seq<Snapshot>, root: Life, current: set<Pid>, found: set<Pid>)
    requires |history| > 0 && history[|history| - 1] == snap
    requires Records(known, snap, current, adopted) && AllDescend(history, root, adopted)
    requires found == Children(snap, current) - current
    requires wider == map pid | pid in adopted.Keys + found :: if pid in found then snap[pid].start else adopted[pid]
    ensures Records(known, snap, current + found, wider) && AllDescend(history, root, wider)
  {
    assert wider.Keys == adopted.Keys + found;
    forall pid | pid in wider ensures Descends(history, root, Life(pid, wider[pid])) {
      if pid in found {
        ChildDescends(adopted, snap, history, root, current, pid);
      }
    }
  }

  lemma ChildDescends(adopted: map<Pid, string>, snap: Snapshot, history: seq<Snapshot>, root: Life, current: set<Pid>,
                      pid: Pid)
    requires |history| > 0 && history[|history| - 1] == snap
    requires current <= snap.Keys && current <= adopted.Keys
    requires AllDescend(history, root, adopted)
    requires forall p | p in current :: adopted[p] == snap[p].start
    requires pid in snap && snap[pid].parent in current
    ensures Descends(history, root, Life(pid, snap[pid].start))
  {
    var parent := Life(snap[pid].parent, adopted[snap[pid].parent]);
    var child := Life(pid, snap[pid].start);
    assert Linked(history[|history| - 1], parent, child);
    assert Descends(history, root, parent);
    DescendsStep(history, root, parent, child);
  }

  lemma GrowsToLeast(snap: Snapshot, seeds: set<Pid>, current: set<Pid>, found: set<Pid>)
    requires Closures.Least(ChildEdges(snap), seeds, current) && found <= Children(snap, current)
    ensures Closures.Least(ChildEdges(snap), seeds, current + found)
  {
    var edges := ChildEdges(snap);
    forall closed: set<Pid> | seeds <= closed && Closures.Closed(edges, closed) ensures current + found <= closed {
      assert current <= closed;
      forall pid | pid in found ensures pid in closed {
        assert pid in Children(snap, current);
        ChildOf(snap, snap[pid].parent, pid);
        assert Closures.Next(edges, snap[pid].parent) <= closed;
      }
    }
  }

  // ----- what a pass holds, by parent links -----

  /** A pass holds exactly what the snapshot's parent links reach from the surviving lifetimes. */
  lemma TreeIsReachable(snap: Snapshot, seeds: set<Pid>, current: set<Pid>, pid: Pid)
    requires IsTree(snap, seeds, current)
    ensures pid in current <==> Closures.Reachable(ChildEdges(snap), seeds, pid)
    ensures pid in snap && snap[pid].parent in current ==> pid in current
    ensures pid in current ==> pid in seeds || (pid in snap && snap[pid].parent in current)
  {
    var edges := ChildEdges(snap);
    Closures.ClosureIsReachability(edges, seeds, current, pid);
    if pid in snap && snap[pid].parent in current {
      ChildOf(snap, snap[pid].parent, pid);
      assert Closures.Next(edges, snap[pid].parent) <= current;
    }
    if pid in current && pid !in seeds {
      var path: seq<Pid> :| Closures.Leads(edges, seeds, path, pid);
      var shorter, parent := path[..|path| - 1], path[|path| - 2];
      assert path[|path| - 1] in Closures.Next(edges, path[|path| - 2]);
      assert Closures.Leads(edges, seeds, shorter, parent);
      Closures.ClosureIsReachability(edges, seeds, current, parent);
      ChildOf(snap, parent, pid);
    }
  }

  /**
   A reused PID never seeds the pass: its new process is followed only as a child of a followed
   process, below some process whose original lifetime this snapshot still shows.
   */
  lemma ReusedNeverSeeds(known: map<Pid, string>, snap: Snapshot, current: set<Pid>, pid: Pid)
    requires IsTree(snap, Survivors(known, snap), current)
    requires pid in known && pid in snap && snap[pid].start != known[pid]
    ensures pid in current <==> snap[pid].parent in current
    ensures pid in current ==> exists path: seq<Pid> ::
      && Closures.Leads(ChildEdges(snap), Survivors(known, snap), path, pid)
      && path[0] != pid && path[0] in snap && snap[path[0]].start == known[path[0]]
  {
    var seeds := Survivors(known, snap);
    TreeIsReachable(snap, seeds, current, pid);
    if pid in current {
      var path: seq<Pid> :| Closures.Leads(ChildEdges(snap), seeds, path, pid);
      assert path[0] in seeds && pid !in seeds;
    }
  }

  // ----- sums over a set of processes -----

  ghost function Rss(snap: Snapshot, pids: set<Pid>): nat
    requires pids <= snap.Keys
  {
    if pids == {} then 0 else
      var pid :| pid in pids;
      snap[pid].rss + Rss(snap, pids - {pid})
  }

  lemma {:induction false} RssPick(snap: Snapshot, pids: set<Pid>, pid: Pid)
    requires pids <= snap.Keys && pid in pids
    ensures Rss(snap, pids) == snap[pid].rss + Rss(snap, pids - {pid})
    decreases |pids|
  {
    var first :| first in pids && Rss(snap, pids) == snap[first].rss + Rss(snap, pids - {first});
    if first != pid {
      RssPick(snap, pids - {first}, pid);
      RssPick(snap, pids - {pid}, first);
      assert pids - {first} - {pid} == pids - {pid} - {first};
    }
  }

  /** The sum over the live processes, whatever order they are visited in. */
  method SumRss(snap: Snapshot, pids: set<Pid>) returns (total: nat)
    requires pids <= snap.Keys
    ensures total == Rss(snap, pids)
  {
    total := 0;
    var rest := pids;
    while rest != {}
      invariant rest <= pids && total + Rss(snap, rest) == Rss(snap, pids)
      decreases |rest|
    {
      var pid :| pid in rest;
      RssPick(snap, rest, pid);
      total := total + snap[pid].rss;
      rest := rest - {pid};
    }
  }

  // ----- the sampler -----

  predicate IsMold(row: Row) {
    row.name == "mold" || row.name == "ld.mold"
  }

  predicate Dead(row: Row) {
    row.state == 'Z' || row.state == 'X'
  }

  function Live(snap: Snapshot, current: set<Pid>): set<Pid>
    requires current <= snap.Keys
  {
    set pid | pid in current && !Dead(snap[pid])
  }

  datatype WorkerPeak = WorkerPeak(pid: Pid, start: string, name: string, rss: nat, at: int)

  /** A snapshot that showed live processes of the tree, which ones, and when it was taken. */
  datatype Taken = Taken(snap: Snapshot, live: set<Pid>, at: int)

  ghost predicate TakenOk(t: Taken) {
    t.live != {} && t.live <= t.snap.Keys && forall pid | pid in t.live :: t.snap[pid].state !in {'Z', 'X'}
  }

  ghost predicate IsPeakOf(peak: WorkerPeak, t: Taken) {
    && TakenOk(t) && peak.pid in t.live && peak.name in {"mold", "ld.mold"}
    && t.snap[peak.pid].start == peak.start && t.snap[peak.pid].name == peak.name
    && t.snap[peak.pid].rss == peak.rss && t.at == peak.at
  }

  ghost predicate BoundsTree(peak: nat, t: Taken) {
    TakenOk(t) && Rss(t.snap, t.live) <= peak
  }

  ghost predicate BoundsWorkers(peak: nat, t: Taken) {
    TakenOk(t) && forall pid | pid in t.live && t.snap[pid].name in {"mold", "ld.mold"} :: t.snap[pid].rss <= peak
  }

  /** `peak` is the greatest tree total of the samples taken, 0 before the first. */
  ghost predicate TreePeak(peak: nat, taken: seq<Taken>) {
    && (forall i :: 0 <= i < |taken| ==> BoundsTree(peak, taken[i]))
    && (taken == [] ==> peak == 0)
    && (taken != [] ==> exists i :: 0 <= i < |taken| && TakenOk(taken[i]) && Rss(taken[i].snap, taken[i].live) == peak)
  }

  /** `peak` is the greatest mold size of the samples taken, and the record names its process. */
  ghost predicate MoldPeak(peak: nat, record: Option<WorkerPeak>, taken: seq<Taken>) {
    && (forall i :: 0 <= i < |taken| ==> BoundsWorkers(peak, taken[i]))
    && (record.None? <==> peak == 0)
    && (record.Some? ==> record.value.rss == peak && exists i :: 0 <= i < |taken| && IsPeakOf(record.value, taken[i]))
  }

  /** The loop that raises the worker peak, in any visiting order. */
  method RaiseWorkerPeak(snap: Snapshot, live: set<Pid>, now: int, peak: nat, record: Option<WorkerPeak>,
                         ghost taken: seq<Taken>)
    returns (newPeak: nat, newRecord: Option<WorkerPeak>)
    requires TakenOk(Taken(snap, live, now)) && MoldPeak(peak, record, taken)
    ensures MoldPeak(newPeak, newRecord, taken + [Taken(snap, live, now)]) && newPeak >= peak
  {
    newPeak, newRecord := peak, record;
    var rest := live;
    ghost var sample := Taken(snap, live, now);
    while rest != {}
      invariant rest <= live && newPeak >= peak
      invariant forall pid | pid in live - rest && IsMold(snap[pid]) :: snap[pid].rss <= newPeak
      invariant newRecord.None? <==> newPeak == 0
      invariant newRecord.Some? ==>
        newRecord.value.rss == newPeak && (newRecord == record || IsPeakOf(newRecord.value, sample))
      decreases |rest|
    {
      var pid :| pid in rest;
      if IsMold(snap[pid]) && snap[pid].rss > newPeak {
        newPeak := snap[pid].rss;
        newRecord := Some(WorkerPeak(pid, snap[pid].start, snap[pid].name, snap[pid].rss, now));
      }
      rest := rest - {pid};
    }
    MoldPeakRaised(peak, record, newPeak, newRecord, taken, sample);
  }

  lemma MoldPeakRaised(peak: nat, record: Option<WorkerPeak>, newPeak: nat, newRecord: Option<WorkerPeak>,
                       taken: seq<Taken>, now: Taken)
    requires MoldPeak(peak, record, taken) && newPeak >= peak && BoundsWorkers(newPeak, now)
    requires newRecord.None? <==> newPeak == 0
    requires newRecord.Some? ==>
      newRecord.value.rss == newPeak && (newRecord == record || IsPeakOf(newRecord.value, now))
    ensures MoldPeak(newPeak, newRecord, taken + [now])
  {
    var longer := taken + [now];
    forall i | 0 <= i < |longer| ensures BoundsWorkers(newPeak, longer[i]) {
      if i < |taken| { assert BoundsWorkers(peak, taken[i]); }
    }
    if newRecord.Some? {
      if newRecord == record {
        var i :| 0 <= i < |taken| && IsPeakOf(record.value, taken[i]);
        assert IsPeakOf(newRecord.value, longer[i]);
      } else {
        assert IsPeakOf(newRecord.value, longer[|taken|]);
      }
    }
  }

  lemma TreePeakRaised(peak: nat, taken: seq<Taken>, now: Taken)
    requires TreePeak(peak, taken) && TakenOk(now)
    ensures TreePeak(var t := Rss(now.snap, now.live); if t > peak then t else peak, taken + [now])
  {
    var total := Rss(now.snap, now.live);
    var newPeak := if total > peak then total else peak;
    var longer := taken + [now];
    forall i | 0 <= i < |longer| ensures BoundsTree(newPeak, longer[i]) {
      if i < |taken| { assert BoundsTree(peak, taken[i]); }
    }
    if newPeak == total {
      assert longer[|taken|] == now;
    } else {
      var i :| 0 <= i < |taken| && TakenOk(taken[i]) && Rss(taken[i].snap, taken[i].live) == peak;
      assert longer[i] == taken[i];
    }
  }

  class Sampler {
    const driver: Pid
    var known: map<Pid, string>
    var samples: nat
    var peakTree: nat
    var peakWorker: nat
    var workerPeak: Option<WorkerPeak>
    var errors: seq<string>
    ghost var history: seq<Snapshot>
    ghost var taken: seq<Taken>
    ghost var root: Option<Life>

    /** Every tracked lifetime reaches the driver's own by links the snapshots showed. */
    ghost predicate Tracks()
      reads this
    {
      && (known != map[] <==> root.Some?) && (root.Some? ==> root.value.pid == driver)
      && (root.Some? ==> AllDescend(history, root.value, known))
    }

    /** The peaks are those of the samples taken. */
    ghost predicate Peaks()
      reads this
    {
      samples == |taken| && TreePeak(peakTree, taken) && MoldPeak(peakWorker, workerPeak, taken)
    }

    ghost predicate Valid()
      reads this
    {
      Tracks() && Peaks() && |errors| <= 1
    }

    constructor (pid: Pid)
      ensures Valid() && driver == pid && known == map[] && history == [] && errors == [] && root == None
      ensures samples == 0 && peakTree == 0 && peakWorker == 0 && workerPeak == None
    {
      driver, known, samples, peakTree, peakWorker := pid, map[], 0, 0, 0;
      workerPeak, errors, history, taken, root := None, [], [], [], None;
    }

    /** One sample; a snapshot that cannot be read leaves everything but the first error alone. */
    method Sample(shot: Option<Snapshot>, message: string, now: int) returns (alive: bool)
      requires Valid()
      modifies this
      ensures Valid()
      ensures history == old(history) + (if shot.Some? then [shot.value] else [])
      ensures old(root).Some? ==> root == old(root)
      ensures shot.None? ==> !alive && known == old(known) && taken == old(taken) && peakTree == old(peakTree)
      ensures shot.None? ==> peakWorker == old(peakWorker) && workerPeak == old(workerPeak)
      ensures shot.None? ==> errors == if old(errors) == [] then [message] else old(errors)
      ensures shot.Some? ==> exists current ::
        Followed(shot.value, Seeded(old(known), shot.value), known, current)
          && Counted(shot.value, current, now, alive, taken, old(taken))
      ensures shot.Some? ==> errors == old(errors)
      ensures peakTree >= old(peakTree) && peakWorker >= old(peakWorker)
    {
      if shot.None? {
        if errors == [] { errors := [message]; }
        return false;
      }
      var current := Follow(shot.value);
      alive := Count(shot.value, current, now);
    }

    /** Finds the processes of the tree in one snapshot and remembers their lifetimes. */
    method Follow(snap: Snapshot) returns (current: set<Pid>)
      requires Tracks()
      modifies this`known, this`history, this`root
      ensures Tracks() && history == old(history) + [snap]
      ensures old(root).Some? ==> root == old(root)
      ensures Followed(snap, Seeded(old(known), snap), known, current)
    {
      ghost var before := history;
      history := history + [snap];
      if known == map[] && driver in snap {
        root := Some(Life(driver, snap[driver].start));
        known := map[driver := snap[driver].start];
        RootDescends(history, root.value);
      } else if root.Some? {
        AllDescendLater(before, snap, root.value, known);
      }
      ghost var origin := if root.Some? then root.value else Life(driver, "");
      ghost var seeded := known;
      known, current := Adopt(known, snap, history, origin);
      EmptyStaysEmpty(seeded, snap, current, known);
    }

    /** Counts a sample that shows live processes and raises both peaks. */
    method Count(snap: Snapshot, current: set<Pid>, now: int) returns (alive: bool)
      requires Peaks() && current <= snap.Keys
      modifies this`samples, this`peakTree, this`peakWorker, this`workerPeak, this`taken
      ensures Peaks() && Counted(snap, current, now, alive, taken, old(taken))
      ensures peakTree >= old(peakTree) && peakWorker >= old(peakWorker)
      ensures !alive ==> peakTree == old(peakTree) && peakWorker == old(peakWorker) && workerPeak == old(workerPeak)
    {
      var live := Live(snap, current);
      alive := live != {};
      CountedIs(snap, current, now, alive, taken);
      if alive {
        samples := samples + 1;
        var total := SumRss(snap, live);
        TreePeakRaised(peakTree, taken, Taken(snap, live, now));
        peakTree := if total > peakTree then total else peakTree;
        peakWorker, workerPeak := RaiseWorkerPeak(snap, live, now, peakWorker, workerPeak, taken);
        taken := taken + [Taken(snap, live, now)];
      }
    }

    /** The tracked lifetimes before the pass: the driver's own when nothing was tracked yet. */
    function Seeded(tracked: map<Pid, string>, snap: Snapshot): map<Pid, string> {
      if tracked == map[] && driver in snap then map[driver := snap[driver].start] else tracked
    }
  }

  /** A pass holds the least child-closed set around the surviving lifetimes, and records it. */
  ghost predicate Followed(snap: Snapshot, seeded: map<Pid, string>, known: map<Pid, string>, current: set<Pid>) {
    IsTree(snap, Survivors(seeded, snap), current) && Records(seeded, snap, current, known)
  }

  /** A sample counts exactly when the tree has a process that is not dead, and then with all of those. */
  ghost predicate Counted(snap: Snapshot, current: set<Pid>, now: int, alive: bool, taken: seq<Taken>,
                          before: seq<Taken>) {
    && current <= snap.Keys
    && (alive <==> exists pid :: pid in current && snap[pid].state !in {'Z', 'X'})
    && (!alive ==> taken == before)
    && (alive ==> taken != [] && taken[..|taken| - 1] == before && IsLatest(taken[|taken| - 1], snap, current, now))
  }

  /** The sample holds exactly the processes of the tree that this snapshot does not show dead. */
  ghost predicate IsLatest(t: Taken, snap: Snapshot, current: set<Pid>, now: int) {
    && t.snap == snap && t.at == now && current <= snap.Keys
    && forall pid :: pid in t.live <==> pid in current && snap[pid].state !in {'Z', 'X'}
  }

  lemma CountedIs(snap: Snapshot, current: set<Pid>, now: int, alive: bool, before: seq<Taken>)
    requires current <= snap.Keys && (alive <==> Live(snap, current) != {})
    ensures !alive ==> Counted(snap, current, now, alive, before, before)
    ensures alive ==> Counted(snap, current, now, alive, before + [Taken(snap, Live(snap, current), now)], before)
    ensures alive ==> TakenOk(Taken(snap, Live(snap, current), now))
  {
    assert forall pid :: pid in Live(snap, current) <==> pid in current && snap[pid].state !in {'Z', 'X'};
  }

  /** Nothing is followed until the driver itself was seen. */
  lemma EmptyStaysEmpty(seeded: map<Pid, string>, snap: Snapshot, current: set<Pid>, known: map<Pid, string>)
    requires IsTree(snap, Survivors(seeded, snap), current) && Records(seeded, snap, current, known)
    ensures seeded == map[] ==> known == map[]
  {
    if seeded == map[] {
      assert Survivors(seeded, snap) == {};
      var none: set<Pid> := {};
      assert Closures.Closed(ChildEdges(snap), none);
      assert current <= none;
      assert known.Keys == {};
    }
  }
}
