/**
 Host memory admission (`admission`, `counting_slot`, `try_taste_lane` and the lease holder in
 scripts/host_memory.py) as a step system. Every client is one `admission` call, that is one
 set of open file descriptions; each step is one lock call or one file access of one client,
 so clients interleave freely, and a client may end (return, raise or be killed) at any step.
 */
module HostAdmission {
  import opened Wrappers
  import LeaseHolder

  const GIB := 0x4000_0000
  const HEADROOM_BYTES := 2 * GIB
  const TASTE_LANE_MAX_BYTES := 4 * GIB
  const TASTE_FLOOR_BYTES := 2 * GIB

  type Client = nat

  datatype Role = Proof | Worker | Prober
  datatype Mode = Free | Shared | Exclusive
  datatype Lock = Priority | Intent | Budget | SlotFile(index: nat) | TasteFile
  datatype Lease = NoLease | ProofLease | SlotLease | TasteLease

  /** What a reservation file holds: a number, or text `int()` rejects. */
  datatype Content = Unreadable | Number(bytes: int)

  /** The lease holder of a client: what was written to its pipe, and whether the pipe ended. */
  datatype Holder = NoHolder | Holder(tracked: seq<nat>, released: bool, ended: bool) | HolderGone

  /** The next statement of a client; `reserved` and `sampled` are its local variables. */
  datatype PC =
    | TryPriority
    | TryIntent
    | TryBudget
    | SampleBudget
    | Count(sampled: nat, reserved: nat, todo: seq<nat>)
    | Create(sampled: nat, reserved: nat)
    | LockNew(sampled: nat, reserved: nat, index: nat)
    | Judge(sampled: nat, reserved: nat)
    | WriteSlot(sampled: nat)
    | FlushSlot(sampled: nat)
    | UnlockBudget
    | UnlockPriority
    | RejectSlot
    | RejectBudget
    | ProbeBudget(proofRunning: bool)
    | ProbeUnlock
    | TasteTry
    | TasteSample
    | TasteReject
    | TasteWrite
    | TasteFlush
    | Backoff
    | BackoffPriority
    | Waiting
    | Running
    | Probing
    | Closing

  datatype Proc = Proc(
    role: Role, lane: bool, estimate: nat, pc: PC,
    priority: Mode, intent: Mode, budget: Mode, slot: Option<nat>, taste: bool,
    lease: Lease, holder: Holder)

  datatype State = State(
    procs: map<Client, Proc>, slots: map<nat, Content>, taste: Content,
    alive: set<int>, lastBudget: nat)

  // ----- locks -----

  /** The mode in which a client's open file description holds a lock. */
  function Held(p: Proc, l: Lock): Mode {
    match l
    case Priority => p.priority
    case Intent => p.intent
    case Budget => p.budget
    case SlotFile(i) => if p.slot == Some(i) then Exclusive else Free
    case TasteFile => if p.taste then Exclusive else Free
  }

  predicate Compatible(a: Mode, b: Mode) {
    a == Free || b == Free || (a == Shared && b == Shared)
  }

  /** A non-blocking `flock` succeeds: no other open file description conflicts. */
  ghost predicate CanLock(s: State, c: Client, l: Lock, m: Mode) {
    forall d | d in s.procs && d != c :: Compatible(m, Held(s.procs[d], l))
  }

  // ----- one client's next statement -----

  /** Values a step reads from outside: memory samples, directory listing, partial writes. */
  datatype Input = Input(budget: nat, reserve: nat, available: nat, order: seq<nat>, index: nat, partial: Content)

  function Want(r: Role): Mode {
    if r == Proof then Exclusive else Shared
  }

  /** `taste_fits` (scripts/host_memory.py:200-203). */
  predicate TasteFits(reserve: nat, available: nat, estimate: nat) {
    var need := estimate + HEADROOM_BYTES + TASTE_FLOOR_BYTES;
    reserve >= need && available >= need
  }

  /** The guard at scripts/host_memory.py:322-323. */
  function AfterProbe(p: Proc, proofRunning: bool): PC {
    if proofRunning && p.lane && p.estimate <= TASTE_LANE_MAX_BYTES then TasteTry else Backoff
  }

  predicate NoDuplicates(order: seq<nat>) {
    forall i, j :: 0 <= i < j < |order| ==> order[i] != order[j]
  }

  /** The listing is the slot files in some order; the fresh index is the first unused name. */
  ghost predicate InputFits(s: State, x: Input) {
    && NoDuplicates(x.order)
    && (forall i :: i in x.order <==> i in s.slots)
    && x.index !in s.slots && (forall j: nat :: j < x.index ==> j in s.slots)
  }

  /** The `flock` call that a client's next statement makes, if it makes one. */
  datatype Attempt = NoAttempt | Attempt(lock: Lock, mode: Mode)

  function AttemptOf(p: Proc): Attempt {
    match p.pc
    case TryPriority => if p.priority == Free then Attempt(Priority, Want(p.role)) else NoAttempt
    case TryIntent => if p.intent == Free then Attempt(Intent, Want(p.role)) else NoAttempt
    case TryBudget => Attempt(Budget, Exclusive)
    case Count(_, _, todo) => if todo != [] then Attempt(SlotFile(todo[0]), Exclusive) else NoAttempt
    case LockNew(_, _, index) => Attempt(SlotFile(index), Exclusive)
    case ProbeBudget(_) => Attempt(Budget, Shared)
    case TasteTry => Attempt(TasteFile, Exclusive)
    case _ => NoAttempt
  }

  ghost predicate Succeeds(s: State, c: Client, a: Attempt) {
    a.Attempt? ==> CanLock(s, c, a.lock, a.mode)
  }

  /** Lines 282-291: the three gates, and what a blocked attempt does next. */
  function GateNext(p: Proc, locked: bool): Proc {
    match p.pc
    case TryPriority =>
      if p.priority != Free then p.(pc := TryIntent)
      else if locked then p.(priority := Want(p.role), pc := TryIntent)
      else if p.role == Worker then p.(pc := Backoff)
      else p.(pc := Waiting)
    case TryIntent =>
      if p.intent != Free then p.(pc := TryBudget)
      else if locked then p.(intent := Want(p.role), pc := TryBudget)
      else if p.role == Worker then p.(pc := ProbeBudget(true))
      else p.(pc := Waiting)
    case TryBudget =>
      if locked then
        if p.role == Worker then p.(budget := Exclusive, pc := SampleBudget)
        else p.(budget := Exclusive, lease := ProofLease, pc := UnlockPriority)
      else if p.role == Worker then p.(pc := ProbeBudget(false))
      else p.(pc := Waiting)
    case _ => p
  }

  /** One probe of `counting_slot`'s loop (scripts/host_memory.py:392-411). */
  function CountNext(p: Proc, locked: bool, shown: Content): Proc
    requires p.pc.Count? && p.pc.todo != []
  {
    var Count(sampled, reserved, todo) := p.pc;
    if locked then
      p.(pc := Count(sampled, reserved, todo[1..]), slot := if p.slot.None? then Some(todo[0]) else p.slot)
    else if shown.Number? && shown.bytes > 0 then
      p.(pc := Count(sampled, reserved + shown.bytes, todo[1..]))
    else
      p.(pc := Closing)
  }

  /** Lines 295-296 with the counting loop of `counting_slot`. */
  function AllocateNext(p: Proc, locked: bool, shown: Content, x: Input): Proc {
    match p.pc
    case SampleBudget => p.(pc := Count(x.budget, 0, x.order))
    case Count(sampled, reserved, todo) =>
      if todo != [] then CountNext(p, locked, shown)
      else if p.slot.Some? then p.(pc := Judge(sampled, reserved))
      else p.(pc := Create(sampled, reserved))
    case _ => p
  }

  /** A fresh slot file when none was free, and the judgement at line 299. */
  function ClaimNext(p: Proc, locked: bool, x: Input): Proc {
    match p.pc
    case Create(sampled, reserved) => p.(pc := LockNew(sampled, reserved, x.index))
    case LockNew(sampled, reserved, index) =>
      if locked then p.(slot := Some(index), pc := Judge(sampled, reserved))
      else p.(pc := ProbeBudget(false))
    case Judge(sampled, reserved) =>
      if sampled >= reserved + p.estimate + HEADROOM_BYTES then p.(pc := WriteSlot(sampled))
      else p.(pc := RejectSlot)
    case _ => p
  }

  /** Lines 300-310 and 349: grant or reject. */
  function GrantNext(p: Proc): Proc {
    match p.pc
    case WriteSlot(sampled) => p.(pc := FlushSlot(sampled))
    case FlushSlot(sampled) => p.(lease := SlotLease, pc := UnlockBudget)
    case UnlockBudget => p.(budget := Free, pc := UnlockPriority)
    case UnlockPriority => p.(priority := Free, pc := Running)
    case RejectSlot => p.(slot := None, pc := RejectBudget)
    case RejectBudget => p.(budget := Free, pc := Backoff)
    case _ => p
  }

  /** Lines 312-328 with `try_taste_lane`. */
  function TasteNext(p: Proc, locked: bool, x: Input): Proc {
    match p.pc
    case ProbeBudget(proofRunning) =>
      if locked then p.(budget := Shared, pc := ProbeUnlock)
      else p.(pc := AfterProbe(p, proofRunning))
    case ProbeUnlock => p.(budget := Free, pc := AfterProbe(p, true))
    case TasteTry => if locked then p.(taste := true, pc := TasteSample) else p.(pc := Backoff)
    case TasteSample =>
      if TasteFits(x.reserve, x.available, p.estimate) then p.(pc := TasteWrite) else p.(pc := TasteReject)
    case TasteReject => p.(taste := false, pc := Backoff)
    case TasteWrite => p.(pc := TasteFlush)
    case TasteFlush => p.(lease := TasteLease, pc := UnlockPriority)
    case _ => p
  }

  /** Lines 332-348: a worker lets go of its gates, everyone waits and tries again. */
  function WaitNext(p: Proc): Proc {
    match p.pc
    case Backoff => p.(intent := Free, pc := BackoffPriority)
    case BackoffPriority => p.(priority := Free, pc := Waiting)
    case Waiting => p.(pc := TryPriority)
    case _ => p
  }

  datatype Phase = Gates | Allocation | Claim | Grant | Taste | Wait

  function PhaseOf(pc: PC): Phase {
    if pc.TryPriority? || pc.TryIntent? || pc.TryBudget? then Gates
    else if pc.SampleBudget? || pc.Count? then Allocation
    else if pc.Create? || pc.LockNew? || pc.Judge? then Claim
    else if pc.WriteSlot? || pc.FlushSlot? || pc.UnlockBudget? || pc.UnlockPriority? || pc.RejectSlot?
      || pc.RejectBudget? then Grant
    else if pc.ProbeBudget? || pc.ProbeUnlock? || InTaste(pc) then Taste
    else Wait
  }

  /** What a client's own record becomes when it runs its next statement. */
  function NextProc(p: Proc, locked: bool, shown: Content, x: Input): Proc {
    match PhaseOf(p.pc)
    case Gates => GateNext(p, locked)
    case Allocation => AllocateNext(p, locked, shown, x)
    case Claim => ClaimNext(p, locked, x)
    case Grant => GrantNext(p)
    case Taste => TasteNext(p, locked, x)
    case Wait => WaitNext(p)
  }

  /** What a probed slot file shows; a file that vanished shows nothing. */
  function Shown(s: State, p: Proc): Content {
    if p.pc.Count? && p.pc.todo != [] && p.pc.todo[0] in s.slots then s.slots[p.pc.todo[0]] else Unreadable
  }

  ghost function Moved(s: State, c: Client, x: Input): Proc
    requires c in s.procs
  {
    var p := s.procs[c];
    NextProc(p, Succeeds(s, c, AttemptOf(p)), Shown(s, p), x)
  }

  /** Slot files after a client's next statement. */
  function NextSlots(s: State, p: Proc, x: Input): map<nat, Content> {
    match p.pc
    case Create(_, _) => s.slots[x.index := Unreadable]
    case WriteSlot(_) => if p.slot.Some? then s.slots[p.slot.value := x.partial] else s.slots
    case FlushSlot(_) => if p.slot.Some? then s.slots[p.slot.value := Number(p.estimate)] else s.slots
    case _ => s.slots
  }

  /** The taste file after a client's next statement: stale until the write. */
  function NextTaste(s: State, p: Proc, x: Input): Content {
    match p.pc
    case TasteWrite => x.partial
    case TasteFlush => Number(p.estimate)
    case _ => s.taste
  }

  /** `lastBudget` is the budget sampled by the latest slot admission. */
  ghost function Advance(s: State, c: Client, x: Input): State
    requires c in s.procs
  {
    var p := s.procs[c];
    State(s.procs[c := Moved(s, c, x)], NextSlots(s, p, x), NextTaste(s, p, x), s.alive,
          if p.pc.FlushSlot? then p.pc.sampled else s.lastBudget)
  }

  // ----- all steps -----

  datatype Step =
    | Arrive(role: Role, lane: bool, estimate: nat)
    | Probe(lock: Lock)
    | Continue(input: Input)
    | SpawnHolder
    | Track(group: nat)
    | Release
    | Abandon
    | End
    | HolderExits
    | HolderKilled
    | Drop(lock: Lock)
    | GroupsChange(alive: set<int>)

  /** The descriptors handed to the lease holder (scripts/host_memory.py:354-362). */
  predicate Inherits(lease: Lease, l: Lock) {
    match lease
    case NoLease => false
    case ProofLease => l.Intent? || l.Budget?
    case SlotLease => l.Intent? || l.SlotFile?
    case TasteLease => l.TasteFile?
  }

  /** `hold` leaves: decided by the bytes its owner wrote, see LeaseHolder.Hold. */
  predicate HolderLeaves(h: Holder, alive: set<int>)
    requires h.Holder?
  {
    match LeaseHolder.ScanPending({}, LeaseHolder.OwnerStream(h.tracked, h.released))
    case Open(groups, _) => h.ended && groups !! alive
    case _ => true
  }

  function Fresh(role: Role, lane: bool, estimate: nat, pc: PC): Proc {
    Proc(role, lane, estimate, pc, Free, Free, Free, None, false, NoLease, NoHolder)
  }

  function Unlocked(p: Proc, l: Lock): Proc {
    match l
    case Priority => p.(priority := Free)
    case Intent => p.(intent := Free)
    case Budget => p.(budget := Free)
    case SlotFile(i) => if p.slot == Some(i) then p.(slot := None) else p
    case TasteFile => p.(taste := false)
  }

  /** `inherited` and `taste_lane_bytes` try one lock exclusively and close at once. */
  function ProberHolding(l: Lock): Proc {
    var p := Fresh(Prober, false, 1, Probing);
    match l
    case Budget => p.(budget := Exclusive)
    case SlotFile(i) => p.(slot := Some(i))
    case TasteFile => p.(taste := true)
    case _ => p
  }

  function Put(s: State, c: Client, p: Proc): State {
    s.(procs := s.procs[c := p])
  }

  function Ended(p: Proc): Proc {
    p.(pc := Closing, holder := if p.holder.Holder? then p.holder.(ended := true) else p.holder)
  }

  predicate PipeOpen(p: Proc) {
    p.pc == Running && p.holder.Holder? && !p.holder.ended
  }

  ghost predicate Next(s: State, c: Client, step: Step, t: State) {
    match step
    case Arrive(role, lane, estimate) =>
      && c !in s.procs && role != Prober && (lane ==> role == Worker) && estimate > 0
      && t == Put(s, c, Fresh(role, lane, estimate, TryPriority))
    case Probe(l) =>
      && c !in s.procs && !l.Priority? && !l.Intent?
      && CanLock(s, c, l, Exclusive) && t == Put(s, c, ProberHolding(l))
    case Continue(x) =>
      c in s.procs && InputFits(s, x) && t == Advance(s, c, x)
    case SpawnHolder =>
      && c in s.procs && s.procs[c].pc == Running && s.procs[c].holder == NoHolder
      && t == Put(s, c, s.procs[c].(holder := Holder([], false, false)))
    case Track(g) =>
      && c in s.procs && PipeOpen(s.procs[c])
      && var h := s.procs[c].holder;
         t == Put(s, c, s.procs[c].(holder := h.(tracked := h.tracked + [g])))
    case Release =>
      && c in s.procs && PipeOpen(s.procs[c])
      && t == Put(s, c, s.procs[c].(holder := s.procs[c].holder.(released := true, ended := true)))
    case Abandon =>
      && c in s.procs && PipeOpen(s.procs[c])
      && t == Put(s, c, s.procs[c].(holder := s.procs[c].holder.(ended := true)))
    case End =>
      c in s.procs && t == Put(s, c, Ended(s.procs[c]))
    case HolderExits =>
      && c in s.procs && s.procs[c].holder.Holder? && HolderLeaves(s.procs[c].holder, s.alive)
      && t == Put(s, c, s.procs[c].(holder := HolderGone))
    case HolderKilled =>
      c in s.procs && s.procs[c].holder.Holder? && t == Put(s, c, s.procs[c].(holder := HolderGone))
    case Drop(l) =>
      && c in s.procs && s.procs[c].pc == Closing
      && !(s.procs[c].holder.Holder? && Inherits(s.procs[c].lease, l))
      && t == Put(s, c, Unlocked(s.procs[c], l))
    case GroupsChange(alive) =>
      t == s.(alive := alive)
  }

  ghost predicate Init(s: State) {
    s.procs == map[]
  }

  // ----- live leases -----

  /** Some process, the owner or its holder, still has the lease's descriptors open. */
  predicate Live(p: Proc) {
    p.lease != NoLease && (p.pc != Closing || p.holder.Holder?)
  }

  predicate SlotLive(p: Proc) {
    Live(p) && p.lease == SlotLease && p.slot.Some?
  }

  /** The reservations of live slot leases whose slot file is not in `skip`. */
  ghost function LiveWeights(procs: map<Client, Proc>, skip: seq<nat>): map<Client, nat> {
    map c | c in procs && SlotLive(procs[c]) && procs[c].slot.value !in skip :: procs[c].estimate
  }

  ghost function Sum(m: map<Client, nat>): nat
    decreases |m|
  {
    if m == map[] then 0 else var k :| k in m; m[k] + Sum(m - {k})
  }

  /** Bytes reserved by all live slot leases. */
  ghost function LiveSum(s: State): nat {
    Sum(LiveWeights(s.procs, []))
  }

  // ----- the invariant -----

  predicate Allocating(pc: PC) {
    || pc.SampleBudget? || pc.Count? || pc.Create? || pc.LockNew? || pc.Judge?
    || pc.WriteSlot? || pc.FlushSlot? || pc.RejectSlot? || pc.RejectBudget?
  }

  predicate InTaste(pc: PC) {
    pc.TasteTry? || pc.TasteSample? || pc.TasteReject? || pc.TasteWrite? || pc.TasteFlush?
  }

  predicate PastPriority(pc: PC) {
    Allocating(pc) || InTaste(pc) || pc.TryIntent? || pc.TryBudget? || pc.ProbeBudget? || pc.ProbeUnlock?
  }

  predicate LeasedPC(pc: PC) {
    pc.UnlockBudget? || pc.UnlockPriority? || pc.Running?
  }

  predicate RoleInv(p: Proc) {
    match p.role
    case Prober =>
      p.lease == NoLease && p.holder == NoHolder && p.priority == p.intent == Free
        && (p.pc == Probing || p.pc == Closing)
    case Proof =>
      && p.priority != Shared && p.intent != Shared && p.budget != Shared && p.slot == None && !p.taste
      && (p.lease == NoLease || p.lease == ProofLease)
      && (p.intent == Exclusive && p.lease == NoLease && p.pc != Closing ==> p.priority == Exclusive)
      && (p.pc.TryPriority? || p.pc.TryIntent? || p.pc.TryBudget? || p.pc.Waiting? || p.pc.UnlockPriority?
          || p.pc.Running? || p.pc.Closing?)
    case Worker =>
      p.priority != Exclusive && p.intent != Exclusive && p.lease != ProofLease && p.pc != Probing
  }

  /** A live lease holds exactly the locks that exclude conflicting leases. */
  predicate LeaseInv(p: Proc) {
    && (p.holder.Holder? ==> p.lease != NoLease)
    && (p.pc != Closing ==> (LeasedPC(p.pc) <==> p.lease != NoLease))
    && (p.pc == UnlockBudget ==> p.lease == SlotLease)
    && (Live(p) ==>
          && (p.lease == ProofLease ==> p.intent == Exclusive && p.budget == Exclusive)
          && (p.lease == SlotLease ==> p.intent == Shared && p.slot.Some?)
          && (p.lease == TasteLease ==> p.taste && p.estimate <= TASTE_LANE_MAX_BYTES))
  }

  predicate PcInv(p: Proc) {
    && (PastPriority(p.pc) ==> p.priority == Want(p.role))
    && (p.pc.TryBudget? ==> p.intent == Want(p.role))
    && (Allocating(p.pc) ==> p.role == Worker && p.intent == Shared && p.budget == Exclusive)
    && (p.pc.Judge? || p.pc.WriteSlot? || p.pc.FlushSlot? ==> p.slot.Some?)
    && (InTaste(p.pc) ==> p.estimate <= TASTE_LANE_MAX_BYTES && (p.pc.TasteTry? || p.taste))
  }

  predicate ProcInv(p: Proc) {
    p.estimate > 0 && RoleInv(p) && LeaseInv(p) && PcInv(p)
  }

  ghost predicate Excluding(s: State) {
    forall c, d, l | c in s.procs && d in s.procs && c != d ::
      Compatible(Held(s.procs[c], l), Held(s.procs[d], l))
  }

  /** A live reservation's file shows its weight. */
  predicate FileInv(s: State, p: Proc) {
    && (SlotLive(p) ==> p.slot.value in s.slots && s.slots[p.slot.value] == Number(p.estimate))
    && (Live(p) && p.lease == TasteLease ==> s.taste == Number(p.estimate))
  }

  /** What a client that holds the budget mutex has counted covers every live reservation. */
  ghost predicate CountInv(s: State, p: Proc) {
    match p.pc
    case Count(_, reserved, todo) => Sum(LiveWeights(s.procs, todo)) <= reserved
    case Create(_, reserved) => LiveSum(s) <= reserved
    case LockNew(_, reserved, _) => LiveSum(s) <= reserved
    case Judge(_, reserved) => LiveSum(s) <= reserved
    case WriteSlot(sampled) => LiveSum(s) + p.estimate + HEADROOM_BYTES <= sampled
    case FlushSlot(sampled) => LiveSum(s) + p.estimate + HEADROOM_BYTES <= sampled
    case _ => true
  }

  ghost predicate BudgetInv(s: State) {
    LiveWeights(s.procs, []) != map[] ==> LiveSum(s) + HEADROOM_BYTES <= s.lastBudget
  }

  ghost predicate Inv(s: State) {
    && Excluding(s)
    && (forall c | c in s.procs :: ProcInv(s.procs[c]) && FileInv(s, s.procs[c]) && CountInv(s, s.procs[c]))
    && BudgetInv(s)
  }

  // ----- sums -----

  lemma {:induction false} SumPick(m: map<Client, nat>, k: Client)
    requires k in m
    ensures Sum(m) == m[k] + Sum(m - {k})
    decreases |m|
  {
    var j :| j in m && Sum(m) == m[j] + Sum(m - {j});
    if j != k {
      SumPick(m - {j}, k);
      SumPick(m - {k}, j);
      assert m - {j} - {k} == m - {k} - {j};
    }
  }

  lemma {:induction false} SumSubmap(a: map<Client, nat>, b: map<Client, nat>)
    requires forall k | k in a :: k in b && a[k] == b[k]
    ensures Sum(a) <= Sum(b)
    decreases |a|
  {
    if a != map[] {
      var k :| k in a;
      SumPick(a, k);
      SumPick(b, k);
      SumSubmap(a - {k}, b - {k});
    }
  }

  // ----- one client changes -----

  /** Each lock the new record holds was held before or could be taken just now. */
  ghost predicate Justified(s: State, c: Client, q: Proc) {
    forall l ::
      || Held(q, l) == Free
      || (c in s.procs && Held(q, l) == Held(s.procs[c], l))
      || CanLock(s, c, l, Held(q, l))
  }

  lemma StaysExcluding(s: State, c: Client, q: Proc)
    requires Excluding(s) && Justified(s, c, q)
    ensures Excluding(Put(s, c, q))
  {
    var t := Put(s, c, q);
    forall a, b, l | a in t.procs && b in t.procs && a != b
      ensures Compatible(Held(t.procs[a], l), Held(t.procs[b], l))
    {
      if a == c {
        assert b in s.procs;
        assert Held(q, l) == Free || (c in s.procs && Held(q, l) == Held(s.procs[c], l))
          || CanLock(s, c, l, Held(q, l));
      } else if b == c {
        assert a in s.procs;
        assert Held(q, l) == Free || (c in s.procs && Held(q, l) == Held(s.procs[c], l))
          || CanLock(s, c, l, Held(q, l));
      }
    }
  }

  /** The new record brings no new live slot reservation. */
  predicate NoNewLease(s: State, c: Client, q: Proc) {
    SlotLive(q) ==>
      c in s.procs && SlotLive(s.procs[c]) && q.slot == s.procs[c].slot && q.estimate == s.procs[c].estimate
  }

  lemma WeightsShrink(s: State, c: Client, q: Proc, skip: seq<nat>)
    requires NoNewLease(s, c, q)
    ensures Sum(LiveWeights(Put(s, c, q).procs, skip)) <= Sum(LiveWeights(s.procs, skip))
    ensures LiveWeights(s.procs, skip) == map[] ==> LiveWeights(Put(s, c, q).procs, skip) == map[]
  {
    var a, b := LiveWeights(Put(s, c, q).procs, skip), LiveWeights(s.procs, skip);
    forall k | k in a ensures k in b && a[k] == b[k] {}
    SumSubmap(a, b);
    if b == map[] {
      assert a.Keys == {};
    }
  }

  lemma CountShrinks(s: State, c: Client, q: Proc, p: Proc)
    requires NoNewLease(s, c, q) && CountInv(s, p)
    ensures CountInv(Put(s, c, q), p)
  {
    WeightsShrink(s, c, q, if p.pc.Count? then p.pc.todo else []);
  }

  /** The frame of every step that changes one record and grants no reservation. */
  lemma InvPut(s: State, c: Client, q: Proc)
    requires Inv(s) && Justified(s, c, q) && NoNewLease(s, c, q)
    requires ProcInv(q) && FileInv(s, q) && CountInv(s, q)
    ensures Inv(Put(s, c, q))
  {
    var t := Put(s, c, q);
    StaysExcluding(s, c, q);
    forall d | d in t.procs
      ensures ProcInv(t.procs[d]) && FileInv(t, t.procs[d]) && CountInv(t, t.procs[d])
    {
      CountShrinks(s, c, q, t.procs[d]);
    }
    WeightsShrink(s, c, q, []);
  }
}
