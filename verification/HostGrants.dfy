/**
 What a grant of host memory admission rests on (scripts/host_memory.py:200-203 and 282-348):
 the memory that was sampled for it, and the locks that are let go of around it.
 */
module HostGrants {
  import opened Wrappers
  import opened HostAdmission
  import opened HostAdmissionSafety
  import opened HostAdmissionRuns
  import LeaseHolder

  // ----- the sample behind a taste lease -----

  /** Both readings of this input leave the headroom and the floor free beside the estimate. */
  predicate RoomFor(x: Input, estimate: nat) {
    && x.reserve >= estimate + HEADROOM_BYTES + TASTE_FLOOR_BYTES
    && x.available >= estimate + HEADROOM_BYTES + TASTE_FLOOR_BYTES
  }

  /** Past a taste sample that was found to fit, up to the end of the lease. */
  predicate Bought(p: Proc) {
    p.pc.TasteWrite? || p.pc.TasteFlush? || p.lease == TasteLease
  }

  predicate BoughtBy(s: State, c: Client, estimate: nat) {
    c in s.procs && Bought(s.procs[c]) && s.procs[c].estimate == estimate
  }

  /** This label is the client's own sample for the taste lane, with enough of both readings. */
  predicate SamplesTaste(s: State, l: Label, c: Client, estimate: nat) {
    && c in s.procs && s.procs[c].pc == TasteSample && s.procs[c].estimate == estimate
    && l.client == c && l.step.Continue? && RoomFor(l.step.input, estimate)
  }

  lemma OwnSample(p: Proc, locked: bool, x: Input)
    requires PhaseOf(p.pc) == Taste && Bought(TasteNext(p, locked, x))
    ensures TasteNext(p, locked, x).estimate == p.estimate
    ensures Bought(p) || (p.pc == TasteSample && RoomFor(x, p.estimate))
  {
  }

  lemma NotBought(p: Proc, locked: bool, shown: Content, x: Input)
    requires PhaseOf(p.pc) != Taste && Bought(NextProc(p, locked, shown, x))
    ensures NextProc(p, locked, shown, x).estimate == p.estimate && Bought(p)
  {
    match PhaseOf(p.pc)
    case Gates => assert Bought(GateNext(p, locked));
    case Allocation => assert Bought(AllocateNext(p, locked, shown, x));
    case Claim => assert Bought(ClaimNext(p, locked, x));
    case Grant => assert Bought(GrantNext(p));
    case Wait => assert Bought(WaitNext(p));
    case _ =>
  }

  lemma OtherStepsBought(s: State, c: Client, step: Step, t: State)
    requires Next(s, c, step, t) && c in t.procs && !step.Continue? && Bought(t.procs[c])
    ensures c in s.procs && Bought(s.procs[c]) && t.procs[c].estimate == s.procs[c].estimate
  {
  }

  lemma SampleBack(states: seq<State>, labels: seq<Label>, i: nat, c: Client, estimate: nat)
    requires IsRun(states, labels) && i < |labels| && BoughtBy(states[i + 1], c, estimate)
    ensures BoughtBy(states[i], c, estimate) || SamplesTaste(states[i], labels[i], c, estimate)
  {
    var s, l, t := states[i], labels[i], states[i + 1];
    assert StepAt(states, labels, i);
    if l.client != c {
      OthersKeep(s, l.client, l.step, t, c);
    } else if !l.step.Continue? {
      OtherStepsBought(s, c, l.step, t);
    } else {
      var p := s.procs[c];
      var locked := Succeeds(s, c, AttemptOf(p));
      if PhaseOf(p.pc) == Taste {
        OwnSample(p, locked, l.step.input);
      } else {
        NotBought(p, locked, Shown(s, p), l.step.input);
      }
    }
  }

  /** The step that sampled memory for what this client is granted. */
  lemma {:induction false} TasteSampled(states: seq<State>, labels: seq<Label>, i: nat, c: Client, estimate: nat)
    returns (q: nat)
    requires IsRun(states, labels) && i < |states| && BoughtBy(states[i], c, estimate)
    ensures q < i && SamplesTaste(states[q], labels[q], c, estimate)
    ensures forall m :: q < m <= i ==> BoughtBy(states[m], c, estimate)
  {
    q := 0;
    if i == 0 {
      assert false;
    } else {
      SampleBack(states, labels, i - 1, c, estimate);
      if BoughtBy(states[i - 1], c, estimate) {
        q := TasteSampled(states, labels, i - 1, c, estimate);
      } else {
        q := i - 1;
      }
    }
  }

  // ----- only the lane's own clients -----

  predicate LaneOnly(p: Proc) {
    InTaste(p.pc) || p.lease == TasteLease ==> p.lane && p.estimate <= 4 * 0x4000_0000
  }

  lemma LaneNext(p: Proc, locked: bool, shown: Content, x: Input)
    requires LaneOnly(p)
    ensures LaneOnly(NextProc(p, locked, shown, x))
  {
    match PhaseOf(p.pc)
    case Gates => assert LaneOnly(GateNext(p, locked));
    case Allocation => assert LaneOnly(AllocateNext(p, locked, shown, x));
    case Claim => assert LaneOnly(ClaimNext(p, locked, x));
    case Grant => assert LaneOnly(GrantNext(p));
    case Taste => LaneTaste(p, locked, x);
    case Wait => assert LaneOnly(WaitNext(p));
  }

  lemma LaneTaste(p: Proc, locked: bool, x: Input)
    requires LaneOnly(p) && PhaseOf(p.pc) == Taste
    ensures LaneOnly(TasteNext(p, locked, x))
  {
  }

  lemma OtherStepsLane(s: State, c: Client, step: Step, t: State)
    requires Next(s, c, step, t) && c in t.procs && !step.Continue? && (c in s.procs ==> LaneOnly(s.procs[c]))
    ensures LaneOnly(t.procs[c])
  {
  }

  lemma {:induction false} LaneHolds(states: seq<State>, labels: seq<Label>, i: nat, c: Client)
    requires IsRun(states, labels) && i < |states| && c in states[i].procs
    ensures LaneOnly(states[i].procs[c])
  {
    if i > 0 {
      var s, l, t := states[i - 1], labels[i - 1], states[i];
      assert StepAt(states, labels, i - 1);
      if c in s.procs {
        LaneHolds(states, labels, i - 1, c);
      }
      if l.client != c {
        OthersKeep(s, l.client, l.step, t, c);
      } else if l.step.Continue? {
        LaneNext(s.procs[c], Succeeds(s, c, AttemptOf(s.procs[c])), Shown(s, s.procs[c]), l.step.input);
      } else {
        OtherStepsLane(s, c, l.step, t);
      }
    }
  }

  /**
   Behind every taste lease stands a sample of the same client that found both the proof's
   reserve and the memory available to hold its estimate, the headroom and the floor. Its
   client asked for the lane and stays under the lane's cap.
   */
  lemma TasteLeaseFits(states: seq<State>, labels: seq<Label>, i: nat, c: Client) returns (q: nat)
    requires IsRun(states, labels) && i < |states| && LiveAs(states[i], c, TasteLease)
    ensures q < i && labels[q].client == c && labels[q].step.Continue?
    ensures c in states[q].procs && states[q].procs[c].pc == TasteSample
    ensures states[q].procs[c].estimate == states[i].procs[c].estimate
    ensures var x, estimate := labels[q].step.input, states[i].procs[c].estimate;
      && x.reserve >= estimate + HEADROOM_BYTES + TASTE_FLOOR_BYTES
      && x.available >= estimate + HEADROOM_BYTES + TASTE_FLOOR_BYTES
    ensures states[i].procs[c].lane && states[i].procs[c].estimate <= 4 * 0x4000_0000
  {
    q := TasteSampled(states, labels, i, c, states[i].procs[c].estimate);
    LaneHolds(states, labels, i, c);
  }

  // ----- the sample behind a slot lease -----

  /** A worker that holds this sample of the budget. */
  predicate Holding(s: State, c: Client, sampled: nat) {
    && c in s.procs
    && (match s.procs[c].pc
        case Count(b, _, _) => b == sampled
        case Create(b, _) => b == sampled
        case LockNew(b, _, _) => b == sampled
        case Judge(b, _) => b == sampled
        case WriteSlot(b) => b == sampled
        case FlushSlot(b) => b == sampled
        case _ => false)
  }

  predicate HasSample(pc: PC) {
    pc.Count? || pc.Create? || pc.LockNew? || pc.Judge? || pc.WriteSlot? || pc.FlushSlot?
  }

  predicate SamplesBudget(s: State, l: Label, c: Client, sampled: nat) {
    && c in s.procs && s.procs[c].pc == SampleBudget
    && l.client == c && l.step.Continue? && l.step.input.budget == sampled
  }

  lemma AllocationSample(p: Proc, locked: bool, shown: Content, x: Input)
    requires PhaseOf(p.pc) == Allocation && HasSample(AllocateNext(p, locked, shown, x).pc)
    ensures AllocateNext(p, locked, shown, x).pc.sampled == if p.pc.SampleBudget? then x.budget else p.pc.sampled
  {
  }

  lemma ClaimSample(p: Proc, locked: bool, x: Input)
    requires PhaseOf(p.pc) == Claim && HasSample(ClaimNext(p, locked, x).pc)
    ensures ClaimNext(p, locked, x).pc.sampled == p.pc.sampled
  {
  }

  lemma GrantSample(p: Proc)
    requires PhaseOf(p.pc) == Grant && HasSample(GrantNext(p).pc)
    ensures p.pc.WriteSlot? && GrantNext(p).pc.sampled == p.pc.sampled
  {
  }

  lemma NoSample(p: Proc, locked: bool, x: Input)
    ensures PhaseOf(p.pc) == Gates ==> !HasSample(GateNext(p, locked).pc)
    ensures PhaseOf(p.pc) == Taste ==> !HasSample(TasteNext(p, locked, x).pc)
    ensures PhaseOf(p.pc) == Wait ==> !HasSample(WaitNext(p).pc)
  {
  }

  lemma OwnBudgetSample(p: Proc, locked: bool, shown: Content, x: Input)
    requires HasSample(NextProc(p, locked, shown, x).pc)
    ensures || (p.pc == SampleBudget && NextProc(p, locked, shown, x).pc.sampled == x.budget)
            || (HasSample(p.pc) && NextProc(p, locked, shown, x).pc.sampled == p.pc.sampled)
  {
    if PhaseOf(p.pc) == Allocation {
      AllocationSample(p, locked, shown, x);
    } else if PhaseOf(p.pc) == Claim {
      ClaimSample(p, locked, x);
    } else if PhaseOf(p.pc) == Grant {
      GrantSample(p);
    } else {
      NoSample(p, locked, x);
    }
  }

  lemma OtherStepsHolding(s: State, c: Client, step: Step, t: State, sampled: nat)
    requires Next(s, c, step, t) && !step.Continue? && Holding(t, c, sampled)
    ensures Holding(s, c, sampled)
  {
  }

  lemma HoldingBack(states: seq<State>, labels: seq<Label>, i: nat, c: Client, sampled: nat)
    requires IsRun(states, labels) && i < |labels| && Holding(states[i + 1], c, sampled)
    ensures Holding(states[i], c, sampled) || SamplesBudget(states[i], labels[i], c, sampled)
  {
    var s, l, t := states[i], labels[i], states[i + 1];
    assert StepAt(states, labels, i);
    if l.client != c {
      OthersKeep(s, l.client, l.step, t, c);
    } else if !l.step.Continue? {
      OtherStepsHolding(s, c, l.step, t, sampled);
    } else {
      OwnBudgetSample(s.procs[c], Succeeds(s, c, AttemptOf(s.procs[c])), Shown(s, s.procs[c]), l.step.input);
    }
  }

  lemma {:induction false} BudgetSampled(states: seq<State>, labels: seq<Label>, i: nat, c: Client, sampled: nat)
    returns (q: nat)
    requires IsRun(states, labels) && i < |states| && Holding(states[i], c, sampled)
    ensures q < i && SamplesBudget(states[q], labels[q], c, sampled)
    ensures forall m :: q < m <= i ==> Holding(states[m], c, sampled)
  {
    q := 0;
    if i == 0 {
      assert false;
    } else {
      HoldingBack(states, labels, i - 1, c, sampled);
      if Holding(states[i - 1], c, sampled) {
        q := BudgetSampled(states, labels, i - 1, c, sampled);
      } else {
        q := i - 1;
      }
    }
  }

  lemma OnlySamplerAdmits(s: State, c: Client, sampled: nat, l: Label)
    requires Inv(s) && Holding(s, c, sampled) && AdmitsSlot(s, l)
    ensures l.client == c && s.procs[c].pc == FlushSlot(sampled)
  {
    assert ProcInv(s.procs[c]) && ProcInv(s.procs[l.client]);
    assert l.client == c || Compatible(Held(s.procs[c], Budget), Held(s.procs[l.client], Budget));
  }

  /**
   In every state with a live slot lease, all live weights and the headroom fit the budget that
   was read for the latest admission: the step that read it is exhibited, and no slot was
   granted between the reading and that admission.
   */
  lemma LiveWeightsFitReading(states: seq<State>, labels: seq<Label>, i: nat) returns (q: nat, j: nat)
    requires IsRun(states, labels) && i < |states| && LiveWeights(states[i].procs, []) != map[]
    ensures q < j < i && AdmitsSlot(states[j], labels[j]) && labels[q].client == labels[j].client
    ensures labels[q].client in states[q].procs && states[q].procs[labels[q].client].pc == SampleBudget
    ensures labels[q].step.Continue? && LiveSum(states[i]) + HEADROOM_BYTES <= labels[q].step.input.budget
    ensures forall k :: q <= k < i && k != j ==> !AdmitsSlot(states[k], labels[k])
  {
    j := LiveWeightsFitLatestSample(states, labels, i);
    var c := labels[j].client;
    var sampled := states[j].procs[c].pc.sampled;
    q := BudgetSampled(states, labels, j, c, sampled);
    forall k | q <= k < j ensures !AdmitsSlot(states[k], labels[k]) {
      if k > q && AdmitsSlot(states[k], labels[k]) {
        GrantEndsHolding(states, labels, k, c, sampled);
      } else {
        NoGrantAtSample(states, labels, q, c, sampled);
      }
    }
  }

  lemma GrantEndsHolding(states: seq<State>, labels: seq<Label>, k: nat, c: Client, sampled: nat)
    requires IsRun(states, labels) && k < |labels| && Holding(states[k], c, sampled)
    requires AdmitsSlot(states[k], labels[k])
    ensures !Holding(states[k + 1], c, sampled)
  {
    RunHolds(states, labels, k);
    OnlySamplerAdmits(states[k], c, sampled, labels[k]);
    assert StepAt(states, labels, k);
    assert states[k + 1].procs[c] == GrantNext(states[k].procs[c]);
  }

  lemma NoGrantAtSample(states: seq<State>, labels: seq<Label>, k: nat, c: Client, sampled: nat)
    requires IsRun(states, labels) && k < |labels| && SamplesBudget(states[k], labels[k], c, sampled)
    ensures !AdmitsSlot(states[k], labels[k])
  {
  }

  // ----- the decisions, as conditions on what was read -----

  lemma {:induction false} ListingExists(files: set<nat>) returns (order: seq<nat>)
    ensures NoDuplicates(order) && forall i :: i in order <==> i in files
    decreases |files|
  {
    order := [];
    if files != {} {
      var i: nat :| i in files;
      var rest := ListingExists(files - {i});
      order := [i] + rest;
    }
  }

  lemma {:induction false} FreshExists(files: set<nat>, from: nat, passed: set<nat>) returns (index: nat)
    requires passed <= files && (forall j: nat :: j in passed <==> j < from)
    ensures index !in files && forall j: nat :: j < index ==> j in files
    decreases |files - passed|
  {
    index := from;
    if from in files {
      assert files - (passed + {from}) == files - passed - {from} && from in files - passed;
      index := FreshExists(files, from + 1, passed + {from});
    }
  }

  /** Every statement of every client can be taken, with any readings, in any state. */
  lemma StatementIsPossible(s: State, c: Client, budget: nat, reserve: nat, available: nat, partial: Content)
    returns (x: Input)
    requires c in s.procs
    ensures x.budget == budget && x.reserve == reserve && x.available == available && x.partial == partial
    ensures Next(s, c, Continue(x), Advance(s, c, x))
  {
    var order := ListingExists(s.slots.Keys);
    var index := FreshExists(s.slots.Keys, 0, {});
    x := Input(budget, reserve, available, order, index, partial);
  }

  /** A taste sample is decided by both readings, and a refusal gives the lane back. */
  lemma TasteSampleDecides(s: State, c: Client, x: Input, t: State, y: Input, u: State)
    requires c in s.procs && s.procs[c].pc == TasteSample && Next(s, c, Continue(x), t) && Next(t, c, Continue(y), u)
    ensures var need := s.procs[c].estimate + HEADROOM_BYTES + TASTE_FLOOR_BYTES;
      if x.reserve >= need && x.available >= need then t.procs[c].pc == TasteWrite && u.procs[c].pc == TasteFlush
      else t.procs[c].pc == TasteReject && u.procs[c].pc == Backoff && !u.procs[c].taste
  {
    assert t.procs[c] == TasteNext(s.procs[c], Succeeds(s, c, NoAttempt), x);
    assert u.procs[c] == TasteNext(t.procs[c], Succeeds(t, c, NoAttempt), y);
  }

  /** A worker's slot is decided by the count and the reading, and a refusal gives slot and mutex back. */
  lemma JudgeDecides(s: State, c: Client, x: Input, t: State, y: Input, u: State)
    requires c in s.procs && s.procs[c].pc.Judge? && Next(s, c, Continue(x), t) && Next(t, c, Continue(y), u)
    ensures var Judge(sampled, reserved) := s.procs[c].pc;
      if sampled >= reserved + s.procs[c].estimate + 2 * 0x4000_0000 then
        t.procs[c].pc == WriteSlot(sampled) && u.procs[c].pc == FlushSlot(sampled) && u.procs[c].slot == s.procs[c].slot
      else t.procs[c].pc == RejectSlot && u.procs[c].pc == RejectBudget && u.procs[c].slot == None
  {
    assert t.procs[c] == ClaimNext(s.procs[c], Succeeds(s, c, NoAttempt), x);
    assert u.procs[c] == GrantNext(t.procs[c]);
  }

  /** After the probe a worker tries the lane exactly if it asked for it, fits it, and a proof runs. */
  lemma LaneTriedIff(s: State, c: Client, x: Input, t: State)
    requires c in s.procs && s.procs[c].pc.ProbeBudget? && Next(s, c, Continue(x), t)
    requires !CanLock(s, c, Budget, Shared)
    ensures t.procs[c].pc == TasteTry <==>
      s.procs[c].pc.proofRunning && s.procs[c].lane && s.procs[c].estimate <= 4 * 0x4000_0000
    ensures t.procs[c].pc == TasteTry || t.procs[c].pc == Backoff
  {
    assert t.procs[c] == TasteNext(s.procs[c], false, x);
  }

  /**
   One probe of the count: a free file is kept as the slot if it is the first, a busy one adds the
   positive number it shows, and a busy one that shows anything else ends the client.
   */
  lemma ProbeDecides(s: State, c: Client, x: Input, t: State, i: nat)
    requires c in s.procs && s.procs[c].pc.Count? && s.procs[c].pc.todo != [] && s.procs[c].pc.todo[0] == i
    requires i in s.slots && Next(s, c, Continue(x), t)
    ensures var Count(sampled, reserved, todo) := s.procs[c].pc;
      if CanLock(s, c, SlotFile(i), Exclusive) then
        t.procs[c].pc == Count(sampled, reserved, todo[1..])
          && t.procs[c].slot == (if s.procs[c].slot == None then Some(i) else s.procs[c].slot)
      else if s.slots[i].Number? && s.slots[i].bytes > 0 then
        t.procs[c].pc == Count(sampled, reserved + s.slots[i].bytes, todo[1..]) && t.procs[c].slot == s.procs[c].slot
      else t.procs[c].pc == Closing
  {
    assert t.procs[c] == CountNext(s.procs[c], CanLock(s, c, SlotFile(i), Exclusive), s.slots[i]);
  }

  /** What the files show while a weight is written: anything until the flush, and the estimate after it. */
  lemma FilesShow(s: State, c: Client, x: Input, t: State)
    requires c in s.procs && Next(s, c, Continue(x), t)
    ensures s.procs[c].slot.Some? && s.procs[c].pc.WriteSlot? ==> t.slots == s.slots[s.procs[c].slot.value := x.partial]
    ensures s.procs[c].slot.Some? && s.procs[c].pc.FlushSlot? ==>
      t.slots == s.slots[s.procs[c].slot.value := Number(s.procs[c].estimate)]
    ensures s.procs[c].pc == TasteWrite ==> t.taste == x.partial && t.slots == s.slots
    ensures s.procs[c].pc == TasteFlush ==> t.taste == Number(s.procs[c].estimate) && t.slots == s.slots
  {
    assert t.slots == NextSlots(s, s.procs[c], x) && t.taste == NextTaste(s, s.procs[c], x);
  }

  // ----- what is let go of -----

  predicate NoSlotNoTaste(p: Proc) {
    p.slot == None && !p.taste
  }

  /** The locks a worker has at each statement besides those that its invariant asks for. */
  predicate Lets(p: Proc) {
    && (p.pc.Waiting? || p.pc.TryPriority? ==>
          p.priority == p.intent == p.budget == Free && NoSlotNoTaste(p))
    && (p.pc.TryIntent? ==> p.intent == p.budget == Free && NoSlotNoTaste(p))
    && (p.pc.TryBudget? ==> p.budget == Free && NoSlotNoTaste(p))
    && (p.pc.Backoff? ==> p.budget == Free && NoSlotNoTaste(p))
    && (p.pc.BackoffPriority? ==> p.intent == p.budget == Free && NoSlotNoTaste(p))
    && LetsTaste(p) && LetsSlot(p) && LetsGranted(p)
  }

  predicate LetsTaste(p: Proc) {
    && (p.pc.ProbeBudget? ==> p.budget != Shared && NoSlotNoTaste(p))
    && (p.pc.ProbeUnlock? ==> NoSlotNoTaste(p))
    && (p.pc.TasteTry? ==> p.budget == Free && NoSlotNoTaste(p))
    && (InTaste(p.pc) ==> p.budget == Free && p.slot == None)
  }

  predicate LetsSlot(p: Proc) {
    && (Allocating(p.pc) ==> !p.taste)
    && (p.pc.SampleBudget? || p.pc.Create? || p.pc.LockNew? || p.pc.RejectBudget? ==> p.slot == None)
  }

  predicate LetsGranted(p: Proc) {
    && (p.pc.UnlockBudget? ==> !p.taste)
    && (p.pc.UnlockPriority? ==> p.budget == Free && (p.taste <==> p.slot == None))
    && (p.pc.Running? ==> p.priority == p.budget == Free && (p.taste <==> p.slot == None))
  }

  lemma GateLets(p: Proc, locked: bool)
    requires ProcInv(p) && p.role == Worker && Lets(p) && PhaseOf(p.pc) == Gates
    ensures Lets(GateNext(p, locked))
  {
  }

  lemma AllocateLets(p: Proc, locked: bool, shown: Content, x: Input)
    requires ProcInv(p) && p.role == Worker && Lets(p) && PhaseOf(p.pc) == Allocation
    ensures Lets(AllocateNext(p, locked, shown, x))
  {
  }

  lemma ClaimLets(p: Proc, locked: bool, x: Input)
    requires ProcInv(p) && p.role == Worker && Lets(p) && PhaseOf(p.pc) == Claim
    ensures Lets(ClaimNext(p, locked, x))
  {
  }

  lemma GrantLets(p: Proc)
    requires ProcInv(p) && p.role == Worker && Lets(p) && PhaseOf(p.pc) == Grant
    ensures Lets(GrantNext(p))
  {
  }

  /** A probe converts the client's own exclusive lock, so it cannot fail then. */
  lemma TasteLets(p: Proc, locked: bool, x: Input)
    requires ProcInv(p) && p.role == Worker && Lets(p) && PhaseOf(p.pc) == Taste
    requires p.pc.ProbeBudget? && p.budget == Exclusive ==> locked
    ensures Lets(TasteNext(p, locked, x))
  {
  }

  lemma LetsNext(p: Proc, locked: bool, shown: Content, x: Input)
    requires ProcInv(p) && p.role == Worker && Lets(p)
    requires p.pc.ProbeBudget? && p.budget == Exclusive ==> locked
    ensures Lets(NextProc(p, locked, shown, x))
  {
    match PhaseOf(p.pc)
    case Gates => GateLets(p, locked);
    case Allocation => AllocateLets(p, locked, shown, x);
    case Claim => ClaimLets(p, locked, x);
    case Grant => GrantLets(p);
    case Taste => TasteLets(p, locked, x);
    case Wait => assert Lets(WaitNext(p));
  }

  lemma OwnExclusiveConverts(s: State, c: Client)
    requires Inv(s) && c in s.procs && s.procs[c].pc.ProbeBudget? && s.procs[c].budget == Exclusive
    ensures Succeeds(s, c, AttemptOf(s.procs[c]))
  {
    forall d | d in s.procs && d != c ensures Compatible(Shared, Held(s.procs[d], Budget)) {
      assert Compatible(Held(s.procs[c], Budget), Held(s.procs[d], Budget));
    }
  }

  lemma OtherStepsLet(s: State, c: Client, step: Step, t: State)
    requires Next(s, c, step, t) && c in t.procs && !step.Continue? && t.procs[c].role == Worker
    requires c in s.procs && s.procs[c].role == Worker ==> Lets(s.procs[c])
    ensures Lets(t.procs[c])
  {
  }

  lemma RoleStays(p: Proc, locked: bool, shown: Content, x: Input)
    ensures NextProc(p, locked, shown, x).role == p.role
  {
    match PhaseOf(p.pc)
    case Gates => assert GateNext(p, locked).role == p.role;
    case Allocation => assert AllocateNext(p, locked, shown, x).role == p.role;
    case Claim => assert ClaimNext(p, locked, x).role == p.role;
    case Grant => assert GrantNext(p).role == p.role;
    case Taste => assert TasteNext(p, locked, x).role == p.role;
    case Wait => assert WaitNext(p).role == p.role;
  }

  lemma OwnLets(s: State, c: Client, x: Input)
    requires Inv(s) && c in s.procs && Moved(s, c, x).role == Worker
    requires s.procs[c].role == Worker ==> Lets(s.procs[c])
    ensures s.procs[c].role == Worker && Lets(Moved(s, c, x))
  {
    var p := s.procs[c];
    var locked := Succeeds(s, c, AttemptOf(p));
    assert ProcInv(p);
    RoleStays(p, locked, Shown(s, p), x);
    if p.pc.ProbeBudget? && p.budget == Exclusive {
      OwnExclusiveConverts(s, c);
    }
    LetsNext(p, locked, Shown(s, p), x);
  }

  lemma {:induction false} LetsHolds(states: seq<State>, labels: seq<Label>, i: nat, c: Client)
    requires IsRun(states, labels) && i < |states| && c in states[i].procs && states[i].procs[c].role == Worker
    ensures Lets(states[i].procs[c])
  {
    if i > 0 {
      var s, l, t := states[i - 1], labels[i - 1], states[i];
      assert StepAt(states, labels, i - 1);
      RunHolds(states, labels, i - 1);
      if c in s.procs && s.procs[c].role == Worker {
        LetsHolds(states, labels, i - 1, c);
      }
      if l.client != c {
        OthersKeep(s, l.client, l.step, t, c);
      } else if l.step.Continue? {
        OwnLets(s, c, l.step.input);
      } else {
        OtherStepsLet(s, c, l.step, t);
      }
    }
  }

  /**
   Workers release every gate across a wait, and keep nothing but their lease while they run: a
   waiting worker holds no lock at all, a running one neither priority nor the budget mutex, and
   exactly one of a slot and the lane.
   */
  lemma WorkersLetGo(states: seq<State>, labels: seq<Label>, i: nat, c: Client, l: Lock)
    requires IsRun(states, labels) && i < |states| && c in states[i].procs && states[i].procs[c].role == Worker
    ensures states[i].procs[c].pc == Waiting ==> Held(states[i].procs[c], l) == Free
    ensures states[i].procs[c].pc == Running ==>
      && states[i].procs[c].priority == states[i].procs[c].budget == Free
      && (states[i].procs[c].taste <==> states[i].procs[c].slot == None)
  {
    LetsHolds(states, labels, i, c);
  }

  /** A proof that has priority keeps it until it is admitted or ends. */
  lemma ProofKeepsPriority(s: State, c: Client, step: Step, t: State, w: Client)
    requires Inv(s) && Next(s, c, step, t) && ProofWaits(s, w) && s.procs[w].pc != Closing
    ensures ProofWaits(t, w) || LiveAs(t, w, ProofLease) || t.procs[w].pc == Closing
  {
    assert ProcInv(s.procs[w]);
    if w != c {
      OthersKeep(s, c, step, t, w);
    } else if step.Continue? {
      var p := s.procs[w];
      var locked := Succeeds(s, w, AttemptOf(p));
      assert PhaseOf(p.pc) == Gates || PhaseOf(p.pc) == Wait;
      assert t.procs[w] == if PhaseOf(p.pc) == Gates then GateNext(p, locked) else WaitNext(p);
    }
  }

  // ----- what outlives the owner -----

  /** The lease holder leaves exactly when it was told to, or its owner is gone and no tracked group is alive. */
  lemma HolderLeavesIff(h: Holder, alive: set<int>)
    requires h.Holder?
    ensures HolderLeaves(h, alive) <==> h.released || (h.ended && forall g :: g in h.tracked ==> g !in alive)
  {
    LeaseHolder.ScanOwnerStream({}, h.tracked, h.released);
    GroupsAre(h.tracked);
    assert {} + LeaseHolder.GroupSet(h.tracked) == LeaseHolder.GroupSet(h.tracked);
  }

  lemma {:induction false} GroupsAre(tracked: seq<nat>)
    ensures forall g: nat :: g in tracked <==> g in LeaseHolder.GroupSet(tracked)
    ensures forall x :: x in LeaseHolder.GroupSet(tracked) ==> x >= 0
  {
    if tracked != [] {
      GroupsAre(tracked[1..]);
      assert tracked == [tracked[0]] + tracked[1..];
    }
  }

  /**
   While the holder lives, a gone owner's files close except those of its lease: intent and budget
   for a proof, intent and the slot for a worker, and the lane alone for a taste run.
   */
  lemma ClosesIff(s: State, c: Client, l: Lock)
    requires c in s.procs && s.procs[c].pc == Closing && s.procs[c].holder.Holder?
    ensures (exists t :: Next(s, c, Drop(l), t)) <==>
      && (s.procs[c].lease == ProofLease ==> l != Intent && l != Budget)
      && (s.procs[c].lease == SlotLease ==> l != Intent && !l.SlotFile?)
      && (s.procs[c].lease == TasteLease ==> l != TasteFile)
    ensures forall t :: Next(s, c, Drop(l), t) ==> Held(t.procs[c], l) == Free
  {
    if !Inherits(s.procs[c].lease, l) {
      assert Next(s, c, Drop(l), Put(s, c, Unlocked(s.procs[c], l)));
    }
  }

  /** When an owner ends and none of its tracked groups is alive, its holder can leave, and the lease is over. */
  lemma LeaseEndsWithGroups(s: State, c: Client, t: State) returns (u: State)
    requires Next(s, c, End, t) && s.procs[c].holder.Holder?
    requires forall g :: g in s.procs[c].holder.tracked ==> g !in s.alive
    ensures Next(t, c, HolderExits, u) && !Live(u.procs[c]) && u.procs[c].pc == Closing
  {
    HolderLeavesIff(t.procs[c].holder, t.alive);
    u := Put(t, c, t.procs[c].(holder := HolderGone));
  }

  /** A transient probe by another caller holds that one lock exclusively and no other. */
  lemma ProbeHolds(s: State, c: Client, l: Lock, t: State, other: Lock)
    requires Next(s, c, Probe(l), t)
    ensures Held(t.procs[c], other) == if other == l then Exclusive else Free
  {
    assert t.procs[c] == ProberHolding(l);
  }
}
