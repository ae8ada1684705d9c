/**
 The taste lane of host memory admission (scripts/host_memory.py:311-328): what a worker's
 "proof running" says about proofs, and which taste runs it admits.
 */
module HostTasteLane {
  import opened HostAdmission
  import opened HostAdmissionSafety
  import opened HostAdmissionRuns
  import opened HostGrants

  // ----- what refuses the intent lock -----

  /** A proof that was admitted and has ended, and has not yet closed its files. */
  predicate Ending(p: Proc) {
    p.role == Proof && p.lease == ProofLease && p.pc == Closing && !Live(p)
  }

  /** A proof that gave up or died before it was admitted, and has not yet closed its files. */
  predicate GaveUp(p: Proc) {
    p.role == Proof && p.lease == NoLease && p.pc == Closing
  }

  ghost predicate LiveProof(s: State) {
    exists d :: LiveAs(s, d, ProofLease)
  }

  ghost predicate NoLiveProof(s: State) {
    forall d | d in s.procs :: !LiveAs(s, d, ProofLease)
  }

  /** No client was ever admitted as a proof. */
  predicate NeverProof(s: State) {
    forall d | d in s.procs :: s.procs[d].lease != ProofLease
  }

  /** This client holds the intent lock for itself. */
  predicate HoldsIntent(s: State, d: Client) {
    d in s.procs && s.procs[d].role == Proof && s.procs[d].intent == Exclusive
  }

  predicate AtIntent(s: State, c: Client) {
    c in s.procs && s.procs[c].role == Worker && s.procs[c].pc == TryIntent
  }

  /**
   A worker that passed the priority gate is refused intent by exactly one client: a live
   proof, one that has ended, or one that was never admitted.
   */
  lemma IntentRefusedBy(states: seq<State>, labels: seq<Label>, i: nat, c: Client) returns (d: Client)
    requires IsRun(states, labels) && i < |states| && AtIntent(states[i], c)
    requires !CanLock(states[i], c, Intent, Shared)
    ensures HoldsIntent(states[i], d) && forall e :: HoldsIntent(states[i], e) ==> e == d
    ensures LiveAs(states[i], d, ProofLease) || Ending(states[i].procs[d]) || GaveUp(states[i].procs[d])
    ensures LiveProof(states[i]) <==> LiveAs(states[i], d, ProofLease)
  {
    var s := states[i];
    RunHolds(states, labels, i);
    d :| d in s.procs && d != c && !Compatible(Shared, Held(s.procs[d], Intent));
    assert ProcInv(s.procs[c]) && ProcInv(s.procs[d]);
    assert Compatible(Held(s.procs[c], Priority), Held(s.procs[d], Priority));
    forall e | e in s.procs && e != d ensures s.procs[e].intent != Exclusive && !LiveAs(s, e, ProofLease) {
      assert ProcInv(s.procs[e]);
      assert Compatible(Held(s.procs[d], Intent), Held(s.procs[e], Intent));
    }
  }

  /** Beside a client that holds intent shared no proof is live, and none holds intent. */
  lemma NoProofBesideSharedIntent(states: seq<State>, labels: seq<Label>, i: nat, c: Client)
    requires IsRun(states, labels) && i < |states| && c in states[i].procs && states[i].procs[c].intent == Shared
    ensures NoLiveProof(states[i]) && forall d :: !HoldsIntent(states[i], d)
  {
    RunHolds(states, labels, i);
    forall d | d in states[i].procs
      ensures states[i].procs[d].intent != Exclusive && !LiveAs(states[i], d, ProofLease)
    {
      assert ProcInv(states[i].procs[d]);
      assert d == c || Compatible(Held(states[i].procs[c], Intent), Held(states[i].procs[d], Intent));
    }
  }

  // ----- what blocks the shared probe -----

  /** A shared probe of the budget lock that succeeds means that no proof is live at that instant. */
  lemma SharedProbeMeansNoLiveProof(states: seq<State>, labels: seq<Label>, i: nat, c: Client, d: Client)
    requires IsRun(states, labels) && i < |states| && c in states[i].procs && states[i].procs[c].role == Worker
    requires CanLock(states[i], c, Budget, Shared)
    ensures !LiveAs(states[i], d, ProofLease)
  {
    RunHolds(states, labels, i);
    if d in states[i].procs {
      assert ProcInv(states[i].procs[d]) && ProcInv(states[i].procs[c]);
      assert d == c || Compatible(Shared, Held(states[i].procs[d], Budget));
    }
  }

  /** A taste run beside a proof has let go of the intent lock. */
  lemma TasteBesideProofFreesIntent(states: seq<State>, labels: seq<Label>, i: nat, c: Client, d: Client)
    requires IsRun(states, labels) && i < |states|
    requires LiveAs(states[i], c, TasteLease) && LiveAs(states[i], d, ProofLease)
    ensures states[i].procs[c].intent == Free
  {
    RunHolds(states, labels, i);
    assert ProcInv(states[i].procs[c]) && ProcInv(states[i].procs[d]);
    assert Compatible(Held(states[i].procs[c], Intent), Held(states[i].procs[d], Intent));
  }

  predicate HoldsBudget(s: State, d: Client) {
    d in s.procs && s.procs[d].budget == Exclusive
  }

  /** A proof takes the budget lock in the statement that admits it. */
  predicate ProofBudget(p: Proc) {
    p.role == Proof && p.budget == Exclusive ==> p.lease == ProofLease
  }

  lemma ProofBudgetNext(p: Proc, locked: bool, shown: Content, x: Input)
    requires ProcInv(p) && ProofBudget(p)
    ensures ProofBudget(NextProc(p, locked, shown, x))
  {
    RoleStays(p, locked, shown, x);
    match PhaseOf(p.pc)
    case Gates => assert ProofBudget(GateNext(p, locked));
    case Grant => assert ProofBudget(GrantNext(p));
    case Wait => assert ProofBudget(WaitNext(p));
    case _ =>
  }

  lemma OtherStepsBudget(s: State, c: Client, step: Step, t: State)
    requires Next(s, c, step, t) && c in t.procs && !step.Continue?
    ensures || t.procs[c].role == Prober || t.procs[c].budget == Free
            || (c in s.procs && t.procs[c].role == s.procs[c].role && t.procs[c].budget == s.procs[c].budget
                && t.procs[c].lease == s.procs[c].lease)
  {
  }

  lemma {:induction false} ProofBudgetHolds(states: seq<State>, labels: seq<Label>, i: nat, c: Client)
    requires IsRun(states, labels) && i < |states| && c in states[i].procs
    ensures ProofBudget(states[i].procs[c])
  {
    if i > 0 {
      var s, l, t := states[i - 1], labels[i - 1], states[i];
      assert StepAt(states, labels, i - 1);
      RunHolds(states, labels, i - 1);
      if c in s.procs {
        ProofBudgetHolds(states, labels, i - 1, c);
      }
      if l.client != c {
        OthersKeep(s, l.client, l.step, t, c);
      } else if l.step.Continue? {
        assert ProcInv(s.procs[c]);
        ProofBudgetNext(s.procs[c], Succeeds(s, c, AttemptOf(s.procs[c])), Shown(s, s.procs[c]), l.step.input);
      } else {
        OtherStepsBudget(s, c, l.step, t);
      }
    }
  }

  /**
   A shared probe is blocked by exactly one client. A proof is live at that instant if and only
   if that client is the live proof; a proof that blocks it was admitted, and has ended if it is
   not live.
   */
  lemma ProbeBlockedBy(states: seq<State>, labels: seq<Label>, i: nat, c: Client) returns (d: Client)
    requires IsRun(states, labels) && i < |states| && c in states[i].procs && !CanLock(states[i], c, Budget, Shared)
    ensures d != c && HoldsBudget(states[i], d) && forall e :: HoldsBudget(states[i], e) ==> e == d
    ensures LiveProof(states[i]) <==> LiveAs(states[i], d, ProofLease)
    ensures states[i].procs[d].role == Proof ==> LiveAs(states[i], d, ProofLease) || Ending(states[i].procs[d])
  {
    var s := states[i];
    RunHolds(states, labels, i);
    d :| d in s.procs && d != c && !Compatible(Shared, Held(s.procs[d], Budget));
    assert ProcInv(s.procs[d]);
    ProofBudgetHolds(states, labels, i, d);
    forall e | e in s.procs && e != d ensures !HoldsBudget(s, e) && !LiveAs(s, e, ProofLease) {
      assert ProcInv(s.procs[e]);
      assert Compatible(Held(s.procs[d], Budget), Held(s.procs[e], Budget));
    }
  }

  /** The reason of a pass becomes "proof running": intent is refused, or the shared probe succeeds. */
  ghost predicate SaysProofRunning(s: State, c: Client) {
    && c in s.procs && s.procs[c].role == Worker
    && ((s.procs[c].pc == TryIntent && s.procs[c].intent == Free && !CanLock(s, c, Intent, Shared))
        || (s.procs[c].pc == ProbeBudget(false) && CanLock(s, c, Budget, Shared)))
  }

  /** A probe carries "proof running" along exactly if the pass has no intent lock. */
  predicate PassInv(p: Proc) {
    p.pc.ProbeBudget? ==> p.role == Worker && (p.pc.proofRunning <==> p.intent == Free)
  }

  lemma PassNext(p: Proc, locked: bool, shown: Content, x: Input)
    requires ProcInv(p) && PassInv(p)
    ensures PassInv(NextProc(p, locked, shown, x))
  {
    match PhaseOf(p.pc)
    case Gates => assert PassInv(GateNext(p, locked));
    case Allocation => assert PassInv(AllocateNext(p, locked, shown, x));
    case Claim => assert PassInv(ClaimNext(p, locked, x));
    case Grant => assert PassInv(GrantNext(p));
    case Taste => assert PassInv(TasteNext(p, locked, x));
    case Wait => assert PassInv(WaitNext(p));
  }

  /** Steps other than the next statement keep the program counter, or end the client, or start it. */
  lemma OtherStepsPc(s: State, c: Client, step: Step, t: State)
    requires Next(s, c, step, t) && c in t.procs && !step.Continue?
    ensures t.procs[c].pc == TryPriority || t.procs[c].pc == Probing || t.procs[c].pc == Closing
      || (c in s.procs && t.procs[c].pc == s.procs[c].pc && t.procs[c].intent == s.procs[c].intent
           && t.procs[c].role == s.procs[c].role)
  {
  }

  lemma {:induction false} PassHolds(states: seq<State>, labels: seq<Label>, i: nat, c: Client)
    requires IsRun(states, labels) && i < |states| && c in states[i].procs
    ensures PassInv(states[i].procs[c])
  {
    if i > 0 {
      var s, l, t := states[i - 1], labels[i - 1], states[i];
      assert StepAt(states, labels, i - 1);
      RunHolds(states, labels, i - 1);
      if c in s.procs {
        PassHolds(states, labels, i - 1, c);
      }
      if l.client != c {
        OthersKeep(s, l.client, l.step, t, c);
      } else if l.step.Continue? {
        assert ProcInv(s.procs[c]);
        PassNext(s.procs[c], Succeeds(s, c, AttemptOf(s.procs[c])), Shown(s, s.procs[c]), l.step.input);
      } else {
        OtherStepsPc(s, c, l.step, t);
      }
    }
  }

  /**
   What the conclusion "proof running" tells at the moment it is made. From a refused intent
   lock it tells that some proof holds that lock; from a successful probe, that none does and
   that no proof is live.
   */
  lemma ProofRunningMeans(states: seq<State>, labels: seq<Label>, i: nat, c: Client)
    requires IsRun(states, labels) && i < |states| && SaysProofRunning(states[i], c)
    ensures (exists d :: HoldsIntent(states[i], d)) <==> states[i].procs[c].pc == TryIntent
    ensures states[i].procs[c].pc == TryIntent <==> states[i].procs[c].intent == Free
    ensures LiveProof(states[i]) ==> states[i].procs[c].pc == TryIntent
  {
    PassHolds(states, labels, i, c);
    RunHolds(states, labels, i);
    assert ProcInv(states[i].procs[c]);
    if states[i].procs[c].pc == TryIntent {
      var d := IntentRefusedBy(states, labels, i, c);
    } else {
      NoProofBesideSharedIntent(states, labels, i, c);
    }
  }

  /** A worker between that conclusion and the end of its taste attempt. */
  predicate Concluded(pc: PC) {
    pc == ProbeBudget(true) || pc.ProbeUnlock? || InTaste(pc)
  }

  predicate InPass(s: State, c: Client, intent: Mode) {
    c in s.procs && s.procs[c].role == Worker && Concluded(s.procs[c].pc) && s.procs[c].intent == intent
  }

  predicate Concludes(p: Proc, locked: bool) {
    (p.pc == TryIntent && p.intent == Free && !locked) || (p.pc == ProbeBudget(false) && locked)
  }

  lemma GateConcludes(p: Proc, locked: bool)
    requires ProcInv(p) && p.role == Worker && PhaseOf(p.pc) == Gates && Concluded(GateNext(p, locked).pc)
    ensures GateNext(p, locked).intent == p.intent && Concludes(p, locked)
  {
  }

  lemma TasteConcludes(p: Proc, locked: bool, x: Input)
    requires PhaseOf(p.pc) == Taste && Concluded(TasteNext(p, locked, x).pc)
    ensures TasteNext(p, locked, x).intent == p.intent && (Concluded(p.pc) || Concludes(p, locked))
  {
  }

  lemma NotConcluded(p: Proc, locked: bool, shown: Content, x: Input)
    requires PhaseOf(p.pc) != Gates && PhaseOf(p.pc) != Taste
    ensures !Concluded(NextProc(p, locked, shown, x).pc)
  {
    match PhaseOf(p.pc)
    case Allocation => assert !Concluded(AllocateNext(p, locked, shown, x).pc);
    case Claim => assert !Concluded(ClaimNext(p, locked, x).pc);
    case Grant => assert !Concluded(GrantNext(p).pc);
    case Wait => assert !Concluded(WaitNext(p).pc);
    case _ =>
  }

  lemma ConcludedNext(p: Proc, locked: bool, shown: Content, x: Input)
    requires ProcInv(p) && p.role == Worker && Concluded(NextProc(p, locked, shown, x).pc)
    ensures NextProc(p, locked, shown, x).intent == p.intent && (Concluded(p.pc) || Concludes(p, locked))
  {
    if PhaseOf(p.pc) == Gates {
      GateConcludes(p, locked);
    } else if PhaseOf(p.pc) == Taste {
      TasteConcludes(p, locked, x);
    } else {
      NotConcluded(p, locked, shown, x);
    }
  }

  lemma OwnPassBack(s: State, c: Client, x: Input, intent: Mode)
    requires c in s.procs && ProcInv(s.procs[c]) && InPass(Advance(s, c, x), c, intent)
    ensures InPass(s, c, intent) || (SaysProofRunning(s, c) && s.procs[c].intent == intent)
  {
    var p := s.procs[c];
    var locked := Succeeds(s, c, AttemptOf(p));
    RoleStays(p, locked, Shown(s, p), x);
    ConcludedNext(p, locked, Shown(s, p), x);
  }

  /** One step back from inside such a stretch: still inside, or the step that concluded. */
  lemma PassBack(states: seq<State>, labels: seq<Label>, i: nat, c: Client, intent: Mode)
    requires IsRun(states, labels) && i < |labels| && InPass(states[i + 1], c, intent)
    ensures || InPass(states[i], c, intent)
            || (SaysProofRunning(states[i], c) && labels[i].client == c && labels[i].step.Continue?
                 && states[i].procs[c].intent == intent)
  {
    var s, l, t := states[i], labels[i], states[i + 1];
    assert StepAt(states, labels, i);
    RunHolds(states, labels, i);
    if l.client != c {
      OthersKeep(s, l.client, l.step, t, c);
    } else if l.step.Continue? {
      assert ProcInv(s.procs[c]);
      OwnPassBack(s, c, l.step.input, intent);
    } else {
      OtherStepsPc(s, c, l.step, t);
    }
  }

  /** The step of the same pass that concluded "proof running". */
  lemma {:induction false} PassBegan(states: seq<State>, labels: seq<Label>, i: nat, c: Client, intent: Mode)
    returns (k: nat)
    requires IsRun(states, labels) && i < |states| && InPass(states[i], c, intent)
    ensures k < i && SaysProofRunning(states[k], c) && labels[k].client == c && labels[k].step.Continue?
    ensures states[k].procs[c].intent == intent && forall m :: k < m <= i ==> InPass(states[m], c, intent)
  {
    k := 0;
    if i == 0 {
      assert false;
    } else {
      PassBack(states, labels, i - 1, c, intent);
      if InPass(states[i - 1], c, intent) {
        k := PassBegan(states, labels, i - 1, c, intent);
      } else {
        k := i - 1;
      }
    }
  }

  // ----- the probe of the same pass -----

  /** Past the probe of the budget lock. */
  predicate Probed(pc: PC) {
    pc.ProbeUnlock? || InTaste(pc)
  }

  predicate InAttempt(s: State, c: Client, intent: Mode) {
    c in s.procs && s.procs[c].role == Worker && Probed(s.procs[c].pc) && s.procs[c].intent == intent
  }

  /** The next statement is the shared probe, and the taste lane is tried after it. */
  ghost predicate ProbesNow(s: State, c: Client, intent: Mode) {
    && c in s.procs && s.procs[c].role == Worker && s.procs[c].pc.ProbeBudget? && s.procs[c].intent == intent
    && (s.procs[c].pc.proofRunning || CanLock(s, c, Budget, Shared))
  }

  lemma ProbedNext(p: Proc, locked: bool, shown: Content, x: Input)
    requires ProcInv(p) && p.role == Worker && Probed(NextProc(p, locked, shown, x).pc)
    ensures NextProc(p, locked, shown, x).intent == p.intent
    ensures Probed(p.pc) || (p.pc.ProbeBudget? && (p.pc.proofRunning || locked))
  {
    if PhaseOf(p.pc) == Gates {
      GateNotProbed(p, locked);
    } else if PhaseOf(p.pc) == Taste {
      TasteProbed(p, locked, x);
    } else {
      NotConcluded(p, locked, shown, x);
    }
  }

  lemma GateNotProbed(p: Proc, locked: bool)
    requires PhaseOf(p.pc) == Gates
    ensures !Probed(GateNext(p, locked).pc)
  {
  }

  lemma TasteProbed(p: Proc, locked: bool, x: Input)
    requires PhaseOf(p.pc) == Taste && Probed(TasteNext(p, locked, x).pc)
    ensures TasteNext(p, locked, x).intent == p.intent
    ensures Probed(p.pc) || (p.pc.ProbeBudget? && (p.pc.proofRunning || locked))
  {
  }

  lemma OwnProbeBack(s: State, c: Client, x: Input, intent: Mode)
    requires c in s.procs && ProcInv(s.procs[c]) && InAttempt(Advance(s, c, x), c, intent)
    ensures InAttempt(s, c, intent) || ProbesNow(s, c, intent)
  {
    var p := s.procs[c];
    var locked := Succeeds(s, c, AttemptOf(p));
    RoleStays(p, locked, Shown(s, p), x);
    ProbedNext(p, locked, Shown(s, p), x);
  }

  lemma ProbeBack(states: seq<State>, labels: seq<Label>, i: nat, c: Client, intent: Mode)
    requires IsRun(states, labels) && i < |labels| && InAttempt(states[i + 1], c, intent)
    ensures || InAttempt(states[i], c, intent)
            || (ProbesNow(states[i], c, intent) && labels[i].client == c && labels[i].step.Continue?)
  {
    var s, l, t := states[i], labels[i], states[i + 1];
    assert StepAt(states, labels, i);
    RunHolds(states, labels, i);
    if l.client != c {
      OthersKeep(s, l.client, l.step, t, c);
    } else if l.step.Continue? {
      assert ProcInv(s.procs[c]);
      OwnProbeBack(s, c, l.step.input, intent);
    } else {
      OtherStepsPc(s, c, l.step, t);
    }
  }

  /** The step of the same pass that probed the budget lock. */
  lemma {:induction false} ProbedAt(states: seq<State>, labels: seq<Label>, i: nat, c: Client, intent: Mode)
    returns (p: nat)
    requires IsRun(states, labels) && i < |states| && InAttempt(states[i], c, intent)
    ensures p < i && ProbesNow(states[p], c, intent) && labels[p].client == c && labels[p].step.Continue?
    ensures forall m :: p < m <= i ==> InAttempt(states[m], c, intent)
  {
    p := 0;
    if i == 0 {
      assert false;
    } else {
      ProbeBack(states, labels, i - 1, c, intent);
      if InAttempt(states[i - 1], c, intent) {
        p := ProbedAt(states, labels, i - 1, c, intent);
      } else {
        p := i - 1;
      }
    }
  }

  /**
   The pass behind a taste grant. It concluded "proof running" in state k and probed the budget
   lock in state p. It holds intent exactly if the probe itself was the conclusion; otherwise
   intent was refused before. Where the probe succeeds no proof is live, so only a refused
   intent lock with a failed probe can have been beside a live proof. In state q it read memory,
   and both readings hold the estimate, the headroom and the floor.
   */
  lemma TasteGrantPass(states: seq<State>, labels: seq<Label>, i: nat, c: Client)
    returns (k: nat, p: nat, q: nat)
    requires IsRun(states, labels) && i < |labels| && labels[i].client == c && labels[i].step.Continue?
    requires c in states[i].procs && states[i].procs[c].pc == TasteFlush
    ensures LiveAs(states[i + 1], c, TasteLease) && states[i + 1].procs[c].intent == states[i].procs[c].intent
    ensures k <= p < i && SaysProofRunning(states[k], c)
    ensures ProbesNow(states[p], c, states[i].procs[c].intent)
    ensures forall m :: k < m <= p ==> InPass(states[m], c, states[i].procs[c].intent)
    ensures forall m :: p < m <= i ==> InAttempt(states[m], c, states[i].procs[c].intent)
    ensures states[i].procs[c].intent == Shared <==> k == p && CanLock(states[p], c, Budget, Shared)
    ensures states[i].procs[c].intent == Free <==>
      k < p && AtIntent(states[k], c) && !CanLock(states[k], c, Intent, Shared)
    ensures CanLock(states[p], c, Budget, Shared) ==> NoLiveProof(states[p])
    ensures LiveProof(states[p]) ==> states[i].procs[c].intent == Free && !CanLock(states[p], c, Budget, Shared)
    ensures states[i].procs[c].intent == Shared ==> NoLiveProof(states[i + 1])
    ensures p < q < i && labels[q].client == c && labels[q].step.Continue?
    ensures c in states[q].procs && states[q].procs[c].pc == TasteSample
    ensures labels[q].step.input.reserve >= states[i].procs[c].estimate + HEADROOM_BYTES + TASTE_FLOOR_BYTES
    ensures labels[q].step.input.available >= states[i].procs[c].estimate + HEADROOM_BYTES + TASTE_FLOOR_BYTES
  {
    var intent := states[i].procs[c].intent;
    FlushGrantsLane(states, labels, i, c);
    p := ProbedAt(states, labels, i, c, intent);
    q := SampledAfter(states, labels, i, c, p);
    k := ConcludedAt(states, labels, p, c, intent);
    if intent == Shared {
      NoProofBesideSharedIntent(states, labels, i + 1, c);
    }
  }

  lemma FlushGrantsLane(states: seq<State>, labels: seq<Label>, i: nat, c: Client)
    requires IsRun(states, labels) && i < |labels| && labels[i].client == c && labels[i].step.Continue?
    requires c in states[i].procs && states[i].procs[c].pc == TasteFlush
    ensures LiveAs(states[i + 1], c, TasteLease) && states[i + 1].procs[c].intent == states[i].procs[c].intent
    ensures InAttempt(states[i], c, states[i].procs[c].intent) && states[i].procs[c].intent != Exclusive
  {
    assert StepAt(states, labels, i);
    RunHolds(states, labels, i);
    assert ProcInv(states[i].procs[c]);
  }

  /** The step that concluded "proof running" before this probe, and what the probe tells. */
  lemma ConcludedAt(states: seq<State>, labels: seq<Label>, p: nat, c: Client, intent: Mode) returns (k: nat)
    requires IsRun(states, labels) && p < |labels| && ProbesNow(states[p], c, intent) && intent != Exclusive
    ensures k <= p && SaysProofRunning(states[k], c)
    ensures forall m :: k < m <= p ==> InPass(states[m], c, intent)
    ensures intent == Shared <==> k == p && CanLock(states[p], c, Budget, Shared)
    ensures intent == Free <==> k < p && AtIntent(states[k], c) && !CanLock(states[k], c, Intent, Shared)
    ensures CanLock(states[p], c, Budget, Shared) ==> NoLiveProof(states[p])
    ensures LiveProof(states[p]) ==> intent == Free && !CanLock(states[p], c, Budget, Shared)
  {
    PassHolds(states, labels, p, c);
    forall d ensures CanLock(states[p], c, Budget, Shared) ==> !LiveAs(states[p], d, ProofLease) {
      if CanLock(states[p], c, Budget, Shared) {
        SharedProbeMeansNoLiveProof(states, labels, p, c, d);
      }
    }
    k := p;
    if intent == Free {
      k := PassBegan(states, labels, p, c, intent);
      PassHolds(states, labels, k, c);
    }
  }

  lemma SampledAfter(states: seq<State>, labels: seq<Label>, i: nat, c: Client, p: nat) returns (q: nat)
    requires IsRun(states, labels) && p < i < |states| && c in states[i].procs && c in states[p].procs
    requires states[i].procs[c].pc == TasteFlush && states[p].procs[c].pc.ProbeBudget?
    ensures p < q < i && SamplesTaste(states[q], labels[q], c, states[i].procs[c].estimate)
  {
    q := TasteSampled(states, labels, i, c, states[i].procs[c].estimate);
    RunHolds(states, labels, p);
    assert ProcInv(states[p].procs[c]);
    assert !BoughtBy(states[p], c, states[i].procs[c].estimate);
  }

  // ----- reachable states -----

  ghost predicate Reachable(s: State) {
    exists states, labels :: IsRun(states, labels) && states[|states| - 1] == s
  }

  lemma ReachNext(s: State, c: Client, step: Step, t: State)
    requires Reachable(s) && Next(s, c, step, t)
    ensures Reachable(t)
  {
    var states, labels :| IsRun(states, labels) && states[|states| - 1] == s;
    var states', labels' := states + [t], labels + [Label(c, step)];
    forall i: nat | i < |labels'| ensures StepAt(states', labels', i) {
      if i < |labels| {
        assert StepAt(states, labels, i);
      }
    }
    assert IsRun(states', labels');
  }

  /** A state with these clients, no slot file and no group. */
  function Group(procs: map<Client, Proc>, taste: Content): State {
    State(procs, map[], taste, {}, 0)
  }

  const QUIET := Input(0, 100 * GIB, 100 * GIB, [], 0, Unreadable)

  predicate Movable(pc: PC) {
    PhaseOf(pc) != Allocation && PhaseOf(pc) != Claim && !pc.WriteSlot? && !pc.FlushSlot?
  }

  /** No other client is in the way of what this one attempts next. */
  predicate Unhindered(procs: map<Client, Proc>, c: Client)
    requires c in procs
  {
    var attempt := AttemptOf(procs[c]);
    attempt.Attempt? ==> forall d | d in procs && d != c :: Compatible(attempt.mode, Held(procs[d], attempt.lock))
  }

  /** One client's next statement. */
  lemma Move(procs: map<Client, Proc>, taste: Content, c: Client, q: Proc)
    requires Reachable(Group(procs, taste)) && c in procs && Movable(procs[c].pc)
    requires q == NextProc(procs[c], Unhindered(procs, c), Unreadable, QUIET)
    ensures Reachable(Group(procs[c := q], NextTaste(Group(procs, taste), procs[c], QUIET)))
  {
    var s := Group(procs, taste);
    assert Next(s, c, Continue(QUIET), Advance(s, c, QUIET));
    ReachNext(s, c, Continue(QUIET), Advance(s, c, QUIET));
    assert Advance(s, c, QUIET) == Group(procs[c := q], NextTaste(s, procs[c], QUIET));
  }

  /** A step that changes one client's record and nothing else. */
  lemma MoveTo(procs: map<Client, Proc>, taste: Content, c: Client, step: Step, q: Proc)
    requires Reachable(Group(procs, taste))
    requires Next(Group(procs, taste), c, step, Put(Group(procs, taste), c, q))
    ensures Reachable(Group(procs[c := q], taste))
  {
    ReachNext(Group(procs, taste), c, step, Put(Group(procs, taste), c, q));
  }

  const TASTER := Fresh(Worker, true, 1, TryPriority)

  lemma Arrivals(role: Role)
    requires role != Prober
    ensures Reachable(Group(map[0 := Fresh(role, false, 1, TryPriority), 1 := TASTER], Unreadable))
  {
    var s0 := State(map[], map[], Unreadable, {}, 0);
    assert IsRun([s0], []);
    assert Reachable(s0) by {
      assert [s0][|[s0]| - 1] == s0;
    }
    MoveTo(map[], Unreadable, 0, Arrive(role, false, 1), Fresh(role, false, 1, TryPriority));
    var procs: map<Client, Proc> := map[0 := Fresh(role, false, 1, TryPriority)];
    assert map[][0 := Fresh(role, false, 1, TryPriority)] == procs;
    MoveTo(procs, Unreadable, 1, Arrive(Worker, true, 1), TASTER);
    assert procs[1 := TASTER] == map[0 := Fresh(role, false, 1, TryPriority), 1 := TASTER];
  }

  // ----- a run of the taste lane -----

  /** The taster past its shared probe, with or without the intent lock. */
  function Tasting(intent: Mode, pc: PC): Proc {
    TASTER.(priority := Shared, intent := intent, pc := pc)
  }

  predicate LaneFree(procs: map<Client, Proc>) {
    forall d | d in procs && d != 1 :: !procs[d].taste
  }

  /** With the lane free, a taster that tries it is admitted, whoever else is there. */
  lemma TasterRuns(procs: map<Client, Proc>, intent: Mode)
    requires 1 in procs && procs[1] == Tasting(intent, TasteTry)
    requires LaneFree(procs) && Reachable(Group(procs, Unreadable))
    ensures Reachable(Group(procs[1 := Admitted(intent)], Number(1)))
  {
    var b1, b2 := Tasting(intent, TasteSample).(taste := true), Tasting(intent, TasteWrite).(taste := true);
    assert TasteNext(procs[1], true, QUIET) == b1 && TasteNext(b1, true, QUIET) == b2;
    Move(procs, Unreadable, 1, b1);
    Move(procs[1 := b1], Unreadable, 1, b2);
    assert procs[1 := b1][1 := b2] == procs[1 := b2];
    TasterWrites(procs[1 := b2], intent);
    assert procs[1 := b2][1 := Admitted(intent)] == procs[1 := Admitted(intent)];
  }

  function Admitted(intent: Mode): Proc {
    Tasting(intent, Running).(priority := Free, taste := true, lease := TasteLease)
  }

  lemma TasterWrites(procs: map<Client, Proc>, intent: Mode)
    requires 1 in procs && procs[1] == Tasting(intent, TasteWrite).(taste := true)
    requires Reachable(Group(procs, Unreadable))
    ensures Reachable(Group(procs[1 := Admitted(intent)], Number(1)))
  {
    var b1 := procs[1].(pc := TasteFlush);
    var b2 := b1.(lease := TasteLease, pc := UnlockPriority);
    assert TasteNext(procs[1], true, QUIET) == b1 && TasteNext(b1, true, QUIET) == b2;
    assert GrantNext(b2) == Admitted(intent);
    Move(procs, Unreadable, 1, b1);
    Move(procs[1 := b1], Unreadable, 1, b2);
    Move(procs[1 := b1][1 := b2], Number(1), 1, Admitted(intent));
    assert procs[1 := b1][1 := b2][1 := Admitted(intent)] == procs[1 := Admitted(intent)];
  }

  function With(a: Proc, b: Proc): map<Client, Proc> {
    map[0 := a, 1 := b]
  }

  lemma MoveFirst(a: Proc, b: Proc, q: Proc)
    requires Reachable(Group(With(a, b), Unreadable)) && Movable(a.pc) && !a.pc.TasteWrite? && !a.pc.TasteFlush?
    requires q == NextProc(a, Unhindered(With(a, b), 0), Unreadable, QUIET)
    ensures Reachable(Group(With(q, b), Unreadable))
  {
    Move(With(a, b), Unreadable, 0, q);
    assert With(a, b)[0 := q] == With(q, b);
  }

  lemma MoveTaster(a: Proc, b: Proc, q: Proc)
    requires Reachable(Group(With(a, b), Unreadable)) && Movable(b.pc) && !b.pc.TasteWrite? && !b.pc.TasteFlush?
    requires q == NextProc(b, Unhindered(With(a, b), 1), Unreadable, QUIET)
    ensures Reachable(Group(With(a, q), Unreadable))
  {
    Move(With(a, b), Unreadable, 1, q);
    assert With(a, b)[1 := q] == With(a, q);
  }

  lemma ChangeFirst(a: Proc, b: Proc, step: Step, q: Proc)
    requires Reachable(Group(With(a, b), Unreadable))
    requires step == End ==> q == Ended(a)
    requires step.Drop? ==> a.pc == Closing && a.holder == NoHolder && q == Unlocked(a, step.lock)
    requires step == End || step.Drop?
    ensures Reachable(Group(With(q, b), Unreadable))
  {
    MoveTo(With(a, b), Unreadable, 0, step, q);
    assert With(a, b)[0 := q] == With(q, b);
  }

  // ----- one: no proof anywhere, and intent in hand -----

  /**
   Two workers. One holds the allocation lock when the other tries it and has gone when the
   other probes: a taste run is admitted with the intent lock and no proof on the host.
   */
  lemma TasteRunWithoutProof() returns (s: State)
    ensures Reachable(s) && LiveAs(s, 1, TasteLease) && s.procs[1].pc == Running && s.procs[1].intent == Shared
    ensures forall c | c in s.procs :: s.procs[c].role == Worker
  {
    var a := AllocatorGone();
    ProbeSucceeds(a, Shared, false);
    TasterRuns(With(a, Tasting(Shared, TasteTry)), Shared);
    s := Group(With(a, Tasting(Shared, TasteTry))[1 := Admitted(Shared)], Number(1));
  }

  lemma AllocatorGone() returns (a: Proc)
    ensures a.role == Worker && a.budget == Free && !a.taste
    ensures Reachable(Group(With(a, Tasting(Shared, ProbeBudget(false))), Unreadable))
  {
    var a0 := AllocatorBlocksTaster();
    a := Unlocked(Ended(a0), Budget);
    ChangeFirst(a0, Tasting(Shared, ProbeBudget(false)), End, Ended(a0));
    ChangeFirst(Ended(a0), Tasting(Shared, ProbeBudget(false)), Drop(Budget), a);
  }

  lemma AllocatorBlocksTaster() returns (a: Proc)
    ensures a == Fresh(Worker, false, 1, SampleBudget).(priority := Shared, intent := Shared, budget := Exclusive)
    ensures Reachable(Group(With(a, Tasting(Shared, ProbeBudget(false))), Unreadable))
  {
    a := AllocatorReached();
    MoveTaster(a, TASTER, Tasting(Free, TryIntent));
    MoveTaster(a, Tasting(Free, TryIntent), Tasting(Shared, TryBudget));
    assert !Compatible(Exclusive, Held(With(a, Tasting(Shared, TryBudget))[0], Budget));
    MoveTaster(a, Tasting(Shared, TryBudget), Tasting(Shared, ProbeBudget(false)));
  }

  lemma AllocatorReached() returns (a: Proc)
    ensures a == Fresh(Worker, false, 1, SampleBudget).(priority := Shared, intent := Shared, budget := Exclusive)
    ensures Reachable(Group(With(a, TASTER), Unreadable))
  {
    var a0 := Fresh(Worker, false, 1, TryPriority);
    var a1 := a0.(priority := Shared, pc := TryIntent);
    var a2 := a1.(intent := Shared, pc := TryBudget);
    a := a2.(budget := Exclusive, pc := SampleBudget);
    Arrivals(Worker);
    MoveFirst(a0, TASTER, a1);
    MoveFirst(a1, TASTER, a2);
    MoveFirst(a2, TASTER, a);
  }

  lemma ProbeSucceeds(a: Proc, intent: Mode, proofRunning: bool)
    requires Reachable(Group(With(a, Tasting(intent, ProbeBudget(proofRunning))), Unreadable)) && a.budget == Free
    ensures Reachable(Group(With(a, Tasting(intent, TasteTry)), Unreadable))
  {
    var probing := Tasting(intent, ProbeBudget(proofRunning));
    var unlock := Tasting(intent, ProbeUnlock).(budget := Shared);
    assert TasteNext(probing, true, QUIET) == unlock && TasteNext(unlock, true, QUIET) == Tasting(intent, TasteTry);
    MoveTaster(a, probing, unlock);
    MoveTaster(a, unlock, Tasting(intent, TasteTry));
  }

  // ----- two: refused by a proof that was never admitted -----

  /** A proof that took priority and intent and has ended, its intent file still open. */
  function Leftover(): Proc {
    Fresh(Proof, false, 1, Closing).(intent := Exclusive)
  }

  /** A proof with both gates that is about to try the budget lock. */
  function AtBudget(): Proc {
    Fresh(Proof, false, 1, TryBudget).(priority := Exclusive, intent := Exclusive)
  }

  lemma AtBudgetReached()
    ensures Reachable(Group(With(AtBudget(), TASTER), Unreadable))
  {
    var a0 := Fresh(Proof, false, 1, TryPriority);
    var a1 := a0.(priority := Exclusive, pc := TryIntent);
    Arrivals(Proof);
    MoveFirst(a0, TASTER, a1);
    MoveFirst(a1, TASTER, AtBudget());
  }

  lemma LeftoverReached()
    ensures Reachable(Group(With(Leftover(), TASTER), Unreadable))
  {
    AtBudgetReached();
    ChangeFirst(AtBudget(), TASTER, End, Ended(AtBudget()));
    ChangeFirst(Ended(AtBudget()), TASTER, Drop(Priority), Leftover());
  }

  /** A worker refused intent by a client whose record is `a`. */
  lemma TasterRefused(a: Proc)
    requires Reachable(Group(With(a, TASTER), Unreadable)) && a.priority == Free && a.intent == Exclusive
    ensures Reachable(Group(With(a, Tasting(Free, TryIntent)), Unreadable))
    ensures SaysProofRunning(Group(With(a, Tasting(Free, TryIntent)), Unreadable), 1)
    ensures Reachable(Group(With(a, Tasting(Free, ProbeBudget(true))), Unreadable))
  {
    MoveTaster(a, TASTER, Tasting(Free, TryIntent));
    assert !Compatible(Shared, Held(With(a, Tasting(Free, TryIntent))[0], Intent));
    MoveTaster(a, Tasting(Free, TryIntent), Tasting(Free, ProbeBudget(true)));
  }

  /** "Proof running" from a refused intent lock, and nobody on the host was ever admitted. */
  lemma RefusedWithoutProof() returns (s: State)
    ensures Reachable(s) && AtIntent(s, 1) && SaysProofRunning(s, 1)
    ensures forall c | c in s.procs :: s.procs[c].lease == NoLease
  {
    LeftoverReached();
    TasterRefused(Leftover());
    s := Group(With(Leftover(), Tasting(Free, TryIntent)), Unreadable);
  }

  /** The probe then succeeds: a taste run without the intent lock, and no proof was ever admitted. */
  lemma TasteRunAfterLeftover() returns (s: State)
    ensures Reachable(s) && LiveAs(s, 1, TasteLease) && s.procs[1].pc == Running && s.procs[1].intent == Free
    ensures NeverProof(s)
  {
    LeftoverReached();
    TasterRefused(Leftover());
    ProbeSucceeds(Leftover(), Free, true);
    TasterRuns(With(Leftover(), Tasting(Free, TasteTry)), Free);
    s := Group(With(Leftover(), Tasting(Free, TasteTry))[1 := Admitted(Free)], Number(1));
  }

  // ----- three: refused, the probe fails, and still no proof was ever admitted -----

  /** Beside the leftover proof a prober holds the budget lock while the worker probes. */
  lemma FailedProbeWithoutProof() returns (s: State, t: State)
    ensures Reachable(s) && ProbesNow(s, 1, Free) && !CanLock(s, 1, Budget, Shared) && NeverProof(s)
    ensures Reachable(t) && LiveAs(t, 1, TasteLease) && t.procs[1].intent == Free && NeverProof(t)
  {
    var three := Three(Tasting(Free, ProbeBudget(true)));
    ProberArrives();
    s := Group(three, Unreadable);
    assert !Compatible(Shared, Held(three[2], Budget));
    ProbeFails();
    var tried := Three(Tasting(Free, TasteTry));
    TasterRuns(tried, Free);
    t := Group(tried[1 := Admitted(Free)], Number(1));
  }

  function Three(b: Proc): map<Client, Proc> {
    map[0 := Leftover(), 1 := b, 2 := ProberHolding(Budget)]
  }

  lemma ProberArrives()
    ensures Reachable(Group(Three(Tasting(Free, ProbeBudget(true))), Unreadable))
  {
    LeftoverReached();
    TasterRefused(Leftover());
    var two := With(Leftover(), Tasting(Free, ProbeBudget(true)));
    MoveTo(two, Unreadable, 2, Probe(Budget), ProberHolding(Budget));
    assert two[2 := ProberHolding(Budget)] == Three(Tasting(Free, ProbeBudget(true)));
  }

  lemma ProbeFails()
    requires Reachable(Group(Three(Tasting(Free, ProbeBudget(true))), Unreadable))
    ensures Reachable(Group(Three(Tasting(Free, TasteTry)), Unreadable))
  {
    var three := Three(Tasting(Free, ProbeBudget(true)));
    assert !Compatible(Shared, Held(three[2], Budget));
    assert TasteNext(three[1], false, QUIET) == Tasting(Free, TasteTry);
    Move(three, Unreadable, 1, Tasting(Free, TasteTry));
    assert three[1 := Tasting(Free, TasteTry)] == Three(Tasting(Free, TasteTry));
  }

  // ----- four: the case the lane is for -----

  /** Refused intent and a failed probe beside a live proof: the taste run starts and the proof stays. */
  lemma TasteRunBesideProof() returns (s: State, t: State)
    ensures Reachable(s) && ProbesNow(s, 1, Free) && !CanLock(s, 1, Budget, Shared) && LiveAs(s, 0, ProofLease)
    ensures Reachable(t) && LiveAs(t, 1, TasteLease) && t.procs[1].intent == Free && LiveAs(t, 0, ProofLease)
  {
    var a := ProofReached();
    TasterRefused(a);
    var two := With(a, Tasting(Free, ProbeBudget(true)));
    s := Group(two, Unreadable);
    assert !Compatible(Shared, Held(two[0], Budget));
    assert TasteNext(two[1], false, QUIET) == Tasting(Free, TasteTry);
    MoveTaster(a, two[1], Tasting(Free, TasteTry));
    TasterRuns(With(a, Tasting(Free, TasteTry)), Free);
    t := Group(With(a, Tasting(Free, TasteTry))[1 := Admitted(Free)], Number(1));
  }

  lemma ProofReached() returns (a: Proc)
    ensures Reachable(Group(With(a, TASTER), Unreadable))
    ensures a.priority == Free && a.intent == a.budget == Exclusive && !a.taste && Live(a) && a.lease == ProofLease
  {
    var a0 := AtBudget().(budget := Exclusive, lease := ProofLease, pc := UnlockPriority);
    a := a0.(priority := Free, pc := Running);
    AtBudgetReached();
    MoveFirst(AtBudget(), TASTER, a0);
    MoveFirst(a0, TASTER, a);
  }
}
