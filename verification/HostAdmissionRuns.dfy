/** What host memory admission guarantees over every run, with owners killed at any step. */
module HostAdmissionRuns {
  import opened HostAdmission
  import opened HostAdmissionSafety
  import LeaseHolder

  datatype Label = Label(client: Client, step: Step)

  ghost predicate IsRun(states: seq<State>, labels: seq<Label>) {
    && |states| == |labels| + 1
    && Init(states[0])
    && forall i: nat :: i < |labels| ==> StepAt(states, labels, i)
  }

  ghost predicate StepAt(states: seq<State>, labels: seq<Label>, i: nat)
    requires |states| == |labels| + 1 && i < |labels|
  {
    Next(states[i], labels[i].client, labels[i].step, states[i + 1])
  }

  lemma InitHolds(s: State)
    requires Init(s)
    ensures Inv(s)
  {
    assert LiveWeights(s.procs, []).Keys == {};
  }

  lemma {:induction false} RunHolds(states: seq<State>, labels: seq<Label>, i: nat)
    requires IsRun(states, labels) && i < |states|
    ensures Inv(states[i])
  {
    if i == 0 {
      InitHolds(states[0]);
    } else {
      RunHolds(states, labels, i - 1);
      assert StepAt(states, labels, i - 1);
      NextKeeps(states[i - 1], labels[i - 1].client, labels[i - 1].step, states[i]);
    }
  }

  // ----- exclusion -----

  predicate LiveAs(s: State, c: Client, lease: Lease) {
    c in s.procs && Live(s.procs[c]) && s.procs[c].lease == lease
  }

  lemma ExclusionInState(s: State, c: Client, d: Client)
    requires Inv(s) && c != d
    ensures !(LiveAs(s, c, ProofLease) && LiveAs(s, d, ProofLease))
    ensures !(LiveAs(s, c, ProofLease) && LiveAs(s, d, SlotLease))
    ensures !(LiveAs(s, c, TasteLease) && LiveAs(s, d, TasteLease))
  {
    if c in s.procs && d in s.procs {
      assert ProcInv(s.procs[c]) && ProcInv(s.procs[d]);
      assert Compatible(Held(s.procs[c], Intent), Held(s.procs[d], Intent));
      assert Compatible(Held(s.procs[c], TasteFile), Held(s.procs[d], TasteFile));
      LocksExclude(s.procs[c], s.procs[d]);
    }
  }

  lemma LocksExclude(p: Proc, q: Proc)
    requires LeaseInv(p) && LeaseInv(q)
    requires Compatible(Held(p, Intent), Held(q, Intent)) && Compatible(Held(p, TasteFile), Held(q, TasteFile))
    ensures !(Live(p) && Live(q) && p.lease == ProofLease && (q.lease == ProofLease || q.lease == SlotLease))
    ensures !(Live(p) && Live(q) && p.lease == TasteLease && q.lease == TasteLease)
  {
  }

  /** At most one proof, no proof beside a slot worker, at most one taste run: in every run. */
  lemma LeasesExclude(states: seq<State>, labels: seq<Label>, i: nat, c: Client, d: Client)
    requires IsRun(states, labels) && i < |states| && c != d
    ensures !(LiveAs(states[i], c, ProofLease) && LiveAs(states[i], d, ProofLease))
    ensures !(LiveAs(states[i], c, ProofLease) && LiveAs(states[i], d, SlotLease))
    ensures !(LiveAs(states[i], c, TasteLease) && LiveAs(states[i], d, TasteLease))
  {
    RunHolds(states, labels, i);
    ExclusionInState(states[i], c, d);
  }

  // ----- the budget -----

  /** The step admits a worker to a slot: it publishes the weight it judged to fit. */
  predicate AdmitsSlot(s: State, l: Label) {
    l.step.Continue? && l.client in s.procs && s.procs[l.client].pc.FlushSlot?
  }

  lemma AdmissionSamples(s: State, c: Client, step: Step, t: State)
    requires Next(s, c, step, t)
    ensures t.lastBudget ==
            if step.Continue? && c in s.procs && s.procs[c].pc.FlushSlot? then s.procs[c].pc.sampled else s.lastBudget
  {
  }

  /** In every state with a live slot lease: live weights plus headroom fit the latest sample. */
  lemma {:induction false} LiveWeightsFitLatestSample(states: seq<State>, labels: seq<Label>, i: nat) returns (j: nat)
    requires IsRun(states, labels) && i < |states|
    requires LiveWeights(states[i].procs, []) != map[]
    ensures j < i && AdmitsSlot(states[j], labels[j])
    ensures forall k :: j < k < i ==> !AdmitsSlot(states[k], labels[k])
    ensures LiveSum(states[i]) + HEADROOM_BYTES <= states[j].procs[labels[j].client].pc.sampled
  {
    RunHolds(states, labels, i);
    j := LatestAdmission(states, labels, i);
  }

  lemma {:induction false} LatestAdmission(states: seq<State>, labels: seq<Label>, i: nat) returns (j: nat)
    requires IsRun(states, labels) && i < |states|
    requires LiveWeights(states[i].procs, []) != map[]
    ensures j < i && AdmitsSlot(states[j], labels[j])
    ensures forall k :: j < k < i ==> !AdmitsSlot(states[k], labels[k])
    ensures states[i].lastBudget == states[j].procs[labels[j].client].pc.sampled
  {
    if i == 0 {
      assert false;
    } else {
      SampleStep(states, labels, i - 1);
      if AdmitsSlot(states[i - 1], labels[i - 1]) {
        j := i - 1;
      } else {
        j := LatestAdmission(states, labels, i - 1);
      }
    }
  }

  lemma SampleStep(states: seq<State>, labels: seq<Label>, i: nat)
    requires IsRun(states, labels) && i < |labels|
    ensures AdmitsSlot(states[i], labels[i]) ==>
      states[i + 1].lastBudget == states[i].procs[labels[i].client].pc.sampled
    ensures !AdmitsSlot(states[i], labels[i]) ==> states[i + 1].lastBudget == states[i].lastBudget
    ensures !AdmitsSlot(states[i], labels[i]) && LiveWeights(states[i + 1].procs, []) != map[] ==>
      LiveWeights(states[i].procs, []) != map[]
  {
    assert StepAt(states, labels, i);
    AdmissionSamples(states[i], labels[i].client, labels[i].step, states[i + 1]);
    RunHolds(states, labels, i);
    if !AdmitsSlot(states[i], labels[i]) && LiveWeights(states[i + 1].procs, []) != map[] {
      NothingFromNothing(states[i], labels[i].client, labels[i].step, states[i + 1]);
    }
  }

  lemma OthersKeep(s: State, c: Client, step: Step, t: State, d: Client)
    requires Next(s, c, step, t) && d != c
    ensures d in t.procs <==> d in s.procs
    ensures d in t.procs ==> t.procs[d] == s.procs[d]
  {
  }

  lemma ArrivalHasNoLease(s: State, c: Client, step: Step, t: State)
    requires Next(s, c, step, t) && c !in s.procs && c in t.procs
    ensures t.procs[c].lease == NoLease
  {
  }

  lemma OwnStepGrants(s: State, c: Client, step: Step, t: State)
    requires Inv(s) && Next(s, c, step, t) && c in s.procs && !step.GroupsChange?
    requires !(step.Continue? && (s.procs[c].pc.FlushSlot? || s.procs[c].pc.TasteFlush?))
    ensures c in t.procs && (KeepsGrant(s.procs[c], t.procs[c]) || !Live(t.procs[c]))
  {
    assert ProcInv(s.procs[c]);
    if step.Continue? {
      NextProcInv(s.procs[c], Succeeds(s, c, AttemptOf(s.procs[c])), Shown(s, s.procs[c]), step.input);
    } else {
      OwnOtherGrants(s, c, step, t);
    }
  }

  lemma OwnOtherGrants(s: State, c: Client, step: Step, t: State)
    requires Next(s, c, step, t) && c in s.procs && ProcInv(s.procs[c]) && !step.GroupsChange? && !step.Continue?
    ensures c in t.procs && (KeepsGrant(s.procs[c], t.procs[c]) || !Live(t.procs[c]))
  {
    if step.Drop? {
      DropProc(s.procs[c], step.lock);
    } else {
      HolderStep(s, c, step, t);
      HolderProc(s.procs[c], t.procs[c]);
    }
  }

  lemma FlushGrants(s: State, c: Client, x: Input)
    requires c in s.procs
    ensures s.procs[c].pc.FlushSlot? ==> Advance(s, c, x).procs[c].lease == SlotLease
    ensures s.procs[c].pc.TasteFlush? ==> Advance(s, c, x).procs[c].lease == TasteLease
  {
  }

  /** Leases only appear in the statements that grant them. */
  lemma GrantOnlyWhereGranted(s: State, c: Client, step: Step, t: State, d: Client)
    requires Inv(s) && Next(s, c, step, t) && d in t.procs && Live(t.procs[d])
    requires t.procs[d].lease == SlotLease || t.procs[d].lease == TasteLease
    ensures || LiveAs(s, d, t.procs[d].lease)
            || (d == c && d in s.procs && step.Continue? && s.procs[c].pc.FlushSlot? && t.procs[d].lease == SlotLease)
            || (d == c && d in s.procs && step.Continue? && s.procs[c].pc.TasteFlush? && t.procs[d].lease == TasteLease)
  {
    if d != c {
      OthersKeep(s, c, step, t, d);
    } else if c !in s.procs {
      ArrivalHasNoLease(s, c, step, t);
    } else if step.Continue? && (s.procs[c].pc.FlushSlot? || s.procs[c].pc.TasteFlush?) {
      FlushGrants(s, c, step.input);
    } else if !step.GroupsChange? {
      OwnStepGrants(s, c, step, t);
    }
  }

  lemma NothingFromNothing(s: State, c: Client, step: Step, t: State)
    requires Inv(s) && Next(s, c, step, t) && LiveWeights(t.procs, []) != map[]
    requires !(step.Continue? && c in s.procs && s.procs[c].pc.FlushSlot?)
    ensures LiveWeights(s.procs, []) != map[]
  {
    var d :| d in LiveWeights(t.procs, []);
    GrantOnlyWhereGranted(s, c, step, t, d);
    assert ProcInv(s.procs[d]);
    assert d in LiveWeights(s.procs, []);
  }

  /** The count taken under the budget mutex never falls below the live reservations. */
  lemma CountCoversLive(states: seq<State>, labels: seq<Label>, i: nat, c: Client)
    requires IsRun(states, labels) && i < |states| && c in states[i].procs && states[i].procs[c].pc.Judge?
    ensures LiveSum(states[i]) <= states[i].procs[c].pc.reserved
  {
    RunHolds(states, labels, i);
    assert CountInv(states[i], states[i].procs[c]);
  }

  // ----- a waiting proof keeps newcomers out -----

  predicate ProofWaits(s: State, w: Client) {
    w in s.procs && s.procs[w].role == Proof && s.procs[w].priority == Exclusive && s.procs[w].lease == NoLease
  }

  lemma NobodyAdmittedBesideWaiter(s: State, c: Client, step: Step, t: State, w: Client, d: Client)
    requires Inv(s) && Next(s, c, step, t) && ProofWaits(s, w)
    requires LiveAs(t, d, SlotLease) || LiveAs(t, d, TasteLease)
    ensures LiveAs(s, d, t.procs[d].lease)
  {
    GrantOnlyWhereGranted(s, c, step, t, d);
    if d in s.procs {
      assert ProcInv(s.procs[d]) && ProcInv(s.procs[w]);
      assert d == w || Compatible(Held(s.procs[w], Priority), Held(s.procs[d], Priority));
    }
  }

  /** While a proof waits with priority, the live slot and taste leases only shrink. */
  lemma {:induction false} WaitingProofDrains(states: seq<State>, labels: seq<Label>, i: nat, j: nat, w: Client,
                                              d: Client)
    requires IsRun(states, labels) && i <= j < |states|
    requires forall k :: i <= k < j ==> ProofWaits(states[k], w)
    requires LiveAs(states[j], d, SlotLease) || LiveAs(states[j], d, TasteLease)
    ensures LiveAs(states[i], d, states[j].procs[d].lease)
    decreases j
  {
    if i < j {
      DrainStep(states, labels, j - 1, w, d, states[j].procs[d].lease);
      WaitingProofDrains(states, labels, i, j - 1, w, d);
    }
  }

  lemma DrainStep(states: seq<State>, labels: seq<Label>, k: nat, w: Client, d: Client, lease: Lease)
    requires IsRun(states, labels) && k < |labels| && ProofWaits(states[k], w)
    requires (lease == SlotLease || lease == TasteLease) && LiveAs(states[k + 1], d, lease)
    ensures LiveAs(states[k], d, lease)
  {
    RunHolds(states, labels, k);
    assert StepAt(states, labels, k);
    NobodyAdmittedBesideWaiter(states[k], labels[k].client, labels[k].step, states[k + 1], w, d);
  }

  // ----- a killed owner's lease -----

  /** The owner has ended without releasing, and a tracked group `g` still runs. */
  predicate Orphaned(s: State, c: Client, g: nat) {
    && c in s.procs && s.procs[c].pc == Closing && s.procs[c].holder.Holder?
    && !s.procs[c].holder.released && g in s.procs[c].holder.tracked && g in s.alive
  }

  lemma HolderStays(h: Holder, g: nat, alive: set<int>)
    requires h.Holder? && !h.released && g in h.tracked && g in alive
    ensures !HolderLeaves(h, alive)
  {
    LeaseHolder.ScanOwnerStream({}, h.tracked, false);
    assert g in {} + LeaseHolder.GroupSet(h.tracked);
  }

  lemma OrphanStep(s: State, c: Client, step: Step, t: State, d: Client, g: nat)
    requires Next(s, c, step, t) && Orphaned(s, d, g) && g in t.alive
    requires !(step.HolderKilled? && c == d)
    ensures Orphaned(t, d, g) && t.procs[d].lease == s.procs[d].lease
  {
    if c == d && step.HolderExits? {
      HolderStays(s.procs[d].holder, g, s.alive);
    }
  }

  /**
   A killed owner's lease stays live, and so keeps excluding conflicting leases, for as long
   as a tracked group lives and nobody kills the holder.
   */
  lemma {:induction false} OrphanBlocks(states: seq<State>, labels: seq<Label>, i: nat, j: nat, c: Client, g: nat,
                                        d: Client)
    requires IsRun(states, labels) && i <= j < |states| && Orphaned(states[i], c, g) && d != c
    requires forall k :: i <= k <= j ==> g in states[k].alive
    requires forall k :: i <= k < j ==> !(labels[k].step.HolderKilled? && labels[k].client == c)
    ensures Orphaned(states[j], c, g) && LiveAs(states[j], c, states[i].procs[c].lease)
    ensures states[i].procs[c].lease == ProofLease ==>
      !LiveAs(states[j], d, ProofLease) && !LiveAs(states[j], d, SlotLease)
    ensures states[i].procs[c].lease == SlotLease ==> !LiveAs(states[j], d, ProofLease)
    ensures states[i].procs[c].lease == TasteLease ==> !LiveAs(states[j], d, TasteLease)
    decreases j
  {
    if i < j {
      OrphanBlocks(states, labels, i, j - 1, c, g, d);
      assert StepAt(states, labels, j - 1);
      OrphanStep(states[j - 1], labels[j - 1].client, labels[j - 1].step, states[j], c, g);
    }
    RunHolds(states, labels, j);
    assert ProcInv(states[j].procs[c]);
    ExclusionInState(states[j], c, d);
    ExclusionInState(states[j], d, c);
  }

  // ----- the taste lane -----

  predicate TasteHeld(s: State) {
    exists c :: c in s.procs && s.procs[c].taste
  }

  /** `taste_lane_bytes` (scripts/host_memory.py:177-197). */
  function TasteLaneBytes(s: State): (bytes: nat)
    ensures bytes == 0 <==> forall c | c in s.procs :: !s.procs[c].taste
    ensures bytes <= 4 * 0x4000_0000
  {
    if !TasteHeld(s) then 0
    else if s.taste.Number? && 0 < s.taste.bytes <= TASTE_LANE_MAX_BYTES then s.taste.bytes
    else TASTE_LANE_MAX_BYTES
  }

  /** A proof that samples the lane sees exactly the estimate of the admitted taste run. */
  lemma TasteLaneShowsEstimate(states: seq<State>, labels: seq<Label>, i: nat, c: Client)
    requires IsRun(states, labels) && i < |states| && LiveAs(states[i], c, TasteLease)
    ensures TasteLaneBytes(states[i]) == states[i].procs[c].estimate <= TASTE_LANE_MAX_BYTES
  {
    RunHolds(states, labels, i);
    assert ProcInv(states[i].procs[c]) && FileInv(states[i], states[i].procs[c]);
  }
}
