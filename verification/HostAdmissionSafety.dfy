/** Every step keeps the admission invariant, and what that means over whole runs. */
module HostAdmissionSafety {
  import opened Wrappers
  import opened HostAdmission

  // ----- steps that change only the client's own record -----

  predicate Counting(pc: PC) {
    pc.Count? || pc.Create? || pc.LockNew? || pc.Judge? || pc.WriteSlot? || pc.FlushSlot?
  }

  /** No slot or taste lease appears or changes. */
  predicate KeepsGrant(p: Proc, q: Proc) {
    (q.lease == SlotLease || q.lease == TasteLease) ==>
      && q.lease == p.lease && q.estimate == p.estimate && (Live(q) ==> Live(p))
      && (q.lease == SlotLease ==> q.slot == p.slot)
  }

  lemma GateProc(p: Proc, locked: bool)
    requires ProcInv(p) && PhaseOf(p.pc) == Gates
    ensures ProcInv(GateNext(p, locked))
  {
    GateRole(p, locked);
    GateLease(p, locked);
    GatePc(p, locked);
  }

  lemma GateRole(p: Proc, locked: bool)
    requires ProcInv(p) && PhaseOf(p.pc) == Gates
    ensures RoleInv(GateNext(p, locked)) && GateNext(p, locked).estimate > 0
  {
  }

  lemma GateLease(p: Proc, locked: bool)
    requires ProcInv(p) && PhaseOf(p.pc) == Gates
    ensures LeaseInv(GateNext(p, locked))
  {
  }

  lemma GatePc(p: Proc, locked: bool)
    requires ProcInv(p) && PhaseOf(p.pc) == Gates
    ensures PcInv(GateNext(p, locked))
  {
  }

  lemma GateGrants(p: Proc, locked: bool)
    requires LeaseInv(p) && PhaseOf(p.pc) == Gates
    ensures KeepsGrant(p, GateNext(p, locked)) && !Counting(GateNext(p, locked).pc)
  {
  }

  lemma AllocateProc(p: Proc, locked: bool, shown: Content, x: Input)
    requires ProcInv(p) && PhaseOf(p.pc) == Allocation
    ensures ProcInv(AllocateNext(p, locked, shown, x)) && KeepsGrant(p, AllocateNext(p, locked, shown, x))
  {
    var q := AllocateNext(p, locked, shown, x);
    assert p.role == Worker && p.lease == NoLease;
    AllocateChanges(p, locked, shown, x);
  }

  /** Counting changes the program counter and may fill the slot. */
  lemma AllocateChanges(p: Proc, locked: bool, shown: Content, x: Input)
    requires PhaseOf(p.pc) == Allocation
    ensures var q := AllocateNext(p, locked, shown, x);
      && q == p.(pc := q.pc, slot := q.slot)
      && (q.pc.Count? || q.pc.Judge? || q.pc.Create? || q.pc.Closing?) && (q.pc.Judge? ==> q.slot.Some?)
  {
  }

  lemma ClaimProc(p: Proc, locked: bool, x: Input)
    requires ProcInv(p) && PhaseOf(p.pc) == Claim
    ensures ProcInv(ClaimNext(p, locked, x)) && KeepsGrant(p, ClaimNext(p, locked, x))
  {
  }

  lemma GrantProc(p: Proc)
    requires ProcInv(p) && PhaseOf(p.pc) == Grant
    ensures ProcInv(GrantNext(p))
    ensures p.pc.FlushSlot? || KeepsGrant(p, GrantNext(p))
    ensures p.pc.WriteSlot? || !Counting(GrantNext(p).pc)
  {
  }

  lemma TasteProc(p: Proc, locked: bool, x: Input)
    requires ProcInv(p) && PhaseOf(p.pc) == Taste
    ensures ProcInv(TasteNext(p, locked, x)) && !Counting(TasteNext(p, locked, x).pc)
    ensures p.pc.TasteFlush? || KeepsGrant(p, TasteNext(p, locked, x))
  {
    TasteRole(p, locked, x);
    TasteRest(p, locked, x);
  }

  lemma TasteRole(p: Proc, locked: bool, x: Input)
    requires ProcInv(p) && PhaseOf(p.pc) == Taste
    ensures RoleInv(TasteNext(p, locked, x)) && TasteNext(p, locked, x).estimate > 0
  {
  }

  lemma TasteRest(p: Proc, locked: bool, x: Input)
    requires ProcInv(p) && PhaseOf(p.pc) == Taste
    ensures LeaseInv(TasteNext(p, locked, x)) && PcInv(TasteNext(p, locked, x)) && !Counting(TasteNext(p, locked, x).pc)
    ensures p.pc.TasteFlush? || KeepsGrant(p, TasteNext(p, locked, x))
  {
  }

  lemma WaitProc(p: Proc)
    requires ProcInv(p) && PhaseOf(p.pc) == Wait
    ensures ProcInv(WaitNext(p)) && KeepsGrant(p, WaitNext(p)) && !Counting(WaitNext(p).pc)
  {
  }

  lemma NextProcInv(p: Proc, locked: bool, shown: Content, x: Input)
    requires ProcInv(p)
    ensures ProcInv(NextProc(p, locked, shown, x))
    ensures p.pc.FlushSlot? || p.pc.TasteFlush? || KeepsGrant(p, NextProc(p, locked, shown, x))
    ensures p.pc.WriteSlot? || PhaseOf(p.pc) == Allocation || PhaseOf(p.pc) == Claim
      || !Counting(NextProc(p, locked, shown, x).pc)
  {
    match PhaseOf(p.pc)
    case Gates => GateProc(p, locked); GateGrants(p, locked);
    case Allocation => AllocateProc(p, locked, shown, x);
    case Claim => ClaimProc(p, locked, x);
    case Grant => GrantProc(p);
    case Taste => TasteProc(p, locked, x);
    case Wait => WaitProc(p);
  }

  /** A statement holds no lock but those it had and the one it just took. */
  lemma NextHeld(p: Proc, locked: bool, shown: Content, x: Input, l: Lock)
    ensures var held := Held(NextProc(p, locked, shown, x), l);
            || held == Free || held == Held(p, l)
            || (locked && AttemptOf(p) == Attempt(l, held))
  {
    match PhaseOf(p.pc)
    case Gates => GateHeld(p, locked, l);
    case Taste => TasteHeld(p, locked, x, l);
    case Allocation => AllocateHeld(p, locked, shown, x, l);
    case _ =>
  }

  lemma GateHeld(p: Proc, locked: bool, l: Lock)
    requires PhaseOf(p.pc) == Gates
    ensures var held := Held(GateNext(p, locked), l);
            held == Free || held == Held(p, l) || (locked && AttemptOf(p) == Attempt(l, held))
  {
  }

  lemma TasteHeld(p: Proc, locked: bool, x: Input, l: Lock)
    requires PhaseOf(p.pc) == Taste
    ensures var held := Held(TasteNext(p, locked, x), l);
            held == Free || held == Held(p, l) || (locked && AttemptOf(p) == Attempt(l, held))
  {
  }

  lemma AllocateHeld(p: Proc, locked: bool, shown: Content, x: Input, l: Lock)
    requires PhaseOf(p.pc) == Allocation
    ensures var held := Held(AllocateNext(p, locked, shown, x), l);
            held == Free || held == Held(p, l) || (locked && AttemptOf(p) == Attempt(l, held))
  {
  }

  lemma NextJustified(s: State, c: Client, x: Input)
    requires c in s.procs
    ensures Justified(s, c, Moved(s, c, x))
  {
    var p := s.procs[c];
    var locked := Succeeds(s, c, AttemptOf(p));
    forall l
      ensures var held := Held(Moved(s, c, x), l); held == Free || held == Held(p, l) || CanLock(s, c, l, held)
    {
      NextHeld(p, locked, Shown(s, p), x, l);
    }
  }

  /** The budget mutex: no other client is allocating while `c` is. */
  lemma OneAllocator(s: State, c: Client, d: Client)
    requires Inv(s) && c in s.procs && d in s.procs && c != d
    requires Allocating(s.procs[c].pc)
    ensures !Allocating(s.procs[d].pc)
  {
    assert Compatible(Held(s.procs[c], Budget), Held(s.procs[d], Budget));
  }

  /** A slot that can be locked carries no live reservation. */
  lemma CountFree(s: State, c: Client, todo: seq<nat>)
    requires Inv(s) && c in s.procs && s.procs[c].lease == NoLease && todo != []
    requires CanLock(s, c, SlotFile(todo[0]), Exclusive)
    ensures LiveWeights(s.procs, todo[1..]) == LiveWeights(s.procs, todo)
  {
    var a, b := LiveWeights(s.procs, todo[1..]), LiveWeights(s.procs, todo);
    forall d | d in s.procs && SlotLive(s.procs[d]) ensures s.procs[d].slot.value != todo[0] {
      assert d != c;
      assert Compatible(Exclusive, Held(s.procs[d], SlotFile(todo[0])));
    }
    assert a.Keys == b.Keys;
  }

  /** A busy slot's number covers the one live reservation it can carry. */
  lemma CountBusy(s: State, todo: seq<nat>)
    requires Inv(s) && todo != [] && todo[0] in s.slots && s.slots[todo[0]].Number? && s.slots[todo[0]].bytes > 0
    ensures Sum(LiveWeights(s.procs, todo[1..])) <= Sum(LiveWeights(s.procs, todo)) + s.slots[todo[0]].bytes
  {
    var a, b := LiveWeights(s.procs, todo[1..]), LiveWeights(s.procs, todo);
    if d :| d in a && d !in b {
      assert s.procs[d].slot == Some(todo[0]) && FileInv(s, s.procs[d]);
      OnlyOneHolds(s, d, todo);
      SumPick(a, d);
      SumSubmap(a - {d}, b);
    } else {
      SumSubmap(a, b);
    }
  }

  lemma OnlyOneHolds(s: State, d: Client, todo: seq<nat>)
    requires Excluding(s) && todo != [] && d in s.procs && s.procs[d].slot == Some(todo[0])
    ensures forall k | k in LiveWeights(s.procs, todo[1..]) && k != d ::
              k in LiveWeights(s.procs, todo) && LiveWeights(s.procs, todo[1..])[k] == LiveWeights(s.procs, todo)[k]
  {
    forall k | k in LiveWeights(s.procs, todo[1..]) && k != d ensures s.procs[k].slot.value !in todo {
      assert Compatible(Held(s.procs[d], SlotFile(todo[0])), Held(s.procs[k], SlotFile(todo[0])));
    }
  }

  /** At the start of a count every live reservation is still to be probed. */
  lemma CountStart(s: State, order: seq<nat>)
    requires Inv(s) && forall i :: i in s.slots ==> i in order
    ensures LiveWeights(s.procs, order) == map[]
  {
    forall d | d in s.procs && SlotLive(s.procs[d]) ensures s.procs[d].slot.value in order {
      assert FileInv(s, s.procs[d]);
    }
    assert LiveWeights(s.procs, order).Keys == {};
  }

  lemma CountStep(s: State, c: Client, x: Input)
    requires Inv(s) && c in s.procs && s.procs[c].pc.Count? && s.procs[c].pc.todo != []
    ensures CountInv(s, CountNext(s.procs[c], Succeeds(s, c, AttemptOf(s.procs[c])), Shown(s, s.procs[c])))
  {
    var p := s.procs[c];
    var todo := p.pc.todo;
    assert CountInv(s, p);
    assert ProcInv(p);
    if Succeeds(s, c, AttemptOf(p)) {
      CountFree(s, c, todo);
    } else if Shown(s, p).Number? && Shown(s, p).bytes > 0 {
      CountBusy(s, todo);
    }
  }

  lemma AllocateCounts(s: State, c: Client, x: Input)
    requires Inv(s) && c in s.procs && InputFits(s, x) && PhaseOf(s.procs[c].pc) == Allocation
    ensures CountInv(s, Moved(s, c, x))
  {
    var p := s.procs[c];
    assert CountInv(s, p);
    if p.pc.Count? {
      if p.pc.todo == [] {
        assert LiveWeights(s.procs, p.pc.todo) == LiveWeights(s.procs, []);
      } else {
        CountStep(s, c, x);
      }
    } else {
      CountStart(s, x.order);
    }
  }

  lemma ClaimCounts(s: State, p: Proc, locked: bool, x: Input)
    requires CountInv(s, p) && PhaseOf(p.pc) == Claim
    ensures CountInv(s, ClaimNext(p, locked, x))
  {
  }

  lemma NextCounts(s: State, c: Client, x: Input)
    requires Inv(s) && c in s.procs && InputFits(s, x)
    ensures CountInv(s, Moved(s, c, x))
  {
    var p := s.procs[c];
    assert ProcInv(p) && CountInv(s, p);
    var locked, shown := Succeeds(s, c, AttemptOf(p)), Shown(s, p);
    NextProcInv(p, locked, shown, x);
    if PhaseOf(p.pc) == Allocation {
      AllocateCounts(s, c, x);
    } else if PhaseOf(p.pc) == Claim {
      ClaimCounts(s, p, locked, x);
    }
  }

  /** Every statement that neither grants a lease nor is followed by a file change. */
  lemma ContinueOwnRecord(s: State, c: Client, x: Input)
    requires Inv(s) && c in s.procs && InputFits(s, x) && !s.procs[c].pc.FlushSlot? && !s.procs[c].pc.TasteFlush?
    ensures Inv(Put(s, c, Moved(s, c, x)))
  {
    assert ProcInv(s.procs[c]);
    NextProcInv(s.procs[c], Succeeds(s, c, AttemptOf(s.procs[c])), Shown(s, s.procs[c]), x);
    NextJustified(s, c, x);
    NextCounts(s, c, x);
    InvPut(s, c, Moved(s, c, x));
  }

  // ----- statements that write a reservation file -----

  lemma SlotWrite(s: State, i: nat, v: Content)
    requires Inv(s)
    requires forall d | d in s.procs && SlotLive(s.procs[d]) :: s.procs[d].slot.value != i
    ensures Inv(s.(slots := s.slots[i := v]))
  {
    var t := s.(slots := s.slots[i := v]);
    forall d | d in t.procs
      ensures ProcInv(t.procs[d]) && FileInv(t, t.procs[d]) && CountInv(t, t.procs[d])
    {
      assert ProcInv(s.procs[d]) && FileInv(s, s.procs[d]) && CountInv(s, s.procs[d]);
    }
  }

  lemma TasteFileWrite(s: State, v: Content)
    requires Inv(s)
    requires forall d | d in s.procs :: !(Live(s.procs[d]) && s.procs[d].lease == TasteLease)
    ensures Inv(s.(taste := v))
  {
    var t := s.(taste := v);
    forall d | d in t.procs
      ensures ProcInv(t.procs[d]) && FileInv(t, t.procs[d]) && CountInv(t, t.procs[d])
    {
      assert ProcInv(s.procs[d]) && FileInv(s, s.procs[d]) && CountInv(s, s.procs[d]);
    }
  }

  /** The file a client is about to write carries nobody's live reservation. */
  lemma OwnSlotOnly(s: State, c: Client)
    requires Inv(s) && c in s.procs && s.procs[c].lease == NoLease && s.procs[c].slot.Some?
    ensures forall d | d in s.procs && SlotLive(s.procs[d]) :: s.procs[d].slot.value != s.procs[c].slot.value
  {
    var l := SlotFile(s.procs[c].slot.value);
    forall d | d in s.procs && SlotLive(s.procs[d]) ensures s.procs[d].slot.value != s.procs[c].slot.value {
      assert Compatible(Held(s.procs[c], l), Held(s.procs[d], l));
    }
  }

  lemma OwnTasteOnly(s: State, c: Client)
    requires Inv(s) && c in s.procs && s.procs[c].lease == NoLease && s.procs[c].taste
    ensures forall d | d in s.procs :: !(Live(s.procs[d]) && s.procs[d].lease == TasteLease)
  {
    forall d | d in s.procs ensures !(Live(s.procs[d]) && s.procs[d].lease == TasteLease) {
      assert ProcInv(s.procs[d]);
      assert d == c || Compatible(Held(s.procs[c], TasteFile), Held(s.procs[d], TasteFile));
    }
  }

  lemma ContinueCreate(s: State, c: Client, x: Input)
    requires Inv(s) && c in s.procs && InputFits(s, x) && s.procs[c].pc.Create?
    ensures Inv(Advance(s, c, x))
  {
    var u := Put(s, c, Moved(s, c, x));
    ContinueOwnRecord(s, c, x);
    forall d | d in u.procs && SlotLive(u.procs[d]) ensures u.procs[d].slot.value != x.index {
      assert FileInv(u, u.procs[d]);
    }
    SlotWrite(u, x.index, Unreadable);
  }

  lemma ContinueWriteSlot(s: State, c: Client, x: Input)
    requires Inv(s) && c in s.procs && InputFits(s, x) && s.procs[c].pc.WriteSlot?
    ensures Inv(Advance(s, c, x))
  {
    var p, u := s.procs[c], Put(s, c, Moved(s, c, x));
    ContinueOwnRecord(s, c, x);
    assert ProcInv(p);
    assert u.procs[c] == p.(pc := FlushSlot(p.pc.sampled));
    OwnSlotOnly(u, c);
    SlotWrite(u, p.slot.value, x.partial);
  }

  lemma ContinueWriteTaste(s: State, c: Client, x: Input)
    requires Inv(s) && c in s.procs && InputFits(s, x) && s.procs[c].pc.TasteWrite?
    ensures Inv(Advance(s, c, x))
  {
    var p, u := s.procs[c], Put(s, c, Moved(s, c, x));
    ContinueOwnRecord(s, c, x);
    assert ProcInv(p);
    assert u.procs[c] == p.(pc := TasteFlush);
    OwnTasteOnly(u, c);
    TasteFileWrite(u, x.partial);
  }

  /** Granting the taste lane. */
  lemma GrantTaste(s: State, c: Client, q: Proc)
    requires Inv(s) && c in s.procs && s.procs[c].pc.TasteFlush? && s.taste == Number(s.procs[c].estimate)
    requires q == s.procs[c].(lease := TasteLease, pc := UnlockPriority)
    ensures Inv(Put(s, c, q))
  {
    var p := s.procs[c];
    assert ProcInv(p);
    assert q == TasteNext(p, true, Input(0, 0, 0, [], 0, Unreadable));
    TasteProc(p, true, Input(0, 0, 0, [], 0, Unreadable));
    assert forall l :: Held(q, l) == Held(p, l);
    InvPut(s, c, q);
  }

  lemma ContinueTasteFlush(s: State, c: Client, x: Input)
    requires Inv(s) && c in s.procs && s.procs[c].pc.TasteFlush?
    ensures Inv(Advance(s, c, x))
  {
    var p := s.procs[c];
    assert ProcInv(p);
    OwnTasteOnly(s, c);
    TasteFileWrite(s, Number(p.estimate));
    var v := s.(taste := Number(p.estimate));
    var q := p.(lease := TasteLease, pc := UnlockPriority);
    GrantTaste(v, c, q);
    assert Advance(s, c, x) == Put(v, c, q);
  }

  /** Granting a slot: the new reservation fits under the budget it sampled. */
  lemma GrantFits(s: State, c: Client, q: Proc)
    requires c in s.procs && !SlotLive(s.procs[c]) && SlotLive(q)
    ensures Sum(LiveWeights(Put(s, c, q).procs, [])) <= LiveSum(s) + q.estimate
  {
    var a, b := LiveWeights(Put(s, c, q).procs, []), LiveWeights(s.procs, []);
    SumPick(a, c);
    SumSubmap(a - {c}, b);
  }

  lemma ContinueSlotFlush(s: State, c: Client, x: Input)
    requires Inv(s) && c in s.procs && s.procs[c].pc.FlushSlot?
    ensures Inv(Advance(s, c, x))
  {
    var p := s.procs[c];
    var q := GrantNext(p);
    assert ProcInv(p) && CountInv(s, p);
    var v := s.(slots := s.slots[p.slot.value := Number(p.estimate)]);
    OwnSlotOnly(s, c);
    SlotWrite(s, p.slot.value, Number(p.estimate));
    GrantProc(p);
    var t := Advance(s, c, x);
    assert t == Put(v, c, q).(lastBudget := p.pc.sampled);
    StaysExcluding(v, c, q);
    assert Excluding(t);
    forall d | d in t.procs
      ensures ProcInv(t.procs[d]) && FileInv(t, t.procs[d]) && CountInv(t, t.procs[d])
    {
      if d != c {
        OneAllocator(v, c, d);
        assert ProcInv(v.procs[d]) && FileInv(v, v.procs[d]);
      }
    }
    GrantFits(v, c, q);
  }

  lemma ContinueKeeps(s: State, c: Client, x: Input)
    requires Inv(s) && c in s.procs && InputFits(s, x)
    ensures Inv(Advance(s, c, x))
  {
    var p := s.procs[c];
    if p.pc.FlushSlot? {
      ContinueSlotFlush(s, c, x);
    } else if p.pc.TasteFlush? {
      ContinueTasteFlush(s, c, x);
    } else if p.pc.Create? {
      ContinueCreate(s, c, x);
    } else if p.pc.WriteSlot? {
      ContinueWriteSlot(s, c, x);
    } else if p.pc.TasteWrite? {
      ContinueWriteTaste(s, c, x);
    } else {
      ContinueOwnRecord(s, c, x);
      assert Advance(s, c, x) == Put(s, c, Moved(s, c, x));
    }
  }

  // ----- arrivals, holders, ends -----

  lemma ArriveKeeps(s: State, c: Client, q: Proc)
    requires Inv(s) && c !in s.procs && ProcInv(q) && q.lease == NoLease && !Counting(q.pc) && Justified(s, c, q)
    ensures Inv(Put(s, c, q))
  {
    InvPut(s, c, q);
  }

  lemma ArrivalKeeps(s: State, c: Client, step: Step, t: State)
    requires Inv(s) && Next(s, c, step, t) && (step.Arrive? || step.Probe?)
    ensures Inv(t)
  {
    if step.Arrive? {
      ArriveKeeps(s, c, Fresh(step.role, step.lane, step.estimate, TryPriority));
    } else {
      ArriveKeeps(s, c, ProberHolding(step.lock));
    }
  }

  /** A step that takes no lock and grants nothing keeps the invariant. */
  lemma InvKeep(s: State, c: Client, q: Proc)
    requires Inv(s) && c in s.procs && ProcInv(q) && KeepsGrant(s.procs[c], q)
    requires forall l :: Held(q, l) == Held(s.procs[c], l) || Held(q, l) == Free
    requires Counting(q.pc) ==> q.pc == s.procs[c].pc && q.estimate == s.procs[c].estimate
    ensures Inv(Put(s, c, q))
  {
    assert FileInv(s, s.procs[c]) && CountInv(s, s.procs[c]);
    InvPut(s, c, q);
  }

  predicate OnlyHolderMoves(p: Proc, q: Proc) {
    && q == p.(holder := q.holder, pc := q.pc) && (q.pc == Closing || q.pc == p.pc)
    && (q.holder.Holder? ==> p.holder.Holder? || p.pc == Running)
    && (p.holder == NoHolder && p.pc != Running ==> q.holder == NoHolder)
  }

  lemma HolderProc(p: Proc, q: Proc)
    requires ProcInv(p) && OnlyHolderMoves(p, q)
    ensures ProcInv(q) && KeepsGrant(p, q) && (Counting(q.pc) ==> q.pc == p.pc && q.estimate == p.estimate)
    ensures forall l :: Held(q, l) == Held(p, l)
  {
  }

  lemma HolderKeeps(s: State, c: Client, q: Proc)
    requires Inv(s) && c in s.procs && OnlyHolderMoves(s.procs[c], q)
    ensures Inv(Put(s, c, q))
  {
    assert ProcInv(s.procs[c]);
    HolderProc(s.procs[c], q);
    InvKeep(s, c, q);
  }

  lemma DropProc(p: Proc, l: Lock)
    requires ProcInv(p) && p.pc == Closing && !(p.holder.Holder? && Inherits(p.lease, l))
    ensures ProcInv(Unlocked(p, l)) && Unlocked(p, l).pc == Closing
    ensures KeepsGrant(p, Unlocked(p, l)) || !Live(p)
    ensures forall k :: Held(Unlocked(p, l), k) == Held(p, k) || Held(Unlocked(p, l), k) == Free
  {
  }

  lemma DropKeeps(s: State, c: Client, l: Lock)
    requires Inv(s) && c in s.procs && s.procs[c].pc == Closing
    requires !(s.procs[c].holder.Holder? && Inherits(s.procs[c].lease, l))
    ensures Inv(Put(s, c, Unlocked(s.procs[c], l)))
  {
    var p := s.procs[c];
    assert ProcInv(p);
    DropProc(p, l);
    if Live(p) {
      InvKeep(s, c, Unlocked(p, l));
    } else {
      InvPut(s, c, Unlocked(p, l));
    }
  }

  /** The holder's own steps and the end of an owner, as one record change. */
  lemma HolderStep(s: State, c: Client, step: Step, t: State)
    requires Next(s, c, step, t)
    requires !step.Arrive? && !step.Probe? && !step.Continue? && !step.Drop? && !step.GroupsChange?
    ensures c in s.procs && c in t.procs && OnlyHolderMoves(s.procs[c], t.procs[c]) && t == Put(s, c, t.procs[c])
  {
  }

  /** The admission invariant is inductive. */
  lemma NextKeeps(s: State, c: Client, step: Step, t: State)
    requires Inv(s) && Next(s, c, step, t)
    ensures Inv(t)
  {
    match step
    case Arrive(_, _, _) => ArrivalKeeps(s, c, step, t);
    case Probe(_) => ArrivalKeeps(s, c, step, t);
    case Continue(x) => ContinueKeeps(s, c, x);
    case Drop(l) => DropKeeps(s, c, l);
    case GroupsChange(alive) => GroupsKeep(s, alive);
    case _ =>
      HolderStep(s, c, step, t);
      HolderKeeps(s, c, t.procs[c]);
  }

  lemma GroupsKeep(s: State, alive: set<int>)
    requires Inv(s)
    ensures Inv(s.(alive := alive))
  {
    var t := s.(alive := alive);
    forall d | d in t.procs
      ensures ProcInv(t.procs[d]) && FileInv(t, t.procs[d]) && CountInv(t, t.procs[d])
    {
      assert ProcInv(s.procs[d]) && FileInv(s, s.procs[d]) && CountInv(s, s.procs[d]);
    }
  }
}
