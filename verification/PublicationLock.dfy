/**
 The publication lock (`GitHub.publication_lock` in scripts/ci-queue-flakes.py): one remote ref is
 the mutex. A request reaches the server some time after it is sent or never, and its response may
 be lost, so a client can believe that a request failed which later takes effect.
 */
module PublicationLock {
  import opened Wrappers

  /** A run; its lock commit is unique to it, so the run also names the commit. */
  type Run = nat

  datatype Request = Unsent | InFlight | Applied | Refused

  datatype PC =
    | Start        // before the ref is posted
    | Creating     // posted, waiting for the response
    | Checking     // no good response: read the ref back
    | Inside       // the publication section
    | Leaving      // about to read the ref before deleting it
    | Deleting     // read it as its own; deletes it
    | Finished     // the delete was answered, or its response was lost
    | Locked       // gave up: someone else's lock, or no lock to be seen
    | Changed      // "flake publication lock ownership changed"
    | Dead

  datatype Client = Client(pc: PC, create: Request, delete: Request)

  datatype State = State(ref: Option<Run>, clients: map<Run, Client>)

  datatype Step =
    | Arrive
    | Post
    | ServerCreates
    | Answered
    | LostResponse
    | ReadBack
    | Leave
    | ReadBeforeDelete
    | Delete
    | ServerDeletes
    | DeleteAnswered
    | Crash

  function Put(s: State, r: Run, c: Client): State {
    s.(clients := s.clients[r := c])
  }

  predicate Next(s: State, r: Run, step: Step, t: State) {
    if step.Arrive? then r !in s.clients && t == Put(s, r, Client(Start, Unsent, Unsent))
    else
      && r in s.clients
      && var c := s.clients[r];
         match step
         case Post => c.pc == Start && t == Put(s, r, c.(pc := Creating, create := InFlight))
         // The server creates the ref only if it does not exist.
         case ServerCreates =>
           && c.create == InFlight
           && t == (if s.ref.None? then Put(s, r, c.(create := Applied)).(ref := Some(r))
                    else Put(s, r, c.(create := Refused)))
         case Answered => c.pc == Creating && c.create == Applied && t == Put(s, r, c.(pc := Inside))
         case LostResponse => c.pc == Creating && t == Put(s, r, c.(pc := Checking))
         case ReadBack => c.pc == Checking && t == Put(s, r, c.(pc := if s.ref == Some(r) then Inside else Locked))
         case Leave => c.pc == Inside && t == Put(s, r, c.(pc := Leaving))
         case ReadBeforeDelete => c.pc == Leaving
           && t == Put(s, r, c.(pc := if s.ref == Some(r) then Deleting else Changed))
         case Delete => c.pc == Deleting && c.delete == Unsent && t == Put(s, r, c.(delete := InFlight))
         // The server deletes the ref whatever it points to.
         case ServerDeletes => c.delete == InFlight && t == Put(s, r, c.(delete := Applied)).(ref := None)
         case DeleteAnswered => c.pc == Deleting && c.delete != Unsent && t == Put(s, r, c.(pc := Finished))
         case Crash => t == Put(s, r, c.(pc := Dead))
  }

  predicate Init(s: State) {
    s == State(None, map[])
  }

  /** The ref is exactly the one applied creation that has not been deleted. */
  ghost predicate RefInv(s: State) {
    && (s.ref.Some? ==> s.ref.value in s.clients)
    && forall r | r in s.clients ::
         s.ref == Some(r) <==> s.clients[r].create == Applied && s.clients[r].delete != Applied
  }

  predicate ClientInv(c: Client) {
    && (c.pc == Start ==> c.create == Unsent)
    && (c.pc == Inside || c.pc == Leaving || c.pc == Deleting || c.pc == Changed || c.pc == Finished ==>
         c.create == Applied)
    && (c.delete != Unsent ==> c.create == Applied && (c.pc == Deleting || c.pc == Finished || c.pc == Dead))
    && c.delete != Refused && c.pc != Changed
  }

  ghost predicate Inv(s: State) {
    RefInv(s) && forall r | r in s.clients :: ClientInv(s.clients[r])
  }

  lemma NextKeeps(s: State, r: Run, step: Step, t: State)
    requires Inv(s) && Next(s, r, step, t)
    ensures Inv(t)
  {
    forall q | q in t.clients
      ensures ClientInv(t.clients[q])
      ensures t.ref == Some(q) <==> t.clients[q].create == Applied && t.clients[q].delete != Applied
    {
      if q in s.clients {
        assert ClientInv(s.clients[q]);
        assert s.ref == Some(q) <==> s.clients[q].create == Applied && s.clients[q].delete != Applied;
      }
      if r in s.clients {
        assert ClientInv(s.clients[r]);
        assert s.ref == Some(r) <==> s.clients[r].create == Applied && s.clients[r].delete != Applied;
      }
    }
  }

  datatype Label = Label(run: Run, step: Step)

  ghost predicate IsTrace(states: seq<State>, labels: seq<Label>) {
    && |states| == |labels| + 1
    && Init(states[0])
    && forall i :: 0 <= i < |labels| ==> Next(states[i], labels[i].run, labels[i].step, states[i + 1])
  }

  lemma {:induction false} TraceHolds(states: seq<State>, labels: seq<Label>, i: nat)
    requires IsTrace(states, labels) && i < |states|
    ensures Inv(states[i])
  {
    if i > 0 {
      TraceHolds(states, labels, i - 1);
      NextKeeps(states[i - 1], labels[i - 1].run, labels[i - 1].step, states[i]);
    }
  }

  /** From entering the section until the delete is sent. */
  predicate Publishing(s: State, r: Run) {
    r in s.clients
      && (s.clients[r].pc == Inside || s.clients[r].pc == Leaving
           || (s.clients[r].pc == Deleting && s.clients[r].delete == Unsent))
  }

  /** With requests delayed and responses lost in any way, at most one run publishes. */
  lemma OnePublisher(states: seq<State>, labels: seq<Label>, i: nat, a: Run, b: Run)
    requires IsTrace(states, labels) && i < |states| && Publishing(states[i], a) && Publishing(states[i], b)
    ensures a == b && states[i].ref == Some(a)
  {
    TraceHolds(states, labels, i);
    assert ClientInv(states[i].clients[a]) && ClientInv(states[i].clients[b]);
  }

  /** The ownership check before the delete never fails. */
  lemma OwnershipNeverChanges(states: seq<State>, labels: seq<Label>, i: nat, r: Run)
    requires IsTrace(states, labels) && i < |states| && r in states[i].clients
    ensures states[i].clients[r].pc != Changed
    ensures states[i].clients[r].pc == Leaving ==> states[i].ref == Some(r)
  {
    TraceHolds(states, labels, i);
    assert ClientInv(states[i].clients[r]);
  }

  /** A run whose lock took effect and which died before sending its delete, or had given up by then. */
  predicate Abandoned(s: State, r: Run) {
    && r in s.clients && (s.clients[r].pc == Dead || s.clients[r].pc == Locked)
    && s.clients[r].create == Applied && s.clients[r].delete == Unsent
  }

  lemma AbandonedStays(s: State, r: Run, step: Step, t: State, d: Run)
    requires Next(s, r, step, t) && Abandoned(s, d)
    ensures Abandoned(t, d)
  {
  }

  /** Leftovers fail closed: no run publishes until someone removes the ref by hand. */
  lemma {:induction false} LeftoverBlocks(states: seq<State>, labels: seq<Label>, i: nat, j: nat, d: Run, r: Run)
    requires IsTrace(states, labels) && i <= j < |states| && Abandoned(states[i], d)
    ensures Abandoned(states[j], d) && states[j].ref == Some(d) && !Publishing(states[j], r)
    decreases j
  {
    if i < j {
      LeftoverBlocks(states, labels, i, j - 1, d, r);
      AbandonedStays(states[j - 1], labels[j - 1].run, labels[j - 1].step, states[j], d);
    }
    TraceHolds(states, labels, j);
  }

  // ----- what can happen -----

  /** These steps of one run lead from the first state to the last. */
  ghost predicate Walks(states: seq<State>, r: Run, steps: seq<Step>) {
    |states| == |steps| + 1 && forall i :: 0 <= i < |steps| ==> Next(states[i], r, steps[i], states[i + 1])
  }

  /** A free lock can be taken by any new run. */
  lemma FreeLockIsTaken(s: State, r: Run) returns (states: seq<State>)
    requires s.ref.None? && r !in s.clients
    ensures Walks(states, r, [Arrive, Post, ServerCreates, Answered])
    ensures states[0] == s && Publishing(states[4], r) && states[4].ref == Some(r)
  {
    var c := Client(Start, Unsent, Unsent);
    var posted, applied := c.(pc := Creating, create := InFlight), c.(pc := Creating, create := Applied);
    var held := s.(ref := Some(r));
    states := [s, Put(s, r, c), Put(s, r, posted), Put(held, r, applied), Put(held, r, applied.(pc := Inside))];
  }

  /** A run that publishes can give the lock back, and then it is free. */
  lemma PublisherGivesBack(s: State, r: Run) returns (states: seq<State>)
    requires s.ref == Some(r) && r in s.clients && s.clients[r].pc == Inside && s.clients[r].delete == Unsent
    ensures Walks(states, r, [Leave, ReadBeforeDelete, Delete, ServerDeletes, DeleteAnswered])
    ensures states[0] == s && states[5].ref.None? && r in states[5].clients && states[5].clients[r].pc == Finished
  {
    var leaving := s.clients[r].(pc := Leaving);
    var deleting := s.clients[r].(pc := Deleting);
    var gone := s.(ref := None);
    states := [s, Put(s, r, leaving), Put(s, r, deleting), Put(s, r, deleting.(delete := InFlight)),
               Put(gone, r, deleting.(delete := Applied)), Put(gone, r, deleting.(pc := Finished, delete := Applied))];
  }

  /** A lost response does not lose the lock: a run that reads its own commit back publishes. */
  lemma LostResponseIsRead(s: State, r: Run) returns (states: seq<State>)
    requires s.ref.None? && r !in s.clients
    ensures Walks(states, r, [Arrive, Post, ServerCreates, LostResponse, ReadBack])
    ensures states[0] == s && Publishing(states[5], r)
  {
    var c := Client(Start, Unsent, Unsent);
    var posted, applied := c.(pc := Creating, create := InFlight), c.(pc := Creating, create := Applied);
    var held := s.(ref := Some(r));
    states := [s, Put(s, r, c), Put(s, r, posted), Put(held, r, applied), Put(held, r, applied.(pc := Checking)),
               Put(held, r, applied.(pc := Inside))];
  }

  /** A creation that takes effect after its run has given up: the lock is left behind, and nobody publishes. */
  lemma LateCreationLeavesLock(s: State, r: Run) returns (states: seq<State>)
    requires s.ref.None? && r !in s.clients
    ensures Walks(states, r, [Arrive, Post, LostResponse, ReadBack, ServerCreates])
    ensures states[0] == s && Abandoned(states[5], r) && states[5].ref == Some(r)
  {
    var c := Client(Start, Unsent, Unsent);
    var posted := c.(pc := Creating, create := InFlight);
    states := [s, Put(s, r, c), Put(s, r, posted), Put(s, r, posted.(pc := Checking)), Put(s, r, posted.(pc := Locked)),
               Put(s.(ref := Some(r)), r, posted.(pc := Locked, create := Applied))];
  }
}
