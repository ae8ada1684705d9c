/**
 `counting_slot` (scripts/host_memory.py:382-424) as the loop the source runs, and the proof that
 the probe-by-probe steps of HostAdmission compute the same result.
 */
module CountingSlot {
  import opened Wrappers
  import opened HostAdmission

  /** One file as the loop finds it: is its name a slot's, was its lock free, and what does it show. */
  datatype Probe = Probe(safe: bool, index: nat, free: bool, shown: Content)

  predicate ShowsWeight(shown: Content) {
    shown.Number? && shown.bytes > 0
  }

  predicate ProbeOk(probe: Probe) {
    probe.safe && (!probe.free ==> ShowsWeight(probe.shown))
  }

  /** Every name is a slot's and no busy slot shows an invalid reservation. */
  predicate Readable(probes: seq<Probe>) {
    forall i :: 0 <= i < |probes| ==> ProbeOk(probes[i])
  }

  /** Bytes shown by the busy slots. */
  function BusyBytes(probes: seq<Probe>): nat {
    if probes == [] then 0
    else
      var last := probes[|probes| - 1];
      BusyBytes(probes[..|probes| - 1]) + if !last.free && ShowsWeight(last.shown) then last.shown.bytes else 0
  }

  predicate IsFirstFree(probes: seq<Probe>, candidate: Option<nat>) {
    match candidate
    case None => forall i :: 0 <= i < |probes| ==> !probes[i].free
    case Some(index) => exists i :: 0 <= i < |probes| && probes[i].free && probes[i].index == index
                                 && forall j :: 0 <= j < i ==> !probes[j].free
  }

  datatype Outcome = Invalid | Counted(candidate: Option<nat>, reserved: nat)

  /** What the loop holds after these probes. */
  ghost predicate Counting(probes: seq<Probe>, candidate: Option<nat>, reserved: nat) {
    Readable(probes) && reserved == BusyBytes(probes) && IsFirstFree(probes, candidate)
  }

  lemma CountStep(probes: seq<Probe>, probe: Probe, candidate: Option<nat>, reserved: nat)
    requires Counting(probes, candidate, reserved) && ProbeOk(probe)
    ensures Counting(probes + [probe], if probe.free && candidate.None? then Some(probe.index) else candidate,
                     if probe.free then reserved else reserved + probe.shown.bytes)
  {
    var longer := probes + [probe];
    assert longer[..|probes|] == probes && longer[|probes|] == probe;
    if candidate.Some? {
      var i :| 0 <= i < |probes| && probes[i].free && probes[i].index == candidate.value
        && forall j :: 0 <= j < i ==> !probes[j].free;
      assert longer[i] == probes[i];
    } else if probe.free {
      assert forall j :: 0 <= j < |probes| ==> !longer[j].free;
      assert longer[|probes|].free && longer[|probes|].index == probe.index;
    }
  }

  method CountSlots(probes: seq<Probe>) returns (r: Outcome)
    ensures r == Invalid <==> !Readable(probes)
    ensures r.Counted? ==> r.reserved == BusyBytes(probes) && IsFirstFree(probes, r.candidate)
  {
    var reserved: nat, candidate: Option<nat> := 0, None;
    ghost var done: seq<Probe> := [];
    for n := 0 to |probes|
      invariant done == probes[..n] && Counting(done, candidate, reserved)
    {
      var probe := probes[n];
      if !probe.safe {
        assert !ProbeOk(probes[n]);
        return Invalid;
      }
      if !probe.free && !(probe.shown.Number? && probe.shown.bytes > 0) {
        assert !ProbeOk(probes[n]);
        return Invalid;
      }
      CountStep(done, probe, candidate, reserved);
      done := done + [probe];
      if !probe.free {
        reserved := reserved + probe.shown.bytes;
      } else if candidate.None? {
        candidate := Some(probe.index);
      }
    }
    assert probes[..|probes|] == probes;
    return Counted(candidate, reserved);
  }

  /** The record after the step system has made these probes one at a time. */
  function Replay(p: Proc, probes: seq<Probe>): Proc
    requires p.pc.Count? && |p.pc.todo| >= |probes|
    requires Readable(probes)
    decreases |probes|
  {
    if probes == [] then p
    else
      var q := CountNext(p, probes[0].free, probes[0].shown);
      assert Readable(probes[1..]) by {
        forall i | 0 <= i < |probes[1..]| ensures ProbeOk(probes[1..][i]) {
          assert probes[i + 1] == probes[1..][i];
        }
      }
      Replay(q, probes[1..])
  }

  lemma {:induction false} BusyBytesCons(probe: Probe, rest: seq<Probe>)
    ensures BusyBytes([probe] + rest) == BusyBytes([probe]) + BusyBytes(rest)
  {
    if rest != [] {
      var all := [probe] + rest;
      assert all[..|all| - 1] == [probe] + rest[..|rest| - 1];
      BusyBytesCons(probe, rest[..|rest| - 1]);
    } else {
      assert [probe] + rest == [probe];
    }
  }

  /** Step by step or in one loop, the count is the sum of the busy slots' numbers. */
  lemma {:induction false} ReplayCounts(p: Proc, probes: seq<Probe>)
    requires p.pc.Count? && |p.pc.todo| >= |probes| && Readable(probes)
    ensures Replay(p, probes).pc == Count(p.pc.sampled, p.pc.reserved + BusyBytes(probes), p.pc.todo[|probes|..])
    ensures p.slot.Some? ==> Replay(p, probes).slot == p.slot
    decreases |probes|
  {
    if probes == [] {
      assert p.pc.todo[0..] == p.pc.todo;
    } else {
      var q := CountNext(p, probes[0].free, probes[0].shown);
      assert probes == [probes[0]] + probes[1..];
      BusyBytesCons(probes[0], probes[1..]);
      assert [probes[0]][..0] == [];
      assert BusyBytes([probes[0]])
        == if !probes[0].free && ShowsWeight(probes[0].shown) then probes[0].shown.bytes else 0;
      assert Replay(p, probes) == Replay(q, probes[1..]);
      ReplayCounts(q, probes[1..]);
      assert q.pc.todo[|probes| - 1..] == p.pc.todo[|probes|..];
    }
  }
}
