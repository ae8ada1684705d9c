/**
 The issue that a successful reconcile leaves for each recovered failure
 (scripts/ci-queue-flakes.py:432-469), written out: its runs, its text and its labels.
 */
module FlakeIssues {
  import opened FlakeRecord
  import opened Json
  import Decimal
  import opened Reconcile

  // ----- run numbers -----

  /** The accepted run numbers are the decimal numerals of the positive numbers. */
  lemma {:induction false} ValidRunIff(run: Text)
    ensures ValidRun(run) <==> exists n: nat :: n > 0 && run == Decimal.Digits(n)
  {
    if ValidRun(run) {
      NumeralIsDigits(run);
    }
    if n: nat :| n > 0 && run == Decimal.Digits(n) {
      DigitsAreNumeral(n);
    }
  }

  lemma {:induction false} NumeralIsDigits(run: Text)
    requires ValidRun(run)
    ensures Decimal.AllDigits(run) && Decimal.Value(run) > 0 && run == Decimal.Digits(Decimal.Value(run))
    decreases |run|
  {
    assert Decimal.AllDigits(run);
    var init, last := run[..|run| - 1], run[|run| - 1];
    assert run == init + [last];
    if init != [] {
      assert init[0] == run[0];
      NumeralIsDigits(init);
    }
  }

  lemma {:induction false} DigitsAreNumeral(n: nat)
    requires n > 0
    ensures ValidRun(Decimal.Digits(n))
  {
    if n >= 10 {
      DigitsAreNumeral(n / 10);
    }
  }

  // ----- quarantine -----

  /** Two recorded runs differ. */
  predicate TwoRuns(runs: seq<Text>) {
    exists i, j :: 0 <= i < |runs| && 0 <= j < |runs| && runs[i] != runs[j]
  }

  lemma DistinctTwo(runs: seq<Text>)
    ensures |Distinct(runs)| >= 2 <==> TwoRuns(runs)
  {
    var all := Distinct(runs);
    if TwoRuns(runs) {
      var i, j :| 0 <= i < |runs| && 0 <= j < |runs| && runs[i] != runs[j];
      var two := {runs[i], runs[j]};
      assert |two| == 2 && all == two + (all - two);
    } else if runs != [] {
      assert forall r :: r in runs ==> r == runs[0];
      assert all == {runs[0]};
    } else {
      assert all == {};
    }
  }

  /** The labels of a flake issue: those it had, two fixed ones, and quarantine for a step or a repeated flake. */
  function LabelsFor(before: set<string>, test: Test, runs: seq<Text>): set<string> {
    before + {"flaky", "priority:p1"} + if test.Step? || TwoRuns(runs) then {"flaky-quarantine"} else {}
  }

  lemma LabelsAre(before: set<string>, test: Test, runs: seq<Text>)
    ensures before + NewLabels(test, runs) == LabelsFor(before, test, runs)
  {
    DistinctTwo(runs);
  }

  // ----- observations of other tests -----

  /** The same open issues, with the same contents, for this test. */
  ghost predicate SameFor(s: Store, t: Store, test: Test) {
    forall n :: (Matches(s, n, test) <==> Matches(t, n, test)) && (Matches(s, n, test) ==> t.issues[n] == s.issues[n])
  }

  lemma ObserveLeaves(s: Store, o: Observation, test: Test)
    requires WellNumbered(s) && o.test != test
    ensures SameFor(s, Observe(s, o).store, test)
  {
    var t := Observe(s, o).store;
    if t != s {
      if n :| Matches(s, n, o.test) {
        var m :| Matches(s, m, o.test) && t == s.(issues := s.issues[m := Updated(s.issues[m], o)]);
      } else {
        assert t == WithNew(s, o);
      }
    }
  }

  lemma {:induction false} PublishLeaves(s: Store, all: seq<Observation>, test: Test)
    requires WellNumbered(s) && forall i :: 0 <= i < |all| ==> all[i].test != test
    ensures SameFor(s, Publish(s, all).store, test)
    decreases |all|
  {
    if all != [] {
      var init := all[..|all| - 1];
      PublishLeaves(s, init, test);
      PublishGrows(s, init);
      if Publish(s, init).Ok? {
        ObserveLeaves(Publish(s, init).store, all[|all| - 1], test);
      }
    }
  }

  // ----- the issue of one observation -----

  /** The runs an issue records after an observation: each run once, in the order they were seen. */
  function RunsWith(before: seq<Text>, run: Text): seq<Text> {
    if exists i :: 0 <= i < |before| && before[i] == run then before else before + [run]
  }

  /** Issue n is the test's one open issue, and is exactly what the observation makes of store s. */
  ghost predicate IssueOf(s: Store, t: Store, o: Observation, n: nat) {
    && Matches(t, n, o.test) && (forall m :: Matches(t, m, o.test) ==> m == n)
    && (if Matches(s, n, o.test) then
          IsIssue(t.issues[n], o, RunsWith(s.issues[n].content.record.runs, o.run), s.issues[n].labels)
        else
          n >= s.next && (forall m :: !Matches(s, m, o.test)) && IsIssue(t.issues[n], o, [o.run], {}))
  }

  predicate IsIssue(i: Issue, o: Observation, runs: seq<Text>, before: set<string>) {
    && i.open && i.content == Flake(Record(o.test, runs), o.head, o.output)
    && i.labels == LabelsFor(before, o.test, runs)
  }

  lemma ObserveIssue(s: Store, o: Observation) returns (n: nat)
    requires WellNumbered(s) && Observe(s, o).Ok?
    ensures IssueOf(s, Observe(s, o).store, o, n)
  {
    var t := Observe(s, o).store;
    assert !Ambiguous(s, o.test);
    if m :| Matches(s, m, o.test) {
      n := m;
      ObserveOne(s, o, n);
      var runs := s.issues[n].content.record.runs;
      LabelsAre(s.issues[n].labels, o.test, RunsWith(runs, o.run));
      assert AddRun(runs, o.run) == RunsWith(runs, o.run);
      forall k | Matches(t, k, o.test) ensures k == n {
        assert Matches(s, k, o.test);
      }
    } else {
      n := s.next;
      assert t == WithNew(s, o);
      LabelsAre({}, o.test, [o.run]);
      assert {} + NewLabels(o.test, [o.run]) == NewLabels(o.test, [o.run]);
      forall k | Matches(t, k, o.test) ensures k == n {
        assert k == n || Matches(s, k, o.test);
      }
    }
  }

  lemma IssueFrames(s: Store, s': Store, t: Store, t': Store, o: Observation, n: nat)
    requires IssueOf(s', t, o, n) && SameFor(s, s', o.test) && SameFor(t, t', o.test) && s.next <= s'.next
    ensures IssueOf(s, t', o, n)
  {
    assert Matches(t', n, o.test) && t'.issues[n] == t.issues[n];
    assert Matches(s', n, o.test) ==> s'.issues[n] == s.issues[n];
  }

  /**
   After a successful reconcile every observation has exactly one open issue, and that issue is
   written out: an open issue of the store it began with gains the run once and keeps its
   labels, any other is new. It carries "flaky" and "priority:p1", and gains "flaky-quarantine"
   if and only if the test is a step or two of its recorded runs differ.
   */
  lemma {:induction false} IssueIs(s: Store, all: seq<Observation>, i: nat) returns (n: nat)
    requires WellNumbered(s) && DistinctTests(all) && Publish(s, all).Ok? && i < |all|
    ensures IssueOf(s, Publish(s, all).store, all[i], n)
    decreases |all|
  {
    var init, last := all[..|all| - 1], all[|all| - 1];
    var t, u := Publish(s, init).store, Publish(s, all).store;
    PublishGrows(s, init);
    if i < |init| {
      n := IssueIs(s, init, i);
      ObserveLeaves(t, last, all[i].test);
      IssueFrames(s, s, t, u, all[i], n);
    } else {
      forall k | 0 <= k < |init| ensures init[k].test != last.test {
        assert all[k].test != all[i].test;
      }
      PublishLeaves(s, init, last.test);
      n := ObserveIssue(t, last);
      IssueFrames(s, t, u, u, last, n);
    }
  }

  /** In short: who is quarantined after a reconcile. */
  lemma QuarantinedIff(s: Store, all: seq<Observation>, i: nat, n: nat)
    requires WellNumbered(s) && DistinctTests(all) && Publish(s, all).Ok? && i < |all|
    requires Matches(Publish(s, all).store, n, all[i].test)
    ensures var issue := Publish(s, all).store.issues[n];
      && "flaky" in issue.labels && "priority:p1" in issue.labels && all[i].run in issue.content.record.runs
      && ("flaky-quarantine" in issue.labels <==>
          || all[i].test.Step? || TwoRuns(issue.content.record.runs)
          || (Matches(s, n, all[i].test) && "flaky-quarantine" in s.issues[n].labels))
  {
    var m := IssueIs(s, all, i);
  }

  // ----- when it succeeds -----

  /** Nothing stands in the way of this observation: one open issue at most, a valid run, and an answer. */
  ghost predicate Accepted(s: Store, o: Observation) {
    && ValidRun(o.run)
    && (forall m, n :: Matches(s, m, o.test) && Matches(s, n, o.test) ==> m == n)
    && (o.request == Answered || (o.request == LostApplied && forall n :: !Matches(s, n, o.test)))
  }

  predicate Readable(s: Store) {
    forall n :: n in s.issues && s.issues[n].open ==> !s.issues[n].content.Broken?
  }

  lemma ObserveOkIff(s: Store, o: Observation)
    requires WellNumbered(s)
    ensures Observe(s, o).Ok? <==> Readable(s) && Accepted(s, o)
    ensures Readable(Observe(s, o).store) <==> Readable(s)
  {
    if !Unreadable(s) && !Ambiguous(s, o.test) && ValidRun(o.run) {
      if m :| Matches(s, m, o.test) {
        ObserveOne(s, o, m);
        assert Observe(s, o).store.issues.Keys == s.issues.Keys;
      }
    }
  }

  lemma AcceptedFrames(s: Store, t: Store, o: Observation)
    requires SameFor(s, t, o.test)
    ensures Accepted(s, o) <==> Accepted(t, o)
  {
  }

  /**
   A reconcile succeeds if and only if no open issue is unreadable and every observation is
   accepted on the store it began with: a lost answer to an update fails it, one to an applied
   create does not.
   */
  lemma {:induction false} PublishOkIff(s: Store, all: seq<Observation>)
    requires WellNumbered(s) && DistinctTests(all)
    ensures Publish(s, all).Ok? <==>
      all == [] || (Readable(s) && forall i :: 0 <= i < |all| ==> Accepted(s, all[i]))
    ensures Readable(Publish(s, all).store) <==> Readable(s)
    decreases |all|
  {
    if all != [] {
      var init, last := all[..|all| - 1], all[|all| - 1];
      var t := Publish(s, init).store;
      PublishOkIff(s, init);
      PublishGrows(s, init);
      forall k | 0 <= k < |init| ensures init[k] == all[k] && init[k].test != last.test {}
      PublishLeaves(s, init, last.test);
      ObserveOkIff(t, last);
      AcceptedFrames(s, t, last);
    }
  }

  // ----- whatever became of the requests -----

  /** Success or failure: an issue is as it was, or carries exactly these labels for its record. */
  predicate LabelledFrom(before: set<string>, i: Issue) {
    i.content.Flake? && i.labels == LabelsFor(before, i.content.record.test, i.content.record.runs)
  }

  function LabelsIn(s: Store, n: nat): set<string> {
    if n in s.issues then s.issues[n].labels else {}
  }

  lemma MoreRuns(a: seq<Text>, b: seq<Text>)
    requires a <= b && TwoRuns(a)
    ensures TwoRuns(b)
  {
    var i, j :| 0 <= i < |a| && 0 <= j < |a| && a[i] != a[j];
    assert b[i] == a[i] && b[j] == a[j];
  }

  lemma UpdatedLabels(before: set<string>, i: Issue, o: Observation)
    requires IsMatch(i, o.test) && (i.labels == before || LabelledFrom(before, i))
    ensures LabelledFrom(before, Updated(i, o))
  {
    var runs := AddRun(i.content.record.runs, o.run);
    LabelsAre(i.labels, o.test, runs);
    if TwoRuns(i.content.record.runs) {
      MoreRuns(i.content.record.runs, runs);
    }
  }

  lemma ObserveLabels(s: Store, first: Store, o: Observation, n: nat)
    requires WellNumbered(s) && n in Observe(s, o).store.issues && first.next <= s.next && WellNumbered(first)
    requires n in s.issues ==>
      (n in first.issues && s.issues[n] == first.issues[n]) || LabelledFrom(LabelsIn(first, n), s.issues[n])
    ensures var t := Observe(s, o).store;
      (n in first.issues && t.issues[n] == first.issues[n]) || LabelledFrom(LabelsIn(first, n), t.issues[n])
  {
    var t := Observe(s, o).store;
    if t != s && !(n in s.issues && t.issues[n] == s.issues[n]) {
      if m :| Matches(s, m, o.test) {
        ObserveOne(s, o, m);
        assert n == m;
        UpdatedLabels(LabelsIn(first, n), s.issues[n], o);
      } else {
        assert t == WithNew(s, o) && n == s.next && n !in first.issues;
        LabelsAre({}, o.test, [o.run]);
        assert {} + NewLabels(o.test, [o.run]) == NewLabels(o.test, [o.run]);
      }
    }
  }

  /**
   Whether or not a reconcile succeeds, each issue is untouched or carries exactly the labels it
   had, the two fixed ones, and quarantine if its test is a step or two of its runs differ.
   */
  lemma {:induction false} LabelsEarned(s: Store, all: seq<Observation>, n: nat)
    requires WellNumbered(s) && n in Publish(s, all).store.issues
    ensures var t := Publish(s, all).store;
      (n in s.issues && t.issues[n] == s.issues[n]) || LabelledFrom(LabelsIn(s, n), t.issues[n])
    decreases |all|
  {
    if all != [] {
      var init, last := all[..|all| - 1], all[|all| - 1];
      var t := Publish(s, init).store;
      PublishGrows(s, init);
      if n in t.issues {
        LabelsEarned(s, init, n);
      }
      if Publish(s, init).Ok? {
        ObserveLabels(t, s, last, n);
      }
    }
  }
}
