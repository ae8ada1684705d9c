/**
 Publishing recovered failures as issues (`reconcile` in scripts/ci-queue-flakes.py), inside the
 publication lock: no other run changes flake issues meanwhile, and reads see earlier writes.
 An issue's text is represented by what FlakeRecord proves about it: the record it carries.
 */
module Reconcile {
  import opened FlakeRecord
  import opened Json

  datatype Content =
    | Foreign                                             // no marker line
    | Broken                                              // a marker that `issue_state` rejects
    | Flake(record: Record, head: Text, output: Text)     // the body built from these

  datatype Issue = Issue(open: bool, content: Content, labels: set<string>)

  /** All issues by number; numbers from `next` on are unused. */
  datatype Store = Store(issues: map<nat, Issue>, next: nat)

  /** What happens to the request that writes the issue: answered, applied but unanswered, or not applied. */
  datatype Request = Answered | LostApplied | LostUnapplied

  datatype Finding = Finding(test: Test, run: Text, head: Text, output: Text, request: Request)

  /**
   An observation comes from a receipt, so its test is one whose record the issue gives back
   unchanged (FlakeRecord.ReceiptTestSurvives).
   */
  type Observation = o: Finding | NoSplitTest(o.test) witness Finding(Step([]), [49], [], [], Answered)

  const FLAKY := "flaky"
  const PRIORITY := "priority:p1"
  const QUARANTINE := "flaky-quarantine"

  /** `re.fullmatch(r'[1-9]\d*', run_id)`. */
  predicate ValidRun(run: Text) {
    run != [] && run[0] != 48 && forall i :: 0 <= i < |run| ==> 48 <= run[i] <= 57
  }

  function AddRun(runs: seq<Text>, run: Text): seq<Text> {
    if run in runs then runs else runs + [run]
  }

  function Distinct(runs: seq<Text>): set<Text> {
    set r | r in runs
  }

  predicate Quarantined(test: Test, runs: seq<Text>) {
    test.Step? || |Distinct(runs)| >= 2
  }

  function NewLabels(test: Test, runs: seq<Text>): set<string> {
    {FLAKY, PRIORITY} + if Quarantined(test, runs) then {QUARANTINE} else {}
  }

  function Updated(i: Issue, o: Observation): Issue
    requires i.content.Flake?
  {
    var runs := AddRun(i.content.record.runs, o.run);
    Issue(i.open, Flake(Record(o.test, runs), o.head, o.output), i.labels + NewLabels(o.test, runs))
  }

  function Created(o: Observation): Issue {
    Issue(true, Flake(Record(o.test, [o.run]), o.head, o.output), NewLabels(o.test, [o.run]))
  }

  predicate IsMatch(i: Issue, test: Test) {
    i.open && i.content.Flake? && i.content.record.test == test
  }

  predicate IsBroken(i: Issue) {
    i.open && i.content.Broken?
  }

  predicate Matches(s: Store, n: nat, test: Test) {
    n in s.issues && IsMatch(s.issues[n], test)
  }

  ghost predicate Unreadable(s: Store) {
    exists n :: n in s.issues && IsBroken(s.issues[n])
  }

  ghost predicate Ambiguous(s: Store, test: Test) {
    exists m, n :: m != n && Matches(s, m, test) && Matches(s, n, test)
  }

  datatype Outcome = Ok(store: Store) | Failed(store: Store)

  /** One turn of the loop at lines 432-469. */
  ghost function Observe(s: Store, o: Observation): Outcome {
    if Unreadable(s) || Ambiguous(s, o.test) || !ValidRun(o.run) then Failed(s)
    else if n :| Matches(s, n, o.test) then AfterUpdate(s, n, o)
    else if o.request == LostUnapplied then Failed(s)
    else Ok(WithNew(s, o))
  }

  /** An unanswered update ends the run; an unanswered create is looked up again first. */
  function AfterUpdate(s: Store, n: nat, o: Observation): Outcome
    requires Matches(s, n, o.test)
  {
    var t := s.(issues := s.issues[n := Updated(s.issues[n], o)]);
    match o.request
    case Answered => Ok(t)
    case LostApplied => Failed(t)
    case LostUnapplied => Failed(s)
  }

  function WithNew(s: Store, o: Observation): Store {
    Store(s.issues[s.next := Created(o)], s.next + 1)
  }

  /** The loop: it stops at the first error and keeps what it has published. */
  ghost function Publish(s: Store, all: seq<Observation>): Outcome {
    if all == [] then Ok(s)
    else
      match Publish(s, all[..|all| - 1])
      case Failed(t) => Failed(t)
      case Ok(t) => Observe(t, all[|all| - 1])
  }

  predicate WellNumbered(s: Store) {
    forall n :: n in s.issues ==> n < s.next
  }

  /** No test has two open issues. */
  ghost predicate OneOpenIssue(s: Store) {
    forall test: Test :: !Ambiguous(s, test)
  }

  /** Observations come from a dictionary keyed by identity. */
  predicate DistinctTests(all: seq<Observation>) {
    forall i, j :: 0 <= i < j < |all| ==> all[i].test != all[j].test
  }

  predicate Prefix(a: seq<Text>, b: seq<Text>) {
    a <= b
  }

  /** An issue changes only by gaining runs and labels. */
  predicate Grows(a: Issue, b: Issue) {
    || a == b
    || (&& a.open && b.open && a.content.Flake? && b.content.Flake?
        && b.content.record.test == a.content.record.test
        && Prefix(a.content.record.runs, b.content.record.runs) && a.labels <= b.labels)
  }

  predicate StoreGrows(s: Store, t: Store) {
    s.next <= t.next && forall n :: n in s.issues ==> n in t.issues && Grows(s.issues[n], t.issues[n])
  }

  // ----- one observation -----

  lemma ObserveGrows(s: Store, o: Observation)
    requires WellNumbered(s)
    ensures WellNumbered(Observe(s, o).store) && StoreGrows(s, Observe(s, o).store)
  {
  }

  lemma ObserveKeepsOne(s: Store, o: Observation)
    requires WellNumbered(s) && OneOpenIssue(s)
    ensures OneOpenIssue(Observe(s, o).store)
  {
    var t := Observe(s, o).store;
    if exists n :: Matches(s, n, o.test) {
      assert forall k, test :: Matches(t, k, test) ==> Matches(s, k, test);
    } else {
      assert forall k, test :: Matches(t, k, test) ==> Matches(s, k, test) || (k == s.next && test == o.test);
    }
    assert forall test: Test :: Ambiguous(t, test) ==> Ambiguous(s, test);
  }

  /** After a successful turn the one open issue of the test shows this very observation. */
  ghost predicate Published(s: Store, o: Observation) {
    exists n :: Matches(s, n, o.test) && Shows(s.issues[n], o)
  }

  predicate Shows(i: Issue, o: Observation) {
    && i.content.Flake? && i.content.head == o.head && i.content.output == o.output
    && o.run in i.content.record.runs
    && NewLabels(o.test, i.content.record.runs) <= i.labels
  }

  lemma ObservePublishes(s: Store, o: Observation)
    requires Observe(s, o).Ok?
    ensures Published(Observe(s, o).store, o) && ValidRun(o.run) && !Unreadable(Observe(s, o).store)
  {
    var t := Observe(s, o).store;
    if n :| Matches(s, n, o.test) {
      var m :| Matches(s, m, o.test) && t == s.(issues := s.issues[m := Updated(s.issues[m], o)]);
      assert Matches(t, m, o.test) && Shows(t.issues[m], o);
    } else {
      assert Matches(t, s.next, o.test) && Shows(t.issues[s.next], o);
    }
  }

  /** A later turn for another test leaves it published. */
  lemma ObserveFrames(s: Store, o: Observation, other: Observation)
    requires WellNumbered(s) && Published(s, other) && other.test != o.test
    ensures Published(Observe(s, o).store, other)
  {
    var n :| Matches(s, n, other.test) && Shows(s.issues[n], other);
    var t := Observe(s, o).store;
    assert n in t.issues && t.issues[n] == s.issues[n];
    assert Matches(t, n, other.test) && Shows(t.issues[n], other);
  }

  /** Publishing what is already published changes nothing, whatever becomes of the request. */
  lemma ObserveAgain(s: Store, o: Observation)
    requires OneOpenIssue(s) && Published(s, o) && ValidRun(o.run) && !Unreadable(s)
    ensures Observe(s, o) == if o.request == Answered then Ok(s) else Failed(s)
  {
    var n :| Matches(s, n, o.test) && Shows(s.issues[n], o);
    assert !Ambiguous(s, o.test);
    assert Updated(s.issues[n], o) == s.issues[n] by {
      assert s.issues[n].labels + NewLabels(o.test, s.issues[n].content.record.runs) == s.issues[n].labels;
    }
    assert s.issues[n := s.issues[n]] == s.issues;
    forall m | Matches(s, m, o.test) ensures m == n {}
  }

  // ----- a whole publication -----

  lemma PrefixTransitive(a: Issue, b: Issue, c: Issue)
    requires Grows(a, b) && Grows(b, c)
    ensures Grows(a, c)
  {
  }

  /** Success or failure: issues only gain runs and labels, and none disappears or closes. */
  lemma {:induction false} PublishGrows(s: Store, all: seq<Observation>)
    requires WellNumbered(s)
    ensures WellNumbered(Publish(s, all).store) && StoreGrows(s, Publish(s, all).store)
  {
    if all != [] {
      var init := all[..|all| - 1];
      PublishGrows(s, init);
      var t := Publish(s, init).store;
      if Publish(s, init).Ok? {
        ObserveGrows(t, all[|all| - 1]);
        var u := Observe(t, all[|all| - 1]).store;
        forall n | n in s.issues ensures n in u.issues && Grows(s.issues[n], u.issues[n]) {
          PrefixTransitive(s.issues[n], t.issues[n], u.issues[n]);
        }
      }
    }
  }

  /** Success or failure, lost responses or not: no test ever gets a second open issue. */
  lemma {:induction false} PublishNeverDuplicates(s: Store, all: seq<Observation>)
    requires WellNumbered(s) && OneOpenIssue(s)
    ensures OneOpenIssue(Publish(s, all).store)
  {
    if all != [] {
      var init := all[..|all| - 1];
      PublishNeverDuplicates(s, init);
      PublishGrows(s, init);
      if Publish(s, init).Ok? {
        ObserveKeepsOne(Publish(s, init).store, all[|all| - 1]);
      }
    }
  }

  ghost predicate AllPublished(s: Store, all: seq<Observation>) {
    forall i :: 0 <= i < |all| ==> Published(s, all[i]) && ValidRun(all[i].run)
  }

  lemma {:induction false} PublishPublishes(s: Store, all: seq<Observation>)
    requires WellNumbered(s) && DistinctTests(all) && Publish(s, all).Ok?
    ensures AllPublished(Publish(s, all).store, all)
    ensures all != [] ==> !Unreadable(Publish(s, all).store)
  {
    if all != [] {
      var n := |all| - 1;
      var init, last := all[..n], all[n];
      PublishPublishes(s, init);
      PublishGrows(s, init);
      ObservePublishes(Publish(s, init).store, last);
      StillPublished(Publish(s, init).store, all);
    }
  }

  lemma StillPublished(t: Store, all: seq<Observation>)
    requires all != [] && WellNumbered(t) && DistinctTests(all) && AllPublished(t, all[..|all| - 1])
    requires Observe(t, all[|all| - 1]).Ok?
    ensures forall i :: 0 <= i < |all| - 1 ==>
      Published(Observe(t, all[|all| - 1]).store, all[i]) && ValidRun(all[i].run)
  {
    var n := |all| - 1;
    forall i | 0 <= i < n ensures Published(Observe(t, all[n]).store, all[i]) && ValidRun(all[i].run) {
      assert all[i] == all[..n][i];
      ObserveFrames(t, all[n], all[i]);
    }
  }

  predicate AllAnswered(all: seq<Observation>) {
    forall i :: 0 <= i < |all| ==> all[i].request == Answered
  }

  lemma {:induction false} PublishAgain(s: Store, all: seq<Observation>)
    requires OneOpenIssue(s) && AllPublished(s, all) && (all != [] ==> !Unreadable(s))
    ensures Publish(s, all) == if AllAnswered(all) then Ok(s) else Failed(s)
  {
    if all != [] {
      var n := |all| - 1;
      assert Published(s, all[n]) && ValidRun(all[n].run);
      forall i | 0 <= i < n ensures Published(s, all[..n][i]) && ValidRun(all[..n][i].run) {
        assert all[..n][i] == all[i];
      }
      PublishAgain(s, all[..n]);
      ObserveAgain(s, all[n]);
      AnsweredStep(all);
    }
  }

  lemma AnsweredStep(all: seq<Observation>)
    requires all != []
    ensures AllAnswered(all) <==> AllAnswered(all[..|all| - 1]) && all[|all| - 1].request == Answered
  {
    assert all == all[..|all| - 1] + [all[|all| - 1]];
  }

  /** The same observations; their requests may fare differently. */
  predicate SameObservations(all: seq<Observation>, again: seq<Observation>) {
    |all| == |again| && forall i :: 0 <= i < |all| ==> again[i] == all[i].(request := again[i].request)
  }

  /**
   Repeating a successful publication changes nothing, whatever becomes of the repeated
   requests; it succeeds if and only if they are all answered.
   */
  lemma ReconcileIdempotent(s: Store, all: seq<Observation>, again: seq<Observation>)
    requires WellNumbered(s) && OneOpenIssue(s) && DistinctTests(all)
    requires Publish(s, all).Ok? && SameObservations(all, again)
    ensures Publish(Publish(s, all).store, again)
         == if AllAnswered(again) then Publish(s, all) else Failed(Publish(s, all).store)
  {
    var t := Publish(s, all).store;
    PublishGrows(s, all);
    PublishNeverDuplicates(s, all);
    PublishPublishes(s, all);
    forall i | 0 <= i < |again| ensures Published(t, again[i]) && ValidRun(again[i].run) {
      SamePublished(t, all[i], again[i]);
    }
    PublishAgain(t, again);
  }

  lemma SamePublished(s: Store, o: Observation, again: Observation)
    requires Published(s, o) && again == o.(request := again.request)
    ensures Published(s, again)
  {
    var n :| Matches(s, n, o.test) && Shows(s.issues[n], o);
    assert Matches(s, n, again.test) && Shows(s.issues[n], again);
  }

  // ----- the loop as the source runs it, against its cached listing -----

  datatype Cached = Cached(number: nat, issue: Issue)

  class Tracker {
    var store: Store

    /** `api.issues()`: the open issues that carry a marker, read authoritatively. */
    method List() returns (listing: seq<Cached>)
      ensures Lists(listing, store)
    {
      listing := [];
      var left := store.issues.Keys;
      while left != {}
        invariant left <= store.issues.Keys
        invariant forall e :: e in listing ==> e.number !in left
        invariant DistinctNumbers(listing)
        invariant forall e :: e in listing ==>
          e.number in store.issues && store.issues[e.number] == e.issue && e.issue.open
        invariant forall n | n in store.issues && n !in left && Listed(store.issues[n]) ::
          Cached(n, store.issues[n]) in listing
        decreases left
      {
        var n :| n in left;
        left := left - {n};
        if store.issues[n].open && !store.issues[n].content.Foreign? {
          listing := listing + [Cached(n, store.issues[n])];
        }
      }
    }

    /** `reconcile` from the listing on. */
    method Run(all: seq<Observation>) returns (ok: bool)
      requires WellNumbered(store) && DistinctTests(all)
      modifies this
      ensures store == Publish(old(store), all).store
      ensures ok <==> Publish(old(store), all).Ok?
    {
      var cache := List();
      ghost var first := store;
      ListingInStep(cache, store);
      var k := 0;
      while k < |all|
        invariant 0 <= k <= |all|
        invariant UpTo(first, all, k, store, cache)
      {
        ok, cache := Apply(first, all, k, cache);
        if !ok { return; }
        k := k + 1;
      }
      assert all[..k] == all;
      return true;
    }

    /** One observation: refuse, merge into its issue, or create one. */
    method Apply(ghost first: Store, all: seq<Observation>, k: nat, listing: seq<Cached>)
      returns (ok: bool, cache: seq<Cached>)
      requires k < |all| && DistinctTests(all) && UpTo(first, all, k, store, listing)
      modifies this
      ensures ok ==> UpTo(first, all, k + 1, store, cache)
      ensures !ok ==> !Publish(first, all).Ok? && store == Publish(first, all).store
    {
      cache := listing;
      var o := all[k];
      var found := FindMatches(cache, o.test);
      TestIsNew(all, k);
      MatchesAgree(cache, store, all[..k], o.test, found);
      PublishNext(first, all, k, store);
      ObserveGrows(store, o);
      if found.BrokenIssue? || found.Many? || !ValidRun(o.run) {
        PublishStops(first, all, k + 1);
        return false, cache;
      }
      if found.One? {
        var e := cache[found.index];
        ObserveOne(store, o, e.number);
        UpdateInStep(cache, store, all, k, e.number);
        if o.request != LostUnapplied {
          store := store.(issues := store.issues[e.number := Updated(e.issue, o)]);
        }
        if o.request != Answered {
          PublishStops(first, all, k + 1);
          return false, cache;
        }
      } else if o.request == LostUnapplied {
        PublishStops(first, all, k + 1);
        return false, cache;
      } else {
        CreateInStep(cache, store, all, k);
        cache := cache + [Cached(store.next, Created(o))];
        store := Store(store.issues[store.next := Created(o)], store.next + 1);
      }
      ok := true;
    }
  }

  /** The first k observations are published and the cached listing still answers for the rest. */
  ghost predicate UpTo(first: Store, all: seq<Observation>, k: nat, store: Store, cache: seq<Cached>) {
    && k <= |all| && Publish(first, all[..k]) == Ok(store)
    && WellNumbered(store) && InStep(cache, store, all[..k])
  }

  predicate DistinctNumbers(listing: seq<Cached>) {
    forall i, j :: 0 <= i < j < |listing| ==> listing[i].number != listing[j].number
  }

  predicate Lists(listing: seq<Cached>, s: Store) {
    && DistinctNumbers(listing)
    && (forall e :: e in listing ==> e.number in s.issues && s.issues[e.number] == e.issue && e.issue.open)
    && (forall n ::
         n in s.issues && s.issues[n].open && !s.issues[n].content.Foreign? ==> Cached(n, s.issues[n]) in listing)
  }

  datatype Found = BrokenIssue | Many | Nobody | One(index: nat)

  predicate IsFound(cache: seq<Cached>, test: Test, found: Found) {
    match found
    case BrokenIssue => exists i :: 0 <= i < |cache| && IsBroken(cache[i].issue)
    case Many =>
      && NoneBroken(cache)
      && exists i, j :: 0 <= i < j < |cache| && IsMatch(cache[i].issue, test) && IsMatch(cache[j].issue, test)
    case Nobody => NoneBroken(cache) && forall i :: 0 <= i < |cache| ==> !IsMatch(cache[i].issue, test)
    case One(index) =>
      && NoneBroken(cache) && index < |cache| && IsMatch(cache[index].issue, test)
      && forall i :: 0 <= i < |cache| && IsMatch(cache[i].issue, test) ==> i == index
  }

  predicate NoneBroken(cache: seq<Cached>) {
    forall i :: 0 <= i < |cache| ==> !IsBroken(cache[i].issue)
  }

  /** The list comprehension at line 433 with the count at 434. */
  method FindMatches(cache: seq<Cached>, test: Test) returns (found: Found)
    ensures IsFound(cache, test, found)
  {
    var matches: seq<nat> := [];
    for i := 0 to |cache|
      invariant forall j :: 0 <= j < i ==> !IsBroken(cache[j].issue)
      invariant forall j :: 0 <= j < i && IsMatch(cache[j].issue, test) ==> j in matches
      invariant forall x :: 0 <= x < |matches| ==> matches[x] < i && IsMatch(cache[matches[x]].issue, test)
      invariant forall x, y :: 0 <= x < y < |matches| ==> matches[x] < matches[y]
    {
      if IsBroken(cache[i].issue) {
        return BrokenIssue;
      }
      if IsMatch(cache[i].issue, test) {
        matches := matches + [i];
      }
    }
    if |matches| > 1 {
      assert matches[0] < matches[1];
      return Many;
    }
    if |matches| == 1 {
      return One(matches[0]);
    }
    return Nobody;
  }

  predicate DoneTest(done: seq<Observation>, test: Test) {
    exists i :: 0 <= i < |done| && done[i].test == test
  }

  predicate InCache(cache: seq<Cached>, n: nat) {
    exists i :: 0 <= i < |cache| && cache[i].number == n
  }

  predicate Listed(i: Issue) {
    i.open && !i.content.Foreign?
  }

  /** The cache still names every flake issue; a record is stale only if its test is done. */
  predicate InStep(cache: seq<Cached>, s: Store, done: seq<Observation>) {
    && DistinctNumbers(cache)
    && (forall i :: 0 <= i < |cache| ==> FollowsStore(cache[i], s, done))
    && (forall n :: n in s.issues && Listed(s.issues[n]) ==> InCache(cache, n))
  }

  predicate FollowsStore(e: Cached, s: Store, done: seq<Observation>) {
    && e.number in s.issues && e.issue.open
    && (e.issue == s.issues[e.number] ||
        (&& e.issue.content.Flake? && IsMatch(s.issues[e.number], e.issue.content.record.test)
         && DoneTest(done, e.issue.content.record.test)))
  }

  lemma ListingInStep(listing: seq<Cached>, s: Store)
    requires Lists(listing, s)
    ensures InStep(listing, s, [])
  {
    forall i | 0 <= i < |listing| ensures FollowsStore(listing[i], s, []) {
      assert listing[i] in listing;
    }
    forall n | n in s.issues && Listed(s.issues[n]) ensures InCache(listing, n) {
      assert Cached(n, s.issues[n]) in listing;
    }
  }

  lemma TestIsNew(all: seq<Observation>, k: nat)
    requires DistinctTests(all) && k < |all|
    ensures !DoneTest(all[..k], all[k].test)
  {
  }

  lemma EntriesAgree(cache: seq<Cached>, s: Store, done: seq<Observation>, test: Test)
    requires InStep(cache, s, done) && !DoneTest(done, test)
    ensures forall i :: 0 <= i < |cache| ==>
              && cache[i].number in s.issues
              && (IsBroken(cache[i].issue) <==> IsBroken(s.issues[cache[i].number]))
              && (IsMatch(cache[i].issue, test) <==> IsMatch(s.issues[cache[i].number], test))
              && (IsMatch(cache[i].issue, test) ==> cache[i].issue == s.issues[cache[i].number])
  {
    forall i | 0 <= i < |cache| ensures FollowsStore(cache[i], s, done) {}
  }

  /** What the cached listing says about a fresh test is what the store says. */
  lemma MatchesAgree(cache: seq<Cached>, s: Store, done: seq<Observation>, test: Test, found: Found)
    requires InStep(cache, s, done) && !DoneTest(done, test) && IsFound(cache, test, found)
    ensures found.BrokenIssue? <==> Unreadable(s)
    ensures found.Many? ==> Ambiguous(s, test)
    ensures found.One? ==>
      Matches(s, cache[found.index].number, test) && s.issues[cache[found.index].number] == cache[found.index].issue
    ensures found.One? ==> !Ambiguous(s, test)
    ensures found.Nobody? ==> forall n :: !Matches(s, n, test)
  {
    EntriesAgree(cache, s, done, test);
    BrokenAgrees(cache, s, done, test);
    match found
    case BrokenIssue =>
    case Many =>
      var i, j :| 0 <= i < j < |cache| && IsMatch(cache[i].issue, test) && IsMatch(cache[j].issue, test);
      assert Matches(s, cache[i].number, test) && Matches(s, cache[j].number, test);
    case One(index) =>
      forall n | Matches(s, n, test) ensures n == cache[index].number {
        var i := MatchIsCached(cache, s, done, test, n);
      }
    case Nobody =>
      forall n ensures !Matches(s, n, test) {
        if Matches(s, n, test) {
          var i := MatchIsCached(cache, s, done, test, n);
        }
      }
  }

  lemma BrokenAgrees(cache: seq<Cached>, s: Store, done: seq<Observation>, test: Test)
    requires InStep(cache, s, done) && !DoneTest(done, test)
    ensures Unreadable(s) <==> exists i :: 0 <= i < |cache| && IsBroken(cache[i].issue)
  {
    EntriesAgree(cache, s, done, test);
    if Unreadable(s) {
      var n :| n in s.issues && IsBroken(s.issues[n]);
      assert InCache(cache, n);
    }
    if i :| 0 <= i < |cache| && IsBroken(cache[i].issue) {
      assert IsBroken(s.issues[cache[i].number]);
    }
  }

  lemma MatchIsCached(cache: seq<Cached>, s: Store, done: seq<Observation>, test: Test, n: nat) returns (i: nat)
    requires InStep(cache, s, done) && !DoneTest(done, test) && Matches(s, n, test)
    ensures i < |cache| && cache[i].number == n && IsMatch(cache[i].issue, test)
  {
    EntriesAgree(cache, s, done, test);
    assert InCache(cache, n);
    i :| 0 <= i < |cache| && cache[i].number == n;
  }

  lemma PublishNext(s: Store, all: seq<Observation>, k: nat, t: Store)
    requires k < |all| && Publish(s, all[..k]) == Ok(t)
    ensures Publish(s, all[..k + 1]) == Observe(t, all[k])
  {
    var more := all[..k + 1];
    assert more[..|more| - 1] == all[..k] && more[k] == all[k];
  }

  lemma {:induction false} PublishStops(s: Store, all: seq<Observation>, k: nat)
    requires k <= |all| && Publish(s, all[..k]).Failed?
    ensures Publish(s, all) == Publish(s, all[..k])
    decreases |all|
  {
    if k == |all| {
      assert all[..k] == all;
    } else {
      var init := all[..|all| - 1];
      assert init[..k] == all[..k];
      PublishStops(s, init, k);
    }
  }

  lemma ObserveOne(s: Store, o: Observation, n: nat)
    requires !Ambiguous(s, o.test) && !Unreadable(s) && ValidRun(o.run) && Matches(s, n, o.test)
    ensures Observe(s, o) == AfterUpdate(s, n, o)
  {
    forall m | Matches(s, m, o.test) ensures m == n {}
  }

  lemma UpdateInStep(cache: seq<Cached>, s: Store, all: seq<Observation>, k: nat, n: nat)
    requires k < |all| && InStep(cache, s, all[..k]) && Matches(s, n, all[k].test)
    ensures InStep(cache, s.(issues := s.issues[n := Updated(s.issues[n], all[k])]), all[..k + 1])
  {
    var t := s.(issues := s.issues[n := Updated(s.issues[n], all[k])]);
    var done := all[..k + 1];
    DoneGrows(all, k);
    forall i | 0 <= i < |cache| ensures FollowsStore(cache[i], t, done) {
      assert FollowsStore(cache[i], s, all[..k]);
    }
    forall m | m in t.issues && Listed(t.issues[m]) ensures InCache(cache, m) {
      assert Listed(s.issues[m]);
    }
  }

  lemma DoneGrows(all: seq<Observation>, k: nat)
    requires k < |all|
    ensures forall test :: DoneTest(all[..k], test) ==> DoneTest(all[..k + 1], test)
    ensures DoneTest(all[..k + 1], all[k].test)
  {
    forall test | DoneTest(all[..k], test) ensures DoneTest(all[..k + 1], test) {
      var i :| 0 <= i < k && all[..k][i].test == test;
      assert all[..k + 1][i].test == test;
    }
    assert all[..k + 1][k] == all[k];
  }

  lemma CreateInStep(cache: seq<Cached>, s: Store, all: seq<Observation>, k: nat)
    requires k < |all| && WellNumbered(s) && InStep(cache, s, all[..k])
    ensures InStep(cache + [Cached(s.next, Created(all[k]))], WithNew(s, all[k]), all[..k + 1])
  {
    var t := Store(s.issues[s.next := Created(all[k])], s.next + 1);
    var more := cache + [Cached(s.next, Created(all[k]))];
    DoneGrows(all, k);
    forall i | 0 <= i < |more| ensures FollowsStore(more[i], t, all[..k + 1]) {
      if i < |cache| {
        assert more[i] == cache[i];
        assert FollowsStore(cache[i], s, all[..k]);
      }
    }
    assert DistinctNumbers(more) by {
      forall i | 0 <= i < |cache| ensures cache[i].number != s.next {
        assert FollowsStore(cache[i], s, all[..k]);
      }
    }
    forall m | m in t.issues && Listed(t.issues[m]) ensures InCache(more, m) {
      if m == s.next {
        assert more[|cache|].number == m;
      } else {
        assert InCache(cache, m);
        var i :| 0 <= i < |cache| && cache[i].number == m;
        assert more[i].number == m;
      }
    }
  }

  // ----- requests that take effect late -----

  /**
   A whole reconcile; a create of an earlier one that takes effect only now; or an update of an
   earlier one, whose text and labels were made from the issue as it was then.
   */
  datatype Event =
    | Reconciled(all: seq<Observation>)
    | LateCreate(o: Observation)
    | LateUpdate(number: nat, was: Issue, o: Observation)

  ghost function After(s: Store, e: Event): Store {
    match e
    case Reconciled(all) => Publish(s, all).store
    case LateCreate(o) => WithNew(s, o)
    case LateUpdate(n, was, o) =>
      if !(n in s.issues && was.content.Flake?) then s
      else s.(issues := s.issues[n := Updated(was, o).(open := s.issues[n].open)])
  }

  ghost function Replay(s: Store, events: seq<Event>): Store {
    if events == [] then s else After(Replay(s, events[..|events| - 1]), events[|events| - 1])
  }

  /** The update was made for this store: its issue is the one found for the test. */
  predicate MadeFrom(t: Store, e: Event)
    requires e.LateUpdate?
  {
    Matches(t, e.number, e.o.test) && t.issues[e.number] == e.was
  }

  /** Every late update was made from some earlier store of the history. */
  ghost predicate History(s: Store, events: seq<Event>) {
    events == [] ||
    (var init, last := events[..|events| - 1], events[|events| - 1];
     && History(s, init)
     && (last.LateUpdate? ==> exists j :: 0 <= j <= |init| && MadeFrom(Replay(s, init[..j]), last)))
  }

  // ----- what no event changes -----

  /** An issue stays open and keeps its test. */
  predicate KeepsTest(a: Issue, b: Issue) {
    && a.open == b.open
    && (if a.content.Flake? then b.content.Flake? && b.content.record.test == a.content.record.test else a == b)
  }

  predicate StoreKeeps(s: Store, t: Store) {
    s.next <= t.next && forall n :: n in s.issues ==> n in t.issues && KeepsTest(s.issues[n], t.issues[n])
  }

  lemma StoreKeepsThrough(s: Store, t: Store, u: Store)
    requires StoreKeeps(s, t) && StoreKeeps(t, u)
    ensures StoreKeeps(s, u)
  {
    forall n | n in s.issues ensures n in u.issues && KeepsTest(s.issues[n], u.issues[n]) {
      assert n in t.issues;
    }
  }

  lemma AfterKeeps(s: Store, e: Event)
    requires WellNumbered(s)
    requires e.LateUpdate? ==> e.number in s.issues && IsMatch(s.issues[e.number], e.o.test) && e.was.content.Flake?
    ensures WellNumbered(After(s, e)) && StoreKeeps(s, After(s, e))
  {
    if e.Reconciled? {
      PublishGrows(s, e.all);
    }
  }

  /** From any point of a history on, issues stay open and keep their tests. */
  lemma {:induction false} HistoryKeeps(s: Store, events: seq<Event>, j: nat)
    requires WellNumbered(s) && History(s, events) && j <= |events|
    ensures WellNumbered(Replay(s, events)) && StoreKeeps(Replay(s, events[..j]), Replay(s, events))
    decreases |events|, 0
  {
    if events == [] {
      assert events[..j] == [];
    } else {
      var init, last := events[..|events| - 1], events[|events| - 1];
      if last.LateUpdate? {
        LateUpdateFits(s, init, last);
      }
      HistoryKeeps(s, init, if j < |events| then j else |init|);
      AfterKeeps(Replay(s, init), last);
      if j < |events| {
        KeepsPrefix(s, events, j);
      } else {
        assert events[..j] == events;
      }
    }
  }

  lemma KeepsPrefix(s: Store, events: seq<Event>, j: nat)
    requires j < |events|
    requires StoreKeeps(Replay(s, events[..|events| - 1][..j]), Replay(s, events[..|events| - 1]))
    requires StoreKeeps(Replay(s, events[..|events| - 1]), Replay(s, events))
    ensures StoreKeeps(Replay(s, events[..j]), Replay(s, events))
  {
    assert events[..|events| - 1][..j] == events[..j];
    StoreKeepsThrough(Replay(s, events[..j]), Replay(s, events[..|events| - 1]), Replay(s, events));
  }

  /** A late update finds its issue open and for the same test. */
  lemma LateUpdateFits(s: Store, init: seq<Event>, last: Event)
    requires WellNumbered(s) && History(s, init) && last.LateUpdate?
    requires exists j :: 0 <= j <= |init| && MadeFrom(Replay(s, init[..j]), last)
    ensures Matches(Replay(s, init), last.number, last.o.test) && last.was.content.Flake?
    decreases |init|, 1
  {
    var j :| 0 <= j <= |init| && MadeFrom(Replay(s, init[..j]), last);
    HistoryKeeps(s, init, j);
  }

  // ----- duplicates over histories -----

  ghost predicate HasOpen(s: Store, test: Test) {
    exists n :: Matches(s, n, test)
  }

  /** A late create finds an open issue for its test. */
  ghost predicate Collides(s: Store, events: seq<Event>, k: int)
    requires 0 <= k < |events|
  {
    events[k].LateCreate? && HasOpen(Replay(s, events[..k]), events[k].o.test)
  }

  lemma KeepsMatches(s: Store, t: Store, n: nat, test: Test)
    requires StoreKeeps(s, t) && Matches(s, n, test)
    ensures Matches(t, n, test)
  {
  }

  lemma DuplicatesStay(s: Store, t: Store)
    requires StoreKeeps(s, t) && !OneOpenIssue(s)
    ensures !OneOpenIssue(t)
  {
    var test: Test :| Ambiguous(s, test);
    var m, n :| m != n && Matches(s, m, test) && Matches(s, n, test);
    KeepsMatches(s, t, m, test);
    KeepsMatches(s, t, n, test);
    assert Ambiguous(t, test);
  }

  lemma LateCollides(s: Store, o: Observation)
    requires WellNumbered(s) && OneOpenIssue(s)
    ensures OneOpenIssue(WithNew(s, o)) <==> !HasOpen(s, o.test)
  {
    var t := WithNew(s, o);
    assert Matches(t, s.next, o.test);
    if HasOpen(s, o.test) {
      var n :| Matches(s, n, o.test);
      assert Matches(t, n, o.test) && n != s.next;
      assert Ambiguous(t, o.test);
    } else {
      assert forall k, test :: Matches(t, k, test) ==> Matches(s, k, test) || (k == s.next && test == o.test);
      assert forall test: Test :: Ambiguous(t, test) ==> Ambiguous(s, test);
    }
  }

  lemma LateUpdateAddsNone(s: Store, e: Event)
    requires e.LateUpdate? && Matches(s, e.number, e.o.test) && e.was.content.Flake? && OneOpenIssue(s)
    ensures OneOpenIssue(After(s, e))
  {
    var t := After(s, e);
    assert forall k, test :: Matches(t, k, test) ==> Matches(s, k, test);
    assert forall test: Test :: Ambiguous(t, test) ==> Ambiguous(s, test);
  }

  ghost predicate NoCollisions(s: Store, events: seq<Event>) {
    forall k :: 0 <= k < |events| ==> !Collides(s, events, k)
  }

  lemma NoCollisionsStep(s: Store, events: seq<Event>, init: seq<Event>, last: Event)
    requires events == init + [last]
    ensures NoCollisions(s, events) <==>
      NoCollisions(s, init) && !(last.LateCreate? && HasOpen(Replay(s, init), last.o.test))
  {
    var n := |init|;
    assert events[..n] == init && events[n] == last;
    forall k | 0 <= k < n ensures Collides(s, events, k) <==> Collides(s, init, k) {
      assert init[..k] == events[..k];
    }
    assert Collides(s, events, n) <==> last.LateCreate? && HasOpen(Replay(s, init), last.o.test);
    if NoCollisions(s, events) {
      forall k | 0 <= k < n ensures !Collides(s, init, k) {
        assert !Collides(s, events, k);
      }
    }
  }

  /**
   Over any history of reconciles and late requests: no test has two open issues if and only if
   no create took effect late while an open issue for its test existed.
   */
  lemma {:induction false} NoDuplicateIff(s: Store, events: seq<Event>)
    requires WellNumbered(s) && OneOpenIssue(s) && History(s, events)
    ensures OneOpenIssue(Replay(s, events)) <==> NoCollisions(s, events)
    decreases |events|
  {
    if events != [] {
      var init, last := events[..|events| - 1], events[|events| - 1];
      var before := Replay(s, init);
      NoDuplicateIff(s, init);
      HistoryKeeps(s, init, |init|);
      NoCollisionsStep(s, events, init, last);
      if last.LateUpdate? {
        LateUpdateFits(s, init, last);
      }
      AfterKeeps(before, last);
      if !OneOpenIssue(before) {
        DuplicatesStay(before, Replay(s, events));
      } else {
        OneEventIff(before, last);
      }
    }
  }

  lemma OneEventIff(s: Store, e: Event)
    requires WellNumbered(s) && OneOpenIssue(s)
    requires e.LateUpdate? ==> Matches(s, e.number, e.o.test) && e.was.content.Flake?
    ensures OneOpenIssue(After(s, e)) <==> !(e.LateCreate? && HasOpen(s, e.o.test))
  {
    match e
    case Reconciled(all) => PublishNeverDuplicates(s, all);
    case LateCreate(o) => LateCollides(s, o);
    case LateUpdate(_, _, _) => LateUpdateAddsNone(s, e);
  }

  /** A create that is given up, published again by the next run, and then takes effect: two open issues. */
  lemma LateCreateDuplicates(o: Observation)
    requires ValidRun(o.run)
    ensures var nothing := Store(map[], 0); var first, second := o.(request := LostUnapplied), o.(request := Answered);
      !OneOpenIssue(Replay(nothing, [Reconciled([first]), Reconciled([second]), LateCreate(first)]))
  {
    var nothing := Store(map[], 0);
    var first, second := o.(request := LostUnapplied), o.(request := Answered);
    var events := [Reconciled([first]), Reconciled([second]), LateCreate(first)];
    PublishOne(nothing, first);
    PublishOne(nothing, second);
    ReplayThree(nothing, events[0], events[1], events[2]);
    var s := Replay(nothing, [events[0], events[1]]);
    assert s == WithNew(nothing, second);
    assert Matches(s, 0, o.test);
    LateCollides(s, first);
  }

  lemma PublishOne(s: Store, o: Observation)
    ensures Publish(s, [o]) == Observe(s, o)
  {
    assert [o][..0] == [];
  }

  lemma ReplayThree(s: Store, a: Event, b: Event, c: Event)
    ensures Replay(s, [a, b]) == After(After(s, a), b)
    ensures Replay(s, [a, b, c]) == After(After(After(s, a), b), c)
  {
    assert [a][..0] == [] && Replay(s, [a]) == After(s, a);
    assert [a, b][..1] == [a] && Replay(s, [a, b]) == After(Replay(s, [a]), b);
    assert [a, b, c][..2] == [a, b] && Replay(s, [a, b, c]) == After(Replay(s, [a, b]), c);
  }

  // ----- run lists over histories -----

  /** No issue loses a run. */
  predicate RunsGrow(s: Store, t: Store) {
    forall n :: n in s.issues && s.issues[n].content.Flake? ==>
      && n in t.issues && t.issues[n].content.Flake?
      && Prefix(s.issues[n].content.record.runs, t.issues[n].content.record.runs)
  }

  /** Every event of the history only adds runs. */
  ghost predicate HistoryGrows(s: Store, events: seq<Event>) {
    events == [] ||
    (HistoryGrows(s, events[..|events| - 1]) && RunsGrow(Replay(s, events[..|events| - 1]), Replay(s, events)))
  }

  /** A late update finds a run list other than the one it was made from or makes. */
  predicate Overwrites(s: Store, e: Event) {
    && e.LateUpdate? && e.number in s.issues && s.issues[e.number].content.Flake? && e.was.content.Flake?
    && s.issues[e.number].content.record.runs != e.was.content.record.runs
    && s.issues[e.number].content.record.runs != AddRun(e.was.content.record.runs, e.o.run)
  }

  ghost predicate NoOverwrites(s: Store, events: seq<Event>) {
    events == [] ||
    (NoOverwrites(s, events[..|events| - 1]) && !Overwrites(Replay(s, events[..|events| - 1]), events[|events| - 1]))
  }

  lemma {:induction false} GrownSince(s: Store, events: seq<Event>, j: nat)
    requires HistoryGrows(s, events) && j <= |events|
    ensures RunsGrow(Replay(s, events[..j]), Replay(s, events))
    decreases |events|
  {
    if j == |events| {
      assert events[..j] == events;
    } else {
      var init := events[..|events| - 1];
      GrownSince(s, init, j);
      assert init[..j] == events[..j];
    }
  }

  lemma PublishAddsRuns(s: Store, e: Event)
    requires WellNumbered(s) && !e.LateUpdate?
    ensures RunsGrow(s, After(s, e))
  {
    if e.Reconciled? {
      PublishGrows(s, e.all);
      forall n | n in s.issues && s.issues[n].content.Flake?
        ensures n in After(s, e).issues && Grows(s.issues[n], After(s, e).issues[n])
      {
      }
    }
  }

  lemma LateUpdateGrowsIff(s: Store, e: Event)
    requires e.LateUpdate? && Matches(s, e.number, e.o.test) && e.was.content.Flake?
    requires Prefix(e.was.content.record.runs, s.issues[e.number].content.record.runs)
    ensures RunsGrow(s, After(s, e)) <==> !Overwrites(s, e)
  {
    var was, now, next := e.was.content.record.runs, s.issues[e.number].content.record.runs,
      AddRun(e.was.content.record.runs, e.o.run);
    assert After(s, e).issues[e.number].content.record.runs == next;
    assert now <= next <==> now == was || now == next;
  }

  /**
   Over any history of reconciles and late requests: run lists only grow if and only if every
   late update found its issue's run list as it left it, or as it makes it. So it is a run that
   another reconcile has added meanwhile that gets lost.
   */
  lemma {:induction false} RunsGrowIff(s: Store, events: seq<Event>)
    requires WellNumbered(s) && History(s, events)
    ensures HistoryGrows(s, events) <==> NoOverwrites(s, events)
    decreases |events|
  {
    if events != [] {
      var init, last := events[..|events| - 1], events[|events| - 1];
      RunsGrowIff(s, init);
      HistoryKeeps(s, init, |init|);
      if !last.LateUpdate? {
        PublishAddsRuns(Replay(s, init), last);
      } else if HistoryGrows(s, init) {
        LateUpdateFits(s, init, last);
        var j :| 0 <= j <= |init| && MadeFrom(Replay(s, init[..j]), last);
        GrownSince(s, init, j);
        LateUpdateGrowsIff(Replay(s, init), last);
      }
    }
  }

  predicate RunsAre(s: Store, n: nat, runs: seq<Text>) {
    n in s.issues && s.issues[n].content.Flake? && s.issues[n].content.record.runs == runs
  }

  /** An update given up by one run and applied after the next run's: the next run's entry is lost. */
  lemma LateUpdateOverwrites(o: Observation, first: Text, second: Text)
    requires ValidRun(first) && ValidRun(second) && o.run != first && o.run != second && first != second
    ensures var s := WithNew(Store(map[], 0), o);
      var a, b := o.(run := first, request := LostUnapplied), o.(run := second, request := Answered);
      var t := Replay(s, [Reconciled([a]), Reconciled([b]), LateUpdate(0, s.issues[0], a)]);
      RunsAre(Replay(s, [Reconciled([a]), Reconciled([b])]), 0, [o.run, second]) && RunsAre(t, 0, [o.run, first])
  {
    var s := WithNew(Store(map[], 0), o);
    var a, b := o.(run := first, request := LostUnapplied), o.(run := second, request := Answered);
    assert Matches(s, 0, o.test) && !Ambiguous(s, o.test) && !Unreadable(s);
    PublishOne(s, a);
    PublishOne(s, b);
    ObserveOne(s, a, 0);
    ObserveOne(s, b, 0);
    ReplayThree(s, Reconciled([a]), Reconciled([b]), LateUpdate(0, s.issues[0], a));
  }
}
