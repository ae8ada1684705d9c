/**
 What the planner of scripts/ci-test-impact.py promises, in terms of the changed paths themselves:
 which changes widen to the workspace, and which suites and library tests a change runs.
 */
module ImpactLaws {
  import opened Wrappers
  import opened Closures
  import opened ImpactPlan

  // ----- paths -----

  /** Build and test policy that every crate depends on. */
  predicate PolicyPath(p: string) {
    || p in {"Cargo.toml", "Cargo.lock", ".config/nextest.toml"}
    || ".cargo/" <= p || "vendor/" <= p || ".github/" <= p || "scripts/" <= p
  }

  /** Documentation, and the one package file that the script tier owns. */
  predicate Irrelevant(p: string) {
    (|p| >= 3 && p[|p| - 3..] == ".md") || "docs/" <= p || p == "hub-web/package.json"
  }

  predicate Holds(crate: Crate, p: string) {
    crate.member + "/" <= p
  }

  /** Crate k is the first whose directory holds the path. */
  predicate FirstHolder(crates: seq<Crate>, p: string, k: nat) {
    k < |crates| && Holds(crates[k], p) && forall j :: 0 <= j < k ==> !Holds(crates[j], p)
  }

  lemma {:induction false} OwnerIsFirst(crates: seq<Crate>, p: string)
    ensures Owner(crates, p).None? <==> forall k :: 0 <= k < |crates| ==> !Holds(crates[k], p)
    ensures forall k: nat :: FirstHolder(crates, p, k) ==> Owner(crates, p) == Some(crates[k].name)
    ensures Owner(crates, p).Some? ==>
      exists k: nat :: FirstHolder(crates, p, k) && crates[k].name == Owner(crates, p).value
    decreases |crates|
  {
    if crates != [] {
      var rest := crates[1..];
      OwnerIsFirst(rest, p);
      if Holds(crates[0], p) {
        assert FirstHolder(crates, p, 0);
      } else {
        forall k: nat | FirstHolder(crates, p, k) ensures Owner(crates, p) == Some(crates[k].name) {
          assert k > 0;
          assert FirstHolder(rest, p, k - 1) by {
            assert rest[k - 1] == crates[k];
            assert forall j :: 0 <= j < k - 1 ==> rest[j] == crates[j + 1];
          }
        }
        if Owner(crates, p).Some? {
          var k: nat :| FirstHolder(rest, p, k) && rest[k].name == Owner(rest, p).value;
          assert crates[k + 1] == rest[k];
          assert forall j :: 0 < j < k + 1 ==> crates[j] == rest[j - 1];
          assert FirstHolder(crates, p, k + 1);
        }
        if forall k :: 0 <= k < |crates| ==> !Holds(crates[k], p) {
          assert forall k :: 0 <= k < |rest| ==> rest[k] == crates[k + 1];
        }
      }
    }
  }

  /**
   The change is settled, so the plan is not widened for its paths, if and only if no path is
   policy and each lies in a crate or is irrelevant.
   */
  lemma SettledIff(crates: seq<Crate>, paths: seq<string>)
    ensures Settled(crates, paths) <==> forall i :: 0 <= i < |paths| ==>
      !PolicyPath(paths[i]) && (Irrelevant(paths[i]) || exists k :: 0 <= k < |crates| && Holds(crates[k], paths[i]))
  {
    forall i | 0 <= i < |paths|
      ensures Classify(crates, paths[i]) == Policy <==> PolicyPath(paths[i])
      ensures Classify(crates, paths[i]) == Unmapped <==>
        !PolicyPath(paths[i]) && !Irrelevant(paths[i]) && forall k :: 0 <= k < |crates| ==> !Holds(crates[k], paths[i])
    {
      OwnerIsFirst(crates, paths[i]);
    }
  }

  /** A changed path is filed under the crate that is the first to hold it, and under no other. */
  lemma {:induction false} FiledIff(crates: seq<Crate>, paths: seq<string>, name: string, p: string)
    ensures p in Changed(crates, paths, name) <==>
      p in paths && !PolicyPath(p) && exists k: nat :: FirstHolder(crates, p, k) && crates[k].name == name
    decreases |paths|
  {
    OwnerIsFirst(crates, p);
    assert Classify(crates, p) == Owned(name) <==>
      !PolicyPath(p) && exists k: nat :: FirstHolder(crates, p, k) && crates[k].name == name;
    if paths != [] {
      var init, last := paths[..|paths| - 1], paths[|paths| - 1];
      assert paths == init + [last];
      FiledIff(crates, init, name, p);
    }
  }

  // ----- modules -----

  predicate EndsInRs(m: string) {
    |m| >= 3 && m[|m| - 3..] == ".rs"
  }

  /** The path is, or lies in, the source of this top-level module. */
  predicate SourceOf(p: string, m: string) {
    && '/' !in m
    && (|| p == "cas-cli/src/" + m + ".rs" || "cas-cli/src/" + m + ".rs/" <= p
        || (!EndsInRs(m) && (p == "cas-cli/src/" + m || "cas-cli/src/" + m + "/" <= p)))
  }

  /** `x` is the first component of `q`. */
  predicate FirstComponent(q: string, x: string) {
    '/' !in x && (q == x || x + "/" <= q)
  }

  lemma {:induction false} UpToSlashIs(q: string, x: string)
    ensures FirstComponent(q, x) <==> x == UpToSlash(q)
    decreases |q|
  {
    if q == "" || q[0] == '/' {
      assert x != "" ==> x[0] in x;
    } else if x != "" && x[0] == q[0] {
      UpToSlashIs(q[1..], x[1..]);
      assert x == [x[0]] + x[1..] && q == [q[0]] + q[1..];
      assert x + "/" == [x[0]] + (x[1..] + "/");
      assert '/' in x ==> '/' in x[1..];
      ConsPrefix(q[0], x[1..] + "/", q[1..]);
    }
  }

  lemma ConsPrefix(c: char, a: string, b: string)
    ensures [c] + a <= [c] + b <==> a <= b
  {
    if [c] + a <= [c] + b {
      assert ([c] + b)[1..] == b && ([c] + a)[1..] == a;
    }
  }

  lemma AppendPrefix(a: string, b: string, c: string)
    ensures a + b <= a + c <==> b <= c
    ensures a + b == a + c <==> b == c
  {
    assert (a + b)[|a|..] == b && (a + c)[|a|..] == c;
  }

  lemma UnderSrc(p: string, x: string)
    requires InSrc(p)
    ensures FirstComponent(p[|SRC|..], x) <==> '/' !in x && (p == SRC + x || SRC + x + "/" <= p)
  {
    var q := p[|SRC|..];
    assert p == SRC + q;
    AppendPrefix(SRC, x, q);
    AppendPrefix(SRC, x + "/", q);
    assert SRC + x + "/" == SRC + (x + "/");
  }

  lemma SourceInSrc(p: string, m: string)
    requires SourceOf(p, m)
    ensures InSrc(p)
  {
    assert SRC == "cas-cli/src/";
    assert SRC + m + ".rs" == SRC + (m + ".rs") && SRC + m + ".rs/" == SRC + (m + ".rs/");
    assert SRC + m + "/" == SRC + (m + "/");
  }

  /** The module the planner takes a source file for. */
  lemma ModuleIff(p: string, m: string)
    requires InSrc(p)
    ensures ModuleOf(p) == m <==> SourceOf(p, m)
  {
    var q := p[|SRC|..];
    var part := UpToSlash(q);
    UpToSlashIs(q, part);
    UpToSlashIs(q, m);
    UpToSlashIs(q, m + ".rs");
    UnderSrc(p, m);
    UnderSrc(p, m + ".rs");
    assert SRC + (m + ".rs") == SRC + m + ".rs" && SRC + (m + ".rs") + "/" == SRC + m + ".rs/";
    assert '/' in m + ".rs" <==> '/' in m;
    assert (m + ".rs")[..|m + ".rs"| - 3] == m && EndsWith(m + ".rs", ".rs");
    if EndsWith(part, ".rs") {
      assert part == part[..|part| - 3] + ".rs";
    }
  }

  lemma ReachFrom(edges: Edges, seeds: set<string>, x: string)
    ensures Reachable(edges, seeds, x) <==> exists seed :: seed in seeds && Reachable(edges, {seed}, x)
  {
    if Reachable(edges, seeds, x) {
      var path: seq<string> :| Leads(edges, seeds, path, x);
      assert Leads(edges, {path[0]}, path, x);
    }
    if seed :| seed in seeds && Reachable(edges, {seed}, x) {
      var path: seq<string> :| Leads(edges, {seed}, path, x);
      assert Leads(edges, seeds, path, x);
    }
  }

  /** A changed source file's module, or one that depends on it directly or not. */
  ghost predicate ChangedModule(edges: Edges, paths: seq<string>, m: string) {
    exists i, seed :: 0 <= i < |paths| && SourceOf(paths[i], seed) && Reachable(edges, {seed}, m)
  }

  /** The closure that the planner works with holds exactly the changed modules. */
  lemma ClosureIff(edges: Edges, paths: seq<string>, modules: set<string>, m: string)
    requires IsClosure(edges, ModulesOf(paths), modules)
    ensures m in modules <==> ChangedModule(edges, paths, m)
  {
    ClosureIsReachability(edges, ModulesOf(paths), modules, m);
    ReachFrom(edges, ModulesOf(paths), m);
    if ChangedModule(edges, paths, m) {
      var i, seed :| 0 <= i < |paths| && SourceOf(paths[i], seed) && Reachable(edges, {seed}, m);
      SourceInSrc(paths[i], seed);
      ModuleIff(paths[i], seed);
      assert seed in ModulesOf(paths);
    }
    if seed :| seed in ModulesOf(paths) && Reachable(edges, {seed}, m) {
      var i :| 0 <= i < |paths| && InSrc(paths[i]) && ModuleOf(paths[i]) == seed;
      ModuleIff(paths[i], seed);
    }
  }

  // ----- suites -----

  /** The sources of a suite. */
  predicate SuiteFile(stem: string, p: string) {
    p == "cas-cli/tests/" + stem + ".rs" || "cas-cli/tests/" + stem + "/" <= p
  }

  /** A change whose reach within the crate cannot be told: a crate root, a removed file, or a macro. */
  predicate Unclear(cas: CasFacts, p: string) {
    || p in {"cas-cli/src/lib.rs", "cas-cli/src/main.rs"}
    || p !in cas.present
    || ("cas-cli/src/" <= p && p in cas.macros)
  }

  /** A changed source file reaches a suite whose imports are vague or lead back to the file's module. */
  ghost predicate ReachesBySource(cas: CasFacts, p: string, stem: string) {
    || (stem in cas.vague && "cas-cli/src/" <= p)
    || (stem in cas.imports && exists seed, m ::
          SourceOf(p, seed) && Reachable(cas.moduleEdges, {seed}, m) && m in cas.imports[stem])
  }

  /** A changed test file reaches its own suite, all suites if it belongs to none, and the guard suite. */
  predicate ReachesByTest(cas: CasFacts, p: string, stem: string) {
    || SuiteFile(stem, p)
    || ("cas-cli/tests/" <= p && stem == "builtin_archive_portability_test")
    || ("cas-cli/tests/" <= p && forall other | other in cas.mapping :: !SuiteFile(other, p))
  }

  /** Every reason for one changed path to run a suite. */
  ghost predicate Reaches(cas: CasFacts, p: string, stem: string) {
    Unclear(cas, p) || "cas-cli/src/builtins/" <= p || ReachesBySource(cas, p, stem) || ReachesByTest(cas, p, stem)
  }

  ghost predicate SomeReaches(cas: CasFacts, paths: seq<string>, stem: string) {
    exists i :: 0 <= i < |paths| && Reaches(cas, paths[i], stem)
  }

  /** A recorded failure of the integration binary that holds the suite. */
  predicate FailedBefore(cas: CasFacts, recorded: seq<Failure>, stem: string)
    requires stem in cas.mapping
  {
    exists i :: 0 <= i < |recorded| && recorded[i].package == "cas" && recorded[i].binary != "cas"
                && recorded[i].binary == cas.mapping[stem]
  }

  lemma ImportsIff(cas: CasFacts, paths: seq<string>, modules: set<string>, stem: string)
    requires IsClosure(cas.moduleEdges, ModulesOf(paths), modules)
    ensures ImportsOne(cas, stem, modules) <==>
      stem in cas.imports && exists m :: m in cas.imports[stem] && ChangedModule(cas.moduleEdges, paths, m)
  {
    forall m ensures m in modules <==> ChangedModule(cas.moduleEdges, paths, m) {
      ClosureIff(cas.moduleEdges, paths, modules, m);
    }
    if stem in cas.imports && exists m :: m in cas.imports[stem] && ChangedModule(cas.moduleEdges, paths, m) {
      var m :| m in cas.imports[stem] && ChangedModule(cas.moduleEdges, paths, m);
      assert m in cas.imports[stem] * modules;
    }
    if ImportsOne(cas, stem, modules) {
      var m :| m in cas.imports[stem] * modules;
      assert ChangedModule(cas.moduleEdges, paths, m);
    }
  }

  /** The suites that the planner selects for the changed files are those that some changed path reaches. */
  lemma TouchedIff(cas: CasFacts, paths: seq<string>, modules: set<string>, stem: string)
    requires IsClosure(cas.moduleEdges, ModulesOf(paths), modules)
    ensures Touched(cas, paths, modules, stem) <==> SomeReaches(cas, paths, stem)
  {
    ImportsIff(cas, paths, modules, stem);
    if Touched(cas, paths, modules, stem) { TouchedIsReached(cas, paths, modules, stem); }
    if i :| 0 <= i < |paths| && Reaches(cas, paths[i], stem) {
      ReachedIsTouched(cas, paths, modules, stem, i);
    }
  }

  lemma TouchedIsReached(cas: CasFacts, paths: seq<string>, modules: set<string>, stem: string)
    requires Touched(cas, paths, modules, stem)
    requires ImportsOne(cas, stem, modules) ==>
      stem in cas.imports && exists m :: m in cas.imports[stem] && ChangedModule(cas.moduleEdges, paths, m)
    ensures SomeReaches(cas, paths, stem)
  {
    if ImportsOne(cas, stem, modules) {
      var m :| m in cas.imports[stem] && ChangedModule(cas.moduleEdges, paths, m);
      var i, seed :| 0 <= i < |paths| && SourceOf(paths[i], seed) && Reachable(cas.moduleEdges, {seed}, m);
      assert Reaches(cas, paths[i], stem);
    } else if SharedInput(cas, paths) {
      var i :| 0 <= i < |paths| && Unowned(cas, paths[i]);
      assert Reaches(cas, paths[i], stem);
    } else {
      OtherReasons(cas, paths, modules, stem);
    }
  }

  lemma OtherReasons(cas: CasFacts, paths: seq<string>, modules: set<string>, stem: string)
    requires Touched(cas, paths, modules, stem) && !ImportsOne(cas, stem, modules) && !SharedInput(cas, paths)
    ensures SomeReaches(cas, paths, stem)
  {
    assert SRC + "builtins/" == "cas-cli/src/builtins/";
    if Wide(cas, paths) {
      WideIff(cas, paths);
      var i :| 0 <= i < |paths| && Unclear(cas, paths[i]);
      assert Reaches(cas, paths[i], stem);
    } else if AnyOwned(stem, paths) {
      var i :| 0 <= i < |paths| && OwnsPath(stem, paths[i]);
      assert Reaches(cas, paths[i], stem);
    } else if AnyBuiltin(paths) {
      var i :| 0 <= i < |paths| && StartsWith(paths[i], SRC + "builtins/");
      assert Reaches(cas, paths[i], stem);
    } else if AnySrc(paths) && stem in cas.vague {
      var i :| 0 <= i < |paths| && InSrc(paths[i]);
      assert Reaches(cas, paths[i], stem);
    } else {
      assert !Picked(cas, paths, modules, stem) && AnyTest(paths) && stem == GUARD_SUITE;
      var i :| 0 <= i < |paths| && InTests(paths[i]);
      assert ReachesByTest(cas, paths[i], stem);
      assert Reaches(cas, paths[i], stem);
    }
  }

  lemma ReachedIsTouched(cas: CasFacts, paths: seq<string>, modules: set<string>, stem: string, i: nat)
    requires i < |paths| && Reaches(cas, paths[i], stem)
    requires ImportsOne(cas, stem, modules) <==>
      stem in cas.imports && exists m :: m in cas.imports[stem] && ChangedModule(cas.moduleEdges, paths, m)
    ensures Touched(cas, paths, modules, stem)
  {
    var p := paths[i];
    assert SRC + "builtins/" == "cas-cli/src/builtins/";
    assert SuiteFile(stem, p) ==> AnyOwned(stem, paths);
    assert "cas-cli/tests/" <= p ==> InTests(p) && AnyTest(paths);
    assert Unclear(cas, p) ==> Widens(cas, p);
    if ReachesBySource(cas, p, stem) && !(stem in cas.vague && "cas-cli/src/" <= p) {
      var seed, m :| SourceOf(p, seed) && Reachable(cas.moduleEdges, {seed}, m) && m in cas.imports[stem];
      SourceInSrc(p, seed);
      assert ChangedModule(cas.moduleEdges, paths, m);
    }
  }

  /**
   The suites of the scoped command, exactly: a suite of the inventory that some changed path
   reaches, or whose binary has a recorded failure.
   */
  lemma SuiteChosenIff(cas: CasFacts, paths: seq<string>, modules: set<string>, recorded: seq<Failure>, c: Command,
                       stem: string)
    requires IsClosure(cas.moduleEdges, ModulesOf(paths), modules) && IsScoped(cas, paths, modules, recorded, c)
    ensures c.stems.Some? && (stem in c.stems.value <==>
      stem in cas.mapping && (SomeReaches(cas, paths, stem) || FailedBefore(cas, recorded, stem)))
  {
    TouchedIff(cas, paths, modules, stem);
    assert stem in cas.mapping ==> (Failed(cas, recorded, stem) <==> FailedBefore(cas, recorded, stem));
  }

  /** The test belongs to the suite: any test of its own binary, or those under its name in a shared one. */
  predicate TestOf(cas: CasFacts, stem: string, binary: string, test: string) {
    && stem in cas.mapping && cas.mapping[stem] == binary
    && (stem == binary || exists i :: 0 <= i <= |test| && stem + "::" <= test[i..])
  }

  lemma SuiteRunsMeans(cas: CasFacts, paths: seq<string>, modules: set<string>, recorded: seq<Failure>, c: Command,
                       f: Failure)
    requires IsClosure(cas.moduleEdges, ModulesOf(paths), modules) && IsScoped(cas, paths, modules, recorded, c)
    ensures SuiteRuns(cas, c, f) <==> exists stem ::
      TestOf(cas, stem, f.binary, f.test) && (SomeReaches(cas, paths, stem) || FailedBefore(cas, recorded, stem))
  {
    forall stem
      ensures StemRuns(cas, stem, f) <==> TestOf(cas, stem, f.binary, f.test)
      ensures stem in c.stems.value <==>
        stem in cas.mapping && (SomeReaches(cas, paths, stem) || FailedBefore(cas, recorded, stem))
    {
      SuiteChosenIff(cas, paths, modules, recorded, c, stem);
    }
  }

  /** Which tests of an integration binary the scoped command runs, exactly. */
  lemma SuiteTestRunsIff(cas: CasFacts, paths: seq<string>, modules: set<string>, recorded: seq<Failure>, c: Command,
                         f: Failure)
    requires IsClosure(cas.moduleEdges, ModulesOf(paths), modules) && IsScoped(cas, paths, modules, recorded, c)
    requires f.package == "cas" && f.binary != "cas"
    ensures Runs(c, f) <==> exists stem ::
      TestOf(cas, stem, f.binary, f.test) && (SomeReaches(cas, paths, stem) || FailedBefore(cas, recorded, stem))
  {
    SuiteBinaryRunsIff(cas, paths, modules, recorded, c, f);
    SuiteRunsMeans(cas, paths, modules, recorded, c, f);
  }

  // ----- the library -----

  /** The library's tests are narrowed to the changed modules only where the reach of every change is known. */
  ghost predicate Narrowed(cas: CasFacts, paths: seq<string>) {
    && (forall i :: 0 <= i < |paths| ==> !Unclear(cas, paths[i]))
    && !cas.rootUncertain
    && forall m | ChangedModule(cas.moduleEdges, paths, m) :: m in cas.declared
  }

  /** A changed path builds the library. */
  predicate Builds(cas: CasFacts, paths: seq<string>) {
    exists i :: 0 <= i < |paths| && ("cas-cli/src/" <= paths[i] || Unclear(cas, paths[i]))
  }

  predicate LibFailedBefore(recorded: seq<Failure>, test: string) {
    exists i :: 0 <= i < |recorded| && recorded[i] == Failure("cas", "cas", test)
  }

  /** The name of a changed module, followed by "::", occurs in the name of the test. */
  ghost predicate NamesChanged(cas: CasFacts, paths: seq<string>, test: string) {
    exists m, i :: ChangedModule(cas.moduleEdges, paths, m) && 0 <= i <= |test| && m + "::" <= test[i..]
  }

  lemma WideIff(cas: CasFacts, paths: seq<string>)
    ensures Wide(cas, paths) <==> exists i :: 0 <= i < |paths| && Unclear(cas, paths[i])
    ensures Built(cas, paths) <==> Builds(cas, paths)
  {
    forall i | 0 <= i < |paths| ensures Widens(cas, paths[i]) <==> Unclear(cas, paths[i]) {
      assert SRC + "lib.rs" == "cas-cli/src/lib.rs" && SRC + "main.rs" == "cas-cli/src/main.rs";
    }
    if AnySrc(paths) {
      var i :| 0 <= i < |paths| && InSrc(paths[i]);
      assert "cas-cli/src/" <= paths[i];
    }
    if Wide(cas, paths) {
      var i :| 0 <= i < |paths| && Widens(cas, paths[i]);
      assert Unclear(cas, paths[i]);
    }
    if Builds(cas, paths) {
      var i :| 0 <= i < |paths| && ("cas-cli/src/" <= paths[i] || Unclear(cas, paths[i]));
      assert InSrc(paths[i]) || Widens(cas, paths[i]);
    }
  }

  lemma NarrowedIff(cas: CasFacts, paths: seq<string>, modules: set<string>)
    requires IsClosure(cas.moduleEdges, ModulesOf(paths), modules)
    ensures ChangedUnits(cas, paths, modules).Some? <==> Narrowed(cas, paths)
  {
    WideIff(cas, paths);
    forall m ensures m in modules <==> ChangedModule(cas.moduleEdges, paths, m) {
      ClosureIff(cas.moduleEdges, paths, modules, m);
    }
  }

  lemma NamesChangedIff(cas: CasFacts, paths: seq<string>, modules: set<string>, test: string)
    requires IsClosure(cas.moduleEdges, ModulesOf(paths), modules)
    ensures NamesOne(test, modules) <==> NamesChanged(cas, paths, test)
  {
    forall m ensures m in modules <==> ChangedModule(cas.moduleEdges, paths, m) {
      ClosureIff(cas.moduleEdges, paths, modules, m);
    }
    if NamesOne(test, modules) {
      var m :| m in modules && Contains(test, m + "::");
      var i :| 0 <= i <= |test| && m + "::" <= test[i..];
      assert ChangedModule(cas.moduleEdges, paths, m);
    }
    if NamesChanged(cas, paths, test) {
      var m, i :| ChangedModule(cas.moduleEdges, paths, m) && 0 <= i <= |test| && m + "::" <= test[i..];
      assert m in modules && Contains(test, m + "::");
    }
  }

  lemma LibRunsEither(cas: CasFacts, paths: seq<string>, modules: set<string>, recorded: seq<Failure>, c: Command,
                      f: Failure)
    requires IsScoped(cas, paths, modules, recorded, c) && f.package == "cas" && f.binary == "cas"
    ensures Runs(c, f) <==>
      || (Built(cas, paths) && (ChangedUnits(cas, paths, modules).None? || NamesOne(f.test, modules)))
      || f.test in LibFailed(recorded)
      || SuiteRuns(cas, c, f)
  {
    if c.lib {
      LibRunsIff(cas, paths, modules, recorded, c, f);
    } else {
      SuiteRunsIff(cas, paths, modules, recorded, c, f);
      forall stem | stem in c.stems.value
        ensures SuiteFilter(cas, stem) in c.filters && cas.mapping[stem] in c.targets
      {
        assert IsFilter(cas, paths, modules, recorded, SuiteFilter(cas, stem));
      }
      forall filter | filter in c.filters && Matches(filter, f.binary, f.test) ensures SuiteRuns(cas, c, f) {
        assert IsFilter(cas, paths, modules, recorded, filter);
      }
    }
  }

  /**
   Which library tests the scoped command runs, exactly: all of them when a source changed and
   the reach is unclear, those that name a changed module when it is clear, the recorded ones,
   and those of a chosen suite that lives in the library's own binary.
   */
  lemma LibTestRunsIff(cas: CasFacts, paths: seq<string>, modules: set<string>, recorded: seq<Failure>, c: Command,
                       test: string)
    requires IsClosure(cas.moduleEdges, ModulesOf(paths), modules) && IsScoped(cas, paths, modules, recorded, c)
    ensures Runs(c, Failure("cas", "cas", test)) <==>
      || (Builds(cas, paths) && (Narrowed(cas, paths) ==> NamesChanged(cas, paths, test)))
      || LibFailedBefore(recorded, test)
      || exists stem ::
           TestOf(cas, stem, "cas", test) && (SomeReaches(cas, paths, stem) || FailedBefore(cas, recorded, stem))
  {
    var f := Failure("cas", "cas", test);
    LibRunsEither(cas, paths, modules, recorded, c, f);
    WideIff(cas, paths);
    NarrowedIff(cas, paths, modules);
    NamesChangedIff(cas, paths, modules, test);
    LibFailedIff(recorded, test);
    SuiteRunsMeans(cas, paths, modules, recorded, c, f);
  }

  lemma LibFailedIff(recorded: seq<Failure>, test: string)
    ensures test in LibFailed(recorded) <==> LibFailedBefore(recorded, test)
  {
    if LibFailedBefore(recorded, test) {
      var i :| 0 <= i < |recorded| && recorded[i] == Failure("cas", "cas", test);
      assert IsLib(recorded[i]);
    }
  }

  // ----- the plan -----

  /** What `Plan` returns, as its contract says. */
  ghost predicate Planned(inputs: Inputs, names: seq<string>, commands: seq<Command>) {
    if Widened(inputs) then commands == WORKSPACE else IsPlan(inputs, names, commands)
  }

  ghost predicate SomeRuns(commands: seq<Command>, f: Failure) {
    exists i :: 0 <= i < |commands| && Runs(commands[i], f)
  }

  /** The changed path is filed under this crate. */
  ghost predicate Files(inputs: Inputs, p: string, name: string) {
    && p in inputs.paths && !PolicyPath(p)
    && exists k: nat :: FirstHolder(inputs.crates, p, k) && inputs.crates[k].name == name
  }

  lemma FiledIsChanged(inputs: Inputs, p: string, name: string)
    requires Files(inputs, p, name)
    ensures p in Changed(inputs.crates, inputs.paths, name) && name in ChangedCrates(inputs)
    ensures Affected(inputs, name)
  {
    FiledIff(inputs.crates, inputs.paths, name, p);
    var path := [name];
    assert Leads(inputs.edges, ChangedCrates(inputs), path, name);
  }

  /** The crates with a command of their own, exactly: the filed ones, their dependents, and recorded ones. */
  lemma AffectedIff(inputs: Inputs, name: string)
    ensures Affected(inputs, name) <==>
      || (exists p, crate :: Files(inputs, p, crate) && Reachable(inputs.edges, {crate}, name))
      || exists i :: 0 <= i < |Recorded(inputs)| && Recorded(inputs)[i].package == name
  {
    ReachFrom(inputs.edges, ChangedCrates(inputs), name);
    if p, crate :| Files(inputs, p, crate) && Reachable(inputs.edges, {crate}, name) {
      FiledIsChanged(inputs, p, crate);
    }
    if crate :| crate in ChangedCrates(inputs) && Reachable(inputs.edges, {crate}, name) {
      var p := Changed(inputs.crates, inputs.paths, crate)[0];
      FiledIff(inputs.crates, inputs.paths, crate, p);
      assert Files(inputs, p, crate);
    }
  }

  /** The command that the plan holds for an affected crate: the workspace, all crates merged, or its own. */
  lemma CommandOf(inputs: Inputs, names: seq<string>, commands: seq<Command>, name: string) returns (k: nat)
    requires Planned(inputs, names, commands) && Affected(inputs, name)
    ensures k < |commands| && Includes(commands[k], name)
    ensures commands[k].stems.None? || IsCommandFor(inputs, name, commands[k])
  {
    k := 0;
    if commands != WORKSPACE {
      assert name in names;
      if !Merges(inputs, names) {
        k :| 0 <= k < |names| && names[k] == name;
        assert IsCommandFor(inputs, names[k], commands[k]);
      }
    }
  }

  /** A plan that is not the whole workspace covers the affected crates and no other. */
  lemma CoversOnlyAffected(inputs: Inputs, names: seq<string>, commands: seq<Command>, name: string)
    requires Planned(inputs, names, commands) && !Widened(inputs) && !IsCrate(inputs.crates, "*")
    ensures Covers(commands, name) <==>
      || (exists p, crate :: Files(inputs, p, crate) && Reachable(inputs.edges, {crate}, name))
      || exists i :: 0 <= i < |Recorded(inputs)| && Recorded(inputs)[i].package == name
  {
    AffectedIff(inputs, name);
    if Affected(inputs, name) {
      EveryAffectedCrateIsCovered(inputs, names, commands, name);
    }
    if i :| 0 <= i < |commands| && Includes(commands[i], name) {
      if Merges(inputs, names) {
        assert name in Elements(names);
      } else {
        assert IsCommandFor(inputs, names[i], commands[i]);
        assert names[i] in names;
        assert names[i] in CrateNames(inputs.crates) && names[i] != "*";
      }
    }
  }

  /** And it runs no test of any other crate. */
  lemma RunsOnlyAffected(inputs: Inputs, names: seq<string>, commands: seq<Command>, f: Failure)
    requires Planned(inputs, names, commands) && !Widened(inputs) && !IsCrate(inputs.crates, "*")
    requires SomeRuns(commands, f)
    ensures NamedAffected(inputs, Recorded(inputs), f.package)
  {
    var i :| 0 <= i < |commands| && Runs(commands[i], f);
    assert Includes(commands[i], f.package);
    CoversOnlyAffected(inputs, names, commands, f.package);
  }

  /** A crate that depends, directly or not, on the crate of a changed path is run by some command. */
  lemma DependentsAreRun(inputs: Inputs, names: seq<string>, commands: seq<Command>, p: string, crate: string,
                         name: string, binary: string, test: string)
    requires Planned(inputs, names, commands) && Files(inputs, p, crate) && name != "cas"
    requires Reachable(inputs.edges, {crate}, name)
    ensures SomeRuns(commands, Failure(name, binary, test))
  {
    AffectedIff(inputs, name);
    var k := CommandOf(inputs, names, commands, name);
    assert Runs(commands[k], Failure(name, binary, test));
  }

  /** A changed file of `cas` outside its sources and tests runs the whole crate. */
  lemma OutsideRunsWhole(inputs: Inputs, names: seq<string>, commands: seq<Command>, p: string, f: Failure)
    requires Planned(inputs, names, commands) && Files(inputs, p, "cas") && f.package == "cas"
    requires !("cas-cli/src/" <= p) && !("cas-cli/tests/" <= p)
    ensures SomeRuns(commands, f)
  {
    FiledIsChanged(inputs, p, "cas");
    var k := CommandOf(inputs, names, commands, "cas");
    assert !Narrow("cas", Changed(inputs.crates, inputs.paths, "cas"));
    assert Runs(commands[k], f);
  }

  /**
   The planner's promise. Whatever a changed path of `cas` reaches is run: every test of a suite
   that it reaches is run by some command of the plan.
   */
  lemma ReachedSuiteRuns(inputs: Inputs, names: seq<string>, commands: seq<Command>, p: string, stem: string,
                         f: Failure)
    requires Planned(inputs, names, commands) && Files(inputs, p, "cas") && Reaches(inputs.cas, p, stem)
    requires f.package == "cas" && TestOf(inputs.cas, stem, f.binary, f.test)
    ensures SomeRuns(commands, f)
  {
    FiledIsChanged(inputs, p, "cas");
    var k := CommandOf(inputs, names, commands, "cas");
    var paths := Changed(inputs.crates, inputs.paths, "cas");
    if commands[k].stems.Some? {
      var modules :| IsClosure(inputs.cas.moduleEdges, ModulesOf(paths), modules)
        && IsScoped(inputs.cas, paths, modules, Recorded(inputs), commands[k]);
      assert SomeReaches(inputs.cas, paths, stem);
      ScopedSuiteRuns(inputs.cas, paths, modules, Recorded(inputs), commands[k], stem, f);
    }
    assert Runs(commands[k], f);
  }

  lemma ScopedSuiteRuns(cas: CasFacts, paths: seq<string>, modules: set<string>, recorded: seq<Failure>, c: Command,
                        stem: string, f: Failure)
    requires IsClosure(cas.moduleEdges, ModulesOf(paths), modules) && IsScoped(cas, paths, modules, recorded, c)
    requires SomeReaches(cas, paths, stem) && f.package == "cas" && TestOf(cas, stem, f.binary, f.test)
    ensures Runs(c, f)
  {
    if f.binary == "cas" {
      assert f == Failure("cas", "cas", f.test);
      LibTestRunsIff(cas, paths, modules, recorded, c, f.test);
    } else {
      SuiteTestRunsIff(cas, paths, modules, recorded, c, f);
    }
  }

  /**
   In particular, a suite that imports the module of a changed source file, or one that depends
   on that module, is run, and a scoped command names it.
   */
  lemma ImporterIsRun(inputs: Inputs, names: seq<string>, commands: seq<Command>, p: string, seed: string, m: string,
                      stem: string, f: Failure)
    requires Planned(inputs, names, commands) && Files(inputs, p, "cas")
    requires SourceOf(p, seed) && Reachable(inputs.cas.moduleEdges, {seed}, m)
    requires stem in inputs.cas.imports && m in inputs.cas.imports[stem]
    requires f.package == "cas" && TestOf(inputs.cas, stem, f.binary, f.test)
    ensures SomeRuns(commands, f)
    ensures exists k :: 0 <= k < |commands| && Includes(commands[k], "cas")
                        && (commands[k].stems.Some? ==> stem in commands[k].stems.value)
  {
    assert ReachesBySource(inputs.cas, p, stem);
    assert Reaches(inputs.cas, p, stem);
    ReachedSuiteRuns(inputs, names, commands, p, stem, f);
    FiledIsChanged(inputs, p, "cas");
    var k := CommandOf(inputs, names, commands, "cas");
    var paths := Changed(inputs.crates, inputs.paths, "cas");
    if commands[k].stems.Some? {
      var modules :| IsClosure(inputs.cas.moduleEdges, ModulesOf(paths), modules)
        && IsScoped(inputs.cas, paths, modules, Recorded(inputs), commands[k]);
      assert SomeReaches(inputs.cas, paths, stem);
      SuiteChosenIff(inputs.cas, paths, modules, Recorded(inputs), commands[k], stem);
    }
  }

  /** The library's own tests of such a module are run as well. */
  lemma ModuleTestsRun(inputs: Inputs, names: seq<string>, commands: seq<Command>, p: string, seed: string, m: string,
                       test: string)
    requires Planned(inputs, names, commands) && Files(inputs, p, "cas")
    requires SourceOf(p, seed) && Reachable(inputs.cas.moduleEdges, {seed}, m) && m + "::" <= test
    ensures SomeRuns(commands, Failure("cas", "cas", test))
  {
    FiledIsChanged(inputs, p, "cas");
    var k := CommandOf(inputs, names, commands, "cas");
    var paths := Changed(inputs.crates, inputs.paths, "cas");
    if commands[k].stems.Some? {
      var modules :| IsClosure(inputs.cas.moduleEdges, ModulesOf(paths), modules)
        && IsScoped(inputs.cas, paths, modules, Recorded(inputs), commands[k]);
      SourceInSrc(p, seed);
      assert Builds(inputs.cas, paths);
      assert ChangedModule(inputs.cas.moduleEdges, paths, m) && test[0..] == test;
      assert NamesChanged(inputs.cas, paths, test);
      LibTestRunsIff(inputs.cas, paths, modules, Recorded(inputs), commands[k], test);
    }
    assert Runs(commands[k], Failure("cas", "cas", test));
  }

  // ----- when everything runs -----

  /** ASCII letters, digits and underscores, and dashes after the first place. */
  predicate PlainWord(s: string) {
    && s != "" && s[0] != '-'
    && forall i :: 0 <= i < |s| ==>
         var c := s[i] as int;
         48 <= c <= 57 || 65 <= c <= 90 || 97 <= c <= 122 || c == 45 || c == 95
  }

  lemma SafeIff(s: string)
    ensures Safe(s) <==> PlainWord(s)
  {
    forall i | 0 <= i < |s|
      ensures IsWord(s[i]) <==>
        var c := s[i] as int; 48 <= c <= 57 || 65 <= c <= 90 || 97 <= c <= 122 || c == 95
    {
      assert 'A' as int == 65 && 'Z' as int == 90 && 'a' as int == 97 && 'z' as int == 122;
      assert '0' as int == 48 && '9' as int == 57 && '_' as int == 95;
    }
  }

  predicate IsCrate(crates: seq<Crate>, name: string) {
    exists k :: 0 <= k < |crates| && crates[k].name == name
  }

  /** A recorded failure names no crate, or a binary that is not a plain word. */
  predicate Unmappable(inputs: Inputs, f: Failure) {
    !IsCrate(inputs.crates, f.package) || !PlainWord(f.binary)
  }

  /** Policy, or a file of no crate that is not documentation. */
  predicate Unsettling(crates: seq<Crate>, p: string) {
    PolicyPath(p) || (!Irrelevant(p) && forall k :: 0 <= k < |crates| ==> !Holds(crates[k], p))
  }

  /** All changes of `cas` lie in its sources and tests, and there are some. */
  ghost predicate OnlyInside(inputs: Inputs) {
    && (exists p :: Files(inputs, p, "cas"))
    && forall p :: Files(inputs, p, "cas") ==> "cas-cli/src/" <= p || "cas-cli/tests/" <= p
  }

  /** A recorded suite is not in the inventory, or nothing of `cas` is selected. */
  ghost predicate NothingToRun(inputs: Inputs, recorded: seq<Failure>, paths: seq<string>) {
    || (exists i :: 0 <= i < |recorded| && recorded[i].package == "cas" && recorded[i].binary != "cas"
                    && forall stem | stem in inputs.cas.mapping :: inputs.cas.mapping[stem] != recorded[i].binary)
    || (&& !Builds(inputs.cas, paths) && (forall test :: !LibFailedBefore(recorded, test))
        && forall stem | stem in inputs.cas.mapping ::
             !SomeReaches(inputs.cas, paths, stem) && !FailedBefore(inputs.cas, recorded, stem))
  }

  lemma ClosureExists(edges: Edges, seeds: set<string>) returns (modules: set<string>)
    ensures IsClosure(edges, seeds, modules)
  {
    modules := set x | x in Universe(seeds, edges) && Reachable(edges, seeds, x);
    forall x | x in seeds ensures x in modules {
      assert Leads(edges, seeds, [x], x);
    }
    forall x, y | x in modules && y in Next(edges, x) ensures y in modules {
      ReachableStep(edges, seeds, x, y);
    }
    forall closed: set<string>, x | seeds <= closed && Closed(edges, closed) && x in modules ensures x in closed {
      var path: seq<string> :| Leads(edges, seeds, path, x);
      LeadsInside(edges, seeds, closed, path, x);
    }
  }

  lemma StuckIff(inputs: Inputs, recorded: seq<Failure>, paths: seq<string>, modules: set<string>)
    requires IsClosure(inputs.cas.moduleEdges, ModulesOf(paths), modules)
    ensures Stuck(inputs.cas, paths, modules, recorded) <==> NothingToRun(inputs, recorded, paths)
  {
    WideIff(inputs.cas, paths);
    forall stem | stem in inputs.cas.mapping
      ensures stem in Selected(inputs.cas, paths, modules, recorded) <==>
        SomeReaches(inputs.cas, paths, stem) || FailedBefore(inputs.cas, recorded, stem)
    {
      TouchedIff(inputs.cas, paths, modules, stem);
      assert Failed(inputs.cas, recorded, stem) <==> FailedBefore(inputs.cas, recorded, stem);
    }
    NoLibFailed(recorded);
    if Selected(inputs.cas, paths, modules, recorded) != {} {
      var stem :| stem in Selected(inputs.cas, paths, modules, recorded);
    }
    forall i | 0 <= i < |recorded|
      ensures Mapped(inputs.cas, recorded[i]) <==>
        !(forall stem | stem in inputs.cas.mapping :: inputs.cas.mapping[stem] != recorded[i].binary)
    {
    }
  }

  lemma NoLibFailed(recorded: seq<Failure>)
    ensures LibFailed(recorded) == {} <==> forall test :: !LibFailedBefore(recorded, test)
  {
    forall test ensures test in LibFailed(recorded) <==> LibFailedBefore(recorded, test) {
      LibFailedIff(recorded, test);
    }
    if LibFailed(recorded) != {} {
      var test :| test in LibFailed(recorded);
      assert LibFailedBefore(recorded, test);
    }
  }

  lemma NarrowIff(inputs: Inputs)
    ensures Narrow("cas", Changed(inputs.crates, inputs.paths, "cas")) <==> OnlyInside(inputs)
  {
    var paths := Changed(inputs.crates, inputs.paths, "cas");
    forall p ensures p in paths <==> Files(inputs, p, "cas") {
      FiledIff(inputs.crates, inputs.paths, "cas", p);
    }
    if paths != [] {
      assert paths[0] in paths;
    }
    if OnlyInside(inputs) {
      forall i | 0 <= i < |paths| ensures InSrc(paths[i]) || InTests(paths[i]) {
        assert paths[i] in paths;
      }
    }
  }

  /** The commands for `cas` cannot be built exactly if its changes are inside and leave nothing to run. */
  lemma CasStuckIff(inputs: Inputs)
    ensures CasStuck(inputs) <==>
      OnlyInside(inputs)
        && NothingToRun(inputs, Recorded(inputs), Changed(inputs.crates, inputs.paths, "cas"))
  {
    var paths := Changed(inputs.crates, inputs.paths, "cas");
    NarrowIff(inputs);
    var modules := ClosureExists(inputs.cas.moduleEdges, ModulesOf(paths));
    if Narrow("cas", paths) {
      StuckOnIff(inputs, paths, modules);
      StuckIff(inputs, Recorded(inputs), paths, modules);
      var p :| Files(inputs, p, "cas");
      FiledIsChanged(inputs, p, "cas");
    }
  }

  ghost predicate NamedAffected(inputs: Inputs, recorded: seq<Failure>, name: string) {
    || (exists p, crate :: Files(inputs, p, crate) && Reachable(inputs.edges, {crate}, name))
    || exists i :: 0 <= i < |recorded| && recorded[i].package == name
  }

  /**
   When the whole workspace runs, exactly: the repository cannot be read or has no `cas`; a path
   is policy or of no crate; the history is incomplete or names something unknown; an affected
   name is no crate, or nothing is affected; or `cas` is left with nothing to run.
   */
  lemma WidenedIff(inputs: Inputs)
    ensures Widened(inputs) <==>
      || !inputs.readable || !IsCrate(inputs.crates, "cas")
      || (exists i :: 0 <= i < |inputs.paths| && Unsettling(inputs.crates, inputs.paths[i]))
      || (inputs.history.Some? && inputs.history.value.uncertain)
      || (inputs.history.Some? && exists i ::
            0 <= i < |inputs.history.value.failures| && Unmappable(inputs, inputs.history.value.failures[i]))
      || (exists name :: NamedAffected(inputs, Recorded(inputs), name) && !IsCrate(inputs.crates, name))
      || (forall name :: !NamedAffected(inputs, Recorded(inputs), name))
      || (OnlyInside(inputs)
          && NothingToRun(inputs, Recorded(inputs), Changed(inputs.crates, inputs.paths, "cas")))
  {
    forall name ensures name in CrateNames(inputs.crates) <==> IsCrate(inputs.crates, name) {
    }
    SettledMeans(inputs.crates, inputs.paths);
    forall name ensures Affected(inputs, name) <==> NamedAffected(inputs, Recorded(inputs), name) {
      AffectedIff(inputs, name);
    }
    forall i | 0 <= i < |Recorded(inputs)|
      ensures !Known(inputs, Recorded(inputs)[i]) <==> Unmappable(inputs, Recorded(inputs)[i])
    {
      SafeIff(Recorded(inputs)[i].binary);
    }
    CasStuckIff(inputs);
  }

  lemma SettledMeans(crates: seq<Crate>, paths: seq<string>)
    ensures !Settled(crates, paths) <==> exists i :: 0 <= i < |paths| && Unsettling(crates, paths[i])
  {
    SettledIff(crates, paths);
    forall i | 0 <= i < |paths|
      ensures Unsettling(crates, paths[i]) <==>
        PolicyPath(paths[i]) ||
        !(Irrelevant(paths[i]) || exists k :: 0 <= k < |crates| && Holds(crates[k], paths[i]))
    {
    }
  }

  /**
   Every recorded failure is run again: whatever crate it names, and for `cas` every library test
   and every test that belongs to a suite of the inventory.
   */
  lemma RecordedRuns(inputs: Inputs, names: seq<string>, commands: seq<Command>, i: nat)
    requires Planned(inputs, names, commands) && inputs.history.Some? && i < |inputs.history.value.failures|
    requires var f := inputs.history.value.failures[i];
      f.package == "cas" && f.binary != "cas" ==> exists stem :: TestOf(inputs.cas, stem, f.binary, f.test)
    ensures SomeRuns(commands, inputs.history.value.failures[i])
  {
    var f := inputs.history.value.failures[i];
    assert Recorded(inputs)[i] == f;
    AffectedIff(inputs, f.package);
    var k := CommandOf(inputs, names, commands, f.package);
    var paths := Changed(inputs.crates, inputs.paths, f.package);
    if commands[k].stems.Some? {
      var modules :| IsClosure(inputs.cas.moduleEdges, ModulesOf(paths), modules)
        && IsScoped(inputs.cas, paths, modules, Recorded(inputs), commands[k]);
      ScopedRecordedRuns(inputs.cas, paths, modules, Recorded(inputs), commands[k], i);
    }
    assert Runs(commands[k], f);
  }

  lemma ScopedRecordedRuns(cas: CasFacts, paths: seq<string>, modules: set<string>, recorded: seq<Failure>, c: Command,
                           i: nat)
    requires IsClosure(cas.moduleEdges, ModulesOf(paths), modules) && IsScoped(cas, paths, modules, recorded, c)
    requires i < |recorded| && recorded[i].package == "cas"
    requires recorded[i].binary != "cas" ==> exists stem :: TestOf(cas, stem, recorded[i].binary, recorded[i].test)
    ensures Runs(c, recorded[i])
  {
    var f := recorded[i];
    if f.binary == "cas" {
      assert f == Failure("cas", "cas", f.test);
      LibTestRunsIff(cas, paths, modules, recorded, c, f.test);
    } else {
      SuiteTestRunsIff(cas, paths, modules, recorded, c, f);
    }
  }

  /** An incomplete history runs everything. */
  lemma UncertainHistoryWidens(inputs: Inputs, names: seq<string>, commands: seq<Command>, f: Failure)
    requires Planned(inputs, names, commands) && inputs.history.Some? && inputs.history.value.uncertain
    ensures commands == WORKSPACE && SomeRuns(commands, f)
  {
    assert Runs(commands[0], f);
  }
}
