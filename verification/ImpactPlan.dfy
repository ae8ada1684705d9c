/**
 The test impact planner and the auditor that judges its selection (`closure`, `plan`, `full`
 and `selected_failure` in scripts/ci-test-impact.py). Files, Git and regular-expression facts
 are inputs.
 */
module ImpactPlan {
  import opened Wrappers
  import opened Closures

  type Name = string
  type Edges = map<Name, set<Name>>

  // ----- the worklist closure -----

  function Elements(s: seq<Name>): set<Name> {
    set x | x in s
  }

  /** A name whose successors may still be missing is pending. */
  ghost predicate Working(edges: Edges, seeds: set<Name>, names: set<Name>, pending: seq<Name>) {
    && seeds <= names && Least(edges, seeds, names)
    && Elements(pending) <= names
    && forall x | x in names && x !in pending :: Next(edges, x) <= names
  }

  ghost function Universe(seeds: set<Name>, edges: Edges): set<Name> {
    seeds + set x, y | x in edges && y in edges[x] :: y
  }

  lemma PopKeeps(edges: Edges, seeds: set<Name>, names: set<Name>, pending: seq<Name>, added: set<Name>,
                 more: seq<Name>)
    requires Working(edges, seeds, names, pending) && pending != []
    requires added == Next(edges, pending[|pending| - 1]) - names && Elements(more) == added
    ensures Working(edges, seeds, names + added, pending[..|pending| - 1] + more)
  {
    var top := pending[|pending| - 1];
    var rest := pending[..|pending| - 1] + more;
    assert top in Elements(pending);
    forall x | x in rest ensures x in names + added {
      if x in more { assert x in Elements(more); } else { assert x in Elements(pending); }
    }
    forall x | x in names + added && x !in rest ensures Next(edges, x) <= names + added {
      assert x in added ==> x in Elements(more);
      assert x in pending ==> x == top;
    }
    forall closed: set<Name> | seeds <= closed && Closed(edges, closed) ensures names + added <= closed {
      assert names <= closed && top in closed;
    }
  }

  /** `closure`: pop the last pending name, add its missing successors, until nothing is pending. */
  method Closure(seeds: seq<Name>, edges: Edges) returns (result: set<Name>)
    ensures IsClosure(edges, Elements(seeds), result)
  {
    result := Elements(seeds);
    var pending := seeds;
    while pending != []
      invariant Working(edges, Elements(seeds), result, pending)
      invariant result <= Universe(Elements(seeds), edges)
      decreases Universe(Elements(seeds), edges) - result, |pending|
    {
      var top := pending[|pending| - 1];
      var added := Next(edges, top) - result;
      var more := Listed(added);
      PopKeeps(edges, Elements(seeds), result, pending, added, more);
      pending := pending[..|pending| - 1] + more;
      if more != [] { assert more[0] in Elements(more); }
      result := result + added;
    }
  }

  predicate Distinct(names: seq<Name>) {
    forall i, j :: 0 <= i < j < |names| ==> names[i] != names[j]
  }

  /** A set in some iteration order. */
  method Listed(names: set<Name>) returns (order: seq<Name>)
    ensures Elements(order) == names && Distinct(order)
  {
    order := [];
    var rest := names;
    while rest != {}
      invariant rest <= names && Elements(order) == names - rest && Distinct(order)
      decreases |rest|
    {
      var x :| x in rest;
      assert x !in Elements(order) && Elements(order + [x]) == Elements(order) + {x};
      order := order + [x];
      rest := rest - {x};
    }
  }

  // ----- inputs -----

  type Path = string

  datatype Crate = Crate(name: Name, member: Path)
  datatype Failure = Failure(package: Name, binary: Name, test: string)
  datatype History = History(uncertain: bool, failures: seq<Failure>)

  /**
   What the planner reads about the `cas` crate: which changed files exist and which define
   macros, the module graph, the suites with their targets and imports, and lib.rs.
   */
  datatype CasFacts = CasFacts(
    present: set<Path>, macros: set<Path>, moduleEdges: Edges, mapping: map<Name, Name>,
    imports: map<Name, set<Name>>, vague: set<Name>, declared: set<Name>, rootUncertain: bool)

  /** `readable` is false when Git, a manifest or the history cannot be read or parsed. */
  datatype Inputs = Inputs(
    readable: bool, crates: seq<Crate>, edges: Edges, paths: seq<Path>, history: Option<History>, cas: CasFacts)

  function Recorded(inputs: Inputs): seq<Failure> {
    if inputs.history.Some? then inputs.history.value.failures else []
  }

  function CrateNames(crates: seq<Crate>): set<Name> {
    set i | 0 <= i < |crates| :: crates[i].name
  }

  predicate StartsWith(s: string, prefix: string) {
    prefix <= s
  }

  predicate EndsWith(s: string, suffix: string) {
    |suffix| <= |s| && s[|s| - |suffix|..] == suffix
  }

  // ----- changed paths and their crates -----

  datatype Kind = Policy | Owned(crate: Name) | Ignored | Unmapped

  predicate IsPolicy(path: Path) {
    || path == "Cargo.toml" || path == "Cargo.lock" || path == ".config/nextest.toml"
    || StartsWith(path, ".cargo/") || StartsWith(path, "vendor/") || StartsWith(path, ".github/")
    || StartsWith(path, "scripts/")
  }

  predicate IsIgnored(path: Path) {
    EndsWith(path, ".md") || StartsWith(path, "docs/") || path == "hub-web/package.json"
  }

  /** The first crate whose directory holds the path. */
  function Owner(crates: seq<Crate>, path: Path): Option<Name> {
    if crates == [] then None
    else if StartsWith(path, crates[0].member + "/") then Some(crates[0].name)
    else Owner(crates[1..], path)
  }

  function Classify(crates: seq<Crate>, path: Path): Kind {
    if IsPolicy(path) then Policy
    else if Owner(crates, path).Some? then Owned(Owner(crates, path).value)
    else if IsIgnored(path) then Ignored
    else Unmapped
  }

  /** The changed paths of one crate, in order. */
  function Changed(crates: seq<Crate>, paths: seq<Path>, name: Name): seq<Path> {
    if paths == [] then [] else
      var last := paths[|paths| - 1];
      var before := Changed(crates, paths[..|paths| - 1], name);
      if Classify(crates, last) == Owned(name) then before + [last] else before
  }

  predicate Settled(crates: seq<Crate>, paths: seq<Path>) {
    forall i :: 0 <= i < |paths| ==> Classify(crates, paths[i]) != Policy && Classify(crates, paths[i]) != Unmapped
  }

  lemma {:induction false} OwnerIsCrate(crates: seq<Crate>, path: Path)
    ensures Owner(crates, path).Some? ==> Owner(crates, path).value in CrateNames(crates)
  {
    if crates != [] {
      OwnerIsCrate(crates[1..], path);
      if Owner(crates, path).Some? {
        if StartsWith(path, crates[0].member + "/") {
          assert crates[0].name in CrateNames(crates);
        } else {
          var i :| 0 <= i < |crates[1..]| && crates[1..][i].name == Owner(crates, path).value;
          assert crates[i + 1].name == Owner(crates, path).value;
        }
      }
    }
  }

  /** The loop that files each path under its crate; `None` when one changes everything. */
  method Assign(crates: seq<Crate>, paths: seq<Path>) returns (changes: Option<map<Name, seq<Path>>>)
    ensures changes.Some? <==> Settled(crates, paths)
    ensures changes.Some? ==> changes.value.Keys == CrateNames(crates)
    ensures changes.Some? ==> forall name | name in changes.value :: changes.value[name] == Changed(crates, paths, name)
  {
    var filed: map<Name, seq<Path>> := map name | name in CrateNames(crates) :: [];
    for n := 0 to |paths|
      invariant Settled(crates, paths[..n])
      invariant filed.Keys == CrateNames(crates)
      invariant forall name | name in filed :: filed[name] == Changed(crates, paths[..n], name)
    {
      var path := paths[n];
      var kind := Classify(crates, path);
      assert paths[..n + 1] == paths[..n] + [path];
      OwnerIsCrate(crates, path);
      if kind == Policy || kind == Unmapped {
        return None;
      }
      if kind.Owned? {
        filed := filed[kind.crate := filed[kind.crate] + [path]];
      }
    }
    assert paths[..|paths|] == paths;
    changes := Some(filed);
  }

  // ----- commands -----

  /** Nextest filters: a binary, its tests that contain one of some module prefixes, or exact tests. */
  datatype Filter =
    | Binary(name: Name)
    | Modules(name: Name, modules: set<Name>)
    | Exactly(name: Name, tests: set<string>)

  /** `stems` is `None` for a command that runs whole packages. */
  datatype Command = Command(package: Name, packages: Option<set<Name>>, stems: Option<set<Name>>,
    targets: set<Name>, modules: Option<set<Name>>, lib: bool, filters: set<Filter>)

  function Whole(name: Name): Command {
    Command(name, None, None, {}, None, false, {})
  }

  const WORKSPACE := [Whole("*")]

  predicate Includes(c: Command, package: Name) {
    if c.packages.Some? then package in c.packages.value else c.package == "*" || c.package == package
  }

  // ----- the scoped command for `cas` -----

  const SRC := "cas-cli/src/"
  const TESTS := "cas-cli/tests/"

  predicate InSrc(path: Path) { StartsWith(path, SRC) }
  predicate InTests(path: Path) { StartsWith(path, TESTS) }

  /** Only changes inside the sources and tests of `cas` are narrowed. */
  predicate Narrow(name: Name, paths: seq<Path>) {
    name == "cas" && paths != [] && forall i :: 0 <= i < |paths| ==> InSrc(paths[i]) || InTests(paths[i])
  }

  predicate AnySrc(paths: seq<Path>) {
    exists i :: 0 <= i < |paths| && InSrc(paths[i])
  }

  predicate AnyTest(paths: seq<Path>) {
    exists i :: 0 <= i < |paths| && InTests(paths[i])
  }

  predicate AnyBuiltin(paths: seq<Path>) {
    exists i :: 0 <= i < |paths| && StartsWith(paths[i], SRC + "builtins/")
  }

  predicate Widens(cas: CasFacts, p: Path) {
    p == SRC + "lib.rs" || p == SRC + "main.rs" || p !in cas.present || (InSrc(p) && p in cas.macros)
  }

  /** A change whose reach within the crate cannot be told. */
  predicate Wide(cas: CasFacts, paths: seq<Path>) {
    exists i :: 0 <= i < |paths| && Widens(cas, paths[i])
  }

  predicate OwnsPath(stem: Name, path: Path) {
    path == TESTS + stem + ".rs" || StartsWith(path, TESTS + stem + "/")
  }

  /** A changed test file that belongs to no suite. */
  predicate Unowned(cas: CasFacts, path: Path) {
    InTests(path) && forall stem | stem in cas.mapping :: !OwnsPath(stem, path)
  }

  predicate SharedInput(cas: CasFacts, paths: seq<Path>) {
    exists i :: 0 <= i < |paths| && Unowned(cas, paths[i])
  }

  predicate AnyOwned(stem: Name, paths: seq<Path>) {
    exists i :: 0 <= i < |paths| && OwnsPath(stem, paths[i])
  }

  const GUARD_SUITE := "builtin_archive_portability_test"

  predicate ImportsOne(cas: CasFacts, stem: Name, modules: set<Name>) {
    stem in cas.imports && cas.imports[stem] * modules != {}
  }

  /** The loop's own reasons to select a suite. */
  predicate Picked(cas: CasFacts, paths: seq<Path>, modules: set<Name>, stem: Name) {
    || Wide(cas, paths)
    || (AnySrc(paths) && (stem in cas.vague || ImportsOne(cas, stem, modules)))
    || AnyOwned(stem, paths)
  }

  /** A suite that the changed files select. */
  predicate Touched(cas: CasFacts, paths: seq<Path>, modules: set<Name>, stem: Name) {
    || SharedInput(cas, paths)
    || Picked(cas, paths, modules, stem)
    || AnyBuiltin(paths)
    || (AnyTest(paths) && stem == GUARD_SUITE)
  }

  predicate IsLib(f: Failure) { f.package == "cas" && f.binary == "cas" }
  predicate IsSuite(f: Failure) { f.package == "cas" && f.binary != "cas" }

  /** A suite that a recorded failure selects. */
  predicate Failed(cas: CasFacts, recorded: seq<Failure>, stem: Name) {
    && stem in cas.mapping
    && exists i :: 0 <= i < |recorded| && IsSuite(recorded[i]) && recorded[i].binary == cas.mapping[stem]
  }

  predicate Mapped(cas: CasFacts, f: Failure) {
    exists stem :: stem in cas.mapping && cas.mapping[stem] == f.binary
  }

  function LibFailed(recorded: seq<Failure>): set<string> {
    set i | 0 <= i < |recorded| && IsLib(recorded[i]) :: recorded[i].test
  }

  function Selected(cas: CasFacts, paths: seq<Path>, modules: set<Name>, recorded: seq<Failure>): set<Name> {
    set stem | stem in cas.mapping && (Touched(cas, paths, modules, stem) || Failed(cas, recorded, stem))
  }

  /** What stands before the first "::", or the whole name. */
  function FirstPart(test: string): string {
    if test == "" || StartsWith(test, "::") then "" else [test[0]] + FirstPart(test[1..])
  }

  function FirstParts(tests: set<string>): set<string> {
    set test | test in tests :: FirstPart(test)
  }

  predicate ColonsAt(test: string, i: int) {
    0 <= i <= |test| - 2 && test[i] == ':' && test[i + 1] == ':'
  }

  /** The name has a "::" somewhere. */
  predicate Qualified(test: string) {
    exists i :: 0 <= i < |test| && ColonsAt(test, i)
  }

  /** The changed modules, when narrowing the library's tests to them is safe. */
  function ChangedUnits(cas: CasFacts, paths: seq<Path>, modules: set<Name>): Option<set<Name>> {
    if !Wide(cas, paths) && !cas.rootUncertain && modules <= cas.declared then Some(modules) else None
  }

  predicate Built(cas: CasFacts, paths: seq<Path>) {
    AnySrc(paths) || Wide(cas, paths)
  }

  /** The modules the command records: `None` when the library runs whole. */
  function UnitModules(cas: CasFacts, paths: seq<Path>, modules: set<Name>, recorded: seq<Failure>): Option<set<Name>> {
    var units := if Built(cas, paths) then ChangedUnits(cas, paths, modules) else Some({});
    if units.None? then None else Some(units.value + FirstParts(LibFailed(recorded)))
  }

  /** The filter for a library whose sources changed. */
  function LibFilter(cas: CasFacts, paths: seq<Path>, modules: set<Name>): Filter {
    if ChangedUnits(cas, paths, modules).None? then Binary("cas") else Modules("cas", modules)
  }

  /** The filters of the command, one for each reason to run something. */
  predicate IsFilter(cas: CasFacts, paths: seq<Path>, modules: set<Name>, recorded: seq<Failure>, filter: Filter) {
    || (Built(cas, paths) && filter == LibFilter(cas, paths, modules))
    || (LibFailed(recorded) != {} && filter == Exactly("cas", LibFailed(recorded)))
    || exists stem :: stem in Selected(cas, paths, modules, recorded) && filter == SuiteFilter(cas, stem)
  }

  function SuiteFilter(cas: CasFacts, stem: Name): Filter
    requires stem in cas.mapping
  {
    var target := cas.mapping[stem];
    if target == stem then Binary(target) else Modules(target, {stem})
  }

  ghost predicate IsScoped(cas: CasFacts, paths: seq<Path>, modules: set<Name>, recorded: seq<Failure>, c: Command) {
    && c.package == "cas" && c.packages == None
    && c.stems == Some(Selected(cas, paths, modules, recorded))
    && c.targets == (set stem | stem in c.stems.value :: cas.mapping[stem])
    && c.modules == UnitModules(cas, paths, modules, recorded)
    && (c.lib <==> Built(cas, paths) || LibFailed(recorded) != {})
    && (forall filter :: filter in c.filters <==> IsFilter(cas, paths, modules, recorded, filter))
    && forall i :: 0 <= i < |recorded| && IsSuite(recorded[i]) ==> Mapped(cas, recorded[i])
  }

  /** The suites of the changed files. */
  method SelectTouched(cas: CasFacts, paths: seq<Path>, modules: set<Name>) returns (selected: set<Name>)
    ensures selected * cas.mapping.Keys == set stem | stem in cas.mapping && Touched(cas, paths, modules, stem)
  {
    selected := if SharedInput(cas, paths) then cas.mapping.Keys else {};
    var picked := PickSuites(cas, paths, modules);
    selected := selected + picked;
    if AnyBuiltin(paths) {
      selected := selected + cas.mapping.Keys;
    }
    if AnyTest(paths) {
      selected := selected + {GUARD_SUITE};
    }
  }

  /** The loop over the inventory. */
  method PickSuites(cas: CasFacts, paths: seq<Path>, modules: set<Name>) returns (picked: set<Name>)
    ensures picked == set stem | stem in cas.mapping && Picked(cas, paths, modules, stem)
  {
    picked := {};
    var rest := cas.mapping.Keys;
    var wide := Wide(cas, paths);
    var production := AnySrc(paths);
    while rest != {}
      invariant rest <= cas.mapping.Keys && picked <= cas.mapping.Keys - rest
      invariant forall stem | stem in cas.mapping.Keys - rest :: stem in picked <==> Picked(cas, paths, modules, stem)
      decreases |rest|
    {
      var stem :| stem in rest;
      if wide || (production && (stem in cas.vague || ImportsOne(cas, stem, modules))) || AnyOwned(stem, paths) {
        picked := picked + {stem};
      }
      rest := rest - {stem};
    }
  }

  /** The loop over the recorded failures: library tests to rerun, suites to add, or an unknown binary. */
  method AddFailed(cas: CasFacts, recorded: seq<Failure>, before: set<Name>)
    returns (mapped: bool, selected: set<Name>, libFailed: set<string>)
    ensures mapped <==> forall i :: 0 <= i < |recorded| && IsSuite(recorded[i]) ==> Mapped(cas, recorded[i])
    ensures mapped ==> libFailed == LibFailed(recorded)
    ensures mapped ==> selected == before + set stem | stem in cas.mapping && Failed(cas, recorded, stem)
  {
    selected, libFailed := before, {};
    for n := 0 to |recorded|
      invariant forall i :: 0 <= i < n && IsSuite(recorded[i]) ==> Mapped(cas, recorded[i])
      invariant libFailed == set i | 0 <= i < n && IsLib(recorded[i]) :: recorded[i].test
      invariant forall stem :: stem in selected <==> stem in before || FailedBy(cas, recorded, n, stem)
    {
      var failure := recorded[n];
      if IsLib(failure) {
        libFailed := libFailed + {failure.test};
      } else if failure.package == "cas" {
        var matches := set stem | stem in cas.mapping && cas.mapping[stem] == failure.binary;
        if matches == {} {
          assert !Mapped(cas, failure) by {
            assert forall stem :: stem in cas.mapping && cas.mapping[stem] == failure.binary ==> stem in matches;
          }
          return false, selected, libFailed;
        }
        selected := selected + matches;
      }
    }
    mapped := true;
  }

  predicate FailedBy(cas: CasFacts, recorded: seq<Failure>, n: nat, stem: Name)
    requires n <= |recorded|
  {
    stem in cas.mapping && exists i :: 0 <= i < n && IsSuite(recorded[i]) && recorded[i].binary == cas.mapping[stem]
  }

  function UpToSlash(p: string): string {
    if p == "" || p[0] == '/' then "" else [p[0]] + UpToSlash(p[1..])
  }

  /** The top-level module of a source file. */
  function ModuleOf(path: Path): Name
    requires InSrc(path)
  {
    var part := UpToSlash(path[|SRC|..]);
    if EndsWith(part, ".rs") then part[..|part| - 3] else part
  }

  function ModulesOf(paths: seq<Path>): set<Name> {
    set i | 0 <= i < |paths| && InSrc(paths[i]) :: ModuleOf(paths[i])
  }

  lemma SelectedIs(cas: CasFacts, paths: seq<Path>, modules: set<Name>, recorded: seq<Failure>, touched: set<Name>,
                   selected: set<Name>)
    requires touched * cas.mapping.Keys == set stem | stem in cas.mapping && Touched(cas, paths, modules, stem)
    requires selected == touched + set stem | stem in cas.mapping && Failed(cas, recorded, stem)
    ensures selected * cas.mapping.Keys == Selected(cas, paths, modules, recorded)
  {
    forall stem ensures stem in selected * cas.mapping.Keys <==> stem in Selected(cas, paths, modules, recorded) {
      assert stem in touched * cas.mapping.Keys <==> stem in cas.mapping && Touched(cas, paths, modules, stem);
    }
  }

  /** A recorded suite is not in the inventory, or nothing is left to run. */
  predicate Stuck(cas: CasFacts, paths: seq<Path>, modules: set<Name>, recorded: seq<Failure>) {
    || (exists i :: 0 <= i < |recorded| && IsSuite(recorded[i]) && !Mapped(cas, recorded[i]))
    || (!Built(cas, paths) && LibFailed(recorded) == {} && Selected(cas, paths, modules, recorded) == {})
  }

  /** The scoped command for changed sources and tests of `cas`; `None` widens to the workspace. */
  method ScopeCas(cas: CasFacts, paths: seq<Path>, recorded: seq<Failure>)
    returns (c: Option<Command>, ghost modules: set<Name>)
    ensures IsClosure(cas.moduleEdges, ModulesOf(paths), modules)
    ensures c.Some? ==> IsScoped(cas, paths, modules, recorded, c.value)
    ensures c.None? <==> Stuck(cas, paths, modules, recorded)
  {
    var production := AnySrc(paths);
    var wide := Wide(cas, paths);
    var seeds := Listed(ModulesOf(paths));
    var changed := Closure(seeds, cas.moduleEdges);
    modules := changed;
    var touched := SelectTouched(cas, paths, changed);
    var mapped, selected, libFailed := AddFailed(cas, recorded, touched);
    if !mapped { return None, modules; }
    SelectedIs(cas, paths, changed, recorded, touched, selected);
    c := Assemble(cas, paths, changed, recorded, selected * cas.mapping.Keys, libFailed);
  }

  /** Targets, recorded modules and filters of the scoped command; `None` when nothing is left to run. */
  method Assemble(cas: CasFacts, paths: seq<Path>, changed: set<Name>, ghost recorded: seq<Failure>,
                  selected: set<Name>, libFailed: set<string>)
    returns (c: Option<Command>)
    requires selected == Selected(cas, paths, changed, recorded) && libFailed == LibFailed(recorded)
    requires forall i :: 0 <= i < |recorded| && IsSuite(recorded[i]) ==> Mapped(cas, recorded[i])
    ensures c.Some? ==> IsScoped(cas, paths, changed, recorded, c.value)
    ensures c.None? <==> !Built(cas, paths) && libFailed == {} && selected == {}
  {
    var production := AnySrc(paths);
    var wide := Wide(cas, paths);
    var lib, filters, units := false, {}, Some({});
    if production || wide {
      lib := true;
      units := if !wide && !cas.rootUncertain && changed <= cas.declared then Some(changed) else None;
      filters := {if units.None? then Binary("cas") else Modules("cas", changed)};
    }
    if libFailed != {} {
      lib := true;
      if units.Some? { units := Some(units.value + FirstParts(libFailed)); }
      filters := filters + {Exactly("cas", libFailed)};
    }
    assert libFailed == {} ==> FirstParts(libFailed) == {};
    assert units.Some? && libFailed == {} ==> units.value + FirstParts(libFailed) == units.value;
    ghost var some := filters;
    filters := filters + set stem | stem in selected :: SuiteFilter(cas, stem);
    FiltersAre(cas, paths, changed, recorded, some, filters);
    if filters == {} { return None; }
    var targets := set stem | stem in selected :: cas.mapping[stem];
    c := Some(Command("cas", None, Some(selected), targets, units, lib, filters));
  }

  lemma FiltersAre(cas: CasFacts, paths: seq<Path>, changed: set<Name>, recorded: seq<Failure>, some: set<Filter>,
                   filters: set<Filter>)
    requires some == (if Built(cas, paths) then {LibFilter(cas, paths, changed)} else {})
                   + (if LibFailed(recorded) != {} then {Exactly("cas", LibFailed(recorded))} else {})
    requires filters == some + set stem | stem in Selected(cas, paths, changed, recorded) :: SuiteFilter(cas, stem)
    ensures forall filter :: filter in filters <==> IsFilter(cas, paths, changed, recorded, filter)
    ensures filters == {} <==>
      !Built(cas, paths) && LibFailed(recorded) == {} && Selected(cas, paths, changed, recorded) == {}
  {
    if Selected(cas, paths, changed, recorded) != {} {
      var stem :| stem in Selected(cas, paths, changed, recorded);
      assert SuiteFilter(cas, stem) in filters;
    }
  }

  // ----- the plan -----

  predicate IsWord(c: char) {
    'A' <= c <= 'Z' || 'a' <= c <= 'z' || '0' <= c <= '9' || c == '_'
  }

  predicate Safe(s: string) {
    s != "" && IsWord(s[0]) && forall i :: 0 <= i < |s| ==> IsWord(s[i]) || s[i] == '-'
  }

  predicate Known(inputs: Inputs, f: Failure) {
    f.package in CrateNames(inputs.crates) && Safe(f.binary)
  }

  function ChangedCrates(inputs: Inputs): set<Name> {
    set name | name in CrateNames(inputs.crates) && Changed(inputs.crates, inputs.paths, name) != []
  }

  ghost predicate IsPackage(recorded: seq<Failure>, name: Name) {
    exists i :: 0 <= i < |recorded| && recorded[i].package == name
  }

  /** A changed crate, one that depends on a changed crate, or one with a recorded failure. */
  ghost predicate Affected(inputs: Inputs, name: Name) {
    || Reachable(inputs.edges, ChangedCrates(inputs), name)
    || IsPackage(Recorded(inputs), name)
  }

  /** The command planned for one affected crate. */
  ghost predicate IsCommandFor(inputs: Inputs, name: Name, c: Command) {
    var paths := Changed(inputs.crates, inputs.paths, name);
    if Narrow(name, paths) then
      exists modules ::
        && IsClosure(inputs.cas.moduleEdges, ModulesOf(paths), modules)
        && IsScoped(inputs.cas, paths, modules, Recorded(inputs), c)
    else c == Whole(name)
  }

  /** One command for each of these crates, in some order. */
  ghost predicate Commands(inputs: Inputs, names: seq<Name>, commands: seq<Command>) {
    && |names| == |commands| && Distinct(names)
    && forall i :: 0 <= i < |names| ==> IsCommandFor(inputs, names[i], commands[i])
  }

  /** Only a narrowed `cas` keeps a command of its own beside others. */
  predicate Merges(inputs: Inputs, names: seq<Name>) {
    |names| > 1 && forall i :: 0 <= i < |names| ==> !Narrow(names[i], Changed(inputs.crates, inputs.paths, names[i]))
  }

  function Merged(names: seq<Name>): Command {
    Command("*", Some(Elements(names)), None, {}, None, false, {})
  }

  /** A plan that is not the whole workspace: a command for each affected crate, or one for all. */
  ghost predicate IsPlan(inputs: Inputs, names: seq<Name>, commands: seq<Command>) {
    && (forall name :: name in names <==> Affected(inputs, name))
    && (forall name :: name in names ==> name in CrateNames(inputs.crates))
    && names != []
    && if Merges(inputs, names) then commands == [Merged(names)] else Commands(inputs, names, commands)
  }

  /** The reasons to run the whole workspace. */
  ghost predicate Widened(inputs: Inputs) {
    || !inputs.readable || "cas" !in CrateNames(inputs.crates)
    || !Settled(inputs.crates, inputs.paths)
    || (inputs.history.Some? && inputs.history.value.uncertain)
    || (exists i :: 0 <= i < |Recorded(inputs)| && !Known(inputs, Recorded(inputs)[i]))
    || (exists name :: Affected(inputs, name) && name !in CrateNames(inputs.crates))
    || (forall name :: !Affected(inputs, name))
    || CasStuck(inputs)
  }

  /** The narrowed command for `cas` cannot be built. */
  ghost predicate CasStuck(inputs: Inputs) {
    Affected(inputs, "cas") && StuckOn(inputs, Changed(inputs.crates, inputs.paths, "cas"))
  }

  ghost predicate StuckOn(inputs: Inputs, paths: seq<Path>) {
    && Narrow("cas", paths)
    && exists modules ::
         && IsClosure(inputs.cas.moduleEdges, ModulesOf(paths), modules)
         && Stuck(inputs.cas, paths, modules, Recorded(inputs))
  }

  lemma StuckOnIff(inputs: Inputs, paths: seq<Path>, modules: set<Name>)
    requires Narrow("cas", paths) && IsClosure(inputs.cas.moduleEdges, ModulesOf(paths), modules)
    ensures StuckOn(inputs, paths) <==> Stuck(inputs.cas, paths, modules, Recorded(inputs))
  {
    forall other | IsClosure(inputs.cas.moduleEdges, ModulesOf(paths), other) ensures other == modules {
      OneClosure(inputs.cas.moduleEdges, ModulesOf(paths), other, modules);
    }
  }

  /** `plan`: the whole workspace for exactly the reasons above, otherwise what the affected crates need. */
  method Plan(inputs: Inputs) returns (commands: seq<Command>, ghost names: seq<Name>)
    ensures Widened(inputs) ==> commands == WORKSPACE
    ensures !Widened(inputs) ==> IsPlan(inputs, names, commands)
  {
    names := [];
    if !inputs.readable || "cas" !in CrateNames(inputs.crates) { return WORKSPACE, []; }
    var changes := Assign(inputs.crates, inputs.paths);
    if changes.None? { return WORKSPACE, []; }
    var seeds := Listed(set name | name in changes.value && changes.value[name] != []);
    assert Elements(seeds) == ChangedCrates(inputs);
    var closed := Closure(seeds, inputs.edges);
    if inputs.history.Some? && inputs.history.value.uncertain { return WORKSPACE, []; }
    var fits, affected := AddPackages(inputs, closed);
    if !fits { return WORKSPACE, []; }
    var order := Listed(affected);
    names := order;
    AffectedAre(inputs, closed, affected, names);
    if !(affected <= CrateNames(inputs.crates)) {
      OutsideWidens(inputs, names, affected);
      return WORKSPACE, [];
    }
    commands := Build(inputs, order, changes.value);
  }

  lemma OutsideWidens(inputs: Inputs, names: seq<Name>, affected: set<Name>)
    requires Elements(names) == affected && (forall name :: name in names <==> Affected(inputs, name))
    requires !(affected <= CrateNames(inputs.crates))
    ensures Widened(inputs)
  {
    var name :| name in affected && name !in CrateNames(inputs.crates);
    assert name in names;
    assert Affected(inputs, name);
  }

  /** Nothing widens before the commands are built. */
  ghost predicate Ready(inputs: Inputs, order: seq<Name>) {
    && inputs.readable && "cas" in CrateNames(inputs.crates) && Settled(inputs.crates, inputs.paths)
    && !(inputs.history.Some? && inputs.history.value.uncertain)
    && (forall i :: 0 <= i < |Recorded(inputs)| ==> Known(inputs, Recorded(inputs)[i]))
    && Distinct(order) && Elements(order) <= CrateNames(inputs.crates)
    && forall name :: name in order <==> Affected(inputs, name)
  }

  method Build(inputs: Inputs, order: seq<Name>, changes: map<Name, seq<Path>>) returns (commands: seq<Command>)
    requires Ready(inputs, order) && changes.Keys == CrateNames(inputs.crates)
    requires forall name | name in changes :: changes[name] == Changed(inputs.crates, inputs.paths, name)
    ensures Widened(inputs) ==> commands == WORKSPACE
    ensures !Widened(inputs) ==> IsPlan(inputs, order, commands)
  {
    var built;
    built, commands := BuildCommands(inputs, order, changes);
    ReadyWidens(inputs, order);
    if !built || commands == [] { return WORKSPACE; }
    MergesIff(inputs, order, commands);
    if |commands| > 1 && forall i :: 0 <= i < |commands| ==> commands[i].stems == None {
      commands := [Merged(order)];
    }
  }

  lemma ReadyWidens(inputs: Inputs, order: seq<Name>)
    requires Ready(inputs, order)
    ensures Widened(inputs) <==> order == [] || CasStuck(inputs)
    ensures forall name :: name in order ==> name in CrateNames(inputs.crates)
  {
    forall name | name in order ensures name in CrateNames(inputs.crates) {
      assert name in Elements(order);
    }
    if order == [] {
      assert forall name :: !Affected(inputs, name);
    } else {
      assert order[0] in order;
      assert Affected(inputs, order[0]);
    }
  }

  lemma MergesIff(inputs: Inputs, names: seq<Name>, commands: seq<Command>)
    requires Commands(inputs, names, commands)
    ensures Merges(inputs, names) <==> |commands| > 1 && forall i :: 0 <= i < |commands| ==> commands[i].stems == None
  {
    forall i | 0 <= i < |names|
      ensures Narrow(names[i], Changed(inputs.crates, inputs.paths, names[i])) <==> commands[i].stems.Some?
    {
      assert IsCommandFor(inputs, names[i], commands[i]);
    }
  }

  /** The packages of the recorded failures join the affected ones. */
  method AddPackages(inputs: Inputs, closed: set<Name>) returns (fits: bool, affected: set<Name>)
    ensures fits <==> forall i :: 0 <= i < |Recorded(inputs)| ==> Known(inputs, Recorded(inputs)[i])
    ensures fits ==> forall name :: name in affected <==> name in closed || IsPackage(Recorded(inputs), name)
  {
    affected := closed;
    var recorded := Recorded(inputs);
    for n := 0 to |recorded|
      invariant forall i :: 0 <= i < n ==> Known(inputs, recorded[i])
      invariant forall name :: name in affected <==>
        name in closed || exists i :: 0 <= i < n && recorded[i].package == name
    {
      if !Known(inputs, recorded[n]) { return false, affected; }
      affected := affected + {recorded[n].package};
    }
    fits := true;
  }

  lemma AffectedAre(inputs: Inputs, closed: set<Name>, affected: set<Name>, names: seq<Name>)
    requires IsClosure(inputs.edges, ChangedCrates(inputs), closed)
    requires forall name :: name in affected <==> name in closed || IsPackage(Recorded(inputs), name)
    requires Elements(names) == affected
    ensures forall name :: name in names <==> Affected(inputs, name)
  {
    forall name ensures name in names <==> Affected(inputs, name) {
      ClosureIsReachability(inputs.edges, ChangedCrates(inputs), closed, name);
      assert name in names <==> name in Elements(names);
    }
  }

  /** The loop that builds one command per affected crate. */
  method BuildCommands(inputs: Inputs, order: seq<Name>, changes: map<Name, seq<Path>>)
    returns (built: bool, commands: seq<Command>)
    requires Distinct(order) && Elements(order) <= changes.Keys
    requires forall name | name in changes :: changes[name] == Changed(inputs.crates, inputs.paths, name)
    ensures built ==> Commands(inputs, order, commands)
    ensures built <==> !("cas" in order && StuckOn(inputs, Changed(inputs.crates, inputs.paths, "cas")))
  {
    commands := [];
    for n := 0 to |order|
      invariant |commands| == n && forall i :: 0 <= i < n ==> IsCommandFor(inputs, order[i], commands[i])
      invariant "cas" in order[..n] ==> !StuckOn(inputs, Changed(inputs.crates, inputs.paths, "cas"))
    {
      var name := order[n];
      assert name in Elements(order);
      var paths := changes[name];
      if !Narrow(name, paths) {
        commands := commands + [Whole(name)];
      } else {
        var c, modules := ScopeCas(inputs.cas, paths, Recorded(inputs));
        StuckOnIff(inputs, paths, modules);
        if c.None? { return false, commands; }
        assert IsCommandFor(inputs, name, c.value);
        commands := commands + [c.value];
      }
    }
    built := true;
  }

  // ----- coverage -----

  ghost predicate Covers(commands: seq<Command>, name: Name) {
    exists i :: 0 <= i < |commands| && Includes(commands[i], name)
  }

  /** Every affected crate is covered by some planned command. */
  lemma EveryAffectedCrateIsCovered(inputs: Inputs, names: seq<Name>, commands: seq<Command>, name: Name)
    requires (commands == WORKSPACE || IsPlan(inputs, names, commands)) && Affected(inputs, name)
    ensures Covers(commands, name)
  {
    if commands == WORKSPACE {
      assert Includes(commands[0], name);
    } else {
      assert name in names;
      var i :| 0 <= i < |names| && names[i] == name;
      if Commands(inputs, names, commands) {
        assert IsCommandFor(inputs, names[i], commands[i]);
        assert Includes(commands[i], name);
      } else {
        assert Includes(commands[0], name);
      }
    }
  }

  // ----- the auditor -----

  datatype Verdict = Yes | No | Pass

  predicate StemMatches(f: Failure, stem: Name) {
    StartsWith(f.test, stem + "::") || stem == f.binary
  }

  /** What one command says about a failure; `Pass` leaves it to the next command. */
  function Judge(c: Command, f: Failure): Verdict {
    if !Includes(c, f.package) then Pass
    else if c.stems.None? then Yes
    else if f.binary == "cas" && c.lib then
      if c.modules.None? || exists m :: m in c.modules.value && StartsWith(f.test, m + "::") then Yes else No
    else if f.binary in c.targets then
      if exists stem :: stem in c.stems.value && StemMatches(f, stem) then Yes else No
    else Pass
  }

  function Judged(commands: seq<Command>, f: Failure): bool {
    commands != [] && (Judge(commands[0], f) == Yes || (Judge(commands[0], f) == Pass && Judged(commands[1..], f)))
  }

  /** `selected_failure`: the first command that decides. */
  method SelectedFailure(commands: seq<Command>, f: Failure) returns (selected: bool)
    ensures selected == Judged(commands, f)
  {
    for n := 0 to |commands|
      invariant Judged(commands, f) == Judged(commands[n..], f)
    {
      assert commands[n..][1..] == commands[n + 1..];
      var verdict := Judge(commands[n], f);
      if verdict != Pass { return verdict == Yes; }
    }
    selected := false;
  }

  lemma {:induction false} OneDecides(commands: seq<Command>, f: Failure, i: nat)
    requires i < |commands| && forall j :: 0 <= j < |commands| && j != i ==> !Includes(commands[j], f.package)
    ensures Judged(commands, f) <==> Judge(commands[i], f) == Yes
    decreases |commands|
  {
    if i == 0 {
      NoneDecides(commands[1..], f);
    } else {
      OneDecides(commands[1..], f, i - 1);
    }
  }

  lemma {:induction false} NoneDecides(commands: seq<Command>, f: Failure)
    requires forall j :: 0 <= j < |commands| ==> !Includes(commands[j], f.package)
    ensures !Judged(commands, f)
  {
    if commands != [] {
      NoneDecides(commands[1..], f);
    }
  }

  // ----- qualified names -----

  lemma {:induction false} QualifiedHasModule(test: string)
    requires Qualified(test)
    ensures StartsWith(test, FirstPart(test) + "::")
    decreases |test|
  {
    if StartsWith(test, "::") {
      assert FirstPart(test) + "::" == "::";
    } else {
      var i :| 0 <= i < |test| && ColonsAt(test, i);
      assert i > 0;
      assert ColonsAt(test[1..], i - 1);
      QualifiedHasModule(test[1..]);
      assert FirstPart(test) + "::" == [test[0]] + (FirstPart(test[1..]) + "::");
      assert test == [test[0]] + test[1..];
    }
  }

  lemma ModuleMakesQualified(test: string, m: Name)
    requires StartsWith(test, m + "::")
    ensures Qualified(test)
  {
    assert test[|m|] == (m + "::")[|m|] && test[|m| + 1] == (m + "::")[|m| + 1];
    assert ColonsAt(test, |m|);
  }

  // ----- recorded failures -----

  /** What the auditor says about a recorded failure of `cas` under a scoped command, exactly. */
  lemma ScopedJudgement(cas: CasFacts, paths: seq<Path>, modules: set<Name>, recorded: seq<Failure>, c: Command, i: nat)
    requires IsScoped(cas, paths, modules, recorded, c) && i < |recorded| && recorded[i].package == "cas"
    ensures IsLib(recorded[i]) ==> (Judge(c, recorded[i]) == Yes <==> c.modules.None? || Qualified(recorded[i].test))
    ensures IsSuite(recorded[i]) ==>
      (Judge(c, recorded[i]) == Yes <==> exists stem :: stem in c.stems.value && StemMatches(recorded[i], stem))
  {
    var f := recorded[i];
    if IsLib(f) {
      assert f.test in LibFailed(recorded);
      if c.modules.Some? {
        assert FirstPart(f.test) in c.modules.value;
        if Qualified(f.test) {
          QualifiedHasModule(f.test);
        }
        forall m | m in c.modules.value && StartsWith(f.test, m + "::") ensures Qualified(f.test) {
          ModuleMakesQualified(f.test, m);
        }
      }
    } else {
      assert Mapped(cas, f);
      var stem :| stem in cas.mapping && cas.mapping[stem] == f.binary;
      assert Failed(cas, recorded, stem);
      assert stem in c.stems.value;
      assert f.binary in c.targets;
    }
  }

  /** The name of a recorded `cas` failure leads the auditor back to what selected it. */
  predicate Traceable(cas: CasFacts, f: Failure) {
    && (IsLib(f) ==> Qualified(f.test))
    && (IsSuite(f) ==> exists stem ::
          stem in cas.mapping && cas.mapping[stem] == f.binary && (stem == f.binary || stem + "::" <= f.test))
  }

  lemma ScopedTraceable(cas: CasFacts, paths: seq<Path>, modules: set<Name>, recorded: seq<Failure>, c: Command, i: nat)
    requires IsScoped(cas, paths, modules, recorded, c) && i < |recorded|
    requires recorded[i].package == "cas" && Traceable(cas, recorded[i])
    ensures Judge(c, recorded[i]) == Yes
  {
    var f := recorded[i];
    ScopedJudgement(cas, paths, modules, recorded, c, i);
    if IsSuite(f) {
      var stem :| stem in cas.mapping && cas.mapping[stem] == f.binary && StemMatches(f, stem);
      assert Failed(cas, recorded, stem);
      assert stem in c.stems.value && StemMatches(f, stem);
    }
  }

  lemma PlanDecides(inputs: Inputs, names: seq<Name>, commands: seq<Command>, i: nat) returns (k: nat)
    requires IsPlan(inputs, names, commands) && Commands(inputs, names, commands) && "*" !in CrateNames(inputs.crates)
    requires i < |Recorded(inputs)|
    ensures k < |names| && names[k] == Recorded(inputs)[i].package
    ensures Judged(commands, Recorded(inputs)[i]) <==> Judge(commands[k], Recorded(inputs)[i]) == Yes
  {
    var f := Recorded(inputs)[i];
    assert Affected(inputs, f.package);
    assert f.package in names;
    k :| 0 <= k < |names| && names[k] == f.package;
    forall j | 0 <= j < |commands| && j != k ensures !Includes(commands[j], f.package) {
      assert IsCommandFor(inputs, names[j], commands[j]);
      assert names[j] in names;
    }
    OneDecides(commands, f, k);
  }

  /** Every recorded failure whose name leads back to its suite or module is judged selected. */
  lemma RecordedFailuresAreSelected(inputs: Inputs, names: seq<Name>, commands: seq<Command>, i: nat)
    requires commands == WORKSPACE || IsPlan(inputs, names, commands)
    requires "*" !in CrateNames(inputs.crates) && i < |Recorded(inputs)| && Traceable(inputs.cas, Recorded(inputs)[i])
    ensures Judged(commands, Recorded(inputs)[i])
  {
    var f := Recorded(inputs)[i];
    if commands == WORKSPACE {
      assert Judge(commands[0], f) == Yes;
    } else if Commands(inputs, names, commands) {
      var k := PlanDecides(inputs, names, commands, i);
      assert IsCommandFor(inputs, names[k], commands[k]);
      var paths := Changed(inputs.crates, inputs.paths, names[k]);
      if Narrow(names[k], paths) {
        var modules :| IsClosure(inputs.cas.moduleEdges, ModulesOf(paths), modules)
          && IsScoped(inputs.cas, paths, modules, Recorded(inputs), commands[k]);
        ScopedTraceable(inputs.cas, paths, modules, Recorded(inputs), commands[k], i);
      }
    } else {
      assert Affected(inputs, f.package);
      assert f.package in names;
      assert Judge(commands[0], f) == Yes;
    }
  }

  /** A recorded failure is missed by the audit of its own plan exactly when its name leads nowhere. */
  lemma RecordedFailureMissedIff(inputs: Inputs, names: seq<Name>, commands: seq<Command>, i: nat) returns (k: nat)
    requires IsPlan(inputs, names, commands) && Commands(inputs, names, commands) && "*" !in CrateNames(inputs.crates)
    requires i < |Recorded(inputs)|
    ensures k < |names| && names[k] == Recorded(inputs)[i].package
    ensures var f, c := Recorded(inputs)[i], commands[k];
      !Judged(commands, f) <==>
        c.stems.Some? && (if IsLib(f) then c.modules.Some? && !Qualified(f.test)
                          else forall stem | stem in c.stems.value :: stem != f.binary && !(stem + "::" <= f.test))
  {
    k := PlanDecides(inputs, names, commands, i);
    assert IsCommandFor(inputs, names[k], commands[k]);
    var paths := Changed(inputs.crates, inputs.paths, names[k]);
    if Narrow(names[k], paths) {
      var modules :| IsClosure(inputs.cas.moduleEdges, ModulesOf(paths), modules)
        && IsScoped(inputs.cas, paths, modules, Recorded(inputs), commands[k]);
      ScopedJudgement(inputs.cas, paths, modules, Recorded(inputs), commands[k], i);
    }
  }

  // ----- what really runs -----

  predicate Contains(s: string, part: string) {
    exists i :: 0 <= i <= |s| && StartsWith(s[i..], part)
  }

  /** Nextest: `test(x)` matches names that contain x, `test(=x)` and `binary(x)` are exact. */
  predicate Matches(filter: Filter, binary: Name, test: string) {
    match filter
    case Binary(name) => binary == name
    case Modules(name, modules) => binary == name && exists m :: m in modules && Contains(test, m + "::")
    case Exactly(name, tests) => binary == name && test in tests
  }

  predicate Runs(c: Command, f: Failure) {
    && Includes(c, f.package)
    && (c.stems.None? || (((f.binary == "cas" && c.lib) || f.binary in c.targets)
                          && exists filter :: filter in c.filters && Matches(filter, f.binary, f.test)))
  }

  /** A recorded library failure is always run again, whatever its name looks like. */
  lemma RecordedLibRuns(cas: CasFacts, paths: seq<Path>, modules: set<Name>, recorded: seq<Failure>, c: Command, i: nat)
    requires IsScoped(cas, paths, modules, recorded, c) && i < |recorded| && IsLib(recorded[i])
    ensures Runs(c, recorded[i])
  {
    var f := recorded[i];
    assert f.test in LibFailed(recorded);
    var filter := Exactly("cas", LibFailed(recorded));
    assert IsFilter(cas, paths, modules, recorded, filter);
    assert filter in c.filters && Matches(filter, f.binary, f.test);
  }

  /** So the auditor misjudges exactly the unqualified ones, unless the whole library runs. */
  lemma UnqualifiedRunsButIsMissed(cas: CasFacts, paths: seq<Path>, modules: set<Name>, recorded: seq<Failure>,
                                   c: Command, i: nat)
    requires IsScoped(cas, paths, modules, recorded, c) && i < |recorded| && IsLib(recorded[i])
    ensures Runs(c, recorded[i]) && (Judge(c, recorded[i]) != Yes <==> c.modules.Some? && !Qualified(recorded[i].test))
  {
    RecordedLibRuns(cas, paths, modules, recorded, c, i);
    ScopedJudgement(cas, paths, modules, recorded, c, i);
  }

  /** The suite's filter matches: its own binary, or its module in a grouped binary. */
  predicate StemRuns(cas: CasFacts, stem: Name, f: Failure) {
    stem in cas.mapping && cas.mapping[stem] == f.binary && (stem == f.binary || Contains(f.test, stem + "::"))
  }

  /** A filter for one of the selected suites of this binary matches. */
  predicate SuiteRuns(cas: CasFacts, c: Command, f: Failure) {
    c.stems.Some? && exists stem :: stem in c.stems.value && StemRuns(cas, stem, f)
  }

  predicate NamesOne(test: string, modules: set<Name>) {
    exists m :: m in modules && Contains(test, m + "::")
  }

  lemma {:induction false} SuiteMatches(cas: CasFacts, stem: Name, f: Failure)
    requires stem in cas.mapping
    ensures Matches(SuiteFilter(cas, stem), f.binary, f.test) <==> StemRuns(cas, stem, f)
  {
    if cas.mapping[stem] != stem {
      assert stem in {stem};
    }
  }

  /** Some suite filter of the command matches exactly when `SuiteRuns` says so. */
  lemma SuiteRunsIff(cas: CasFacts, paths: seq<Path>, modules: set<Name>, recorded: seq<Failure>, c: Command,
                     f: Failure)
    requires IsScoped(cas, paths, modules, recorded, c)
    ensures SuiteRuns(cas, c, f) <==>
      exists stem :: stem in c.stems.value && Matches(SuiteFilter(cas, stem), f.binary, f.test)
  {
    forall stem | stem in c.stems.value
      ensures Matches(SuiteFilter(cas, stem), f.binary, f.test) <==> StemRuns(cas, stem, f)
    {
      SuiteMatches(cas, stem, f);
    }
  }

  /** What a scoped command runs of the library, as the filters say. */
  lemma LibRunsIff(cas: CasFacts, paths: seq<Path>, modules: set<Name>, recorded: seq<Failure>, c: Command, f: Failure)
    requires IsScoped(cas, paths, modules, recorded, c) && IsLib(f) && c.lib
    ensures Runs(c, f) <==>
      || (Built(cas, paths) && (c.modules.None? || NamesOne(f.test, modules)))
      || f.test in LibFailed(recorded)
      || SuiteRuns(cas, c, f)
  {
    SuiteRunsIff(cas, paths, modules, recorded, c, f);
    var units := ChangedUnits(cas, paths, modules);
    var first := if units.None? then Binary("cas") else Modules("cas", modules);
    var second := Exactly("cas", LibFailed(recorded));
    assert Built(cas, paths) ==> IsFilter(cas, paths, modules, recorded, first);
    assert LibFailed(recorded) != {} ==> IsFilter(cas, paths, modules, recorded, second);
    assert Matches(second, f.binary, f.test) <==> f.test in LibFailed(recorded);
    assert Matches(first, f.binary, f.test) <==> units.None? || NamesOne(f.test, modules);
    forall stem | stem in c.stems.value ensures SuiteFilter(cas, stem) in c.filters {
      assert IsFilter(cas, paths, modules, recorded, SuiteFilter(cas, stem));
    }
    forall filter | filter in c.filters && Matches(filter, f.binary, f.test)
      ensures (Built(cas, paths) && filter == first) || filter == second || SuiteRuns(cas, c, f)
    {
      assert IsFilter(cas, paths, modules, recorded, filter);
    }
  }

  /** Some rerun test lies in a module that this test's name starts with. */
  predicate Neighbour(recorded: seq<Failure>, test: string) {
    exists rerun :: rerun in LibFailed(recorded) && StartsWith(test, FirstPart(rerun) + "::")
  }

  lemma PrefixIsContained(test: string, m: Name)
    requires StartsWith(test, m + "::")
    ensures Contains(test, m + "::")
  {
    assert test[0..] == test;
  }

  lemma JudgedLibIff(cas: CasFacts, paths: seq<Path>, modules: set<Name>, recorded: seq<Failure>, c: Command,
                     f: Failure)
    requires IsScoped(cas, paths, modules, recorded, c) && IsLib(f) && c.lib
    ensures Judge(c, f) == Yes <==>
      || c.modules.None?
      || (Built(cas, paths) && exists m :: m in modules && StartsWith(f.test, m + "::"))
      || Neighbour(recorded, f.test)
  {
    if c.modules.Some? {
      assert forall m ::
        m in c.modules.value <==> (Built(cas, paths) && m in modules) || m in FirstParts(LibFailed(recorded));
      assert forall rerun :: rerun in LibFailed(recorded) ==> FirstPart(rerun) in FirstParts(LibFailed(recorded));
    }
  }

  /**
   When the auditor counts a library test as selected and no filter runs it: exactly when the
   library is narrowed, the test is a neighbour of a rerun test and not rerun itself, no changed
   module is named in it, and no suite filter takes it.
   */
  lemma JudgedButNotRunIff(cas: CasFacts, paths: seq<Path>, modules: set<Name>, recorded: seq<Failure>, c: Command,
                           f: Failure)
    requires IsScoped(cas, paths, modules, recorded, c) && IsLib(f) && c.lib
    ensures Judge(c, f) == Yes && !Runs(c, f) <==>
      && c.modules.Some? && f.test !in LibFailed(recorded) && Neighbour(recorded, f.test)
      && (Built(cas, paths) ==> !NamesOne(f.test, modules)) && !SuiteRuns(cas, c, f)
  {
    LibRunsIff(cas, paths, modules, recorded, c, f);
    JudgedLibIff(cas, paths, modules, recorded, c, f);
    forall m | m in modules && StartsWith(f.test, m + "::") ensures NamesOne(f.test, modules) {
      PrefixIsContained(f.test, m);
    }
  }

  // An input: one changed suite of its own target, and one library test of the history.

  const CHANGED := TESTS + "a.rs"
  const FACTS := CasFacts({CHANGED}, {}, map[], map["a" := "a"], map[], {}, {}, false)

  function LibFailure(test: string): Failure {
    Failure("cas", "cas", test)
  }

  /** The command that the planner builds for it. */
  ghost function ExampleCommand(test: string): Command {
    Command("cas", None, Some(Selected(FACTS, [CHANGED], {}, [LibFailure(test)])),
            set stem | stem in Selected(FACTS, [CHANGED], {}, [LibFailure(test)]) :: FACTS.mapping[stem],
            UnitModules(FACTS, [CHANGED], {}, [LibFailure(test)]), true,
            {Exactly("cas", {test})} + set stem | stem in Selected(FACTS, [CHANGED], {}, [LibFailure(test)]) ::
              SuiteFilter(FACTS, stem))
  }

  lemma ExampleIsScoped(test: string)
    ensures IsClosure(FACTS.moduleEdges, ModulesOf([CHANGED]), {}) && Narrow("cas", [CHANGED])
    ensures IsScoped(FACTS, [CHANGED], {}, [LibFailure(test)], ExampleCommand(test)) && !Built(FACTS, [CHANGED])
    ensures LibFailed([LibFailure(test)]) == {test}
  {
    var paths, recorded, c := [CHANGED], [LibFailure(test)], ExampleCommand(test);
    assert CHANGED[8] == 't' && SRC[8] == 's';
    assert !InSrc(CHANGED) && InTests(CHANGED);
    assert (SRC + "lib.rs")[8] == 's' && (SRC + "main.rs")[8] == 's';
    assert !Built(FACTS, paths);
    assert recorded[0] == LibFailure(test);
    assert LibFailed(recorded) == {test};
    FiltersAre(FACTS, paths, {}, recorded, {Exactly("cas", {test})}, c.filters);
    assert ModulesOf(paths) == {};
  }

  /** Judged selected and not run: the neighbour "m::y" of the rerun test "m::x". */
  lemma NeighbourIsJudged()
    ensures var c, f := ExampleCommand("m::x"), LibFailure("m::y");
      IsScoped(FACTS, [CHANGED], {}, [LibFailure("m::x")], c) && Judge(c, f) == Yes && !Runs(c, f)
  {
    var c, f, recorded := ExampleCommand("m::x"), LibFailure("m::y"), [LibFailure("m::x")];
    ExampleIsScoped("m::x");
    FirstPartOfM();
    assert StartsWith(f.test, FirstPart("m::x") + "::");
    assert Neighbour(recorded, f.test);
    assert !SuiteRuns(FACTS, c, f);
    JudgedButNotRunIff(FACTS, [CHANGED], {}, recorded, c, f);
  }

  lemma FirstPartOfM()
    ensures FirstPart("m::x") == "m"
  {
    assert "m::x"[1..] == "::x" && FirstPart("::x") == "";
  }

  /** Run and judged missed: the rerun test "x" itself, whose name has no module. */
  lemma UnqualifiedIsMissed()
    ensures var c := ExampleCommand("x");
      IsScoped(FACTS, [CHANGED], {}, [LibFailure("x")], c) && Judge(c, LibFailure("x")) != Yes
        && Runs(c, LibFailure("x"))
  {
    ExampleIsScoped("x");
    UnqualifiedRunsButIsMissed(FACTS, [CHANGED], {}, [LibFailure("x")], ExampleCommand("x"), 0);
  }

  /**
   The other way round: run and counted as missed, exactly when the library is narrowed and the
   name starts with no recorded module, yet some filter takes the test.
   */
  lemma RunButMissedIff(cas: CasFacts, paths: seq<Path>, modules: set<Name>, recorded: seq<Failure>, c: Command,
                        f: Failure)
    requires IsScoped(cas, paths, modules, recorded, c) && IsLib(f) && c.lib
    ensures Runs(c, f) && Judge(c, f) != Yes <==>
      && c.modules.Some? && !Neighbour(recorded, f.test)
      && !(Built(cas, paths) && exists m :: m in modules && StartsWith(f.test, m + "::"))
      && (f.test in LibFailed(recorded) || (Built(cas, paths) && NamesOne(f.test, modules)) || SuiteRuns(cas, c, f))
  {
    LibRunsIff(cas, paths, modules, recorded, c, f);
    JudgedLibIff(cas, paths, modules, recorded, c, f);
  }

  /** What a scoped command runs of an integration binary. */
  lemma SuiteBinaryRunsIff(cas: CasFacts, paths: seq<Path>, modules: set<Name>, recorded: seq<Failure>, c: Command,
                           f: Failure)
    requires IsScoped(cas, paths, modules, recorded, c) && IsSuite(f)
    ensures Runs(c, f) <==> SuiteRuns(cas, c, f)
  {
    SuiteRunsIff(cas, paths, modules, recorded, c, f);
    forall stem | stem in c.stems.value ensures SuiteFilter(cas, stem) in c.filters && cas.mapping[stem] in c.targets {
      assert IsFilter(cas, paths, modules, recorded, SuiteFilter(cas, stem));
    }
    forall filter | filter in c.filters && Matches(filter, f.binary, f.test) ensures SuiteRuns(cas, c, f) {
      assert IsFilter(cas, paths, modules, recorded, filter);
    }
  }

  /**
   For suites the auditor looks at the stem and not at its target: it counts a test as selected
   that no filter runs exactly when its binary is a target, some selected stem matches by name,
   and no selected stem of that binary does.
   */
  lemma SuiteJudgedButNotRunIff(cas: CasFacts, paths: seq<Path>, modules: set<Name>, recorded: seq<Failure>,
                                c: Command, f: Failure)
    requires IsScoped(cas, paths, modules, recorded, c) && IsSuite(f)
    ensures Judge(c, f) == Yes && !Runs(c, f) <==>
      && f.binary in c.targets
      && (exists stem :: stem in c.stems.value && (stem == f.binary || stem + "::" <= f.test))
      && forall stem | stem in c.stems.value && cas.mapping[stem] == f.binary ::
           stem != f.binary && !Contains(f.test, stem + "::")
  {
    SuiteBinaryRunsIff(cas, paths, modules, recorded, c, f);
  }

  /** Two suites grouped in different targets: the name of one in the binary of the other. */
  lemma ForeignStemIsJudged(cas: CasFacts, paths: seq<Path>, modules: set<Name>, recorded: seq<Failure>, c: Command,
                            a: Name, b: Name)
    requires IsScoped(cas, paths, modules, recorded, c) && {a, b} <= c.stems.value && cas.mapping[a] != cas.mapping[b]
    requires cas.mapping[a] != "cas"
    requires forall stem | stem in c.stems.value && cas.mapping[stem] == cas.mapping[a] :: stem == a
    requires a != cas.mapping[a] && !Contains(b + "::x", a + "::")
    ensures var f := Failure("cas", cas.mapping[a], b + "::x"); Judge(c, f) == Yes && !Runs(c, f)
  {
    var f := Failure("cas", cas.mapping[a], b + "::x");
    assert b + "::x" == b + "::" + "x";
    assert StemMatches(f, b) && a in c.stems.value && b in c.stems.value;
    SuiteJudgedButNotRunIff(cas, paths, modules, recorded, c, f);
  }
}
