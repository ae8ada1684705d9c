/**
 The Git tree identity computed from bytes (`git_tree` in scripts/deploy-hub-release.py): paths
 are inserted into nested directories, then hashed bottom-up in Git's entry order.
 */
module GitTree {
  import opened Wrappers
  import opened Decimal

  type Bytes = seq<int>
  type Name = Bytes
  type Path = seq<Name>

  datatype File = File(data: Bytes, mode: Bytes)
  datatype Node = Leaf(file: File) | Dir(children: map<Name, Node>)
  datatype Item = Item(path: Path, file: File)

  // ----- building the directories -----

  /** `None` is the error for a path with no parts, or one that passes through a file. */
  function Insert(children: map<Name, Node>, path: Path, file: File): Option<map<Name, Node>>
    decreases |path|
  {
    if path == [] then None
    else if |path| == 1 then Some(children[path[0] := Leaf(file)])
    else
      var child := if path[0] in children then children[path[0]] else Dir(map[]);
      if child.Leaf? then None else
        var below := Insert(child.children, path[1..], file);
        if below.None? then None else Some(children[path[0] := Dir(below.value)])
  }

  function InsertAll(items: seq<Item>): Option<map<Name, Node>> {
    if items == [] then Some(map[]) else
      var before := InsertAll(items[..|items| - 1]);
      var item := items[|items| - 1];
      if before.None? then None else Insert(before.value, item.path, item.file)
  }

  /** The first loop of `git_tree`, over the snapshot in the order it iterates. */
  method Build(items: seq<Item>) returns (root: Option<map<Name, Node>>)
    ensures root == InsertAll(items)
  {
    root := Some(map[]);
    for n := 0 to |items|
      invariant root == InsertAll(items[..n])
    {
      assert items[..n + 1][..n] == items[..n];
      if root.Some? {
        root := Insert(root.value, items[n].path, items[n].file);
      }
    }
    assert items[..|items|] == items;
  }

  /** The file a path leads to. */
  function Find(children: map<Name, Node>, path: Path): Option<File>
    decreases |path|
  {
    if path == [] || path[0] !in children then None else
      match children[path[0]]
      case Leaf(file) => if |path| == 1 then Some(file) else None
      case Dir(below) => Find(below, path[1..])
  }

  /** No directory below is empty. */
  ghost predicate Full(node: Node)
    decreases node, 1
  {
    node.Dir? ==> node.children != map[] && FullBelow(node)
  }

  ghost predicate FullBelow(node: Node)
    requires node.Dir?
    decreases node, 0
  {
    forall name | name in node.children :: Full(node.children[name])
  }

  predicate Clash(a: Path, b: Path) {
    a <= b || b <= a
  }

  /** Nothing in the tree is at, above or below this path. */
  ghost predicate Free(children: map<Name, Node>, path: Path) {
    forall q: Path | Find(children, q).Some? :: !Clash(path, q)
  }

  lemma FindBelow(children: map<Name, Node>, name: Name, q: Path)
    requires name in children && children[name].Dir?
    ensures Find(children, [name] + q) == Find(children[name].children, q)
  {
    assert ([name] + q)[1..] == q;
  }

  lemma {:induction false} FullHasPath(node: Node) returns (q: Path)
    requires node.Dir? && Full(node)
    ensures q != [] && Find(node.children, q).Some?
    decreases node
  {
    var name :| name in node.children;
    match node.children[name]
    case Leaf(_) => q := [name];
    case Dir(_) =>
      assert Full(node.children[name]);
      var below := FullHasPath(node.children[name]);
      FindBelow(node.children, name, below);
      q := [name] + below;
  }

  lemma ClashBelow(name: Name, a: Path, b: Path)
    ensures Clash([name] + a, [name] + b) <==> Clash(a, b)
  {
    assert ([name] + a)[1..] == a && ([name] + b)[1..] == b;
    if a <= b { assert [name] + b == [name] + a + b[|a|..]; }
    if b <= a { assert [name] + a == [name] + b + a[|b|..]; }
  }

  /** A free path's first part does not name a file, and names a directory only on the way down. */
  lemma FreeName(children: map<Name, Node>, path: Path)
    requires FullBelow(Dir(children)) && path != [] && Free(children, path) && path[0] in children
    ensures |path| > 1 && children[path[0]].Dir?
  {
    var name := path[0];
    assert [name] <= path && (children[name].Leaf? ==> Find(children, [name]).Some?);
    if children[name].Dir? {
      assert Full(children[name]);
      var q := FullHasPath(children[name]);
      FindBelow(children, name, q);
      assert |path| == 1 ==> path <= [name] + q;
    }
  }

  lemma FreeBelow(children: map<Name, Node>, path: Path)
    requires path != [] && Free(children, path) && path[0] in children && children[path[0]].Dir?
    ensures Free(children[path[0]].children, path[1..])
  {
    var name := path[0];
    forall q: Path | Find(children[name].children, q).Some? ensures !Clash(path[1..], q) {
      FindBelow(children, name, q);
      assert [name] + path[1..] == path;
      ClashBelow(name, path[1..], q);
    }
  }

  /** Inserting at a free path succeeds, keeps directories full, and changes that path alone. */
  lemma {:induction false} InsertFinds(children: map<Name, Node>, path: Path, file: File, q: Path)
    requires FullBelow(Dir(children)) && path != [] && Free(children, path)
    ensures Insert(children, path, file).Some?
    ensures Find(Insert(children, path, file).value, q) == if q == path then Some(file) else Find(children, q)
    decreases |path|
  {
    var name := path[0];
    if name in children {
      FreeName(children, path);
      FreeBelow(children, path);
      assert Full(children[name]);
      InsertFinds(children[name].children, path[1..], file, if q == [] then [] else q[1..]);
    } else if |path| > 1 {
      InsertFinds(map[], path[1..], file, if q == [] then [] else q[1..]);
    }
    assert path == [name] + path[1..];
    if q != [] { assert q == [q[0]] + q[1..]; }
  }

  lemma {:induction false} InsertKeepsFull(children: map<Name, Node>, path: Path, file: File)
    requires FullBelow(Dir(children)) && path != [] && Free(children, path)
    ensures Insert(children, path, file).Some? && Insert(children, path, file).value != map[]
    ensures FullBelow(Dir(Insert(children, path, file).value))
    decreases |path|
  {
    var name := path[0];
    if name in children {
      FreeName(children, path);
      FreeBelow(children, path);
      assert Full(children[name]);
      InsertKeepsFull(children[name].children, path[1..], file);
    } else if |path| > 1 {
      InsertKeepsFull(map[], path[1..], file);
    }
    var after := Insert(children, path, file).value;
    assert name in after && Full(after[name]);
    forall other | other in after ensures Full(after[other]) {
      if other != name { assert Full(children[other]); }
    }
  }

  // ----- order does not matter -----

  /** Paths with at least one part, none equal to or inside another. */
  predicate PrefixFree(items: seq<Item>) {
    && (forall i :: 0 <= i < |items| ==> items[i].path != [])
    && (forall i, j :: 0 <= i < j < |items| ==> !Clash(items[i].path, items[j].path))
  }

  /** The file listed for a path. */
  function Listed(items: seq<Item>, path: Path): Option<File> {
    if items == [] then None
    else if items[|items| - 1].path == path then Some(items[|items| - 1].file)
    else Listed(items[..|items| - 1], path)
  }

  lemma {:induction false} ListedMeans(items: seq<Item>, path: Path)
    ensures Listed(items, path).Some? ==> Item(path, Listed(items, path).value) in items
    ensures PrefixFree(items) ==> forall file :: Item(path, file) in items ==> Listed(items, path) == Some(file)
    decreases |items|
  {
    if items != [] {
      var shorter := items[..|items| - 1];
      assert items == shorter + [items[|items| - 1]];
      ListedMeans(shorter, path);
      if PrefixFree(items) {
        assert PrefixFree(shorter);
        forall file | Item(path, file) in items ensures Listed(items, path) == Some(file) {
          var i :| 0 <= i < |items| && items[i] == Item(path, file);
          assert i < |items| - 1 ==> !Clash(items[i].path, items[|items| - 1].path);
          assert i < |items| - 1 ==> shorter[i] == Item(path, file);
        }
      }
    }
  }

  /** The tree of a prefix-free snapshot exists and holds exactly the snapshot's files. */
  lemma {:induction false} BuildFinds(items: seq<Item>)
    requires PrefixFree(items)
    ensures InsertAll(items).Some? && FullBelow(Dir(InsertAll(items).value))
    ensures forall q: Path :: Find(InsertAll(items).value, q) == Listed(items, q)
    decreases |items|
  {
    if items != [] {
      var shorter := items[..|items| - 1];
      var item := items[|items| - 1];
      assert PrefixFree(shorter);
      BuildFinds(shorter);
      var before := InsertAll(shorter).value;
      forall q: Path | Find(before, q).Some? ensures !Clash(item.path, q) {
        ListedMeans(shorter, q);
        var i :| 0 <= i < |shorter| && shorter[i].path == q;
        assert items[i] == shorter[i];
      }
      InsertKeepsFull(before, item.path, item.file);
      forall q: Path ensures Find(InsertAll(items).value, q) == Listed(items, q) {
        InsertFinds(before, item.path, item.file, q);
      }
    }
  }

  /** Full directories with the same files are the same. */
  lemma {:induction false} SameFiles(a: Node, b: Node)
    requires a.Dir? && b.Dir? && FullBelow(a) && FullBelow(b)
    requires forall q: Path :: Find(a.children, q) == Find(b.children, q)
    ensures a == b
    decreases a
  {
    forall name | name in a.children ensures name in b.children && a.children[name] == b.children[name] {
      SameFilesAt(a, b, name);
    }
    forall name | name in b.children ensures name in a.children {
      NamesIncluded(b, a, name);
    }
    assert a.children == b.children;
  }

  lemma NamesIncluded(a: Node, b: Node, name: Name)
    requires a.Dir? && b.Dir? && FullBelow(a) && name in a.children
    requires forall q: Path :: Find(a.children, q) == Find(b.children, q)
    ensures name in b.children && (b.children[name].Leaf? <==> a.children[name].Leaf?)
    ensures a.children[name].Leaf? ==> a.children[name] == b.children[name]
  {
    if a.children[name].Leaf? {
      assert Find(a.children, [name]) == Some(a.children[name].file);
      assert Find(b.children, [name]).Some?;
      assert b.children[name].Dir? ==> Find(b.children, [name]) == Find(b.children[name].children, []);
    } else {
      assert Full(a.children[name]);
      var q := FullHasPath(a.children[name]);
      FindBelow(a.children, name, q);
      assert Find(b.children, [name] + q).Some?;
    }
  }

  lemma {:induction false} SameFilesAt(a: Node, b: Node, name: Name)
    requires a.Dir? && b.Dir? && FullBelow(a) && FullBelow(b) && name in a.children
    requires forall q: Path :: Find(a.children, q) == Find(b.children, q)
    ensures name in b.children && a.children[name] == b.children[name]
    decreases a, 0
  {
    NamesIncluded(a, b, name);
    if a.children[name].Dir? {
      assert Full(a.children[name]) && Full(b.children[name]);
      forall q: Path ensures Find(a.children[name].children, q) == Find(b.children[name].children, q) {
        FindBelow(a.children, name, q);
        FindBelow(b.children, name, q);
        assert Find(a.children, [name] + q) == Find(b.children, [name] + q);
      }
      SameFiles(a.children[name], b.children[name]);
    }
  }

  /** Any two orders of a prefix-free snapshot build the same tree. */
  lemma OrderDoesNotMatter(a: seq<Item>, b: seq<Item>)
    requires PrefixFree(a) && PrefixFree(b) && multiset(a) == multiset(b)
    ensures InsertAll(a).Some? && InsertAll(a) == InsertAll(b)
  {
    BuildFinds(a);
    BuildFinds(b);
    forall q: Path ensures Listed(a, q) == Listed(b, q) {
      ListedMeans(a, q);
      ListedMeans(b, q);
      assert forall item :: item in a <==> item in multiset(a);
      assert forall item :: item in b <==> item in multiset(b);
    }
    SameFiles(Dir(InsertAll(a).value), Dir(InsertAll(b).value));
  }

  /** A path that passes through a file is refused. */
  lemma {:induction false} ThroughFile(children: map<Name, Node>, p: Path, q: Path, file: File)
    requires Find(children, p).Some? && p < q
    ensures Insert(children, q, file).None?
    decreases |p|
  {
    assert p[0] == q[0];
    if children[p[0]].Dir? {
      assert p[1..] < q[1..];
      ThroughFile(children[p[0]].children, p[1..], q[1..], file);
    }
  }

  /** Only passing through a file makes an insertion fail. */
  lemma {:induction false} FailurePassesThroughFile(children: map<Name, Node>, path: Path, file: File) returns (r: Path)
    requires path != [] && Insert(children, path, file).None?
    ensures r < path && Find(children, r).Some?
    decreases |path|
  {
    var name := path[0];
    assert path == [name] + path[1..];
    if name in children && children[name].Dir? {
      var below := FailurePassesThroughFile(children[name].children, path[1..], file);
      FindBelow(children, name, below);
      r := [name] + below;
    } else if name !in children {
      var below := FailurePassesThroughFile(map[], path[1..], file);
      r := [name];
    } else {
      r := [name];
    }
  }

  lemma {:induction false} InsertLands(children: map<Name, Node>, path: Path, file: File)
    requires Insert(children, path, file).Some?
    ensures Find(Insert(children, path, file).value, path) == Some(file)
    decreases |path|
  {
    if |path| > 1 {
      var child := if path[0] in children then children[path[0]] else Dir(map[]);
      InsertLands(child.children, path[1..], file);
    }
  }

  /** An insertion, wherever it lands, changes no path that it does not clash with, and adds only its own. */
  lemma {:induction false} InsertElsewhere(children: map<Name, Node>, path: Path, file: File, q: Path)
    requires Insert(children, path, file).Some?
    ensures var after := Insert(children, path, file).value;
      && (!Clash(path, q) ==> Find(after, q) == Find(children, q))
      && (Find(after, q).Some? ==> q == path || Find(children, q).Some?)
    decreases |path|
  {
    assert path == [path[0]] + path[1..];
    if q != [] {
      assert q == [q[0]] + q[1..];
      if |path| > 1 && q[0] == path[0] {
        var child := if path[0] in children then children[path[0]] else Dir(map[]);
        InsertElsewhere(child.children, path[1..], file, q[1..]);
        ClashBelow(path[0], path[1..], q[1..]);
      }
    }
  }

  lemma {:induction false} FileHidesBelow(children: map<Name, Node>, p: Path, q: Path)
    requires Find(children, p).Some? && p < q
    ensures Find(children, q) == None
    decreases |p|
  {
    assert p[0] == q[0];
    if children[p[0]].Dir? {
      assert p[1..] < q[1..];
      FileHidesBelow(children[p[0]].children, p[1..], q[1..]);
    }
  }

  /** A dictionary of paths: each with a part, no two the same. */
  predicate IsSnapshot(items: seq<Item>) {
    && (forall i :: 0 <= i < |items| ==> items[i].path != [])
    && (forall i, j :: 0 <= i < j < |items| ==> items[i].path != items[j].path)
  }

  lemma {:induction false} FoundWasListed(items: seq<Item>, q: Path)
    requires InsertAll(items).Some? && Find(InsertAll(items).value, q).Some?
    ensures exists i :: 0 <= i < |items| && items[i].path == q
    decreases |items|
  {
    if items != [] {
      var n := |items| - 1;
      var before := items[..n];
      InsertElsewhere(InsertAll(before).value, items[n].path, items[n].file, q);
      if q == items[n].path {
        assert items[n].path == q;
      } else {
        FoundWasListed(before, q);
        var i :| 0 <= i < |before| && before[i].path == q;
        assert items[i].path == q;
      }
    }
  }

  /** A listed path leads, in a tree that was built, to a file or through one. */
  lemma {:induction false} ListedIsCovered(items: seq<Item>, i: nat) returns (r: Path)
    requires InsertAll(items).Some? && i < |items|
    ensures r <= items[i].path && Find(InsertAll(items).value, r).Some?
    decreases |items|
  {
    var n := |items| - 1;
    var before, last := InsertAll(items[..n]).value, items[n];
    InsertLands(before, last.path, last.file);
    r := last.path;
    if i < n {
      var earlier := ListedIsCovered(items[..n], i);
      if earlier < last.path {
        ThroughFile(before, earlier, last.path, last.file);
      } else if !(last.path <= earlier) {
        InsertElsewhere(before, last.path, last.file, earlier);
        r := earlier;
      }
    }
  }

  /** In whatever order a snapshot is built, a path inside another is lost if it does not fail. */
  lemma NestedIsLost(items: seq<Item>, i: nat, j: nat)
    requires i < |items| && j < |items| && items[i].path < items[j].path && InsertAll(items).Some?
    ensures Find(InsertAll(items).value, items[j].path) == None
  {
    var r := ListedIsCovered(items, i);
    FileHidesBelow(InsertAll(items).value, r, items[j].path);
  }

  predicate LongestFirst(items: seq<Item>) {
    forall i, j :: 0 <= i < j < |items| ==> |items[i].path| >= |items[j].path|
  }

  /** Inserted longest first, any snapshot builds. */
  lemma {:induction false} LongestFirstBuilds(items: seq<Item>)
    requires LongestFirst(items) && forall i :: 0 <= i < |items| ==> items[i].path != []
    ensures InsertAll(items).Some?
    decreases |items|
  {
    if items != [] {
      var n := |items| - 1;
      LongestFirstBuilds(items[..n]);
      var before := InsertAll(items[..n]).value;
      if Insert(before, items[n].path, items[n].file).None? {
        var r := FailurePassesThroughFile(before, items[n].path, items[n].file);
        FoundWasListed(items[..n], r);
      }
    }
  }

  lemma TakeOut(items: seq<Item>, i: nat)
    requires i < |items|
    ensures multiset(items[..i] + items[i + 1..]) == multiset(items) - multiset{items[i]}
    ensures multiset(items) == multiset(items[..i] + items[i + 1..]) + multiset{items[i]}
  {
    assert items == items[..i] + [items[i]] + items[i + 1..];
  }

  lemma {:induction false} SortLongestFirst(items: seq<Item>) returns (sorted: seq<Item>)
    ensures multiset(sorted) == multiset(items) && LongestFirst(sorted)
    decreases |items|
  {
    if items == [] {
      sorted := [];
    } else {
      var k := ShortestIn(items);
      var rest := items[..k] + items[k + 1..];
      TakeOut(items, k);
      var before := SortLongestFirst(rest);
      sorted := before + [items[k]];
      forall i | 0 <= i < |before| ensures |before[i].path| >= |items[k].path| {
        assert before[i] in multiset(before);
        assert before[i] in multiset(items);
      }
    }
  }

  lemma {:induction false} ShortestIn(items: seq<Item>) returns (k: nat)
    requires items != []
    ensures k < |items| && forall i :: 0 <= i < |items| ==> |items[k].path| <= |items[i].path|
    decreases |items|
  {
    var n := |items| - 1;
    k := n;
    if n > 0 {
      var other := ShortestIn(items[..n]);
      if |items[other].path| < |items[n].path| {
        k := other;
      }
      assert forall i :: 0 <= i < n ==> items[..n][i] == items[i];
    }
  }

  lemma {:induction false} FailureStays(items: seq<Item>, more: seq<Item>)
    requires InsertAll(items).None?
    ensures InsertAll(items + more).None?
    decreases |more|
  {
    if more == [] {
      assert items + more == items;
    } else {
      var n := |more| - 1;
      FailureStays(items, more[..n]);
      assert (items + more)[..|items + more| - 1] == items + more[..n];
    }
  }

  lemma WithoutOne(items: seq<Item>, item: Item) returns (rest: seq<Item>)
    requires item in items
    ensures multiset(items) == multiset(rest) + multiset{item}
  {
    var k :| 0 <= k < |items| && items[k] == item;
    TakeOut(items, k);
    rest := items[..k] + items[k + 1..];
  }

  /** The same files with these two in front. */
  lemma InFront(items: seq<Item>, p: Item, q: Item) returns (rest: seq<Item>)
    requires p in items && q in items && p != q
    ensures multiset([p, q] + rest) == multiset(items)
  {
    var most := WithoutOne(items, p);
    assert q in multiset(items) && q in multiset(most);
    rest := WithoutOne(most, q);
    assert multiset([p, q]) == multiset{p} + multiset{q};
    assert multiset([p, q] + rest) == multiset([p, q]) + multiset(rest);
  }

  /** The same files with an enclosing path right before the one inside it: this order fails. */
  lemma FailingOrder(items: seq<Item>, i: nat, j: nat) returns (order: seq<Item>)
    requires i < |items| && j < |items| && items[i].path != [] && items[i].path < items[j].path
    ensures multiset(order) == multiset(items) && InsertAll(order).None?
  {
    var p, q := items[i], items[j];
    var rest := InFront(items, p, q);
    order := [p, q] + rest;
    AloneFinds(p);
    assert [p, q][..1] == [p];
    ThroughFile(InsertAll([p]).value, p.path, q.path, q.file);
    FailureStays([p, q], rest);
  }

  lemma AloneFinds(item: Item)
    requires item.path != []
    ensures InsertAll([item]).Some? && Find(InsertAll([item]).value, item.path) == Some(item.file)
  {
    BuildFinds([item]);
    assert Listed([item], item.path) == Some(item.file);
  }

  /** Every order of these files has the same result. */
  ghost predicate AnyOrder(items: seq<Item>) {
    forall other: seq<Item> | multiset(other) == multiset(items) :: InsertAll(other) == InsertAll(items)
  }

  lemma {:induction false} ListedOnce(items: seq<Item>, item: Item)
    requires PrefixFree(items)
    ensures multiset(items)[item] <= 1
    decreases |items|
  {
    if items != [] {
      var n := |items| - 1;
      assert items == items[..n] + [items[n]];
      ListedOnce(items[..n], item);
      if item == items[n] {
        assert item !in items[..n];
      }
    }
  }

  lemma ListedTwice(items: seq<Item>, i: nat, j: nat)
    requires i < j < |items| && items[i] == items[j]
    ensures multiset(items)[items[i]] >= 2
  {
    assert items == items[..j] + items[j..];
    assert items[..j][i] == items[i] && items[j..][0] == items[j];
    assert items[i] in items[..j] && items[i] in items[j..];
    assert multiset(items)[items[i]] == multiset(items[..j])[items[i]] + multiset(items[j..])[items[i]];
  }

  lemma PrefixFreeInAnyOrder(items: seq<Item>, other: seq<Item>)
    requires PrefixFree(items) && multiset(other) == multiset(items)
    ensures PrefixFree(other)
  {
    forall i | 0 <= i < |other| ensures other[i] in items {
      assert other[i] in multiset(other);
      assert other[i] in multiset(items);
    }
    forall i, j | 0 <= i < j < |other| ensures !Clash(other[i].path, other[j].path) {
      ListedOnce(items, other[i]);
      if other[i] == other[j] {
        ListedTwice(other, i, j);
      } else {
        var a :| 0 <= a < |items| && items[a] == other[i];
        var b :| 0 <= b < |items| && items[b] == other[j];
        assert a < b || b < a;
      }
    }
  }

  lemma OrdersAgree(items: seq<Item>)
    requires PrefixFree(items)
    ensures AnyOrder(items)
  {
    forall other: seq<Item> | multiset(other) == multiset(items) ensures InsertAll(other) == InsertAll(items) {
      PrefixFreeInAnyOrder(items, other);
      OrderDoesNotMatter(other, items);
    }
  }

  /** Exactly the prefix-free snapshots do not depend on their order. */
  lemma OrderMattersIff(items: seq<Item>)
    requires IsSnapshot(items)
    ensures AnyOrder(items) <==> PrefixFree(items)
  {
    if PrefixFree(items) {
      OrdersAgree(items);
    } else {
      var i, j := NestedPair(items);
      var failing := FailingOrder(items, i, j);
      var sorted := SortLongestFirst(items);
      forall k | 0 <= k < |sorted| ensures sorted[k].path != [] {
        assert sorted[k] in multiset(items);
      }
      LongestFirstBuilds(sorted);
    }
  }

  lemma NestedPair(items: seq<Item>) returns (i: nat, j: nat)
    requires IsSnapshot(items) && !PrefixFree(items)
    ensures i < |items| && j < |items| && items[i].path < items[j].path
  {
    var a: nat, b: nat :| a < b < |items| && Clash(items[a].path, items[b].path);
    if items[a].path <= items[b].path {
      i, j := a, b;
    } else {
      i, j := b, a;
    }
  }

  // ----- Git's entry order -----

  const SPACE := 32
  const SLASH := 47
  const NUL := 0

  /** Python's order on byte strings. */
  predicate AtMost(a: Bytes, b: Bytes) {
    a == [] || (b != [] && (a[0] < b[0] || (a[0] == b[0] && AtMost(a[1..], b[1..]))))
  }

  lemma {:induction false} AtMostTotal(a: Bytes, b: Bytes)
    ensures AtMost(a, b) || AtMost(b, a)
    ensures AtMost(a, b) && AtMost(b, a) ==> a == b
  {
    if a != [] && b != [] {
      AtMostTotal(a[1..], b[1..]);
      assert a == [a[0]] + a[1..] && b == [b[0]] + b[1..];
    }
  }

  lemma {:induction false} AtMostTransitive(a: Bytes, b: Bytes, c: Bytes)
    requires AtMost(a, b) && AtMost(b, c)
    ensures AtMost(a, c)
  {
    if a != [] && a[0] == b[0] && b[0] == c[0] {
      AtMostTransitive(a[1..], b[1..], c[1..]);
    }
  }

  /** A directory sorts as if its name ended in a slash. */
  function Key(children: map<Name, Node>, name: Name): Bytes
    requires name in children
  {
    name + if children[name].Dir? then [SLASH] else []
  }

  lemma {:induction false} AtMostAfter(p: Bytes, a: Bytes, b: Bytes)
    ensures AtMost(p + a, p + b) <==> AtMost(a, b)
  {
    if p == [] {
      assert p + a == a && p + b == b;
    } else {
      assert (p + a)[1..] == p[1..] + a && (p + b)[1..] == p[1..] + b;
      AtMostAfter(p[1..], a, b);
    }
  }

  /** Git's order: a file whose name extends a directory's comes first exactly if its next byte is below the slash. */
  lemma DirectorySortsWithSlash(children: map<Name, Node>, dir: Name, c: int, tail: Bytes)
    requires dir in children && children[dir].Dir? && c != SLASH
    requires dir + [c] + tail in children && children[dir + [c] + tail].Leaf?
    ensures AtMost(Key(children, dir + [c] + tail), Key(children, dir)) <==> c < SLASH
  {
    assert Key(children, dir + [c] + tail) == dir + ([c] + tail);
    AtMostAfter(dir, [c] + tail, [SLASH]);
  }

  ghost predicate IsFirst(children: map<Name, Node>, names: set<Name>, name: Name)
    requires names <= children.Keys
  {
    name in names && forall other | other in names :: AtMost(Key(children, name), Key(children, other))
  }

  lemma {:induction false} FirstExists(children: map<Name, Node>, names: set<Name>) returns (first: Name)
    requires names <= children.Keys && names != {}
    ensures IsFirst(children, names, first)
    decreases |names|
  {
    var name :| name in names;
    var rest := names - {name};
    AtMostTotal(Key(children, name), Key(children, name));
    if rest == {} {
      first := name;
      assert names == {name};
    } else {
      var other := FirstExists(children, rest);
      AtMostTotal(Key(children, name), Key(children, other));
      first := if AtMost(Key(children, name), Key(children, other)) then name else other;
      forall n | n in names ensures AtMost(Key(children, first), Key(children, n)) {
        if n != name && first == name {
          AtMostTransitive(Key(children, name), Key(children, other), Key(children, n));
        }
      }
    }
  }

  /** The names in the order of their keys. */
  ghost function Ordered(children: map<Name, Node>, names: set<Name>): (order: seq<Name>)
    requires names <= children.Keys
    ensures forall name :: name in order <==> name in names
    decreases |names|
  {
    if names == {} then [] else
      assert exists first :: IsFirst(children, names, first) by { var first := FirstExists(children, names); }
      var first :| IsFirst(children, names, first);
      [first] + Ordered(children, names - {first})
  }

  ghost predicate Ascending(children: map<Name, Node>, order: seq<Name>)
    requires forall name :: name in order ==> name in children
  {
    && (forall i, j :: 0 <= i < j < |order| ==> order[i] != order[j])
    && (forall i, j :: 0 <= i < j < |order| ==> AtMost(Key(children, order[i]), Key(children, order[j])))
  }

  lemma {:induction false} OrderedAscends(children: map<Name, Node>, names: set<Name>)
    requires names <= children.Keys
    ensures Ascending(children, Ordered(children, names))
    decreases |names|
  {
    if names != {} {
      var order := Ordered(children, names);
      var first, rest := order[0], order[1..];
      assert IsFirst(children, names, first) && rest == Ordered(children, names - {first});
      OrderedAscends(children, names - {first});
      AscendsFrom(children, names, first, rest);
      assert order == [first] + rest;
    }
  }

  lemma AscendsFrom(children: map<Name, Node>, names: set<Name>, first: Name, rest: seq<Name>)
    requires names <= children.Keys && IsFirst(children, names, first)
    requires (forall name :: name in rest ==> name in names - {first}) && Ascending(children, rest)
    ensures Ascending(children, [first] + rest)
  {
    var order := [first] + rest;
    forall k | 0 <= k < |order| ensures order[k] in names {
      if k > 0 {
        assert order[k] == rest[k - 1] && rest[k - 1] in rest;
      }
    }
    forall i, j | 0 <= i < j < |order|
      ensures order[i] != order[j] && AtMost(Key(children, order[i]), Key(children, order[j]))
    {
      assert order[j] == rest[j - 1] && rest[j - 1] in rest;
      if i > 0 {
        assert order[i] == rest[i - 1];
      }
    }
  }

  predicate NameOk(name: Name) {
    name != [] && SLASH !in name && NUL !in name
  }

  predicate NamesHere(children: map<Name, Node>) {
    forall name | name in children :: NameOk(name)
  }

  /** Distinct names have distinct keys, so sorting has one result. */
  lemma KeysDiffer(children: map<Name, Node>, a: Name, b: Name)
    requires NamesHere(children) && a in children && b in children && Key(children, a) == Key(children, b)
    ensures a == b
  {
    var k := Key(children, a);
    if children[a].Dir? {
      assert k[|k| - 1] == SLASH;
      assert children[b].Leaf? ==> k == b;
      assert children[b].Dir? ==> k[..|k| - 1] == b;
      assert k[..|k| - 1] == a;
    } else {
      assert k == a;
      assert children[b].Dir? ==> SLASH in k;
    }
  }

  /** Whatever order a directory iterates in, sorting its entries by key gives this one sequence. */
  lemma {:induction false} SortIsUnique(children: map<Name, Node>, order: seq<Name>, names: set<Name>)
    requires names <= children.Keys && NamesHere(children)
    requires forall name :: name in order <==> name in names
    requires Ascending(children, order)
    ensures order == Ordered(children, names)
    decreases |order|
  {
    var other := Ordered(children, names);
    OrderedAscends(children, names);
    if order == [] {
      assert names == {};
    } else {
      assert order[0] in order && order[0] in other;
      SameFirst(children, order, other);
      var rest := names - {order[0]};
      forall name ensures name in order[1..] <==> name in rest {
        RestNames(children, order, name);
      }
      SortIsUnique(children, order[1..], rest);
      assert order == [order[0]] + order[1..];
    }
  }

  lemma RestNames(children: map<Name, Node>, order: seq<Name>, name: Name)
    requires (forall n :: n in order ==> n in children) && order != [] && Ascending(children, order)
    ensures name in order[1..] <==> name in order && name != order[0]
  {
    assert order == [order[0]] + order[1..];
    assert forall j :: 0 <= j < |order| - 1 ==> order[1..][j] == order[j + 1];
  }

  lemma SameFirst(children: map<Name, Node>, a: seq<Name>, b: seq<Name>)
    requires NamesHere(children) && a != [] && (forall name :: name in a <==> name in b)
    requires forall name :: name in a ==> name in children
    requires Ascending(children, a) && Ascending(children, b)
    ensures b != [] && a[0] == b[0]
  {
    assert a[0] in b;
    assert b[0] in a;
    var i :| 0 <= i < |b| && b[i] == a[0];
    var j :| 0 <= j < |a| && a[j] == b[0];
    AtMostTotal(Key(children, a[0]), Key(children, b[0]));
    if i > 0 && j > 0 {
      KeysDiffer(children, a[0], b[0]);
    }
  }

  // ----- identities -----

  type Digest = Bytes -> Bytes

  /** "blob" or "tree", the length in decimal, and the content. */
  const BLOB: Bytes := [98, 108, 111, 98]
  const TREE: Bytes := [116, 114, 101, 101]
  const DIRECTORY_MODE: Bytes := [52, 48, 48, 48, 48]

  function Frame(kind: Bytes, data: Bytes): Bytes {
    kind + [SPACE] + Digits(|data|) + [NUL] + data
  }

  datatype Entry = Entry(mode: Bytes, name: Name, oid: Bytes)

  function Encode(entries: seq<Entry>): Bytes {
    if entries == [] then [] else
      entries[0].mode + [SPACE] + entries[0].name + [NUL] + entries[0].oid + Encode(entries[1..])
  }

  ghost function Entries(digest: Digest, node: Node, names: seq<Name>): (entries: seq<Entry>)
    requires node.Dir? && forall name :: name in names ==> name in node.children
    ensures |entries| == |names|
    decreases node, 0, |names|
  {
    if names == [] then [] else
      var child := node.children[names[0]];
      [Entry(if child.Dir? then DIRECTORY_MODE else child.file.mode, names[0], Oid(digest, child))]
        + Entries(digest, node, names[1..])
  }

  /** What is hashed for a file or directory. */
  ghost function Hashed(digest: Digest, node: Node): Bytes
    decreases node, 1, 0
  {
    match node
    case Leaf(file) => Frame(BLOB, file.data)
    case Dir(children) => Frame(TREE, Encode(Entries(digest, node, Ordered(children, children.Keys))))
  }

  ghost function Oid(digest: Digest, node: Node): Bytes
    decreases node, 2, 0
  {
    digest(Hashed(digest, node))
  }

  /** `x` is hashed somewhere in this tree. */
  ghost predicate HashedIn(digest: Digest, node: Node, x: Bytes)
    decreases node
  {
    x == Hashed(digest, node)
      || (node.Dir? && exists name :: name in node.children && HashedIn(digest, node.children[name], x))
  }

  /** The digest tells apart what these two trees hash. */
  ghost predicate NoCollision(digest: Digest, a: Node, b: Node) {
    forall x, y | HashedIn(digest, a, x) && HashedIn(digest, b, y) && digest(x) == digest(y) :: x == y
  }

  ghost predicate TwentyBytes(digest: Digest) {
    forall x: Bytes :: |digest(x)| == 20
  }

  /** Names have no slash and no zero byte, file modes no space. */
  ghost predicate Writable(node: Node) {
    match node
    case Leaf(file) => SPACE !in file.mode
    case Dir(children) => NamesHere(children) && forall name | name in children :: Writable(children[name])
  }

  lemma {:induction false} SplitAt(p: Bytes, q: Bytes, c: int, r: Bytes, s: Bytes)
    requires c !in p && c !in q && p + [c] + r == q + [c] + s
    ensures p == q && r == s
  {
    var whole := p + [c] + r;
    assert whole[|p|] == c && whole[|q|] == c;
    assert forall i :: 0 <= i < |q| ==> whole[i] == q[i];
    assert forall i :: 0 <= i < |p| ==> whole[i] == p[i];
    assert whole[..|p|] == p && whole[..|q|] == q;
    assert whole[|p| + 1..] == r && whole[|q| + 1..] == s;
  }

  lemma FrameInjective(a: Bytes, b: Bytes, kind: Bytes)
    requires Frame(kind, a) == Frame(kind, b)
    ensures a == b
  {
    assert Frame(kind, a)[|kind| + 1..] == Digits(|a|) + [NUL] + a;
    assert Frame(kind, b)[|kind| + 1..] == Digits(|b|) + [NUL] + b;
    SplitAt(Digits(|a|), Digits(|b|), NUL, a, b);
  }

  lemma KindsDiffer(a: Bytes, b: Bytes)
    ensures Frame(BLOB, a) != Frame(TREE, b)
  {
    assert Frame(BLOB, a)[0] == 98 && Frame(TREE, b)[0] == 116;
  }

  predicate EntryOk(e: Entry) {
    SPACE !in e.mode && NUL !in e.name && |e.oid| == 20
  }

  lemma EntryInjective(a: Entry, b: Entry, r: Bytes, s: Bytes)
    requires EntryOk(a) && EntryOk(b)
    requires a.mode + [SPACE] + a.name + [NUL] + a.oid + r == b.mode + [SPACE] + b.name + [NUL] + b.oid + s
    ensures a == b && r == s
  {
    var restA := a.name + [NUL] + (a.oid + r);
    var restB := b.name + [NUL] + (b.oid + s);
    assert a.mode + [SPACE] + a.name + [NUL] + a.oid + r == a.mode + [SPACE] + restA;
    assert b.mode + [SPACE] + b.name + [NUL] + b.oid + s == b.mode + [SPACE] + restB;
    SplitAt(a.mode, b.mode, SPACE, restA, restB);
    SplitAt(a.name, b.name, NUL, a.oid + r, b.oid + s);
    assert (a.oid + r)[..20] == a.oid && (b.oid + s)[..20] == b.oid;
    assert (a.oid + r)[20..] == r && (b.oid + s)[20..] == s;
  }

  predicate EntriesOk(entries: seq<Entry>) {
    forall i :: 0 <= i < |entries| ==> EntryOk(entries[i])
  }

  lemma {:induction false} EncodeInjective(a: seq<Entry>, b: seq<Entry>)
    requires EntriesOk(a) && EntriesOk(b) && Encode(a) == Encode(b)
    ensures a == b
  {
    if a != [] && b != [] {
      EntryInjective(a[0], b[0], Encode(a[1..]), Encode(b[1..]));
      EncodeInjective(a[1..], b[1..]);
      assert a == [a[0]] + a[1..] && b == [b[0]] + b[1..];
    }
  }

  lemma {:induction false} EntryAt(digest: Digest, node: Node, names: seq<Name>, i: nat)
    requires node.Dir? && (forall name :: name in names ==> name in node.children) && i < |names|
    ensures var child := node.children[names[i]];
      Entries(digest, node, names)[i]
        == Entry(if child.Dir? then DIRECTORY_MODE else child.file.mode, names[i], Oid(digest, child))
    decreases i
  {
    if i > 0 {
      var rest := names[1..];
      assert rest[i - 1] == names[i];
      EntryAt(digest, node, rest, i - 1);
      assert Entries(digest, node, names)[i] == Entries(digest, node, rest)[i - 1];
    }
  }

  lemma EntriesAreOk(digest: Digest, node: Node, names: seq<Name>)
    requires TwentyBytes(digest) && node.Dir? && Writable(node) && forall name :: name in names ==>
      name in node.children
    ensures EntriesOk(Entries(digest, node, names))
  {
    forall i | 0 <= i < |names| ensures EntryOk(Entries(digest, node, names)[i]) {
      EntryAt(digest, node, names, i);
      var child := node.children[names[i]];
      assert Writable(child) && NameOk(names[i]);
      assert |digest(Hashed(digest, child))| == 20;
    }
  }

  /** Equal content: the same directory, or files with the same bytes (the mode is in the parent's entry). */
  predicate SameContent(a: Node, b: Node) {
    match a
    case Leaf(file) => b.Leaf? && b.file.data == file.data
    case Dir(_) => a == b
  }

  /** Equal identities mean equal content, if the digest has no collision among what the two trees hash. */
  lemma {:induction false} SameIdentity(digest: Digest, a: Node, b: Node)
    requires TwentyBytes(digest) && Writable(a) && Writable(b) && NoCollision(digest, a, b)
    requires Oid(digest, a) == Oid(digest, b)
    ensures SameContent(a, b)
    decreases a
  {
    assert HashedIn(digest, a, Hashed(digest, a)) && HashedIn(digest, b, Hashed(digest, b));
    assert Hashed(digest, a) == Hashed(digest, b);
    SameKind(digest, a, b);
    if a.Leaf? {
      FrameInjective(a.file.data, b.file.data, BLOB);
    } else {
      SameEntries(digest, a, b);
      forall name | name in a.children ensures a.children[name] == b.children[name] {
        SameChild(digest, a, b, name);
        CollisionBelow(digest, a, b, name);
        assert Writable(a.children[name]) && Writable(b.children[name]);
        SameIdentity(digest, a.children[name], b.children[name]);
      }
      assert a.children == b.children;
    }
  }

  lemma SameKind(digest: Digest, a: Node, b: Node)
    requires Hashed(digest, a) == Hashed(digest, b)
    ensures a.Leaf? <==> b.Leaf?
  {
    if a.Leaf? && b.Dir? {
      KindsDiffer(a.file.data, Encode(Entries(digest, b, Ordered(b.children, b.children.Keys))));
    }
    if a.Dir? && b.Leaf? {
      KindsDiffer(b.file.data, Encode(Entries(digest, a, Ordered(a.children, a.children.Keys))));
    }
  }

  lemma SameEntries(digest: Digest, a: Node, b: Node)
    requires TwentyBytes(digest) && a.Dir? && b.Dir? && Writable(a)
    requires Writable(b) && Hashed(digest, a) == Hashed(digest, b)
    ensures a.children.Keys == b.children.Keys
    ensures Ordered(a.children, a.children.Keys) == Ordered(b.children, b.children.Keys)
    ensures Entries(digest, a, Ordered(a.children, a.children.Keys))
      == Entries(digest, b, Ordered(b.children, b.children.Keys))
  {
    var namesA := Ordered(a.children, a.children.Keys);
    var namesB := Ordered(b.children, b.children.Keys);
    EntriesAreOk(digest, a, namesA);
    EntriesAreOk(digest, b, namesB);
    FrameInjective(Encode(Entries(digest, a, namesA)), Encode(Entries(digest, b, namesB)), TREE);
    EncodeInjective(Entries(digest, a, namesA), Entries(digest, b, namesB));
    forall i | 0 <= i < |namesA| ensures namesA[i] == namesB[i] {
      EntryAt(digest, a, namesA, i);
      EntryAt(digest, b, namesB, i);
    }
    assert namesA == namesB;
  }

  lemma SameChild(digest: Digest, a: Node, b: Node, name: Name)
    requires a.Dir? && b.Dir? && name in a.children && name in b.children
    requires Ordered(a.children, a.children.Keys) == Ordered(b.children, b.children.Keys)
    requires Entries(digest, a, Ordered(a.children, a.children.Keys))
      == Entries(digest, b, Ordered(b.children, b.children.Keys))
    ensures Oid(digest, a.children[name]) == Oid(digest, b.children[name])
    ensures a.children[name].Leaf? && b.children[name].Leaf? ==>
      a.children[name].file.mode == b.children[name].file.mode
  {
    var names := Ordered(a.children, a.children.Keys);
    assert name in names;
    var i :| 0 <= i < |names| && names[i] == name;
    EntryAt(digest, a, names, i);
    EntryAt(digest, b, names, i);
  }

  lemma CollisionBelow(digest: Digest, a: Node, b: Node, name: Name)
    requires a.Dir? && b.Dir? && name in a.children && name in b.children && NoCollision(digest, a, b)
    ensures NoCollision(digest, a.children[name], b.children[name])
  {
    forall x, y | HashedIn(digest, a.children[name], x) && HashedIn(digest, b.children[name], y)
      && digest(x) == digest(y)
      ensures x == y
    {
      assert HashedIn(digest, a, x) && HashedIn(digest, b, y);
    }
  }

  // ----- the whole function -----

  /** `git_tree` of a snapshot, before it is printed in hexadecimal. */
  ghost function Identity(digest: Digest, items: seq<Item>): Option<Bytes> {
    var root := InsertAll(items);
    if root.None? then None else Some(Oid(digest, Dir(root.value)))
  }

  lemma IdentityIgnoresOrder(digest: Digest, a: seq<Item>, b: seq<Item>)
    requires PrefixFree(a) && multiset(a) == multiset(b)
    ensures Identity(digest, a).Some? && Identity(digest, a) == Identity(digest, b)
  {
    PrefixFreeInAnyOrder(a, b);
    OrderDoesNotMatter(a, b);
  }

  /**
   Two prefix-free snapshots with the same identity agree on every path, byte string and mode,
   if the digest has no collision among what their two trees hash.
   */
  lemma IdentityInjective(digest: Digest, a: seq<Item>, b: seq<Item>, path: Path)
    requires TwentyBytes(digest) && PrefixFree(a) && PrefixFree(b) && WritableItems(a) && WritableItems(b)
    requires Identity(digest, a) == Identity(digest, b)
    requires InsertAll(a).Some? && InsertAll(b).Some? ==>
      NoCollision(digest, Dir(InsertAll(a).value), Dir(InsertAll(b).value))
    ensures Listed(a, path) == Listed(b, path)
    ensures forall item :: item in a <==> item in b
  {
    BuildFinds(a);
    BuildFinds(b);
    var rootA, rootB := Dir(InsertAll(a).value), Dir(InsertAll(b).value);
    BuiltWritable(a);
    BuiltWritable(b);
    SameIdentity(digest, rootA, rootB);
    forall item: Item ensures item in a <==> item in b {
      ListedMeans(a, item.path);
      ListedMeans(b, item.path);
      assert Find(rootA.children, item.path) == Find(rootB.children, item.path);
    }
    assert Find(rootA.children, path) == Find(rootB.children, path);
  }

  predicate ItemWritable(item: Item) {
    SPACE !in item.file.mode && forall i :: 0 <= i < |item.path| ==> NameOk(item.path[i])
  }

  predicate WritableItems(items: seq<Item>) {
    forall i :: 0 <= i < |items| ==> ItemWritable(items[i])
  }

  lemma {:induction false} InsertWritable(children: map<Name, Node>, path: Path, file: File)
    requires Writable(Dir(children)) && ItemWritable(Item(path, file)) && Insert(children, path, file).Some?
    ensures Writable(Dir(Insert(children, path, file).value))
    decreases |path|
  {
    assert NameOk(path[0]);
    if |path| > 1 {
      var child := if path[0] in children then children[path[0]] else Dir(map[]);
      assert Writable(child);
      assert forall i :: 0 <= i < |path[1..]| ==> path[1..][i] == path[i + 1];
      InsertWritable(child.children, path[1..], file);
    }
  }

  lemma {:induction false} BuiltWritable(items: seq<Item>)
    requires WritableItems(items) && InsertAll(items).Some?
    ensures Writable(Dir(InsertAll(items).value))
    decreases |items|
  {
    if items != [] {
      var shorter := items[..|items| - 1];
      assert WritableItems(shorter);
      BuiltWritable(shorter);
      var item := items[|items| - 1];
      assert ItemWritable(item);
      assert Item(item.path, item.file) == item;
      InsertWritable(InsertAll(shorter).value, item.path, item.file);
    }
  }
}
