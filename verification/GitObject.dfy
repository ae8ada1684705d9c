/**
 Git's object format, read: what scripts/deploy-hub-release.py:113-134 hashes for a file or a
 directory is an object that a reader of that format takes apart into the same file or children.
 */
module GitObject {
  import opened Wrappers
  import opened Decimal
  import opened GitTree

  // ----- the reader -----

  /** What stands before the first `c`, and what stands after it. */
  function Cut(s: Bytes, c: int): Option<(Bytes, Bytes)> {
    if s == [] then None
    else if s[0] == c then Some(([], s[1..]))
    else
      var rest := Cut(s[1..], c);
      if rest.None? then None else Some(([s[0]] + rest.value.0, rest.value.1))
  }

  datatype Object = Object(kind: Bytes, length: nat, body: Bytes)

  /** Kind, a space, the length in decimal, a zero byte, and the body. */
  function ReadObject(bytes: Bytes): Option<Object> {
    var parts := Cut(bytes, 0);
    if parts.None? then None else
      var head := Cut(parts.value.0, 32);
      if head.None? || head.value.1 == [] || !AllDigits(head.value.1) then None
      else Some(Object(head.value.0, Value(head.value.1), parts.value.1))
  }

  datatype Child = Child(mode: Bytes, name: Bytes, oid: Bytes)

  /** Each entry is a mode up to a space, a name up to a zero byte, and twenty bytes. */
  function ReadChildren(body: Bytes): Option<seq<Child>>
    decreases |body|
  {
    if body == [] then Some([]) else
      var first := ReadChild(body);
      if first.None? then None else
        assert |first.value.1| < |body| by { ChildIsShorter(body); }
        var rest := ReadChildren(first.value.1);
        if rest.None? then None else Some([first.value.0] + rest.value)
  }

  function ReadChild(body: Bytes): Option<(Child, Bytes)> {
    var mode := Cut(body, 32);
    if mode.None? then None else
      var name := Cut(mode.value.1, 0);
      if name.None? || |name.value.1| < 20 then None
      else Some((Child(mode.value.0, name.value.0, name.value.1[..20]), name.value.1[20..]))
  }

  lemma {:induction false} CutMeans(s: Bytes, c: int)
    ensures Cut(s, c).Some? ==>
      var (before, after) := Cut(s, c).value;
      s == before + [c] + after && c !in before
    ensures Cut(s, c).None? ==> c !in s
  {
    if s != [] && s[0] != c {
      CutMeans(s[1..], c);
      assert s == [s[0]] + s[1..];
    }
  }

  lemma ChildIsShorter(body: Bytes)
    requires ReadChild(body).Some?
    ensures |ReadChild(body).value.1| < |body|
  {
    CutMeans(body, 32);
    CutMeans(Cut(body, 32).value.1, 0);
  }

  lemma CutAt(before: Bytes, c: int, after: Bytes)
    requires c !in before
    ensures Cut(before + [c] + after, c) == Some((before, after))
  {
    var s := before + [c] + after;
    CutMeans(s, c);
    assert s[|before|] == c;
    var (b, a) := Cut(s, c).value;
    SplitAt(before, b, c, after, a);
  }

  // ----- objects -----

  lemma FrameReads(kind: Bytes, data: Bytes)
    requires 32 !in kind && 0 !in kind
    ensures ReadObject(Frame(kind, data)) == Some(Object(kind, |data|, data))
  {
    var digits := Digits(|data|);
    var head := kind + [32] + digits;
    assert Frame(kind, data) == head + [0] + data;
    CutAt(head, 0, data);
    CutAt(kind, 32, digits);
    ValueOfDigits(|data|);
  }

  /**
   What is hashed for any file or directory starts with "blob" or "tree", a space and the number
   of bytes that follow the first zero byte; for a file those bytes are its data.
   */
  lemma HashedReads(digest: Digest, node: Node)
    ensures var read := ReadObject(Hashed(digest, node));
      && read.Some? && read.value.length == |read.value.body|
      && read.value.kind == (if node.Leaf? then [98, 108, 111, 98] else [116, 114, 101, 101])
      && (node.Leaf? ==> read.value.body == node.file.data)
  {
    match node
    case Leaf(file) => FrameReads(BLOB, file.data);
    case Dir(children) => FrameReads(TREE, Encode(Entries(digest, node, Ordered(children, children.Keys))));
  }

  // ----- directories -----

  function Children(entries: seq<Entry>): seq<Child> {
    seq(|entries|, i requires 0 <= i < |entries| => Child(entries[i].mode, entries[i].name, entries[i].oid))
  }

  lemma ChildReads(e: Entry, rest: Bytes)
    requires EntryOk(e)
    ensures ReadChild(e.mode + [SPACE] + e.name + [NUL] + e.oid + rest)
         == Some((Child(e.mode, e.name, e.oid), rest))
  {
    var after := e.name + [0] + (e.oid + rest);
    assert e.mode + [SPACE] + e.name + [NUL] + e.oid + rest == e.mode + [32] + after;
    CutAt(e.mode, 32, after);
    CutAt(e.name, 0, e.oid + rest);
    assert (e.oid + rest)[..20] == e.oid && (e.oid + rest)[20..] == rest;
  }

  lemma {:induction false} EncodeReads(entries: seq<Entry>)
    requires EntriesOk(entries)
    ensures ReadChildren(Encode(entries)) == Some(Children(entries))
  {
    if entries != [] {
      EncodeReads(entries[1..]);
      ChildReads(entries[0], Encode(entries[1..]));
      assert Children(entries) == [Child(entries[0].mode, entries[0].name, entries[0].oid)] + Children(entries[1..]);
    }
  }

  /** Byte by byte: `a` is a proper beginning of `b`, or has the smaller byte where they first differ. */
  predicate Before(a: Bytes, b: Bytes) {
    exists k :: 0 <= k <= |a| && k < |b| && FirstDiffers(a, b, k)
  }

  predicate FirstDiffers(a: Bytes, b: Bytes, k: nat)
    requires k <= |a| && k < |b|
  {
    a[..k] == b[..k] && (k == |a| || a[k] < b[k])
  }

  lemma {:induction false} AtMostIff(a: Bytes, b: Bytes)
    ensures AtMost(a, b) <==> a == b || Before(a, b)
    decreases |a|
  {
    if a == [] || b == [] || a[0] != b[0] {
      if b != [] && AtMost(a, b) {
        assert FirstDiffers(a, b, 0);
      }
    } else {
      AtMostIff(a[1..], b[1..]);
      assert a == [a[0]] + a[1..] && b == [b[0]] + b[1..];
      if Before(a[1..], b[1..]) {
        var k :| 0 <= k <= |a[1..]| && k < |b[1..]| && FirstDiffers(a[1..], b[1..], k);
        assert FirstDiffers(a, b, k + 1);
      }
      if Before(a, b) {
        var k :| 0 <= k <= |a| && k < |b| && FirstDiffers(a, b, k);
        assert k > 0 && a[..k][1..] == a[1..][..k - 1] && b[..k][1..] == b[1..][..k - 1];
        assert FirstDiffers(a[1..], b[1..], k - 1);
      }
    }
  }

  /** Git sorts a directory as if its name ended in a slash. */
  function SortName(children: map<Name, Node>, name: Name): Bytes
    requires name in children
  {
    if children[name].Dir? then name + [47] else name
  }

  /** These entries are the children of the directory, each once, in Git's order. */
  ghost predicate AreChildren(digest: Digest, children: map<Name, Node>, read: seq<Child>) {
    && |read| == |children|
    && (forall i :: 0 <= i < |read| ==> IsChild(digest, children, read[i]))
    && (forall name :: name in children ==> exists i :: 0 <= i < |read| && read[i].name == name)
    && (forall i, j :: 0 <= i < j < |read| ==>
          Before(SortName(children, read[i].name), SortName(children, read[j].name)))
  }

  /** Mode "40000" for a directory and the file's own otherwise, and the digest of the child's own read. */
  ghost predicate IsChild(digest: Digest, children: map<Name, Node>, entry: Child) {
    && entry.name in children
    && var child := children[entry.name];
       && entry.mode == (if child.Dir? then [52, 48, 48, 48, 48] else child.file.mode)
       && entry.oid == digest(Hashed(digest, child))
  }

  lemma {:induction false} DistinctCount(order: seq<Name>, names: set<Name>)
    requires forall i, j :: 0 <= i < j < |order| ==> order[i] != order[j]
    requires forall name :: name in order <==> name in names
    ensures |order| == |names|
    decreases |order|
  {
    if order == [] {
      assert names == {};
    } else {
      var rest := order[1..];
      assert order == [order[0]] + rest;
      forall name ensures name in rest <==> name in names - {order[0]} {
        if name in rest {
          var j :| 0 <= j < |rest| && rest[j] == name;
          assert order[j + 1] == name;
        }
      }
      DistinctCount(rest, names - {order[0]});
    }
  }

  lemma ReadsAscend(children: map<Name, Node>, order: seq<Name>, i: nat, j: nat)
    requires NamesHere(children) && (forall name :: name in order ==> name in children) && Ascending(children, order)
    requires i < j < |order|
    ensures Before(SortName(children, order[i]), SortName(children, order[j]))
  {
    var a, b := order[i], order[j];
    assert a in order && b in order;
    assert Key(children, a) == SortName(children, a) && Key(children, b) == SortName(children, b);
    AtMostIff(Key(children, a), Key(children, b));
    if Key(children, a) == Key(children, b) {
      KeysDiffer(children, a, b);
    }
  }

  /** What is hashed for a directory reads back as exactly its children, in Git's order. */
  lemma DirectoryReads(digest: Digest, node: Node)
    requires node.Dir? && Writable(node) && TwentyBytes(digest)
    ensures var read := ReadObject(Hashed(digest, node));
      read.Some? && ReadChildren(read.value.body).Some?
        && AreChildren(digest, node.children, ReadChildren(read.value.body).value)
  {
    var order := Ordered(node.children, node.children.Keys);
    BodyIs(digest, node);
    OrderFits(digest, node);
    EntriesAreChildren(digest, node, order);
  }

  lemma BodyIs(digest: Digest, node: Node)
    requires node.Dir?
    ensures ReadObject(Hashed(digest, node)).Some?
    ensures ReadObject(Hashed(digest, node)).value.body
         == Encode(Entries(digest, node, Ordered(node.children, node.children.Keys)))
  {
    FrameReads(TREE, Encode(Entries(digest, node, Ordered(node.children, node.children.Keys))));
  }

  lemma OrderFits(digest: Digest, node: Node)
    requires node.Dir? && Writable(node) && TwentyBytes(digest)
    ensures var order := Ordered(node.children, node.children.Keys);
      && |order| == |node.children| && Ascending(node.children, order)
      && ReadChildren(Encode(Entries(digest, node, order))) == Some(Children(Entries(digest, node, order)))
  {
    var order := Ordered(node.children, node.children.Keys);
    EntriesAreOk(digest, node, order);
    EncodeReads(Entries(digest, node, order));
    OrderedAscends(node.children, node.children.Keys);
    DistinctCount(order, node.children.Keys);
  }

  lemma EntriesAreChildren(digest: Digest, node: Node, order: seq<Name>)
    requires node.Dir? && NamesHere(node.children) && |order| == |node.children|
    requires (forall name :: name in order <==> name in node.children) && Ascending(node.children, order)
    ensures AreChildren(digest, node.children, Children(Entries(digest, node, order)))
  {
    var read := Children(Entries(digest, node, order));
    forall i | 0 <= i < |read| ensures read[i].name == order[i] && IsChild(digest, node.children, read[i]) {
      EntryAt(digest, node, order, i);
      assert order[i] in order;
    }
    forall name | name in node.children ensures exists i :: 0 <= i < |read| && read[i].name == name {
      assert name in order;
      var i :| 0 <= i < |order| && order[i] == name;
      assert read[i].name == name;
    }
    forall i, j | 0 <= i < j < |read|
      ensures Before(SortName(node.children, read[i].name), SortName(node.children, read[j].name))
    {
      ReadsAscend(node.children, order, i, j);
    }
  }

  // ----- a whole tree -----

  /** An object store: the bytes behind an identity. */
  type Objects = Bytes -> Bytes

  function Named(read: seq<Child>, name: Name): Option<Child> {
    if read == [] then None else if read[0].name == name then Some(read[0]) else Named(read[1..], name)
  }

  function ReadNamed(objects: Objects, oid: Bytes, name: Name): Option<Child> {
    var read := ReadObject(objects(oid));
    if read.None? || read.value.kind != [116, 114, 101, 101] then None else
      var children := ReadChildren(read.value.body);
      if children.None? then None else Named(children.value, name)
  }

  function ReadFile(objects: Objects, entry: Child): Option<File> {
    var read := ReadObject(objects(entry.oid));
    if read.None? || read.value.kind != [98, 108, 111, 98] then None else Some(File(read.value.body, entry.mode))
  }

  /** The file at a path, reading one object after the other from the root's identity. */
  function Follow(objects: Objects, oid: Bytes, path: Path): Option<File>
    requires path != []
    decreases |path|
  {
    var entry := ReadNamed(objects, oid, path[0]);
    if entry.None? then None
    else if |path| == 1 then ReadFile(objects, entry.value)
    else Follow(objects, entry.value.oid, path[1..])
  }

  /** The store holds what this tree hashes. */
  ghost predicate Stores(objects: Objects, digest: Digest, node: Node) {
    forall x :: HashedIn(digest, node, x) ==> objects(digest(x)) == x
  }

  lemma StoresBelow(objects: Objects, digest: Digest, node: Node, name: Name)
    requires Stores(objects, digest, node) && node.Dir? && name in node.children
    ensures Stores(objects, digest, node.children[name])
  {
    forall x | HashedIn(digest, node.children[name], x) ensures objects(digest(x)) == x {
      assert HashedIn(digest, node, x);
    }
  }

  lemma {:induction false} NamedMeans(read: seq<Child>, name: Name)
    ensures Named(read, name).Some? ==> Named(read, name).value in read && Named(read, name).value.name == name
    ensures Named(read, name).None? <==> forall i :: 0 <= i < |read| ==> read[i].name != name
    decreases |read|
  {
    if read != [] {
      NamedMeans(read[1..], name);
      assert read == [read[0]] + read[1..];
    }
  }

  ghost predicate IsEntry(digest: Digest, children: map<Name, Node>, name: Name, entry: Option<Child>) {
    if name !in children then entry.None?
    else entry.Some? && entry.value.name == name && IsChild(digest, children, entry.value)
  }

  lemma NamedIsEntry(digest: Digest, children: map<Name, Node>, read: seq<Child>, name: Name)
    requires AreChildren(digest, children, read)
    ensures IsEntry(digest, children, name, Named(read, name))
  {
    NamedMeans(read, name);
  }

  lemma NamedReads(objects: Objects, digest: Digest, node: Node, name: Name)
    requires node.Dir? && Writable(node) && TwentyBytes(digest) && Stores(objects, digest, node)
    ensures IsEntry(digest, node.children, name, ReadNamed(objects, digest(Hashed(digest, node)), name))
  {
    assert HashedIn(digest, node, Hashed(digest, node));
    HashedReads(digest, node);
    DirectoryReads(digest, node);
    NamedIsEntry(digest, node.children, ReadChildren(ReadObject(Hashed(digest, node)).value.body).value, name);
  }

  lemma LeafReads(objects: Objects, digest: Digest, node: Node, entry: Child)
    requires Stores(objects, digest, node) && entry.oid == digest(Hashed(digest, node))
    ensures ReadFile(objects, entry) == if node.Leaf? then Some(File(node.file.data, entry.mode)) else None
  {
    assert HashedIn(digest, node, Hashed(digest, node));
    HashedReads(digest, node);
  }

  lemma NothingInFile(objects: Objects, digest: Digest, node: Node, path: Path)
    requires node.Leaf? && Stores(objects, digest, node) && path != []
    ensures Follow(objects, digest(Hashed(digest, node)), path) == None
  {
    assert HashedIn(digest, node, Hashed(digest, node));
    HashedReads(digest, node);
  }

  /** Reading objects from the identity of a directory on finds exactly the files of its tree. */
  lemma {:induction false} TreeReads(objects: Objects, digest: Digest, node: Node, path: Path)
    requires node.Dir? && Writable(node) && TwentyBytes(digest) && Stores(objects, digest, node) && path != []
    ensures Follow(objects, digest(Hashed(digest, node)), path) == Find(node.children, path)
    decreases |path|
  {
    NamedReads(objects, digest, node, path[0]);
    if path[0] in node.children {
      var child := node.children[path[0]];
      var entry := ReadNamed(objects, digest(Hashed(digest, node)), path[0]).value;
      StoresBelow(objects, digest, node, path[0]);
      if |path| == 1 {
        LeafReads(objects, digest, child, entry);
      } else if child.Leaf? {
        NothingInFile(objects, digest, child, path[1..]);
      } else {
        TreeReads(objects, digest, child, path[1..]);
      }
    }
  }

  /**
   The round trip: from the identity of a prefix-free snapshot and the objects hashed for it, a
   reader of Git's format recovers at every path the very bytes and mode of the snapshot.
   */
  lemma IdentityReadsBack(objects: Objects, digest: Digest, items: seq<Item>, path: Path)
    requires TwentyBytes(digest) && PrefixFree(items) && WritableItems(items) && path != []
    requires InsertAll(items).Some? ==> Stores(objects, digest, Dir(InsertAll(items).value))
    ensures Identity(digest, items).Some?
    ensures Follow(objects, Identity(digest, items).value, path) == Listed(items, path)
  {
    BuildFinds(items);
    BuiltWritable(items);
    TreeReads(objects, digest, Dir(InsertAll(items).value), path);
  }
}
