/** Merging of file tree nodes (src/web_interface/file_tree/file_tree_node.py) and their creation
    from virtual paths (src/web_interface/file_tree/file_tree.py), as values. */
module FileTree {
  import opened Text

  /** Files and folders may share a name, so both parts identify a node among its siblings. */
  datatype Id = Id(name: string, isFolder: bool)

  /** A node with its subtree; folders have no UID of their own. */
  datatype Tree = Tree(name: string, isFolder: bool, uid: string, hasChildren: bool, children: map<Id, Tree>)

  function IdOf(t: Tree): Id {
    Id(t.name, t.isFolder)
  }

  /** Every child is kept under its own id, in the whole subtree. */
  ghost predicate WellKeyed(t: Tree) {
    forall id :: id in t.children ==> IdOf(t.children[id]) == id && WellKeyed(t.children[id])
  }

  /** The files at or below a node: name path from the node, and UID. */
  ghost function Files(t: Tree): set<(seq<string>, string)> {
    (if t.isFolder then {} else {([t.name], t.uid)})
    + set id, f | id in t.children && f in Files(t.children[id]) :: ([t.name] + f.0, f.1)
  }

  /** The files below a node, named from its children on. */
  ghost function FilesBelow(t: Tree): set<(seq<string>, string)> {
    set id, f | id in t.children && f in Files(t.children[id]) :: f
  }

  ghost function Names(files: set<(seq<string>, string)>): set<seq<string>> {
    set f | f in files :: f.0
  }

  // ---- merging ----

  /** The effect of `merge_node` on the node that is already there: it takes over what it does not
      have and merges the rest. */
  ghost function Merged(a: Tree, b: Tree): Tree
    decreases b
  {
    a.(hasChildren := a.hasChildren || b.children.Keys - a.children.Keys != {},
       children := map id | id in a.children.Keys + b.children.Keys ::
         if id !in b.children then a.children[id]
         else if id !in a.children then b.children[id]
         else Merged(a.children[id], b.children[id]))
  }

  /** The effect of `add_child_node`. */
  ghost function WithChild(t: Tree, node: Tree): Tree {
    var id := IdOf(node);
    if id in t.children then t.(children := t.children[id := Merged(t.children[id], node)])
    else t.(hasChildren := true, children := t.children[id := node])
  }

  lemma {:induction false} MergedWellKeyed(a: Tree, b: Tree)
    requires WellKeyed(a) && WellKeyed(b)
    ensures WellKeyed(Merged(a, b)) && IdOf(Merged(a, b)) == IdOf(a)
    decreases b
  {
    forall id | id in a.children && id in b.children
      ensures WellKeyed(Merged(a.children[id], b.children[id])) && IdOf(Merged(a.children[id], b.children[id])) == id
    {
      MergedWellKeyed(a.children[id], b.children[id]);
    }
  }

  lemma InFiles(t: Tree, f: (seq<string>, string))
    ensures f in Files(t) <==>
      || (!t.isFolder && f == ([t.name], t.uid))
      || exists id, g :: id in t.children && g in Files(t.children[id]) && f == ([t.name] + g.0, g.1)
  {
  }

  /** `m` has the files of `a` and, under new paths, those of `b`. */
  ghost predicate IsUnion(m: Tree, a: Tree, b: Tree) {
    && Files(a) <= Files(m) <= Files(a) + Files(b)
    && Names(Files(b)) <= Names(Files(m))
  }

  ghost predicate ChildrenAreUnions(a: Tree, b: Tree) {
    forall id :: id in a.children && id in b.children ==> IsUnion(Merged(a, b).children[id], a.children[id], b.children[id])
  }

  /** Merging is union of paths; a file that is already in the tree keeps its UID. */
  lemma {:induction false} MergedFiles(a: Tree, b: Tree)
    requires IdOf(a) == IdOf(b) && WellKeyed(a) && WellKeyed(b)
    ensures IsUnion(Merged(a, b), a, b)
    ensures Names(Files(Merged(a, b))) == Names(Files(a)) + Names(Files(b))
    decreases b
  {
    hide Files, IsUnion;
    forall id | id in a.children && id in b.children
      ensures IsUnion(Merged(a, b).children[id], a.children[id], b.children[id])
    {
      MergedFiles(a.children[id], b.children[id]);
    }
    MergedIsUnion(a, b);
    UnionNames(Merged(a, b), a, b);
  }

  lemma UnionNames(m: Tree, a: Tree, b: Tree)
    requires IsUnion(m, a, b)
    ensures Names(Files(m)) == Names(Files(a)) + Names(Files(b))
  {
    hide Files;
  }

  lemma MergedIsUnion(a: Tree, b: Tree)
    requires IdOf(a) == IdOf(b) && ChildrenAreUnions(a, b)
    ensures IsUnion(Merged(a, b), a, b)
  {
    hide Files, Merged, ChildrenAreUnions;
    var m := Merged(a, b);
    forall f | f in Files(a) ensures f in Files(m) {
      OldFileStays(a, b, f);
    }
    forall f | f in Files(m) ensures f in Files(a) || f in Files(b) {
      NothingElse(a, b, f);
    }
    forall p | p in Names(Files(b)) ensures p in Names(Files(m)) {
      var f :| f in Files(b) && f.0 == p;
      NewPathIsThere(a, b, f);
    }
  }

  lemma OldFileStays(a: Tree, b: Tree, f: (seq<string>, string))
    requires ChildrenAreUnions(a, b) && f in Files(a)
    ensures f in Files(Merged(a, b))
  {
    var m := Merged(a, b);
    hide Files;
    InFiles(a, f);
    InFiles(m, f);
    if id, g :| id in a.children && g in Files(a.children[id]) && f == ([a.name] + g.0, g.1) {
      assert id in m.children && g in Files(m.children[id]);
    }
  }

  lemma NothingElse(a: Tree, b: Tree, f: (seq<string>, string))
    requires IdOf(a) == IdOf(b) && ChildrenAreUnions(a, b) && f in Files(Merged(a, b))
    ensures f in Files(a) || f in Files(b)
  {
    var m := Merged(a, b);
    hide Files;
    InFiles(a, f);
    InFiles(b, f);
    InFiles(m, f);
    if id, g :| id in m.children && g in Files(m.children[id]) && f == ([m.name] + g.0, g.1) {
      assert (id in a.children && g in Files(a.children[id])) || (id in b.children && g in Files(b.children[id]));
    }
  }

  lemma NewPathIsThere(a: Tree, b: Tree, f: (seq<string>, string))
    requires IdOf(a) == IdOf(b) && ChildrenAreUnions(a, b) && f in Files(b)
    ensures f.0 in Names(Files(Merged(a, b)))
  {
    var m := Merged(a, b);
    hide Files;
    InFiles(b, f);
    if !b.isFolder && f == ([b.name], b.uid) {
      InFiles(m, ([m.name], m.uid));
    } else {
      var id, g :| id in b.children && g in Files(b.children[id]) && f == ([b.name] + g.0, g.1);
      assert g.0 in Names(Files(m.children[id]));
      var h :| h in Files(m.children[id]) && h.0 == g.0;
      InFiles(m, ([m.name] + h.0, h.1));
      assert ([m.name] + h.0, h.1) in Files(m);
    }
  }

  /** Adding a child adds its paths below the node. */
  lemma WithChildFiles(t: Tree, node: Tree)
    requires WellKeyed(t) && WellKeyed(node)
    ensures WellKeyed(WithChild(t, node))
    ensures FilesBelow(t) <= FilesBelow(WithChild(t, node)) <= FilesBelow(t) + Files(node)
    ensures Names(FilesBelow(WithChild(t, node))) == Names(FilesBelow(t)) + Names(Files(node))
  {
    hide Files, Merged, IsUnion;
    var id, t' := IdOf(node), WithChild(t, node);
    if id in t.children {
      MergedWellKeyed(t.children[id], node);
      MergedFiles(t.children[id], node);
      UnionParts(t'.children[id], t.children[id], node);
    }
    forall f | f in FilesBelow(t) ensures f in FilesBelow(t') {
      var i :| i in t.children && f in Files(t.children[i]);
      assert i in t'.children && f in Files(t'.children[i]);
    }
    forall f | f in FilesBelow(t') ensures f in FilesBelow(t) || f in Files(node) {
      var i :| i in t'.children && f in Files(t'.children[i]);
      assert i != id ==> i in t.children && f in Files(t.children[i]);
      assert i == id && id in t.children && f in Files(t.children[id]) ==> f in FilesBelow(t);
    }
    forall p | p in Names(FilesBelow(t)) + Names(Files(node)) ensures p in Names(FilesBelow(t')) {
      if p in Names(Files(node)) {
        assert p in Names(Files(t'.children[id]));
        NamesBelow(t', p);
      }
    }
  }

  lemma UnionParts(m: Tree, a: Tree, b: Tree)
    requires IsUnion(m, a, b)
    ensures Files(a) <= Files(m) <= Files(a) + Files(b)
  {
    hide Files;
  }

  lemma NamesBelow(t: Tree, p: seq<string>)
    ensures p in Names(FilesBelow(t)) <==> exists id :: id in t.children && p in Names(Files(t.children[id]))
  {
    hide Files;
    if id :| id in t.children && p in Names(Files(t.children[id])) {
      var f :| f in Files(t.children[id]) && f.0 == p;
      assert f in FilesBelow(t);
    }
  }

  /** A node that has children says so, and a folder says so only if it has some. */
  ghost predicate FlagsOk(t: Tree) {
    && (t.children.Keys != {} ==> t.hasChildren)
    && (t.isFolder && t.hasChildren ==> t.children.Keys != {})
    && forall id :: id in t.children ==> FlagsOk(t.children[id])
  }

  lemma {:induction false} MergedFlags(a: Tree, b: Tree)
    requires FlagsOk(a) && FlagsOk(b)
    ensures FlagsOk(Merged(a, b)) && (a.hasChildren ==> Merged(a, b).hasChildren)
    decreases b
  {
    var m := Merged(a, b);
    assert m.children.Keys == a.children.Keys + b.children.Keys;
    if b.children.Keys - a.children.Keys == {} {
      forall id | id in b.children ensures id in a.children {
        assert id !in b.children.Keys - a.children.Keys;
      }
      assert m.children.Keys == a.children.Keys;
    }
    forall id | id in m.children ensures FlagsOk(m.children[id]) {
      if id in a.children && id in b.children {
        MergedFlags(a.children[id], b.children[id]);
      }
    }
  }

  lemma WithChildFlags(t: Tree, node: Tree)
    requires FlagsOk(t) && FlagsOk(node)
    ensures FlagsOk(WithChild(t, node)) && WithChild(t, node).hasChildren
  {
    hide Merged;
    var id, t' := IdOf(node), WithChild(t, node);
    if id in t.children {
      MergedFlags(t.children[id], node);
    }
    assert id in t'.children;
    assert forall i :: i in t'.children && i != id ==> t'.children[i] == t.children[i];
  }

  // ---- nodes from virtual paths ----

  /** The file whose nodes are created: its UID, the name used when a path ends in a separator, and
      whether it contains other files. */
  datatype FileData = FileData(uid: string, fileName: string, hasChildren: bool)

  function LastName(data: FileData, last: string): string {
    if last == "" then data.fileName else last
  }

  /** `_create_node_from_virtual_path` */
  ghost function NodeFromPath(data: FileData, path: seq<string>): Tree
    requires path != []
  {
    if |path| > 1 then WithChild(Tree(path[0], true, "", false, map[]), NodeFromPath(data, path[1..]))
    else Tree(LastName(data, path[0]), false, data.uid, data.hasChildren, map[])
  }

  /** The name path of the file node: the components, where an empty last one stands for the file
      name. */
  function NamePath(data: FileData, path: seq<string>): seq<string>
    requires path != []
  {
    path[..|path| - 1] + [LastName(data, path[|path| - 1])]
  }

  lemma {:induction false} NodeFromPathFiles(data: FileData, path: seq<string>)
    requires path != []
    ensures WellKeyed(NodeFromPath(data, path))
    ensures Files(NodeFromPath(data, path)) == {(NamePath(data, path), data.uid)}
  {
    var t := NodeFromPath(data, path);
    if |path| > 1 {
      NodeFromPathFiles(data, path[1..]);
      var child := NodeFromPath(data, path[1..]);
      assert t == Tree(path[0], true, "", true, map[IdOf(child) := child]);
      FolderOverOne(path[0], child, NamePath(data, path[1..]), data.uid);
      assert [path[0]] + NamePath(data, path[1..]) == NamePath(data, path);
    } else {
      assert NamePath(data, path) == [t.name];
      forall f ensures f in Files(t) <==> f == ([t.name], t.uid) {
        InFiles(t, f);
      }
    }
  }

  lemma {:induction false} NodeFromPathFlags(data: FileData, path: seq<string>)
    requires path != []
    ensures FlagsOk(NodeFromPath(data, path))
  {
    if |path| > 1 {
      NodeFromPathFlags(data, path[1..]);
      WithChildFlags(Tree(path[0], true, "", false, map[]), NodeFromPath(data, path[1..]));
    }
  }

  lemma FolderOverOne(name: string, child: Tree, p: seq<string>, uid: string)
    requires WellKeyed(child) && Files(child) == {(p, uid)}
    ensures var t := Tree(name, true, "", true, map[IdOf(child) := child]);
      WellKeyed(t) && Files(t) == {([name] + p, uid)}
  {
    var t := Tree(name, true, "", true, map[IdOf(child) := child]);
    assert t.children[IdOf(child)] == child;
    forall f ensures f in Files(t) <==> f == ([name] + p, uid) {
      InFiles(t, f);
      assert (p, uid) in Files(child);
    }
  }

  /** `path.lstrip('/').split('/')` */
  function Components(path: string): (r: seq<string>)
    ensures r != []
  {
    Split(StripLeft(path), '/')
  }

  function StripLeft(path: string): string {
    if path != [] && path[0] == '/' then StripLeft(path[1..]) else path
  }

  /** Exactly the separators at the beginning are taken away. */
  lemma {:induction false} StripLeftIs(path: string) returns (k: nat)
    ensures k <= |path| && StripLeft(path) == path[k..]
    ensures forall i :: 0 <= i < k ==> path[i] == '/'
    ensures StripLeft(path) == "" || StripLeft(path)[0] != '/'
  {
    if path != [] && path[0] == '/' {
      k := StripLeftIs(path[1..]);
      k := k + 1;
    } else {
      k := 0;
    }
  }

  /** A file and one of its virtual paths. */
  datatype Entry = Entry(data: FileData, path: string)

  function EntryNames(e: Entry): seq<string> {
    NamePath(e.data, Components(e.path))
  }

  /** The tree after inserting the nodes of several entries, one after the other. */
  ghost function WithEntries(t: Tree, entries: seq<Entry>): Tree {
    if entries == [] then t
    else
      var n := |entries| - 1;
      WithChild(WithEntries(t, entries[..n]), NodeFromPath(entries[n].data, Components(entries[n].path)))
  }

  /** In whatever order and however often entries are inserted, the name paths in the tree are those
      that were there and the inserted ones, no others; siblings keep distinct ids; every path leads
      to a file that was entered under it. */
  lemma {:induction false} PathsAreUnion(t: Tree, entries: seq<Entry>)
    requires WellKeyed(t)
    ensures WellKeyed(WithEntries(t, entries))
    ensures Names(FilesBelow(WithEntries(t, entries)))
         == Names(FilesBelow(t)) + set e | e in entries :: EntryNames(e)
    ensures FilesBelow(t) <= FilesBelow(WithEntries(t, entries))
         <= FilesBelow(t) + set e | e in entries :: (EntryNames(e), e.data.uid)
  {
    hide FilesBelow, Files, NodeFromPath, Components;
    if entries != [] {
      var n := |entries| - 1;
      var e, before := entries[n], WithEntries(t, entries[..n]);
      PathsAreUnion(t, entries[..n]);
      NodeFromPathFiles(e.data, Components(e.path));
      WithChildFiles(before, NodeFromPath(e.data, Components(e.path)));
      assert entries == entries[..n] + [e];
      assert Names({(EntryNames(e), e.data.uid)}) == {EntryNames(e)};
    }
  }

  /** Whatever is inserted, every node of the tree tells rightly whether it has children. */
  lemma {:induction false} EntriesKeepFlags(t: Tree, entries: seq<Entry>)
    requires FlagsOk(t)
    ensures FlagsOk(WithEntries(t, entries))
  {
    if entries != [] {
      var n := |entries| - 1;
      EntriesKeepFlags(t, entries[..n]);
      NodeFromPathFlags(entries[n].data, Components(entries[n].path));
      WithChildFlags(WithEntries(t, entries[..n]), NodeFromPath(entries[n].data, Components(entries[n].path)));
    }
  }

  /** A path that ends in a separator leads to the file's own name in the last folder; any other
      leads to its last component. */
  lemma NamesOfEntry(e: Entry)
    ensures var parts := Split(StripLeft(e.path), '/');
      var n := |parts| - 1;
      EntryNames(e) == parts[..n] + [if parts[n] == "" then e.data.fileName else parts[n]]
  {
  }

  /** For paths with a non-empty last component the tree shows the paths themselves, without their
      leading separators. */
  lemma ShownPaths(root: Tree, entries: seq<Entry>)
    requires root.children == map[]
    requires forall e :: e in entries ==> LastComponent(e.path) != ""
    ensures (set p | p in Names(FilesBelow(WithEntries(root, entries))) && p != [] :: Join(p, '/'))
         == set e | e in entries :: StripLeft(e.path)
  {
    hide FilesBelow, WithEntries, EntryNames, LastComponent, Join, StripLeft;
    PathsAreUnion(root, entries);
    NothingBelow(root);
    forall e | e in entries ensures EntryNames(e) != [] && Join(EntryNames(e), '/') == StripLeft(e.path) {
      NamesOfProperPath(e);
    }
    JoinedNames(Names(FilesBelow(WithEntries(root, entries))), entries);
  }

  lemma NothingBelow(root: Tree)
    requires root.children == map[]
    ensures Names(FilesBelow(root)) == {} && FilesBelow(root) == {} && WellKeyed(root)
  {
  }

  lemma JoinedNames(names: set<seq<string>>, entries: seq<Entry>)
    requires names == set e | e in entries :: EntryNames(e)
    requires forall e :: e in entries ==> EntryNames(e) != [] && Join(EntryNames(e), '/') == StripLeft(e.path)
    ensures (set p | p in names && p != [] :: Join(p, '/')) == set e | e in entries :: StripLeft(e.path)
  {
    hide EntryNames, Join, StripLeft;
    forall e | e in entries ensures StripLeft(e.path) in set p | p in names && p != [] :: Join(p, '/') {
      assert EntryNames(e) in names;
    }
  }

  function LastComponent(path: string): string {
    var parts := Components(path);
    parts[|parts| - 1]
  }

  lemma NamesOfProperPath(e: Entry)
    requires LastComponent(e.path) != ""
    ensures EntryNames(e) == Components(e.path) != [] && Join(EntryNames(e), '/') == StripLeft(e.path)
  {
    var parts := Components(e.path);
    var n := |parts| - 1;
    assert parts[..n] + [parts[n]] == parts;
  }
}
