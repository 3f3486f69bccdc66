/** The nodes that the file tree updates in place (src/web_interface/file_tree/file_tree_node.py),
    against the values of `FileTree`. */
module FileTreeNode {
  import opened FileTree

  /** `a` after taking over the children `done` of `b`. */
  ghost function TakenOver(a: Tree, b: Tree, done: set<Id>): Tree
    requires done <= b.children.Keys
  {
    a.(hasChildren := a.hasChildren || done - a.children.Keys != {},
       children := map id | id in a.children.Keys + done ::
         if id !in done then a.children[id]
         else if id !in a.children then b.children[id]
         else Merged(a.children[id], b.children[id]))
  }

  lemma TakenOverNone(a: Tree, b: Tree)
    ensures TakenOver(a, b, {}) == a
  {
    assert TakenOver(a, b, {}).children == a.children;
  }

  lemma TakenOverStep(a: Tree, b: Tree, done: set<Id>, id: Id)
    requires done <= b.children.Keys && id in b.children.Keys - done && IdOf(b.children[id]) == id
    ensures WithChild(TakenOver(a, b, done), b.children[id]) == TakenOver(a, b, done + {id})
  {
    hide Merged;
    var l, r := WithChild(TakenOver(a, b, done), b.children[id]), TakenOver(a, b, done + {id});
    assert l.children == r.children;
    if id in a.children {
      assert (done + {id}) - a.children.Keys == done - a.children.Keys;
    } else {
      assert id in (done + {id}) - a.children.Keys;
    }
  }

  lemma TakenOverNext(a: Tree, b: Tree, todo: set<Id>, id: Id)
    requires id in todo && todo <= b.children.Keys && IdOf(b.children[id]) == id
    ensures WithChild(TakenOver(a, b, b.children.Keys - todo), b.children[id])
         == TakenOver(a, b, b.children.Keys - (todo - {id}))
  {
    hide *;
    TakenOverStep(a, b, b.children.Keys - todo, id);
    assert b.children.Keys - (todo - {id}) == b.children.Keys - todo + {id};
  }

  lemma TakenOverAll(a: Tree, b: Tree)
    ensures TakenOver(a, b, b.children.Keys) == Merged(a, b)
  {
    assert TakenOver(a, b, b.children.Keys).children == Merged(a, b).children;
  }

  class Node {
    const name: string
    const isFolder: bool
    const uid: string
    var hasChildren: bool
    var children: map<Id, Node>
    ghost var Repr: set<object>

    function GetId(): Id {
      Id(name, isFolder)
    }

    ghost predicate Valid()
      reads this, Repr
      decreases Repr
    {
      && this in Repr
      && (forall id :: id in children ==>
            && children[id] in Repr && children[id].Repr <= Repr && this !in children[id].Repr
            && children[id].Valid() && children[id].GetId() == id)
      && (forall i, j :: i in children && j in children && i != j ==> children[i].Repr !! children[j].Repr)
    }

    /** The node with its subtree, as a value. */
    ghost function Value(): Tree
      requires Valid()
      reads this, Repr
      decreases Repr
    {
      Tree(name, isFolder, uid, hasChildren, map id | id in children :: children[id].Value())
    }

    constructor (name: string, isFolder: bool, uid: string, hasChildren: bool)
      ensures Valid() && fresh(Repr)
      ensures Value() == Tree(name, isFolder, uid, hasChildren, map[])
    {
      this.name, this.isFolder, this.uid, this.hasChildren := name, isFolder, uid, hasChildren;
      children := map[];
      Repr := {this};
    }

    // ---- a node and its parts ----

    /** Valid nodes `kids` under their ids, with the given values and with disjoint footprints
        inside `within`. */
    static ghost predicate Siblings(kids: map<Id, Node>, values: map<Id, Tree>, within: set<object>)
      reads within
    {
      && values.Keys == kids.Keys
      && (forall i :: i in kids ==> kids[i] in within && kids[i].Repr <= within)
      && (forall i :: i in kids ==> kids[i].Valid() && kids[i].GetId() == i && kids[i].Value() == values[i])
      && (forall i, j :: i in kids && j in kids && i != j ==> kids[i].Repr !! kids[j].Repr)
    }

    /** What validity says about the children. */
    lemma Parts()
      requires Valid()
      ensures this in Repr && Siblings(children, Value().children, Repr - {this})
      ensures Value() == Tree(name, isFolder, uid, hasChildren, Value().children)
    {
    }

    /** The converse: valid children make a valid node with their values. */
    lemma Whole(values: map<Id, Tree>)
      requires this in Repr && Siblings(children, values, Repr - {this})
      ensures Valid() && Value() == Tree(name, isFolder, uid, hasChildren, values)
    {
      assert Valid();
      assert Value().children == values;
    }

    /** One more sibling in a footprint of its own. */
    static lemma Joined(
      kids: map<Id, Node>, values: map<Id, Tree>, within: set<object>, node: Node, within': set<object>)
      requires Siblings(kids, values, within) && node.Valid() && node.GetId() !in kids && node.Repr !! within
      requires within + node.Repr <= within'
      ensures Siblings(kids[node.GetId() := node], values[node.GetId() := node.Value()], within')
    {
      node.Parts();
      hide Node.Valid, Node.Value;
    }

    /** One sibling apart from the others. */
    static lemma Parted(kids: map<Id, Node>, values: map<Id, Tree>, within: set<object>, id: Id)
      requires Siblings(kids, values, within) && id in kids
      ensures id in values && kids[id].Valid() && kids[id].GetId() == id && kids[id].Value() == values[id]
      ensures kids[id].Repr <= within && kids[id] in kids[id].Repr
      ensures Siblings(kids - {id}, values - {id}, within - kids[id].Repr)
      ensures forall i :: i in kids && i != id ==> kids[i] in within - kids[id].Repr
    {
      forall i | i in kids ensures kids[i] in kids[i].Repr {
        kids[i].Parts();
      }
      hide Node.Valid, Node.Value;
    }

    /** A node is put together from one child and the others. */
    lemma Assembled(values: map<Id, Tree>, others: set<object>, child: Node)
      requires this in Repr && child.Valid() && child.GetId() in children && children[child.GetId()] == child
      requires Siblings(children - {child.GetId()}, values - {child.GetId()}, others)
      requires child.Repr !! others && this !in others && this !in child.Repr && others + child.Repr <= Repr
      ensures Valid() && Value() == Tree(name, isFolder, uid, hasChildren, values[child.GetId() := child.Value()])
    {
      hide Node.Valid, Node.Value, Siblings;
      var id := child.GetId();
      Joined(children - {id}, values - {id}, others, child, Repr - {this});
      assert (children - {id})[id := child] == children;
      assert (values - {id})[id := child.Value()] == values[id := child.Value()];
      Whole(values[id := child.Value()]);
    }

    /** The node after a child with a new id was put in. */
    lemma Attached(before: Tree, kids: map<Id, Node>, others: set<object>, node: Node)
      requires node.Valid() && node.GetId() !in kids && children == kids[node.GetId() := node]
      requires before == Tree(name, isFolder, uid, before.hasChildren, before.children) && hasChildren
      requires Siblings(kids, before.children, others)
      requires this in Repr && this !in others && this !in node.Repr
      requires node.Repr !! others && others + node.Repr <= Repr
      ensures Valid() && Value() == WithChild(before, node.Value())
    {
      var values, id := before.children, node.GetId();
      assert id !in values;
      assert IdOf(node.Value()) == id;
      hide Node.Valid, Node.Value, Siblings, WithChild, Merged;
      assert children - {id} == kids && values - {id} == values;
      Assembled(values, others, node);
      WithNewChild(before, node.Value());
    }

    /** The node after its child `current` took over the children of `node`. */
    lemma MergedBack(before: Tree, others: set<object>, current: Node, node: Tree)
      requires IdOf(node) in children && children[IdOf(node)] == current && IdOf(node) == current.GetId()
      requires before == Tree(name, isFolder, uid, hasChildren, before.children) && IdOf(node) in before.children
      requires current.Valid() && current.Value() == Merged(before.children[IdOf(node)], node)
      requires Siblings(children - {IdOf(node)}, before.children - {IdOf(node)}, others)
      requires this in Repr && this !in others && this !in current.Repr
      requires current.Repr !! others && others + current.Repr <= Repr
      ensures Valid() && Value() == WithChild(before, node)
    {
      hide Node.Valid, Node.Value, Siblings, WithChild, Merged;
      Assembled(before.children, others, current);
      WithMergedChild(before, node);
    }

    /** Nodes with disjoint footprints inside `within`. */
    static ghost predicate Footprints(kids: map<Id, Node>, reprs: map<Id, set<object>>, within: set<object>)
      reads within
    {
      && kids.Keys <= reprs.Keys
      && (forall i :: i in kids ==> kids[i] in reprs[i] && reprs[i] <= within && kids[i].Repr == reprs[i])
      && (forall i, j :: i in kids && j in kids && i != j ==> reprs[i] !! reprs[j])
    }

    static lemma FootprintsOf(kids: map<Id, Node>, values: map<Id, Tree>, within: set<object>)
      returns (reprs: map<Id, set<object>>)
      requires Siblings(kids, values, within)
      ensures reprs.Keys == kids.Keys == values.Keys && Footprints(kids, reprs, within)
    {
      reprs := map i | i in kids :: kids[i].Repr;
      forall i | i in kids ensures kids[i] in kids[i].Repr {
        kids[i].Parts();
      }
    }

    static lemma FootprintAway(kids: map<Id, Node>, reprs: map<Id, set<object>>, within: set<object>, id: Id)
      requires Footprints(kids, reprs, within) && id in kids
      ensures id in reprs && kids[id] in reprs[id] && reprs[id] <= within && kids[id].Repr == reprs[id]
      ensures Footprints(kids - {id}, reprs, within - reprs[id])
    {
    }

    /** The children other than `id` do not overlap with the child that is about to change. */
    static lemma Released(
      todo: set<Id>, kids: map<Id, Node>, pending: map<Id, Node>, reprs: map<Id, set<object>>, free: set<object>, id: Id)
      returns (free': set<object>)
      requires Agree(todo, kids, pending) && Footprints(pending, reprs, free) && id in todo
      ensures free' <= free && Footprints(pending - {id}, reprs, free')
      ensures id in kids ==> kids[id].Repr <= free && free' !! kids[id].Repr
    {
      if id in pending {
        FootprintAway(pending, reprs, free, id);
        free' := free - reprs[id];
      } else {
        free' := free;
        assert pending - {id} == pending;
      }
    }

    /** The nodes whose contents are taken over. */
    static ghost predicate Source(
      kids: map<Id, Node>, values: map<Id, Tree>, reprs: map<Id, set<object>>, within: set<object>)
      reads within
    {
      Siblings(kids, values, within) && Footprints(kids, reprs, within)
    }

    static lemma SourceOf(kids: map<Id, Node>, values: map<Id, Tree>, within: set<object>, repr: set<object>)
      returns (reprs: map<Id, set<object>>)
      requires Siblings(kids, values, within) && within !! repr
      ensures Source(kids, values, reprs, within)
      ensures Apart(reprs, kids.Keys, repr) && kids.Keys == values.Keys
    {
      hide Siblings, Node.Valid, Node.Value;
      reprs := FootprintsOf(kids, values, within);
    }

    static lemma SourceAt(
      kids: map<Id, Node>, values: map<Id, Tree>, reprs: map<Id, set<object>>, within: set<object>, id: Id)
      requires Source(kids, values, reprs, within) && id in kids
      ensures id in values && kids[id].Valid() && kids[id].Value() == values[id]
      ensures kids[id].GetId() == id == IdOf(values[id])
      ensures id in reprs && kids[id].Repr == reprs[id] <= within
    {
      hide Node.Valid, Node.Value, Footprints, Siblings;
      Parted(kids, values, within, id);
      FootprintAway(kids, reprs, within, id);
      kids[id].ValueId();
    }

    static lemma StillApart(
      kids: map<Id, Node>, values: map<Id, Tree>, reprs: map<Id, set<object>>, within: set<object>,
      todo: set<Id>, id: Id, repr: set<object>, repr': set<object>)
      requires Source(kids, values, reprs, within) && todo <= kids.Keys && id in todo
      requires Apart(reprs, todo, repr) && repr' <= repr + reprs[id]
      ensures Apart(reprs, todo - {id}, repr')
    {
    }

    /** A child apart from the rest of the node. */
    lemma Opened(id: Id)
      requires Valid() && id in children
      ensures this in Repr && children[id].Valid() && children[id].GetId() == id
      ensures id in Value().children && children[id].Value() == Value().children[id]
      ensures children[id].Repr <= Repr - {this}
      ensures Siblings(children - {id}, Value().children - {id}, Repr - {this} - children[id].Repr)
      ensures Value() == Tree(name, isFolder, uid, hasChildren, Value().children)
    {
      Parts();
      hide Node.Valid, Node.Value;
      Parted(children, Value().children, Repr - {this}, id);
    }

    lemma ValueId()
      requires Valid()
      ensures IdOf(Value()) == GetId() && this in Repr
    {
    }

    // ---- operations ----

    /** Adds a node; only this node and the child with the same id, if any, change. */
    method AddChildNode(node: Node)
      requires Valid() && node.Valid() && Repr !! node.Repr
      modifies this, if node.GetId() in children then children[node.GetId()].Repr else {}
      ensures Valid() && Repr <= old(Repr) + node.Repr
      ensures Value() == WithChild(old(Value()), node.Value())
      ensures node.GetId() in children && children - {node.GetId()} == old(children) - {node.GetId()}
      decreases node.Repr, 2
    {
      hide *;
      if node.GetId() in children {
        MergeNode(node);
      } else {
        Attach(node);
      }
    }

    /** `AddChildNode` with a coarser frame. */
    method AddChild(node: Node)
      requires Valid() && node.Valid() && Repr !! node.Repr
      modifies Repr
      ensures Valid() && Repr <= old(Repr) + old(node.Repr)
      ensures Value() == WithChild(old(Value()), old(node.Value()))
    {
      hide *;
      if node.GetId() in children {
        Opened(node.GetId());
      }
      ValueId();
      node.ValueId();
      ghost var value, footprint := node.Value(), node.Repr;
      AddChildNode(node);
      assert node.Value() == value && node.Repr == footprint;
    }

    /** The case of an id that is not there yet. */
    method Attach(node: Node)
      requires Valid() && node.Valid() && Repr !! node.Repr && node.GetId() !in children
      modifies this
      ensures Valid() && Repr == old(Repr) + node.Repr
      ensures Value() == WithChild(old(Value()), node.Value())
      ensures children == old(children)[node.GetId() := node]
    {
      Parts();
      node.Parts();
      hide *;
      ghost var before, kids, others := Value(), children, Repr - {this};
      hasChildren := true;
      children := children[node.GetId() := node];
      Repr := Repr + node.Repr;
      Attached(before, kids, others, node);
    }

    /** Only the child with the id of `node` changes, and `node` keeps its own value. */
    method MergeNode(node: Node)
      requires Valid() && node.Valid() && Repr !! node.Repr && node.GetId() in children
      modifies this, children[node.GetId()].Repr
      ensures Valid() && Repr <= old(Repr) + node.Repr
      ensures Value() == WithChild(old(Value()), node.Value())
      ensures children == old(children)
      decreases node.Repr, 1
    {
      hide *;
      Opened(node.GetId());
      node.ValueId();
      var current := children[node.GetId()];
      ghost var before, repr, footprint, id := Value(), Repr, current.Repr, node.GetId();
      ghost var others := repr - {this} - footprint;
      current.TakeChildren(node);
      Repr := Repr + current.Repr;
      GrownWithin(this, repr, footprint, node.Repr, current.Repr);
      assert current.Valid();
      MergedBack(before, others, current, node.Value());
    }

    /** The loop of `merge_node`, on the node that is already there. */
    method TakeChildren(node: Node)
      requires Valid() && node.Valid() && Repr !! node.Repr
      modifies Repr
      ensures Valid() && Repr <= old(Repr) + node.Repr
      ensures Value() == Merged(old(Value()), node.Value())
      decreases node.Repr, 0
    {
      hide *;
      ghost var plan := Planned(node);
      var nodes, todo := node.children, node.children.Keys;
      ghost var pending, free := children, Repr - {this};
      while todo != {}
        invariant todo <= nodes.Keys && free <= old(Repr) - {this}
        invariant Taking(plan, todo, pending, free)
        decreases |todo|
      {
        var id :| id in todo;
        TakingAt(plan, todo, pending, free, id);
        pending, free := TakeNext(id, nodes[id], plan, todo, pending, free);
        todo := todo - {id};
      }
      TakingEnds(plan, pending, free);
    }

    /** The state of the loop: the ids `todo` of the source are still to be taken over; the children
        `pending` have not been touched. */
    ghost predicate Taking(plan: Plan, todo: set<Id>, pending: map<Id, Node>, free: set<object>)
      reads this, Repr, free, plan.kids
    {
      && todo <= plan.nodes.Keys == plan.b.children.Keys
      && Valid() && this in Repr && Repr <= plan.repr + plan.kids
      && plan.repr !! plan.kids && this in plan.repr && free <= plan.repr - {this}
      && Source(plan.nodes, plan.b.children, plan.nodeReprs, plan.kids)
      && Apart(plan.nodeReprs, todo, Repr)
      && Footprints(pending, plan.reprs, free) && Agree(todo, children, pending)
      && Value() == TakenOver(plan.a, plan.b, plan.b.children.Keys - todo)
    }

    lemma Planned(node: Node) returns (plan: Plan)
      requires Valid() && node.Valid() && Repr !! node.Repr
      ensures Taking(plan, node.children.Keys, children, Repr - {this})
      ensures plan.a == Value() && plan.b == node.Value() && plan.nodes == node.children
      ensures plan.kids == node.Repr - {node} && plan.repr == Repr && node in node.Repr && this in Repr
    {
      Parts();
      node.Parts();
      hide *;
      var kids, b := node.Repr - {node}, node.Value();
      var reprs := FootprintsOf(children, Value().children, Repr - {this});
      var nodeReprs := SourceOf(node.children, b.children, kids, Repr);
      plan := Plan(Value(), b, node.children, nodeReprs, kids, reprs, Repr);
      TakingStarts(plan);
    }

    lemma TakingStarts(plan: Plan)
      requires Valid() && this in Repr && Repr == plan.repr && Value() == plan.a && plan.repr !! plan.kids
      requires plan.nodes.Keys == plan.b.children.Keys
      requires Source(plan.nodes, plan.b.children, plan.nodeReprs, plan.kids)
      requires Apart(plan.nodeReprs, plan.nodes.Keys, Repr)
      requires Footprints(children, plan.reprs, Repr - {this})
      ensures Taking(plan, plan.nodes.Keys, children, Repr - {this})
    {
      hide Node.Valid, Node.Value, Source, Footprints, Apart, TakenOver;
      assert plan.b.children.Keys - plan.nodes.Keys == {};
      TakenOverNone(plan.a, plan.b);
    }

    lemma TakingAt(plan: Plan, todo: set<Id>, pending: map<Id, Node>, free: set<object>, id: Id)
      requires Taking(plan, todo, pending, free) && id in todo
      ensures id in plan.nodes && plan.nodes[id].Repr <= plan.kids
    {
      hide Node.Valid, Node.Value, Source, Footprints, Apart, TakenOver;
      SourceAt(plan.nodes, plan.b.children, plan.nodeReprs, plan.kids, id);
    }

    lemma TakingEnds(plan: Plan, pending: map<Id, Node>, free: set<object>)
      requires Taking(plan, {}, pending, free)
      ensures Valid() && Repr <= plan.repr + plan.kids && Value() == Merged(plan.a, plan.b)
    {
      hide Node.Valid, Node.Value, Source, Footprints, Apart, TakenOver, Merged;
      assert plan.b.children.Keys - {} == plan.b.children.Keys;
      TakenOverAll(plan.a, plan.b);
    }

    /** One round of the loop. */
    method TakeNext(
      id: Id, child: Node, ghost plan: Plan, ghost todo: set<Id>, ghost pending: map<Id, Node>, ghost free: set<object>)
      returns (ghost pending': map<Id, Node>, ghost free': set<object>)
      requires Taking(plan, todo, pending, free) && id in todo && child == plan.nodes[id]
      modifies this, free
      ensures Taking(plan, todo - {id}, pending', free') && free' <= free
      decreases child.Repr, 4
    {
      hide Node.Valid, Node.Value, Source, Footprints, Apart, TakenOver, Agree, Merged, WithChild, Siblings;
      SourceAt(plan.nodes, plan.b.children, plan.nodeReprs, plan.kids, id);
      ghost var repr, before := Repr, children;
      free' := Released(todo, children, pending, plan.reprs, free, id);
      pending' := pending - {id};
      ApartAt(plan.nodeReprs, todo, Repr, id);
      TakeChild(child);
      assert Source(plan.nodes, plan.b.children, plan.nodeReprs, plan.kids);
      assert Footprints(pending', plan.reprs, free');
      SourceAt(plan.nodes, plan.b.children, plan.nodeReprs, plan.kids, id);
      ValueId();
      AgreeStep(todo, before, children, pending, id);
      StillApart(plan.nodes, plan.b.children, plan.nodeReprs, plan.kids, todo, id, repr, Repr);
      TakenOverNext(plan.a, plan.b, todo, id);
    }

    /** The body of the loop in `merge_node`. */
    method TakeChild(child: Node)
      requires Valid() && child.Valid() && Repr !! child.Repr
      modifies this, if child.GetId() in children then children[child.GetId()].Repr else {}
      ensures Valid() && Repr <= old(Repr) + child.Repr
      ensures Value() == WithChild(old(Value()), child.Value())
      ensures child.GetId() in children && children - {child.GetId()} == old(children) - {child.GetId()}
      decreases child.Repr, 3
    {
      hide *;
      if child.GetId() in children {
        MergeNode(child);
      } else {
        AddChildNode(child);
      }
    }
  }

  // ---- nodes from virtual paths ----

  /** A file below the shown one: its node data and its virtual paths for each parent. */
  datatype FileTreeData = FileTreeData(data: FileData, virtualFilePath: map<string, seq<string>>)

  /** The nodes of a file: one for each path in its parent, one with the file name if there is no
      list of paths. */
  function EntriesOf(file: FileTreeData, parent: string): seq<Entry> {
    if parent in file.virtualFilePath then
      seq(|file.virtualFilePath[parent]|, i requires 0 <= i < |file.virtualFilePath[parent]| =>
        Entry(file.data, file.virtualFilePath[parent][i]))
    else [Entry(file.data, "")]
  }

  function AllEntries(files: seq<FileTreeData>, parent: string): seq<Entry> {
    if files == [] then []
    else AllEntries(files[..|files| - 1], parent) + EntriesOf(files[|files| - 1], parent)
  }

  method CreateNodeFromVirtualPath(data: FileData, path: seq<string>) returns (node: Node)
    requires path != []
    ensures node.Valid() && fresh(node.Repr) && node.Value() == NodeFromPath(data, path)
    decreases path
  {
    hide Node.Valid, Node.Value, WithChild;
    if |path| > 1 {
      node := new Node(path[0], true, "", false);
      var child := CreateNodeFromVirtualPath(data, path[1..]);
      node.AddChild(child);
    } else {
      node := new Node(LastName(data, path[0]), false, data.uid, data.hasChildren);
    }
  }

  /** Adds the nodes of one file below `root`. */
  method AddFileNodes(root: Node, entries: seq<Entry>)
    requires root.Valid()
    modifies root.Repr
    ensures root.Valid() && fresh(root.Repr - old(root.Repr))
    ensures root.Value() == WithEntries(old(root.Value()), entries)
  {
    hide Node.Valid, Node.Value, WithChild, NodeFromPath, Components;
    ghost var before := root.Value();
    for n := 0 to |entries|
      invariant root.Valid() && fresh(root.Repr - old(root.Repr))
      invariant root.Value() == WithEntries(before, entries[..n])
    {
      var node := CreateNodeFromVirtualPath(entries[n].data, Components(entries[n].path));
      root.AddChild(node);
      assert entries[..n + 1][..n] == entries[..n];
    }
    assert entries[..|entries|] == entries;
  }

  /** The layer of the tree below one file: its name paths are those of the files' entries, each
      leads to a file that has it, and siblings have distinct ids. */
  method GenerateFileTree(files: seq<FileTreeData>, parent: string) returns (root: Node)
    ensures root.Valid() && fresh(root.Repr) && WellKeyed(root.Value())
    ensures Names(FilesBelow(root.Value())) == set e | e in AllEntries(files, parent) :: EntryNames(e)
    ensures FilesBelow(root.Value()) <= set e | e in AllEntries(files, parent) :: (EntryNames(e), e.data.uid)
  {
    hide *;
    root := new Node("", false, "", false);
    ghost var empty := root.Value();
    NoEntries(empty, parent);
    for n := 0 to |files|
      invariant root.Valid() && fresh(root.Repr)
      invariant root.Value() == WithEntries(empty, AllEntries(files[..n], parent))
    {
      AddFileNodes(root, EntriesOf(files[n], parent));
      MoreEntries(empty, files, n, parent);
    }
    assert files[..|files|] == files;
    NothingBelow(empty);
    PathsAreUnion(empty, AllEntries(files, parent));
  }

  lemma NoEntries(t: Tree, parent: string)
    ensures WithEntries(t, AllEntries([], parent)) == t
  {
  }

  lemma MoreEntries(t: Tree, files: seq<FileTreeData>, n: nat, parent: string)
    requires n < |files|
    ensures WithEntries(WithEntries(t, AllEntries(files[..n], parent)), EntriesOf(files[n], parent))
         == WithEntries(t, AllEntries(files[..n + 1], parent))
  {
    assert files[..n + 1][..n] == files[..n];
    WithEntriesAppend(t, AllEntries(files[..n], parent), EntriesOf(files[n], parent));
  }

  lemma {:induction false} WithEntriesAppend(t: Tree, a: seq<Entry>, b: seq<Entry>)
    ensures WithEntries(WithEntries(t, a), b) == WithEntries(t, a + b)
    decreases |b|
  {
    hide WithChild, NodeFromPath, Components;
    if b == [] {
      assert a + b == a;
    } else {
      var n := |b| - 1;
      WithEntriesAppend(t, a, b[..n]);
      assert (a + b)[..|a + b| - 1] == a + b[..n];
    }
  }

  lemma GrownWithin(self: object, repr: set<object>, footprint: set<object>, added: set<object>,
        footprint': set<object>)
    requires self in repr && footprint <= repr - {self} && repr !! added && footprint' <= footprint + added
    ensures self !in footprint' && footprint' !! (repr - {self} - footprint)
    ensures repr + footprint' <= repr + added
  {
  }

  lemma WithNewChild(t: Tree, node: Tree)
    requires IdOf(node) !in t.children
    ensures WithChild(t, node) == Tree(t.name, t.isFolder, t.uid, true, t.children[IdOf(node) := node])
  {
  }

  lemma WithMergedChild(t: Tree, node: Tree)
    requires IdOf(node) in t.children
    ensures WithChild(t, node) == t.(children := t.children[IdOf(node) := Merged(t.children[IdOf(node)], node)])
  {
    hide Merged;
  }

  /** What a merge starts from: the values of both nodes, the nodes to take over with their
      footprints, and the footprints of the target and its children. */
  datatype Plan = Plan(a: Tree, b: Tree, nodes: map<Id, Node>, nodeReprs: map<Id, set<object>>, kids: set<object>,
    reprs: map<Id, set<object>>, repr: set<object>)

  ghost predicate Apart(reprs: map<Id, set<object>>, todo: set<Id>, repr: set<object>) {
    forall i :: i in todo ==> i in reprs && reprs[i] !! repr
  }

  lemma ApartAt(reprs: map<Id, set<object>>, todo: set<Id>, repr: set<object>, id: Id)
    requires Apart(reprs, todo, repr) && id in todo
    ensures id in reprs && reprs[id] !! repr
  {
  }

  lemma AgreeStep<T>(todo: set<Id>, a: map<Id, T>, a': map<Id, T>, b: map<Id, T>, id: Id)
    requires Agree(todo, a, b) && a - {id} == a' - {id}
    ensures Agree(todo - {id}, a', b - {id})
  {
    forall i | i in todo - {id} && i in a' ensures i in b - {id} && a'[i] == (b - {id})[i] {
      assert i in a' - {id} && (a' - {id})[i] == a'[i];
      assert i in a && (a - {id})[i] == a[i];
    }
  }

  ghost predicate Agree<T>(todo: set<Id>, a: map<Id, T>, b: map<Id, T>) {
    forall i :: i in todo && i in a ==> i in b && a[i] == b[i]
  }
}
