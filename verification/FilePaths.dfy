/** Enumeration of the paths from root files to a file over the inclusion relation
    (src/storage/db_interface_common.py; the VFP migration has the same recursion). */
module FilePaths {
  import opened Common
  import opened Graphs

  /** (parent, child) pairs of the inclusion table. */
  type Relation = set<(string, string)>

  /** child -> its parents, each once, in the order in which the set is walked. */
  type ParentMap = map<string, seq<string>>

  ghost predicate ValidParents(parents: ParentMap) {
    forall c :: c in parents ==> Distinct(parents[c]) && parents[c] != []
  }

  ghost function RelationOf(parents: ParentMap): Relation {
    set c, p | c in parents && p in parents[c] :: (p, c)
  }

  ghost function Nodes(rel: Relation): set<string> {
    (set pc | pc in rel :: pc.0) + (set pc | pc in rel :: pc.1)
  }

  /** Every file with its parents. */
  ghost function ParentGraph(rel: Relation): Graph {
    map x | x in Nodes(rel) :: set pc | pc in rel && pc.1 == x :: pc.0
  }

  ghost predicate AcyclicRelation(rel: Relation) {
    Acyclic(ParentGraph(rel))
  }

  ghost predicate IsRoot(rel: Relation, x: string) {
    forall p :: (p, x) !in rel
  }

  /** A chain of inclusions from a file without parents down to `uid`. */
  ghost predicate RootChain(rel: Relation, path: seq<string>, uid: string) {
    && path != [] && path[|path| - 1] == uid && IsRoot(rel, path[0])
    && forall i :: 0 <= i < |path| - 1 ==> (path[i], path[i + 1]) in rel
  }

  ghost predicate NoDuplicates(paths: seq<seq<string>>) {
    forall i, j :: 0 <= i < j < |paths| ==> paths[i] != paths[j]
  }

  // ---- termination ----

  lemma GraphIsWellFounded(rel: Relation)
    requires AcyclicRelation(rel)
    ensures WellFounded(ParentGraph(rel)) == Nodes(rel)
  {
    var g := ParentGraph(rel);
    forall x, p | x in g && p in g[x] ensures p in g {
      assert (p, x) in rel;
    }
    assert Closed(g);
    AcyclicIsWellFounded(g);
  }

  /** How far a file is from the roots; 0 for files outside the relation. */
  ghost function Depth(rel: Relation, x: string): nat
    requires AcyclicRelation(rel)
  {
    GraphIsWellFounded(rel);
    if x in Nodes(rel) then Height(ParentGraph(rel), x) else 0
  }

  lemma ParentIsHigher(rel: Relation, p: string, c: string)
    requires AcyclicRelation(rel) && (p, c) in rel
    ensures Depth(rel, p) < Depth(rel, c)
  {
    GraphIsWellFounded(rel);
    assert p in Nodes(rel) && c in Nodes(rel);
    assert p in ParentGraph(rel)[c];
    HeightDecreases(ParentGraph(rel), c, p);
  }

  // ---- the recursion ----

  function Extend(paths: seq<seq<string>>, uid: string): (r: seq<seq<string>>)
    ensures |r| == |paths| && forall i :: 0 <= i < |paths| ==> r[i] == paths[i] + [uid]
  {
    seq(|paths|, i requires 0 <= i < |paths| => paths[i] + [uid])
  }

  /** `_generate_file_tree_path` */
  function GeneratePaths(parents: ParentMap, uid: string): seq<seq<string>>
    requires AcyclicRelation(RelationOf(parents))
    decreases Depth(RelationOf(parents), uid), 0
  {
    if uid in parents then PathsVia(parents, uid, parents[uid]) else []
  }

  /** The part of the list comprehension for some of the parents of `uid`. */
  function PathsVia(parents: ParentMap, uid: string, some: seq<string>): seq<seq<string>>
    requires AcyclicRelation(RelationOf(parents)) && uid in parents
    requires forall p :: p in some ==> p in parents[uid]
    decreases Depth(RelationOf(parents), uid), 0, |some|
  {
    if some == [] then []
    else
      var p := some[0];
      assert p in parents[uid] && (p, uid) in RelationOf(parents);
      ParentIsHigher(RelationOf(parents), p, uid);
      var above := if p in parents then GeneratePaths(parents, p) else [[p]];
      Extend(above, uid) + PathsVia(parents, uid, some[1..])
  }

  /** With the fallback for files without parents. */
  function PathsOrSelf(parents: ParentMap, uid: string): seq<seq<string>>
    requires AcyclicRelation(RelationOf(parents))
  {
    if GeneratePaths(parents, uid) == [] then [[uid]] else GeneratePaths(parents, uid)
  }

  lemma InRelation(parents: ParentMap, p: string, c: string)
    ensures (p, c) in RelationOf(parents) <==> c in parents && p in parents[c]
  {
  }

  lemma RootsHaveNoEntry(parents: ParentMap, x: string)
    requires ValidParents(parents)
    ensures IsRoot(RelationOf(parents), x) <==> x !in parents
  {
    if x in parents {
      InRelation(parents, parents[x][0], x);
    }
  }

  /** The paths found over some parents are exactly the chains that end in such a parent and then
      `uid`, each once. */
  lemma {:induction false} PathsViaExact(parents: ParentMap, uid: string, some: seq<string>)
    requires ValidParents(parents) && AcyclicRelation(RelationOf(parents)) && uid in parents
    requires Distinct(some) && forall p :: p in some ==> p in parents[uid]
    ensures forall path :: path in PathsVia(parents, uid, some) <==> ChainVia(RelationOf(parents), path, uid, some)
    ensures NoDuplicates(PathsVia(parents, uid, some))
    decreases Depth(RelationOf(parents), uid), 0, |some|
  {
    hide RootChain, NoDuplicates, RelationOf, AcyclicRelation, Depth, GeneratePaths, Extend;
    var rel := RelationOf(parents);
    if some == [] {
      NothingTwice();
    } else {
      var p := some[0];
      InRelation(parents, p, uid);
      ParentIsHigher(rel, p, uid);
      AboveExact(parents, p);
      PathsViaExact(parents, uid, some[1..]);
      var above := if p in parents then GeneratePaths(parents, p) else [[p]];
      forall path ensures path in Extend(above, uid) <==> ChainVia(rel, path, uid, [p]) {
        ExtendChain(rel, above, p, uid, path);
      }
      ExtendDistinct(above, uid);
      assert p !in some[1..];
      ConcatDistinct(Extend(above, uid), PathsVia(parents, uid, some[1..]), p);
      hide ChainVia;
      forall path ensures path in PathsVia(parents, uid, some) <==> ChainVia(rel, path, uid, some) {
        ViaFirstOrRest(rel, path, uid, some);
      }
    }
  }

  lemma ViaFirstOrRest(rel: Relation, path: seq<string>, uid: string, some: seq<string>)
    requires some != []
    ensures ChainVia(rel, path, uid, some) <==>
      ChainVia(rel, path, uid, [some[0]]) || ChainVia(rel, path, uid, some[1..])
  {
    hide RootChain;
    assert some == [some[0]] + some[1..];
  }

  ghost predicate ChainVia(rel: Relation, path: seq<string>, uid: string, some: seq<string>) {
    |path| >= 2 && path[|path| - 2] in some && RootChain(rel, path, uid)
  }

  lemma NothingTwice()
    ensures NoDuplicates([])
  {
  }

  lemma ExtendDistinct(paths: seq<seq<string>>, uid: string)
    requires NoDuplicates(paths)
    ensures NoDuplicates(Extend(paths, uid))
  {
    var r := Extend(paths, uid);
    forall i, j | 0 <= i < j < |r| ensures r[i] != r[j] {
      assert r[i][..|r[i]| - 1] == paths[i] && r[j][..|r[j]| - 1] == paths[j];
    }
  }

  lemma ConcatDistinct(here: seq<seq<string>>, rest: seq<seq<string>>, p: string)
    requires NoDuplicates(here) && NoDuplicates(rest)
    requires forall path :: path in here ==> |path| >= 2 && path[|path| - 2] == p
    requires forall path :: path in rest ==> |path| >= 2 && path[|path| - 2] != p
    ensures NoDuplicates(here + rest)
  {
    var all := here + rest;
    forall i, j | 0 <= i < j < |all| ensures all[i] != all[j] {
      assert i < |here| <= j ==> all[i] in here && all[j] in rest;
    }
  }

  lemma ParentInChain(rel: Relation, path: seq<string>, uid: string)
    requires RootChain(rel, path, uid)
    ensures if |path| == 1 then path == [uid] && IsRoot(rel, uid) else (path[|path| - 2], uid) in rel
  {
    if |path| >= 2 {
      var k := |path| - 2;
      assert (path[k], path[k + 1]) in rel;
    }
  }

  /** The paths to a parent, in the form the recursion uses them. */
  lemma {:induction false} AboveExact(parents: ParentMap, p: string)
    requires ValidParents(parents) && AcyclicRelation(RelationOf(parents))
    ensures var above := if p in parents then GeneratePaths(parents, p) else [[p]];
      && NoDuplicates(above)
      && forall path :: path in above <==> RootChain(RelationOf(parents), path, p)
    decreases Depth(RelationOf(parents), p), 1
  {
    var rel := RelationOf(parents);
    RootsHaveNoEntry(parents, p);
    if p in parents {
      PathsViaExact(parents, p, parents[p]);
    }
    forall path | RootChain(rel, path, p)
      ensures if p in parents then ChainVia(rel, path, p, parents[p]) else path == [p]
    {
      ParentInChain(rel, path, p);
    }
  }

  lemma ExtendChain(rel: Relation, above: seq<seq<string>>, p: string, uid: string, path: seq<string>)
    requires (p, uid) in rel && forall q :: q in above <==> RootChain(rel, q, p)
    ensures path in Extend(above, uid) <==> ChainVia(rel, path, uid, [p])
  {
    if path in Extend(above, uid) {
      var i :| 0 <= i < |above| && Extend(above, uid)[i] == path;
      var q := above[i];
      assert q in above && path == q + [uid];
      forall k | 0 <= k < |path| - 1 ensures (path[k], path[k + 1]) in rel {
        assert k < |q| - 1 ==> (q[k], q[k + 1]) in rel;
      }
    }
    if |path| >= 2 && path[|path| - 2] == p && RootChain(rel, path, uid) {
      var q := path[..|path| - 1];
      forall k | 0 <= k < |q| - 1 ensures (q[k], q[k + 1]) in rel {
        assert (path[k], path[k + 1]) in rel;
      }
      assert RootChain(rel, q, p);
      var i :| 0 <= i < |above| && above[i] == q;
      assert Extend(above, uid)[i] == path;
    }
  }

  /** Each root-to-file chain is enumerated exactly once, and nothing else is. */
  lemma PathsExact(parents: ParentMap, uid: string)
    requires ValidParents(parents) && AcyclicRelation(RelationOf(parents))
    ensures NoDuplicates(PathsOrSelf(parents, uid))
    ensures forall path :: path in PathsOrSelf(parents, uid) <==> RootChain(RelationOf(parents), path, uid)
  {
    AboveExact(parents, uid);
    if uid in parents && GeneratePaths(parents, uid) == [] {
      var path := ChainExists(RelationOf(parents), uid);
    }
  }

  /** Going up from parent to parent ends at a root. */
  lemma {:induction false} ChainExists(rel: Relation, uid: string) returns (path: seq<string>)
    requires AcyclicRelation(rel)
    ensures RootChain(rel, path, uid)
    decreases Depth(rel, uid), 0
  {
    if IsRoot(rel, uid) {
      path := [uid];
    } else {
      var p :| (p, uid) in rel;
      ParentIsHigher(rel, p, uid);
      path := ChainThrough(rel, p, uid);
    }
  }

  lemma {:induction false} ChainThrough(rel: Relation, p: string, uid: string) returns (path: seq<string>)
    requires AcyclicRelation(rel) && (p, uid) in rel
    ensures RootChain(rel, path, uid) && |path| >= 2 && path[|path| - 2] == p
    decreases Depth(rel, p), 1
  {
    var above := ChainExists(rel, p);
    path := above + [uid];
    forall k | 0 <= k < |path| - 1 ensures (path[k], path[k + 1]) in rel {
      assert k < |above| - 1 ==> (above[k], above[k + 1]) in rel;
    }
  }

  // ---- the query ----

  ghost function Pairs(pairs: seq<(string, string)>): Relation {
    set pc | pc in pairs
  }

  /** The loop of `_convert_tuples_to_path` (and of the migration) that groups parents by child. */
  method GroupParents(pairs: seq<(string, string)>) returns (parents: ParentMap)
    ensures ValidParents(parents) && RelationOf(parents) == Pairs(pairs)
  {
    parents := map[];
    for i := 0 to |pairs|
      invariant ValidParents(parents)
      invariant forall c, p :: c in parents && p in parents[c] <==> (p, c) in pairs[..i]
    {
      var (p, c) := pairs[i];
      assert pairs[..i + 1] == pairs[..i] + [(p, c)];
      var known := if c in parents then parents[c] else [];
      if p !in known {
        parents := parents[c := known + [p]];
      }
    }
    assert pairs[..|pairs|] == pairs;
    forall pc ensures pc in RelationOf(parents) <==> pc in Pairs(pairs) {
      assert pc == (pc.0, pc.1);
    }
  }

  /** What the recursive query returns: rows of the table (possibly repeated), among them all rows
      for the requested files and for every parent that turns up. */
  ghost predicate QueryResult(table: Relation, uids: set<string>, pairs: seq<(string, string)>) {
    && (forall pc :: pc in pairs ==> pc in table)
    && forall pc :: pc in table && (pc.1 in uids || exists q :: q in pairs && q.0 == pc.1) ==> pc in pairs
  }

  /** Seen from a requested file, the query result has the same root chains as the whole table. */
  lemma QueryKeepsChains(table: Relation, uids: set<string>, pairs: seq<(string, string)>, path: seq<string>, uid: string)
    requires QueryResult(table, uids, pairs) && uid in uids
    ensures RootChain(Pairs(pairs), path, uid) <==> RootChain(table, path, uid)
  {
    var rel := Pairs(pairs);
    if path != [] && path[|path| - 1] == uid {
      if forall i :: 0 <= i < |path| - 1 ==> (path[i], path[i + 1]) in table {
        ChainInQuery(table, uids, pairs, path, 0);
        assert |path| > 1 ==> (path[0], path[0 + 1]) in pairs;
        assert forall p :: (p, path[0]) in table <==> (p, path[0]) in rel;
      }
    }
  }

  lemma {:induction false} ChainInQuery(table: Relation, uids: set<string>, pairs: seq<(string, string)>, path: seq<string>, k: nat)
    requires QueryResult(table, uids, pairs) && k < |path| && path[|path| - 1] in uids
    requires forall i :: 0 <= i < |path| - 1 ==> (path[i], path[i + 1]) in table
    ensures forall i :: k <= i < |path| - 1 ==> (path[i], path[i + 1]) in pairs
    decreases |path| - k
  {
    if k < |path| - 1 {
      ChainInQuery(table, uids, pairs, path, k + 1);
      assert (path[k], path[k + 1]) in table;
      assert k + 1 < |path| - 1 ==> (path[k + 1], path[k + 1 + 1]) in pairs;
    }
  }

  lemma {:induction false} SubrelationAcyclic(table: Relation, rel: Relation)
    requires AcyclicRelation(table) && rel <= table
    ensures AcyclicRelation(rel)
  {
    var g, h := ParentGraph(table), ParentGraph(rel);
    forall p | IsChain(h, p) && |p| > 1 ensures p[0] != p[|p| - 1] {
      forall i | 0 <= i < |p| - 1 ensures p[i] in g && p[i + 1] in g[p[i]] {
        assert p[i] in h && p[i + 1] in h[p[i]];
        assert (p[i + 1], p[i]) in rel;
      }
      assert IsChain(g, p);
    }
  }

  // ---- filtering by root ----

  predicate NonEmptyPaths(paths: seq<seq<string>>) {
    forall i :: 0 <= i < |paths| ==> paths[i] != []
  }

  /** The paths that start at `root`, in order. */
  function FromRoot(paths: seq<seq<string>>, root: string): (r: seq<seq<string>>)
    requires NonEmptyPaths(paths)
    ensures forall q :: q in r <==> q in paths && q != [] && q[0] == root
  {
    if paths == [] then []
    else
      var n := |paths| - 1;
      assert paths == paths[..n] + [paths[n]];
      if paths[n][0] == root then FromRoot(paths[..n], root) + [paths[n]] else FromRoot(paths[..n], root)
  }

  lemma {:induction false} FromRootDistinct(paths: seq<seq<string>>, root: string)
    requires NoDuplicates(paths) && NonEmptyPaths(paths)
    ensures NoDuplicates(FromRoot(paths, root))
  {
    if paths != [] {
      var n := |paths| - 1;
      FromRootDistinct(paths[..n], root);
      assert paths[n] !in paths[..n];
      var before := FromRoot(paths[..n], root);
      forall i | 0 <= i < |before| ensures before[i] != paths[n] {
        assert before[i] in before;
      }
    }
  }

  /** The inner loop: removes every path that starts elsewhere, while walking over a copy. */
  method KeepFromRoot(paths: seq<seq<string>>, root: string) returns (kept: seq<seq<string>>)
    requires NonEmptyPaths(paths)
    ensures kept == FromRoot(paths, root)
  {
    kept := paths;
    for k := 0 to |paths|
      invariant kept == FromRoot(paths[..k], root) + paths[k..]
    {
      ghost var before := FromRoot(paths[..k], root);
      assert paths[..k + 1][..k] == paths[..k];
      assert paths[k..] == [paths[k]] + paths[k + 1..];
      assert kept == before + [paths[k]] + paths[k + 1..];
      if paths[k][0] != root {
        RemoveMiddle(before, paths[k], paths[k + 1..]);
        kept := RemoveFirst(kept, paths[k]);
      }
    }
    assert paths[..|paths|] == paths;
  }

  datatype RootFilter = AnyRoot | Only(root: string)

  ghost predicate Admits(filter: RootFilter, path: seq<string>) {
    path != [] && (filter.Only? ==> path[0] == filter.root)
  }

  /** The paths reported for one file. */
  ghost predicate PathsFor(table: Relation, filter: RootFilter, uid: string, paths: seq<seq<string>>) {
    && NoDuplicates(paths)
    && forall path :: path in paths <==> RootChain(table, path, uid) && Admits(filter, path)
  }

  /** `_remove_paths_lacking_root_uid`: edits the lists, then drops the files left with none. */
  method RemovePathsLackingRoot(pathDict: map<string, seq<seq<string>>>, root: string) returns (r: map<string, seq<seq<string>>>)
    requires forall uid :: uid in pathDict ==> NonEmptyPaths(pathDict[uid])
    ensures forall uid :: uid in r <==> uid in pathDict && FromRoot(pathDict[uid], root) != []
    ensures forall uid :: uid in r ==> r[uid] == FromRoot(pathDict[uid], root)
  {
    r := pathDict;
    var todo := pathDict.Keys;
    while todo != {}
      invariant todo <= pathDict.Keys && r.Keys == pathDict.Keys
      invariant forall uid :: uid in todo ==> r[uid] == pathDict[uid]
      invariant forall uid :: uid in pathDict && uid !in todo ==> r[uid] == FromRoot(pathDict[uid], root)
    {
      var uid :| uid in todo;
      var kept := KeepFromRoot(r[uid], root);
      r := r[uid := kept];
      todo := todo - {uid};
    }
    r := map uid | uid in r && r[uid] != [] :: r[uid];
  }

  /** `get_file_tree_path_for_uid_list`: for each requested file all its root chains, each once,
      restricted to one root if given; files left without a path are dropped. */
  method FileTreePaths(table: Relation, uids: seq<string>, filter: RootFilter, pairs: seq<(string, string)>)
    returns (r: map<string, seq<seq<string>>>)
    requires AcyclicRelation(table)
    requires QueryResult(table, (set u | u in uids), pairs)
    ensures forall uid :: uid in r ==> uid in uids && PathsFor(table, filter, uid, r[uid]) && r[uid] != []
    ensures forall uid :: uid in uids && uid !in r ==> PathsFor(table, filter, uid, []) && filter.Only?
  {
    hide RootChain, QueryResult, PathsFor, RelationOf;
    var parents := GroupParents(pairs);
    QuerySubset(table, uids, pairs);
    SubrelationAcyclic(table, RelationOf(parents));
    r := map uid | uid in uids :: PathsOrSelf(parents, uid);
    forall uid | uid in uids
      ensures PathsFor(table, AnyRoot, uid, PathsOrSelf(parents, uid)) && PathsOrSelf(parents, uid) != []
      ensures NonEmptyPaths(PathsOrSelf(parents, uid))
    {
      UnfilteredPaths(table, uids, pairs, parents, uid);
    }
    if filter.Only? {
      ghost var all := r;
      r := RemovePathsLackingRoot(r, filter.root);
      forall uid | uid in uids ensures PathsFor(table, filter, uid, FromRoot(all[uid], filter.root)) {
        FilteredPaths(table, uid, all[uid], filter.root);
      }
    }
  }

  lemma QuerySubset(table: Relation, uids: seq<string>, pairs: seq<(string, string)>)
    requires QueryResult(table, (set u | u in uids), pairs)
    ensures Pairs(pairs) <= table
  {
  }

  lemma UnfilteredPaths(table: Relation, uids: seq<string>, pairs: seq<(string, string)>, parents: ParentMap, uid: string)
    requires QueryResult(table, (set u | u in uids), pairs) && uid in uids
    requires ValidParents(parents) && RelationOf(parents) == Pairs(pairs) && AcyclicRelation(RelationOf(parents))
    ensures PathsFor(table, AnyRoot, uid, PathsOrSelf(parents, uid)) && PathsOrSelf(parents, uid) != []
    ensures NonEmptyPaths(PathsOrSelf(parents, uid))
  {
    hide QueryResult;
    PathsExact(parents, uid);
    forall path ensures RootChain(RelationOf(parents), path, uid) <==> RootChain(table, path, uid) {
      QueryKeepsChains(table, (set u | u in uids), pairs, path, uid);
    }
    var paths := PathsOrSelf(parents, uid);
    forall i | 0 <= i < |paths| ensures paths[i] != [] {
      assert paths[i] in paths;
    }
  }

  lemma FilteredPaths(table: Relation, uid: string, paths: seq<seq<string>>, root: string)
    requires PathsFor(table, AnyRoot, uid, paths) && NonEmptyPaths(paths)
    ensures PathsFor(table, Only(root), uid, FromRoot(paths, root))
  {
    FromRootDistinct(paths, root);
  }
}
