/** The migration of virtual file paths to a table of their own and back
    (src/storage/migration/versions/a1312300d62d_add_vfp_table.py). */
module VfpMigration {
  import opened Common
  import opened Graphs
  import opened Text
  import opened FilePaths

  const SEP := '|'

  /** The old column: root UID -> joined paths "uid|uid|...|path". */
  type VfpDict = map<string, seq<string>>

  ghost predicate InDict(dict: map<string, seq<string>>, key: string, v: string) {
    key in dict && v in dict[key]
  }

  ghost predicate HasRow(table: set<Row>, parent: string, child: string) {
    exists row :: row in table && row.parent == parent && row.child == child
  }

  /** One entry of the old column. */
  function JoinedPath(chain: seq<string>, path: string): string
    requires chain != []
  {
    Join(chain[..|chain| - 1] + [path], SEP)
  }

  // ---- downgrade ----

  /** `v` belongs under `root` in the old column of `uid`. */
  ghost predicate OldEntry(rel: Relation, table: set<Row>, uid: string, root: string, v: string) {
    exists chain, path :: OldEntryVia(rel, table, uid, root, v, chain, path)
  }

  ghost predicate OldEntryVia(rel: Relation, table: set<Row>, uid: string, root: string, v: string, chain: seq<string>, path: string) {
    && RootChain(rel, chain, uid) && |chain| >= 2 && chain[0] == root
    && Row(chain[|chain| - 2], uid, path) in table
    && v == JoinedPath(chain, path)
  }

  /** The old column that belongs to the tables. */
  ghost predicate Downgraded(rel: Relation, table: set<Row>, column: map<string, VfpDict>) {
    && column.Keys == Nodes(rel)
    && forall uid :: uid in column ==>
      if IsRoot(rel, uid) then column[uid] == map[uid := [uid]]
      else forall root, v :: InDict(column[uid], root, v) <==> OldEntry(rel, table, uid, root, v)
  }

  ghost predicate PathsByParent(table: set<Row>, uid: string, dict: map<string, seq<string>>) {
    && (forall p, path :: InDict(dict, p, path) <==> Row(p, uid, path) in table)
    && forall p :: p in dict ==> dict[p] != []
  }

  /** The paths of one file by parent, as the query yields them. */
  method PathDict(table: set<Row>, uid: string) returns (dict: map<string, seq<string>>)
    ensures PathsByParent(table, uid, dict)
  {
    dict := map[];
    var rows := set row | row in table && row.child == uid;
    ghost var all := rows;
    while rows != {}
      invariant rows <= all
      invariant forall p, path :: InDict(dict, p, path) <==> Row(p, uid, path) in all - rows
      invariant forall p :: p in dict ==> dict[p] != []
    {
      var row :| row in rows;
      rows := rows - {row};
      var known := if row.parent in dict then dict[row.parent] else [];
      ghost var before := dict;
      dict := dict[row.parent := known + [row.path]];
      forall p, path ensures InDict(dict, p, path) <==> Row(p, uid, path) in all - rows {
        assert row == Row(row.parent, uid, row.path);
        assert InDict(dict, p, path) <==> InDict(before, p, path) || (p == row.parent && path == row.path);
      }
    }
  }

  /** The entries that the first `k` chains contribute. */
  ghost predicate EntryOfFirst(chains: seq<seq<string>>, k: nat, pathDict: map<string, seq<string>>, root: string, v: string)
    requires k <= |chains| && Long(chains)
  {
    exists i, path :: 0 <= i < k && EntryOf(chains[i], pathDict, root, v, path)
  }

  ghost predicate EntryOf(chain: seq<string>, pathDict: map<string, seq<string>>, root: string, v: string, path: string)
    requires |chain| >= 2
  {
    chain[0] == root && chain[|chain| - 2] in pathDict && path in pathDict[chain[|chain| - 2]] && v == JoinedPath(chain, path)
  }

  function JoinAll(chain: seq<string>, paths: seq<string>): (r: seq<string>)
    requires chain != []
    ensures |r| == |paths| && forall i :: 0 <= i < |paths| ==> r[i] == JoinedPath(chain, paths[i])
  {
    seq(|paths|, i requires 0 <= i < |paths| => JoinedPath(chain, paths[i]))
  }

  lemma EntriesOfChain(chain: seq<string>, pathDict: map<string, seq<string>>, root: string, v: string)
    requires |chain| >= 2 && chain[|chain| - 2] in pathDict
    ensures (exists path :: EntryOf(chain, pathDict, root, v, path)) <==>
      root == chain[0] && v in JoinAll(chain, pathDict[chain[|chain| - 2]])
  {
    var paths := pathDict[chain[|chain| - 2]];
    if path :| EntryOf(chain, pathDict, root, v, path) {
      var i :| 0 <= i < |paths| && paths[i] == path;
      assert JoinAll(chain, paths)[i] == v;
    }
    if root == chain[0] && v in JoinAll(chain, paths) {
      var i :| 0 <= i < |paths| && JoinAll(chain, paths)[i] == v;
      assert EntryOf(chain, pathDict, root, v, paths[i]);
    }
  }

  /** The old column of one file; `ok` is false when a parent without paths raises KeyError. */
  method OldColumn(chains: seq<seq<string>>, pathDict: map<string, seq<string>>) returns (ok: bool, dict: VfpDict)
    requires Long(chains)
    ensures ok <==> forall i :: 0 <= i < |chains| ==> chains[i][|chains[i]| - 2] in pathDict
    ensures ok ==> forall root, v :: InDict(dict, root, v) <==> EntryOfFirst(chains, |chains|, pathDict, root, v)
  {
    dict := map[];
    for k := 0 to |chains|
      invariant forall i :: 0 <= i < k ==> chains[i][|chains[i]| - 2] in pathDict
      invariant forall root, v :: InDict(dict, root, v) <==> EntryOfFirst(chains, k, pathDict, root, v)
    {
      var chain := chains[k];
      var root, parent := chain[0], chain[|chain| - 2];
      if parent !in pathDict {
        return false, dict;
      }
      var known := if root in dict then dict[root] else [];
      ghost var before := dict;
      dict := dict[root := known + JoinAll(chain, pathDict[parent])];
      forall r, v ensures InDict(dict, r, v) <==> EntryOfFirst(chains, k + 1, pathDict, r, v) {
        EntriesOfChain(chain, pathDict, r, v);
        assert InDict(dict, r, v) <==> InDict(before, r, v) || (r == root && v in JoinAll(chain, pathDict[parent]));
        MoreEntries(chains, k, pathDict, r, v);
      }
    }
    return true, dict;
  }

  lemma MoreEntries(chains: seq<seq<string>>, k: nat, pathDict: map<string, seq<string>>, root: string, v: string)
    requires k < |chains| && Long(chains)
    ensures EntryOfFirst(chains, k + 1, pathDict, root, v) <==>
      EntryOfFirst(chains, k, pathDict, root, v) || exists path :: EntryOf(chains[k], pathDict, root, v, path)
  {
    if EntryOfFirst(chains, k + 1, pathDict, root, v) {
      var i, path :| 0 <= i < k + 1 && EntryOf(chains[i], pathDict, root, v, path);
    }
    if EntryOfFirst(chains, k, pathDict, root, v) {
      var i, path :| 0 <= i < k && EntryOf(chains[i], pathDict, root, v, path);
      assert 0 <= i < k + 1;
    }
    if path :| EntryOf(chains[k], pathDict, root, v, path) {
      assert 0 <= k < k + 1;
    }
  }

  ghost predicate AllChains(rel: Relation, uid: string, chains: seq<seq<string>>) {
    forall chain :: chain in chains <==> RootChain(rel, chain, uid)
  }

  ghost predicate Long(chains: seq<seq<string>>) {
    forall i :: 0 <= i < |chains| ==> |chains[i]| >= 2
  }

  /** The chains of a file that has parents. */
  lemma ChainsOfChild(parents: ParentMap, uid: string)
    requires ValidParents(parents) && AcyclicRelation(RelationOf(parents)) && uid in parents
    ensures AllChains(RelationOf(parents), uid, GeneratePaths(parents, uid)) && Long(GeneratePaths(parents, uid))
  {
    hide AcyclicRelation, RootChain, RelationOf, IsRoot, GeneratePaths;
    var chains := GeneratePaths(parents, uid);
    AboveExact(parents, uid);
    RootsHaveNoEntry(parents, uid);
    forall i | 0 <= i < |chains| ensures |chains[i]| >= 2 {
      assert chains[i] in chains;
      SomeParent(parents, uid, chains[i]);
    }
  }

  /** Every parent ends some chain, so all chains find their paths exactly when all parents do. */
  lemma ParentsMatch(parents: ParentMap, uid: string, chains: seq<seq<string>>, names: set<string>)
    requires ValidParents(parents) && AcyclicRelation(RelationOf(parents)) && uid in parents
    requires AllChains(RelationOf(parents), uid, chains) && Long(chains)
    ensures (forall i :: 0 <= i < |chains| ==> chains[i][|chains[i]| - 2] in names) <==> forall p :: p in parents[uid] ==> p in names
  {
    hide AcyclicRelation, RootChain, RelationOf;
    forall i | 0 <= i < |chains| ensures chains[i][|chains[i]| - 2] in parents[uid] {
      assert chains[i] in chains;
      SomeParent(parents, uid, chains[i]);
    }
    if forall i :: 0 <= i < |chains| ==> chains[i][|chains[i]| - 2] in names {
      forall p | p in parents[uid] ensures p in names {
        InRelation(parents, p, uid);
        var chain := ChainThrough(RelationOf(parents), p, uid);
        var i :| 0 <= i < |chains| && chains[i] == chain;
      }
    }
  }

  lemma SomeParent(parents: ParentMap, uid: string, chain: seq<string>)
    requires RootChain(RelationOf(parents), chain, uid)
    ensures |chain| >= 2 ==> uid in parents && chain[|chain| - 2] in parents[uid]
    ensures |chain| < 2 ==> IsRoot(RelationOf(parents), uid)
  {
    ParentInChain(RelationOf(parents), chain, uid);
  }

  lemma EntriesAreOldEntries(rel: Relation, table: set<Row>, uid: string, chains: seq<seq<string>>,
                             pathDict: map<string, seq<string>>, root: string, v: string)
    requires Long(chains) && AllChains(rel, uid, chains) && PathsByParent(table, uid, pathDict)
    ensures EntryOfFirst(chains, |chains|, pathDict, root, v) <==> OldEntry(rel, table, uid, root, v)
  {
    hide RootChain, JoinedPath;
    if EntryOfFirst(chains, |chains|, pathDict, root, v) {
      var i, path :| 0 <= i < |chains| && EntryOf(chains[i], pathDict, root, v, path);
      assert chains[i] in chains && InDict(pathDict, chains[i][|chains[i]| - 2], path);
      assert OldEntryVia(rel, table, uid, root, v, chains[i], path);
    }
    if OldEntry(rel, table, uid, root, v) {
      var chain, path :| OldEntryVia(rel, table, uid, root, v, chain, path);
      assert InDict(pathDict, chain[|chain| - 2], path);
      var i :| 0 <= i < |chains| && chains[i] == chain;
      assert EntryOf(chains[i], pathDict, root, v, path);
    }
  }

  /** The part of the old column that is done: the files with parents that are not in `todo`. */
  ghost predicate ColumnOk(rel: Relation, table: set<Row>, uid: string, dict: VfpDict) {
    forall root, v :: InDict(dict, root, v) <==> OldEntry(rel, table, uid, root, v)
  }

  ghost predicate RootsSeen(rel: Relation, uid: string, roots: set<string>) {
    forall chain :: RootChain(rel, chain, uid) ==> chain != [] && chain[0] in roots
  }

  method DowngradeFile(parents: ParentMap, table: set<Row>, uid: string) returns (ok: bool, dict: VfpDict, roots: set<string>)
    requires ValidParents(parents) && AcyclicRelation(RelationOf(parents)) && uid in parents
    ensures ok <==> AllHaveRows(table, parents[uid], uid)
    ensures ok ==> ColumnOk(RelationOf(parents), table, uid, dict)
    ensures RootsSeen(RelationOf(parents), uid, roots)
    ensures forall r :: r in roots ==> r !in parents && r in Nodes(RelationOf(parents))
  {
    hide AcyclicRelation, RelationOf, GeneratePaths, AllChains, Nodes, EntryOfFirst, PathsByParent, HasRow, OldEntry;
    ghost var rel := RelationOf(parents);
    var chains := GeneratePaths(parents, uid);
    ChainsOfChild(parents, uid);
    var pathDict := PathDict(table, uid);
    ok, dict := OldColumn(chains, pathDict);
    roots := set i | 0 <= i < |chains| :: chains[i][0];
    ParentsMatch(parents, uid, chains, pathDict.Keys);
    forall p ensures p in pathDict <==> HasRow(table, p, uid) {
      ParentHasRow(table, uid, pathDict, p);
    }
    forall root, v ensures EntryOfFirst(chains, |chains|, pathDict, root, v) <==> OldEntry(rel, table, uid, root, v) {
      EntriesAreOldEntries(rel, table, uid, chains, pathDict, root, v);
    }
    HeadsAreRoots(parents, uid, chains, roots);
  }

  ghost predicate AllHaveRows(table: set<Row>, parents: seq<string>, uid: string) {
    forall p :: p in parents ==> HasRow(table, p, uid)
  }

  lemma HeadsAreRoots(parents: ParentMap, uid: string, chains: seq<seq<string>>, roots: set<string>)
    requires ValidParents(parents) && AllChains(RelationOf(parents), uid, chains) && Long(chains)
    requires roots == set i | 0 <= i < |chains| :: chains[i][0]
    ensures RootsSeen(RelationOf(parents), uid, roots)
    ensures forall r :: r in roots ==> r !in parents && r in Nodes(RelationOf(parents))
  {
    hide RelationOf, Nodes, RootChain;
    forall r | r in roots ensures r !in parents && r in Nodes(RelationOf(parents)) {
      var i :| 0 <= i < |chains| && chains[i][0] == r;
      assert chains[i] in chains;
      HeadIsRoot(parents, chains[i], uid);
    }
    forall chain | RootChain(RelationOf(parents), chain, uid) ensures chain != [] && chain[0] in roots {
      var i :| 0 <= i < |chains| && chains[i] == chain;
    }
  }

  lemma ParentHasRow(table: set<Row>, uid: string, pathDict: map<string, seq<string>>, p: string)
    requires PathsByParent(table, uid, pathDict)
    ensures p in pathDict <==> HasRow(table, p, uid)
  {
    if p in pathDict {
      assert InDict(pathDict, p, pathDict[p][0]);
    }
    if row :| row in table && row.parent == p && row.child == uid {
      assert row == Row(p, uid, row.path);
      assert InDict(pathDict, p, row.path);
    }
  }

  lemma HeadIsRoot(parents: ParentMap, chain: seq<string>, uid: string)
    requires ValidParents(parents) && RootChain(RelationOf(parents), chain, uid) && |chain| >= 2
    ensures chain[0] !in parents && chain[0] in Nodes(RelationOf(parents))
  {
    RootsHaveNoEntry(parents, chain[0]);
    assert (chain[0], chain[0 + 1]) in RelationOf(parents);
  }

  /** The loop over the files with parents. */
  method DowngradeChildren(parents: ParentMap, table: set<Row>)
    returns (ok: bool, column: map<string, VfpDict>, roots: set<string>)
    requires ValidParents(parents) && AcyclicRelation(RelationOf(parents))
    ensures ok <==> forall uid :: uid in parents ==> AllHaveRows(table, parents[uid], uid)
    ensures ok ==> column.Keys == parents.Keys
    ensures ok ==> forall uid :: uid in column ==> ColumnOk(RelationOf(parents), table, uid, column[uid])
    ensures ok ==> Nodes(RelationOf(parents)) == parents.Keys + roots && roots !! parents.Keys
  {
    hide AcyclicRelation, RelationOf, ColumnOk, RootsSeen, AllHaveRows, Nodes;
    ghost var rel := RelationOf(parents);
    column, roots := map[], {};
    var todo := parents.Keys;
    while todo != {}
      invariant todo <= parents.Keys && column.Keys == parents.Keys - todo
      invariant forall uid :: uid in column ==> ColumnOk(rel, table, uid, column[uid]) && RootsSeen(rel, uid, roots)
      invariant forall uid :: uid in column ==> AllHaveRows(table, parents[uid], uid)
      invariant forall r :: r in roots ==> r !in parents && r in Nodes(rel)
    {
      var uid :| uid in todo;
      var done, dict, heads := DowngradeFile(parents, table, uid);
      if !done {
        return false, column, roots;
      }
      forall u | u in column.Keys + {uid} ensures RootsSeen(rel, u, roots + heads) {
        MoreRoots(rel, u, if u == uid then heads else roots, roots + heads);
      }
      column := column[uid := dict];
      roots := roots + heads;
      todo := todo - {uid};
    }
    AllRootsSeen(parents, roots);
    ok := true;
  }

  /** `_downgrade_vfp_entries` fails exactly when some inclusion has no path, and otherwise writes
      the old column of every file that takes part in an inclusion. */
  method Downgrade(pairs: seq<(string, string)>, table: set<Row>) returns (ok: bool, column: map<string, VfpDict>)
    requires AcyclicRelation(Pairs(pairs))
    ensures ok <==> forall pc :: pc in Pairs(pairs) ==> HasRow(table, pc.0, pc.1)
    ensures ok ==> Downgraded(Pairs(pairs), table, column)
  {
    hide AcyclicRelation, ColumnOk, HasRow, Nodes, Downgraded, RelationOf, AllHaveRows;
    var parents := GroupParents(pairs);
    var roots: set<string>;
    ok, column, roots := DowngradeChildren(parents, table);
    RowsForAll(parents, table);
    if !ok {
      return;
    }
    ghost var children := column;
    while roots != {}
      invariant roots !! column.Keys && column.Keys + roots == Nodes(Pairs(pairs)) && parents.Keys <= column.Keys
      invariant forall uid :: uid in parents ==> column[uid] == children[uid]
      invariant forall uid :: uid in column && uid !in parents ==> column[uid] == map[uid := [uid]]
    {
      var uid :| uid in roots;
      column := column[uid := map[uid := [uid]]];
      roots := roots - {uid};
    }
    FinishDowngrade(parents, table, column);
  }

  lemma RowsForAll(parents: ParentMap, table: set<Row>)
    ensures (forall uid :: uid in parents ==> AllHaveRows(table, parents[uid], uid))
            <==> forall pc :: pc in RelationOf(parents) ==> HasRow(table, pc.0, pc.1)
  {
    if forall pc :: pc in RelationOf(parents) ==> HasRow(table, pc.0, pc.1) {
      forall uid, p | uid in parents && p in parents[uid] ensures HasRow(table, p, uid) {
        assert (p, uid) in RelationOf(parents);
      }
    }
  }

  lemma MoreRoots(rel: Relation, uid: string, roots: set<string>, roots': set<string>)
    requires RootsSeen(rel, uid, roots) && roots <= roots'
    ensures RootsSeen(rel, uid, roots')
  {
  }

  lemma AllRootsSeen(parents: ParentMap, roots: set<string>)
    requires ValidParents(parents)
    requires forall uid :: uid in parents ==> RootsSeen(RelationOf(parents), uid, roots)
    requires forall r :: r in roots ==> r !in parents && r in Nodes(RelationOf(parents))
    ensures Nodes(RelationOf(parents)) == parents.Keys + roots && roots !! parents.Keys
  {
    var rel := RelationOf(parents);
    forall x | x in Nodes(rel) ensures x in parents || x in roots {
      if x !in parents {
        var pc :| pc in rel && pc.0 == x;
        RootsHaveNoEntry(parents, x);
        assert RootChain(rel, [x, pc.1], pc.1);
        assert RootsSeen(rel, pc.1, roots);
        assert [x, pc.1][0] == x;
      }
    }
    forall c | c in parents ensures c in Nodes(rel) {
      InRelation(parents, parents[c][0], c);
    }
  }

  lemma FinishDowngrade(parents: ParentMap, table: set<Row>, column: map<string, VfpDict>)
    requires ValidParents(parents)
    requires var rel := RelationOf(parents);
      && column.Keys == Nodes(rel) && parents.Keys <= column.Keys
      && (forall uid :: uid in parents ==> ColumnOk(rel, table, uid, column[uid]))
      && forall uid :: uid in column && uid !in parents ==> column[uid] == map[uid := [uid]]
    ensures Downgraded(RelationOf(parents), table, column)
  {
    hide RelationOf, IsRoot, OldEntry;
    forall uid | uid in column ensures IsRoot(RelationOf(parents), uid) <==> uid !in parents {
      RootsHaveNoEntry(parents, uid);
    }
  }

  // ---- upgrade ----

  function NonEmptyParts(parts: seq<string>): (r: seq<string>)
    ensures forall p :: p in r ==> p in parts && p != ""
    ensures (forall i :: 0 <= i < |parts| ==> parts[i] != "") ==> r == parts
  {
    if parts == [] then []
    else if parts[0] == "" then NonEmptyParts(parts[1..])
    else [parts[0]] + NonEmptyParts(parts[1..])
  }

  /** What one joined path contributes: nothing for a root, or if its parent is not stored. */
  function ParsePath(files: set<string>, uid: string, v: string): Option<Row> {
    var elements := NonEmptyParts(Split(v, SEP));
    if |elements| < 2 then None
    else if elements[|elements| - 2] !in files then None
    else Some(Row(elements[|elements| - 2], uid, elements[|elements| - 1]))
  }

  ghost predicate ParsedFrom(files: set<string>, dict: VfpDict, uid: string, row: Row) {
    exists root, v :: InDict(dict, root, v) && ParsePath(files, uid, v) == Some(row)
  }

  ghost predicate Upgraded(files: set<string>, column: map<string, VfpDict>, table: set<Row>) {
    && files <= column.Keys
    && forall row :: row in table <==> row.child in files && ParsedFrom(files, column[row.child], row.child, row)
  }

  method UpgradeFile(files: set<string>, dict: VfpDict, uid: string) returns (rows: set<Row>)
    ensures forall row :: row in rows <==> row.child == uid && ParsedFrom(files, dict, uid, row)
  {
    rows := {};
    var todo := dict.Keys;
    while todo != {}
      invariant todo <= dict.Keys
      invariant forall row :: row in rows <==> row.child == uid && ParsedUnder(files, dict, uid, row, dict.Keys - todo)
    {
      var root :| root in todo;
      var more := UpgradeList(files, dict[root], uid);
      ghost var seen := dict.Keys - todo;
      todo := todo - {root};
      assert dict.Keys - todo == seen + {root};
      forall row ensures row in rows + more <==> row.child == uid && ParsedUnder(files, dict, uid, row, seen + {root}) {
        OneMoreRoot(files, dict, uid, row, seen, root);
      }
      rows := rows + more;
    }
  }

  ghost predicate ParsedUnder(files: set<string>, dict: VfpDict, uid: string, row: Row, roots: set<string>) {
    exists root, v :: root in roots && InDict(dict, root, v) && ParsePath(files, uid, v) == Some(row)
  }

  lemma OneMoreRoot(files: set<string>, dict: VfpDict, uid: string, row: Row, seen: set<string>, root: string)
    requires root in dict
    ensures ParsedUnder(files, dict, uid, row, seen + {root}) <==>
      ParsedUnder(files, dict, uid, row, seen) || exists v :: v in dict[root] && ParsePath(files, uid, v) == Some(row)
  {
    hide ParsePath;
    if ParsedUnder(files, dict, uid, row, seen + {root}) {
      var r, v :| r in seen + {root} && InDict(dict, r, v) && ParsePath(files, uid, v) == Some(row);
    }
    if v :| v in dict[root] && ParsePath(files, uid, v) == Some(row) {
      assert root in seen + {root} && InDict(dict, root, v);
    }
  }

  method UpgradeList(files: set<string>, list: seq<string>, uid: string) returns (rows: set<Row>)
    ensures forall row :: row in rows <==> exists v :: v in list && ParsePath(files, uid, v) == Some(row)
  {
    rows := {};
    for k := 0 to |list|
      invariant forall row :: row in rows <==> exists v :: v in list[..k] && ParsePath(files, uid, v) == Some(row)
    {
      assert list[..k + 1] == list[..k] + [list[k]];
      var parsed := ParsePath(files, uid, list[k]);
      if parsed.Some? {
        rows := rows + {parsed.value};
      }
    }
    assert list[..|list|] == list;
  }

  /** `_create_vfp_table_entries` fails exactly when a file has no old column. */
  method Upgrade(files: set<string>, column: map<string, VfpDict>) returns (ok: bool, table: set<Row>)
    ensures ok <==> files <= column.Keys
    ensures ok ==> Upgraded(files, column, table)
  {
    table := {};
    var todo := files;
    while todo != {}
      invariant todo <= files && files - todo <= column.Keys
      invariant forall row :: row in table <==> row.child in files - todo && ParsedFrom(files, column[row.child], row.child, row)
    {
      var uid :| uid in todo;
      if uid !in column {
        return false, table;
      }
      var rows := UpgradeFile(files, column[uid], uid);
      table := table + rows;
      todo := todo - {uid};
    }
    return true, table;
  }

  // ---- there and back again ----

  ghost predicate Clean(s: string) {
    s != "" && SEP !in s
  }

  /** A joined path of clean parts is parsed back to its last parent and path. */
  lemma ParseJoined(files: set<string>, uid: string, chain: seq<string>, path: string)
    requires |chain| >= 2 && chain[|chain| - 2] in files && Clean(path)
    requires forall i :: 0 <= i < |chain| ==> Clean(chain[i])
    ensures ParsePath(files, uid, JoinedPath(chain, path)) == Some(Row(chain[|chain| - 2], uid, path))
  {
    var parts := chain[..|chain| - 1] + [path];
    SplitJoin(parts, SEP);
    assert forall i :: 0 <= i < |parts| ==> parts[i] != "";
    assert NonEmptyParts(parts) == parts;
  }

  /** Whatever is parsed is clean. */
  lemma ParsedIsClean(files: set<string>, uid: string, v: string)
    ensures ParsePath(files, uid, v).Some? ==> Clean(ParsePath(files, uid, v).value.path)
  {
    var elements := NonEmptyParts(Split(v, SEP));
    if |elements| >= 2 {
      assert elements[|elements| - 1] in elements;
    }
  }

  lemma ChainInNodes(rel: Relation, chain: seq<string>, uid: string)
    requires RootChain(rel, chain, uid) && |chain| >= 2
    ensures forall i :: 0 <= i < |chain| ==> chain[i] in Nodes(rel)
    ensures (chain[|chain| - 2], uid) in rel
  {
    forall i | 0 <= i < |chain| ensures chain[i] in Nodes(rel) {
      if i < |chain| - 1 {
        assert (chain[i], chain[i + 1]) in rel;
      } else {
        assert (chain[i - 1], chain[i - 1 + 1]) in rel;
      }
    }
    ParentInChain(rel, chain, uid);
  }

  /** The rows that belong to an inclusion and have a clean path come back. */
  lemma CleanRowReturns(rel: Relation, table: set<Row>, column: map<string, VfpDict>, table': set<Row>, row: Row)
    requires AcyclicRelation(rel) && Downgraded(rel, table, column) && Upgraded(Nodes(rel), column, table')
    requires forall u :: u in Nodes(rel) ==> Clean(u)
    requires row in table && (row.parent, row.child) in rel && Clean(row.path)
    ensures row in table'
  {
    hide AcyclicRelation, RootChain, JoinedPath, ParsePath, Clean;
    var chain := ChainThrough(rel, row.parent, row.child);
    ChainInNodes(rel, chain, row.child);
    ChainEnds(rel, chain, row.child);
    var v := JoinedPath(chain, row.path);
    ParseJoined(Nodes(rel), row.child, chain, row.path);
    assert row == Row(row.parent, row.child, row.path);
    assert OldEntryVia(rel, table, row.child, chain[0], v, chain, row.path);
    assert OldEntry(rel, table, row.child, chain[0], v);
    assert !IsRoot(rel, row.child);
    assert InDict(column[row.child], chain[0], v);
    assert ParsedFrom(Nodes(rel), column[row.child], row.child, row);
  }

  lemma ChainEnds(rel: Relation, chain: seq<string>, uid: string)
    requires RootChain(rel, chain, uid)
    ensures chain != [] && chain[|chain| - 1] == uid
  {
  }

  /** If all stored paths are clean, nothing else comes back. */
  lemma ReturnedRowWasThere(rel: Relation, table: set<Row>, column: map<string, VfpDict>, table': set<Row>, row: Row)
    requires Downgraded(rel, table, column) && Upgraded(Nodes(rel), column, table')
    requires forall u :: u in Nodes(rel) ==> Clean(u)
    requires forall r :: r in table ==> Clean(r.path)
    requires row in table'
    ensures row in table && (row.parent, row.child) in rel
  {
    hide RootChain, Clean;
    var uid := row.child;
    var root, v :| InDict(column[uid], root, v) && ParsePath(Nodes(rel), uid, v) == Some(row);
    if IsRoot(rel, uid) {
      assert root == uid && v == uid;
      RootEntrySkipped(Nodes(rel), uid);
    } else {
      assert OldEntry(rel, table, uid, root, v);
      var chain, path :| OldEntryVia(rel, table, uid, root, v, chain, path);
      ChainInNodes(rel, chain, uid);
      assert Row(chain[|chain| - 2], uid, path) in table;
      assert Clean(Row(chain[|chain| - 2], uid, path).path);
      ParseJoined(Nodes(rel), uid, chain, path);
    }
  }

  /** The entry of a root has a single element and is skipped. */
  lemma RootEntrySkipped(files: set<string>, uid: string)
    requires Clean(uid)
    ensures ParsePath(files, uid, uid) == None
  {
    SplitSingle(uid, SEP);
    assert [uid][0] != "";
    assert NonEmptyParts([uid]) == [uid];
  }

  /** Downgrading and upgrading again restores the table exactly when every row belongs to an
      inclusion and no path is empty or contains the separator. */
  lemma RoundTrip(rel: Relation, table: set<Row>, column: map<string, VfpDict>, table': set<Row>)
    requires AcyclicRelation(rel) && Downgraded(rel, table, column) && Upgraded(Nodes(rel), column, table')
    requires forall u :: u in Nodes(rel) ==> Clean(u)
    ensures table' == table <==> forall row :: row in table ==> (row.parent, row.child) in rel && Clean(row.path)
  {
    hide AcyclicRelation, Downgraded, Clean;
    if forall row :: row in table ==> (row.parent, row.child) in rel && Clean(row.path) {
      forall row ensures row in table <==> row in table' {
        if row in table {
          CleanRowReturns(rel, table, column, table', row);
        }
        if row in table' {
          ReturnedRowWasThere(rel, table, column, table', row);
        }
      }
    }
    if table' == table {
      forall row | row in table ensures Clean(row.path) {
        var root, v :| InDict(column[row.child], root, v) && ParsePath(Nodes(rel), row.child, v) == Some(row);
        ParsedIsClean(Nodes(rel), row.child, v);
      }
      forall row | row in table ensures (row.parent, row.child) in rel {
        ReturnedRowWasThere(rel, table, column, table', row);
      }
    }
  }

  // ---- what the old column says, read with `split` ----

  /** The elements of the entry are a chain of inclusions from `root` down to a parent of the file,
      followed by a path of the file in this parent. */
  ghost predicate TellsPath(rel: Relation, table: set<Row>, uid: string, root: string, parts: seq<string>) {
    var n := |parts| - 1;
    n >= 1 && parts[0] == root && RootChain(rel, parts[..n] + [uid], uid) && Row(parts[n - 1], uid, parts[n]) in table
  }

  lemma JoinedTells(rel: Relation, table: set<Row>, uid: string, root: string, v: string, chain: seq<string>, path: string)
    requires OldEntryVia(rel, table, uid, root, v, chain, path) && Clean(path) && forall i :: 0 <= i < |chain| ==> Clean(chain[i])
    ensures TellsPath(rel, table, uid, root, Split(v, SEP))
  {
    hide RootChain;
    var parts := chain[..|chain| - 1] + [path];
    SplitJoin(parts, SEP);
    ChainEnds(rel, chain, uid);
    assert parts[..|parts| - 1] + [uid] == chain;
  }

  lemma ToldIsEntry(rel: Relation, table: set<Row>, uid: string, root: string, v: string)
    requires TellsPath(rel, table, uid, root, Split(v, SEP))
    ensures OldEntry(rel, table, uid, root, v)
  {
    hide RootChain;
    var parts := Split(v, SEP);
    var n := |parts| - 1;
    var chain := parts[..n] + [uid];
    assert chain[..|chain| - 1] + [parts[n]] == parts;
    assert OldEntryVia(rel, table, uid, root, v, chain, parts[n]);
  }

  /** The downgraded column of a file holds, under each root, exactly the entries that tell the whole
      way: all UIDs from the root to a parent, and a path in this parent. */
  lemma ColumnTellsPaths(rel: Relation, table: set<Row>, column: map<string, VfpDict>, uid: string, root: string, v: string)
    requires Downgraded(rel, table, column) && uid in column && !IsRoot(rel, uid)
    requires (forall u :: u in Nodes(rel) ==> Clean(u)) && forall row :: row in table ==> Clean(row.path)
    ensures root in column[uid] && v in column[uid][root] <==> TellsPath(rel, table, uid, root, Split(v, SEP))
  {
    hide RootChain, Clean, IsRoot, JoinedPath;
    if InDict(column[uid], root, v) {
      assert OldEntry(rel, table, uid, root, v);
      var chain, path :| OldEntryVia(rel, table, uid, root, v, chain, path);
      ChainInNodes(rel, chain, uid);
      assert Row(chain[|chain| - 2], uid, path) in table && Clean(Row(chain[|chain| - 2], uid, path).path);
      JoinedTells(rel, table, uid, root, v, chain, path);
    }
    if TellsPath(rel, table, uid, root, Split(v, SEP)) {
      ToldIsEntry(rel, table, uid, root, v);
      assert InDict(column[uid], root, v);
    }
  }

  /** The column of a file without parents names the file itself, and nothing else. */
  lemma RootColumn(rel: Relation, table: set<Row>, column: map<string, VfpDict>, uid: string, root: string, v: string)
    requires Downgraded(rel, table, column) && uid in column && forall p :: (p, uid) !in rel
    ensures root in column[uid] && v in column[uid][root] <==> root == uid && v == uid
  {
    assert IsRoot(rel, uid);
  }

  /** Empty elements of an entry are passed over, the others are kept in order. */
  lemma {:induction false} PartsKept(a: seq<string>, b: seq<string>)
    ensures NonEmptyParts(a + b) == NonEmptyParts(a) + NonEmptyParts(b)
    ensures NonEmptyParts([""]) == [] && forall p :: p != "" ==> NonEmptyParts([p]) == [p]
  {
    if a == [] {
      assert a + b == b;
    } else {
      PartsKept(a[1..], b);
      assert (a + b)[1..] == a[1..] + b;
    }
  }

  /** Whatever the old column says, the upgraded table relates stored files only, through the last
      two elements of an entry of the child. */
  lemma UpgradedRow(files: set<string>, column: map<string, VfpDict>, table: set<Row>, row: Row)
    requires Upgraded(files, column, table)
    ensures row in table <==>
      && row.child in files && row.parent in files
      && exists root, v :: InDict(column[row.child], root, v) && EndsWith(NonEmptyParts(Split(v, SEP)), row.parent, row.path)
  {
    if row in table {
      var root, v :| InDict(column[row.child], root, v) && ParsePath(files, row.child, v) == Some(row);
      assert EndsWith(NonEmptyParts(Split(v, SEP)), row.parent, row.path);
    }
    if root, v :| row.child in files && row.parent in files
                  && InDict(column[row.child], root, v) && EndsWith(NonEmptyParts(Split(v, SEP)), row.parent, row.path) {
      assert ParsePath(files, row.child, v) == Some(row);
    }
  }

  ghost predicate EndsWith(parts: seq<string>, parent: string, path: string) {
    |parts| >= 2 && parts[|parts| - 2] == parent && parts[|parts| - 1] == path
  }

  /** Both migrations one after the other, for a database with the given files. They get through
      exactly when every inclusion has a path and every file takes part in an inclusion: a firmware
      from which nothing was extracted gets no old column, and the upgrade fails. */
  method ThereAndBack(files: set<string>, pairs: seq<(string, string)>, table: set<Row>) returns (ok: bool, table': set<Row>)
    requires AcyclicRelation(Pairs(pairs)) && Nodes(Pairs(pairs)) <= files && forall u :: u in files ==> Clean(u)
    ensures ok <==> (forall pc :: pc in Pairs(pairs) ==> HasRow(table, pc.0, pc.1)) && files == Nodes(Pairs(pairs))
    ensures ok ==>
      (table' == table <==> forall row :: row in table ==> (row.parent, row.child) in Pairs(pairs) && Clean(row.path))
  {
    hide AcyclicRelation, Downgraded, Upgraded, Clean, HasRow;
    var column;
    ok, column := Downgrade(pairs, table);
    if !ok {
      return false, {};
    }
    ColumnsOfAll(pairs, table, column);
    ok, table' := Upgrade(files, column);
    if ok {
      assert files == Nodes(Pairs(pairs));
      RoundTrip(Pairs(pairs), table, column, table');
    }
  }

  lemma ColumnsOfAll(pairs: seq<(string, string)>, table: set<Row>, column: map<string, VfpDict>)
    requires Downgraded(Pairs(pairs), table, column)
    ensures column.Keys == Nodes(Pairs(pairs))
  {
  }

  /** A file whose name contains the separator: the table does not come back. */
  method SeparatorIsLost() returns (ok: bool, table': set<Row>)
    ensures ok && table' != {Row("fw", "x", "a|b")}
  {
    hide AcyclicRelation, ParsePath, Downgraded;
    var table := {Row("fw", "x", "a|b")};
    OneInclusion();
    ok, table' := ThereAndBack({"fw", "x"}, [("fw", "x")], table);
    assert "a|b"[1] == SEP;
    assert !Clean(Row("fw", "x", "a|b").path);
    assert HasRow(table, "fw", "x");
  }

  /** A firmware without extracted files: the upgrade does not get through. */
  method EmptyFirmwareFails() returns (ok: bool, table': set<Row>)
    ensures !ok
  {
    NoInclusion();
    ok, table' := ThereAndBack({"fw"}, [], {});
  }

  lemma NoInclusion()
    ensures Pairs([]) == {} && Nodes({}) == {} && AcyclicRelation({}) && Clean("fw")
  {
    LayerMonotone(ParentGraph({}), 0, |ParentGraph({})|);
    WellFoundedIsAcyclic(ParentGraph({}));
  }

  lemma OneInclusion()
    ensures Pairs([("fw", "x")]) == {("fw", "x")} && Nodes({("fw", "x")}) == {"fw", "x"}
    ensures AcyclicRelation({("fw", "x")}) && Clean("fw") && Clean("x")
  {
    var rel: Relation := {("fw", "x")};
    assert ("fw", "x") in Pairs([("fw", "x")]) by {
      assert [("fw", "x")][0] == ("fw", "x");
    }
    assert Nodes(rel) == {"fw", "x"};
    var g := ParentGraph(rel);
    assert g["fw"] == {} && g["x"] == {"fw"};
    WellFoundedUnfold(g, "fw");
    WellFoundedUnfold(g, "x");
    WellFoundedFixpoint(g);
    WellFoundedIsAcyclic(g);
  }
}
