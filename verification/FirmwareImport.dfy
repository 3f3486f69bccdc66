/** Export of a firmware and its hierarchical import (src/firmware_import_export.py). */
module FirmwareImport {
  import opened Graphs

  /** The file objects of an archive: UID -> the parents named in its virtual file paths. */
  type Archive = map<string, set<string>>

  ghost predicate IsOrphan(files: Archive, root: string, uid: string)
    requires uid in files
  {
    exists p :: p in files[uid] && p != root && p !in files
  }

  ghost function Retained(files: Archive, root: string): Archive {
    map uid | uid in files && !IsOrphan(files, root, uid) :: files[uid]
  }

  /** The firmware is stored first, so only the other parents have to be waited for. */
  ghost function WaitsFor(files: Archive, root: string): Graph {
    map uid | uid in files :: files[uid] - {root}
  }

  // ---- rounds ----

  /** What is still to be inserted after `n` rounds of the while loop. */
  ghost function AfterRounds(files: Archive, root: string, n: nat): set<string> {
    if n == 0 then files.Keys
    else
      var rest := AfterRounds(files, root, n - 1);
      rest - Addable(files, root, rest)
  }

  ghost function Addable(files: Archive, root: string, rest: set<string>): set<string> {
    set uid | uid in rest && uid in files && forall p :: p in files[uid] ==> p == root || (p in files && p !in rest)
  }

  /** The rounds insert the dependency layers one after the other. */
  lemma {:induction false} RoundsAreLayers(files: Archive, root: string, n: nat)
    ensures AfterRounds(files, root, n) == files.Keys - Layer(WaitsFor(files, root), n)
  {
    if n > 0 {
      RoundsAreLayers(files, root, n - 1);
      var g := WaitsFor(files, root);
      LayerMonotone(g, n - 1, n);
      var rest := AfterRounds(files, root, n - 1);
      forall uid | uid in files.Keys ensures uid in AfterRounds(files, root, n) <==> uid !in Layer(g, n) {
        assert uid in Layer(g, n) <==> g[uid] <= Layer(g, n - 1);
        assert g[uid] <= Layer(g, n - 1) <==> forall p :: p in files[uid] ==> p == root || p in Layer(g, n - 1);
        assert forall p :: p in Layer(g, n - 1) <==> p in files && p !in rest;
      }
    }
  }

  lemma LoopEnds(files: Archive, root: string)
    ensures (exists n: nat :: AfterRounds(files, root, n) == {}) <==> WellFounded(WaitsFor(files, root)) == files.Keys
  {
    var g := WaitsFor(files, root);
    if n: nat :| AfterRounds(files, root, n) == {} {
      RoundsAreLayers(files, root, n);
      WellFoundedFixpoint(g);
      LayerWithin(g, WellFounded(g), n);
      LayerMonotone(g, n, n);
      assert files.Keys <= Layer(g, n);
      assert WellFounded(g) <= g.Keys;
    }
    if WellFounded(g) == files.Keys {
      RoundsAreLayers(files, root, |g|);
      assert AfterRounds(files, root, |g|) == {};
    }
  }

  /** A parent of the file, other than the firmware, is dropped as an orphan. */
  ghost predicate BelowOrphan(files: Archive, root: string, uid: string)
    requires uid in files
  {
    exists p :: p in files[uid] && p != root && p in files && IsOrphan(files, root, p)
  }

  /** What the archive has to meet: no retained file lies directly below an orphan, and the retained
      files do not include each other in a circle. */
  ghost predicate Importable(files: Archive, root: string) {
    && (forall uid :: uid in files && !IsOrphan(files, root, uid) ==> !BelowOrphan(files, root, uid))
    && Acyclic(WaitsFor(Retained(files, root), root))
  }

  lemma RetainedClosed(files: Archive, root: string)
    ensures Closed(WaitsFor(Retained(files, root), root)) <==>
      forall uid :: uid in files && !IsOrphan(files, root, uid) ==> !BelowOrphan(files, root, uid)
  {
    hide IsOrphan;
    var kept := Retained(files, root);
    var g := WaitsFor(kept, root);
    forall uid | uid in kept ensures g[uid] <= g.Keys <==> !BelowOrphan(files, root, uid) {
      ParentsKnown(files, root, uid);
      assert forall p :: p in g[uid] <==> p in files[uid] && p != root;
      if p :| p in files[uid] && p != root && p in files && IsOrphan(files, root, p) {
        assert p in g[uid] && p !in g;
      }
      if p :| p in g[uid] && p !in g {
        assert p in files[uid] && p != root && p in files && IsOrphan(files, root, p);
      }
    }
  }

  lemma ParentsKnown(files: Archive, root: string, uid: string)
    requires uid in files && !IsOrphan(files, root, uid)
    ensures forall p :: p in files[uid] && p != root ==> p in files
  {
  }

  /** The import loop ends exactly for the importable archives; for any other there is something
      left to insert after any number of rounds. */
  lemma ImportEnds(files: Archive, root: string)
    ensures (exists n: nat :: AfterRounds(Retained(files, root), root, n) == {}) <==> Importable(files, root)
  {
    hide WellFounded, Acyclic, Closed, IsOrphan, BelowOrphan;
    var kept := Retained(files, root);
    var g := WaitsFor(kept, root);
    LoopEnds(kept, root);
    RetainedClosed(files, root);
    if WellFounded(g) == kept.Keys {
      WellFoundedIsAcyclic(g);
    }
    if Closed(g) && Acyclic(g) {
      AcyclicIsWellFounded(g);
    }
  }

  /** Which files are never inserted: exactly those that wait, over any number of parents, for a
      file that is not there or for themselves. */
  lemma NeverInserted(files: Archive, root: string, uid: string)
    requires uid in files
    ensures (forall n: nat :: uid in AfterRounds(files, root, n)) <==> !Sound(WaitsFor(files, root), uid)
  {
    var g := WaitsFor(files, root);
    WellFoundedIsSound(g, uid);
    RoundsAreLayers(files, root, |g|);
    if uid !in WellFounded(g) {
      WellFoundedFixpoint(g);
      forall n: nat ensures uid in AfterRounds(files, root, n) {
        LayerWithin(g, WellFounded(g), n);
        RoundsAreLayers(files, root, n);
      }
    }
  }

  /** A retained file below an orphan is never inserted, so the import does not end. */
  lemma ChildOfOrphanBlocks(files: Archive, root: string, uid: string)
    requires uid in files && !IsOrphan(files, root, uid) && BelowOrphan(files, root, uid)
    ensures forall n: nat :: uid in AfterRounds(Retained(files, root), root, n)
    ensures !exists n: nat :: AfterRounds(Retained(files, root), root, n) == {}
  {
    var kept := Retained(files, root);
    var g := WaitsFor(kept, root);
    var p :| p in files[uid] && p != root && p in files && IsOrphan(files, root, p);
    assert IsChain(g, [uid, p]) && [uid, p][1] !in g;
    NeverInserted(kept, root, uid);
  }

  /** The smallest such archive: the parent of "a" is missing, and "b" lies in "a". */
  lemma ImportRunsForever()
    ensures !Importable(map["a" := {"gone"}, "b" := {"a"}], "fw")
    ensures forall n: nat :: "b" in AfterRounds(Retained(map["a" := {"gone"}, "b" := {"a"}], "fw"), "fw", n)
  {
    var files: Archive := map["a" := {"gone"}, "b" := {"a"}];
    assert "gone" in files["a"] && "gone" != "fw" && "gone" !in files;
    assert IsOrphan(files, "fw", "a") && !IsOrphan(files, "fw", "b");
    assert "a" in files["b"] && BelowOrphan(files, "fw", "b");
    ChildOfOrphanBlocks(files, "fw", "b");
  }

  // ---- the import ----

  /** Each object comes once, after all its parents. */
  ghost predicate ParentsFirst(files: Archive, root: string, log: seq<string>) {
    forall i :: 0 <= i < |log| ==> log[i] in files && InsertedBefore(files, root, log, i)
  }

  ghost predicate InsertedBefore(files: Archive, root: string, log: seq<string>, i: nat)
    requires i < |log| && log[i] in files
  {
    forall p :: p in files[log[i]] ==> p == root || p in log[..i]
  }

  /** `_insert_objects_hierarchically`: orphans are left out, every other object is inserted
      exactly once and only after all its parents. The call returns exactly for importable archives
      (see ImportEnds). `log` lists the calls of `add_object`. */
  method InsertObjects(files: Archive, root: string) returns (count: nat, log: seq<string>)
    requires Importable(files, root)
    ensures Distinct(log) && ParentsFirst(files, root, log)
    ensures forall uid :: uid in log <==> uid in files && !IsOrphan(files, root, uid)
    ensures count == |Retained(files, root).Keys + {root}|
  {
    hide WellFounded, WaitsFor, IsOrphan, ParentsFirst, Distinct, Importable;
    ImportEnds(files, root);
    LoopEnds(Retained(files, root), root);
    var allUids := {root} + files.Keys;
    var orphans := set uid | uid in files && exists p :: p in files[uid] && p !in allUids;
    var kept := map uid | uid in files && uid !in orphans :: files[uid];
    OrphansAre(files, root);
    assert kept == Retained(files, root);
    count, log := InsertRounds(kept, root);
    RetainedOrder(files, root, log);
  }

  lemma RetainedOrder(files: Archive, root: string, log: seq<string>)
    requires ParentsFirst(Retained(files, root), root, log)
    ensures ParentsFirst(files, root, log)
  {
    hide IsOrphan;
    var kept := Retained(files, root);
    forall i | 0 <= i < |log| ensures log[i] in files && InsertedBefore(files, root, log, i) {
      assert log[i] in kept && InsertedBefore(kept, root, log, i);
    }
  }

  lemma OrphansAre(files: Archive, root: string)
    ensures forall uid :: uid in files ==>
      (IsOrphan(files, root, uid) <==> exists p :: p in files[uid] && p !in {root} + files.Keys)
  {
    forall uid | uid in files ensures IsOrphan(files, root, uid) <==> exists p :: p in files[uid] && p !in {root} + files.Keys {
      if p :| p in files[uid] && p != root && p !in files {
        assert p in files[uid] && p !in {root} + files.Keys;
      }
    }
  }

  /** The while loop. */
  method InsertRounds(files: Archive, root: string) returns (count: nat, log: seq<string>)
    requires WellFounded(WaitsFor(files, root)) == files.Keys
    ensures Distinct(log) && ParentsFirst(files, root, log)
    ensures forall uid :: uid in log <==> uid in files
    ensures count == |files.Keys + {root}|
  {
    hide WellFounded, WaitsFor, ParentsFirst, Distinct;
    NothingInserted(files, root);
    var rest, added := files.Keys, {root};
    log := [];
    while rest != {}
      invariant rest <= files.Keys && added == files.Keys - rest + {root}
      invariant Distinct(log) && ParentsFirst(files, root, log)
      invariant forall uid :: uid in log <==> uid in files && uid !in rest
    {
      var addable := set uid | uid in rest && forall p :: p in files[uid] ==> p in added;
      SomeAddable(files, root, rest, added);
      log, added, rest := InsertRound(files, root, addable, log, added, rest);
    }
    assert added == files.Keys + {root};
    count := |added|;
  }

  lemma NothingInserted(files: Archive, root: string)
    ensures Distinct([]) && ParentsFirst(files, root, [])
  {
  }

  /** Every round finds something to insert. */
  lemma SomeAddable(files: Archive, root: string, rest: set<string>, added: set<string>)
    requires WellFounded(WaitsFor(files, root)) == files.Keys
    requires rest != {} && rest <= files.Keys && added == files.Keys - rest + {root}
    ensures exists uid :: uid in rest && forall p :: p in files[uid] ==> p in added
  {
    var g := WaitsFor(files, root);
    if forall uid :: uid in rest ==> exists p :: p in files[uid] && p !in added {
      assert forall uid, p :: uid in rest && p in files[uid] && p !in added ==> p in g[uid] && p !in g.Keys - rest;
      WellFoundedLeast(g, g.Keys - rest);
      assert false;
    }
  }

  /** The inner loop inserts the addable objects in any order. */
  method InsertRound(files: Archive, root: string, addable: set<string>, log0: seq<string>, added0: set<string>, rest0: set<string>)
    returns (log: seq<string>, added: set<string>, rest: set<string>)
    requires addable <= rest0 <= files.Keys && Distinct(log0) && ParentsFirst(files, root, log0)
    requires forall uid :: uid in log0 ==> uid !in rest0
    requires forall uid :: uid in addable ==> forall p :: p in files[uid] ==> p == root || p in log0
    ensures rest == rest0 - addable && added == added0 + addable
    ensures Distinct(log) && ParentsFirst(files, root, log)
    ensures forall uid :: uid in log <==> uid in log0 || uid in addable
  {
    log, added, rest := log0, added0, rest0;
    var todo := addable;
    while todo != {}
      invariant todo <= addable && rest == rest0 - (addable - todo) && added == added0 + (addable - todo)
      invariant Distinct(log) && ParentsFirst(files, root, log)
      invariant forall uid :: uid in log <==> uid in log0 || uid in addable - todo
    {
      var uid :| uid in todo;
      AppendInserted(files, root, log, uid);
      log := log + [uid];
      added := added + {uid};
      rest := rest - {uid};
      todo := todo - {uid};
    }
  }

  lemma AppendInserted(files: Archive, root: string, log: seq<string>, uid: string)
    requires uid in files && uid !in log && Distinct(log) && ParentsFirst(files, root, log)
    requires forall p :: p in files[uid] ==> p == root || p in log
    ensures Distinct(log + [uid]) && ParentsFirst(files, root, log + [uid])
  {
    var r := log + [uid];
    forall i | 0 <= i < |r| ensures r[i] in files && InsertedBefore(files, root, r, i) {
      assert r[..i] == log[..i];
      if i < |log| {
        assert InsertedBefore(files, root, log, i);
      } else {
        assert log[..i] == log;
      }
    }
  }

  // ---- the export ----

  /** The stored virtual file paths of a file: parent UID -> paths. */
  type VfpDict = map<string, seq<string>>

  /** `filter_vpf_dict` */
  function FilterVfps(vfps: VfpDict, parents: set<string>): VfpDict {
    map p | p in vfps && p in parents :: vfps[p]
  }

  /** `_fetch_db_data` followed by `from_json`: the archive of firmware `root` with `files`. */
  function ExportArchive(stored: map<string, VfpDict>, root: string, files: set<string>): Archive
    requires files <= stored.Keys
  {
    map uid | uid in files :: FilterVfps(stored[uid], files + {root}).Keys
  }

  /** The archive names, for each file, exactly the parents that are in the firmware or are the
      firmware itself, and keeps all paths in them. */
  lemma ExportKeepsParents(stored: map<string, VfpDict>, root: string, files: set<string>, uid: string, p: string)
    requires files <= stored.Keys && uid in files
    ensures var archive := ExportArchive(stored, root, files);
      && archive.Keys == files
      && (p in archive[uid] <==> p in stored[uid] && (p == root || p in files))
      && (p in archive[uid] ==> FilterVfps(stored[uid], files + {root})[p] == stored[uid][p])
  {
  }

  /** The inclusions among the files of the firmware. */
  ghost function InnerParents(stored: map<string, VfpDict>, files: set<string>): Graph
    requires files <= stored.Keys
  {
    map uid | uid in files :: stored[uid].Keys * files
  }

  /** An exported archive has no orphans, and if the inclusions of the firmware have no cycle the
      import can insert all of it. */
  lemma ExportIsImportable(stored: map<string, VfpDict>, root: string, files: set<string>)
    requires files <= stored.Keys && root !in files
    ensures var archive := ExportArchive(stored, root, files);
      && (forall uid :: uid in archive ==> !IsOrphan(archive, root, uid))
      && Retained(archive, root) == archive
      && WaitsFor(archive, root) == InnerParents(stored, files)
      && (Acyclic(InnerParents(stored, files)) <==> Importable(archive, root))
  {
    var archive := ExportArchive(stored, root, files);
    var g := InnerParents(stored, files);
    forall uid | uid in files ensures archive[uid] - {root} == stored[uid].Keys * files {
      assert FilterVfps(stored[uid], files + {root}).Keys == stored[uid].Keys * (files + {root});
    }
    assert WaitsFor(archive, root) == g;
    assert Retained(archive, root) == archive;
    assert Closed(g);
    RetainedClosed(archive, root);
  }

  /** Exporting a firmware without inclusion cycles and importing the archive stores all its files,
      each once and after its parents, and reports their number plus one. */
  method ExportAndImport(stored: map<string, VfpDict>, root: string, files: set<string>) returns (count: nat, log: seq<string>)
    requires files <= stored.Keys && root !in files && Acyclic(InnerParents(stored, files))
    ensures count == |files| + 1
    ensures Distinct(log) && (forall uid :: uid in log <==> uid in files)
    ensures forall i, p :: 0 <= i < |log| && p in stored[log[i]] && p in files ==> p in log[..i]
  {
    ExportIsImportable(stored, root, files);
    var archive := ExportArchive(stored, root, files);
    count, log := InsertObjects(archive, root);
    forall i, p | 0 <= i < |log| && log[i] in files && p in stored[log[i]] && p in files ensures p in log[..i] {
      assert InsertedBefore(archive, root, log, i);
      assert p in archive[log[i]];
    }
    assert forall i :: 0 <= i < |log| ==> log[i] in files;
    assert archive.Keys == files;
    assert |files + {root}| == |files| + 1;
  }
}
