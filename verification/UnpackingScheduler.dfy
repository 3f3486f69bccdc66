/** The scheduler object of src/scheduler/unpacking_scheduler.py: its methods change the shared
    dictionary, the queue and the database in place, and each is one step of the protocol. */
module UnpackingScheduler {
  import opened Common
  import opened Unpacker
  import opened UnpackingProtocol

  // ---- loops of the locked update ----

  ghost function FlushOf(db: Db, e: Entry, uid: string, parents: set<string>): Db
    requires uid in e.delayed && parents <= e.delayed[uid].Keys
  {
    db.(vfps := db.vfps + set p, path | p in parents && path in e.delayed[uid][p] :: Row(p, uid, path),
        included := db.included + set p | p in parents :: (p, uid))
  }

  /** Writes the paths that waited for `uid`. */
  method FlushDelayed(db: Db, e: Entry, uid: string) returns (db': Db)
    ensures db' == DbAfterFlush(db, e, uid)
  {
    db' := db;
    if uid in e.delayed {
      var todo := e.delayed[uid].Keys;
      while todo != {}
        invariant todo <= e.delayed[uid].Keys
        invariant db' == FlushOf(db, e, uid, e.delayed[uid].Keys - todo)
      {
        var parent :| parent in todo;
        var paths := e.delayed[uid][parent];
        ghost var seen := e.delayed[uid].Keys - todo;
        db' := AddPaths(db', parent, uid, paths);
        todo := todo - {parent};
        assert e.delayed[uid].Keys - todo == seen + {parent};
        FlushStep(db, e, uid, seen, parent);
      }
    }
  }

  lemma FlushStep(db: Db, e: Entry, uid: string, seen: set<string>, parent: string)
    requires uid in e.delayed && seen <= e.delayed[uid].Keys && parent in e.delayed[uid]
    ensures FlushOf(db, e, uid, seen + {parent}) == AddPaths(FlushOf(db, e, uid, seen), parent, uid, e.delayed[uid][parent])
  {
    var a, b := FlushOf(db, e, uid, seen + {parent}), AddPaths(FlushOf(db, e, uid, seen), parent, uid, e.delayed[uid][parent]);
    assert a.vfps == b.vfps;
    assert a.included == b.included;
  }

  /** Sorts the extracted objects into waiting, new and already unpacked ones. */
  method UpdateExtractedObjects(e: Entry, db: Db, extracted: seq<FileObject>, current: FileObject)
    returns (e': Entry, db': Db, kept: seq<FileObject>)
    requires ExtractedFrom(current, extracted)
    ensures e' == EntryAfterChildren(e, current.uid, extracted)
    ensures db' == DbAfterChildren(db, e, current.uid, extracted)
    ensures kept == Survivors(e, extracted)
  {
    assert DistinctUids(extracted);
    hide Survivors, EntryAfterChildren, DbAfterChildren, RemoveFirst, AddPaths, ExtractedFrom, DistinctUids;
    e', db', kept := e, db, extracted;
    EmptySurvivors(e);
    NothingExtracted(e, db, current.uid);
    assert extracted[..0] == [] && extracted[0..] == extracted;
    for k := 0 to |extracted|
      invariant e' == EntryAfterChildren(e, current.uid, extracted[..k])
      invariant db' == DbAfterChildren(db, e, current.uid, extracted[..k])
      invariant kept == Survivors(e, extracted[..k]) + extracted[k..]
    {
      var fo := extracted[k];
      OneMore(e, db, current, extracted, k);
      var paths := fo.vfp[current.uid];
      RemoveNext(e, extracted, k);
      if fo.uid in e'.remaining {
        kept := RemoveFirst(kept, fo);
        var waiting := if fo.uid in e'.delayed then e'.delayed[fo.uid] else map[];
        e' := e'.(delayed := e'.delayed[fo.uid := waiting[current.uid := paths]]);
      } else if fo.uid !in e'.done {
        e' := e'.(remaining := e'.remaining + {fo.uid});
      } else {
        kept := RemoveFirst(kept, fo);
        db' := AddPaths(db', current.uid, fo.uid, paths);
      }
    }
    assert extracted[..|extracted|] == extracted;
  }

  lemma EmptySurvivors(e: Entry)
    ensures Survivors(e, []) == []
  {
  }

  lemma NothingExtracted(e: Entry, db: Db, parent: string)
    ensures EntryAfterChildren(e, parent, []) == e && DbAfterChildren(db, e, parent, []) == db
  {
    assert DelayedAfter(e, parent, []) == e.delayed;
    assert KnownRows(e, parent, []) == {} && KnownPairs(e, parent, []) == {};
  }

  lemma NotYetSeen(e: Entry, extracted: seq<FileObject>, k: nat)
    requires DistinctUids(extracted) && k < |extracted|
    ensures extracted[k].uid !in Uids(extracted[..k]) && extracted[k].uid !in Uids(Survivors(e, extracted[..k]))
  {
    forall fo | fo in extracted[..k] ensures fo.uid != extracted[k].uid {
      var j :| 0 <= j < k && extracted[..k][j] == fo;
      assert extracted[j] == fo;
    }
  }

  lemma RemoveNext(e: Entry, extracted: seq<FileObject>, k: nat)
    requires DistinctUids(extracted) && k < |extracted|
    ensures var kept := Survivors(e, extracted[..k]) + extracted[k..];
      && extracted[k] in kept
      && (if extracted[k].uid in e.remaining || extracted[k].uid in e.done then RemoveFirst(kept, extracted[k]) else kept)
         == Survivors(e, extracted[..k + 1]) + extracted[k + 1..]
  {
    NotYetSeen(e, extracted, k);
    var before := Survivors(e, extracted[..k]);
    assert extracted[k] !in before;
    assert before + extracted[k..] == before + [extracted[k]] + extracted[k + 1..];
    RemoveMiddle(before, extracted[k], extracted[k + 1..]);
    SurvivorsNext(e, extracted, k);
  }

  lemma SurvivorsNext(e: Entry, extracted: seq<FileObject>, k: nat)
    requires k < |extracted|
    ensures Survivors(e, extracted[..k + 1]) ==
      if extracted[k].uid in e.remaining || extracted[k].uid in e.done then Survivors(e, extracted[..k])
      else Survivors(e, extracted[..k]) + [extracted[k]]
  {
    assert extracted[..k + 1][..k] == extracted[..k];
  }

  /** What the next object of the list adds. */
  lemma OneMore(e: Entry, db: Db, current: FileObject, extracted: seq<FileObject>, k: nat)
    requires ExtractedFrom(current, extracted) && k < |extracted|
    ensures var fo, e0, db0 := extracted[k], EntryAfterChildren(e, current.uid, extracted[..k]), DbAfterChildren(db, e, current.uid, extracted[..k]);
      var e1, db1 := EntryAfterChildren(e, current.uid, extracted[..k + 1]), DbAfterChildren(db, e, current.uid, extracted[..k + 1]);
      && current.uid in fo.vfp
      && e0.done == e.done && (fo.uid in e0.remaining <==> fo.uid in e.remaining)
      && (fo.uid in e.remaining ==>
          && e1 == e0.(delayed := e0.delayed[fo.uid := (if fo.uid in e0.delayed then e0.delayed[fo.uid] else map[])[current.uid := fo.vfp[current.uid]]])
          && db1 == db0)
      && (fo.uid !in e.remaining && fo.uid !in e.done ==> e1 == e0.(remaining := e0.remaining + {fo.uid}) && db1 == db0)
      && (fo.uid !in e.remaining && fo.uid in e.done ==> e1 == e0 && db1 == AddPaths(db0, current.uid, fo.uid, fo.vfp[current.uid]))
  {
    hide Survivors, AddPaths, DelayedAfter, KnownRows, KnownPairs;
    var fo := extracted[k];
    assert ChildOf(current, fo);
    NotYetSeen(e, extracted, k);
    SurvivorsNext(e, extracted, k);
    assert Uids(Survivors(e, extracted[..k]) + [fo]) == Uids(Survivors(e, extracted[..k])) + {fo.uid};
    MoreDelayed(e, current, extracted, k);
    MoreKnown(e, current, extracted, k);
    AddPathsIs(DbAfterChildren(db, e, current.uid, extracted[..k]), current.uid, fo.uid, fo.vfp[current.uid]);
  }

  lemma AddPathsIs(db: Db, parent: string, child: string, paths: seq<string>)
    ensures AddPaths(db, parent, child, paths) ==
      db.(vfps := db.vfps + RowsFor(parent, child, paths), included := db.included + {(parent, child)})
  {
  }

  lemma MoreKnown(e: Entry, current: FileObject, extracted: seq<FileObject>, k: nat)
    requires k < |extracted| && current.uid in extracted[k].vfp
    ensures var fo := extracted[k];
      var isKnown := fo.uid !in e.remaining && fo.uid in e.done;
      && KnownRows(e, current.uid, extracted[..k + 1]) == KnownRows(e, current.uid, extracted[..k])
           + (if isKnown then RowsFor(current.uid, fo.uid, fo.vfp[current.uid]) else {})
      && KnownPairs(e, current.uid, extracted[..k + 1]) == KnownPairs(e, current.uid, extracted[..k])
           + (if isKnown then {(current.uid, fo.uid)} else {})
  {
    hide RowsFor;
    assert extracted[..k + 1] == extracted[..k] + [extracted[k]];
  }

  lemma MoreDelayed(e: Entry, current: FileObject, extracted: seq<FileObject>, k: nat)
    requires ExtractedFrom(current, extracted) && k < |extracted|
    ensures var fo, d := extracted[k], DelayedAfter(e, current.uid, extracted[..k]);
      && current.uid in fo.vfp
      && DelayedAfter(e, current.uid, extracted[..k + 1]) ==
         if fo.uid in e.remaining
         then d[fo.uid := (if fo.uid in d then d[fo.uid] else map[])[current.uid := fo.vfp[current.uid]]]
         else d
  {
    hide DelayedFor, DistinctUids, Uids;
    var fo := extracted[k];
    assert ChildOf(current, fo);
    var d, d' := DelayedAfter(e, current.uid, extracted[..k]), DelayedAfter(e, current.uid, extracted[..k + 1]);
    MoreUids(extracted, k);
    forall u | u in d' && u != fo.uid ensures u in d && d'[u] == d[u] {
      DelayedSame(e, current, extracted, k, u);
    }
    if fo.uid in e.remaining {
      DelayedNew(e, current, extracted, k);
      var d1 := d[fo.uid := (if fo.uid in d then d[fo.uid] else map[])[current.uid := fo.vfp[current.uid]]];
      assert d'.Keys == d1.Keys;
      assert d'[fo.uid] == d1[fo.uid];
      assert d' == d1;
    } else {
      DelayedNotRemaining(e, current.uid, extracted[..k + 1], fo.uid);
      DelayedNotRemaining(e, current.uid, extracted[..k], fo.uid);
      assert d'.Keys == d.Keys;
      assert d' == d;
    }
  }

  lemma MoreUids(extracted: seq<FileObject>, k: nat)
    requires k < |extracted|
    ensures Uids(extracted[..k + 1]) == Uids(extracted[..k]) + {extracted[k].uid}
  {
    assert extracted[..k + 1] == extracted[..k] + [extracted[k]];
  }

  lemma DelayedNotRemaining(e: Entry, parent: string, children: seq<FileObject>, u: string)
    requires u !in e.remaining
    ensures DelayedFor(e, parent, children, u) == if u in e.delayed then e.delayed[u] else map[]
  {
  }

  lemma DelayedSame(e: Entry, current: FileObject, extracted: seq<FileObject>, k: nat, u: string)
    requires ExtractedFrom(current, extracted) && k < |extracted| && u != extracted[k].uid
    ensures DelayedFor(e, current.uid, extracted[..k + 1], u) == DelayedFor(e, current.uid, extracted[..k], u)
  {
    assert extracted[..k + 1] == extracted[..k] + [extracted[k]];
    forall a, b | a in extracted && b in extracted && a.uid == b.uid ensures a == b {
      var i :| 0 <= i < |extracted| && extracted[i] == a;
      var j :| 0 <= j < |extracted| && extracted[j] == b;
    }
    assert forall fo :: fo in extracted[..k] ==> fo in extracted;
    assert forall fo :: fo in extracted[..k + 1] && fo.uid == u ==> fo in extracted[..k];
    assert forall fo :: fo in extracted[..k] ==> fo in extracted[..k + 1];
  }

  lemma DelayedNew(e: Entry, current: FileObject, extracted: seq<FileObject>, k: nat)
    requires ExtractedFrom(current, extracted) && k < |extracted| && extracted[k].uid in e.remaining
    ensures var u := extracted[k].uid;
      && current.uid in extracted[k].vfp
      && DelayedFor(e, current.uid, extracted[..k + 1], u) ==
         (if u in e.delayed then e.delayed[u] else map[])[current.uid := extracted[k].vfp[current.uid]]
      && DelayedFor(e, current.uid, extracted[..k], u) == (if u in e.delayed then e.delayed[u] else map[])
  {
    var fo := extracted[k];
    assert ChildOf(current, fo);
    NotYetSeen(e, extracted, k);
    assert extracted[..k + 1] == extracted[..k] + [fo];
    assert fo in extracted[..k + 1];
    assert forall a :: a in extracted[..k] ==> a.uid in Uids(extracted[..k]);
  }

  // ---- the scheduler object ----

  class Scheduler {
    var currentlyExtracted: map<string, Entry>
    var inQueue: seq<FileObject>
    var workers: seq<Thread>
    var db: Db
    ghost var reported: map<string, set<Row>>
    ghost var cancelled: set<string>

    constructor (processes: nat, db: Db)
      requires DbConsistent(db)
      ensures Initial(Now()) && |workers| == processes && this.db == db
    {
      currentlyExtracted, inQueue, this.db := map[], [], db;
      workers := seq(processes, _ => Idle);
      reported, cancelled := map[], {};
    }

    ghost function Now(): State
      reads this
    {
      State(currentlyExtracted, inQueue, workers, db, reported, cancelled)
    }

    /** Any submission is accepted; the runs consider those with no task of an earlier one left. */
    method AddTask(uid: string)
      modifies this
      ensures Now() == SubmitTask(old(Now()), uid)
    {
      inQueue := inQueue + [FirmwareTask(uid)];
      reported, cancelled := reported[uid := {}], cancelled - {uid};
    }

    /** The first container without a pending task; none means NoFreeWorker is raised. */
    method GetFreeWorker() returns (found: bool, c: nat)
      ensures found ==> c < |workers| && workers[c].Idle? && forall d :: 0 <= d < c ==> !workers[d].Idle?
      ensures !found ==> forall d :: 0 <= d < |workers| ==> !workers[d].Idle?
    {
      c := 0;
      while c < |workers|
        invariant c <= |workers|
        invariant forall d :: 0 <= d < c ==> !workers[d].Idle?
      {
        if workers[c].Idle? {
          return true, c;
        }
        c := c + 1;
      }
      return false, 0;
    }

    /** The loop body of `extraction_loop` and the beginning of `work_thread`. `started` is false
        if no container is free, nothing is queued, or the task was cancelled. */
    method StartNext() returns (started: bool, c: nat)
      modifies this
      ensures Enabled(old(Now()), Start(c)) ==> Now() == StartTask(old(Now()), c)
      ensures !Enabled(old(Now()), Start(c)) ==> Now() == old(Now()) && !started
      ensures (exists d :: Enabled(old(Now()), Start(d))) ==> Enabled(old(Now()), Start(c))
      ensures started ==> c < |workers| && workers[c].Unpacking?
    {
      var found: bool;
      found, c := GetFreeWorker();
      if !found || inQueue == [] {
        return false, c;
      }
      var task := inQueue[0];
      inQueue := inQueue[1..];
      if task.isFirmware {
        if task.uid !in currentlyExtracted {
          currentlyExtracted := currentlyExtracted[task.uid := Entry({task.uid}, {}, map[])];
        }
      } else if task.root !in currentlyExtracted {
        return false, c;
      }
      workers := workers[c := Unpacking(task)];
      return true, c;
    }

    /** `add_object` after unpacking; a refused object leaves nothing to schedule. */
    method StoreObject(c: nat, extracted: seq<FileObject>)
      requires Enabled(Now(), Store(c, extracted))
      modifies this
      ensures Now() == StoreTask(old(Now()), c, extracted)
    {
      var task := workers[c].task;
      if CanAdd(db, task) {
        reported := reported[task.root := Reported(Now(), task.root) + EdgeRows(extracted)];
        db := AddObject(db, task);
        workers := workers[c := Stored(task, extracted)];
      } else {
        workers := workers[c := Stored(task, [])];
      }
    }

    /** The critical section. */
    method UpdateCurrentlyUnpacked(c: nat)
      requires Enabled(Now(), Update(c)) && ExtractedFrom(workers[c].task, workers[c].children)
      modifies this`currentlyExtracted, this`workers, this`db
      ensures Now() == UpdateTask(old(Now()), c)
    {
      hide EntryAfterChildren, DbAfterChildren, DbAfterFlush, Survivors;
      var task, children := workers[c].task, workers[c].children;
      if task.root !in currentlyExtracted {
        workers := workers[c := Scheduling([])];
        return;
      }
      var e := currentlyExtracted[task.root];
      db := FlushDelayed(db, e, task.uid);
      var e1 := e.(done := e.done + {task.uid});
      var e2, db2, kept := UpdateExtractedObjects(e1, db, children, task);
      db := db2;
      e2 := e2.(remaining := e2.remaining - {task.uid});
      if e2.remaining == {} {
        currentlyExtracted := currentlyExtracted - {task.root};
      } else {
        currentlyExtracted := currentlyExtracted[task.root := e2];
      }
      workers := workers[c := Scheduling(kept)];
    }

    /** One turn of the loop in `_schedule_extracted_files`. */
    method ScheduleNext(c: nat)
      requires Enabled(Now(), Enqueue(c))
      modifies this`inQueue, this`workers
      ensures Now() == EnqueueTask(old(Now()), c)
    {
      var rest := workers[c].rest;
      inQueue := inQueue + [rest[0]];
      workers := workers[c := Scheduling(rest[1..])];
    }

    /** `check_pending` for a thread that has ended. */
    method Join(c: nat)
      requires Enabled(Now(), Finish(c))
      modifies this`workers
      ensures Now() == FinishTask(old(Now()), c)
    {
      workers := workers[c := Idle];
    }

    method CancelUnpacking(root: string)
      modifies this
      ensures Now() == CancelRoot(old(Now()), root)
    {
      if root in currentlyExtracted {
        currentlyExtracted := currentlyExtracted - {root};
        cancelled := cancelled + {root};
      }
    }
  }
}
