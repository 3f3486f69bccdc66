/** The guarantees of the unpacking scheduler over every run: any number of firmwares, threads
    and interleavings, any extraction results, and cancellation at any point. */
module UnpackingRuns {
  import opened Common
  import opened Unpacker
  import opened UnpackingProtocol
  import opened UnpackingInvariant

  lemma {:induction false} NothingPending(threads: seq<Thread>)
    requires forall c :: 0 <= c < |threads| ==> threads[c].Idle?
    ensures ThreadPending(threads) == multiset{}
  {
    if threads != [] {
      NothingPending(threads[..|threads| - 1]);
    }
  }

  lemma InitialInv(s: State)
    requires Initial(s)
    ensures Inv(s)
  {
    NothingPending(s.threads);
    assert Pending(s) == multiset{};
  }

  lemma StepKeeps(s: State, a: Action)
    requires Inv(s) && Enabled(s, a)
    ensures Inv(Apply(s, a))
  {
    hide Inv, SubmitTask, StartTask, StoreTask, UpdateTask, EnqueueTask, FinishTask, CancelRoot;
    match a
    case Submit(uid) => SubmitKeeps(s, uid);
    case Start(c) => StartKeeps(s, c);
    case Store(c, extracted) => StoreKeeps(s, c, extracted);
    case Update(c) => UpdateKeeps(s, c);
    case Enqueue(c) => EnqueueKeeps(s, c);
    case Finish(c) => FinishKeeps(s, c);
    case Cancel(root) => CancelKeeps(s, root);
  }

  /** Every state of every run satisfies the invariant. */
  lemma {:induction false} RunInvariant(run: seq<State>, i: nat)
    requires IsRun(run) && i < |run|
    ensures Inv(run[i])
  {
    hide Inv, Initial;
    if i == 0 {
      InitialInv(run[0]);
    } else {
      RunInvariant(run, i - 1);
      assert Next(run[i - 1], run[i - 1 + 1]);
      var a :| Enabled(run[i - 1], a) && run[i] == Apply(run[i - 1], a);
      StepKeeps(run[i - 1], a);
    }
  }

  /** A row is with the thread that reported it, which has yet to take the lock. */
  ghost predicate Held(s: State, root: string, row: Row) {
    exists c :: 0 <= c < |s.threads| && s.threads[c].Stored? && s.threads[c].task.root == root
                && row in EdgeRows(s.threads[c].children)
  }

  /** No path is ever lost: as long as a firmware is being unpacked, each row reported for it is
      stored, or parked for a child that is still to come, or carried by the child's pending task,
      or still in the hands of the reporting thread. */
  lemma NoPathLost(run: seq<State>, i: nat, root: string, row: Row)
    requires IsRun(run) && i < |run| && root in run[i].entries && row in Reported(run[i], root)
    ensures var s := run[i];
      || row in s.db.vfps
      || Parked(s.entries[root], row)
      || (exists x :: x in Pending(s) && x.root == root && x.uid == row.child && row in RowsOf(x))
      || Held(s, root, row)
  {
    RunInvariant(run, i);
    var s := run[i];
    assert Active(s, root);
    if Carried(PendingOf(s, root), row) {
      var x :| x in PendingOf(s, root) && row in RowsOf(x);
      assert x in Pending(s) && x.root == root && x.uid == row.child;
    }
  }

  /** `remaining` is exactly what is queued or in work, disjoint from `done`, and nothing is
      pending twice. */
  lemma RemainingIsPending(run: seq<State>, i: nat, root: string)
    requires IsRun(run) && i < |run| && root in run[i].entries
    ensures var s, e := run[i], run[i].entries[root];
      && e.remaining != {} && e.remaining !! e.done
      && (forall u :: u in e.remaining <==> exists x :: x in Pending(s) && x.root == root && x.uid == u)
      && (forall x, y :: x in Pending(s) && y in Pending(s) && x.root == y.root && x.uid == y.uid ==> x == y)
      && (forall x :: Pending(s)[x] <= 1)
  {
    RunInvariant(run, i);
    var s, e := run[i], run[i].entries[root];
    assert Active(s, root);
    forall u ensures u in e.remaining <==> exists x :: x in Pending(s) && x.root == root && x.uid == u {
      if u in e.remaining {
        var x :| x in PendingOf(s, root) && x.uid == u;
        assert x in Pending(s);
      }
      if x :| x in Pending(s) && x.root == root && x.uid == u {
        assert x in PendingOf(s, root);
      }
    }
  }

  // ---- each file is unpacked once ----

  /** The file has been picked up in the current submission of `root`: a thread has it in work, or
      it is done. */
  ghost predicate PickedUp(s: State, root: string, uid: string) {
    root in s.entries && (uid in s.entries[root].done || InWork(s.threads, root, uid))
  }

  ghost predicate InWork(threads: seq<Thread>, root: string, uid: string) {
    exists c :: 0 <= c < |threads| && WorksOn(threads[c], root, uid)
  }

  ghost predicate WorksOn(th: Thread, root: string, uid: string) {
    (th.Unpacking? || th.Stored?) && th.task.root == root && th.task.uid == uid
  }

  /** What was picked up stays picked up for as long as the submission lives. */
  lemma PickedUpStays(s: State, a: Action, root: string, uid: string)
    requires Enabled(s, a) && PickedUp(s, root, uid) && root in Apply(s, a).entries
    ensures PickedUp(Apply(s, a), root, uid)
  {
    hide Pending, UpdatedDb, UpdatedEntry, UpdatedChildren, CanAdd, ExtractedFrom;
    var s' := Apply(s, a);
    if a.Update? {
      UpdateGrowsDone(s, a.c, root);
    }
    if InWork(s.threads, root, uid) {
      var c :| 0 <= c < |s.threads| && WorksOn(s.threads[c], root, uid);
      assert a == Update(c) || WorksOn(s'.threads[c], root, uid);
    }
  }

  lemma UpdateGrowsDone(s: State, c: nat, root: string)
    requires Enabled(s, Update(c)) && root in s.entries && root in UpdateTask(s, c).entries
    ensures var done := s.entries[root].done;
      UpdateTask(s, c).entries[root].done == if s.threads[c].task.root == root then done + {s.threads[c].task.uid} else done
  {
    hide DelayedAfter, Survivors, UpdatedDb, UpdatedChildren;
  }

  lemma {:induction false} PickedUpForever(run: seq<State>, i: nat, j: nat, root: string, uid: string)
    requires IsRun(run) && i <= j < |run| && PickedUp(run[i], root, uid)
    requires forall k :: i <= k <= j ==> root in run[k].entries
    ensures PickedUp(run[j], root, uid)
    decreases j
  {
    hide PickedUp, Initial, Enabled, Apply;
    if i < j {
      PickedUpForever(run, i, j - 1, root, uid);
      assert Next(run[j - 1], run[j - 1 + 1]);
      var a :| Enabled(run[j - 1], a) && run[j] == Apply(run[j - 1], a);
      PickedUpStays(run[j - 1], a, root, uid);
    }
  }

  lemma PickedUpNotQueued(s: State, root: string, uid: string, y: FileObject)
    requires Inv(s) && PickedUp(s, root, uid) && y in s.queue
    ensures y.root != root || y.uid != uid
  {
    hide View, Unique, DbConsistent, TaskOk, WaitingOk, ThreadOk, HeldRows, PendingOf, ThreadPending;
    assert Active(s, root);
    if uid in s.entries[root].done {
      DoneNotQueued(s, root, uid, y);
    } else {
      var c :| 0 <= c < |s.threads| && WorksOn(s.threads[c], root, uid);
      InWorkNotQueued(s, c, y);
    }
  }

  lemma DoneNotQueued(s: State, root: string, uid: string, y: FileObject)
    requires root in s.entries && Active(s, root) && uid in s.entries[root].done && y in s.queue
    ensures y.root != root || y.uid != uid
  {
    if y.root == root {
      TaskRemaining(s, root, y);
    }
  }

  lemma InWorkNotQueued(s: State, c: nat, y: FileObject)
    requires Unique(Pending(s)) && c < |s.threads| && (s.threads[c].Unpacking? || s.threads[c].Stored?) && y in s.queue
    ensures y.root != s.threads[c].task.root || y.uid != s.threads[c].task.uid
  {
    ThreadTaskPending(s.threads, c);
    var x := s.threads[c].task;
    assert x in Pending(s) && y in Pending(s);
    assert x == y ==> Pending(s)[y] >= 2;
  }

  /** Each file is unpacked once in a submission: from the moment a thread has its task, through
      the end of the submission, no task for the same file is queued again, so none can be started
      again. */
  lemma UnpackedOnce(run: seq<State>, i: nat, j: nat, c: nat)
    requires IsRun(run) && i <= j < |run| && c < |run[i].threads|
    requires run[i].threads[c].Unpacking? || run[i].threads[c].Stored?
    requires forall k :: i <= k <= j ==> run[i].threads[c].task.root in run[k].entries
    ensures var x := run[i].threads[c].task;
      forall y :: y in run[j].queue ==> y.root != x.root || y.uid != x.uid
  {
    hide Inv;
    var x := run[i].threads[c].task;
    assert WorksOn(run[i].threads[c], x.root, x.uid);
    assert InWork(run[i].threads, x.root, x.uid);
    PickedUpForever(run, i, j, x.root, x.uid);
    RunInvariant(run, j);
    forall y | y in run[j].queue ensures y.root != x.root || y.uid != x.uid {
      PickedUpNotQueued(run[j], x.root, x.uid, y);
    }
  }

  /** Two starts of tasks for the same file belong to different submissions: between them the
      firmware's entry was gone. */
  lemma StartedOnce(run: seq<State>, i: nat, j: nat, c: nat, d: nat)
    requires IsRun(run) && i < j < |run|
    requires Enabled(run[i], Start(c)) && run[i + 1] == Apply(run[i], Start(c)) && run[i + 1].threads[c].Unpacking?
    requires Enabled(run[j], Start(d)) && run[j].queue[0].root == run[i].queue[0].root && run[j].queue[0].uid == run[i].queue[0].uid
    ensures exists k :: i < k <= j && run[i].queue[0].root !in run[k].entries
  {
    hide Inv, Initial;
    var y := run[j].queue[0];
    assert y in run[j].queue;
    if forall k :: i < k <= j ==> run[i].queue[0].root in run[k].entries {
      UnpackedOnce(run, i + 1, j, c);
      assert false;
    }
  }

  /** A task is dropped only if its firmware was cancelled after it was submitted. */
  lemma NoLiveTaskDropped(run: seq<State>, i: nat, c: nat)
    requires IsRun(run) && i < |run| && Enabled(run[i], Start(c)) && run[i].queue[0].root !in run[i].cancelled
    ensures Apply(run[i], Start(c)).threads[c] == Unpacking(run[i].queue[0])
    ensures run[i].queue[0].root in Apply(run[i], Start(c)).entries
  {
    RunInvariant(run, i);
    var s := run[i];
    assert s.queue[0] in Pending(s);
    assert TaskOk(s.db, s.queue[0]);
  }

  /** Storing an extracted file never fails: its parent and its firmware are in the database. Only
      a firmware can be refused, and then nothing is scheduled for it. */
  lemma OnlyFirmwareIsRefused(run: seq<State>, i: nat, c: nat, extracted: seq<FileObject>)
    requires IsRun(run) && i < |run| && Enabled(run[i], Store(c, extracted))
    ensures var task := run[i].threads[c].task;
      && (!task.isFirmware ==> CanAdd(run[i].db, task))
      && (!CanAdd(run[i].db, task) ==> Apply(run[i], Store(c, extracted)).threads[c].children == [])
  {
    RunInvariant(run, i);
    var s := run[i];
    TaskStillPending(s, c);
    assert TaskOk(s.db, s.threads[c].task);
  }

  /** In every state both tables relate the same pairs of stored objects; every row added under
      the lock names a parent and a child that were stored before. */
  lemma DatabaseConsistent(run: seq<State>, i: nat, c: nat)
    requires IsRun(run) && i < |run|
    ensures DbConsistent(run[i].db)
    ensures Enabled(run[i], Update(c)) ==>
      var db, db' := run[i].db, Apply(run[i], Update(c)).db;
      && db'.objects == db.objects
      && (forall row :: row in db'.vfps - db.vfps ==> row.parent in db.objects && row.child in db.objects)
      && (forall pc :: pc in db'.included - db.included ==> pc.0 in db.objects && pc.1 in db.objects)
  {
    hide View, Unique, WaitingOk, Pending, UpdatedEntry, KnownRows, KnownPairs, FlushedRows, FlushedPairs;
    RunInvariant(run, i);
    if Enabled(run[i], Update(c)) {
      StepKeeps(run[i], Update(c));
      var db' := Apply(run[i], Update(c)).db;
      forall pc | pc in db'.included ensures pc.0 in db'.objects && pc.1 in db'.objects {
        var row :| row in db'.vfps && row.parent == pc.0 && row.child == pc.1;
      }
    }
  }

  /** When the last remaining file of a firmware has been handled and its entry is popped, every
      reported row is in the database, and the files done are exactly those reachable from the
      firmware over reported rows. */
  lemma Completion(run: seq<State>, i: nat, c: nat)
    requires IsRun(run) && i < |run| && Enabled(run[i], Update(c))
    requires run[i].threads[c].task.root in run[i].entries
    requires run[i].threads[c].task.root !in Apply(run[i], Update(c)).entries
    ensures var s, s', task := run[i], Apply(run[i], Update(c)), run[i].threads[c].task;
      && Reported(s', task.root) == Reported(s, task.root) <= s'.db.vfps
      && (forall x :: x in Pending(s') ==> x.root != task.root)
      && (forall u :: u in s.entries[task.root].done + {task.uid} <==> Reachable(Reported(s, task.root), task.root, u))
  {
    hide View, Unique, WaitingOk, DbConsistent, Pending, HeldRows, UpdatedDb, TaskOk, Survivors;
    RunInvariant(run, i);
    var s, s', task, children := run[i], UpdateTask(run[i], c), run[i].threads[c].task, run[i].threads[c].children;
    var root := task.root;
    assert Active(s, root);
    var e' := UpdatedEntry(s.entries[root], task, children);
    assert e'.remaining == {};
    UpdateOwnView(s, c);
    ViewComplete(root, e', PendingOf(s', root), HeldRows(s'.threads, root), s'.db, Reported(s, root));
    forall x | x in Pending(s') ensures x.root != root {
      if x.root == root {
        ViewHasTask(root, e', PendingOf(s', root), HeldRows(s'.threads, root), s'.db, Reported(s, root), x);
        assert false;
      }
    }
  }

  // ---- what single steps do ----

  /** Storing an object in any state: a firmware is refused exactly if its UID is stored as a mere
      file, any other file exactly if its firmware or a parent is not stored. A refused object
      changes nothing and its extracted files are forgotten; otherwise the object, its paths and its
      parents are stored, the extracted files are kept, and nothing else changes. */
  lemma StoreDecides(s: State, c: nat, extracted: seq<FileObject>)
    requires Enabled(s, Store(c, extracted))
    ensures var task, s' := s.threads[c].task, Apply(s, Store(c, extracted));
      var refused := if task.isFirmware then task.uid in s.db.objects && task.uid !in s.db.firmware
                     else task.root !in s.db.objects || exists p :: (p in task.parents || p in task.vfp) && p !in s.db.objects;
      && s'.queue == s.queue && s'.entries == s.entries && s'.cancelled == s.cancelled
      && (refused ==> s' == s.(threads := s.threads[c := Stored(task, [])]))
      && (!refused ==>
          && s'.threads == s.threads[c := Stored(task, extracted)]
          && s'.db.objects == s.db.objects + {task.uid}
          && s'.db.firmware == s.db.firmware + (if task.isFirmware then {task.uid} else {})
          && (forall row :: row in s'.db.vfps <==>
              row in s.db.vfps || (!task.isFirmware && row.child == task.uid && row.parent in task.vfp && row.path in task.vfp[row.parent]))
          && (forall pc :: pc in s'.db.included <==>
              pc in s.db.included || (!task.isFirmware && pc.1 == task.uid && pc.0 in task.parents)))
  {
    hide ExtractedFrom, Pending, EdgeRows;
    var task, s' := s.threads[c].task, Apply(s, Store(c, extracted));
    if CanAdd(s.db, task) && !task.isFirmware {
      forall row: Row | row.child == task.uid && row.parent in task.vfp && row.path in task.vfp[row.parent] ensures row in s'.db.vfps {
        assert row == Row(row.parent, task.uid, row.path);
      }
    }
  }

  /** In a run only a firmware stored as a mere file is refused; every other object is stored, and
      what was extracted from it goes on. */
  lemma StoredInRuns(run: seq<State>, i: nat, c: nat, extracted: seq<FileObject>)
    requires IsRun(run) && i < |run| && Enabled(run[i], Store(c, extracted))
    ensures var task, db, s' := run[i].threads[c].task, run[i].db, Apply(run[i], Store(c, extracted));
      if task.isFirmware && task.uid in db.objects && task.uid !in db.firmware
      then s'.threads[c] == Stored(task, []) && s'.db == db
      else s'.threads[c] == Stored(task, extracted) && task.uid in s'.db.objects && (task.isFirmware ==> task.uid in s'.db.firmware)
  {
    hide ExtractedFrom, Pending;
    StoreDecides(run[i], c, extracted);
    OnlyFirmwareIsRefused(run, i, c, extracted);
  }

  /** A thread goes from idle over unpacking, storing and scheduling back to idle, with one task;
      no step touches another thread. */
  lemma ThreadLifecycle(s: State, a: Action, d: nat)
    requires Enabled(s, a) && d < |s.threads|
    ensures var s' := Apply(s, a);
      && |s'.threads| == |s.threads|
      && (a.Submit? || a.Cancel? || a.c != d ==> s'.threads[d] == s.threads[d])
      && (a == Start(d) ==> s'.queue == s.queue[1..] && (s'.threads[d] == Idle || s'.threads[d] == Unpacking(s.queue[0])))
      && (a.Store? && a.c == d ==> s'.threads[d].Stored? && s'.threads[d].task == s.threads[d].task)
      && (a == Update(d) ==> s'.threads[d].Scheduling? && forall x :: x in s'.threads[d].rest ==> x in s.threads[d].children)
      && (a == Enqueue(d) ==> s'.queue == s.queue + [s.threads[d].rest[0]] && s'.threads[d] == Scheduling(s.threads[d].rest[1..]))
      && (a == Finish(d) ==> s'.threads[d] == Idle)
  {
    hide ExtractedFrom, Pending, CanAdd, UpdatedDb, UpdatedEntry, AddObject;
  }

  /** Submitting queues one task for the firmware itself, at the end, and changes nothing else that
      the scheduler looks at. */
  lemma SubmitQueues(s: State, uid: string)
    requires Enabled(s, Submit(uid))
    ensures var s' := Apply(s, Submit(uid));
      && |s'.queue| == |s.queue| + 1 && s'.queue[..|s.queue|] == s.queue
      && s'.queue[|s.queue|].isFirmware && s'.queue[|s.queue|].uid == uid && s'.queue[|s.queue|].root == uid
      && s'.queue[|s.queue|].depth == 0
      && s'.entries == s.entries && s'.threads == s.threads && s'.db == s.db
  {
  }

  /** Starting a task keeps what is known about all firmwares; a firmware without an entry gets one
      with itself remaining, and an extracted file is started exactly if its firmware has an entry. */
  lemma StartDecides(s: State, c: nat)
    requires Enabled(s, Start(c))
    ensures var task, s' := s.queue[0], Apply(s, Start(c));
      && (forall r :: r in s.entries ==> r in s'.entries && s'.entries[r] == s.entries[r])
      && (forall r :: r in s'.entries && r !in s.entries ==>
          task.isFirmware && r == task.uid && s'.entries[r].remaining == {r} && s'.entries[r].done == {} && s'.entries[r].delayed == map[])
      && (s'.threads[c] == Unpacking(task) <==> task.isFirmware || task.root in s.entries)
      && (task.isFirmware ==> task.uid in s'.entries)
      && s'.db == s.db
  {
  }

  /** Cancelling ends the submission at once and touches nothing else. */
  lemma CancelEnds(s: State, root: string)
    ensures var s' := Apply(s, Cancel(root));
      && root !in s'.entries && s'.entries == s.entries - {root}
      && (root in s.entries ==> root in s'.cancelled)
      && s'.queue == s.queue && s'.threads == s.threads && s'.db == s.db
  {
  }

  /** As long as a cancelled firmware is not submitted again, none of its tasks is started, and a
      thread that still had one schedules nothing and writes nothing under the lock. */
  lemma CancelledStops(run: seq<State>, i: nat, c: nat)
    requires IsRun(run) && i < |run|
    ensures Enabled(run[i], Start(c)) && run[i].queue[0].root in run[i].cancelled ==>
      var s' := Apply(run[i], Start(c)); s'.threads[c] == Idle && s'.entries == run[i].entries
    ensures Enabled(run[i], Update(c)) && run[i].threads[c].task.root in run[i].cancelled ==>
      var s' := Apply(run[i], Update(c)); s'.threads[c] == Scheduling([]) && s'.db == run[i].db && s'.entries == run[i].entries
  {
    hide View, Unique, DbConsistent, UpdatedDb, UpdatedEntry, UpdatedChildren;
    RunInvariant(run, i);
    var s := run[i];
    if Enabled(s, Start(c)) && s.queue[0].root in s.cancelled {
      assert s.queue[0] in Pending(s) && s.queue[0] in s.queue;
      assert s.queue[0].isFirmware ==> WaitingOk(s, s.queue[0]);
    }
  }

  /** The queue is served in order: between two states of a run it only grows at its end and
      shrinks at its front. */
  lemma {:induction false} QueueInOrder(run: seq<State>, i: nat, j: nat) returns (added: seq<FileObject>, taken: nat)
    requires IsRun(run) && i <= j < |run|
    ensures taken <= |run[i].queue + added| && run[j].queue == (run[i].queue + added)[taken..]
    decreases j
  {
    hide Initial, Enabled, Apply;
    if i == j {
      added, taken := [], 0;
    } else {
      added, taken := QueueInOrder(run, i, j - 1);
      assert Next(run[j - 1], run[j - 1 + 1]);
      var a :| Enabled(run[j - 1], a) && run[j] == Apply(run[j - 1], a);
      QueueStep(run[j - 1], a);
      var q, q' := run[j - 1].queue, run[j].queue;
      if q != [] && q' == q[1..] {
        taken := taken + 1;
      } else {
        added := added + q'[|q|..];
      }
    }
  }

  lemma QueueStep(s: State, a: Action)
    requires Enabled(s, a)
    ensures var q' := Apply(s, a).queue; (s.queue != [] && q' == s.queue[1..]) || s.queue <= q'
  {
    hide ExtractedFrom, Pending, CanAdd, UpdatedDb, UpdatedEntry, AddObject, UpdatedChildren;
  }

  /** The scheduler never gets stuck: with at least one container, and anything queued or in work,
      some step other than a submission or a cancellation is possible (whatever the extractor
      yields). */
  lemma NeverStuck(run: seq<State>, i: nat) returns (a: Action)
    requires IsRun(run) && i < |run| && |run[i].threads| > 0
    requires run[i].queue != [] || exists c :: 0 <= c < |run[i].threads| && !run[i].threads[c].Idle?
    ensures Enabled(run[i], a) && !a.Submit? && !a.Cancel?
  {
    var s := run[i];
    if c :| 0 <= c < |s.threads| && !s.threads[c].Idle? {
      match s.threads[c] {
        case Unpacking(task) =>
          a := Store(c, []);
        case Stored(_, _) =>
          a := Update(c);
        case Scheduling(rest) =>
          a := if rest == [] then Finish(c) else Enqueue(c);
      }
    } else {
      a := Start(0);
    }
  }
}
