/** What every step of the unpacking protocol keeps, and what follows for whole runs. */
module UnpackingInvariant {
  import opened Common
  import opened Unpacker
  import opened UnpackingProtocol

  // ---- reachability over reported rows ----

  ghost predicate IsPath(rows: set<Row>, p: seq<string>) {
    && p != []
    && forall i :: 0 <= i < |p| - 1 ==> Edge(rows, p[i], p[i + 1])
  }

  ghost predicate Edge(rows: set<Row>, a: string, b: string) {
    exists row :: row in rows && row.parent == a && row.child == b
  }

  ghost predicate Reachable(rows: set<Row>, root: string, x: string) {
    exists p :: IsPath(rows, p) && p[0] == root && p[|p| - 1] == x
  }

  lemma ReachableSelf(rows: set<Row>, root: string)
    ensures Reachable(rows, root, root)
  {
    assert IsPath(rows, [root]);
  }

  lemma ReachableStep(rows: set<Row>, root: string, a: string, b: string)
    requires Reachable(rows, root, a) && Edge(rows, a, b)
    ensures Reachable(rows, root, b)
  {
    var p :| IsPath(rows, p) && p[0] == root && p[|p| - 1] == a;
    assert IsPath(rows, p + [b]);
  }

  lemma ReachableMore(rows: set<Row>, rows': set<Row>, root: string, x: string)
    requires Reachable(rows, root, x) && rows <= rows'
    ensures Reachable(rows', root, x)
  {
    var p :| IsPath(rows, p) && p[0] == root && p[|p| - 1] == x;
    forall i | 0 <= i < |p| - 1 ensures Edge(rows', p[i], p[i + 1]) {
      assert Edge(rows, p[i], p[i + 1]);
    }
    assert IsPath(rows', p);
  }

  lemma {:induction false} ReachableWithin(rows: set<Row>, p: seq<string>, s: set<string>)
    requires IsPath(rows, p) && p[0] in s
    requires forall row :: row in rows && row.parent in s ==> row.child in s
    ensures p[|p| - 1] in s
  {
    if |p| > 1 {
      assert Edge(rows, p[0], p[1]);
      forall i | 0 <= i < |p[1..]| - 1 ensures Edge(rows, p[1..][i], p[1..][i + 1]) {
        assert Edge(rows, p[i + 1], p[i + 1 + 1]);
      }
      ReachableWithin(rows, p[1..], s);
    }
  }

  // ---- one firmware ----

  /** The row waits for its child, which is still to be stored. */
  ghost predicate Parked(e: Entry, row: Row) {
    && row.child in e.remaining && row.child in e.delayed
    && row.parent in e.delayed[row.child] && row.path in e.delayed[row.child][row.parent]
  }

  /** The row travels with the child's own task. */
  ghost predicate Carried(pend: set<FileObject>, row: Row) {
    exists x :: x in pend && row in RowsOf(x)
  }

  /** The state of one firmware's unpacking: its entry, its pending objects, the rows held by
      threads that have not taken the lock yet, and the rows reported so far. */
  ghost predicate View(root: string, e: Entry, pend: set<FileObject>, held: set<Row>, db: Db, rep: set<Row>) {
    && e.remaining !! e.done
    && e.remaining == (set x | x in pend :: x.uid)
    && e.done <= db.objects
    && root in e.done + e.remaining
    && (forall c, p :: c in e.delayed && p in e.delayed[c] ==> p in e.done && e.delayed[c][p] != [])
    && held <= rep && (forall row :: row in held ==> row.parent in e.remaining)
    && (forall row :: row in rep && row !in held ==> row.parent in e.done && row.child in e.done + e.remaining)
    && (forall u :: u in e.done + e.remaining ==> Reachable(rep, root, u))
    && forall row :: row in rep ==> row in db.vfps || Parked(e, row) || Carried(pend, row) || row in held
  }

  /** With nothing remaining, every reported row is stored and `done` is the reachable set. */
  lemma ViewComplete(root: string, e: Entry, pend: set<FileObject>, held: set<Row>, db: Db, rep: set<Row>)
    requires View(root, e, pend, held, db, rep) && e.remaining == {}
    ensures rep <= db.vfps
    ensures forall u :: u in e.done <==> Reachable(rep, root, u)
  {
    assert forall x :: x in pend ==> x.uid in e.remaining;
    forall u | Reachable(rep, root, u) ensures u in e.done {
      var p :| IsPath(rep, p) && p[0] == root && p[|p| - 1] == u;
      ReachableWithin(rep, p, e.done);
    }
  }

  ghost predicate DbGrows(db: Db, db': Db) {
    db.objects <= db'.objects && db.vfps <= db'.vfps
  }

  lemma ViewFrame(root: string, e: Entry, pend: set<FileObject>, held: set<Row>, db: Db, rep: set<Row>, db': Db)
    requires View(root, e, pend, held, db, rep) && DbGrows(db, db')
    ensures View(root, e, pend, held, db', rep)
  {
  }

  // ---- the locked update for its own firmware ----

  /** What holds when a thread takes the lock with `task` and `children`. */
  ghost predicate Ready(root: string, e: Entry, pend: set<FileObject>, held: set<Row>, db: Db, rep: set<Row>,
                        task: FileObject, children: seq<FileObject>) {
    && View(root, e, pend, held, db, rep)
    && task in pend && (forall x :: x in pend && x.uid == task.uid ==> x == task)
    && ExtractedFrom(task, children) && EdgeRows(children) <= held
    && task.uid in db.objects && RowsOf(task) <= db.vfps
  }

  ghost function PendingAfter(e: Entry, pend: set<FileObject>, task: FileObject, children: seq<FileObject>): set<FileObject> {
    pend - {task} + set x | x in UpdatedChildren(e, task, children)
  }

  lemma UpdatedRemaining(root: string, e: Entry, pend: set<FileObject>, held: set<Row>, db: Db, rep: set<Row>,
                         task: FileObject, children: seq<FileObject>)
    requires Ready(root, e, pend, held, db, rep, task, children)
    ensures var e' := UpdatedEntry(e, task, children);
      && e'.remaining !! e'.done && e'.done == e.done + {task.uid}
      && e'.remaining == e.remaining - {task.uid} + Uids(UpdatedChildren(e, task, children))
      && e'.remaining == (set x | x in PendingAfter(e, pend, task, children) :: x.uid)
      && task.uid in e.remaining
  {
    assert task.uid in e.remaining;
    var kept := UpdatedChildren(e, task, children);
    assert forall u :: u in Uids(kept) ==> u !in e.remaining && u !in e.done && u != task.uid;
    var pend' := PendingAfter(e, pend, task, children);
    var e' := UpdatedEntry(e, task, children);
    forall u | u in e'.remaining ensures exists x :: x in pend' && x.uid == u {
      if u in Uids(kept) {
        var x :| x in kept && x.uid == u;
        assert x in pend';
      } else {
        var x :| x in pend && x.uid == u;
        assert x in pend';
      }
    }
  }

  /** The paths reported for a child that is being unpacked are parked for it. */
  lemma ParkedChild(e: Entry, task: FileObject, children: seq<FileObject>, fo: FileObject)
    requires ExtractedFrom(task, children) && fo in children && fo.uid in e.remaining
    ensures var d := DelayedAfter(e, task.uid, children);
      fo.uid in d && task.uid in d[fo.uid] && d[fo.uid][task.uid] == fo.vfp[task.uid]
  {
    assert fo.uid in Uids(children) && task.uid in fo.vfp;
    forall fo' | fo' in children && fo'.uid == fo.uid ensures fo' == fo {
      var i :| 0 <= i < |children| && children[i] == fo;
      var j :| 0 <= j < |children| && children[j] == fo';
    }
  }

  /** Parking adds entries of this parent only, and all of them non-empty. */
  lemma DelayedKept(e: Entry, task: FileObject, children: seq<FileObject>, c: string, p: string)
    requires ExtractedFrom(task, children)
    requires c in DelayedAfter(e, task.uid, children)
    ensures var d := DelayedAfter(e, task.uid, children);
      && (p != task.uid ==> (p in d[c] <==> c in e.delayed && p in e.delayed[c]))
      && (p != task.uid && p in d[c] ==> d[c][p] == e.delayed[c][p])
      && (p == task.uid && p in d[c] && (c in e.delayed ==> p !in e.delayed[c]) ==> d[c][p] != [])
  {
  }

  lemma UpdateView(root: string, e: Entry, pend: set<FileObject>, held: set<Row>, db: Db, rep: set<Row>,
                   task: FileObject, children: seq<FileObject>, held': set<Row>)
    requires Ready(root, e, pend, held, db, rep, task, children)
    requires held - EdgeRows(children) <= held' <= held
    requires forall row :: row in held' ==> row.parent != task.uid
    ensures View(root, UpdatedEntry(e, task, children), PendingAfter(e, pend, task, children), held',
                 UpdatedDb(db, e, task, children), rep)
  {
    UpdatedRemaining(root, e, pend, held, db, rep, task, children);
    var e1 := e.(done := e.done + {task.uid});
    var e' := UpdatedEntry(e, task, children);
    var db' := UpdatedDb(db, e, task, children);
    var pend' := PendingAfter(e, pend, task, children);
    assert e'.delayed == DelayedAfter(e1, task.uid, children);
    forall c, p | c in e'.delayed && p in e'.delayed[c] ensures p in e'.done && e'.delayed[c][p] != [] {
      DelayedKept(e1, task, children, c, p);
    }
    forall row | row in EdgeRows(children)
      ensures row.parent == task.uid
      ensures row.child in e'.done + e'.remaining
      ensures row in db'.vfps || Parked(e', row) || Carried(pend', row)
    {
      ChildRowSafe(e, task, children, row, db, pend);
    }
    forall row | row in rep && row !in EdgeRows(children)
      ensures row in db'.vfps || Parked(e', row) || Carried(pend', row) || row in held'
    {
      OldRowSafe(root, e, pend, held, db, rep, task, children, row);
    }
    forall u | u in e'.done + e'.remaining ensures Reachable(rep, root, u) {
      if u !in e.done + e.remaining {
        var fo :| fo in UpdatedChildren(e, task, children) && fo.uid == u;
        ChildEdge(task, children, fo, rep);
        ReachableStep(rep, root, task.uid, u);
      }
    }
  }

  lemma ChildEdge(task: FileObject, children: seq<FileObject>, fo: FileObject, rep: set<Row>)
    requires ExtractedFrom(task, children) && fo in children && EdgeRows(children) <= rep
    ensures Edge(rep, task.uid, fo.uid)
  {
    assert ChildOf(task, fo);
    var path := fo.vfp[task.uid][0];
    assert Row(task.uid, fo.uid, path) in RowsOf(fo);
  }

  lemma ChildRowSafe(e: Entry, task: FileObject, children: seq<FileObject>, row: Row, db: Db, pend: set<FileObject>)
    requires ExtractedFrom(task, children) && row in EdgeRows(children) && task.uid in e.remaining
    ensures var e', db' := UpdatedEntry(e, task, children), UpdatedDb(db, e, task, children);
      && row.parent == task.uid
      && row.child in e'.done + e'.remaining
      && (row in db'.vfps || Parked(e', row) || Carried(PendingAfter(e, pend, task, children), row))
  {
    var fo :| fo in children && row in RowsOf(fo);
    assert ChildOf(task, fo);
    var e1 := e.(done := e.done + {task.uid});
    if fo.uid in e1.remaining {
      ParkedChild(e1, task, children, fo);
    } else if fo.uid in e1.done {
      assert row in RowsFor(task.uid, fo.uid, fo.vfp[task.uid]);
      assert row in KnownRows(e1, task.uid, children);
    } else {
      assert fo in UpdatedChildren(e, task, children);
      assert fo in PendingAfter(e, pend, task, children);
      assert fo.uid in Uids(UpdatedChildren(e, task, children));
    }
  }

  lemma OldRowSafe(root: string, e: Entry, pend: set<FileObject>, held: set<Row>, db: Db, rep: set<Row>,
                   task: FileObject, children: seq<FileObject>, row: Row)
    requires Ready(root, e, pend, held, db, rep, task, children) && row in rep && row !in EdgeRows(children)
    ensures row in UpdatedDb(db, e, task, children).vfps || Parked(UpdatedEntry(e, task, children), row)
            || Carried(PendingAfter(e, pend, task, children), row) || row in held
  {
    if row in db.vfps || row in held {
    } else if Parked(e, row) {
      if row.child == task.uid {
        assert row in FlushedRows(e, task.uid);
      } else {
        var e1 := e.(done := e.done + {task.uid});
        DelayedKept(e1, task, children, row.child, row.parent);
        UpdatedRemaining(root, e, pend, held, db, rep, task, children);
        assert row.parent in e.done && task.uid in e.remaining;
      }
    } else {
      var x :| x in pend && row in RowsOf(x);
      assert x != task ==> x in PendingAfter(e, pend, task, children);
    }
  }

  // ---- all firmwares together ----

  ghost function PendingOf(s: State, root: string): set<FileObject> {
    set x | x in Pending(s) && x.root == root
  }

  /** The rows that threads of this firmware hold before they take the lock. */
  ghost function HeldRows(threads: seq<Thread>, root: string): set<Row> {
    set c, row | 0 <= c < |threads| && threads[c].Stored? && threads[c].task.root == root
                 && row in EdgeRows(threads[c].children) :: row
  }

  ghost predicate TaskOk(db: Db, x: FileObject) {
    if x.isFirmware then x == FirmwareTask(x.uid)
    else
      && x.root in db.objects
      && |x.parents| == 1 && x.parents[0] in db.objects
      && x.vfp.Keys == {x.parents[0]} && x.vfp[x.parents[0]] != []
  }

  ghost predicate Live(s: State, root: string) {
    root in s.entries || root in s.cancelled
  }

  ghost predicate ThreadOk(s: State, th: Thread) {
    match th
    case Idle => true
    case Unpacking(task) => Live(s, task.root)
    case Stored(task, children) =>
      && Live(s, task.root)
      && ExtractedFrom(task, children)
      && task.uid in s.db.objects && RowsOf(task) <= s.db.vfps
    case Scheduling(rest) => forall x :: x in rest ==> !x.isFirmware
  }

  /** No object is pending twice. */
  ghost predicate Unique(pending: multiset<FileObject>) {
    && (forall x :: pending[x] <= 1)
    && forall x, y :: x in pending && y in pending && x.root == y.root && x.uid == y.uid ==> x == y
  }

  /** A firmware waiting in the queue is alone with its root, and its history is empty. */
  ghost predicate WaitingOk(s: State, x: FileObject) {
    && x.root !in s.entries && x.root !in s.cancelled && Reported(s, x.root) == {}
    && PendingOf(s, x.root) == {x}
  }

  ghost predicate Active(s: State, root: string)
    requires root in s.entries
  {
    && s.entries[root].remaining != {}
    && View(root, s.entries[root], PendingOf(s, root), HeldRows(s.threads, root), s.db, Reported(s, root))
  }

  /** Everything but the views of the single firmwares. */
  ghost predicate Global(s: State) {
    && DbConsistent(s.db)
    && Unique(Pending(s))
    && (forall x :: x in Pending(s) ==> TaskOk(s.db, x))
    && (forall x :: x in Pending(s) && !x.isFirmware ==> Live(s, x.root))
    && (forall c :: 0 <= c < |s.threads| ==> ThreadOk(s, s.threads[c]))
    && (forall x :: x in s.queue && x.isFirmware ==> WaitingOk(s, x))
    && s.cancelled !! s.entries.Keys
  }

  ghost predicate Inv(s: State) {
    && Global(s)
    && forall root :: root in s.entries ==> Active(s, root)
  }

  // ---- pending objects and threads ----

  lemma {:induction false} ThreadPendingUpdate(threads: seq<Thread>, c: nat, th: Thread)
    requires c < |threads|
    ensures Contents(threads[c]) <= ThreadPending(threads)
    ensures ThreadPending(threads[c := th]) == ThreadPending(threads) - Contents(threads[c]) + Contents(th)
  {
    hide Contents;
    var n := |threads| - 1;
    var rest, last := ThreadPending(threads[..n]), Contents(threads[n]);
    if c < n {
      ThreadPendingUpdate(threads[..n], c, th);
      assert threads[c := th][..n] == threads[..n][c := th];
      ReplacedIn(rest, last, Contents(threads[c]), Contents(th));
    } else {
      assert threads[c := th][..n] == threads[..n];
      ReplacedIn(last, rest, Contents(threads[c]), Contents(th));
    }
  }

  lemma ReplacedIn<T>(m: multiset<T>, others: multiset<T>, before: multiset<T>, after: multiset<T>)
    requires before <= m
    ensures before <= m + others
    ensures (m - before + after) + others == m + others - before + after
  {
  }

  lemma {:induction false} ThreadTaskPending(threads: seq<Thread>, c: nat)
    requires c < |threads|
    ensures Contents(threads[c]) <= ThreadPending(threads)
  {
    ThreadPendingUpdate(threads, c, threads[c]);
  }

  /** Two threads never work on the same task. */
  lemma TasksDiffer(s: State, c: nat, d: nat)
    requires (forall x :: ThreadPending(s.threads)[x] <= 1) && c < |s.threads| && d < |s.threads| && c != d
    requires s.threads[c].Unpacking? || s.threads[c].Stored?
    requires s.threads[d].Unpacking? || s.threads[d].Stored?
    ensures s.threads[c].task != s.threads[d].task
  {
    var t := s.threads[c].task;
    ThreadPendingUpdate(s.threads, c, Idle);
    ThreadTaskPending(s.threads[c := Idle], d);
    assert s.threads[d].task == t ==> ThreadPending(s.threads)[t] >= 2;
  }

  lemma HeldRowsUpdate(threads: seq<Thread>, c: nat, th: Thread, root: string)
    requires c < |threads|
    ensures var old_ := if threads[c].Stored? && threads[c].task.root == root then EdgeRows(threads[c].children) else {};
      var new_ := if th.Stored? && th.task.root == root then EdgeRows(th.children) else {};
      && HeldRows(threads, root) - old_ + new_ <= HeldRows(threads[c := th], root) <= HeldRows(threads, root) + new_
  {
    var threads' := threads[c := th];
    forall row | row in HeldRows(threads, root)
      ensures row in HeldRows(threads', root) || (threads[c].Stored? && threads[c].task.root == root && row in EdgeRows(threads[c].children))
    {
      var d :| 0 <= d < |threads| && threads[d].Stored? && threads[d].task.root == root && row in EdgeRows(threads[d].children);
      assert d != c ==> threads'[d] == threads[d];
    }
    forall row | row in HeldRows(threads', root)
      ensures row in HeldRows(threads, root) || (th.Stored? && th.task.root == root && row in EdgeRows(th.children))
    {
      var d :| 0 <= d < |threads| && threads'[d].Stored? && threads'[d].task.root == root && row in EdgeRows(threads'[d].children);
      assert d != c ==> threads'[d] == threads[d];
    }
    if th.Stored? && th.task.root == root {
      assert threads'[c] == th;
    }
  }

  // ---- the steps keep the invariant ----

  ghost predicate SameView(s: State, s': State, root: string) {
    && root in s.entries && root in s'.entries && s'.entries[root] == s.entries[root]
    && PendingOf(s', root) == PendingOf(s, root)
    && HeldRows(s'.threads, root) == HeldRows(s.threads, root)
    && Reported(s', root) == Reported(s, root)
    && DbGrows(s.db, s'.db)
  }

  lemma ActiveFrame(s: State, s': State, root: string)
    requires SameView(s, s', root) && Active(s, root)
    ensures Active(s', root)
  {
    ViewFrame(root, s.entries[root], PendingOf(s, root), HeldRows(s.threads, root), s.db, Reported(s, root), s'.db);
  }

  lemma TaskOkGrows(db: Db, db': Db, x: FileObject)
    requires TaskOk(db, x) && DbGrows(db, db')
    ensures TaskOk(db', x)
  {
  }

  lemma FrameAll(s: State, s': State)
    requires Inv(s) && Global(s')
    requires forall root :: root in s'.entries ==> SameView(s, s', root)
    ensures Inv(s')
  {
    forall root | root in s'.entries ensures Active(s', root) {
      ActiveFrame(s, s', root);
    }
  }

  lemma OtherThreadsOk(s: State, s': State, c: nat)
    requires (forall d :: 0 <= d < |s.threads| ==> ThreadOk(s, s.threads[d])) && c < |s.threads|
    requires c < |s'.threads| && s'.threads == s.threads[c := s'.threads[c]]
    requires DbGrows(s.db, s'.db)
    requires forall r :: Live(s, r) ==> Live(s', r)
    requires ThreadOk(s', s'.threads[c])
    ensures forall d :: 0 <= d < |s'.threads| ==> ThreadOk(s', s'.threads[d])
  {
    forall d | 0 <= d < |s'.threads| ensures ThreadOk(s', s'.threads[d]) {
      if d != c {
        assert ThreadOk(s, s.threads[d]);
      }
    }
  }

  lemma HeldRowsSame(threads: seq<Thread>, c: nat, th: Thread)
    requires c < |threads| && !threads[c].Stored? && !th.Stored?
    ensures forall root :: HeldRows(threads[c := th], root) == HeldRows(threads, root)
  {
    forall root ensures HeldRows(threads[c := th], root) == HeldRows(threads, root) {
      HeldRowsUpdate(threads, c, th, root);
    }
  }

  /** Steps that only pass an object on, from the queue to a thread or back. */
  lemma PassOn(s: State, s': State, c: nat)
    requires Inv(s) && c < |s.threads|
    requires c < |s'.threads| && s' == s.(queue := s'.queue, threads := s.threads[c := s'.threads[c]])
    requires !s.threads[c].Stored? && !s'.threads[c].Stored?
    requires Pending(s') == Pending(s)
    requires forall x :: x in s'.queue && x.isFirmware ==> x in s.queue
    requires ThreadOk(s', s'.threads[c])
    ensures Inv(s')
  {
    hide View, Unique, DbConsistent, TaskOk, WaitingOk, Active;
    PassOnGlobal(s, s', c);
    HeldRowsSame(s.threads, c, s'.threads[c]);
    FrameAll(s, s');
  }

  lemma PassOnGlobal(s: State, s': State, c: nat)
    requires Global(s) && c < |s.threads|
    requires c < |s'.threads| && s' == s.(queue := s'.queue, threads := s.threads[c := s'.threads[c]])
    requires Pending(s') == Pending(s)
    requires forall x :: x in s'.queue && x.isFirmware ==> x in s.queue
    requires ThreadOk(s', s'.threads[c])
    ensures Global(s')
  {
    forall x | x in s'.queue && x.isFirmware ensures WaitingOk(s', x) {
      assert WaitingOk(s, x);
    }
    OtherThreadsOk(s, s', c);
  }

  lemma EnqueueKeeps(s: State, c: nat)
    requires Inv(s) && Enabled(s, Enqueue(c))
    ensures Inv(EnqueueTask(s, c))
  {
    hide Inv, Pending;
    var s', rest := EnqueueTask(s, c), s.threads[c].rest;
    ThreadIsOk(s, c);
    EnqueuePending(s, c);
    assert rest == [rest[0]] + rest[1..];
    PassOn(s, s', c);
  }

  lemma ThreadIsOk(s: State, c: nat)
    requires Inv(s) && c < |s.threads|
    ensures ThreadOk(s, s.threads[c])
  {
    hide ThreadOk, WaitingOk, Active, DbConsistent, Unique;
  }

  lemma EnqueuePending(s: State, c: nat)
    requires Enabled(s, Enqueue(c))
    ensures Pending(EnqueueTask(s, c)) == Pending(s)
  {
    hide ThreadPending;
    var s', rest := EnqueueTask(s, c), s.threads[c].rest;
    ThreadPendingUpdate(s.threads, c, Scheduling(rest[1..]));
    assert rest == [rest[0]] + rest[1..];
    assert Contents(s.threads[c]) == multiset{rest[0]} + multiset(rest[1..]);
    assert multiset(s'.queue) == multiset(s.queue) + multiset{rest[0]};
    PassedOn(multiset(s.queue), multiset{rest[0]}, multiset(rest[1..]), ThreadPending(s.threads));
  }

  lemma PassedOn<T>(queue: multiset<T>, one: multiset<T>, rest: multiset<T>, threads: multiset<T>)
    requires one + rest <= threads
    ensures (queue + one) + (threads - (one + rest) + rest) == queue + threads
  {
  }

  lemma FinishPending(s: State, c: nat)
    requires Enabled(s, Finish(c))
    ensures Pending(FinishTask(s, c)) == Pending(s)
  {
    hide ThreadPending;
    ThreadPendingUpdate(s.threads, c, Idle);
    PutBack(ThreadPending(s.threads), multiset{});
  }

  lemma FinishKeeps(s: State, c: nat)
    requires Inv(s) && Enabled(s, Finish(c))
    ensures Inv(FinishTask(s, c))
  {
    hide Inv, Pending;
    FinishPending(s, c);
    PassOn(s, FinishTask(s, c), c);
  }

  lemma QueueHead(s: State, c: nat)
    requires c < |s.threads| && s.queue != [] && s.threads[c].Idle?
    ensures s.queue[0] in Pending(s)
    ensures multiset(s.queue) == multiset{s.queue[0]} + multiset(s.queue[1..])
    ensures Pending(s.(queue := s.queue[1..])) == Pending(s) - multiset{s.queue[0]}
    ensures Pending(s.(queue := s.queue[1..], threads := s.threads[c := Unpacking(s.queue[0])])) == Pending(s)
  {
    assert s.queue == [s.queue[0]] + s.queue[1..];
    ThreadPendingUpdate(s.threads, c, Unpacking(s.queue[0]));
  }

  lemma StartKeeps(s: State, c: nat)
    requires Inv(s) && Enabled(s, Start(c))
    ensures Inv(StartTask(s, c))
  {
    hide Inv, Pending;
    var s', task := StartTask(s, c), s.queue[0];
    QueueHead(s, c);
    if task.isFirmware {
      StartFirmwareKeeps(s, c);
    } else if task.root !in s.entries {
      DropKeeps(s, c);
    } else {
      PassOn(s, s', c);
    }
  }

  lemma DropKeeps(s: State, c: nat)
    requires Inv(s) && Enabled(s, Start(c)) && !s.queue[0].isFirmware && s.queue[0].root !in s.entries
    ensures Inv(StartTask(s, c))
  {
    hide Global, Active, PendingOf, HeldRows;
    DropGlobal(s, c);
    FrameAll(s, StartTask(s, c));
  }

  lemma DropGlobal(s: State, c: nat)
    requires Global(s) && Enabled(s, Start(c)) && !s.queue[0].isFirmware && s.queue[0].root !in s.entries
    ensures Global(StartTask(s, c))
    ensures forall root :: root in s.entries ==> PendingOf(StartTask(s, c), root) == PendingOf(s, root)
  {
    hide Unique, DbConsistent, TaskOk, Pending, PendingOf;
    var s', task := StartTask(s, c), s.queue[0];
    QueueHead(s, c);
    UniqueLess(Pending(s), Pending(s'));
    assert Live(s, task.root);
    forall root | root != task.root ensures PendingOf(s', root) == PendingOf(s, root) {
      PendingWithout(s, s', task, root);
    }
    forall x | x in s'.queue && x.isFirmware ensures WaitingOk(s', x) {
      assert WaitingOk(s, x);
    }
    forall d | 0 <= d < |s'.threads| ensures ThreadOk(s', s'.threads[d]) {
      assert ThreadOk(s, s.threads[d]);
    }
  }

  lemma PendingWithout(s: State, s': State, task: FileObject, root: string)
    requires Pending(s') == Pending(s) - multiset{task} && task.root != root
    ensures PendingOf(s', root) == PendingOf(s, root)
  {
  }

  lemma StartFirmwareKeeps(s: State, c: nat)
    requires Inv(s) && Enabled(s, Start(c)) && s.queue[0].isFirmware
    ensures Inv(StartTask(s, c))
  {
    hide View, Global, HeldRows, Pending;
    var s', task := StartTask(s, c), s.queue[0];
    var root := task.root;
    StartFirmwareGlobal(s, c);
    HeldRowsSame(s.threads, c, Unpacking(task));
    NothingHeld(s, root);
    FreshView(root, task, s.db);
    assert Active(s', root);
    forall r | r in s'.entries ensures Active(s', r) {
      if r != root {
        assert SameView(s, s', r);
        ActiveFrame(s, s', r);
      }
    }
  }

  lemma FreshView(root: string, task: FileObject, db: Db)
    requires task.uid == root
    ensures View(root, Entry({root}, {}, map[]), {task}, {}, db, {})
  {
    ReachableSelf({}, root);
  }

  lemma UniqueLess(m: multiset<FileObject>, m': multiset<FileObject>)
    requires Unique(m) && m' <= m
    ensures Unique(m')
  {
  }

  lemma UniqueMore(m: multiset<FileObject>, x: FileObject)
    requires Unique(m) && forall y :: y in m ==> y.root != x.root || y.uid != x.uid
    ensures Unique(m + multiset{x})
  {
  }

  lemma NothingHeld(s: State, root: string)
    requires Global(s) && !Live(s, root)
    ensures HeldRows(s.threads, root) == {}
  {
    assert forall d :: 0 <= d < |s.threads| && s.threads[d].Stored? ==> ThreadOk(s, s.threads[d]);
  }

  lemma StartFirmwareGlobal(s: State, c: nat)
    requires Global(s) && Enabled(s, Start(c)) && s.queue[0].isFirmware
    ensures var s', task := StartTask(s, c), s.queue[0];
      && Global(s') && task.root == task.uid && !Live(s, task.root) && Reported(s, task.root) == {}
      && s'.entries == s.entries[task.root := Entry({task.root}, {}, map[])]
      && s'.threads == s.threads[c := Unpacking(task)]
      && Pending(s') == Pending(s) && PendingOf(s', task.root) == {task}
  {
    hide Unique, DbConsistent, Pending;
    var s', task := StartTask(s, c), s.queue[0];
    QueueHead(s, c);
    assert WaitingOk(s, task) && TaskOk(s.db, task);
    SamePending(s.(queue := s.queue[1..], threads := s.threads[c := Unpacking(s.queue[0])]), s');
    OtherThreadsOk(s, s', c);
    forall x | x in s'.queue && x.isFirmware ensures WaitingOk(s', x) {
      OnceInQueue(s, x);
      assert WaitingOk(s, x);
    }
  }

  /** The head of the queue does not occur again behind itself. */
  lemma OnceInQueue(s: State, x: FileObject)
    requires Global(s) && s.queue != [] && s.queue[0].isFirmware && x in s.queue[1..] && x.isFirmware
    ensures x.root != s.queue[0].root
  {
    assert s.queue == [s.queue[0]] + s.queue[1..];
    assert x in Pending(s) && s.queue[0] in Pending(s);
    assert TaskOk(s.db, x) && TaskOk(s.db, s.queue[0]);
    assert x == s.queue[0] ==> Pending(s)[x] >= 2;
  }

  lemma CancelKeeps(s: State, root: string)
    requires Inv(s)
    ensures Inv(CancelRoot(s, root))
  {
    hide Global, Active, HeldRows, Pending;
    if root in s.entries {
      CancelGlobal(s, root);
      SamePending(s, CancelRoot(s, root));
      FrameAll(s, CancelRoot(s, root));
    }
  }

  lemma CancelGlobal(s: State, root: string)
    requires Global(s) && root in s.entries
    ensures Global(CancelRoot(s, root))
  {
    var s' := CancelRoot(s, root);
    assert forall r :: Live(s, r) ==> Live(s', r);
    forall d | 0 <= d < |s'.threads| ensures ThreadOk(s', s'.threads[d]) {
      assert ThreadOk(s, s.threads[d]);
    }
    forall x | x in s'.queue && x.isFirmware ensures WaitingOk(s', x) {
      assert WaitingOk(s, x);
    }
  }

  lemma SubmitKeeps(s: State, uid: string)
    requires Inv(s) && Enabled(s, Submit(uid))
    ensures Inv(SubmitTask(s, uid))
  {
    hide Global, Active, Enabled, SameView;
    var s' := SubmitTask(s, uid);
    NotActiveWithoutTasks(s, uid);
    SubmitGlobal(s, uid);
    SubmitView(s, uid);
    hide SubmitTask;
    FrameAll(s, s');
  }

  lemma SubmitView(s: State, uid: string)
    requires uid !in s.entries
    requires forall r :: r != uid ==> PendingOf(SubmitTask(s, uid), r) == PendingOf(s, r)
    ensures forall root :: root in SubmitTask(s, uid).entries ==> SameView(s, SubmitTask(s, uid), root)
  {
    hide PendingOf, HeldRows;
  }

  lemma NotActiveWithoutTasks(s: State, uid: string)
    requires Inv(s) && Enabled(s, Submit(uid))
    ensures uid !in s.entries
  {
    hide Global, HeldRows, Pending;
    assert PendingOf(s, uid) == {};
    assert uid in s.entries ==> Active(s, uid);
  }

  lemma SubmitGlobal(s: State, uid: string)
    requires Global(s) && Enabled(s, Submit(uid)) && uid !in s.entries
    ensures Global(SubmitTask(s, uid))
    ensures forall r :: r != uid ==> PendingOf(SubmitTask(s, uid), r) == PendingOf(s, r)
  {
    hide Unique, DbConsistent, Pending, PendingOf, ThreadOk, WaitingOk;
    var s', fw := SubmitTask(s, uid), FirmwareTask(uid);
    SubmitPending(s, uid);
    UniqueMore(Pending(s), fw);
    forall d | 0 <= d < |s'.threads| ensures ThreadOk(s', s'.threads[d]) {
      SubmitThread(s, uid, d);
    }
    forall x | x in s'.queue && x.isFirmware ensures WaitingOk(s', x) {
      SubmitWaiting(s, uid, x);
    }
    forall x | x in Pending(s') ensures TaskOk(s'.db, x) && (!x.isFirmware ==> Live(s', x.root)) {
      assert x != fw ==> x in Pending(s) && TaskOk(s.db, x) && (!x.isFirmware ==> Live(s, x.root));
    }
  }

  lemma SubmitWaiting(s: State, uid: string, x: FileObject)
    requires Enabled(s, Submit(uid)) && uid !in s.entries
    requires forall y :: y in s.queue && y.isFirmware ==> WaitingOk(s, y)
    requires x in SubmitTask(s, uid).queue && x.isFirmware
    ensures WaitingOk(SubmitTask(s, uid), x)
  {
    hide Pending, PendingOf;
    SubmitPending(s, uid);
    if x != FirmwareTask(uid) {
      assert x in s.queue && WaitingOk(s, x);
    }
  }

  lemma SubmitPending(s: State, uid: string)
    requires forall x :: x in Pending(s) ==> x.root != uid
    ensures Pending(SubmitTask(s, uid)) == Pending(s) + multiset{FirmwareTask(uid)}
    ensures PendingOf(SubmitTask(s, uid), uid) == {FirmwareTask(uid)}
    ensures forall r :: r != uid ==> PendingOf(SubmitTask(s, uid), r) == PendingOf(s, r)
    ensures forall x :: x in s.queue ==> x.root != uid
  {
    var s' := SubmitTask(s, uid);
    assert Pending(s') == Pending(s) + multiset{FirmwareTask(uid)};
    assert forall x :: x in s.queue ==> x in Pending(s);
  }

  lemma SubmitThread(s: State, uid: string, d: nat)
    requires d < |s.threads| && ThreadOk(s, s.threads[d])
    requires forall x :: x in Pending(s) ==> x.root != uid
    ensures ThreadOk(SubmitTask(s, uid), s.threads[d])
  {
    ThreadTaskPending(s.threads, d);
    assert s.threads[d].Unpacking? || s.threads[d].Stored? ==> s.threads[d].task in Pending(s);
  }

  // ---- storing an object ----

  lemma AddObjectConsistent(db: Db, fo: FileObject)
    requires DbConsistent(db) && TaskOk(db, fo)
    ensures !fo.isFirmware ==> CanAdd(db, fo)
    ensures DbConsistent(AddObject(db, fo)) && DbGrows(db, AddObject(db, fo))
    ensures fo.uid in AddObject(db, fo).objects && RowsOf(fo) <= AddObject(db, fo).vfps
  {
    if !fo.isFirmware {
      var p, db' := fo.parents[0], AddObject(db, fo);
      assert Row(p, fo.uid, fo.vfp[p][0]) in RowsOf(fo);
      forall pc | pc in db'.included ensures exists row :: row in db'.vfps && row.parent == pc.0 && row.child == pc.1 {
        if pc in db.included {
          var row :| row in db.vfps && row.parent == pc.0 && row.child == pc.1;
          assert row in db'.vfps;
        } else {
          assert pc == (p, fo.uid);
        }
      }
    }
  }

  lemma StoreView(root: string, e: Entry, pend: set<FileObject>, held: set<Row>, db: Db, rep: set<Row>,
                  rows: set<Row>, db': Db)
    requires View(root, e, pend, held, db, rep) && DbGrows(db, db')
    requires forall row :: row in rows ==> row.parent in e.remaining
    ensures View(root, e, pend, held + rows, db', rep + rows)
  {
    forall u | u in e.done + e.remaining ensures Reachable(rep + rows, root, u) {
      ReachableMore(rep, rep + rows, root, u);
    }
  }

  lemma StoreKeeps(s: State, c: nat, extracted: seq<FileObject>)
    requires Inv(s) && Enabled(s, Store(c, extracted))
    ensures Inv(StoreTask(s, c, extracted))
  {
    hide View, Unique, DbConsistent, WaitingOk, HeldRows, PendingOf, Pending, AddObject, CanAdd;
    var s', task := StoreTask(s, c, extracted), s.threads[c].task;
    StoreGlobal(s, c, extracted);
    forall r | r in s'.entries ensures Active(s', r) {
      StoreActive(s, c, extracted, r);
    }
  }

  lemma StoreGlobal(s: State, c: nat, extracted: seq<FileObject>)
    requires Global(s) && Enabled(s, Store(c, extracted))
    ensures Global(StoreTask(s, c, extracted))
    ensures Pending(StoreTask(s, c, extracted)) == Pending(s)
    ensures DbGrows(s.db, StoreTask(s, c, extracted).db)
  {
    hide Unique, DbConsistent, PendingOf, Pending, AddObject, EdgeRows, RowsOf;
    var s', task := StoreTask(s, c, extracted), s.threads[c].task;
    StorePending(s, c, extracted);
    AddObjectConsistent(s.db, task);
    assert ThreadOk(s, s.threads[c]);
    assert RowsOf(task) == {} || CanAdd(s.db, task) by {
      NoFirmwareRows(s.db, task);
    }
    OtherThreadsOk(s, s', c);
    forall x | x in Pending(s') ensures TaskOk(s'.db, x) {
      TaskOkGrows(s.db, s'.db, x);
    }
    forall x | x in s'.queue && x.isFirmware ensures WaitingOk(s', x) {
      assert WaitingOk(s, x) && Live(s, task.root);
      StorePendingOf(s, c, extracted, x.root);
    }
  }

  lemma NoFirmwareRows(db: Db, task: FileObject)
    requires TaskOk(db, task)
    ensures task.isFirmware ==> RowsOf(task) == {}
  {
  }

  lemma StorePending(s: State, c: nat, extracted: seq<FileObject>)
    requires c < |s.threads| && s.threads[c].Unpacking?
    ensures Pending(StoreTask(s, c, extracted)) == Pending(s) && s.threads[c].task in Pending(s)
  {
    hide ThreadPending, CanAdd, AddObject, EdgeRows;
    var s' := StoreTask(s, c, extracted);
    assert s'.threads == s.threads[c := s'.threads[c]] && s'.queue == s.queue;
    ThreadPendingUpdate(s.threads, c, s'.threads[c]);
    PutBack(ThreadPending(s.threads), Contents(s.threads[c]));
  }

  lemma PutBack<T>(m: multiset<T>, part: multiset<T>)
    requires part <= m
    ensures m - part + part == m
  {
  }

  lemma StorePendingOf(s: State, c: nat, extracted: seq<FileObject>, r: string)
    requires c < |s.threads| && s.threads[c].Unpacking?
    ensures PendingOf(StoreTask(s, c, extracted), r) == PendingOf(s, r)
  {
    StorePending(s, c, extracted);
  }

  lemma StoreActive(s: State, c: nat, extracted: seq<FileObject>, r: string)
    requires Enabled(s, Store(c, extracted)) && r in s.entries && Active(s, r)
    requires DbGrows(s.db, StoreTask(s, c, extracted).db)
    ensures Active(StoreTask(s, c, extracted), r)
  {
    hide View, HeldRows, AddObject, EdgeRows, CanAdd, Pending;
    var s', task := StoreTask(s, c, extracted), s.threads[c].task;
    var kept := if CanAdd(s.db, task) then extracted else [];
    HeldRowsUpdate(s.threads, c, Stored(task, kept), r);
    StorePending(s, c, extracted);
    StorePendingOf(s, c, extracted, r);
    var rows := if task.root == r then EdgeRows(kept) else {};
    forall row | row in rows ensures row.parent in s.entries[r].remaining {
      TaskRemaining(s, r, task);
      EdgeParents(task, kept, row);
    }
    EmptyEdges();
    StoreView(r, s.entries[r], PendingOf(s, r), HeldRows(s.threads, r), s.db, Reported(s, r), rows, s'.db);
    assert s'.threads == s.threads[c := Stored(task, kept)];
    assert HeldRows(s'.threads, r) == HeldRows(s.threads, r) + rows;
    assert Reported(s', r) == Reported(s, r) + rows;
  }

  lemma EmptyEdges()
    ensures EdgeRows([]) == {}
  {
  }

  lemma TaskRemaining(s: State, r: string, task: FileObject)
    requires r in s.entries && Active(s, r) && task in Pending(s) && task.root == r
    ensures task.uid in s.entries[r].remaining
  {
    assert task in PendingOf(s, r);
  }

  lemma EdgeParents(task: FileObject, children: seq<FileObject>, row: Row)
    requires (forall x :: x in children ==> ChildOf(task, x)) && row in EdgeRows(children)
    ensures row.parent == task.uid
  {
  }

  // ---- the locked update ----

  lemma UpdatedDbConsistent(e: Entry, db: Db, task: FileObject, children: seq<FileObject>)
    requires DbConsistent(db) && ExtractedFrom(task, children)
    requires task.uid in db.objects && e.done <= db.objects
    requires forall c, p :: c in e.delayed && p in e.delayed[c] ==> p in e.done && e.delayed[c][p] != []
    ensures DbConsistent(UpdatedDb(db, e, task, children)) && DbGrows(db, UpdatedDb(db, e, task, children))
  {
    hide RowsFor;
    var e1 := e.(done := e.done + {task.uid});
    FlushConsistent(e, db, task.uid);
    ChildrenConsistent(e1, DbAfterFlush(db, e, task.uid), task, children);
  }

  lemma FlushConsistent(e: Entry, db: Db, uid: string)
    requires DbConsistent(db) && uid in db.objects && e.done <= db.objects
    requires forall c, p :: c in e.delayed && p in e.delayed[c] ==> p in e.done && e.delayed[c][p] != []
    ensures DbConsistent(DbAfterFlush(db, e, uid))
  {
    var db' := DbAfterFlush(db, e, uid);
    forall pc | pc in db'.included ensures exists row :: row in db'.vfps && row.parent == pc.0 && row.child == pc.1 {
      if pc in db.included {
        var row :| row in db.vfps && row.parent == pc.0 && row.child == pc.1;
        assert row in db'.vfps;
      } else {
        var p :| p in e.delayed[uid] && pc == (p, uid);
        assert p in e.done && e.delayed[uid][p] != [];
        assert Row(p, uid, e.delayed[uid][p][0]) in FlushedRows(e, uid);
      }
    }
  }

  lemma ChildrenConsistent(e: Entry, db: Db, task: FileObject, children: seq<FileObject>)
    requires DbConsistent(db) && ExtractedFrom(task, children) && task.uid in db.objects && e.done <= db.objects
    ensures DbConsistent(DbAfterChildren(db, e, task.uid, children))
  {
    var db' := DbAfterChildren(db, e, task.uid, children);
    forall row | row in KnownRows(e, task.uid, children)
      ensures row.parent == task.uid && row.child in e.done && (row.parent, row.child) in db'.included
    {
      var fo :| fo in children && fo.uid !in e.remaining && fo.uid in e.done
                && task.uid in fo.vfp && row in RowsFor(task.uid, fo.uid, fo.vfp[task.uid]);
      assert (task.uid, fo.uid) in KnownPairs(e, task.uid, children);
    }
    forall pc | pc in db'.included ensures exists row :: row in db'.vfps && row.parent == pc.0 && row.child == pc.1 {
      if pc in db.included {
        var row :| row in db.vfps && row.parent == pc.0 && row.child == pc.1;
        assert row in db'.vfps;
      } else {
        var fo :| fo in children && fo.uid !in e.remaining && fo.uid in e.done && pc == (task.uid, fo.uid);
        assert ChildOf(task, fo);
        var row := Row(task.uid, fo.uid, fo.vfp[task.uid][0]);
        assert row in RowsFor(task.uid, fo.uid, fo.vfp[task.uid]);
        assert row in KnownRows(e, task.uid, children);
      }
    }
  }

  lemma {:induction false} SurvivorsOnce(e: Entry, children: seq<FileObject>)
    requires DistinctUids(children)
    ensures DistinctUids(Survivors(e, children))
    ensures Unique(multiset(Survivors(e, children)))
    ensures forall x :: x in Survivors(e, children) ==> x.uid !in e.remaining && x.uid !in e.done
  {
    hide Unique;
    if children == [] {
      NoneTwice();
    } else {
      var n := |children| - 1;
      SurvivorsOnce(e, children[..n]);
      var before := Survivors(e, children[..n]);
      forall x | x in before ensures x.uid != children[n].uid {
        assert x in children[..n];
      }
      if !(children[n].uid in e.remaining || children[n].uid in e.done) {
        OneMore(before, children[n]);
      }
    }
  }

  lemma NoneTwice()
    ensures Unique(multiset([]))
  {
  }

  lemma OneMore(before: seq<FileObject>, x: FileObject)
    requires DistinctUids(before) && Unique(multiset(before))
    requires forall y :: y in before ==> y.uid != x.uid
    ensures DistinctUids(before + [x]) && Unique(multiset(before + [x]))
  {
    assert forall y :: y in multiset(before) ==> y in before;
    hide Unique;
    UniqueMore(multiset(before), x);
    assert multiset(before + [x]) == multiset(before) + multiset{x};
  }

  lemma UniqueUnion(m: multiset<FileObject>, m': multiset<FileObject>)
    requires Unique(m) && Unique(m')
    requires forall x, y :: x in m && y in m' ==> x.root != y.root || x.uid != y.uid
    ensures Unique(m + m')
  {
    forall x ensures (m + m')[x] <= 1 {
      assert x in m && x in m' ==> x.root != x.root || x.uid != x.uid;
    }
  }

  /** Thread `c` leaves its task and takes over the objects `kept`. */
  lemma UpdatePending(s: State, c: nat, kept: seq<FileObject>)
    requires c < |s.threads| && s.threads[c].Stored?
    ensures s.threads[c].task in Pending(s)
    ensures Pending(s.(threads := s.threads[c := Scheduling(kept)])) == Pending(s) - multiset{s.threads[c].task} + multiset(kept)
  {
    ThreadPendingUpdate(s.threads, c, Scheduling(kept));
  }

  lemma UpdatePendingOf(s: State, s': State, task: FileObject, kept: seq<FileObject>, r: string)
    requires task in Pending(s) && Pending(s)[task] <= 1
    requires Pending(s') == Pending(s) - multiset{task} + multiset(kept)
    requires forall x :: x in kept ==> x.root == task.root
    ensures r != task.root ==> PendingOf(s', r) == PendingOf(s, r)
    ensures r == task.root ==> PendingOf(s', r) == PendingOf(s, r) - {task} + set x | x in kept
  {
    hide Pending;
    forall x ensures x in Pending(s') <==> (x in Pending(s) && x != task) || x in kept {
      ReplacedMember(Pending(s), task, kept, x);
    }
  }

  lemma ReplacedMember<T>(m: multiset<T>, task: T, kept: seq<T>, x: T)
    requires m[task] <= 1
    ensures x in m - multiset{task} + multiset(kept) <==> (x in m && x != task) || x in kept
  {
  }

  lemma UpdateKeeps(s: State, c: nat)
    requires Inv(s) && Enabled(s, Update(c))
    ensures Inv(UpdateTask(s, c))
  {
    hide View, Unique, DbConsistent, WaitingOk, HeldRows, PendingOf, Pending, UpdatedDb, UpdatedEntry, UpdatedChildren, Survivors;
    var s', task := UpdateTask(s, c), s.threads[c].task;
    UpdateGlobal(s, c);
    forall r | r in s'.entries ensures Active(s', r) {
      if r != task.root {
        UpdateOther(s, c, r);
      } else {
        UpdateOwn(s, c);
      }
    }
  }

  lemma StoredReady(s: State, c: nat)
    requires Global(s) && Enabled(s, Update(c)) && s.threads[c].task.root in s.entries && Active(s, s.threads[c].task.root)
    ensures var task, children := s.threads[c].task, s.threads[c].children;
      var root := task.root;
      Ready(root, s.entries[root], PendingOf(s, root), HeldRows(s.threads, root), s.db, Reported(s, root), task, children)
  {
    hide View, DbConsistent;
    assert ThreadOk(s, s.threads[c]);
    ThreadTaskPending(s.threads, c);
    assert s.threads[c].task in Pending(s);
  }

  /** The rows still held do not come from the task that was just handled. */
  lemma HeldByOthers(s: State, c: nat, kept: seq<FileObject>, row: Row)
    requires Global(s) && Enabled(s, Update(c))
    requires row in HeldRows(s.threads[c := Scheduling(kept)], s.threads[c].task.root)
    ensures row.parent != s.threads[c].task.uid
  {
    hide DbConsistent, WaitingOk, Unique, Pending, TaskOk, EdgeRows;
    var task := s.threads[c].task;
    var threads' := s.threads[c := Scheduling(kept)];
    var d :| 0 <= d < |threads'| && threads'[d].Stored? && threads'[d].task.root == task.root && row in EdgeRows(threads'[d].children);
    assert d != c && threads'[d] == s.threads[d];
    assert ThreadOk(s, s.threads[d]);
    EdgeParents(s.threads[d].task, s.threads[d].children, row);
    UidsDiffer(s, c, d);
  }

  lemma UidsDiffer(s: State, c: nat, d: nat)
    requires Unique(Pending(s)) && c < |s.threads| && d < |s.threads| && c != d
    requires s.threads[c].Stored? && s.threads[d].Stored? && s.threads[c].task.root == s.threads[d].task.root
    ensures s.threads[c].task.uid != s.threads[d].task.uid
  {
    ThreadTaskPending(s.threads, c);
    ThreadTaskPending(s.threads, d);
    forall x ensures ThreadPending(s.threads)[x] <= 1 {
      assert Pending(s)[x] <= 1;
    }
    TasksDiffer(s, c, d);
  }

  /** The updated state of the task's own firmware, whether or not its entry is popped. */
  lemma UpdateOwnView(s: State, c: nat)
    requires Global(s) && Enabled(s, Update(c)) && s.threads[c].task.root in s.entries && Active(s, s.threads[c].task.root)
    ensures var s', task, children := UpdateTask(s, c), s.threads[c].task, s.threads[c].children;
      var root := task.root;
      View(root, UpdatedEntry(s.entries[root], task, children), PendingOf(s', root), HeldRows(s'.threads, root),
           s'.db, Reported(s, root))
  {
    hide View, DbConsistent, WaitingOk, HeldRows, Pending, PendingOf, UpdatedDb, UpdatedEntry, EdgeRows, Survivors, ThreadOk, TaskOk;
    var s', task, children := UpdateTask(s, c), s.threads[c].task, s.threads[c].children;
    var root := task.root;
    var e := s.entries[root];
    var kept := UpdatedChildren(e, task, children);
    StoredReady(s, c);
    HeldRowsUpdate(s.threads, c, Scheduling(kept), root);
    forall row | row in HeldRows(s'.threads, root) ensures row.parent != task.uid {
      HeldByOthers(s, c, kept, row);
    }
    UpdateView(root, e, PendingOf(s, root), HeldRows(s.threads, root), s.db, Reported(s, root), task, children,
               HeldRows(s'.threads, root));
    UpdatedPendingOf(s, c, root);
  }

  lemma UpdatedPendingOf(s: State, c: nat, r: string)
    requires Unique(Pending(s)) && Enabled(s, Update(c)) && s.threads[c].task.root in s.entries
    requires ExtractedFrom(s.threads[c].task, s.threads[c].children)
    ensures var s', task, children := UpdateTask(s, c), s.threads[c].task, s.threads[c].children;
      var kept := UpdatedChildren(s.entries[task.root], task, children);
      && Pending(s') == Pending(s) - multiset{task} + multiset(kept)
      && (r != task.root ==> PendingOf(s', r) == PendingOf(s, r))
      && (r == task.root ==> PendingOf(s', r) == PendingAfter(s.entries[r], PendingOf(s, r), task, children))
  {
    hide Pending, PendingOf, UpdatedDb, UpdatedEntry;
    var s', task, children := UpdateTask(s, c), s.threads[c].task, s.threads[c].children;
    var kept := UpdatedChildren(s.entries[task.root], task, children);
    UpdatePending(s, c, kept);
    SamePending(s.(threads := s.threads[c := Scheduling(kept)]), s');
    UpdatePendingOf(s, s', task, kept, r);
  }

  lemma SamePending(s: State, s': State)
    requires s.queue == s'.queue && s.threads == s'.threads
    ensures Pending(s) == Pending(s')
  {
  }

  lemma UpdateOwn(s: State, c: nat)
    requires Global(s) && Enabled(s, Update(c)) && s.threads[c].task.root in s.entries && Active(s, s.threads[c].task.root)
    requires s.threads[c].task.root in UpdateTask(s, c).entries
    ensures Active(UpdateTask(s, c), s.threads[c].task.root)
  {
    hide View, Global, HeldRows, PendingOf, UpdatedDb, UpdatedEntry, UpdatedChildren;
    UpdateOwnView(s, c);
  }

  lemma UpdateOther(s: State, c: nat, r: string)
    requires Global(s) && Enabled(s, Update(c)) && r != s.threads[c].task.root && r in s.entries && Active(s, r)
    requires DbGrows(s.db, UpdateTask(s, c).db)
    ensures Active(UpdateTask(s, c), r)
  {
    hide View, DbConsistent, WaitingOk, HeldRows, PendingOf, Pending, UpdatedDb, UpdatedEntry, UpdatedChildren;
    var s', task := UpdateTask(s, c), s.threads[c].task;
    assert ThreadOk(s, s.threads[c]);
    HeldRowsUpdate(s.threads, c, s'.threads[c], r);
    if task.root in s.entries {
      UpdatedPendingOf(s, c, r);
    } else {
      UpdatePending(s, c, []);
      SamePending(s.(threads := s.threads[c := Scheduling([])]), s');
      UpdatePendingOf(s, s', task, [], r);
    }
    ActiveFrame(s, s', r);
  }

  lemma UpdateGlobal(s: State, c: nat)
    requires Global(s) && Enabled(s, Update(c))
    requires s.threads[c].task.root in s.entries ==> Active(s, s.threads[c].task.root)
    ensures Global(UpdateTask(s, c)) && DbGrows(s.db, UpdateTask(s, c).db)
  {
    if s.threads[c].task.root in s.entries {
      UpdateGlobalLive(s, c);
    } else {
      UpdateGlobalCancelled(s, c);
    }
  }

  lemma UpdateGlobalCancelled(s: State, c: nat)
    requires Global(s) && Enabled(s, Update(c)) && s.threads[c].task.root !in s.entries
    ensures Global(UpdateTask(s, c))
  {
    hide Unique, DbConsistent, TaskOk, Pending, PendingOf, UpdatedDb, UpdatedEntry, UpdatedChildren;
    var s', task := UpdateTask(s, c), s.threads[c].task;
    UpdatePending(s, c, []);
    SamePending(s.(threads := s.threads[c := Scheduling([])]), s');
    UniqueLess(Pending(s), Pending(s'));
    OtherThreadsOk(s, s', c);
    forall x | x in s'.queue && x.isFirmware ensures WaitingOk(s', x) {
      assert WaitingOk(s, x) && ThreadOk(s, s.threads[c]);
      CountOne(s, task);
      UpdatePendingOf(s, s', task, [], x.root);
    }
  }

  lemma CountOne(s: State, x: FileObject)
    requires Unique(Pending(s))
    ensures Pending(s)[x] <= 1
  {
  }

  lemma UpdateUnique(s: State, c: nat)
    requires Global(s) && Enabled(s, Update(c)) && s.threads[c].task.root in s.entries && Active(s, s.threads[c].task.root)
    ensures Unique(Pending(UpdateTask(s, c)))
  {
    hide DbConsistent, WaitingOk, HeldRows, Unique, Pending, UpdatedDb, UpdatedEntry, Survivors, TaskOk;
    var s', task, children := UpdateTask(s, c), s.threads[c].task, s.threads[c].children;
    var e := s.entries[task.root];
    var kept := UpdatedChildren(e, task, children);
    assert ThreadOk(s, s.threads[c]);
    UpdatedPendingOf(s, c, task.root);
    SurvivorsOnce(e.(done := e.done + {task.uid}), children);
    UniqueLess(Pending(s), Pending(s) - multiset{task});
    forall x: FileObject, y: FileObject | x in Pending(s) - multiset{task} && y in multiset(kept) ensures x.root != y.root || x.uid != y.uid {
      if x.root == task.root {
        TaskRemaining(s, task.root, x);
      }
      assert y in children && ChildOf(task, y);
    }
    UniqueUnion(Pending(s) - multiset{task}, multiset(kept));
  }

  /** Objects pending after the update are stored consistently and belong to live submissions. */
  lemma UpdateTaskOk(s: State, c: nat, x: FileObject)
    requires Global(s) && Enabled(s, Update(c)) && s.threads[c].task.root in s.entries && Active(s, s.threads[c].task.root)
    requires x in Pending(UpdateTask(s, c)) && DbGrows(s.db, UpdateTask(s, c).db)
    ensures TaskOk(UpdateTask(s, c).db, x)
    ensures Live(s, x.root) || (x.isFirmware && x in Pending(s))
    ensures Live(s, x.root) ==> Live(UpdateTask(s, c), x.root)
  {
    hide DbConsistent, WaitingOk, HeldRows, Unique, Pending, UpdatedDb, UpdatedEntry, View;
    var s', task, children := UpdateTask(s, c), s.threads[c].task, s.threads[c].children;
    var kept := UpdatedChildren(s.entries[task.root], task, children);
    assert ThreadOk(s, s.threads[c]);
    UpdatedPendingOf(s, c, task.root);
    UpdatePending(s, c, kept);
    assert TaskOk(s.db, task);
    if x in kept {
      assert x in children && ChildOf(task, x);
    } else {
      assert x in Pending(s);
      TaskOkGrows(s.db, s'.db, x);
    }
    if x.root == task.root {
      UpdateOwnView(s, c);
      ViewHasTask(task.root, UpdatedEntry(s.entries[task.root], task, children), PendingOf(s', task.root),
                  HeldRows(s'.threads, task.root), s'.db, Reported(s, task.root), x);
    }
  }

  lemma ViewHasTask(root: string, e: Entry, pend: set<FileObject>, held: set<Row>, db: Db, rep: set<Row>, x: FileObject)
    requires View(root, e, pend, held, db, rep) && x in pend
    ensures x.uid in e.remaining
  {
  }

  lemma UpdateGlobalLive(s: State, c: nat)
    requires Global(s) && Enabled(s, Update(c)) && s.threads[c].task.root in s.entries && Active(s, s.threads[c].task.root)
    ensures Global(UpdateTask(s, c)) && DbGrows(s.db, UpdateTask(s, c).db)
  {
    hide DbConsistent, HeldRows, Unique, Pending, PendingOf, UpdatedDb, UpdatedEntry, Survivors, TaskOk, View;
    var s', task, children := UpdateTask(s, c), s.threads[c].task, s.threads[c].children;
    var e := s.entries[task.root];
    assert ThreadOk(s, s.threads[c]);
    UpdateDbKeeps(s, c);
    UpdateUnique(s, c);
    forall x | x in Pending(s')
      ensures TaskOk(s'.db, x) && (!x.isFirmware ==> Live(s', x.root))
    {
      UpdateTaskOk(s, c, x);
    }
    forall d | 0 <= d < |s'.threads| ensures ThreadOk(s', s'.threads[d]) {
      UpdateThreadOk(s, c, d);
    }
    forall x | x in s'.queue && x.isFirmware ensures WaitingOk(s', x) {
      assert WaitingOk(s, x) && Live(s, task.root);
      UpdatedPendingOf(s, c, x.root);
    }
  }

  lemma UpdateDbKeeps(s: State, c: nat)
    requires Global(s) && Enabled(s, Update(c)) && s.threads[c].task.root in s.entries && Active(s, s.threads[c].task.root)
    ensures DbConsistent(UpdateTask(s, c).db) && DbGrows(s.db, UpdateTask(s, c).db)
  {
    hide WaitingOk, TaskOk, Unique, Pending, UpdatedDb, DbConsistent, UpdatedEntry, UpdatedChildren;
    assert ThreadOk(s, s.threads[c]);
    UpdatedDbConsistent(s.entries[s.threads[c].task.root], s.db, s.threads[c].task, s.threads[c].children);
  }

  lemma UpdateThreadOk(s: State, c: nat, d: nat)
    requires Global(s) && Enabled(s, Update(c)) && s.threads[c].task.root in s.entries && Active(s, s.threads[c].task.root)
    requires d < |s.threads| && DbGrows(s.db, UpdateTask(s, c).db)
    ensures ThreadOk(UpdateTask(s, c), UpdateTask(s, c).threads[d])
  {
    hide DbConsistent, WaitingOk, HeldRows, Unique, Pending, PendingOf, UpdatedDb, UpdatedEntry, TaskOk, View;
    var s', task := UpdateTask(s, c), s.threads[c].task;
    assert ThreadOk(s, s.threads[d]) && ThreadOk(s, s.threads[c]);
    if d == c {
      assert forall x :: x in s'.threads[c].rest ==> ChildOf(task, x);
    } else if s.threads[d].Unpacking? || s.threads[d].Stored? {
      TaskStillPending(s', d);
      UpdateTaskOk(s, c, s.threads[d].task);
    }
  }

  lemma TaskStillPending(s: State, d: nat)
    requires d < |s.threads| && (s.threads[d].Unpacking? || s.threads[d].Stored?)
    ensures s.threads[d].task in Pending(s)
  {
    ThreadTaskPending(s.threads, d);
  }
}
