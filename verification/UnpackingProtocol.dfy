/** The unpacking scheduler as a state machine over its atomic steps
    (src/scheduler/unpacking_scheduler.py). Worker threads run concurrently: between any two of
    a thread's steps other threads may take theirs, and unpacking may be cancelled. */
module UnpackingProtocol {
  import opened Common
  import opened Unpacker

  // ---- database ----

  datatype Db = Db(
    objects: set<string>,
    firmware: set<string>,
    vfps: set<Row>,
    included: set<(string, string)>)

  function RowsFor(parent: string, child: string, paths: seq<string>): set<Row> {
    set path | path in paths :: Row(parent, child, path)
  }

  function RowsOf(fo: FileObject): set<Row> {
    set p, path | p in fo.vfp && path in fo.vfp[p] :: Row(p, fo.uid, path)
  }

  /** Storing fails for a firmware whose UID is stored as a mere file, and for a file whose
      firmware or parent is not stored. */
  predicate CanAdd(db: Db, fo: FileObject) {
    if fo.isFirmware then fo.uid in db.objects ==> fo.uid in db.firmware
    else fo.root in db.objects && (forall p :: p in fo.parents ==> p in db.objects) && fo.vfp.Keys <= db.objects
  }

  /** `add_object`: insert, or update if the object exists. Firmware has no paths. */
  function AddObject(db: Db, fo: FileObject): Db {
    if fo.isFirmware then
      db.(objects := db.objects + {fo.uid}, firmware := db.firmware + {fo.uid})
    else
      db.(objects := db.objects + {fo.uid},
          vfps := db.vfps + RowsOf(fo),
          included := db.included + set p | p in fo.parents :: (p, fo.uid))
  }

  /** `add_vfp` followed by `add_child_to_parent`. */
  function AddPaths(db: Db, parent: string, child: string, paths: seq<string>): Db {
    db.(vfps := db.vfps + RowsFor(parent, child, paths), included := db.included + {(parent, child)})
  }

  // ---- scheduler state ----

  /** What is known about one firmware while it is being unpacked. */
  datatype Entry = Entry(
    remaining: set<string>,
    done: set<string>,
    delayed: map<string, map<string, seq<string>>>)

  /** How far the worker thread of one container has come with its task. */
  datatype Thread =
    | Idle
    | Unpacking(task: FileObject)
    | Stored(task: FileObject, children: seq<FileObject>)
    | Scheduling(rest: seq<FileObject>)

  /** `reported` and `cancelled` are history: the rows each submission has reported so far, and
      the submissions cancelled since. */
  datatype State = State(
    entries: map<string, Entry>,
    queue: seq<FileObject>,
    threads: seq<Thread>,
    db: Db,
    reported: map<string, set<Row>>,
    cancelled: set<string>)

  function Reported(s: State, root: string): set<Row> {
    if root in s.reported then s.reported[root] else {}
  }

  ghost function EdgeRows(children: seq<FileObject>): set<Row> {
    set fo, row | fo in children && row in RowsOf(fo) :: row
  }

  /** The objects that still have to be taken into account: queued, in work, or about to be queued. */
  ghost function Contents(th: Thread): multiset<FileObject> {
    match th
    case Idle => multiset{}
    case Unpacking(task) => multiset{task}
    case Stored(task, _) => multiset{task}
    case Scheduling(rest) => multiset(rest)
  }

  ghost function ThreadPending(threads: seq<Thread>): multiset<FileObject> {
    if threads == [] then multiset{}
    else ThreadPending(threads[..|threads| - 1]) + Contents(threads[|threads| - 1])
  }

  ghost function Pending(s: State): multiset<FileObject> {
    multiset(s.queue) + ThreadPending(s.threads)
  }

  // ---- the locked update ----

  /** The children that are neither remaining nor done stay in the list. */
  function Survivors(e: Entry, children: seq<FileObject>): (r: seq<FileObject>)
    ensures forall fo :: fo in r <==> fo in children && fo.uid !in e.remaining && fo.uid !in e.done
  {
    if children == [] then []
    else
      var last := children[|children| - 1];
      var before := Survivors(e, children[..|children| - 1]);
      assert children == children[..|children| - 1] + [last];
      if last.uid in e.remaining || last.uid in e.done then before else before + [last]
  }

  /** The paths that have to wait for `child`, with those from `parent` added. */
  ghost function DelayedFor(e: Entry, parent: string, children: seq<FileObject>, child: string): map<string, seq<string>> {
    var before := if child in e.delayed then e.delayed[child] else map[];
    if exists fo :: fo in children && fo.uid == child && child in e.remaining && parent in fo.vfp
    then
      var fo :| fo in children && fo.uid == child && parent in fo.vfp;
      before[parent := fo.vfp[parent]]
    else before
  }

  ghost function DelayedAfter(e: Entry, parent: string, children: seq<FileObject>): map<string, map<string, seq<string>>> {
    map child | child in e.delayed.Keys + (e.remaining * Uids(children)) :: DelayedFor(e, parent, children, child)
  }

  /** What the children that were already unpacked add to the database. */
  ghost function KnownRows(e: Entry, parent: string, children: seq<FileObject>): set<Row> {
    set fo, row | fo in children && fo.uid !in e.remaining && fo.uid in e.done
                  && parent in fo.vfp && row in RowsFor(parent, fo.uid, fo.vfp[parent]) :: row
  }

  ghost function KnownPairs(e: Entry, parent: string, children: seq<FileObject>): set<(string, string)> {
    set fo | fo in children && fo.uid !in e.remaining && fo.uid in e.done :: (parent, fo.uid)
  }

  /** The entry after `_update_extracted_objects`. */
  ghost function EntryAfterChildren(e: Entry, parent: string, children: seq<FileObject>): Entry {
    Entry(e.remaining + Uids(Survivors(e, children)), e.done, DelayedAfter(e, parent, children))
  }

  ghost function DbAfterChildren(db: Db, e: Entry, parent: string, children: seq<FileObject>): Db {
    db.(vfps := db.vfps + KnownRows(e, parent, children), included := db.included + KnownPairs(e, parent, children))
  }

  ghost function FlushedRows(e: Entry, uid: string): set<Row> {
    if uid !in e.delayed then {}
    else set p, path | p in e.delayed[uid] && path in e.delayed[uid][p] :: Row(p, uid, path)
  }

  ghost function FlushedPairs(e: Entry, uid: string): set<(string, string)> {
    if uid !in e.delayed then {} else set p | p in e.delayed[uid] :: (p, uid)
  }

  ghost function DbAfterFlush(db: Db, e: Entry, uid: string): Db {
    db.(vfps := db.vfps + FlushedRows(e, uid), included := db.included + FlushedPairs(e, uid))
  }

  /** Entry, database and children list when the lock is released, for a task whose firmware has
      an entry. */
  ghost function UpdatedEntry(e: Entry, task: FileObject, children: seq<FileObject>): Entry {
    var e' := EntryAfterChildren(e.(done := e.done + {task.uid}), task.uid, children);
    e'.(remaining := e'.remaining - {task.uid})
  }

  ghost function UpdatedDb(db: Db, e: Entry, task: FileObject, children: seq<FileObject>): Db {
    DbAfterChildren(DbAfterFlush(db, e, task.uid), e.(done := e.done + {task.uid}), task.uid, children)
  }

  ghost function UpdatedChildren(e: Entry, task: FileObject, children: seq<FileObject>): seq<FileObject> {
    Survivors(e.(done := e.done + {task.uid}), children)
  }

  // ---- steps ----

  datatype Action =
    | Submit(uid: string)
    | Start(c: nat)
    | Store(c: nat, extracted: seq<FileObject>)
    | Update(c: nat)
    | Enqueue(c: nat)
    | Finish(c: nat)
    | Cancel(root: string)

  function FirmwareTask(uid: string): FileObject {
    FileObject(uid, uid, true, [], map[], 0)
  }

  /** `Submit` is not enabled while tasks of an earlier submission of the same firmware live. */
  ghost predicate Enabled(s: State, a: Action) {
    match a
    case Submit(uid) => forall x :: x in Pending(s) ==> x.root != uid
    case Start(c) => c < |s.threads| && s.threads[c].Idle? && s.queue != []
    case Store(c, extracted) => c < |s.threads| && s.threads[c].Unpacking? && ExtractedFrom(s.threads[c].task, extracted)
    case Update(c) => c < |s.threads| && s.threads[c].Stored?
    case Enqueue(c) => c < |s.threads| && s.threads[c].Scheduling? && s.threads[c].rest != []
    case Finish(c) => c < |s.threads| && s.threads[c] == Scheduling([])
    case Cancel(_) => true
  }

  ghost function StartTask(s: State, c: nat): State
    requires c < |s.threads| && s.queue != []
  {
    var task := s.queue[0];
    var s' := s.(queue := s.queue[1..]);
    if task.isFirmware then
      s'.(threads := s.threads[c := Unpacking(task)],
          entries := if task.uid in s.entries then s.entries
                     else s.entries[task.uid := Entry({task.uid}, {}, map[])])
    else if task.root !in s.entries then s'
    else s'.(threads := s.threads[c := Unpacking(task)])
  }

  ghost function StoreTask(s: State, c: nat, extracted: seq<FileObject>): State
    requires c < |s.threads| && s.threads[c].Unpacking?
  {
    var task := s.threads[c].task;
    if CanAdd(s.db, task) then
      s.(db := AddObject(s.db, task),
         threads := s.threads[c := Stored(task, extracted)],
         reported := s.reported[task.root := Reported(s, task.root) + EdgeRows(extracted)])
    else s.(threads := s.threads[c := Stored(task, [])])
  }

  ghost function UpdateTask(s: State, c: nat): State
    requires c < |s.threads| && s.threads[c].Stored?
  {
    var task, children := s.threads[c].task, s.threads[c].children;
    if task.root !in s.entries then s.(threads := s.threads[c := Scheduling([])])
    else
      var e := s.entries[task.root];
      var e' := UpdatedEntry(e, task, children);
      s.(db := UpdatedDb(s.db, e, task, children),
         threads := s.threads[c := Scheduling(UpdatedChildren(e, task, children))],
         entries := if e'.remaining == {} then s.entries - {task.root} else s.entries[task.root := e'])
  }

  ghost function SubmitTask(s: State, uid: string): State {
    s.(queue := s.queue + [FirmwareTask(uid)], reported := s.reported[uid := {}], cancelled := s.cancelled - {uid})
  }

  ghost function EnqueueTask(s: State, c: nat): State
    requires c < |s.threads| && s.threads[c].Scheduling? && s.threads[c].rest != []
  {
    var rest := s.threads[c].rest;
    s.(queue := s.queue + [rest[0]], threads := s.threads[c := Scheduling(rest[1..])])
  }

  ghost function FinishTask(s: State, c: nat): State
    requires c < |s.threads|
  {
    s.(threads := s.threads[c := Idle])
  }

  ghost function CancelRoot(s: State, root: string): State {
    if root in s.entries then s.(entries := s.entries - {root}, cancelled := s.cancelled + {root}) else s
  }

  ghost function Apply(s: State, a: Action): State
    requires Enabled(s, a)
  {
    match a
    case Submit(uid) => SubmitTask(s, uid)
    case Start(c) => StartTask(s, c)
    case Store(c, extracted) => StoreTask(s, c, extracted)
    case Update(c) => UpdateTask(s, c)
    case Enqueue(c) => EnqueueTask(s, c)
    case Finish(c) => FinishTask(s, c)
    case Cancel(root) => CancelRoot(s, root)
  }

  ghost predicate Initial(s: State) {
    && s.entries == map[] && s.queue == [] && s.reported == map[] && s.cancelled == {}
    && (forall c :: 0 <= c < |s.threads| ==> s.threads[c].Idle?)
    && DbConsistent(s.db)
  }

  /** The same (parent, child) pairs in both tables, and only between stored objects. */
  ghost predicate DbConsistent(db: Db) {
    && db.firmware <= db.objects
    && (forall row :: row in db.vfps ==> (row.parent, row.child) in db.included)
    && (forall pc :: pc in db.included ==> exists row :: row in db.vfps && row.parent == pc.0 && row.child == pc.1)
    && forall row :: row in db.vfps ==> row.parent in db.objects && row.child in db.objects
  }

  /** `run` is a sequence of states, `run[0]` initial, each reached from the one before by an
      enabled step. */
  ghost predicate IsRun(run: seq<State>) {
    && run != [] && Initial(run[0])
    && forall i :: 0 <= i < |run| - 1 ==> Next(run[i], run[i + 1])
  }

  ghost predicate Next(s: State, s': State) {
    exists a :: Enabled(s, a) && s' == Apply(s, a)
  }
}
