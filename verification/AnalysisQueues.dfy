/** All file objects in the analysis pipeline: the process queue, the plugins' in-queues, workers
    and out-queues, and the ways out (src/scheduler/analysis/scheduler.py,
    src/scheduler/analysis/plugin.py). */
module AnalysisQueues {
  import opened Common
  import opened TaskScheduler
  import opened AnalysisTasks

  /** A file object inside a plugin runner, and since when it is where it is. */
  datatype Job = Job(fo: FileObject, plugin: string, since: real)

  /** A file object whose handling raised, with the analyses stored for it at that moment. */
  datatype Loss = Loss(fo: FileObject, rows: Rows)

  /** The queues of all plugins are kept in one sequence each, as every job names its plugin.
      `arrived` and `ordered` are history: the objects that ever entered, and those of them that
      came with a schedule made by `schedule_analysis_tasks`. */
  datatype System = System(
    queue: seq<FileObject>,
    waiting: seq<Job>,
    working: seq<Job>,
    returned: seq<Job>,
    completed: seq<FileObject>,
    dropped: seq<FileObject>,
    lost: seq<Loss>,
    db: map<string, Rows>,
    clock: real,
    inProgress: set<string>,
    arrived: set<nat>,
    ordered: set<nat>)

  datatype Step =
    | Arrive(fo: FileObject)
    | Process
    | Work(i: nat)
    | Return(i: nat, report: Report)
    | Collect(i: nat)
    | Environment(now: real, progress: set<string>)

  function RowsOf(s: System, uid: string): Rows {
    if uid in s.db then s.db[uid] else map[]
  }

  function RemoveAt<T>(q: seq<T>, i: nat): (r: seq<T>)
    requires i < |q|
    ensures forall x :: x in r ==> x in q
  {
    q[..i] + q[i + 1..]
  }

  predicate StillWanted(s: System, fo: FileObject) {
    fo.isFirmware || fo.root.None? || fo.root.value in s.inProgress || fo.uid in s.inProgress
  }

  /** `_check_further_process_or_complete` */
  function Forward(s: System, fo: FileObject): System {
    if fo.scheduled == [] then s.(completed := s.completed + [fo])
    else if StillWanted(s, fo) then s.(queue := s.queue + [fo])
    else s.(dropped := s.dropped + [fo])
  }

  function Settle(s: System, fo: FileObject, outcome: Outcome): System {
    match outcome
    case Continue(fo', rows) => Forward(s.(db := s.db[fo'.uid := rows]), fo')
    case Send(fo', p) => s.(waiting := s.waiting + [Job(fo', p, s.clock)])
    case Raised => s.(lost := s.lost + [Loss(fo, RowsOf(s, fo.uid))])
  }

  ghost predicate Enabled(s: System, a: Step) {
    match a
    case Arrive(fo) => fo.id !in s.arrived && fo.failure.None?
    case Process => s.queue != [] && s.queue[0].scheduled != []
    case Work(i) => i < |s.waiting|
    case Return(i, report) => i < |s.working| && ReportedWithin(report, s.working[i].since, s.clock)
    case Collect(i) => i < |s.returned|
    case Environment(now, _) => s.clock <= now
  }

  ghost function DoArrive(plugins: Plugins, s: System, fo: FileObject): System {
    Forward(s.(arrived := s.arrived + {fo.id},
             ordered := if WellScheduled(plugins.deps, fo) then s.ordered + {fo.id} else s.ordered), fo)
  }

  ghost function DoProcess(plugins: Plugins, s: System): System
    requires s.queue != [] && s.queue[0].scheduled != []
  {
    var fo := s.queue[0];
    Settle(s.(queue := s.queue[1..]), fo, ProcessNext(plugins, fo, RowsOf(s, fo.uid), s.clock))
  }

  function DoReturn(plugins: Plugins, s: System, i: nat, report: Report): System
    requires i < |s.working|
  {
    var job := s.working[i];
    s.(working := RemoveAt(s.working, i),
       returned := s.returned + [Job(WriteResult(plugins, job.fo, job.plugin, report), job.plugin, s.clock)])
  }

  function DoWork(s: System, i: nat): System
    requires i < |s.waiting|
  {
    s.(waiting := RemoveAt(s.waiting, i), working := s.working + [s.waiting[i].(since := s.clock)])
  }

  ghost function DoCollect(plugins: Plugins, s: System, i: nat): System
    requires i < |s.returned|
  {
    var job := s.returned[i];
    Settle(s.(returned := RemoveAt(s.returned, i)), job.fo,
           HandleCollected(plugins, job.fo, RowsOf(s, job.fo.uid), job.plugin, s.clock))
  }

  ghost function Apply(plugins: Plugins, s: System, a: Step): System
    requires Enabled(s, a)
  {
    match a
    case Arrive(fo) => DoArrive(plugins, s, fo)
    case Process => DoProcess(plugins, s)
    case Work(i) => DoWork(s, i)
    case Return(i, report) => DoReturn(plugins, s, i, report)
    case Collect(i) => DoCollect(plugins, s, i)
    case Environment(now, progress) => s.(clock := now, inProgress := progress)
  }

  ghost predicate Empty(s: System) {
    && s.queue == [] && s.waiting == [] && s.working == [] && s.returned == []
    && s.completed == [] && s.dropped == [] && s.lost == [] && s.arrived == {} && s.ordered == {}
  }

  ghost predicate IsRun(plugins: Plugins, run: seq<System>) {
    && run != [] && Empty(run[0])
    && forall i :: 0 <= i < |run| - 1 ==> Next(plugins, run[i], run[i + 1])
  }

  ghost predicate Next(plugins: Plugins, s: System, s': System) {
    exists a :: Enabled(s, a) && s' == Apply(plugins, s, a)
  }

  // ---- counting objects ----

  ghost function Bag<T>(q: seq<T>, f: T -> nat): multiset<nat> {
    if q == [] then multiset{} else Bag(q[..|q| - 1], f) + multiset{f(q[|q| - 1])}
  }

  ghost function Sum<T>(q: seq<T>, f: T -> nat): nat {
    if q == [] then 0 else Sum(q[..|q| - 1], f) + f(q[|q| - 1])
  }

  lemma Appended<T>(q: seq<T>, x: T, f: T -> nat)
    ensures Bag(q + [x], f) == Bag(q, f) + multiset{f(x)}
    ensures Sum(q + [x], f) == Sum(q, f) + f(x)
  {
    assert (q + [x])[..|q|] == q;
  }

  lemma {:induction false} Removed<T>(q: seq<T>, i: nat, f: T -> nat)
    requires i < |q|
    ensures Bag(q, f) == Bag(RemoveAt(q, i), f) + multiset{f(q[i])}
    ensures Sum(q, f) == Sum(RemoveAt(q, i), f) + f(q[i])
  {
    var n := |q| - 1;
    if i < n {
      Removed(q[..n], i, f);
      assert RemoveAt(q, i) == RemoveAt(q[..n], i) + [q[n]];
      Appended(RemoveAt(q[..n], i), q[n], f);
    } else {
      assert RemoveAt(q, i) == q[..n];
    }
  }

  function FoId(fo: FileObject): nat { fo.id }
  function JobId(job: Job): nat { job.fo.id }
  function LossId(loss: Loss): nat { loss.fo.id }

  /** The identities of all objects in all places, with multiplicity. */
  ghost function Objects(s: System): multiset<nat> {
    Bag(s.queue, FoId) + Bag(s.waiting, JobId) + Bag(s.working, JobId) + Bag(s.returned, JobId)
    + Bag(s.completed, FoId) + Bag(s.dropped, FoId) + Bag(s.lost, LossId)
  }

  /** Every object that ever arrived is in exactly one place, once. */
  ghost predicate OnePlace(s: System) {
    forall id :: Objects(s)[id] == (if id in s.arrived then 1 else 0)
  }

  lemma ForwardObjects(s: System, fo: FileObject)
    ensures Objects(Forward(s, fo)) == Objects(s) + multiset{fo.id}
  {
    hide Bag;
    if fo.scheduled == [] {
      Appended(s.completed, fo, FoId);
    } else if StillWanted(s, fo) {
      Appended(s.queue, fo, FoId);
    } else {
      Appended(s.dropped, fo, FoId);
    }
  }

  lemma SettleObjects(s: System, fo: FileObject, outcome: Outcome)
    requires !outcome.Raised? ==> outcome.fo.id == fo.id
    ensures Objects(Settle(s, fo, outcome)) == Objects(s) + multiset{fo.id}
  {
    hide Objects;
    match outcome
    case Continue(fo', rows) =>
      ForwardObjects(s.(db := s.db[fo'.uid := rows]), fo');
      SameObjects(s, s.(db := s.db[fo'.uid := rows]));
    case Send(fo', p) => SentObjects(s, Job(fo', p, s.clock));
    case Raised => LostObjects(s, Loss(fo, RowsOf(s, fo.uid)));
  }

  lemma SentObjects(s: System, job: Job)
    ensures Objects(s.(waiting := s.waiting + [job])) == Objects(s) + multiset{job.fo.id}
  {
    Appended(s.waiting, job, JobId);
  }

  lemma LostObjects(s: System, loss: Loss)
    ensures Objects(s.(lost := s.lost + [loss])) == Objects(s) + multiset{loss.fo.id}
  {
    Appended(s.lost, loss, LossId);
  }

  lemma SameObjects(s: System, s': System)
    requires s' == s.(db := s'.db, clock := s'.clock, inProgress := s'.inProgress, arrived := s'.arrived, ordered := s'.ordered)
    ensures Objects(s') == Objects(s)
  {
  }

  lemma ProcessKeepsId(plugins: Plugins, fo: FileObject, rows: Rows, now: real)
    requires fo.scheduled != []
    ensures var o := ProcessNext(plugins, fo, rows, now);
      !o.Raised? ==>
        && o.fo.id == fo.id && o.fo.uid == fo.uid && o.fo.failure == fo.failure
        && o.fo.scheduled == fo.scheduled[..|fo.scheduled| - 1]
  {
    hide UpToDate, Unfulfilled, SchemasFit, CheckLists, SkippedAnalysis;
    var n := |fo.scheduled| - 1;
    ListsKeepId(plugins, fo.(scheduled := fo.scheduled[..n]), rows, fo.scheduled[n]);
  }

  lemma ListsKeepId(plugins: Plugins, fo: FileObject, rows: Rows, p: string)
    ensures var v := CheckLists(plugins, fo, rows, p);
      v.Verdict? ==> v.fo == fo.(processed := v.fo.processed)
  {
    hide MimeBlocked, HasLists;
  }

  lemma CollectKeepsId(plugins: Plugins, fo: FileObject, rows: Rows, p: string, now: real)
    ensures var o := HandleCollected(plugins, fo, rows, p, now);
      && !o.Send?
      && (!o.Raised? ==> o.fo.id == fo.id && o.fo.uid == fo.uid && o.fo.failure.None? && |o.fo.scheduled| <= |fo.scheduled|)
  {
  }

  lemma StepObjects(plugins: Plugins, s: System, a: Step)
    requires Enabled(s, a)
    ensures Objects(Apply(plugins, s, a)) == Objects(s) + (if a.Arrive? then multiset{a.fo.id} else multiset{})
  {
    match a
    case Arrive(fo) => ArriveObjects(plugins, s, fo);
    case Process => ProcessObjects(plugins, s);
    case Work(i) => WorkObjects(s, i);
    case Return(i, report) => ReturnObjects(plugins, s, i, report);
    case Collect(i) => CollectObjects(plugins, s, i);
    case Environment(now, progress) => SameObjects(s, Apply(plugins, s, a));
  }

  lemma ArriveObjects(plugins: Plugins, s: System, fo: FileObject)
    ensures Objects(DoArrive(plugins, s, fo)) == Objects(s) + multiset{fo.id}
  {
    hide Objects, Forward;
    var s1 := s.(arrived := s.arrived + {fo.id},
                 ordered := if WellScheduled(plugins.deps, fo) then s.ordered + {fo.id} else s.ordered);
    SameObjects(s, s1);
    ForwardObjects(s1, fo);
  }

  lemma ProcessObjects(plugins: Plugins, s: System)
    requires s.queue != [] && s.queue[0].scheduled != []
    ensures Objects(DoProcess(plugins, s)) == Objects(s)
  {
    hide Settle, ProcessNext;
    var fo := s.queue[0];
    Removed(s.queue, 0, FoId);
    assert RemoveAt(s.queue, 0) == s.queue[1..];
    ProcessKeepsId(plugins, fo, RowsOf(s, fo.uid), s.clock);
    SettleObjects(s.(queue := s.queue[1..]), fo, ProcessNext(plugins, fo, RowsOf(s, fo.uid), s.clock));
  }

  lemma WorkObjects(s: System, i: nat)
    requires i < |s.waiting|
    ensures Objects(DoWork(s, i)) == Objects(s)
  {
    Removed(s.waiting, i, JobId);
    Appended(s.working, s.waiting[i].(since := s.clock), JobId);
  }

  lemma ReturnObjects(plugins: Plugins, s: System, i: nat, report: Report)
    requires i < |s.working|
    ensures Objects(DoReturn(plugins, s, i, report)) == Objects(s)
  {
    var job := s.working[i];
    Removed(s.working, i, JobId);
    Appended(s.returned, Job(WriteResult(plugins, job.fo, job.plugin, report), job.plugin, s.clock), JobId);
  }

  lemma CollectObjects(plugins: Plugins, s: System, i: nat)
    requires i < |s.returned|
    ensures Objects(DoCollect(plugins, s, i)) == Objects(s)
  {
    hide Settle, HandleCollected;
    var job := s.returned[i];
    Removed(s.returned, i, JobId);
    CollectKeepsId(plugins, job.fo, RowsOf(s, job.fo.uid), job.plugin, s.clock);
    SettleObjects(s.(returned := RemoveAt(s.returned, i)), job.fo,
                  HandleCollected(plugins, job.fo, RowsOf(s, job.fo.uid), job.plugin, s.clock));
  }

  // ---- work left ----

  function FoWork(fo: FileObject): nat { 4 * |fo.scheduled| }
  function WaitingWork(job: Job): nat { 4 * |job.fo.scheduled| + 3 }
  function WorkingWork(job: Job): nat { 4 * |job.fo.scheduled| + 2 }
  function ReturnedWork(job: Job): nat { 4 * |job.fo.scheduled| + 1 }

  /** The termination measure: four units for each plugin still scheduled, and less than four for
      the one in work. */
  ghost function Measure(s: System): nat {
    Sum(s.queue, FoWork) + Sum(s.waiting, WaitingWork) + Sum(s.working, WorkingWork) + Sum(s.returned, ReturnedWork)
  }

  lemma SettleMeasure(s: System, fo: FileObject, outcome: Outcome)
    ensures Measure(Settle(s, fo, outcome)) <= Measure(s) +
      match outcome
      case Continue(fo', _) => 4 * |fo'.scheduled|
      case Send(fo', _) => 4 * |fo'.scheduled| + 3
      case Raised => 0
  {
    hide Sum;
    match outcome
    case Continue(fo', rows) => Appended(s.queue, fo', FoWork);
    case Send(fo', p) => Appended(s.waiting, Job(fo', p, s.clock), WaitingWork);
    case Raised =>
  }

  /** Every step that is not an arrival or a change of the surroundings leaves less work. */
  lemma StepDecreases(plugins: Plugins, s: System, a: Step)
    requires Enabled(s, a) && !a.Arrive? && !a.Environment?
    ensures Measure(Apply(plugins, s, a)) < Measure(s)
  {
    hide Settle, ProcessNext, HandleCollected, Sum;
    match a
    case Process =>
      var fo := s.queue[0];
      Removed(s.queue, 0, FoWork);
      assert RemoveAt(s.queue, 0) == s.queue[1..];
      ProcessKeepsId(plugins, fo, RowsOf(s, fo.uid), s.clock);
      SettleMeasure(s.(queue := s.queue[1..]), fo, ProcessNext(plugins, fo, RowsOf(s, fo.uid), s.clock));
    case Work(i) =>
      Removed(s.waiting, i, WaitingWork);
      Appended(s.working, s.waiting[i].(since := s.clock), WorkingWork);
    case Return(i, report) =>
      var job := s.working[i];
      Removed(s.working, i, WorkingWork);
      Appended(s.returned, Job(WriteResult(plugins, job.fo, job.plugin, report), job.plugin, s.clock), ReturnedWork);
    case Collect(i) =>
      var job := s.returned[i];
      Removed(s.returned, i, ReturnedWork);
      CollectKeepsId(plugins, job.fo, RowsOf(s, job.fo.uid), job.plugin, s.clock);
      SettleMeasure(s.(returned := RemoveAt(s.returned, i)), job.fo,
                    HandleCollected(plugins, job.fo, RowsOf(s, job.fo.uid), job.plugin, s.clock));
  }

  /** The states are passed through by the given steps. */
  ghost predicate IsTrace(plugins: Plugins, states: seq<System>, steps: seq<Step>) {
    && |states| == |steps| + 1
    && forall i :: 0 <= i < |steps| ==> Enabled(states[i], steps[i]) && states[i + 1] == Apply(plugins, states[i], steps[i])
  }

  function Handles(a: Step): nat { if a.Arrive? || a.Environment? then 0 else 1 }
  function Brings(a: Step): nat { if a.Arrive? then FoWork(a.fo) else 0 }

  lemma StepMeasure(plugins: Plugins, s: System, a: Step)
    requires Enabled(s, a)
    ensures Handles(a) + Measure(Apply(plugins, s, a)) <= Measure(s) + Brings(a)
  {
    hide Sum;
    match a
    case Arrive(fo) => Appended(s.queue, fo, FoWork);
    case Environment(_, _) =>
    case _ => StepDecreases(plugins, s, a);
  }

  /** However steps, arrivals, the clock and cancellations are interleaved, objects are handled no
      more often than the work there was and the work that arrived allow: without arrivals the
      pipeline comes to rest, and no object is handled more than four times per scheduled plugin. */
  lemma {:induction false} WorkIsBounded(plugins: Plugins, states: seq<System>, steps: seq<Step>)
    requires IsTrace(plugins, states, steps)
    ensures Sum(steps, Handles) + Measure(states[|steps|]) <= Measure(states[0]) + Sum(steps, Brings)
  {
    hide Measure, Apply, Enabled;
    if steps != [] {
      var n := |steps| - 1;
      WorkIsBounded(plugins, states[..n + 1], steps[..n]);
      StepMeasure(plugins, states[n], steps[n]);
    }
  }

  // ---- invariant ----

  /** A returned object carries what some plugin run wrote into it. */
  ghost predicate CameBack(plugins: Plugins, job: Job) {
    exists fo, report :: AwaitsResult(plugins.deps, fo, job.plugin) && fo.failure.None?
                         && fo.id == job.fo.id && job.fo == WriteResult(plugins, fo, job.plugin, report)
  }

  ghost predicate QueuedOk(plugins: Plugins, ordered: set<nat>, fo: FileObject) {
    fo.scheduled != [] && fo.failure.None? && (fo.id in ordered ==> WellScheduled(plugins.deps, fo))
  }

  ghost predicate JobOk(plugins: Plugins, ordered: set<nat>, job: Job) {
    job.fo.failure.None? && (job.fo.id in ordered ==> AwaitsResult(plugins.deps, job.fo, job.plugin))
  }

  /** A scheduled plugin has MIME lists to check, and neither the object nor else the database
      knows a MIME type. */
  ghost predicate NoMime(plugins: Plugins, fo: FileObject, rows: Rows, p: string) {
    && p in fo.scheduled && p !in MANDATORY_PLUGINS && HasLists(plugins, p)
    && if FILE_TYPE in fo.processed then "mime" !in fo.processed[FILE_TYPE].result
       else FILE_TYPE in rows ==> "mime" !in rows[FILE_TYPE].result
  }

  /** The lists of the next plugin had to be checked, and no MIME type was known. */
  ghost predicate LostToLists(plugins: Plugins, fo: FileObject, rows: Rows) {
    && fo.scheduled != []
    && var p := fo.scheduled[|fo.scheduled| - 1];
       p in plugins.deps && NoMime(plugins, fo, rows, p) && (fo.forceUpdate || !UpToDate(plugins, rows, p))
  }

  ghost predicate ContentsOk(plugins: Plugins, s: System) {
    && (forall fo :: fo in s.queue ==> QueuedOk(plugins, s.ordered, fo))
    && (forall job :: job in s.waiting ==> JobOk(plugins, s.ordered, job))
    && (forall job :: job in s.working ==> JobOk(plugins, s.ordered, job))
    && (forall job :: job in s.returned && job.fo.id in s.ordered ==> CameBack(plugins, job))
    && (forall loss :: loss in s.lost && loss.fo.id in s.ordered ==> LostToLists(plugins, loss.fo, loss.rows))
  }

  ghost predicate Inv(plugins: Plugins, s: System) {
    OnePlace(s) && s.ordered <= s.arrived && ContentsOk(plugins, s)
  }

  ghost predicate OutcomeOk(plugins: Plugins, ordered: set<nat>, fo: FileObject, rows: Rows, o: Outcome) {
    match o
    case Continue(fo', _) => fo'.id == fo.id && fo'.failure.None? && (fo.id in ordered ==> WellScheduled(plugins.deps, fo'))
    case Send(fo', p) => fo'.id == fo.id && fo'.failure.None? && (fo.id in ordered ==> AwaitsResult(plugins.deps, fo', p))
    case Raised => fo.id in ordered ==> LostToLists(plugins, fo, rows)
  }

  lemma SettleKeeps(plugins: Plugins, s: System, fo: FileObject, o: Outcome)
    requires ContentsOk(plugins, s) && OutcomeOk(plugins, s.ordered, fo, RowsOf(s, fo.uid), o)
    ensures ContentsOk(plugins, Settle(s, fo, o))
    ensures Settle(s, fo, o).ordered == s.ordered && Settle(s, fo, o).arrived == s.arrived
  {
    hide LostToLists, CameBack, WellScheduled, AwaitsResult;
  }

  lemma ProcessOutcome(plugins: Plugins, s: System, fo: FileObject)
    requires QueuedOk(plugins, s.ordered, fo)
    ensures OutcomeOk(plugins, s.ordered, fo, RowsOf(s, fo.uid), ProcessNext(plugins, fo, RowsOf(s, fo.uid), s.clock))
  {
    hide WellScheduled, AwaitsResult, NoMime, UpToDate;
    ProcessKeepsId(plugins, fo, RowsOf(s, fo.uid), s.clock);
    if fo.id in s.ordered {
      ProcessKeepsSchedule(plugins, fo, RowsOf(s, fo.uid), s.clock);
      RaisedIsNoMime(plugins, fo, RowsOf(s, fo.uid), s.clock);
    }
  }

  /** Exactly a missing MIME type raises an exception for an object with an ordered schedule. */
  lemma RaisedIsNoMime(plugins: Plugins, fo: FileObject, rows: Rows, now: real)
    requires WellScheduled(plugins.deps, fo) && fo.scheduled != []
    ensures var p := fo.scheduled[|fo.scheduled| - 1];
      && p in plugins.deps
      && (ProcessNext(plugins, fo, rows, now).Raised? <==>
          NoMime(plugins, fo, rows, p) && (fo.forceUpdate || !UpToDate(plugins, rows, p)))
  {
    hide UpToDate, Unfulfilled, SchemasFit, MimeBlocked, HasLists, SkippedAnalysis;
    var n := |fo.scheduled| - 1;
    forall q | q in fo.scheduled ensures q in plugins.deps {
      var i :| 0 <= i < |fo.scheduled| && fo.scheduled[i] == q;
      assert DependencyComing(plugins.deps, fo.scheduled, fo.processed.Keys, i);
    }
    assert forall q :: q in fo.scheduled[..n] ==> q in fo.scheduled;
    assert Elements(fo.scheduled[..n]) <= plugins.deps.Keys;
  }

  lemma CollectOutcome(plugins: Plugins, s: System, job: Job)
    requires job.fo.id in s.ordered ==> CameBack(plugins, job)
    ensures OutcomeOk(plugins, s.ordered, job.fo, RowsOf(s, job.fo.uid), HandleCollected(plugins, job.fo, RowsOf(s, job.fo.uid), job.plugin, s.clock))
  {
    hide WellScheduled, AwaitsResult;
    CollectKeepsId(plugins, job.fo, RowsOf(s, job.fo.uid), job.plugin, s.clock);
    if job.fo.id in s.ordered {
      var fo, report :| AwaitsResult(plugins.deps, fo, job.plugin) && fo.failure.None?
                        && fo.id == job.fo.id && job.fo == WriteResult(plugins, fo, job.plugin, report);
      CollectKeepsSchedule(plugins, fo, RowsOf(s, job.fo.uid), job.plugin, s.clock, report);
    }
  }

  lemma ArriveContents(plugins: Plugins, s: System, fo: FileObject)
    requires ContentsOk(plugins, s) && OnePlace(s) && s.ordered <= s.arrived && Enabled(s, Arrive(fo))
    ensures ContentsOk(plugins, DoArrive(plugins, s, fo))
  {
    hide LostToLists, CameBack, WellScheduled, AwaitsResult, OnePlace;
    NotPresent(s, fo.id);
  }

  lemma NotPresent(s: System, id: nat)
    requires OnePlace(s) && id !in s.arrived
    ensures forall fo :: fo in s.queue ==> fo.id != id
    ensures forall loss :: loss in s.lost ==> loss.fo.id != id
    ensures forall job :: job in s.waiting || job in s.working || job in s.returned ==> job.fo.id != id
  {
    assert Objects(s)[id] == 0;
    forall fo | fo in s.queue ensures fo.id != id {
      InBag(s.queue, fo, FoId);
    }
    forall loss | loss in s.lost ensures loss.fo.id != id {
      InBag(s.lost, loss, LossId);
    }
    forall job | job in s.waiting ensures job.fo.id != id {
      InBag(s.waiting, job, JobId);
    }
    forall job | job in s.working ensures job.fo.id != id {
      InBag(s.working, job, JobId);
    }
    forall job | job in s.returned ensures job.fo.id != id {
      InBag(s.returned, job, JobId);
    }
  }

  lemma InBag<T>(q: seq<T>, x: T, f: T -> nat)
    requires x in q
    ensures f(x) in Bag(q, f)
  {
    var i :| 0 <= i < |q| && q[i] == x;
    Removed(q, i, f);
  }

  lemma StepContents(plugins: Plugins, s: System, a: Step)
    requires Inv(plugins, s) && Enabled(s, a)
    ensures ContentsOk(plugins, Apply(plugins, s, a))
    ensures Apply(plugins, s, a).ordered <= Apply(plugins, s, a).arrived
    ensures Apply(plugins, s, a).arrived == s.arrived + (if a.Arrive? then {a.fo.id} else {})
  {
    hide OnePlace, LostToLists, WellScheduled, AwaitsResult, Settle, ProcessNext, HandleCollected;
    match a
    case Arrive(fo) => ArriveContents(plugins, s, fo);
    case Process =>
      ProcessOutcome(plugins, s, s.queue[0]);
      SettleKeeps(plugins, s.(queue := s.queue[1..]), s.queue[0],
                  ProcessNext(plugins, s.queue[0], RowsOf(s, s.queue[0].uid), s.clock));
    case Work(i) =>
      assert JobOk(plugins, s.ordered, s.waiting[i]);
    case Return(i, report) =>
      var job := s.working[i];
      assert JobOk(plugins, s.ordered, job);
    case Collect(i) =>
      CollectOutcome(plugins, s, s.returned[i]);
      SettleKeeps(plugins, s.(returned := RemoveAt(s.returned, i)), s.returned[i].fo,
                  HandleCollected(plugins, s.returned[i].fo, RowsOf(s, s.returned[i].fo.uid), s.returned[i].plugin, s.clock));
    case Environment(now, progress) =>
  }

  lemma StepKeeps(plugins: Plugins, s: System, a: Step)
    requires Inv(plugins, s) && Enabled(s, a)
    ensures Inv(plugins, Apply(plugins, s, a))
  {
    hide Objects, QueuedOk, JobOk, CameBack, LostToLists, DoArrive, DoProcess, DoWork, DoReturn, DoCollect;
    StepObjects(plugins, s, a);
    StepContents(plugins, s, a);
    var s' := Apply(plugins, s, a);
    forall id ensures Objects(s')[id] == (if id in s'.arrived then 1 else 0) {
      assert Objects(s)[id] == (if id in s.arrived then 1 else 0);
    }
  }

  lemma {:induction false} RunInvariant(plugins: Plugins, run: seq<System>, i: nat)
    requires IsRun(plugins, run) && i < |run|
    ensures Inv(plugins, run[i])
  {
    hide Inv;
    if i == 0 {
      EmptyInv(plugins, run[0]);
    } else {
      RunInvariant(plugins, run, i - 1);
      assert Next(plugins, run[i - 1], run[i - 1 + 1]);
      var a :| Enabled(run[i - 1], a) && run[i] == Apply(plugins, run[i - 1], a);
      StepKeeps(plugins, run[i - 1], a);
    }
  }

  lemma EmptyInv(plugins: Plugins, s: System)
    requires Empty(s)
    ensures Inv(plugins, s)
  {
    assert Objects(s) == multiset{};
  }

  /** In every state of every run each object that arrived is in exactly one place, objects in
      the process queue have something left to do, and (for objects that were scheduled) the
      plugin about to be popped finds an entry for each of its dependencies. */
  lemma ObjectsAndOrder(plugins: Plugins, run: seq<System>, i: nat)
    requires IsRun(plugins, run) && i < |run|
    ensures OnePlace(run[i])
    ensures forall fo :: fo in run[i].queue ==> fo.scheduled != []
    ensures forall fo :: fo in run[i].queue && fo.id in run[i].ordered ==>
      var p := fo.scheduled[|fo.scheduled| - 1];
      && p in plugins.deps && (forall d :: d in plugins.deps[p] ==> d in fo.processed)
      && (Unfulfilled(plugins, fo.processed, p) ==>
          exists d :: d in plugins.deps[p] && d in fo.processed && (IsSkipped(fo.processed[d]) || IsFailed(fo.processed[d])))
  {
    hide Objects, CameBack, LostToLists, WellScheduled, AwaitsResult;
    RunInvariant(plugins, run, i);
    forall fo | fo in run[i].queue && fo.id in run[i].ordered
      ensures var p := fo.scheduled[|fo.scheduled| - 1];
        && p in plugins.deps && (forall d :: d in plugins.deps[p] ==> d in fo.processed)
        && (Unfulfilled(plugins, fo.processed, p) ==>
            exists d :: d in plugins.deps[p] && d in fo.processed && (IsSkipped(fo.processed[d]) || IsFailed(fo.processed[d])))
    {
      assert QueuedOk(plugins, run[i].ordered, fo);
      PoppedHasDependencies(plugins, fo);
    }
  }

  /** Completion is signalled at most once for an object. */
  lemma CompletedOnce(plugins: Plugins, run: seq<System>, i: nat, j: nat, k: nat)
    requires IsRun(plugins, run) && i < |run| && j < k < |run[i].completed|
    ensures run[i].completed[j].id != run[i].completed[k].id
  {
    RunInvariant(plugins, run, i);
    var s := run[i];
    Removed(s.completed, k, FoId);
    var rest := RemoveAt(s.completed, k);
    assert rest[j] == s.completed[j];
    InBag(rest, rest[j], FoId);
    assert s.completed[j].id == s.completed[k].id ==> Objects(s)[s.completed[k].id] >= 2;
  }

  /** ... and it is final: what is completed, dropped or lost stays so, in the same order. */
  lemma {:induction false} CompletedStays(plugins: Plugins, run: seq<System>, i: nat, j: nat)
    requires IsRun(plugins, run) && i <= j < |run|
    ensures run[i].completed <= run[j].completed && run[i].dropped <= run[j].dropped && run[i].lost <= run[j].lost
    decreases j
  {
    hide Enabled, Apply, Empty;
    if i < j {
      CompletedStays(plugins, run, i, j - 1);
      assert Next(plugins, run[j - 1], run[j - 1 + 1]);
      var a :| Enabled(run[j - 1], a) && run[j] == Apply(plugins, run[j - 1], a);
      CompletedGrows(plugins, run[j - 1], a);
    }
  }

  lemma CompletedGrows(plugins: Plugins, s: System, a: Step)
    requires Enabled(s, a)
    ensures var s' := Apply(plugins, s, a);
      s.completed <= s'.completed && s.dropped <= s'.dropped && s.lost <= s'.lost
  {
    hide ProcessNext, HandleCollected, WriteResult, WellScheduled;
  }

  /** In every run an object that came with an ordered schedule is lost for one reason only: at that
      moment the MIME lists of its next plugin had to be checked, and neither the object nor the
      database knew a MIME type. */
  lemma LostForMimeOnly(plugins: Plugins, run: seq<System>, i: nat, loss: Loss)
    requires IsRun(plugins, run) && i < |run| && loss in run[i].lost && loss.fo.id in run[i].ordered
    ensures LostToLists(plugins, loss.fo, loss.rows)
  {
    hide OnePlace, LostToLists;
    RunInvariant(plugins, run, i);
  }

  /** Such an object: a single file with one plugin to run, which has a MIME list, and no file type
      in the database. */
  lemma ObjectGetsLost() returns (plugins: Plugins, run: seq<System>)
    ensures IsRun(plugins, run) && run[|run| - 1].lost != [] && run[|run| - 1].lost[0].fo.id in run[|run| - 1].ordered
  {
    plugins := Plugins(map["x" := {}], _ => 1, _ => 1, _ => ["audio"], _ => [], (_, _) => true);
    var s := System([], [], [], [], [], [], [], map[], 0.0, {}, {}, {});
    var fo := FileObject(0, "uid", None, false, false, ["x"], map[], None);
    assert WellScheduled(plugins.deps, fo) by {
      assert DependencyComing(plugins.deps, fo.scheduled, fo.processed.Keys, 0);
    }
    var s1 := Apply(plugins, s, Arrive(fo));
    assert s1.queue == [fo] && s1.ordered == {0};
    RaisedIsNoMime(plugins, fo, RowsOf(s1, fo.uid), s1.clock);
    assert "x" !in MANDATORY_PLUGINS;
    var s2 := Apply(plugins, s1, Process);
    run := [s, s1, s2];
    assert Next(plugins, s, s1) && Next(plugins, s1, s2);
  }

  // ---- where objects go, and in which order ----

  /** The firmware of the file, or the file itself, is being analysed, or it need not be. */
  ghost predicate IsWanted(fo: FileObject, inProgress: set<string>) {
    || fo.isFirmware || fo.root == None
    || (exists root :: fo.root == Some(root) && root in inProgress)
    || fo.uid in inProgress
  }

  /** What a step may do to the process queue and the final places: an object that has nothing left
      to do is completed, one that has is queued at the end if it is wanted and else dropped. The
      queue is served at its front. */
  ghost predicate GoesOn(s: System, a: Step, s': System) {
    var q := if a.Process? && s.queue != [] then s.queue[1..] else s.queue;
    || (s'.queue == q && s'.dropped == s.dropped && s'.completed == s.completed)
    || (exists fo: FileObject :: GoesTo(s, q, fo, s'))
  }

  ghost predicate GoesTo(s: System, q: seq<FileObject>, fo: FileObject, s': System) {
    if fo.scheduled == [] then s'.queue == q && s'.dropped == s.dropped && s'.completed == s.completed + [fo]
    else if IsWanted(fo, s.inProgress) then s'.queue == q + [fo] && s'.dropped == s.dropped && s'.completed == s.completed
    else s'.queue == q && s'.dropped == s.dropped + [fo] && s'.completed == s.completed
  }

  lemma ForwardGoes(s: System, fo: FileObject)
    ensures GoesTo(s, s.queue, fo, Forward(s, fo))
  {
    if fo.root.Some? {
      assert fo.root == Some(fo.root.value);
    }
  }

  lemma SettleGoes(s: System, fo: FileObject, outcome: Outcome)
    ensures var s' := Settle(s, fo, outcome);
      if outcome.Continue? then GoesTo(s, s.queue, outcome.fo, s')
      else s'.queue == s.queue && s'.dropped == s.dropped && s'.completed == s.completed
  {
    hide Forward, IsWanted;
    if outcome.Continue? {
      ForwardGoes(s.(db := s.db[outcome.fo.uid := outcome.rows]), outcome.fo);
    }
  }

  lemma StepGoesOn(plugins: Plugins, s: System, a: Step)
    requires Enabled(s, a)
    ensures GoesOn(s, a, Apply(plugins, s, a))
  {
    hide ProcessNext, HandleCollected, WriteResult, WellScheduled, Forward, Settle, IsWanted;
    match a
    case Arrive(fo) =>
      ForwardGoes(s.(arrived := s.arrived + {fo.id},
                     ordered := if WellScheduled(plugins.deps, fo) then s.ordered + {fo.id} else s.ordered), fo);
    case Process =>
      SettleGoes(s.(queue := s.queue[1..]), s.queue[0], ProcessNext(plugins, s.queue[0], RowsOf(s, s.queue[0].uid), s.clock));
    case Collect(i) =>
      var job := s.returned[i];
      SettleGoes(s.(returned := RemoveAt(s.returned, i)), job.fo, HandleCollected(plugins, job.fo, RowsOf(s, job.fo.uid), job.plugin, s.clock));
    case _ =>
  }

  /** An object is only ever dropped because its firmware was not being analysed any more: at some
      earlier moment of the run neither the firmware nor the file itself was in progress. */
  lemma {:induction false} DroppedAfterCancel(plugins: Plugins, run: seq<System>, i: nat, fo: FileObject) returns (k: nat)
    requires IsRun(plugins, run) && i < |run| && fo in run[i].dropped
    ensures k < i && !fo.isFirmware && fo.root.Some? && fo.scheduled != []
    ensures fo.root.value !in run[k].inProgress && fo.uid !in run[k].inProgress
  {
    hide Apply, Enabled;
    assert i > 0;
    assert Next(plugins, run[i - 1], run[i - 1 + 1]);
    var a :| Enabled(run[i - 1], a) && run[i] == Apply(plugins, run[i - 1], a);
    StepGoesOn(plugins, run[i - 1], a);
    if fo in run[i - 1].dropped {
      k := DroppedAfterCancel(plugins, run, i - 1, fo);
    } else {
      k := i - 1;
      NotWanted(fo, run[k].inProgress);
    }
  }

  lemma NotWanted(fo: FileObject, inProgress: set<string>)
    ensures !IsWanted(fo, inProgress) ==> !fo.isFirmware && fo.root.Some? && fo.root.value !in inProgress && fo.uid !in inProgress
  {
  }

  /** While its firmware is in progress, no object of it is dropped. */
  lemma RunningIsKept(plugins: Plugins, s: System, a: Step, fo: FileObject)
    requires Enabled(s, a) && fo !in s.dropped
    requires fo.isFirmware || fo.root.None? || fo.root.value in s.inProgress || fo.uid in s.inProgress
    ensures fo !in Apply(plugins, s, a).dropped
  {
    hide Apply, Enabled;
    StepGoesOn(plugins, s, a);
    assert IsWanted(fo, s.inProgress) by {
      if !fo.isFirmware && fo.root.Some? {
        assert fo.root == Some(fo.root.value);
      }
    }
  }

  /** The process queue is first in, first out. */
  lemma {:induction false} ServedInOrder(plugins: Plugins, run: seq<System>, i: nat, j: nat) returns (added: seq<FileObject>, taken: nat)
    requires IsRun(plugins, run) && i <= j < |run|
    ensures taken <= |run[i].queue + added| && run[j].queue == (run[i].queue + added)[taken..]
    decreases j
  {
    hide Apply, Enabled, Empty, GoesOn;
    if i == j {
      added, taken := [], 0;
    } else {
      added, taken := ServedInOrder(plugins, run, i, j - 1);
      assert Next(plugins, run[j - 1], run[j - 1 + 1]);
      var a :| Enabled(run[j - 1], a) && run[j] == Apply(plugins, run[j - 1], a);
      StepGoesOn(plugins, run[j - 1], a);
      var more, n := QueueChange(run[j - 1], a, run[j]);
      Composed(run[i].queue, added, taken, run[j - 1].queue, more, n);
      added, taken := added + more, taken + n;
    }
  }

  lemma Composed<T>(q: seq<T>, added: seq<T>, taken: nat, q1: seq<T>, more: seq<T>, n: nat)
    requires taken <= |q + added| && q1 == (q + added)[taken..] && n <= |q1|
    ensures taken + n <= |q + (added + more)| && (q1 + more)[n..] == (q + (added + more))[taken + n..]
  {
    assert q + (added + more) == (q + added) + more;
    assert q1 + more == (q + (added + more))[taken..];
  }

  lemma QueueChange(s: System, a: Step, s': System) returns (added: seq<FileObject>, taken: nat)
    requires GoesOn(s, a, s')
    ensures taken <= |s.queue| && s'.queue == (s.queue + added)[taken..]
  {
    hide IsWanted;
    taken := if a.Process? && s.queue != [] then 1 else 0;
    var q := s.queue[taken..];
    added := s'.queue[|q|..];
    assert s'.queue == q + added == (s.queue + added)[taken..];
  }
}
