/** The scheduler object of src/scheduler/analysis/scheduler.py: its methods move file objects
    between the queues in place, and each is one step of the pipeline. */
module AnalysisScheduler {
  import opened Common
  import opened Graphs
  import opened TaskScheduler
  import opened AnalysisTasks
  import opened AnalysisQueues
  import opened AnalysisPass

  class Scheduler {
    const plugins: Plugins
    var processQueue: seq<FileObject>
    var inQueues: seq<Job>
    var workers: seq<Job>
    var outQueues: seq<Job>
    var completed: seq<FileObject>
    var dropped: seq<FileObject>
    var lost: seq<Loss>
    var db: map<string, Rows>
    var clock: real
    var inProgress: set<string>
    ghost var arrived: set<nat>
    ghost var ordered: set<nat>

    constructor (plugins: Plugins, db: map<string, Rows>, clock: real)
      ensures this.plugins == plugins && Empty(Now()) && this.db == db && this.clock == clock
      ensures Inv(plugins, Now())
    {
      this.plugins, this.db, this.clock := plugins, db, clock;
      processQueue, inQueues, workers, outQueues := [], [], [], [];
      completed, dropped, lost, inProgress := [], [], [], {};
      arrived, ordered := {}, {};
      new;
      EmptyInv(plugins, Now());
    }

    ghost function Now(): System
      reads this
    {
      System(processQueue, inQueues, workers, outQueues, completed, dropped, lost, db, clock, inProgress, arrived, ordered)
    }

    method CheckFurtherProcessOrComplete(fo: FileObject)
      modifies this`processQueue, this`completed, this`dropped
      ensures Now() == Forward(old(Now()), fo)
    {
      if fo.scheduled == [] {
        completed := completed + [fo];
      } else if fo.isFirmware || fo.root.None? || fo.root.value in inProgress || fo.uid in inProgress {
        processQueue := processQueue + [fo];
      } else {
        dropped := dropped + [fo];
      }
    }

    /** An object that is not in the pipeline yet enters it with the schedule it has. */
    method Enter(fo: FileObject)
      requires Inv(plugins, Now()) && Enabled(Now(), Arrive(fo))
      modifies this`processQueue, this`completed, this`dropped, this`arrived, this`ordered
      ensures Inv(plugins, Now()) && Now() == DoArrive(plugins, old(Now()), fo)
      ensures arrived == old(arrived) + {fo.id}
      ensures ordered == if WellScheduled(plugins.deps, fo) then old(ordered) + {fo.id} else old(ordered)
    {
      hide Inv, WellScheduled;
      StepKeeps(plugins, Now(), Arrive(fo));
      ordered := if WellScheduled(plugins.deps, fo) then ordered + {fo.id} else ordered;
      arrived := arrived + {fo.id};
      CheckFurtherProcessOrComplete(fo);
    }

    /** `schedule_analysis_tasks` for one object; `ok` is false when it raises KeyError. */
    method Schedule(fo: FileObject, requested: set<string>, mandatory: bool) returns (ok: bool, fo': FileObject)
      ensures ok <==> AllInstalled(plugins, requested, mandatory)
      ensures ok ==> fo' == fo.(scheduled := fo'.scheduled) && ScheduleFor(plugins, requested, mandatory, fo'.scheduled)
    {
      hide Reaches, WellFounded, Restrict;
      var r, considered := ScheduleAnalysisTasks(plugins.deps, requested, mandatory);
      if r.KeyError? {
        return false, fo;
      }
      return true, fo.(scheduled := r.value);
    }

    /** The object is scheduled for its request and enters. If a plugin is not installed, nothing
        happens. */
    method ScheduleAndEnter(fo: FileObject, mandatory: bool) returns (ok: bool, fo': FileObject)
      requires Inv(plugins, Now()) && Enabled(Now(), Arrive(fo))
      modifies this`processQueue, this`completed, this`dropped, this`arrived, this`ordered
      ensures Inv(plugins, Now())
      ensures ok <==> AllInstalled(plugins, Elements(fo.scheduled), mandatory)
      ensures !ok ==> Now() == old(Now())
      ensures ok ==> fo' == fo.(scheduled := fo'.scheduled) && ScheduleFor(plugins, Elements(fo.scheduled), mandatory, fo'.scheduled)
      ensures ok ==> Now() == DoArrive(plugins, old(Now()), fo')
      ensures ok && FileTypeFree(plugins) ==> fo.id in ordered && ScheduleOk(plugins, fo'.scheduled)
    {
      hide Inv, ScheduleFor, WellScheduled, ScheduleOk, AllInstalled, Forward;
      ok, fo' := Schedule(fo, (set q | q in fo.scheduled), mandatory);
      if ok {
        Enter(fo');
        if FileTypeFree(plugins) {
          ScheduledInOrder(plugins, Elements(fo.scheduled), mandatory, fo');
        }
      }
    }

    /** `start_analysis_of_object`: with the mandatory plugins. */
    method StartAnalysisOfObject(fo: FileObject) returns (ok: bool, fo': FileObject)
      requires Inv(plugins, Now()) && Enabled(Now(), Arrive(fo))
      modifies this`processQueue, this`completed, this`dropped, this`arrived, this`ordered
      ensures Inv(plugins, Now())
      ensures ok <==> AllInstalled(plugins, Elements(fo.scheduled), true)
      ensures !ok ==> Now() == old(Now())
      ensures ok ==> fo' == fo.(scheduled := fo'.scheduled) && ScheduleFor(plugins, Elements(fo.scheduled), true, fo'.scheduled)
      ensures ok ==> Now() == DoArrive(plugins, old(Now()), fo')
      ensures ok && FileTypeFree(plugins) ==> fo.id in ordered && ScheduleOk(plugins, fo'.scheduled)
    {
      ok, fo' := ScheduleAndEnter(fo, true);
    }

    /** `update_analysis_of_single_object`: only what was requested, and independent of any firmware,
        so that the object is never dropped. */
    method UpdateAnalysisOfSingleObject(fo: FileObject) returns (ok: bool, fo': FileObject)
      requires Inv(plugins, Now()) && Enabled(Now(), Arrive(fo))
      modifies this`processQueue, this`completed, this`dropped, this`arrived, this`ordered
      ensures Inv(plugins, Now()) && dropped == old(dropped)
      ensures ok <==> AllInstalled(plugins, Elements(fo.scheduled), false)
      ensures !ok ==> Now() == old(Now())
      ensures ok ==> fo' == fo.(root := None, scheduled := fo'.scheduled) && ScheduleFor(plugins, Elements(fo.scheduled), false, fo'.scheduled)
      ensures ok ==> Now() == DoArrive(plugins, old(Now()), fo')
      ensures ok && FileTypeFree(plugins) ==> fo.id in ordered && ScheduleOk(plugins, fo'.scheduled)
    {
      hide Inv, ScheduleFor, WellScheduled, ScheduleOk, AllInstalled;
      ok, fo' := ScheduleAndEnter(fo.(root := None), false);
    }

    /** A child takes over root and force flag, is scheduled with what was requested for the root,
        and enters. */
    method EnterChild(fo: FileObject, child: FileObject) returns (ok: bool, entered: FileObject)
      requires Inv(plugins, Now()) && Enabled(Now(), Arrive(child))
      modifies this`processQueue, this`completed, this`dropped, this`arrived, this`ordered
      ensures Inv(plugins, Now())
      ensures ok <==> AllInstalled(plugins, Elements(fo.scheduled), true)
      ensures !ok ==> Now() == old(Now())
      ensures ok ==> Now() == DoArrive(plugins, old(Now()), entered) && IsChildOf(plugins, fo, child, entered)
      ensures ok ==> arrived == old(arrived) + {child.id} && old(ordered) <= ordered
      ensures ok && FileTypeFree(plugins) ==> child.id in ordered
    {
      hide Inv, ScheduleFor, WellScheduled, ScheduleOk, AllInstalled, Forward, FileTypeFree;
      entered := child.(root := Some(fo.uid), forceUpdate := fo.forceUpdate);
      ok, entered := Schedule(entered, (set q | q in fo.scheduled), true);
      if ok {
        Enter(entered);
        if FileTypeFree(plugins) {
          ScheduledInOrder(plugins, Elements(fo.scheduled), true, entered);
        }
      }
    }

    /** `update_analysis_of_object_and_children`: the children enter first, in order; the root itself
        keeps its list and enters last. */
    method UpdateAnalysisOfObjectAndChildren(fo: FileObject, children: seq<FileObject>)
      returns (ok: bool, entered: seq<FileObject>)
      requires Inv(plugins, Now()) && Enabled(Now(), Arrive(fo)) && NewObjects(arrived, fo, children)
      modifies this`processQueue, this`completed, this`dropped, this`arrived, this`ordered
      ensures Inv(plugins, Now())
      ensures ok <==> children == [] || AllInstalled(plugins, Elements(fo.scheduled), true)
      ensures !ok ==> Now() == old(Now())
      ensures ok ==> |entered| == |children| && forall k :: 0 <= k < |children| ==> IsChildOf(plugins, fo, children[k], entered[k])
      ensures ok ==> Now() == ArriveAll(plugins, old(Now()), entered + [fo])
      ensures ok && FileTypeFree(plugins) ==> Ids(children) <= ordered
    {
      hide Inv, AllInstalled, Forward, FileTypeFree, Ids, NewObjects, WellScheduled, DoArrive, IsChildOf;
      entered := [];
      assert Ids(children[..0]) == {} by {
        NoIds(children[..0]);
      }
      for k := 0 to |children|
        invariant Inv(plugins, Now())
        invariant k > 0 ==> AllInstalled(plugins, Elements(fo.scheduled), true)
        invariant |entered| == k && forall i :: 0 <= i < k ==> IsChildOf(plugins, fo, children[i], entered[i])
        invariant Now() == ArriveAll(plugins, old(Now()), entered)
        invariant arrived == old(arrived) + Ids(children[..k])
        invariant FileTypeFree(plugins) ==> Ids(children[..k]) <= ordered
      {
        NextChild(old(arrived), fo, children, k);
        var child: FileObject;
        ok, child := EnterChild(fo, children[k]);
        if !ok {
          assert k == 0;
          return;
        }
        assert (entered + [child])[..k] == entered;
        entered := entered + [child];
      }
      assert children[..|children|] == children;
      RootIsNew(arrived, old(arrived), fo, children);
      ok := true;
      Enter(fo);
      assert (entered + [fo])[..|entered|] == entered;
    }

    method ProcessNextAnalysisTask()
      requires Inv(plugins, Now()) && Enabled(Now(), Process)
      modifies this`processQueue, this`inQueues, this`completed, this`dropped, this`lost, this`db
      ensures Inv(plugins, Now()) && Now() == DoProcess(plugins, old(Now()))
    {
      hide StartOrSkip, Forward, Inv;
      StepKeeps(plugins, Now(), Process);
      var fo := processQueue[0];
      processQueue := processQueue[1..];
      var rows := if fo.uid in db then db[fo.uid] else map[];
      var p := fo.scheduled[|fo.scheduled| - 1];
      var next := fo.(scheduled := fo.scheduled[..|fo.scheduled| - 1]);
      var outcome: Outcome;
      if p !in plugins.deps {
        outcome := Continue(next, rows);
      } else {
        outcome := StartOrSkipAnalysis(p, next, rows);
      }
      Resume(fo, outcome);
    }

    method Resume(fo: FileObject, outcome: Outcome)
      modifies this`processQueue, this`inQueues, this`completed, this`dropped, this`lost, this`db
      ensures Now() == Settle(old(Now()), fo, outcome)
    {
      match outcome {
        case Continue(fo', rows) =>
          db := db[fo'.uid := rows];
          CheckFurtherProcessOrComplete(fo');
        case Send(fo', p) =>
          inQueues := inQueues + [Job(fo', p, clock)];
        case Raised =>
          lost := lost + [Loss(fo, if fo.uid in db then db[fo.uid] else map[])];
      }
    }

    method StartOrSkipAnalysis(p: string, fo: FileObject, rows: Rows) returns (outcome: Outcome)
      requires p in plugins.deps
      ensures outcome == StartOrSkip(plugins, fo, rows, p, clock)
    {
      hide UpToDate, MimeBlocked, HasLists;
      var upToDate := IsUpToDate(plugins, rows, p);
      if !fo.forceUpdate && upToDate {
        StoredIfUpToDate(plugins, rows, p);
        var scheduled := set q | q in fo.scheduled;
        if !(scheduled <= plugins.deps.Keys) {
          return Raised;
        }
        if p in RemainingDependencies(plugins.deps, scheduled) {
          return Continue(fo.(processed := fo.processed[p := rows[p]]), rows);
        }
        return Continue(fo, rows);
      }
      var verdict := CheckLists(plugins, fo, rows, p);
      if verdict.NoFileType? {
        return Raised;
      }
      if verdict.blocked {
        return Skip(plugins, verdict.fo, rows, p, Blacklisted, clock);
      }
      if Unfulfilled(plugins, verdict.fo.processed, p) {
        return Skip(plugins, verdict.fo, rows, p, DependencyMissing, clock);
      }
      var fits := QueueAnalysis(p, verdict.fo);
      return if fits then Send(verdict.fo, p) else Skip(plugins, verdict.fo, rows, p, SchemaMismatch, clock);
    }

    /** `queue_analysis` up to the put: applies the schemas of the dependencies one by one. */
    method QueueAnalysis(p: string, fo: FileObject) returns (fits: bool)
      requires p in plugins.deps && !Unfulfilled(plugins, fo.processed, p)
      ensures fits == SchemasFit(plugins, fo.processed, p)
    {
      var todo := plugins.deps[p];
      while todo != {}
        invariant todo <= plugins.deps[p]
        invariant forall d :: d in plugins.deps[p] - todo ==> d in fo.processed && plugins.fits(d, fo.processed[d].result)
      {
        var d :| d in todo;
        if !plugins.fits(d, fo.processed[d].result) {
          return false;
        }
        todo := todo - {d};
      }
      return true;
    }

    method WorkerTakes(i: nat)
      requires Inv(plugins, Now()) && Enabled(Now(), Work(i))
      modifies this`inQueues, this`workers
      ensures Inv(plugins, Now()) && Now() == DoWork(old(Now()), i)
    {
      hide Inv;
      StepKeeps(plugins, Now(), Work(i));
      workers := workers + [inQueues[i].(since := clock)];
      inQueues := RemoveAt(inQueues, i);
    }

    method WorkerReturns(i: nat, report: Report)
      requires Inv(plugins, Now()) && Enabled(Now(), Return(i, report))
      modifies this`workers, this`outQueues
      ensures Inv(plugins, Now()) && Now() == DoReturn(plugins, old(Now()), i, report)
    {
      hide Inv;
      StepKeeps(plugins, Now(), Return(i, report));
      var job := workers[i];
      workers := RemoveAt(workers, i);
      outQueues := outQueues + [Job(WriteResult(plugins, job.fo, job.plugin, report), job.plugin, clock)];
    }

    method HandleCollectedResult(i: nat)
      requires Inv(plugins, Now()) && Enabled(Now(), Collect(i))
      modifies this`processQueue, this`inQueues, this`outQueues, this`completed, this`dropped, this`lost, this`db
      ensures Inv(plugins, Now()) && Now() == DoCollect(plugins, old(Now()), i)
    {
      hide Rescheduled, Forward, Known, Inv;
      StepKeeps(plugins, Now(), Collect(i));
      var job := outQueues[i];
      outQueues := RemoveAt(outQueues, i);
      var fo := job.fo;
      if fo.failure.Some? {
        var ok: bool;
        ok, fo := Reschedule(plugins, job.fo, clock);
        if !ok {
          Resume(job.fo, Raised);
          return;
        }
      }
      var rows := if fo.uid in db then db[fo.uid] else map[];
      SameUid(plugins, job.fo, clock);
      if job.plugin in fo.processed {
        rows := rows[job.plugin := fo.processed[job.plugin]];
      }
      Resume(job.fo, Continue(fo, rows));
    }
  }

  /** Every plugin taken into account for the request is installed. */
  ghost predicate AllInstalled(plugins: Plugins, requested: set<string>, mandatory: bool) {
    forall x :: Considered(plugins.deps, requested, mandatory, x) ==> x in plugins.deps
  }

  /** What `schedule_analysis_tasks` yields for the request. */
  ghost predicate ScheduleFor(plugins: Plugins, requested: set<string>, mandatory: bool, order: seq<string>) {
    exists considered: set<string> ::
      && (forall x :: x in considered <==> Considered(plugins.deps, requested, mandatory, x))
      && considered <= plugins.deps.Keys
      && Distinct(order) && Elements(order) == WellFounded(Restrict(plugins.deps, considered))
      && (FILE_TYPE in order ==> order[|order| - 1] == FILE_TYPE)
      && (DependenciesAfter(plugins.deps, order) <==>
          (FILE_TYPE in order ==> FILE_TYPE in plugins.deps && plugins.deps[FILE_TYPE] == {}))
  }

  ghost predicate FileTypeFree(plugins: Plugins) {
    FILE_TYPE in plugins.deps ==> plugins.deps[FILE_TYPE] == {}
  }

  /** If the file type plugin has no dependencies, a schedule made for a request is in order. */
  lemma ScheduledInOrder(plugins: Plugins, requested: set<string>, mandatory: bool, fo: FileObject)
    requires ScheduleFor(plugins, requested, mandatory, fo.scheduled) && FileTypeFree(plugins)
    ensures ScheduleOk(plugins, fo.scheduled) && WellScheduled(plugins.deps, fo)
  {
    hide Reaches, DependenciesAfter, WellScheduled;
    var considered: set<string> :| Elements(fo.scheduled) == WellFounded(Restrict(plugins.deps, considered))
                                   && considered <= plugins.deps.Keys;
    LayerMonotone(Restrict(plugins.deps, considered), 0, |Restrict(plugins.deps, considered)|);
    assert FILE_TYPE in fo.scheduled ==> FILE_TYPE in Elements(fo.scheduled);
    ScheduledIsWell(plugins.deps, fo);
  }

  /** The child as it enters: it belongs to the root, is forced if the root is, and is scheduled for
      the root's request. */
  ghost predicate IsChildOf(plugins: Plugins, fo: FileObject, child: FileObject, entered: FileObject) {
    && entered.id == child.id && entered.uid == child.uid && entered.isFirmware == child.isFirmware
    && entered.processed == child.processed && entered.failure == child.failure
    && entered.root == Some(fo.uid) && entered.forceUpdate == fo.forceUpdate
    && ScheduleFor(plugins, Elements(fo.scheduled), true, entered.scheduled)
  }

  /** The objects enter one after the other. */
  ghost function ArriveAll(plugins: Plugins, s: System, fos: seq<FileObject>): System {
    if fos == [] then s else DoArrive(plugins, ArriveAll(plugins, s, fos[..|fos| - 1]), fos[|fos| - 1])
  }

  ghost function Ids(fos: seq<FileObject>): set<nat> {
    set fo | fo in fos :: fo.id
  }

  /** The children are not in the pipeline yet, and all objects are different. */
  ghost predicate NewObjects(arrived: set<nat>, fo: FileObject, children: seq<FileObject>) {
    && (forall i :: 0 <= i < |children| ==> children[i].id !in arrived && children[i].failure.None? && children[i].id != fo.id)
    && forall i, j :: 0 <= i < j < |children| ==> children[i].id != children[j].id
  }

  lemma NoIds(fos: seq<FileObject>)
    requires fos == []
    ensures Ids(fos) == {}
  {
  }

  lemma NextChild(arrived: set<nat>, fo: FileObject, children: seq<FileObject>, k: nat)
    requires NewObjects(arrived, fo, children) && k < |children|
    ensures Ids(children[..k + 1]) == Ids(children[..k]) + {children[k].id}
    ensures children[k].id !in arrived + Ids(children[..k]) && children[k].failure.None?
  {
    assert children[..k + 1] == children[..k] + [children[k]];
  }

  lemma RootIsNew(arrived: set<nat>, before: set<nat>, fo: FileObject, children: seq<FileObject>)
    requires NewObjects(before, fo, children) && fo.id !in before && arrived == before + Ids(children)
    ensures fo.id !in arrived
  {
  }

  lemma StoredIfUpToDate(plugins: Plugins, rows: Rows, p: string)
    requires p in plugins.deps
    ensures UpToDate(plugins, rows, p) ==> p in rows
  {
  }

  lemma SameUid(plugins: Plugins, fo: FileObject, now: real)
    ensures fo.failure.Some? && Known(plugins.deps, fo.scheduled) ==> Rescheduled(plugins, fo, now).uid == fo.uid
  {
  }
}
