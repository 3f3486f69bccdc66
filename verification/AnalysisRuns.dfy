/** What the runs of the whole analysis pipeline, with all its objects and queues, mean for a single
    object: seen from it, every run is a pass. Idempotence of passes thus holds in the pipeline. */
module AnalysisRuns {
  import opened TaskScheduler
  import opened AnalysisTasks
  import opened AnalysisQueues
  import opened AnalysisPass
  import opened AnalysisIdempotence

  // ---- where an object is ----

  ghost predicate IsAt(s: System, fo: FileObject, place: Place) {
    match place
    case Queued => fo in s.queue
    case Waiting(p) => exists job :: job in s.waiting && job.fo == fo && job.plugin == p
    case Running(p, since) => Job(fo, p, since) in s.working
    case Collected(p) => exists job :: job in s.returned && job.fo == fo && job.plugin == p
    case Done => fo in s.completed
    case Dropped => fo in s.dropped
    case Lost => exists loss :: loss in s.lost && loss.fo == fo
  }

  ghost function BagAt(s: System, place: Place): multiset<nat> {
    match place
    case Queued => Bag(s.queue, FoId)
    case Waiting(_) => Bag(s.waiting, JobId)
    case Running(_, _) => Bag(s.working, JobId)
    case Collected(_) => Bag(s.returned, JobId)
    case Done => Bag(s.completed, FoId)
    case Dropped => Bag(s.dropped, FoId)
    case Lost => Bag(s.lost, LossId)
  }

  ghost function Kind(place: Place): nat {
    match place
    case Queued => 0
    case Waiting(_) => 1
    case Running(_, _) => 2
    case Collected(_) => 3
    case Done => 4
    case Dropped => 5
    case Lost => 6
  }

  lemma CountedThere(s: System, fo: FileObject, place: Place)
    requires IsAt(s, fo, place)
    ensures fo.id in BagAt(s, place)
  {
    match place
    case Queued => InBag(s.queue, fo, FoId);
    case Waiting(p) =>
      var job :| job in s.waiting && job.fo == fo && job.plugin == p;
      InBag(s.waiting, job, JobId);
    case Running(p, since) => InBag(s.working, Job(fo, p, since), JobId);
    case Collected(p) =>
      var job :| job in s.returned && job.fo == fo && job.plugin == p;
      InBag(s.returned, job, JobId);
    case Done => InBag(s.completed, fo, FoId);
    case Dropped => InBag(s.dropped, fo, FoId);
    case Lost =>
      var loss :| loss in s.lost && loss.fo == fo;
      InBag(s.lost, loss, LossId);
  }

  lemma OneKind(s: System, id: nat, a: Place, b: Place)
    requires OnePlace(s) && id in BagAt(s, a) && id in BagAt(s, b)
    ensures Kind(a) == Kind(b) && BagAt(s, a)[id] == 1
  {
    hide Bag;
    assert Objects(s)[id] <= 1;
  }

  lemma OnceInBag<T>(q: seq<T>, x: T, y: T, f: T -> nat)
    requires x in q && y in q && f(x) == f(y) && Bag(q, f)[f(x)] <= 1
    ensures x == y
  {
    var i :| 0 <= i < |q| && q[i] == x;
    Removed(q, i, f);
    if x != y {
      var j :| 0 <= j < |q| && q[j] == y;
      assert RemoveAt(q, i)[if j < i then j else j - 1] == y;
      InBag(RemoveAt(q, i), y, f);
    }
  }

  /** An object is in one place only, in one shape. */
  lemma OnlyThere(s: System, fo: FileObject, a: Place, fo': FileObject, b: Place)
    requires OnePlace(s) && IsAt(s, fo, a) && IsAt(s, fo', b) && fo.id == fo'.id
    ensures fo == fo' && a == b
  {
    hide OnePlace, Bag;
    CountedThere(s, fo, a);
    CountedThere(s, fo', b);
    OneKind(s, fo.id, a, b);
    match a
    case Queued => OnceInBag(s.queue, fo, fo', FoId);
    case Waiting(p) =>
      var x :| x in s.waiting && x.fo == fo && x.plugin == p;
      var y :| y in s.waiting && y.fo == fo' && y.plugin == b.plugin;
      OnceInBag(s.waiting, x, y, JobId);
    case Running(p, since) => OnceInBag(s.working, Job(fo, p, since), Job(fo', b.plugin, b.since), JobId);
    case Collected(p) =>
      var x :| x in s.returned && x.fo == fo && x.plugin == p;
      var y :| y in s.returned && y.fo == fo' && y.plugin == b.plugin;
      OnceInBag(s.returned, x, y, JobId);
    case Done => OnceInBag(s.completed, fo, fo', FoId);
    case Dropped => OnceInBag(s.dropped, fo, fo', FoId);
    case Lost =>
      var x :| x in s.lost && x.fo == fo;
      var y :| y in s.lost && y.fo == fo';
      OnceInBag(s.lost, x, y, LossId);
  }

  // ---- one object's view of a step ----

  /** `o` is what the system holds about one object; its time is that of its last step. */
  ghost predicate Shows(s: System, o: Obj) {
    IsAt(s, o.fo, o.place) && o.rows == RowsOf(s, o.fo.uid) && o.clock <= s.clock
  }

  /** Of all objects in the pipeline, only the one with this identity writes analyses of the file. */
  ghost predicate Alone(s: System, id: nat, uid: string) {
    && (forall fo :: fo in s.queue && fo.uid == uid ==> fo.id == id)
    && forall job :: (job in s.waiting || job in s.working || job in s.returned) && job.fo.uid == uid ==> job.fo.id == id
  }

  /** The object that a step takes up, if any. */
  ghost predicate Takes(s: System, a: Step, fo: FileObject, place: Place)
    requires Enabled(s, a)
  {
    match a
    case Process => fo == s.queue[0] && place == Queued
    case Work(i) => fo == s.waiting[i].fo && place == Waiting(s.waiting[i].plugin)
    case Return(i, _) => fo == s.working[i].fo && place == Running(s.working[i].plugin, s.working[i].since)
    case Collect(i) => fo == s.returned[i].fo && place == Collected(s.returned[i].plugin)
    case _ => false
  }

  lemma TakenIsThere(s: System, a: Step, fo: FileObject, place: Place)
    requires Enabled(s, a) && Takes(s, a, fo, place)
    ensures IsAt(s, fo, place)
  {
    if a.Work? {
      assert s.waiting[a.i] in s.waiting;
    } else if a.Return? {
      assert s.working[a.i] in s.working;
    } else if a.Collect? {
      assert s.returned[a.i] in s.returned;
    }
  }

  lemma Kept<T>(q: seq<T>, i: nat, x: T)
    requires i < |q| && x in q && q[i] != x
    ensures x in RemoveAt(q, i)
  {
    var j :| 0 <= j < |q| && q[j] == x;
    assert RemoveAt(q, i)[if j < i then j else j - 1] == x;
  }

  /** Placing another object changes nothing for this one. */
  lemma SettleOther(s: System, fo: FileObject, outcome: Outcome, o: Obj)
    requires Shows(s, o) && (outcome.Continue? ==> outcome.fo.uid != o.fo.uid)
    ensures Shows(Settle(s, fo, outcome), o)
  {
  }

  /** A step that takes up another object leaves this one as it is. */
  lemma NotTaken(plugins: Plugins, s: System, a: Step, o: Obj)
    requires Enabled(s, a) && Shows(s, o) && Alone(s, o.fo.id, o.fo.uid)
    requires forall fo, place :: Takes(s, a, fo, place) ==> fo.id != o.fo.id
    ensures Shows(Apply(plugins, s, a), o)
  {
    hide ProcessNext, HandleCollected, WriteResult, WellScheduled;
    match a
    case Arrive(fo) =>
    case Process =>
      var fo := s.queue[0];
      assert Takes(s, a, fo, Queued);
      assert fo in s.queue;
      ProcessKeepsId(plugins, fo, RowsOf(s, fo.uid), s.clock);
      var s1 := s.(queue := s.queue[1..]);
      assert Shows(s1, o) by {
        assert o.fo in s.queue ==> o.fo in s.queue[1..];
      }
      SettleOther(s1, fo, ProcessNext(plugins, fo, RowsOf(s, fo.uid), s.clock), o);
    case Work(i) =>
      assert Takes(s, a, s.waiting[i].fo, Waiting(s.waiting[i].plugin));
      KeptWaiting(s, i, o);
    case Return(i, report) =>
      assert Takes(s, a, s.working[i].fo, Running(s.working[i].plugin, s.working[i].since));
      if o.place.Running? {
        Kept(s.working, i, Job(o.fo, o.place.plugin, o.place.since));
      }
    case Collect(i) =>
      var job := s.returned[i];
      assert Takes(s, a, job.fo, Collected(job.plugin));
      assert job in s.returned;
      KeptReturned(s, i, o);
      CollectKeepsId(plugins, job.fo, RowsOf(s, job.fo.uid), job.plugin, s.clock);
      SettleOther(s.(returned := RemoveAt(s.returned, i)), job.fo,
                  HandleCollected(plugins, job.fo, RowsOf(s, job.fo.uid), job.plugin, s.clock), o);
    case Environment(_, _) =>
  }

  lemma KeptWaiting(s: System, i: nat, o: Obj)
    requires i < |s.waiting| && s.waiting[i].fo.id != o.fo.id && Shows(s, o)
    ensures Shows(DoWork(s, i), o)
  {
    if o.place.Waiting? {
      var job :| job in s.waiting && job.fo == o.fo && job.plugin == o.place.plugin;
      Kept(s.waiting, i, job);
    }
  }

  lemma KeptReturned(s: System, i: nat, o: Obj)
    requires i < |s.returned| && s.returned[i].fo.id != o.fo.id && Shows(s, o)
    ensures Shows(s.(returned := RemoveAt(s.returned, i)), o)
  {
    if o.place.Collected? {
      var job :| job in s.returned && job.fo == o.fo && job.plugin == o.place.plugin;
      Kept(s.returned, i, job);
    }
  }

  /** Placing this object is a continuation of its pass. */
  lemma SettleOwn(s: System, o: Obj, outcome: Outcome) returns (o': Obj)
    requires o.rows == RowsOf(s, o.fo.uid) && (!outcome.Raised? ==> outcome.fo.uid == o.fo.uid)
    ensures Continues(o, o', outcome) && Shows(Settle(s, o.fo, outcome), o') && o'.clock == s.clock
    ensures o'.fo.uid == o.fo.uid && (!outcome.Raised? ==> o'.fo == outcome.fo) && (outcome.Raised? ==> o'.fo == o.fo)
  {
    var s' := Settle(s, o.fo, outcome);
    match outcome {
      case Continue(fo, rows) =>
        o' := Obj(fo, rows, s.clock, if fo.scheduled == [] then Done else if StillWanted(s, fo) then Queued else Dropped, o.sent);
      case Send(fo, p) =>
        o' := Obj(fo, o.rows, s.clock, Waiting(p), o.sent + [p]);
        assert Job(fo, p, s.clock) in s'.waiting;
      case Raised =>
        o' := o.(place := Lost, clock := s.clock);
        assert Loss(o.fo, RowsOf(s, o.fo.uid)) in s'.lost;
    }
  }

  /** A step that takes up this object is a step of its pass. */
  lemma Taken(plugins: Plugins, s: System, a: Step, o: Obj) returns (o': Obj)
    requires Enabled(s, a) && Shows(s, o) && Takes(s, a, o.fo, o.place)
    ensures PassStep(plugins, o, o') && Shows(Apply(plugins, s, a), o')
    ensures o'.fo.id == o.fo.id && o'.fo.uid == o.fo.uid
  {
    hide ProcessNext, HandleCollected, Settle;
    match a {
      case Process =>
        ProcessKeepsId(plugins, o.fo, o.rows, s.clock);
        o' := SettleOwn(s.(queue := s.queue[1..]), o, ProcessNext(plugins, o.fo, o.rows, s.clock));
      case Work(i) =>
        o' := o.(place := Running(o.place.plugin, s.clock), clock := s.clock);
        assert s.waiting[i].(since := s.clock) in DoWork(s, i).working;
      case Return(i, report) =>
        o' := o.(fo := WriteResult(plugins, o.fo, o.place.plugin, report), place := Collected(o.place.plugin), clock := s.clock);
        assert ReportedWithin(report, o.place.since, o'.clock);
        assert Job(o'.fo, o.place.plugin, s.clock) in DoReturn(plugins, s, i, report).returned;
      case Collect(i) =>
        CollectKeepsId(plugins, o.fo, o.rows, o.place.plugin, s.clock);
        o' := SettleOwn(s.(returned := RemoveAt(s.returned, i)), o, HandleCollected(plugins, o.fo, o.rows, o.place.plugin, s.clock));
    }
  }

  /** Every step of the pipeline is a step of the object's pass, or none of its business. */
  lemma ProjectStep(plugins: Plugins, s: System, a: Step, o: Obj) returns (o': Obj)
    requires Inv(plugins, s) && Enabled(s, a) && Shows(s, o) && Alone(s, o.fo.id, o.fo.uid)
    ensures Shows(Apply(plugins, s, a), o') && (o' == o || PassStep(plugins, o, o'))
    ensures o'.fo.id == o.fo.id && o'.fo.uid == o.fo.uid
  {
    hide Shows, Apply, PassStep, ContentsOk;
    assert IsAt(s, o.fo, o.place) by {
      ShownThere(s, o);
    }
    if fo, place :| Takes(s, a, fo, place) && fo.id == o.fo.id {
      TakenIsThere(s, a, fo, place);
      OnlyThere(s, o.fo, o.place, fo, place);
      o' := Taken(plugins, s, a, o);
    } else {
      NotTaken(plugins, s, a, o);
      o' := o;
    }
  }

  lemma ShownThere(s: System, o: Obj)
    requires Shows(s, o)
    ensures IsAt(s, o.fo, o.place)
  {
  }

  // ---- runs ----

  /** The object enters with step `a` of the run, wanted and with an ordered schedule; it knows the
      stored file type or none. */
  ghost predicate Enters(plugins: Plugins, run: seq<System>, a: nat, fo: FileObject)
    requires a + 1 < |run|
  {
    && Enabled(run[a], Arrive(fo)) && run[a + 1] == Apply(plugins, run[a], Arrive(fo))
    && ScheduleOk(plugins, fo.scheduled) && (fo.scheduled == [] || StillWanted(run[a], fo))
    && FileTypeAgrees(fo.processed, RowsOf(run[a], fo.uid))
  }

  /** No stored analysis of the file is dated in the future. */
  ghost predicate DatesPast(s: System, uid: string) {
    forall q :: q in RowsOf(s, uid) ==> RowsOf(s, uid)[q].date <= s.clock
  }

  lemma ProjectStart(plugins: Plugins, run: seq<System>, a: nat, fo: FileObject) returns (o: Obj)
    requires a + 1 < |run| && Enters(plugins, run, a, fo) && DatesPast(run[a], fo.uid)
    ensures Starts(plugins, fo.scheduled, o) && Shows(run[a + 1], o) && o.fo == fo && o.rows == RowsOf(run[a], fo.uid)
  {
    o := Obj(fo, RowsOf(run[a], fo.uid), run[a].clock, if fo.scheduled == [] then Done else Queued, []);
  }

  /** A run of the pipeline is, for an object that alone writes the analyses of its file, a pass.
      Every state of the pass is shown in some state of the run. */
  lemma {:induction false} Project(plugins: Plugins, run: seq<System>, a: nat, b: nat, fo: FileObject) returns (pass: seq<Obj>)
    requires IsRun(plugins, run) && a < b < |run| && Enters(plugins, run, a, fo) && DatesPast(run[a], fo.uid)
    requires forall k :: a < k < b ==> Alone(run[k], fo.id, fo.uid)
    ensures IsPass(plugins, fo.scheduled, pass) && pass[0].fo == fo && pass[0].rows == RowsOf(run[a], fo.uid)
    ensures Shows(run[b], pass[|pass| - 1])
    ensures forall i :: 0 <= i < |pass| ==> pass[i].fo.id == fo.id && pass[i].fo.uid == fo.uid && ShownWithin(run, a, b, pass[i])
    decreases b
  {
    hide Enters, Alone, Shows, PassStep, Starts, Inv, Apply, Enabled, DatesPast, Empty;
    if b == a + 1 {
      var o := ProjectStart(plugins, run, a, fo);
      pass := [o];
      assert ShownWithin(run, a, b, o);
    } else {
      var before := Project(plugins, run, a, b - 1, fo);
      RunInvariant(plugins, run, b - 1);
      assert Next(plugins, run[b - 1], run[b - 1 + 1]);
      var step :| Enabled(run[b - 1], step) && run[b] == Apply(plugins, run[b - 1], step);
      var o := before[|before| - 1];
      var o' := ProjectStep(plugins, run[b - 1], step, o);
      pass := if o' == o then before else before + [o'];
      forall i | 0 <= i < |pass| ensures pass[i].fo.id == fo.id && pass[i].fo.uid == fo.uid && ShownWithin(run, a, b, pass[i]) {
        if i < |before| {
          ShownLonger(run, a, b, before[i]);
        }
      }
    }
  }

  ghost predicate ShownWithin(run: seq<System>, a: nat, b: nat, o: Obj)
    requires b < |run|
  {
    exists k :: a < k <= b && Shows(run[k], o)
  }

  lemma ShownLonger(run: seq<System>, a: nat, b: nat, o: Obj)
    requires 0 < b < |run| && ShownWithin(run, a, b - 1, o)
    ensures ShownWithin(run, a, b, o)
  {
    hide Shows;
  }

  /** No analysis of the object came back failed. */
  ghost predicate NoneFailed(s: System, id: nat) {
    forall job :: job in s.returned && job.fo.id == id ==>
      job.fo.failure.None? && job.plugin in job.fo.processed && !IsFailed(job.fo.processed[job.plugin])
  }

  lemma ShownNotFailed(s: System, o: Obj)
    requires Shows(s, o) && NoneFailed(s, o.fo.id)
    ensures NotFailed(o)
  {
    if o.place.Collected? {
      var job :| job in s.returned && job.fo == o.fo && job.plugin == o.place.plugin;
    }
  }

  /** When an object has been completed without a failure, every plugin of its schedule has a stored
      result no older than those of its dependencies, whatever else went on in the pipeline. */
  lemma CompletedIsFresh(plugins: Plugins, run: seq<System>, a: nat, b: nat, fo: FileObject, done: FileObject)
    requires IsRun(plugins, run) && a < b < |run| && Enters(plugins, run, a, fo) && DatesPast(run[a], fo.uid)
    requires forall k :: a < k < b ==> Alone(run[k], fo.id, fo.uid)
    requires done in run[b].completed && done.id == fo.id
    requires forall k :: a < k <= b ==> NoneFailed(run[k], fo.id)
    ensures var rows := RowsOf(run[b], fo.uid);
      forall p :: p in fo.scheduled ==>
        && p in plugins.deps && p in rows && !IsFailed(rows[p])
        && forall d :: d in plugins.deps[p] ==> d in rows && rows[d].date <= rows[p].date
  {
    hide Enters, Alone, DatesPast, Starts, PassStep, Inv, NoneFailed, NotFailed, Shows;
    var pass := Project(plugins, run, a, b, fo);
    FirstPass(plugins, run, a, b, fo, done, pass);
    FreshAfterPass(plugins, fo.scheduled, pass);
  }

  /** Idempotence in the pipeline, among any other objects and whatever they do: if an object of a
      file was completed without a failure, then a later, unforced object of the same file with the
      same plugins is never sent to a plugin runner. Each of the two has the file to itself while
      it is being analysed. */
  lemma SecondAnalysisSendsNothing(plugins: Plugins, run: seq<System>, a1: nat, fo1: FileObject, done: FileObject,
                                   a2: nat, fo2: FileObject, b: nat)
    requires IsRun(plugins, run) && a1 < a2 < b < |run|
    requires Enters(plugins, run, a1, fo1) && DatesPast(run[a1], fo1.uid) && Enters(plugins, run, a2, fo2)
    requires fo2.uid == fo1.uid && !fo2.forceUpdate && Elements(fo2.scheduled) == Elements(fo1.scheduled)
    requires forall k :: a1 < k < a2 ==> Alone(run[k], fo1.id, fo1.uid)
    requires forall k :: a2 < k < b ==> Alone(run[k], fo2.id, fo2.uid)
    requires done in run[a2].completed && done.id == fo1.id
    requires forall k :: a1 < k <= a2 ==> NoneFailed(run[k], fo1.id)
    ensures forall job :: job in run[b].waiting || job in run[b].working || job in run[b].returned ==> job.fo.id != fo2.id
  {
    hide Enters, Alone, DatesPast, Starts, PassStep, Inv, NoneFailed, NotFailed, Shows;
    var pass1 := Project(plugins, run, a1, a2, fo1);
    FirstPass(plugins, run, a1, a2, fo1, done, pass1);
    var pass2 := Project(plugins, run, a2, b, fo2);
    Idempotent(plugins, fo1.scheduled, pass1, fo2.scheduled, pass2);
    NotInPlugin(plugins, run, b, pass2[|pass2| - 1]);
  }

  lemma FirstPass(plugins: Plugins, run: seq<System>, a: nat, b: nat, fo: FileObject, done: FileObject, pass: seq<Obj>)
    requires IsRun(plugins, run) && a < b < |run| && done in run[b].completed && done.id == fo.id
    requires forall k :: a < k <= b ==> NoneFailed(run[k], fo.id)
    requires IsPass(plugins, fo.scheduled, pass) && Shows(run[b], pass[|pass| - 1])
    requires forall i :: 0 <= i < |pass| ==> pass[i].fo.id == fo.id && pass[i].fo.uid == fo.uid && ShownWithin(run, a, b, pass[i])
    ensures NothingFailed(pass) && pass[|pass| - 1].place.Done?
    ensures DatesPast(run[b], fo.uid) && pass[|pass| - 1].rows == RowsOf(run[b], fo.uid)
  {
    hide Starts, PassStep, ContentsOk, NoneFailed, NotFailed, OnePlace, ScheduleOk, HandledSettled, Loaded, WorkOk;
    forall i | 0 <= i < |pass| ensures NotFailed(pass[i]) {
      var k :| a < k <= b && Shows(run[k], pass[i]);
      ShownNotFailed(run[k], pass[i]);
    }
    RunInvariant(plugins, run, b);
    var last := pass[|pass| - 1];
    OnlyThere(run[b], last.fo, last.place, done, Done);
    PassInvariant(plugins, fo.scheduled, pass, |pass| - 1);
  }

  lemma NotInPlugin(plugins: Plugins, run: seq<System>, b: nat, o: Obj)
    requires IsRun(plugins, run) && b < |run| && Shows(run[b], o) && !o.place.InPlugin()
    ensures forall job :: job in run[b].waiting || job in run[b].working || job in run[b].returned ==> job.fo.id != o.fo.id
  {
    hide ContentsOk, OnePlace;
    RunInvariant(plugins, run, b);
    var s := run[b];
    forall job | job in s.waiting || job in s.working || job in s.returned ensures job.fo.id != o.fo.id {
      if job.fo.id == o.fo.id {
        if job in s.waiting {
          OnlyThere(s, o.fo, o.place, job.fo, Waiting(job.plugin));
        } else if job in s.working {
          assert job == Job(job.fo, job.plugin, job.since);
          OnlyThere(s, o.fo, o.place, job.fo, Running(job.plugin, job.since));
        } else {
          OnlyThere(s, o.fo, o.place, job.fo, Collected(job.plugin));
        }
        assert false;
      }
    }
  }
}
