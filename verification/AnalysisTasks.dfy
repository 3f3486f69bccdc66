/** What the analysis scheduler does with one file object: run, reuse, skip or fail its next
    plugin (src/scheduler/analysis/scheduler.py, src/scheduler/analysis/plugin.py). */
module AnalysisTasks {
  import opened Common
  import opened Graphs
  import opened Text
  import opened TaskScheduler

  /** A stored analysis. Versions are totally ordered numbers; a missing system version is 0. */
  datatype Analysis = Analysis(date: real, version: Option<int>, system: nat, result: map<string, string>)

  /** The analyses of one file in the database. */
  type Rows = map<string, Analysis>

  datatype FileObject = FileObject(
    id: nat,
    uid: string,
    root: Option<string>,
    isFirmware: bool,
    forceUpdate: bool,
    scheduled: seq<string>,
    processed: Rows,
    failure: Option<(string, string)>)

  /** The installed plugins: dependencies, versions, MIME lists, and whether a result of a plugin
      fits its schema. */
  datatype Plugins = Plugins(
    deps: Graph,
    version: string -> int,
    system: string -> nat,
    blacklist: string -> seq<string>,
    whitelist: string -> seq<string>,
    fits: (string, map<string, string>) -> bool)

  predicate IsSkipped(a: Analysis) {
    "skipped" in a.result
  }

  predicate IsFailed(a: Analysis) {
    "failed" in a.result
  }

  // ---- checks ----

  predicate VersionIsNewer(plugins: Plugins, p: string, a: Analysis)
    requires a.version.Some?
  {
    plugins.version(p) > a.version.value || plugins.system(p) > a.system
  }

  ghost predicate DependenciesUpToDate(plugins: Plugins, rows: Rows, p: string, date: real)
    requires p in plugins.deps
  {
    forall d :: d in plugins.deps[p] ==> d in rows && rows[d].date <= date
  }

  /** The database holds a result of the plugin that does not have to be renewed. */
  ghost predicate UpToDate(plugins: Plugins, rows: Rows, p: string)
    requires p in plugins.deps
  {
    && p in rows && !IsFailed(rows[p]) && rows[p].version.Some?
    && !VersionIsNewer(plugins, p, rows[p])
    && DependenciesUpToDate(plugins, rows, p, rows[p].date)
  }

  method IsUpToDate(plugins: Plugins, rows: Rows, p: string) returns (ok: bool)
    requires p in plugins.deps
    ensures ok == UpToDate(plugins, rows, p)
  {
    if p !in rows || IsFailed(rows[p]) || rows[p].version.None? || VersionIsNewer(plugins, p, rows[p]) {
      return false;
    }
    var todo := plugins.deps[p];
    while todo != {}
      invariant todo <= plugins.deps[p]
      invariant forall d :: d in plugins.deps[p] - todo ==> d in rows && rows[d].date <= rows[p].date
    {
      var d :| d in todo;
      if d !in rows || rows[p].date < rows[d].date {
        return false;
      }
      todo := todo - {d};
    }
    return true;
  }

  /** A dependency has no usable result in the file object. */
  predicate Unfulfilled(plugins: Plugins, processed: Rows, p: string)
    requires p in plugins.deps
  {
    exists d :: d in plugins.deps[p] && (d !in processed || IsSkipped(processed[d]) || IsFailed(processed[d]))
  }

  /** All dependency results fit their schemas. */
  predicate SchemasFit(plugins: Plugins, processed: Rows, p: string)
    requires p in plugins.deps
  {
    forall d :: d in plugins.deps[p] ==> d in processed && plugins.fits(d, processed[d].result)
  }

  predicate HasLists(plugins: Plugins, p: string) {
    plugins.blacklist(p) != [] || plugins.whitelist(p) != []
  }

  predicate InList(mime: string, list: seq<string>) {
    exists t :: t in list && HasSubstring(mime, t)
  }

  /** Whether the MIME lists keep the plugin from a file of this type; a whitelist wins. */
  predicate MimeBlocked(plugins: Plugins, p: string, mime: string) {
    if plugins.whitelist(p) != [] then !InList(mime, plugins.whitelist(p)) else InList(mime, plugins.blacklist(p))
  }

  /** The file object when its type has been looked up: the type comes from the object or else
      from the database. */
  function WithFileType(fo: FileObject, rows: Rows): FileObject
    requires FILE_TYPE in fo.processed || FILE_TYPE in rows
  {
    if FILE_TYPE in fo.processed then fo else fo.(processed := fo.processed[FILE_TYPE := rows[FILE_TYPE]])
  }

  datatype Verdict = Verdict(blocked: bool, fo: FileObject) | NoFileType

  /** The blacklist check; without a stored MIME type the lookup raises. */
  function CheckLists(plugins: Plugins, fo: FileObject, rows: Rows, p: string): Verdict {
    if p in MANDATORY_PLUGINS || !HasLists(plugins, p) then Verdict(false, fo)
    else if FILE_TYPE !in fo.processed && FILE_TYPE !in rows then NoFileType
    else
      var fo' := WithFileType(fo, rows);
      if "mime" !in fo'.processed[FILE_TYPE].result then NoFileType
      else Verdict(MimeBlocked(plugins, p, Lower(fo'.processed[FILE_TYPE].result["mime"])), fo')
  }

  // ---- one task ----

  /** How a step with one file object ends: it goes on (to be queued again or completed), it is
      sent to a plugin, or an exception is raised. */
  datatype Outcome = Continue(fo: FileObject, rows: Rows) | Send(fo: FileObject, plugin: string) | Raised

  datatype Reason = Blacklisted | DependencyMissing | SchemaMismatch

  function ReasonText(reason: Reason): string {
    match reason
    case Blacklisted => "blacklisted file type"
    case DependencyMissing => "dependency is missing (could be skipped)"
    case SchemaMismatch => "error during dependency collection"
  }

  /** A skipped analysis has no system version. */
  function SkippedAnalysis(plugins: Plugins, p: string, reason: Reason, now: real): (a: Analysis)
    ensures IsSkipped(a) && !IsFailed(a) && a.date == now
  {
    Analysis(now, Some(plugins.version(p)), 0, map["skipped" := ReasonText(reason)])
  }

  function Skip(plugins: Plugins, fo: FileObject, rows: Rows, p: string, reason: Reason, now: real): Outcome {
    var a := SkippedAnalysis(plugins, p, reason, now);
    Continue(fo.(processed := fo.processed[p := a]), rows[p := a])
  }

  /** Reuse of a stored result: it is loaded only if a plugin that is still scheduled needs it. */
  ghost function Reuse(plugins: Plugins, fo: FileObject, rows: Rows, p: string): Outcome
    requires p in rows
  {
    if !(Elements(fo.scheduled) <= plugins.deps.Keys) then Raised
    else if p in RemainingDependencies(plugins.deps, Elements(fo.scheduled))
    then Continue(fo.(processed := fo.processed[p := rows[p]]), rows)
    else Continue(fo, rows)
  }

  ghost function StartOrSkip(plugins: Plugins, fo: FileObject, rows: Rows, p: string, now: real): Outcome
    requires p in plugins.deps
  {
    if !fo.forceUpdate && UpToDate(plugins, rows, p) then Reuse(plugins, fo, rows, p)
    else
      var verdict := CheckLists(plugins, fo, rows, p);
      if verdict.NoFileType? then Raised
      else if verdict.blocked then Skip(plugins, verdict.fo, rows, p, Blacklisted, now)
      else if Unfulfilled(plugins, verdict.fo.processed, p)
      then Skip(plugins, verdict.fo, rows, p, DependencyMissing, now)
      else if !SchemasFit(plugins, verdict.fo.processed, p)
      then Skip(plugins, verdict.fo, rows, p, SchemaMismatch, now)
      else Send(verdict.fo, p)
  }

  /** `_process_next_analysis_task`: takes the last scheduled plugin. */
  ghost function ProcessNext(plugins: Plugins, fo: FileObject, rows: Rows, now: real): Outcome
    requires fo.scheduled != []
  {
    var p := fo.scheduled[|fo.scheduled| - 1];
    var fo' := fo.(scheduled := fo.scheduled[..|fo.scheduled| - 1]);
    if p !in plugins.deps then Continue(fo', rows) else StartOrSkip(plugins, fo', rows, p, now)
  }

  // ---- workers and results ----

  /** What a plugin run came to: a result that carries its starting time, or a failure. */
  datatype Report = Result(date: real, result: map<string, string>) | Failure(cause: string)

  /** A plugin run takes the date of its result after it was started. */
  ghost predicate ReportedWithin(report: Report, since: real, now: real) {
    report.Result? ==> since <= report.date <= now
  }

  function WriteResult(plugins: Plugins, fo: FileObject, p: string, report: Report): FileObject {
    match report
    case Result(date, result) =>
      fo.(processed := fo.processed[p := Analysis(date, Some(plugins.version(p)), plugins.system(p), result)])
    case Failure(cause) => fo.(failure := Some((p, cause)))
  }

  function FailedAnalysis(plugins: Plugins, p: string, cause: string, now: real): (a: Analysis)
    ensures IsFailed(a)
  {
    Analysis(now, Some(plugins.version(p)), 0, map["failed" := cause])
  }

  function FailedDependency(plugins: Plugins, p: string, failed: string, now: real): Analysis {
    FailedAnalysis(plugins, p, "Analysis of dependency " + failed + " failed", now)
  }

  predicate Known(deps: Graph, names: seq<string>) {
    forall q :: q in names ==> q in deps
  }

  /** The scheduled plugins that do not depend on `failed`, in order. */
  function Independent(deps: Graph, scheduled: seq<string>, failed: string): (r: seq<string>)
    requires Known(deps, scheduled)
    ensures forall q :: q in r <==> q in scheduled && failed !in deps[q]
    ensures |r| <= |scheduled|
  {
    if scheduled == [] then []
    else
      var n := |scheduled| - 1;
      var before := Independent(deps, scheduled[..n], failed);
      assert scheduled == scheduled[..n] + [scheduled[n]];
      if failed in deps[scheduled[n]] then before else before + [scheduled[n]]
  }

  ghost function FailedDependents(plugins: Plugins, scheduled: seq<string>, failed: string, now: real): Rows
    requires Known(plugins.deps, scheduled)
  {
    map q | q in scheduled && failed in plugins.deps[q] ::
      FailedDependency(plugins, q, failed, now)
  }

  /** `reschedule_failed_analysis_task`: the failed plugin and its direct dependents are marked. */
  ghost function Rescheduled(plugins: Plugins, fo: FileObject, now: real): FileObject
    requires fo.failure.Some? && Known(plugins.deps, fo.scheduled)
  {
    var failed, cause := fo.failure.value.0, fo.failure.value.1;
    fo.(scheduled := Independent(plugins.deps, fo.scheduled, failed),
        processed := fo.processed[failed := FailedAnalysis(plugins, failed, cause, now)]
                     + FailedDependents(plugins, fo.scheduled, failed, now),
        failure := None)
  }

  /** `ok` is false when an unknown plugin in the schedule raises KeyError. */
  method Reschedule(plugins: Plugins, fo: FileObject, now: real) returns (ok: bool, r: FileObject)
    requires fo.failure.Some?
    ensures ok <==> Known(plugins.deps, fo.scheduled)
    ensures ok ==> r == Rescheduled(plugins, fo, now)
  {
    hide Independent, FailedDependents, FailedAnalysis, IsFailed;
    var (failed, cause) := fo.failure.value;
    var processed := fo.processed[failed := FailedAnalysis(plugins, failed, cause, now)];
    var scheduled: seq<string>;
    ok, scheduled, processed := UnscheduleDependents(plugins, fo.scheduled, processed, failed, now);
    r := fo.(scheduled := scheduled, processed := processed, failure := None);
  }

  /** The loop over a copy of the schedule. */
  method UnscheduleDependents(plugins: Plugins, names: seq<string>, start: Rows, failed: string, now: real)
    returns (ok: bool, scheduled: seq<string>, processed: Rows)
    ensures ok <==> Known(plugins.deps, names)
    ensures ok ==> scheduled == Independent(plugins.deps, names, failed)
    ensures ok ==> processed == start + FailedDependents(plugins, names, failed, now)
  {
    hide Independent, FailedDependents, RemoveFirst, FailedDependency, Known;
    scheduled, processed := names, start;
    RescheduleNone(plugins, names, failed, now);
    for k := 0 to |names|
      invariant Known(plugins.deps, names[..k])
      invariant scheduled == Independent(plugins.deps, names[..k], failed) + names[k..]
      invariant processed == start + FailedDependents(plugins, names[..k], failed, now)
    {
      var q := names[k];
      KnownStep(plugins.deps, names, k);
      if q !in plugins.deps {
        return false, scheduled, processed;
      }
      UnscheduleStep(plugins.deps, names, k, failed);
      MarkStep(plugins, names, k, failed, now, start);
      if failed in plugins.deps[q] {
        scheduled := RemoveFirst(scheduled, q);
        processed := processed[q := FailedDependency(plugins, q, failed, now)];
      }
    }
    assert names[..|names|] == names;
    ok := true;
  }

  lemma RescheduleNone(plugins: Plugins, scheduled: seq<string>, failed: string, now: real)
    ensures Known(plugins.deps, scheduled[..0])
    ensures Independent(plugins.deps, scheduled[..0], failed) == [] && FailedDependents(plugins, scheduled[..0], failed, now) == map[]
  {
  }

  lemma KnownStep(deps: Graph, scheduled: seq<string>, k: nat)
    requires k < |scheduled| && Known(deps, scheduled[..k])
    ensures Known(deps, scheduled[..k + 1]) <==> scheduled[k] in deps
    ensures Known(deps, scheduled) ==> scheduled[k] in deps
  {
    assert scheduled[..k + 1] == scheduled[..k] + [scheduled[k]];
  }

  /** Taking the next plugin out of the schedule, or leaving it in. */
  lemma UnscheduleStep(deps: Graph, scheduled: seq<string>, k: nat, failed: string)
    requires k < |scheduled|
    requires Known(deps, scheduled[..k + 1]) && Known(deps, scheduled[..k]) && scheduled[k] in deps
    ensures var q, now := scheduled[k], Independent(deps, scheduled[..k], failed) + scheduled[k..];
      var next := Independent(deps, scheduled[..k + 1], failed) + scheduled[k + 1..];
      && q in now
      && (failed in deps[q] ==> next == RemoveFirst(now, q))
      && (failed !in deps[q] ==> next == now)
  {
    hide IndexOf;
    var q, before := scheduled[k], Independent(deps, scheduled[..k], failed);
    assert scheduled[..k + 1][..k] == scheduled[..k];
    if failed in deps[q] {
      RemoveMiddle(before, q, scheduled[k + 1..]);
    }
    assert before + scheduled[k..] == before + [q] + scheduled[k + 1..];
    var now := before + [q] + scheduled[k + 1..];
    assert now[..|before|] == before && now[|before| + 1..] == scheduled[k + 1..];
    assert failed !in deps[q] ==> Independent(deps, scheduled[..k + 1], failed) == before + [q];
  }

  /** Marking the next plugin as failed, or not. */
  lemma MarkStep(plugins: Plugins, scheduled: seq<string>, k: nat, failed: string, now: real, start: Rows)
    requires k < |scheduled|
    requires Known(plugins.deps, scheduled[..k + 1]) && Known(plugins.deps, scheduled[..k]) && scheduled[k] in plugins.deps
    ensures var q, marked := scheduled[k], FailedDependents(plugins, scheduled[..k], failed, now);
      start + FailedDependents(plugins, scheduled[..k + 1], failed, now) ==
      if failed in plugins.deps[q] then (start + marked)[q := FailedDependency(plugins, q, failed, now)] else start + marked
  {
    hide FailedDependency;
    assert scheduled[..k + 1] == scheduled[..k] + [scheduled[k]];
  }

  /** `_handle_collected_result` up to the continuation. */
  ghost function HandleCollected(plugins: Plugins, fo: FileObject, rows: Rows, p: string, now: real): Outcome {
    if fo.failure.Some? && !Known(plugins.deps, fo.scheduled) then Raised
    else
      var fo' := if fo.failure.Some? then Rescheduled(plugins, fo, now) else fo;
      Continue(fo', if p in fo'.processed then rows[p := fo'.processed[p]] else rows)
  }

  // ---- dependencies come first ----

  /** Every dependency of a scheduled plugin stands behind it or has an entry already. */
  ghost predicate DependenciesComing(deps: Graph, scheduled: seq<string>, entries: set<string>) {
    forall i :: 0 <= i < |scheduled| ==> DependencyComing(deps, scheduled, entries, i)
  }

  ghost predicate DependencyComing(deps: Graph, scheduled: seq<string>, entries: set<string>, i: nat)
    requires i < |scheduled|
  {
    scheduled[i] in deps && forall d :: d in deps[scheduled[i]] ==> d in scheduled[i + 1..] || d in entries
  }

  /** What holds for an object that `schedule_analysis_tasks` scheduled, all its life. */
  ghost predicate WellScheduled(deps: Graph, fo: FileObject) {
    Distinct(fo.scheduled) && DependenciesComing(deps, fo.scheduled, fo.processed.Keys)
  }

  /** The schedule is well as soon as plugin `p` has an entry. */
  ghost predicate AwaitsResult(deps: Graph, fo: FileObject, p: string) {
    Distinct(fo.scheduled) && DependenciesComing(deps, fo.scheduled, fo.processed.Keys + {p})
  }

  lemma ScheduledIsWell(deps: Graph, fo: FileObject)
    requires Distinct(fo.scheduled) && DependenciesAfter(deps, fo.scheduled)
    ensures WellScheduled(deps, fo)
  {
    forall i | 0 <= i < |fo.scheduled| ensures DependencyComing(deps, fo.scheduled, fo.processed.Keys, i) {
      assert deps[fo.scheduled[i]] <= Elements(fo.scheduled[i + 1..]);
    }
  }

  /** When a plugin is popped, all its dependencies have an entry, so a skip for a missing
      dependency can only come from one that was itself skipped or failed. */
  lemma PoppedHasDependencies(plugins: Plugins, fo: FileObject)
    requires WellScheduled(plugins.deps, fo) && fo.scheduled != []
    ensures var p := fo.scheduled[|fo.scheduled| - 1];
      && p in plugins.deps
      && (forall d :: d in plugins.deps[p] ==> d in fo.processed)
      && (Unfulfilled(plugins, fo.processed, p) <==>
          exists d :: d in plugins.deps[p] && d in fo.processed && (IsSkipped(fo.processed[d]) || IsFailed(fo.processed[d])))
  {
    assert DependencyComing(plugins.deps, fo.scheduled, fo.processed.Keys, |fo.scheduled| - 1);
    assert fo.scheduled[|fo.scheduled|..] == [];
  }

  /** Without its last plugin the schedule stays well if that plugin, where it is needed, got an entry. */
  lemma PopKeeps(deps: Graph, scheduled: seq<string>, entries: set<string>, entries': set<string>)
    requires scheduled != [] && Distinct(scheduled) && DependenciesComing(deps, scheduled, entries)
    requires entries <= entries'
    requires var p := scheduled[|scheduled| - 1];
      p in entries' || forall q :: q in scheduled[..|scheduled| - 1] && q in deps ==> p !in deps[q]
    ensures Distinct(scheduled[..|scheduled| - 1]) && DependenciesComing(deps, scheduled[..|scheduled| - 1], entries')
  {
    var n := |scheduled| - 1;
    var s' := scheduled[..n];
    forall i | 0 <= i < n ensures DependencyComing(deps, s', entries', i) {
      assert DependencyComing(deps, scheduled, entries, i);
      assert scheduled[i + 1..] == s'[i + 1..] + [scheduled[n]];
      assert s'[i] in s';
    }
  }

  /** A reused result that is not loaded is not a dependency of anything still scheduled. */
  lemma ReusedNotNeeded(plugins: Plugins, fo: FileObject, rows: Rows, p: string)
    requires p in rows && p !in fo.scheduled && Reuse(plugins, fo, rows, p).Continue?
    ensures var o := Reuse(plugins, fo, rows, p);
      && (o.fo == fo || o.fo == fo.(processed := fo.processed[p := rows[p]]))
      && (o.fo == fo.(processed := fo.processed[p := rows[p]])
          || forall q :: q in fo.scheduled && q in plugins.deps ==> p !in plugins.deps[q])
  {
    assert p !in Elements(fo.scheduled);
    if p !in RemainingDependencies(plugins.deps, Elements(fo.scheduled)) {
      forall q | q in fo.scheduled && q in plugins.deps ensures p !in plugins.deps[q] {
        assert q in Elements(fo.scheduled);
      }
    }
  }

  lemma ListsEntries(plugins: Plugins, fo: FileObject, rows: Rows, p: string)
    ensures var v := CheckLists(plugins, fo, rows, p);
      v.Verdict? ==> v.fo == fo.(processed := v.fo.processed) && fo.processed.Keys <= v.fo.processed.Keys
  {
    hide MimeBlocked, HasLists, Lower;
  }

  /** The entries a step leaves in the object: none is lost, and the plugin has one unless it was
      reused and nothing scheduled needs it. */
  lemma StepEntries(plugins: Plugins, fo: FileObject, rows: Rows, p: string, now: real)
    requires p in plugins.deps && p !in fo.scheduled
    ensures var o := StartOrSkip(plugins, fo, rows, p, now);
      && (o.Continue? ==>
          && o.fo == fo.(processed := o.fo.processed) && fo.processed.Keys <= o.fo.processed.Keys
          && (p in o.fo.processed || forall q :: q in fo.scheduled && q in plugins.deps ==> p !in plugins.deps[q]))
      && (o.Send? ==> o.plugin == p && o.fo == fo.(processed := o.fo.processed) && fo.processed.Keys <= o.fo.processed.Keys)
  {
    hide Unfulfilled, SchemasFit, CheckLists, Reuse, SkippedAnalysis, IsSkipped, IsFailed;
    var o := StartOrSkip(plugins, fo, rows, p, now);
    if !fo.forceUpdate && UpToDate(plugins, rows, p) {
      if o.Continue? {
        ReusedNotNeeded(plugins, fo, rows, p);
      } else {
        ReuseContinues(plugins, fo, rows, p);
      }
    } else {
      ListsEntries(plugins, fo, rows, p);
    }
  }

  lemma ReuseContinues(plugins: Plugins, fo: FileObject, rows: Rows, p: string)
    requires p in rows
    ensures !Reuse(plugins, fo, rows, p).Send?
  {
  }

  /** A step keeps the schedule well, whatever branch it takes. While the plugin runs, its entry
      is still to come. */
  lemma ProcessKeepsSchedule(plugins: Plugins, fo: FileObject, rows: Rows, now: real)
    requires WellScheduled(plugins.deps, fo) && fo.scheduled != []
    ensures var o := ProcessNext(plugins, fo, rows, now);
      && (o.Continue? ==> WellScheduled(plugins.deps, o.fo) && |o.fo.scheduled| == |fo.scheduled| - 1)
      && (o.Send? ==>
          && o.plugin == fo.scheduled[|fo.scheduled| - 1]
          && AwaitsResult(plugins.deps, o.fo, o.plugin) && |o.fo.scheduled| == |fo.scheduled| - 1)
      && (!o.Raised? ==> o.fo == fo.(scheduled := fo.scheduled[..|fo.scheduled| - 1], processed := o.fo.processed))
  {
    hide StartOrSkip;
    var n := |fo.scheduled| - 1;
    var p, fo' := fo.scheduled[n], fo.(scheduled := fo.scheduled[..n]);
    assert DependencyComing(plugins.deps, fo.scheduled, fo.processed.Keys, n);
    assert p !in fo'.scheduled;
    StepEntries(plugins, fo', rows, p, now);
    var o := ProcessNext(plugins, fo, rows, now);
    if o.Continue? {
      PopKeeps(plugins.deps, fo.scheduled, fo.processed.Keys, o.fo.processed.Keys);
    } else if o.Send? {
      PopKeeps(plugins.deps, fo.scheduled, fo.processed.Keys, o.fo.processed.Keys + {p});
    }
  }

  lemma CollectKeepsSchedule(plugins: Plugins, fo: FileObject, rows: Rows, p: string, now: real, report: Report)
    requires AwaitsResult(plugins.deps, fo, p) && fo.failure.None?
    ensures var o := HandleCollected(plugins, WriteResult(plugins, fo, p, report), rows, p, now);
      && o.Continue? && WellScheduled(plugins.deps, o.fo) && p in o.fo.processed && o.fo.failure.None?
      && |o.fo.scheduled| <= |fo.scheduled|
      && o.fo == fo.(scheduled := o.fo.scheduled, processed := o.fo.processed)
  {
    var entries := fo.processed.Keys + {p};
    forall q | q in fo.scheduled ensures q in plugins.deps {
      var i :| 0 <= i < |fo.scheduled| && fo.scheduled[i] == q;
      assert DependencyComing(plugins.deps, fo.scheduled, entries, i);
    }
    var o := HandleCollected(plugins, WriteResult(plugins, fo, p, report), rows, p, now);
    if report.Failure? {
      var marked := FailedDependents(plugins, fo.scheduled, p, now);
      assert o.fo.processed.Keys == entries + marked.Keys;
      IndependentKeeps(plugins.deps, fo.scheduled, entries, p, o.fo.processed.Keys);
    } else {
      assert o.fo.processed.Keys == entries;
    }
  }

  lemma {:induction false} IndependentPosition(deps: Graph, scheduled: seq<string>, failed: string, i: nat)
    returns (j: nat)
    requires Known(deps, scheduled) && i < |Independent(deps, scheduled, failed)|
    ensures j < |scheduled| && scheduled[j] == Independent(deps, scheduled, failed)[i]
    ensures forall d :: d in scheduled[j + 1..] && failed !in deps[d] ==> d in Independent(deps, scheduled, failed)[i + 1..]
    decreases |scheduled|
  {
    var n := |scheduled| - 1;
    var r, before := Independent(deps, scheduled, failed), Independent(deps, scheduled[..n], failed);
    if i < |before| {
      j := IndependentPosition(deps, scheduled[..n], failed, i);
      SliceAppend(scheduled[..n], scheduled[n], j + 1);
      SliceAppend(before, scheduled[n], i + 1);
      assert scheduled[..n] + [scheduled[n]] == scheduled;
    } else {
      j := n;
    }
  }

  lemma SliceAppend(s: seq<string>, x: string, k: nat)
    requires k <= |s|
    ensures (s + [x])[k..] == s[k..] + [x]
  {
  }

  lemma IndependentKeeps(deps: Graph, scheduled: seq<string>, entries: set<string>, failed: string, entries': set<string>)
    requires Distinct(scheduled) && DependenciesComing(deps, scheduled, entries)
    requires Known(deps, scheduled)
    requires entries <= entries'
    requires forall q :: q in scheduled && failed in deps[q] ==> q in entries'
    ensures Distinct(Independent(deps, scheduled, failed))
    ensures DependenciesComing(deps, Independent(deps, scheduled, failed), entries')
  {
    IndependentDistinct(deps, scheduled, failed);
    var r := Independent(deps, scheduled, failed);
    forall i | 0 <= i < |r| ensures DependencyComing(deps, r, entries', i) {
      var j := IndependentPosition(deps, scheduled, failed, i);
      assert DependencyComing(deps, scheduled, entries, j);
      forall d | d in deps[r[i]] ensures d in r[i + 1..] || d in entries' {
        assert d in scheduled[j + 1..] ==> d in scheduled;
      }
    }
  }

  lemma {:induction false} IndependentDistinct(deps: Graph, scheduled: seq<string>, failed: string)
    requires Distinct(scheduled) && Known(deps, scheduled)
    ensures Distinct(Independent(deps, scheduled, failed))
  {
    if scheduled != [] {
      var n := |scheduled| - 1;
      IndependentDistinct(deps, scheduled[..n], failed);
      assert scheduled[n] !in scheduled[..n];
    }
  }
}
