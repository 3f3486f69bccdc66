/** A whole pass of one file object through the analysis pipeline, and why the next pass has
    nothing left to run. During a pass nobody else writes the analyses of the file. */
module AnalysisPass {
  import opened Common
  import opened Graphs
  import opened Text
  import opened TaskScheduler
  import opened AnalysisTasks

  datatype Place =
    | Queued
    | Waiting(plugin: string)
    | Running(plugin: string, since: real)
    | Collected(plugin: string)
    | Done
    | Dropped
    | Lost
  {
    predicate InPlugin() {
      Waiting? || Running? || Collected?
    }
  }

  /** The object, its stored analyses, the time, where it is, and which plugins it was sent to. */
  datatype Obj = Obj(fo: FileObject, rows: Rows, clock: real, place: Place, sent: seq<string>)

  /** `_check_further_process_or_complete` after a step; it drops objects of cancelled firmware. */
  ghost predicate Continues(o: Obj, o': Obj, outcome: Outcome) {
    match outcome
    case Continue(fo, rows) =>
      && o'.fo == fo && o'.rows == rows && o'.sent == o.sent
      && (if fo.scheduled == [] then o'.place == Done else o'.place == Queued || o'.place == Dropped)
    case Send(fo, p) => o'.fo == fo && o'.rows == o.rows && o'.place == Waiting(p) && o'.sent == o.sent + [p]
    case Raised => o' == o.(place := Lost, clock := o'.clock)
  }

  ghost predicate PassStep(plugins: Plugins, o: Obj, o': Obj) {
    && o.clock <= o'.clock
    && match o.place
       case Queued => o.fo.scheduled != [] && Continues(o, o', ProcessNext(plugins, o.fo, o.rows, o'.clock))
       case Waiting(p) => o' == o.(place := Running(p, o'.clock), clock := o'.clock)
       case Running(p, since) =>
         exists report :: ReportedWithin(report, since, o'.clock)
                          && o' == o.(fo := WriteResult(plugins, o.fo, p, report), place := Collected(p), clock := o'.clock)
       case Collected(p) => Continues(o, o', HandleCollected(plugins, o.fo, o.rows, p, o'.clock))
       case _ => false
  }

  /** What `schedule_analysis_tasks` guarantees if `file_type` has no dependencies. */
  ghost predicate ScheduleOk(plugins: Plugins, order: seq<string>) {
    && Distinct(order) && DependenciesAfter(plugins.deps, order)
    && (FILE_TYPE in order ==>
        order[|order| - 1] == FILE_TYPE && FILE_TYPE in plugins.deps && plugins.deps[FILE_TYPE] == {})
  }

  /** The object knows the stored file type or none. */
  ghost predicate FileTypeAgrees(processed: Rows, rows: Rows) {
    FILE_TYPE in processed ==> FILE_TYPE in rows && processed[FILE_TYPE] == rows[FILE_TYPE]
  }

  ghost predicate Starts(plugins: Plugins, order: seq<string>, o: Obj) {
    && ScheduleOk(plugins, order)
    && o.fo.scheduled == order && o.fo.failure.None? && o.sent == []
    && o.place == (if order == [] then Done else Queued)
    && FileTypeAgrees(o.fo.processed, o.rows)
    && forall q :: q in o.rows ==> o.rows[q].date <= o.clock
  }

  ghost predicate IsPass(plugins: Plugins, order: seq<string>, pass: seq<Obj>) {
    && pass != [] && Starts(plugins, order, pass[0])
    && forall i :: 0 <= i < |pass| - 1 ==> PassStep(plugins, pass[i], pass[i + 1])
  }

  /** No analysis came back failed. */
  ghost predicate NothingFailed(pass: seq<Obj>) {
    forall i :: 0 <= i < |pass| ==> NotFailed(pass[i])
  }

  ghost predicate NotFailed(o: Obj) {
    o.place.Collected? ==>
      o.fo.failure.None? && o.place.plugin in o.fo.processed && !IsFailed(o.fo.processed[o.place.plugin])
  }

  // ---- settled results ----

  ghost predicate Blocked(plugins: Plugins, rows: Rows, p: string) {
    && p !in MANDATORY_PLUGINS && HasLists(plugins, p)
    && FILE_TYPE in rows && "mime" in rows[FILE_TYPE].result
    && MimeBlocked(plugins, p, Lower(rows[FILE_TYPE].result["mime"]))
  }

  /** With these stored results the plugin is skipped if it has to be renewed. */
  ghost predicate WouldSkip(plugins: Plugins, rows: Rows, p: string)
    requires p in plugins.deps
  {
    || Blocked(plugins, rows, p)
    || (exists d :: d in plugins.deps[p] && d in rows && IsSkipped(rows[d]))
    || (exists d :: d in plugins.deps[p] && d in rows && !plugins.fits(d, rows[d].result))
  }

  ghost predicate Settled(plugins: Plugins, rows: Rows, p: string)
    requires p in plugins.deps
  {
    && p in rows && !IsFailed(rows[p])
    && DependenciesUpToDate(plugins, rows, p, rows[p].date)
    && (UpToDate(plugins, rows, p) || WouldSkip(plugins, rows, p))
  }

  /** Settled results stay settled when a plugin further ahead in the schedule gets its result. */
  lemma SettledStays(plugins: Plugins, order: seq<string>, rows: Rows, n: nat, i: nat, a: Analysis)
    requires ScheduleOk(plugins, order) && n < i < |order|
    requires order[i] in plugins.deps && Settled(plugins, rows, order[i])
    ensures Settled(plugins, rows[order[n] := a], order[i])
  {
    hide MimeBlocked, HasLists, Lower, IsSkipped, IsFailed, VersionIsNewer;
    var q, rows' := order[i], rows[order[n] := a];
    assert plugins.deps[q] <= Elements(order[i + 1..]);
    forall d | d in plugins.deps[q] ensures d != order[n] && d in rows && rows'[d] == rows[d] {
      assert d in order[i + 1..];
    }
    assert order[n] != FILE_TYPE by {
      assert FILE_TYPE in order ==> order[|order| - 1] == FILE_TYPE;
    }
    assert q != order[n];
    if UpToDate(plugins, rows, q) {
      assert UpToDate(plugins, rows', q);
    } else if Blocked(plugins, rows, q) {
      assert Blocked(plugins, rows', q);
    } else if d :| d in plugins.deps[q] && d in rows && IsSkipped(rows[d]) {
      assert d in plugins.deps[q] && d in rows' && IsSkipped(rows'[d]);
    } else {
      var d :| d in plugins.deps[q] && d in rows && !plugins.fits(d, rows[d].result);
      assert d in plugins.deps[q] && d in rows' && !plugins.fits(d, rows'[d].result);
    }
  }

  // ---- how one step decides ----

  lemma ListsDecide(plugins: Plugins, fo: FileObject, rows: Rows, p: string)
    requires FileTypeAgrees(fo.processed, rows)
    ensures var v := CheckLists(plugins, fo, rows, p);
      v.Verdict? ==>
        && v.blocked == Blocked(plugins, rows, p)
        && FileTypeAgrees(v.fo.processed, rows)
        && v.fo == fo.(processed := v.fo.processed)
        && (forall d :: d in fo.processed ==> d in v.fo.processed && v.fo.processed[d] == fo.processed[d])
        && (forall d :: d in v.fo.processed && d !in fo.processed ==> d in rows && v.fo.processed[d] == rows[d])
  {
    hide MimeBlocked, HasLists, Lower;
  }

  /** The dependencies of the plugin are loaded with their stored results. */
  ghost predicate DependenciesLoaded(plugins: Plugins, processed: Rows, rows: Rows, p: string)
    requires p in plugins.deps
  {
    forall d :: d in plugins.deps[p] ==> d in processed && d in rows && processed[d] == rows[d]
  }

  /** The object after the step: its other entries are kept and the file type still agrees. */
  ghost predicate EntriesKept(fo: FileObject, fo': FileObject, rows': Rows, p: string) {
    && fo' == fo.(processed := fo'.processed)
    && FileTypeAgrees(fo'.processed, rows')
    && forall d :: d in fo.processed && d != p ==> d in fo'.processed && fo'.processed[d] == fo.processed[d]
  }

  ghost predicate SkippedNow(plugins: Plugins, fo: FileObject, rows: Rows, p: string, now: real, o: Outcome) {
    && o.Continue?
    && (exists reason :: o.rows == rows[p := SkippedAnalysis(plugins, p, reason, now)])
    && p in o.fo.processed && o.fo.processed[p] == o.rows[p]
    && EntriesKept(fo, o.fo, o.rows, p)
  }

  lemma SkipKeeps(plugins: Plugins, fo: FileObject, v: FileObject, rows: Rows, p: string, reason: Reason, now: real)
    requires EntriesKept(fo, v, rows, p)
    ensures SkippedNow(plugins, fo, rows, p, now, Skip(plugins, v, rows, p, reason, now))
  {
    hide SkippedAnalysis, IsSkipped, IsFailed;
  }

  /** A plugin that has to be renewed is skipped for a reason that its stored surroundings show,
      or it is sent because they show none. */
  lemma StepDecides(plugins: Plugins, fo: FileObject, rows: Rows, p: string, now: real)
    requires p in plugins.deps && FileTypeAgrees(fo.processed, rows)
    requires DependenciesLoaded(plugins, fo.processed, rows, p)
    requires forall d :: d in plugins.deps[p] ==> !IsFailed(rows[d])
    requires fo.forceUpdate || !UpToDate(plugins, rows, p)
    ensures var o := StartOrSkip(plugins, fo, rows, p, now);
      && (o.Continue? ==> WouldSkip(plugins, rows, p) && SkippedNow(plugins, fo, rows, p, now, o))
      && (o.Send? ==> !WouldSkip(plugins, rows, p) && o.plugin == p && EntriesKept(fo, o.fo, rows, p))
  {
    hide CheckLists, Blocked, UpToDate, SkippedNow, EntriesKept, Skip, IsSkipped, IsFailed;
    var v := CheckLists(plugins, fo, rows, p);
    ListsKeep(plugins, fo, rows, p);
    ListsDecide(plugins, fo, rows, p);
    if v.Verdict? {
      SkipKeeps(plugins, fo, v.fo, rows, p, Blacklisted, now);
      SkipKeeps(plugins, fo, v.fo, rows, p, DependencyMissing, now);
      SkipKeeps(plugins, fo, v.fo, rows, p, SchemaMismatch, now);
      SkipContinues(plugins, v.fo, rows, p, now);
      assert forall d :: d in plugins.deps[p] ==> d in v.fo.processed && v.fo.processed[d] == rows[d];
    }
  }

  lemma SkipContinues(plugins: Plugins, fo: FileObject, rows: Rows, p: string, now: real)
    ensures forall reason :: Skip(plugins, fo, rows, p, reason, now).Continue?
  {
  }

  lemma ListsKeep(plugins: Plugins, fo: FileObject, rows: Rows, p: string)
    requires FileTypeAgrees(fo.processed, rows)
    ensures var v := CheckLists(plugins, fo, rows, p);
      v.Verdict? ==> EntriesKept(fo, v.fo, rows, p)
  {
    hide MimeBlocked, HasLists, Lower;
  }

  // ---- the first pass ----

  /** Where the handled part of the schedule begins: the plugin in work is not handled yet. */
  ghost function First(o: Obj): nat {
    |o.fo.scheduled| + (if o.place.InPlugin() then 1 else 0)
  }

  /** Handled dependencies of plugins to come are loaded with their stored results. */
  ghost predicate Loaded(plugins: Plugins, order: seq<string>, n: nat, first: nat, processed: Rows, rows: Rows)
    requires n <= first <= |order| && forall q :: q in order ==> q in plugins.deps
  {
    forall j, d :: 0 <= j < n && d in plugins.deps[order[j]] && d in order[first..] ==>
      d in processed && d in rows && processed[d] == rows[d]
  }

  ghost predicate HandledSettled(plugins: Plugins, order: seq<string>, first: nat, rows: Rows)
    requires first <= |order| && forall q :: q in order ==> q in plugins.deps
  {
    forall i :: first <= i < |order| ==> Settled(plugins, rows, order[i])
  }

  /** The plugin in work will be no older than its dependencies. */
  ghost predicate WorkOk(plugins: Plugins, o: Obj)
    requires o.place.InPlugin() ==> o.place.plugin in plugins.deps
  {
    match o.place
    case Running(p, since) => since <= o.clock && DependenciesUpToDate(plugins, o.rows, p, since)
    case Collected(p) =>
      NotFailed(o) ==>
        && o.fo.processed[p].version == Some(plugins.version(p)) && o.fo.processed[p].system == plugins.system(p)
        && o.fo.processed[p].date <= o.clock
        && DependenciesUpToDate(plugins, o.rows, p, o.fo.processed[p].date)
    case _ => true
  }

  ghost predicate PassInv(plugins: Plugins, order: seq<string>, o: Obj) {
    var n, first := |o.fo.scheduled|, First(o);
    && ScheduleOk(plugins, order) && (forall q :: q in order ==> q in plugins.deps)
    && first <= |order| && o.fo.scheduled == order[..n]
    && (o.place.InPlugin() ==> o.place.plugin == order[n])
    && (o.place.Done? ==> n == 0)
    && (!o.place.Collected? ==> o.fo.failure.None?)
    && (forall q :: q in o.rows ==> o.rows[q].date <= o.clock)
    && HandledSettled(plugins, order, first, o.rows)
    && Loaded(plugins, order, n, first, o.fo.processed, o.rows)
    && (!(o.place.Collected? && o.place.plugin == FILE_TYPE) ==> FileTypeAgrees(o.fo.processed, o.rows))
    && WorkOk(plugins, o)
  }

  lemma StartInv(plugins: Plugins, order: seq<string>, o: Obj)
    requires Starts(plugins, order, o)
    ensures PassInv(plugins, order, o)
  {
    forall q | q in order ensures q in plugins.deps {
      var i :| 0 <= i < |order| && order[i] == q;
    }
    assert order[..|order|] == order && order[|order|..] == [];
  }

  lemma PoppedLoaded(plugins: Plugins, order: seq<string>, o: Obj)
    requires PassInv(plugins, order, o) && o.place.Queued? && o.fo.scheduled != []
    ensures var n := |o.fo.scheduled| - 1;
      && order[n] in plugins.deps
      && o.fo.scheduled[n] == order[n] && o.fo.scheduled[..n] == order[..n] && order[n] !in order[..n]
      && DependenciesLoaded(plugins, o.fo.processed, o.rows, order[n])
      && (forall d :: d in plugins.deps[order[n]] ==> Settled'(plugins, o.rows, d))
      && (order[n] == FILE_TYPE ==> plugins.deps[order[n]] == {})
  {
    hide UpToDate, WouldSkip;
    var n := |o.fo.scheduled| - 1;
    assert plugins.deps[order[n]] <= Elements(order[n + 1..]);
    forall d | d in plugins.deps[order[n]] ensures d in o.fo.processed && d in o.rows && o.fo.processed[d] == o.rows[d] && Settled'(plugins, o.rows, d) {
      assert d in order[n + 1..];
      var i :| n + 1 <= i < |order| && order[i] == d;
      assert Settled(plugins, o.rows, order[i]);
    }
  }

  ghost predicate Settled'(plugins: Plugins, rows: Rows, p: string) {
    p in plugins.deps && Settled(plugins, rows, p)
  }

  /** Handling plugin `order[n]` with a settled result extends the handled part. */
  lemma ExtendHandled(plugins: Plugins, order: seq<string>, n: nat, rows: Rows, a: Analysis)
    requires ScheduleOk(plugins, order) && (forall q :: q in order ==> q in plugins.deps) && n < |order|
    requires HandledSettled(plugins, order, n + 1, rows)
    requires Settled(plugins, rows[order[n] := a], order[n])
    ensures HandledSettled(plugins, order, n, rows[order[n] := a])
  {
    hide Settled;
    forall i | n <= i < |order| ensures Settled(plugins, rows[order[n] := a], order[i]) {
      if i > n {
        SettledStays(plugins, order, rows, n, i, a);
      }
    }
  }

  lemma ExtendLoaded(plugins: Plugins, order: seq<string>, n: nat, processed: Rows, rows: Rows, processed': Rows, rows': Rows)
    requires n < |order| && forall q :: q in order ==> q in plugins.deps
    requires Loaded(plugins, order, n + 1, n + 1, processed, rows)
    requires forall d :: d in processed && d != order[n] ==> d in processed' && processed'[d] == processed[d]
    requires forall d :: d in rows && d != order[n] ==> d in rows' && rows'[d] == rows[d]
    requires (order[n] in processed' && order[n] in rows' && processed'[order[n]] == rows'[order[n]])
             || forall j :: 0 <= j < n ==> order[n] !in plugins.deps[order[j]]
    ensures Loaded(plugins, order, n, n, processed', rows')
  {
    forall j, d | 0 <= j < n && d in plugins.deps[order[j]] && d in order[n..]
      ensures d in processed' && d in rows' && processed'[d] == rows'[d]
    {
      assert order[n..] == [order[n]] + order[n + 1..];
    }
  }

  lemma SettledByDate(plugins: Plugins, rows: Rows, p: string, a: Analysis)
    requires p in plugins.deps && !IsFailed(a) && p !in plugins.deps[p]
    requires DependenciesUpToDate(plugins, rows, p, a.date)
    requires (a.version == Some(plugins.version(p)) && a.system == plugins.system(p)) || (WouldSkip(plugins, rows, p) && p != FILE_TYPE)
    ensures Settled(plugins, rows[p := a], p)
  {
    hide MimeBlocked, HasLists, Lower, IsSkipped, IsFailed;
    var rows' := rows[p := a];
    assert forall d :: d in plugins.deps[p] ==> d != p;
    assert DependenciesUpToDate(plugins, rows', p, a.date);
    if a.version == Some(plugins.version(p)) && a.system == plugins.system(p) {
      assert UpToDate(plugins, rows', p);
    } else if Blocked(plugins, rows, p) {
      assert Blocked(plugins, rows', p);
    } else if d :| d in plugins.deps[p] && d in rows && IsSkipped(rows[d]) {
      assert d in plugins.deps[p] && d in rows' && IsSkipped(rows'[d]);
    } else {
      var d :| d in plugins.deps[p] && d in rows && !plugins.fits(d, rows[d].result);
      assert d in plugins.deps[p] && d in rows' && !plugins.fits(d, rows'[d].result);
    }
  }

  lemma NotItsOwnDependency(plugins: Plugins, order: seq<string>, n: nat)
    requires ScheduleOk(plugins, order) && n < |order| && order[n] in plugins.deps
    ensures order[n] !in plugins.deps[order[n]]
  {
    assert plugins.deps[order[n]] <= Elements(order[n + 1..]);
    assert order[n] !in order[n + 1..];
  }

  lemma ReuseStep(plugins: Plugins, order: seq<string>, o: Obj, o': Obj)
    requires PassInv(plugins, order, o) && o.place.Queued? && PassStep(plugins, o, o')
    requires !o.fo.forceUpdate && UpToDate(plugins, o.rows, order[|o.fo.scheduled| - 1])
    ensures PassInv(plugins, order, o')
  {
    hide UpToDate, Settled, StartOrSkip, Reuse, DependenciesLoaded, ScheduleOk, HandledSettled, Loaded;
    var n := |o.fo.scheduled| - 1;
    var p, fo := order[n], o.fo.(scheduled := order[..n]);
    PoppedLoaded(plugins, order, o);
    ReuseOutcome(plugins, fo, o.rows, p, o'.clock);
    assert Elements(fo.scheduled) <= plugins.deps.Keys;
    ReusedNotNeeded(plugins, fo, o.rows, p);
    ReusedSettled(plugins, o.rows, p);
    assert o.rows[p := o.rows[p]] == o.rows;
    ExtendHandled(plugins, order, n, o.rows, o.rows[p]);
    assert forall j :: 0 <= j < n ==> order[j] in fo.scheduled;
    ExtendLoaded(plugins, order, n, o.fo.processed, o.rows, o'.fo.processed, o'.rows);
  }

  lemma ReuseOutcome(plugins: Plugins, fo: FileObject, rows: Rows, p: string, now: real)
    requires p in plugins.deps && !fo.forceUpdate && UpToDate(plugins, rows, p)
    requires Elements(fo.scheduled) <= plugins.deps.Keys
    ensures p in rows && Reuse(plugins, fo, rows, p).Continue?
    ensures var o := Reuse(plugins, fo, rows, p);
      && StartOrSkip(plugins, fo, rows, p, now) == o
      && o.rows == rows
      && (o.fo == fo || o.fo == fo.(processed := fo.processed[p := rows[p]]))
  {
  }

  lemma ReusedSettled(plugins: Plugins, rows: Rows, p: string)
    requires p in plugins.deps && UpToDate(plugins, rows, p)
    ensures Settled(plugins, rows, p)
  {
  }

  lemma RenewStep(plugins: Plugins, order: seq<string>, o: Obj, o': Obj)
    requires PassInv(plugins, order, o) && o.place.Queued? && PassStep(plugins, o, o')
    requires o.fo.forceUpdate || !UpToDate(plugins, o.rows, order[|o.fo.scheduled| - 1])
    ensures o'.place.Lost? || PassInv(plugins, order, o')
  {
    hide UpToDate, Settled, StartOrSkip, WouldSkip, IsFailed, SkippedAnalysis, HandledSettled, Loaded, ScheduleOk, DependenciesLoaded;
    var n := |o.fo.scheduled| - 1;
    var p, fo := order[n], o.fo.(scheduled := order[..n]);
    PoppedLoaded(plugins, order, o);
    DependenciesNotFailed(plugins, o.rows, p, o.clock);
    StepDecides(plugins, fo, o.rows, p, o'.clock);
    var outcome := StartOrSkip(plugins, fo, o.rows, p, o'.clock);
    assert outcome == ProcessNext(plugins, o.fo, o.rows, o'.clock);
    if outcome.Continue? {
      var reason :| outcome.rows == o.rows[p := SkippedAnalysis(plugins, p, reason, o'.clock)];
      var a := SkippedAnalysis(plugins, p, reason, o'.clock);
      NotItsOwnDependency(plugins, order, n);
      NeverSkipsFileType(plugins, o.rows, p);
      SkipsAreNotFailed(plugins, p, reason, o'.clock);
      SettledByDate(plugins, o.rows, p, a);
      ExtendHandled(plugins, order, n, o.rows, a);
      ExtendLoaded(plugins, order, n, o.fo.processed, o.rows, o'.fo.processed, o'.rows);
    } else if outcome.Send? {
      SentLoaded(plugins, order, n, o.fo.processed, o'.fo.processed, o.rows);
    }
  }

  lemma SentLoaded(plugins: Plugins, order: seq<string>, n: nat, processed: Rows, processed': Rows, rows: Rows)
    requires n < |order| && forall q :: q in order ==> q in plugins.deps
    requires ScheduleOk(plugins, order) && Loaded(plugins, order, n + 1, n + 1, processed, rows)
    requires forall d :: d in processed && d != order[n] ==> d in processed' && processed'[d] == processed[d]
    ensures Loaded(plugins, order, n, n + 1, processed', rows)
  {
  }

  lemma SkipsAreNotFailed(plugins: Plugins, p: string, reason: Reason, now: real)
    ensures !IsFailed(SkippedAnalysis(plugins, p, reason, now)) && SkippedAnalysis(plugins, p, reason, now).date == now
  {
  }

  lemma DependenciesNotFailed(plugins: Plugins, rows: Rows, p: string, clock: real)
    requires p in plugins.deps && forall d :: d in plugins.deps[p] ==> Settled'(plugins, rows, d)
    requires forall q :: q in rows ==> rows[q].date <= clock
    ensures forall d :: d in plugins.deps[p] ==> d in rows && !IsFailed(rows[d])
    ensures forall now :: clock <= now ==> DependenciesUpToDate(plugins, rows, p, now)
  {
  }

  /** The file type plugin is mandatory and has no dependencies, so nothing can make it skip. */
  lemma NeverSkipsFileType(plugins: Plugins, rows: Rows, p: string)
    requires p in plugins.deps && (p == FILE_TYPE ==> plugins.deps[p] == {})
    ensures p == FILE_TYPE ==> !WouldSkip(plugins, rows, p)
  {
  }

  lemma InPluginStep(plugins: Plugins, order: seq<string>, o: Obj, o': Obj)
    requires PassInv(plugins, order, o) && (o.place.Waiting? || o.place.Running?) && PassStep(plugins, o, o')
    ensures PassInv(plugins, order, o')
  {
    if o.place.Waiting? {
      TakenStep(plugins, order, o, o');
    } else {
      ReportedStep(plugins, order, o, o');
    }
  }

  lemma TakenStep(plugins: Plugins, order: seq<string>, o: Obj, o': Obj)
    requires PassInv(plugins, order, o) && o.place.Waiting? && PassStep(plugins, o, o')
    ensures PassInv(plugins, order, o')
  {
    hide Settled, IsFailed, Loaded, HandledSettled, ScheduleOk, FileTypeAgrees;
    DependenciesStored(plugins, order, |o.fo.scheduled|, o.rows);
  }

  lemma ReportedStep(plugins: Plugins, order: seq<string>, o: Obj, o': Obj)
    requires PassInv(plugins, order, o) && o.place.Running? && PassStep(plugins, o, o')
    ensures PassInv(plugins, order, o')
  {
    hide Settled, IsFailed, Loaded, HandledSettled, ScheduleOk, DependenciesUpToDate;
    var n := |o.fo.scheduled|;
    var p := order[n];
    var report :| ReportedWithin(report, o.place.since, o'.clock)
                  && o' == o.(fo := WriteResult(plugins, o.fo, p, report), place := Collected(p), clock := o'.clock);
    WrittenLoaded(plugins, order, n, o.fo.processed, o'.fo.processed, o.rows);
    LaterIsUpToDate(plugins, o.rows, p, o.place.since);
  }

  lemma LaterIsUpToDate(plugins: Plugins, rows: Rows, p: string, since: real)
    requires p in plugins.deps && DependenciesUpToDate(plugins, rows, p, since)
    ensures forall later :: since <= later ==> DependenciesUpToDate(plugins, rows, p, later)
  {
  }

  lemma WrittenLoaded(plugins: Plugins, order: seq<string>, n: nat, processed: Rows, processed': Rows, rows: Rows)
    requires n < |order| && forall q :: q in order ==> q in plugins.deps
    requires ScheduleOk(plugins, order) && Loaded(plugins, order, n, n + 1, processed, rows)
    requires forall d :: d in processed && d != order[n] ==> d in processed' && processed'[d] == processed[d]
    ensures Loaded(plugins, order, n, n + 1, processed', rows)
  {
    assert order[n] !in order[n + 1..];
  }

  lemma DependenciesStored(plugins: Plugins, order: seq<string>, n: nat, rows: Rows)
    requires n < |order| && forall q :: q in order ==> q in plugins.deps
    requires ScheduleOk(plugins, order) && HandledSettled(plugins, order, n + 1, rows)
    ensures forall d :: d in plugins.deps[order[n]] ==> d in rows
  {
    hide Settled;
    assert plugins.deps[order[n]] <= Elements(order[n + 1..]);
    forall d | d in plugins.deps[order[n]] ensures d in rows {
      assert d in order[n + 1..];
      var i :| n + 1 <= i < |order| && order[i] == d;
      SettledStored(plugins, rows, order[i]);
    }
  }

  lemma SettledStored(plugins: Plugins, rows: Rows, p: string)
    requires p in plugins.deps && Settled(plugins, rows, p)
    ensures p in rows
  {
  }

  lemma CollectStep(plugins: Plugins, order: seq<string>, o: Obj, o': Obj)
    requires PassInv(plugins, order, o) && o.place.Collected? && PassStep(plugins, o, o') && NotFailed(o)
    ensures PassInv(plugins, order, o')
  {
    hide Settled, IsFailed, Rescheduled, Loaded, HandledSettled, ScheduleOk, DependenciesUpToDate, WouldSkip;
    var n := |o.fo.scheduled|;
    var p := order[n];
    var a := o.fo.processed[p];
    NotItsOwnDependency(plugins, order, n);
    SettledByDate(plugins, o.rows, p, a);
    ExtendHandled(plugins, order, n, o.rows, a);
    CollectLoaded(plugins, order, n, o.fo.processed, o.rows);
  }

  lemma CollectLoaded(plugins: Plugins, order: seq<string>, n: nat, processed: Rows, rows: Rows)
    requires n < |order| && order[n] in processed && forall q :: q in order ==> q in plugins.deps
    requires Loaded(plugins, order, n, n + 1, processed, rows)
    ensures Loaded(plugins, order, n, n, processed, rows[order[n] := processed[order[n]]])
  {
    assert order[n..] == [order[n]] + order[n + 1..];
  }

  /** Every state of a pass without failures satisfies the invariant, unless an exception ended it. */
  lemma {:induction false} PassInvariant(plugins: Plugins, order: seq<string>, pass: seq<Obj>, i: nat)
    requires IsPass(plugins, order, pass) && NothingFailed(pass) && i < |pass|
    ensures pass[i].place.Lost? || PassInv(plugins, order, pass[i])
  {
    hide PassInv, Starts;
    if i == 0 {
      StartInv(plugins, order, pass[0]);
    } else {
      PassInvariant(plugins, order, pass, i - 1);
      var o, o' := pass[i - 1], pass[i - 1 + 1];
      assert PassStep(plugins, o, o') && NotFailed(o);
      StepInv(plugins, order, o, o');
    }
  }

  lemma StepInv(plugins: Plugins, order: seq<string>, o: Obj, o': Obj)
    requires PassInv(plugins, order, o) && PassStep(plugins, o, o') && NotFailed(o)
    ensures o'.place.Lost? || PassInv(plugins, order, o')
  {
    hide HandledSettled, Loaded, WorkOk, Continues, UpToDate;
    match o.place
    case Queued =>
      PoppedKnown(plugins, order, o);
      if !o.fo.forceUpdate && UpToDate(plugins, o.rows, order[|o.fo.scheduled| - 1]) {
        ReuseStep(plugins, order, o, o');
      } else {
        RenewStep(plugins, order, o, o');
      }
    case Waiting(_) => InPluginStep(plugins, order, o, o');
    case Running(_, _) => InPluginStep(plugins, order, o, o');
    case Collected(_) => CollectStep(plugins, order, o, o');
    case _ =>
  }

  lemma PoppedKnown(plugins: Plugins, order: seq<string>, o: Obj)
    requires PassInv(plugins, order, o) && o.place.Queued? && o.fo.scheduled != []
    ensures order[|o.fo.scheduled| - 1] in plugins.deps
  {
  }

  /** After a completed pass without failures, every scheduled plugin has a stored result that is
      no older than those of its dependencies. */
  lemma FreshAfterPass(plugins: Plugins, order: seq<string>, pass: seq<Obj>)
    requires IsPass(plugins, order, pass) && NothingFailed(pass) && pass[|pass| - 1].place.Done?
    ensures var rows := pass[|pass| - 1].rows;
      forall p :: p in order ==>
        && p in plugins.deps && p in rows && !IsFailed(rows[p])
        && forall d :: d in plugins.deps[p] ==> d in rows && rows[d].date <= rows[p].date
  {
    hide Settled, Loaded, WorkOk, ScheduleOk, IsFailed, NothingFailed, PassStep, Starts;
    PassInvariant(plugins, order, pass, |pass| - 1);
    var rows := pass[|pass| - 1].rows;
    forall p | p in order
      ensures p in plugins.deps && p in rows && !IsFailed(rows[p])
      ensures forall d :: d in plugins.deps[p] ==> d in rows && rows[d].date <= rows[p].date
    {
      var i :| 0 <= i < |order| && order[i] == p;
      SettledIsFresh(plugins, rows, order[i]);
    }
  }

  lemma SettledIsFresh(plugins: Plugins, rows: Rows, p: string)
    requires p in plugins.deps && Settled(plugins, rows, p)
    ensures p in rows && !IsFailed(rows[p])
    ensures forall d :: d in plugins.deps[p] ==> d in rows && rows[d].date <= rows[p].date
  {
    hide UpToDate, WouldSkip;
  }
}
