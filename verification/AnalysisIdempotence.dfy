/** Incremental analysis is idempotent: right after a pass in which nothing failed, another pass
    over the same plugins sends nothing to any plugin runner. */
module AnalysisIdempotence {
  import opened Text
  import opened TaskScheduler
  import opened AnalysisTasks
  import opened AnalysisPass

  ghost predicate SameAt(rows: Rows, rows0: Rows, q: string) {
    (q in rows <==> q in rows0) && (q in rows ==> rows[q] == rows0[q])
  }

  /** A handled plugin kept its result or was skipped again. */
  ghost predicate KeptOrSkipped(rows: Rows, rows0: Rows, q: string) {
    SameAt(rows, rows0, q) || (q != FILE_TYPE && q in rows && !IsFailed(rows[q]) && IsSkipped(rows[q]))
  }

  /** All scheduled plugins are settled in the rows the second pass starts from. */
  ghost predicate AllSettled(plugins: Plugins, order: seq<string>, rows0: Rows) {
    forall q :: q in order ==> Settled'(plugins, rows0, q)
  }

  ghost predicate SecondInv(plugins: Plugins, order: seq<string>, rows0: Rows, o: Obj) {
    var n := |o.fo.scheduled|;
    && ScheduleOk(plugins, order) && (forall q :: q in order ==> q in plugins.deps)
    && n <= |order| && o.fo.scheduled == order[..n]
    && !o.place.InPlugin() && o.sent == [] && !o.fo.forceUpdate
    && (forall q :: q !in order[n..] ==> SameAt(o.rows, rows0, q))
    && (forall q :: q in order[n..] ==> KeptOrSkipped(o.rows, rows0, q))
    && Loaded(plugins, order, n, n, o.fo.processed, o.rows)
    && FileTypeAgrees(o.fo.processed, o.rows)
  }

  /** If the dependencies and the file type are as they were, the verdict on the plugin is too. */
  lemma SettledAsBefore(plugins: Plugins, rows: Rows, rows0: Rows, p: string)
    requires p in plugins.deps && Settled(plugins, rows0, p) && SameAt(rows, rows0, p) && SameAt(rows, rows0, FILE_TYPE)
    requires forall d :: d in plugins.deps[p] ==> SameAt(rows, rows0, d)
    ensures UpToDate(plugins, rows, p) || WouldSkip(plugins, rows, p)
  {
    hide MimeBlocked, HasLists, Lower, IsSkipped, IsFailed, VersionIsNewer;
    if UpToDate(plugins, rows0, p) {
      assert UpToDate(plugins, rows, p);
    } else if Blocked(plugins, rows0, p) {
      assert Blocked(plugins, rows, p);
    } else if d :| d in plugins.deps[p] && d in rows0 && IsSkipped(rows0[d]) {
      assert d in plugins.deps[p] && d in rows && IsSkipped(rows[d]);
    } else {
      var d :| d in plugins.deps[p] && d in rows0 && !plugins.fits(d, rows0[d].result);
      assert d in plugins.deps[p] && d in rows && !plugins.fits(d, rows[d].result);
    }
  }

  /** A plugin that is not up to date is going to be skipped: either a dependency was skipped
      again, or nothing it looks at has changed. */
  lemma StaleIsSkipped(plugins: Plugins, rows: Rows, rows0: Rows, p: string)
    requires p in plugins.deps && Settled(plugins, rows0, p) && SameAt(rows, rows0, p) && SameAt(rows, rows0, FILE_TYPE)
    requires forall d :: d in plugins.deps[p] ==> KeptOrSkipped(rows, rows0, d)
    requires !UpToDate(plugins, rows, p)
    ensures WouldSkip(plugins, rows, p)
  {
    if d :| d in plugins.deps[p] && !SameAt(rows, rows0, d) {
      assert d in rows && IsSkipped(rows[d]);
    } else {
      SettledAsBefore(plugins, rows, rows0, p);
    }
  }

  /** The facts about the plugin that is popped next. */
  lemma PoppedSecond(plugins: Plugins, order: seq<string>, rows0: Rows, o: Obj)
    requires SecondInv(plugins, order, rows0, o) && o.place.Queued? && o.fo.scheduled != []
    requires AllSettled(plugins, order, rows0)
    ensures var n := |o.fo.scheduled| - 1;
      && order[n] in plugins.deps && Settled(plugins, rows0, order[n])
      && o.fo.scheduled[n] == order[n] && o.fo.scheduled[..n] == order[..n] && order[n] !in order[..n]
      && SameAt(o.rows, rows0, order[n]) && SameAt(o.rows, rows0, FILE_TYPE)
      && (forall d :: d in plugins.deps[order[n]] ==> KeptOrSkipped(o.rows, rows0, d) && d in o.rows && !IsFailed(o.rows[d]))
      && DependenciesLoaded(plugins, o.fo.processed, o.rows, order[n])
      && (order[n] == FILE_TYPE ==> plugins.deps[order[n]] == {})
  {
    hide UpToDate, WouldSkip, IsSkipped;
    var n := |o.fo.scheduled| - 1;
    assert plugins.deps[order[n]] <= Elements(order[n + 1..]);
    assert order[n] !in order[n + 1..];
    assert order[n] in order && Settled'(plugins, rows0, order[n]);
    forall d | d in plugins.deps[order[n]]
      ensures KeptOrSkipped(o.rows, rows0, d) && d in o.rows && !IsFailed(o.rows[d])
      ensures d in o.fo.processed && o.fo.processed[d] == o.rows[d]
    {
      assert d in order[n + 1..] && d in order;
      assert Settled'(plugins, rows0, d);
    }
    assert FILE_TYPE in order[n + 1..] ==> KeptOrSkipped(o.rows, rows0, FILE_TYPE);
  }

  lemma SecondStart(plugins: Plugins, order: seq<string>, o: Obj)
    requires Starts(plugins, order, o) && !o.fo.forceUpdate
    ensures SecondInv(plugins, order, o.rows, o)
  {
    StartInv(plugins, order, o);
    assert order[|order|..] == [];
  }

  lemma SecondReuse(plugins: Plugins, order: seq<string>, rows0: Rows, o: Obj, o': Obj)
    requires SecondInv(plugins, order, rows0, o) && o.place.Queued? && PassStep(plugins, o, o')
    requires AllSettled(plugins, order, rows0) && UpToDate(plugins, o.rows, order[|o.fo.scheduled| - 1])
    ensures SecondInv(plugins, order, rows0, o')
  {
    hide UpToDate, Settled, StartOrSkip, Reuse, DependenciesLoaded, ScheduleOk, KeptOrSkipped, SameAt, AllSettled;
    var n := |o.fo.scheduled| - 1;
    var p, fo := order[n], o.fo.(scheduled := order[..n]);
    PoppedSecond(plugins, order, rows0, o);
    assert Elements(fo.scheduled) <= plugins.deps.Keys;
    ReuseOutcome(plugins, fo, o.rows, p, o'.clock);
    ReusedNotNeeded(plugins, fo, o.rows, p);
    assert forall j :: 0 <= j < n ==> order[j] in fo.scheduled;
    ExtendLoaded(plugins, order, n, o.fo.processed, o.rows, o'.fo.processed, o'.rows);
    SameIsKept(o.rows, rows0, p);
    HandledSplit(order, n);
  }

  lemma SameIsKept(rows: Rows, rows0: Rows, q: string)
    requires SameAt(rows, rows0, q)
    ensures KeptOrSkipped(rows, rows0, q)
  {
  }

  lemma HandledSplit(order: seq<string>, n: nat)
    requires n < |order|
    ensures forall q :: q in order[n..] <==> q == order[n] || q in order[n + 1..]
  {
    assert order[n..] == [order[n]] + order[n + 1..];
  }

  lemma SecondRenew(plugins: Plugins, order: seq<string>, rows0: Rows, o: Obj, o': Obj)
    requires SecondInv(plugins, order, rows0, o) && o.place.Queued? && PassStep(plugins, o, o')
    requires AllSettled(plugins, order, rows0) && !UpToDate(plugins, o.rows, order[|o.fo.scheduled| - 1])
    ensures o'.sent == [] && (o'.place.Lost? || SecondInv(plugins, order, rows0, o'))
  {
    hide UpToDate, Settled, StartOrSkip, WouldSkip, IsFailed, SkippedAnalysis, KeptOrSkipped, SameAt, AllSettled, ScheduleOk;
    var n := |o.fo.scheduled| - 1;
    var p, fo := order[n], o.fo.(scheduled := order[..n]);
    PoppedSecond(plugins, order, rows0, o);
    StaleIsSkipped(plugins, o.rows, rows0, p);
    StepDecides(plugins, fo, o.rows, p, o'.clock);
    var outcome := StartOrSkip(plugins, fo, o.rows, p, o'.clock);
    assert outcome == ProcessNext(plugins, o.fo, o.rows, o'.clock);
    if outcome.Continue? {
      var reason :| outcome.rows == o.rows[p := SkippedAnalysis(plugins, p, reason, o'.clock)];
      NeverSkipsFileType(plugins, o.rows, p);
      ExtendLoaded(plugins, order, n, o.fo.processed, o.rows, o'.fo.processed, o'.rows);
      HandledSplit(order, n);
      SkippedAgain(plugins, o.rows, rows0, p, reason, o'.clock);
    }
  }

  lemma SkippedAgain(plugins: Plugins, rows: Rows, rows0: Rows, p: string, reason: Reason, now: real)
    requires p != FILE_TYPE
    ensures var rows' := rows[p := SkippedAnalysis(plugins, p, reason, now)];
      && KeptOrSkipped(rows', rows0, p)
      && (forall q :: q != p && SameAt(rows, rows0, q) ==> SameAt(rows', rows0, q))
      && (forall q :: q != p && KeptOrSkipped(rows, rows0, q) ==> KeptOrSkipped(rows', rows0, q))
  {
  }

  lemma {:induction false} SecondPass(plugins: Plugins, order: seq<string>, pass: seq<Obj>, i: nat)
    requires IsPass(plugins, order, pass) && !pass[0].fo.forceUpdate && i < |pass|
    requires AllSettled(plugins, order, pass[0].rows)
    ensures pass[i].sent == [] && (pass[i].place.Lost? || SecondInv(plugins, order, pass[0].rows, pass[i]))
  {
    hide Starts, Loaded, KeptOrSkipped, UpToDate, AllSettled, Continues;
    if i == 0 {
      SecondStart(plugins, order, pass[0]);
    } else {
      SecondPass(plugins, order, pass, i - 1);
      var o, o' := pass[i - 1], pass[i - 1 + 1];
      assert PassStep(plugins, o, o');
      PoppedSecond(plugins, order, pass[0].rows, o);
      if UpToDate(plugins, o.rows, order[|o.fo.scheduled| - 1]) {
        SecondReuse(plugins, order, pass[0].rows, o, o');
      } else {
        SecondRenew(plugins, order, pass[0].rows, o, o');
      }
    }
  }

  /** The second pass may meet the plugins in another order and starts from what the first one
      stored, at a later time. It is not forced. Whatever it does, it sends nothing to a plugin. */
  lemma Idempotent(plugins: Plugins, order1: seq<string>, pass1: seq<Obj>, order2: seq<string>, pass2: seq<Obj>)
    requires IsPass(plugins, order1, pass1) && NothingFailed(pass1) && pass1[|pass1| - 1].place.Done?
    requires IsPass(plugins, order2, pass2) && !pass2[0].fo.forceUpdate
    requires Elements(order1) == Elements(order2)
    requires pass2[0].rows == pass1[|pass1| - 1].rows
    ensures forall i :: 0 <= i < |pass2| ==> pass2[i].sent == [] && !pass2[i].place.InPlugin()
  {
    hide UpToDate, WouldSkip, Starts, PassStep;
    PassInvariant(plugins, order1, pass1, |pass1| - 1);
    forall q | q in order2 ensures Settled'(plugins, pass2[0].rows, q) {
      assert q in Elements(order1);
      var i :| 0 <= i < |order1| && order1[i] == q;
      assert Settled(plugins, pass2[0].rows, order1[i]);
    }
    forall i | 0 <= i < |pass2| ensures pass2[i].sent == [] && !pass2[i].place.InPlugin() {
      SecondPass(plugins, order2, pass2, i);
    }
  }
}
