/** What the analysis scheduler decides for the next plugin of a file, told from the stored results,
    versions, dates and MIME types alone (src/scheduler/analysis/scheduler.py). */
module AnalysisDecisions {
  import opened Common
  import opened Text
  import opened TaskScheduler
  import opened AnalysisTasks

  ghost function NextPlugin(fo: FileObject): string
    requires fo.scheduled != []
  {
    fo.scheduled[|fo.scheduled| - 1]
  }

  ghost function RestOf(fo: FileObject): seq<string>
    requires fo.scheduled != []
  {
    fo.scheduled[..|fo.scheduled| - 1]
  }

  // ---- reuse or renew ----

  /** The stored result may stand: it did not fail, it was made by no older versions than those
      installed, and no dependency has been analysed later or is missing. */
  ghost predicate MayStand(plugins: Plugins, rows: Rows, p: string)
    requires p in plugins.deps
  {
    && p in rows && "failed" !in rows[p].result
    && rows[p].version.Some? && plugins.version(p) <= rows[p].version.value && plugins.system(p) <= rows[p].system
    && forall d :: d in plugins.deps[p] ==> d in rows && rows[d].date <= rows[p].date
  }

  lemma StandingIsUpToDate(plugins: Plugins, rows: Rows, p: string)
    requires p in plugins.deps
    ensures MayStand(plugins, rows, p) <==> UpToDate(plugins, rows, p)
  {
  }

  /** An unforced object keeps the stored results exactly if the next plugin's one may stand. It is
      then loaded exactly if a plugin that is still scheduled needs it and it is not to run again. */
  lemma ReusedExactly(plugins: Plugins, fo: FileObject, rows: Rows, now: real)
    requires fo.scheduled != [] && Known(plugins.deps, fo.scheduled) && !fo.forceUpdate && MayStand(plugins, rows, NextPlugin(fo))
    ensures var p, rest, o := NextPlugin(fo), RestOf(fo), ProcessNext(plugins, fo, rows, now);
      && o.Continue? && o.rows == rows
      && o.fo == fo.(scheduled := rest, processed := o.fo.processed)
      && o.fo.processed == if p !in rest && (exists q :: q in rest && p in plugins.deps[q]) then fo.processed[p := rows[p]] else fo.processed
  {
    var p, rest := NextPlugin(fo), RestOf(fo);
    assert forall q :: q in rest ==> q in fo.scheduled;
    assert p in fo.scheduled;
    StandingIsUpToDate(plugins, rows, p);
    assert Elements(rest) <= plugins.deps.Keys;
    if q :| q in rest && p in plugins.deps[q] {
      assert q in Elements(rest);
    }
  }

  /** A forced object, or one whose stored result may not stand, never keeps that result: the plugin
      runs, or its result is replaced by a note that it was skipped, made now by the installed
      version; all other results stay. */
  lemma RenewedExactly(plugins: Plugins, fo: FileObject, rows: Rows, now: real)
    requires fo.scheduled != [] && NextPlugin(fo) in plugins.deps
    requires fo.forceUpdate || !MayStand(plugins, rows, NextPlugin(fo))
    ensures var p, o := NextPlugin(fo), ProcessNext(plugins, fo, rows, now);
      && (o.Send? ==> o.plugin == p)
      && (o.Continue? ==>
          && p in o.rows && p in o.fo.processed && o.fo.processed[p] == o.rows[p]
          && o.rows == rows[p := o.rows[p]]
          && o.rows[p].result.Keys == {"skipped"} && o.rows[p].date == now
          && o.rows[p].version == Some(plugins.version(p)) && o.rows[p].system == 0)
  {
    hide CheckLists, UpToDate, MayStand, Unfulfilled, SchemasFit, Skip;
    var p := NextPlugin(fo);
    StandingIsUpToDate(plugins, rows, p);
    var v := CheckLists(plugins, fo.(scheduled := RestOf(fo)), rows, p);
    if v.Verdict? {
      SkipIsNoted(plugins, v.fo, rows, p, Blacklisted, now);
      SkipIsNoted(plugins, v.fo, rows, p, DependencyMissing, now);
      SkipIsNoted(plugins, v.fo, rows, p, SchemaMismatch, now);
    }
  }

  /** Skipping replaces the plugin's result by a note in the object and in the database. */
  ghost predicate SkipNoted(plugins: Plugins, fo: FileObject, rows: Rows, p: string, reason: Reason, now: real) {
    var o := Skip(plugins, fo, rows, p, reason, now);
    && o.Continue? && p in o.rows && p in o.fo.processed && o.fo.processed[p] == o.rows[p]
    && o.rows == rows[p := o.rows[p]] && o.rows[p].result.Keys == {"skipped"} && o.rows[p].date == now
    && o.rows[p].version == Some(plugins.version(p)) && o.rows[p].system == 0
  }

  lemma SkipIsNoted(plugins: Plugins, fo: FileObject, rows: Rows, p: string, reason: Reason, now: real)
    ensures SkipNoted(plugins, fo, rows, p, reason, now)
  {
  }

  /** A plugin that is not installed is passed over. */
  lemma UnknownIsPassedOver(plugins: Plugins, fo: FileObject, rows: Rows, now: real)
    requires fo.scheduled != [] && NextPlugin(fo) !in plugins.deps
    ensures ProcessNext(plugins, fo, rows, now) == Continue(fo.(scheduled := RestOf(fo)), rows)
  {
  }

  // ---- run or skip ----

  /** `t` occurs in `s`. */
  ghost predicate Occurs(t: string, s: string) {
    exists before, after :: s == before + t + after
  }

  /** The MIME lists keep the plugin from files of this type: a whitelist admits only what it names,
      and without one a blacklist admits what it does not name. */
  ghost predicate KeptOut(plugins: Plugins, p: string, mime: string) {
    if plugins.whitelist(p) != [] then forall t :: t in plugins.whitelist(p) ==> !Occurs(t, mime)
    else exists t :: t in plugins.blacklist(p) && Occurs(t, mime)
  }

  lemma BlockedIsKeptOut(plugins: Plugins, p: string, mime: string)
    ensures MimeBlocked(plugins, p, mime) <==> KeptOut(plugins, p, mime)
  {
    hide HasSubstring, Occurs;
    forall t ensures HasSubstring(mime, t) <==> Occurs(t, mime) {
      OccursIs(t, mime);
    }
  }

  lemma OccursIs(t: string, s: string)
    ensures HasSubstring(s, t) <==> Occurs(t, s)
  {
    SubstringOccurs(s, t);
  }

  /** The results the object has when the dependencies are looked at: checking the lists loads the
      stored file type if the object has none. */
  ghost function Consulted(plugins: Plugins, fo: FileObject, rows: Rows, p: string): Rows {
    if p !in MANDATORY_PLUGINS && (plugins.whitelist(p) != [] || plugins.blacklist(p) != [])
       && FILE_TYPE !in fo.processed && FILE_TYPE in rows
    then fo.processed[FILE_TYPE := rows[FILE_TYPE]] else fo.processed
  }

  /** The lists keep the plugin from this file. */
  ghost predicate ListsForbid(plugins: Plugins, fo: FileObject, rows: Rows, p: string) {
    && p !in MANDATORY_PLUGINS && (plugins.whitelist(p) != [] || plugins.blacklist(p) != [])
    && var known := Consulted(plugins, fo, rows, p);
       FILE_TYPE in known && "mime" in known[FILE_TYPE].result && KeptOut(plugins, p, Lower(known[FILE_TYPE].result["mime"]))
  }

  /** The dependency has a result that can be used. */
  ghost predicate Usable(known: Rows, d: string) {
    d in known && "skipped" !in known[d].result && "failed" !in known[d].result
  }

  ghost predicate SkippedFor(plugins: Plugins, p: string, now: real, o: Outcome, reason: string) {
    o.Continue? && p in o.rows && o.rows[p] == Analysis(now, Some(plugins.version(p)), 0, map["skipped" := reason])
  }

  /** What becomes of a plugin that has to be renewed and whose file type is known where it is
      needed: exactly one of four things, decided in this order. */
  lemma RenewalDecides(plugins: Plugins, fo: FileObject, rows: Rows, now: real)
    requires fo.scheduled != [] && NextPlugin(fo) in plugins.deps
    requires fo.forceUpdate || !MayStand(plugins, rows, NextPlugin(fo))
    requires !ProcessNext(plugins, fo, rows, now).Raised?
    ensures var p, o := NextPlugin(fo), ProcessNext(plugins, fo, rows, now);
      var known := Consulted(plugins, fo, rows, p);
      if ListsForbid(plugins, fo, rows, p) then SkippedFor(plugins, p, now, o, "blacklisted file type")
      else if exists d :: d in plugins.deps[p] && !Usable(known, d)
      then SkippedFor(plugins, p, now, o, "dependency is missing (could be skipped)")
      else if exists d :: d in plugins.deps[p] && d in known && !plugins.fits(d, known[d].result)
      then SkippedFor(plugins, p, now, o, "error during dependency collection")
      else o == Send(fo.(scheduled := RestOf(fo), processed := known), p)
  {
    hide CheckLists, ListsForbid, Consulted, UpToDate, MayStand, Unfulfilled, SchemasFit, Skip, SkippedFor, Usable;
    var p := NextPlugin(fo);
    StandingIsUpToDate(plugins, rows, p);
    var fo', known := fo.(scheduled := RestOf(fo)), Consulted(plugins, fo, rows, p);
    assert ProcessNext(plugins, fo, rows, now) == StartOrSkip(plugins, fo', rows, p, now);
    var v := CheckLists(plugins, fo', rows, p);
    ListsDecideIt(plugins, fo', rows, p);
    SameLists(plugins, fo, fo', rows, p);
    DependenciesDecide(plugins, known, p);
    SkipTexts(plugins, v.fo, rows, p, now);
  }

  lemma ListsDecideIt(plugins: Plugins, fo: FileObject, rows: Rows, p: string)
    ensures var v := CheckLists(plugins, fo, rows, p);
      v.Verdict? ==> v.fo == fo.(processed := Consulted(plugins, fo, rows, p)) && v.blocked == ListsForbid(plugins, fo, rows, p)
  {
    hide MimeBlocked, KeptOut, Lower;
    var known := Consulted(plugins, fo, rows, p);
    if FILE_TYPE in known && "mime" in known[FILE_TYPE].result {
      BlockedIsKeptOut(plugins, p, Lower(known[FILE_TYPE].result["mime"]));
    }
  }

  lemma SameLists(plugins: Plugins, fo: FileObject, fo': FileObject, rows: Rows, p: string)
    requires fo'.processed == fo.processed
    ensures Consulted(plugins, fo', rows, p) == Consulted(plugins, fo, rows, p)
    ensures ListsForbid(plugins, fo', rows, p) <==> ListsForbid(plugins, fo, rows, p)
  {
    hide KeptOut, Lower;
  }

  lemma DependenciesDecide(plugins: Plugins, known: Rows, p: string)
    requires p in plugins.deps
    ensures Unfulfilled(plugins, known, p) <==> exists d :: d in plugins.deps[p] && !Usable(known, d)
    ensures !Unfulfilled(plugins, known, p) ==>
      (SchemasFit(plugins, known, p) <==> !exists d :: d in plugins.deps[p] && d in known && !plugins.fits(d, known[d].result))
  {
    if d :| d in plugins.deps[p] && (d !in known || IsSkipped(known[d]) || IsFailed(known[d])) {
      assert d in plugins.deps[p] && !Usable(known, d);
    }
  }

  lemma SkipTexts(plugins: Plugins, fo: FileObject, rows: Rows, p: string, now: real)
    ensures SkippedFor(plugins, p, now, Skip(plugins, fo, rows, p, Blacklisted, now), "blacklisted file type")
    ensures SkippedFor(plugins, p, now, Skip(plugins, fo, rows, p, DependencyMissing, now), "dependency is missing (could be skipped)")
    ensures SkippedFor(plugins, p, now, Skip(plugins, fo, rows, p, SchemaMismatch, now), "error during dependency collection")
  {
  }

  /** An exception is raised, for any object, in exactly two cases: a stored result is to be reused
      while a plugin that is not installed is still scheduled, or lists have to be checked and neither
      the object nor else the database knows a MIME type. */
  lemma RaisesExactly(plugins: Plugins, fo: FileObject, rows: Rows, now: real)
    requires fo.scheduled != [] && NextPlugin(fo) in plugins.deps
    ensures var p, known := NextPlugin(fo), Consulted(plugins, fo, rows, NextPlugin(fo));
      ProcessNext(plugins, fo, rows, now).Raised? <==>
        if !fo.forceUpdate && MayStand(plugins, rows, p) then exists q :: q in RestOf(fo) && q !in plugins.deps
        else
          && p !in MANDATORY_PLUGINS && (plugins.whitelist(p) != [] || plugins.blacklist(p) != [])
          && (FILE_TYPE in known ==> "mime" !in known[FILE_TYPE].result)
  {
    hide MayStand, UpToDate, MimeBlocked, Unfulfilled, SchemasFit, Skip, Lower;
    var p := NextPlugin(fo);
    StandingIsUpToDate(plugins, rows, p);
    var rest := RestOf(fo);
    assert Elements(rest) <= plugins.deps.Keys <==> !exists q :: q in rest && q !in plugins.deps by {
      if q :| q in rest && q !in plugins.deps {
        assert q in Elements(rest);
      }
    }
    SkipNeverRaises(plugins, fo, rows, p, now);
    if !fo.forceUpdate && UpToDate(plugins, rows, p) {
      UpToDateIsStored(plugins, rows, p);
    }
  }

  lemma UpToDateIsStored(plugins: Plugins, rows: Rows, p: string)
    requires p in plugins.deps && UpToDate(plugins, rows, p)
    ensures p in rows
  {
  }

  lemma SkipNeverRaises(plugins: Plugins, fo: FileObject, rows: Rows, p: string, now: real)
    ensures forall fo', reason :: Skip(plugins, fo', rows, p, reason, now).Continue?
  {
  }

  // ---- results and failures ----

  /** Collecting a result raises exactly if it failed and a plugin that is not installed is still
      scheduled. */
  lemma CollectRaisesExactly(plugins: Plugins, fo: FileObject, rows: Rows, p: string, now: real)
    ensures HandleCollected(plugins, fo, rows, p, now).Raised? <==>
      fo.failure.Some? && exists q :: q in fo.scheduled && q !in plugins.deps
  {
  }

  /** What a plugin reports is what is stored and what later plugins see: its result with its date,
      under the installed versions. Nothing else changes. */
  lemma ResultIsStored(plugins: Plugins, fo: FileObject, rows: Rows, p: string, now: real, date: real, result: map<string, string>)
    requires fo.failure.None?
    ensures var o := HandleCollected(plugins, WriteResult(plugins, fo, p, Result(date, result)), rows, p, now);
      && o.Continue?
      && o.rows == rows[p := Analysis(date, Some(plugins.version(p)), plugins.system(p), result)]
      && o.fo == fo.(processed := fo.processed[p := o.rows[p]])
  {
  }

  /** A failed run is stored as failed with its cause, at the time it is collected. The scheduled
      plugins that depend on it directly are taken out and marked as failed in the object; the others
      stay scheduled in their order. */
  lemma FailureIsStored(plugins: Plugins, fo: FileObject, rows: Rows, p: string, now: real, cause: string)
    requires fo.failure.None? && Known(plugins.deps, fo.scheduled) && p !in fo.scheduled
    ensures var o := HandleCollected(plugins, WriteResult(plugins, fo, p, Failure(cause)), rows, p, now);
      && o.Continue? && o.fo.failure.None?
      && p in o.rows && o.rows == rows[p := o.rows[p]] && p in o.fo.processed && o.fo.processed[p] == o.rows[p]
      && o.rows[p].result == map["failed" := cause] && o.rows[p].date == now && o.rows[p].version == Some(plugins.version(p))
      && (forall q :: q in o.fo.scheduled <==> q in fo.scheduled && p !in plugins.deps[q])
      && (forall q :: q in fo.scheduled && p in plugins.deps[q] ==>
          && q in o.fo.processed
          && o.fo.processed[q].result == map["failed" := "Analysis of dependency " + p + " failed"] && o.fo.processed[q].date == now)
      && (forall q :: q != p && !(q in fo.scheduled && p in plugins.deps[q]) ==>
          (q in o.fo.processed <==> q in fo.processed) && (q in fo.processed ==> o.fo.processed[q] == fo.processed[q]))
  {
  }

  /** The plugins left in the schedule keep their order. */
  lemma {:induction false} IndependentInOrder(plugins: Plugins, a: seq<string>, b: seq<string>, failed: string)
    requires Known(plugins.deps, a) && Known(plugins.deps, b)
    ensures Known(plugins.deps, a + b)
    ensures Independent(plugins.deps, a + b, failed) == Independent(plugins.deps, a, failed) + Independent(plugins.deps, b, failed)
  {
    if b == [] {
      assert a + b == a;
    } else {
      var n := |b| - 1;
      IndependentInOrder(plugins, a, b[..n], failed);
      assert (a + b)[..|a + b| - 1] == a + b[..n] && (a + b)[|a + b| - 1] == b[n];
    }
  }
}
