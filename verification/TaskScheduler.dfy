/** Selection and ordering of analysis plugins (src/scheduler/task_scheduler.py). */
module TaskScheduler {
  import opened Common
  import opened Graphs

  const FILE_TYPE := "file_type"
  const MANDATORY_PLUGINS := {FILE_TYPE, "file_hashes"}

  /** A dictionary lookup that misses raises KeyError and ends the call. */
  datatype Lookup<T> = Found(value: T) | KeyError(key: string)

  ghost function Elements(order: seq<string>): set<string> {
    set x | x in order
  }

  /** `x` is in `start` or a transitive dependency of something in it. */
  ghost predicate Reaches(plugins: Graph, start: set<string>, x: string) {
    exists p :: IsChain(plugins, p) && p[0] in start && p[|p| - 1] == x
  }

  ghost predicate DependencyClosed(plugins: Graph, s: set<string>) {
    forall x :: x in s && x in plugins ==> plugins[x] <= s
  }

  /** Popping from the end reaches every dependency before its dependents. */
  ghost predicate DependenciesAfter(plugins: Graph, order: seq<string>) {
    forall i :: 0 <= i < |order| ==> order[i] in plugins && plugins[order[i]] <= Elements(order[i + 1..])
  }

  ghost function Restrict(plugins: Graph, names: set<string>): Graph {
    map x | x in plugins && x in names :: plugins[x]
  }

  // ---- dependency closure ----

  /** The dependencies of the scheduled plugins that are not scheduled yet. */
  function RemainingDependencies(plugins: Graph, scheduled: set<string>): (r: set<string>)
    requires scheduled <= plugins.Keys
    ensures r == {} <==> DependencyClosed(plugins, scheduled)
    ensures forall d :: d in r <==> d !in scheduled && exists p :: p in scheduled && d in plugins[p]
  {
    var r := (set p, d | p in scheduled && d in plugins[p] :: d) - scheduled;
    assert r == {} ==> forall p, d :: p in scheduled && d in plugins[p] ==> d in scheduled || d in r;
    r
  }

  /** The loop adds exactly the transitive dependencies, and fails exactly when one of them
      (or a requested plugin) is not installed. */
  method AddDependenciesRecursively(plugins: Graph, requested: set<string>) returns (r: Lookup<set<string>>)
    ensures r.KeyError? ==> r.key !in plugins && Reaches(plugins, requested, r.key)
    ensures r.Found? ==> r.value <= plugins.Keys
    ensures r.Found? ==> forall x :: x in r.value <==> Reaches(plugins, requested, x)
  {
    var all := requested;
    forall x | x in requested ensures Reaches(plugins, requested, x) {
      assert IsChain(plugins, [x]);
    }
    while true
      invariant requested <= all
      invariant forall x :: x in all ==> Reaches(plugins, requested, x)
      decreases plugins.Keys - all, all <= plugins.Keys
    {
      if !(all <= plugins.Keys) {
        var x :| x in all && x !in plugins;
        return KeyError(x);
      }
      var missing := RemainingDependencies(plugins, all);
      if missing == {} {
        break;
      }
      forall d | d in missing ensures Reaches(plugins, requested, d) {
        var p :| p in all && d in plugins[p];
        ReachesStep(plugins, requested, p, d);
      }
      all := all + missing;
    }
    ClosedHoldsReachable(plugins, requested, all);
    return Found(all);
  }

  lemma ReachesStep(plugins: Graph, start: set<string>, x: string, d: string)
    requires Reaches(plugins, start, x) && x in plugins && d in plugins[x]
    ensures Reaches(plugins, start, d)
  {
    var p :| IsChain(plugins, p) && p[0] in start && p[|p| - 1] == x;
    assert IsChain(plugins, p + [d]);
  }

  /** The reachable plugins are the least dependency-closed superset of the requested ones. */
  lemma ClosedHoldsReachable(plugins: Graph, start: set<string>, s: set<string>)
    requires start <= s && DependencyClosed(plugins, s)
    ensures forall x :: Reaches(plugins, start, x) ==> x in s
  {
    forall x | Reaches(plugins, start, x) ensures x in s {
      var p :| IsChain(plugins, p) && p[0] in start && p[|p| - 1] == x;
      ChainStaysInside(plugins, s, p);
    }
  }

  lemma {:induction false} ChainStaysInside(plugins: Graph, s: set<string>, p: seq<string>)
    requires IsChain(plugins, p) && p[0] in s && DependencyClosed(plugins, s)
    ensures p[|p| - 1] in s
  {
    if |p| > 1 {
      assert p[1] in plugins[p[0]];
      ChainStaysInside(plugins, s, p[1..]);
    }
  }

  lemma ReachableIsClosed(plugins: Graph, start: set<string>, s: set<string>)
    requires forall x :: x in s <==> Reaches(plugins, start, x)
    ensures start <= s && DependencyClosed(plugins, s)
  {
    forall x | x in start ensures x in s {
      assert IsChain(plugins, [x]);
    }
    forall x, d | x in s && x in plugins && d in plugins[x] ensures d in s {
      ReachesStep(plugins, start, x, d);
    }
  }

  // ---- ordering ----

  /** Any order of the given plugins may come out. */
  method Shuffled(names: set<string>) returns (order: seq<string>)
    ensures Distinct(order) && Elements(order) == names
  {
    order := [];
    var rest := names;
    while rest != {}
      invariant rest <= names && Distinct(order) && Elements(order) == names - rest
    {
      var x :| x in rest;
      rest := rest - {x};
      assert Elements(order + [x]) == Elements(order) + {x};
      order := order + [x];
    }
  }

  /** Moves `file_type` to the end of the list unless it is there already. */
  function FileTypeLast(order: seq<string>): seq<string> {
    if FILE_TYPE in order && order[|order| - 1] != FILE_TYPE
    then RemoveFirst(order, FILE_TYPE) + [FILE_TYPE]
    else order
  }

  /** Position `i` of the changed list holds what was at position `OldPosition(i)`. */
  ghost function OldPosition(order: seq<string>, i: nat): (j: nat)
    requires FILE_TYPE in order && i < |order|
    ensures j < |order|
  {
    var k := IndexOf(order, FILE_TYPE);
    if i < k then i else if i < |order| - 1 then i + 1 else k
  }

  lemma FileTypeLastMoves(order: seq<string>, i: nat)
    requires FILE_TYPE in order && i < |order|
    ensures |FileTypeLast(order)| == |order|
    ensures FileTypeLast(order) != order ==> FileTypeLast(order)[i] == order[OldPosition(order, i)]
  {
  }

  lemma FileTypeLastKeeps(order: seq<string>)
    requires Distinct(order)
    ensures Distinct(FileTypeLast(order)) && Elements(FileTypeLast(order)) == Elements(order)
    ensures |FileTypeLast(order)| == |order|
    ensures FILE_TYPE in order ==> FileTypeLast(order)[|order| - 1] == FILE_TYPE
  {
    var r := FileTypeLast(order);
    if r != order {
      var k := IndexOf(order, FILE_TYPE);
      forall i, j | 0 <= i < j < |r| ensures r[i] != r[j] {
        FileTypeLastMoves(order, i);
        FileTypeLastMoves(order, j);
      }
      assert order == order[..k] + [FILE_TYPE] + order[k + 1..];
      forall x ensures x in r <==> x in order {
        assert x in r <==> x in order[..k] || x in order[k + 1..] || x == FILE_TYPE;
      }
    }
  }

  /** The move keeps the dependency order exactly when `file_type` itself has no dependencies. */
  lemma FileTypeLastOrder(plugins: Graph, order: seq<string>)
    requires Distinct(order) && DependenciesAfter(plugins, order)
    ensures DependenciesAfter(plugins, FileTypeLast(order))
            <==> (FILE_TYPE in order ==> FILE_TYPE in plugins && plugins[FILE_TYPE] == {})
  {
    FileTypeLastKeeps(order);
    var r := FileTypeLast(order);
    if FILE_TYPE in order {
      if DependenciesAfter(plugins, r) {
        assert r[|r| - 1] in plugins;
      }
      if FILE_TYPE in plugins && plugins[FILE_TYPE] == {} && r != order {
        forall i | 0 <= i < |r| ensures r[i] in plugins && plugins[r[i]] <= Elements(r[i + 1..]) {
          MovedDependencies(plugins, order, i);
        }
      }
    }
  }

  lemma MovedDependencies(plugins: Graph, order: seq<string>, i: nat)
    requires Distinct(order) && DependenciesAfter(plugins, order) && i < |order|
    requires FILE_TYPE in order && FILE_TYPE in plugins && plugins[FILE_TYPE] == {}
    requires FileTypeLast(order) != order && |FileTypeLast(order)| == |order|
    ensures FileTypeLast(order)[i] in plugins
    ensures plugins[FileTypeLast(order)[i]] <= Elements(FileTypeLast(order)[i + 1..])
  {
    var r, k := FileTypeLast(order), IndexOf(order, FILE_TYPE);
    FileTypeLastMoves(order, i);
    var j := OldPosition(order, i);
    forall d | d in plugins[order[j]] ensures d in r[i + 1..] {
      assert plugins[order[j]] <= Elements(order[j + 1..]);
      assert d in order[j + 1..];
      var m :| j < m < |order| && order[m] == d;
      var m' := if m < k then m else if m == k then |r| - 1 else m - 1;
      FileTypeLastMoves(order, m');
      assert OldPosition(order, m') == m && i < m';
      assert r[i + 1..][m' - (i + 1)] == d;
    }
  }

  /** Layered ordering. Of the given plugins, exactly those are scheduled whose dependency
      chains are well-founded within the given set. */
  method SmartShuffle(plugins: Graph, names: set<string>) returns (r: Lookup<seq<string>>)
    ensures r.KeyError? ==> r.key in names && r.key !in plugins
    ensures r.Found? <==> names <= plugins.Keys
    ensures r.Found? ==> Distinct(r.value)
    ensures r.Found? ==> Elements(r.value) == WellFounded(Restrict(plugins, names))
    ensures r.Found? && FILE_TYPE in r.value ==> r.value[|r.value| - 1] == FILE_TYPE
    ensures r.Found? ==> (DependenciesAfter(plugins, r.value) <==> (FILE_TYPE in r.value ==> FILE_TYPE in plugins && plugins[FILE_TYPE] == {}))
  {
    if !(names <= plugins.Keys) {
      var x :| x in names && x !in plugins;
      return KeyError(x);
    }
    var scheduled := [];
    var remaining := names;
    ghost var g := Restrict(plugins, names);
    assert g.Keys == names;
    while remaining != {}
      invariant remaining <= names && Elements(scheduled) == names - remaining
      invariant Distinct(scheduled) && DependenciesAfter(plugins, scheduled)
      invariant Elements(scheduled) <= WellFounded(g)
    {
      var next := set x | x in remaining && forall d :: d in plugins[x] ==> d in scheduled;
      if next == {} {
        break;
      }
      var batch := Shuffled(next);
      assert forall x :: x in batch ==> x in Elements(batch);
      PrependBatch(plugins, batch, scheduled);
      forall x | x in next ensures x in WellFounded(g) {
        WellFoundedUnfold(g, x);
      }
      scheduled := batch + scheduled;
      remaining := remaining - next;
    }
    WellFoundedLeast(g, Elements(scheduled));
    FileTypeLastKeeps(scheduled);
    FileTypeLastOrder(plugins, scheduled);
    return Found(FileTypeLast(scheduled));
  }

  /** A file type plugin with a dependency is scheduled before it, whatever the shuffling does. */
  method FileTypeOrderBreaks(plugins: Graph) returns (r: Lookup<seq<string>>)
    requires plugins == map[FILE_TYPE := {"magic"}, "magic" := {}]
    ensures r.Found? && r.value == ["magic", FILE_TYPE] && !DependenciesAfter(plugins, r.value)
  {
    var names := {FILE_TYPE, "magic"};
    r := SmartShuffle(plugins, names);
    ghost var g := Restrict(plugins, names);
    WellFoundedUnfold(g, "magic");
    WellFoundedUnfold(g, FILE_TYPE);
    var order := r.value;
    assert FILE_TYPE in Elements(order) && "magic" in Elements(order);
    forall x | x in order ensures x in names {
      WellFoundedUnfold(g, x);
      assert x in Elements(order);
    }
    DistinctBound(order, names);
    assert |order| == 2 && order[1] == FILE_TYPE && order[0] in order;
  }

  lemma PrependBatch(plugins: Graph, batch: seq<string>, scheduled: seq<string>)
    requires Distinct(batch) && Distinct(scheduled) && Elements(batch) !! Elements(scheduled)
    requires DependenciesAfter(plugins, scheduled)
    requires forall x :: x in batch ==> x in plugins && plugins[x] <= Elements(scheduled)
    ensures Distinct(batch + scheduled) && DependenciesAfter(plugins, batch + scheduled)
    ensures Elements(batch + scheduled) == Elements(batch) + Elements(scheduled)
  {
    var r := batch + scheduled;
    forall i, j | 0 <= i < j < |r| ensures r[i] != r[j] {
      if i < |batch| <= j {
        assert r[i] in Elements(batch) && r[j] in Elements(scheduled);
      }
    }
    forall i | 0 <= i < |r| ensures r[i] in plugins && plugins[r[i]] <= Elements(r[i + 1..]) {
      if i < |batch| {
        assert r[i] in batch;
        assert r[i + 1..] == batch[i + 1..] + scheduled;
      } else {
        assert r[i] == scheduled[i - |batch|];
        assert r[i + 1..] == scheduled[i - |batch| + 1..];
      }
    }
  }

  // ---- the whole of schedule_analysis_tasks ----

  /** The plugins taken into account: the closure of the request, and the mandatory ones. */
  ghost predicate Considered(plugins: Graph, requested: set<string>, mandatory: bool, x: string) {
    Reaches(plugins, requested, x) || (mandatory && x in MANDATORY_PLUGINS)
  }

  /** Which plugins are mandatory. */
  lemma MandatoryAre(plugins: Graph, x: string)
    ensures Considered(plugins, {}, true, x) <==> x == "file_type" || x == "file_hashes"
    ensures !Considered(plugins, {}, false, x)
  {
  }

  method ScheduleAnalysisTasks(plugins: Graph, requested: set<string>, mandatory: bool)
    returns (r: Lookup<seq<string>>, ghost considered: set<string>)
    ensures r.KeyError? ==> r.key !in plugins && Considered(plugins, requested, mandatory, r.key)
    ensures r.Found? ==> forall x :: x in considered <==> Considered(plugins, requested, mandatory, x)
    ensures r.Found? ==> considered <= plugins.Keys && Distinct(r.value)
    ensures r.Found? ==> Elements(r.value) == WellFounded(Restrict(plugins, considered))
    ensures r.Found? && FILE_TYPE in r.value ==> r.value[|r.value| - 1] == FILE_TYPE
    ensures r.Found? ==> (DependenciesAfter(plugins, r.value) <==> (FILE_TYPE in r.value ==> FILE_TYPE in plugins && plugins[FILE_TYPE] == {}))
    ensures r.Found? && Closed(Restrict(plugins, considered)) && Acyclic(Restrict(plugins, considered))
            ==> Elements(r.value) == considered
    ensures r.Found? && !mandatory ==> Closed(Restrict(plugins, considered))
  {
    considered := {};
    var closure := AddDependenciesRecursively(plugins, requested);
    if closure.KeyError? {
      return KeyError(closure.key), considered;
    }
    var names := if mandatory then closure.value + MANDATORY_PLUGINS else closure.value;
    considered := names;
    r := SmartShuffle(plugins, names);
    if r.Found? {
      ReachableIsClosed(plugins, requested, closure.value);
      if Closed(Restrict(plugins, considered)) && Acyclic(Restrict(plugins, considered)) {
        AcyclicIsWellFounded(Restrict(plugins, considered));
      }
    }
  }
}
