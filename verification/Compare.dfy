/** Ordering and execution of comparison plugins (src/compare/compare.py). */
module Compare {
  import opened Graphs
  import opened Text

  /** The registered plugins: name -> COMPARISON_DEPS, in declaration order. */
  type PluginDict = map<string, seq<string>>

  ghost function DependencyGraph(plugins: PluginDict): Graph {
    map x | x in plugins :: set d | d in plugins[x]
  }

  /** Every listed plugin is known, and its dependencies stand before it. */
  ghost predicate DependenciesFirst(plugins: PluginDict, order: seq<string>) {
    forall i :: 0 <= i < |order| ==>
      order[i] in plugins && forall d :: d in plugins[order[i]] ==> d in order[..i]
  }

  ghost predicate Enumerates(order: seq<string>, names: set<string>) {
    && Distinct(order)
    && forall x :: x in order <==> x in names
  }

  /** The state shared by all calls of the nested function `visit`. */
  class Visitor {
    const plugins: PluginDict
    var visited: set<string>
    var tempMark: set<string>
    var sorted: seq<string>

    constructor (plugins: PluginDict)
      ensures this.plugins == plugins && Valid() && tempMark == {} && sorted == []
    {
      this.plugins := plugins;
      visited, tempMark, sorted := {}, {}, [];
    }

    ghost predicate Valid()
      reads this
    {
      && Enumerates(sorted, visited)
      && DependenciesFirst(plugins, sorted)
      && visited <= WellFounded(DependencyGraph(plugins))
    }

    /** Depth-first visit of a known plugin. `ok` is false when the source raises ValueError.
        `stack` are the plugins whose visits are under way; all other marks were left behind
        by visits that failed. */
    method Visit(name: string, ghost stack: seq<string>) returns (ok: bool)
      requires Valid() && name in plugins
      requires IsChain(DependencyGraph(plugins), stack + [name])
      requires forall x :: x in tempMark ==> x in stack || x !in WellFounded(DependencyGraph(plugins))
      modifies this
      ensures Valid()
      ensures ok <==> name in WellFounded(DependencyGraph(plugins))
      ensures old(sorted) <= sorted
      ensures old(visited) <= visited
      ensures forall x :: x in old(tempMark) && x in visited ==> x in old(visited)
      ensures ok ==> name in visited && tempMark == old(tempMark)
      ensures !ok ==> old(tempMark) <= tempMark
      ensures tempMark - old(tempMark) !! WellFounded(DependencyGraph(plugins))
      decreases plugins.Keys - tempMark
    {
      ghost var g := DependencyGraph(plugins);
      if name in tempMark {
        MarkedIsUnsound(g, stack, name);
        return false;
      }
      if name in visited {
        return true;
      }
      tempMark := tempMark + {name};
      var deps := plugins[name];
      for k := 0 to |deps|
        invariant Valid() && old(sorted) <= sorted
        invariant tempMark == old(tempMark) + {name} && name !in old(tempMark)
        invariant name !in visited && old(visited) <= visited
        invariant forall x :: x in old(tempMark) && x in visited ==> x in old(visited)
        invariant forall j :: 0 <= j < k ==> deps[j] in visited
      {
        WellFoundedUnfold(g, name);
        assert deps[k] in g[name];
        if deps[k] !in plugins {
          WellFoundedUnfold(g, deps[k]);
          return false;
        }
        ChainExtends(g, stack, name, deps[k]);
        var visitedDep := Visit(deps[k], stack + [name]);
        if !visitedDep {
          return false;
        }
      }
      WellFoundedUnfold(g, name);
      AppendScheduled(plugins, sorted, name);
      tempMark := tempMark - {name};
      visited := visited + {name};
      sorted := sorted + [name];
      return true;
    }
  }

  lemma AppendScheduled(plugins: PluginDict, order: seq<string>, x: string)
    requires DependenciesFirst(plugins, order) && x in plugins
    requires forall j :: 0 <= j < |plugins[x]| ==> plugins[x][j] in order
    ensures DependenciesFirst(plugins, order + [x])
  {
    var r := order + [x];
    forall i | 0 <= i < |r| ensures r[i] in plugins && forall d :: d in plugins[r[i]] ==> d in r[..i] {
      assert r[..i] == order[..i];
    }
  }

  lemma ChainExtends(g: Graph, stack: seq<string>, x: string, d: string)
    requires IsChain(g, stack + [x]) && x in g && d in g[x]
    ensures IsChain(g, stack + [x] + [d])
  {
    var p := stack + [x] + [d];
    forall i | 0 <= i < |p| - 1 ensures p[i] in g && p[i + 1] in g[p[i]] {
      if i < |stack| {
        assert (stack + [x])[i] == p[i] && (stack + [x])[i + 1] == p[i + 1];
      }
    }
  }

  lemma MarkedIsUnsound(g: Graph, stack: seq<string>, x: string)
    requires IsChain(g, stack + [x])
    requires x in stack || x !in WellFounded(g)
    ensures x !in WellFounded(g)
  {
    if x in stack {
      var i :| 0 <= i < |stack| && stack[i] == x;
      var p := stack[i..] + [x];
      forall k | 0 <= k < |p| - 1 ensures p[k] in g && p[k + 1] in g[p[k]] {
        assert (stack + [x])[i + k] == p[k] && (stack + [x])[i + k + 1] == p[k + 1];
      }
      assert IsChain(g, p) && p[0] == p[|p| - 1];
      WellFoundedIsSound(g, x);
    }
  }

  /** Every plugin is scheduled whose transitive dependencies are known and acyclic, and no
      other, in whatever order the dictionary is walked. Marks left by failed visits never
      stop a plugin that can be scheduled. */
  method ScheduleComparisonPlugins(plugins: PluginDict) returns (order: seq<string>)
    ensures Distinct(order) && DependenciesFirst(plugins, order)
    ensures forall x :: x in order <==> Sound(DependencyGraph(plugins), x)
  {
    ghost var g := DependencyGraph(plugins);
    var visitor := new Visitor(plugins);
    var todo := plugins.Keys;
    while todo != {}
      invariant visitor.Valid() && visitor.plugins == plugins && fresh(visitor)
      invariant visitor.tempMark !! WellFounded(g)
      invariant forall x :: x in WellFounded(g) - todo ==> x in visitor.visited
    {
      var name :| name in todo;
      todo := todo - {name};
      var _ := visitor.Visit(name, []);
    }
    WellFoundedFixpoint(g);
    forall x ensures x in visitor.sorted <==> Sound(g, x) {
      WellFoundedIsSound(g, x);
    }
    order := visitor.sorted;
  }

  // ---- execution ----

  /** What a plugin returns: section titles with their contents. */
  type Comparison = map<string, string>

  predicate WasSkipped(result: Comparison) {
    exists title :: title in result.Keys && HasSubstring(Lower(title), "skipped")
  }

  /** The names in COMPARISON_DEPS without a usable result. */
  function MissingDependencies(deps: seq<string>, results: map<string, Comparison>): (missing: seq<string>)
    ensures forall d :: d in missing <==> d in deps && (d !in results || WasSkipped(results[d]))
  {
    if deps == [] then []
    else if deps[0] !in results || WasSkipped(results[deps[0]])
    then [deps[0]] + MissingDependencies(deps[1..], results)
    else MissingDependencies(deps[1..], results)
  }

  function JoinNames(names: seq<string>): string {
    if names == [] then "" else if |names| == 1 then names[0] else names[0] + ", " + JoinNames(names[1..])
  }

  /** The names are listed in order, with a comma between them. */
  lemma {:induction false} NamesInOrder(a: seq<string>, b: seq<string>)
    requires a != [] && b != []
    ensures JoinNames(a + b) == JoinNames(a) + ", " + JoinNames(b)
    ensures forall x :: JoinNames([x]) == x
  {
    if |a| == 1 {
      assert (a + b)[1..] == b;
    } else {
      NamesInOrder(a[1..], b);
      assert (a + b)[1..] == a[1..] + b;
    }
  }

  lemma {:induction false} MissingInOrder(a: seq<string>, b: seq<string>, results: map<string, Comparison>)
    ensures MissingDependencies(a + b, results) == MissingDependencies(a, results) + MissingDependencies(b, results)
  {
    if a == [] {
      assert a + b == b;
    } else {
      MissingInOrder(a[1..], b, results);
      assert (a + b)[1..] == a[1..] + b;
    }
  }

  /** The objects being compared, as far as a plugin looks at them: the analyses that are
      missing for it, and what its own comparison makes of the dependency results. */
  datatype Inputs = Inputs(
    missingAnalyses: string -> seq<string>,
    compareFunction: (string, map<string, Comparison>) -> Comparison)

  function RunPlugin(plugins: PluginDict, inputs: Inputs, name: string, results: map<string, Comparison>): Comparison
    requires name in plugins
  {
    var missing := MissingDependencies(plugins[name], results);
    if missing != [] then
      map["Comparison Skipped" := "Required comparison results are missing: " + JoinNames(missing)]
    else if inputs.missingAnalyses(name) != [] then
      map["Compare Skipped" := "Required analyses not present: " + JoinNames(inputs.missingAnalyses(name))]
    else
      inputs.compareFunction(name, results)
  }

  /** The results a plugin sees: those of the plugins executed before it. */
  ghost function ResultsOf(results: map<string, Comparison>, names: seq<string>): map<string, Comparison> {
    map x | x in results && x in names :: results[x]
  }

  ghost predicate Executed(plugins: PluginDict, inputs: Inputs, results: map<string, Comparison>,
                           order: seq<string>, i: nat)
    requires i < |order|
  {
    && order[i] in plugins && order[i] in results
    && results[order[i]] == RunPlugin(plugins, inputs, order[i], ResultsOf(results, order[..i]))
  }

  /** A result with a section that says it was skipped. */
  ghost predicate SaysSkipped(result: Comparison) {
    exists title :: title in result && HasSubstring(Lower(title), "skipped")
  }

  /** What became of the `i`-th plugin: it notes missing comparisons if a dependency has no result
      before it or was skipped, else missing analyses if there are any, and else it compares. */
  ghost predicate Decided(plugins: PluginDict, inputs: Inputs, results: map<string, Comparison>, order: seq<string>, i: nat)
    requires i < |order|
  {
    var x, before := order[i], ResultsOf(results, order[..i]);
    && x in plugins && x in results
    && if exists d :: d in plugins[x] && (d !in before || SaysSkipped(before[d])) then
         results[x] == map["Comparison Skipped" :=
           "Required comparison results are missing: " + JoinNames(MissingDependencies(plugins[x], before))]
       else if inputs.missingAnalyses(x) != [] then
         results[x] == map["Compare Skipped" := "Required analyses not present: " + JoinNames(inputs.missingAnalyses(x))]
       else results[x] == inputs.compareFunction(x, before)
  }

  lemma ExecutedIsDecided(plugins: PluginDict, inputs: Inputs, results: map<string, Comparison>, order: seq<string>, i: nat)
    requires i < |order| && Executed(plugins, inputs, results, order, i)
    ensures Decided(plugins, inputs, results, order, i)
  {
    hide HasSubstring, Lower;
    var before := ResultsOf(results, order[..i]);
    var missing := MissingDependencies(plugins[order[i]], before);
    if missing != [] {
      assert missing[0] in missing;
    }
    forall d | d in before ensures WasSkipped(before[d]) <==> SaysSkipped(before[d]) {
    }
  }

  lemma NotesSaySkipped(result: Comparison)
    requires result.Keys == {"Comparison Skipped"} || result.Keys == {"Compare Skipped"}
    ensures SaysSkipped(result)
  {
    assert Lower("Comparison Skipped") == "comparison skipped" && "skipped" <= "comparison skipped"[11..];
    assert Lower("Compare Skipped") == "compare skipped" && "skipped" <= "compare skipped"[8..];
    assert HasSubstring("comparison skipped", "skipped") && HasSubstring("compare skipped", "skipped");
    assert "Comparison Skipped" in result.Keys || "Compare Skipped" in result.Keys;
  }

  /** Skipping spreads: where a plugin was skipped, every plugin that depends on it, over any number
      of others, was skipped too. */
  lemma {:induction false} SkipSpreads(plugins: PluginDict, inputs: Inputs, results: map<string, Comparison>, order: seq<string>, chain: seq<string>)
    requires DependenciesFirst(plugins, order) && (forall x :: x in results <==> x in order)
    requires forall i :: 0 <= i < |order| ==> Decided(plugins, inputs, results, order, i)
    requires IsChain(DependencyGraph(plugins), chain) && chain[0] in results
    requires chain[|chain| - 1] in results && SaysSkipped(results[chain[|chain| - 1]])
    ensures SaysSkipped(results[chain[0]])
  {
    hide SaysSkipped;
    if |chain| > 1 {
      var x, d := chain[0], chain[1];
      var i :| 0 <= i < |order| && order[i] == x;
      assert d in DependencyGraph(plugins)[x] && d in plugins[x];
      assert d in order[..i] && order[..i] <= order;
      assert forall k :: 0 <= k < |chain[1..]| ==> chain[1..][k] == chain[k + 1];
      SkipSpreads(plugins, inputs, results, order, chain[1..]);
      assert Decided(plugins, inputs, results, order, i);
      assert d in ResultsOf(results, order[..i]);
      NotesSaySkipped(results[x]);
    }
  }

  /** The `i`-th plugin sees a result for each of its dependencies, and misses only skipped ones. */
  ghost predicate FindsDependencies(plugins: PluginDict, results: map<string, Comparison>, order: seq<string>, i: nat)
    requires i < |order|
  {
    var before := ResultsOf(results, order[..i]);
    && order[i] in plugins
    && (forall d :: d in plugins[order[i]] ==> d in before)
    && forall d :: d in MissingDependencies(plugins[order[i]], before)
                   <==> d in plugins[order[i]] && WasSkipped(before[d])
  }

  /** Each schedulable plugin is executed once. All its dependencies have a result by then, so
      the only dependencies it can find missing are those that were themselves skipped. */
  method ExecuteComparePlugins(plugins: PluginDict, inputs: Inputs)
    returns (results: map<string, Comparison>, order: seq<string>)
    ensures Distinct(order) && forall x :: x in results <==> x in order
    ensures forall x :: x in results <==> Sound(DependencyGraph(plugins), x)
    ensures DependenciesFirst(plugins, order)
    ensures forall i :: 0 <= i < |order| ==> Decided(plugins, inputs, results, order, i)
    ensures forall i :: 0 <= i < |order| ==> FindsDependencies(plugins, results, order, i)
  {
    order := ScheduleComparisonPlugins(plugins);
    results := map[];
    for k := 0 to |order|
      invariant forall x :: x in results <==> x in order[..k]
      invariant forall i :: 0 <= i < k ==> Executed(plugins, inputs, results, order, i)
    {
      assert ResultsOf(results, order[..k]) == results;
      var outcome := RunPlugin(plugins, inputs, order[k], results);
      var extended := results[order[k] := outcome];
      forall i | 0 <= i <= k ensures Executed(plugins, inputs, extended, order, i) {
        assert i < k ==> Executed(plugins, inputs, results, order, i);
        LaterResult(results, order, i, k, outcome);
      }
      results := extended;
      assert order[..k + 1] == order[..k] + [order[k]];
    }
    assert order[..|order|] == order;
    forall i | 0 <= i < |order| ensures Decided(plugins, inputs, results, order, i) {
      ExecutedIsDecided(plugins, inputs, results, order, i);
    }
    forall i | 0 <= i < |order|
      ensures FindsDependencies(plugins, results, order, i)
    {
      forall d | d in plugins[order[i]] ensures d in ResultsOf(results, order[..i]) {
        assert d in order[..i] && order[..i] <= order;
      }
    }
  }

  lemma LaterResult(results: map<string, Comparison>, order: seq<string>, i: nat, k: nat, outcome: Comparison)
    requires Distinct(order) && i <= k < |order|
    ensures i < k ==> order[i] != order[k]
    ensures ResultsOf(results[order[k] := outcome], order[..i]) == ResultsOf(results, order[..i])
  {
    assert order[k] !in order[..i];
  }
}
