/** Finite dependency graphs over names. A graph maps each known name to the names it
    depends on; the names on the right need not be known. The plugin schedulers, the
    importer and the path generators all walk such a graph. */
module Graphs {

  type Graph = map<string, set<string>>

  /** The names whose dependency chains all end within `n` levels. */
  ghost function Layer(g: Graph, n: nat): set<string> {
    if n == 0 then {} else set x | x in g && g[x] <= Layer(g, n - 1)
  }

  /** The names whose dependency chains are well-founded: they never leave the graph
      and never come back to themselves. */
  ghost function WellFounded(g: Graph): set<string> {
    Layer(g, |g|)
  }

  /** Every element depends on its successor. */
  ghost predicate IsChain(g: Graph, p: seq<string>) {
    && p != []
    && forall i :: 0 <= i < |p| - 1 ==> p[i] in g && p[i + 1] in g[p[i]]
  }

  ghost predicate Distinct(p: seq<string>) {
    forall i, j :: 0 <= i < j < |p| ==> p[i] != p[j]
  }

  /** All transitive dependencies of `x` (and `x`) are known, and no chain repeats a name. */
  ghost predicate Sound(g: Graph, x: string) {
    forall p :: IsChain(g, p) && p[0] == x ==> p[|p| - 1] in g && Distinct(p)
  }

  ghost predicate Acyclic(g: Graph) {
    forall p :: IsChain(g, p) && |p| > 1 ==> p[0] != p[|p| - 1]
  }

  ghost predicate Closed(g: Graph) {
    forall x :: x in g ==> g[x] <= g.Keys
  }

  lemma {:induction false} LayerMonotone(g: Graph, m: nat, n: nat)
    requires m <= n
    ensures Layer(g, m) <= Layer(g, n) <= g.Keys
  {
    if m > 0 {
      LayerMonotone(g, m - 1, n - 1);
    }
  }

  lemma {:induction false} LayerStable(g: Graph, m: nat, n: nat)
    requires m <= n && Layer(g, m) == Layer(g, m + 1)
    ensures Layer(g, m) == Layer(g, n)
  {
    if m < n {
      LayerStable(g, m, n - 1);
      assert Layer(g, n) == set x | x in g && g[x] <= Layer(g, n - 1);
      assert Layer(g, m + 1) == set x | x in g && g[x] <= Layer(g, m);
    }
  }

  lemma {:induction false} LayerGrows(g: Graph, n: nat)
    ensures |Layer(g, n)| >= n || Layer(g, n) == Layer(g, n + 1)
  {
    if n > 0 {
      LayerGrows(g, n - 1);
      LayerMonotone(g, n - 1, n);
      if Layer(g, n - 1) == Layer(g, n) {
        LayerStable(g, n - 1, n + 1);
      } else {
        SmallerSet(Layer(g, n - 1), Layer(g, n));
      }
    }
  }

  lemma SmallerSet<T>(a: set<T>, b: set<T>)
    requires a <= b
    ensures |a| <= |b| && (a != b ==> |a| < |b|)
  {
    assert b == a + (b - a);
    if a != b {
      assert b - a != {};
    }
  }

  /** The well-founded names are a fixpoint of the dependency rule. */
  lemma WellFoundedFixpoint(g: Graph)
    ensures WellFounded(g) == set x | x in g && g[x] <= WellFounded(g)
  {
    var n := |g|;
    LayerGrows(g, n);
    LayerMonotone(g, n, n + 1);
    if Layer(g, n) != Layer(g, n + 1) {
      SmallerSet(Layer(g, n), Layer(g, n + 1));
      SmallerSet(Layer(g, n + 1), g.Keys);
      assert false;
    }
  }

  lemma WellFoundedUnfold(g: Graph, x: string)
    ensures x in WellFounded(g) <==> x in g && g[x] <= WellFounded(g)
  {
    WellFoundedFixpoint(g);
  }

  /** ... and the least one: a set that takes up a name as soon as it holds its dependencies
      contains every well-founded name. */
  lemma WellFoundedLeast(g: Graph, s: set<string>)
    requires forall x :: x in g && g[x] <= s ==> x in s
    ensures WellFounded(g) <= s
  {
    LayerWithin(g, s, |g|);
  }

  lemma {:induction false} LayerWithin(g: Graph, s: set<string>, n: nat)
    requires forall x :: x in g && g[x] <= s ==> x in s
    ensures Layer(g, n) <= s
  {
    if n > 0 {
      LayerWithin(g, s, n - 1);
    }
  }

  /** A termination measure for recursion along dependencies. */
  ghost function Height(g: Graph, x: string): (h: nat)
    requires x in WellFounded(g)
    ensures x in Layer(g, h)
    ensures h > 0 && x !in Layer(g, h - 1)
  {
    LeastLayer(g, x, |g|)
  }

  ghost function LeastLayer(g: Graph, x: string, n: nat): (h: nat)
    requires x in Layer(g, n)
    ensures x in Layer(g, h)
    ensures h > 0 && x !in Layer(g, h - 1)
  {
    if x in Layer(g, n - 1) then LeastLayer(g, x, n - 1) else n
  }

  lemma HeightDecreases(g: Graph, x: string, d: string)
    requires x in WellFounded(g) && d in g[x]
    ensures d in WellFounded(g) && Height(g, d) < Height(g, x)
  {
    WellFoundedFixpoint(g);
    var h := Height(g, x);
    assert d in Layer(g, h - 1);
    if Height(g, d) >= h {
      LayerMonotone(g, h - 1, Height(g, d) - 1);
    }
  }

  lemma {:induction false} HeightAlongChain(g: Graph, p: seq<string>, i: nat, j: nat)
    requires IsChain(g, p) && p[0] in WellFounded(g) && i <= j < |p|
    ensures p[i] in WellFounded(g) && p[j] in WellFounded(g)
    ensures Height(g, p[j]) + (j - i) <= Height(g, p[i])
    decreases j
  {
    if i < j {
      HeightAlongChain(g, p, i, j - 1);
      HeightDecreases(g, p[j - 1], p[j]);
    } else if i > 0 {
      HeightAlongChain(g, p, i - 1, i - 1);
      HeightDecreases(g, p[i - 1], p[i]);
    }
  }

  /** The inductive and the path-based reading of "all transitive dependencies are known and
      acyclic" agree. */
  lemma WellFoundedIsSound(g: Graph, x: string)
    ensures x in WellFounded(g) <==> Sound(g, x)
  {
    if x in WellFounded(g) {
      forall p | IsChain(g, p) && p[0] == x
        ensures p[|p| - 1] in g && Distinct(p)
      {
        HeightAlongChain(g, p, 0, |p| - 1);
        WellFoundedFixpoint(g);
        forall i, j | 0 <= i < j < |p| ensures p[i] != p[j] {
          HeightAlongChain(g, p, i, j);
        }
      }
    } else {
      var p := UnsoundChain(g, x, |g|);
      if p[|p| - 1] in g && Distinct(p) {
        DistinctBound(p, g.Keys);
        assert false;
      }
    }
  }

  /** Outside the well-founded names there are chains of any length that stay outside,
      unless they run into an unknown name first. */
  lemma {:induction false} UnsoundChain(g: Graph, x: string, n: nat) returns (p: seq<string>)
    requires x !in WellFounded(g)
    ensures IsChain(g, p) && p[0] == x
    ensures forall i :: 0 <= i < |p| - 1 ==> p[i] in g
    ensures p[|p| - 1] in g ==> |p| == n + 1
    decreases n
  {
    WellFoundedUnfold(g, x);
    if x !in g || n == 0 {
      p := [x];
    } else {
      var d :| d in g[x] && d !in WellFounded(g);
      var q := UnsoundChain(g, d, n - 1);
      p := [x] + q;
    }
  }

  lemma {:induction false} DistinctBound(p: seq<string>, s: set<string>)
    requires Distinct(p) && forall i :: 0 <= i < |p| ==> p[i] in s
    ensures |p| <= |s|
  {
    if p != [] {
      var q, x := p[..|p| - 1], p[|p| - 1];
      DistinctBound(q, s - {x});
    }
  }

  /** A closed acyclic graph is well-founded throughout. */
  lemma AcyclicIsWellFounded(g: Graph)
    requires Closed(g) && Acyclic(g)
    ensures WellFounded(g) == g.Keys
  {
    WellFoundedFixpoint(g);
    forall x | x in g ensures x in WellFounded(g) {
      forall p | IsChain(g, p) && p[0] == x
        ensures p[|p| - 1] in g && Distinct(p)
      {
        forall i, j | 0 <= i < j < |p| ensures p[i] != p[j] {
          assert IsChain(g, p[i..j + 1]);
        }
        if |p| > 1 {
          assert p[|p| - 2 + 1] in g[p[|p| - 2]];
        }
      }
      WellFoundedIsSound(g, x);
    }
  }

  /** A graph with a well-founded whole has no cycle. */
  lemma WellFoundedIsAcyclic(g: Graph)
    requires WellFounded(g) == g.Keys
    ensures Acyclic(g) && Closed(g)
  {
    WellFoundedFixpoint(g);
    forall p | IsChain(g, p) && |p| > 1 ensures p[0] != p[|p| - 1] {
      WellFoundedIsSound(g, p[0]);
    }
  }
}
