/** The ring buffer of analysis durations (src/scheduler/analysis/plugin.py,
    src/statistic/analysis_stats.py). */
module DurationStats {

  function Min(a: nat, b: nat): nat {
    if a < b then a else b
  }

  /** The last `n` elements, or all if there are fewer. */
  function Latest<T>(s: seq<T>, n: nat): seq<T> {
    s[|s| - Min(|s|, n)..]
  }

  /** The latest durations, oldest first, are the slots read from `idx` on, around the end. */
  ghost predicate Holds(slots: seq<real>, idx: nat, history: seq<real>) {
    && idx < |slots|
    && if |history| < |slots| then idx == |history| && slots[..idx] == history
       else slots[idx..] + slots[..idx] == history[|history| - |slots|..]
  }

  function Position(n: nat, limit: nat): nat
    requires limit > 0
  {
    n % limit
  }

  function Next(idx: nat, limit: nat): nat {
    if idx + 1 >= limit then 0 else idx + 1
  }

  /** What `get_plugin_stats` evaluates: the slots that have been written. */
  function Evaluated(slots: seq<real>, count: nat): seq<real>
    requires count <= |slots|
  {
    if count < |slots| then slots[..count] else slots
  }

  /** Recording one more duration keeps the correspondence: it overwrites the oldest one. */
  lemma HoldsStep(slots: seq<real>, idx: nat, history: seq<real>, duration: real)
    requires Holds(slots, idx, history)
    ensures Holds(slots[idx := duration], Next(idx, |slots|), history + [duration])
  {
    var limit, n := |slots|, |history|;
    var slots' := slots[idx := duration];
    if n < limit {
      assert slots'[..idx + 1] == history + [duration];
      if n + 1 == limit {
        assert slots'[0..] + slots'[..0] == slots' == (history + [duration])[0..];
      }
    } else {
      assert (slots[idx..] + slots[..idx])[1..] == slots[idx + 1..] + slots[..idx];
      assert history[n - limit..][1..] == history[n - limit + 1..];
      assert (history + [duration])[n + 1 - limit..] == history[n - limit + 1..] + [duration];
      assert slots'[idx + 1..] == slots[idx + 1..];
      assert slots'[..idx + 1] == slots[..idx] + [duration];
      assert slots'[idx + 1..] + slots'[..idx + 1] == (history + [duration])[n + 1 - limit..];
      if idx + 1 == limit {
        assert slots'[0..] + slots'[..0] == slots'[idx + 1..] + slots'[..idx + 1];
      }
    }
  }

  /** As a multiset, the evaluated slots are exactly the last `min(n, limit)` durations. */
  lemma EvaluatedIsLatest(slots: seq<real>, idx: nat, history: seq<real>)
    requires Holds(slots, idx, history)
    ensures multiset(Evaluated(slots, Min(|history|, |slots|))) == multiset(Latest(history, |slots|))
  {
    if |history| >= |slots| {
      assert slots == slots[..idx] + slots[idx..];
    }
  }

  lemma InBounds(slots: seq<real>, idx: nat, history: seq<real>)
    requires Holds(slots, idx, history)
    ensures idx < |slots|
  {
  }

  lemma NextIndex(n: nat, limit: nat)
    requires limit > 0
    ensures Position(n + 1, limit) == Next(Position(n, limit), limit)
  {
    var q := n / limit;
    assert n + 1 == q * limit + (n % limit + 1);
    if n % limit + 1 == limit {
      Remainder(n + 1, q + 1, 0, limit);
    } else {
      Remainder(n + 1, q, n % limit + 1, limit);
    }
  }

  lemma Remainder(k: int, q: int, r: nat, limit: nat)
    requires r < limit && k == q * limit + r
    ensures k % limit == r
  {
    var d := k / limit - q;
    assert d * limit == r - k % limit;
    assert d >= 1 ==> d * limit >= limit;
    assert d <= -1 ==> d * limit <= 0 - limit;
  }

  /** The shared array, index and counter of one plugin's workers. */
  class Stats {
    const slots: array<real>
    var idx: nat
    var count: nat
    ghost var history: seq<real>

    ghost predicate Valid()
      reads this, slots
    {
      && Holds(slots[..], idx, history)
      && idx == Position(|history|, slots.Length)
      && count == Min(|history|, slots.Length)
    }

    constructor (limit: nat)
      requires limit > 0
      ensures Valid() && history == [] && slots.Length == limit && fresh(slots)
    {
      slots := new real[limit](_ => 0.0);
      idx, count, history := 0, 0, [];
    }

    method UpdateDurationStats(duration: real)
      requires Valid()
      modifies this, slots
      ensures Valid() && history == old(history) + [duration]
    {
      InBounds(slots[..], idx, history);
      hide Holds, Position;
      ghost var before, at := slots[..], idx;
      HoldsStep(before, at, history, duration);
      NextIndex(|history|, slots.Length);
      slots[idx] := duration;
      assert slots[..] == before[at := duration];
      idx := idx + 1;
      if idx >= slots.Length {
        idx := 0;
      }
      assert idx == Next(at, slots.Length);
      if count < slots.Length {
        count := count + 1;
      }
      history := history + [duration];
      assert Holds(slots[..], idx, history);
      assert idx == Position(|history|, slots.Length);
    }

    method ReadStats() returns (evaluated: seq<real>)
      requires Valid()
      ensures multiset(evaluated) == multiset(Latest(history, slots.Length))
    {
      EvaluatedIsLatest(slots[..], idx, history);
      if count < slots.Length {
        evaluated := slots[..count];
      } else {
        evaluated := slots[..];
      }
      assert evaluated == Evaluated(slots[..], count);
    }
  }
}
