/** Notions shared by several components. */
module Common {

  datatype Option<T> = None | Some(value: T)

  /** One virtual file path: `child` lies at `path` in `parent`. */
  datatype Row = Row(parent: string, child: string, path: string)

  /** The position of the first occurrence. */
  function IndexOf<T(==)>(s: seq<T>, x: T): (k: nat)
    requires x in s
    ensures k < |s| && s[k] == x && x !in s[..k]
  {
    if s[0] == x then 0 else 1 + IndexOf(s[1..], x)
  }

  /** `list.remove(x)` takes out the first occurrence. */
  function RemoveFirst<T(==)>(s: seq<T>, x: T): seq<T>
    requires x in s
  {
    s[..IndexOf(s, x)] + s[IndexOf(s, x) + 1..]
  }

  lemma RemoveMiddle<T>(before: seq<T>, x: T, after: seq<T>)
    requires x !in before
    ensures x in before + [x] + after && RemoveFirst(before + [x] + after, x) == before + after
  {
    var s := before + [x] + after;
    assert s[|before|] == x;
    var k := IndexOf(s, x);
    assert forall i :: 0 <= i < k ==> s[..k][i] == s[i];
    assert k == |before|;
    assert s[..k] == before && s[k + 1..] == after;
  }
}
