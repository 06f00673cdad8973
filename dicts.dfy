/** A Python `dict` with string keys, as the list of its items in insertion
    order (Python dicts keep that order). Keyword arguments arrive in this
    form, with pairwise distinct names. */
module Dicts {

  ghost predicate DistinctKeys<V>(d: seq<(string, V)>)
  {
    forall i, j :: 0 <= i < j < |d| ==> d[i].0 != d[j].0
  }

  /** `d.keys()`, in order. */
  function Keys<V>(d: seq<(string, V)>): (keys: seq<string>)
    ensures |keys| == |d|
  {
    seq(|d|, i requires 0 <= i < |d| => d[i].0)
  }

  /** `d[k] = v`: an existing key keeps its place and gets the new value;
      a new key is appended at the end. */
  function Put<V>(d: seq<(string, V)>, k: string, v: V): (r: seq<(string, V)>)
    ensures Keys(r) == if k in Keys(d) then Keys(d) else Keys(d) + [k]
    ensures (k, v) in r
  {
    if d == [] then [(k, v)]
    else if d[0].0 == k then
      KeysCons(d[0], d[1..]);
      KeysCons((k, v), d[1..]);
      assert d == [d[0]] + d[1..];
      [(k, v)] + d[1..]
    else
      var rest := Put(d[1..], k, v);
      KeysCons(d[0], d[1..]);
      KeysCons(d[0], rest);
      assert d == [d[0]] + d[1..];
      [d[0]] + rest
  }

  lemma KeysCons<V>(p: (string, V), d: seq<(string, V)>)
    ensures Keys([p] + d) == [p.0] + Keys(d)
  {
  }

  /** Assigning a key the dict does not hold appends it. */
  lemma {:induction false} PutNew<V>(d: seq<(string, V)>, k: string, v: V)
    requires forall i :: 0 <= i < |d| ==> d[i].0 != k
    ensures Put(d, k, v) == d + [(k, v)]
  {
    if d != [] {
      PutNew(d[1..], k, v);
      assert d == [d[0]] + d[1..];
    }
  }

  lemma DistinctKeysTail<V>(d: seq<(string, V)>)
    requires DistinctKeys(d) && d != []
    ensures DistinctKeys(d[1..])
  {
    var tail := d[1..];
    forall a, b | 0 <= a < b < |tail|
      ensures tail[a].0 != tail[b].0
    {
      assert tail[a] == d[a + 1] && tail[b] == d[b + 1];
    }
  }

  /** Assigning an existing key replaces its value where it stands. */
  lemma {:induction false} PutExisting<V>(d: seq<(string, V)>, i: nat, v: V)
    requires DistinctKeys(d) && i < |d|
    ensures Put(d, d[i].0, v) == d[i := (d[i].0, v)]
  {
    var k := d[i].0;
    if i == 0 {
      assert Put(d, k, v) == [(k, v)] + d[1..];
      assert d[0 := (k, v)] == [(k, v)] + d[1..];
    } else {
      var tail := d[1..];
      assert d[0].0 != k;
      assert tail[i - 1] == d[i];
      DistinctKeysTail(d);
      PutExisting(tail, i - 1, v);
      assert Put(d, k, v) == [d[0]] + Put(tail, k, v);
      var lhs, rhs := d[i := (k, v)], [d[0]] + tail[i - 1 := (k, v)];
      assert |lhs| == |rhs|;
      forall j | 0 <= j < |lhs|
        ensures lhs[j] == rhs[j]
      {
        if j > 0 { assert rhs[j] == tail[i - 1 := (k, v)][j - 1]; }
      }
      assert lhs == rhs;
    }
  }
}
