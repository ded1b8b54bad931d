/** Ordered dictionaries keyed by strings. Python dicts and JavaScript objects keep
    their keys in insertion order, and the reports and listings built from them
    depend on that order, so they are modelled as sequences of pairs. */
module Assoc {
  import opened Wrappers

  function Keys<V>(m: seq<(string, V)>): (ks: seq<string>)
    ensures |ks| == |m|
    ensures forall i :: 0 <= i < |m| ==> ks[i] == m[i].0
  {
    if |m| == 0 then [] else [m[0].0] + Keys(m[1..])
  }

  lemma KeysSnoc<V>(m: seq<(string, V)>, p: (string, V))
    ensures Keys(m + [p]) == Keys(m) + [p.0]
  {
    var l, r := Keys(m + [p]), Keys(m) + [p.0];
    assert forall i :: 0 <= i < |m| ==> l[i] == (m + [p])[i].0 == m[i].0 == r[i];
    assert l[|m|] == p.0 == r[|m|];
  }

  predicate DistinctKeys<V>(m: seq<(string, V)>) {
    forall i, j :: 0 <= i < j < |m| ==> m[i].0 != m[j].0
  }

  /** d[k] / d.get(k): the value of the first pair with key k. */
  function Lookup<V>(m: seq<(string, V)>, k: string): (r: Option<V>)
    ensures r.Some? <==> k in Keys(m)
  {
    if |m| == 0 then None
    else
      assert Keys(m) == [m[0].0] + Keys(m[1..]);
      if m[0].0 == k then Some(m[0].1) else Lookup(m[1..], k)
  }

  /** d[k] = v: an existing key keeps its position and takes the new value; a new
      key is appended. */
  function Put<V>(m: seq<(string, V)>, k: string, v: V): (r: seq<(string, V)>)
    ensures Keys(r) == if k in Keys(m) then Keys(m) else Keys(m) + [k]
  {
    assert |m| > 0 ==> Keys(m) == [m[0].0] + Keys(m[1..]);
    if |m| == 0 then [(k, v)]
    else if m[0].0 == k then [(k, v)] + m[1..]
    else
      var rest := Put(m[1..], k, v);
      assert Keys([m[0]] + rest) == [m[0].0] + Keys(rest);
      [m[0]] + rest
  }

  /** Assignment adds only the new pair: every other pair was already there. */
  lemma {:induction false} PutElements<V>(m: seq<(string, V)>, k: string, v: V)
    ensures forall e :: e in Put(m, k, v) ==> e == (k, v) || e in m
  {
    if |m| > 0 && m[0].0 != k {
      PutElements(m[1..], k, v);
      assert Put(m, k, v) == [m[0]] + Put(m[1..], k, v);
      assert forall e :: e in m[1..] ==> e in m;
    }
  }

  /** After d[k] = v, reading k gives v and every other key reads as before. */
  lemma {:induction false} PutLookup<V>(m: seq<(string, V)>, k: string, v: V, k': string)
    ensures Lookup(Put(m, k, v), k') == if k' == k then Some(v) else Lookup(m, k')
  {
    if |m| > 0 && m[0].0 != k {
      PutLookup(m[1..], k, v, k');
      assert Put(m, k, v)[1..] == Put(m[1..], k, v);
    }
  }

  /** Assignment never duplicates a key. */
  lemma {:induction false} PutDistinct<V>(m: seq<(string, V)>, k: string, v: V)
    requires DistinctKeys(m)
    ensures DistinctKeys(Put(m, k, v))
  {
    var r := Put(m, k, v);
    var ks, rks := Keys(m), Keys(r);
    forall i, j | 0 <= i < j < |r| ensures r[i].0 != r[j].0 {
      assert rks[i] == r[i].0 && rks[j] == r[j].0;
      if k in ks {
        assert ks[i] == m[i].0 && ks[j] == m[j].0;
      } else if j < |m| {
        assert ks[i] == m[i].0 && ks[j] == m[j].0;
      } else {
        assert rks[i] == ks[i] && ks[i] == m[i].0;
        assert rks[j] == k;
      }
    }
  }

  /** A second assignment to the same key overrides the first. */
  lemma {:induction false} PutPut<V>(m: seq<(string, V)>, k: string, v: V, w: V)
    ensures Put(Put(m, k, v), k, w) == Put(m, k, w)
  {
    if |m| > 0 && m[0].0 != k {
      PutPut(m[1..], k, v, w);
      assert Put(m, k, v)[1..] == Put(m[1..], k, v);
    }
  }

  /** Assigning a key the value it already reads as changes nothing. */
  lemma {:induction false} PutSame<V>(m: seq<(string, V)>, k: string, v: V)
    requires Lookup(m, k) == Some(v)
    ensures Put(m, k, v) == m
  {
    if m[0].0 != k {
      PutSame(m[1..], k, v);
      assert m == [m[0]] + m[1..];
    } else {
      assert m == [(k, v)] + m[1..];
    }
  }
}
