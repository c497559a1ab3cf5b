/** A Python `dict` as an association list in insertion order: `d.get(k)`
    finds the entry for `k`, and `d[k] = v` overwrites that entry where it
    stands or, for a new key, appends one at the end. */
module OrderedDict {
  import opened Wrappers

  function Keys<K, V>(d: seq<(K, V)>): (ks: seq<K>)
    ensures |ks| == |d|
    ensures forall i :: 0 <= i < |d| ==> ks[i] == d[i].0
  {
    seq(|d|, i requires 0 <= i < |d| => d[i].0)
  }

  predicate DistinctKeys<K(==), V>(d: seq<(K, V)>)
  {
    forall i, j :: 0 <= i < j < |d| ==> d[i].0 != d[j].0
  }

  /** `d.get(k)`. */
  function Get<K(==), V>(d: seq<(K, V)>, k: K): (r: Option<V>)
    ensures r.None? <==> k !in Keys(d)
    decreases |d|
  {
    if d == [] then None
    else if d[0].0 == k then Some(d[0].1)
    else Get(d[1..], k)
  }

  /** `d.get(k, default)`. */
  function GetOr<K(==), V>(d: seq<(K, V)>, k: K, default: V): V
  {
    match Get(d, k)
    case Some(v) => v
    case None => default
  }

  /** `d[k] = v`. */
  function Set<K(==), V>(d: seq<(K, V)>, k: K, v: V): seq<(K, V)>
    decreases |d|
  {
    if d == [] then [(k, v)]
    else if d[0].0 == k then [(k, v)] + d[1..]
    else [d[0]] + Set(d[1..], k, v)
  }

  /** After `d[k] = v` the key maps to `v` and every other key keeps its value. */
  lemma {:induction false} GetSet<K, V>(d: seq<(K, V)>, k: K, v: V, k': K)
    ensures Get(Set(d, k, v), k') == if k' == k then Some(v) else Get(d, k')
    decreases |d|
  {
    if d != [] && d[0].0 != k {
      GetSet(d[1..], k, v, k');
      assert Set(d, k, v)[1..] == Set(d[1..], k, v);
    }
  }

  /** `d[k] = v` keeps the key order, adding `k` at the end when it is new. */
  lemma {:induction false} KeysSet<K, V>(d: seq<(K, V)>, k: K, v: V)
    ensures Keys(Set(d, k, v)) == if k in Keys(d) then Keys(d) else Keys(d) + [k]
    decreases |d|
  {
    if d != [] && d[0].0 != k {
      KeysSet(d[1..], k, v);
      KeysCons(d[0], d[1..]);
      KeysCons(d[0], Set(d[1..], k, v));
      assert d == [d[0]] + d[1..];
    } else if d != [] {
      KeysCons(d[0], d[1..]);
      KeysCons((k, v), d[1..]);
      assert d == [d[0]] + d[1..];
    }
  }

  lemma KeysCons<K, V>(x: (K, V), d: seq<(K, V)>)
    ensures Keys([x] + d) == [x.0] + Keys(d)
  {
  }

  /** Assignment never introduces a duplicate key. */
  lemma SetKeepsDistinct<K, V>(d: seq<(K, V)>, k: K, v: V)
    requires DistinctKeys(d)
    ensures DistinctKeys(Set(d, k, v))
  {
    KeysSet(d, k, v);
    var d' := Set(d, k, v);
    forall i, j | 0 <= i < j < |d'| ensures d'[i].0 != d'[j].0 {
      assert Keys(d')[i] == d'[i].0 && Keys(d')[j] == d'[j].0;
      if k !in Keys(d) && j == |d| {
        assert Keys(d)[i] == d[i].0;
      } else {
        assert Keys(d)[i] == d[i].0 && Keys(d)[j] == d[j].0;
      }
    }
  }

  /** With distinct keys, an entry in the list is what `get` returns. */
  lemma {:induction false} GetEntry<K, V>(d: seq<(K, V)>, i: nat)
    requires DistinctKeys(d) && i < |d|
    ensures Get(d, d[i].0) == Some(d[i].1)
    decreases |d|
  {
    if i > 0 {
      assert d[0].0 != d[i].0;
      GetEntry(d[1..], i - 1);
    }
  }

  /** What `get` returns is the value of some entry with that key. */
  lemma {:induction false} GetFound<K, V>(d: seq<(K, V)>, k: K)
    requires Get(d, k).Some?
    ensures exists i :: 0 <= i < |d| && d[i] == (k, Get(d, k).value)
    decreases |d|
  {
    if d[0].0 != k {
      GetFound(d[1..], k);
      var i :| 0 <= i < |d| - 1 && d[1..][i] == (k, Get(d, k).value);
      assert d[i + 1] == (k, Get(d, k).value);
    } else {
      assert d[0] == (k, Get(d, k).value);
    }
  }

  /** Assigning a new key appends an entry. */
  lemma {:induction false} SetNew<K, V>(d: seq<(K, V)>, k: K, v: V)
    requires k !in Keys(d)
    ensures Set(d, k, v) == d + [(k, v)]
    decreases |d|
  {
    if d != [] {
      assert Keys(d) == [d[0].0] + Keys(d[1..]);
      SetNew(d[1..], k, v);
      assert d == [d[0]] + d[1..];
    }
  }

  /** Assigning a key twice leaves only the second value. */
  lemma {:induction false} SetSet<K, V>(d: seq<(K, V)>, k: K, v1: V, v2: V)
    ensures Set(Set(d, k, v1), k, v2) == Set(d, k, v2)
    decreases |d|
  {
    if d != [] && d[0].0 != k {
      SetSet(d[1..], k, v1, v2);
    }
  }

  /** Every entry after `d[k] = v` is either the new one or an untouched
      entry at the same position. */
  lemma {:induction false} SetEntries<K, V>(d: seq<(K, V)>, k: K, v: V, j: nat)
    requires j < |Set(d, k, v)|
    ensures Set(d, k, v)[j] == (k, v) || (j < |d| && Set(d, k, v)[j] == d[j])
    decreases |d|
  {
    if d != [] && d[0].0 != k && j > 0 {
      SetEntries(d[1..], k, v, j - 1);
    }
  }
}
