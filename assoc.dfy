/**
  Python's insertion-ordered dictionary, modelled as an association list.

  A dict literal, a `**` splat and `d[k] = v` all go through `Put`: an existing
  key keeps its position and takes the new value, a new key is appended.
  `Get` is `dict.get(k)`, answering `None` for an absent key.
 */
module Assoc {

  datatype Option<+T> = None | Some(value: T) {
    /** `dict.get(k, default)`: the value, or `default` when absent. */
    function GetOr(default: T): T {
      match this
      case Some(v) => v
      case None => default
    }
  }

  type Dict<K, V> = seq<(K, V)>

  /** The keys of `d`, in insertion order. */
  function Keys<K, V>(d: Dict<K, V>): (ks: seq<K>)
    ensures |ks| == |d|
    ensures forall i :: 0 <= i < |d| ==> ks[i] == d[i].0
  {
    seq(|d|, i requires 0 <= i < |d| => d[i].0)
  }

  /** No key occurs twice: every Python dict satisfies this. */
  ghost predicate UniqueKeys<K, V>(d: Dict<K, V>) {
    forall i, j :: 0 <= i < j < |d| ==> d[i].0 != d[j].0
  }

  /** `d.get(k)`. */
  function Get<K(==), V>(d: Dict<K, V>, k: K): Option<V>
  {
    if d == [] then None
    else if d[0].0 == k then Some(d[0].1)
    else Get(d[1..], k)
  }

  /** `d.get(k)` finds a value exactly when `k` is a key, and that value is stored under `k`. */
  lemma {:induction false} GetKeys<K, V>(d: Dict<K, V>, k: K)
    ensures Get(d, k).Some? <==> k in Keys(d)
    ensures Get(d, k).Some? ==> (k, Get(d, k).value) in d
  {
    if d != [] {
      assert Keys(d) == [d[0].0] + Keys(d[1..]);
      GetKeys(d[1..], k);
      if d[0].0 != k && Get(d, k).Some? {
        assert (k, Get(d, k).value) in d[1..];
      }
    }
  }

  /** `d[k] = v`. */
  function Put<K(==), V>(d: Dict<K, V>, k: K, v: V): Dict<K, V>
  {
    if d == [] then [(k, v)]
    else if d[0].0 == k then [(k, v)] + d[1..]
    else [d[0]] + Put(d[1..], k, v)
  }

  /** `{**d, **e}`: the entries of `e` put into `d` one by one, in order. */
  function Merge<K(==), V>(d: Dict<K, V>, e: Dict<K, V>): Dict<K, V>
    decreases |e|
  {
    if e == [] then d else Merge(Put(d, e[0].0, e[0].1), e[1..])
  }

  /** After `d[k] = v`, `k` reads back `v` and every other key is unaffected. */
  lemma {:induction false} GetPut<K, V>(d: Dict<K, V>, k: K, v: V, k': K)
    ensures Get(Put(d, k, v), k') == if k' == k then Some(v) else Get(d, k')
  {
    if d != [] && d[0].0 != k {
      GetPut(d[1..], k, v, k');
    }
  }

  /** Assignment keeps existing keys in place and appends a new key at the end. */
  lemma {:induction false} KeysPut<K, V>(d: Dict<K, V>, k: K, v: V)
    ensures Keys(Put(d, k, v)) == if k in Keys(d) then Keys(d) else Keys(d) + [k]
  {
    if d == [] {
    } else if d[0].0 == k {
      assert Keys(Put(d, k, v)) == Keys(d);
    } else {
      KeysPut(d[1..], k, v);
      assert Keys(d) == [d[0].0] + Keys(d[1..]);
      assert Keys(Put(d, k, v)) == [d[0].0] + Keys(Put(d[1..], k, v));
    }
  }

  /** Assigning a key the dict lacks appends one entry. */
  lemma {:induction false} PutAbsent<K, V>(d: Dict<K, V>, k: K, v: V)
    requires k !in Keys(d)
    ensures Put(d, k, v) == d + [(k, v)]
  {
    if d != [] {
      assert Keys(d) == [d[0].0] + Keys(d[1..]);
      PutAbsent(d[1..], k, v);
    }
  }

  /** Assignment never introduces a duplicate key. */
  lemma PutUnique<K, V>(d: Dict<K, V>, k: K, v: V)
    requires UniqueKeys(d)
    ensures UniqueKeys(Put(d, k, v))
  {
    var d' := Put(d, k, v);
    KeysPut(d, k, v);
    assert Keys(d') == if k in Keys(d) then Keys(d) else Keys(d) + [k];
    forall i, j | 0 <= i < j < |d'| ensures d'[i].0 != d'[j].0 {
      assert Keys(d')[i] == d'[i].0 && Keys(d')[j] == d'[j].0;
    }
  }

  /** The keys of `d` stay, in their order, at the front of `{**d, **e}`. */
  lemma {:induction false} MergeKeepsPrefix<K, V>(d: Dict<K, V>, e: Dict<K, V>)
    ensures |Merge(d, e)| >= |d|
    ensures Keys(Merge(d, e))[..|d|] == Keys(d)
    decreases |e|
  {
    if e != [] {
      var d1 := Put(d, e[0].0, e[0].1);
      KeysPut(d, e[0].0, e[0].1);
      MergeKeepsPrefix(d1, e[1..]);
      assert Keys(d1)[..|d|] == Keys(d);
    }
  }

  /** Merging dictionaries keeps keys unique. */
  lemma {:induction false} MergeUnique<K, V>(d: Dict<K, V>, e: Dict<K, V>)
    requires UniqueKeys(d)
    ensures UniqueKeys(Merge(d, e))
    decreases |e|
  {
    if e != [] {
      PutUnique(d, e[0].0, e[0].1);
      MergeUnique(Put(d, e[0].0, e[0].1), e[1..]);
    }
  }

  /** In `{**d, **e}` a key of `e` reads `e`'s value; any other key reads `d`'s. */
  lemma {:induction false} GetMerge<K, V>(d: Dict<K, V>, e: Dict<K, V>, k: K)
    requires UniqueKeys(e)
    ensures Get(Merge(d, e), k) == if k in Keys(e) then Get(e, k) else Get(d, k)
    decreases |e|
  {
    if e != [] {
      var d1 := Put(d, e[0].0, e[0].1);
      assert UniqueKeys(e[1..]);
      assert Keys(e) == [e[0].0] + Keys(e[1..]);
      GetMerge(d1, e[1..], k);
      GetPut(d, e[0].0, e[0].1, k);
      if k == e[0].0 {
        assert k !in Keys(e[1..]);
      }
    }
  }
}
