/**
 * Python dictionaries keep insertion order, and the wizard's output order depends
 * on it. A dictionary is modelled as a sequence of key/value pairs; assigning
 * `d[k] = v` updates an existing key in place and appends a new one.
 */
module OrderedMap {
  import opened Wrappers

  function Keys<K, V>(m: seq<(K, V)>): (ks: seq<K>)
    ensures |ks| == |m|
    ensures forall i | 0 <= i < |m| :: ks[i] == m[i].0
  {
    seq(|m|, i requires 0 <= i < |m| => m[i].0)
  }

  /** No element appears twice. */
  predicate Distinct<T(==)>(s: seq<T>) {
    forall i, j | 0 <= i < j < |s| :: s[i] != s[j]
  }

  /** The pairs form a dictionary: no key appears twice. */
  predicate UniqueKeys<K(==), V>(m: seq<(K, V)>) {
    Distinct(Keys(m))
  }

  /** Python's `d.get(k)`. */
  function Get<K(==), V>(m: seq<(K, V)>, k: K): Option<V>
  {
    if |m| == 0 then None
    else if m[0].0 == k then Some(m[0].1)
    else Get(m[1..], k)
  }

  /** Python's `d[k] = v`. */
  function Put<K(==), V>(m: seq<(K, V)>, k: K, v: V): seq<(K, V)>
  {
    if |m| == 0 then [(k, v)]
    else if m[0].0 == k then [(k, v)] + m[1..]
    else [m[0]] + Put(m[1..], k, v)
  }

  /** After `d[k] = v`, looking up `k` gives `v`, and every other key is untouched. */
  lemma {:induction false} GetPut<K, V>(m: seq<(K, V)>, k: K, v: V, k': K)
    ensures Get(Put(m, k, v), k') == if k' == k then Some(v) else Get(m, k')
  {
    if |m| > 0 && m[0].0 != k {
      GetPut(m[1..], k, v, k');
    }
  }

  lemma KeysCons<K, V>(p: (K, V), rest: seq<(K, V)>)
    ensures Keys([p] + rest) == [p.0] + Keys(rest)
  {
  }

  /** `d[k] = v` keeps the key order, appending `k` only when it is new. */
  lemma {:induction false} KeysPut<K, V>(m: seq<(K, V)>, k: K, v: V)
    ensures Keys(Put(m, k, v)) == if k in Keys(m) then Keys(m) else Keys(m) + [k]
  {
    if |m| > 0 {
      KeysCons(m[0], m[1..]);
      assert m == [m[0]] + m[1..];
      if m[0].0 == k {
        KeysCons((k, v), m[1..]);
      } else {
        KeysPut(m[1..], k, v);
        KeysCons(m[0], Put(m[1..], k, v));
        assert k in Keys(m) <==> k in Keys(m[1..]);
        if k !in Keys(m[1..]) {
          assert [m[0].0] + (Keys(m[1..]) + [k]) == ([m[0].0] + Keys(m[1..])) + [k];
        }
      }
    }
  }

  /** `d[k] = v` keeps a dictionary a dictionary. */
  lemma {:induction false} UniqueKeysPut<K, V>(m: seq<(K, V)>, k: K, v: V)
    requires UniqueKeys(m)
    ensures UniqueKeys(Put(m, k, v))
  {
    KeysPut(m, k, v);
  }

  /** In a dictionary, `Get` finds exactly the stored pairs. */
  lemma {:induction false} GetUnique<K, V>(m: seq<(K, V)>, k: K, v: V)
    requires UniqueKeys(m)
    ensures Get(m, k) == Some(v) <==> (k, v) in m
  {
    if |m| > 0 {
      assert Keys(m[1..]) == Keys(m)[1..];
      GetUnique(m[1..], k, v);
      if m[0].0 == k {
        forall j | 0 <= j < |m[1..]|
          ensures m[1..][j].0 != k
        {
          assert m[1..][j] == m[j + 1];
        }
      }
      assert m == [m[0]] + m[1..];
    }
  }

  /** A key has a value exactly when it is one of the keys. */
  lemma {:induction false} GetKeys<K, V>(m: seq<(K, V)>, k: K)
    ensures Get(m, k).Some? <==> k in Keys(m)
  {
    if |m| > 0 {
      GetKeys(m[1..], k);
      assert Keys(m) == [m[0].0] + Keys(m[1..]);
    }
  }
}
