/**
 * JavaScript's `Map` as the two services use it: `get`, `has`, `set`,
 * `delete`, `clear` and `Array.from(m.values())`. Besides the key/value
 * pairs a JavaScript map remembers the order in which its keys were first
 * inserted, and `values()` follows that order; `set` on a key that is
 * already present replaces the value in place.
 */
module JsMaps {

  import opened Wrappers

  datatype JsMap<K, V> = JsMap(order: seq<K>, entries: map<K, V>)

  predicate Distinct<K(==)>(s: seq<K>) {
    forall i, j :: 0 <= i < j < |s| ==> s[i] != s[j]
  }

  /** Every key occurs once in `order`, and `order` lists exactly the keys of `entries`. */
  ghost predicate Valid<K, V>(m: JsMap<K, V>) {
    && Distinct(m.order)
    && (forall k :: k in m.order ==> k in m.entries)
    && (forall k :: k in m.entries ==> k in m.order)
  }

  /** `new Map()` and the result of `clear()`. */
  function Empty<K, V>(): (m: JsMap<K, V>)
    ensures Valid(m)
    ensures forall k :: k !in m.entries
  {
    JsMap([], map[])
  }

  /** `m.get(k)`, with `undefined` as `None`. */
  function Get<K, V>(m: JsMap<K, V>, k: K): (r: Option<V>)
    ensures r.Some? <==> k in m.entries
    ensures r.Some? ==> r.value == m.entries[k]
  {
    if k in m.entries then Some(m.entries[k]) else None
  }

  /** `m.set(k, v)`: a new key goes to the end of the order, a present key keeps its place. */
  function Set<K, V>(m: JsMap<K, V>, k: K, v: V): (r: JsMap<K, V>)
    requires Valid(m)
    ensures Valid(r)
    ensures r.entries.Keys == m.entries.Keys + {k}
  {
    JsMap(if k in m.entries then m.order else m.order + [k], m.entries[k := v])
  }

  /** The order of `s` with the occurrences of `k` taken out. */
  function Without<K(==)>(s: seq<K>, k: K): (r: seq<K>)
    ensures |r| <= |s|
    ensures |r| == |s| <==> k !in s
  {
    if s == [] then []
    else if s[0] == k then Without(s[1..], k)
    else [s[0]] + Without(s[1..], k)
  }

  /** `Without` keeps every other key, in a distinct order if `s` was, and drops `k`. */
  lemma {:induction false} WithoutMembers<K>(s: seq<K>, k: K)
    ensures var r := Without(s, k);
      && |r| <= |s|
      && (forall i :: 0 <= i < |r| ==> r[i] in s && r[i] != k)
      && (forall i :: 0 <= i < |s| && s[i] != k ==> s[i] in r)
      && (Distinct(s) ==> Distinct(r))
      && (k !in s ==> r == s)
    decreases |s|
  {
    if s != [] {
      WithoutMembers(s[1..], k);
      var rest := Without(s[1..], k);
      if Distinct(s) {
        DistinctTail(s);
        assert s[0] !in rest;
      }
      forall i | 0 <= i < |s| && s[i] != k
        ensures s[i] in Without(s, k)
      {
        if i > 0 {
          assert s[i] == s[1..][i - 1];
        }
      }
    }
  }

  /** `m.delete(k)`: `k` leaves both the entries and the order; nothing happens if it is absent. */
  function Delete<K, V>(m: JsMap<K, V>, k: K): (r: JsMap<K, V>)
    requires Valid(m)
    ensures Valid(r)
    ensures r.entries.Keys == m.entries.Keys - {k}
    ensures k !in m.entries ==> r == m
  {
    WithoutMembers(m.order, k);
    JsMap(Without(m.order, k), m.entries - {k})
  }

  /** `Array.from(m.values())`: the values, in insertion order of their keys. */
  function Values<K, V>(m: JsMap<K, V>): (r: seq<V>)
    requires Valid(m)
    ensures |r| == |m.order|
    ensures forall i :: 0 <= i < |r| ==> m.order[i] in m.entries && r[i] == m.entries[m.order[i]]
  {
    seq(|m.order|, i requires 0 <= i < |m.order| && m.order[i] in m.entries => m.entries[m.order[i]])
  }

  /** After `set`, `get` finds the new value under `k` and the old ones elsewhere. */
  lemma GetSet<K, V>(m: JsMap<K, V>, k: K, v: V, k': K)
    requires Valid(m)
    ensures Get(Set(m, k, v), k') == if k' == k then Some(v) else Get(m, k')
  {
  }

  /** After `delete`, `k` is absent and every other key is as it was. */
  lemma GetDelete<K, V>(m: JsMap<K, V>, k: K, k': K)
    requires Valid(m)
    ensures Get(Delete(m, k), k') == if k' == k then None else Get(m, k')
  {
  }

  /** Deleting twice is deleting once. */
  lemma DeleteIdempotent<K, V>(m: JsMap<K, V>, k: K)
    requires Valid(m)
    ensures Delete(Delete(m, k), k) == Delete(m, k)
  {
  }

  /** Setting the same key twice keeps only the second value and the first call's order. */
  lemma SetSet<K, V>(m: JsMap<K, V>, k: K, v: V, w: V)
    requires Valid(m)
    ensures Set(Set(m, k, v), k, w) == Set(m, k, w)
  {
  }

  /** Inserting a new key appends its value to `values()`. */
  lemma ValuesSetNew<K, V>(m: JsMap<K, V>, k: K, v: V)
    requires Valid(m) && k !in m.entries
    ensures Values(Set(m, k, v)) == Values(m) + [v]
  {
    var r := Set(m, k, v);
    assert r.order == m.order + [k];
    assert k !in m.order;
  }

  /** Replacing the value of a present key changes `values()` at that key's position only. */
  lemma ValuesSetExisting<K, V>(m: JsMap<K, V>, k: K, v: V, i: nat)
    requires Valid(m) && i < |m.order| && m.order[i] == k
    ensures Values(Set(m, k, v)) == Values(m)[i := v]
  {
    assert k in m.entries;
  }

  /** `values()` of a deleted key loses exactly that key's value. */
  lemma ValuesDelete<K, V>(m: JsMap<K, V>, k: K, i: nat)
    requires Valid(m) && i < |m.order| && m.order[i] == k
    ensures Values(Delete(m, k)) == Values(m)[..i] + Values(m)[i + 1..]
  {
    WithoutAt(m.order, k, i);
    var d := Delete(m, k);
    var before, after := Values(d), Values(m)[..i] + Values(m)[i + 1..];
    assert |before| == |after|;
    forall j | 0 <= j < |before|
      ensures before[j] == after[j]
    {
      if j < i {
        assert d.order[j] == m.order[j];
      } else {
        assert d.order[j] == m.order[j + 1];
      }
    }
  }

  /** Dropping the first key of a distinct order leaves it distinct, and without that key. */
  lemma DistinctTail<K>(s: seq<K>)
    requires Distinct(s) && s != []
    ensures Distinct(s[1..]) && s[0] !in s[1..]
  {
    var tail := s[1..];
    forall a, b | 0 <= a < b < |tail|
      ensures tail[a] != tail[b]
    {
      assert tail[a] == s[a + 1] && tail[b] == s[b + 1];
    }
  }

  /** Taking the only occurrence of `k` out of `s` is cutting it at its position. */
  lemma {:induction false} WithoutAt<K>(s: seq<K>, k: K, i: nat)
    requires Distinct(s) && i < |s| && s[i] == k
    ensures Without(s, k) == s[..i] + s[i + 1..]
    decreases i
  {
    var tail := s[1..];
    if i == 0 {
      assert k !in tail by { DistinctTail(s); }
      WithoutMembers(tail, k);
      assert s[..0] + s[1..] == tail;
    } else {
      assert Distinct(tail) && tail[i - 1] == k by { DistinctTail(s); }
      assert s[0] != k;
      WithoutAt(tail, k, i - 1);
      assert tail[..i - 1] == s[1..i] && tail[i..] == s[i + 1..];
      assert [s[0]] + s[1..i] == s[..i];
    }
  }


}
