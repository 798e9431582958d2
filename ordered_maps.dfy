/**
 * An insertion-ordered dictionary with distinct keys: the behaviour of a PHP
 * array keyed by strings, which the engine uses for its tracked executions.
 * Assigning to an existing key keeps its position; a new key goes last;
 * `unset` drops the key and keeps the order of the others.
 */
module OrderedMaps {
  import opened Wrappers

  datatype Entry<K, V> = Entry(key: K, value: V)

  type OMap<K, V> = seq<Entry<K, V>>

  /** No key occurs twice. */
  ghost predicate Distinct<K, V>(m: OMap<K, V>) {
    forall i, j :: 0 <= i < j < |m| ==> m[i].key != m[j].key
  }

  /** The keys in iteration order. */
  function Keys<K, V>(m: OMap<K, V>): (ks: seq<K>)
    ensures |ks| == |m|
    ensures forall i :: 0 <= i < |m| ==> ks[i] == m[i].key
  {
    if m == [] then [] else [m[0].key] + Keys(m[1..])
  }

  /** `$m[$k]`, or None when `isset($m[$k])` is false. */
  function Get<K(==,!new), V(!new)>(m: OMap<K, V>, k: K): (r: Option<V>)
    ensures r.None? <==> forall i :: 0 <= i < |m| ==> m[i].key != k
    ensures r.Some? ==> exists i :: 0 <= i < |m| && m[i] == Entry(k, r.value)
  {
    if m == [] then None
    else if m[0].key == k then Some(m[0].value)
    else
      var r := Get(m[1..], k);
      assert r.Some? ==> exists i :: 0 <= i < |m[1..]| && m[1..][i] == Entry(k, r.value);
      r
  }

  /** `$m[$k] = $v`. */
  function Put<K(==,!new), V(!new)>(m: OMap<K, V>, k: K, v: V): (r: OMap<K, V>)
    ensures Get(r, k) == Some(v)
    ensures forall k' :: k' != k ==> Get(r, k') == Get(m, k')
  {
    if m == [] then [Entry(k, v)]
    else if m[0].key == k then [Entry(k, v)] + m[1..]
    else [m[0]] + Put(m[1..], k, v)
  }

  /** Overwriting keeps the key's place; a new key is appended. */
  lemma {:induction false} PutKeys<K(!new), V(!new)>(m: OMap<K, V>, k: K, v: V)
    ensures Get(m, k).Some? ==> Keys(Put(m, k, v)) == Keys(m)
    ensures Get(m, k).None? ==> Keys(Put(m, k, v)) == Keys(m) + [k]
  {
    if m != [] && m[0].key != k {
      PutKeys(m[1..], k, v);
      assert Put(m, k, v) == [m[0]] + Put(m[1..], k, v);
      assert Put(m, k, v)[1..] == Put(m[1..], k, v);
    }
  }

  /** Assignment never duplicates a key. */
  lemma {:induction false} PutDistinct<K(!new), V(!new)>(m: OMap<K, V>, k: K, v: V)
    requires Distinct(m)
    ensures Distinct(Put(m, k, v))
  {
    if m != [] && m[0].key != k {
      PutDistinct(m[1..], k, v);
      var rest := Put(m[1..], k, v);
      assert Get(m[1..], m[0].key).None? by {
        forall i | 0 <= i < |m[1..]| ensures m[1..][i].key != m[0].key {
          assert m[1..][i] == m[i + 1];
        }
      }
      assert Get(rest, m[0].key).None?;
      assert Put(m, k, v) == [m[0]] + rest;
    }
  }

  /** With distinct keys, looking up an entry's key finds that entry. */
  lemma {:induction false} GetDistinct<K(!new), V(!new)>(m: OMap<K, V>, i: nat)
    requires Distinct(m) && i < |m|
    ensures Get(m, m[i].key) == Some(m[i].value)
  {
    if i > 0 {
      assert m[1..][i - 1] == m[i];
      GetDistinct(m[1..], i - 1);
    }
  }

  /** `unset($m[$k])`. */
  function Remove<K(==,!new), V(!new)>(m: OMap<K, V>, k: K): (r: OMap<K, V>)
    ensures Get(r, k).None?
    ensures forall k' :: k' != k ==> Get(r, k') == Get(m, k')
    ensures forall e :: e in r <==> e in m && e.key != k
    ensures Distinct(m) ==> Distinct(r)
  {
    if m == [] then []
    else if m[0].key == k then Remove(m[1..], k)
    else [m[0]] + Remove(m[1..], k)
  }

  /** The assignments `$m[$k] = $v` for the entries, in order. */
  function PutAll<K(==,!new), V(!new)>(m: OMap<K, V>, es: seq<Entry<K, V>>): (r: OMap<K, V>)
    decreases |es|
  {
    if es == [] then m else PutAll(Put(m, es[0].key, es[0].value), es[1..])
  }

  /** A key no entry has keeps its value. */
  lemma {:induction false} PutAllOther<K(!new), V(!new)>(m: OMap<K, V>, es: seq<Entry<K, V>>, k: K)
    requires forall i :: 0 <= i < |es| ==> es[i].key != k
    ensures Get(PutAll(m, es), k) == Get(m, k)
    decreases |es|
  {
    if es != [] {
      assert es[0].key != k;
      forall i | 0 <= i < |es[1..]| ensures es[1..][i].key != k {
        assert es[1..][i] == es[i + 1];
      }
      PutAllOther(Put(m, es[0].key, es[0].value), es[1..], k);
    }
  }

  /** With distinct keys, every entry's value ends up under its key. */
  lemma {:induction false} PutAllAt<K(!new), V(!new)>(m: OMap<K, V>, es: seq<Entry<K, V>>, i: nat)
    requires Distinct(es) && i < |es|
    ensures Get(PutAll(m, es), es[i].key) == Some(es[i].value)
    decreases |es|
  {
    var m1 := Put(m, es[0].key, es[0].value);
    var rest := es[1..];
    assert Distinct(rest) by {
      forall a, b | 0 <= a < b < |rest| ensures rest[a].key != rest[b].key {
        assert rest[a] == es[a + 1] && rest[b] == es[b + 1];
      }
    }
    if i == 0 {
      forall j | 0 <= j < |rest| ensures rest[j].key != es[0].key {
        assert rest[j] == es[j + 1];
      }
      PutAllOther(m1, rest, es[0].key);
    } else {
      assert rest[i - 1] == es[i];
      PutAllAt(m1, rest, i - 1);
    }
  }
}
