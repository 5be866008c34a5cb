/** An insertion-ordered map as the JavaScript `Map` (and the own
    properties of a plain object) behaves: a sequence of key/value entries,
    where `set` on an existing key keeps that key's position and `set` on a
    new key appends it; `delete` removes the key and keeps the rest in order. */
module OrderedMap {
  import opened Base

  /** The keys in insertion order (`Array.from(m.keys())`). */
  function Keys<K, V>(m: seq<(K, V)>): (r: seq<K>)
    ensures |r| == |m|
  {
    seq(|m|, i requires 0 <= i < |m| => m[i].0)
  }

  /** No key occurs twice: true of every `Map` and every object. */
  predicate DistinctKeys<K(==), V>(m: seq<(K, V)>)
  {
    forall i, j :: 0 <= i < j < |m| ==> m[i].0 != m[j].0
  }

  /** `m.get(k)`: the value of the first entry with key `k`. */
  function Lookup<K(==), V>(m: seq<(K, V)>, k: K): Option<V>
  {
    if m == [] then None
    else if m[0].0 == k then Some(m[0].1)
    else Lookup(m[1..], k)
  }

  /** `m.set(k, v)`. */
  function Set<K(==), V>(m: seq<(K, V)>, k: K, v: V): seq<(K, V)>
  {
    if m == [] then [(k, v)]
    else if m[0].0 == k then [(k, v)] + m[1..]
    else [m[0]] + Set(m[1..], k, v)
  }

  /** `m.delete(k)`. */
  function Delete<K(==), V>(m: seq<(K, V)>, k: K): seq<(K, V)>
  {
    if m == [] then []
    else if m[0].0 == k then Delete(m[1..], k)
    else [m[0]] + Delete(m[1..], k)
  }

  /** A key is found exactly when it is one of the keys. */
  lemma {:induction false} LookupFound<K, V>(m: seq<(K, V)>, k: K)
    ensures Lookup(m, k).Some? <==> k in Keys(m)
  {
    if m != [] {
      LookupFound(m[1..], k);
      assert Keys(m) == [m[0].0] + Keys(m[1..]);
    }
  }

  /** Without duplicate keys, every entry is what `get` returns for its key. */
  lemma {:induction false} LookupEntry<K, V>(m: seq<(K, V)>, i: nat)
    requires DistinctKeys(m) && i < |m|
    ensures Lookup(m, m[i].0) == Some(m[i].1)
  {
    if i > 0 {
      assert m[0].0 != m[i].0;
      DistinctTail(m);
      LookupEntry(m[1..], i - 1);
    }
  }

  lemma DistinctTail<K, V>(m: seq<(K, V)>)
    requires DistinctKeys(m) && m != []
    ensures DistinctKeys(m[1..])
  {
    var t := m[1..];
    forall i, j | 0 <= i < j < |t| ensures t[i].0 != t[j].0 {
      assert t[i] == m[i + 1] && t[j] == m[j + 1];
    }
  }

  lemma DistinctCons<K, V>(e: (K, V), t: seq<(K, V)>)
    requires DistinctKeys(t) && e.0 !in Keys(t)
    ensures DistinctKeys([e] + t)
  {
    var m := [e] + t;
    forall i, j | 0 <= i < j < |m| ensures m[i].0 != m[j].0 {
      assert m[j] == t[j - 1];
      if i > 0 { assert m[i] == t[i - 1]; } else { assert Keys(t)[j - 1] == m[j].0; }
    }
  }

  /** After `set(k, v)`, `get(k)` is `v` and every other key reads as before. */
  lemma {:induction false} SetLookup<K, V>(m: seq<(K, V)>, k: K, v: V, k': K)
    ensures Lookup(Set(m, k, v), k') == if k' == k then Some(v) else Lookup(m, k')
  {
    if m != [] && m[0].0 != k {
      var r := Set(m, k, v);
      assert r[0] == m[0] && r[1..] == Set(m[1..], k, v);
      SetLookup(m[1..], k, v, k');
    } else if m != [] {
      var r := Set(m, k, v);
      assert r[1..] == m[1..];
    }
  }

  /** An existing key keeps its place; a new key goes last. */
  lemma {:induction false} SetKeys<K, V>(m: seq<(K, V)>, k: K, v: V)
    ensures Keys(Set(m, k, v)) == if k in Keys(m) then Keys(m) else Keys(m) + [k]
  {
    if m != [] {
      var r := Set(m, k, v);
      assert Keys(m) == [m[0].0] + Keys(m[1..]);
      if m[0].0 == k {
        assert Keys(r) == [k] + Keys(m[1..]);
      } else {
        SetKeys(m[1..], k, v);
        assert r == [m[0]] + Set(m[1..], k, v);
        assert Keys(r) == [m[0].0] + Keys(Set(m[1..], k, v));
      }
    }
  }

  /** `set` never introduces a duplicate key. */
  lemma SetDistinct<K, V>(m: seq<(K, V)>, k: K, v: V)
    requires DistinctKeys(m)
    ensures DistinctKeys(Set(m, k, v))
  {
    var r := Set(m, k, v);
    SetKeys(m, k, v);
    forall i, j | 0 <= i < j < |r| ensures r[i].0 != r[j].0 {
      assert Keys(r)[i] == r[i].0 && Keys(r)[j] == r[j].0;
      if k !in Keys(m) && j == |m| {
        assert Keys(m)[i] == m[i].0;
      } else {
        assert Keys(m)[i] == m[i].0 && Keys(m)[j] == m[j].0;
      }
    }
  }

  /** Setting a key to the value it already has changes nothing. */
  lemma {:induction false} SetSame<K, V>(m: seq<(K, V)>, k: K, v: V)
    requires Lookup(m, k) == Some(v)
    ensures Set(m, k, v) == m
  {
    if m[0].0 == k {
      assert m == [(k, v)] + m[1..];
    } else {
      SetSame(m[1..], k, v);
      assert m == [m[0]] + m[1..];
    }
  }

  /** After `delete(k)`, `k` is gone and every other key reads as before. */
  lemma {:induction false} DeleteLookup<K, V>(m: seq<(K, V)>, k: K, k': K)
    ensures Lookup(Delete(m, k), k') == if k' == k then None else Lookup(m, k')
  {
    if m != [] {
      DeleteLookup(m[1..], k, k');
      if m[0].0 != k {
        var r := Delete(m, k);
        assert r[0] == m[0] && r[1..] == Delete(m[1..], k);
      }
    }
  }

  /** `delete` keeps the keys distinct and introduces no key. */
  lemma {:induction false} DeleteDistinct<K, V>(m: seq<(K, V)>, k: K)
    requires DistinctKeys(m)
    ensures DistinctKeys(Delete(m, k))
    ensures forall c :: c in Keys(Delete(m, k)) ==> c in Keys(m)
  {
    if m != [] {
      DistinctTail(m);
      DeleteDistinct(m[1..], k);
      assert Keys(m) == [m[0].0] + Keys(m[1..]);
      if m[0].0 != k {
        var rest := Delete(m[1..], k);
        assert Keys(Delete(m, k)) == [m[0].0] + Keys(rest);
        assert m[0].0 !in Keys(m[1..]) by {
          forall j | 0 <= j < |m| - 1 ensures Keys(m[1..])[j] != m[0].0 {
            assert m[j + 1].0 != m[0].0;
          }
        }
        DistinctCons(m[0], rest);
      }
    }
  }

  /** On a map without duplicate keys, removing the last key leaves exactly
      the entries before it. */
  lemma {:induction false} DeleteLast<K, V>(m: seq<(K, V)>)
    requires DistinctKeys(m) && m != []
    ensures Delete(m, m[|m| - 1].0) == m[..|m| - 1]
  {
    var k := m[|m| - 1].0;
    if |m| > 1 {
      assert m[0].0 != k;
      var tail := m[1..];
      DistinctTail(m);
      assert tail[|tail| - 1] == m[|m| - 1];
      DeleteLast(tail);
      assert m[..|m| - 1] == [m[0]] + tail[..|tail| - 1];
    }
  }

  /** Setting a key that is not yet present appends it as the last entry. */
  lemma {:induction false} SetNewKeyIsLast<K, V>(m: seq<(K, V)>, k: K, v: V)
    requires k !in Keys(m)
    ensures Set(m, k, v) == m + [(k, v)]
  {
    if m != [] {
      assert Keys(m) == [m[0].0] + Keys(m[1..]);
      SetNewKeyIsLast(m[1..], k, v);
      assert m + [(k, v)] == [m[0]] + (m[1..] + [(k, v)]);
    }
  }

  /** Reading a two-entry literal. */
  lemma PairLookup<K, V>(a: K, x: V, b: K, y: V, k: K)
    requires a != b
    ensures Lookup([(a, x), (b, y)], k) == if k == a then Some(x) else if k == b then Some(y) else None
    ensures DistinctKeys([(a, x), (b, y)])
  {
    var m := [(a, x), (b, y)];
    assert m[1..] == [(b, y)];
    assert m[1..][1..] == [];
    assert Lookup(m[1..], k) == if k == b then Some(y) else Lookup(m[1..][1..], k);
  }

  /** Reading a one-entry literal. */
  lemma SingleLookup<K, V>(a: K, x: V, k: K)
    ensures Lookup([(a, x)], k) == if k == a then Some(x) else None
  {
    var m := [(a, x)];
    assert m[1..] == [];
  }
}
