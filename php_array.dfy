/**
 * PHP arrays used as dictionaries: an ordered list of (key, value) entries.
 * Assigning `$a[$k] = $v` overwrites the entry for `$k` where it stands, or
 * appends a new entry at the end when `$k` is not yet a key.
 */
module PhpArray {
  import opened Wrappers

  type OrderedMap<K(==), V> = seq<(K, V)>

  /** `array_keys($m)`, in insertion order. */
  function Keys<K(==), V>(m: OrderedMap<K, V>): (ks: seq<K>)
    ensures |ks| == |m|
  {
    if m == [] then [] else [m[0].0] + Keys(m[1..])
  }

  /** `array_key_exists($k, $m)`. */
  predicate HasKey<K(==), V>(m: OrderedMap<K, V>, k: K) {
    m != [] && (m[0].0 == k || HasKey(m[1..], k))
  }

  /** No key occurs twice: every array PHP builds has this shape. */
  predicate UniqueKeys<K(==), V>(m: OrderedMap<K, V>) {
    forall i, j :: 0 <= i < j < |m| ==> m[i].0 != m[j].0
  }

  /** `$m[$k]` when the key exists. */
  function Get<K(==), V>(m: OrderedMap<K, V>, k: K): (r: Option<V>)
    ensures r.Some? <==> HasKey(m, k)
  {
    if m == [] then None
    else if m[0].0 == k then Some(m[0].1)
    else Get(m[1..], k)
  }

  /** `$m[$k] = $v`: overwrite the entry for `k` where it stands, or append one. */
  function Put<K(==), V>(m: OrderedMap<K, V>, k: K, v: V): (r: OrderedMap<K, V>)
    ensures |r| == if HasKey(m, k) then |m| else |m| + 1
  {
    if m == [] then [(k, v)]
    else if m[0].0 == k then [(k, v)] + m[1..]
    else [m[0]] + Put(m[1..], k, v)
  }

  /** A key exists exactly when some entry carries it. */
  lemma {:induction false} HasKeyAt<K(!new), V>(m: OrderedMap<K, V>, k: K)
    ensures HasKey(m, k) <==> exists i :: 0 <= i < |m| && m[i].0 == k
  {
    if m != [] {
      HasKeyAt(m[1..], k);
      if HasKey(m[1..], k) {
        var i :| 0 <= i < |m[1..]| && m[1..][i].0 == k;
        assert m[i + 1].0 == k;
      }
      if i :| 0 <= i < |m| && m[i].0 == k {
        if i > 0 {
          assert m[1..][i - 1].0 == k;
        }
      }
    }
  }

  /** With distinct keys, `$m[$k]` is the value of the one entry for `k`. */
  lemma {:induction false} GetFindsEntry<K(!new), V>(m: OrderedMap<K, V>, k: K, i: nat)
    requires UniqueKeys(m) && i < |m| && m[i].0 == k
    ensures Get(m, k) == Some(m[i].1)
  {
    if i > 0 {
      assert m[0].0 != k;
      GetFindsEntry(m[1..], k, i - 1);
    }
  }

  /** What `$m[$k]` reads is an entry of the array. */
  lemma {:induction false} GetIsEntry<K(!new), V>(m: OrderedMap<K, V>, k: K)
    requires HasKey(m, k)
    ensures (k, Get(m, k).value) in m
  {
    if m[0].0 != k {
      GetIsEntry(m[1..], k);
    }
  }

  /** After `$m[$k] = $v`, `$m[$k]` is `v` and every other key reads as before. */
  lemma {:induction false} PutGet<K(!new), V>(m: OrderedMap<K, V>, k: K, v: V, k': K)
    ensures Get(Put(m, k, v), k') == if k' == k then Some(v) else Get(m, k')
  {
    if m != [] && m[0].0 != k {
      PutGet(m[1..], k, v, k');
      assert Put(m, k, v)[1..] == Put(m[1..], k, v);
    }
  }

  /** An existing key keeps its position; a new key goes last. */
  lemma {:induction false} PutKeys<K(!new), V>(m: OrderedMap<K, V>, k: K, v: V)
    ensures Keys(Put(m, k, v)) == if HasKey(m, k) then Keys(m) else Keys(m) + [k]
  {
    if m != [] && m[0].0 != k {
      PutKeys(m[1..], k, v);
      assert Put(m, k, v)[1..] == Put(m[1..], k, v);
    }
  }

  /** Every entry after `$m[$k] = $v` is the new one or an old one. */
  lemma {:induction false} PutEntries<K(!new), V>(m: OrderedMap<K, V>, k: K, v: V)
    ensures forall e :: e in Put(m, k, v) ==> e == (k, v) || e in m
  {
    if m != [] && m[0].0 != k {
      PutEntries(m[1..], k, v);
    }
  }

  /** Writing a key keeps the keys distinct. */
  lemma {:induction false} PutKeepsUniqueKeys<K(!new), V>(m: OrderedMap<K, V>, k: K, v: V)
    requires UniqueKeys(m)
    ensures UniqueKeys(Put(m, k, v))
  {
    if m != [] {
      if m[0].0 == k {
        assert Put(m, k, v)[1..] == m[1..];
      } else {
        PutKeepsUniqueKeys(m[1..], k, v);
        var r := Put(m, k, v);
        assert r[1..] == Put(m[1..], k, v);
        forall j | 1 <= j < |r| ensures r[j].0 != m[0].0 {
          PutEntries(m[1..], k, v);
          assert r[j] in Put(m[1..], k, v);
          if r[j] != (k, v) {
            var i :| 0 <= i < |m[1..]| && m[1..][i] == r[j];
            assert m[i + 1] == r[j];
          }
        }
      }
    }
  }

  /** Writing the same entry again changes nothing: `$m[$k] = $v; $m[$k] = $v;`. */
  lemma {:induction false} PutIdempotent<K(!new), V>(m: OrderedMap<K, V>, k: K, v: V)
    ensures Put(Put(m, k, v), k, v) == Put(m, k, v)
  {
    if m != [] && m[0].0 != k {
      PutIdempotent(m[1..], k, v);
      assert Put(m, k, v)[1..] == Put(m[1..], k, v);
    }
  }

  /** A second write of a key replaces the first one in place. */
  lemma {:induction false} PutOverwrites<K(!new), V>(m: OrderedMap<K, V>, k: K, v1: V, v2: V)
    ensures Put(Put(m, k, v1), k, v2) == Put(m, k, v2)
  {
    if m != [] && m[0].0 != k {
      PutOverwrites(m[1..], k, v1, v2);
      assert Put(m, k, v1)[1..] == Put(m[1..], k, v1);
    }
  }
}
