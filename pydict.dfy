/**
 * Python dictionaries whose iteration order matters, as sequences of
 * key/value pairs in insertion order.
 */
module PyDict {
  import opened Wrappers

  type Dict<K(==), V> = seq<(K, V)>

  function Keys<K(==), V>(d: Dict<K, V>): (ks: seq<K>)
    ensures |ks| == |d|
    ensures forall i :: 0 <= i < |d| ==> ks[i] == d[i].0
  {
    seq(|d|, i requires 0 <= i < |d| => d[i].0)
  }

  predicate HasKey<K(==), V>(d: Dict<K, V>, k: K) {
    exists i :: 0 <= i < |d| && d[i].0 == k
  }

  /** No key appears twice, as in every Python dict. */
  predicate DistinctKeys<K(==), V>(d: Dict<K, V>) {
    forall i, j :: 0 <= i < j < |d| ==> d[i].0 != d[j].0
  }

  /** The keys of a dict are those of all but its last entry, plus the last entry's key. */
  lemma HasKeyLast<K, V>(d: Dict<K, V>, k: K)
    requires |d| > 0
    ensures HasKey(d, k) <==> HasKey(d[..|d| - 1], k) || k == d[|d| - 1].0
  {
    if HasKey(d, k) && k != d[|d| - 1].0 {
      var i :| 0 <= i < |d| && d[i].0 == k;
      assert d[..|d| - 1][i].0 == k;
    }
    if HasKey(d[..|d| - 1], k) {
      var i :| 0 <= i < |d| - 1 && d[..|d| - 1][i].0 == k;
      assert d[i].0 == k;
    }
  }

  /** `d.get(k)`: the value stored under `k`, or `None`. */
  function Get<K(==), V>(d: Dict<K, V>, k: K): (r: Option<V>)
    ensures r.None? <==> !HasKey(d, k)
    ensures r.Some? ==> exists i :: 0 <= i < |d| && d[i] == (k, r.value)
  {
    if |d| == 0 then None
    else if d[0].0 == k then Some(d[0].1)
    else (assert forall i :: 1 <= i < |d| ==> d[i] == d[1..][i - 1];
          Get(d[1..], k))
  }

  /** In a dict with distinct keys, the entry at position `i` is what `Get` finds. */
  lemma {:induction false} GetAt<K, V>(d: Dict<K, V>, i: int)
    requires DistinctKeys(d) && 0 <= i < |d|
    ensures Get(d, d[i].0) == Some(d[i].1)
  {
    if i > 0 {
      GetAt(d[1..], i - 1);
    }
  }

  /** `d[k] = v`: replaces the value in place when `k` is present, appends otherwise. */
  function Set<K(==), V>(d: Dict<K, V>, k: K, v: V): (r: Dict<K, V>)
    ensures HasKey(d, k) ==> |r| == |d|
    ensures !HasKey(d, k) ==> r == d + [(k, v)]
    ensures forall i :: 0 <= i < |d| ==> r[i] == (if d[i].0 == k then (k, v) else d[i])
  {
    if HasKey(d, k) then seq(|d|, i requires 0 <= i < |d| => if d[i].0 == k then (k, v) else d[i])
    else d + [(k, v)]
  }

  /** After `d[k] = v`, looking up `k` gives `v`, and every other key is unaffected. */
  lemma {:induction false} GetSet<K, V>(d: Dict<K, V>, k: K, v: V, k': K)
    ensures Get(Set(d, k, v), k') == if k' == k then Some(v) else Get(d, k')
  {
    var r := Set(d, k, v);
    if HasKey(d, k) {
      if k' == k {
        GetFirst(r, k, v);
      } else {
        GetAgree(r, d, k');
      }
    } else {
      if k' == k {
        assert r[|d|] == (k, v);
        GetFirst(r, k, v);
      } else {
        GetAgree(r, d, k');
      }
    }
  }

  /** If every entry stored under `k` holds `v`, and there is one, `Get` finds `v`. */
  lemma {:induction false} GetFirst<K, V>(d: Dict<K, V>, k: K, v: V)
    requires HasKey(d, k)
    requires forall i :: 0 <= i < |d| && d[i].0 == k ==> d[i].1 == v
    ensures Get(d, k) == Some(v)
  {
  }

  /** Lookups of `k` agree on two dicts that hold the same entries for `k` in the same order. */
  lemma {:induction false} GetAgree<K, V>(r: Dict<K, V>, d: Dict<K, V>, k: K)
    requires |d| <= |r|
    requires forall i :: 0 <= i < |d| ==> r[i].0 == d[i].0 && (d[i].0 == k ==> r[i] == d[i])
    requires forall i :: |d| <= i < |r| ==> r[i].0 != k
    ensures Get(r, k) == Get(d, k)
  {
    if |d| == 0 {
      assert !HasKey(r, k);
    } else if d[0].0 != k {
      GetAgree(r[1..], d[1..], k);
    }
  }

  /** Assignment keeps the keys distinct and adds exactly `k` to the key set. */
  lemma {:induction false} SetDistinct<K, V>(d: Dict<K, V>, k: K, v: V)
    requires DistinctKeys(d)
    ensures DistinctKeys(Set(d, k, v))
    ensures forall k' :: HasKey(Set(d, k, v), k') <==> HasKey(d, k') || k' == k
  {
    var r := Set(d, k, v);
    if HasKey(d, k) {
      assert forall i :: 0 <= i < |d| ==> r[i].0 == d[i].0;
    } else {
      assert forall i :: 0 <= i < |d| ==> d[i].0 != k;
      assert r[|d|] == (k, v);
    }
  }

  /** A dict built by assigning the entries in order: `d = {}; for k, v in entries: d[k] = v`. */
  function FromEntries<K(==), V>(entries: seq<(K, V)>): Dict<K, V>
    decreases |entries|
  {
    if entries == [] then []
    else
      var n := |entries| - 1;
      Set(FromEntries(entries[..n]), entries[n].0, entries[n].1)
  }

  /** The built dict has distinct keys, exactly the keys of the entries. */
  lemma {:induction false} FromEntriesKeys<K, V>(entries: seq<(K, V)>)
    ensures DistinctKeys(FromEntries(entries))
    ensures forall k :: HasKey(FromEntries(entries), k) <==> HasKey(entries, k)
    decreases |entries|
  {
    if entries != [] {
      var n := |entries| - 1;
      FromEntriesKeys(entries[..n]);
      SetDistinct(FromEntries(entries[..n]), entries[n].0, entries[n].1);
      forall k ensures HasKey(entries, k) <==> HasKey(entries[..n], k) || k == entries[n].0 {
        HasKeyLast(entries, k);
      }
    }
  }

  /** With distinct keys, each entry's key maps to its value in the built dict. */
  lemma {:induction false} FromEntriesGet<K, V>(entries: seq<(K, V)>, i: int)
    requires DistinctKeys(entries) && 0 <= i < |entries|
    ensures Get(FromEntries(entries), entries[i].0) == Some(entries[i].1)
    decreases |entries|
  {
    var n := |entries| - 1;
    GetSet(FromEntries(entries[..n]), entries[n].0, entries[n].1, entries[i].0);
    if i < n {
      assert entries[..n][i] == entries[i];
      assert entries[i].0 != entries[n].0;
      FromEntriesGet(entries[..n], i);
    }
  }

  /** Entries with distinct keys build a dict holding exactly those entries, in order. */
  lemma {:induction false} FromEntriesDistinct<K, V>(entries: seq<(K, V)>)
    requires DistinctKeys(entries)
    ensures FromEntries(entries) == entries
    decreases |entries|
  {
    if entries != [] {
      var n := |entries| - 1;
      var front := entries[..n];
      var last := entries[n];
      assert DistinctKeys(front) by {
        forall i, j | 0 <= i < j < n ensures front[i].0 != front[j].0 {
          assert front[i] == entries[i] && front[j] == entries[j];
        }
      }
      FromEntriesDistinct(front);
      assert !HasKey(front, last.0) by {
        forall i | 0 <= i < n ensures front[i].0 != last.0 {
          assert front[i] == entries[i];
        }
      }
      assert FromEntries(entries) == Set(front, last.0, last.1) == front + [last];
      assert front + [last] == entries;
    }
  }
}
