/**
 * Python dicts built from lists of entries: the entries in insertion order
 * with distinct keys, and lookups through a chain of dict updates.
 */
module Dicts {
  predicate DistinctKeys<V>(entries: seq<(string, V)>) {
    forall i, j :: 0 <= i < j < |entries| ==> entries[i].0 != entries[j].0
  }

  /** The keys of a list of entries. */
  function KeysOf<V>(entries: seq<(string, V)>): set<string>
    decreases |entries|
  {
    if entries == [] then {} else KeysOf(entries[..|entries| - 1]) + {entries[|entries| - 1].0}
  }

  /** A key is among the entries' keys exactly when some entry has it. */
  lemma {:induction false} InKeysOf<V>(entries: seq<(string, V)>, k: string)
    ensures k in KeysOf(entries) <==> exists i :: 0 <= i < |entries| && entries[i].0 == k
    decreases |entries|
  {
    if entries != [] {
      var n := |entries| - 1;
      InKeysOf(entries[..n], k);
      if k in KeysOf(entries[..n]) {
        var i :| 0 <= i < n && entries[..n][i].0 == k;
        assert entries[i].0 == k;
      } else if exists i :: 0 <= i < |entries| && entries[i].0 == k {
        var i :| 0 <= i < |entries| && entries[i].0 == k;
        if i < n {
          assert entries[..n][i].0 == k;
        }
      }
    }
  }

  /** Two lists whose entries carry the same keys, position by position, have the same key set. */
  lemma {:induction false} SameKeys<V, W>(a: seq<(string, V)>, b: seq<(string, W)>)
    requires |a| == |b| && forall i :: 0 <= i < |a| ==> a[i].0 == b[i].0
    ensures KeysOf(a) == KeysOf(b)
    decreases |a|
  {
    if a != [] {
      var n := |a| - 1;
      assert forall i :: 0 <= i < n ==> a[..n][i] == a[i] && b[..n][i] == b[i];
      SameKeys(a[..n], b[..n]);
    }
  }

  /** Distinct keys: as many keys as entries. */
  lemma {:induction false} DistinctKeysCount<V>(entries: seq<(string, V)>)
    requires DistinctKeys(entries)
    ensures |KeysOf(entries)| == |entries|
    decreases |entries|
  {
    if entries != [] {
      var n := |entries| - 1;
      var front := entries[..n];
      assert DistinctKeys(front) by {
        forall i, j | 0 <= i < j < n ensures front[i].0 != front[j].0 {
          assert front[i] == entries[i] && front[j] == entries[j];
        }
      }
      DistinctKeysCount(front);
      assert entries[n].0 !in KeysOf(front) by {
        InKeysOf(front, entries[n].0);
        forall i | 0 <= i < n
          ensures front[i].0 != entries[n].0
        {
          assert front[i] == entries[i];
        }
      }
    }
  }

  /**
   * The dict holding the entries, built by inserting them in order: with
   * distinct keys every entry survives under its own key.
   */
  function ToMap<V>(entries: seq<(string, V)>): (m: map<string, V>)
    requires DistinctKeys(entries)
    ensures m.Keys == KeysOf(entries)
    ensures forall i :: 0 <= i < |entries| ==> entries[i].0 in m && m[entries[i].0] == entries[i].1
    decreases |entries|
  {
    if entries == [] then map[]
    else
      var n := |entries| - 1;
      assert DistinctKeys(entries[..n]) by {
        forall i, j | 0 <= i < j < n ensures entries[..n][i].0 != entries[..n][j].0 {
          assert entries[..n][i] == entries[i] && entries[..n][j] == entries[j];
        }
      }
      var prev := ToMap(entries[..n]);
      assert forall i :: 0 <= i < n ==> entries[..n][i] == entries[i];
      prev[entries[n].0 := entries[n].1]
  }

  /** Inserting one more entry under a new key. */
  lemma ToMapAppend<V>(entries: seq<(string, V)>, key: string, value: V)
    requires DistinctKeys(entries + [(key, value)])
    ensures DistinctKeys(entries)
    ensures ToMap(entries + [(key, value)]) == ToMap(entries)[key := value]
  {
    var longer := entries + [(key, value)];
    assert longer[..|entries|] == entries;
  }

  /** `a + suffix == b + suffix` only when `a == b`. */
  lemma CancelSuffix(a: string, b: string, suffix: string)
    requires a + suffix == b + suffix
    ensures a == b
  {
    assert |a| == |b|;
    assert a == (a + suffix)[..|a|];
    assert b == (b + suffix)[..|b|];
  }

  /** Updating one key is merging in a one-entry dict; merging in nothing changes nothing. */
  lemma UpdateIsMerge<V>(m: map<string, V>, k: string, v: V)
    ensures m[k := v] == m + map[k := v]
    ensures m + map[] == m
  {
  }

  /** The keys of `a + b + c` are those of the three dicts. */
  lemma MergeKeys<V>(a: map<string, V>, b: map<string, V>, c: map<string, V>)
    ensures (a + b + c).Keys == a.Keys + b.Keys + c.Keys
  {
  }

  /** In `a + b + c`, a key of `c` has its value from `c`. */
  lemma LookupLast<V>(a: map<string, V>, b: map<string, V>, c: map<string, V>, k: string)
    requires k in c
    ensures k in a + b + c && (a + b + c)[k] == c[k]
  {
  }

  /** In `a + b + c`, a key held by neither `a` nor `c` is present just when `b` holds it, with `b`'s value. */
  lemma LookupMiddle<V>(a: map<string, V>, b: map<string, V>, c: map<string, V>, k: string)
    requires k !in a && k !in c
    ensures k in a + b + c <==> k in b
    ensures k in b ==> (a + b + c)[k] == b[k]
  {
  }

  /** In `a + b + c`, a key of `a` that neither later dict holds keeps its value from `a`. */
  lemma LookupFirst<V>(a: map<string, V>, b: map<string, V>, c: map<string, V>, k: string)
    requires k in a && k !in b && k !in c
    ensures k in a + b + c && (a + b + c)[k] == a[k]
  {
  }
}
