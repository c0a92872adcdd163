/** What `_index` computes, independently of its loop, and why the order of its input is irrelevant. */
module Indexing {
  import opened Wrappers
  import opened Transformer

  ghost predicate DistinctKeys<K, V>(entries: seq<(K, V)>) {
    forall i, j :: 0 <= i < j < |entries| ==> entries[i].0 != entries[j].0
  }

  /** `m` holds exactly the entries. */
  ghost predicate IsIndex<K, V>(entries: seq<(K, V)>, m: map<K, V>) {
    && (forall i :: 0 <= i < |entries| ==> entries[i].0 in m && m[entries[i].0] == entries[i].1)
    && (forall k :: k in m ==> exists i :: 0 <= i < |entries| && entries[i].0 == k)
  }

  /** Indexing succeeds exactly on distinct keys, and then the dictionary holds exactly the entries. */
  lemma {:induction false} IndexMeaning<K, V>(entries: seq<(K, V)>)
    ensures IndexOf(entries).Ok? <==> DistinctKeys(entries)
    ensures IndexOf(entries).Ok? ==> IsIndex(entries, IndexOf(entries).value)
    ensures IndexOf(entries).Err? ==> IndexOf(entries) == Err(DuplicateKey)
  {
    if entries != [] {
      var n := |entries| - 1;
      var head := entries[..n];
      IndexMeaning(head);
      assert forall i :: 0 <= i < n ==> head[i] == entries[i];
      if IndexOf(head).Ok? {
        NextEntry(entries, IndexOf(head).value);
      }
    }
  }

  lemma {:induction false} NextEntry<K, V>(entries: seq<(K, V)>, m: map<K, V>)
    requires entries != []
    requires DistinctKeys(entries[..|entries| - 1]) && IsIndex(entries[..|entries| - 1], m)
    ensures var last := entries[|entries| - 1];
            && (last.0 in m <==> !DistinctKeys(entries))
            && (last.0 !in m ==> IsIndex(entries, m[last.0 := last.1]))
  {
    var n := |entries| - 1;
    var head := entries[..n];
    assert forall i :: 0 <= i < n ==> head[i] == entries[i];
    forall k | k in m
      ensures exists i :: 0 <= i < n && entries[i].0 == k
    {
      var i :| 0 <= i < n && head[i].0 == k;
      assert entries[i].0 == k;
    }
  }

  lemma {:induction false} IndexUnique<K, V>(entries: seq<(K, V)>, m: map<K, V>, m': map<K, V>)
    requires IsIndex(entries, m) && IsIndex(entries, m')
    ensures m == m'
  {
    forall k | k in m
      ensures k in m' && m[k] == m'[k]
    {
      var i :| 0 <= i < |entries| && entries[i].0 == k;
    }
    forall k | k in m'
      ensures k in m
    {
      var i :| 0 <= i < |entries| && entries[i].0 == k;
    }
  }

  // ----- permutations -----

  /** `p` and `q` are inverse rearrangements of positions taking `a` to `b` and back. */
  ghost predicate Rearranges<T>(p: seq<int>, q: seq<int>, a: seq<T>, b: seq<T>) {
    && |a| == |b| == |p| == |q|
    && (forall i :: 0 <= i < |p| ==> 0 <= p[i] < |q| && q[p[i]] == i && b[i] == a[p[i]])
    && (forall k :: 0 <= k < |q| ==> 0 <= q[k] < |p| && p[q[k]] == k && a[k] == b[q[k]])
  }

  ghost predicate Permuted<T>(a: seq<T>, b: seq<T>) {
    exists p, q :: Rearranges(p, q, a, b)
  }

  lemma {:induction false} DistinctIgnoresOrder<K, V>(p: seq<int>, q: seq<int>, a: seq<(K, V)>, b: seq<(K, V)>)
    requires Rearranges(p, q, a, b) && DistinctKeys(a)
    ensures DistinctKeys(b)
  {
    forall i, j | 0 <= i < j < |b|
      ensures b[i].0 != b[j].0
    {
      assert b[i] == a[p[i]] && b[j] == a[p[j]];
      assert q[p[i]] == i && q[p[j]] == j;
      assert p[i] < p[j] || p[j] < p[i];
    }
  }

  lemma {:induction false} IndexIgnoresOrder<K, V>(p: seq<int>, q: seq<int>, a: seq<(K, V)>, b: seq<(K, V)>)
    requires Rearranges(p, q, a, b)
    ensures IndexOf(a) == IndexOf(b)
  {
    IndexMeaning(a);
    IndexMeaning(b);
    if DistinctKeys(b) {
      DistinctIgnoresOrder(q, p, b, a);
    }
    if DistinctKeys(a) {
      DistinctIgnoresOrder(p, q, a, b);
      IsIndexIgnoresOrder(p, q, a, b, IndexOf(b).value);
      IndexUnique(a, IndexOf(a).value, IndexOf(b).value);
    }
  }

  lemma {:induction false} IsIndexIgnoresOrder<K, V>(p: seq<int>, q: seq<int>, a: seq<(K, V)>, b: seq<(K, V)>,
      m: map<K, V>)
    requires Rearranges(p, q, a, b) && IsIndex(b, m)
    ensures IsIndex(a, m)
  {
    forall k | k in m
      ensures exists i :: 0 <= i < |a| && a[i].0 == k
    {
      var i :| 0 <= i < |b| && b[i].0 == k;
      assert a[p[i]].0 == k;
    }
    forall i | 0 <= i < |a|
      ensures a[i].0 in m && m[a[i].0] == a[i].1
    {
      assert b[q[i]] == a[i];
    }
  }

  lemma {:induction false} DistinctConcat<K, V>(a: seq<(K, V)>, b: seq<(K, V)>)
    requires DistinctKeys(a) && DistinctKeys(b)
    requires forall i, j :: 0 <= i < |a| && 0 <= j < |b| ==> a[i].0 != b[j].0
    ensures DistinctKeys(a + b)
  {
  }

  /** Indexing a concatenation whose parts index separately and share no key. */
  lemma {:induction false} IndexConcat<K, V>(a: seq<(K, V)>, b: seq<(K, V)>)
    requires IndexOf(a).Ok? && IndexOf(b).Ok?
    requires IndexOf(a).value.Keys !! IndexOf(b).value.Keys
    ensures IndexOf(a + b) == Ok(IndexOf(a).value + IndexOf(b).value)
  {
    IndexMeaning(a);
    IndexMeaning(b);
    var ma, mb := IndexOf(a).value, IndexOf(b).value;
    forall i, j | 0 <= i < |a| && 0 <= j < |b|
      ensures a[i].0 != b[j].0
    {
      assert a[i].0 in ma.Keys && b[j].0 in mb.Keys;
    }
    DistinctConcat(a, b);
    IndexMeaning(a + b);
    IsIndexConcat(a, b, ma, mb);
    IndexUnique(a + b, ma + mb, IndexOf(a + b).value);
  }

  lemma {:induction false} IsIndexConcat<K, V>(a: seq<(K, V)>, b: seq<(K, V)>, ma: map<K, V>, mb: map<K, V>)
    requires IsIndex(a, ma) && IsIndex(b, mb) && ma.Keys !! mb.Keys
    ensures IsIndex(a + b, ma + mb)
  {
    forall k | k in ma + mb
      ensures exists i :: 0 <= i < |a + b| && (a + b)[i].0 == k
    {
      if k in mb {
        var i :| 0 <= i < |b| && b[i].0 == k;
        assert (a + b)[|a| + i].0 == k;
      } else {
        var i :| 0 <= i < |a| && a[i].0 == k;
        assert (a + b)[i].0 == k;
      }
    }
    forall i | 0 <= i < |a + b|
      ensures (a + b)[i].0 in ma + mb && (ma + mb)[(a + b)[i].0] == (a + b)[i].1
    {
      if i < |a| {
        assert a[i].0 in ma.Keys;
      } else {
        assert (a + b)[i] == b[i - |a|];
      }
    }
  }
}
