/** Sums over maps of lists, and the bookkeeping maps that are meant to equal them. */
module Tallies {

  ghost function Pick<K(!new), V>(m: map<K, V>): K
    requires m != map[]
  {
    var k :| k in m;
    k
  }

  ghost function Sum<K(!new), V>(m: map<K, V>, f: V -> nat): nat
    decreases |m|
  {
    if m == map[] then 0 else f(m[Pick(m)]) + Sum(m - {Pick(m)}, f)
  }

  /** Any key may be taken out first. */
  lemma {:induction false} SumRemove<K(!new), V>(m: map<K, V>, k: K, f: V -> nat)
    requires k in m
    ensures Sum(m, f) == f(m[k]) + Sum(m - {k}, f)
    decreases |m|
  {
    var p := Pick(m);
    if p != k {
      SumRemove(m - {p}, k, f);
      SumRemove(m - {k}, p, f);
      assert m - {p} - {k} == m - {k} - {p};
    }
  }

  lemma SumAdd<K(!new), V>(m: map<K, V>, k: K, v: V, f: V -> nat)
    requires k !in m
    ensures Sum(m[k := v], f) == Sum(m, f) + f(v)
  {
    SumRemove(m[k := v], k, f);
    assert m[k := v] - {k} == m;
  }

  /** Leaving out entries that weigh nothing leaves the sum. */
  lemma {:induction false} SumKeep<K(!new), V>(m: map<K, V>, n: map<K, V>, f: V -> nat)
    requires forall k :: k in n ==> k in m && m[k] == n[k]
    requires forall k :: k in m && k !in n ==> f(m[k]) == 0
    ensures Sum(m, f) == Sum(n, f)
    decreases |m|
  {
    if k :| k in m && k !in n {
      SumRemove(m, k, f);
      SumKeep(m - {k}, n, f);
    } else {
      assert m == n;
    }
  }

  /** A list under a key; an absent key is the empty list. */
  function At<K, T>(m: map<K, seq<T>>, k: K): seq<T> {
    if k in m then m[k] else []
  }

  /** Store a list under a key; an empty list is not stored. */
  function Put<K, T>(m: map<K, seq<T>>, k: K, list: seq<T>): map<K, seq<T>> {
    if list == [] then m - {k} else m[k := list]
  }

  lemma SumPut<K(!new), T>(m: map<K, seq<T>>, k: K, list: seq<T>, f: seq<T> -> nat)
    requires f([]) == 0
    ensures Sum(Put(m, k, list), f) == Sum(m, f) - f(At(m, k)) + f(list)
  {
    if k in m {
      SumRemove(m, k, f);
    } else {
      assert m - {k} == m;
    }
    if list != [] {
      var n := m[k := list];
      SumRemove(n, k, f);
      assert n - {k} == m - {k};
    }
  }

  function Count<K>(counts: map<K, nat>, k: K): nat {
    if k in counts then counts[k] else 0
  }

  function Increment<K>(counts: map<K, nat>, k: K): map<K, nat> {
    counts[k := Count(counts, k) + 1]
  }

  /** One less, dropping the entry at zero. The thing counted must be there, so this never underflows. */
  function Decrement<K>(counts: map<K, nat>, k: K): map<K, nat>
    requires Count(counts, k) > 0
  {
    if counts[k] == 1 then counts - {k}
    else counts[k := counts[k] - 1]
  }

  /** Absent means zero, and nothing else does. */
  ghost predicate NoZeros<K>(counts: map<K, nat>) {
    forall k :: k in counts ==> counts[k] > 0
  }

  lemma IncrementCounts<K(!new)>(counts: map<K, nat>, k: K)
    requires NoZeros(counts)
    ensures NoZeros(Increment(counts, k))
    ensures forall j :: Count(Increment(counts, k), j) == Count(counts, j) + if j == k then 1 else 0
  {
  }

  lemma DecrementCounts<K(!new)>(counts: map<K, nat>, k: K)
    requires NoZeros(counts) && Count(counts, k) > 0
    ensures NoZeros(Decrement(counts, k))
    ensures forall j :: Count(Decrement(counts, k), j) == Count(counts, j) - if j == k then 1 else 0
  {
  }

  // ---- sizes ----

  lemma Subset<T>(a: set<T>, b: set<T>)
    requires a <= b
    ensures |a| <= |b|
  {
    assert b == a + (b - a);
  }

  lemma UpdateSize<K, V>(m: map<K, V>, k: K, v: V)
    ensures |m[k := v]| == |m| + if k in m then 0 else 1
  {
    assert |m[k := v].Keys| == |m[k := v]| && |m.Keys| == |m|;
    assert m[k := v].Keys == m.Keys + {k};
  }

  lemma RemoveSize<K, V>(m: map<K, V>, k: K)
    ensures |m - {k}| == |m| - if k in m then 1 else 0
  {
    assert |(m - {k}).Keys| == |m - {k}| && |m.Keys| == |m|;
    if k in m {
      assert m.Keys == (m - {k}).Keys + {k};
    } else {
      assert m - {k} == m;
    }
  }

  lemma DifferenceSize<K, V>(m: map<K, V>, s: set<K>)
    ensures |m - s| <= |m|
  {
    assert |(m - s).Keys| == |m - s| && |m.Keys| == |m|;
    assert m.Keys == (m - s).Keys + (m.Keys * s);
  }

  ghost predicate Submap<K, V>(a: map<K, V>, b: map<K, V>) {
    forall k :: k in a ==> k in b && a[k] == b[k]
  }

  lemma SubmapSize<K, V>(a: map<K, V>, b: map<K, V>)
    requires Submap(a, b)
    ensures |a| <= |b|
  {
    assert |a| == |a.Keys| && |b| == |b.Keys|;
    Subset(a.Keys, b.Keys);
  }
}
