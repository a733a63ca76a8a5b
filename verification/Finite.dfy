/** Sums over finite maps and facts about sequences without repetitions. */
module Finite {

  // ---- sums over maps ----

  ghost function SumOf<K(!new)>(m: map<K, int>): int
  {
    if m.Keys == {} then 0
    else
      var k :| k in m.Keys;
      m[k] + SumOf(m - {k})
  }

  // The sum does not depend on which key is taken out first.
  lemma {:induction false} SumRemove<K(!new)>(m: map<K, int>, k: K)
    requires k in m
    ensures SumOf(m) == m[k] + SumOf(m - {k})
    decreases |m|
  {
    var k0 :| k0 in m.Keys && SumOf(m) == m[k0] + SumOf(m - {k0});
    if k0 == k {
    } else {
      SumRemove(m - {k0}, k);
      SumRemove(m - {k}, k0);
      assert m - {k0} - {k} == m - {k} - {k0};
    }
  }

  lemma {:induction false} SumInsert<K(!new)>(m: map<K, int>, k: K, v: int)
    ensures SumOf(m[k := v]) == SumOf(m - {k}) + v
  {
    SumRemove(m[k := v], k);
    assert m[k := v] - {k} == m - {k};
  }

  // Replacing the value at a key moves the sum by the difference.
  lemma {:induction false} SumUpdate<K(!new)>(m: map<K, int>, k: K, v: int)
    ensures SumOf(m[k := v]) == SumOf(m) - (if k in m then m[k] else 0) + v
  {
    SumInsert(m, k, v);
    if k in m {
      SumRemove(m, k);
    } else {
      assert m - {k} == m;
    }
  }

  lemma {:induction false} SumBounded<K(!new)>(m: map<K, int>, bound: int)
    requires forall k :: k in m ==> 0 <= m[k] <= bound
    ensures 0 <= SumOf(m) <= |m.Keys| * bound
    decreases |m|
  {
    if m.Keys == {} {
    } else {
      var k :| k in m.Keys && SumOf(m) == m[k] + SumOf(m - {k});
      var rest := m - {k};
      SumBounded(rest, bound);
      assert rest.Keys == m.Keys - {k};
      OneMore(|rest.Keys|, bound);
    }
  }

  lemma {:induction false} OneMore(n: nat, bound: int)
    ensures (n + 1) * bound == n * bound + bound
  {
  }

  // ---- sequences without repetitions ----

  ghost predicate Distinct<T>(s: seq<T>)
  {
    forall i, j :: 0 <= i < j < |s| ==> s[i] != s[j]
  }

  lemma {:induction false} DistinctCount<T>(s: seq<T>, x: T)
    requires Distinct(s)
    ensures multiset(s)[x] <= 1
  {
    if s == [] {
    } else {
      assert s == [s[0]] + s[1..];
      DistinctCount(s[1..], x);
    }
  }

  lemma {:induction false} RepeatCounted<T>(s: seq<T>, i: nat, j: nat)
    requires i < j < |s| && s[i] == s[j]
    ensures multiset(s)[s[i]] >= 2
  {
    assert s == s[..i] + [s[i]] + s[i+1..j] + [s[j]] + s[j+1..];
  }

  // A rearrangement of a sequence without repetitions has none either.
  lemma {:induction false} DistinctPermutation<T>(s: seq<T>, t: seq<T>)
    requires Distinct(s) && multiset(s) == multiset(t)
    ensures Distinct(t)
  {
    if !Distinct(t) {
      var i, j :| 0 <= i < j < |t| && t[i] == t[j];
      RepeatCounted(t, i, j);
      DistinctCount(s, t[i]);
    }
  }

  ghost function Elements<T>(s: seq<T>): set<T>
  {
    set x | x in s
  }

  lemma {:induction false} DistinctCardinality<T>(s: seq<T>)
    requires Distinct(s)
    ensures |Elements(s)| == |s|
  {
    if s == [] {
    } else {
      DistinctCardinality(s[1..]);
      assert Elements(s) == {s[0]} + Elements(s[1..]);
    }
  }
}
