/** Byte-wise string order, and sorting by a strict weak order. */
module Ordering {
  import opened Finite

  predicate Less(a: string, b: string)
  {
    if b == [] then false
    else if a == [] then true
    else a[0] < b[0] || (a[0] == b[0] && Less(a[1..], b[1..]))
  }

  lemma {:induction false} LessTransitive(a: string, b: string, c: string)
    requires Less(a, b) && Less(b, c)
    ensures Less(a, c)
  {
    if a == [] || a[0] != b[0] || b[0] != c[0] {
    } else {
      LessTransitive(a[1..], b[1..], c[1..]);
    }
  }

  lemma {:induction false} LessIrreflexive(a: string)
    ensures !Less(a, a)
  {
    if a == [] {
    } else {
      LessIrreflexive(a[1..]);
    }
  }

  lemma {:induction false} LessTotal(a: string, b: string)
    ensures Less(a, b) || a == b || Less(b, a)
  {
    if a == [] || b == [] || a[0] != b[0] {
    } else {
      LessTotal(a[1..], b[1..]);
      assert a == [a[0]] + a[1..] && b == [b[0]] + b[1..];
    }
  }

  lemma {:induction false} LessAsymmetric(a: string, b: string)
    requires Less(a, b)
    ensures !Less(b, a)
  {
    if Less(b, a) {
      LessTransitive(a, b, a);
      LessIrreflexive(a);
    }
  }

  /** What a comparator must satisfy for sorting to make sense: a strict weak order. */
  ghost predicate StrictWeakOrder<T(!new)>(less: (T, T) -> bool)
  {
    && (forall x, y :: less(x, y) ==> !less(y, x))
    && (forall x, y, z :: less(x, z) ==> less(x, y) || less(y, z))
  }

  ghost predicate SortedBy<T>(s: seq<T>, less: (T, T) -> bool)
  {
    forall i, j :: 0 <= i < j < |s| ==> !less(s[j], s[i])
  }

  lemma {:induction false} NameOrderIsStrict()
    ensures StrictWeakOrder(Less)
  {
    forall x, y | Less(x, y)
      ensures !Less(y, x)
    {
      LessAsymmetric(x, y);
    }
    forall x, y, z | Less(x, z)
      ensures Less(x, y) || Less(y, z)
    {
      LessTotal(x, y);
      if Less(y, x) {
        LessTransitive(y, x, z);
      }
    }
  }

  /** Moves left from the end past every element that x is less than. */
  method InsertionPoint<T(!new)>(r: seq<T>, x: T, less: (T, T) -> bool) returns (at: nat)
    requires StrictWeakOrder(less) && SortedBy(r, less)
    ensures at <= |r|
    ensures forall k :: at <= k < |r| ==> less(x, r[k])
    ensures forall k :: 0 <= k < at ==> !less(x, r[k])
  {
    at := |r|;
    while at > 0 && less(x, r[at-1])
      invariant 0 <= at <= |r|
      invariant forall k :: at <= k < |r| ==> less(x, r[k])
    {
      at := at - 1;
    }
    forall k | 0 <= k < at
      ensures !less(x, r[k])
    {
      assert k < at - 1 ==> !less(r[at-1], r[k]);
    }
  }

  lemma {:induction false} InsertKeepsOrder<T(!new)>(r: seq<T>, at: nat, x: T, less: (T, T) -> bool)
    requires StrictWeakOrder(less) && SortedBy(r, less) && at <= |r|
    requires forall k :: at <= k < |r| ==> less(x, r[k])
    requires forall k :: 0 <= k < at ==> !less(x, r[k])
    ensures SortedBy(r[..at] + [x] + r[at..], less)
  {
  }

  lemma {:induction false} InsertKeepsElements<T>(r: seq<T>, at: nat, x: T)
    requires at <= |r|
    ensures multiset(r[..at] + [x] + r[at..]) == multiset(r) + multiset{x}
  {
    assert r == r[..at] + r[at..];
  }

  // ---- stability ----

  predicate Tied<T>(x: T, y: T, less: (T, T) -> bool) {
    !less(x, y) && !less(y, x)
  }

  // The elements that tie with x, in their order.
  function Ties<T>(s: seq<T>, x: T, less: (T, T) -> bool): seq<T>
  {
    if s == [] then [] else (if Tied(s[0], x, less) then [s[0]] else []) + Ties(s[1..], x, less)
  }

  lemma {:induction false} TiesAppend<T>(a: seq<T>, b: seq<T>, x: T, less: (T, T) -> bool)
    ensures Ties(a + b, x, less) == Ties(a, x, less) + Ties(b, x, less)
  {
    if a == [] {
      assert a + b == b;
    } else {
      TiesAppend(a[1..], b, x, less);
      var head := if Tied(a[0], x, less) then [a[0]] else [];
      assert (a + b)[1..] == a[1..] + b;
      assert head + (Ties(a[1..], x, less) + Ties(b, x, less)) == head + Ties(a[1..], x, less) + Ties(b, x, less);
    }
  }

  lemma {:induction false} NoTies<T>(s: seq<T>, x: T, less: (T, T) -> bool)
    requires forall k :: 0 <= k < |s| ==> !Tied(s[k], x, less)
    ensures Ties(s, x, less) == []
  {
    if s == [] {
    } else {
      NoTies(s[1..], x, less);
    }
  }

  // The inserted element lands behind all its ties, as if it had been appended.
  lemma {:induction false} InsertKeepsTies<T(!new)>(r: seq<T>, at: nat, x: T, c: T, less: (T, T) -> bool)
    requires StrictWeakOrder(less) && at <= |r| && forall k :: at <= k < |r| ==> less(x, r[k])
    ensures Ties(r[..at] + [x] + r[at..], c, less) == Ties(r + [x], c, less)
  {
    var front, back := r[..at], r[at..];
    TiesAppend(front + [x], back, c, less);
    TiesAppend(front, [x], c, less);
    TiesAppend(r, [x], c, less);
    TiesAppend(front, back, c, less);
    assert r == front + back;
    if Tied(x, c, less) {
      NoTies(back, c, less);
    }
  }

  /** Insertion sort; an element never passes one it is not less than, so tied elements keep their order. */
  method SliceStable<T(!new)>(s: seq<T>, less: (T, T) -> bool) returns (r: seq<T>)
    requires StrictWeakOrder(less)
    ensures multiset(r) == multiset(s)
    ensures SortedBy(r, less)
    ensures forall x :: Ties(r, x, less) == Ties(s, x, less)
  {
    r := [];
    for n := 0 to |s|
      invariant multiset(r) == multiset(s[..n])
      invariant SortedBy(r, less)
      invariant forall x :: Ties(r, x, less) == Ties(s[..n], x, less)
    {
      r := InsertNext(r, s[..n], s[n], less);
      assert s[..n+1] == s[..n] + [s[n]];
    }
    assert s[..|s|] == s;
  }

  method InsertNext<T(!new)>(r: seq<T>, ghost read: seq<T>, x: T, less: (T, T) -> bool) returns (r': seq<T>)
    requires StrictWeakOrder(less) && SortedBy(r, less)
    requires multiset(r) == multiset(read) && forall c :: Ties(r, c, less) == Ties(read, c, less)
    ensures SortedBy(r', less)
    ensures multiset(r') == multiset(read + [x]) && forall c :: Ties(r', c, less) == Ties(read + [x], c, less)
  {
    var at := InsertionPoint(r, x, less);
    InsertKeepsOrder(r, at, x, less);
    InsertKeepsElements(r, at, x);
    forall c
      ensures Ties(r[..at] + [x] + r[at..], c, less) == Ties(read + [x], c, less)
    {
      InsertKeepsTies(r, at, x, c, less);
      TiesAppend(r, [x], c, less);
      TiesAppend(read, [x], c, less);
    }
    r' := r[..at] + [x] + r[at..];
  }

  /** Lists a set in order. */
  method SortedElements<T(!new)>(elements: set<T>, less: (T, T) -> bool) returns (r: seq<T>)
    requires StrictWeakOrder(less)
    ensures Distinct(r) && SortedBy(r, less)
    ensures forall x :: x in r <==> x in elements
  {
    var collected: seq<T> := [];
    var rest := elements;
    while rest != {}
      invariant rest <= elements
      invariant Distinct(collected)
      invariant forall x :: x in collected <==> x in elements && x !in rest
    {
      var x :| x in rest;
      collected := collected + [x];
      rest := rest - {x};
    }
    r := SliceStable(collected, less);
    DistinctPermutation(collected, r);
    forall x
      ensures x in r <==> x in collected
    {
      assert x in r <==> x in multiset(r);
      assert x in collected <==> x in multiset(collected);
    }
  }
}
