/** Concatenating, mapping and picking over sequences. */
module Sequences {

  function Flatten<T>(parts: seq<seq<T>>): seq<T>
  {
    if parts == [] then [] else Flatten(parts[..|parts|-1]) + parts[|parts|-1]
  }

  lemma {:induction false} FlattenNone<T>()
    ensures forall parts: seq<seq<T>> :: parts == [] ==> Flatten(parts) == []
  {
  }

  lemma {:induction false} FlattenAppend<T>(parts: seq<seq<T>>, part: seq<T>)
    ensures Flatten(parts + [part]) == Flatten(parts) + part
  {
    assert (parts + [part])[..|parts|] == parts;
  }

  lemma {:induction false} FlattenFirst<T>(parts: seq<seq<T>>)
    requires parts != []
    ensures Flatten(parts) == parts[0] + Flatten(parts[1..])
  {
    if |parts| == 1 {
      assert parts[..0] == [] && parts[1..] == [];
    } else {
      var front := parts[..|parts|-1];
      FlattenFirst(front);
      assert parts[1..][..|parts|-2] == front[1..];
      assert parts[0] + (Flatten(front[1..]) + parts[|parts|-1]) == parts[0] + Flatten(front[1..]) + parts[|parts|-1];
    }
  }

  lemma {:induction false} FlattenConcat<T>(a: seq<seq<T>>, b: seq<seq<T>>)
    ensures Flatten(a + b) == Flatten(a) + Flatten(b)
  {
    if b == [] {
      assert a + b == a;
    } else {
      var b' := b[..|b|-1];
      FlattenConcat(a, b');
      assert (a + b)[..|a + b|-1] == a + b';
      assert Flatten(a) + (Flatten(b') + b[|b|-1]) == Flatten(a) + Flatten(b') + b[|b|-1];
    }
  }

  // What f makes of every element, put together in order.
  function Collect<T, U>(f: T -> seq<U>, xs: seq<T>): seq<U>
  {
    if xs == [] then [] else Collect(f, xs[..|xs|-1]) + f(xs[|xs|-1])
  }

  lemma {:induction false} CollectLast<T, U>(f: T -> seq<U>, xs: seq<T>, x: T)
    ensures Collect(f, xs + [x]) == Collect(f, xs) + f(x)
  {
    assert (xs + [x])[..|xs|] == xs;
  }

  lemma {:induction false} CollectAppend<T, U>(f: T -> seq<U>, a: seq<T>, b: seq<T>)
    ensures Collect(f, a + b) == Collect(f, a) + Collect(f, b)
  {
    if b == [] {
      assert a + b == a;
    } else {
      var b' := b[..|b|-1];
      CollectAppend(f, a, b');
      assert (a + b)[..|a + b|-1] == a + b';
      assert Collect(f, a) + (Collect(f, b') + f(b[|b|-1])) == Collect(f, a) + Collect(f, b') + f(b[|b|-1]);
    }
  }

  function Mapped<T, U>(g: T -> U, xs: seq<T>): seq<U>
  {
    if xs == [] then [] else Mapped(g, xs[..|xs|-1]) + [g(xs[|xs|-1])]
  }

  // The elements at the positions up to pick.
  function Picked<T>(xs: seq<T>, pick: nat -> bool): seq<T>
  {
    if xs == [] then []
    else Picked(xs[..|xs|-1], pick) + (if pick(|xs| - 1) then [xs[|xs|-1]] else [])
  }

  lemma {:induction false} MappedLast<T, U>(g: T -> U, xs: seq<T>, x: T)
    ensures Mapped(g, xs + [x]) == Mapped(g, xs) + [g(x)]
  {
    assert (xs + [x])[..|xs|] == xs;
  }

  lemma {:induction false} MappedCount<T, U>(g: T -> U, xs: seq<T>)
    ensures |Mapped(g, xs)| == |xs|
  {
    if xs == [] {
    } else {
      MappedCount(g, xs[..|xs|-1]);
    }
  }

  lemma {:induction false} MappedAt<T, U>(g: T -> U, xs: seq<T>)
    ensures |Mapped(g, xs)| == |xs| && forall i :: 0 <= i < |xs| ==> Mapped(g, xs)[i] == g(xs[i])
  {
    if xs == [] {
    } else {
      MappedAt(g, xs[..|xs|-1]);
    }
  }

  lemma {:induction false} MappedAppend<T, U>(g: T -> U, a: seq<T>, b: seq<T>)
    ensures Mapped(g, a + b) == Mapped(g, a) + Mapped(g, b)
  {
    if b == [] {
      assert a + b == a;
    } else {
      MappedAppend(g, a, b[..|b|-1]);
      assert (a + b)[..|a + b|-1] == a + b[..|b|-1];
    }
  }

  lemma {:induction false} PickedLast<T>(xs: seq<T>, x: T, pick: nat -> bool)
    ensures Picked(xs + [x], pick) == Picked(xs, pick) + if pick(|xs|) then [x] else []
  {
    assert (xs + [x])[..|xs|] == xs;
  }

  lemma {:induction false} AllPicked<T>(xs: seq<T>, pick: nat -> bool)
    requires forall k :: 0 <= k < |xs| ==> pick(k)
    ensures Picked(xs, pick) == xs
  {
    if xs == [] {
    } else {
      AllPicked(xs[..|xs|-1], pick);
    }
  }

  // Picking commutes with mapping.
  lemma {:induction false} PickedMapped<T, U>(g: T -> U, xs: seq<T>, pick: nat -> bool)
    ensures Picked(Mapped(g, xs), pick) == Mapped(g, Picked(xs, pick))
  {
    if xs == [] {
    } else {
      var front, last := xs[..|xs|-1], xs[|xs|-1];
      PickedMapped(g, front, pick);
      MappedCount(g, front);
      PickedLast(Mapped(g, front), g(last), pick);
      MappedLast(g, Picked(front, pick), last);
      if !pick(|front|) {
        assert Picked(xs, pick) == Picked(front, pick);
      }
    }
  }

  lemma {:induction false} CollectMapped<T(!new), U, V>(f: U -> seq<V>, g: T -> U, h: T -> seq<V>, xs: seq<T>)
    requires forall x :: f(g(x)) == h(x)
    ensures Collect(f, Mapped(g, xs)) == Collect(h, xs)
  {
    if xs == [] {
    } else {
      var front := xs[..|xs|-1];
      CollectMapped(f, g, h, front);
      CollectLast(f, Mapped(g, front), g(xs[|xs|-1]));
    }
  }

  lemma {:induction false} CollectParts<T(!new)>(h: seq<T> -> seq<T>, parts: seq<seq<T>>)
    ensures (forall part :: h(part) == part) ==> Collect(h, parts) == Flatten(parts)
    ensures (forall part :: h(part) == []) ==> Collect(h, parts) == []
  {
    if parts == [] {
    } else {
      CollectParts(h, parts[..|parts|-1]);
    }
  }

  // What holds of every prefix, and of the sequence one longer, holds of its prefixes too.
  lemma {:induction false} PrefixesExtend<T(!new)>(p: seq<T> -> bool, xs: seq<T>, x: T)
    requires p(xs + [x]) && forall k :: 0 <= k <= |xs| ==> p(xs[..k])
    ensures forall k :: 0 <= k <= |xs + [x]| ==> p((xs + [x])[..k])
  {
    var longer := xs + [x];
    assert longer[..|longer|] == longer;
    assert forall k :: 0 <= k <= |xs| ==> longer[..k] == xs[..k];
  }
}
