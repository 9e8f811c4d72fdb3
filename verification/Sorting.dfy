/** A stable sort by a strict weak order, as `Array.prototype.sort` performs it. */
module Sorting {

  /** Irreflexive, transitive, and with transitive ties. */
  ghost predicate IsOrder<T(!new)>(before: (T, T) -> bool) {
    && (forall a :: !before(a, a))
    && (forall a, b, c :: before(a, b) && before(b, c) ==> before(a, c))
    && (forall a, b, c :: before(a, c) ==> before(a, b) || before(b, c))
  }

  predicate Sorted<T>(xs: seq<T>, before: (T, T) -> bool) {
    forall i, j :: 0 <= i < j < |xs| ==> !before(xs[j], xs[i])
  }

  /** `x` goes in front of the first element that it precedes, hence behind its equals. */
  function Insert<T>(xs: seq<T>, x: T, before: (T, T) -> bool): seq<T> {
    if xs == [] then [x]
    else if before(x, xs[0]) then [x] + xs
    else [xs[0]] + Insert(xs[1..], x, before)
  }

  function StableSort<T>(xs: seq<T>, before: (T, T) -> bool): seq<T> {
    if xs == [] then [] else Insert(StableSort(xs[..|xs| - 1], before), xs[|xs| - 1], before)
  }

  lemma Follows<T(!new)>(a: T, b: T, c: T, before: (T, T) -> bool)
    requires IsOrder(before) && before(b, a) && !before(c, a)
    ensures !before(c, b)
  {
    assert before(c, b) ==> before(c, a);
  }

  lemma {:induction false} InsertIsPermutation<T>(xs: seq<T>, x: T, before: (T, T) -> bool)
    ensures multiset(Insert(xs, x, before)) == multiset(xs) + multiset{x}
  {
    if xs != [] {
      assert xs == [xs[0]] + xs[1..];
      InsertIsPermutation(xs[1..], x, before);
    }
  }

  lemma {:induction false} InsertIsSorted<T(!new)>(xs: seq<T>, x: T, before: (T, T) -> bool)
    requires IsOrder(before) && Sorted(xs, before)
    ensures Sorted(Insert(xs, x, before), before)
  {
    if xs == [] {
    } else if before(x, xs[0]) {
      assert !before(xs[0], xs[0]);
      forall j | 0 <= j < |xs| ensures !before(xs[j], x) { Follows(xs[0], x, xs[j], before); }
      hide IsOrder;
    } else {
      hide IsOrder;
      InsertIsSorted(xs[1..], x, before);
      InsertIsPermutation(xs[1..], x, before);
      var rest := Insert(xs[1..], x, before);
      forall k | 0 <= k < |rest| ensures !before(rest[k], xs[0]) {
        assert rest[k] in multiset(xs[1..]) + multiset{x};
        if rest[k] != x { assert rest[k] in xs[1..]; }
      }
    }
  }

  lemma {:induction false} SortIsSorted<T(!new)>(xs: seq<T>, before: (T, T) -> bool)
    requires IsOrder(before)
    ensures Sorted(StableSort(xs, before), before)
    ensures multiset(StableSort(xs, before)) == multiset(xs)
  {
    if xs != [] {
      SortIsSorted(xs[..|xs| - 1], before);
      InsertIsSorted(StableSort(xs[..|xs| - 1], before), xs[|xs| - 1], before);
      InsertIsPermutation(StableSort(xs[..|xs| - 1], before), xs[|xs| - 1], before);
      assert xs == xs[..|xs| - 1] + [xs[|xs| - 1]];
    }
  }
}
