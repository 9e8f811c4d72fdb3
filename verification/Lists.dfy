/** Sequence idioms shared by the modules of this project. */
module Lists {

  predicate Distinct<T(==)>(xs: seq<T>) {
    forall i, j :: 0 <= i < j < |xs| ==> xs[i] != xs[j]
  }

  lemma DistinctSnoc<T>(xs: seq<T>, x: T)
    requires Distinct(xs) && x !in xs
    ensures Distinct(xs + [x])
  {
  }

  function Without<T>(xs: seq<T>, i: nat): seq<T>
    requires i < |xs|
  {
    xs[..i] + xs[i + 1..]
  }

  lemma WithoutSplits<T>(xs: seq<T>, i: nat)
    requires i < |xs|
    ensures multiset(Without(xs, i)) == multiset(xs) - multiset{xs[i]}
    ensures multiset(xs) == multiset(Without(xs, i)) + multiset{xs[i]}
  {
    assert xs == xs[..i] + [xs[i]] + xs[i + 1..];
  }

  function Map<A, B>(f: A -> B, xs: seq<A>): (r: seq<B>)
    ensures |r| == |xs|
    ensures forall i :: 0 <= i < |xs| ==> r[i] == f(xs[i])
  {
    seq(|xs|, i requires 0 <= i < |xs| => f(xs[i]))
  }

  lemma MapWithout<A, B>(f: A -> B, xs: seq<A>, i: nat)
    requires i < |xs|
    ensures Map(f, Without(xs, i)) == Without(Map(f, xs), i)
  {
  }

  lemma {:induction false} MapRearranged<A, B>(f: A -> B, xs: seq<A>, ys: seq<A>)
    requires multiset(xs) == multiset(ys)
    ensures multiset(Map(f, xs)) == multiset(Map(f, ys))
    decreases |xs|
  {
    assert |xs| == |multiset(xs)| == |multiset(ys)| == |ys|;
    if xs != [] {
      assert xs[0] in multiset(ys);
      var i :| 0 <= i < |ys| && ys[i] == xs[0];
      WithoutSplits(xs, 0);
      WithoutSplits(ys, i);
      MapRearranged(f, Without(xs, 0), Without(ys, i));
      MapWithout(f, xs, 0);
      MapWithout(f, ys, i);
      WithoutSplits(Map(f, xs), 0);
      WithoutSplits(Map(f, ys), i);
    }
  }

  lemma {:induction false} DistinctCount<T>(xs: seq<T>, x: T)
    requires Distinct(xs)
    ensures multiset(xs)[x] == if x in xs then 1 else 0
  {
    if xs != [] {
      assert xs == [xs[0]] + xs[1..];
      DistinctCount(xs[1..], x);
    }
  }

  /** A sequence is free of repetitions when no element is counted twice. */
  lemma DistinctByCount<T(!new)>(xs: seq<T>)
    requires forall x :: multiset(xs)[x] <= 1
    ensures Distinct(xs)
  {
    forall i, j | 0 <= i < j < |xs| ensures xs[i] != xs[j] { RepetitionCounts(xs, i, j); }
  }

  lemma RepetitionCounts<T>(xs: seq<T>, i: nat, j: nat)
    requires i < j < |xs|
    ensures xs[i] == xs[j] ==> multiset(xs)[xs[i]] >= 2
  {
    assert xs == xs[..i] + [xs[i]] + xs[i + 1..j] + [xs[j]] + xs[j + 1..];
  }

  lemma DistinctRearranged<T(!new)>(xs: seq<T>, ys: seq<T>)
    requires Distinct(xs) && multiset(ys) <= multiset(xs)
    ensures Distinct(ys)
  {
    forall x ensures multiset(ys)[x] <= 1 { DistinctCount(xs, x); }
    DistinctByCount(ys);
  }

  /** What is part of a list stays part of it under a map. */
  lemma {:induction false} MapOfPart<A, B>(f: A -> B, xs: seq<A>, part: seq<A>)
    requires multiset(part) <= multiset(xs)
    ensures multiset(Map(f, part)) <= multiset(Map(f, xs))
    decreases |part|
  {
    if part != [] {
      assert part[0] in multiset(part);
      var i :| 0 <= i < |xs| && xs[i] == part[0];
      WithoutSplits(part, 0);
      WithoutSplits(xs, i);
      MapOfPart(f, Without(xs, i), Without(part, 0));
      MapWithout(f, part, 0);
      MapWithout(f, xs, i);
      WithoutSplits(Map(f, part), 0);
      WithoutSplits(Map(f, xs), i);
    }
  }
}
