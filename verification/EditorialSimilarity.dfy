/** How similar an enriched draft is to its baseline: bigram overlap and token containment. Numbers
    are reals; the four-digit rounding of the score is explicit. */
module EditorialSimilarity {

  datatype Gram = Single(token: string) | Pair(first: string, second: string)

  /** tokenBigrams: a text of fewer than two tokens is its own list. */
  function Bigrams(tokens: seq<string>): (r: seq<Gram>)
    ensures |tokens| >= 2 ==> |r| == |tokens| - 1
    ensures r == [] <==> tokens == []
  {
    if |tokens| < 2 then seq(|tokens|, i requires 0 <= i < |tokens| => Single(tokens[i]))
    else seq(|tokens| - 1, i requires 0 <= i < |tokens| - 1 => Pair(tokens[i], tokens[i + 1]))
  }

  function TokenSet(tokens: seq<string>): set<string> {
    set token | token in tokens
  }

  const THRESHOLD: real := 0.68

  function Dice(left: seq<Gram>, right: seq<Gram>): real {
    if |left| + |right| == 0 then 0.0
    else (2 * |multiset(left) * multiset(right)|) as real / (|left| + |right|) as real
  }

  function Containment(left: set<string>, right: set<string>): real {
    var smaller := if |left| < |right| then |left| else |right|;
    if smaller == 0 then 0.0 else |left * right| as real / smaller as real
  }

  /** The score before rounding. */
  function RawScore(left: seq<string>, right: seq<string>): real {
    0.75 * Dice(Bigrams(left), Bigrams(right)) + 0.25 * Containment(TokenSet(left), TokenSet(right))
  }

  function Round4(x: real): real {
    (x * 10000.0 + 0.5).Floor as real / 10000.0
  }

  function Score(left: seq<string>, right: seq<string>): real {
    Round4(RawScore(left, right))
  }

  // ---- The fast overlap ----

  lemma OverlapGrows<T>(a: multiset<T>, x: T, b: multiset<T>)
    ensures |(a + multiset{x}) * b| == |a * b| + (if a[x] < b[x] then 1 else 0)
  {
    if a[x] < b[x] {
      assert (a + multiset{x}) * b == a * b + multiset{x};
    } else {
      assert (a + multiset{x}) * b == a * b;
    }
  }

  function Count<T>(counts: map<T, nat>, x: T): nat {
    if x in counts then counts[x] else 0
  }

  method CountItems<T(==)>(items: seq<T>) returns (counts: map<T, nat>)
    ensures forall x :: Count(counts, x) == multiset(items)[x]
  {
    counts := map[];
    for i := 0 to |items|
      invariant forall x :: Count(counts, x) == multiset(items[..i])[x]
    {
      assert items[..i + 1] == items[..i] + [items[i]];
      counts := counts[items[i] := Count(counts, items[i]) + 1];
    }
    assert items[..|items|] == items;
  }

  /** Each count says how often an item may still be met. */
  ghost predicate Remaining<T(!new)>(counts: map<T, nat>, met: multiset<T>, all: multiset<T>) {
    forall x :: Count(counts, x) == if met[x] < all[x] then all[x] - met[x] else 0
  }

  lemma MeetOne<T(!new)>(counts: map<T, nat>, met: multiset<T>, item: T, all: multiset<T>)
    requires Remaining(counts, met, all)
    ensures Count(counts, item) > 0 <==> met[item] < all[item]
    ensures Remaining(if Count(counts, item) > 0 then counts[item := Count(counts, item) - 1] else counts, met + multiset{item}, all)
  {
  }

  lemma NothingMet<T(!new)>(counts: map<T, nat>, all: multiset<T>)
    requires forall x :: Count(counts, x) == all[x]
    ensures Remaining(counts, multiset{}, all) && multiset{} * all == multiset{}
  {
  }

  /** multisetOverlap: one pass over each list gives the size of the multiset intersection. */
  method MultisetOverlap<T(==,!new)>(left: seq<T>, right: seq<T>) returns (overlap: nat)
    ensures overlap == |multiset(left) * multiset(right)|
  {
    hide Remaining;
    var rightCounts := CountItems(right);
    overlap := 0;
    NothingMet(rightCounts, multiset(right));
    assert multiset(left[..0]) == multiset{};
    for i := 0 to |left|
      invariant overlap == |multiset(left[..i]) * multiset(right)|
      invariant Remaining(rightCounts, multiset(left[..i]), multiset(right))
    {
      var item := left[i];
      assert left[..i + 1] == left[..i] + [item];
      OverlapGrows(multiset(left[..i]), item, multiset(right));
      MeetOne(rightCounts, multiset(left[..i]), item, multiset(right));
      var count := Count(rightCounts, item);
      if count > 0 {
        overlap := overlap + 1;
        rightCounts := rightCounts[item := count - 1];
      }
    }
    assert left[..|left|] == left;
  }

  /** measureEditorialSimilarity: the score, and whether it reaches the threshold. */
  method MeasureSimilarity(baseline: seq<string>, enriched: seq<string>) returns (score: real, tooSimilar: bool)
    ensures score == Score(baseline, enriched) && tooSimilar == (score >= THRESHOLD)
  {
    var left, right := Bigrams(baseline), Bigrams(enriched);
    var overlap := MultisetOverlap(left, right);
    var dice := if |left| + |right| == 0 then 0.0 else (2 * overlap) as real / (|left| + |right|) as real;
    var containment := Containment(TokenSet(baseline), TokenSet(enriched));
    score := Round4(0.75 * dice + 0.25 * containment);
    tooSimilar := score >= THRESHOLD;
  }

  // ---- What the score means ----

  /** A fraction of non-negative integers is at most one, and is one exactly when both are equal. */
  lemma FractionIsBounded(part: nat, whole: nat)
    requires part <= whole && whole > 0
    ensures 0.0 <= part as real / whole as real <= 1.0
    ensures part as real / whole as real == 1.0 <==> part == whole
  {
    var q := part as real / whole as real;
    assert q * whole as real == part as real;
  }

  lemma OverlapIsBounded<T>(a: multiset<T>, b: multiset<T>)
    ensures |a * b| <= |a| && |a * b| <= |b|
    ensures |a * b| == |a| == |b| <==> a == b
  {
    assert a == a * b + (a - b);
    assert b == a * b + (b - a);
    assert a == b ==> a * b == a;
    if |a * b| == |a| == |b| {
      assert a - b == multiset{} && b - a == multiset{};
    }
  }

  lemma DiceIsBounded(left: seq<Gram>, right: seq<Gram>)
    ensures 0.0 <= Dice(left, right) <= 1.0
    ensures Dice(left, right) == 1.0 <==> left != [] && multiset(left) == multiset(right)
  {
    OverlapIsBounded(multiset(left), multiset(right));
    if |left| + |right| > 0 {
      FractionIsBounded(2 * |multiset(left) * multiset(right)|, |left| + |right|);
      if multiset(left) == multiset(right) { assert |multiset(left)| == |multiset(right)|; }
    }
  }

  lemma SubsetSizes<T>(a: set<T>, b: set<T>)
    ensures |a * b| <= |a| && |a * b| <= |b|
    ensures |a * b| == |a| <==> a <= b
    ensures |a * b| == |b| <==> b <= a
  {
    assert a == a * b + (a - b);
    assert b == a * b + (b - a);
    if a <= b { assert a * b == a; }
    if b <= a { assert a * b == b; }
  }

  lemma ContainmentIsBounded(left: set<string>, right: set<string>)
    ensures 0.0 <= Containment(left, right) <= 1.0
    ensures Containment(left, right) == 1.0 <==> left != {} && right != {} && (if |left| < |right| then left <= right else right <= left)
  {
    SubsetSizes(left, right);
    var smaller := if |left| < |right| then |left| else |right|;
    if smaller > 0 { FractionIsBounded(|left * right|, smaller); }
  }

  lemma NonEmptyTokens(tokens: seq<string>)
    ensures TokenSet(tokens) == {} <==> tokens == []
  {
    if tokens != [] { assert tokens[0] in TokenSet(tokens); }
  }

  /** The raw score lies between 0 and 1, and is 1 exactly when both drafts have the same multiset of
      bigrams and the smaller set of tokens is part of the larger one. */
  lemma RawScoreIsExact(left: seq<string>, right: seq<string>)
    ensures 0.0 <= RawScore(left, right) <= 1.0
    ensures RawScore(left, right) == 1.0 <==>
      && left != [] && multiset(Bigrams(left)) == multiset(Bigrams(right))
      && (if |TokenSet(left)| < |TokenSet(right)| then TokenSet(left) <= TokenSet(right) else TokenSet(right) <= TokenSet(left))
  {
    DiceIsBounded(Bigrams(left), Bigrams(right));
    ContainmentIsBounded(TokenSet(left), TokenSet(right));
    NonEmptyTokens(left);
    NonEmptyTokens(right);
    if left != [] && multiset(Bigrams(left)) == multiset(Bigrams(right)) {
      assert |multiset(Bigrams(left))| == |multiset(Bigrams(right))|;
    }
  }

  /** It does not matter which draft comes first. */
  lemma ScoreIsSymmetric(left: seq<string>, right: seq<string>)
    ensures RawScore(left, right) == RawScore(right, left) && Score(left, right) == Score(right, left)
  {
    assert multiset(Bigrams(left)) * multiset(Bigrams(right)) == multiset(Bigrams(right)) * multiset(Bigrams(left));
    assert TokenSet(left) * TokenSet(right) == TokenSet(right) * TokenSet(left);
  }

  /** A draft that repeats a non-empty baseline scores 1. */
  lemma IdenticalDraftsScoreOne(tokens: seq<string>)
    requires tokens != []
    ensures Score(tokens, tokens) == 1.0
  {
    RawScoreIsExact(tokens, tokens);
  }

  /** The rounded score lies between 0 and 1 too, and the rounding moves the threshold by half a step. */
  lemma RoundingIsExact(left: seq<string>, right: seq<string>)
    ensures 0.0 <= Score(left, right) <= 1.0
    ensures Score(left, right) >= THRESHOLD <==> RawScore(left, right) >= 0.67995
    ensures Score(left, right) == 1.0 <==> RawScore(left, right) >= 0.99995
  {
    RawScoreIsExact(left, right);
    RoundReaches(RawScore(left, right), 0);
    RoundReaches(RawScore(left, right), 6800);
    RoundReaches(RawScore(left, right), 10000);
    RoundReaches(RawScore(left, right), 10001);
    RoundIsAStep(RawScore(left, right));
    hide RawScore, Round4;
  }

  lemma RoundReaches(x: real, k: int)
    ensures Round4(x) >= k as real / 10000.0 <==> x * 10000.0 + 0.5 >= k as real
  {
    var steps := (x * 10000.0 + 0.5).Floor;
    assert Round4(x) * 10000.0 == steps as real;
    assert k as real / 10000.0 * 10000.0 == k as real;
    assert steps >= k <==> x * 10000.0 + 0.5 >= k as real;
  }

  lemma RoundIsAStep(x: real)
    ensures Round4(x) > 1.0 ==> Round4(x) >= 10001.0 / 10000.0
  {
    var steps := (x * 10000.0 + 0.5).Floor;
    assert Round4(x) * 10000.0 == steps as real;
  }
}
