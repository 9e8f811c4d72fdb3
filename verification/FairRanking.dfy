/** The deterministic ranking that replaces the model's when the model fails: the best candidates
    first, dealt out fairly among their publishers. */
module FairRanking {
  import opened Lists
  import opened Sorting
  import opened Wrappers

  /** `publisher` is the publisher key: trimmed and in lower case. */
  datatype Candidate = Candidate(url: string, publisher: string, score: Option<real>, reliability: Option<real>, publishedAt: Option<int>)

  function Finite(value: Option<real>, fallback: real): real {
    match value
    case None => fallback
    case Some(x) => x
  }

  function Timestamp(candidate: Candidate): int {
    match candidate.publishedAt
    case None => 0
    case Some(t) => t
  }

  /** Higher score first, then higher reliability, then later, then by URL as `collate` orders URLs. */
  predicate Better(a: Candidate, b: Candidate, collate: string -> int) {
    if Finite(a.score, 0.0) != Finite(b.score, 0.0) then Finite(a.score, 0.0) > Finite(b.score, 0.0)
    else if Finite(a.reliability, 50.0) != Finite(b.reliability, 50.0) then Finite(a.reliability, 50.0) > Finite(b.reliability, 50.0)
    else if Timestamp(a) != Timestamp(b) then Timestamp(a) > Timestamp(b)
    else collate(a.url) < collate(b.url)
  }

  function BetterBy(collate: string -> int): (Candidate, Candidate) -> bool {
    (a: Candidate, b: Candidate) => Better(a, b, collate)
  }

  lemma BetterIsAnOrder(collate: string -> int)
    ensures IsOrder(BetterBy(collate))
  {
  }

  /** The candidates of one publisher, in order. */
  function Of(candidates: seq<Candidate>, publisher: string): seq<Candidate> {
    if candidates == [] then []
    else
      var last := candidates[|candidates| - 1];
      Of(candidates[..|candidates| - 1], publisher) + (if last.publisher == publisher then [last] else [])
  }

  lemma OfSnoc(candidates: seq<Candidate>, last: Candidate, publisher: string)
    ensures Of(candidates + [last], publisher) == Of(candidates, publisher) + (if last.publisher == publisher then [last] else [])
  {
    assert (candidates + [last])[..|candidates|] == candidates;
  }

  /** Lists that agree on every publisher are permutations of each other. */
  lemma SameByPublisher(xs: seq<Candidate>, ys: seq<Candidate>)
    requires forall publisher :: Of(xs, publisher) == Of(ys, publisher)
    ensures multiset(xs) == multiset(ys)
  {
    forall c: Candidate ensures multiset(xs)[c] == multiset(ys)[c] {
      CountOf(xs, c);
      CountOf(ys, c);
    }
  }

  lemma {:induction false} CountOf(xs: seq<Candidate>, c: Candidate)
    ensures multiset(xs)[c] == multiset(Of(xs, c.publisher))[c]
  {
    if xs != [] {
      CountOf(xs[..|xs| - 1], c);
      assert xs == xs[..|xs| - 1] + [xs[|xs| - 1]];
    }
  }

  /** Buckets in the order in which their publishers first appear. */
  predicate IsGrouping(keys: seq<string>, buckets: seq<seq<Candidate>>, candidates: seq<Candidate>) {
    && |keys| == |buckets| && Distinct(keys)
    && (forall b :: 0 <= b < |keys| ==> buckets[b] == Of(candidates, keys[b]) && buckets[b] != [])
    && (forall c :: 0 <= c < |candidates| ==> candidates[c].publisher in keys)
  }

  /** The publishers in the order of their first candidates. */
  function FirstSeen(candidates: seq<Candidate>): seq<string> {
    if candidates == [] then []
    else
      var before, last := FirstSeen(candidates[..|candidates| - 1]), candidates[|candidates| - 1].publisher;
      if last in before then before else before + [last]
  }

  lemma BucketGrows(keys: seq<string>, buckets: seq<seq<Candidate>>, candidates: seq<Candidate>, candidate: Candidate, b: nat)
    requires IsGrouping(keys, buckets, candidates) && b < |keys| && keys[b] == candidate.publisher
    ensures IsGrouping(keys, buckets[b := buckets[b] + [candidate]], candidates + [candidate])
  {
    hide Of;
    forall publisher { OfSnoc(candidates, candidate, publisher); }
  }

  lemma BucketOpens(keys: seq<string>, buckets: seq<seq<Candidate>>, candidates: seq<Candidate>, candidate: Candidate)
    requires IsGrouping(keys, buckets, candidates) && candidate.publisher !in keys
    ensures IsGrouping(keys + [candidate.publisher], buckets + [[candidate]], candidates + [candidate])
  {
    hide Of;
    NoneOf(candidates, keys, candidate.publisher);
    forall publisher { OfSnoc(candidates, candidate, publisher); }
    DistinctSnoc(keys, candidate.publisher);
    assert (keys + [candidate.publisher])[|keys|] == candidate.publisher;
  }

  method Group(candidates: seq<Candidate>) returns (keys: seq<string>, buckets: seq<seq<Candidate>>)
    ensures keys == FirstSeen(candidates) && IsGrouping(keys, buckets, candidates)
  {
    keys, buckets := [], [];
    assert IsGrouping(keys, buckets, candidates[..0]);
    hide IsGrouping, Of, Distinct;
    for c := 0 to |candidates|
      invariant keys == FirstSeen(candidates[..c]) && IsGrouping(keys, buckets, candidates[..c])
    {
      var candidate := candidates[c];
      assert candidates[..c + 1] == candidates[..c] + [candidate];
      assert candidates[..c + 1][..c] == candidates[..c];
      var b := IndexOf(keys, candidate.publisher);
      if b < |keys| {
        BucketGrows(keys, buckets, candidates[..c], candidate, b);
        buckets := buckets[b := buckets[b] + [candidate]];
      } else {
        BucketOpens(keys, buckets, candidates[..c], candidate);
        keys, buckets := keys + [candidate.publisher], buckets + [[candidate]];
      }
    }
    assert candidates[..|candidates|] == candidates;
  }

  /** The ranking takes, round by round, the next candidate of each publisher in the order in which the
      publishers first appear, until every bucket is used up. */
  ghost predicate DealtOut(ranked: seq<Candidate>, sorted: seq<Candidate>) {
    exists buckets, rounds ::
      && IsGrouping(FirstSeen(sorted), buckets, sorted)
      && (forall b :: 0 <= b < |buckets| ==> |buckets[b]| <= rounds)
      && ranked == Taken(buckets, rounds, 0)
  }

  method IndexOf(keys: seq<string>, key: string) returns (b: nat)
    ensures b <= |keys| && key !in keys[..b]
    ensures b < |keys| ==> keys[b] == key
  {
    b := 0;
    while b < |keys| && keys[b] != key
      invariant b <= |keys| && key !in keys[..b]
    {
      b := b + 1;
    }
  }

  lemma {:induction false} NoneOf(candidates: seq<Candidate>, keys: seq<string>, key: string)
    requires forall c :: 0 <= c < |candidates| ==> candidates[c].publisher in keys
    requires key !in keys
    ensures Of(candidates, key) == []
  {
    if candidates != [] {
      assert candidates[|candidates| - 1].publisher in keys;
      NoneOf(candidates[..|candidates| - 1], keys, key);
    }
  }

  /** What has been taken after `offset` whole rounds and the first `b` buckets of the next one. */
  function Taken(buckets: seq<seq<Candidate>>, offset: nat, b: nat): seq<Candidate>
    requires b <= |buckets|
    decreases offset, b
  {
    if b > 0 then Taken(buckets, offset, b - 1) + (if offset < |buckets[b - 1]| then [buckets[b - 1][offset]] else [])
    else if offset > 0 then Taken(buckets, offset - 1, |buckets|)
    else []
  }

  /** How many items the rounds have taken from bucket `i`. */
  function Share(buckets: seq<seq<Candidate>>, offset: nat, b: nat, i: nat): nat
    requires i < |buckets|
  {
    var rounds := offset + (if i < b then 1 else 0);
    if rounds < |buckets[i]| then rounds else |buckets[i]|
  }

  predicate Labelled(keys: seq<string>, buckets: seq<seq<Candidate>>) {
    && |keys| == |buckets| && Distinct(keys)
    && forall i, k :: 0 <= i < |buckets| && 0 <= k < |buckets[i]| ==> buckets[i][k].publisher == keys[i]
  }

  lemma {:induction false} OfIsLabelled(candidates: seq<Candidate>, publisher: string)
    ensures forall k :: 0 <= k < |Of(candidates, publisher)| ==> Of(candidates, publisher)[k].publisher == publisher
  {
    if candidates != [] { OfIsLabelled(candidates[..|candidates| - 1], publisher); }
  }

  /** Each publisher's part of what has been taken is the head of its bucket. */
  lemma {:induction false} TakenIsFair(keys: seq<string>, buckets: seq<seq<Candidate>>, offset: nat, b: nat, i: nat)
    requires Labelled(keys, buckets) && b <= |buckets| && i < |buckets|
    ensures Of(Taken(buckets, offset, b), keys[i]) == buckets[i][..Share(buckets, offset, b, i)]
    decreases offset, b
  {
    hide Of;
    TakenOfNothing(buckets, keys[i]);
    if b > 0 {
      TakenIsFair(keys, buckets, offset, b - 1, i);
      if offset < |buckets[b - 1]| {
        TakingOne(keys, buckets, Taken(buckets, offset, b - 1), offset, b - 1, i);
      } else {
        assert Taken(buckets, offset, b) == Taken(buckets, offset, b - 1);
      }
    } else if offset > 0 {
      TakenIsFair(keys, buckets, offset - 1, |buckets|, i);
    }
  }

  lemma TakenOfNothing(buckets: seq<seq<Candidate>>, key: string)
    ensures Of(Taken(buckets, 0, 0), key) == []
  {
  }

  lemma TakingOne(keys: seq<string>, buckets: seq<seq<Candidate>>, taken: seq<Candidate>, offset: nat, b: nat, i: nat)
    requires Labelled(keys, buckets) && b < |buckets| && i < |buckets| && offset < |buckets[b]|
    requires Of(taken, keys[i]) == buckets[i][..Share(buckets, offset, b, i)]
    ensures Of(taken + [buckets[b][offset]], keys[i]) == buckets[i][..Share(buckets, offset, b + 1, i)]
  {
    OfSnoc(taken, buckets[b][offset], keys[i]);
    assert buckets[b][offset].publisher == keys[b];
    if i == b {
      assert buckets[i][..offset + 1] == buckets[i][..offset] + [buckets[i][offset]];
    } else {
      assert keys[b] != keys[i];
    }
  }

  lemma {:induction false} TakenHasKnownPublishers(keys: seq<string>, buckets: seq<seq<Candidate>>, offset: nat, b: nat)
    requires Labelled(keys, buckets) && b <= |buckets|
    ensures forall k :: 0 <= k < |Taken(buckets, offset, b)| ==> Taken(buckets, offset, b)[k].publisher in keys
    decreases offset, b
  {
    if b > 0 {
      TakenHasKnownPublishers(keys, buckets, offset, b - 1);
      if offset < |buckets[b - 1]| { assert buckets[b - 1][offset].publisher == keys[b - 1]; }
    } else if offset > 0 {
      TakenHasKnownPublishers(keys, buckets, offset - 1, |buckets|);
    }
  }

  /** Every prefix of what has been taken is itself the result of some number of rounds. */
  lemma {:induction false} PrefixOfTaken(buckets: seq<seq<Candidate>>, offset: nat, b: nat, k: nat) returns (o: nat, j: nat)
    requires b <= |buckets| && k <= |Taken(buckets, offset, b)|
    ensures j <= |buckets| && Taken(buckets, o, j) == Taken(buckets, offset, b)[..k]
    decreases offset, b
  {
    if k == |Taken(buckets, offset, b)| {
      o, j := offset, b;
    } else if b > 0 {
      o, j := PrefixOfTaken(buckets, offset, b - 1, k);
    } else {
      o, j := PrefixOfTaken(buckets, offset - 1, |buckets|, k);
    }
  }

  /** In every prefix, a publisher is at most one item ahead of any other that is not exhausted. */
  predicate Fair(ranked: seq<Candidate>) {
    forall k, p, q :: 0 <= k <= |ranked| && p in Publishers(ranked) && q in Publishers(ranked) ==>
      || |Of(ranked[..k], q)| == |Of(ranked, q)|
      || |Of(ranked[..k], p)| <= |Of(ranked[..k], q)| + 1
  }

  function Publishers(candidates: seq<Candidate>): set<string> {
    set c | 0 <= c < |candidates| :: candidates[c].publisher
  }

  lemma RoundsAreFair(keys: seq<string>, buckets: seq<seq<Candidate>>, offset: nat)
    requires Labelled(keys, buckets)
    requires forall i :: 0 <= i < |buckets| ==> |buckets[i]| <= offset
    ensures Fair(Taken(buckets, offset, 0))
  {
    var ranked := Taken(buckets, offset, 0);
    TakenHasKnownPublishers(keys, buckets, offset, 0);
    forall k, p, q | 0 <= k <= |ranked| && p in Publishers(ranked) && q in Publishers(ranked)
      ensures |Of(ranked[..k], q)| == |Of(ranked, q)| || |Of(ranked[..k], p)| <= |Of(ranked[..k], q)| + 1
    {
      assert p in keys && q in keys;
      var i :| 0 <= i < |keys| && keys[i] == p;
      var m :| 0 <= m < |keys| && keys[m] == q;
      var o, j := PrefixOfTaken(buckets, offset, 0, k);
      TakenIsFair(keys, buckets, o, j, i);
      TakenIsFair(keys, buckets, o, j, m);
      TakenIsFair(keys, buckets, offset, 0, m);
    }
  }

  /** The rounds are over only when every bucket is used up. */
  lemma UnfinishedRoundAdds(keys: seq<string>, buckets: seq<seq<Candidate>>, candidates: seq<Candidate>, offset: nat)
    requires IsGrouping(keys, buckets, candidates) && Labelled(keys, buckets)
    requires |Taken(buckets, offset, 0)| != |candidates|
    ensures exists b :: 0 <= b < |buckets| && offset < |buckets[b]|
  {
    if forall b :: 0 <= b < |buckets| ==> |buckets[b]| <= offset {
      AllTaken(keys, buckets, candidates, offset);
    }
  }

  lemma AllTaken(keys: seq<string>, buckets: seq<seq<Candidate>>, candidates: seq<Candidate>, offset: nat)
    requires IsGrouping(keys, buckets, candidates) && Labelled(keys, buckets)
    requires forall b :: 0 <= b < |buckets| ==> |buckets[b]| <= offset
    ensures forall publisher :: Of(Taken(buckets, offset, 0), publisher) == Of(candidates, publisher)
    ensures multiset(Taken(buckets, offset, 0)) == multiset(candidates)
    ensures |Taken(buckets, offset, 0)| == |candidates|
  {
    var ranked := Taken(buckets, offset, 0);
    TakenHasKnownPublishers(keys, buckets, offset, 0);
    forall publisher ensures Of(ranked, publisher) == Of(candidates, publisher) {
      if publisher in keys {
        var i :| 0 <= i < |keys| && keys[i] == publisher;
        TakenIsFair(keys, buckets, offset, 0, i);
        assert buckets[i][..|buckets[i]|] == buckets[i];
      } else {
        NoneOf(ranked, keys, publisher);
        NoneOf(candidates, keys, publisher);
      }
    }
    SameByPublisher(ranked, candidates);
    assert |ranked| == |multiset(ranked)| == |multiset(candidates)| == |candidates|;
  }

  lemma {:induction false} TakenGrows(buckets: seq<seq<Candidate>>, offset: nat, b: nat)
    requires b <= |buckets|
    ensures |Taken(buckets, offset, b)| >= |Taken(buckets, offset, 0)|
    ensures (exists i :: 0 <= i < b && offset < |buckets[i]|) ==> |Taken(buckets, offset, b)| > |Taken(buckets, offset, 0)|
    decreases b
  {
    if b > 0 { TakenGrows(buckets, offset, b - 1); }
  }

  /** rankDeterministicCurationFallback: a permutation of its input that keeps the sorted order within
      each publisher and deals out publishers fairly. */
  method RankDeterministically(candidates: seq<Candidate>, collate: string -> int) returns (ranked: seq<Candidate>)
    ensures multiset(ranked) == multiset(candidates)
    ensures forall publisher :: Of(ranked, publisher) == Of(StableSort(candidates, BetterBy(collate)), publisher)
    ensures DealtOut(ranked, StableSort(candidates, BetterBy(collate)))
    ensures Fair(ranked)
  {
    var sorted := StableSort(candidates, BetterBy(collate));
    BetterIsAnOrder(collate);
    SortIsSorted(candidates, BetterBy(collate));
    var keys, buckets := Group(sorted);
    assert Labelled(keys, buckets) by {
      forall i | 0 <= i < |buckets| { OfIsLabelled(sorted, keys[i]); }
    }
    ranked := [];
    var offset := 0;
    while |ranked| < |sorted|
      invariant ranked == Taken(buckets, offset, 0)
      invariant |ranked| <= |sorted|
      decreases |sorted| - |ranked|
    {
      var added;
      ranked, added := DealRound(buckets, offset, ranked);
      UnfinishedRoundAdds(keys, buckets, sorted, offset);
      TakenGrows(buckets, offset, |buckets|);
      TakenIsBounded(keys, buckets, sorted, offset + 1);
      // The code leaves the loop when a round adds nothing; no round does.
      assert added;
      offset := offset + 1;
    }
    RoundsEnd(keys, buckets, sorted, offset);
    AllTaken(keys, buckets, sorted, offset);
    RoundsAreFair(keys, buckets, offset);
  }

  method DealRound(buckets: seq<seq<Candidate>>, offset: nat, ranked: seq<Candidate>)
    returns (longer: seq<Candidate>, added: bool)
    requires ranked == Taken(buckets, offset, 0)
    ensures longer == Taken(buckets, offset + 1, 0)
    ensures added <==> exists b :: 0 <= b < |buckets| && offset < |buckets[b]|
  {
    longer, added := ranked, false;
    for b := 0 to |buckets|
      invariant longer == Taken(buckets, offset, b)
      invariant added <==> exists i :: 0 <= i < b && offset < |buckets[i]|
    {
      if offset < |buckets[b]| {
        longer, added := longer + [buckets[b][offset]], true;
      }
    }
  }

  lemma TakenAtMost(keys: seq<string>, buckets: seq<seq<Candidate>>, candidates: seq<Candidate>, offset: nat, c: Candidate)
    requires IsGrouping(keys, buckets, candidates) && Labelled(keys, buckets)
    ensures multiset(Taken(buckets, offset, 0))[c] <= multiset(candidates)[c]
  {
    hide Taken, Of, Labelled;
    var taken := Taken(buckets, offset, 0);
    CountOf(taken, c);
    CountOf(candidates, c);
    if c.publisher in keys {
      var i :| 0 <= i < |keys| && keys[i] == c.publisher;
      TakenIsFair(keys, buckets, offset, 0, i);
      PrefixCounts(buckets[i], Share(buckets, offset, 0, i), c);
    } else {
      TakenHasKnownPublishers(keys, buckets, offset, 0);
      NoneOf(taken, keys, c.publisher);
    }
  }

  lemma PrefixCounts<T>(xs: seq<T>, n: nat, x: T)
    requires n <= |xs|
    ensures multiset(xs[..n])[x] <= multiset(xs)[x]
  {
    assert xs == xs[..n] + xs[n..];
  }

  lemma TakenIsBounded(keys: seq<string>, buckets: seq<seq<Candidate>>, candidates: seq<Candidate>, offset: nat)
    requires IsGrouping(keys, buckets, candidates) && Labelled(keys, buckets)
    ensures |Taken(buckets, offset, 0)| <= |candidates|
  {
    hide IsGrouping, Labelled, Taken;
    var taken := multiset(Taken(buckets, offset, 0));
    forall c: Candidate ensures taken[c] <= multiset(candidates)[c] { TakenAtMost(keys, buckets, candidates, offset, c); }
    assert multiset(candidates) == taken + (multiset(candidates) - taken);
  }

  /** When as many items as there are have been taken, no bucket has anything left. */
  lemma RoundsEnd(keys: seq<string>, buckets: seq<seq<Candidate>>, candidates: seq<Candidate>, offset: nat)
    requires IsGrouping(keys, buckets, candidates) && Labelled(keys, buckets)
    requires |Taken(buckets, offset, 0)| == |candidates|
    ensures forall b :: 0 <= b < |buckets| ==> |buckets[b]| <= offset
  {
    if exists b :: 0 <= b < |buckets| && offset < |buckets[b]| {
      TakenGrows(buckets, offset, |buckets|);
      TakenIsBounded(keys, buckets, candidates, offset + 1);
    }
  }
}
