/** Which candidates the model sees, and how its ranking is applied to all of them. */
module NewsCuration {
  import CandidateRanking
  import opened FairRanking
  import opened Lists
  import opened Wrappers

  const CANDIDATE_LIMIT := 40

  // ---- The sample that the model sees ----

  function Urls(candidates: seq<Candidate>): seq<string> {
    Map((c: Candidate) => c.url, candidates)
  }

  function PublisherKeys(candidates: seq<Candidate>): seq<string> {
    Map((c: Candidate) => c.publisher, candidates)
  }

  /** The first candidate of each publisher among the first `k`, in order. */
  function Firsts(candidates: seq<Candidate>, k: nat): seq<Candidate>
    requires k <= |candidates|
  {
    if k == 0 then []
    else Firsts(candidates, k - 1)
         + (if candidates[k - 1].publisher in PublisherKeys(candidates[..k - 1]) then [] else [candidates[k - 1]])
  }

  /** The candidates among the first `k` whose URL is not one of `taken`, nor that of an earlier one. */
  function Others(candidates: seq<Candidate>, taken: seq<Candidate>, k: nat): seq<Candidate>
    requires k <= |candidates|
  {
    if k == 0 then []
    else
      var before := Others(candidates, taken, k - 1);
      before + (if candidates[k - 1].url in Urls(taken) || candidates[k - 1].url in Urls(before) then [] else [candidates[k - 1]])
  }

  /** Number(limit) || 40, held between 1 and 40. */
  function BoundedLimit(limit: int): (bound: nat)
    ensures 1 <= bound <= CANDIDATE_LIMIT
  {
    if limit == 0 || limit > CANDIDATE_LIMIT then CANDIDATE_LIMIT else if limit < 1 then 1 else limit
  }

  function Take<T>(xs: seq<T>, n: nat): seq<T> {
    if |xs| <= n then xs else xs[..n]
  }

  method PickFirsts(candidates: seq<Candidate>, bound: nat) returns (selected: seq<Candidate>)
    requires bound >= 1
    ensures selected == Take(Firsts(candidates, |candidates|), bound)
  {
    selected := [];
    var publishers := {};
    for k := 0 to |candidates|
      invariant selected == Firsts(candidates, k) && |selected| < bound
      invariant forall p :: p in publishers <==> p in PublisherKeys(candidates[..k])
    {
      var candidate := candidates[k];
      assert PublisherKeys(candidates[..k + 1]) == PublisherKeys(candidates[..k]) + [candidate.publisher];
      if candidate.publisher !in publishers {
        publishers := publishers + {candidate.publisher};
        selected := selected + [candidate];
        if |selected| >= bound {
          FirstsGrow(candidates, k + 1, |candidates|);
          return;
        }
      }
    }
  }

  lemma {:induction false} FirstsGrow(candidates: seq<Candidate>, j: nat, k: nat)
    requires j <= k <= |candidates|
    ensures Firsts(candidates, j) <= Firsts(candidates, k)
    decreases k
  {
    if j < k { FirstsGrow(candidates, j, k - 1); }
  }

  lemma {:induction false} OthersGrow(candidates: seq<Candidate>, taken: seq<Candidate>, j: nat, k: nat)
    requires j <= k <= |candidates|
    ensures Others(candidates, taken, j) <= Others(candidates, taken, k)
    decreases k
  {
    if j < k { OthersGrow(candidates, taken, j, k - 1); }
  }

  /** The sample: the first candidate of each publisher, then the others, cut off at the limit. */
  function Sample(candidates: seq<Candidate>, limit: int): seq<Candidate> {
    var firsts := Take(Firsts(candidates, |candidates|), BoundedLimit(limit));
    Take(firsts + Others(candidates, firsts, |candidates|), BoundedLimit(limit))
  }

  predicate SameUrls(urls: set<string>, candidates: seq<Candidate>) {
    urls == set url | url in Urls(candidates)
  }

  lemma OneMoreUrl(urls: set<string>, candidates: seq<Candidate>, c: Candidate)
    requires SameUrls(urls, candidates)
    ensures SameUrls(urls + {c.url}, candidates + [c])
  {
    UrlsConcat(candidates, [c]);
    UrlOf(c);
    hide Urls;
  }

  /** What has been picked holds a URL exactly when the firsts or the others before it do. */
  lemma OthersStep(candidates: seq<Candidate>, firsts: seq<Candidate>, k: nat, urls: set<string>)
    requires k < |candidates| && SameUrls(urls, firsts + Others(candidates, firsts, k))
    ensures firsts + Others(candidates, firsts, k + 1) ==
      firsts + Others(candidates, firsts, k) + (if candidates[k].url in urls then [] else [candidates[k]])
  {
    hide Urls;
    UrlsConcat(firsts, Others(candidates, firsts, k));
  }

  lemma NothingPickedYet(candidates: seq<Candidate>, firsts: seq<Candidate>)
    ensures SameUrls(set c | c in firsts :: c.url, firsts) && Others(candidates, firsts, 0) == []
  {
    UrlsOf(firsts);
    hide Urls;
  }

  lemma TakePrefix<T>(xs: seq<T>, all: seq<T>)
    requires xs <= all
    ensures Take(all, |xs|) == xs
  {
  }

  method PickOthers(candidates: seq<Candidate>, firsts: seq<Candidate>, bound: nat) returns (selected: seq<Candidate>)
    requires |firsts| < bound
    ensures selected == Take(firsts + Others(candidates, firsts, |candidates|), bound)
  {
    hide Urls, Others, SameUrls;
    selected := firsts;
    var selectedUrls := set c | c in selected :: c.url;
    NothingPickedYet(candidates, firsts);
    for k := 0 to |candidates|
      invariant selected == firsts + Others(candidates, firsts, k) && |selected| < bound
      invariant SameUrls(selectedUrls, selected)
    {
      OthersStep(candidates, firsts, k, selectedUrls);
      if candidates[k].url !in selectedUrls {
        OneMoreUrl(selectedUrls, selected, candidates[k]);
        selected := selected + [candidates[k]];
        selectedUrls := selectedUrls + {candidates[k].url};
        if |selected| >= bound {
          OthersGrow(candidates, firsts, k + 1, |candidates|);
          TakePrefix(selected, firsts + Others(candidates, firsts, |candidates|));
          return;
        }
      }
    }
  }

  /** selectCurationSample. */
  method SelectCurationSample(candidates: seq<Candidate>, limit: int) returns (selected: seq<Candidate>)
    ensures selected == Sample(candidates, limit)
  {
    var bound := BoundedLimit(limit);
    selected := PickFirsts(candidates, bound);
    if |selected| < bound { selected := PickOthers(candidates, selected, bound); }
  }

  lemma UrlsConcat(a: seq<Candidate>, b: seq<Candidate>)
    ensures Urls(a + b) == Urls(a) + Urls(b)
  {
  }

  lemma UrlOf(c: Candidate)
    ensures Urls([c]) == [c.url]
  {
  }

  lemma UrlsOf(candidates: seq<Candidate>)
    ensures forall url :: url in Urls(candidates) <==> exists c :: c in candidates && c.url == url
  {
    forall url ensures url in Urls(candidates) <==> exists c :: c in candidates && c.url == url { UrlIn(candidates, url); }
  }

  lemma UrlIn(candidates: seq<Candidate>, url: string)
    ensures url in Urls(candidates) <==> exists c :: c in candidates && c.url == url
  {
    if url in Urls(candidates) {
      var i :| 0 <= i < |candidates| && Urls(candidates)[i] == url;
      assert candidates[i] in candidates;
    } else {
      forall c | c in candidates ensures c.url != url {
        var i :| 0 <= i < |candidates| && candidates[i] == c;
        assert Urls(candidates)[i] == c.url;
      }
    }
  }

  // ---- What the sample contains ----

  /** Candidate `k` is the first of its publisher. */
  predicate IsFirst(candidates: seq<Candidate>, k: nat)
    requires k < |candidates|
  {
    candidates[k].publisher !in PublisherKeys(candidates[..k])
  }

  lemma {:induction false} FirstsComeFromFirsts(candidates: seq<Candidate>, k: nat, j: nat)
    requires k <= |candidates| && j < |candidates| && Distinct(Urls(candidates))
    ensures candidates[j].url in Urls(Firsts(candidates, k)) <==> j < k && IsFirst(candidates, j)
  {
    if k > 0 {
      FirstsComeFromFirsts(candidates, k - 1, j);
      var before := Firsts(candidates, k - 1);
      UrlsConcat(before, [candidates[k - 1]]);
      UrlOf(candidates[k - 1]);
      assert before + [] == before;
      assert Urls(candidates)[j] == Urls(candidates)[k - 1] ==> j == k - 1;
    }
  }

  lemma {:induction false} OthersAreNotFirsts(candidates: seq<Candidate>, k: nat, j: nat)
    requires k <= |candidates| && j < |candidates| && Distinct(Urls(candidates))
    ensures candidates[j].url in Urls(Others(candidates, Firsts(candidates, |candidates|), k)) ==> j < k
  {
    if k > 0 {
      OthersAreNotFirsts(candidates, k - 1, j);
      var before := Others(candidates, Firsts(candidates, |candidates|), k - 1);
      UrlsConcat(before, [candidates[k - 1]]);
      UrlOf(candidates[k - 1]);
      assert Urls(candidates)[j] == Urls(candidates)[k - 1] ==> j == k - 1;
    }
  }

  lemma SplitGrows<T>(a: seq<T>, b: seq<T>, all: seq<T>, x: T)
    requires multiset(a) + multiset(b) == multiset(all)
    ensures multiset(a + [x]) + multiset(b) == multiset(all + [x]) == multiset(a) + multiset(b + [x])
  {
  }

  /** Candidate `k` goes to the firsts or to the others. */
  lemma OneOrTheOther(candidates: seq<Candidate>, k: nat)
    requires k < |candidates| && Distinct(Urls(candidates))
    ensures var firsts, last := Firsts(candidates, |candidates|), candidates[k];
      && Firsts(candidates, k + 1) == Firsts(candidates, k) + (if IsFirst(candidates, k) then [last] else [])
      && Others(candidates, firsts, k + 1) == Others(candidates, firsts, k) + (if IsFirst(candidates, k) then [] else [last])
  {
    FirstsComeFromFirsts(candidates, |candidates|, k);
    OthersAreNotFirsts(candidates, k, k);
    hide Urls, PublisherKeys, Distinct;
  }

  /** With distinct URLs, the firsts and the others are the input, rearranged. */
  lemma {:induction false} FirstsAndOthers(candidates: seq<Candidate>, k: nat)
    requires k <= |candidates| && Distinct(Urls(candidates))
    ensures var firsts := Firsts(candidates, |candidates|);
            multiset(Firsts(candidates, k)) + multiset(Others(candidates, firsts, k)) == multiset(candidates[..k])
  {
    if k == 0 {
      assert candidates[..0] == [];
    } else {
      hide Urls, PublisherKeys, Distinct, Firsts, Others, IsFirst;
      var firsts, last := Firsts(candidates, |candidates|), candidates[k - 1];
      FirstsAndOthers(candidates, k - 1);
      OneOrTheOther(candidates, k - 1);
      assert candidates[..k] == candidates[..k - 1] + [last];
      SplitGrows(Firsts(candidates, k - 1), Others(candidates, firsts, k - 1), candidates[..k - 1], last);
      assert Firsts(candidates, k - 1) + [] == Firsts(candidates, k - 1);
      assert Others(candidates, firsts, k - 1) + [] == Others(candidates, firsts, k - 1);
    }
  }

  lemma {:induction false} FirstsHaveDistinctPublishers(candidates: seq<Candidate>, k: nat)
    requires k <= |candidates|
    ensures Distinct(PublisherKeys(Firsts(candidates, k)))
    ensures forall p :: p in PublisherKeys(Firsts(candidates, k)) <==> p in PublisherKeys(candidates[..k])
  {
    if k > 0 {
      FirstsHaveDistinctPublishers(candidates, k - 1);
      var before, last := Firsts(candidates, k - 1), candidates[k - 1];
      assert PublisherKeys(candidates[..k]) == PublisherKeys(candidates[..k - 1]) + [last.publisher];
      assert PublisherKeys(before + [last]) == PublisherKeys(before) + [last.publisher];
      assert before + [] == before;
    }
  }

  /** The first `n` candidates of the sample are of different publishers, and of all of them if there
      is room. */
  predicate NewPublishersFirst(sample: seq<Candidate>, candidates: seq<Candidate>) {
    exists n :: 0 <= n <= |sample| && DistinctHead(sample, n)
      && (n == |sample| || forall p :: p in PublisherKeys(candidates) ==> p in PublisherKeys(sample[..n]))
  }

  predicate DistinctHead(sample: seq<Candidate>, n: nat)
    requires n <= |sample|
  {
    Distinct(PublisherKeys(sample[..n]))
  }

  /** On candidates with distinct URLs the sample has as many different candidates as the limit and
      the input allow, and new publishers come first. */
  lemma SampleIsFull(candidates: seq<Candidate>, limit: int)
    requires Distinct(Urls(candidates))
    ensures var sample, bound := Sample(candidates, limit), BoundedLimit(limit);
            && |sample| == (if |candidates| < bound then |candidates| else bound)
            && multiset(sample) <= multiset(candidates)
            && Distinct(Urls(sample))
            && NewPublishersFirst(sample, candidates)
  {
    var bound := BoundedLimit(limit);
    var sample := Sample(candidates, limit);
    if |Firsts(candidates, |candidates|)| < bound {
      RoomForAllPublishers(candidates, bound);
    } else {
      assert sample == Take(Firsts(candidates, |candidates|), bound);
      OnlyFirstsFit(candidates, bound);
    }
    UrlsOfPart(candidates, sample);
  }

  lemma OnlyFirstsFit(candidates: seq<Candidate>, bound: nat)
    requires Distinct(Urls(candidates)) && bound <= |Firsts(candidates, |candidates|)|
    ensures var sample := Take(Firsts(candidates, |candidates|), bound);
            && |sample| == bound <= |candidates|
            && multiset(sample) <= multiset(candidates) && NewPublishersFirst(sample, candidates)
  {
    hide Firsts, Others, Urls;
    var all := Firsts(candidates, |candidates|);
    var sample := Take(all, bound);
    FirstsAndOthers(candidates, |candidates|);
    FirstsHaveDistinctPublishers(candidates, |candidates|);
    assert candidates[..|candidates|] == candidates;
    SizesAdd(all, Others(candidates, all, |candidates|), candidates);
    PrefixIsPart(all, bound);
    DistinctPrefix(all, bound);
    assert sample[..bound] == sample;
    assert DistinctHead(sample, bound);
  }

  lemma RoomForAllPublishers(candidates: seq<Candidate>, bound: nat)
    requires Distinct(Urls(candidates)) && |Firsts(candidates, |candidates|)| < bound
    ensures var all := Firsts(candidates, |candidates|);
            var sample := Take(all + Others(candidates, all, |candidates|), bound);
            && |sample| == (if |candidates| < bound then |candidates| else bound)
            && multiset(sample) <= multiset(candidates) && NewPublishersFirst(sample, candidates)
  {
    hide Firsts, Others, Urls;
    var all := Firsts(candidates, |candidates|);
    var joined := all + Others(candidates, all, |candidates|);
    var sample := Take(joined, bound);
    FirstsAndOthers(candidates, |candidates|);
    FirstsHaveDistinctPublishers(candidates, |candidates|);
    assert candidates[..|candidates|] == candidates;
    SizesAdd(all, Others(candidates, all, |candidates|), candidates);
    PrefixIsPart(joined, bound);
    assert sample[..|all|] == all;
    assert DistinctHead(sample, |all|);
  }

  lemma SizesAdd<T>(a: seq<T>, b: seq<T>, c: seq<T>)
    requires multiset(a) + multiset(b) == multiset(c)
    ensures |a| + |b| == |c| && multiset(a) <= multiset(c) && multiset(a + b) == multiset(c)
  {
    assert |multiset(a) + multiset(b)| == |a| + |b|;
  }

  lemma PrefixIsPart<T>(xs: seq<T>, n: nat)
    ensures multiset(Take(xs, n)) <= multiset(xs)
  {
    if n < |xs| { assert xs == xs[..n] + xs[n..]; }
  }

  lemma DistinctPrefix(xs: seq<Candidate>, n: nat)
    requires Distinct(PublisherKeys(xs))
    ensures Distinct(PublisherKeys(Take(xs, n)))
  {
    if n < |xs| { assert PublisherKeys(xs[..n]) == PublisherKeys(xs)[..n]; }
  }

  lemma UrlsOfPart(candidates: seq<Candidate>, part: seq<Candidate>)
    requires Distinct(Urls(candidates)) && multiset(part) <= multiset(candidates)
    ensures Distinct(Urls(part))
  {
    MapOfPart((c: Candidate) => c.url, candidates, part);
    DistinctRearranged(Urls(candidates), Urls(part));
  }

  // ---- Applying the model's ranking ----

  /** What the model call came back with; identifiers are the numbers that the sample was labelled with. */
  datatype ModelReply = NoModel | ModelThrew | Ranked(ids: seq<int>)

  datatype CurationError = CallFailed | InvalidIds | NothingRecognized

  datatype Curation = Curation(candidates: seq<Candidate>, considered: nat, ranked: nat)

  predicate ValidIds(ids: seq<int>, sample: seq<Candidate>) {
    Distinct(ids) && forall k :: 0 <= k < |ids| ==> 1 <= ids[k] <= |sample|
  }

  /** The candidates with these identifiers, in the model's order. */
  function Picked(sample: seq<Candidate>, ids: seq<int>): (r: seq<Candidate>)
    requires ValidIds(ids, sample)
    ensures |r| == |ids|
    ensures forall k :: 0 <= k < |ids| ==> r[k] == sample[ids[k] - 1]
  {
    seq(|ids|, k requires 0 <= k < |ids| => sample[ids[k] - 1])
  }

  /** Without the candidates whose URL comes earlier in the list. */
  function Deduplicated(candidates: seq<Candidate>, k: nat): seq<Candidate>
    requires k <= |candidates|
  {
    if k == 0 then []
    else
      var before := Deduplicated(candidates, k - 1);
      before + (if candidates[k - 1].url in Urls(before) then [] else [candidates[k - 1]])
  }

  /** The candidates with none of these URLs, in their order. */
  function Rest(candidates: seq<Candidate>, urls: seq<string>): seq<Candidate> {
    if candidates == [] then []
    else Rest(candidates[..|candidates| - 1], urls)
         + (if candidates[|candidates| - 1].url in urls then [] else [candidates[|candidates| - 1]])
  }

  method IdsAreValid(ids: seq<int>, sample: seq<Candidate>) returns (valid: bool)
    ensures valid <==> ValidIds(ids, sample)
  {
    var seen := {};
    for k := 0 to |ids|
      invariant forall i :: i in seen <==> i in ids[..k]
      invariant Distinct(ids[..k])
      invariant forall j :: 0 <= j < k ==> 1 <= ids[j] <= |sample|
    {
      assert ids[..k + 1] == ids[..k] + [ids[k]];
      if ids[k] in seen {
        var j :| 0 <= j < k && ids[..k][j] == ids[k];
        assert ids[j] == ids[k];
        return false;
      }
      if !(1 <= ids[k] <= |sample|) { return false; }
      seen := seen + {ids[k]};
    }
    assert ids[..|ids|] == ids;
    valid := true;
  }

  /** curateNewsCandidates. */
  method CurateNewsCandidates(candidates: seq<Candidate>, limit: int, reply: ModelReply)
    returns (r: Result<Curation, CurationError>)
    ensures reply.NoModel? || candidates == [] ==> r == Success(Curation(candidates, 0, 0))
    ensures candidates != [] ==>
      match reply
      case NoModel => true
      case ModelThrew => r == Failure(CallFailed)
      case Ranked(ids) =>
        var sample := Sample(candidates, limit);
        if !ValidIds(ids, sample) then r == Failure(InvalidIds)
        else
          var picked := Picked(sample, ids);
          var curated := Deduplicated(picked, |picked|);
          r == if ids == [] then Failure(NothingRecognized)
               else Success(Curation(curated + Rest(candidates, Urls(curated)), |sample|, |curated|))
  {
    if reply.NoModel? || candidates == [] { return Success(Curation(candidates, 0, 0)); }
    if reply.ModelThrew? { return Failure(CallFailed); }
    var sample := SelectCurationSample(candidates, limit);
    var valid := IdsAreValid(reply.ids, sample);
    if !valid { return Failure(InvalidIds); }
    ghost var picked := Picked(sample, reply.ids);
    var curated: seq<Candidate> := [];
    for k := 0 to |reply.ids|
      invariant curated == Deduplicated(picked, k)
      invariant k > 0 ==> curated != []
    {
      var candidate := sample[reply.ids[k] - 1];
      if candidate.url !in Urls(curated) { curated := curated + [candidate]; }
    }
    if curated == [] { return Failure(NothingRecognized); }
    r := Success(Curation(curated + Rest(candidates, Urls(curated)), |sample|, |curated|));
  }

  lemma {:induction false} NothingToDeduplicate(candidates: seq<Candidate>, k: nat)
    requires k <= |candidates| && Distinct(Urls(candidates))
    ensures Deduplicated(candidates, k) == candidates[..k]
  {
    if k > 0 {
      NothingToDeduplicate(candidates, k - 1);
      assert Urls(candidates[..k - 1]) == Urls(candidates)[..k - 1];
      assert candidates[..k] == candidates[..k - 1] + [candidates[k - 1]];
      assert Urls(candidates)[k - 1] !in Urls(candidates)[..k - 1];
    }
  }

  /** Of candidates with distinct URLs, exactly those that were not picked are left over. */
  lemma {:induction false} RestIsTheOthers(candidates: seq<Candidate>, picked: seq<Candidate>)
    requires Distinct(Urls(candidates)) && multiset(picked) <= multiset(candidates)
    ensures multiset(picked) + multiset(Rest(candidates, Urls(picked))) == multiset(candidates)
  {
    DistinctUrlsAreKeys(candidates);
    UrlsOf(picked);
    forall c: Candidate ensures multiset(picked)[c] + multiset(Rest(candidates, Urls(picked)))[c] == multiset(candidates)[c] {
      RestCounts(candidates, Urls(picked), c);
      UrlsOfPart(candidates, picked);
      DistinctUrlsAreKeys(picked);
      CountOfDistinct(candidates, c);
      CountOfDistinct(picked, c);
      if c in candidates && c.url in Urls(picked) {
        var d :| d in picked && d.url == c.url;
        assert d in multiset(picked) && d in candidates;
      }
    }
  }

  lemma DistinctUrlsAreKeys(candidates: seq<Candidate>)
    requires Distinct(Urls(candidates))
    ensures Distinct(candidates)
    ensures forall c, d :: c in candidates && d in candidates && c.url == d.url ==> c == d
  {
    forall i, j | 0 <= i < j < |candidates| ensures candidates[i].url != candidates[j].url {
      assert Urls(candidates)[i] != Urls(candidates)[j];
    }
  }

  lemma CountOfDistinct(candidates: seq<Candidate>, c: Candidate)
    requires Distinct(candidates)
    ensures multiset(candidates)[c] == if c in candidates then 1 else 0
  {
    DistinctCount(candidates, c);
  }

  lemma {:induction false} RestCounts(candidates: seq<Candidate>, urls: seq<string>, c: Candidate)
    ensures multiset(Rest(candidates, urls))[c] == if c.url in urls then 0 else multiset(candidates)[c]
  {
    if candidates != [] {
      RestCounts(candidates[..|candidates| - 1], urls, c);
      assert candidates == candidates[..|candidates| - 1] + [candidates[|candidates| - 1]];
    }
  }

  lemma PickedIsPart(sample: seq<Candidate>, ids: seq<int>)
    requires ValidIds(ids, sample) && Distinct(Urls(sample))
    ensures multiset(Picked(sample, ids)) <= multiset(sample)
    ensures Distinct(Urls(Picked(sample, ids)))
  {
    var picked := Picked(sample, ids);
    forall i, j | 0 <= i < j < |picked| ensures Urls(picked)[i] != Urls(picked)[j] {
      assert ids[i] != ids[j];
      assert Urls(sample)[ids[i] - 1] != Urls(sample)[ids[j] - 1];
    }
    DistinctUrlsAreKeys(picked);
    forall c: Candidate ensures multiset(picked)[c] <= multiset(sample)[c] {
      CountOfDistinct(picked, c);
      if c in picked { assert c in sample; }
    }
  }

  /** On candidates with distinct URLs a valid ranking gives a permutation of the candidates that
      starts with exactly the ranked ones, in the model's order. */
  lemma CurationIsAPermutation(candidates: seq<Candidate>, limit: int, ids: seq<int>)
    requires Distinct(Urls(candidates)) && ValidIds(ids, Sample(candidates, limit))
    ensures var picked := Picked(Sample(candidates, limit), ids);
            && Deduplicated(picked, |picked|) == picked
            && multiset(picked + Rest(candidates, Urls(picked))) == multiset(candidates)
  {
    var sample := Sample(candidates, limit);
    SampleIsFull(candidates, limit);
    var picked := Picked(sample, ids);
    PickedIsPart(sample, ids);
    NothingToDeduplicate(picked, |picked|);
    assert picked[..|picked|] == picked;
    RestIsTheOthers(candidates, picked);
  }

  /** What rankCandidates returns can be curated without loss: described in any way that keeps the
      URLs, its candidates have distinct URLs. */
  lemma RankedCandidatesCanBeCurated(ranked: seq<CandidateRanking.Scored>, describe: CandidateRanking.Scored -> Candidate)
    requires Distinct(CandidateRanking.UrlsOf(ranked))
    requires forall s :: describe(s).url == s.candidate.url
    ensures Distinct(Urls(Map(describe, ranked)))
  {
    assert Urls(Map(describe, ranked)) == CandidateRanking.UrlsOf(ranked);
  }
}
