/** `rankCandidates`: one best-scoring copy of every article that is not too old, best first. */
module CandidateRanking {
  import opened Lists
  import opened Sorting
  import opened Wrappers

  /** `published` is the date text and `publishedAt` the instant it denotes, if it denotes one. */
  datatype Candidate = Candidate(url: string, published: string, publishedAt: Option<int>, details: string)

  datatype Scored = Scored(candidate: Candidate, score: real)

  const HOUR_MS := 3_600_000

  predicate Expired(candidate: Candidate, cutoff: int) {
    candidate.publishedAt.Some? && candidate.publishedAt.value < cutoff
  }

  /** Higher score first, then the later date text, then the URL, as `collate` orders texts. */
  predicate Ahead(a: Scored, b: Scored, collate: string -> int) {
    if a.score != b.score then a.score > b.score
    else if collate(a.candidate.published) != collate(b.candidate.published)
      then collate(a.candidate.published) > collate(b.candidate.published)
    else collate(a.candidate.url) < collate(b.candidate.url)
  }

  function AheadBy(collate: string -> int): (Scored, Scored) -> bool {
    (a: Scored, b: Scored) => Ahead(a, b, collate)
  }

  lemma AheadIsAnOrder(collate: string -> int)
    ensures IsOrder(AheadBy(collate))
  {
  }

  function UrlsOf(entries: seq<Scored>): seq<string> {
    Map((e: Scored) => e.candidate.url, entries)
  }

  /** Candidate `i` is the copy to keep: not expired, and ahead of every other copy of its URL, by a
      higher score or, at equal scores, by coming first. */
  predicate IsBestCopy(candidates: seq<Candidate>, n: nat, i: nat, cutoff: int, score: Candidate -> real)
    requires i < n <= |candidates|
  {
    && !Expired(candidates[i], cutoff)
    && forall j :: 0 <= j < n && !Expired(candidates[j], cutoff) && candidates[j].url == candidates[i].url ==>
         if j < i then score(candidates[j]) < score(candidates[i]) else score(candidates[j]) <= score(candidates[i])
  }

  ghost predicate IsBest(entry: Scored, candidates: seq<Candidate>, n: nat, cutoff: int, score: Candidate -> real)
    requires n <= |candidates|
  {
    exists i :: 0 <= i < n && IsBestCopy(candidates, n, i, cutoff, score) && entry == Scored(candidates[i], score(candidates[i]))
  }

  /** The entries hold exactly the best copies among the first `n` candidates, one for each URL. */
  ghost predicate HoldsBestCopies(entries: seq<Scored>, candidates: seq<Candidate>, n: nat, cutoff: int, score: Candidate -> real)
    requires n <= |candidates|
  {
    && Distinct(UrlsOf(entries))
    && (forall e :: 0 <= e < |entries| ==> IsBest(entries[e], candidates, n, cutoff, score))
    && (forall i :: 0 <= i < n && !Expired(candidates[i], cutoff) ==> candidates[i].url in UrlsOf(entries))
  }

  method FindUrl(entries: seq<Scored>, url: string) returns (e: nat)
    ensures e <= |entries| && url !in UrlsOf(entries)[..e]
    ensures e < |entries| ==> entries[e].candidate.url == url
  {
    e := 0;
    while e < |entries| && entries[e].candidate.url != url
      invariant e <= |entries| && url !in UrlsOf(entries)[..e]
    {
      e := e + 1;
    }
  }

  /** One more candidate that is no better copy of the same article leaves the best copy in place. */
  lemma StaysBest(entry: Scored, candidates: seq<Candidate>, n: nat, cutoff: int, score: Candidate -> real)
    requires n < |candidates| && IsBest(entry, candidates, n, cutoff, score)
    requires !Expired(candidates[n], cutoff) && candidates[n].url == entry.candidate.url ==> score(candidates[n]) <= entry.score
    ensures IsBest(entry, candidates, n + 1, cutoff, score)
  {
    var i :| 0 <= i < n && IsBestCopy(candidates, n, i, cutoff, score) && entry == Scored(candidates[i], score(candidates[i]));
    assert IsBestCopy(candidates, n + 1, i, cutoff, score);
  }

  lemma BecomesBest(entry: Scored, candidates: seq<Candidate>, n: nat, cutoff: int, score: Candidate -> real)
    requires n < |candidates| && IsBest(entry, candidates, n, cutoff, score)
    requires !Expired(candidates[n], cutoff) && candidates[n].url == entry.candidate.url && score(candidates[n]) > entry.score
    ensures IsBest(Scored(candidates[n], score(candidates[n])), candidates, n + 1, cutoff, score)
  {
    var i :| 0 <= i < n && IsBestCopy(candidates, n, i, cutoff, score) && entry == Scored(candidates[i], score(candidates[i]));
    assert IsBestCopy(candidates, n + 1, n, cutoff, score);
  }

  lemma IsFirstCopy(candidates: seq<Candidate>, n: nat, cutoff: int, score: Candidate -> real)
    requires n < |candidates| && !Expired(candidates[n], cutoff)
    requires forall j :: 0 <= j < n && !Expired(candidates[j], cutoff) ==> candidates[j].url != candidates[n].url
    ensures IsBest(Scored(candidates[n], score(candidates[n])), candidates, n + 1, cutoff, score)
  {
    assert IsBestCopy(candidates, n + 1, n, cutoff, score);
  }

  /** An expired candidate changes nothing. */
  lemma SkipExpired(entries: seq<Scored>, candidates: seq<Candidate>, n: nat, cutoff: int, score: Candidate -> real)
    requires n < |candidates| && HoldsBestCopies(entries, candidates, n, cutoff, score) && Expired(candidates[n], cutoff)
    ensures HoldsBestCopies(entries, candidates, n + 1, cutoff, score)
  {
    hide IsBest;
    forall e | 0 <= e < |entries| ensures IsBest(entries[e], candidates, n + 1, cutoff, score) {
      StaysBest(entries[e], candidates, n, cutoff, score);
    }
  }

  /** The entry that a candidate competes with is replaced only by a strictly better score. */
  lemma Compete(entries: seq<Scored>, candidates: seq<Candidate>, n: nat, cutoff: int, score: Candidate -> real, e: nat)
    requires n < |candidates| && HoldsBestCopies(entries, candidates, n, cutoff, score) && !Expired(candidates[n], cutoff)
    requires e < |entries| && entries[e].candidate.url == candidates[n].url
    ensures var scored := Scored(candidates[n], score(candidates[n]));
            HoldsBestCopies(if scored.score > entries[e].score then entries[e := scored] else entries,
                            candidates, n + 1, cutoff, score)
  {
    hide IsBest;
    var scored := Scored(candidates[n], score(candidates[n]));
    var entries' := if scored.score > entries[e].score then entries[e := scored] else entries;
    assert UrlsOf(entries') == UrlsOf(entries);
    forall k | 0 <= k < |entries'| ensures IsBest(entries'[k], candidates, n + 1, cutoff, score) {
      if k == e && scored.score > entries[e].score {
        BecomesBest(entries[e], candidates, n, cutoff, score);
      } else {
        assert k != e ==> UrlsOf(entries)[k] != UrlsOf(entries)[e];
        StaysBest(entries[k], candidates, n, cutoff, score);
      }
    }
    assert candidates[n].url == UrlsOf(entries')[e];
  }

  lemma Join(entries: seq<Scored>, candidates: seq<Candidate>, n: nat, cutoff: int, score: Candidate -> real)
    requires n < |candidates| && HoldsBestCopies(entries, candidates, n, cutoff, score) && !Expired(candidates[n], cutoff)
    requires candidates[n].url !in UrlsOf(entries)
    ensures HoldsBestCopies(entries + [Scored(candidates[n], score(candidates[n]))], candidates, n + 1, cutoff, score)
  {
    hide IsBest;
    var entries' := entries + [Scored(candidates[n], score(candidates[n]))];
    assert UrlsOf(entries') == UrlsOf(entries) + [candidates[n].url];
    DistinctSnoc(UrlsOf(entries), candidates[n].url);
    forall k | 0 <= k < |entries'| ensures IsBest(entries'[k], candidates, n + 1, cutoff, score) {
      if k < |entries| {
        assert UrlsOf(entries)[k] == entries[k].candidate.url;
        StaysBest(entries[k], candidates, n, cutoff, score);
      } else {
        IsFirstCopy(candidates, n, cutoff, score);
      }
    }
  }

  lemma NoCopies(candidates: seq<Candidate>, cutoff: int, score: Candidate -> real)
    ensures HoldsBestCopies([], candidates, 0, cutoff, score)
  {
  }

  lemma {:induction false} SortKeepsBestCopies(entries: seq<Scored>, sorted: seq<Scored>, candidates: seq<Candidate>,
                                               cutoff: int, score: Candidate -> real)
    requires HoldsBestCopies(entries, candidates, |candidates|, cutoff, score) && multiset(sorted) == multiset(entries)
    ensures HoldsBestCopies(sorted, candidates, |candidates|, cutoff, score)
  {
    hide IsBest;
    MapRearranged((e: Scored) => e.candidate.url, entries, sorted);
    DistinctRearranged(UrlsOf(entries), UrlsOf(sorted));
    forall k | 0 <= k < |sorted| ensures IsBest(sorted[k], candidates, |candidates|, cutoff, score) {
      assert sorted[k] in multiset(entries);
      var e :| 0 <= e < |entries| && entries[e] == sorted[k];
    }
    forall i | 0 <= i < |candidates| && !Expired(candidates[i], cutoff) ensures candidates[i].url in UrlsOf(sorted) {
      assert candidates[i].url in multiset(UrlsOf(entries));
    }
  }

  /** rankCandidates. */
  method RankCandidates(candidates: seq<Candidate>, now: int, windowHours: int, score: Candidate -> real, collate: string -> int)
    returns (ranked: seq<Scored>)
    ensures HoldsBestCopies(ranked, candidates, |candidates|, now - windowHours * HOUR_MS, score)
    ensures Sorted(ranked, AheadBy(collate))
  {
    hide HoldsBestCopies;
    var cutoff := now - windowHours * HOUR_MS;
    NoCopies(candidates, cutoff, score);
    var unique: seq<Scored> := [];
    for n := 0 to |candidates|
      invariant HoldsBestCopies(unique, candidates, n, cutoff, score)
    {
      var candidate := candidates[n];
      if Expired(candidate, cutoff) {
        SkipExpired(unique, candidates, n, cutoff, score);
        continue;
      }
      var scored := Scored(candidate, score(candidate));
      var e := FindUrl(unique, candidate.url);
      if e < |unique| {
        Compete(unique, candidates, n, cutoff, score, e);
        if scored.score > unique[e].score { unique := unique[e := scored]; }
      } else {
        assert UrlsOf(unique)[..e] == UrlsOf(unique);
        Join(unique, candidates, n, cutoff, score);
        unique := unique + [scored];
      }
    }
    ranked := StableSort(unique, AheadBy(collate));
    AheadIsAnOrder(collate);
    SortIsSorted(unique, AheadBy(collate));
    SortKeepsBestCopies(unique, ranked, candidates, cutoff, score);
  }
}
