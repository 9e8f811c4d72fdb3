/** The editorial enrichment loop: a first draft, up to three searches for one more fact each, and one
    retry when the result is too similar to the baseline. The model, the search and the checks of a
    draft's structure are an oracle. */
module EditorialEnrichment {
  import opened Lists
  import opened Wrappers
  import opened EditorialSimilarity
  import opened EvidenceMatching

  datatype Draft = Draft(claims: seq<Claim>, sourceUrls: seq<string>, tokens: seq<string>)

  datatype FactRequest = FactRequest(query: string, reason: string, expectedClaim: string)

  /** One generation. `wellFormed` says whether its schema, structure and draft checks pass, and `draft`
      is the draft as those checks return it. */
  datatype Generation =
    | GenerationThrew
    | Generated(draft: Draft, entries: seq<Entry>, wellFormed: bool, request: Option<FactRequest>)

  datatype FactSearch =
    | SearchThrew
    | MalformedFact
    | NoFact
    | FactFound(url: string, text: string)

  datatype Candidate = Candidate(draft: Draft, entries: seq<Entry>)

  datatype AttemptStatus = SearchFailed | NoEvidence | DuplicateEvidence | EvidenceNotUsed | Used

  datatype Attempt = Attempt(number: nat, query: string, status: AttemptStatus, sourceUrl: Option<string>)

  datatype SearchStatus = NotNeeded | Unavailable | DuplicateRequest | LimitReached | Ended(attempt: AttemptStatus)

  datatype Search = Search(requested: bool, performed: bool, status: SearchStatus, request: Option<FactRequest>,
                           attempts: nat, usedFacts: nat, history: seq<Attempt>)

  datatype RetryStatus = NotNecessary | Invalid | NotImproved | Selected | ImprovedButSimilar

  datatype Enriched = Enriched(candidate: Candidate, evidence: seq<Evidence>, search: Search,
                               initialSimilarity: real, finalSimilarity: real, tooSimilar: bool, retry: RetryStatus)

  const MAX_SEARCHES := 3

  /** The run so far: what has been selected, on which evidence, and what may still be asked for. */
  datatype Progress = Progress(candidate: Candidate, evidence: seq<Evidence>, search: Search, usedUrls: seq<string>,
                               seenQueries: set<string>, request: Option<FactRequest>)

  predicate UsesSource(candidate: Candidate, url: string) {
    url in candidate.draft.sourceUrls && exists i :: 0 <= i < |candidate.entries| && candidate.entries[i].sourceUrl == url
  }

  predicate UsesSources(candidate: Candidate, urls: seq<string>) {
    forall k :: 0 <= k < |urls| ==> UsesSource(candidate, urls[k])
  }

  predicate IsValid(candidate: Candidate, evidence: seq<Evidence>, normalize: string -> string) {
    Matches(candidate.draft.claims, candidate.entries, evidence, normalize)
  }

  // ---- What a search history says ----

  function UsedUrls(history: seq<Attempt>): seq<string> {
    if history == [] then []
    else
      var last := history[|history| - 1];
      UsedUrls(history[..|history| - 1]) + (if last.status.Used? && last.sourceUrl.Some? then [last.sourceUrl.value] else [])
  }

  /** Attempts are numbered from one, only the last one may have failed, and no query was repeated. */
  predicate HistoryOk(history: seq<Attempt>, seenQueries: set<string>) {
    && (forall i :: 0 <= i < |history| ==> history[i].number == i + 1)
    && (forall i :: 0 <= i < |history| - 1 ==> history[i].status.Used?)
    && (forall i :: 0 <= i < |history| && history[i].status.Used? ==> history[i].query in seenQueries && history[i].sourceUrl.Some?)
    && (forall i, j :: 0 <= i < j < |history| && history[i].status.Used? && history[j].status.Used? ==>
          history[i].query != history[j].query)
  }

  predicate AllUsed(history: seq<Attempt>) {
    forall i :: 0 <= i < |history| ==> history[i].status.Used?
  }

  /** The evidence is the original plus one item for each used fact, in order. */
  predicate Extended(evidence: seq<Evidence>, original: seq<Evidence>, usedUrls: seq<string>) {
    && |evidence| == |original| + |usedUrls|
    && original <= evidence
    && forall k :: 0 <= k < |usedUrls| ==> evidence[|original| + k].url == usedUrls[k]
  }

  /** The status tells how the search ended; a search that was wanted and possible made an attempt. */
  predicate StatusOk(search: Search) {
    match search.status
    case NotNeeded => !search.requested && search.history == []
    case Unavailable => search.requested && search.history == []
    case DuplicateRequest => search.history != [] && AllUsed(search.history)
    case LimitReached => search.attempts == MAX_SEARCHES && AllUsed(search.history)
    case Ended(status) => search.history != [] && search.history[|search.history| - 1].status == status
  }

  predicate SearchOk(search: Search, usedUrls: seq<string>, seenQueries: set<string>) {
    && search.attempts == |search.history| <= MAX_SEARCHES
    && search.usedFacts == |usedUrls| && usedUrls == UsedUrls(search.history)
    && Distinct(usedUrls)
    && HistoryOk(search.history, seenQueries)
    && (search.requested || search.history == [])
    && (search.performed <==> search.history != [])
    && StatusOk(search)
  }

  predicate ProgressOk(p: Progress, original: seq<Evidence>, normalize: string -> string) {
    && IsValid(p.candidate, p.evidence, normalize)
    && UsesSources(p.candidate, p.usedUrls)
    && Extended(p.evidence, original, p.usedUrls)
    && SearchOk(p.search, p.usedUrls, p.seenQueries)
    && (p.request.Some? ==> p.search.requested)
  }

  predicate EnrichedOk(e: Enriched, original: seq<Evidence>, baseline: Draft, normalize: string -> string) {
    && IsValid(e.candidate, e.evidence, normalize)
    && UsesSources(e.candidate, UsedUrls(e.search.history))
    && Extended(e.evidence, original, UsedUrls(e.search.history))
    && SimilarityOk(e, baseline)
  }

  /** The similarity that is reported is that of the selected draft, and a retry was selected only when
      it lowered it. */
  predicate SimilarityOk(e: Enriched, baseline: Draft) {
    && e.finalSimilarity == Score(baseline.tokens, e.candidate.draft.tokens)
    && e.finalSimilarity <= e.initialSimilarity
    && (e.finalSimilarity < e.initialSimilarity <==> e.retry.Selected? || e.retry.ImprovedButSimilar?)
    && (e.retry.NotNecessary? <==> e.initialSimilarity < THRESHOLD)
    && e.tooSimilar == (e.finalSimilarity >= THRESHOLD)
    && (e.retry.Selected? ==> !e.tooSimilar)
  }

  lemma {:induction false} UsedSnoc(history: seq<Attempt>, attempt: Attempt)
    ensures UsedUrls(history + [attempt])
         == UsedUrls(history) + (if attempt.status.Used? && attempt.sourceUrl.Some? then [attempt.sourceUrl.value] else [])
  {
    assert (history + [attempt])[..|history|] == history;
  }

  /** An attempt that came to nothing is recorded; everything selected so far stays. */
  function Failed(p: Progress, request: FactRequest, status: AttemptStatus, sourceUrl: Option<string>): Progress {
    p.(search := p.search.(performed := true, status := Ended(status), attempts := p.search.attempts + 1,
                           history := p.search.history + [Attempt(p.search.attempts + 1, request.query, status, sourceUrl)]),
       request := None)
  }

  lemma FailureKeepsOk(p: Progress, request: FactRequest, status: AttemptStatus, sourceUrl: Option<string>,
                       original: seq<Evidence>, normalize: string -> string)
    requires ProgressOk(p, original, normalize) && AllUsed(p.search.history) && !status.Used?
    requires p.search.requested && p.search.attempts < MAX_SEARCHES
    ensures ProgressOk(Failed(p, request, status, sourceUrl), original, normalize)
  {
    hide IsValid, UsesSources, Extended, UsedUrls, Distinct;
    UsedSnoc(p.search.history, Attempt(p.search.attempts + 1, request.query, status, sourceUrl));
  }

  /** A fact that the regenerated draft uses becomes part of the evidence. */
  function Accepted(p: Progress, candidate: Candidate, fact: Evidence, query: string, next: Option<FactRequest>): Progress {
    var attempt := p.search.attempts + 1;
    Progress(candidate, p.evidence + [fact],
             p.search.(performed := true,
                       status := if next.Some? && attempt >= MAX_SEARCHES then LimitReached else Ended(Used),
                       request := if next.Some? then next else p.search.request,
                       attempts := attempt, usedFacts := |p.usedUrls| + 1,
                       history := p.search.history + [Attempt(attempt, query, Used, Some(fact.url))]),
             p.usedUrls + [fact.url], p.seenQueries, next)
  }

  lemma AcceptanceKeepsOk(p: Progress, candidate: Candidate, fact: Evidence, query: string, next: Option<FactRequest>,
                          original: seq<Evidence>, normalize: string -> string)
    requires ProgressOk(p, original, normalize) && AllUsed(p.search.history)
    requires p.search.requested && p.search.attempts < MAX_SEARCHES
    requires fact.url !in p.usedUrls && query in p.seenQueries
    requires forall i :: 0 <= i < |p.search.history| ==> p.search.history[i].query != query
    requires IsValid(candidate, p.evidence + [fact], normalize) && UsesSources(candidate, p.usedUrls + [fact.url])
    ensures ProgressOk(Accepted(p, candidate, fact, query, next), original, normalize)
    ensures AllUsed(Accepted(p, candidate, fact, query, next).search.history)
  {
    hide IsValid, UsesSources, HistoryOk, AllUsed, UsedUrls, Distinct, Extended;
    var attempt := Attempt(p.search.attempts + 1, query, Used, Some(fact.url));
    UsedSnoc(p.search.history, attempt);
    HistoryGrows(p.search.history, attempt, p.seenQueries);
    DistinctSnoc(p.usedUrls, fact.url);
    ExtendedSnoc(p.evidence, original, p.usedUrls, fact);
  }

  lemma HistoryGrows(history: seq<Attempt>, attempt: Attempt, seenQueries: set<string>)
    requires HistoryOk(history, seenQueries) && AllUsed(history)
    requires attempt.number == |history| + 1 && attempt.status.Used? && attempt.sourceUrl.Some? && attempt.query in seenQueries
    requires forall i :: 0 <= i < |history| ==> history[i].query != attempt.query
    ensures HistoryOk(history + [attempt], seenQueries) && AllUsed(history + [attempt])
  {
  }

  lemma ExtendedSnoc(evidence: seq<Evidence>, original: seq<Evidence>, usedUrls: seq<string>, fact: Evidence)
    requires Extended(evidence, original, usedUrls)
    ensures Extended(evidence + [fact], original, usedUrls + [fact.url])
  {
  }

  /** What a generation must be to be selected. */
  predicate Acceptable(g: Generation, evidence: seq<Evidence>, urls: seq<string>, normalize: string -> string) {
    && g.Generated? && g.wellFormed
    && IsValid(Candidate(g.draft, g.entries), evidence, normalize)
    && UsesSources(Candidate(g.draft, g.entries), urls)
  }

  /** What one attempt makes of the progress, given what the search and the model answer. */
  function Attempted(p: Progress, request: FactRequest, query: string, found: FactSearch, g: Generation,
                     normalize: string -> string): Result<Progress, ()> {
    match found
    case SearchThrew => Success(Failed(p, request, SearchFailed, None))
    case MalformedFact => Failure(())
    case NoFact => Success(Failed(p, request, NoEvidence, None))
    case FactFound(url, text) =>
      if url in p.usedUrls then Success(Failed(p, request, DuplicateEvidence, Some(url)))
      else if Acceptable(g, p.evidence + [Evidence(url, text)], p.usedUrls + [url], normalize)
        then Success(Accepted(p, Candidate(g.draft, g.entries), Evidence(url, text), query, g.request))
      else Success(Failed(p, request, EvidenceNotUsed, Some(url)))
  }

  function NextGeneration(generations: seq<Generation>): Generation {
    if generations == [] then GenerationThrew else generations[0]
  }

  function NextSearch(searches: seq<FactSearch>): FactSearch {
    if searches == [] then SearchThrew else searches[0]
  }

  // ---- The code ----

  class Oracle {
    var generations: seq<Generation>
    var searches: seq<FactSearch>
    var generated: nat
    var searched: nat

    constructor (generations: seq<Generation>, searches: seq<FactSearch>)
      ensures generated == 0 && searched == 0
    {
      this.generations, this.searches, this.generated, this.searched := generations, searches, 0, 0;
    }

    method Generate() returns (g: Generation)
      modifies this`generations, this`generated
      ensures generated == old(generated) + 1 && g == NextGeneration(old(generations))
    {
      generated := generated + 1;
      g := GenerationThrew;
      if generations != [] { g, generations := generations[0], generations[1..]; }
    }

    method SearchFact() returns (found: FactSearch)
      modifies this`searches, this`searched
      ensures searched == old(searched) + 1 && found == NextSearch(old(searches))
      ensures searches == if old(searches) == [] then [] else old(searches)[1..]
    {
      searched := searched + 1;
      found := SearchThrew;
      if searches != [] { found, searches := searches[0], searches[1..]; }
    }
  }

  /** validatedCandidate: `None` when any of its checks throws. */
  method ValidatedCandidate(g: Generation, evidence: seq<Evidence>, normalize: string -> string) returns (candidate: Option<Candidate>)
    ensures candidate.Some? <==> Acceptable(g, evidence, [], normalize)
    ensures candidate.Some? ==> candidate.value == Candidate(g.draft, g.entries)
  {
    if g.GenerationThrew? || !g.wellFormed { return None; }
    var entries := ValidateEvidenceMap(g.draft.claims, g.entries, evidence, normalize);
    candidate := if entries.Success? then Some(Candidate(g.draft, entries.value)) else None;
  }

  /** One pass of the search loop for a request that has not been made before; `Failure` when it throws. */
  method SearchOnce(oracle: Oracle, p: Progress, request: FactRequest, query: string, original: seq<Evidence>,
                    normalize: string -> string) returns (r: Result<Progress, ()>)
    requires ProgressOk(p, original, normalize) && AllUsed(p.search.history)
    requires p.search.requested && p.search.attempts < MAX_SEARCHES
    requires query in p.seenQueries && forall i :: 0 <= i < |p.search.history| ==> p.search.history[i].query != query
    modifies oracle
    ensures oracle.searched == old(oracle.searched) + 1 && oracle.generated <= old(oracle.generated) + 1
    ensures r == Attempted(p, request, query, NextSearch(old(oracle.searches)), NextGeneration(old(oracle.generations)), normalize)
    ensures oracle.searches == if old(oracle.searches) == [] then [] else old(oracle.searches)[1..]
    ensures r.Success? ==>
      && ProgressOk(r.value, original, normalize)
      && r.value.seenQueries == p.seenQueries
      && r.value.search.attempts == p.search.attempts + 1
      && (r.value.request.Some? ==> AllUsed(r.value.search.history))
  {
    hide ProgressOk, IsValid, UsesSource;
    var found := oracle.SearchFact();
    match found {
      case SearchThrew =>
        FailureKeepsOk(p, request, SearchFailed, None, original, normalize);
        r := Success(Failed(p, request, SearchFailed, None));
      case MalformedFact => r := Failure(());
      case NoFact =>
        FailureKeepsOk(p, request, NoEvidence, None, original, normalize);
        r := Success(Failed(p, request, NoEvidence, None));
      case FactFound(url, text) =>
        if url in p.usedUrls {
          FailureKeepsOk(p, request, DuplicateEvidence, Some(url), original, normalize);
          return Success(Failed(p, request, DuplicateEvidence, Some(url)));
        }
        var fact := Evidence(url, text);
        var g := oracle.Generate();
        var candidate := ValidatedCandidate(g, p.evidence + [fact], normalize);
        if candidate.None? || !UsesSources(candidate.value, p.usedUrls + [url]) {
          FailureKeepsOk(p, request, EvidenceNotUsed, Some(url), original, normalize);
          return Success(Failed(p, request, EvidenceNotUsed, Some(url)));
        }
        AcceptanceKeepsOk(p, candidate.value, fact, query, g.request, original, normalize);
        r := Success(Accepted(p, candidate.value, fact, query, g.request));
    }
  }

  /** The search loop. */
  method SearchFacts(oracle: Oracle, start: Progress, canSearch: bool, original: seq<Evidence>, normalize: string -> string,
                     fold: string -> string) returns (r: Result<Progress, ()>)
    requires ProgressOk(start, original, normalize) && start.search.history == [] && start.seenQueries == {}
    modifies oracle
    ensures oracle.searched <= old(oracle.searched) + MAX_SEARCHES && oracle.generated <= old(oracle.generated) + MAX_SEARCHES
    ensures r.Failure? ==> canSearch && MalformedFact in old(oracle.searches)
    ensures r.Success? ==>
      && ProgressOk(r.value, original, normalize)
      && r.value.search.requested == start.search.requested
      && oracle.searched == old(oracle.searched) + r.value.search.attempts
      && oracle.generated <= old(oracle.generated) + r.value.search.attempts
      && (!canSearch ==> r.value.search.history == [])
      && (canSearch && start.request.Some? ==> r.value.search.history != [])
      && (r.value.request.Some? ==>
            !canSearch || r.value.search.attempts == MAX_SEARCHES || r.value.search.status.DuplicateRequest?)
  {
    hide IsValid, UsesSources, Extended;
    var p := start;
    while p.request.Some? && canSearch && p.search.attempts < MAX_SEARCHES
      invariant ProgressOk(p, original, normalize) && (p.request.Some? ==> AllUsed(p.search.history))
      invariant oracle.searched == old(oracle.searched) + p.search.attempts
      invariant oracle.generated <= old(oracle.generated) + p.search.attempts
      invariant !canSearch ==> p.search.history == []
      invariant p.search.history == [] ==> p == start
      invariant p.search.requested == start.search.requested
      invariant forall found :: found in oracle.searches ==> found in old(oracle.searches)
      decreases MAX_SEARCHES - p.search.attempts
    {
      var query := fold(p.request.value.query);
      if query in p.seenQueries {
        p := p.(search := p.search.(status := DuplicateRequest));
        break;
      }
      p := p.(seenQueries := p.seenQueries + {query});
      var next := SearchOnce(oracle, p, p.request.value, query, original, normalize);
      if next.Failure? { return Failure(()); }
      p := next.value;
    }
    r := Success(p);
  }

  /** retryIfTooSimilar. */
  method RetryIfTooSimilar(oracle: Oracle, p: Progress, baseline: Draft, original: seq<Evidence>, normalize: string -> string)
    returns (e: Enriched)
    requires ProgressOk(p, original, normalize)
    modifies oracle
    ensures EnrichedOk(e, original, baseline, normalize) && e.search == p.search && e.evidence == p.evidence
    ensures oracle.generated <= old(oracle.generated) + 1 && oracle.searched == old(oracle.searched)
    ensures e.initialSimilarity == Score(baseline.tokens, p.candidate.draft.tokens)
    ensures e.retry.NotNecessary? ==> oracle.generated == old(oracle.generated)
    ensures e.initialSimilarity >= THRESHOLD ==>
      var g := NextGeneration(old(oracle.generations));
      if !Acceptable(g, p.evidence, p.usedUrls, normalize) || g.request.Some? then e.retry.Invalid?
      else if Score(baseline.tokens, g.draft.tokens) >= e.initialSimilarity then e.retry.NotImproved?
      else !e.retry.Invalid? && !e.retry.NotImproved? && e.candidate == Candidate(g.draft, g.entries)
    ensures !(e.retry.Selected? || e.retry.ImprovedButSimilar?) ==> e.candidate == p.candidate
  {
    hide IsValid, Extended, Score;
    var initial, tooSimilar := MeasureSimilarity(baseline.tokens, p.candidate.draft.tokens);
    e := Enriched(p.candidate, p.evidence, p.search, initial, initial, tooSimilar, NotNecessary);
    if !tooSimilar { return; }
    e := e.(retry := Invalid);
    var g := oracle.Generate();
    if g.GenerationThrew? || g.request.Some? { return; }
    var retried := ValidatedCandidate(g, p.evidence, normalize);
    if retried.None? || !UsesSources(retried.value, p.usedUrls) { return; }
    var score, stillSimilar := MeasureSimilarity(baseline.tokens, retried.value.draft.tokens);
    if score >= initial {
      e := e.(retry := NotImproved);
      return;
    }
    e := e.(candidate := retried.value, finalSimilarity := score, tooSimilar := stillSimilar,
            retry := if stillSimilar then ImprovedButSimilar else Selected);
  }

  function FirstSearch(request: Option<FactRequest>): Search {
    Search(request.Some?, false, if request.Some? then Unavailable else NotNeeded, request, 0, 0, [])
  }

  /** enrichEditorialDraft: `Failure` when it throws. */
  method EnrichEditorialDraft(oracle: Oracle, baseline: Draft, evidence: seq<Evidence>, languageKnown: bool, canSearch: bool,
                              normalize: string -> string, fold: string -> string) returns (r: Result<Enriched, ()>)
    modifies oracle
    ensures oracle.generated <= old(oracle.generated) + 5 && oracle.searched <= old(oracle.searched) + MAX_SEARCHES
    ensures r.Failure? ==>
      || !languageKnown
      || !Acceptable(NextGeneration(old(oracle.generations)), evidence, [], normalize)
      || (canSearch && MalformedFact in old(oracle.searches))
    ensures r.Success? ==> languageKnown && Acceptable(NextGeneration(old(oracle.generations)), evidence, [], normalize)
    ensures r.Success? ==>
      && EnrichedOk(r.value, evidence, baseline, normalize)
      && (exists seen :: SearchOk(r.value.search, UsedUrls(r.value.search.history), seen))
      && r.value.search.requested == NextGeneration(old(oracle.generations)).request.Some?
      && (r.value.search.requested ==> (canSearch <==> r.value.search.history != []))
      && oracle.searched == old(oracle.searched) + r.value.search.attempts
      && oracle.generated <= old(oracle.generated) + r.value.search.attempts + 2
  {
    hide IsValid;
    if !languageKnown { return Failure(()); }
    var g := oracle.Generate();
    var candidate := ValidatedCandidate(g, evidence, normalize);
    if candidate.None? { return Failure(()); }
    var start := Progress(candidate.value, evidence, FirstSearch(g.request), [], {}, g.request);
    var searched := SearchFacts(oracle, start, canSearch, evidence, normalize, fold);
    if searched.Failure? { return Failure(()); }
    var e := RetryIfTooSimilar(oracle, searched.value, baseline, evidence, normalize);
    assert SearchOk(e.search, searched.value.usedUrls, searched.value.seenQueries);
    r := Success(e);
  }
}
