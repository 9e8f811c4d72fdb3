/** The excluded-topic filter over a list of candidates: explicit titles are refused outright, the
    rest is classified in a bounded pool, and every output is assembled in input order. */
module ExcludedTopicPolicy {
  import opened Lists
  import opened Wrappers
  import opened ExcludedTopics
  import opened BoundedPool

  datatype Candidate = Candidate(title: string, text: string)

  datatype Provider = Provider(name: string, model: string)

  /** What the model call for one candidate came back with. */
  datatype ModelCall =
    | NoProvider
    | CallThrew
    | Generated(value: Option<seq<RawAssessment>>, usage: seq<nat>, provider: Option<string>, model: Option<string>)

  /** The whole operation on one candidate; it breaks when even preparing the call fails. */
  datatype Operation = Breaks(reason: nat) | Runs(call: ModelCall)

  datatype Classified = Classified(assessments: seq<Assessment>, usage: seq<nat>, provider: Option<(Option<string>, Option<string>)>)

  datatype Verdict = Deterministic | Semantic(classified: Classified)

  datatype Refusal = ExplicitTitle | Assessed(assessment: Assessment)

  datatype Blocked = Blocked(candidate: Candidate, refusal: Refusal)

  datatype Counts = Counts(deterministicBlocked: nat, classified: nat, semanticBlocked: nat, semanticEligible: nat)

  datatype Report = Report(eligible: seq<Candidate>, blocked: seq<Blocked>, usage: seq<nat>,
                           providers: seq<Provider>, counts: Counts)

  /** What the outside world decides: which titles name an explicit event, how text is trimmed and
      canonicalised. */
  datatype Texts = Texts(explicit: string -> bool, trim: string -> string, canonical: string -> string)

  const WAR_CONFLICT := "war_conflict"

  predicate IsDeterministic(candidate: Candidate, topicCodes: seq<string>, texts: Texts) {
    WAR_CONFLICT in topicCodes && texts.explicit(candidate.title)
  }

  function ReplyOf(call: ModelCall): ClassifierReply {
    match call
    case NoProvider => NoClassifier
    case CallThrew => Threw
    case Generated(value, _, _, _) => Answered(value)
  }

  function Classify(op: Operation, topicCodes: seq<string>, texts: Texts): Outcome<Classified> {
    match op
    case Breaks(reason) => Rejected(reason)
    case Runs(call) =>
      var assessments := EvaluateExcludedTopics(topicCodes, ReplyOf(call), texts.canonical);
      if call.Generated? then Fulfilled(Classified(assessments, call.usage, Some((call.provider, call.model))))
      else Fulfilled(Classified(assessments, [], None))
  }

  // ---- The provider audit ----

  predicate IdentifierChar(c: char) {
    'A' <= c <= 'Z' || 'a' <= c <= 'z' || '0' <= c <= '9' || c in {'.', '_', ':', '/', '-'}
  }

  predicate SafeText(text: string) {
    1 <= |text| <= 100 && forall i :: 0 <= i < |text| ==> IdentifierChar(text[i])
  }

  function SafeIdentifier(value: Option<string>, texts: Texts): (r: string)
    ensures SafeText(r)
  {
    var trimmed := texts.trim(if value.Some? then value.value else "");
    if SafeText(trimmed) then trimmed else "unknown"
  }

  predicate Missing(value: Option<string>) {
    value.None? || value.value == ""
  }

  function AuditProvider(providers: seq<Provider>, provider: Option<string>, model: Option<string>, texts: Texts): seq<Provider> {
    if Missing(provider) && Missing(model) then providers
    else
      var entry := Provider(SafeIdentifier(provider, texts), SafeIdentifier(model, texts));
      if entry in providers then providers else providers + [entry]
  }

  // ---- One candidate at a time: the behaviour to be reproduced ----

  const NOTHING := Report([], [], [], [], Counts(0, 0, 0, 0))

  function AddVerdict(report: Report, candidate: Candidate, verdict: Verdict, texts: Texts): Report {
    match verdict
    case Deterministic =>
      report.(blocked := report.blocked + [Blocked(candidate, ExplicitTitle)],
              counts := report.counts.(deterministicBlocked := report.counts.deterministicBlocked + 1))
    case Semantic(classified) =>
      var counts := report.counts.(classified := report.counts.classified + 1);
      var audited := report.(
        usage := report.usage + classified.usage,
        providers := match classified.provider
                     case None => report.providers
                     case Some(pair) => AuditProvider(report.providers, pair.0, pair.1, texts));
      match FindRefusal(classified.assessments)
      case Some(refusal) =>
        audited.(blocked := report.blocked + [Blocked(candidate, Refusal.Assessed(refusal))],
                 counts := counts.(semanticBlocked := counts.semanticBlocked + 1))
      case None =>
        audited.(eligible := report.eligible + [candidate],
                 counts := counts.(semanticEligible := counts.semanticEligible + 1))
  }

  function VerdictOn(candidate: Candidate, op: Operation, topicCodes: seq<string>, texts: Texts): Result<Verdict, nat> {
    if IsDeterministic(candidate, topicCodes, texts) then Success(Deterministic)
    else match Classify(op, topicCodes, texts)
      case Rejected(reason) => Failure(reason)
      case Fulfilled(classified) => Success(Semantic(classified))
  }

  /** The report on the first `k` candidates, classified one after the other; the first operation
      that breaks ends everything. */
  function Sequential(candidates: seq<Candidate>, ops: seq<Operation>, topicCodes: seq<string>, texts: Texts, k: nat)
    : Result<Report, nat>
    requires k <= |candidates| == |ops|
  {
    if k == 0 then Success(NOTHING)
    else match Sequential(candidates, ops, topicCodes, texts, k - 1)
      case Failure(reason) => Failure(reason)
      case Success(report) =>
        match VerdictOn(candidates[k - 1], ops[k - 1], topicCodes, texts)
        case Failure(reason) => Failure(reason)
        case Success(verdict) => Success(AddVerdict(report, candidates[k - 1], verdict, texts))
  }

  lemma {:induction false} FailureIsFinal(candidates: seq<Candidate>, ops: seq<Operation>, topicCodes: seq<string>,
                                          texts: Texts, j: nat, k: nat)
    requires j <= k <= |candidates| == |ops|
    requires Sequential(candidates, ops, topicCodes, texts, j).Failure?
    ensures Sequential(candidates, ops, topicCodes, texts, k) == Sequential(candidates, ops, topicCodes, texts, j)
    decreases k
  {
    hide VerdictOn, AddVerdict;
    if j < k { FailureIsFinal(candidates, ops, topicCodes, texts, j, k - 1); }
  }

  // ---- The concurrent method ----

  /** `needs` lists the candidates that are left for the model, in order. */
  predicate IsWorkList(candidates: seq<Candidate>, topicCodes: seq<string>, texts: Texts, needs: seq<nat>) {
    && (forall p :: 0 <= p < |needs| ==> needs[p] < |candidates|)
    && (forall p, q :: 0 <= p < q < |needs| ==> needs[p] < needs[q])
    && (forall i :: 0 <= i < |candidates| ==> (i in needs <==> !IsDeterministic(candidates[i], topicCodes, texts)))
  }

  /** The deterministic decisions, and the indices that are left for the model. */
  method DecideExplicit(candidates: seq<Candidate>, topicCodes: seq<string>, texts: Texts)
    returns (decisions: array<Option<Verdict>>, needs: seq<nat>)
    ensures fresh(decisions) && decisions.Length == |candidates|
    ensures forall i :: 0 <= i < |candidates| ==>
              decisions[i] == if IsDeterministic(candidates[i], topicCodes, texts) then Some(Deterministic) else None
    ensures IsWorkList(candidates, topicCodes, texts, needs)
  {
    decisions := new Option<Verdict>[|candidates|](_ => None);
    needs := [];
    for index := 0 to |candidates|
      invariant forall i :: 0 <= i < |candidates| ==>
                  decisions[i] == if i < index && IsDeterministic(candidates[i], topicCodes, texts) then Some(Deterministic) else None
      invariant forall p :: 0 <= p < |needs| ==> needs[p] < index
      invariant forall p, q :: 0 <= p < q < |needs| ==> needs[p] < needs[q]
      invariant forall i :: 0 <= i < index ==> (i in needs <==> !IsDeterministic(candidates[i], topicCodes, texts))
    {
      if IsDeterministic(candidates[index], topicCodes, texts) {
        decisions[index] := Some(Deterministic);
      } else {
        needs := needs + [index];
      }
    }
  }

  /** The position of the first rejection, as `Array.prototype.find` meets it. */
  method FirstRejection<R>(settled: array<Option<Outcome<R>>>) returns (position: Option<nat>)
    requires forall p :: 0 <= p < settled.Length ==> settled[p].Some?
    ensures position.None? ==> forall p :: 0 <= p < settled.Length ==> settled[p].value.Fulfilled?
    ensures position.Some? ==>
      && position.value < settled.Length && settled[position.value].value.Rejected?
      && forall p :: 0 <= p < position.value ==> settled[p].value.Fulfilled?
  {
    for p := 0 to settled.Length
      invariant forall q :: 0 <= q < p ==> settled[q].value.Fulfilled?
    {
      if settled[p].value.Rejected? { return Some(p); }
    }
    position := None;
  }

  /** The second pass, in input order. */
  method Assemble(candidates: seq<Candidate>, ops: seq<Operation>, topicCodes: seq<string>, texts: Texts,
                  decisions: array<Option<Verdict>>) returns (report: Report)
    requires |candidates| == |ops| == decisions.Length
    requires forall i :: 0 <= i < |candidates| ==>
               decisions[i].Some? && VerdictOn(candidates[i], ops[i], topicCodes, texts) == Success(decisions[i].value)
    ensures Sequential(candidates, ops, topicCodes, texts, |candidates|) == Success(report)
  {
    hide VerdictOn, AddVerdict;
    report := NOTHING;
    for index := 0 to |candidates|
      invariant Sequential(candidates, ops, topicCodes, texts, index) == Success(report)
    {
      report := AddVerdict(report, candidates[index], decisions[index].value, texts);
    }
  }

  /** Nothing breaks before the first candidate whose operation does. */
  lemma {:induction false} NothingBreaksBefore(candidates: seq<Candidate>, ops: seq<Operation>, topicCodes: seq<string>,
                                               texts: Texts, k: nat)
    requires k <= |candidates| == |ops|
    requires forall i :: 0 <= i < k ==> VerdictOn(candidates[i], ops[i], topicCodes, texts).Success?
    ensures Sequential(candidates, ops, topicCodes, texts, k).Success?
  {
    hide VerdictOn, AddVerdict;
    if k > 0 { NothingBreaksBefore(candidates, ops, topicCodes, texts, k - 1); }
  }

  function OutcomesOf(ops: seq<Operation>, needs: seq<nat>, topicCodes: seq<string>, texts: Texts): (r: seq<Outcome<Classified>>)
    requires forall p :: 0 <= p < |needs| ==> needs[p] < |ops|
    ensures |r| == |needs|
    ensures forall p :: 0 <= p < |needs| ==> r[p] == Classify(ops[needs[p]], topicCodes, texts)
  {
    seq(|needs|, p requires 0 <= p < |needs| => Classify(ops[needs[p]], topicCodes, texts))
  }

  /** The first rejection in the pool's results is the one that ends the sequential run. */
  lemma FirstRejectionEndsIt(candidates: seq<Candidate>, ops: seq<Operation>, topicCodes: seq<string>, texts: Texts,
                             needs: seq<nat>, position: nat)
    requires |candidates| == |ops| && IsWorkList(candidates, topicCodes, texts, needs) && position < |needs|
    requires var outcomes := OutcomesOf(ops, needs, topicCodes, texts);
             outcomes[position].Rejected? && forall p :: 0 <= p < position ==> outcomes[p].Fulfilled?
    ensures Sequential(candidates, ops, topicCodes, texts, |candidates|)
         == Failure(OutcomesOf(ops, needs, topicCodes, texts)[position].reason)
  {
    hide Classify, IsDeterministic, AddVerdict;
    var broken := needs[position];
    var outcomes := OutcomesOf(ops, needs, topicCodes, texts);
    forall i | 0 <= i < broken ensures VerdictOn(candidates[i], ops[i], topicCodes, texts).Success? {
      if i in needs {
        var p :| 0 <= p < |needs| && needs[p] == i;
        assert p < position && outcomes[p].Fulfilled?;
      }
    }
    NothingBreaksBefore(candidates, ops, topicCodes, texts, broken);
    assert broken in needs;
    FailureIsFinal(candidates, ops, topicCodes, texts, broken + 1, |candidates|);
  }

  method FillDecisions(candidates: seq<Candidate>, ops: seq<Operation>, topicCodes: seq<string>, texts: Texts,
                       needs: seq<nat>, settled: array<Option<Outcome<Classified>>>, decisions: array<Option<Verdict>>)
    requires |candidates| == |ops| == decisions.Length && settled.Length == |needs|
    requires IsWorkList(candidates, topicCodes, texts, needs)
    requires forall p :: 0 <= p < |needs| ==>
               settled[p] == Some(OutcomesOf(ops, needs, topicCodes, texts)[p]) && settled[p].value.Fulfilled?
    requires forall i :: 0 <= i < |candidates| ==>
               decisions[i] == if IsDeterministic(candidates[i], topicCodes, texts) then Some(Deterministic) else None
    requires (settled as object) != (decisions as object)
    modifies decisions
    ensures forall i :: 0 <= i < |candidates| ==>
              decisions[i].Some? && VerdictOn(candidates[i], ops[i], topicCodes, texts) == Success(decisions[i].value)
  {
    hide Classify, IsDeterministic;
    for position := 0 to |needs|
      invariant forall i :: 0 <= i < |candidates| && IsDeterministic(candidates[i], topicCodes, texts) ==>
                  decisions[i] == Some(Deterministic)
      invariant forall p :: 0 <= p < position ==> decisions[needs[p]] == Some(Semantic(settled[p].value.value))
    {
      assert needs[position] in needs;
      decisions[needs[position]] := Some(Semantic(settled[position].value.value));
    }
    forall i | 0 <= i < |candidates|
      ensures decisions[i].Some? && VerdictOn(candidates[i], ops[i], topicCodes, texts) == Success(decisions[i].value)
    {
      if i in needs {
        var p :| 0 <= p < |needs| && needs[p] == i;
      }
    }
  }

  /** applyExcludedTopicPolicy: whatever the bound and the schedule, the report, or the error, is the
      one of the candidates taken one at a time in input order. */
  method ApplyExcludedTopicPolicy(candidates: seq<Candidate>, ops: seq<Operation>, topicCodes: seq<string>, texts: Texts,
                                  concurrency: int, schedule: seq<nat>) returns (r: Result<Report, nat>)
    requires |candidates| == |ops|
    ensures r == if topicCodes == [] then Success(NOTHING.(eligible := candidates))
                 else Sequential(candidates, ops, topicCodes, texts, |candidates|)
  {
    hide Classify, IsDeterministic, Sequential, VerdictOn;
    if topicCodes == [] { return Success(NOTHING.(eligible := candidates)); }
    var decisions, needs := DecideExplicit(candidates, topicCodes, texts);
    var outcomes := OutcomesOf(ops, needs, topicCodes, texts);
    var settled := MapSettledWithConcurrency(outcomes, concurrency, schedule);
    assert forall p :: 0 <= p < |needs| ==> settled[p] == settled[..][p] == Some(outcomes[p]);
    var failure := FirstRejection(settled);
    if failure.Some? {
      FirstRejectionEndsIt(candidates, ops, topicCodes, texts, needs, failure.value);
      return Failure(settled[failure.value].value.reason);
    }
    FillDecisions(candidates, ops, topicCodes, texts, needs, settled, decisions);
    var report := Assemble(candidates, ops, topicCodes, texts, decisions);
    r := Success(report);
  }

  // ---- What the report says ----

  /** The candidate may go on: no explicit title, and a classifier that answered and whose answer is
      complete, well-formed and clears every excluded topic. */
  ghost predicate MayGoOn(candidate: Candidate, op: Operation, topicCodes: seq<string>, texts: Texts) {
    && !IsDeterministic(candidate, topicCodes, texts)
    && op.Runs?
    && Clears(ReplyOf(op.call), topicCodes, texts.canonical)
  }

  ghost function Chosen(candidates: seq<Candidate>, ops: seq<Operation>, topicCodes: seq<string>, texts: Texts,
                        k: nat, goesOn: bool): seq<Candidate>
    requires k <= |candidates| == |ops|
  {
    if k == 0 then []
    else Chosen(candidates, ops, topicCodes, texts, k - 1, goesOn)
         + (if MayGoOn(candidates[k - 1], ops[k - 1], topicCodes, texts) == goesOn then [candidates[k - 1]] else [])
  }

  function CandidatesOf(blocked: seq<Blocked>): (r: seq<Candidate>)
    ensures |r| == |blocked|
  {
    if blocked == [] then [] else CandidatesOf(blocked[..|blocked| - 1]) + [blocked[|blocked| - 1].candidate]
  }

  predicate AuditOk(providers: seq<Provider>) {
    && Distinct(providers)
    && forall i :: 0 <= i < |providers| ==> SafeText(providers[i].name) && SafeText(providers[i].model)
  }

  predicate CountsAddUp(report: Report, k: nat) {
    && |report.eligible| == report.counts.semanticEligible
    && |report.blocked| == report.counts.deterministicBlocked + report.counts.semanticBlocked
    && report.counts.classified == report.counts.semanticBlocked + report.counts.semanticEligible
    && |report.eligible| + |report.blocked| == k
    && report.counts.deterministicBlocked + report.counts.classified == k
  }

  lemma NoRefusalMeansCleared(op: Operation, topicCodes: seq<string>, texts: Texts)
    requires op.Runs? && topicCodes != [] && Distinct(topicCodes)
    ensures FindRefusal(EvaluateExcludedTopics(topicCodes, ReplyOf(op.call), texts.canonical)).None?
       <==> Clears(ReplyOf(op.call), topicCodes, texts.canonical)
  {
    VetoIsFailClosed(topicCodes, ReplyOf(op.call), texts.canonical);
    if !ReplyOf(op.call).Answered? {
      var all := AllUncertain(topicCodes);
      assert Refuses(all[0].relation);
    }
  }

  lemma BlockedSnoc(blocked: seq<Blocked>, entry: Blocked)
    ensures CandidatesOf(blocked + [entry]) == CandidatesOf(blocked) + [entry.candidate]
  {
    assert (blocked + [entry])[..|blocked|] == blocked;
  }

  lemma AuditKeepsOk(providers: seq<Provider>, provider: Option<string>, model: Option<string>, texts: Texts)
    requires AuditOk(providers)
    ensures AuditOk(AuditProvider(providers, provider, model, texts))
  {
    hide SafeText;
  }

  lemma VerdictFitsTheCandidate(report: Report, candidate: Candidate, op: Operation, topicCodes: seq<string>, texts: Texts, k: nat)
    requires topicCodes != [] && Distinct(topicCodes)
    requires VerdictOn(candidate, op, topicCodes, texts).Success? && CountsAddUp(report, k) && AuditOk(report.providers)
    ensures var report' := AddVerdict(report, candidate, VerdictOn(candidate, op, topicCodes, texts).value, texts);
            && CountsAddUp(report', k + 1) && AuditOk(report'.providers)
            && report'.eligible == report.eligible + (if MayGoOn(candidate, op, topicCodes, texts) then [candidate] else [])
            && CandidatesOf(report'.blocked)
               == CandidatesOf(report.blocked) + (if MayGoOn(candidate, op, topicCodes, texts) then [] else [candidate])
  {
    hide EvaluateExcludedTopics, FindRefusal, Clears, AuditProvider, AuditOk, IsDeterministic;
    var report' := AddVerdict(report, candidate, VerdictOn(candidate, op, topicCodes, texts).value, texts);
    if op.Runs? && op.call.Generated? { AuditKeepsOk(report.providers, op.call.provider, op.call.model, texts); }
    if op.Runs? { NoRefusalMeansCleared(op, topicCodes, texts); }
    if |report'.blocked| > |report.blocked| { BlockedSnoc(report.blocked, report'.blocked[|report.blocked|]); }
  }

  /** The filter is exact and keeps the order: the eligible candidates are those that may go on, the
      blocked ones all others; the counts add up, and the provider audit names each pair once. */
  lemma {:induction false} ReportIsExact(candidates: seq<Candidate>, ops: seq<Operation>, topicCodes: seq<string>,
                                         texts: Texts, k: nat)
    requires k <= |candidates| == |ops| && topicCodes != [] && Distinct(topicCodes)
    requires Sequential(candidates, ops, topicCodes, texts, k).Success?
    ensures var report := Sequential(candidates, ops, topicCodes, texts, k).value;
            && report.eligible == Chosen(candidates, ops, topicCodes, texts, k, true)
            && CandidatesOf(report.blocked) == Chosen(candidates, ops, topicCodes, texts, k, false)
            && CountsAddUp(report, k)
            && AuditOk(report.providers)
  {
    if k == 0 {
      assert CandidatesOf([]) == [];
    } else {
      hide VerdictOn, AddVerdict, MayGoOn, AuditOk, CountsAddUp, CandidatesOf;
      ReportIsExact(candidates, ops, topicCodes, texts, k - 1);
      var before := Sequential(candidates, ops, topicCodes, texts, k - 1).value;
      VerdictFitsTheCandidate(before, candidates[k - 1], ops[k - 1], topicCodes, texts, k - 1);
    }
  }

  /** No candidate is lost or made up: eligible and blocked together are the input. */
  lemma {:induction false} NothingIsLost(candidates: seq<Candidate>, ops: seq<Operation>, topicCodes: seq<string>, texts: Texts, k: nat)
    requires k <= |candidates| == |ops|
    ensures multiset(Chosen(candidates, ops, topicCodes, texts, k, true)) + multiset(Chosen(candidates, ops, topicCodes, texts, k, false))
         == multiset(candidates[..k])
  {
    if k == 0 {
      assert candidates[..0] == [];
    } else {
      NothingIsLost(candidates, ops, topicCodes, texts, k - 1);
      assert candidates[..k] == candidates[..k - 1] + [candidates[k - 1]];
    }
  }
}
