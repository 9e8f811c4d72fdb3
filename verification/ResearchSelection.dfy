/** The selection passes of `runResearch` and the bookkeeping of its search run: every article is
    compared, at most one is selected, and the run is closed exactly once. */
module ResearchSelection {
  import opened Lists
  import opened Wrappers
  import Dedup = StoryDeduplication

  datatype Verification = Community | WebSource | OtherSource

  /** A ranked article with a row of its own. `hasSummary` says that its summary or title is not blank. */
  datatype Article = Article(id: nat, text: Dedup.Text, verification: Verification, primary: bool, hasSummary: bool)

  /** What the steps before the selection came to. */
  datatype Acquisition = NothingRanked(allBlocked: bool) | NothingNew | Ranked(articles: seq<Article>)

  datatype Evidence = CommunitySummary | ArticleText | WebSummary | FeedSummary

  datatype Selected = Selected(article: Article, evidence: Evidence)

  datatype Error = NoCandidates | EvidenceUnavailable | CallRaised

  datatype RunStatus = Running | Completed(resultCount: nat) | Failed

  /** What the world does at the next call: whether it succeeds, and what it answers. */
  datatype Turn = Turn(delivery: Delivery, reply: Dedup.Reply, extracted: bool, eligible: bool)

  const QUIET_TURN := Turn(Acked, Dedup.NoClassifier, true, true)

  function FirstTurn(turns: seq<Turn>): Turn {
    if turns == [] then QUIET_TURN else turns[0]
  }

  /** One of these calls was lost or refused by the database. */
  predicate LostOne(turns: seq<Turn>) {
    exists t :: t in turns && !t.delivery.Acked?
  }

  predicate Later(turns': seq<Turn>, turns: seq<Turn>) {
    forall t :: t in turns' ==> t in turns
  }

  /** `reply` is what the classifier was there to answer, `asked` says that it was called, and `recorded`
      that the decision was written down. */
  datatype Event =
    | Compared(id: nat, reply: Dedup.Reply, relation: Dedup.Relation, asked: bool, recorded: bool)
    | NotExtracted(id: nat)
    | Checked(id: nat, allowed: bool)
    | Rejected(id: nat)
    | Closed(status: RunStatus, acked: bool)

  const MAX_CLASSIFIER_CALLS := 3

  // ---- What the log says ----

  predicate About(e: Event, id: nat) {
    !e.Closed? && e.id == id
  }

  /** Two records of the same kind about the same article. */
  predicate Clash(a: Event, b: Event) {
    && ((a.Compared? && b.Compared?) || (a.Checked? && b.Checked?) || (a.Rejected? && b.Rejected?))
    && a.id == b.id
  }

  /** Every article is compared, checked and rejected at most once. */
  predicate Once(log: seq<Event>) {
    forall i, j :: 0 <= i < j < |log| ==> !Clash(log[i], log[j])
  }

  predicate AsksClassifier(e: Event) {
    e.Compared? && e.asked
  }

  function ClassifierCalls(log: seq<Event>): nat {
    if log == [] then 0 else ClassifierCalls(log[..|log| - 1]) + (if AsksClassifier(log[|log| - 1]) then 1 else 0)
  }

  predicate Passes(relation: Dedup.Relation) {
    relation.Distinct? || relation.FollowUp?
  }

  /** The article was compared, and the record says that it is new, unless comparing is off. */
  ghost predicate WasNew(log: seq<Event>, id: nat, dedup: bool) {
    dedup ==> exists e :: e in log && e.Compared? && e.id == id && e.recorded && Passes(e.relation)
  }

  ghost predicate TurnedAway(log: seq<Event>, id: nat) {
    exists e :: e in log && e.Compared? && e.id == id && !Passes(e.relation)
  }

  /** The decision is the one that the comparison makes of the article and the published stories. */
  predicate IsGrounded(e: Event, text: Dedup.Text, stories: seq<Dedup.Story>) {
    e.Compared? ==> var decision := Dedup.Evaluate(text, stories, e.reply);
      e.relation == decision.relation && e.asked == decision.classifierAttempted
  }

  ghost predicate Grounded(log: seq<Event>, articles: seq<Article>, stories: seq<Dedup.Story>) {
    forall e, i :: e in log && 0 <= i < |articles| && About(e, articles[i].id) ==> IsGrounded(e, articles[i].text, stories)
  }

  /** Turned away by the comparison, and rejected if it is a duplicate. */
  ghost predicate Dropped(log: seq<Event>, id: nat) {
    exists e :: e in log && e.Compared? && e.id == id && (e.relation.Uncertain? || (e.relation.Duplicate? && Rejected(id) in log))
  }

  predicate Refused(log: seq<Event>, id: nat) {
    Checked(id, false) in log && Rejected(id) in log
  }

  /** Why the first pass went on to the next article. */
  ghost predicate Accounted(log: seq<Event>, article: Article) {
    Dropped(log, article.id) || Refused(log, article.id) || (NotExtracted(article.id) in log && !article.verification.Community?)
  }

  ghost predicate AllAccounted(log: seq<Event>, articles: seq<Article>, k: nat)
    requires k <= |articles|
  {
    forall i :: 0 <= i < k ==> Accounted(log, articles[i])
  }

  /** Why a fallback pass went on to the next article. */
  ghost predicate PassedBy(log: seq<Event>, article: Article, evidence: Evidence) {
    Dropped(log, article.id) || Refused(log, article.id) || !FallsBack(article, evidence)
  }

  ghost predicate AllPassedBy(log: seq<Event>, articles: seq<Article>, k: nat, evidence: Evidence)
    requires k <= |articles|
  {
    forall i :: 0 <= i < k ==> PassedBy(log, articles[i], evidence)
  }

  predicate FirstChoice(evidence: Evidence) {
    evidence.CommunitySummary? || evidence.ArticleText?
  }

  /** Article `i` was reached by the pass that takes this kind of evidence: the passes before it took
      none, and neither did this one before article `i`. */
  ghost predicate InTurn(log: seq<Event>, articles: seq<Article>, i: nat, evidence: Evidence)
    requires i < |articles|
  {
    match evidence
    case CommunitySummary => articles[i].verification.Community? && AllAccounted(log, articles, i)
    case ArticleText => !articles[i].verification.Community? && AllAccounted(log, articles, i)
    case WebSummary =>
      FallsBack(articles[i], evidence) && AllAccounted(log, articles, |articles|) && AllPassedBy(log, articles, i, WebSummary)
    case FeedSummary =>
      && FallsBack(articles[i], evidence) && AllAccounted(log, articles, |articles|)
      && AllPassedBy(log, articles, |articles|, WebSummary) && AllPassedBy(log, articles, i, FeedSummary)
  }

  /** The policy refused every article that is no duplicate, and there is one. */
  ghost predicate PolicyRefusedAll(log: seq<Event>, articles: seq<Article>) {
    && (exists i :: 0 <= i < |articles| && !TurnedAway(log, articles[i].id))
    && (forall i :: 0 <= i < |articles| ==> TurnedAway(log, articles[i].id) || Refused(log, articles[i].id))
  }

  /** No pass took any of the articles. */
  ghost predicate NothingTaken(log: seq<Event>, articles: seq<Article>) {
    && AllAccounted(log, articles, |articles|)
    && AllPassedBy(log, articles, |articles|, WebSummary) && AllPassedBy(log, articles, |articles|, FeedSummary)
  }

  /** The choice is the first in turn; without one there was none to make, or a call raised. */
  ghost predicate ChoiceOk(r: Result<Selected, Error>, log: seq<Event>, articles: seq<Article>) {
    match r
    case Success(selected) => exists i :: 0 <= i < |articles| && articles[i] == selected.article && InTurn(log, articles, i, selected.evidence)
    case Failure(NoCandidates) => NothingTaken(log, articles) && PolicyRefusedAll(log, articles)
    case Failure(EvidenceUnavailable) => NothingTaken(log, articles) && !PolicyRefusedAll(log, articles)
    case Failure(CallRaised) => true
  }

  /** Nothing has been selected yet: every check refused its article, and the two sets hold exactly the
      articles that were turned away. */
  ghost predicate NoneYet(log: seq<Event>, duplicates: set<nat>, excluded: set<nat>) {
    && (forall e :: e in log && e.Checked? ==> e.id in excluded)
    && (forall id :: id in excluded ==> Checked(id, false) in log)
    && (forall id :: id in duplicates <==> TurnedAway(log, id))
    && (forall e :: e in log && e.Rejected? ==> e.id in duplicates || e.id in excluded)
  }

  /** Only articles before `k` have been looked at. */
  ghost predicate OnlyBefore(log: seq<Event>, articles: seq<Article>, k: nat)
    requires k <= |articles|
  {
    forall e :: e in log && !e.Closed? ==> exists i :: 0 <= i < k && articles[i].id == e.id
  }

  function Ids(articles: seq<Article>): seq<nat> {
    Map((a: Article) => a.id, articles)
  }

  /** The outcome of a run, read off its log and the row of the search run. */
  ghost predicate SelectionOk(r: Result<Selected, Error>, log: seq<Event>, articles: seq<Article>, dedup: bool) {
    && Once(log) && ClassifierCalls(log) <= MAX_CLASSIFIER_CALLS
    && (r.Success? ==>
          && r.value.article in articles
          && Checked(r.value.article.id, true) in log
          && WasNew(log, r.value.article.id, dedup)
          && Rejected(r.value.article.id) !in log)
  }

  /** At most one terminal write is acknowledged, and it says how the run ended; the row is closed by
      it, and is left open only when the database did not take the write. */
  ghost predicate ClosedOnce(r: Result<Selected, Error>, log: seq<Event>, status: RunStatus) {
    && (forall i, j :: 0 <= i < j < |log| && log[i].Closed? && log[j].Closed? ==> !(log[i].acked && log[j].acked))
    && (forall e :: e in log && e.Closed? && e.acked ==> status == e.status)
    && (r.Success? ==> status.Completed? && Closed(status, true) in log)
    && (status.Running? ==> r.Failure?)
  }

  lemma CallsSnoc(log: seq<Event>, e: Event)
    ensures ClassifierCalls(log + [e]) == ClassifierCalls(log) + (if AsksClassifier(e) then 1 else 0)
  {
    assert (log + [e])[..|log|] == log;
  }

  class ResearchRun {
    var turns: seq<Turn>
    var status: RunStatus
    ghost var log: seq<Event>

    constructor (turns: seq<Turn>)
      ensures status == Running && log == [] && this.turns == turns
    {
      this.turns, status, log := turns, Running, [];
    }

    method NextTurn() returns (turn: Turn)
      modifies this`turns
      ensures turn == FirstTurn(old(turns)) && turns == if old(turns) == [] then [] else old(turns)[1..]
      ensures Later(turns, old(turns)) && (!turn.delivery.Acked? ==> LostOne(old(turns)))
    {
      turn := QUIET_TURN;
      if turns != [] { turn, turns := turns[0], turns[1..]; }
    }

    ghost method Note(e: Event)
      requires Once(log) && forall earlier :: earlier in log ==> !Clash(earlier, e)
      modifies this`log
      ensures log == old(log) + [e] && Once(log)
      ensures ClassifierCalls(log) == ClassifierCalls(old(log)) + (if AsksClassifier(e) then 1 else 0)
    {
      CallsSnoc(log, e);
      log := log + [e];
    }

    /** A terminal write: only a running row is closed, and a lost answer or an already closed row raises. */
    method Close(terminal: RunStatus) returns (acked: bool)
      requires !terminal.Running? && Once(log)
      modifies this`turns, this`status, this`log
      ensures Once(log)
      ensures log == old(log) + [Closed(terminal, acked)]
      ensures ClassifierCalls(log) == ClassifierCalls(old(log))
      ensures acked ==> old(status).Running? && status == terminal
      ensures !acked ==> status == old(status) || (old(status).Running? && status == terminal)
      ensures status.Running? ==> !acked
      ensures acked == (old(status).Running? && FirstTurn(old(turns)).delivery.Acked?)
      ensures Later(turns, old(turns)) && (!acked && old(status).Running? ==> LostOne(old(turns)))
    {
      var turn := NextTurn();
      acked := turn.delivery.Acked? && status.Running?;
      if !turn.delivery.NotApplied? && status.Running? { status := terminal; }
      Note(Closed(terminal, acked));
    }

    /** evaluateStoryDuplicate and the record of its decision; `Failure` when the record raises. */
    method Compare(article: Article, stories: seq<Dedup.Story>, aiCalls: nat) returns (r: Result<Dedup.Relation, ()>, calls: nat)
      requires Once(log) && (forall e :: e in log ==> !About(e, article.id))
      requires ClassifierCalls(log) == aiCalls <= MAX_CLASSIFIER_CALLS
      modifies this`turns, this`log
      ensures Once(log) && ClassifierCalls(log) == calls <= MAX_CLASSIFIER_CALLS
      ensures |log| == |old(log)| + 1 && old(log) <= log
      ensures var e := log[|old(log)|];
        && e.Compared? && e.id == article.id && e.recorded == r.Success? && (r.Success? ==> e.relation == r.value)
        && e.reply == (if aiCalls < MAX_CLASSIFIER_CALLS then FirstTurn(old(turns)).reply else Dedup.NoClassifier)
        && IsGrounded(e, article.text, stories)
      ensures r.Success? == FirstTurn(old(turns)).delivery.Acked?
      ensures Later(turns, old(turns)) && (r.Failure? ==> LostOne(old(turns)))
    {
      hide Dedup.Evaluate;
      var turn := NextTurn();
      var reply := if aiCalls < MAX_CLASSIFIER_CALLS then turn.reply else Dedup.NoClassifier;
      var decision := Dedup.Evaluate(article.text, stories, reply);
      Dedup.DecisionsAreGrounded(article.text, stories, reply);
      Note(Compared(article.id, reply, decision.relation, decision.classifierAttempted, turn.delivery.Acked?));
      calls := if decision.classifierAttempted then aiCalls + 1 else aiCalls;
      r := if turn.delivery.Acked? then Success(decision.relation) else Failure(());
    }

    /** transitionArticle from discovered to rejected. */
    method Reject(id: nat) returns (rejected: bool)
      requires Once(log) && Rejected(id) !in log
      modifies this`turns, this`log
      ensures Once(log) && ClassifierCalls(log) == ClassifierCalls(old(log))
      ensures log == if rejected then old(log) + [Rejected(id)] else old(log)
      ensures rejected == FirstTurn(old(turns)).delivery.Acked?
      ensures Later(turns, old(turns)) && (!rejected ==> LostOne(old(turns)))
    {
      var turn := NextTurn();
      rejected := turn.delivery.Acked?;
      if rejected { Note(Rejected(id)); }
    }

    /** evidenceAllowed: the policy on the evidence, and the rejection of an article it refuses. */
    method EvidenceAllowed(id: nat) returns (r: Result<bool, ()>)
      requires Once(log) && Rejected(id) !in log && forall e :: e in log && e.Checked? ==> e.id != id
      modifies this`turns, this`log
      ensures Once(log) && ClassifierCalls(log) == ClassifierCalls(old(log)) && old(log) <= log
      ensures r == Success(true) ==> log == old(log) + [Checked(id, true)]
      ensures r == Success(false) ==> log == old(log) + [Checked(id, false), Rejected(id)]
      ensures forall k :: |old(log)| <= k < |log| ==> About(log[k], id)
      ensures forall k :: |old(log)| <= k < |log| ==> !log[k].Compared?
      ensures r.Success? ==> r.value == FirstTurn(old(turns)).eligible
      ensures Later(turns, old(turns)) && (r.Failure? ==> LostOne(old(turns)))
    {
      hide ClassifierCalls;
      var turn := NextTurn();
      if !turn.delivery.Acked? { return Failure(()); }
      Note(Checked(id, turn.eligible));
      if turn.eligible { return Success(true); }
      var rejected := Reject(id);
      r := if rejected then Success(false) else Failure(());
    }
  }

  // ---- The passes ----

  /** What a pass over the articles leaves behind. */
  datatype Pass = Chosen(selected: Selected) | Raised | Onward(duplicates: set<nat>, excluded: set<nat>, aiCalls: nat)

  ghost predicate PassOk(pass: Pass, log: seq<Event>, articles: seq<Article>, dedup: bool) {
    && Once(log) && ClassifierCalls(log) <= MAX_CLASSIFIER_CALLS
    && (forall e :: e in log ==> !e.Closed?)
    && match pass
       case Chosen(selected) => SelectionOk(Success(selected), log, articles, dedup)
       case Raised => true
       case Onward(duplicates, excluded, aiCalls) =>
         NoneYet(log, duplicates, excluded) && ClassifierCalls(log) == aiCalls
  }

  /** The first `k` articles have been compared, and those not turned away as duplicates were new. */
  ghost predicate AllCompared(log: seq<Event>, articles: seq<Article>, k: nat, duplicates: set<nat>, dedup: bool)
    requires k <= |articles|
  {
    forall i :: 0 <= i < k && articles[i].id !in duplicates ==> WasNew(log, articles[i].id, dedup)
  }

  /** Where the first pass stands before article `k`. */
  ghost predicate FirstPassOk(pass: Pass, log: seq<Event>, articles: seq<Article>, k: nat, dedup: bool)
    requires k <= |articles|
  {
    && PassOk(pass, log, articles, dedup)
    && (pass.Onward? ==> OnlyBefore(log, articles, k) && AllCompared(log, articles, k, pass.duplicates, dedup))
  }

  /** The decisions are grounded, and the two sets hold what was dropped and what was refused. */
  ghost predicate Tracked(pass: Pass, log: seq<Event>, articles: seq<Article>, stories: seq<Dedup.Story>) {
    && Grounded(log, articles, stories)
    && (pass.Onward? ==>
          && (forall id :: id in pass.duplicates ==> Dropped(log, id))
          && (forall id :: id in pass.excluded ==> Refused(log, id)))
  }

  lemma RecordsStay(log: seq<Event>, events: seq<Event>)
    ensures forall id :: Dropped(log, id) ==> Dropped(log + events, id)
    ensures forall id :: Refused(log, id) ==> Refused(log + events, id)
  {
    forall id | Dropped(log, id) ensures Dropped(log + events, id) {
      var e :| e in log && e.Compared? && e.id == id && (e.relation.Uncertain? || (e.relation.Duplicate? && Rejected(id) in log));
      assert e in log + events;
    }
  }

  /** Events about one article leave the rest as it was. */
  lemma TrackGrows(pass: Pass, log: seq<Event>, events: seq<Event>, articles: seq<Article>, k: nat, stories: seq<Dedup.Story>)
    requires k < |articles| && Distinct(Ids(articles)) && Tracked(pass, log, articles, stories)
    requires forall e :: e in events ==> About(e, articles[k].id) && IsGrounded(e, articles[k].text, stories)
    ensures Tracked(pass, log + events, articles, stories)
    ensures Tracked(Raised, log + events, articles, stories)
  {
    hide Dropped, Refused, IsGrounded;
    RecordsStay(log, events);
    forall e, i | e in log + events && 0 <= i < |articles| && About(e, articles[i].id) ensures IsGrounded(e, articles[i].text, stories) {
      if e in events {
        assert Ids(articles)[i] == Ids(articles)[k];
      } else {
        assert e in log;
      }
    }
  }

  lemma OneMoreDropped(before: Pass, log: seq<Event>, e: Event, articles: seq<Article>, stories: seq<Dedup.Story>, aiCalls: nat)
    requires before.Onward? && Tracked(before, log, articles, stories)
    requires e in log && e.Compared? && (e.relation.Uncertain? || (e.relation.Duplicate? && Rejected(e.id) in log))
    ensures Dropped(log, e.id)
    ensures Tracked(Onward(before.duplicates + {e.id}, before.excluded, aiCalls), log, articles, stories)
  {
    hide Grounded, Refused;
  }

  lemma OneMoreRefused(before: Pass, log: seq<Event>, id: nat, articles: seq<Article>, stories: seq<Dedup.Story>)
    requires before.Onward? && Tracked(before, log, articles, stories)
    requires Checked(id, false) in log && Rejected(id) in log
    ensures Refused(log, id)
    ensures Tracked(Onward(before.duplicates, before.excluded + {id}, before.aiCalls), log, articles, stories)
  {
    hide Grounded, Dropped;
  }

  lemma TrackIgnoresCalls(before: Pass, log: seq<Event>, articles: seq<Article>, stories: seq<Dedup.Story>, aiCalls: nat)
    requires before.Onward? && Tracked(before, log, articles, stories)
    ensures Tracked(Onward(before.duplicates, before.excluded, aiCalls), log, articles, stories)
    ensures forall selected :: Tracked(Chosen(selected), log, articles, stories)
  {
    hide Grounded, Dropped, Refused;
  }

  lemma AccountsStay(log: seq<Event>, log': seq<Event>, articles: seq<Article>)
    requires log <= log'
    ensures forall i :: 0 <= i < |articles| && Accounted(log, articles[i]) ==> Accounted(log', articles[i])
    ensures forall i, evidence :: 0 <= i < |articles| && PassedBy(log, articles[i], evidence) ==> PassedBy(log', articles[i], evidence)
    ensures forall k :: 0 <= k <= |articles| && AllAccounted(log, articles, k) ==> AllAccounted(log', articles, k)
    ensures forall k, evidence :: 0 <= k <= |articles| && AllPassedBy(log, articles, k, evidence) ==> AllPassedBy(log', articles, k, evidence)
  {
    RecordsStay(log, log'[|log|..]);
    assert log' == log + log'[|log|..];
    hide Dropped, Refused;
  }

  lemma NothingAboutTheNext(log: seq<Event>, articles: seq<Article>, k: nat)
    requires k < |articles| && Distinct(Ids(articles)) && OnlyBefore(log, articles, k)
    ensures forall e :: e in log ==> !About(e, articles[k].id)
  {
    forall e | e in log && !e.Closed? ensures e.id != articles[k].id {
      var i :| 0 <= i < k && articles[i].id == e.id;
      assert Ids(articles)[i] != Ids(articles)[k];
    }
  }

  lemma Recorded(log: seq<Event>, e: Event, duplicates: set<nat>, excluded: set<nat>)
    requires NoneYet(log, duplicates, excluded) && e.Compared?
    ensures NoneYet(log + [e], if Passes(e.relation) then duplicates else duplicates + {e.id}, excluded)
  {
    forall id ensures TurnedAway(log + [e], id) <==> TurnedAway(log, id) || (e.id == id && !Passes(e.relation)) {
      assert e in log + [e];
    }
  }

  lemma JustRecorded(log: seq<Event>, e: Event)
    requires e.Compared? && e.recorded
    ensures Passes(e.relation) ==> WasNew(log + [e], e.id, true)
  {
    assert e in log + [e];
  }

  lemma TurnedAwayStays(log: seq<Event>, e: Event)
    requires !e.Compared?
    ensures forall id :: TurnedAway(log + [e], id) <==> TurnedAway(log, id)
  {
  }

  lemma WasRejected(log: seq<Event>, id: nat, duplicates: set<nat>, excluded: set<nat>)
    requires NoneYet(log, duplicates, excluded) && (id in duplicates || id in excluded)
    ensures NoneYet(log + [Rejected(id)], duplicates, excluded)
  {
    TurnedAwayStays(log, Rejected(id));
  }

  lemma WasRefused(log: seq<Event>, id: nat, duplicates: set<nat>, excluded: set<nat>)
    requires NoneYet(log, duplicates, excluded)
    ensures NoneYet(log + [Checked(id, false)], duplicates, excluded + {id})
  {
    TurnedAwayStays(log, Checked(id, false));
  }

  /** Events about article `k` keep the account of the articles before it, and account for it. */
  lemma FirstPassGrows(log: seq<Event>, events: seq<Event>, articles: seq<Article>, k: nat, dedup: bool,
                       duplicates: set<nat>, duplicates': set<nat>)
    requires k < |articles| && OnlyBefore(log, articles, k) && AllCompared(log, articles, k, duplicates, dedup)
    requires (forall e :: e in events ==> About(e, articles[k].id)) && duplicates <= duplicates'
    requires articles[k].id in duplicates' || WasNew(log + events, articles[k].id, dedup)
    ensures OnlyBefore(log + events, articles, k + 1) && AllCompared(log + events, articles, k + 1, duplicates', dedup)
  {
    forall i | 0 <= i < k && articles[i].id !in duplicates' ensures WasNew(log + events, articles[i].id, dedup) {
      assert WasNew(log, articles[i].id, dedup);
    }
  }

  /** Events about an article that has been dealt with change nothing in that account. */
  lemma AccountStays(log: seq<Event>, e: Event, articles: seq<Article>, i: nat, n: nat, dedup: bool, duplicates: set<nat>)
    requires i < n <= |articles| && OnlyBefore(log, articles, n) && AllCompared(log, articles, n, duplicates, dedup)
    requires About(e, articles[i].id)
    ensures OnlyBefore(log + [e], articles, n) && AllCompared(log + [e], articles, n, duplicates, dedup)
  {
    forall k | 0 <= k < n && articles[k].id !in duplicates ensures WasNew(log + [e], articles[k].id, dedup) {
      assert WasNew(log, articles[k].id, dedup);
    }
  }

  /** Comparing article `k`: onward to its evidence, or to the next article. */
  method CompareFirst(run: ResearchRun, stories: seq<Dedup.Story>, articles: seq<Article>, k: nat, before: Pass)
    returns (pass: Pass, isNew: bool)
    requires k < |articles| && Distinct(Ids(articles)) && before.Onward? && FirstPassOk(before, run.log, articles, k, true)
    requires Tracked(before, run.log, articles, stories)
    modifies run`turns, run`log
    ensures !pass.Chosen? && FirstPassOk(pass, run.log, articles, k + 1, true) && Tracked(pass, run.log, articles, stories)
    ensures pass.Onward? && isNew ==> pass.duplicates == before.duplicates && pass.excluded == before.excluded
    ensures pass.Onward? && !isNew ==> Dropped(run.log, articles[k].id)
    ensures old(run.log) <= run.log && Later(run.turns, old(run.turns)) && (pass.Raised? ==> LostOne(old(run.turns)))
  {
    hide FirstPassOk, NoneYet, OnlyBefore, AllCompared, WasNew, IsGrounded, Tracked, Dropped, Once, Clash, Ids;
    var article := articles[k];
    ghost var log := run.log;
    OpenToCompare(before, log, articles, k);
    var compared, aiCalls := run.Compare(article, stories, before.aiCalls);
    ghost var e := run.log[|log|];
    assert run.log == log + [e] && e in run.log;
    TrackGrows(before, log, [e], articles, k, stories);
    ComparedIsOk(before, log, e, articles, k, aiCalls);
    if compared.Failure? { return Raised, false; }
    isNew := Passes(compared.value);
    var duplicates := if isNew then before.duplicates else before.duplicates + {article.id};
    pass := Onward(duplicates, before.excluded, aiCalls);
    if compared.value.Duplicate? {
      var rejected := run.Reject(article.id);
      if !rejected { return Raised, false; }
      RejectedIsOk(pass, log + [e], articles, k);
      RejectionTracks(before, log + [e], articles, k, stories);
      assert e in run.log && run.log[|log| + 1] == Rejected(article.id);
    }
    if isNew {
      TrackIgnoresCalls(before, run.log, articles, stories, aiCalls);
    } else {
      OneMoreDropped(before, run.log, e, articles, stories, aiCalls);
    }
  }

  lemma OpenToCompare(before: Pass, log: seq<Event>, articles: seq<Article>, k: nat)
    requires k < |articles| && Distinct(Ids(articles)) && before.Onward? && FirstPassOk(before, log, articles, k, true)
    ensures Once(log) && ClassifierCalls(log) == before.aiCalls <= MAX_CLASSIFIER_CALLS
    ensures forall e :: e in log ==> !About(e, articles[k].id)
  {
    hide NoneYet, AllCompared, Once, Ids;
    NothingAboutTheNext(log, articles, k);
  }

  lemma ComparedIsOk(before: Pass, log: seq<Event>, e: Event, articles: seq<Article>, k: nat, aiCalls: nat)
    requires k < |articles| && before.Onward? && FirstPassOk(before, log, articles, k, true)
    requires e.Compared? && e.id == articles[k].id && Once(log + [e]) && ClassifierCalls(log + [e]) == aiCalls <= MAX_CLASSIFIER_CALLS
    ensures FirstPassOk(Raised, log + [e], articles, k + 1, true)
    ensures e.recorded ==>
      var duplicates := if Passes(e.relation) then before.duplicates else before.duplicates + {e.id};
      FirstPassOk(Onward(duplicates, before.excluded, aiCalls), log + [e], articles, k + 1, true)
  {
    hide NoneYet, OnlyBefore, AllCompared, WasNew, Once, ClassifierCalls;
    if e.recorded {
      var duplicates := if Passes(e.relation) then before.duplicates else before.duplicates + {e.id};
      Recorded(log, e, before.duplicates, before.excluded);
      JustRecorded(log, e);
      FirstPassGrows(log, [e], articles, k, true, before.duplicates, duplicates);
    }
  }

  lemma RejectedIsOk(pass: Pass, log: seq<Event>, articles: seq<Article>, k: nat)
    requires k < |articles| && pass.Onward? && FirstPassOk(pass, log, articles, k + 1, true) && articles[k].id in pass.duplicates
    requires Once(log + [Rejected(articles[k].id)])
    ensures FirstPassOk(pass, log + [Rejected(articles[k].id)], articles, k + 1, true)
    ensures FirstPassOk(Raised, log, articles, k + 1, true)
  {
    hide NoneYet, OnlyBefore, AllCompared, WasNew, Once, ClassifierCalls;
    WasRejected(log, articles[k].id, pass.duplicates, pass.excluded);
    AccountStays(log, Rejected(articles[k].id), articles, k, k + 1, true, pass.duplicates);
    CallsSnoc(log, Rejected(articles[k].id));
  }

  lemma RejectionTracks(pass: Pass, log: seq<Event>, articles: seq<Article>, k: nat, stories: seq<Dedup.Story>)
    requires k < |articles| && Distinct(Ids(articles)) && Tracked(pass, log, articles, stories)
    ensures Tracked(pass, log + [Rejected(articles[k].id)], articles, stories)
  {
    TrackGrows(pass, log, [Rejected(articles[k].id)], articles, k, stories);
  }

  /** Checking the evidence of article `i`, which has not been turned away: it is chosen, or excluded. */
  method CheckEvidence(run: ResearchRun, stories: seq<Dedup.Story>, articles: seq<Article>, i: nat, ghost n: nat, dedup: bool,
                       before: Pass, evidence: Evidence)
    returns (pass: Pass)
    requires i < n <= |articles| && before.Onward? && FirstPassOk(before, run.log, articles, n, dedup)
    requires articles[i].id !in before.duplicates && articles[i].id !in before.excluded
    requires Distinct(Ids(articles)) && Tracked(before, run.log, articles, stories)
    modifies run`turns, run`log
    ensures FirstPassOk(pass, run.log, articles, n, dedup) && Tracked(pass, run.log, articles, stories)
    ensures pass.Onward? ==> before.duplicates == pass.duplicates && Refused(run.log, articles[i].id)
    ensures pass.Chosen? ==> pass.selected == Selected(articles[i], evidence)
    ensures old(run.log) <= run.log && Later(run.turns, old(run.turns)) && (pass.Raised? ==> LostOne(old(run.turns)))
  {
    hide FirstPassOk, Tracked, Refused, Clash, Ids, Once;
    var id := articles[i].id;
    ghost var log := run.log;
    OpenToCheck(before, log, articles, i, n, dedup);
    var allowed := run.EvidenceAllowed(id);
    ghost var events := run.log[|log|..];
    assert run.log == log + events;
    TrackGrows(before, log, events, articles, i, stories);
    CheckRaises(before, log, run.log, articles, n, dedup);
    if allowed.Failure? { return Raised; }
    TrackIgnoresCalls(before, run.log, articles, stories, before.aiCalls);
    if allowed.value {
      CheckAllows(before, log, articles, i, n, dedup, evidence);
      return Chosen(Selected(articles[i], evidence));
    }
    CheckRefuses(before, log, articles, i, n, dedup);
    assert run.log == log + [Checked(id, false), Rejected(id)];
    assert run.log[|log|] == Checked(id, false) && run.log[|log| + 1] == Rejected(id);
    OneMoreRefused(before, run.log, id, articles, stories);
    pass := Onward(before.duplicates, before.excluded + {id}, before.aiCalls);
  }

  lemma OpenToCheck(before: Pass, log: seq<Event>, articles: seq<Article>, i: nat, n: nat, dedup: bool)
    requires i < n <= |articles| && before.Onward? && FirstPassOk(before, log, articles, n, dedup)
    requires articles[i].id !in before.duplicates && articles[i].id !in before.excluded
    ensures Once(log) && Rejected(articles[i].id) !in log && forall e :: e in log && e.Checked? ==> e.id != articles[i].id
  {
    hide OnlyBefore, AllCompared;
  }

  lemma CheckRaises(before: Pass, log: seq<Event>, log': seq<Event>, articles: seq<Article>, n: nat, dedup: bool)
    requires n <= |articles| && before.Onward? && FirstPassOk(before, log, articles, n, dedup)
    requires log <= log' && Once(log') && ClassifierCalls(log') == ClassifierCalls(log)
    requires forall k :: |log| <= k < |log'| ==> !log'[k].Closed?
    ensures FirstPassOk(Raised, log', articles, n, dedup)
  {
    hide NoneYet, OnlyBefore, AllCompared, Once, ClassifierCalls;
    forall e | e in log' ensures !e.Closed? {
      var k :| 0 <= k < |log'| && log'[k] == e;
      if k < |log| { assert log[k] in log; }
    }
  }

  lemma CheckAllows(before: Pass, log: seq<Event>, articles: seq<Article>, i: nat, n: nat, dedup: bool, evidence: Evidence)
    requires i < n <= |articles| && before.Onward? && FirstPassOk(before, log, articles, n, dedup)
    requires articles[i].id !in before.duplicates && articles[i].id !in before.excluded
    requires Once(log + [Checked(articles[i].id, true)])
    ensures FirstPassOk(Chosen(Selected(articles[i], evidence)), log + [Checked(articles[i].id, true)], articles, n, dedup)
  {
    hide OnlyBefore, Once, ClassifierCalls;
    var id := articles[i].id;
    assert WasNew(log, id, dedup);
    hide WasNew, AllCompared;
    StaysNew(log, Checked(id, true), id, dedup);
    CallsSnoc(log, Checked(id, true));
    assert (log + [Checked(id, true)])[|log|] == Checked(id, true);
  }

  lemma CheckRefuses(before: Pass, log: seq<Event>, articles: seq<Article>, i: nat, n: nat, dedup: bool)
    requires i < n <= |articles| && before.Onward? && FirstPassOk(before, log, articles, n, dedup)
    requires Once(log + [Checked(articles[i].id, false), Rejected(articles[i].id)])
    ensures FirstPassOk(Onward(before.duplicates, before.excluded + {articles[i].id}, before.aiCalls),
                        log + [Checked(articles[i].id, false), Rejected(articles[i].id)], articles, n, dedup)
  {
    hide OnlyBefore, AllCompared, WasNew, NoneYet, Once, ClassifierCalls;
    var id := articles[i].id;
    var checked := log + [Checked(id, false)];
    WasRefused(log, id, before.duplicates, before.excluded);
    AccountStays(log, Checked(id, false), articles, i, n, dedup, before.duplicates);
    WasRejected(checked, id, before.duplicates, before.excluded + {id});
    AccountStays(checked, Rejected(id), articles, i, n, dedup, before.duplicates);
    CallsSnoc(log, Checked(id, false));
    CallsSnoc(checked, Rejected(id));
    assert log + [Checked(id, false), Rejected(id)] == checked + [Rejected(id)];
  }

  lemma StaysNew(log: seq<Event>, e: Event, id: nat, dedup: bool)
    requires WasNew(log, id, dedup)
    ensures WasNew(log + [e], id, dedup)
  {
  }

  /** Without comparing, every article is open to selection. */
  lemma NothingToCompare(pass: Pass, log: seq<Event>, articles: seq<Article>, k: nat)
    requires k < |articles| && pass.Onward? && FirstPassOk(pass, log, articles, k, false)
    ensures FirstPassOk(pass, log, articles, k + 1, false)
  {
    hide NoneYet;
  }

  lemma NextIsOpen(before: Pass, log: seq<Event>, articles: seq<Article>, k: nat, dedup: bool)
    requires k < |articles| && Distinct(Ids(articles)) && before.Onward? && FirstPassOk(before, log, articles, k, dedup)
    ensures articles[k].id !in before.duplicates && articles[k].id !in before.excluded
  {
    NothingAboutTheNext(log, articles, k);
    hide OnlyBefore, AllCompared;
    var id := articles[k].id;
    assert id in before.duplicates ==> TurnedAway(log, id);
    assert id in before.excluded ==> Checked(id, false) in log;
  }

  lemma NotExtractedIsOk(pass: Pass, log: seq<Event>, articles: seq<Article>, k: nat, dedup: bool, stories: seq<Dedup.Story>)
    requires k < |articles| && Distinct(Ids(articles))
    requires pass.Onward? && FirstPassOk(pass, log, articles, k + 1, dedup) && Tracked(pass, log, articles, stories)
    ensures FirstPassOk(pass, log + [NotExtracted(articles[k].id)], articles, k + 1, dedup)
    ensures Tracked(pass, log + [NotExtracted(articles[k].id)], articles, stories)
  {
    var e := NotExtracted(articles[k].id);
    TrackGrows(pass, log, [e], articles, k, stories);
    AccountStays(log, e, articles, k, k + 1, dedup, pass.duplicates);
    TurnedAwayStays(log, e);
    CallsSnoc(log, e);
    hide OnlyBefore, AllCompared, WasNew, Tracked, TurnedAway;
  }

  /** One article of the first pass. */
  method Examine(run: ResearchRun, stories: seq<Dedup.Story>, dedup: bool, articles: seq<Article>, k: nat, before: Pass)
    returns (pass: Pass)
    requires k < |articles| && Distinct(Ids(articles)) && before.Onward? && FirstPassOk(before, run.log, articles, k, dedup)
    requires Tracked(before, run.log, articles, stories)
    modifies run`turns, run`log
    ensures FirstPassOk(pass, run.log, articles, k + 1, dedup) && Tracked(pass, run.log, articles, stories)
    ensures pass.Onward? ==> Accounted(run.log, articles[k])
    ensures pass.Chosen? ==>
      pass.selected == Selected(articles[k], if articles[k].verification.Community? then CommunitySummary else ArticleText)
    ensures old(run.log) <= run.log && Later(run.turns, old(run.turns)) && (pass.Raised? ==> LostOne(old(run.turns)))
  {
    NextIsOpen(before, run.log, articles, k, dedup);
    hide FirstPassOk, Tracked, Dropped, Refused;
    pass := before;
    if dedup {
      var isNew;
      pass, isNew := CompareFirst(run, stories, articles, k, before);
      if pass.Raised? || !isNew { return; }
    } else {
      NothingToCompare(before, run.log, articles, k);
    }
    if articles[k].verification.Community? {
      pass := CheckEvidence(run, stories, articles, k, k + 1, dedup, pass, CommunitySummary);
    } else {
      var turn := run.NextTurn();
      if !turn.extracted {
        OnwardIsOnce(pass, run.log, articles, k + 1, dedup);
        NotExtractedIsOk(pass, run.log, articles, k, dedup, stories);
        run.Note(NotExtracted(articles[k].id));
        return;
      }
      if !turn.delivery.Acked? {
        RaisedIsOk(pass, run.log, articles, k + 1, dedup, stories);
        return Raised;
      }
      pass := CheckEvidence(run, stories, articles, k, k + 1, dedup, pass, ArticleText);
    }
  }

  lemma OnwardIsOnce(pass: Pass, log: seq<Event>, articles: seq<Article>, n: nat, dedup: bool)
    requires n <= |articles| && FirstPassOk(pass, log, articles, n, dedup)
    ensures Once(log)
  {
  }

  lemma RaisedIsOk(pass: Pass, log: seq<Event>, articles: seq<Article>, n: nat, dedup: bool, stories: seq<Dedup.Story>)
    requires n <= |articles| && FirstPassOk(pass, log, articles, n, dedup) && Tracked(pass, log, articles, stories)
    ensures FirstPassOk(Raised, log, articles, n, dedup) && Tracked(Raised, log, articles, stories)
  {
    hide NoneYet, OnlyBefore, AllCompared, WasNew;
  }

  /** What a pass chooses is in turn; a pass that raises lost a call. */
  ghost predicate PassChoiceOk(pass: Pass, log: seq<Event>, articles: seq<Article>, turns: seq<Turn>) {
    && (pass.Chosen? ==> exists i :: 0 <= i < |articles| && articles[i] == pass.selected.article && InTurn(log, articles, i, pass.selected.evidence))
    && (pass.Raised? ==> LostOne(turns))
  }

  lemma FirstChoiceIsInTurn(pass: Pass, log: seq<Event>, log': seq<Event>, articles: seq<Article>, k: nat, dedup: bool, turns: seq<Turn>)
    requires k < |articles| && log <= log' && AllAccounted(log, articles, k)
    requires pass.Onward? ==> Accounted(log', articles[k])
    requires pass.Chosen? ==>
      pass.selected == Selected(articles[k], if articles[k].verification.Community? then CommunitySummary else ArticleText)
    requires pass.Raised? ==> LostOne(turns)
    requires FirstPassOk(pass, log', articles, k + 1, dedup)
    ensures PassChoiceOk(pass, log', articles, turns)
    ensures pass.Onward? ==> AllAccounted(log', articles, k + 1)
    ensures !pass.Onward? ==> FirstPassOk(pass, log', articles, |articles|, dedup)
  {
    hide Accounted, NoneYet, OnlyBefore, AllCompared, SelectionOk;
    AccountsStay(log, log', articles);
    if pass.Chosen? { assert InTurn(log', articles, k, pass.selected.evidence); }
  }

  method FirstPass(run: ResearchRun, stories: seq<Dedup.Story>, dedup: bool, articles: seq<Article>) returns (pass: Pass)
    requires Distinct(Ids(articles)) && run.log == []
    modifies run`turns, run`log
    ensures FirstPassOk(pass, run.log, articles, |articles|, dedup) && Tracked(pass, run.log, articles, stories)
    ensures pass.Onward? ==> AllAccounted(run.log, articles, |articles|)
    ensures PassChoiceOk(pass, run.log, articles, old(run.turns)) && Later(run.turns, old(run.turns))
  {
    pass := Onward({}, {}, 0);
    var k := 0;
    while k < |articles| && pass.Onward?
      invariant k <= |articles| && Tracked(pass, run.log, articles, stories)
      invariant pass.Onward? ==> FirstPassOk(pass, run.log, articles, k, dedup) && AllAccounted(run.log, articles, k)
      invariant !pass.Onward? ==> FirstPassOk(pass, run.log, articles, |articles|, dedup)
      invariant PassChoiceOk(pass, run.log, articles, old(run.turns)) && Later(run.turns, old(run.turns))
      decreases |articles| - k
    {
      hide Tracked, Accounted, FirstPassOk, PassChoiceOk, Ids;
      ghost var log := run.log;
      pass := Examine(run, stories, dedup, articles, k, pass);
      FirstChoiceIsInTurn(pass, log, run.log, articles, k, dedup, old(run.turns));
      k := k + 1;
    }
  }

  /** Which articles a fallback pass considers. */
  predicate FallsBack(article: Article, evidence: Evidence) {
    article.hasSummary && if evidence.WebSummary? then article.verification.WebSource? else article.primary
  }

  /** A fallback pass: the summary of an article that was not turned away stands in for its text. */
  method FallbackPass(run: ResearchRun, stories: seq<Dedup.Story>, articles: seq<Article>, dedup: bool, before: Pass, evidence: Evidence)
    returns (pass: Pass)
    requires before.Onward? && FirstPassOk(before, run.log, articles, |articles|, dedup)
    requires Distinct(Ids(articles)) && Tracked(before, run.log, articles, stories) && AllAccounted(run.log, articles, |articles|)
    requires evidence.WebSummary? || (evidence.FeedSummary? && AllPassedBy(run.log, articles, |articles|, WebSummary))
    modifies run`turns, run`log
    ensures FirstPassOk(pass, run.log, articles, |articles|, dedup) && Tracked(pass, run.log, articles, stories)
    ensures pass.Onward? ==>
      && AllAccounted(run.log, articles, |articles|) && AllPassedBy(run.log, articles, |articles|, evidence)
      && AllPassedBy(run.log, articles, |articles|, WebSummary)
    ensures PassChoiceOk(pass, run.log, articles, old(run.turns)) && Later(run.turns, old(run.turns))
  {
    hide FirstPassOk, Dropped, Refused, Accounted, Grounded;
    pass := before;
    for k := 0 to |articles|
      invariant pass.Onward? && FirstPassOk(pass, run.log, articles, |articles|, dedup)
      invariant Tracked(pass, run.log, articles, stories) && Later(run.turns, old(run.turns))
      invariant AllAccounted(run.log, articles, |articles|) && AllPassedBy(run.log, articles, k, evidence)
      invariant evidence.FeedSummary? ==> AllPassedBy(run.log, articles, |articles|, WebSummary)
    {
      var id := articles[k].id;
      if id !in pass.duplicates && id !in pass.excluded && FallsBack(articles[k], evidence) {
        ghost var log := run.log;
        pass := CheckEvidence(run, stories, articles, k, |articles|, dedup, pass, evidence);
        AccountsStay(log, run.log, articles);
        if !pass.Onward? {
          assert pass.Chosen? ==> InTurn(run.log, articles, k, evidence);
          return;
        }
      }
    }
  }

  // ---- The end of the run ----

  /** Every article that is no duplicate was excluded by the policy, and there is one. */
  predicate PolicyEmptied(articles: seq<Article>, duplicates: set<nat>, excluded: set<nat>) {
    && (exists k :: 0 <= k < |articles| && articles[k].id !in duplicates)
    && (forall k :: 0 <= k < |articles| && articles[k].id !in duplicates ==> articles[k].id in excluded)
  }

  method IsPolicyEmptied(articles: seq<Article>, duplicates: set<nat>, excluded: set<nat>) returns (emptied: bool)
    ensures emptied == PolicyEmptied(articles, duplicates, excluded)
  {
    var remaining := false;
    for k := 0 to |articles|
      invariant remaining <==> exists i :: 0 <= i < k && articles[i].id !in duplicates
      invariant forall i :: 0 <= i < k && articles[i].id !in duplicates ==> articles[i].id in excluded
    {
      if articles[k].id !in duplicates {
        if articles[k].id !in excluded { return false; }
        remaining := true;
      }
    }
    emptied := remaining;
  }

  ghost predicate NotClosed(log: seq<Event>) {
    forall e :: e in log ==> !e.Closed?
  }

  /** The error path: the run is closed as failed unless a terminal write has been recorded. */
  method Fail(run: ResearchRun, error: Error, terminalRunRecorded: bool) returns (r: Result<Selected, Error>)
    requires Once(run.log) && ClosedOnce(Failure(error), run.log, run.status)
    requires !terminalRunRecorded ==> forall e :: e in run.log && e.Closed? ==> !e.acked
    modifies run`turns, run`status, run`log
    ensures r.Failure? && Once(run.log) && ClosedOnce(r, run.log, run.status)
    ensures ClassifierCalls(run.log) == ClassifierCalls(old(run.log))
    ensures old(run.log) <= run.log && |run.log| == |old(run.log)| + (if terminalRunRecorded then 0 else 1)
    ensures forall k :: |old(run.log)| <= k < |run.log| ==> run.log[k].Closed? && run.log[k].status.Failed?
    ensures terminalRunRecorded ==> r == Failure(error)
    ensures r == Failure(error) || (r == Failure(CallRaised) && (old(run.status).Running? ==> LostOne(old(run.turns))))
  {
    r := Failure(error);
    if !terminalRunRecorded {
      var acked := run.Close(Failed);
      if !acked { r := Failure(CallRaised); }
    }
  }

  /** finishPolicyFilteredSearchRun, followed by the error that it announces. */
  method EndFiltered(run: ResearchRun) returns (r: Result<Selected, Error>)
    requires Once(run.log) && NotClosed(run.log) && run.status.Running?
    modifies run`turns, run`status, run`log
    ensures r.Failure? && Once(run.log) && ClosedOnce(r, run.log, run.status)
    ensures ClassifierCalls(run.log) == ClassifierCalls(old(run.log))
    ensures old(run.log) < run.log && forall k :: |old(run.log)| <= k < |run.log| ==> run.log[k].Closed?
    ensures r == Failure(NoCandidates) ==> Closed(Completed(0), true) in run.log
    ensures r == Failure(NoCandidates) || (r == Failure(CallRaised) && LostOne(old(run.turns)))
  {
    ghost var log := run.log;
    var acked := run.Close(Completed(0));
    assert run.log[|log|] == Closed(Completed(0), acked);
    r := Fail(run, if acked then NoCandidates else CallRaised, acked);
  }

  /** finishSearchRun for a selection. */
  method Finish(run: ResearchRun, selected: Selected, articles: seq<Article>, ghost dedup: bool) returns (r: Result<Selected, Error>)
    requires SelectionOk(Success(selected), run.log, articles, dedup) && NotClosed(run.log) && run.status.Running?
    modifies run`turns, run`status, run`log
    ensures SelectionOk(r, run.log, articles, dedup) && ClosedOnce(r, run.log, run.status)
    ensures old(run.log) < run.log && forall k :: |old(run.log)| <= k < |run.log| ==> run.log[k].Closed?
    ensures r.Success? ==> Closed(Completed(|articles|), true) in run.log
    ensures r == Success(selected) || (r == Failure(CallRaised) && LostOne(old(run.turns)))
  {
    hide Once, ClassifierCalls, Clash, LostOne, Later;
    ghost var log := run.log;
    var acked := run.Close(Completed(|articles|));
    if !acked {
      r := Fail(run, CallRaised, false);
      return;
    }
    r := Success(selected);
    assert run.log[|log|] == Closed(Completed(|articles|), true);
    assert Checked(selected.article.id, true) in log;
    StaysNew(log, Closed(Completed(|articles|), true), selected.article.id, dedup);
  }

  lemma ClosingChangesNothing(log: seq<Event>, log': seq<Event>, articles: seq<Article>, stories: seq<Dedup.Story>)
    requires log <= log' && forall k :: |log| <= k < |log'| ==> log'[k].Closed?
    requires Grounded(log, articles, stories)
    ensures Grounded(log', articles, stories)
    ensures forall id :: TurnedAway(log', id) <==> TurnedAway(log, id)
    ensures forall id :: Refused(log', id) <==> Refused(log, id)
    ensures NothingTaken(log, articles) ==> NothingTaken(log', articles)
    ensures forall i, evidence :: 0 <= i < |articles| && InTurn(log, articles, i, evidence) ==> InTurn(log', articles, i, evidence)
  {
    AccountsStay(log, log', articles);
    assert forall e :: e in log' && !e.Closed? ==> e in log;
    hide Dropped, IsGrounded, AllAccounted, AllPassedBy, FallsBack;
    assert forall id :: TurnedAway(log', id) <==> TurnedAway(log, id);
  }

  lemma EmptiedMeansRefused(pass: Pass, log: seq<Event>, articles: seq<Article>, dedup: bool, stories: seq<Dedup.Story>)
    requires pass.Onward? && FirstPassOk(pass, log, articles, |articles|, dedup) && Tracked(pass, log, articles, stories)
    ensures PolicyEmptied(articles, pass.duplicates, pass.excluded) <==> PolicyRefusedAll(log, articles)
  {
    hide Grounded, TurnedAway, Dropped;
    forall i | 0 <= i < |articles| && Refused(log, articles[i].id) ensures articles[i].id in pass.excluded {
      assert Checked(articles[i].id, false) in log;
    }
  }

  /** runResearch from the point where its candidates are known. */
  method RunResearch(run: ResearchRun, acquisition: Acquisition, stories: seq<Dedup.Story>, dedup: bool)
    returns (r: Result<Selected, Error>)
    requires run.log == [] && run.status.Running?
    requires acquisition.Ranked? ==> Distinct(Ids(acquisition.articles))
    modifies run
    ensures SelectionOk(r, run.log, if acquisition.Ranked? then acquisition.articles else [], dedup)
    ensures ClosedOnce(r, run.log, run.status)
    ensures acquisition.Ranked? && acquisition.articles != [] ==>
      Grounded(run.log, acquisition.articles, stories) && ChoiceOk(r, run.log, acquisition.articles)
    ensures !(acquisition.Ranked? && acquisition.articles != []) ==>
      r == Failure(NoCandidates) || (r == Failure(CallRaised) && LostOne(old(run.turns)))
    ensures acquisition == NothingRanked(true) && r == Failure(NoCandidates) ==> Closed(Completed(0), true) in run.log
    ensures r == Failure(CallRaised) ==> LostOne(old(run.turns))
    ensures run.log != []
  {
    match acquisition {
      case NothingRanked(true) => r := EndFiltered(run);
      case NothingRanked(false) => r := Fail(run, NoCandidates, false);
      case NothingNew => r := Fail(run, NoCandidates, false);
      case Ranked(articles) =>
        if articles == [] {
          r := Fail(run, NoCandidates, false);
        } else {
          r := SelectAmong(run, articles, stories, dedup);
        }
    }
  }

  method SelectAmong(run: ResearchRun, articles: seq<Article>, stories: seq<Dedup.Story>, dedup: bool)
    returns (r: Result<Selected, Error>)
    requires run.log == [] && run.status.Running? && Distinct(Ids(articles))
    modifies run
    ensures SelectionOk(r, run.log, articles, dedup) && ClosedOnce(r, run.log, run.status) && run.log != []
    ensures Grounded(run.log, articles, stories) && ChoiceOk(r, run.log, articles)
    ensures r == Failure(CallRaised) ==> LostOne(old(run.turns))
    ensures r.Success? ==> Closed(Completed(|articles|), true) in run.log
    ensures r == Failure(NoCandidates) ==> Closed(Completed(0), true) in run.log
  {
    hide NoneYet, OnlyBefore, AllCompared, WasNew, Grounded, InTurn, NothingTaken, PolicyRefusedAll, PolicyEmptied, AllAccounted, AllPassedBy;
    var pass := FirstPass(run, stories, dedup, articles);
    if pass.Onward? { pass := FallbackPass(run, stories, articles, dedup, pass, WebSummary); }
    if pass.Onward? { pass := FallbackPass(run, stories, articles, dedup, pass, FeedSummary); }
    ghost var log := run.log;
    match pass {
      case Chosen(selected) => r := Finish(run, selected, articles, dedup);
      case Raised => r := Fail(run, CallRaised, false);
      case Onward(duplicates, excluded, _) =>
        EmptiedMeansRefused(pass, log, articles, dedup, stories);
        NothingWasTaken(log, articles);
        var emptied := IsPolicyEmptied(articles, duplicates, excluded);
        if emptied { r := EndFiltered(run); } else { r := Fail(run, EvidenceUnavailable, false); }
    }
    ClosingChangesNothing(log, run.log, articles, stories);
    RefusalsStay(log, run.log, articles);
  }

  lemma NothingWasTaken(log: seq<Event>, articles: seq<Article>)
    requires AllAccounted(log, articles, |articles|)
    requires AllPassedBy(log, articles, |articles|, WebSummary) && AllPassedBy(log, articles, |articles|, FeedSummary)
    ensures NothingTaken(log, articles)
  {
  }

  lemma RefusalsStay(log: seq<Event>, log': seq<Event>, articles: seq<Article>)
    requires forall id :: TurnedAway(log', id) <==> TurnedAway(log, id)
    requires forall id :: Refused(log', id) <==> Refused(log, id)
    ensures PolicyRefusedAll(log', articles) <==> PolicyRefusedAll(log, articles)
  {
    hide TurnedAway, Refused;
  }
}
