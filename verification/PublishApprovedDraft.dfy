/** `publishApprovedDraft` in its own shape, run against a shared world in which any other
    actions may happen before every one of its calls. The protocol's process for this call
    advances with it: whatever the code returns or raises is how that process ends. */
module PublishApprovedDraft {
  import opened Wrappers
  import opened ExcludedTopics
  import opened PublicationStore
  import opened PublicationProtocol

  /** What happens at one await: the actions of others first, then the outcome of our own call. */
  datatype Turn = Turn(others: seq<Action>, input: Input)

  predicate Foreign(a: Action, pid: nat) {
    !(a.Advance? && a.pid == pid)
  }

  lemma ForeignLeavesAlone(s: State, a: Action, canonical: string -> string, pid: nat)
    requires pid < |s.procs| && Foreign(a, pid)
    ensures pid < |Step(s, a, canonical).procs|
    ensures Step(s, a, canonical).procs[pid] == s.procs[pid]
  {
  }

  lemma {:induction false} Snoc(s: State, trace: seq<Action>, a: Action, canonical: string -> string)
    ensures Run(s, trace + [a], canonical) == Step(Run(s, trace, canonical), a, canonical)
    decreases |trace|
  {
    if trace == [] {
      assert trace + [a] == [a];
    } else {
      assert (trace + [a])[1..] == trace[1..] + [a];
      Snoc(Step(s, trace[0], canonical), trace[1..], a, canonical);
    }
  }

  /** What the claim's answer means for the process that asked. */
  predicate ClaimAnswered(pc: Pc, outcome: Outcome, text: string, next: Pc)
    requires pc.TakeClaim?
  {
    if outcome.StaleSettings? && pc.attempt == 0 then next.Reload?
    else match outcome
      case AlreadyBlocked => next.FindBlockAfterClaim?
      case AlreadyPublished => next.FindPublicationAfterClaim?
      case Claimed => if text == pc.body then next.Send? && next.body == text else next == Finished(Raised(ContentMismatch))
      case _ => next == Finished(Raised(ClaimRefused(outcome)))
  }

  class World {
    var s: State
    var turns: seq<Turn>
    const canonical: string -> string
    ghost const start: State
    ghost var trace: seq<Action>

    ghost predicate Valid()
      reads this
    {
      s == Run(start, trace, canonical)
    }

    constructor (s: State, turns: seq<Turn>, canonical: string -> string)
      ensures Valid() && this.s == s && this.turns == turns && this.canonical == canonical
      ensures start == s && trace == []
    {
      this.s, this.turns, this.canonical, start, trace := s, turns, canonical, s, [];
    }

    method Act(a: Action)
      requires Valid()
      modifies this`s, this`trace
      ensures Valid() && trace == old(trace) + [a] && s == Step(old(s), a, canonical)
    {
      Snoc(start, trace, a, canonical);
      s, trace := Step(s, a, canonical), trace + [a];
    }

    /** The others take their turn; then our own process receives `fallback` or the scripted input
        of the same kind. */
    method Await(pid: nat, fallback: Input) returns (input: Input)
      requires Valid() && pid < |s.procs|
      requires fallback.Call? || fallback.Verdict? || fallback.Telegram?
      modifies this
      ensures Valid() && old(trace) <= trace
      ensures pid < |s.procs| && s.procs[pid] == old(s.procs[pid])
      ensures SameKind(input, fallback)
    {
      input := fallback;
      if turns != [] {
        var turn := turns[0];
        turns := turns[1..];
        if SameKind(turn.input, fallback) { input := turn.input; }
        for k := 0 to |turn.others|
          invariant Valid() && old(trace) <= trace
          invariant pid < |s.procs| && s.procs[pid] == old(s.procs[pid])
        {
          if Foreign(turn.others[k], pid) {
            ForeignLeavesAlone(s, turn.others[k], canonical, pid);
            Act(turn.others[k]);
          }
        }
      }
    }

    method Begin() returns (pid: nat)
      requires Valid()
      modifies this
      ensures Valid() && old(trace) <= trace
      ensures pid == |old(s.procs)| && pid < |s.procs| && s.procs[pid].pc.FindPublication?
    {
      pid := |s.procs|;
      Act(Start);
    }

    /** One database call of our process; `false` when it raised. */
    method Query(pid: nat) returns (answered: bool)
      requires Valid() && pid < |s.procs|
      requires !s.procs[pid].pc.Classify? && !s.procs[pid].pc.Send? && !Ended(s.procs[pid].pc)
      modifies this
      ensures Valid() && old(trace) <= trace && pid < |s.procs|
      ensures exists before: State, delivery: Delivery ::
                && pid < |before.procs| && before.procs[pid] == old(s.procs[pid])
                && s == AfterCall(before, pid, delivery) && answered == delivery.Acked?
    {
      var input := Await(pid, Call(Acked));
      ghost var before := s;
      Act(Advance(pid, input));
      answered := input.delivery.Acked?;
      assert s == AfterCall(before, pid, input.delivery);
    }

    method FindPublicationByDraft(pid: nat) returns (r: Result<Option<Publication>, ()>)
      requires Valid() && pid < |s.procs|
      requires var pc := s.procs[pid].pc; pc.FindPublication? || pc.FindPublicationAfterBlock? || pc.FindPublicationAfterClaim?
      modifies this
      ensures Valid() && old(trace) <= trace && pid < |s.procs|
      ensures s.procs[pid].pc ==
        match r
        case Failure(_) => Finished(Raised(CallFailed))
        case Success(Some(publication)) => Finished(Returned(ReturnAlreadyPublished(publication)))
        case Success(None) =>
          if old(s.procs[pid].pc.FindPublication?) then FindBlock
          else if old(s.procs[pid].pc.FindPublicationAfterBlock?) then Finished(Raised(PolicyBlockFailed(AlreadyPublished)))
          else Finished(Raised(ClaimRefused(AlreadyPublished)))
    {
      var answered := Query(pid);
      r := if answered then Success(s.db.publication) else Failure(());
    }

    method FindBlockByDraft(pid: nat) returns (r: Result<Option<PolicyBlock>, ()>)
      requires Valid() && pid < |s.procs|
      requires s.procs[pid].pc.FindBlock? || s.procs[pid].pc.FindBlockAfterClaim?
      modifies this
      ensures Valid() && old(trace) <= trace && pid < |s.procs|
      ensures s.procs[pid].pc ==
        match r
        case Failure(_) => Finished(Raised(CallFailed))
        case Success(Some(block)) => Finished(Returned(ReturnAlreadyBlocked(block.reason)))
        case Success(None) =>
          if old(s.procs[pid].pc.FindBlock?) then LoadDraft else Finished(Returned(ReturnAlreadyBlocked(TopicUncertain)))
    {
      var answered := Query(pid);
      r := if answered then Success(s.db.block) else Failure(());
    }

    method GetDraft(pid: nat) returns (r: Result<string, ()>)
      requires Valid() && pid < |s.procs| && (s.procs[pid].pc.LoadDraft? || s.procs[pid].pc.Reload?)
      modifies this
      ensures Valid() && old(trace) <= trace && pid < |s.procs|
      ensures s.procs[pid].pc ==
        match r
        case Failure(_) => Finished(Raised(CallFailed))
        case Success(body) => LoadSettings(if old(s.procs[pid].pc.Reload?) then 1 else 0, body)
    {
      var answered := Query(pid);
      r := if answered then Success(s.db.draft.body) else Failure(());
    }

    method GetSettings(pid: nat) returns (r: Result<Option<Settings>, ()>)
      requires Valid() && pid < |s.procs| && s.procs[pid].pc.LoadSettings?
      modifies this
      ensures Valid() && old(trace) <= trace && pid < |s.procs|
      ensures var pc := old(s.procs[pid].pc);
        s.procs[pid].pc ==
        match r
        case Failure(_) => Finished(Raised(CallFailed))
        case Success(None) => Finished(Raised(SettingsUnavailable))
        case Success(Some(settings)) => Classify(pc.attempt, pc.body, settings)
    {
      var answered := Query(pid);
      r := if answered then Success(s.db.settings) else Failure(());
    }

    method EvaluatePolicy(pid: nat) returns (r: Result<Decision, ()>)
      requires Valid() && pid < |s.procs| && s.procs[pid].pc.Classify?
      modifies this
      ensures Valid() && old(trace) <= trace && pid < |s.procs|
      ensures var pc := old(s.procs[pid].pc);
        && (pc.settings.excluded == [] ==> r == Success(Allow))
        && s.procs[pid].pc ==
           match r
           case Failure(_) => Finished(Raised(CallFailed))
           case Success(Allow) => TakeClaim(pc.attempt, pc.body, pc.settings)
           case Success(Block(classification, _)) => RecordBlock(pc.attempt, pc.body, pc.settings, classification)
    {
      var settings := s.procs[pid].pc.settings;
      var input := Await(pid, Verdict(NoClassifier));
      Act(Advance(pid, input));
      if input.VerdictRaised? && settings.excluded != [] {
        r := Failure(());
      } else {
        r := Success(FinalPolicy(settings.excluded, if input.Verdict? then input.reply else NoClassifier, canonical));
      }
    }

    method BlockDraftPublication(pid: nat) returns (r: Result<(Outcome, ReasonCode), ()>)
      requires Valid() && pid < |s.procs| && s.procs[pid].pc.RecordBlock?
      modifies this
      ensures Valid() && old(trace) <= trace && pid < |s.procs|
      ensures r.Failure? ==> s.procs[pid].pc == Finished(Raised(CallFailed))
      ensures r.Success? ==>
        s.procs[pid].pc == AfterBlock(old(s.procs[pid].pc.attempt), r.value.0, r.value.1)
    {
      ghost var pc := s.procs[pid].pc;
      var answered, outcome := QueryOutcome(pid);
      r := if answered then Success((outcome, BlockReason(s.db))) else Failure(());
    }

    method ClaimDraft(pid: nat) returns (r: Result<(Outcome, string), ()>)
      requires Valid() && pid < |s.procs| && s.procs[pid].pc.TakeClaim?
      modifies this
      ensures Valid() && old(trace) <= trace && pid < |s.procs|
      ensures r.Failure? ==> s.procs[pid].pc == Finished(Raised(CallFailed))
      ensures r.Success? ==>
        ClaimAnswered(old(s.procs[pid].pc), r.value.0, r.value.1, s.procs[pid].pc)
    {
      var answered, outcome := QueryOutcome(pid);
      r := if answered then Success((outcome, s.db.draft.body)) else Failure(());
    }

    /** A call that reports an outcome: the policy block or the claim. */
    method QueryOutcome(pid: nat) returns (answered: bool, outcome: Outcome)
      requires Valid() && pid < |s.procs| && (s.procs[pid].pc.RecordBlock? || s.procs[pid].pc.TakeClaim?)
      modifies this
      ensures Valid() && old(trace) <= trace && pid < |s.procs|
      ensures var pc := old(s.procs[pid].pc);
        && (!answered ==> s.procs[pid].pc == Finished(Raised(CallFailed)))
        && (answered && pc.RecordBlock? ==> s.procs[pid].pc == AfterBlock(pc.attempt, outcome, BlockReason(s.db)))
        && (answered && pc.TakeClaim? ==>
              && s.procs[pid].pc == AfterClaim(pc.attempt, pc.body, outcome, s.db)
              && (outcome.Claimed? ==> s.db.settings.Some?))
    {
      var pc := s.procs[pid].pc;
      var input := Await(pid, Call(Acked));
      outcome := (if pc.RecordBlock? then BlockDraft(s.db, pc.settings.version, pc.body, ReasonOf(pc.classification))
                  else ClaimWithPolicy(s.db, pc.settings.version, Sha256(pc.body))).0;
      Act(Advance(pid, input));
      answered := input.delivery.Acked?;
    }

    method SendMessage(pid: nat) returns (r: Result<nat, bool>)
      requires Valid() && pid < |s.procs| && s.procs[pid].pc.Send?
      modifies this
      ensures Valid() && old(trace) <= trace && pid < |s.procs|
      ensures s.procs[pid].pc ==
        match r
        case Success(id) => Finalize(id, old(s.procs[pid].pc.body))
        case Failure(telegramError) => if telegramError then Release else Finished(Raised(Unresolved))
    {
      var input := Await(pid, Telegram(NothingPosted));
      Act(Advance(pid, input));
      r := if input.outcome.Accepted? then Success(input.outcome.messageId)
           else Failure(input.outcome.RejectedBySend? || input.outcome.RejectedAfterPosting?);
    }

    method ReleaseRejected(pid: nat) returns (released: bool)
      requires Valid() && pid < |s.procs| && s.procs[pid].pc.Release?
      modifies this
      ensures Valid() && old(trace) <= trace && pid < |s.procs|
      ensures s.procs[pid].pc == Finished(Raised(if released then RejectedAndReleased else CallFailed))
    {
      var input := Await(pid, Call(Acked));
      released := input.delivery.Acked? && ReopenPublication(s.db).Some?;
      Act(Advance(pid, input));
    }

    method FinalizeDraft(pid: nat) returns (r: Result<Publication, ()>)
      requires Valid() && pid < |s.procs| && s.procs[pid].pc.Finalize?
      modifies this
      ensures Valid() && old(trace) <= trace && pid < |s.procs|
      ensures s.procs[pid].pc ==
        match r
        case Success(publication) => Finished(Returned(ReturnPublished(publication)))
        case Failure(_) => Finished(Raised(UnresolvedAfterAcceptance))
    {
      var pc := s.procs[pid].pc;
      var input := Await(pid, Call(Acked));
      r := if input.delivery.Acked? && FinalizePublication(s.db, pc.messageId, pc.body).Some?
           then Success(Publication(pc.messageId, pc.body)) else Failure(());
      Act(Advance(pid, input));
    }
  }

  predicate SameKind(input: Input, fallback: Input) {
    match fallback
    case Call(_) => input.Call?
    case Verdict(_) => input.Verdict? || input.VerdictRaised?
    case Telegram(_) => input.Telegram?
    case _ => false
  }

  /** Where a pass of the loop leaves the call. */
  datatype Pass = Again(draft: string) | Through(draft: string) | Over(ending: Ending)

  predicate Waits(w: World, pid: nat, pass: Pass)
    reads w
  {
    && pid < |w.s.procs|
    && match pass
       case Again(draft) => AtPass(w, pid, 1, draft)
       case Through(draft) => w.s.procs[pid].pc.Send? && w.s.procs[pid].pc.body == draft
       case Over(ending) => w.s.procs[pid].pc == Finished(ending)
  }

  predicate AtPass(w: World, pid: nat, attempt: nat, draft: string)
    reads w
  {
    pid < |w.s.procs| && w.s.procs[pid].pc == LoadSettings(attempt, draft)
  }

  /** The branch taken when the policy refuses. */
  method RecordRefusal(w: World, pid: nat, attempt: nat) returns (pass: Pass)
    requires w.Valid() && pid < |w.s.procs| && w.s.procs[pid].pc.RecordBlock? && w.s.procs[pid].pc.attempt == attempt
    modifies w
    ensures w.Valid() && old(w.trace) <= w.trace && Waits(w, pid, pass)
    ensures pass.Again? ==> attempt == 0
    ensures !pass.Through?
  {
    var blocked := w.BlockDraftPublication(pid);
    if blocked.Failure? { return Over(Raised(CallFailed)); }
    var (outcome, reason) := blocked.value;
    if outcome.StaleSettings? && attempt == 0 {
      var loaded := w.GetDraft(pid);
      return if loaded.Success? then Again(loaded.value) else Over(Raised(CallFailed));
    }
    if outcome.Blocked? { return Over(Returned(ReturnBlocked(reason))); }
    if outcome.AlreadyBlocked? { return Over(Returned(ReturnAlreadyBlocked(reason))); }
    if outcome.AlreadyPublished? {
      var existing := w.FindPublicationByDraft(pid);
      if existing.Failure? { return Over(Raised(CallFailed)); }
      if existing.value.Some? { return Over(Returned(ReturnAlreadyPublished(existing.value.value))); }
    }
    return Over(Raised(PolicyBlockFailed(outcome)));
  }

  /** The branch taken when the policy allows. */
  method ClaimCleared(w: World, pid: nat, attempt: nat, draft: string) returns (pass: Pass)
    requires w.Valid() && pid < |w.s.procs| && w.s.procs[pid].pc.TakeClaim?
    requires w.s.procs[pid].pc.attempt == attempt && w.s.procs[pid].pc.body == draft
    modifies w
    ensures w.Valid() && old(w.trace) <= w.trace && Waits(w, pid, pass)
    ensures pass.Again? ==> attempt == 0
    ensures pass.Through? ==> pass.draft == draft
  {
    var claim := w.ClaimDraft(pid);
    if claim.Failure? { return Over(Raised(CallFailed)); }
    var (outcome, body) := claim.value;
    if outcome.StaleSettings? && attempt == 0 {
      var loaded := w.GetDraft(pid);
      return if loaded.Success? then Again(loaded.value) else Over(Raised(CallFailed));
    }
    if outcome.AlreadyBlocked? {
      var block := w.FindBlockByDraft(pid);
      if block.Failure? { return Over(Raised(CallFailed)); }
      return Over(Returned(ReturnAlreadyBlocked(if block.value.Some? then block.value.value.reason else TopicUncertain)));
    }
    if outcome.AlreadyPublished? {
      var existing := w.FindPublicationByDraft(pid);
      if existing.Failure? { return Over(Raised(CallFailed)); }
      if existing.value.Some? { return Over(Returned(ReturnAlreadyPublished(existing.value.value))); }
    }
    if !outcome.Claimed? { return Over(Raised(ClaimRefused(outcome))); }
    if Sha256(body) != Sha256(draft) { return Over(Raised(ContentMismatch)); }
    return Through(body);
  }

  /** One pass of the loop. */
  method ClassifyAndClaim(w: World, pid: nat, attempt: nat, draft: string) returns (pass: Pass)
    requires w.Valid() && AtPass(w, pid, attempt, draft)
    modifies w
    ensures w.Valid() && old(w.trace) <= w.trace && Waits(w, pid, pass)
    ensures pass.Again? ==> attempt == 0
  {
    var settings := w.GetSettings(pid);
    if settings.Failure? { return Over(Raised(CallFailed)); }
    if settings.value.None? { return Over(Raised(SettingsUnavailable)); }
    var policy := w.EvaluatePolicy(pid);
    if policy.Failure? { return Over(Raised(CallFailed)); }
    if policy.value.Block? {
      pass := RecordRefusal(w, pid, attempt);
    } else {
      pass := ClaimCleared(w, pid, attempt, draft);
    }
  }

  method SendAndRecord(w: World, pid: nat) returns (ending: Ending)
    requires w.Valid() && pid < |w.s.procs| && w.s.procs[pid].pc.Send?
    modifies w
    ensures w.Valid() && old(w.trace) <= w.trace
    ensures pid < |w.s.procs| && w.s.procs[pid].pc == Finished(ending)
  {
    var sent := w.SendMessage(pid);
    if sent.Failure? {
      if sent.error {
        var released := w.ReleaseRejected(pid);
        return Raised(if released then RejectedAndReleased else CallFailed);
      }
      return Raised(Unresolved);
    }
    var publication := w.FinalizeDraft(pid);
    if publication.Failure? { return Raised(UnresolvedAfterAcceptance); }
    return Returned(ReturnPublished(publication.value));
  }

  /** The checks before the loop, and the draft that they leave to publish. */
  method LoadUnlessDone(w: World, pid: nat) returns (r: Result<string, Ending>)
    requires w.Valid() && pid < |w.s.procs| && w.s.procs[pid].pc.FindPublication?
    modifies w
    ensures w.Valid() && old(w.trace) <= w.trace
    ensures match r
      case Success(draft) => AtPass(w, pid, 0, draft)
      case Failure(ending) => Waits(w, pid, Over(ending))
  {
    var existing := w.FindPublicationByDraft(pid);
    if existing.Failure? { return Failure(Raised(CallFailed)); }
    if existing.value.Some? { return Failure(Returned(ReturnAlreadyPublished(existing.value.value))); }
    var existingBlock := w.FindBlockByDraft(pid);
    if existingBlock.Failure? { return Failure(Raised(CallFailed)); }
    if existingBlock.value.Some? { return Failure(Returned(ReturnAlreadyBlocked(existingBlock.value.value.reason))); }
    var loaded := w.GetDraft(pid);
    r := if loaded.Success? then Success(loaded.value) else Failure(Raised(CallFailed));
  }

  /** The whole call. Whatever it returns or raises is how its process ends in the protocol, so
      every property of protocol runs is a property of what this code does. */
  method PublishApprovedDraft(w: World) returns (ending: Ending)
    requires w.Valid()
    modifies w
    ensures w.Valid() && old(w.trace) <= w.trace
    ensures var pid := |old(w.s.procs)|; pid < |w.s.procs| && w.s.procs[pid].pc == Finished(ending)
  {
    var pid := w.Begin();
    var loaded := LoadUnlessDone(w, pid);
    if loaded.Failure? { return loaded.error; }
    var draft := loaded.value;
    var claimedDraft: Option<string> := None;
    var attempt := 0;
    while attempt < 2 && claimedDraft.None?
      invariant attempt <= 1
      invariant w.Valid() && old(w.trace) <= w.trace
      invariant claimedDraft.None? ==> AtPass(w, pid, attempt, draft)
      invariant claimedDraft.Some? ==> Waits(w, pid, Through(claimedDraft.value))
      decreases 2 - attempt, claimedDraft.None?
    {
      var pass := ClassifyAndClaim(w, pid, attempt, draft);
      match pass {
        case Again(reloaded) => draft, attempt := reloaded, attempt + 1;
        case Through(claimed) => claimedDraft := Some(claimed);
        case Over(ended) => return ended;
      }
    }
    // The code throws here when no draft was claimed; no execution gets past the loop without one.
    assert claimedDraft.Some?;
    ending := SendAndRecord(w, pid);
  }
}
