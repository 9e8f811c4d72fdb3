/** What at-most-once publication needs of its surroundings, exactly: a step that breaks one of these
    assumptions can be continued, by steps that keep all of them, to a second message for the same draft,
    and no other step can. */
module PublicationDiscipline {
  import opened Wrappers
  import opened ExcludedTopics
  import opened PublicationStore
  import opened PublicationProtocol
  import opened PublicationSafety

  /** Less than discipline: an operator resets only when nothing was posted and nobody still holds the
      claim, and a Telegram error is not raised for a posted message before the draft is published. An
      operator's report that a message was sent need not be true. */
  predicate Careful(s: State, a: Action) {
    match a
    case Advance(pid, Telegram(RejectedAfterPosting(_))) =>
      pid < |s.procs| && s.procs[pid].pc.Send? ==> s.db.publication.Some?
    case OperatorReset => ReopenPublication(s.db).Some? ==> s.posts == [] && !PublisherLive(s)
    case _ => true
  }

  ghost predicate CarefulTrace(s: State, trace: seq<Action>, canonical: string -> string)
    decreases |trace|
  {
    trace == [] || (Careful(s, trace[0]) && CarefulTrace(Step(s, trace[0], canonical), trace[1..], canonical))
  }

  lemma DisciplineIsCareful(s: State, a: Action)
    requires Disciplined(s, a)
    ensures Careful(s, a)
  {
  }

  lemma {:induction false} DisciplinedTracesAreCareful(s: State, trace: seq<Action>, canonical: string -> string)
    requires DisciplinedTrace(s, trace, canonical)
    ensures CarefulTrace(s, trace, canonical)
    decreases |trace|
  {
    if trace != [] {
      DisciplineIsCareful(s, trace[0]);
      DisciplinedTracesAreCareful(Step(s, trace[0], canonical), trace[1..], canonical);
    }
  }

  /** From `s`, no careful continuation reaches a second message. */
  ghost predicate StaysSafe(s: State, canonical: string -> string) {
    forall trace :: CarefulTrace(s, trace, canonical) ==> |Run(s, trace, canonical).posts| <= 1
  }

  /** A disciplined continuation that reaches a second message. */
  ghost predicate PostsTwice(s: State, canonical: string -> string) {
    exists trace :: DisciplinedTrace(s, trace, canonical) && |Run(s, trace, canonical).posts| > 1
  }

  lemma PostsTwiceIsUnsafe(s: State, canonical: string -> string)
    requires PostsTwice(s, canonical)
    ensures !StaysSafe(s, canonical)
  {
    var trace :| DisciplinedTrace(s, trace, canonical) && |Run(s, trace, canonical).posts| > 1;
    DisciplinedTracesAreCareful(s, trace, canonical);
  }

  lemma {:induction false} Append(s: State, first: seq<Action>, second: seq<Action>, canonical: string -> string)
    ensures Run(s, first + second, canonical) == Run(Run(s, first, canonical), second, canonical)
    ensures DisciplinedTrace(s, first, canonical) && DisciplinedTrace(Run(s, first, canonical), second, canonical)
            ==> DisciplinedTrace(s, first + second, canonical)
    decreases |first|
  {
    if first == [] {
      assert first + second == second;
    } else {
      assert (first + second)[1..] == first[1..] + second;
      Append(Step(s, first[0], canonical), first[1..], second, canonical);
    }
  }

  lemma Cons(s: State, a: Action, rest: seq<Action>, canonical: string -> string)
    ensures Run(s, [a] + rest, canonical) == Run(Step(s, a, canonical), rest, canonical)
    ensures Disciplined(s, a) && DisciplinedTrace(Step(s, a, canonical), rest, canonical)
            ==> DisciplinedTrace(s, [a] + rest, canonical)
  {
    assert ([a] + rest)[1..] == rest;
  }

  function Answer(pid: nat): Action {
    Advance(pid, Call(Acked))
  }

  /** The calls of process `pid` up to its verdict, all of them answered. */
  function Preparation(pid: nat): seq<Action> {
    [Revise([])] + ([Start] + ([Answer(pid)] + ([Answer(pid)] + ([Answer(pid)] + ([Answer(pid)] + [])))))
  }

  function Completion(pid: nat, messageId: nat): seq<Action> {
    [Advance(pid, Verdict(NoClassifier))] + ([Answer(pid)] + ([Advance(pid, Telegram(Accepted(messageId)))] + []))
  }

  /** A whole call of `publishApprovedDraft` by the next process, after every topic was allowed again. */
  function Publish(pid: nat, messageId: nat): seq<Action> {
    Preparation(pid) + Completion(pid, messageId)
  }

  predicate Publishable(s: State) {
    s.db.draft.status.Approved? && s.db.publication.None? && s.db.block.None?
  }

  /** `s'` is `s` with other settings and one more process, waiting at `pc`. */
  predicate Spawned(s: State, s': State, pc: Pc) {
    && s'.db.draft == s.db.draft && s'.db.publication.None? && s'.db.block.None? && s'.db.settings.Some?
    && s'.posts == s.posts
    && |s'.procs| == |s.procs| + 1 && s'.procs[..|s.procs|] == s.procs && s'.procs[|s.procs|].pc == pc
  }

  lemma AnswerStep(s0: State, s: State, canonical: string -> string, pc: Pc, next: Pc)
    requires Spawned(s0, s, pc)
    requires (pc.FindPublication? && next.FindBlock?) || (pc.FindBlock? && next.LoadDraft?)
          || (pc.LoadDraft? && next == LoadSettings(0, s.db.draft.body))
          || (pc.LoadSettings? && next == Classify(pc.attempt, pc.body, s.db.settings.value))
    ensures Spawned(s0, Step(s, Answer(|s0.procs|), canonical), next)
    ensures Step(s, Answer(|s0.procs|), canonical).db == s.db
    ensures Disciplined(s, Answer(|s0.procs|))
  {
  }

  lemma PreparationRuns(s: State, canonical: string -> string)
    requires Publishable(s)
    ensures var n := |s.procs|;
            var s' := Run(s, Preparation(n), canonical);
            && DisciplinedTrace(s, Preparation(n), canonical)
            && exists settings: Settings :: settings.excluded == [] && s'.db.settings == Some(settings)
                 && Spawned(s, s', Classify(0, s.db.draft.body, settings))
  {
    var n := |s.procs|;
    var tail3 := [Answer(n)] + [];
    var tail2 := [Answer(n)] + tail3;
    var tail1 := [Answer(n)] + tail2;
    var tail0 := [Answer(n)] + tail1;
    var revised := Step(s, Revise([]), canonical);
    var s0 := Step(revised, Start, canonical);
    assert Spawned(s, s0, FindPublication);
    AnswerStep(s, s0, canonical, FindPublication, FindBlock);
    var s1 := Step(s0, Answer(n), canonical);
    AnswerStep(s, s1, canonical, FindBlock, LoadDraft);
    var s2 := Step(s1, Answer(n), canonical);
    AnswerStep(s, s2, canonical, LoadDraft, LoadSettings(0, s2.db.draft.body));
    var s3 := Step(s2, Answer(n), canonical);
    var settings := s3.db.settings.value;
    AnswerStep(s, s3, canonical, LoadSettings(0, s2.db.draft.body), Classify(0, s2.db.draft.body, settings));
    var s4 := Step(s3, Answer(n), canonical);
    assert settings.excluded == [];
    Cons(s, Revise([]), [Start] + tail0, canonical);
    Cons(revised, Start, tail0, canonical);
    Cons(s0, Answer(n), tail1, canonical);
    Cons(s1, Answer(n), tail2, canonical);
    Cons(s2, Answer(n), tail3, canonical);
    Cons(s3, Answer(n), [], canonical);
    assert Run(s, Preparation(n), canonical) == s4;
  }

  lemma ClearanceStep(s0: State, s: State, settings: Settings, canonical: string -> string)
    requires settings.excluded == [] && Spawned(s0, s, Classify(0, s.db.draft.body, settings))
    ensures var s' := Step(s, Advance(|s0.procs|, Verdict(NoClassifier)), canonical);
            Spawned(s0, s', TakeClaim(0, s.db.draft.body, settings)) && s'.db == s.db
  {
  }

  lemma ClaimAndSend(s0: State, s: State, settings: Settings, messageId: nat, canonical: string -> string)
    requires s.db.draft.status.Approved? && s.db.settings == Some(settings)
    requires Spawned(s0, s, TakeClaim(0, s.db.draft.body, settings))
    ensures var n := |s0.procs|;
            var s1 := Step(s, Answer(n), canonical);
            var s' := Step(s1, Advance(n, Telegram(Accepted(messageId))), canonical);
            && s1.procs[n].pc.Send?
            && |s'.posts| == |s0.posts| + 1 && s'.posts[|s0.posts|].sender == n
            && s'.db.draft.status.Publishing? && s'.db.publication.None? && s'.db.block.None?
            && |s'.procs| == n + 1 && s'.procs[..n] == s0.procs
  {
    hide FinalPolicy;
    assert Step(s, Answer(|s0.procs|), canonical).procs[|s0.procs|].pc == Send(s.db.draft.body, settings);
  }

  lemma CompletionRuns(s0: State, s: State, settings: Settings, messageId: nat, canonical: string -> string)
    requires Publishable(s0) && settings.excluded == [] && s.db.settings == Some(settings)
    requires Spawned(s0, s, Classify(0, s0.db.draft.body, settings))
    ensures var n := |s0.procs|;
            var s' := Run(s, Completion(n, messageId), canonical);
            && DisciplinedTrace(s, Completion(n, messageId), canonical)
            && |s'.posts| == |s0.posts| + 1 && s'.posts[|s0.posts|].sender == n
            && s'.db.draft.status.Publishing? && s'.db.publication.None? && s'.db.block.None?
            && |s'.procs| == n + 1 && s'.procs[..n] == s0.procs
  {
    hide Step;
    var n := |s0.procs|;
    var send := Advance(n, Telegram(Accepted(messageId)));
    var s1 := Step(s, Advance(n, Verdict(NoClassifier)), canonical);
    ClearanceStep(s0, s, settings, canonical);
    ClaimAndSend(s0, s1, settings, messageId, canonical);
    var s2 := Step(s1, Answer(n), canonical);
    var s3 := Step(s2, send, canonical);
    Cons(s, Advance(n, Verdict(NoClassifier)), [Answer(n)] + ([send] + []), canonical);
    Cons(s1, Answer(n), [send] + [], canonical);
    Cons(s2, send, [], canonical);
    assert Run(s, Completion(n, messageId), canonical) == s3;
  }

  /** An approved draft that is neither published nor blocked can be posted by one more call. */
  lemma OneMorePost(s: State, messageId: nat, canonical: string -> string)
    requires Publishable(s)
    ensures var n := |s.procs|;
            var s' := Run(s, Publish(n, messageId), canonical);
            && DisciplinedTrace(s, Publish(n, messageId), canonical)
            && |s'.posts| == |s.posts| + 1 && s'.posts[|s.posts|].sender == n
            && s'.db.draft.status.Publishing? && s'.db.publication.None? && s'.db.block.None?
            && |s'.procs| == n + 1 && s'.procs[..n] == s.procs
  {
    var n := |s.procs|;
    PreparationRuns(s, canonical);
    var s1 := Run(s, Preparation(n), canonical);
    var settings: Settings :| settings.excluded == [] && s1.db.settings == Some(settings)
                 && Spawned(s, s1, Classify(0, s.db.draft.body, settings));
    CompletionRuns(s, s1, settings, messageId, canonical);
    Append(s, Preparation(n), Completion(n, messageId), canonical);
  }

  lemma ReleaseReopens(s: State, pid: nat, canonical: string -> string)
    requires pid < |s.procs| && s.procs[pid].pc.Release?
    requires s.db.draft.status.Publishing? && s.db.publication.None? && s.db.block.None?
    ensures var s' := Step(s, Answer(pid), canonical);
            Publishable(s') && s'.posts == s.posts && Disciplined(s, Answer(pid))
  {
  }

  /** A publisher told that nothing was posted, although something was, ends in a second message. */
  lemma ReleaseAfterPostingIsUnsafe(s: State, pid: nat, canonical: string -> string)
    requires pid < |s.procs| && s.procs[pid].pc.Release? && s.posts != []
    requires s.db.draft.status.Publishing? && s.db.publication.None? && s.db.block.None?
    ensures PostsTwice(s, canonical)
  {
    ReleaseReopens(s, pid, canonical);
    var s1 := Step(s, Answer(pid), canonical);
    OneMorePost(s1, 1, canonical);
    var rest := Publish(|s1.procs|, 1);
    Cons(s, Answer(pid), rest, canonical);
    assert |Run(s, [Answer(pid)] + rest, canonical).posts| >= 2;
  }

  lemma ReopenedWithPostIsUnsafe(s: State, canonical: string -> string)
    requires Publishable(s) && s.posts != []
    ensures PostsTwice(s, canonical)
  {
    OneMorePost(s, 1, canonical);
    assert |Run(s, Publish(|s.procs|, 1), canonical).posts| >= 2;
  }

  lemma ReopenedUnderSenderIsUnsafe(s: State, pid: nat, canonical: string -> string)
    requires Publishable(s) && pid < |s.procs| && s.procs[pid].pc.Send?
    ensures PostsTwice(s, canonical)
  {
    OneMorePost(s, 1, canonical);
    var publish := Publish(|s.procs|, 1);
    var s1 := Run(s, publish, canonical);
    var send := Advance(pid, Telegram(Accepted(2)));
    assert s1.procs[..|s.procs|][pid] == s.procs[pid];
    assert |Step(s1, send, canonical).posts| >= 2;
    Cons(s1, send, [], canonical);
    Append(s, publish, [send] + [], canonical);
    assert |Run(s, publish + ([send] + []), canonical).posts| >= 2;
  }

  lemma ReopenedUnderReleaserIsUnsafe(s: State, pid: nat, canonical: string -> string)
    requires Publishable(s) && pid < |s.procs| && s.procs[pid].pc.Release?
    ensures PostsTwice(s, canonical)
  {
    OneMorePost(s, 1, canonical);
    var publish := Publish(|s.procs|, 1);
    var s1 := Run(s, publish, canonical);
    assert s1.procs[..|s.procs|][pid] == s.procs[pid];
    ReleaseAfterPostingIsUnsafe(s1, pid, canonical);
    var trace :| DisciplinedTrace(s1, trace, canonical) && |Run(s1, trace, canonical).posts| > 1;
    Append(s, publish, trace, canonical);
    assert |Run(s, publish + trace, canonical).posts| > 1;
  }

  lemma PrematureResetIsUnsafe(s: State, canonical: string -> string)
    requires Inv(s, canonical) && !Disciplined(s, OperatorReset)
    ensures PostsTwice(Step(s, OperatorReset, canonical), canonical)
  {
    var s' := Step(s, OperatorReset, canonical);
    assert Publishable(s');
    if s.posts != [] {
      ReopenedWithPostIsUnsafe(s', canonical);
    } else {
      var pid :| 0 <= pid < |s.procs| && Holds(s.procs[pid].pc);
      assert PcOk(s, s.procs[pid].pc);
      if s.procs[pid].pc.Send? { ReopenedUnderSenderIsUnsafe(s', pid, canonical); }
      else { ReopenedUnderReleaserIsUnsafe(s', pid, canonical); }
    }
  }

  // ---- Care is enough ----

  /** The draft is recorded as published, truthfully or not; a publisher that still holds the claim may
      yet send, once. */
  predicate Recorded(s: State) {
    && s.db.draft.status.Published? && s.db.publication.Some?
    && |s.posts| <= 1
    && OneHolder(s)
    && forall i :: 0 <= i < |s.procs| && s.procs[i].pc.Send? ==> s.posts == []
  }

  ghost predicate Bounded(s: State, canonical: string -> string) {
    Inv(s, canonical) || Recorded(s)
  }

  lemma CallStaysRecorded(s: State, pid: nat, delivery: Delivery)
    requires Recorded(s) && pid < |s.procs| && !s.procs[pid].pc.Send? && !s.procs[pid].pc.Classify?
    ensures var s' := AfterCall(s, pid, delivery);
      s'.db == s.db && s'.posts == s.posts && |s'.procs| == |s.procs|
      && (Holds(s'.procs[pid].pc) ==> s'.procs[pid].pc == s.procs[pid].pc)
  {
  }

  /** Nothing that anyone does to a recorded draft, careful or not, brings a second message. */
  lemma RecordedStays(s: State, a: Action, canonical: string -> string)
    requires Recorded(s)
    ensures Recorded(Step(s, a, canonical))
  {
    hide FinalPolicy;
    var s' := Step(s, a, canonical);
    if a.Advance? && a.pid < |s.procs| {
      var pid, pc := a.pid, s.procs[a.pid].pc;
      if !pc.Classify? && !pc.Send? && a.input.Call? { CallStaysRecorded(s, pid, a.input.delivery); }
      assert Holds(s'.procs[pid].pc) ==> Holds(pc);
      assert s'.procs[pid].pc.Send? ==> s'.posts == s.posts;
      forall i | 0 <= i < |s'.procs| && i != pid ensures s'.procs[i] == s.procs[i] { ProcStepKeepsOthers(s, pid, a.input, canonical, i); }
      assert s'.posts == s.posts || (pc.Send? && |s'.posts| == |s.posts| + 1 && !s'.procs[pid].pc.Send?);
    }
  }

  lemma CarefulStepIsBounded(s: State, a: Action, canonical: string -> string)
    requires Bounded(s, canonical) && Careful(s, a)
    ensures Bounded(Step(s, a, canonical), canonical)
  {
    if Recorded(s) {
      RecordedStays(s, a, canonical);
    } else if Disciplined(s, a) {
      StepKeepsInv(s, a, canonical);
    } else {
      CarelessReportIsRecorded(s, a, canonical);
    }
  }

  lemma CarelessReportIsRecorded(s: State, a: Action, canonical: string -> string)
    requires Inv(s, canonical) && Careful(s, a) && !Disciplined(s, a)
    ensures Recorded(Step(s, a, canonical))
  {
    hide FinalPolicy, Cleared, Known;
    if a.OperatorSent? {
      forall i | 0 <= i < |s.procs| && s.procs[i].pc.Send? ensures s.posts == [] { assert PcOk(s, s.procs[i].pc); }
    } else {
      ErrorsComeBeforePublication(s, a.pid, canonical);
    }
  }

  lemma ErrorsComeBeforePublication(s: State, pid: nat, canonical: string -> string)
    requires Inv(s, canonical) && pid < |s.procs| && s.procs[pid].pc.Send?
    ensures s.db.publication.None?
  {
    hide FinalPolicy, Cleared, Known;
    assert PcOk(s, s.procs[pid].pc);
  }

  lemma {:induction false} CarefulRunIsBounded(s: State, trace: seq<Action>, canonical: string -> string)
    requires Bounded(s, canonical) && CarefulTrace(s, trace, canonical)
    ensures Bounded(Run(s, trace, canonical), canonical)
    decreases |trace|
  {
    hide Bounded, Careful, Step;
    if trace != [] {
      CarefulStepIsBounded(s, trace[0], canonical);
      CarefulRunIsBounded(Step(s, trace[0], canonical), trace[1..], canonical);
    }
  }

  /** At-most-once publication needs care only: even if operators report messages that were never sent,
      no careful run posts a draft twice. */
  lemma CareIsEnough(body: string, trace: seq<Action>, canonical: string -> string)
    requires CarefulTrace(Initial(body), trace, canonical)
    ensures |Run(Initial(body), trace, canonical).posts| <= 1
  {
    InitialInv(body, canonical);
    CarefulRunIsBounded(Initial(body), trace, canonical);
  }

  lemma CarefulStepIsSafe(s: State, a: Action, canonical: string -> string)
    requires Bounded(s, canonical) && Careful(s, a)
    ensures StaysSafe(Step(s, a, canonical), canonical)
  {
    CarefulStepIsBounded(s, a, canonical);
    var s' := Step(s, a, canonical);
    forall trace | CarefulTrace(s', trace, canonical) ensures |Run(s', trace, canonical).posts| <= 1 {
      CarefulRunIsBounded(s', trace, canonical);
    }
  }

  /** In every state that careful runs reach, and for every action: the step keeps at-most-once
      publication for all careful continuations if and only if it is careful. */
  lemma DisciplineIsExact(s: State, a: Action, canonical: string -> string)
    requires Bounded(s, canonical)
    ensures Careful(s, a) <==> StaysSafe(Step(s, a, canonical), canonical)
  {
    if Careful(s, a) {
      CarefulStepIsSafe(s, a, canonical);
    } else {
      var s' := Step(s, a, canonical);
      if a.OperatorReset? {
        assert !Disciplined(s, a);
        PrematureResetIsUnsafe(s, canonical);
      } else {
        assert PcOk(s, s.procs[a.pid].pc);
        ReleaseAfterPostingIsUnsafe(s', a.pid, canonical);
      }
      PostsTwiceIsUnsafe(s', canonical);
    }
  }

  /** Without the assumptions the bound fails: a draft posted once, reset although its publisher is
      still there to record the message, and published again. */
  lemma UntruthfulResetPostsTwice(body: string, canonical: string -> string)
    ensures exists trace :: |Run(Initial(body), trace, canonical).posts| == 2
  {
    hide Step;
    var s0 := Initial(body);
    var s1 := Step(s0, Submit, canonical);
    var s2 := Step(s1, Approve, canonical);
    ApprovedDraft(body, canonical);
    OneMorePost(s2, 1, canonical);
    ResetAndRepeat(Run(s2, Publish(0, 1), canonical), canonical);
    var both := Publish(0, 1) + ([OperatorReset] + Publish(1, 2));
    Append(s2, Publish(0, 1), [OperatorReset] + Publish(1, 2), canonical);
    Cons(s1, Approve, both, canonical);
    Cons(s0, Submit, [Approve] + both, canonical);
    assert |Run(s0, [Submit] + ([Approve] + both), canonical).posts| == 2;
  }

  lemma ApprovedDraft(body: string, canonical: string -> string)
    ensures var s := Step(Step(Initial(body), Submit, canonical), Approve, canonical);
            Publishable(s) && s.posts == [] && s.procs == []
  {
  }

  lemma ResetAndRepeat(s: State, canonical: string -> string)
    requires s.db.draft.status.Publishing? && s.db.publication.None? && s.db.block.None? && |s.procs| == 1
    ensures |Run(s, [OperatorReset] + Publish(1, 2), canonical).posts| == |s.posts| + 1
  {
    OneMorePost(Step(s, OperatorReset, canonical), 2, canonical);
    Cons(s, OperatorReset, Publish(1, 2), canonical);
  }
}
