/** What the publication protocol keeps in every run. */
module PublicationSafety {
  import opened Wrappers
  import opened ExcludedTopics
  import opened PublicationStore
  import opened PublicationProtocol

  // ---- Preservation of the invariant ----

  /** `s'` has learnt nothing that contradicts `s`: settings versions keep their contents and
      verdicts are only added. */
  ghost predicate Grows(s: State, s': State) {
    && s.clearances <= s'.clearances
    && (forall v :: v in s.history ==> v in s'.history && s'.history[v] == s.history[v])
  }

  /** A step of one process keeps the invariant when it keeps the row invariant and leaves every
      other process in a state that is still fine. */
  lemma KeepsInv(s: State, s': State, pid: nat, canonical: string -> string)
    requires Inv(s, canonical)
    requires pid < |s.procs| && |s'.procs| == |s.procs|
    requires forall i :: 0 <= i < |s.procs| && i != pid ==> s'.procs[i] == s.procs[i]
    requires Grows(s, s') && RowOk(s') && SettingsOk(s')
    requires PcOk(s', s'.procs[pid].pc) && CountsOk(s'.procs[pid])
    requires Holds(s'.procs[pid].pc) ==> forall i :: 0 <= i < |s.procs| && i != pid ==> !Holds(s.procs[i].pc)
    requires forall i :: 0 <= i < |s.procs| && i != pid && Holds(s.procs[i].pc) ==> PcOk(s', s.procs[i].pc)
    requires forall c :: c in s'.clearances && c !in s.clearances ==> FinalPolicy(c.settings.excluded, c.reply, canonical).Allow?
    requires forall i :: 0 <= i < |s'.posts| ==> Known(s', s'.posts[i].inForce) && Cleared(s', s'.posts[i].text, s'.posts[i].inForce)
    ensures Inv(s', canonical)
  {
    hide FinalPolicy;
    forall i | 0 <= i < |s.procs| && i != pid ensures PcOk(s', s.procs[i].pc) && CountsOk(s'.procs[i]) {
      assert PcOk(s, s.procs[i].pc) && CountsOk(s.procs[i]);
      if !Holds(s.procs[i].pc) { PcGrows(s, s', s.procs[i].pc); }
    }
    forall i | 0 <= i < |s'.procs| ensures PcOk(s', s'.procs[i].pc) && CountsOk(s'.procs[i]) {}
    forall i, j | 0 <= i < |s'.procs| && 0 <= j < |s'.procs| && Holds(s'.procs[i].pc) && Holds(s'.procs[j].pc)
      ensures i == j {}
  }

  lemma PcGrows(s: State, s': State, pc: Pc)
    requires PcOk(s, pc) && Grows(s, s') && !Holds(pc)
    ensures PcOk(s', pc)
  {
    if pc.TakeClaim? {
      var reply :| Clearance(pc.body, pc.settings, reply) in s.clearances;
      assert Clearance(pc.body, pc.settings, reply) in s'.clearances;
    }
  }

  lemma PostsStayCleared(s: State, s': State, canonical: string -> string)
    requires Inv(s, canonical) && Grows(s, s') && s'.posts == s.posts
    ensures forall i :: 0 <= i < |s'.posts| ==> Known(s', s'.posts[i].inForce) && Cleared(s', s'.posts[i].text, s'.posts[i].inForce)
  {
    hide FinalPolicy;
    forall i | 0 <= i < |s.posts| ensures Cleared(s', s.posts[i].text, s.posts[i].inForce) {
      var reply :| Clearance(s.posts[i].text, s.posts[i].inForce, reply) in s.clearances;
      assert Clearance(s.posts[i].text, s.posts[i].inForce, reply) in s'.clearances;
    }
  }

  /** A classification moves its own process on and adds at most the verdict it reached. */
  ghost predicate Classified(s: State, s': State, pid: nat, canonical: string -> string)
    requires pid < |s.procs| && s.procs[pid].pc.Classify?
  {
    var was, pc := s.procs[pid].pc, if pid < |s'.procs| then s'.procs[pid].pc else Crashed;
    && s' == s.(procs := s.procs[pid := Proc(pc, s.procs[pid].classifications + 1, s.procs[pid].sends)],
                clearances := s'.clearances)
    && (pc.Finished? || pc.TakeClaim? || pc.RecordBlock?)
    && (pc.RecordBlock? ==> pc.attempt == was.attempt && pc.settings == was.settings)
    && (if pc.TakeClaim? then
          && pc == TakeClaim(was.attempt, was.body, was.settings)
          && exists reply :: FinalPolicy(was.settings.excluded, reply, canonical).Allow?
               && s'.clearances == s.clearances + {Clearance(was.body, was.settings, reply)}
        else s'.clearances == s.clearances)
  }

  lemma ClassificationSteps(s: State, pid: nat, input: Input, canonical: string -> string)
    requires pid < |s.procs| && s.procs[pid].pc.Classify?
    ensures Classified(s, AfterClassification(s, pid, input, canonical), pid, canonical)
  {
    var s' := AfterClassification(s, pid, input, canonical);
    var reply := if input.Verdict? then input.reply else NoClassifier;
    if s'.procs[pid].pc.TakeClaim? {
      assert FinalPolicy(s.procs[pid].pc.settings.excluded, reply, canonical).Allow?;
    }
  }

  lemma ClassifiedKeepsInv(s: State, s': State, pid: nat, canonical: string -> string)
    requires Inv(s, canonical) && pid < |s.procs| && s.procs[pid].pc.Classify?
    requires Classified(s, s', pid, canonical)
    ensures Inv(s', canonical)
  {
    hide FinalPolicy;
    var pc := s.procs[pid].pc;
    assert PcOk(s, pc) && CountsOk(s.procs[pid]);
    PostsStayCleared(s, s', canonical);
    if s'.procs[pid].pc.TakeClaim? {
      var reply :| FinalPolicy(pc.settings.excluded, reply, canonical).Allow?
                && s'.clearances == s.clearances + {Clearance(pc.body, pc.settings, reply)};
      assert Clearance(pc.body, pc.settings, reply) in s'.clearances;
    }
    forall i | 0 <= i < |s.procs| && i != pid && Holds(s.procs[i].pc) ensures PcOk(s', s.procs[i].pc) {
      assert PcOk(s, s.procs[i].pc);
      HolderGrows(s, s', s.procs[i].pc);
    }
    KeepsInv(s, s', pid, canonical);
  }

  lemma ClassificationKeepsInv(s: State, pid: nat, input: Input, canonical: string -> string)
    requires Inv(s, canonical) && pid < |s.procs| && s.procs[pid].pc.Classify?
    ensures Inv(AfterClassification(s, pid, input, canonical), canonical)
  {
    hide FinalPolicy;
    ClassificationSteps(s, pid, input, canonical);
    ClassifiedKeepsInv(s, AfterClassification(s, pid, input, canonical), pid, canonical);
  }

  /** A holder is not disturbed by a step that touches neither the posts nor the draft's status. */
  lemma HolderGrows(s: State, s': State, pc: Pc)
    requires PcOk(s, pc) && Grows(s, s') && s'.posts == s.posts && s'.db.draft.status == s.db.draft.status
    ensures PcOk(s', pc)
  {
    if pc.Send? {
      var reply :| Clearance(pc.body, pc.inForce, reply) in s.clearances;
      assert Clearance(pc.body, pc.inForce, reply) in s'.clearances;
    } else if !Holds(pc) {
      PcGrows(s, s', pc);
    }
  }

  lemma SendKeepsInv(s: State, pid: nat, outcome: SendOutcome, canonical: string -> string)
    requires Inv(s, canonical) && pid < |s.procs| && s.procs[pid].pc.Send?
    requires !outcome.RejectedAfterPosting?
    ensures Inv(AfterSend(s, pid, outcome), canonical)
  {
    hide FinalPolicy;
    var s' := AfterSend(s, pid, outcome);
    assert PcOk(s, s.procs[pid].pc) && CountsOk(s.procs[pid]);
    assert Cleared(s', s.procs[pid].pc.body, s.procs[pid].pc.inForce) by {
      var reply :| Clearance(s.procs[pid].pc.body, s.procs[pid].pc.inForce, reply) in s.clearances;
      assert Clearance(s.procs[pid].pc.body, s.procs[pid].pc.inForce, reply) in s'.clearances;
    }
    KeepsInv(s, s', pid, canonical);
  }

  predicate Reads(pc: Pc) {
    && !pc.RecordBlock? && !pc.TakeClaim? && !pc.Release? && !pc.Finalize?
    && !pc.Classify? && !pc.Send? && !Ended(pc)
  }

  /** A database call that changes the row takes every process along when no other process holds the claim. */
  lemma WriteKeepsInv(s: State, db: Db, pid: nat, pc: Pc, canonical: string -> string)
    requires Inv(s, canonical) && pid < |s.procs|
    requires db.settings == s.db.settings
    requires var s' := Goto(WithDb(s, db), pid, pc);
             RowOk(s') && PcOk(s', pc) && CountsOk(s'.procs[pid])
    requires db == s.db || Holds(s.procs[pid].pc) || !s.db.draft.status.Publishing?
    requires Holds(pc) ==> Holds(s.procs[pid].pc) || (s.posts == [] && !s.db.draft.status.Publishing?)
    ensures Inv(Goto(WithDb(s, db), pid, pc), canonical)
  {
    hide FinalPolicy;
    var s' := Goto(WithDb(s, db), pid, pc);
    PostsStayCleared(s, s', canonical);
    assert Holds(s.procs[pid].pc) ==> forall i :: 0 <= i < |s.procs| && i != pid ==> !Holds(s.procs[i].pc);
    forall i | 0 <= i < |s.procs| && i != pid && Holds(s.procs[i].pc) ensures PcOk(s', s.procs[i].pc) {
      assert PcOk(s, s.procs[i].pc);
      if db == s.db { HolderGrows(s, s', s.procs[i].pc); }
    }
    forall i | 0 <= i < |s.procs| && Holds(pc) && !Holds(s.procs[pid].pc) ensures !Holds(s.procs[i].pc) {
      assert PcOk(s, s.procs[i].pc);
    }
    KeepsInv(s, s', pid, canonical);
  }

  /** A read moves its process to a state that is fine and holds nothing. */
  lemma ReadTarget(s: State, pid: nat, delivery: Delivery)
    requires pid < |s.procs| && Reads(s.procs[pid].pc) && SettingsOk(s)
    requires PcOk(s, s.procs[pid].pc) && CountsOk(s.procs[pid])
    ensures var pc := AfterCall(s, pid, delivery).procs[pid].pc;
            && AfterCall(s, pid, delivery) == Goto(s, pid, pc)
            && !Holds(pc) && PcOk(s, pc) && !pc.TakeClaim?
            && CountsOk(s.procs[pid].(pc := pc))
  {
  }

  lemma ReadKeepsInv(s: State, pid: nat, delivery: Delivery, canonical: string -> string)
    requires Inv(s, canonical) && pid < |s.procs| && Reads(s.procs[pid].pc)
    ensures Inv(AfterCall(s, pid, delivery), canonical)
  {
    hide FinalPolicy;
    assert PcOk(s, s.procs[pid].pc) && CountsOk(s.procs[pid]);
    ReadTarget(s, pid, delivery);
    var pc := AfterCall(s, pid, delivery).procs[pid].pc;
    assert WithDb(s, s.db) == s;
    PcGrows(s, Goto(s, pid, pc), pc);
    WriteKeepsInv(s, s.db, pid, pc, canonical);
  }

  lemma ClaimKeepsInv(s: State, pid: nat, delivery: Delivery, canonical: string -> string)
    requires Inv(s, canonical) && pid < |s.procs| && s.procs[pid].pc.TakeClaim?
    ensures Inv(AfterCall(s, pid, delivery), canonical)
  {
    hide FinalPolicy;
    var pc := s.procs[pid].pc;
    assert PcOk(s, pc) && CountsOk(s.procs[pid]);
    if delivery.NotApplied? {
      WriteKeepsInv(s, s.db, pid, Finished(Raised(CallFailed)), canonical);
    } else {
      var (outcome, db) := ClaimWithPolicy(s.db, pc.settings.version, Sha256(pc.body));
      var next := AfterRead(delivery, AfterClaim(pc.attempt, pc.body, outcome, db));
      if next.Send? { assert next.inForce == pc.settings && next.body == pc.body; }
      WriteKeepsInv(s, db, pid, next, canonical);
    }
  }

  lemma BlockKeepsInv(s: State, pid: nat, delivery: Delivery, canonical: string -> string)
    requires Inv(s, canonical) && pid < |s.procs| && s.procs[pid].pc.RecordBlock?
    ensures Inv(AfterCall(s, pid, delivery), canonical)
  {
    hide FinalPolicy;
    var pc := s.procs[pid].pc;
    assert PcOk(s, pc) && CountsOk(s.procs[pid]);
    if delivery.NotApplied? {
      WriteKeepsInv(s, s.db, pid, Finished(Raised(CallFailed)), canonical);
    } else {
      var (outcome, db) := BlockDraft(s.db, pc.settings.version, pc.body, ReasonOf(pc.classification));
      WriteKeepsInv(s, db, pid, AfterRead(delivery, AfterBlock(pc.attempt, outcome, BlockReason(db))), canonical);
    }
  }

  lemma ReleaseKeepsInv(s: State, pid: nat, delivery: Delivery, canonical: string -> string)
    requires Inv(s, canonical) && pid < |s.procs| && s.procs[pid].pc.Release?
    ensures Inv(AfterCall(s, pid, delivery), canonical)
  {
    hide FinalPolicy;
    assert PcOk(s, s.procs[pid].pc) && CountsOk(s.procs[pid]);
    var reopened := ReopenPublication(s.db);
    if delivery.NotApplied? || reopened.None? {
      WriteKeepsInv(s, s.db, pid, Finished(Raised(CallFailed)), canonical);
    } else {
      WriteKeepsInv(s, reopened.value, pid, AfterRead(delivery, Finished(Raised(RejectedAndReleased))), canonical);
    }
  }

  lemma FinalizeKeepsInv(s: State, pid: nat, delivery: Delivery, canonical: string -> string)
    requires Inv(s, canonical) && pid < |s.procs| && s.procs[pid].pc.Finalize?
    ensures Inv(AfterCall(s, pid, delivery), canonical)
  {
    hide FinalPolicy;
    var pc := s.procs[pid].pc;
    assert PcOk(s, pc) && CountsOk(s.procs[pid]);
    var finalized := FinalizePublication(s.db, pc.messageId, pc.body);
    var unresolved := Finished(Raised(UnresolvedAfterAcceptance));
    if delivery.NotApplied? || finalized.None? {
      WriteKeepsInv(s, s.db, pid, unresolved, canonical);
    } else {
      WriteKeepsInv(s, finalized.value, pid,
        if delivery.Acked? then Finished(Returned(ReturnPublished(Publication(pc.messageId, pc.body)))) else unresolved,
        canonical);
    }
  }

  lemma CallKeepsInv(s: State, pid: nat, delivery: Delivery, canonical: string -> string)
    requires Inv(s, canonical) && pid < |s.procs|
    ensures Inv(AfterCall(s, pid, delivery), canonical)
  {
    hide FinalPolicy;
    var pc := s.procs[pid].pc;
    if Reads(pc) { ReadKeepsInv(s, pid, delivery, canonical); }
    else if pc.TakeClaim? { ClaimKeepsInv(s, pid, delivery, canonical); }
    else if pc.RecordBlock? { BlockKeepsInv(s, pid, delivery, canonical); }
    else if pc.Release? { ReleaseKeepsInv(s, pid, delivery, canonical); }
    else if pc.Finalize? { FinalizeKeepsInv(s, pid, delivery, canonical); }
  }

  lemma ProcKeepsInv(s: State, pid: nat, input: Input, canonical: string -> string)
    requires Inv(s, canonical) && pid < |s.procs|
    requires Disciplined(s, Advance(pid, input))
    ensures Inv(ProcStep(s, pid, input, canonical), canonical)
  {
    hide FinalPolicy;
    var pc := s.procs[pid].pc;
    if input.Crash? {
      var s' := ProcStep(s, pid, input, canonical);
      if s' != s {
        assert CountsOk(s.procs[pid]);
        KeepsInv(s, s', pid, canonical);
      }
    } else if pc.Classify? {
      if input.Verdict? || input.VerdictRaised? { ClassificationKeepsInv(s, pid, input, canonical); }
    } else if pc.Send? {
      if input.Telegram? { SendKeepsInv(s, pid, input.outcome, canonical); }
    } else if input.Call? {
      CallKeepsInv(s, pid, input.delivery, canonical);
    }
  }

  /** A step taken outside the publishers keeps the invariant when it leaves the holders alone. */
  lemma OutsideKeepsInv(s: State, s': State, canonical: string -> string)
    requires Inv(s, canonical)
    requires s'.posts == s.posts && s'.clearances == s.clearances && s'.procs == s.procs
    requires Grows(s, s') && RowOk(s') && SettingsOk(s')
    requires forall i :: 0 <= i < |s.procs| && Holds(s.procs[i].pc) ==> PcOk(s', s.procs[i].pc)
    ensures Inv(s', canonical)
  {
    hide FinalPolicy;
    PostsStayCleared(s, s', canonical);
    forall i | 0 <= i < |s.procs| ensures PcOk(s', s.procs[i].pc) {
      assert PcOk(s, s.procs[i].pc);
      if !Holds(s.procs[i].pc) { PcGrows(s, s', s.procs[i].pc); }
    }
  }

  lemma EditKeepsInv(s: State, a: Action, canonical: string -> string)
    requires Inv(s, canonical) && (a.EditBody? || a.Revise? || a.Submit? || a.Approve? || a.Reject?)
    ensures Inv(Step(s, a, canonical), canonical)
  {
    hide FinalPolicy;
    var s' := Step(s, a, canonical);
    forall i | 0 <= i < |s.procs| && Holds(s.procs[i].pc) ensures PcOk(s', s.procs[i].pc) {
      assert PcOk(s, s.procs[i].pc);
      if s'.db.draft.status == s.db.draft.status { HolderGrows(s, s', s.procs[i].pc); }
    }
    OutsideKeepsInv(s, s', canonical);
  }

  lemma OperatorKeepsInv(s: State, a: Action, canonical: string -> string)
    requires Inv(s, canonical) && Disciplined(s, a) && (a.OperatorSent? || a.OperatorReset?)
    ensures Inv(Step(s, a, canonical), canonical)
  {
    hide FinalPolicy;
    var s' := Step(s, a, canonical);
    if s' != s {
      if a.OperatorReset? {
        assert Grows(s, s') && RowOk(s') && SettingsOk(s');
      } else {
        assert s.posts != [];
        assert Grows(s, s') && RowOk(s') && SettingsOk(s');
        forall i | 0 <= i < |s.procs| && Holds(s.procs[i].pc) ensures PcOk(s', s.procs[i].pc) {
          assert PcOk(s, s.procs[i].pc);
        }
      }
      OutsideKeepsInv(s, s', canonical);
    }
  }

  lemma StartKeepsInv(s: State, canonical: string -> string)
    requires Inv(s, canonical)
    ensures Inv(Step(s, Start, canonical), canonical)
  {
    hide FinalPolicy;
    var s' := Step(s, Start, canonical);
    PostsStayCleared(s, s', canonical);
    forall i | 0 <= i < |s'.procs| ensures PcOk(s', s'.procs[i].pc) && CountsOk(s'.procs[i]) {
      if i < |s.procs| {
        assert PcOk(s, s.procs[i].pc) && CountsOk(s.procs[i]);
        HolderGrows(s, s', s.procs[i].pc);
      }
    }
  }

  lemma StepKeepsInv(s: State, a: Action, canonical: string -> string)
    requires Inv(s, canonical) && Disciplined(s, a)
    ensures Inv(Step(s, a, canonical), canonical)
  {
    hide FinalPolicy;
    if a.Advance? {
      if a.pid < |s.procs| { ProcKeepsInv(s, a.pid, a.input, canonical); }
    } else if a.Start? {
      StartKeepsInv(s, canonical);
    } else if a.OperatorSent? || a.OperatorReset? {
      OperatorKeepsInv(s, a, canonical);
    } else {
      EditKeepsInv(s, a, canonical);
    }
  }

  lemma {:induction false} RunKeepsInv(s: State, trace: seq<Action>, canonical: string -> string)
    requires Inv(s, canonical) && DisciplinedTrace(s, trace, canonical)
    ensures Inv(Run(s, trace, canonical), canonical)
    decreases |trace|
  {
    hide FinalPolicy;
    if trace != [] {
      StepKeepsInv(s, trace[0], canonical);
      RunKeepsInv(Step(s, trace[0], canonical), trace[1..], canonical);
    }
  }

  // ---- Main results ----

  lemma InitialInv(body: string, canonical: string -> string)
    ensures Inv(Initial(body), canonical)
  {
  }

  /** At most one message per draft, and what it may contain, in every disciplined run. */
  lemma AtMostOncePublication(body: string, trace: seq<Action>, canonical: string -> string)
    requires DisciplinedTrace(Initial(body), trace, canonical)
    ensures var s := Run(Initial(body), trace, canonical);
            && |s.posts| <= 1
            && (s.posts != [] ==> s.db.draft.status in {Publishing, Published})
            && (s.db.draft.status.Published? ==>
                  s.posts != [] && s.db.publication.Some? && s.db.publication.value.messageId == s.posts[0].messageId)
            && (s.db.block.Some? ==> s.posts == [])
  {
    InitialInv(body, canonical);
    RunKeepsInv(Initial(body), trace, canonical);
  }

  /** The policy looked at exactly this text, with the topics excluded by these settings, and let it through. */
  ghost predicate PolicyAllowed(s: State, text: string, settings: Settings, canonical: string -> string) {
    exists reply :: Clearance(text, settings, reply) in s.clearances && FinalPolicy(settings.excluded, reply, canonical).Allow?
  }

  /** Every message carries a text that the policy allowed under the settings recorded with it. */
  lemma WhateverIsSentWasCleared(body: string, trace: seq<Action>, canonical: string -> string)
    requires DisciplinedTrace(Initial(body), trace, canonical)
    ensures var s := Run(Initial(body), trace, canonical);
            forall i :: 0 <= i < |s.posts| ==> PolicyAllowed(s, s.posts[i].text, s.posts[i].inForce, canonical)
  {
    InitialInv(body, canonical);
    RunKeepsInv(Initial(body), trace, canonical);
    var s := Run(Initial(body), trace, canonical);
    forall i | 0 <= i < |s.posts| ensures PolicyAllowed(s, s.posts[i].text, s.posts[i].inForce, canonical) {
      var reply :| Clearance(s.posts[i].text, s.posts[i].inForce, reply) in s.clearances;
    }
  }

  /** The settings recorded with a claim are the ones in force at that moment, and so is the text. */
  lemma ClaimTakesWhatIsInForce(s: State, pid: nat, input: Input, canonical: string -> string)
    requires Inv(s, canonical) && pid < |s.procs| && !s.procs[pid].pc.Send?
    ensures var s' := ProcStep(s, pid, input, canonical);
            s'.procs[pid].pc.Send? ==>
              && s.procs[pid].pc.TakeClaim?
              && s.db.settings == Some(s'.procs[pid].pc.inForce)
              && s.procs[pid].pc.settings == s'.procs[pid].pc.inForce
              && s.procs[pid].pc.body == s'.procs[pid].pc.body == s.db.draft.body
              && s.db.draft.status.Approved? && s'.db.draft.status.Publishing?
  {
    hide FinalPolicy;
    assert PcOk(s, s.procs[pid].pc);
  }

  /** One call classifies at most twice and sends at most once, and it never leaves its loop without
      a claim: a process in its second pass cannot be sent back for a third. */
  lemma OneCallIsBounded(body: string, trace: seq<Action>, canonical: string -> string, pid: nat)
    requires DisciplinedTrace(Initial(body), trace, canonical)
    ensures var s := Run(Initial(body), trace, canonical);
            pid < |s.procs| ==>
              && s.procs[pid].classifications <= 2
              && s.procs[pid].sends <= 1
              && (s.procs[pid].pc.LoadSettings? ==> s.procs[pid].pc.attempt <= 1)
  {
    InitialInv(body, canonical);
    RunKeepsInv(Initial(body), trace, canonical);
    var s := Run(Initial(body), trace, canonical);
    if pid < |s.procs| { assert PcOk(s, s.procs[pid].pc) && CountsOk(s.procs[pid]); }
  }

  lemma CallMovesAlongTable(s: State, pid: nat, delivery: Delivery)
    requires pid < |s.procs|
    ensures var from, to := s.db.draft.status, AfterCall(s, pid, delivery).db.draft.status;
            from == to || MayMove(from, to)
  {
    var pc := s.procs[pid].pc;
    if !pc.RecordBlock? && !pc.TakeClaim? && !pc.Release? && !pc.Finalize? {
      assert AfterCall(s, pid, delivery).db == s.db;
    }
  }

  /** Whoever acts, disciplined or not, the draft's status moves along the transition table only,
      and a posted message is never taken back. */
  lemma EveryStepFollowsTheTable(s: State, a: Action, canonical: string -> string)
    ensures var s' := Step(s, a, canonical);
            && (s'.db.draft.status == s.db.draft.status || MayMove(s.db.draft.status, s'.db.draft.status))
            && s.posts <= s'.posts
  {
    if a.Advance? && a.pid < |s.procs| {
      var pc := s.procs[a.pid].pc;
      if !pc.Classify? && !pc.Send? && a.input.Call? {
        CallMovesAlongTable(s, a.pid, a.input.delivery);
      }
    }
  }

  // ---- A recorded publication is final ----

  /** What can become of a call made after the publication was recorded. */
  predicate LateCall(pc: Pc, publication: Publication) {
    || pc.FindPublication?
    || pc.Crashed?
    || pc == Finished(Raised(CallFailed))
    || pc == Finished(Returned(ReturnAlreadyPublished(publication)))
  }

  lemma PublishedStepIsFinal(s: State, a: Action, canonical: string -> string)
    requires Inv(s, canonical) && Disciplined(s, a) && s.db.publication.Some?
    ensures Step(s, a, canonical).db.publication == s.db.publication
    ensures Step(s, a, canonical).posts == s.posts
  {
    hide FinalPolicy;
    if a.Advance? && a.pid < |s.procs| {
      assert PcOk(s, s.procs[a.pid].pc);
      var pc := s.procs[a.pid].pc;
      if !pc.Classify? && !pc.Send? && a.input.Call? { CallKeepsPublication(s, a.pid, a.input.delivery); }
    }
  }

  lemma CallKeepsPublication(s: State, pid: nat, delivery: Delivery)
    requires pid < |s.procs| && s.db.publication.Some?
    ensures AfterCall(s, pid, delivery).db == s.db && AfterCall(s, pid, delivery).posts == s.posts
  {
    var pc := s.procs[pid].pc;
    if !pc.RecordBlock? && !pc.TakeClaim? && !pc.Release? && !pc.Finalize? {
      assert AfterCall(s, pid, delivery).db == s.db;
    }
  }

  lemma LateStaysLate(s: State, a: Action, canonical: string -> string, i: nat)
    requires s.db.publication.Some? && i < |s.procs| && LateCall(s.procs[i].pc, s.db.publication.value)
    ensures |Step(s, a, canonical).procs| >= |s.procs|
    ensures LateCall(Step(s, a, canonical).procs[i].pc, s.db.publication.value)
  {
    if a.Advance? && a.pid < |s.procs| && a.pid != i {
      ProcStepKeepsOthers(s, a.pid, a.input, canonical, i);
    }
  }

  lemma ProcStepKeepsOthers(s: State, pid: nat, input: Input, canonical: string -> string, i: nat)
    requires pid < |s.procs| && i < |s.procs| && i != pid
    ensures var s' := ProcStep(s, pid, input, canonical);
            |s'.procs| == |s.procs| && s'.procs[i] == s.procs[i]
  {
  }

  predicate AllLate(s: State, late: nat, publication: Publication) {
    late <= |s.procs| && forall i :: late <= i < |s.procs| ==> LateCall(s.procs[i].pc, publication)
  }

  lemma LateStep(s: State, a: Action, canonical: string -> string, late: nat, publication: Publication)
    requires s.db.publication == Some(publication) && AllLate(s, late, publication)
    ensures AllLate(Step(s, a, canonical), late, publication)
  {
    var s' := Step(s, a, canonical);
    assert |s'.procs| >= |s.procs|;
    forall i | late <= i < |s'.procs| ensures LateCall(s'.procs[i].pc, publication) {
      if i < |s.procs| { LateStaysLate(s, a, canonical, i); }
    }
  }

  /** Once a publication is recorded it stays as it is, nothing more is posted, and every call
      made from then on hands back that publication or fails without having done anything. */
  lemma {:induction false} PublishedIsFinal(s: State, trace: seq<Action>, canonical: string -> string,
                                            late: nat, publication: Publication)
    requires Inv(s, canonical) && DisciplinedTrace(s, trace, canonical)
    requires s.db.publication == Some(publication) && AllLate(s, late, publication)
    ensures var s' := Run(s, trace, canonical);
            s'.db.publication == Some(publication) && s'.posts == s.posts && AllLate(s', late, publication)
    decreases |trace|
  {
    hide FinalPolicy;
    if trace != [] {
      PublishedStepIsFinal(s, trace[0], canonical);
      StepKeepsInv(s, trace[0], canonical);
      LateStep(s, trace[0], canonical, late, publication);
      PublishedIsFinal(Step(s, trace[0], canonical), trace[1..], canonical, late, publication);
    }
  }
}
