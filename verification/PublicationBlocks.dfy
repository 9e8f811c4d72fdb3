/** Policy blocks: a draft is blocked only for what the policy really found, under settings that were
    really in force, and always before anything was posted. */
module PublicationBlocks {
  import opened Wrappers
  import opened ExcludedTopics
  import opened PublicationStore
  import opened PublicationProtocol
  import opened PublicationSafety

  /** Some answer of the classifier makes the policy refuse for this reason. */
  ghost predicate Refused(excluded: seq<string>, classification: Classification, canonical: string -> string) {
    exists reply :: var decision := FinalPolicy(excluded, reply, canonical);
      decision.Block? && decision.classification == classification
  }

  ghost predicate PcRefused(pc: Pc, canonical: string -> string) {
    pc.RecordBlock? ==> Refused(pc.settings.excluded, pc.classification, canonical)
  }

  ghost predicate Justified(block: PolicyBlock, history: map<nat, seq<string>>, canonical: string -> string) {
    block.settingsVersion in history
    && exists classification :: block.reason == ReasonOf(classification) && Refused(history[block.settingsVersion], classification, canonical)
  }

  ghost predicate BlocksOk(s: State, canonical: string -> string) {
    && (forall i :: 0 <= i < |s.procs| ==> PcRefused(s.procs[i].pc, canonical))
    && (s.db.block.Some? ==> Justified(s.db.block.value, s.history, canonical))
  }

  predicate HistoryGrows(s: State, s': State) {
    forall v :: v in s.history ==> v in s'.history && s'.history[v] == s.history[v]
  }

  lemma JustifiedStays(block: PolicyBlock, s: State, s': State, canonical: string -> string)
    requires Justified(block, s.history, canonical) && HistoryGrows(s, s')
    ensures Justified(block, s'.history, canonical)
  {
    hide Refused;
  }

  /** A block is recorded exactly when the approved text is still the one that was classified and the
      settings are still those that it was classified under; it says so, and nothing is posted by it. */
  lemma BlockTakesWhatIsInForce(s: State, pid: nat, input: Input, canonical: string -> string)
    requires Inv(s, canonical) && pid < |s.procs| && s.db.block.None?
    ensures var pc, s' := s.procs[pid].pc, ProcStep(s, pid, input, canonical);
      && s'.db.block.Some? ==
         (pc.RecordBlock? && input.Call? && !input.delivery.NotApplied? && s.db.publication.None?
          && s.db.draft.status.Approved? && s.db.draft.body == pc.body && s.db.settings == Some(pc.settings))
      && (s'.db.block.Some? ==>
            && s'.db.block.value == PolicyBlock(ReasonOf(pc.classification), pc.settings.version, Sha256(pc.body))
            && s'.db.draft.status.Rejected? && s'.posts == s.posts == [])
  {
    hide FinalPolicy, OneHolder, CountsOk;
    assert PcOk(s, s.procs[pid].pc);
  }

  lemma ClassifyRefuses(s: State, pid: nat, input: Input, canonical: string -> string)
    requires pid < |s.procs| && s.procs[pid].pc.Classify?
    ensures var s' := AfterClassification(s, pid, input, canonical);
      && |s'.procs| == |s.procs| && s'.db == s.db && s'.history == s.history && PcRefused(s'.procs[pid].pc, canonical)
  {
    hide FinalPolicy;
    var pc := s.procs[pid].pc;
    if !(input.VerdictRaised? && pc.settings.excluded != []) {
      var reply := if input.Verdict? then input.reply else NoClassifier;
      var decision := FinalPolicy(pc.settings.excluded, reply, canonical);
      if decision.Block? { assert Refused(pc.settings.excluded, decision.classification, canonical); }
    }
  }

  lemma OtherStepsRefuseNothing(s: State, pid: nat, input: Input, canonical: string -> string)
    requires pid < |s.procs| && !s.procs[pid].pc.Classify? && PcRefused(s.procs[pid].pc, canonical)
    ensures var s' := ProcStep(s, pid, input, canonical);
      |s'.procs| == |s.procs| && s'.history == s.history && PcRefused(s'.procs[pid].pc, canonical)
      && (s.db.block.Some? ==> s'.db.block == s.db.block)
  {
    hide FinalPolicy, Refused;
    var s' := ProcStep(s, pid, input, canonical);
    assert s'.procs[pid].pc == s.procs[pid].pc || !s'.procs[pid].pc.RecordBlock?;
  }

  lemma ProcKeepsBlocks(s: State, pid: nat, input: Input, canonical: string -> string)
    requires Inv(s, canonical) && BlocksOk(s, canonical) && pid < |s.procs|
    ensures BlocksOk(ProcStep(s, pid, input, canonical), canonical)
  {
    hide FinalPolicy, Refused, RowOk, OneHolder, CountsOk, AfterCall, AfterSend;
    var s' := ProcStep(s, pid, input, canonical);
    var pc := s.procs[pid].pc;
    assert PcRefused(pc, canonical) && PcOk(s, pc);
    if pc.Classify? {
      if !input.Crash? && (input.Verdict? || input.VerdictRaised?) { ClassifyRefuses(s, pid, input, canonical); }
    } else {
      OtherStepsRefuseNothing(s, pid, input, canonical);
      if s.db.block.None? {
        BlockTakesWhatIsInForce(s, pid, input, canonical);
      }
    }
    forall i | 0 <= i < |s'.procs| ensures PcRefused(s'.procs[i].pc, canonical) {
      if i != pid { ProcStepKeepsOthers(s, pid, input, canonical, i); }
    }
  }

  lemma StepKeepsBlocks(s: State, a: Action, canonical: string -> string)
    requires Inv(s, canonical) && BlocksOk(s, canonical)
    ensures BlocksOk(Step(s, a, canonical), canonical)
  {
    hide FinalPolicy, Refused, ProcStep, RowOk, OneHolder, CountsOk, PcOk, Justified;
    var s' := Step(s, a, canonical);
    if a.Advance? {
      if a.pid < |s.procs| { ProcKeepsBlocks(s, a.pid, a.input, canonical); }
    } else {
      assert HistoryGrows(s, s') && s'.db.block == s.db.block;
      if s.db.block.Some? { JustifiedStays(s.db.block.value, s, s', canonical); }
    }
  }

  lemma {:induction false} RunKeepsBlocks(s: State, trace: seq<Action>, canonical: string -> string)
    requires Inv(s, canonical) && BlocksOk(s, canonical) && DisciplinedTrace(s, trace, canonical)
    ensures BlocksOk(Run(s, trace, canonical), canonical)
    decreases |trace|
  {
    hide Inv, BlocksOk, Step;
    if trace != [] {
      StepKeepsBlocks(s, trace[0], canonical);
      StepKeepsInv(s, trace[0], canonical);
      RunKeepsBlocks(Step(s, trace[0], canonical), trace[1..], canonical);
    }
  }

  /** In every disciplined run: the reason of a block is one that the policy found under the topics of the
      settings version that the block names. */
  lemma WhateverIsBlockedWasRefused(body: string, trace: seq<Action>, canonical: string -> string)
    requires DisciplinedTrace(Initial(body), trace, canonical)
    ensures var s := Run(Initial(body), trace, canonical);
      s.db.block.Some? ==> Justified(s.db.block.value, s.history, canonical)
  {
    InitialInv(body, canonical);
    assert BlocksOk(Initial(body), canonical);
    RunKeepsBlocks(Initial(body), trace, canonical);
  }
}
