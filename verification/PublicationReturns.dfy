/** What a call of `publishApprovedDraft` tells its caller is true, and stays true: in every run, whatever
    happens to the draft after the call has returned. */
module PublicationReturns {
  import opened Wrappers
  import opened ExcludedTopics
  import opened PublicationStore
  import opened PublicationProtocol
  import opened PublicationSafety

  /** What the end of a call, or the block that it has been told of, says about the draft. */
  predicate Told(s: State, pc: Pc) {
    match pc
    case Finished(Returned(ReturnPublished(publication))) => s.db.publication == Some(publication)
    case Finished(Returned(ReturnAlreadyPublished(publication))) => s.db.publication == Some(publication)
    case Finished(Returned(_)) => s.db.block.Some?
    case FindBlockAfterClaim => s.db.block.Some?
    case Finished(Raised(UnresolvedAfterAcceptance)) => s.posts != []
    case _ => true
  }

  predicate AllTold(s: State) {
    forall i :: 0 <= i < |s.procs| ==> Told(s, s.procs[i].pc)
  }

  /** Records are never taken back. */
  predicate Keeps(s: State, s': State) {
    && (s.db.publication.Some? ==> s'.db.publication == s.db.publication)
    && (s.db.block.Some? ==> s'.db.block == s.db.block)
    && s.posts <= s'.posts
  }

  lemma ToldStays(s: State, s': State, pc: Pc)
    requires Keeps(s, s') && Told(s, pc)
    ensures Told(s', pc)
  {
  }

  lemma CallTells(s: State, pid: nat, delivery: Delivery)
    requires pid < |s.procs| && Told(s, s.procs[pid].pc)
    requires s.procs[pid].pc.Finalize? ==> s.posts != []
    ensures var s' := AfterCall(s, pid, delivery);
            Keeps(s, s') && |s'.procs| == |s.procs| && Told(s', s'.procs[pid].pc)
  {
    var s' := AfterCall(s, pid, delivery);
    match s.procs[pid].pc {
      case RecordBlock(_, _, _, _) => assert s'.db == s.db || s.db.block.None?;
      case TakeClaim(_, _, _) => assert s'.db.publication == s.db.publication && s'.db.block == s.db.block;
      case _ =>
    }
  }

  lemma ProcTells(s: State, pid: nat, input: Input, canonical: string -> string)
    requires Inv(s, canonical) && pid < |s.procs| && Told(s, s.procs[pid].pc)
    ensures var s' := ProcStep(s, pid, input, canonical);
            Keeps(s, s') && |s'.procs| == |s.procs| && Told(s', s'.procs[pid].pc)
  {
    hide FinalPolicy, RowOk, SettingsOk, OneHolder, CountsOk;
    var pc := s.procs[pid].pc;
    assert PcOk(s, pc);
    if !input.Crash? && !pc.Classify? && !pc.Send? && input.Call? {
      CallTells(s, pid, input.delivery);
    }
  }

  lemma StepTells(s: State, a: Action, canonical: string -> string)
    requires Inv(s, canonical) && AllTold(s)
    ensures AllTold(Step(s, a, canonical))
  {
    hide FinalPolicy, Inv, ProcStep, Told;
    var s' := Step(s, a, canonical);
    if a.Advance? {
      if a.pid < |s.procs| {
        ProcTells(s, a.pid, a.input, canonical);
        forall i | 0 <= i < |s'.procs| ensures Told(s', s'.procs[i].pc) {
          if i != a.pid {
            ProcStepKeepsOthers(s, a.pid, a.input, canonical, i);
            ToldStays(s, s', s.procs[i].pc);
          }
        }
      }
    } else {
      OthersKeep(s, a, canonical);
      forall i | 0 <= i < |s'.procs| ensures Told(s', s'.procs[i].pc) {
        if i < |s.procs| { ToldStays(s, s', s.procs[i].pc); } else { NewCallKnowsNothing(s'); }
      }
    }
  }

  lemma OthersKeep(s: State, a: Action, canonical: string -> string)
    requires !a.Advance?
    ensures var s' := Step(s, a, canonical);
      && Keeps(s, s') && |s.procs| <= |s'.procs|
      && (forall i :: 0 <= i < |s.procs| ==> s'.procs[i] == s.procs[i])
      && (forall i :: |s.procs| <= i < |s'.procs| ==> s'.procs[i].pc.FindPublication?)
  {
  }

  lemma NewCallKnowsNothing(s: State)
    ensures Told(s, FindPublication)
  {
  }

  lemma {:induction false} RunTells(s: State, trace: seq<Action>, canonical: string -> string)
    requires Inv(s, canonical) && AllTold(s) && DisciplinedTrace(s, trace, canonical)
    ensures Inv(Run(s, trace, canonical), canonical) && AllTold(Run(s, trace, canonical))
    decreases |trace|
  {
    hide Inv, AllTold, Step;
    if trace != [] {
      StepTells(s, trace[0], canonical);
      StepKeepsInv(s, trace[0], canonical);
      RunTells(Step(s, trace[0], canonical), trace[1..], canonical);
    }
  }

  /** In every disciplined run: a call that reported a publication named the one message that the channel
      has; a call that reported a policy block was right that nothing was posted; a call that reported an
      accepted message which it could not record was right that the message is there. */
  lemma CallersAreToldTheTruth(body: string, trace: seq<Action>, canonical: string -> string, pid: nat)
    requires DisciplinedTrace(Initial(body), trace, canonical)
    requires pid < |Run(Initial(body), trace, canonical).procs| && Run(Initial(body), trace, canonical).procs[pid].pc.Finished?
    ensures var s := Run(Initial(body), trace, canonical);
      match s.procs[pid].pc.ending
      case Returned(ReturnPublished(publication)) =>
        |s.posts| == 1 && s.posts[0].messageId == publication.messageId && s.db.publication == Some(publication)
      case Returned(ReturnAlreadyPublished(publication)) =>
        |s.posts| == 1 && s.posts[0].messageId == publication.messageId && s.db.publication == Some(publication)
      case Returned(_) => s.posts == [] && s.db.publication.None? && s.db.draft.status.Rejected?
      case Raised(UnresolvedAfterAcceptance) => |s.posts| == 1
      case Raised(_) => true
  {
    InitialInv(body, canonical);
    assert AllTold(Initial(body));
    RunTells(Initial(body), trace, canonical);
    var s := Run(Initial(body), trace, canonical);
    hide FinalPolicy, Step, SettingsOk, OneHolder, PcOk, CountsOk, DisciplinedTrace, Run, Initial;
    assert Told(s, s.procs[pid].pc);
  }
}
