/** How a request and a scheduled run take up a draft that an earlier run has left, and on which drafts
    they differ: after a policy block that its checkpoint does not show, the scheduled run reports the
    block again, while every run of the request raises. */
module Resumption {
  import opened Wrappers
  import opened ExcludedTopics
  import PS = PublicationStore
  import P = PublicationProtocol
  import Safety = PublicationSafety
  import N = NewsRequest
  import S = ScheduleProtocol

  // ---- A rejected draft ----

  lemma RejectedStays(s: P.State, a: P.Action, canonical: string -> string)
    requires s.db.draft.status.Rejected?
    ensures P.Step(s, a, canonical).db.draft.status.Rejected?
  {
    hide P.Step;
    Safety.EveryStepFollowsTheTable(s, a, canonical);
  }

  lemma {:induction false} RejectedStaysThroughout(drafts: seq<P.State>, steps: seq<N.DraftStep>, d: nat, canonical: string -> string)
    requires d < |drafts| && drafts[d].db.draft.status.Rejected?
    ensures N.StepAll(drafts, steps, canonical)[d].db.draft.status.Rejected?
  {
    if steps != [] {
      var last := steps[|steps| - 1];
      RejectedStaysThroughout(drafts, steps[..|steps| - 1], d, canonical);
      hide P.Step, P.Disciplined;
      RejectedStays(N.StepAll(drafts, steps[..|steps| - 1], canonical)[d], last.action, canonical);
    }
  }

  // ---- The request ----

  function DraftOf(r: N.Run): nat
    requires N.IsToPublish(r)
  {
    r.checkpoint.value.draft.value
  }

  /** A draft in any state but those that can be resumed, when it is loaded, ends the run in an error;
      nothing is published and the checkpoint stays. */
  lemma OtherDraftsAreNotResumed(r: N.Run, automatic: bool, canonical: string -> string)
    requires N.IsToPublish(r)
    requires var loaded := N.AfterAwait(N.AfterAwait(r, canonical), canonical); !N.Resumes(loaded.drafts[DraftOf(r)].db.draft.status)
    ensures var (r', outcome) := N.AfterRun(r, automatic, canonical);
      outcome.Fails? && r'.launches == r.launches && r'.checkpoint == r.checkpoint
  {
    hide P.Step, N.StepAll;
  }

  /** The request waits for its draft to be published, and the draft has been rejected. */
  predicate Stuck(r: N.Run) {
    N.IsToPublish(r) && r.drafts[DraftOf(r)].db.draft.status.Rejected?
  }

  lemma AwaitKeepsStuck(r: N.Run, canonical: string -> string)
    requires Stuck(r)
    ensures Stuck(N.AfterAwait(r, canonical)) && DraftOf(N.AfterAwait(r, canonical)) == DraftOf(r)
  {
    RejectedStaysThroughout(r.drafts, N.FirstTurn(r.turns).others, DraftOf(r), canonical);
    hide N.StepAll;
  }

  lemma StuckRunFails(r: N.Run, automatic: bool, canonical: string -> string)
    requires Stuck(r)
    ensures var (r', outcome) := N.AfterRun(r, automatic, canonical);
      outcome.Fails? && Stuck(r') && r'.launches == r.launches && r'.checkpoint == r.checkpoint
  {
    var read := N.AfterAwait(r, canonical);
    AwaitKeepsStuck(r, canonical);
    AwaitKeepsStuck(read, canonical);
    OtherDraftsAreNotResumed(r, automatic, canonical);
    hide N.AfterAwait, N.StepAll, P.Step;
  }

  /** Later runs of the request, each with a script of its own: how they end. */
  function Rerun(r: N.Run, scripts: seq<seq<N.Turn>>, automatic: bool, canonical: string -> string): (N.Run, seq<N.Outcome>)
    decreases |scripts|
  {
    if scripts == [] || !N.HasItsDraft(r) then (r, [])
    else
      var (r', outcome) := N.AfterRun(r.(turns := scripts[0]), automatic, canonical);
      var (r'', outcomes) := Rerun(r', scripts[1..], automatic, canonical);
      (r'', [outcome] + outcomes)
  }

  /** Every later run ends in an error as well, publishes nothing and changes no checkpoint. */
  lemma {:induction false} StuckForGood(r: N.Run, scripts: seq<seq<N.Turn>>, automatic: bool, canonical: string -> string)
    requires Stuck(r)
    ensures var (r', outcomes) := Rerun(r, scripts, automatic, canonical);
      && |outcomes| == |scripts| && (forall k :: 0 <= k < |outcomes| ==> outcomes[k].Fails?)
      && Stuck(r') && r'.launches == r.launches && r'.checkpoint == r.checkpoint
    decreases |scripts|
  {
    if scripts != [] {
      StuckRunFails(r.(turns := scripts[0]), automatic, canonical);
      var (r', _) := N.AfterRun(r.(turns := scripts[0]), automatic, canonical);
      StuckForGood(r', scripts[1..], automatic, canonical);
      hide N.AfterRun;
    }
  }

  // ---- The scheduled run ----

  predicate IsBlocked(s: P.State) {
    s.db.draft.status.Rejected? && s.db.block.Some? && s.db.publication.None?
  }

  lemma BlockedStays(s: P.State, a: P.Action, canonical: string -> string)
    requires IsBlocked(s)
    ensures IsBlocked(P.Step(s, a, canonical))
  {
    hide FinalPolicy;
  }

  /** A call for a blocked draft finds the block, or nothing at all. */
  predicate FindsTheBlock(pc: P.Pc) {
    || pc.FindPublication? || pc.FindBlock? || pc.Crashed?
    || (pc.Finished? && (pc.ending == P.Raised(P.CallFailed) || (pc.ending.Returned? && pc.ending.value.ReturnAlreadyBlocked?)))
  }

  lemma BlockedCallStays(s: P.State, a: P.Action, pid: nat, canonical: string -> string)
    requires IsBlocked(s) && pid < |s.procs| && FindsTheBlock(s.procs[pid].pc)
    ensures var s' := P.Step(s, a, canonical); pid < |s'.procs| && FindsTheBlock(s'.procs[pid].pc)
  {
    if a.Advance? && a.pid < |s.procs| {
      if a.pid == pid {
        hide P.AfterSend, P.AfterClassification;
      } else {
        Safety.ProcStepKeepsOthers(s, a.pid, a.input, canonical, pid);
        hide P.ProcStep;
      }
    }
  }

  /** Worker `w` has set out to publish draft `d`, which is blocked: if it ends, it reports the block. */
  predicate WillReportTheBlock(s: S.State, w: nat, d: nat) {
    && w < |s.workers| && d < |s.drafts| && IsBlocked(s.drafts[d])
    && match s.workers[w].pc
       case LoadDraft(draft) => draft == d
       case Publish(draft) => draft == d
       case AwaitPublisher(draft, pid) => draft == d && pid < |s.drafts[d].procs| && FindsTheBlock(s.drafts[d].procs[pid].pc)
       case CallFinish(status) => status.BlockedByPolicy?
       case Caught(_) => true
       case Done(Ended(status)) => status.BlockedByPolicy?
       case Done(FailedWith(_)) => true
       case Stopped => true
       case _ => false
  }

  /** What a step of one worker leaves of the others and of the drafts. */
  predicate LeavesRest(s: S.State, s': S.State, w: nat) {
    && |s'.workers| == |s.workers| && |s'.drafts| == |s.drafts|
    && (forall i :: 0 <= i < |s.workers| && i != w ==> s'.workers[i] == s.workers[i])
    && (forall d :: 0 <= d < |s.drafts| ==>
          && s.drafts[d].procs <= s'.drafts[d].procs
          && (s'.drafts[d].db == s.drafts[d].db || PS.ApproveDraft(s.drafts[d].db) == Some(s'.drafts[d].db)))
  }

  lemma CallLeavesRest(s: S.State, w: nat, delivery: Delivery)
    requires w < |s.workers|
    ensures LeavesRest(s, S.AfterCall(s, w, delivery), w)
  {
    hide PS.ApproveDraft;
  }

  lemma WorkerLeavesRest(s: S.State, w: nat, input: S.Input)
    requires w < |s.workers|
    ensures LeavesRest(s, S.WorkerStep(s, w, input), w)
  {
    hide PS.ApproveDraft;
    if input.Call? && !s.workers[w].pc.Publish? {
      CallLeavesRest(s, w, input.delivery);
    }
    hide S.AfterCall;
  }

  lemma FreshCallFindsIt()
    ensures FindsTheBlock(P.FindPublication)
  {
  }

  lemma FinishedCallReports(pc: P.Pc)
    requires FindsTheBlock(pc) && pc.Finished?
    ensures pc.ending.Raised? || pc.ending.value.ReturnAlreadyBlocked?
  {
  }

  lemma OwnCallReports(s: S.State, w: nat, d: nat, delivery: Delivery)
    requires WillReportTheBlock(s, w, d) && !s.workers[w].pc.Publish?
    ensures WillReportTheBlock(S.AfterCall(s, w, delivery), w, d)
  {
    hide FindsTheBlock, PS.ApproveDraft;
  }

  lemma OwnLaunchReports(s: S.State, w: nat, d: nat)
    requires WillReportTheBlock(s, w, d) && s.workers[w].pc.Publish?
    ensures WillReportTheBlock(S.Launching(s, w, d), w, d)
  {
    hide FindsTheBlock;
    FreshCallFindsIt();
    assert S.Launching(s, w, d).drafts[d].procs[|s.drafts[d].procs|].pc.FindPublication?;
  }

  lemma OwnWaitReports(s: S.State, w: nat, d: nat, message: S.ErrorCode)
    requires WillReportTheBlock(s, w, d) && s.workers[w].pc.AwaitPublisher?
    ensures WillReportTheBlock(S.AfterWait(s, w, message), w, d)
  {
    hide FindsTheBlock;
    var pc := s.drafts[d].procs[s.workers[w].pc.pid].pc;
    if pc.Finished? { FinishedCallReports(pc); }
  }

  lemma OwnStepReports(s: S.State, w: nat, d: nat, input: S.Input)
    requires WillReportTheBlock(s, w, d)
    ensures WillReportTheBlock(S.WorkerStep(s, w, input), w, d)
  {
    hide S.AfterCall, S.Launching, S.AfterWait, FindsTheBlock, IsBlocked;
    var pc := s.workers[w].pc;
    if input.Call? && pc.Publish? {
      OwnLaunchReports(s, w, d);
    } else if input.Call? {
      OwnCallReports(s, w, d, input.delivery);
    } else if input.PublisherDone? && pc.AwaitPublisher? {
      OwnWaitReports(s, w, d, input.message);
    }
  }

  lemma OtherStepsLeaveTheReport(s: S.State, s': S.State, w: nat, d: nat)
    requires WillReportTheBlock(s, w, d) && w < |s'.workers| && s'.workers[w] == s.workers[w].(lost := s'.workers[w].lost)
    requires d < |s'.drafts| && IsBlocked(s'.drafts[d])
    requires forall pid :: 0 <= pid < |s.drafts[d].procs| && FindsTheBlock(s.drafts[d].procs[pid].pc) ==>
               pid < |s'.drafts[d].procs| && FindsTheBlock(s'.drafts[d].procs[pid].pc)
    ensures WillReportTheBlock(s', w, d)
  {
  }

  lemma StepKeepsTheReport(s: S.State, a: S.Action, w: nat, d: nat, canonical: string -> string)
    requires WillReportTheBlock(s, w, d)
    ensures WillReportTheBlock(S.Step(s, a, canonical), w, d)
  {
    var s' := S.Step(s, a, canonical);
    match a {
      case Advance(other, input) =>
        if other < |s.workers| {
          hide S.WorkerStep, FindsTheBlock;
          if other == w {
            OwnStepReports(s, w, d, input);
          } else {
            WorkerLeavesRest(s, other, input);
            OtherStepsLeaveTheReport(s, s', w, d);
          }
        }
      case DraftStep(draft, action) =>
        hide P.Step, FindsTheBlock;
        if draft == d {
          BlockedStays(s.drafts[d], action, canonical);
          forall pid | 0 <= pid < |s.drafts[d].procs| && FindsTheBlock(s.drafts[d].procs[pid].pc)
            ensures pid < |s'.drafts[d].procs| && FindsTheBlock(s'.drafts[d].procs[pid].pc)
          {
            BlockedCallStays(s.drafts[d], action, pid, canonical);
          }
        }
        OtherStepsLeaveTheReport(s, s', w, d);
      case Stop(other) =>
      case _ => OtherStepsLeaveTheReport(s, s', w, d);
    }
  }

  /** Once a worker has set out to publish a blocked draft, then whatever anyone does: if the run ends
      without an error, it has reported the block. */
  lemma {:induction false} BlockIsReportedAgain(s: S.State, trace: seq<S.Action>, w: nat, d: nat, canonical: string -> string)
    requires WillReportTheBlock(s, w, d)
    ensures WillReportTheBlock(S.Run(s, trace, canonical), w, d)
    decreases |trace|
  {
    if trace != [] {
      hide S.Step, WillReportTheBlock;
      StepKeepsTheReport(s, trace[0], w, d, canonical);
      BlockIsReportedAgain(S.Step(s, trace[0], canonical), trace[1..], w, d, canonical);
    }
  }

  // ---- A publisher that nobody disturbs ----

  /** What its calls come to: they are answered, and a Telegram error means that nothing was posted. */
  predicate Undisturbed(inputs: seq<P.Input>) {
    forall k :: 0 <= k < |inputs| ==> IsUndisturbed(inputs[k])
  }

  predicate IsUndisturbed(input: P.Input) {
    && !input.Crash? && (input.Call? ==> input.delivery.Acked?)
    && (input.Telegram? ==> !input.outcome.RejectedAfterPosting?)
  }

  function AdvanceAll(s: P.State, pid: nat, inputs: seq<P.Input>, canonical: string -> string): P.State {
    if inputs == [] then s
    else P.Step(AdvanceAll(s, pid, inputs[..|inputs| - 1], canonical), P.Advance(pid, inputs[|inputs| - 1]), canonical)
  }

  /** The draft after the next publisher has worked on it alone. */
  function Alone(s: P.State, inputs: seq<P.Input>, canonical: string -> string): P.State {
    AdvanceAll(P.Step(s, P.Start, canonical), |s.procs|, inputs, canonical)
  }

  lemma {:induction false} ProcStays(s: P.State, pid: nat, inputs: seq<P.Input>, canonical: string -> string)
    requires pid < |s.procs|
    ensures pid < |AdvanceAll(s, pid, inputs, canonical).procs|
  {
    if inputs != [] {
      ProcStays(s, pid, inputs[..|inputs| - 1], canonical);
      N.ProcsOnlyGrow(AdvanceAll(s, pid, inputs[..|inputs| - 1], canonical), P.Advance(pid, inputs[|inputs| - 1]), canonical);
      hide P.Step;
    }
  }

  lemma PublisherIsThere(s: P.State, inputs: seq<P.Input>, canonical: string -> string)
    ensures |s.procs| < |Alone(s, inputs, canonical).procs|
  {
    ProcStays(P.Step(s, P.Start, canonical), |s.procs|, inputs, canonical);
    hide AdvanceAll;
  }

  /** How the publisher ends, if its inputs take it to its end. */
  function EndingOf(s: P.State, inputs: seq<P.Input>, canonical: string -> string): Option<P.Ending> {
    PublisherIsThere(s, inputs, canonical);
    var pc := Alone(s, inputs, canonical).procs[|s.procs|].pc;
    if pc.Finished? then Some(pc.ending) else None
  }

  /** Both runs approve a draft in review first. */
  function Ready(s: P.State, canonical: string -> string): P.State {
    if s.db.draft.status.Review? then P.Step(s, P.Approve, canonical) else s
  }

  // ---- The request alone ----

  function StepsOf(d: nat, pid: nat, inputs: seq<P.Input>): seq<N.DraftStep> {
    seq(|inputs|, k requires 0 <= k < |inputs| => N.DraftStep(d, P.Advance(pid, inputs[k])))
  }

  lemma {:induction false} StepAllAdvances(drafts: seq<P.State>, d: nat, pid: nat, inputs: seq<P.Input>, canonical: string -> string)
    requires d < |drafts| && Undisturbed(inputs)
    ensures N.StepAll(drafts, StepsOf(d, pid, inputs), canonical) == drafts[d := AdvanceAll(drafts[d], pid, inputs, canonical)]
  {
    if inputs != [] {
      var earlier, last := inputs[..|inputs| - 1], inputs[|inputs| - 1];
      assert StepsOf(d, pid, inputs)[..|inputs| - 1] == StepsOf(d, pid, earlier);
      StepAllAdvances(drafts, d, pid, earlier, canonical);
      assert IsUndisturbed(last);
      hide P.Step;
    }
  }

  /** A quiet script in which the publisher of draft `d` works alone. */
  function PublishScript(s: P.State, d: nat, inputs: seq<P.Input>): seq<N.Turn> {
    [N.QUIET_TURN] + (if s.db.draft.status.Review? then [N.QUIET_TURN] else [])
    + [N.Turn(StepsOf(d, |s.procs|, inputs), Acked, N.Nothing, false)]
  }

  /** How a request ends that takes up this draft, and is left alone. */
  function RequestEnd(s: P.State, inputs: seq<P.Input>, canonical: string -> string): N.Outcome {
    N.AfterPublish(N.Run(Some(N.Checkpoint(N.ReviewReady, Some(0), None, true)), [s], [], PublishScript(s, 0, inputs)), canonical).1
  }

  lemma QuietAwait(r: N.Run, canonical: string -> string)
    requires r.turns == [] || r.turns[0] == N.QUIET_TURN
    ensures N.AfterAwait(r, canonical) == r.(turns := N.Rest(r.turns))
  {
  }

  lemma StartStep(s: P.State, canonical: string -> string)
    ensures P.Step(s, P.Start, canonical) == s.(procs := s.procs + [P.Proc(P.FindPublication, 0, 0)])
    ensures |P.Step(s, P.Approve, canonical).procs| == |s.procs|
    ensures s.db.draft.status.Review? ==> P.Step(s, P.Approve, canonical).db.draft.status.Approved?
  {
  }

  lemma PrepareAlone(r: N.Run, d: nat, inputs: seq<P.Input>, canonical: string -> string)
    requires d < |r.drafts| && r.turns == PublishScript(r.drafts[d], d, inputs)
    ensures var (r', problem) := N.AfterPrepare(r, d, canonical);
      if N.Resumes(r.drafts[d].db.draft.status)
      then problem.None? && r' == r.(drafts := r.drafts[d := Ready(r.drafts[d], canonical)],
                                     turns := [N.Turn(StepsOf(d, |r.drafts[d].procs|, inputs), Acked, N.Nothing, false)])
      else problem.Some?
  {
    hide P.Step, N.StepAll, StepsOf;
    var s := r.drafts[d];
    QuietAwait(r, canonical);
    var loaded := N.AfterAwait(r, canonical);
    if s.db.draft.status.Review? {
      QuietAwait(loaded, canonical);
    } else {
      assert r.drafts[d := s] == r.drafts;
    }
  }

  lemma StartAlone(r: N.Run, d: nat, inputs: seq<P.Input>, rest: seq<N.Turn>, canonical: string -> string)
    requires d < |r.drafts| && Undisturbed(inputs)
    requires r.turns == [N.Turn(StepsOf(d, |r.drafts[d].procs|, inputs), Acked, N.Nothing, false)] + rest
    ensures var (r', ending) := N.AfterStart(r, d, canonical);
      && r' == r.(drafts := r.drafts[d := Alone(r.drafts[d], inputs, canonical)],
                  launches := r.launches + [N.Launch(d, |r.drafts[d].procs|)], turns := rest)
      && ending == EndingOf(r.drafts[d], inputs, canonical)
  {
    var s := r.drafts[d];
    var started := r.drafts[d := P.Step(s, P.Start, canonical)];
    StepAllAdvances(started, d, |s.procs|, inputs, canonical);
    PublisherIsThere(s, inputs, canonical);
    hide P.Step, N.StepAll, StepsOf, AdvanceAll;
    assert r.turns[1..] == rest;
  }

  lemma RequestEnds(s: P.State, inputs: seq<P.Input>, canonical: string -> string)
    requires Undisturbed(inputs)
    requires N.Resumes(s.db.draft.status) ==> EndingOf(Ready(s, canonical), inputs, canonical).Some?
    ensures var outcome := RequestEnd(s, inputs, canonical);
      if !N.Resumes(s.db.draft.status) then outcome.Fails?
      else match EndingOf(Ready(s, canonical), inputs, canonical).value
        case Raised(_) => outcome.Fails?
        case Returned(value) => outcome.Returned? && outcome.status == N.Settled(N.Checkpoint(N.ReviewReady, Some(0), None, true), value).status
  {
    var checkpoint := N.Checkpoint(N.ReviewReady, Some(0), None, true);
    var r := N.Run(Some(checkpoint), [s], [], PublishScript(s, 0, inputs));
    PrepareAlone(r, 0, inputs, canonical);
    if N.Resumes(s.db.draft.status) {
      StartStep(s, canonical);
      var prepared := N.AfterPrepare(r, 0, canonical).0;
      assert prepared.turns == prepared.turns + [];
      StartAlone(prepared, 0, inputs, [], canonical);
      QuietAwait(N.AfterStart(prepared, 0, canonical).0, canonical);
    }
    hide P.Step, N.AfterPrepare, N.AfterStart, EndingOf, PublishScript;
  }

  // ---- The scheduled run alone ----

  /** A worker that is about to load the draft of its occurrence, under a claim that holds. */
  predicate HasDraft(t: S.State, w: nat, d: nat) {
    && w < |t.workers| && d < |t.drafts|
    && t.workers[w].pc == S.LoadDraft(d) && !t.workers[w].lost
    && S.Owns(t.row, t.workers[w].token) && t.row.draft == Some(d)
  }

  function Own(w: nat): S.Action {
    S.Advance(w, S.Call(Acked))
  }

  function DraftActions(d: nat, pid: nat, inputs: seq<P.Input>): seq<S.Action> {
    seq(|inputs|, k requires 0 <= k < |inputs| => S.DraftStep(d, P.Advance(pid, inputs[k])))
  }

  /** The worker's own steps to its end, with those of the publisher that it waits for. */
  function ScheduleScript(t: S.State, w: nat, d: nat, inputs: seq<P.Input>, message: S.ErrorCode): seq<S.Action>
    requires d < |t.drafts|
  {
    [Own(w)] + (if t.drafts[d].db.draft.status.Review? then [Own(w)] else [])
    + ([Own(w)] + (DraftActions(d, |t.drafts[d].procs|, inputs) + ([S.Advance(w, S.PublisherDone(message))] + [Own(w), Own(w)])))
  }

  function ScheduleEnd(t: S.State, w: nat, d: nat, inputs: seq<P.Input>, message: S.ErrorCode, canonical: string -> string): S.State
    requires d < |t.drafts|
  {
    S.Run(t, ScheduleScript(t, w, d, inputs, message), canonical)
  }

  lemma {:induction false} RunTwice(t: S.State, first: seq<S.Action>, second: seq<S.Action>, canonical: string -> string)
    ensures S.Run(t, first + second, canonical) == S.Run(S.Run(t, first, canonical), second, canonical)
    decreases |first|
  {
    hide S.Step;
    if first == [] {
      assert first + second == second;
    } else {
      assert (first + second)[1..] == first[1..] + second;
      RunTwice(S.Step(t, first[0], canonical), first[1..], second, canonical);
    }
  }

  lemma RunOne(t: S.State, a: S.Action, rest: seq<S.Action>, canonical: string -> string)
    ensures S.Run(t, [a] + rest, canonical) == S.Run(S.Step(t, a, canonical), rest, canonical)
  {
    hide S.Step;
    assert ([a] + rest)[1..] == rest;
  }

  lemma {:induction false} DraftActionsAdvance(t: S.State, d: nat, pid: nat, inputs: seq<P.Input>, canonical: string -> string)
    requires d < |t.drafts|
    ensures S.Run(t, DraftActions(d, pid, inputs), canonical) == t.(drafts := t.drafts[d := AdvanceAll(t.drafts[d], pid, inputs, canonical)])
  {
    if inputs == [] {
      assert t.drafts[d := t.drafts[d]] == t.drafts;
    } else {
      var earlier, last := inputs[..|inputs| - 1], inputs[|inputs| - 1];
      var a := S.DraftStep(d, P.Advance(pid, last));
      assert DraftActions(d, pid, inputs) == DraftActions(d, pid, earlier) + [a];
      DraftActionsAdvance(t, d, pid, earlier, canonical);
      RunTwice(t, DraftActions(d, pid, earlier), [a], canonical);
      var before := S.Run(t, DraftActions(d, pid, earlier), canonical);
      assert [a] == [a] + [];
      RunOne(before, a, [], canonical);
      hide P.Step, DraftActions;
    }
  }

  /** The worker's first steps: the draft is loaded, approved if it is in review, and a publisher started. */
  predicate Launched(t: S.State, t': S.State, w: nat, d: nat, s: P.State, canonical: string -> string)
    requires w < |t.workers| && d < |t.drafts|
  {
    && |t'.workers| == |t.workers| && |t'.drafts| == |t.drafts|
    && t'.workers[w].pc == S.AwaitPublisher(d, |s.procs|)
    && !t'.workers[w].lost && S.Owns(t'.row, t'.workers[w].token) && t'.row.draft == Some(d)
    && t'.drafts[d] == P.Step(s, P.Start, canonical)
  }

  lemma LaunchAlone(t: S.State, w: nat, d: nat, canonical: string -> string)
    requires HasDraft(t, w, d) && !t.drafts[d].db.draft.status.Draft?
    ensures Launched(t, S.Run(t, Opening(t, w, d), canonical), w, d, Ready(t.drafts[d], canonical), canonical)
  {
    hide S.Step, S.Run, P.Step, Launched;
    var s := t.drafts[d];
    var loaded := S.Step(t, Own(w), canonical);
    LoadStep(t, w, d, canonical);
    if s.db.draft.status.Review? {
      var approved := S.Step(loaded, Own(w), canonical);
      ApproveStep(loaded, w, d, canonical);
      LaunchStep(approved, w, d, canonical);
      StartStep(s, canonical);
      ThreeSteps(t, Own(w), canonical);
      LaunchedFromHere(t, approved, S.Step(approved, Own(w), canonical), w, d, Ready(s, canonical), canonical);
    } else {
      LaunchStep(loaded, w, d, canonical);
      ThreeSteps(t, Own(w), canonical);
      LaunchedFromHere(t, loaded, S.Step(loaded, Own(w), canonical), w, d, s, canonical);
    }
  }

  lemma LaunchedFromHere(t: S.State, t1: S.State, t': S.State, w: nat, d: nat, s: P.State, canonical: string -> string)
    requires w < |t.workers| && d < |t.drafts| && |t1.workers| == |t.workers| && |t1.drafts| == |t.drafts|
    requires Launched(t1, t', w, d, s, canonical)
    ensures Launched(t, t', w, d, s, canonical)
  {
    hide P.Step;
  }

  lemma ThreeSteps(t: S.State, a: S.Action, canonical: string -> string)
    ensures S.Run(t, [a] + [] + [a], canonical) == S.Step(S.Step(t, a, canonical), a, canonical)
    ensures S.Run(t, [a] + [a] + [a], canonical) == S.Step(S.Step(S.Step(t, a, canonical), a, canonical), a, canonical)
  {
    hide S.Step;
    var t1 := S.Step(t, a, canonical);
    var t2 := S.Step(t1, a, canonical);
    RunOne(t, a, [a], canonical);
    RunOne(t1, a, [], canonical);
    RunOne(t, a, [a, a], canonical);
    RunOne(t1, a, [a], canonical);
    RunOne(t2, a, [], canonical);
    assert [a] + [] + [a] == [a] + [a] && [a] == [a] + [] && [a] + [a] + [a] == [a] + [a, a] && [a, a] == [a] + [a];
  }

  /** The worker is at `pc`, and all else is as it was, except perhaps for its log and the draft. */
  predicate At(t: S.State, t': S.State, w: nat, d: nat, pc: S.Pc, s: P.State)
    requires w < |t.workers| && d < |t.drafts|
  {
    && w < |t'.workers|
    && t' == t.(workers := t.workers[w := t.workers[w].(pc := pc, log := t'.workers[w].log)], drafts := t.drafts[d := s])
  }

  lemma LoadStep(t: S.State, w: nat, d: nat, canonical: string -> string)
    requires HasDraft(t, w, d)
    ensures At(t, S.Step(t, Own(w), canonical), w, d, S.AfterLoad(d, t.drafts[d].db.draft.status), t.drafts[d])
  {
    assert t.drafts[d := t.drafts[d]] == t.drafts;
  }

  lemma ApproveStep(t: S.State, w: nat, d: nat, canonical: string -> string)
    requires w < |t.workers| && d < |t.drafts| && t.workers[w].pc == S.ApproveDraft(d) && t.drafts[d].db.draft.status.Review?
    ensures At(t, S.Step(t, Own(w), canonical), w, d, S.Publish(d), P.Step(t.drafts[d], P.Approve, canonical))
  {
  }

  lemma LaunchStep(t: S.State, w: nat, d: nat, canonical: string -> string)
    requires w < |t.workers| && d < |t.drafts| && t.workers[w].pc == S.Publish(d) && !t.workers[w].lost
    requires S.Owns(t.row, t.workers[w].token) && t.row.draft == Some(d)
    ensures Launched(t, S.Step(t, Own(w), canonical), w, d, t.drafts[d], canonical)
  {
  }

  /** The last steps, from the publisher's end. */
  lemma FinishAlone(t: S.State, w: nat, d: nat, pid: nat, message: S.ErrorCode, canonical: string -> string)
    requires w < |t.workers| && d < |t.drafts| && pid < |t.drafts[d].procs| && t.drafts[d].procs[pid].pc.Finished?
    requires t.workers[w].pc == S.AwaitPublisher(d, pid) && !t.workers[w].lost
    requires S.Owns(t.row, t.workers[w].token) && t.row.draft == Some(d)
    ensures var t' := S.Run(t, [S.Advance(w, S.PublisherDone(message))] + [Own(w), Own(w)], canonical);
      w < |t'.workers| && match t.drafts[d].procs[pid].pc.ending
        case Raised(_) => t'.workers[w].pc.Done? && t'.workers[w].pc.result.FailedWith?
        case Returned(ReturnPublished(_)) => t'.workers[w].pc == S.Done(S.Ended(S.PublishedStatus))
        case Returned(ReturnAlreadyPublished(_)) => t'.workers[w].pc == S.Done(S.Ended(S.PublishedStatus))
        case Returned(_) => t'.workers[w].pc == S.Done(S.Ended(S.BlockedByPolicy))
  {
    var done := S.Step(t, S.Advance(w, S.PublisherDone(message)), canonical);
    var recorded := S.Step(done, Own(w), canonical);
    var ended := S.Step(recorded, Own(w), canonical);
    RunOne(t, S.Advance(w, S.PublisherDone(message)), [Own(w), Own(w)], canonical);
    assert [Own(w), Own(w)] == [Own(w)] + [Own(w)] && [Own(w)] == [Own(w)] + [];
    RunOne(done, Own(w), [Own(w)], canonical);
    RunOne(recorded, Own(w), [], canonical);
    WaitStep(t, w, d, pid, message, canonical);
    LastSteps(done, w, d, canonical);
    hide S.Step;
  }

  lemma WaitStep(t: S.State, w: nat, d: nat, pid: nat, message: S.ErrorCode, canonical: string -> string)
    requires w < |t.workers| && d < |t.drafts| && pid < |t.drafts[d].procs| && t.drafts[d].procs[pid].pc.Finished?
    requires t.workers[w].pc == S.AwaitPublisher(d, pid)
    ensures var pc := S.AfterPublisher(t.workers[w], d, t.drafts[d].procs[pid].pc.ending, message);
      At(t, S.Step(t, S.Advance(w, S.PublisherDone(message)), canonical), w, d, pc, t.drafts[d])
  {
    assert t.drafts[d := t.drafts[d]] == t.drafts;
  }

  lemma LastSteps(t: S.State, w: nat, d: nat, canonical: string -> string)
    requires w < |t.workers| && !t.workers[w].lost && S.Owns(t.row, t.workers[w].token) && t.row.draft == Some(d)
    requires var pc := t.workers[w].pc; pc.Caught? || pc.CallFinish? || (pc.RecordPublication? && pc.draft == d)
    ensures var t' := S.Step(S.Step(t, Own(w), canonical), Own(w), canonical);
      && w < |t'.workers|
      && match t.workers[w].pc
         case Caught(_) => t'.workers[w].pc.Done? && t'.workers[w].pc.result.FailedWith?
         case CallFinish(status) => t'.workers[w].pc == S.Done(S.Ended(status))
         case _ => t'.workers[w].pc == S.Done(S.Ended(S.PublishedStatus))
  {
    var next := S.Step(t, Own(w), canonical);
    match t.workers[w].pc {
      case Caught(_) => CaughtEndsAtOnce(t, w, canonical);
      case CallFinish(status) => FinishStep(t, w, status, canonical);
      case RecordPublication(_, messageId) =>
        RecordStep(t, w, d, messageId, canonical);
        FinishStep(next, w, S.PublishedStatus, canonical);
    }
    if !t.workers[w].pc.RecordPublication? { DoneStays(next, Own(w), w, canonical); }
    hide S.Step;
  }

  lemma FinishStep(t: S.State, w: nat, status: S.Status, canonical: string -> string)
    requires w < |t.workers| && t.workers[w].pc == S.CallFinish(status) && S.Owns(t.row, t.workers[w].token)
    ensures var t' := S.Step(t, Own(w), canonical); w < |t'.workers| && t'.workers[w].pc == S.Done(S.Ended(status))
  {
  }

  lemma RecordStep(t: S.State, w: nat, d: nat, messageId: nat, canonical: string -> string)
    requires w < |t.workers| && t.workers[w].pc == S.RecordPublication(d, messageId) && !t.workers[w].lost
    requires S.Owns(t.row, t.workers[w].token) && t.row.draft == Some(d)
    ensures var t' := S.Step(t, Own(w), canonical);
      && w < |t'.workers| && t'.workers[w].pc == S.CallFinish(S.PublishedStatus)
      && t'.workers[w].token == t.workers[w].token && S.Owns(t'.row, t'.workers[w].token)
  {
  }

  /** A draft that was never submitted ends the scheduled run in an error, too. */
  lemma {:induction false} FailsAtOnce(t: S.State, w: nat, rest: seq<S.Action>, canonical: string -> string)
    requires w < |t.workers| && t.workers[w].pc.Done? && t.workers[w].pc.result.FailedWith?
    ensures var t' := S.Run(t, rest, canonical); w < |t'.workers| && t'.workers[w].pc == t.workers[w].pc
    decreases |rest|
  {
    if rest != [] {
      DoneStays(t, rest[0], w, canonical);
      FailsAtOnce(S.Step(t, rest[0], canonical), w, rest[1..], canonical);
      hide S.Step;
    }
  }

  lemma DoneStays(t: S.State, a: S.Action, w: nat, canonical: string -> string)
    requires w < |t.workers| && t.workers[w].pc.Done?
    ensures var t' := S.Step(t, a, canonical); w < |t'.workers| && t'.workers[w].pc == t.workers[w].pc
  {
    hide P.Step;
    if a.Advance? && a.worker < |t.workers| {
      if a.worker != w {
        WorkerLeavesRest(t, a.worker, a.input);
        hide S.WorkerStep;
      }
    }
  }

  lemma ScheduleEnds(t: S.State, w: nat, d: nat, inputs: seq<P.Input>, message: S.ErrorCode, canonical: string -> string)
    requires HasDraft(t, w, d) && !t.drafts[d].db.draft.status.Draft?
    requires EndingOf(Ready(t.drafts[d], canonical), inputs, canonical).Some?
    ensures var t' := ScheduleEnd(t, w, d, inputs, message, canonical);
      w < |t'.workers| && match EndingOf(Ready(t.drafts[d], canonical), inputs, canonical).value
        case Raised(_) => t'.workers[w].pc.Done? && t'.workers[w].pc.result.FailedWith?
        case Returned(ReturnPublished(_)) => t'.workers[w].pc == S.Done(S.Ended(S.PublishedStatus))
        case Returned(ReturnAlreadyPublished(_)) => t'.workers[w].pc == S.Done(S.Ended(S.PublishedStatus))
        case Returned(_) => t'.workers[w].pc == S.Done(S.Ended(S.BlockedByPolicy))
  {
    hide P.Step, S.Step, S.Run, DraftActions, AdvanceAll, Ready, ScheduleScript;
    var s, pid := Ready(t.drafts[d], canonical), |t.drafts[d].procs|;
    var launched := S.Run(t, Opening(t, w, d), canonical);
    LaunchAlone(t, w, d, canonical);
    ScheduleInThreeParts(t, w, d, inputs, message, canonical);
    PublishedAlone(t, launched, w, d, s, inputs, canonical);
    SameProcs(t.drafts[d], canonical);
    FinishAlone(S.Run(launched, DraftActions(d, pid, inputs), canonical), w, d, pid, message, canonical);
  }

  lemma SameProcs(s: P.State, canonical: string -> string)
    ensures |Ready(s, canonical).procs| == |s.procs|
  {
    StartStep(s, canonical);
    hide P.Step;
  }

  function Opening(t: S.State, w: nat, d: nat): seq<S.Action>
    requires d < |t.drafts|
  {
    [Own(w)] + (if t.drafts[d].db.draft.status.Review? then [Own(w)] else []) + [Own(w)]
  }

  lemma ScheduleInThreeParts(t: S.State, w: nat, d: nat, inputs: seq<P.Input>, message: S.ErrorCode, canonical: string -> string)
    requires d < |t.drafts|
    ensures var last := [S.Advance(w, S.PublisherDone(message))] + [Own(w), Own(w)];
      ScheduleEnd(t, w, d, inputs, message, canonical)
      == S.Run(S.Run(S.Run(t, Opening(t, w, d), canonical), DraftActions(d, |t.drafts[d].procs|, inputs), canonical), last, canonical)
  {
    hide S.Step, S.Run, DraftActions;
    var last := [S.Advance(w, S.PublisherDone(message))] + [Own(w), Own(w)];
    var middle := DraftActions(d, |t.drafts[d].procs|, inputs);
    var first := [Own(w)] + (if t.drafts[d].db.draft.status.Review? then [Own(w)] else []);
    assert first + ([Own(w)] + (middle + last)) == (first + [Own(w)]) + (middle + last);
    RunTwice(t, Opening(t, w, d), middle + last, canonical);
    RunTwice(S.Run(t, Opening(t, w, d), canonical), middle, last, canonical);
  }

  lemma PublishedAlone(t: S.State, launched: S.State, w: nat, d: nat, s: P.State, inputs: seq<P.Input>, canonical: string -> string)
    requires w < |t.workers| && d < |t.drafts| && Launched(t, launched, w, d, s, canonical)
    ensures var t' := S.Run(launched, DraftActions(d, |s.procs|, inputs), canonical);
      && w < |t'.workers| && t'.workers == launched.workers && t'.row == launched.row && d < |t'.drafts|
      && t'.drafts[d] == Alone(s, inputs, canonical) && |s.procs| < |t'.drafts[d].procs|
  {
    hide P.Step, S.Step, DraftActions, AdvanceAll;
    DraftActionsAdvance(launched, d, |s.procs|, inputs, canonical);
    PublisherIsThere(s, inputs, canonical);
  }

  lemma UnsubmittedFails(t: S.State, w: nat, d: nat, inputs: seq<P.Input>, message: S.ErrorCode, canonical: string -> string)
    requires HasDraft(t, w, d) && t.drafts[d].db.draft.status.Draft?
    ensures var t' := ScheduleEnd(t, w, d, inputs, message, canonical);
      w < |t'.workers| && t'.workers[w].pc.Done? && t'.workers[w].pc.result.FailedWith?
  {
    var loaded := S.Step(t, Own(w), canonical);
    LoadStep(t, w, d, canonical);
    var caught := S.Step(loaded, Own(w), canonical);
    LastSteps(loaded, w, d, canonical);
    CaughtEndsAtOnce(loaded, w, canonical);
    var rest := DraftActions(d, |t.drafts[d].procs|, inputs) + ([S.Advance(w, S.PublisherDone(message))] + [Own(w), Own(w)]);
    hide S.Step, P.Step, DraftActions;
    assert ScheduleScript(t, w, d, inputs, message) == [Own(w)] + ([Own(w)] + rest);
    RunOne(t, Own(w), [Own(w)] + rest, canonical);
    RunOne(loaded, Own(w), rest, canonical);
    FailsAtOnce(caught, w, rest, canonical);
  }

  lemma CaughtEndsAtOnce(t: S.State, w: nat, canonical: string -> string)
    requires w < |t.workers| && t.workers[w].pc.Caught?
    ensures var t' := S.Step(t, Own(w), canonical);
      w < |t'.workers| && t'.workers[w].pc.Done? && t'.workers[w].pc.result.FailedWith?
  {
  }

  // ---- When the two end alike ----

  /** Both report a publication, or a block, or both fail. */
  predicate EndAlike(outcome: N.Outcome, pc: S.Pc) {
    if outcome.Fails? then pc.Done? && pc.result.FailedWith?
    else
      || (outcome.status.PublishedStatus? && pc == S.Done(S.Ended(S.PublishedStatus)))
      || (outcome.status.BlockedByPolicy? && pc == S.Done(S.Ended(S.BlockedByPolicy)))
  }

  /** A call for a draft that is rejected and not blocked: it raises sooner or later. */
  predicate Raises(pc: P.Pc) {
    || pc.FindPublication? || pc.FindBlock? || pc.LoadDraft? || pc.LoadSettings? || pc.Classify? || pc.RecordBlock?
    || pc.Reload? || pc.TakeClaim? || pc.Crashed? || (pc.Finished? && pc.ending.Raised?)
  }

  predicate RejectedOnly(s: P.State) {
    s.db.draft.status.Rejected? && s.db.block.None? && s.db.publication.None?
  }

  lemma RaisingStep(s: P.State, pid: nat, input: P.Input, canonical: string -> string)
    requires RejectedOnly(s) && pid < |s.procs| && Raises(s.procs[pid].pc)
    ensures var s' := P.Step(s, P.Advance(pid, input), canonical);
      RejectedOnly(s') && pid < |s'.procs| && Raises(s'.procs[pid].pc)
  {
    hide FinalPolicy;
  }

  lemma {:induction false} RejectedCallRaises(s: P.State, pid: nat, inputs: seq<P.Input>, canonical: string -> string)
    requires RejectedOnly(s) && pid < |s.procs| && Raises(s.procs[pid].pc)
    ensures var s' := AdvanceAll(s, pid, inputs, canonical); RejectedOnly(s') && pid < |s'.procs| && Raises(s'.procs[pid].pc)
  {
    if inputs != [] {
      RejectedCallRaises(s, pid, inputs[..|inputs| - 1], canonical);
      RaisingStep(AdvanceAll(s, pid, inputs[..|inputs| - 1], canonical), pid, inputs[|inputs| - 1], canonical);
      hide P.Step, Raises;
    }
  }

  predicate FindsOnlyTheBlock(pc: P.Pc) {
    pc.FindPublication? || pc.FindBlock? || (pc.Finished? && pc.ending.Returned? && pc.ending.value.ReturnAlreadyBlocked?)
  }

  lemma BlockedStep(s: P.State, pid: nat, input: P.Input, canonical: string -> string)
    requires IsBlocked(s) && pid < |s.procs| && FindsOnlyTheBlock(s.procs[pid].pc) && IsUndisturbed(input)
    ensures var s' := P.Step(s, P.Advance(pid, input), canonical);
      IsBlocked(s') && pid < |s'.procs| && FindsOnlyTheBlock(s'.procs[pid].pc)
  {
    hide FinalPolicy;
  }

  lemma {:induction false} BlockedCallReturns(s: P.State, pid: nat, inputs: seq<P.Input>, canonical: string -> string)
    requires IsBlocked(s) && pid < |s.procs| && FindsOnlyTheBlock(s.procs[pid].pc) && Undisturbed(inputs)
    ensures var s' := AdvanceAll(s, pid, inputs, canonical); IsBlocked(s') && pid < |s'.procs| && FindsOnlyTheBlock(s'.procs[pid].pc)
  {
    if inputs != [] {
      BlockedCallReturns(s, pid, inputs[..|inputs| - 1], canonical);
      assert IsUndisturbed(inputs[|inputs| - 1]);
      BlockedStep(AdvanceAll(s, pid, inputs[..|inputs| - 1], canonical), pid, inputs[|inputs| - 1], canonical);
      hide P.Step, FindsOnlyTheBlock;
    }
  }

  /** How a publisher of a rejected draft ends. */
  lemma RejectedEnding(s: P.State, inputs: seq<P.Input>, canonical: string -> string)
    requires P.Inv(s, canonical) && s.db.draft.status.Rejected? && Undisturbed(inputs) && EndingOf(s, inputs, canonical).Some?
    ensures var ending := EndingOf(s, inputs, canonical).value;
      if s.db.block.Some? then ending.Returned? && ending.value.ReturnAlreadyBlocked? else ending.Raised?
  {
    StartStep(s, canonical);
    var started := P.Step(s, P.Start, canonical);
    if s.db.block.Some? {
      BlockedCallReturns(started, |s.procs|, inputs, canonical);
    } else {
      RejectedCallRaises(started, |s.procs|, inputs, canonical);
    }
    hide P.Step, AdvanceAll;
  }

  /** Left alone, a request and a scheduled run that take up the same draft end alike if and only if it is
      not a rejected draft with a policy block; of that, the scheduled run reports the block. */
  lemma ResumptionsEndAlike(t: S.State, w: nat, d: nat, inputs: seq<P.Input>, message: S.ErrorCode, canonical: string -> string)
    requires HasDraft(t, w, d) && P.Inv(t.drafts[d], canonical) && Undisturbed(inputs)
    requires !t.drafts[d].db.draft.status.Draft? ==> EndingOf(Ready(t.drafts[d], canonical), inputs, canonical).Some?
    ensures var s, t' := t.drafts[d], ScheduleEnd(t, w, d, inputs, message, canonical);
      && w < |t'.workers|
      && (EndAlike(RequestEnd(s, inputs, canonical), t'.workers[w].pc) <==> !(s.db.draft.status.Rejected? && s.db.block.Some?))
      && (s.db.draft.status.Rejected? && s.db.block.Some? ==>
            RequestEnd(s, inputs, canonical).Fails? && t'.workers[w].pc == S.Done(S.Ended(S.BlockedByPolicy)))
  {
    var s := t.drafts[d];
    RequestEnds(s, inputs, canonical);
    if s.db.draft.status.Draft? {
      UnsubmittedFails(t, w, d, inputs, message, canonical);
      DraftsAreNotBlocked(s, canonical);
    } else {
      ScheduleEnds(t, w, d, inputs, message, canonical);
      if s.db.draft.status.Rejected? { RejectedEnding(s, inputs, canonical); }
    }
    hide P.Inv, P.Step, RequestEnd, ScheduleEnd, EndingOf;
  }

  lemma DraftsAreNotBlocked(s: P.State, canonical: string -> string)
    requires P.Inv(s, canonical)
    ensures s.db.block.Some? ==> s.db.draft.status.Rejected?
  {
  }

  // ---- Whole runs of a request ----

  /** A script for a request that has read no checkpoint: its first tier finds a text, the draft is submitted
      and the settings are revised, the publisher works alone, and `save` is what becomes of the last call. */
  function FreshScript(d: nat, body: string, excluded: seq<string>, inputs: seq<P.Input>, save: Delivery): seq<N.Turn> {
    [N.Turn([], Acked, N.Found(body), false)] + ([N.QUIET_TURN]
    + ([N.Turn([N.DraftStep(d, P.Submit), N.DraftStep(d, P.Revise(excluded))], Acked, N.Nothing, false)] + ([N.QUIET_TURN]
    + ([N.Turn(StepsOf(d, 0, inputs), Acked, N.Nothing, false)] + [N.Turn([], save, N.Nothing, false)]))))
  }

  /** The draft as the publisher finds it. */
  function Prepared(body: string, excluded: seq<string>, canonical: string -> string): P.State {
    P.Step(P.Step(P.Step(P.Initial(body), P.Submit, canonical), P.Revise(excluded), canonical), P.Approve, canonical)
  }

  lemma PreparedIsApproved(body: string, excluded: seq<string>, canonical: string -> string)
    ensures var submitted := P.Step(P.Initial(body), P.Submit, canonical);
      var revised := P.Step(submitted, P.Revise(excluded), canonical);
      && revised.db.draft.status.Review? && PS.ApproveDraft(revised.db).Some? && revised.procs == []
      && Prepared(body, excluded, canonical).db.draft == PS.DraftRow(PS.Approved, body)
      && Prepared(body, excluded, canonical).db.settings == Some(PS.Settings(1, excluded))
      && Prepared(body, excluded, canonical).db.publication.None? && Prepared(body, excluded, canonical).db.block.None?
      && Prepared(body, excluded, canonical).procs == [] && Prepared(body, excluded, canonical).posts == []
  {
  }

  lemma TwoStepsOf(drafts: seq<P.State>, d: nat, a: P.Action, b: P.Action, canonical: string -> string)
    requires d < |drafts| && a.Submit? && b.Revise?
    ensures N.StepAll(drafts, [N.DraftStep(d, a), N.DraftStep(d, b)], canonical)
         == drafts[d := P.Step(P.Step(drafts[d], a, canonical), b, canonical)]
  {
    hide P.Step;
    var steps := [N.DraftStep(d, a), N.DraftStep(d, b)];
    assert steps[..1] == [N.DraftStep(d, a)] && steps[..1][..0] == [];
    assert N.StepAll(drafts, steps[..1], canonical) == drafts[d := P.Step(drafts[d], a, canonical)];
  }

  lemma PlainAwait(r: N.Run, canonical: string -> string)
    requires r.turns != [] && r.turns[0].others == []
    ensures N.AfterAwait(r, canonical) == r.(turns := r.turns[1..])
  {
  }

  /** The draft is found and checkpointed. */
  lemma FoundAndSaved(r: N.Run, body: string, rest: seq<N.Turn>, canonical: string -> string)
    requires r.turns == [N.Turn([], Acked, N.Found(body), false)] + ([N.QUIET_TURN] + rest)
    ensures var d := |r.drafts|;
      var (searched, found) := N.AfterSearch(r, N.TIERS, canonical);
      var (saved, unsaved) := N.AfterSave(searched, N.Checkpoint(N.ReviewReady, found.value, None, true), canonical);
      && found == Success(Some(d)) && unsaved.None?
      && saved == N.Run(Some(N.Checkpoint(N.ReviewReady, Some(d), None, true)), r.drafts + [P.Initial(body)], r.launches, rest)
  {
    hide N.StepAll, P.Initial;
    PlainAwait(r, canonical);
    assert r.turns[1..] == [N.QUIET_TURN] + rest;
    var searched := r.(drafts := r.drafts + [P.Initial(body)], turns := [N.QUIET_TURN] + rest);
    assert N.AfterSearch(r, N.TIERS, canonical) == (searched, Success(Some(|r.drafts|)));
    PlainAwait(searched, canonical);
    assert searched.turns[1..] == rest;
  }

  /** It is loaded in review and approved. */
  lemma LoadedAndApproved(r: N.Run, d: nat, body: string, excluded: seq<string>, rest: seq<N.Turn>, canonical: string -> string)
    requires d < |r.drafts| && r.drafts[d] == P.Initial(body)
    requires r.turns == [N.Turn([N.DraftStep(d, P.Submit), N.DraftStep(d, P.Revise(excluded))], Acked, N.Nothing, false)] + ([N.QUIET_TURN] + rest)
    ensures N.AfterPrepare(r, d, canonical) == (r.(drafts := r.drafts[d := Prepared(body, excluded, canonical)], turns := rest), None)
  {
    hide P.Initial, P.Step;
    TwoStepsOf(r.drafts, d, P.Submit, P.Revise(excluded), canonical);
    PreparedIsApproved(body, excluded, canonical);
    var loaded := N.AfterAwait(r, canonical);
    assert r.turns[1..] == [N.QUIET_TURN] + rest;
    PlainAwait(loaded, canonical);
    assert loaded.turns[1..] == rest;
    hide N.StepAll;
    assert r.drafts[d := loaded.drafts[d]][d := Prepared(body, excluded, canonical)] == r.drafts[d := Prepared(body, excluded, canonical)];
  }

  /** Such a run of a request: the draft, and how it ends. */
  lemma FreshRun(r: N.Run, body: string, excluded: seq<string>, inputs: seq<P.Input>, save: Delivery, canonical: string -> string)
    requires r.turns == FreshScript(|r.drafts|, body, excluded, inputs, save) && Undisturbed(inputs)
    requires var ending := EndingOf(Prepared(body, excluded, canonical), inputs, canonical); ending.Some? && ending.value.Returned?
    ensures var d, waiting := |r.drafts|, N.Checkpoint(N.ReviewReady, Some(|r.drafts|), None, true);
      var next := N.Settled(waiting, EndingOf(Prepared(body, excluded, canonical), inputs, canonical).value.value);
      var (r', outcome) := N.AfterNothingRead(r, true, canonical);
      && r'.drafts == r.drafts + [Alone(Prepared(body, excluded, canonical), inputs, canonical)]
      && r'.launches == r.launches + [N.Launch(d, 0)]
      && r'.checkpoint == Some(if save.NotApplied? then waiting else next)
      && outcome == if save.Acked? then N.Returned(next.status, next.messageId) else N.Fails(N.CallRaised)
  {
    hide P.Step, P.Initial, N.StepAll, Prepared, Alone, StepsOf, N.AfterPrepare, N.AfterStart, N.AfterSearch, EndingOf;
    var d := |r.drafts|;
    var last := [N.Turn([], save, N.Nothing, false)];
    var publish := [N.Turn(StepsOf(d, 0, inputs), Acked, N.Nothing, false)] + last;
    var load := [N.Turn([N.DraftStep(d, P.Submit), N.DraftStep(d, P.Revise(excluded))], Acked, N.Nothing, false)] + ([N.QUIET_TURN] + publish);
    FoundAndSaved(r, body, load, canonical);
    var saved := N.Run(Some(N.Checkpoint(N.ReviewReady, Some(d), None, true)), r.drafts + [P.Initial(body)], r.launches, load);
    LoadedAndApproved(saved, d, body, excluded, publish, canonical);
    var prepared := N.AfterPrepare(saved, d, canonical).0;
    NoProcsYet(body, excluded, canonical);
    StartAlone(prepared, d, inputs, last, canonical);
    var published := N.AfterStart(prepared, d, canonical).0;
    PlainAwait(published, canonical);
    assert saved.drafts[d := Prepared(body, excluded, canonical)][d := Alone(Prepared(body, excluded, canonical), inputs, canonical)]
        == r.drafts + [Alone(Prepared(body, excluded, canonical), inputs, canonical)];
  }

  lemma NoProcsYet(body: string, excluded: seq<string>, canonical: string -> string)
    ensures Prepared(body, excluded, canonical).procs == []
  {
    PreparedIsApproved(body, excluded, canonical);
    hide P.Step, P.Initial;
  }

  // ---- A block whose checkpoint is not saved ----

  const ANSWERED := P.Call(Acked)

  /** The publisher's calls, up to the verdict of a classifier that is not there. */
  function UpToVerdict(): seq<P.Input> {
    [ANSWERED, ANSWERED, ANSWERED, ANSWERED, P.Verdict(NoClassifier)]
  }

  lemma AdvanceOnce(s: P.State, pid: nat, inputs: seq<P.Input>, last: P.Input, canonical: string -> string)
    ensures AdvanceAll(s, pid, inputs + [last], canonical) == P.Step(AdvanceAll(s, pid, inputs, canonical), P.Advance(pid, last), canonical)
  {
    hide P.Step;
    assert (inputs + [last])[..|inputs|] == inputs;
  }

  /** One process, at this point, on a draft with nothing posted and nothing recorded. */
  predicate OnlyAt(s: P.State, body: string, excluded: seq<string>, pc: P.Pc) {
    && s.db == PS.Db(PS.DraftRow(PS.Approved, body), Some(PS.Settings(1, excluded)), None, None)
    && s.posts == [] && |s.procs| == 1 && s.procs[0].pc == pc
  }

  lemma AnswerMoves(s: P.State, body: string, excluded: seq<string>, pc: P.Pc, next: P.Pc, canonical: string -> string)
    requires OnlyAt(s, body, excluded, pc)
    requires (pc.FindPublication? && next.FindBlock?) || (pc.FindBlock? && next.LoadDraft?)
      || (pc.LoadDraft? && next == P.LoadSettings(0, body))
      || (pc == P.LoadSettings(0, body) && next == P.Classify(0, body, PS.Settings(1, excluded)))
    ensures OnlyAt(P.Step(s, P.Advance(0, ANSWERED), canonical), body, excluded, next)
  {
  }

  lemma VerdictMoves(s: P.State, body: string, excluded: seq<string>, canonical: string -> string)
    requires OnlyAt(s, body, excluded, P.Classify(0, body, PS.Settings(1, excluded)))
    ensures OnlyAt(P.Step(s, P.Advance(0, P.Verdict(NoClassifier)), canonical), body, excluded,
              if excluded == [] then P.TakeClaim(0, body, PS.Settings(1, excluded))
              else P.RecordBlock(0, body, PS.Settings(1, excluded), ClassifierError))
  {
  }

  lemma VerdictAlone(body: string, excluded: seq<string>, canonical: string -> string)
    ensures OnlyAt(Alone(Prepared(body, excluded, canonical), UpToVerdict(), canonical), body, excluded,
              if excluded == [] then P.TakeClaim(0, body, PS.Settings(1, excluded))
              else P.RecordBlock(0, body, PS.Settings(1, excluded), ClassifierError))
  {
    var prepared := Prepared(body, excluded, canonical);
    PreparedIsApproved(body, excluded, canonical);
    StartStep(prepared, canonical);
    hide P.Step, P.Initial, Prepared;
    var s0 := P.Step(prepared, P.Start, canonical);
    var s1 := P.Step(s0, P.Advance(0, ANSWERED), canonical);
    var s2 := P.Step(s1, P.Advance(0, ANSWERED), canonical);
    var s3 := P.Step(s2, P.Advance(0, ANSWERED), canonical);
    var s4 := P.Step(s3, P.Advance(0, ANSWERED), canonical);
    AnswerMoves(s0, body, excluded, P.FindPublication, P.FindBlock, canonical);
    AnswerMoves(s1, body, excluded, P.FindBlock, P.LoadDraft, canonical);
    AnswerMoves(s2, body, excluded, P.LoadDraft, P.LoadSettings(0, body), canonical);
    AnswerMoves(s3, body, excluded, P.LoadSettings(0, body), P.Classify(0, body, PS.Settings(1, excluded)), canonical);
    VerdictMoves(s4, body, excluded, canonical);
    hide OnlyAt;
    FiveAdvances(s0, canonical);
  }

  lemma FiveAdvances(s0: P.State, canonical: string -> string)
    ensures AdvanceAll(s0, 0, UpToVerdict(), canonical) ==
      P.Step(P.Step(P.Step(P.Step(P.Step(s0, P.Advance(0, ANSWERED), canonical), P.Advance(0, ANSWERED), canonical),
                                  P.Advance(0, ANSWERED), canonical), P.Advance(0, ANSWERED), canonical),
             P.Advance(0, P.Verdict(NoClassifier)), canonical)
  {
    hide P.Step, AdvanceAll;
    NothingAdvances(s0, 0, canonical);
    AdvanceOnce(s0, 0, [], ANSWERED, canonical);
    AdvanceOnce(s0, 0, [ANSWERED], ANSWERED, canonical);
    AdvanceOnce(s0, 0, [ANSWERED, ANSWERED], ANSWERED, canonical);
    AdvanceOnce(s0, 0, [ANSWERED, ANSWERED, ANSWERED], ANSWERED, canonical);
    AdvanceOnce(s0, 0, [ANSWERED, ANSWERED, ANSWERED, ANSWERED], P.Verdict(NoClassifier), canonical);
    assert [] + [ANSWERED] == [ANSWERED] && [ANSWERED] + [ANSWERED] == [ANSWERED, ANSWERED];
    assert [ANSWERED, ANSWERED] + [ANSWERED] == [ANSWERED, ANSWERED, ANSWERED];
    assert [ANSWERED, ANSWERED, ANSWERED] + [ANSWERED] == [ANSWERED, ANSWERED, ANSWERED, ANSWERED];
    assert [ANSWERED, ANSWERED, ANSWERED, ANSWERED] + [P.Verdict(NoClassifier)] == UpToVerdict();
  }

  lemma NothingAdvances(s: P.State, pid: nat, canonical: string -> string)
    ensures AdvanceAll(s, pid, [], canonical) == s
  {
  }

  /** The policy fails closed, and the block is recorded. */
  lemma BlockAlone(body: string, canonical: string -> string)
    ensures var prepared, inputs := Prepared(body, ["war_conflict"], canonical), UpToVerdict() + [ANSWERED];
      && Undisturbed(inputs) && IsBlocked(Alone(prepared, inputs, canonical))
      && EndingOf(prepared, inputs, canonical) == Some(P.Returned(P.ReturnBlocked(PS.TopicClassifierError)))
  {
    var prepared := Prepared(body, ["war_conflict"], canonical);
    VerdictAlone(body, ["war_conflict"], canonical);
    NoProcsYet(body, ["war_conflict"], canonical);
    AdvanceOnce(P.Step(prepared, P.Start, canonical), 0, UpToVerdict(), ANSWERED, canonical);
    BlockMoves(Alone(prepared, UpToVerdict(), canonical), body, ["war_conflict"], canonical);
    hide P.Step, Prepared, AdvanceAll, OnlyAt;
  }

  lemma BlockMoves(s: P.State, body: string, excluded: seq<string>, canonical: string -> string)
    requires OnlyAt(s, body, excluded, P.RecordBlock(0, body, PS.Settings(1, excluded), ClassifierError))
    ensures var s' := P.Step(s, P.Advance(0, ANSWERED), canonical);
      && IsBlocked(s') && |s'.procs| == 1
      && s'.procs[0].pc == P.Finished(P.Returned(P.ReturnBlocked(PS.TopicClassifierError)))
  {
  }

  /** A run of a request that ends with its draft blocked, while its checkpoint still waits for the draft to
      be published; by `StuckForGood` every later run of the request raises, and by `BlockIsReportedAgain`
      every scheduled run of such a draft that ends without an error reports the block. */
  lemma BlockWithoutCheckpoint(body: string, canonical: string -> string) returns (script: seq<N.Turn>)
    ensures var (r, outcome) := N.AfterRun(N.Run(None, [], [], script), true, canonical);
      && outcome == N.Fails(N.CallRaised)
      && Stuck(r) && IsBlocked(r.drafts[DraftOf(r)]) && r.drafts[DraftOf(r)].posts == []
  {
    hide P.Step, Prepared, FreshScript, N.AfterRun, N.AfterNothingRead, IsBlocked, Undisturbed, EndingOf, Alone, UpToVerdict;
    var inputs := UpToVerdict() + [ANSWERED];
    var rest := FreshScript(0, body, ["war_conflict"], inputs, NotApplied);
    script := [N.QUIET_TURN] + rest;
    BlockAlone(body, canonical);
    FirstRun(rest, canonical);
    FreshRun(N.Run(None, [], [], rest), body, ["war_conflict"], inputs, NotApplied, canonical);
    BlockedHasNoPost(body, canonical);
    BlockedIsRejected(Alone(Prepared(body, ["war_conflict"], canonical), inputs, canonical));
  }

  lemma FirstRun(rest: seq<N.Turn>, canonical: string -> string)
    ensures N.AfterRun(N.Run(None, [], [], [N.QUIET_TURN] + rest), true, canonical) == N.AfterNothingRead(N.Run(None, [], [], rest), true, canonical)
  {
    hide N.AfterNothingRead;
    PlainAwait(N.Run(None, [], [], [N.QUIET_TURN] + rest), canonical);
    assert ([N.QUIET_TURN] + rest)[1..] == rest;
  }

  lemma BlockedIsRejected(s: P.State)
    requires IsBlocked(s)
    ensures s.db.draft.status.Rejected?
  {
  }

  lemma BlockedHasNoPost(body: string, canonical: string -> string)
    ensures Alone(Prepared(body, ["war_conflict"], canonical), UpToVerdict() + [ANSWERED], canonical).posts == []
  {
    var prepared := Prepared(body, ["war_conflict"], canonical);
    VerdictAlone(body, ["war_conflict"], canonical);
    NoProcsYet(body, ["war_conflict"], canonical);
    AdvanceOnce(P.Step(prepared, P.Start, canonical), 0, UpToVerdict(), ANSWERED, canonical);
    var s := Alone(prepared, UpToVerdict(), canonical);
    hide Prepared, AdvanceAll;
    assert P.Step(s, P.Advance(0, ANSWERED), canonical).posts == s.posts;
  }

  // ---- Two runs of one request that overlap ----

  /** The publisher's calls to its end, with an accepted message. */
  function UpToPublication(messageId: nat): seq<P.Input> {
    UpToVerdict() + [ANSWERED] + [P.Telegram(P.Accepted(messageId))] + [ANSWERED]
  }

  lemma PublicationMoves(s: P.State, body: string, messageId: nat, canonical: string -> string)
    requires OnlyAt(s, body, [], P.TakeClaim(0, body, PS.Settings(1, [])))
    ensures var s1 := P.Step(s, P.Advance(0, ANSWERED), canonical);
      var s2 := P.Step(s1, P.Advance(0, P.Telegram(P.Accepted(messageId))), canonical);
      var s3 := P.Step(s2, P.Advance(0, ANSWERED), canonical);
      && |s3.posts| == 1 && s3.posts[0].sender == 0 && |s3.procs| == 1
      && s3.procs[0].pc == P.Finished(P.Returned(P.ReturnPublished(PS.Publication(messageId, body))))
  {
    hide FinalPolicy;
    var s1 := P.Step(s, P.Advance(0, ANSWERED), canonical);
    assert s1.procs[0].pc == P.Send(body, PS.Settings(1, []));
  }

  lemma PublicationAlone(body: string, messageId: nat, canonical: string -> string)
    ensures var prepared, inputs := Prepared(body, [], canonical), UpToPublication(messageId);
      && Undisturbed(inputs)
      && |Alone(prepared, inputs, canonical).posts| == 1 && Alone(prepared, inputs, canonical).posts[0].sender == 0
      && EndingOf(prepared, inputs, canonical) == Some(P.Returned(P.ReturnPublished(PS.Publication(messageId, body))))
  {
    var prepared := Prepared(body, [], canonical);
    var s0 := P.Step(prepared, P.Start, canonical);
    var claimed, sent := UpToVerdict() + [ANSWERED], UpToVerdict() + [ANSWERED] + [P.Telegram(P.Accepted(messageId))];
    VerdictAlone(body, [], canonical);
    NoProcsYet(body, [], canonical);
    PublicationMoves(Alone(prepared, UpToVerdict(), canonical), body, messageId, canonical);
    AdvanceOnce(s0, 0, UpToVerdict(), ANSWERED, canonical);
    AdvanceOnce(s0, 0, claimed, P.Telegram(P.Accepted(messageId)), canonical);
    AdvanceOnce(s0, 0, sent, ANSWERED, canonical);
    hide P.Step, Prepared, AdvanceAll, OnlyAt;
  }

  /** Two runs of one request that overlap: both read that there is no checkpoint; then the first one goes on
      to its end, and the second one after it. Both publish a draft of their own, and nothing goes wrong. */
  lemma OverlappingRunsPostTwice(first: string, second: string, canonical: string -> string)
    returns (script: seq<N.Turn>, script': seq<N.Turn>)
    ensures var (r, outcome) := N.AfterNothingRead(N.Run(None, [], [], script), true, canonical);
      var (r', outcome') := N.AfterNothingRead(r.(turns := script'), true, canonical);
      && outcome == N.Returned(N.PublishedStatus, Some(1)) && outcome' == N.Returned(N.PublishedStatus, Some(2))
      && |r'.drafts| == 2 && |r'.drafts[0].posts| == 1 && |r'.drafts[1].posts| == 1
      && r'.launches == [N.Launch(0, r'.drafts[0].posts[0].sender), N.Launch(1, r'.drafts[1].posts[0].sender)]
  {
    script := FreshScript(0, first, [], UpToPublication(1), Acked);
    script' := FreshScript(1, second, [], UpToPublication(2), Acked);
    hide N.AfterNothingRead, FreshScript;
    var r0 := N.Run(None, [], [], script);
    FreshPublication(r0, first, 1, canonical);
    var r := N.AfterNothingRead(r0, true, canonical).0;
    FreshPublication(r.(turns := script'), second, 2, canonical);
  }

  lemma FreshPublication(r: N.Run, body: string, messageId: nat, canonical: string -> string)
    requires r.turns == FreshScript(|r.drafts|, body, [], UpToPublication(messageId), Acked)
    ensures var (r', outcome) := N.AfterNothingRead(r, true, canonical);
      && outcome == N.Returned(N.PublishedStatus, Some(messageId))
      && |r'.drafts| == |r.drafts| + 1 && r.drafts <= r'.drafts
      && |r'.drafts[|r.drafts|].posts| == 1 && r'.drafts[|r.drafts|].posts[0].sender == 0
      && r'.launches == r.launches + [N.Launch(|r.drafts|, 0)]
  {
    hide P.Step, Prepared, FreshScript, N.AfterNothingRead, Alone, EndingOf, Undisturbed, UpToPublication;
    PublicationAlone(body, messageId, canonical);
    FreshRun(r, body, [], UpToPublication(messageId), Acked, canonical);
  }
}
