/** What the scheduler keeps in every run: one draft per occurrence, hence one message per
    occurrence, and no publication without a renewed claim and a clock that was just read. */
module ScheduleSafety {
  import opened Wrappers
  import PS = PublicationStore
  import P = PublicationProtocol
  import Safety = PublicationSafety
  import opened ScheduleProtocol

  /** The draft a worker works on, once it has one. */
  function DraftOf(pc: Pc): Option<nat> {
    match pc
    case DeliveryClock(draft) => Some(draft)
    case Renewal(draft) => Some(draft)
    case LastClock(draft) => Some(draft)
    case DeliverReview(draft) => Some(draft)
    case LoadDraft(draft) => Some(draft)
    case ApproveDraft(draft) => Some(draft)
    case Publish(draft) => Some(draft)
    case AwaitPublisher(draft, _) => Some(draft)
    case RecordPublication(draft, _) => Some(draft)
    case _ => None
  }

  predicate Checkpointed(s: State, run: nat, draft: nat) {
    run in s.checkpoints && s.checkpoints[run] == draft
  }

  /** The row shows the checkpoint of its run, and a claim implies a run. */
  predicate RowOk(s: State) {
    && (s.row.token.Some? ==> s.row.runId.Some? && s.row.token.value < s.nextToken)
    && (s.row.runId.Some? <==> s.row.snapshot.Some?)
    && (s.row.runId.None? ==> s.row.draft.None?)
    && (s.row.runId.Some? ==>
          && s.row.runId.value < s.nextRun
          && s.row.draft == if s.row.runId.value in s.checkpoints then Some(s.checkpoints[s.row.runId.value]) else None)
    && forall run :: run in s.checkpoints ==> run < s.nextRun
  }

  predicate WorkerOk(s: State, worker: Worker) {
    && worker.token < s.nextToken
    && (s.row.token == Some(worker.token) ==> s.row.runId == Some(worker.run))
    && (worker.draft.Some? ==> Checkpointed(s, worker.run, worker.draft.value))
    && (DraftOf(worker.pc).Some? ==> Checkpointed(s, worker.run, DraftOf(worker.pc).value))
  }

  /** Just before event `n` the claim was renewed, and then the clock read outside enabled quiet hours. */
  predicate FreshAt(log: seq<Event>, n: nat, policy: Policy)
    requires n <= |log|
  {
    && n >= 2
    && log[n - 2] == Renewed
    && log[n - 1].ClockRead?
    && !(policy.quietHours && log[n - 1].quiet)
  }

  predicate LoadedAt(log: seq<Event>, n: nat, policy: Policy)
    requires n <= |log|
  {
    n >= 1 && log[n - 1] == DraftLoaded && FreshAt(log, n - 1, policy)
  }

  /** Since that clock reading the draft was loaded, perhaps approved, and nothing else was done. */
  predicate ReadyAt(log: seq<Event>, n: nat, policy: Policy)
    requires n <= |log|
  {
    LoadedAt(log, n, policy) || (n >= 1 && log[n - 1] == DraftApproved && LoadedAt(log, n - 1, policy))
  }

  predicate LogOk(worker: Worker) {
    var log, policy := worker.log, worker.policy;
    && (worker.pc.LastClock? ==> log != [] && log[|log| - 1] == Renewed)
    && (worker.pc.DeliverReview? || worker.pc.LoadDraft? ==> FreshAt(log, |log|, policy))
    && (worker.pc.ApproveDraft? ==> LoadedAt(log, |log|, policy))
    && (worker.pc.Publish? ==> ReadyAt(log, |log|, policy))
    && LaunchesOk(log, policy)
  }

  predicate LaunchesOk(log: seq<Event>, policy: Policy) {
    forall i :: 0 <= i < |log| && log[i].Launched? ==> ReadyAt(log, i, policy)
  }

  predicate LaunchOk(s: State, launch: Launch) {
    && Checkpointed(s, launch.run, launch.draft)
    && launch.draft < |s.drafts|
    && launch.pid < |s.drafts[launch.draft].procs|
    && (launch.seen.Some? ==>
          && s.drafts[launch.draft].db.publication == launch.seen
          && Safety.LateCall(s.drafts[launch.draft].procs[launch.pid].pc, launch.seen.value))
  }

  ghost predicate Inv(s: State, canonical: string -> string) {
    && RowOk(s)
    && (forall w :: 0 <= w < |s.workers| ==> WorkerOk(s, s.workers[w]) && LogOk(s.workers[w]))
    && (forall l :: 0 <= l < |s.launches| ==> LaunchOk(s, s.launches[l]))
    && (forall d :: 0 <= d < |s.drafts| ==> P.Inv(s.drafts[d], canonical))
  }

  /** `s'` keeps every checkpoint and every draft of `s`, whose processes only move on. */
  ghost predicate Extends(s: State, s': State) {
    && s.nextToken <= s'.nextToken && s.nextRun <= s'.nextRun
    && (forall run :: run in s.checkpoints ==> run in s'.checkpoints && s'.checkpoints[run] == s.checkpoints[run])
    && s'.drafts == s.drafts
    && s'.launches == s.launches
  }

  /** A claim either passes to a token that no worker has yet, or stays, or is given up; it keeps its run. */
  predicate ClaimKept(s: State, s': State) {
    || s'.row.token.None?
    || (s'.row.token == s.row.token && s'.row.runId == s.row.runId)
    || s'.row.token == Some(s.nextToken)
  }

  lemma WorkerKeeps(s: State, s': State, worker: Worker)
    requires WorkerOk(s, worker) && ClaimKept(s, s')
    requires s.nextToken <= s'.nextToken
    requires forall run :: run in s.checkpoints ==> run in s'.checkpoints && s'.checkpoints[run] == s.checkpoints[run]
    ensures WorkerOk(s', worker)
  {
  }

  /** A step of one worker that starts no publisher. */
  lemma KeepsInv(s: State, s': State, w: nat, canonical: string -> string)
    requires Inv(s, canonical) && w < |s.workers| && |s'.workers| == |s.workers|
    requires forall i :: 0 <= i < |s.workers| && i != w ==> s'.workers[i] == s.workers[i]
    requires Extends(s, s') && ClaimKept(s, s') && RowOk(s')
    requires WorkerOk(s', s'.workers[w]) && LogOk(s'.workers[w])
    ensures Inv(s', canonical)
  {
    hide P.Inv;
    forall i | 0 <= i < |s'.workers| ensures WorkerOk(s', s'.workers[i]) && LogOk(s'.workers[i]) {
      if i != w {
        assert WorkerOk(s, s.workers[i]) && LogOk(s.workers[i]);
        WorkerKeeps(s, s', s.workers[i]);
      }
    }
    forall l | 0 <= l < |s'.launches| ensures LaunchOk(s', s'.launches[l]) { assert LaunchOk(s, s.launches[l]); }
  }

  predicate Rowless(pc: Pc) {
    pc.EarlyClock? || pc.CheckPending? || pc.RunNews? || pc.DeliveryClock? || pc.LastClock? || pc.DeliverReview?
    || pc.AwaitPublisher?
  }

  /** Worker `w` becomes `worker` while the row becomes `row`. */
  lemma MoveKeepsInv(s: State, row: Row, w: nat, worker: Worker, canonical: string -> string)
    requires Inv(s, canonical) && w < |s.workers|
    requires var s' := Set(s.(row := row), w, worker);
             ClaimKept(s, s') && RowOk(s') && WorkerOk(s', worker)
    requires LogOk(worker)
    ensures Inv(Set(s.(row := row), w, worker), canonical)
  {
    hide P.Inv;
    KeepsInv(s, Set(s.(row := row), w, worker), w, canonical);
  }

  /** The worker that a step leaves at `w` keeps its claim. */
  predicate SameClaim(worker: Worker, worker': Worker) {
    worker'.token == worker.token && worker'.run == worker.run && worker'.policy == worker.policy
    && worker'.draft == worker.draft && worker'.messageId == worker.messageId
  }

  predicate Looked(s: State, s': State, w: nat)
    requires w < |s.workers|
  {
    && |s'.workers| == |s.workers|
    && s' == Set(s, w, s'.workers[w])
    && WorkerOk(s, s'.workers[w]) && LogOk(s'.workers[w])
  }

  lemma LogGrows(log: seq<Event>, policy: Policy, e: Event)
    requires LaunchesOk(log, policy) && (e.Launched? ==> ReadyAt(log, |log|, policy))
    ensures LaunchesOk(log + [e], policy)
  {
    forall i | 0 <= i < |log + [e]| && (log + [e])[i].Launched? ensures ReadyAt(log + [e], i, policy) {
      assert i < |log| ==> log[i].Launched? && ReadyAt(log, i, policy);
    }
  }

  lemma ClockLooks(s: State, w: nat, quiet: bool)
    requires w < |s.workers| && WorkerOk(s, s.workers[w]) && LogOk(s.workers[w])
    requires s.workers[w].pc.EarlyClock? || s.workers[w].pc.DeliveryClock? || s.workers[w].pc.LastClock?
    ensures Looked(s, WorkerStep(s, w, Clock(quiet)), w)
  {
    hide AfterCall, AfterCatch, Launching, AfterWait, Defer, Ending, LaunchesOk;
    var worker := s.workers[w];
    LogGrows(worker.log, worker.policy, ClockRead(quiet));
    var worker' := WorkerStep(s, w, Clock(quiet)).workers[w];
    assert worker'.log == worker.log + [ClockRead(quiet)];
    assert SameClaim(worker, worker');
    if worker.pc.LastClock? { assert worker.log[|worker.log| - 1] == Renewed; }
  }

  lemma NoCallHere(s: State, w: nat, delivery: Delivery)
    requires w < |s.workers|
    requires s.workers[w].pc.CheckPending? || s.workers[w].pc.RunNews? || s.workers[w].pc.DeliverReview?
    ensures AfterCall(s, w, delivery) == s
  {
  }

  lemma NewsLooks(s: State, w: nat, input: Input)
    requires w < |s.workers| && WorkerOk(s, s.workers[w]) && LogOk(s.workers[w])
    requires s.workers[w].pc.CheckPending? || s.workers[w].pc.RunNews?
    ensures Looked(s, WorkerStep(s, w, input), w)
  {
    hide AfterCall, Launching, AfterWait, LaunchesOk;
    if input.Call? { NoCallHere(s, w, input.delivery); }
  }

  lemma ReviewLooks(s: State, w: nat, input: Input)
    requires w < |s.workers| && WorkerOk(s, s.workers[w]) && LogOk(s.workers[w])
    requires s.workers[w].pc.DeliverReview?
    ensures Looked(s, WorkerStep(s, w, input), w)
  {
    hide AfterCall, Launching, AfterWait, LaunchesOk;
    if input.Call? { NoCallHere(s, w, input.delivery); }
  }

  lemma WaitLooks(s: State, w: nat, input: Input)
    requires w < |s.workers| && WorkerOk(s, s.workers[w]) && LogOk(s.workers[w])
    requires s.workers[w].pc.AwaitPublisher?
    ensures Looked(s, WorkerStep(s, w, input), w)
  {
  }

  /** A worker that only looks: at the clock, at the news, at its publisher. */
  lemma LookKeepsInv(s: State, w: nat, input: Input, canonical: string -> string)
    requires Inv(s, canonical) && w < |s.workers| && Rowless(s.workers[w].pc)
    ensures Inv(WorkerStep(s, w, input), canonical)
  {
    hide P.Inv;
    var s', pc := WorkerStep(s, w, input), s.workers[w].pc;
    assert WorkerOk(s, s.workers[w]) && LogOk(s.workers[w]);
    assert Looked(s, s', w) by {
      if pc.AwaitPublisher? { WaitLooks(s, w, input); }
      else if pc.CheckPending? || pc.RunNews? { NewsLooks(s, w, input); }
      else if pc.DeliverReview? { ReviewLooks(s, w, input); }
      else if input.Clock? { ClockLooks(s, w, input.quiet); }
    }
    assert s' == Set(s.(row := s.row), w, s'.workers[w]);
    MoveKeepsInv(s, s.row, w, s'.workers[w], canonical);
  }

  lemma CheckpointKeepsInv(s: State, w: nat, delivery: Delivery, canonical: string -> string)
    requires Inv(s, canonical) && w < |s.workers| && s.workers[w].pc.Checkpoint?
    ensures Inv(AfterCall(s, w, delivery), canonical)
  {
    hide P.Inv;
    assert WorkerOk(s, s.workers[w]) && LogOk(s.workers[w]);
    KeepsInv(s, AfterCall(s, w, delivery), w, canonical);
  }

  predicate Releases(pc: Pc) {
    pc.RecordPublication? || pc.CallFinish? || pc.Caught?
  }

  /** A step whose only effects are on the row and on worker `w`. */
  predicate Moved(s: State, s': State, w: nat)
    requires w < |s.workers|
  {
    && |s'.workers| == |s.workers|
    && s' == Set(s.(row := s'.row), w, s'.workers[w])
    && ClaimKept(s, s')
    && WorkerOk(s', s'.workers[w]) && LogOk(s'.workers[w])
  }

  lemma CatchMoves(s: State, w: nat, code: ErrorCode, delivery: Delivery)
    requires RowOk(s) && w < |s.workers| && WorkerOk(s, s.workers[w]) && LogOk(s.workers[w])
    requires s.workers[w].pc.Caught?
    ensures Moved(s, AfterCatch(s, w, code, delivery), w) && RowOk(AfterCatch(s, w, code, delivery))
  {
    hide AfterCall, Launching, AfterWait, Defer, Ending, LaunchesOk;
  }

  lemma FinishMoves(s: State, w: nat, delivery: Delivery)
    requires RowOk(s) && w < |s.workers| && WorkerOk(s, s.workers[w]) && LogOk(s.workers[w])
    requires s.workers[w].pc.CallFinish?
    ensures Moved(s, AfterCall(s, w, delivery), w) && RowOk(AfterCall(s, w, delivery))
  {
    hide AfterCatch, SaveDraft, SavePublication, Renew, PS.ApproveDraft, P.WithDb, LaunchesOk;
  }

  lemma RecordMoves(s: State, w: nat, delivery: Delivery)
    requires RowOk(s) && w < |s.workers| && WorkerOk(s, s.workers[w]) && LogOk(s.workers[w])
    requires s.workers[w].pc.RecordPublication?
    ensures Moved(s, AfterCall(s, w, delivery), w) && RowOk(AfterCall(s, w, delivery))
  {
    hide AfterCatch, SaveDraft, Finish, Renew, PS.ApproveDraft, P.WithDb, LaunchesOk;
  }

  lemma ReleaseKeepsInv(s: State, w: nat, delivery: Delivery, canonical: string -> string)
    requires Inv(s, canonical) && w < |s.workers| && Releases(s.workers[w].pc)
    ensures Inv(AfterCall(s, w, delivery), canonical)
  {
    hide P.Inv;
    var s', worker := AfterCall(s, w, delivery), s.workers[w];
    assert WorkerOk(s, worker) && LogOk(worker);
    assert Moved(s, s', w) && RowOk(s') by {
      if worker.pc.Caught? { CatchMoves(s, w, if worker.lost then ClaimLost else worker.pc.code, delivery); }
      else if worker.pc.CallFinish? { FinishMoves(s, w, delivery); }
      else { RecordMoves(s, w, delivery); }
    }
    MoveKeepsInv(s, s'.row, w, s'.workers[w], canonical);
  }

  lemma RenewalMoves(s: State, w: nat, delivery: Delivery)
    requires RowOk(s) && w < |s.workers| && WorkerOk(s, s.workers[w]) && LogOk(s.workers[w])
    requires s.workers[w].pc.Renewal?
    ensures Moved(s, AfterCall(s, w, delivery), w) && AfterCall(s, w, delivery).row == s.row
  {
    hide LaunchesOk;
    var worker := s.workers[w];
    LogGrows(worker.log, worker.policy, Renewed);
    var s' := AfterCall(s, w, delivery);
    assert s'.workers[w].log == worker.log || s'.workers[w].log == worker.log + [Renewed];
  }

  lemma LoadMoves(s: State, w: nat, delivery: Delivery)
    requires RowOk(s) && w < |s.workers| && WorkerOk(s, s.workers[w]) && LogOk(s.workers[w])
    requires s.workers[w].pc.LoadDraft?
    ensures Moved(s, AfterCall(s, w, delivery), w) && AfterCall(s, w, delivery).row == s.row
  {
    hide AfterCatch, SaveDraft, SavePublication, Finish, Renew, PS.ApproveDraft, P.WithDb, Ending, RowOk, LaunchesOk;
    var worker := s.workers[w];
    LogGrows(worker.log, worker.policy, DraftLoaded);
    var log' := AfterCall(s, w, delivery).workers[w].log;
    assert log' == worker.log || log' == worker.log + [DraftLoaded];
  }

  lemma RenewalKeepsInv(s: State, w: nat, delivery: Delivery, canonical: string -> string)
    requires Inv(s, canonical) && w < |s.workers| && (s.workers[w].pc.Renewal? || s.workers[w].pc.LoadDraft?)
    ensures Inv(AfterCall(s, w, delivery), canonical)
  {
    hide P.Inv;
    var s', worker := AfterCall(s, w, delivery), s.workers[w];
    assert WorkerOk(s, worker) && LogOk(worker);
    assert Moved(s, s', w) && s'.row == s.row by {
      if worker.pc.Renewal? { RenewalMoves(s, w, delivery); } else { LoadMoves(s, w, delivery); }
    }
    MoveKeepsInv(s, s.row, w, s'.workers[w], canonical);
  }

  lemma DeferKeepsInv(s: State, w: nat, input: Input, canonical: string -> string)
    requires Inv(s, canonical) && w < |s.workers| && s.workers[w].pc.CallDefer?
    ensures Inv(WorkerStep(s, w, input), canonical)
  {
    hide P.Inv;
    assert WorkerOk(s, s.workers[w]) && LogOk(s.workers[w]);
    var s' := WorkerStep(s, w, input);
    if s' != s { KeepsInv(s, s', w, canonical); }
  }

  /** A step of the publication protocol of one draft. */
  lemma DraftKeepsInv(s: State, d: nat, action: P.Action, canonical: string -> string)
    requires Inv(s, canonical) && d < |s.drafts| && P.Disciplined(s.drafts[d], action)
    ensures Inv(s.(drafts := s.drafts[d := P.Step(s.drafts[d], action, canonical)]), canonical)
  {
    hide P.Inv;
    var before, after := s.drafts[d], P.Step(s.drafts[d], action, canonical);
    var s' := s.(drafts := s.drafts[d := after]);
    assert P.Inv(before, canonical);
    Safety.StepKeepsInv(before, action, canonical);
    forall l | 0 <= l < |s'.launches| ensures LaunchOk(s', s'.launches[l]) {
      var launch := s.launches[l];
      assert LaunchOk(s, launch);
      if launch.draft == d {
        ProcsOnlyGrow(before, action, canonical);
        if launch.seen.Some? {
          Safety.PublishedStepIsFinal(before, action, canonical);
          Safety.LateStaysLate(before, action, canonical, launch.pid);
        }
      }
    }
    forall w | 0 <= w < |s'.workers| ensures WorkerOk(s', s'.workers[w]) && LogOk(s'.workers[w]) {
      assert WorkerOk(s, s.workers[w]) && LogOk(s.workers[w]);
    }
  }

  lemma ProcsOnlyGrow(s: P.State, action: P.Action, canonical: string -> string)
    ensures |P.Step(s, action, canonical).procs| >= |s.procs|
  {
  }

  /** The state in which draft `d` has taken one step and nothing else has changed. */
  function WithDraft(s: State, d: nat, action: P.Action, canonical: string -> string): State
    requires d < |s.drafts|
  {
    s.(drafts := s.drafts[d := P.Step(s.drafts[d], action, canonical)])
  }

  lemma ApprovalMoves(s: State, w: nat, delivery: Delivery, canonical: string -> string)
    requires w < |s.workers| && WorkerOk(s, s.workers[w]) && LogOk(s.workers[w])
    requires s.workers[w].pc.ApproveDraft?
    ensures var s', draft := AfterCall(s, w, delivery), s.workers[w].pc.draft;
            && |s'.workers| == |s.workers|
            && (s' == Set(s, w, s'.workers[w]) ||
                (draft < |s.drafts| && s' == Set(WithDraft(s, draft, P.Approve, canonical), w, s'.workers[w])))
            && WorkerOk(s, s'.workers[w]) && LogOk(s'.workers[w])
  {
    var draft := s.workers[w].pc.draft;
    if draft < |s.drafts| { ApprovalIsAStep(s.drafts[draft], canonical); }
    hide P.Step, LaunchesOk;
    var worker := s.workers[w];
    LogGrows(worker.log, worker.policy, DraftApproved);
    var log' := AfterCall(s, w, delivery).workers[w].log;
    assert log' == worker.log || log' == worker.log + [DraftApproved];
  }

  lemma ApprovalIsAStep(s: P.State, canonical: string -> string)
    ensures P.Step(s, P.Approve, canonical) ==
      if PS.ApproveDraft(s.db).Some? then P.WithDb(s, PS.ApproveDraft(s.db).value) else s
  {
  }

  lemma ApprovalKeepsInv(s: State, w: nat, delivery: Delivery, canonical: string -> string)
    requires Inv(s, canonical) && w < |s.workers| && s.workers[w].pc.ApproveDraft?
    ensures Inv(AfterCall(s, w, delivery), canonical)
  {
    hide P.Inv;
    var s', draft := AfterCall(s, w, delivery), s.workers[w].pc.draft;
    assert WorkerOk(s, s.workers[w]) && LogOk(s.workers[w]);
    ApprovalMoves(s, w, delivery, canonical);
    if s' == Set(s, w, s'.workers[w]) {
      assert s' == Set(s.(row := s.row), w, s'.workers[w]);
      MoveKeepsInv(s, s.row, w, s'.workers[w], canonical);
    } else {
      var middle := WithDraft(s, draft, P.Approve, canonical);
      DraftKeepsInv(s, draft, P.Approve, canonical);
      assert WorkerOk(middle, s'.workers[w]);
      assert s' == Set(middle.(row := middle.row), w, s'.workers[w]);
      MoveKeepsInv(middle, middle.row, w, s'.workers[w], canonical);
    }
  }

  lemma LaunchKeepsInv(s: State, w: nat, canonical: string -> string)
    requires Inv(s, canonical) && w < |s.workers| && s.workers[w].pc.Publish?
    ensures Inv(Launching(s, w, s.workers[w].pc.draft), canonical)
  {
    hide P.Inv;
    var draft := s.workers[w].pc.draft;
    var s' := Launching(s, w, draft);
    assert WorkerOk(s, s.workers[w]) && LogOk(s.workers[w]);
    if draft < |s.drafts| {
      DraftKeepsInv(s, draft, P.Start, canonical);
      var middle := s.(drafts := s.drafts[draft := P.Step(s.drafts[draft], P.Start, canonical)]);
      assert middle.drafts == s'.drafts;
      var launched := middle.(launches := s'.launches);
      forall l | 0 <= l < |launched.launches| ensures LaunchOk(launched, launched.launches[l]) {
        if l < |middle.launches| { assert LaunchOk(middle, middle.launches[l]); }
      }
      forall i | 0 <= i < |s.workers| ensures WorkerOk(launched, launched.workers[i]) && LogOk(launched.workers[i]) {
        assert WorkerOk(middle, middle.workers[i]) && LogOk(middle.workers[i]);
      }
      assert Inv(launched, canonical);
      LogGrows(s.workers[w].log, s.workers[w].policy, Launched(draft));
      KeepsInv(launched, s', w, canonical);
    }
  }

  lemma WorkerStepKeepsInv(s: State, w: nat, input: Input, canonical: string -> string)
    requires Inv(s, canonical) && w < |s.workers|
    ensures Inv(WorkerStep(s, w, input), canonical)
  {
    hide P.Inv;
    var pc := s.workers[w].pc;
    if Rowless(pc) { LookKeepsInv(s, w, input, canonical); }
    else if pc.CallDefer? { DeferKeepsInv(s, w, input, canonical); }
    else if input.Call? {
      if pc.Checkpoint? { CheckpointKeepsInv(s, w, input.delivery, canonical); }
      else if pc.Publish? { LaunchKeepsInv(s, w, canonical); }
      else if pc.ApproveDraft? { ApprovalKeepsInv(s, w, input.delivery, canonical); }
      else if pc.Renewal? || pc.LoadDraft? { RenewalKeepsInv(s, w, input.delivery, canonical); }
      else if Releases(pc) { ReleaseKeepsInv(s, w, input.delivery, canonical); }
    }
  }

  lemma ClaimKeepsInv(s: State, a: Action, canonical: string -> string)
    requires Inv(s, canonical) && a.ClaimSchedule?
    ensures Inv(Step(s, a, canonical), canonical)
  {
    hide P.Inv;
    var s' := Step(s, a, canonical);
    if s' != s {
      forall w | 0 <= w < |s'.workers| ensures WorkerOk(s', s'.workers[w]) && LogOk(s'.workers[w]) {
        if w < |s.workers| {
          assert WorkerOk(s, s.workers[w]) && LogOk(s.workers[w]);
          WorkerKeeps(s, s', s.workers[w]);
        }
      }
      forall l | 0 <= l < |s'.launches| ensures LaunchOk(s', s'.launches[l]) { assert LaunchOk(s, s.launches[l]); }
    }
  }

  lemma WorkerEventKeepsInv(s: State, a: Action, canonical: string -> string)
    requires Inv(s, canonical) && (a.Heartbeat? || a.Stop?)
    ensures Inv(Step(s, a, canonical), canonical)
  {
    hide P.Inv;
    var s' := Step(s, a, canonical);
    if s' != s {
      var w := a.worker;
      assert WorkerOk(s, s.workers[w]) && LogOk(s.workers[w]);
      assert s' == Set(s.(row := s.row), w, s'.workers[w]);
      MoveKeepsInv(s, s.row, w, s'.workers[w], canonical);
    }
  }

  lemma NewDraftKeepsInv(s: State, body: string, canonical: string -> string)
    requires Inv(s, canonical)
    ensures Inv(s.(drafts := s.drafts + [P.Initial(body)]), canonical)
  {
    hide P.Inv;
    var s' := s.(drafts := s.drafts + [P.Initial(body)]);
    forall w | 0 <= w < |s'.workers| ensures WorkerOk(s', s'.workers[w]) && LogOk(s'.workers[w]) {
      assert WorkerOk(s, s.workers[w]) && LogOk(s.workers[w]);
    }
    forall l | 0 <= l < |s'.launches| ensures LaunchOk(s', s'.launches[l]) { assert LaunchOk(s, s.launches[l]); }
    Safety.InitialInv(body, canonical);
  }

  lemma ReconfigureKeepsInv(s: State, scheduled: bool, policy: Policy, canonical: string -> string)
    requires Inv(s, canonical)
    ensures Inv(s.(row := s.row.(scheduled := scheduled, current := policy)), canonical)
  {
    hide P.Inv;
    var s' := s.(row := s.row.(scheduled := scheduled, current := policy));
    forall w | 0 <= w < |s'.workers| ensures WorkerOk(s', s'.workers[w]) && LogOk(s'.workers[w]) {
      assert WorkerOk(s, s.workers[w]) && LogOk(s.workers[w]);
    }
    forall l | 0 <= l < |s'.launches| ensures LaunchOk(s', s'.launches[l]) { assert LaunchOk(s, s.launches[l]); }
  }

  lemma StepKeepsInv(s: State, a: Action, canonical: string -> string)
    requires Inv(s, canonical) && Disciplined(s, a)
    ensures Inv(Step(s, a, canonical), canonical)
  {
    hide P.Inv;
    match a
    case Advance(w, input) => if w < |s.workers| { WorkerStepKeepsInv(s, w, input, canonical); }
    case ClaimSchedule(_, _, _) => ClaimKeepsInv(s, a, canonical);
    case DraftStep(d, action) => if d < |s.drafts| { DraftKeepsInv(s, d, action, canonical); }
    case NewDraft(body) => NewDraftKeepsInv(s, body, canonical);
    case Reconfigure(scheduled, policy) => ReconfigureKeepsInv(s, scheduled, policy, canonical);
    case _ => WorkerEventKeepsInv(s, a, canonical);
  }

  lemma {:induction false} RunKeepsInv(s: State, trace: seq<Action>, canonical: string -> string)
    requires Inv(s, canonical) && DisciplinedTrace(s, trace, canonical)
    ensures Inv(Run(s, trace, canonical), canonical)
    decreases |trace|
  {
    hide P.Inv;
    if trace != [] {
      StepKeepsInv(s, trace[0], canonical);
      RunKeepsInv(Step(s, trace[0], canonical), trace[1..], canonical);
    }
  }

  // ---- Main results ----

  /** Message `i` of draft `d` was posted by a publisher that occurrence `run` started. */
  ghost predicate PostOf(s: State, run: nat, d: nat, i: nat) {
    && d < |s.drafts| && i < |s.drafts[d].posts|
    && exists l :: 0 <= l < |s.launches| && s.launches[l].run == run && s.launches[l].draft == d
         && s.launches[l].pid == s.drafts[d].posts[i].sender
  }

  /** Whatever workers overlap, crash or take over: an occurrence posts at most one message. */
  lemma AtMostOnePostPerOccurrence(policy: Policy, trace: seq<Action>, canonical: string -> string,
                                   run: nat, d: nat, i: nat, d': nat, i': nat)
    requires DisciplinedTrace(Initial(policy), trace, canonical)
    requires var s := Run(Initial(policy), trace, canonical); PostOf(s, run, d, i) && PostOf(s, run, d', i')
    ensures d == d' && i == i'
    ensures Checkpointed(Run(Initial(policy), trace, canonical), run, d)
  {
    RunKeepsInv(Initial(policy), trace, canonical);
    var s := Run(Initial(policy), trace, canonical);
    assert forall l :: 0 <= l < |s.launches| ==> LaunchOk(s, s.launches[l]);
    assert P.Inv(s.drafts[d], canonical);
  }

  /** A publisher started after the publication was recorded, as after a crash between the final
      database write and its checkpoint, hands that publication back. */
  lemma RerunReturnsTheExistingPublication(policy: Policy, trace: seq<Action>, canonical: string -> string, l: nat)
    requires DisciplinedTrace(Initial(policy), trace, canonical)
    ensures var s := Run(Initial(policy), trace, canonical);
            l < |s.launches| && s.launches[l].seen.Some? ==>
              && s.launches[l].draft < |s.drafts|
              && s.launches[l].pid < |s.drafts[s.launches[l].draft].procs|
              && var pc := s.drafts[s.launches[l].draft].procs[s.launches[l].pid].pc;
                 pc.Finished? && pc.ending.Returned? ==>
                   pc.ending.value == P.ReturnAlreadyPublished(s.launches[l].seen.value)
  {
    hide P.Inv;
    RunKeepsInv(Initial(policy), trace, canonical);
    var s := Run(Initial(policy), trace, canonical);
    if l < |s.launches| { assert LaunchOk(s, s.launches[l]); }
  }

  /** No worker ever publishes without having renewed its claim, then read the clock outside enabled quiet
      hours, and then only loaded and perhaps approved its draft, in that order. */
  lemma EveryLaunchIsFresh(policy: Policy, trace: seq<Action>, canonical: string -> string, w: nat)
    requires DisciplinedTrace(Initial(policy), trace, canonical)
    ensures var s := Run(Initial(policy), trace, canonical);
            w < |s.workers| ==> LaunchesOk(s.workers[w].log, s.workers[w].policy)
  {
    hide P.Inv;
    RunKeepsInv(Initial(policy), trace, canonical);
    var s := Run(Initial(policy), trace, canonical);
    if w < |s.workers| { assert LogOk(s.workers[w]); }
  }

  /** The fence: a worker's step changes the schedule row only while the row is claimed by that worker. */
  lemma OnlyTheOwnerChangesTheRow(s: State, w: nat, input: Input)
    requires w < |s.workers| && WorkerStep(s, w, input).row != s.row
    ensures Owns(s.row, s.workers[w].token)
  {
    if input.Call? && s.workers[w].pc.Caught? { CatchIsFenced(s, w, input.delivery); }
  }

  lemma CatchIsFenced(s: State, w: nat, delivery: Delivery)
    requires w < |s.workers| && s.workers[w].pc.Caught?
    ensures AfterCall(s, w, delivery).row != s.row ==> Owns(s.row, s.workers[w].token)
  {
  }

  /** What the row must be after a run that came to this result. */
  predicate LeftBehind(result: ScheduleProtocol.Result, before: Row, after: Row, token: nat) {
    match result
    case Ended(_) => Owns(before, token) && after == Finish(before, token).1 && after.token.None? && after.draft.None?
    case Deferred => Owns(before, token) && after == before.(token := None)
    case FailedWith(RunFailed) => Owns(before, token) && after == Finish(before, token).1 && after.token.None? && after.draft.None?
    case FailedWith(PublicationUnresolved) => Owns(before, token) && after == before.(scheduled := false, token := None)
    case FailedWith(ReviewDeliveryFailed) => after == before
    case FailedWith(_) => after == before || Owns(before, token)
  }

  /** A run's result is true of the row: a run that ends, or fails and says so, closed its occurrence; a
      deferral gave back the claim and kept the occurrence; an unresolved publication paused the schedule
      and kept its draft; an undelivered review left everything as it was. */
  lemma ResultsAreTrue(s: State, w: nat, input: Input)
    requires w < |s.workers| && !s.workers[w].pc.Done?
    ensures var s' := WorkerStep(s, w, input);
      w < |s'.workers| && (s'.workers[w].pc.Done? ==> LeftBehind(s'.workers[w].pc.result, s.row, s'.row, s.workers[w].token))
  {
    hide AfterCall, AfterCatch, Launching;
    var pc := s.workers[w].pc;
    if input.Call? && pc.Caught? {
      CaughtCall(s, w, input.delivery);
      CatchIsTrue(s, w, if s.workers[w].lost then ClaimLost else pc.code, input.delivery);
    } else if input.Call? && !pc.Publish? {
      CallIsTrue(s, w, input.delivery);
    } else {
      LaunchingIsNoEnd(s, w);
      assert !pc.CallDefer? ==> !WorkerStep(s, w, input).workers[w].pc.Done?;
    }
  }

  lemma CaughtCall(s: State, w: nat, delivery: Delivery)
    requires w < |s.workers| && s.workers[w].pc.Caught?
    ensures AfterCall(s, w, delivery) == AfterCatch(s, w, if s.workers[w].lost then ClaimLost else s.workers[w].pc.code, delivery)
  {
    hide AfterCatch;
  }

  lemma LaunchingIsNoEnd(s: State, w: nat)
    requires w < |s.workers| && !s.workers[w].pc.Done?
    ensures forall draft :: |Launching(s, w, draft).workers| == |s.workers| && !Launching(s, w, draft).workers[w].pc.Done?
  {
  }

  lemma CatchIsTrue(s: State, w: nat, code: ErrorCode, delivery: Delivery)
    requires w < |s.workers|
    ensures var s' := AfterCatch(s, w, code, delivery);
      && w < |s'.workers| && s'.workers[w].pc.Done?
      && LeftBehind(s'.workers[w].pc.result, s.row, s'.row, s.workers[w].token)
      && s'.workers[w].pc.result.FailedWith? && s'.workers[w].pc.result.code in {code, ClaimLost, PauseFailed}
  {
  }

  lemma CallIsTrue(s: State, w: nat, delivery: Delivery)
    requires w < |s.workers| && !s.workers[w].pc.Done? && !s.workers[w].pc.Caught?
    ensures var s' := AfterCall(s, w, delivery);
      w < |s'.workers| && (s'.workers[w].pc.Done? ==> LeftBehind(s'.workers[w].pc.result, s.row, s'.row, s.workers[w].token))
  {
    hide AfterCatch, SaveDraft, SavePublication, Renew, PS.ApproveDraft, P.WithDb;
    var pc := s.workers[w].pc;
    if !pc.CallFinish? { assert !AfterCall(s, w, delivery).workers[w].pc.Done?; }
  }
}
