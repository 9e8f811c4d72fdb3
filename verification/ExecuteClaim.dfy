/** `runScheduledNewsOnce` and `executeClaim` in their own shape, run against a shared world in
    which others may act before every call. The worker of the schedule machine advances with the
    code: whatever the code returns is how that worker ends. */
module ExecuteClaim {
  import opened Wrappers
  import PS = PublicationStore
  import P = PublicationProtocol
  import opened ScheduleProtocol

  /** What happens at one await: the actions of others first, then the outcome of our own call. */
  datatype Turn = Turn(others: seq<Action>, input: Input)

  /** Steps that are not worker `id`'s own; its heartbeat timer is one of them. */
  predicate Foreign(a: Action, id: nat) {
    !(a.Advance? && a.worker == id) && !(a.Stop? && a.worker == id)
  }

  lemma CallLeavesOthersAlone(s: State, w: nat, delivery: Delivery, id: nat)
    requires w < |s.workers| && id < |s.workers| && id != w
    ensures var s' := AfterCall(s, w, delivery);
            |s'.workers| == |s.workers| && s'.workers[id] == s.workers[id] && |s'.drafts| == |s.drafts|
  {
  }

  lemma StepLeavesOthersAlone(s: State, w: nat, input: Input, id: nat)
    requires w < |s.workers| && id < |s.workers| && id != w
    ensures var s' := WorkerStep(s, w, input);
            |s'.workers| == |s.workers| && s'.workers[id] == s.workers[id] && |s'.drafts| == |s.drafts|
  {
    if input.Call? { CallLeavesOthersAlone(s, w, input.delivery, id); }
  }

  lemma ForeignLeavesAlone(s: State, a: Action, canonical: string -> string, id: nat)
    requires id < |s.workers| && Foreign(a, id)
    ensures var s' := Step(s, a, canonical);
            && id < |s'.workers| && |s.drafts| <= |s'.drafts|
            && s'.workers[id] == s.workers[id].(lost := s'.workers[id].lost)
  {
    if a.Advance? && a.worker < |s.workers| { StepLeavesOthersAlone(s, a.worker, a.input, id); }
  }

  lemma {:induction false} Snoc(s: State, trace: seq<Action>, a: Action, canonical: string -> string)
    ensures Run(s, trace + [a], canonical) == Step(Run(s, trace, canonical), a, canonical)
    decreases |trace|
  {
    if trace == [] {
      assert trace + [a] == [a];
    } else {
      assert (trace + [a])[1..] == trace[1..] + [a];
      Snoc(Step(s, trace[0], canonical), trace[1..], a, canonical);
    }
  }

  /** The inputs that an await at `pc` can receive. */
  predicate Fits(pc: Pc, input: Input) {
    match pc
    case EarlyClock => input.Clock?
    case DeliveryClock(_) => input.Clock?
    case LastClock(_) => input.Clock?
    case CheckPending => input.Pending? || input.Raise?
    case RunNews => input.NewsResult?
    case DeliverReview(_) => input.Delivered? || input.DeliveryRaised?
    case CallDefer => input.Clock? || input.Raise?
    case AwaitPublisher(_, _) => input.PublisherDone?
    case _ => input.Call?
  }

  /** Where a piece of the code leaves the run: it returned, it threw, or the process is gone. */
  datatype Flow = Returns(result: ScheduleProtocol.Result) | Throws(code: ErrorCode) | Dies

  predicate Reached(pc: Pc, flow: Flow) {
    match flow
    case Returns(result) => pc == Done(result)
    case Throws(code) => pc == Caught(code)
    case Dies => pc.Stopped?
  }

  /** Where a worker goes from a clock reading that defers nothing. */
  function Onward(worker: Worker): Pc {
    match worker.pc
    case EarlyClock => AfterEarlyClock(worker)
    case DeliveryClock(draft) => NeedsPublication(worker, draft)
    case LastClock(draft) => if worker.policy.manual then DeliverReview(draft) else LoadDraft(draft)
    case pc => pc
  }

  predicate AtClock(pc: Pc) {
    pc.EarlyClock? || pc.DeliveryClock? || pc.LastClock?
  }

  class World {
    var s: State
    var turns: seq<Turn>
    const canonical: string -> string
    ghost const start: State
    ghost var trace: seq<Action>

    ghost predicate Valid()
      reads this
    {
      s == Run(start, trace, canonical)
    }

    /** Worker `id` exists and waits at `pc`; nothing about its claim has changed since `before`. */
    ghost predicate At(id: nat, before: Worker, pc: Pc)
      reads this
    {
      && Valid() && id < |s.workers| && s.workers[id].pc == pc
      && s.workers[id] == before.(lost := s.workers[id].lost, pc := pc, log := s.workers[id].log)
    }

    constructor (s: State, turns: seq<Turn>, canonical: string -> string)
      ensures Valid() && this.s == s && this.turns == turns && this.canonical == canonical
      ensures start == s && trace == []
    {
      this.s, this.turns, this.canonical, start, trace := s, turns, canonical, s, [];
    }

    method Act(a: Action)
      requires Valid()
      modifies this`s, this`trace
      ensures Valid() && trace == old(trace) + [a] && s == Step(old(s), a, canonical)
    {
      Snoc(start, trace, a, canonical);
      s, trace := Step(s, a, canonical), trace + [a];
    }

    /** The others take their turn; then worker `id` receives `fallback` or the scripted input, if it fits. */
    method Await(id: nat, fallback: Input) returns (input: Input)
      requires Valid() && id < |s.workers| && Fits(s.workers[id].pc, fallback)
      modifies this
      ensures Valid() && old(trace) <= trace && id < |s.workers| && |old(s.drafts)| <= |s.drafts|
      ensures s.workers[id] == old(s.workers[id]).(lost := s.workers[id].lost)
      ensures Fits(s.workers[id].pc, input)
    {
      input := fallback;
      if turns != [] {
        var turn := turns[0];
        turns := turns[1..];
        if Fits(s.workers[id].pc, turn.input) { input := turn.input; }
        for k := 0 to |turn.others|
          invariant Valid() && old(trace) <= trace && id < |s.workers| && |old(s.drafts)| <= |s.drafts|
          invariant s.workers[id] == old(s.workers[id]).(lost := s.workers[id].lost)
        {
          if Foreign(turn.others[k], id) {
            ForeignLeavesAlone(s, turn.others[k], canonical, id);
            Act(turn.others[k]);
          }
        }
      }
    }

    /** claimDueNewsSchedule: `Failure` when the call raised, `None` when there is nothing to claim. */
    method ClaimDueNewsSchedule(due: bool, stale: bool, acked: bool) returns (r: Wrappers.Result<Option<nat>, ()>)
      requires Valid()
      modifies this
      ensures Valid() && old(trace) <= trace
      ensures r.Failure? <==> !acked
      ensures r.Success? ==> (r.value.Some? <==> Claimable(old(s.row), due, stale))
      ensures r.Success? && r.value.Some? ==>
        && r.value.value == |old(s.workers)| < |s.workers|
        && s.workers[r.value.value].pc.EarlyClock? && !s.workers[r.value.value].lost
    {
      var claimable := Claimable(s.row, due, stale);
      Act(ClaimSchedule(due, stale, acked));
      r := if !acked then Failure(()) else if claimable then Success(Some(|s.workers| - 1)) else Success(None);
    }

    /** now(), together with the decision of shouldDeferScheduledNews. */
    method ShouldDefer(id: nat) returns (defers: bool)
      requires Valid() && id < |s.workers| && AtClock(s.workers[id].pc)
      modifies this
      ensures Valid() && old(trace) <= trace && id < |s.workers| && |old(s.drafts)| <= |s.drafts|
      ensures var before := old(s.workers[id]).(lost := s.workers[id].lost);
        At(id, before, if !defers then Onward(before) else if before.lost then Caught(ClaimLost) else CallDefer)
    {
      var input := Await(id, Clock(false));
      defers := s.workers[id].policy.quietHours && input.quiet;
      Act(Advance(id, input));
    }

    method DeferNewsSchedule(id: nat) returns (flow: Flow)
      requires Valid() && id < |s.workers| && s.workers[id].pc.CallDefer?
      modifies this
      ensures Valid() && old(trace) <= trace && id < |s.workers| && Reached(s.workers[id].pc, flow)
      ensures flow.Returns? ==> flow.result == Deferred
    {
      var input := Await(id, Clock(false));
      flow := if input.Raise? then Throws(input.code)
              else if Defer(s.row, s.workers[id].token, input.quiet).0 then Returns(Deferred) else Throws(ClaimLost);
      Act(Advance(id, input));
    }

    method HasPendingReview(id: nat) returns (r: Wrappers.Result<bool, ErrorCode>)
      requires Valid() && id < |s.workers| && s.workers[id].pc.CheckPending?
      modifies this
      ensures Valid() && old(trace) <= trace && id < |s.workers| && |old(s.drafts)| <= |s.drafts|
      ensures var before := old(s.workers[id]).(lost := s.workers[id].lost);
        At(id, before,
           match r
           case Failure(code) => Caught(code)
           case Success(true) => Ending(before, Skipped)
           case Success(false) => (match before.draft case Some(draft) => DeliveryClock(draft) case None => RunNews))
    {
      var input := Await(id, Pending(false));
      Act(Advance(id, input));
      r := if input.Raise? then Failure(input.code) else Success(input.pending);
    }

    method RunNewsPipeline(id: nat) returns (r: Wrappers.Result<Option<nat>, ErrorCode>)
      requires Valid() && id < |s.workers| && s.workers[id].pc.RunNews?
      modifies this
      ensures Valid() && old(trace) <= trace && id < |s.workers| && |old(s.drafts)| <= |s.drafts|
      ensures r.Success? && r.value.Some? ==> r.value.value < |s.drafts|
      ensures var before := old(s.workers[id]).(lost := s.workers[id].lost);
        At(id, before,
           match r
           case Failure(code) => Caught(code)
           case Success(None) => Ending(before, NoCandidates)
           case Success(Some(draft)) => Checkpoint(draft))
    {
      var input := Await(id, NewsResult(NothingFound));
      if input.news.Found? && input.news.draft >= |s.drafts| { input := NewsResult(NewsFailed(RunFailed)); }
      Act(Advance(id, input));
      r := match input.news
        case Found(draft) => Success(Some(draft))
        case NothingFound => Success(None)
        case NewsFailed(code) => Failure(code);
    }

    /** A database call of worker `id` while it waits at `pc`: the state it met, and whether the
        answer came back. */
    method Query(id: nat) returns (delivery: Delivery, before: State)
      requires Valid() && id < |s.workers| && Fits(s.workers[id].pc, Call(Acked)) && !s.workers[id].pc.Publish?
      modifies this
      ensures Valid() && old(trace) <= trace && id < |before.workers| && |old(s.drafts)| <= |before.drafts|
      ensures before.workers[id] == old(s.workers[id]).(lost := before.workers[id].lost)
      ensures s == AfterCall(before, id, delivery)
    {
      var input := Await(id, Call(Acked));
      before, delivery := s, input.delivery;
      Act(Advance(id, input));
    }

    method SaveNewsScheduleDraft(id: nat) returns (failure: Option<ErrorCode>)
      requires Valid() && id < |s.workers| && s.workers[id].pc.Checkpoint?
      modifies this
      ensures Valid() && old(trace) <= trace && id < |s.workers|
      ensures At(id, old(s.workers[id]), if failure.Some? then Caught(failure.value) else DeliveryClock(old(s.workers[id].pc.draft)))
    {
      var delivery, before := Query(id);
      failure := if !delivery.Acked? then Some(RunFailed)
                 else if SaveDraft(before.row, before.workers[id].token, before.workers[id].pc.draft).0 then None
                 else Some(ClaimLost);
    }

    /** heartbeat.renew(). */
    method RenewClaim(id: nat) returns (renewed: bool)
      requires Valid() && id < |s.workers| && s.workers[id].pc.Renewal?
      modifies this
      ensures Valid() && old(trace) <= trace && id < |s.workers|
      ensures At(id, old(s.workers[id]), if renewed then LastClock(old(s.workers[id].pc.draft)) else Caught(ClaimLost))
    {
      var delivery, before := Query(id);
      renewed := !before.workers[id].lost && delivery.Acked? && Renew(before.row, before.workers[id].token);
    }

    method DeliverReviewDraft(id: nat) returns (r: Wrappers.Result<bool, ()>)
      requires Valid() && id < |s.workers| && s.workers[id].pc.DeliverReview?
      modifies this
      ensures Valid() && old(trace) <= trace && id < |s.workers|
      ensures var before := old(s.workers[id]).(lost := s.workers[id].lost);
        At(id, before,
           match r
           case Failure(_) => Caught(ReviewDeliveryFailed)
           case Success(unavailable) => Ending(before, if unavailable then ReviewResolved else AwaitingApproval))
    {
      var input := Await(id, Delivered(false));
      Act(Advance(id, input));
      r := if input.DeliveryRaised? then Failure(()) else Success(input.unavailable);
    }

    method GetDraft(id: nat) returns (r: Option<PS.Status>)
      requires Valid() && id < |s.workers| && s.workers[id].pc.LoadDraft?
      modifies this
      ensures Valid() && old(trace) <= trace && id < |s.workers|
      ensures r.Some? ==> old(s.workers[id]).pc.draft < |s.drafts|
      ensures At(id, old(s.workers[id]), if r.None? then Caught(RunFailed) else AfterLoad(old(s.workers[id].pc.draft), r.value))
    {
      var delivery, before := Query(id);
      var draft := before.workers[id].pc.draft;
      r := if delivery.Acked? && draft < |before.drafts| then Some(before.drafts[draft].db.draft.status) else None;
    }

    method ApproveScheduledDraft(id: nat) returns (approved: bool)
      requires Valid() && id < |s.workers| && s.workers[id].pc.ApproveDraft?
      modifies this
      ensures Valid() && old(trace) <= trace && id < |s.workers|
      ensures approved ==> old(s.workers[id].pc.draft) < |s.drafts|
      ensures At(id, old(s.workers[id]), if approved then Publish(old(s.workers[id].pc.draft)) else Caught(RunFailed))
    {
      hide Run, SaveDraft, SavePublication, ScheduleProtocol.Finish, Renew, P.WithDb;
      var delivery, before := Query(id);
      var draft := before.workers[id].pc.draft;
      approved := delivery.Acked? && draft < |before.drafts| && PS.ApproveDraft(before.drafts[draft].db).Some?;
    }

    /** publishApprovedDraft: the call is started here and its process ends in the draft's own
        protocol; `None` when it never came back. */
    method StartPublisher(id: nat) returns (ending: Option<(P.Ending, ErrorCode)>)
      requires Valid() && id < |s.workers| && s.workers[id].pc.Publish? && s.workers[id].pc.draft < |s.drafts|
      modifies this
      ensures Valid() && old(trace) <= trace && id < |s.workers|
      ensures ending.None? ==> s.workers[id].pc.Stopped?
      ensures ending.Some? ==>
        var before := old(s.workers[id]).(lost := s.workers[id].lost);
        At(id, before, AfterPublisher(before, before.pc.draft, ending.value.0, ending.value.1))
    {
      var draft := s.workers[id].pc.draft;
      var pid := |s.drafts[draft].procs|;
      Act(Advance(id, Call(Acked)));
      assert s.workers[id].pc == AwaitPublisher(draft, pid);
      var input := Await(id, PublisherDone(RunFailed));
      if pid < |s.drafts[draft].procs| && s.drafts[draft].procs[pid].pc.Finished? {
        ending := Some((s.drafts[draft].procs[pid].pc.ending, input.message));
        Act(Advance(id, input));
      } else {
        ending := None;
        Act(Stop(id));
      }
    }

    method SaveNewsSchedulePublication(id: nat) returns (failure: Option<ErrorCode>)
      requires Valid() && id < |s.workers| && s.workers[id].pc.RecordPublication?
      modifies this
      ensures Valid() && old(trace) <= trace && id < |s.workers|
      ensures var before := old(s.workers[id]).(lost := s.workers[id].lost);
        At(id, before, if failure.Some? then Caught(failure.value) else Ending(before, PublishedStatus))
    {
      var delivery, before := Query(id);
      var worker := before.workers[id];
      failure := if !delivery.Acked? then Some(RunFailed)
                 else if SavePublication(before.row, worker.token, worker.pc.draft, worker.pc.messageId).0 then None
                 else Some(ClaimLost);
    }

    method FinishNewsSchedule(id: nat) returns (r: Option<bool>)
      requires Valid() && id < |s.workers| && s.workers[id].pc.CallFinish?
      modifies this
      ensures Valid() && old(trace) <= trace && id < |s.workers|
      ensures s.workers[id].pc ==
        match r
        case None => Caught(RunFailed)
        case Some(finished) => if finished then Done(Ended(old(s.workers[id].pc.status))) else Caught(ClaimLost)
    {
      var delivery, before := Query(id);
      r := if !delivery.Acked? then None else Some(ScheduleProtocol.Finish(before.row, before.workers[id].token).0);
    }

    /** The repository call of the error path, pausing or finishing; `code` is what the path reports. */
    method CloseFailedRun(id: nat) returns (code: ErrorCode)
      requires Valid() && id < |s.workers| && s.workers[id].pc.Caught?
      modifies this
      ensures Valid() && old(trace) <= trace && id < |s.workers|
      ensures s.workers[id].pc == Done(FailedWith(code))
    {
      var delivery, before := Query(id);
      code := s.workers[id].pc.result.code;
    }
  }

  /** heartbeat.stop() and finishNewsSchedule. */
  method Finish(w: World, id: nat, status: Status) returns (flow: Flow)
    requires w.Valid() && id < |w.s.workers| && w.s.workers[id].pc == Ending(w.s.workers[id], status)
    modifies w
    ensures w.Valid() && old(w.trace) <= w.trace && id < |w.s.workers| && Reached(w.s.workers[id].pc, flow)
    ensures flow.Returns? ==> flow.result == Ended(status)
  {
    if w.s.workers[id].lost { return Throws(ClaimLost); }
    var finished := w.FinishNewsSchedule(id);
    flow := match finished
      case None => Throws(RunFailed)
      case Some(true) => Returns(Ended(status))
      case Some(false) => Throws(ClaimLost);
  }

  /** `None` when the run may go on, which it then does from `Onward`. */
  method DeferForQuietHours(w: World, id: nat) returns (flow: Option<Flow>)
    requires w.Valid() && id < |w.s.workers| && AtClock(w.s.workers[id].pc)
    modifies w
    ensures w.Valid() && old(w.trace) <= w.trace && id < |w.s.workers|
    ensures flow.Some? ==> Reached(w.s.workers[id].pc, flow.value)
    ensures flow.None? ==>
      && |old(w.s.drafts)| <= |w.s.drafts|
      && var before := old(w.s.workers[id]).(lost := w.s.workers[id].lost); w.At(id, before, Onward(before))
  {
    var defers := w.ShouldDefer(id);
    if !defers { return None; }
    if w.s.workers[id].lost { return Some(Throws(ClaimLost)); }
    var deferred := w.DeferNewsSchedule(id);
    flow := Some(deferred);
  }

  /** The draft of the run: the checkpointed one, or a new one that is checkpointed first. */
  method ObtainDraft(w: World, id: nat) returns (r: Wrappers.Result<nat, Flow>)
    requires w.Valid() && id < |w.s.workers| && w.s.workers[id].pc == AfterEarlyClock(w.s.workers[id])
    modifies w
    ensures w.Valid() && old(w.trace) <= w.trace && id < |w.s.workers|
    ensures r.Failure? ==> Reached(w.s.workers[id].pc, r.error)
    ensures r.Success? ==> w.At(id, old(w.s.workers[id]), DeliveryClock(r.value))
  {
    var claim := w.s.workers[id];
    if claim.policy.manual {
      var pending := w.HasPendingReview(id);
      if pending.Failure? { return Failure(Throws(pending.error)); }
      if pending.value {
        var flow := Finish(w, id, Skipped);
        return Failure(flow);
      }
    }
    if claim.draft.Some? { return Success(claim.draft.value); }
    var news := w.RunNewsPipeline(id);
    if news.Failure? { return Failure(Throws(news.error)); }
    if news.value.None? {
      var flow := Finish(w, id, NoCandidates);
      return Failure(flow);
    }
    var failure := w.SaveNewsScheduleDraft(id);
    r := if failure.Some? then Failure(Throws(failure.value)) else Success(news.value.value);
  }

  method DeliverForReview(w: World, id: nat) returns (flow: Flow)
    requires w.Valid() && id < |w.s.workers| && w.s.workers[id].pc.DeliverReview?
    modifies w
    ensures w.Valid() && old(w.trace) <= w.trace && id < |w.s.workers| && Reached(w.s.workers[id].pc, flow)
  {
    var delivery := w.DeliverReviewDraft(id);
    if delivery.Failure? { return Throws(ReviewDeliveryFailed); }
    flow := Finish(w, id, if delivery.value then ReviewResolved else AwaitingApproval);
  }

  /** `publishScheduledDraft` followed by the two checkpoints. */
  method PublishAndFinish(w: World, id: nat) returns (flow: Flow)
    requires w.Valid() && id < |w.s.workers| && w.s.workers[id].pc.LoadDraft?
    modifies w
    ensures w.Valid() && old(w.trace) <= w.trace && id < |w.s.workers| && Reached(w.s.workers[id].pc, flow)
  {
    var status := w.GetDraft(id);
    if status.None? { return Throws(RunFailed); }
    if status.value.Review? {
      var approved := w.ApproveScheduledDraft(id);
      if !approved { return Throws(RunFailed); }
    } else if status.value.Draft? {
      return Throws(RunFailed);
    }
    var ended := w.StartPublisher(id);
    if ended.None? { return Dies; }
    var (ending, message) := ended.value;
    if ending.Raised? { return Throws(CodeOf(ending.failure, message)); }
    if ending.value.ReturnBlocked? || ending.value.ReturnAlreadyBlocked? {
      flow := Finish(w, id, BlockedByPolicy);
      return;
    }
    var failure := w.SaveNewsSchedulePublication(id);
    if failure.Some? { return Throws(failure.value); }
    flow := Finish(w, id, PublishedStatus);
  }

  method ExecuteClaim(w: World, id: nat) returns (flow: Flow)
    requires w.Valid() && id < |w.s.workers| && w.s.workers[id].pc.EarlyClock?
    modifies w
    ensures w.Valid() && old(w.trace) <= w.trace && id < |w.s.workers| && Reached(w.s.workers[id].pc, flow)
  {
    hide Run, World.Valid;
    var claim := w.s.workers[id];
    var early := DeferForQuietHours(w, id);
    if early.Some? { return early.value; }
    var draft := ObtainDraft(w, id);
    if draft.Failure? { return draft.error; }
    var delivery := DeferForQuietHours(w, id);
    if delivery.Some? { return delivery.value; }
    if !claim.policy.manual && claim.messageId.Some? {
      flow := Finish(w, id, PublishedStatus);
      return;
    }
    var renewed := w.RenewClaim(id);
    if !renewed { return Throws(ClaimLost); }
    var last := DeferForQuietHours(w, id);
    if last.Some? { return last.value; }
    if claim.policy.manual {
      flow := DeliverForReview(w, id);
    } else {
      flow := PublishAndFinish(w, id);
    }
  }

  /** How a whole run ends: nothing to claim, a claim call that raised, a process that is gone, or a result. */
  datatype Outcome = Idle | ClaimRaised | Gone | Completed(result: ScheduleProtocol.Result)

  /** A whole run. Its result is how its worker ends in the schedule machine, so every property of
      schedule runs is a property of what this code does. */
  method RunScheduledNewsOnce(w: World, due: bool, stale: bool, acked: bool) returns (outcome: Outcome)
    requires w.Valid()
    modifies w
    ensures w.Valid() && old(w.trace) <= w.trace
    ensures outcome.Completed? ==>
      var id := |old(w.s.workers)|; id < |w.s.workers| && w.s.workers[id].pc == Done(outcome.result)
    ensures outcome.ClaimRaised? <==> !acked
    ensures outcome.Idle? <==> acked && !Claimable(old(w.s.row), due, stale)
    ensures outcome.Gone? ==> var id := |old(w.s.workers)|; id < |w.s.workers| && w.s.workers[id].pc.Stopped?
  {
    var claim := w.ClaimDueNewsSchedule(due, stale, acked);
    if claim.Failure? { return ClaimRaised; }
    if claim.value.None? { return Idle; }
    var id := claim.value.value;
    var flow := ExecuteClaim(w, id);
    match flow {
      case Returns(result) => outcome := Completed(result);
      case Dies => outcome := Gone;
      case Throws(_) =>
        var code := w.CloseFailedRun(id);
        outcome := Completed(FailedWith(code));
    }
  }
}
