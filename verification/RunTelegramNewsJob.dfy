/** `runTelegramNewsJobOnce` and its claim heartbeat in their own shape: one worker on a shared job
    table, with the heartbeat timer, its pending renewal and other clients acting during every await. */
module RunTelegramNewsJob {
  import opened Wrappers
  import opened NewsJobsStore

  // ---- What the work reports ----

  /** What the message of a thrown error mentions. */
  datatype ErrorKind = MentionsUnresolved | MentionsRunning | MentionsRateLimit | OtherError

  datatype JobResult = JobResult(status: Option<OutcomeStatus>, draftId: Option<string>, messageId: Option<int>)

  datatype Work = WorkThrew(kind: ErrorKind) | WorkReturned(result: JobResult)

  const MAX_SAFE_INTEGER := 0x1f_ffff_ffff_ffff

  /** outcomeFromResult: `None` when it throws. What it lets through can be recorded, except that the
      database also rejects fields that do not belong to the status. */
  function OutcomeFromResult(result: JobResult): (r: Option<Outcome>)
    ensures r.Some? ==> result.status == Some(r.value.status)
    ensures r.Some? ==> (OutcomeFieldsOk(r.value) <==> !HasStrayFields(r.value))
  {
    match result.status
    case None => None
    case Some(status) =>
      if status.FailedJob? then None
      else if !status.NoNews? && (result.draftId.None? || result.draftId.value == "") then None
      else if status.PublishedNews? && !ValidMessageId(result.messageId) then None
      else Some(Outcome(status, result.draftId, result.messageId))
  }

  predicate ValidMessageId(messageId: Option<int>) {
    match messageId
    case None => false
    case Some(id) => 0 < id <= MAX_SAFE_INTEGER
  }

  /** A draft where there is none to have, or a message that was not published. */
  predicate HasStrayFields(outcome: Outcome) {
    || (outcome.status.NoNews? && outcome.draftId.Some?)
    || (!outcome.status.PublishedNews? && outcome.messageId.Some?)
  }

  /** defaultExecutionError. */
  function ClassifyError(kind: ErrorKind): (string, bool) {
    match kind
    case MentionsUnresolved => ("publication_unresolved", true)
    case MentionsRunning => ("pipeline_busy", false)
    case MentionsRateLimit => ("rate_limited", false)
    case OtherError => ("news_job_failed", false)
  }

  // ---- What a run does, in order ----

  /** How the work ended: with an outcome to record, with an error, delivered, or not. */
  datatype WorkEnd = Succeeded(outcome: Outcome) | WorkFailed(kind: ErrorKind) | Delivered | NotDelivered

  datatype Event =
    | ExecutionStarted
    | DeliveryStarted
    | WorkEnded(end: WorkEnd)
    | RenewalIssued
    | RenewalSucceeded
    | LossObserved
    | MutationIssued(mutation: Mutation)
    | MutationAcked(mutation: Mutation)
    | RecordingFailed(kind: ErrorKind)

  predicate OfHeartbeat(e: Event) {
    e.RenewalIssued? || e.RenewalSucceeded? || e.LossObserved?
  }

  /** A renewal has been sent and not been answered. */
  function InFlight(log: seq<Event>): bool {
    log != [] && var last := log[|log| - 1];
    last.RenewalIssued? || (!OfHeartbeat(last) && InFlight(log[..|log| - 1]))
  }

  /** The mutation that was acknowledged, if any. */
  function AckedMutation(log: seq<Event>): Option<Mutation> {
    if log == [] then None
    else if log[|log| - 1].MutationAcked? then Some(log[|log| - 1].mutation)
    else AckedMutation(log[..|log| - 1])
  }

  /** What the error mentions with which an outcome could not be recorded. */
  function FailureOf(log: seq<Event>): ErrorKind {
    if log == [] then OtherError
    else if log[|log| - 1].RecordingFailed? then log[|log| - 1].kind
    else FailureOf(log[..|log| - 1])
  }

  function EndOfWork(log: seq<Event>): Option<WorkEnd> {
    if log == [] then None
    else if log[|log| - 1].WorkEnded? then Some(log[|log| - 1].end)
    else EndOfWork(log[..|log| - 1])
  }

  /** The mutation that the end of the work calls for: the outcome that it had, or, after an error of the
      work or of recording it, a retry under the code of that error; likewise for a delivery. */
  predicate CalledFor(mutation: Mutation, end: WorkEnd, failure: ErrorKind) {
    match mutation
    case Record(outcome) => end == Succeeded(outcome)
    case Retry(code, terminal) =>
      (code, terminal) == ClassifyError(if end.WorkFailed? then end.kind else failure) && (end.Succeeded? || end.WorkFailed?)
    case Complete => end.Delivered?
    case RetryDelivery(code) => code == "admin_delivery_failed" && (end.Delivered? || end.NotDelivered?)
  }

  predicate IsCalledFor(log: seq<Event>, mutation: Mutation) {
    EndOfWork(log).Some? && CalledFor(mutation, EndOfWork(log).value, FailureOf(log))
  }

  /** The mutation was sent, or could not be because the claim was known to be lost. */
  predicate Tried(log: seq<Event>, mutation: Mutation) {
    LossObserved in log || MutationIssued(mutation) in log
  }

  /** Nothing that the work calls for is left undone: what succeeded is recorded or completed, a run
      that throws has asked for a retry, and only a process told to stop leaves it at that. */
  ghost predicate NothingOmitted(log: seq<Event>, ended: Ended, aborted: bool) {
    && (EndOfWork(log).Some? && EndOfWork(log).value.Succeeded? ==> Tried(log, Record(EndOfWork(log).value.outcome)))
    && (EndOfWork(log) == Some(Delivered) ==> Tried(log, Complete))
    && (ended.Threw? ==> exists m: Mutation :: (m.Retry? || m.RetryDelivery?) && IsCalledFor(log, m) && Tried(log, m))
    && (ended.StoppedMidway? ==> aborted)
    && (Ran(ended) ==> EndOfWork(log).Some?)
  }

  /** What may happen after `before`: renewals are single-flight, nothing is sent once the claim is
      known to be lost, and a mutation comes directly after a successful renewal, after the work has
      ended and called for it, in the phase it belongs to, and never after one that was acknowledged. */
  predicate MayFollow(before: seq<Event>, e: Event, executes: bool) {
    match e
    case ExecutionStarted => executes
    case DeliveryStarted => !executes
    case WorkEnded(end) =>
      EndOfWork(before).None? &&
      if executes then ExecutionStarted in before && (end.Succeeded? || end.WorkFailed?)
      else DeliveryStarted in before && (end.Delivered? || end.NotDelivered?)
    case RenewalIssued => !InFlight(before) && LossObserved !in before
    case RenewalSucceeded => InFlight(before)
    case LossObserved => InFlight(before)
    case MutationIssued(mutation) =>
      && LossObserved !in before
      && before != [] && before[|before| - 1].RenewalSucceeded?
      && IsCalledFor(before, mutation)
      && AckedMutation(before).None?
      && (mutation.Record? || mutation.Retry?) == executes
    case MutationAcked(mutation) => MutationIssued(mutation) in before && AckedMutation(before).None?
    case RecordingFailed(_) =>
      executes && EndOfWork(before).Some? && EndOfWork(before).value.Succeeded? && AckedMutation(before).None?
  }

  ghost predicate Orderly(log: seq<Event>, executes: bool) {
    forall k :: 0 <= k < |log| ==> MayFollow(log[..k], log[k], executes)
  }

  lemma LogGrows(log: seq<Event>, e: Event)
    ensures InFlight(log + [e]) == if OfHeartbeat(e) then e.RenewalIssued? else InFlight(log)
    ensures EndOfWork(log + [e]) == if e.WorkEnded? then Some(e.end) else EndOfWork(log)
    ensures AckedMutation(log + [e]) == if e.MutationAcked? then Some(e.mutation) else AckedMutation(log)
    ensures FailureOf(log + [e]) == if e.RecordingFailed? then e.kind else FailureOf(log)
  {
    assert (log + [e])[..|log|] == log;
  }

  lemma OrderlyExtends(log: seq<Event>, e: Event, executes: bool)
    requires Orderly(log, executes) && MayFollow(log, e, executes)
    ensures Orderly(log + [e], executes)
    ensures (log + [e])[..|log|] == log
  {
    var longer := log + [e];
    assert longer[..|log|] == log;
    forall k | 0 <= k < |longer| ensures MayFollow(longer[..k], longer[k], executes) {
      if k < |log| { assert longer[..k] == log[..k]; }
    }
  }

  // ---- The run ----

  /** A renewal on its way: sent, or answered by the database. */
  datatype Flight = Sent | Answered(owned: bool)

  datatype Other =
    | Elsewhere(action: Action)
    | TimerFires
    | RenewalArrives
    | RenewalResolves(answered: bool)
    | Abort

  /** What happens at one await: what goes on meanwhile, then how our own call ends. */
  datatype Turn = Turn(others: seq<Other>, delivery: Delivery, work: Work, delivered: bool, error: ErrorKind, locked: set<nat>)

  const QUIET_TURN := Turn([], Acked, WorkReturned(JobResult(Some(NoNews), None, None)), true, OtherError, {})

  datatype Ended =
    | NotStarted
    | Idle
    | ClaimRaised
    | OutcomeRecorded
    | StoppedMidway(durable: bool)
    | Retried(status: Status, code: string)
    | DeliveryDone
    | Threw

  predicate Ran(ended: Ended) {
    !ended.NotStarted? && !ended.Idle? && !ended.ClaimRaised?
  }

  /** Claims are secrets of the worker they were given to, and so is the one that this worker makes. */
  predicate Foreign(a: Action, token: nat, me: nat) {
    match a
    case Renew(_, theirs) => theirs != token
    case Mutate(_, theirs, _) => theirs != token
    case CheckClaims(who, _) => who != me
    case PickJob(who, _) => who != me
    case AbortClaim(who) => who != me
    case _ => true
  }

  /** The acknowledged mutation is the one that the run reports. */
  predicate Reports(ended: Ended, executes: bool, acked: Option<Mutation>) {
    match ended
    case OutcomeRecorded => executes && acked.Some? && acked.value.Record?
    case StoppedMidway(durable) => if executes then durable == acked.Some? && (durable ==> acked.value.Record?) else acked.None?
    case Retried(_, code) =>
      acked.Some? && (if executes then acked.value.Retry? && acked.value.code == code else acked.value == RetryDelivery(code))
    case DeliveryDone => !executes && acked == Some(Complete)
    case _ => acked.None?
  }

  class JobRun {
    var s: State
    var turns: seq<Turn>
    const limits: Limits
    const me: nat
    ghost const start: State
    ghost var trace: seq<Action>
    var claim: Claim
    var aborted: bool
    // The heartbeat.
    var renewal: Option<Flight>
    var lostError: bool
    var stopped: bool
    ghost var log: seq<Event>

    ghost predicate Valid()
      reads this
    {
      && s == Run(start, trace, limits)
      && Orderly(log, claim.executes)
      && InFlight(log) == renewal.Some?
      && (LossObserved in log <==> lostError)
      && (AckedMutation(log).Some? ==> Applied(claim.token, claim.job, AckedMutation(log).value) in s.applied)
    }

    /** The renewal that was waited for has settled: the claim is lost, or was renewed just now. */
    ghost predicate Settled()
      reads this
    {
      renewal.None? && (lostError || (log != [] && log[|log| - 1].RenewalSucceeded?))
    }

    /** What every step of a run leaves behind. */
    twostate predicate Kept()
      reads this
    {
      && Valid() && old(trace) <= trace && claim == old(claim)
      && EndOfWork(log) == EndOfWork(old(log)) && (forall e :: e in old(log) ==> e in log)
      && (old(stopped) ==> stopped) && (old(aborted) ==> aborted)
    }

    /** What every await leaves behind. */
    twostate predicate Waited()
      reads this
    {
      Kept() && AckedMutation(log) == AckedMutation(old(log)) && FailureOf(log) == FailureOf(old(log))
    }

    constructor (s: State, turns: seq<Turn>, limits: Limits, me: nat, aborted: bool)
      ensures Valid() && this.s == s && this.limits == limits && this.me == me && start == s && trace == [] && log == []
      ensures renewal.None? && !lostError && !stopped
    {
      this.s, this.turns, this.limits, this.me, this.aborted := s, turns, limits, me, aborted;
      start, trace, log := s, [], [];
      claim, renewal, lostError, stopped := Claim(0, 0, true), None, false, false;
    }

    ghost method Note(e: Event)
      requires Orderly(log, claim.executes) && MayFollow(log, e, claim.executes)
      modifies this`log
      ensures log == old(log) + [e] && Orderly(log, claim.executes) && log[..|log| - 1] == old(log)
      ensures forall x :: x in log <==> x in old(log) || x == e
      ensures InFlight(log) == if OfHeartbeat(e) then e.RenewalIssued? else InFlight(old(log))
      ensures EndOfWork(log) == if e.WorkEnded? then Some(e.end) else EndOfWork(old(log))
      ensures AckedMutation(log) == if e.MutationAcked? then Some(e.mutation) else AckedMutation(old(log))
      ensures FailureOf(log) == if e.RecordingFailed? then e.kind else FailureOf(old(log))
    {
      OrderlyExtends(log, e, claim.executes);
      LogGrows(log, e);
      log := log + [e];
    }

    method Act(a: Action)
      requires Valid()
      modifies this`s, this`trace
      ensures Valid() && trace == old(trace) + [a] && s == Step(old(s), a, limits)
    {
      Snoc(start, trace, a, limits);
      AppliedGrows(s, a, limits);
      s, trace := Step(s, a, limits), trace + [a];
    }

    /** The timer callback: a renewal that nobody waits for. */
    method IssueRenewal()
      requires Valid() && !lostError && renewal.None?
      modifies this`renewal, this`log
      ensures Waited() && renewal.Some?
    {
      hide Orderly, InFlight, EndOfWork, AckedMutation, FailureOf;
      Note(RenewalIssued);
      renewal := Some(Sent);
    }

    /** The pending renewal settles: the claim is kept, or known to be lost from now on. */
    method ResolveRenewal(answered: bool)
      requires Valid() && renewal.Some?
      modifies this`renewal, this`lostError, this`log
      ensures Waited() && Settled()
    {
      hide Orderly, InFlight, EndOfWork, AckedMutation, FailureOf;
      if answered && renewal.value == Answered(true) {
        Note(RenewalSucceeded);
      } else {
        Note(LossObserved);
        lostError := true;
      }
      renewal := None;
    }

    /** renew_telegram_news_job_claim runs. */
    method AnswerRenewal()
      requires Valid() && renewal.Some?
      modifies this`s, this`trace, this`renewal
      ensures Waited() && renewal.Some?
    {
      var owned := RenewClaim(s, claim.job, claim.token).0;
      Act(Renew(claim.job, claim.token));
      renewal := Some(Answered(owned));
    }

    method Meanwhile(other: Other)
      requires Valid()
      modifies this
      ensures Waited() && turns == old(turns)
      ensures old(renewal).Some? ==> renewal.Some? || Settled()
      ensures old(renewal).None? && old(stopped) ==> renewal.None?
    {
      match other {
        case Elsewhere(action) => if Foreign(action, claim.token, me) { Act(action); }
        case TimerFires => if !stopped && !lostError && renewal.None? { IssueRenewal(); }
        case RenewalArrives =>
          if renewal == Some(Sent) { AnswerRenewal(); }
        case RenewalResolves(answered) => if renewal.Some? { ResolveRenewal(answered); }
        case Abort => aborted := true;
      }
    }

    method NextTurn() returns (turn: Turn)
      modifies this`turns
    {
      turn := QUIET_TURN;
      if turns != [] { turn, turns := turns[0], turns[1..]; }
    }

    /** An await of one of our own calls. */
    method Await() returns (turn: Turn)
      requires Valid()
      modifies this
      ensures Waited()
    {
      turn := NextTurn();
      for k := 0 to |turn.others|
        invariant Waited()
      {
        Meanwhile(turn.others[k]);
      }
    }

    /** An await of the pending renewal, whoever sent it. */
    method JoinRenewal()
      requires Valid() && renewal.Some?
      modifies this
      ensures Waited() && Settled()
    {
      var turn := NextTurn();
      var k := 0;
      while k < |turn.others| && renewal.Some?
        invariant Waited()
        invariant renewal.Some? || Settled()
      {
        Meanwhile(turn.others[k]);
        k := k + 1;
      }
      if renewal.Some? { FinishRenewal(turn.delivery); }
    }

    method FinishRenewal(delivery: Delivery)
      requires Valid() && renewal.Some?
      modifies this
      ensures Waited() && Settled()
    {
      if renewal == Some(Sent) && !delivery.NotApplied? { AnswerRenewal(); }
      ResolveRenewal(delivery.Acked?);
    }

    /** renew(): throws (`false`) once the claim is known to be lost. */
    method RenewOnce() returns (renewed: bool)
      requires Valid()
      modifies this
      ensures Waited() && renewed == !lostError
      ensures renewed ==> log != [] && log[|log| - 1].RenewalSucceeded?
    {
      if lostError { return false; }
      if renewal.None? { IssueRenewal(); }
      JoinRenewal();
      renewed := !lostError;
    }

    /** stop(): no timer fires any more and nothing is pending; throws (`false`) if the claim was lost. */
    method StopHeartbeat() returns (owned: bool)
      requires Valid()
      modifies this
      ensures Waited() && stopped && renewal.None? && owned == !lostError
    {
      stopped := true;
      if renewal.Some? { JoinRenewal(); }
      owned := !lostError;
    }

    /** The database call of a mutation: the row it saved, `None` for no row, or it threw. */
    method Query(mutation: Mutation, delivery: Delivery, error: ErrorKind) returns (r: Wrappers.Result<Option<Status>, ErrorKind>)
      requires Valid()
      modifies this`s, this`trace
      ensures Valid() && old(trace) <= trace
      ensures r.Success? && r.value.Some? ==> Applied(claim.token, claim.job, mutation) in s.applied
      ensures r.Failure? ==> r.error == if delivery.Acked? then OtherError else error
    {
      if delivery.NotApplied? { return Failure(error); }
      var answer := MutateJob(s, claim.job, claim.token, mutation, limits);
      MutationApplies(s, claim.job, claim.token, mutation, limits);
      Act(NewsJobsStore.Mutate(claim.job, claim.token, mutation));
      if delivery.LostAfterApply? { return Failure(error); }
      if answer.None? { return Failure(OtherError); }
      if !answer.value.0 { return Success(None); }
      r := Success(Some(answer.value.1.jobs[claim.job].status));
    }

    /** The repository call that ends the claim. */
    method Mutate(mutation: Mutation) returns (r: Wrappers.Result<Option<Status>, ErrorKind>)
      requires Valid() && MayFollow(log, MutationIssued(mutation), claim.executes)
      modifies this
      ensures Kept() && MutationIssued(mutation) in log && FailureOf(log) == FailureOf(old(log))
      ensures AckedMutation(log) == if r.Success? && r.value.Some? then Some(mutation) else None
    {
      var turn := Send(mutation);
      r := Query(mutation, turn.delivery, turn.error);
      if r.Success? && r.value.Some? { AcknowledgeMutation(mutation); }
    }

    /** The mutation is on its way until its answer, or the lack of one, is known. */
    method Send(mutation: Mutation) returns (turn: Turn)
      requires Valid() && MayFollow(log, MutationIssued(mutation), claim.executes)
      modifies this
      ensures Kept() && MutationIssued(mutation) in log && AckedMutation(log).None? && FailureOf(log) == FailureOf(old(log))
    {
      IssueMutation(mutation);
      turn := Await();
    }

    ghost method IssueMutation(mutation: Mutation)
      requires Valid() && MayFollow(log, MutationIssued(mutation), claim.executes)
      modifies this`log
      ensures Kept() && MutationIssued(mutation) in log && AckedMutation(log).None? && FailureOf(log) == FailureOf(old(log))
    {
      hide Orderly, InFlight, EndOfWork, AckedMutation, FailureOf;
      Note(MutationIssued(mutation));
    }

    ghost method AcknowledgeMutation(mutation: Mutation)
      requires Valid() && MayFollow(log, MutationAcked(mutation), claim.executes)
      requires Applied(claim.token, claim.job, mutation) in s.applied
      modifies this`log
      ensures Kept() && AckedMutation(log) == Some(mutation) && FailureOf(log) == FailureOf(old(log))
    {
      hide Orderly, InFlight, EndOfWork, AckedMutation, FailureOf;
      Note(MutationAcked(mutation));
    }

    /** Renew, then mutate: what was saved, if the renewal succeeded and anything was, else what the error
        mentions. A lost claim and an answer without a row are errors of the code's own, which tell nothing. */
    method RenewAndMutate(mutation: Mutation) returns (saved: Option<Status>, error: ErrorKind)
      requires Valid() && IsCalledFor(log, mutation) && AckedMutation(log).None?
      requires (mutation.Record? || mutation.Retry?) == claim.executes
      modifies this
      ensures Kept() && Tried(log, mutation) && FailureOf(log) == FailureOf(old(log))
      ensures AckedMutation(log) == if saved.Some? then Some(mutation) else None
    {
      var renewed := RenewOnce();
      if !renewed { return None, OtherError; }
      var answer := Mutate(mutation);
      saved := if answer.Success? then answer.value else None;
      error := if answer.Success? then OtherError else answer.error;
    }

    /** claimNextTelegramNewsJob: between its two reads the other functions may commit. A call that finds
        another claim under way waits for it, or raises when it waits too long. */
    method ClaimNextJob() returns (r: Wrappers.Result<bool, ()>)
      requires Valid() && log == []
      modifies this
      ensures Valid() && old(trace) <= trace && log == [] && renewal == old(renewal) && stopped == old(stopped)
      ensures r == Success(true) ==> claim in s.claims && claim.token < s.nextToken
    {
      var turn := NextTurn();
      if turn.delivery.NotApplied? || s.claiming.Some? { return Failure(()); }
      Act(CheckClaims(me, s.now));
      if !IsClaiming(s, me) { return if turn.delivery.Acked? then Success(false) else Failure(()); }
      for k := 0 to |turn.others|
        invariant Valid() && old(trace) <= trace && log == [] && renewal == old(renewal) && stopped == old(stopped)
      {
        var other := turn.others[k];
        if other.Elsewhere? && Foreign(other.action, claim.token, me) { Act(other.action); }
      }
      var (s', given) := PickClaim(s, me, limits, turn.locked);
      Act(PickJob(me, turn.locked));
      if turn.delivery.LostAfterApply? { return Failure(()); }
      if given.None? { return Success(false); }
      assert s'.claims[|s'.claims| - 1] == given.value;
      claim := given.value;
      r := Success(true);
    }

    /** The retry that the error path asks for, and the end of the heartbeat after it. */
    method RetryAfterError(mutation: Mutation, code: string) returns (ended: Ended)
      requires Valid() && IsCalledFor(log, mutation) && AckedMutation(log).None?
      requires if claim.executes then mutation.Retry? && mutation.code == code else mutation == RetryDelivery(code)
      modifies this
      ensures Kept() && stopped && renewal.None? && Reports(ended, claim.executes, AckedMutation(log))
      ensures Tried(log, mutation) && (ended.Retried? || ended.Threw?) && FailureOf(log) == FailureOf(old(log))
    {
      var saved, _ := RenewAndMutate(mutation);
      var _ := StopHeartbeat();
      ended := if saved.None? then Threw else Retried(saved.value, code);
    }

    /** runNewsJob or deliverOutcome, by the phase of the claim. */
    method Work() returns (end: WorkEnd)
      requires Valid() && log == []
      modifies this
      ensures Valid() && old(trace) <= trace && claim == old(claim)
      ensures EndOfWork(log) == Some(end) && AckedMutation(log).None?
      ensures if claim.executes then end.Succeeded? || end.WorkFailed? else end.Delivered? || end.NotDelivered?
    {
      var start := if claim.executes then ExecutionStarted else DeliveryStarted;
      assert EndOfWork([]).None? && AckedMutation([]).None?;
      hide Orderly, InFlight, EndOfWork, AckedMutation, FailureOf;
      Note(start);
      var turn := Await();
      end := if claim.executes then EndOfExecution(turn.work) else if turn.delivered then Delivered else NotDelivered;
      Note(WorkEnded(end));
    }

    method Execute() returns (ended: Ended)
      requires Valid() && log == [] && claim.executes
      modifies this
      ensures Valid() && old(trace) <= trace && claim == old(claim)
      ensures stopped && renewal.None? && Ran(ended) && Reports(ended, true, AckedMutation(log))
      ensures NothingOmitted(log, ended, aborted)
    {
      hide MayFollow, Orderly, ClassifyError;
      var end := Work();
      if end.Succeeded? {
        var outcomePersisted, error := RenewAndMutate(Record(end.outcome));
        if outcomePersisted.Some? {
          var owned := StopHeartbeat();
          return if owned && aborted then StoppedMidway(true) else OutcomeRecorded;
        }
        NoteFailure(error);
        ended := AfterExecutionError(error);
        return;
      }
      ended := AfterExecutionError(end.kind);
    }

    ghost method NoteFailure(error: ErrorKind)
      requires Valid() && claim.executes && AckedMutation(log).None?
      requires EndOfWork(log).Some? && EndOfWork(log).value.Succeeded?
      modifies this`log
      ensures Kept() && AckedMutation(log).None? && FailureOf(log) == error
    {
      hide Orderly, InFlight, EndOfWork, AckedMutation, FailureOf;
      Note(RecordingFailed(error));
    }

    method AfterExecutionError(error: ErrorKind) returns (ended: Ended)
      requires Valid() && claim.executes && AckedMutation(log).None?
      requires IsCalledFor(log, Retry(ClassifyError(error).0, ClassifyError(error).1))
      modifies this
      ensures Kept() && stopped && renewal.None? && Ran(ended) && Reports(ended, true, AckedMutation(log))
      ensures ended.StoppedMidway? ==> aborted
      ensures ended.Threw? ==> Tried(log, Retry(ClassifyError(error).0, ClassifyError(error).1))
      ensures FailureOf(log) == FailureOf(old(log))
    {
      if aborted {
        var _ := StopHeartbeat();
        return StoppedMidway(false);
      }
      var (code, terminal) := ClassifyError(error);
      ended := RetryAfterError(Retry(code, terminal), code);
    }

    method Deliver() returns (ended: Ended)
      requires Valid() && log == [] && !claim.executes
      modifies this
      ensures Valid() && old(trace) <= trace && claim == old(claim)
      ensures stopped && renewal.None? && Ran(ended) && Reports(ended, false, AckedMutation(log))
      ensures NothingOmitted(log, ended, aborted)
    {
      hide MayFollow, Orderly;
      var end := Work();
      if end.Delivered? {
        var deliveryCompleted, _ := RenewAndMutate(Complete);
        if deliveryCompleted.Some? {
          var _ := StopHeartbeat();
          return DeliveryDone;
        }
      }
      ended := AfterDeliveryError();
    }

    method AfterDeliveryError() returns (ended: Ended)
      requires Valid() && !claim.executes && AckedMutation(log).None?
      requires IsCalledFor(log, RetryDelivery("admin_delivery_failed"))
      modifies this
      ensures Kept() && stopped && renewal.None? && Ran(ended) && Reports(ended, false, AckedMutation(log))
      ensures ended.StoppedMidway? ==> aborted
      ensures ended.Threw? ==> Tried(log, RetryDelivery("admin_delivery_failed"))
    {
      if aborted {
        var _ := StopHeartbeat();
        return StoppedMidway(true);
      }
      ended := RetryAfterError(RetryDelivery("admin_delivery_failed"), "admin_delivery_failed");
    }

    /** One run. Its log is orderly, nothing that the work calls for is omitted, the mutation it reports
        is the one that was acknowledged and applied, and no timer or renewal outlives it. */
    method RunOnce() returns (ended: Ended)
      requires Valid() && log == [] && renewal.None?
      modifies this
      ensures Valid() && old(trace) <= trace
      ensures Reports(ended, claim.executes, AckedMutation(log)) && NothingOmitted(log, ended, aborted)
      ensures renewal.None? && (log != [] ==> stopped)
      ensures !Ran(ended) ==> log == []
    {
      if aborted { return NotStarted; }
      var claimed := ClaimNextJob();
      if claimed.Failure? { return ClaimRaised; }
      if !claimed.value { return Idle; }
      if claim.executes { ended := Execute(); } else { ended := Deliver(); }
    }
  }

  /** A result is turned into an outcome, or into an error without a telling message. */
  function EndOfExecution(work: Work): WorkEnd {
    match work
    case WorkThrew(kind) => WorkFailed(kind)
    case WorkReturned(result) =>
      match OutcomeFromResult(result)
      case None => WorkFailed(OtherError)
      case Some(outcome) => Succeeded(outcome)
  }

  lemma {:induction false} Snoc(s: State, trace: seq<Action>, a: Action, limits: Limits)
    ensures Run(s, trace + [a], limits) == Step(Run(s, trace, limits), a, limits)
    decreases |trace|
  {
    if trace == [] {
      assert trace + [a] == [a];
    } else {
      assert (trace + [a])[1..] == trace[1..] + [a];
      Snoc(Step(s, trace[0], limits), trace[1..], a, limits);
    }
  }

  lemma MutationApplies(s: State, job: nat, token: nat, mutation: Mutation, limits: Limits)
    ensures var answer := MutateJob(s, job, token, mutation, limits);
            answer.Some? && answer.value.0 ==>
              && job < |answer.value.1.jobs|
              && Applied(token, job, mutation) in Step(s, NewsJobsStore.Mutate(job, token, mutation), limits).applied
  {
    var answer := MutateJob(s, job, token, mutation, limits);
    if answer.Some? && answer.value.0 {
      assert answer.value.1.applied[|s.applied|] == Applied(token, job, mutation);
    }
  }

  lemma AppliedGrows(s: State, a: Action, limits: Limits)
    ensures s.applied <= Step(s, a, limits).applied
  {
  }
}
