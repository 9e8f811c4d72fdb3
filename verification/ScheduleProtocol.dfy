/** The news scheduler: overlapping workers claim the schedule row, checkpoint a draft and
    publish it. Every await is one step; workers may stop for good at any of them, claims may
    be taken over, and each draft runs the publication protocol of its own. */
module ScheduleProtocol {
  import opened Wrappers
  import PS = PublicationStore
  import P = PublicationProtocol

  /** The part of the settings snapshot that steers a run. */
  datatype Policy = Policy(manual: bool, quietHours: bool)

  /** The schedule columns of the settings row. */
  datatype Row = Row(scheduled: bool, current: Policy, token: Option<nat>, runId: Option<nat>,
                     snapshot: Option<Policy>, draft: Option<nat>, messageId: Option<nat>)

  // ---- SQL functions; the flag says whether a row was updated ----

  predicate Owns(row: Row, token: nat) {
    row.token == Some(token)
  }

  /** claim_due_news_schedule: an unclaimed row, or one whose claim has gone stale. */
  predicate Claimable(row: Row, due: bool, stale: bool) {
    row.scheduled && due && (row.token.None? || stale)
  }

  function ClaimDue(row: Row, token: nat, freshRun: nat): Row {
    row.(token := Some(token),
         runId := if row.runId.Some? then row.runId else Some(freshRun),
         snapshot := if row.snapshot.Some? then row.snapshot else Some(row.current))
  }

  function SaveDraft(row: Row, token: nat, draft: nat): (bool, Row) {
    if Owns(row, token) && row.runId.Some? && (row.draft.None? || row.draft == Some(draft))
    then (true, row.(draft := Some(draft))) else (false, row)
  }

  function SavePublication(row: Row, token: nat, draft: nat, messageId: nat): (bool, Row) {
    if Owns(row, token) && row.draft == Some(draft) then (true, row.(messageId := Some(messageId))) else (false, row)
  }

  function Renew(row: Row, token: nat): bool {
    Owns(row, token) && row.runId.Some?
  }

  function Defer(row: Row, token: nat, quietNow: bool): (bool, Row) {
    if Owns(row, token) && quietNow then (true, row.(token := None)) else (false, row)
  }

  function Pause(row: Row, token: nat): (bool, Row) {
    if Owns(row, token) then (true, row.(scheduled := false, token := None)) else (false, row)
  }

  function Finish(row: Row, token: nat): (bool, Row) {
    if Owns(row, token)
    then (true, row.(token := None, runId := None, snapshot := None, draft := None, messageId := None))
    else (false, row)
  }

  // ---- Workers ----

  datatype ErrorCode = ClaimLost | ReviewDeliveryFailed | PublicationUnresolved | RunFailed | PauseFailed

  datatype Status =
    | Skipped | NoCandidates | ReviewResolved | AwaitingApproval | BlockedByPolicy | PublishedStatus | FailedStatus

  datatype Result =
    | Ended(status: Status)
    | Deferred
    | FailedWith(code: ErrorCode)

  datatype Pc =
    | EarlyClock
    | CheckPending
    | RunNews
    | Checkpoint(draft: nat)
    | DeliveryClock(draft: nat)
    | Renewal(draft: nat)
    | LastClock(draft: nat)
    | DeliverReview(draft: nat)
    | LoadDraft(draft: nat)
    | ApproveDraft(draft: nat)
    | Publish(draft: nat)
    | AwaitPublisher(draft: nat, pid: nat)
    | RecordPublication(draft: nat, messageId: nat)
    | CallDefer
    | CallFinish(status: Status)
    | Caught(code: ErrorCode)
    | Done(result: Result)
    | Stopped

  datatype Event = Renewed | ClockRead(quiet: bool) | DraftLoaded | DraftApproved | Launched(draft: nat)

  /** A worker: its claim as returned by the database, what its heartbeat has seen, and what it did. */
  datatype Worker = Worker(token: nat, run: nat, policy: Policy, draft: Option<nat>, messageId: Option<nat>,
                           lost: bool, pc: Pc, log: seq<Event>)

  /** Process `pid` of the publication protocol of `draft` was started for `run`; `seen` is the
      publication that existed then. */
  datatype Launch = Launch(run: nat, draft: nat, pid: nat, seen: Option<PS.Publication>)

  datatype State = State(row: Row, nextToken: nat, nextRun: nat, workers: seq<Worker>,
                         drafts: seq<P.State>, checkpoints: map<nat, nat>, launches: seq<Launch>)

  datatype News = Found(draft: nat) | NothingFound | NewsFailed(code: ErrorCode)

  datatype Input =
    | Clock(quiet: bool)
    | Pending(pending: bool)
    | NewsResult(news: News)
    | Call(delivery: Delivery)
    | Delivered(unavailable: bool)
    | DeliveryRaised
    | PublisherDone(message: ErrorCode)
    | Raise(code: ErrorCode)

  datatype Action =
    | ClaimSchedule(due: bool, stale: bool, acked: bool)
    | Advance(worker: nat, input: Input)
    | Heartbeat(worker: nat, delivery: Delivery)
    | Stop(worker: nat)
    | NewDraft(body: string)
    | DraftStep(draft: nat, action: P.Action)
    | Reconfigure(scheduled: bool, policy: Policy)

  function Initial(policy: Policy): State {
    State(Row(false, policy, None, None, None, None, None), 0, 0, [], [], map[], [])
  }

  function Set(s: State, w: nat, worker: Worker): State
    requires w < |s.workers|
  {
    s.(workers := s.workers[w := worker])
  }

  function Goto(s: State, w: nat, pc: Pc): State
    requires w < |s.workers|
  {
    Set(s, w, s.workers[w].(pc := pc))
  }

  function Throws(s: State, w: nat, code: ErrorCode): State
    requires w < |s.workers|
  {
    Goto(s, w, Caught(code))
  }

  function Logged(s: State, w: nat, event: Event): State
    requires w < |s.workers|
  {
    Set(s, w, s.workers[w].(log := s.workers[w].log + [event]))
  }

  /** Where a worker goes after reading the clock: stop and defer when it must, else `next`. */
  function AfterClock(worker: Worker, quiet: bool, next: Pc): Pc {
    if worker.policy.quietHours && quiet then
      if worker.lost then Caught(ClaimLost) else CallDefer
    else next
  }

  function NeedsPublication(worker: Worker, draft: nat): Pc {
    if worker.policy.manual || worker.messageId.None? then Renewal(draft)
    else if worker.lost then Caught(ClaimLost) else CallFinish(PublishedStatus)
  }

  function AfterEarlyClock(worker: Worker): Pc {
    if worker.policy.manual then CheckPending
    else match worker.draft
      case Some(draft) => DeliveryClock(draft)
      case None => RunNews
  }

  /** Ending the run goes through `heartbeat.stop()`, which throws once the claim is known lost. */
  function Ending(worker: Worker, status: Status): Pc {
    if worker.lost then Caught(ClaimLost) else CallFinish(status)
  }

  /** `publishScheduledDraft` approves a draft in review and refuses one that is not even there yet. */
  function AfterLoad(draft: nat, status: PS.Status): Pc {
    match status
    case Review => ApproveDraft(draft)
    case Draft => Caught(RunFailed)
    case _ => Publish(draft)
  }

  function CodeOf(failure: P.Failure, message: ErrorCode): ErrorCode {
    match failure
    case Unresolved => PublicationUnresolved
    case UnresolvedAfterAcceptance => PublicationUnresolved
    case CallFailed => message
    case _ => RunFailed
  }

  function AfterPublisher(worker: Worker, draft: nat, ending: P.Ending, message: ErrorCode): Pc {
    match ending
    case Raised(failure) => Caught(CodeOf(failure, message))
    case Returned(ReturnPublished(publication)) => RecordPublication(draft, publication.messageId)
    case Returned(ReturnAlreadyPublished(publication)) => RecordPublication(draft, publication.messageId)
    case Returned(_) => Ending(worker, BlockedByPolicy)
  }

  /** The step of a worker whose await is a database call. */
  function AfterCall(s: State, w: nat, delivery: Delivery): State
    requires w < |s.workers|
  {
    var worker := s.workers[w];
    match worker.pc
    case Checkpoint(draft) =>
      var (saved, row) := SaveDraft(s.row, worker.token, draft);
      if delivery.NotApplied? then Throws(s, w, RunFailed)
      else
        var checkpoints := if saved then s.checkpoints[worker.run := draft] else s.checkpoints;
        Goto(s.(row := row, checkpoints := checkpoints), w,
             if delivery.LostAfterApply? then Caught(RunFailed)
             else if saved then DeliveryClock(draft) else Caught(ClaimLost))
    case Renewal(draft) =>
      if worker.lost then Throws(s, w, ClaimLost)
      else if delivery.Acked? && Renew(s.row, worker.token) then
        Goto(Logged(s, w, Renewed), w, LastClock(draft))
      else Set(s, w, worker.(lost := true, pc := Caught(ClaimLost)))
    case ApproveDraft(draft) =>
      if delivery.NotApplied? || draft >= |s.drafts| || PS.ApproveDraft(s.drafts[draft].db).None? then Throws(s, w, RunFailed)
      else
        var approved := P.WithDb(s.drafts[draft], PS.ApproveDraft(s.drafts[draft].db).value);
        var known := s.(drafts := s.drafts[draft := approved]);
        if delivery.Acked? then Goto(Logged(known, w, DraftApproved), w, Publish(draft)) else Throws(known, w, RunFailed)
    case LoadDraft(draft) =>
      if !delivery.Acked? || draft >= |s.drafts| then Throws(s, w, RunFailed)
      else Goto(Logged(s, w, DraftLoaded), w, AfterLoad(draft, s.drafts[draft].db.draft.status))
    case RecordPublication(draft, messageId) =>
      var (saved, row) := SavePublication(s.row, worker.token, draft, messageId);
      if delivery.NotApplied? then Throws(s, w, RunFailed)
      else
        Goto(s.(row := row), w,
             if delivery.LostAfterApply? then Caught(RunFailed)
             else if saved then Ending(worker, PublishedStatus) else Caught(ClaimLost))
    case CallFinish(status) =>
      var (finished, row) := Finish(s.row, worker.token);
      if delivery.NotApplied? then Throws(s, w, RunFailed)
      else
        Goto(s.(row := row), w,
             if delivery.Acked? && finished then Done(Ended(status))
             else Caught(if delivery.Acked? then ClaimLost else RunFailed))
    case Caught(code) =>
      AfterCatch(s, w, if worker.lost then ClaimLost else code, delivery)
    case _ => s
  }

  /** The error path of `runScheduledNewsOnce`: pause on an unresolved publication, give up silently
      on a lost claim or an undelivered review, else finish the run as failed. */
  function AfterCatch(s: State, w: nat, code: ErrorCode, delivery: Delivery): State
    requires w < |s.workers|
  {
    var worker := s.workers[w];
    match code
    case PublicationUnresolved =>
      var (paused, row) := Pause(s.row, worker.token);
      if delivery.NotApplied? then Goto(s, w, Done(FailedWith(PauseFailed)))
      else
        Goto(s.(row := row), w,
             Done(FailedWith(if delivery.LostAfterApply? then PauseFailed
                             else if paused then PublicationUnresolved else ClaimLost)))
    case ClaimLost => Goto(s, w, Done(FailedWith(code)))
    case ReviewDeliveryFailed => Goto(s, w, Done(FailedWith(code)))
    case _ =>
      var (finished, row) := Finish(s.row, worker.token);
      if delivery.NotApplied? then Goto(s, w, Done(FailedWith(ClaimLost)))
      else Goto(s.(row := row), w, Done(FailedWith(if finished && delivery.Acked? then code else ClaimLost)))
  }

  /** A worker that finds the publisher it started in its final state. */
  function AfterWait(s: State, w: nat, message: ErrorCode): State
    requires w < |s.workers| && s.workers[w].pc.AwaitPublisher?
  {
    var worker := s.workers[w];
    var draft, pid := worker.pc.draft, worker.pc.pid;
    if draft < |s.drafts| && pid < |s.drafts[draft].procs| && s.drafts[draft].procs[pid].pc.Finished?
    then Goto(s, w, AfterPublisher(worker, draft, s.drafts[draft].procs[pid].pc.ending, message))
    else s
  }

  /** Starting the publisher is the worker's own step: the call begins without waiting for anyone. */
  function Launching(s: State, w: nat, draft: nat): State
    requires w < |s.workers|
  {
    if draft >= |s.drafts| then s
    else
      var pid := |s.drafts[draft].procs|;
      var started := P.State(s.drafts[draft].db, s.drafts[draft].posts,
                             s.drafts[draft].procs + [P.Proc(P.FindPublication, 0, 0)],
                             s.drafts[draft].clearances, s.drafts[draft].history);
      Goto(Logged(s.(drafts := s.drafts[draft := started],
                     launches := s.launches + [Launch(s.workers[w].run, draft, pid, s.drafts[draft].db.publication)]),
                  w, Launched(draft)),
           w, AwaitPublisher(draft, pid))
  }

  /** One step of worker `w`; an input that does not fit its await changes nothing. */
  function WorkerStep(s: State, w: nat, input: Input): State
    requires w < |s.workers|
  {
    var worker := s.workers[w];
    match (worker.pc, input)
    case (EarlyClock, Clock(quiet)) => Goto(Logged(s, w, ClockRead(quiet)), w, AfterClock(worker, quiet, AfterEarlyClock(worker)))
    case (CheckPending, Pending(pending)) =>
      Goto(s, w, if pending then Ending(worker, Skipped)
                 else match worker.draft case Some(draft) => DeliveryClock(draft) case None => RunNews)
    case (RunNews, NewsResult(Found(draft))) => if draft < |s.drafts| then Goto(s, w, Checkpoint(draft)) else s
    case (RunNews, NewsResult(NothingFound)) => Goto(s, w, Ending(worker, NoCandidates))
    case (RunNews, NewsResult(NewsFailed(code))) => Throws(s, w, code)
    case (DeliveryClock(draft), Clock(quiet)) =>
      Goto(Logged(s, w, ClockRead(quiet)), w, AfterClock(worker, quiet, NeedsPublication(worker, draft)))
    case (LastClock(draft), Clock(quiet)) =>
      Goto(Logged(s, w, ClockRead(quiet)), w,
           AfterClock(worker, quiet, if worker.policy.manual then DeliverReview(draft) else LoadDraft(draft)))
    case (DeliverReview(_), Delivered(unavailable)) =>
      Goto(s, w, Ending(worker, if unavailable then ReviewResolved else AwaitingApproval))
    case (DeliverReview(_), DeliveryRaised) => Throws(s, w, ReviewDeliveryFailed)
    case (Publish(draft), Call(_)) => Launching(s, w, draft)
    case (AwaitPublisher(_, _), PublisherDone(message)) => AfterWait(s, w, message)
    case (CallDefer, Clock(quiet)) =>
      var (deferred, row) := Defer(s.row, worker.token, quiet);
      Goto(s.(row := row), w, if deferred then Done(Deferred) else Caught(ClaimLost))
    case (CheckPending, Raise(code)) => Throws(s, w, code)
    case (CallDefer, Raise(code)) => Throws(s, w, code)
    case (_, Call(delivery)) => AfterCall(s, w, delivery)
    case _ => s
  }

  function Step(s: State, a: Action, canonical: string -> string): State {
    match a
    case ClaimSchedule(due, stale, acked) =>
      if !Claimable(s.row, due, stale) then s
      else
        var row := ClaimDue(s.row, s.nextToken, s.nextRun);
        var worker := Worker(s.nextToken, row.runId.value, row.snapshot.value, row.draft, row.messageId, false, EarlyClock, []);
        s.(row := row, nextToken := s.nextToken + 1, nextRun := s.nextRun + 1,
           workers := if acked then s.workers + [worker] else s.workers)
    case Advance(w, input) => if w < |s.workers| then WorkerStep(s, w, input) else s
    case Heartbeat(w, delivery) =>
      if w < |s.workers| && !(delivery.Acked? && Renew(s.row, s.workers[w].token))
      then Set(s, w, s.workers[w].(lost := true)) else s
    case Stop(w) => if w < |s.workers| && !s.workers[w].pc.Done? then Goto(s, w, Stopped) else s
    case NewDraft(body) => s.(drafts := s.drafts + [P.Initial(body)])
    case DraftStep(d, action) =>
      if d < |s.drafts| then s.(drafts := s.drafts[d := P.Step(s.drafts[d], action, canonical)]) else s
    case Reconfigure(scheduled, policy) => s.(row := s.row.(scheduled := scheduled, current := policy))
  }

  function Run(s: State, trace: seq<Action>, canonical: string -> string): State
    decreases |trace|
  {
    if trace == [] then s else Run(Step(s, trace[0], canonical), trace[1..], canonical)
  }

  predicate Disciplined(s: State, a: Action) {
    a.DraftStep? && a.draft < |s.drafts| ==> P.Disciplined(s.drafts[a.draft], a.action)
  }

  ghost predicate DisciplinedTrace(s: State, trace: seq<Action>, canonical: string -> string)
    decreases |trace|
  {
    trace == [] ||
    (Disciplined(s, trace[0]) && DisciplinedTrace(Step(s, trace[0], canonical), trace[1..], canonical))
  }
}
