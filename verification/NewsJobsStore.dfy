/** The table of `/news` jobs and the SQL functions that change it. Each function is one step, except
    the claim, which reads the table twice: it looks for a fresh job and then picks one. An advisory
    lock keeps claims apart, but nothing else; the other functions may commit between its two reads. */
module NewsJobsStore {
  import opened Wrappers

  datatype Status = Queued | Processing | OutcomeReady | Delivering | Completed | Failed

  datatype OutcomeStatus = ReviewReady | PublishedNews | NoNews | BlockedNews | FailedJob

  datatype Outcome = Outcome(status: OutcomeStatus, draftId: Option<string>, messageId: Option<int>)

  datatype Job = Job(status: Status, token: Option<nat>, claimedAt: nat, availableAt: nat,
                     executions: nat, deliveries: nat, outcome: Option<Outcome>, errorCode: Option<string>)

  /** A call that ends a claim. */
  datatype Mutation =
    | Record(outcome: Outcome)
    | Retry(code: string, terminal: bool)
    | Complete
    | RetryDelivery(code: string)

  datatype Limits = Limits(executions: nat, deliveries: nat, staleAfter: nat)

  /** History: which claim was given out for which work, and which mutation was applied under it. */
  datatype Claim = Claim(token: nat, job: nat, executes: bool)
  datatype Applied = Applied(token: nat, job: nat, mutation: Mutation)

  /** A claim between its two reads: whose it is, and the time of its transaction, which began before it
      waited for the lock. */
  datatype Pending = Pending(who: nat, at: nat)

  datatype State = State(jobs: seq<Job>, now: nat, nextToken: nat, claims: seq<Claim>, applied: seq<Applied>,
                         claiming: Option<Pending>)

  datatype Action =
    | Enqueue
    | TimePasses(until: nat)
    | CheckClaims(who: nat, at: nat)
    | PickJob(who: nat, locked: set<nat>)
    | AbortClaim(who: nat)
    | Renew(job: nat, token: nat)
    | Mutate(job: nat, token: nat, mutation: Mutation)

  /** The limits that the functions accept; they raise for any others. */
  predicate LimitsOk(limits: Limits) {
    1 <= limits.executions <= 20 && 1 <= limits.deliveries <= 50 && 30 <= limits.staleAfter <= 3600
  }

  predicate Busy(job: Job) {
    job.status.Processing? || job.status.Delivering?
  }

  predicate Fresh(job: Job, at: nat, limits: Limits) {
    Busy(job) && job.claimedAt + limits.staleAfter > at
  }

  predicate Waiting(job: Job, at: nat) {
    (job.status.Queued? || job.status.OutcomeReady?) && job.availableAt <= at
  }

  predicate Open(job: Job, at: nat, limits: Limits) {
    (Busy(job) && !Fresh(job, at, limits)) || Waiting(job, at)
  }

  /** The order in which claims are given out: abandoned work first, then by availability; jobs of
      equal rank keep the order in which they were created. */
  predicate Before(a: Job, b: Job) {
    if Busy(a) == Busy(b) then a.availableAt < b.availableAt else Busy(a)
  }

  /** The best open job among the first `n` that no other transaction has locked. */
  function PickAmong(jobs: seq<Job>, at: nat, limits: Limits, locked: set<nat>, n: nat): (r: Option<nat>)
    requires n <= |jobs|
    ensures r.Some? ==> r.value < n && r.value !in locked && Open(jobs[r.value], at, limits)
    ensures r.Some? ==> forall j :: 0 <= j < n && j !in locked && Open(jobs[j], at, limits) ==> !Before(jobs[j], jobs[r.value])
    ensures r.None? ==> forall j :: 0 <= j < n && j !in locked ==> !Open(jobs[j], at, limits)
  {
    if n == 0 then None
    else
      var best := PickAmong(jobs, at, limits, locked, n - 1);
      if n - 1 in locked || !Open(jobs[n - 1], at, limits) then best
      else if best.None? || Before(jobs[n - 1], jobs[best.value]) then Some(n - 1)
      else best
  }

  predicate SomeoneIsFresh(s: State, at: nat, limits: Limits) {
    exists j :: 0 <= j < |s.jobs| && Fresh(s.jobs[j], at, limits)
  }

  function SetJob(s: State, j: nat, job: Job): State
    requires j < |s.jobs|
  {
    s.(jobs := s.jobs[j := job])
  }

  function Unclaimed(job: Job): Job {
    job.(token := None)
  }

  /** claim_next_telegram_news_job up to its first read; with a fresh job, or while another claim holds
      the advisory lock, it goes no further. */
  function CheckClaim(s: State, who: nat, at: nat, limits: Limits): State {
    if s.claiming.Some? || at > s.now || SomeoneIsFresh(s, at, limits) then s else s.(claiming := Some(Pending(who, at)))
  }

  predicate IsClaiming(s: State, who: nat) {
    s.claiming.Some? && s.claiming.value.who == who
  }

  /** Its second read, and the claim that it gives out, if any. */
  function PickClaim(s: State, who: nat, limits: Limits, locked: set<nat>): (State, Option<Claim>) {
    if !IsClaiming(s, who) then (s, None)
    else
      var at, done := s.claiming.value.at, s.(claiming := None);
      match PickAmong(s.jobs, at, limits, locked, |s.jobs|)
      case None => (done, None)
      case Some(j) =>
        var job := s.jobs[j];
        if job.status.Processing? && job.executions + 1 >= limits.executions then
          (SetJob(done, j, Unclaimed(job).(status := OutcomeReady, executions := job.executions + 1,
             outcome := Some(Outcome(FailedJob, None, None)), errorCode := Some("stale_execution_claim"),
             availableAt := at)), None)
        else if job.status.Delivering? && job.deliveries + 1 >= limits.deliveries then
          (SetJob(done, j, Unclaimed(job).(status := Failed, deliveries := job.deliveries + 1,
             errorCode := Some("stale_delivery_claim"))), None)
        else
          var executes := job.status.Queued? || job.status.Processing?;
          var claimed := job.(status := if executes then Processing else Delivering,
                              token := Some(s.nextToken), claimedAt := at,
                              executions := job.executions + (if job.status.Processing? then 1 else 0),
                              deliveries := job.deliveries + (if job.status.Delivering? then 1 else 0));
          var claim := Claim(s.nextToken, j, executes);
          (SetJob(done, j, claimed).(nextToken := s.nextToken + 1, claims := s.claims + [claim]), Some(claim))
  }

  predicate Holds(s: State, j: nat, token: nat) {
    j < |s.jobs| && Busy(s.jobs[j]) && s.jobs[j].token == Some(token)
  }

  /** renew_telegram_news_job_claim. */
  function RenewClaim(s: State, j: nat, token: nat): (bool, State) {
    if Holds(s, j, token) then (true, SetJob(s, j, s.jobs[j].(claimedAt := s.now))) else (false, s)
  }

  /** record_telegram_news_job_outcome raises for fields that do not belong to the status. */
  predicate OutcomeFieldsOk(outcome: Outcome) {
    match outcome.status
    case NoNews => outcome.draftId.None? && outcome.messageId.None?
    case PublishedNews => outcome.draftId.Some? && outcome.messageId.Some? && outcome.messageId.value > 0
    case FailedJob => false
    case _ => outcome.draftId.Some? && outcome.messageId.None?
  }

  const MAX_SQL_INTEGER := 0x7fff_ffff

  /** The delay before attempt `n`: the power is cast to an integer before it is capped, so the
      function raises when it does not fit. */
  function BackOff(n: nat): Option<nat> {
    if Power2(n) > MAX_SQL_INTEGER then None else Some(if Power2(n) < 300 then Power2(n) else 300)
  }

  /** Which mutations a job in this state accepts. */
  predicate Accepts(status: Status, mutation: Mutation) {
    match mutation
    case Record(_) => status.Processing?
    case Retry(_, _) => status.Processing?
    case Complete => status.Delivering?
    case RetryDelivery(_) => status.Delivering?
  }

  /** The updated row; `None` when computing it raises. */
  function Mutated(job: Job, mutation: Mutation, now: nat, limits: Limits): Option<Job> {
    match mutation
    case Record(outcome) =>
      if !OutcomeFieldsOk(outcome) then None
      else Some(Unclaimed(job).(status := OutcomeReady, outcome := Some(outcome), errorCode := None, availableAt := now))
    case Retry(code, terminal) =>
      var attempt := job.executions + 1;
      var retried := Unclaimed(job).(executions := attempt, errorCode := Some(code));
      if terminal || attempt >= limits.executions then
        Some(retried.(status := OutcomeReady, outcome := Some(Outcome(FailedJob, None, None)), availableAt := now))
      else if BackOff(attempt).None? then None
      else Some(retried.(status := Queued, outcome := None, availableAt := now + BackOff(attempt).value))
    case Complete =>
      var failed := job.outcome.Some? && job.outcome.value.status.FailedJob?;
      Some(Unclaimed(job).(status := Completed, errorCode := if failed then job.errorCode else None))
    case RetryDelivery(code) =>
      var attempt := job.deliveries + 1;
      var retried := Unclaimed(job).(deliveries := attempt, errorCode := Some(code));
      if attempt >= limits.deliveries then Some(retried.(status := Failed))
      else if BackOff(attempt).None? then None
      else Some(retried.(status := OutcomeReady, availableAt := now + BackOff(attempt).value))
  }

  /** The four mutating functions: `None` when the function raises, else whether a row was updated. */
  function MutateJob(s: State, j: nat, token: nat, mutation: Mutation, limits: Limits): Option<(bool, State)> {
    if mutation.Record? && !OutcomeFieldsOk(mutation.outcome) then None
    else if !Holds(s, j, token) || !Accepts(s.jobs[j].status, mutation) then Some((false, s))
    else match Mutated(s.jobs[j], mutation, s.now, limits)
      case None => None
      case Some(job) => Some((true, SetJob(s, j, job).(applied := s.applied + [Applied(token, j, mutation)])))
  }

  function Step(s: State, a: Action, limits: Limits): State {
    match a
    case Enqueue => s.(jobs := s.jobs + [Job(Queued, None, 0, s.now, 0, 0, None, None)])
    case TimePasses(until) => if until >= s.now then s.(now := until) else s
    case CheckClaims(who, at) => CheckClaim(s, who, at, limits)
    case PickJob(who, locked) => PickClaim(s, who, limits, locked).0
    case AbortClaim(who) => if IsClaiming(s, who) then s.(claiming := None) else s
    case Renew(j, token) => RenewClaim(s, j, token).1
    case Mutate(j, token, mutation) =>
      match MutateJob(s, j, token, mutation, limits)
      case None => s
      case Some((_, s')) => s'
  }

  function Run(s: State, trace: seq<Action>, limits: Limits): State
    decreases |trace|
  {
    if trace == [] then s else Run(Step(s, trace[0], limits), trace[1..], limits)
  }

  function Initial(): State {
    State([], 0, 0, [], [], None)
  }
}
