/** `publishApprovedDraft` as a transition system: any number of publisher processes,
    operators and settings edits work on one draft, and every await is a separate step
    at which a process may also stop for good. */
module PublicationProtocol {
  import opened Wrappers
  import opened ExcludedTopics
  import opened PublicationStore

  /** What the Telegram call did. The last case is a message that was posted although the caller
      received a Telegram error, as an accepted request with an unreadable body produces. */
  datatype SendOutcome =
    | Accepted(messageId: nat)
    | AcceptedButLost(messageId: nat)
    | NothingPosted
    | RejectedBySend
    | RejectedAfterPosting(messageId: nat)

  datatype ReturnValue =
    | ReturnPublished(publication: Publication)
    | ReturnAlreadyPublished(publication: Publication)
    | ReturnBlocked(reason: ReasonCode)
    | ReturnAlreadyBlocked(reason: ReasonCode)

  datatype Failure =
    | CallFailed
    | SettingsUnavailable
    | PolicyBlockFailed(outcome: Outcome)
    | ClaimRefused(outcome: Outcome)
    | ContentMismatch
    | RejectedAndReleased
    | Unresolved
    | UnresolvedAfterAcceptance

  datatype Ending = Returned(value: ReturnValue) | Raised(failure: Failure)

  /** Where a publisher waits. `attempt` is the loop counter, `settings` the row it read. */
  datatype Pc =
    | FindPublication
    | FindBlock
    | LoadDraft
    | LoadSettings(attempt: nat, body: string)
    | Classify(attempt: nat, body: string, settings: Settings)
    | RecordBlock(attempt: nat, body: string, settings: Settings, classification: Classification)
    | Reload
    | FindPublicationAfterBlock
    | TakeClaim(attempt: nat, body: string, settings: Settings)
    | FindBlockAfterClaim
    | FindPublicationAfterClaim
    | Send(body: string, inForce: Settings)
    | Release
    | Finalize(messageId: nat, body: string)
    | Finished(ending: Ending)
    | Crashed

  datatype Proc = Proc(pc: Pc, classifications: nat, sends: nat)

  /** A message on the channel, with the settings row in force when its draft was claimed. */
  datatype Post = Post(messageId: nat, text: string, sender: nat, inForce: Settings)

  /** A verdict of the policy that let a text through. */
  datatype Clearance = Clearance(text: string, settings: Settings, reply: ClassifierReply)

  datatype State = State(
    db: Db,
    posts: seq<Post>,
    procs: seq<Proc>,
    clearances: set<Clearance>,
    history: map<nat, seq<string>>)

  datatype Input =
    | Call(delivery: Delivery)
    | Verdict(reply: ClassifierReply)
    | VerdictRaised
    | Telegram(outcome: SendOutcome)
    | Crash

  datatype Action =
    | Start
    | Advance(pid: nat, input: Input)
    | EditBody(body: string)
    | Revise(excluded: seq<string>)
    | Submit
    | Approve
    | Reject
    | OperatorSent(messageId: nat, text: string)
    | OperatorReset

  function Initial(body: string): State {
    State(Db(DraftRow(Status.Draft, body), None, None, None), [], [], {}, map[])
  }

  predicate Ended(pc: Pc) {
    pc.Finished? || pc.Crashed?
  }

  function WithDb(s: State, db: Db): State {
    s.(db := db)
  }

  /** Process `pid` moves to `pc`. */
  function Goto(s: State, pid: nat, pc: Pc): State
    requires pid < |s.procs|
  {
    s.(procs := s.procs[pid := s.procs[pid].(pc := pc)])
  }

  function Ends(s: State, pid: nat, ending: Ending): State
    requires pid < |s.procs|
  {
    Goto(s, pid, Finished(ending))
  }

  /** The continuation of a read, which changes nothing: `next` if it was answered, else it raised. */
  function AfterRead(delivery: Delivery, next: Pc): Pc {
    if delivery.Acked? then next else Finished(Raised(CallFailed))
  }

  function FoundPublication(db: Db, otherwise: Pc): Pc {
    if db.publication.Some? then Finished(Returned(ReturnAlreadyPublished(db.publication.value))) else otherwise
  }

  function BlockReason(db: Db): ReasonCode {
    if db.block.Some? then db.block.value.reason else TopicUncertain
  }

  function AfterClassification(s: State, pid: nat, input: Input, canonical: string -> string): State
    requires pid < |s.procs| && s.procs[pid].pc.Classify?
  {
    var pc := s.procs[pid].pc;
    var counted := s.(procs := s.procs[pid := s.procs[pid].(classifications := s.procs[pid].classifications + 1)]);
    if input.VerdictRaised? && pc.settings.excluded != [] then Ends(counted, pid, Raised(CallFailed))
    else
      var reply := if input.Verdict? then input.reply else NoClassifier;
      match FinalPolicy(pc.settings.excluded, reply, canonical)
      case Allow =>
        Goto(counted.(clearances := s.clearances + {Clearance(pc.body, pc.settings, reply)}), pid,
             TakeClaim(pc.attempt, pc.body, pc.settings))
      case Block(classification, _) =>
        Goto(counted, pid, RecordBlock(pc.attempt, pc.body, pc.settings, classification))
  }

  function AfterBlock(attempt: nat, outcome: Outcome, reason: ReasonCode): Pc {
    if outcome.StaleSettings? && attempt == 0 then Reload
    else match outcome
      case Blocked => Finished(Returned(ReturnBlocked(reason)))
      case AlreadyBlocked => Finished(Returned(ReturnAlreadyBlocked(reason)))
      case AlreadyPublished => FindPublicationAfterBlock
      case _ => Finished(Raised(PolicyBlockFailed(outcome)))
  }

  function AfterClaim(attempt: nat, body: string, outcome: Outcome, db: Db): Pc {
    if outcome.StaleSettings? && attempt == 0 then Reload
    else match outcome
      case AlreadyBlocked => FindBlockAfterClaim
      case AlreadyPublished => FindPublicationAfterClaim
      case Claimed =>
        if Sha256(db.draft.body) != Sha256(body) || db.settings.None? then Finished(Raised(ContentMismatch))
        else Send(db.draft.body, db.settings.value)
      case _ => Finished(Raised(ClaimRefused(outcome)))
  }

  function AfterSend(s: State, pid: nat, outcome: SendOutcome): State
    requires pid < |s.procs| && s.procs[pid].pc.Send?
  {
    var pc := s.procs[pid].pc;
    var counted := s.(procs := s.procs[pid := s.procs[pid].(sends := s.procs[pid].sends + 1)]);
    match outcome
    case Accepted(id) =>
      Goto(counted.(posts := s.posts + [Post(id, pc.body, pid, pc.inForce)]), pid, Finalize(id, pc.body))
    case AcceptedButLost(id) =>
      Ends(counted.(posts := s.posts + [Post(id, pc.body, pid, pc.inForce)]), pid, Raised(Unresolved))
    case NothingPosted => Ends(counted, pid, Raised(Unresolved))
    case RejectedBySend => Goto(counted, pid, Release)
    case RejectedAfterPosting(id) =>
      Goto(counted.(posts := s.posts + [Post(id, pc.body, pid, pc.inForce)]), pid, Release)
  }

  /** One database call of process `pid`. */
  function AfterCall(s: State, pid: nat, delivery: Delivery): State
    requires pid < |s.procs|
  {
    var db := s.db;
    var failed := Finished(Raised(CallFailed));
    match s.procs[pid].pc
    case FindPublication => Goto(s, pid, AfterRead(delivery, FoundPublication(db, FindBlock)))
    case FindBlock =>
      Goto(s, pid, AfterRead(delivery,
        if db.block.Some? then Finished(Returned(ReturnAlreadyBlocked(db.block.value.reason))) else LoadDraft))
    case LoadDraft => Goto(s, pid, AfterRead(delivery, LoadSettings(0, db.draft.body)))
    case LoadSettings(attempt, body) =>
      Goto(s, pid, AfterRead(delivery,
        if db.settings.None? then Finished(Raised(SettingsUnavailable))
        else Classify(attempt, body, db.settings.value)))
    case RecordBlock(attempt, body, settings, classification) =>
      var (outcome, db') := BlockDraft(db, settings.version, body, ReasonOf(classification));
      if delivery.NotApplied? then Goto(s, pid, failed)
      else Goto(WithDb(s, db'), pid, AfterRead(delivery, AfterBlock(attempt, outcome, BlockReason(db'))))
    case Reload => Goto(s, pid, AfterRead(delivery, LoadSettings(1, db.draft.body)))
    case FindPublicationAfterBlock =>
      Goto(s, pid, AfterRead(delivery, FoundPublication(db, Finished(Raised(PolicyBlockFailed(AlreadyPublished))))))
    case TakeClaim(attempt, body, settings) =>
      var (outcome, db') := ClaimWithPolicy(db, settings.version, Sha256(body));
      if delivery.NotApplied? then Goto(s, pid, failed)
      else Goto(WithDb(s, db'), pid, AfterRead(delivery, AfterClaim(attempt, body, outcome, db')))
    case FindBlockAfterClaim =>
      Goto(s, pid, AfterRead(delivery, Finished(Returned(ReturnAlreadyBlocked(BlockReason(db))))))
    case FindPublicationAfterClaim =>
      Goto(s, pid, AfterRead(delivery, FoundPublication(db, Finished(Raised(ClaimRefused(AlreadyPublished))))))
    case Release =>
      var reopened := ReopenPublication(db);
      if delivery.NotApplied? || reopened.None? then Goto(s, pid, failed)
      else Goto(WithDb(s, reopened.value), pid, AfterRead(delivery, Finished(Raised(RejectedAndReleased))))
    case Finalize(messageId, body) =>
      var finalized := FinalizePublication(db, messageId, body);
      var unresolved := Finished(Raised(UnresolvedAfterAcceptance));
      if delivery.NotApplied? || finalized.None? then Goto(s, pid, unresolved)
      else
        Goto(WithDb(s, finalized.value), pid,
             if delivery.Acked? then Finished(Returned(ReturnPublished(Publication(messageId, body)))) else unresolved)
    case _ => s
  }

  /** One step of process `pid`; an input that does not fit the await changes nothing. */
  function ProcStep(s: State, pid: nat, input: Input, canonical: string -> string): State
    requires pid < |s.procs|
  {
    var pc := s.procs[pid].pc;
    if input.Crash? then if Ended(pc) then s else Goto(s, pid, Crashed)
    else if pc.Classify? then
      if input.Verdict? || input.VerdictRaised? then AfterClassification(s, pid, input, canonical) else s
    else if pc.Send? then if input.Telegram? then AfterSend(s, pid, input.outcome) else s
    else if input.Call? then AfterCall(s, pid, input.delivery)
    else s
  }

  function Applied(s: State, db: Option<Db>): State {
    if db.Some? then WithDb(s, db.value) else s
  }

  function Step(s: State, a: Action, canonical: string -> string): State {
    match a
    case Start => s.(procs := s.procs + [Proc(FindPublication, 0, 0)])
    case Advance(pid, input) => if pid < |s.procs| then ProcStep(s, pid, input, canonical) else s
    case EditBody(body) => WithDb(s, s.db.(draft := s.db.draft.(body := body)))
    case Revise(excluded) =>
      var db := ReviseSettings(s.db, excluded);
      WithDb(s, db).(history := s.history[db.settings.value.version := excluded])
    case Submit => if s.db.draft.status.Draft? then WithDb(s, SetStatus(s.db, Review)) else s
    case Approve => Applied(s, ApproveDraft(s.db))
    case Reject => Applied(s, RejectDraft(s.db))
    case OperatorSent(id, text) => Applied(s, FinalizePublication(s.db, id, text))
    case OperatorReset => Applied(s, ReopenPublication(s.db))
  }

  function Run(s: State, trace: seq<Action>, canonical: string -> string): State
    decreases |trace|
  {
    if trace == [] then s else Run(Step(s, trace[0], canonical), trace[1..], canonical)
  }

  /** A process that has claimed the draft and not yet let go of it. */
  predicate Holds(pc: Pc) {
    pc.Send? || pc.Release? || pc.Finalize?
  }

  predicate PublisherLive(s: State) {
    exists pid :: 0 <= pid < |s.procs| && Holds(s.procs[pid].pc)
  }

  /** The protocol's assumptions about its surroundings: a Telegram error means that nothing was
      posted, and an operator reports what happened, resetting only when nobody still holds the claim. */
  predicate Disciplined(s: State, a: Action) {
    match a
    case Advance(pid, Telegram(RejectedAfterPosting(_))) => !(pid < |s.procs| && s.procs[pid].pc.Send?)
    case OperatorReset => ReopenPublication(s.db).Some? ==> s.posts == [] && !PublisherLive(s)
    case OperatorSent(id, text) => FinalizePublication(s.db, id, text).Some? ==>
        exists i :: 0 <= i < |s.posts| && s.posts[i].messageId == id
    case _ => true
  }

  ghost predicate DisciplinedTrace(s: State, trace: seq<Action>, canonical: string -> string)
    decreases |trace|
  {
    trace == [] ||
    (Disciplined(s, trace[0]) && DisciplinedTrace(Step(s, trace[0], canonical), trace[1..], canonical))
  }

  // ---- The invariant ----

  predicate Known(s: State, settings: Settings) {
    settings.version in s.history && s.history[settings.version] == settings.excluded
  }

  ghost predicate Cleared(s: State, text: string, settings: Settings) {
    exists reply :: Clearance(text, settings, reply) in s.clearances
  }

  predicate SettingsOk(s: State) {
    && (s.db.settings.None? ==> s.history == map[])
    && (s.db.settings.Some? ==>
          && Known(s, s.db.settings.value)
          && forall v :: v in s.history ==> v <= s.db.settings.value.version)
  }

  ghost predicate PcOk(s: State, pc: Pc) {
    match pc
    case LoadSettings(attempt, _) => attempt <= 1
    case Classify(attempt, _, settings) => attempt <= 1 && Known(s, settings)
    case RecordBlock(attempt, _, settings, _) => attempt <= 1 && Known(s, settings)
    case TakeClaim(attempt, body, settings) => attempt <= 1 && Known(s, settings) && Cleared(s, body, settings)
    case Send(body, inForce) =>
      s.posts == [] && s.db.draft.status.Publishing? && Known(s, inForce) && Cleared(s, body, inForce)
    case Release => s.posts == [] && s.db.draft.status.Publishing?
    case Finalize(id, body) => |s.posts| == 1 && s.posts[0].messageId == id && s.posts[0].text == body
    case _ => true
  }

  /** How many classifications and sends a process at `pc` can have behind it. */
  predicate CountsOk(proc: Proc) {
    && proc.classifications <= ClassificationsAt(proc.pc)
    && proc.sends <= (if proc.pc.Release? || proc.pc.Finalize? || Ended(proc.pc) then 1 else 0)
  }

  function ClassificationsAt(pc: Pc): nat {
    match pc
    case FindPublication => 0
    case FindBlock => 0
    case LoadDraft => 0
    case LoadSettings(attempt, _) => attempt
    case Classify(attempt, _, _) => attempt
    case Reload => 1
    case RecordBlock(attempt, _, _, _) => attempt + 1
    case TakeClaim(attempt, _, _) => attempt + 1
    case _ => 2
  }

  predicate OneHolder(s: State) {
    forall i, j :: 0 <= i < |s.procs| && 0 <= j < |s.procs| && Holds(s.procs[i].pc) && Holds(s.procs[j].pc) ==> i == j
  }

  predicate RowOk(s: State) {
    && |s.posts| <= 1
    && (s.posts != [] ==> s.db.draft.status.Publishing? || s.db.draft.status.Published?)
    && (s.db.publication.Some? <==> s.db.draft.status.Published?)
    && (s.db.publication.Some? ==> s.posts != [] && s.db.publication.value.messageId == s.posts[0].messageId)
    && (s.db.block.Some? ==> s.db.draft.status.Rejected?)
    && (s.db.draft.status.Publishing? ==> s.db.settings.Some?)
  }

  ghost predicate Inv(s: State, canonical: string -> string) {
    && RowOk(s)
    && SettingsOk(s)
    && OneHolder(s)
    && (forall i :: 0 <= i < |s.procs| ==> PcOk(s, s.procs[i].pc) && CountsOk(s.procs[i]))
    && (forall c :: c in s.clearances ==> FinalPolicy(c.settings.excluded, c.reply, canonical).Allow?)
    && (forall i :: 0 <= i < |s.posts| ==> Known(s, s.posts[i].inForce) && Cleared(s, s.posts[i].text, s.posts[i].inForce))
  }
}
