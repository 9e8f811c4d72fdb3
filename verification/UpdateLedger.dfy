/** The ledger of Telegram updates, and how an update and a handler's error are classified. */
module UpdateLedger {
  import opened CallbackText
  import opened Wrappers

  // ---- The ledger ----

  datatype Status = Processing | CompletedRow | FailedRow | Quarantined

  datatype Row = Row(status: Status, failures: nat)

  type Ledger = map<nat, Row>

  /** What record_telegram_update_failure reports. */
  datatype Report = Report(attempts: nat, terminal: bool, status: Status, recorded: bool)

  predicate Terminal(status: Status) {
    status.CompletedRow? || status.Quarantined?
  }

  predicate IsTerminal(ledger: Ledger, id: nat) {
    id in ledger && Terminal(ledger[id].status)
  }

  function Failures(ledger: Ledger, id: nat): nat {
    if id in ledger then ledger[id].failures else 0
  }

  /** record_telegram_update_failure, called without a claim token: only a new or a failed row is changed. */
  function RecordFailure(ledger: Ledger, id: nat, maxAttempts: nat, terminal: bool): (Ledger, Report) {
    if id in ledger && !ledger[id].status.FailedRow? then
      (ledger, Report(ledger[id].failures, Terminal(ledger[id].status), ledger[id].status, false))
    else
      var attempts := Failures(ledger, id) + 1;
      var status := if terminal || attempts >= maxAttempts then Quarantined else FailedRow;
      (ledger[id := Row(status, attempts)], Report(attempts, Terminal(status), status, true))
  }

  /** What handlers do to the ledger: claim an update, or finish one that they claimed. */
  datatype HandlerStep = Claim(id: nat, stale: bool) | Finish(id: nat, completed: bool)

  function HandlerEffect(ledger: Ledger, step: HandlerStep): Ledger {
    match step
    case Claim(id, stale) =>
      if id !in ledger then ledger[id := Row(Processing, 0)]
      else if ledger[id].status.FailedRow? || (ledger[id].status.Processing? && stale)
        then ledger[id := Row(Processing, ledger[id].failures)]
      else ledger
    case Finish(id, completed) =>
      if id in ledger && ledger[id].status.Processing?
        then ledger[id := Row(if completed then CompletedRow else FailedRow, ledger[id].failures)]
      else ledger
  }

  /** Terminal rows stay terminal, and failures are never forgotten. */
  ghost predicate Remembers(ledger: Ledger, ledger': Ledger) {
    forall id: nat ::
      && (IsTerminal(ledger, id) ==> IsTerminal(ledger', id))
      && Failures(ledger, id) <= Failures(ledger', id)
  }

  lemma HandlersRemember(ledger: Ledger, step: HandlerStep)
    ensures Remembers(ledger, HandlerEffect(ledger, step))
    ensures forall id: nat :: IsTerminal(HandlerEffect(ledger, step), id) <==>
      IsTerminal(ledger, id) || (step == Finish(id, true) && id in ledger && ledger[id].status.Processing?)
    ensures forall id: nat :: Failures(HandlerEffect(ledger, step), id) == Failures(ledger, id)
  {
  }

  /** A recorded failure counts, and the last one that is allowed makes the update terminal; what is not
      recorded belongs to a row that is terminal already or that a handler holds. */
  lemma FailuresAreCounted(ledger: Ledger, id: nat, maxAttempts: nat, terminal: bool)
    ensures var (ledger', report) := RecordFailure(ledger, id, maxAttempts, terminal);
            && Remembers(ledger, ledger')
            && (forall other: nat :: other != id ==> (IsTerminal(ledger', other) <==> IsTerminal(ledger, other)))
            && (report.terminal <==> IsTerminal(ledger', id))
            && (report.recorded ==> Failures(ledger', id) == Failures(ledger, id) + 1 && !IsTerminal(ledger, id))
            && (report.recorded && (terminal || Failures(ledger', id) >= maxAttempts) ==> report.terminal)
            && (!report.recorded ==> ledger' == ledger && (report.terminal || report.status.Processing?))
  {
  }

  // ---- Classification ----

  /** The body of an update; a body that is not well-formed is not usable. */
  datatype Body =
    | NoBody
    | SeveralBodies
    | CallbackQuery(usable: bool, data: Option<string>)
    | ReactionCount(usable: bool)
    | Reaction(usable: bool)
    | Message(usable: bool)

  datatype Update = Update(id: nat, body: Body)

  datatype Kind = Malformed | PublicFeedback | AdminCallback | IgnoredCallback | AggregateReaction | IgnoredReaction | TextMessage | Ignored

  /** classifyTelegramUpdate; the malformed kinds are terminal, all others go to the handler. */
  function ClassifyUpdate(update: Update): Kind {
    match update.body
    case SeveralBodies => Malformed
    case CallbackQuery(usable, data) =>
      if !usable then Malformed
      else if data.Some? && StartsWith(data.value, "aud:") then PublicFeedback
      else if data.Some? && (StartsWith(data.value, "lab:") || StartsWith(data.value, "cfg:") || StartsWith(data.value, "news:"))
        then AdminCallback
      else IgnoredCallback
    case ReactionCount(usable) => if usable then AggregateReaction else Malformed
    case Reaction(usable) => if usable then IgnoredReaction else Malformed
    case Message(usable) => if usable then TextMessage else Malformed
    case NoBody => Ignored
  }

  datatype HandlerError = HandlerError(code: Option<string>, retryable: bool)

  datatype Failure = Busy | Fails(terminal: bool)

  /** classifyUpdateError. */
  function ClassifyError(error: HandlerError): Failure {
    if error.code == Some("update_in_progress") then Busy else Fails(!error.retryable)
  }
}
