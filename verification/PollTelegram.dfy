/** `pollTelegram`: the offset passes an update only when it was handled or the ledger calls it
    terminal, whatever the handlers, the ledger and the network do. */
module PollTelegram {
  import opened Wrappers
  import opened UpdateLedger

  const MAX_BACKOFF_MS := 30_000

  /** retryDelay, for a random number in [0, 1). */
  function RetryDelay(attempt: nat, random: real): int {
    var doubled := 500 * Power2(if attempt < 6 then attempt else 6);
    (random * (if doubled < MAX_BACKOFF_MS then doubled else MAX_BACKOFF_MS) as real).Floor
  }

  lemma RetryDelayIsCapped(attempt: nat, random: real)
    requires 0.0 <= random < 1.0
    ensures 0 <= RetryDelay(attempt, random) < MAX_BACKOFF_MS
    ensures attempt == 0 ==> RetryDelay(attempt, random) < 500
  {
    var doubled := 500 * Power2(if attempt < 6 then attempt else 6);
    var ceiling := (if doubled < MAX_BACKOFF_MS then doubled else MAX_BACKOFF_MS) as real;
    Power2IsPositive(if attempt < 6 then attempt else 6);
    assert 0.0 <= random * ceiling < ceiling;
  }

  lemma Power2IsPositive(n: nat)
    ensures Power2(n) >= 1
  {
  }

  // ---- What happens around the loop ----

  datatype Poll = Batch(size: nat) | PollFailed | PollCorrupt | PollConflict | PollLeaseLost

  datatype Handling = Handled | HandlerThrew(error: HandlerError) | HandlerConflict | HandlerLeaseLost

  /** One update's turn: whether the process is told to stop before or during it, what handlers do to
      the ledger meanwhile, how its own handling ends, and what becomes of a report to the ledger. */
  datatype Turn = Turn(stopBefore: bool, steps: seq<HandlerStep>, handling: Handling, stopDuring: bool,
                       delivery: Delivery, recordLeaseLost: bool)

  /** One round of the loop; `stopAsleep` says that the process is told to stop during its back-off. */
  datatype Round = Round(arrivals: seq<Update>, poll: Poll, stopBefore: bool, stopDuring: bool, turns: seq<Turn>, stopAsleep: bool)

  const QUIET_TURN := Turn(false, [], Handled, false, Acked, false)

  datatype Outcome = Stopped | SleepAborted | ScriptEnded | LeaseLost | Conflict | ProtocolError | LedgerUnavailable

  datatype Event =
    | WasHandled(id: nat)
    | FailureRecorded(id: nat)
    | WasPassed(id: nat)
    | OffsetSet(offset: nat)
    | LedgerFailed
    | LedgerAnswered

  // ---- What the log says ----

  predicate Ascending(updates: seq<Update>) {
    forall i, j :: 0 <= i < j < |updates| ==> updates[i].id < updates[j].id
  }

  function Recordings(log: seq<Event>, id: nat): nat {
    if log == [] then 0
    else Recordings(log[..|log| - 1], id) + (if log[|log| - 1] == FailureRecorded(id) then 1 else 0)
  }

  /** Failed reports to the ledger since it last answered, or since an update was last handled. */
  function LedgerFailures(log: seq<Event>): nat {
    if log == [] then 0
    else match log[|log| - 1]
      case LedgerFailed => LedgerFailures(log[..|log| - 1]) + 1
      case LedgerAnswered => 0
      case WasHandled(_) => 0
      case _ => LedgerFailures(log[..|log| - 1])
  }

  ghost predicate OffsetsRise(log: seq<Event>) {
    forall i, j :: 0 <= i < j < |log| && log[i].OffsetSet? && log[j].OffsetSet? ==> log[i].offset <= log[j].offset
  }

  predicate Settled(log: seq<Event>, id: nat) {
    WasHandled(id) in log || WasPassed(id) in log
  }

  /** Every update below `offset` is settled. */
  ghost predicate NothingSkipped(server: seq<Update>, offset: nat, log: seq<Event>) {
    forall i :: 0 <= i < |server| && server[i].id < offset ==> Settled(log, server[i].id)
  }

  ghost predicate LogOk(server: seq<Update>, offset: nat, log: seq<Event>) {
    && NothingSkipped(server, offset, log)
    && OffsetsRise(log)
    && forall e :: e in log && e.OffsetSet? ==> e.offset <= offset
  }

  lemma LogStaysOk(server: seq<Update>, offset: nat, log: seq<Event>, e: Event)
    requires LogOk(server, offset, log) && !e.OffsetSet?
    ensures LogOk(server, offset, log + [e])
  {
  }

  /** The next update is settled, and the offset moves past it. */
  lemma LogAdvances(server: seq<Update>, offset: nat, log: seq<Event>, i: nat)
    requires Ascending(server) && LogOk(server, offset, log)
    requires i < |server| && server[i].id >= offset && Settled(log, server[i].id)
    requires forall j :: 0 <= j < i ==> server[j].id < offset
    ensures LogOk(server, server[i].id + 1, log + [OffsetSet(server[i].id + 1)])
  {
    var log' := log + [OffsetSet(server[i].id + 1)];
    forall j | 0 <= j < |server| && server[j].id < server[i].id + 1 ensures Settled(log', server[j].id) {
      if j != i {
        assert j < i;
        assert Settled(log, server[j].id);
      }
    }
  }

  function Max(a: nat, b: nat): nat {
    if a < b then b else a
  }

  /** The ledger agrees: what was passed over is terminal, failures are on record, and an update that
      is not terminal has not used up its attempts. */
  ghost predicate LedgerAgrees(ledger: Ledger, log: seq<Event>, maxAttempts: nat) {
    && (forall id: nat :: WasPassed(id) in log ==> IsTerminal(ledger, id))
    && (forall id: nat :: Recordings(log, id) <= Failures(ledger, id))
    && (forall id: nat :: Recordings(log, id) <= maxAttempts)
    && (forall id: nat :: !IsTerminal(ledger, id) ==> Recordings(log, id) < maxAttempts)
  }

  lemma LogGrows(log: seq<Event>, e: Event)
    ensures forall id :: Recordings(log + [e], id) == Recordings(log, id) + (if e == FailureRecorded(id) then 1 else 0)
    ensures LedgerFailures(log + [e]) ==
      if e.LedgerFailed? then LedgerFailures(log) + 1
      else if e.LedgerAnswered? || e.WasHandled? then 0
      else LedgerFailures(log)
  {
    assert (log + [e])[..|log|] == log;
  }

  lemma HandlersKeepAgreement(ledger: Ledger, step: HandlerStep, log: seq<Event>, maxAttempts: nat)
    requires LedgerAgrees(ledger, log, maxAttempts)
    ensures LedgerAgrees(HandlerEffect(ledger, step), log, maxAttempts)
  {
    HandlersRemember(ledger, step);
    hide HandlerEffect;
  }

  /** A report that was applied, whether or not its answer came back. */
  lemma ReportKeepsAgreement(ledger: Ledger, id: nat, maxAttempts: nat, terminal: bool, log: seq<Event>)
    requires LedgerAgrees(ledger, log, maxAttempts)
    ensures var (ledger', report) := RecordFailure(ledger, id, maxAttempts, terminal);
            LedgerAgrees(ledger', if report.recorded then log + [FailureRecorded(id)] else log, maxAttempts)
  {
    FailuresAreCounted(ledger, id, maxAttempts, terminal);
    LogGrows(log, FailureRecorded(id));
    hide RecordFailure;
  }

  lemma OtherEventsKeepAgreement(ledger: Ledger, log: seq<Event>, e: Event, maxAttempts: nat)
    requires LedgerAgrees(ledger, log, maxAttempts) && !e.FailureRecorded?
    requires e.WasPassed? ==> IsTerminal(ledger, e.id)
    ensures LedgerAgrees(ledger, log + [e], maxAttempts)
  {
    LogGrows(log, e);
  }

  // ---- How an update's turn ends ----

  /** How the loop over a batch, or over the batches, continues. */
  datatype Next = GoOn | RetryBatch | StopLoop | Throw(outcome: Outcome)

  function AfterHandlers(ledger: Ledger, steps: seq<HandlerStep>): Ledger {
    if steps == [] then ledger
    else HandlerEffect(AfterHandlers(ledger, steps[..|steps| - 1]), steps[|steps| - 1])
  }

  function AfterReport(ledger: Ledger, id: nat, maxAttempts: nat, terminal: bool, delivery: Delivery): Ledger {
    if delivery.NotApplied? then ledger else RecordFailure(ledger, id, maxAttempts, terminal).0
  }

  /** The handler's failure is reported to the ledger; a malformed update counts as one. */
  predicate IsReported(update: Update, turn: Turn) {
    ClassifyUpdate(update).Malformed?
    || (turn.handling.HandlerThrew? && !turn.stopDuring && !ClassifyError(turn.handling.error).Busy?)
  }

  predicate IsFinal(update: Update, turn: Turn) {
    ClassifyUpdate(update).Malformed? || (turn.handling.HandlerThrew? && ClassifyError(turn.handling.error) == Fails(true))
  }

  /** After a report, with `failures` reports lost before it: the offset moves on exactly when the answer
      came back and the update is terminal. */
  function ReportNext(turn: Turn, settled: bool, failures: nat, maxFailures: nat): Next {
    if turn.recordLeaseLost then Throw(LeaseLost)
    else if turn.delivery.Acked? then (if settled then GoOn else RetryBatch)
    else if turn.stopDuring then StopLoop
    else if failures + 1 >= maxFailures then Throw(LedgerUnavailable)
    else RetryBatch
  }

  function HandlingNext(turn: Turn): Next {
    match turn.handling
    case Handled => GoOn
    case HandlerConflict => Throw(Conflict)
    case HandlerLeaseLost => Throw(LeaseLost)
    case HandlerThrew(_) => if turn.stopDuring then StopLoop else RetryBatch
  }

  /** What in a round can end the loop this way. */
  predicate Ends(round: Round, outcome: Outcome) {
    match outcome
    case Stopped => round.stopBefore || round.stopDuring || exists t :: t in round.turns && (t.stopBefore || t.stopDuring)
    case SleepAborted => round.stopAsleep
    case LeaseLost => round.poll.PollLeaseLost? || exists t :: t in round.turns && (t.handling.HandlerLeaseLost? || t.recordLeaseLost)
    case Conflict => round.poll.PollConflict? || exists t :: t in round.turns && t.handling.HandlerConflict?
    case ProtocolError => round.poll.PollCorrupt?
    case LedgerUnavailable => exists t :: t in round.turns && !t.delivery.Acked?
    case ScriptEnded => false
  }

  function TurnOf(round: Round, k: nat): Turn {
    if k < |round.turns| then round.turns[k] else QUIET_TURN
  }

  /** A turn that ends the loop is one of the round's own. */
  lemma TurnEnds(round: Round, k: nat, settled: bool, failures: nat, maxFailures: nat)
    ensures var turn := TurnOf(round, k);
      && (turn.stopBefore ==> Ends(round, Stopped))
      && forall next :: next == HandlingNext(turn) || next == ReportNext(turn, settled, failures, maxFailures) ==>
           (next.StopLoop? ==> Ends(round, Stopped)) && (next.Throw? ==> Ends(round, next.outcome))
  {
    if k < |round.turns| { assert round.turns[k] in round.turns; }
  }

  // ---- What a round does to the update that is first in turn ----

  /** The round gets as far as its first update. */
  predicate Serves(round: Round) {
    round.poll.Batch? && round.poll.size >= 1 && !TurnOf(round, 0).stopBefore
  }

  /** Its handling ends well. */
  predicate Handles(round: Round, update: Update) {
    Serves(round) && !ClassifyUpdate(update).Malformed? && TurnOf(round, 0).handling.Handled?
  }

  /** Its failure is reported. */
  predicate Reports(round: Round, update: Update) {
    Serves(round) && IsReported(update, TurnOf(round, 0))
  }

  /** Its failure is reported, and the answer comes back. */
  predicate Answers(round: Round, update: Update) {
    Reports(round, update) && TurnOf(round, 0).delivery.Acked? && !TurnOf(round, 0).recordLeaseLost
  }

  /** The ledger once handlers have run, which they do unless the update is malformed. */
  function AfterHandling(ledger: Ledger, round: Round, update: Update): Ledger {
    if ClassifyUpdate(update).Malformed? then ledger else AfterHandlers(ledger, TurnOf(round, 0).steps)
  }

  function AfterRound(ledger: Ledger, round: Round, update: Update, maxAttempts: nat): Ledger {
    var turn, handled := TurnOf(round, 0), AfterHandling(ledger, round, update);
    if !Serves(round) then ledger
    else if IsReported(update, turn) then AfterReport(handled, update.id, maxAttempts, IsFinal(update, turn), turn.delivery)
    else handled
  }

  predicate PassedIn(ledger: Ledger, round: Round, update: Update, maxAttempts: nat) {
    Handles(round, update) || (Answers(round, update) && IsTerminal(AfterRound(ledger, round, update, maxAttempts), update.id))
  }

  /** The offset and the ledger after a round that begins with this update in turn. */
  predicate FirstServed(ledger: Ledger, round: Round, update: Update, maxAttempts: nat, offset: nat, offset': nat, ledger': Ledger) {
    if PassedIn(ledger, round, update, maxAttempts) then offset' > update.id
    else offset' == offset && ledger' == AfterRound(ledger, round, update, maxAttempts)
  }

  /** The ledger after rounds in which the update stays in turn. */
  function Waited(ledger: Ledger, rounds: seq<Round>, update: Update, maxAttempts: nat): Ledger {
    if rounds == [] then ledger
    else AfterRound(Waited(ledger, rounds[..|rounds| - 1], update, maxAttempts), rounds[|rounds| - 1], update, maxAttempts)
  }

  /** One of these rounds passes the update, which stays in turn until then. */
  ghost predicate Passes(ledger: Ledger, rounds: seq<Round>, update: Update, maxAttempts: nat) {
    exists j :: 0 <= j < |rounds| && PassedIn(Waited(ledger, rounds[..j], update, maxAttempts), rounds[j], update, maxAttempts)
  }

  lemma PassesLater(ledger: Ledger, rounds: seq<Round>, update: Update, maxAttempts: nat)
    requires rounds != []
    ensures var earlier, last := rounds[..|rounds| - 1], rounds[|rounds| - 1];
      Passes(ledger, rounds, update, maxAttempts) <==>
        Passes(ledger, earlier, update, maxAttempts) || PassedIn(Waited(ledger, earlier, update, maxAttempts), last, update, maxAttempts)
  {
    hide PassedIn, Waited;
    var earlier := rounds[..|rounds| - 1];
    assert forall j :: 0 <= j < |earlier| ==> earlier[..j] == rounds[..j] && earlier[j] == rounds[j];
  }

  // ---- Which rounds count ----

  predicate IsHeld(ledger: Ledger, id: nat) {
    id in ledger && ledger[id].status.Processing?
  }

  /** The failure is put on record: the report is applied and finds the row new or failed. */
  predicate Counts(ledger: Ledger, round: Round, update: Update) {
    var handled := AfterHandling(ledger, round, update);
    Reports(round, update) && !TurnOf(round, 0).delivery.NotApplied? && !IsHeld(handled, update.id) && !IsTerminal(handled, update.id)
  }

  function Counted(ledger: Ledger, rounds: seq<Round>, update: Update, maxAttempts: nat): nat {
    if rounds == [] then 0
    else
      var earlier := rounds[..|rounds| - 1];
      Counted(ledger, earlier, update, maxAttempts)
      + (if Counts(Waited(ledger, earlier, update, maxAttempts), rounds[|rounds| - 1], update) then 1 else 0)
  }

  /** The update becomes terminal at once: a handler completes it, or a final failure is put on record. */
  predicate Closes(ledger: Ledger, round: Round, update: Update) {
    && Serves(round)
    && (|| (!IsTerminal(ledger, update.id) && IsTerminal(AfterHandling(ledger, round, update), update.id))
        || (Counts(ledger, round, update) && IsFinal(update, TurnOf(round, 0))))
  }

  ghost predicate Closed(ledger: Ledger, rounds: seq<Round>, update: Update, maxAttempts: nat) {
    exists j :: 0 <= j < |rounds| && Closes(Waited(ledger, rounds[..j], update, maxAttempts), rounds[j], update)
  }

  /** The failures on record, of which the last is one of these rounds', have used up the attempts. */
  predicate UsedUp(ledger: Ledger, rounds: seq<Round>, update: Update, maxAttempts: nat) {
    var counted := Counted(ledger, rounds, update, maxAttempts);
    counted > 0 && Failures(ledger, update.id) + counted >= maxAttempts
  }

  lemma ClosedLater(ledger: Ledger, rounds: seq<Round>, update: Update, maxAttempts: nat)
    requires rounds != []
    ensures var earlier, last := rounds[..|rounds| - 1], rounds[|rounds| - 1];
      Closed(ledger, rounds, update, maxAttempts) <==>
        Closed(ledger, earlier, update, maxAttempts) || Closes(Waited(ledger, earlier, update, maxAttempts), last, update)
  {
    hide Closes, Waited;
    var earlier := rounds[..|rounds| - 1];
    assert forall j :: 0 <= j < |earlier| ==> earlier[..j] == rounds[..j] && earlier[j] == rounds[j];
  }

  lemma {:induction false} HandlersKeepFailures(ledger: Ledger, steps: seq<HandlerStep>, id: nat)
    ensures Failures(AfterHandlers(ledger, steps), id) == Failures(ledger, id)
    ensures IsTerminal(ledger, id) ==> IsTerminal(AfterHandlers(ledger, steps), id)
  {
    if steps != [] {
      HandlersKeepFailures(ledger, steps[..|steps| - 1], id);
      HandlersRemember(AfterHandlers(ledger, steps[..|steps| - 1]), steps[|steps| - 1]);
      hide HandlerEffect;
    }
  }

  lemma RoundCounts(ledger: Ledger, round: Round, update: Update, maxAttempts: nat)
    ensures var after := AfterRound(ledger, round, update, maxAttempts);
      && Failures(after, update.id) == Failures(ledger, update.id) + (if Counts(ledger, round, update) then 1 else 0)
      && (IsTerminal(after, update.id) <==>
            || IsTerminal(ledger, update.id) || Closes(ledger, round, update)
            || (Counts(ledger, round, update) && Failures(ledger, update.id) + 1 >= maxAttempts))
  {
    HandlersKeepFailures(ledger, TurnOf(round, 0).steps, update.id);
    hide AfterHandlers, TurnOf, IsFinal, IsReported, ClassifyUpdate;
  }

  /** Failures are those on record and one for each round that counts; and what makes the update terminal is
      a round that closes it, or the round that counts last. */
  lemma {:induction false} TerminalExactly(ledger: Ledger, rounds: seq<Round>, update: Update, maxAttempts: nat)
    ensures var after := Waited(ledger, rounds, update, maxAttempts);
      && Failures(after, update.id) == Failures(ledger, update.id) + Counted(ledger, rounds, update, maxAttempts)
      && (IsTerminal(after, update.id) <==>
            || IsTerminal(ledger, update.id) || Closed(ledger, rounds, update, maxAttempts)
            || UsedUp(ledger, rounds, update, maxAttempts))
  {
    if rounds != [] {
      var earlier, last := rounds[..|rounds| - 1], rounds[|rounds| - 1];
      TerminalExactly(ledger, earlier, update, maxAttempts);
      RoundCounts(Waited(ledger, earlier, update, maxAttempts), last, update, maxAttempts);
      ClosedLater(ledger, rounds, update, maxAttempts);
      hide AfterRound, Counts, Closes, Closed, IsTerminal, Failures;
    }
  }

  /** Round `j` passes the update, told by what has happened to it since it came in turn. */
  ghost predicate Settles(ledger: Ledger, rounds: seq<Round>, j: nat, update: Update, maxAttempts: nat)
    requires j < |rounds|
  {
    || Handles(rounds[j], update)
    || (Answers(rounds[j], update) &&
         (|| IsTerminal(ledger, update.id) || Closed(ledger, rounds[..j + 1], update, maxAttempts)
          || UsedUp(ledger, rounds[..j + 1], update, maxAttempts)))
  }

  lemma PassesExactly(ledger: Ledger, rounds: seq<Round>, update: Update, maxAttempts: nat)
    ensures Passes(ledger, rounds, update, maxAttempts) <==>
      exists j :: 0 <= j < |rounds| && Settles(ledger, rounds, j, update, maxAttempts)
  {
    forall j | 0 <= j < |rounds|
      ensures PassedIn(Waited(ledger, rounds[..j], update, maxAttempts), rounds[j], update, maxAttempts) <==>
              Settles(ledger, rounds, j, update, maxAttempts)
    {
      assert rounds[..j + 1][..j] == rounds[..j];
      TerminalExactly(ledger, rounds[..j + 1], update, maxAttempts);
      hide AfterRound, Closed, UsedUp, IsTerminal, Failures, Counted, Answers, Handles;
    }
    hide PassedIn, Settles, Waited;
  }

  /** How many rounds have a failure reported and answered that finds no handler holding the row. */
  function FreeFailures(ledger: Ledger, rounds: seq<Round>, update: Update, maxAttempts: nat): nat {
    if rounds == [] then 0
    else
      var earlier, last := rounds[..|rounds| - 1], rounds[|rounds| - 1];
      FreeFailures(ledger, earlier, update, maxAttempts)
      + (if Answers(last, update) && !IsHeld(AfterHandling(Waited(ledger, earlier, update, maxAttempts), last, update), update.id)
         then 1 else 0)
  }

  lemma FreeFailureCounts(ledger: Ledger, round: Round, update: Update, maxAttempts: nat)
    requires Answers(round, update) && !IsHeld(AfterHandling(ledger, round, update), update.id)
    ensures PassedIn(ledger, round, update, maxAttempts) || Counts(ledger, round, update)
  {
    hide AfterHandling, IsReported, TurnOf, IsFinal;
  }

  /** Until the update is passed, each of these rounds counts. */
  lemma {:induction false} FreeFailuresPass(ledger: Ledger, rounds: seq<Round>, update: Update, maxAttempts: nat)
    requires maxAttempts >= 1
    ensures Passes(ledger, rounds, update, maxAttempts)
      || (FreeFailures(ledger, rounds, update, maxAttempts) < maxAttempts
          && FreeFailures(ledger, rounds, update, maxAttempts) <= Counted(ledger, rounds, update, maxAttempts))
  {
    if rounds != [] {
      var earlier, last := rounds[..|rounds| - 1], rounds[|rounds| - 1];
      var waited := Waited(ledger, earlier, update, maxAttempts);
      FreeFailuresPass(ledger, earlier, update, maxAttempts);
      PassesLater(ledger, rounds, update, maxAttempts);
      TerminalExactly(ledger, rounds, update, maxAttempts);
      if Answers(last, update) && !IsHeld(AfterHandling(waited, last, update), update.id) {
        FreeFailureCounts(waited, last, update, maxAttempts);
      }
      hide Passes, Counts, Closed, IsTerminal, Failures, AfterRound, Answers, Handles, AfterHandling, IsHeld;
    }
  }

  /** In this round the update is not handled, and if it is served at all, a handler holds its row. */
  predicate Holds(ledger: Ledger, round: Round, update: Update) {
    Serves(round) ==> !Handles(round, update) && IsHeld(AfterHandling(ledger, round, update), update.id)
  }

  lemma HeldIsNotPassed(ledger: Ledger, round: Round, update: Update, maxAttempts: nat)
    requires Holds(ledger, round, update)
    ensures !PassedIn(ledger, round, update, maxAttempts) && !Counts(ledger, round, update)
  {
    hide AfterHandling, IsReported, TurnOf, IsFinal;
  }

  lemma {:induction false} HeldRoundsPassNothing(ledger: Ledger, rounds: seq<Round>, update: Update, maxAttempts: nat)
    requires forall j :: 0 <= j < |rounds| ==> Holds(Waited(ledger, rounds[..j], update, maxAttempts), rounds[j], update)
    ensures !Passes(ledger, rounds, update, maxAttempts) && Counted(ledger, rounds, update, maxAttempts) == 0
  {
    if rounds != [] {
      var earlier, last := rounds[..|rounds| - 1], rounds[|rounds| - 1];
      assert forall j :: 0 <= j < |earlier| ==> earlier[..j] == rounds[..j] && earlier[j] == rounds[j];
      HeldRoundsPassNothing(ledger, earlier, update, maxAttempts);
      HeldIsNotPassed(Waited(ledger, earlier, update, maxAttempts), last, update, maxAttempts);
      PassesLater(ledger, rounds, update, maxAttempts);
      hide Passes, Holds, PassedIn, Counts, Waited;
    }
  }

  function Pending(server: seq<Update>, offset: nat): (r: nat)
    ensures r <= |server|
  {
    if server == [] then 0
    else Pending(server[..|server| - 1], offset) + (if server[|server| - 1].id >= offset then 1 else 0)
  }

  /** The first update that is not below the offset. */
  function NextUpdate(server: seq<Update>, offset: nat): Update
    requires Pending(server, offset) > 0
  {
    server[|server| - Pending(server, offset)]
  }

  // ---- Runs ----

  /** The server's queue, the offset and the ledger between two rounds. */
  datatype Cursor = Cursor(server: seq<Update>, offset: nat, ledger: Ledger)

  /** The server only ever hands out larger identifiers. */
  function Arrived(server: seq<Update>, updates: seq<Update>): seq<Update> {
    if updates == [] then server
    else
      var earlier, last := Arrived(server, updates[..|updates| - 1]), updates[|updates| - 1];
      if earlier == [] || earlier[|earlier| - 1].id < last.id then earlier + [last] else earlier
  }

  /** The update that a round serves first, if it serves any. */
  predicate InTurn(c: Cursor, round: Round, update: Update) {
    var server := Arrived(c.server, round.arrivals);
    Pending(server, c.offset) > 0 && NextUpdate(server, c.offset) == update
  }

  ghost predicate RoundMoves(c: Cursor, round: Round, c': Cursor, maxAttempts: nat) {
    && c'.server == Arrived(c.server, round.arrivals) && c.server <= c'.server && Ascending(c'.server)
    && c'.offset >= c.offset
    && forall update :: InTurn(c, round, update) ==>
         FirstServed(c.ledger, round, update, maxAttempts, c.offset, c'.offset, c'.ledger)
  }

  /** The cursor before and after each round that was begun. */
  ghost predicate IsRun(cursors: seq<Cursor>, rounds: seq<Round>, maxAttempts: nat) {
    && 1 <= |cursors| <= |rounds| + 1
    && forall k :: 0 <= k < |cursors| - 1 ==> RoundMoves(cursors[k], rounds[k], cursors[k + 1], maxAttempts)
  }

  lemma {:induction false} CursorsGrow(cursors: seq<Cursor>, rounds: seq<Round>, k: nat, n: nat, maxAttempts: nat)
    requires IsRun(cursors, rounds, maxAttempts) && k <= n < |cursors|
    ensures cursors[k].server <= cursors[n].server && cursors[k].offset <= cursors[n].offset
    decreases n
  {
    if k < n {
      CursorsGrow(cursors, rounds, k, n - 1, maxAttempts);
      assert RoundMoves(cursors[n - 1], rounds[n - 1], cursors[n], maxAttempts);
    }
  }

  /** As long as the offset stays, so does the update that is in turn. */
  lemma StaysInTurn(cursors: seq<Cursor>, rounds: seq<Round>, k: nat, n: nat, update: Update, maxAttempts: nat)
    requires IsRun(cursors, rounds, maxAttempts) && k <= n < |cursors| - 1
    requires InTurn(cursors[k], rounds[k], update) && cursors[n].offset == cursors[k].offset
    ensures InTurn(cursors[n], rounds[n], update)
  {
    assert RoundMoves(cursors[k], rounds[k], cursors[k + 1], maxAttempts);
    assert RoundMoves(cursors[n], rounds[n], cursors[n + 1], maxAttempts);
    CursorsGrow(cursors, rounds, k + 1, n + 1, maxAttempts);
    var i := SomethingIsPending(cursors[k + 1].server, cursors[k].offset);
    ArrivalsComeLast(cursors[k + 1].server, cursors[n + 1].server, cursors[k].offset, i);
    PendingFrom(cursors[k + 1].server, cursors[k].offset, i);
    hide Pending, Arrived, RoundMoves;
  }

  lemma InTurnIsPending(c: Cursor, round: Round, update: Update)
    requires InTurn(c, round, update) && Ascending(Arrived(c.server, round.arrivals))
    ensures update.id >= c.offset
  {
    var server := Arrived(c.server, round.arrivals);
    var i := SomethingIsPending(server, c.offset);
    PendingFrom(server, c.offset, i);
  }

  lemma OneMoreRound(ledger: Ledger, rounds: seq<Round>, update: Update, maxAttempts: nat, offset: nat, c: Cursor, c': Cursor)
    requires rounds != [] && offset <= update.id
    requires var earlier := rounds[..|rounds| - 1];
      && (c.offset > update.id <==> Passes(ledger, earlier, update, maxAttempts))
      && (c.offset <= update.id ==> c.offset == offset && c.ledger == Waited(ledger, earlier, update, maxAttempts))
    requires if c.offset > update.id then c'.offset >= c.offset
             else FirstServed(c.ledger, rounds[|rounds| - 1], update, maxAttempts, c.offset, c'.offset, c'.ledger)
    ensures c'.offset > update.id <==> Passes(ledger, rounds, update, maxAttempts)
    ensures c'.offset <= update.id ==> c'.offset == offset && c'.ledger == Waited(ledger, rounds, update, maxAttempts)
  {
    PassesLater(ledger, rounds, update, maxAttempts);
    hide Passes, PassedIn, AfterRound;
  }

  /** From any round in which an update is in turn, wherever that is in the run: it is passed when one of
      the rounds since then passes it, and until then the offset stays. */
  lemma {:induction false} PassedWhenSettled(cursors: seq<Cursor>, rounds: seq<Round>, k: nat, n: nat, update: Update, maxAttempts: nat)
    requires IsRun(cursors, rounds, maxAttempts) && k <= n < |cursors| && k < |cursors| - 1
    requires InTurn(cursors[k], rounds[k], update)
    ensures cursors[n].offset > update.id <==> Passes(cursors[k].ledger, rounds[k..n], update, maxAttempts)
    ensures cursors[n].offset <= update.id ==>
      cursors[n].offset == cursors[k].offset && cursors[n].ledger == Waited(cursors[k].ledger, rounds[k..n], update, maxAttempts)
    decreases n
  {
    hide PassedIn, AfterRound, Arrived, Ascending, InTurn, FirstServed;
    assert RoundMoves(cursors[k], rounds[k], cursors[k + 1], maxAttempts);
    InTurnIsPending(cursors[k], rounds[k], update);
    if k < n {
      hide Passes, Waited;
      PassedWhenSettled(cursors, rounds, k, n - 1, update, maxAttempts);
      assert RoundMoves(cursors[n - 1], rounds[n - 1], cursors[n], maxAttempts);
      assert rounds[k..n][..n - 1 - k] == rounds[k..n - 1] && rounds[k..n][n - 1 - k] == rounds[n - 1];
      if cursors[n - 1].offset <= update.id { StaysInTurn(cursors, rounds, k, n - 1, update, maxAttempts); }
      OneMoreRound(cursors[k].ledger, rounds[k..n], update, maxAttempts, cursors[k].offset, cursors[n - 1], cursors[n]);
    }
  }

  /** The exact condition, from any round `k` in which the update is in turn, with failed polls, busy rounds
      and lost answers among the rounds since then: the offset is past it if and only if in one of them it
      was handled, or a report of its failure was answered when the update was terminal already, had been
      closed at once, or had used up its attempts. */
  lemma UpdateIsPassedExactly(cursors: seq<Cursor>, rounds: seq<Round>, k: nat, n: nat, update: Update, maxAttempts: nat)
    requires IsRun(cursors, rounds, maxAttempts) && k < n < |cursors| && InTurn(cursors[k], rounds[k], update)
    ensures cursors[n].offset > update.id <==>
      exists j :: 0 <= j < n - k && Settles(cursors[k].ledger, rounds[k..n], j, update, maxAttempts)
  {
    PassedWhenSettled(cursors, rounds, k, n, update, maxAttempts);
    PassesExactly(cursors[k].ledger, rounds[k..n], update, maxAttempts);
    hide Passes, Settles, InTurn, IsRun;
  }

  /** So an update that keeps failing is passed at the latest with its `maxAttempts`-th failure that is
      reported, answered, and finds its row free. */
  lemma FailingUpdateIsPassed(cursors: seq<Cursor>, rounds: seq<Round>, k: nat, n: nat, update: Update, maxAttempts: nat)
    requires IsRun(cursors, rounds, maxAttempts) && k < n < |cursors| && InTurn(cursors[k], rounds[k], update)
    requires FreeFailures(cursors[k].ledger, rounds[k..n], update, maxAttempts) >= maxAttempts >= 1
    ensures cursors[n].offset > update.id
  {
    PassedWhenSettled(cursors, rounds, k, n, update, maxAttempts);
    FreeFailuresPass(cursors[k].ledger, rounds[k..n], update, maxAttempts);
    hide Passes, InTurn, IsRun, FreeFailures;
  }

  /** And it is retried forever, and its failures are not counted, while a handler holds its row whenever it
      is served, whether its own handler finds it busy or fails. */
  lemma HeldUpdateIsRetriedForever(cursors: seq<Cursor>, rounds: seq<Round>, k: nat, n: nat, update: Update, maxAttempts: nat)
    requires IsRun(cursors, rounds, maxAttempts) && k < n < |cursors| && InTurn(cursors[k], rounds[k], update)
    requires forall j :: 0 <= j < n - k ==>
      Holds(Waited(cursors[k].ledger, rounds[k..n][..j], update, maxAttempts), rounds[k..n][j], update)
    ensures cursors[n].offset == cursors[k].offset && Failures(cursors[n].ledger, update.id) == Failures(cursors[k].ledger, update.id)
  {
    HeldRoundsPassNothing(cursors[k].ledger, rounds[k..n], update, maxAttempts);
    PassedWhenSettled(cursors, rounds, k, n, update, maxAttempts);
    TerminalExactly(cursors[k].ledger, rounds[k..n], update, maxAttempts);
    hide Passes, InTurn, IsRun, Holds, Waited, Counted, Failures;
  }

  // ---- Rounds that hold an update ----

  const BUSY := HandlerError(Some("update_in_progress"), true)
  const FAILURE := HandlerError(None, true)

  /** A round in which a handler takes over a stale claim of the update and does not finish; the update's own
      handler finds it busy or fails. */
  function HeldRound(update: Update, busy: bool): Round {
    Round([update], Batch(1), false, false,
          [Turn(false, [Claim(update.id, true)], HandlerThrew(if busy then BUSY else FAILURE), false, Acked, false)], false)
  }

  function HeldRounds(update: Update, busy: seq<bool>): seq<Round> {
    seq(|busy|, k requires 0 <= k < |busy| => HeldRound(update, busy[k]))
  }

  lemma HeldRoundHolds(ledger: Ledger, update: Update, busy: bool, maxAttempts: nat)
    requires !ClassifyUpdate(update).Malformed? && !IsTerminal(ledger, update.id)
    ensures Holds(ledger, HeldRound(update, busy), update)
    ensures !IsTerminal(AfterRound(ledger, HeldRound(update, busy), update, maxAttempts), update.id)
    ensures forall outcome :: !Ends(HeldRound(update, busy), outcome)
  {
    var round := HeldRound(update, busy);
    assert TurnOf(round, 0).steps == [Claim(update.id, true)];
    OneHandler(ledger, Claim(update.id, true));
    hide ClassifyUpdate, AfterHandlers;
  }

  lemma OneHandler(ledger: Ledger, step: HandlerStep)
    ensures AfterHandlers(ledger, [step]) == HandlerEffect(ledger, step)
  {
    assert [step][..0] == [];
    assert AfterHandlers(ledger, []) == ledger;
  }

  lemma {:induction false} HeldIsNotTerminal(ledger: Ledger, update: Update, busy: seq<bool>, maxAttempts: nat)
    requires !ClassifyUpdate(update).Malformed? && !IsTerminal(ledger, update.id)
    ensures !IsTerminal(Waited(ledger, HeldRounds(update, busy), update, maxAttempts), update.id)
  {
    if busy != [] {
      var earlier, last := busy[..|busy| - 1], busy[|busy| - 1];
      HeldIsNotTerminal(ledger, update, earlier, maxAttempts);
      assert HeldRounds(update, busy)[..|busy| - 1] == HeldRounds(update, earlier);
      HeldRoundHolds(Waited(ledger, HeldRounds(update, earlier), update, maxAttempts), update, last, maxAttempts);
      hide Holds, AfterRound, IsTerminal, HeldRound;
    }
  }

  lemma HeldRoundsHold(ledger: Ledger, update: Update, busy: seq<bool>, j: nat, maxAttempts: nat)
    requires !ClassifyUpdate(update).Malformed? && !IsTerminal(ledger, update.id) && j < |busy|
    ensures Holds(Waited(ledger, HeldRounds(update, busy)[..j], update, maxAttempts), HeldRounds(update, busy)[j], update)
  {
    hide Holds, AfterRound, IsTerminal, HeldRound, Waited;
    HeldIsNotTerminal(ledger, update, busy[..j], maxAttempts);
    assert HeldRounds(update, busy)[..j] == HeldRounds(update, busy[..j]);
    HeldRoundHolds(Waited(ledger, HeldRounds(update, busy[..j]), update, maxAttempts), update, busy[j], maxAttempts);
  }

  /** Such rounds occur: nothing in them ends the loop, and a poller that starts with them, with any number of
      them and any mixture of busy ones and failures, is still where it started. */
  lemma HeldForever(cursors: seq<Cursor>, update: Update, busy: seq<bool>, n: nat, maxAttempts: nat)
    requires !ClassifyUpdate(update).Malformed?
    requires IsRun(cursors, HeldRounds(update, busy), maxAttempts) && cursors[0] == Cursor([], 0, map[]) && n < |cursors|
    ensures cursors[n].offset == 0 && Failures(cursors[n].ledger, update.id) == 0
    ensures forall k, outcome :: 0 <= k < |busy| ==> !Ends(HeldRounds(update, busy)[k], outcome)
  {
    hide Holds, InTurn, Ends, HeldRound, RoundMoves, Waited, IsTerminal;
    var rounds := HeldRounds(update, busy);
    forall k | 0 <= k < |busy| ensures forall outcome :: !Ends(rounds[k], outcome) {
      NothingIsTerminal(update.id);
      HeldRoundHolds(map[], update, busy[k], maxAttempts);
    }
    if n > 0 {
      NothingIsTerminal(update.id);
      FirstArrival(update, busy[0]);
      forall j | 0 <= j < n ensures Holds(Waited(map[], rounds[0..n][..j], update, maxAttempts), rounds[0..n][j], update) {
        assert rounds[0..n][..j] == rounds[..j];
        HeldRoundsHold(map[], update, busy, j, maxAttempts);
      }
      HeldUpdateIsRetriedForever(cursors, rounds, 0, n, update, maxAttempts);
    }
  }

  lemma NothingIsTerminal(id: nat)
    ensures !IsTerminal(map[], id)
  {
  }

  lemma FirstArrival(update: Update, busy: bool)
    ensures InTurn(Cursor([], 0, map[]), HeldRound(update, busy), update)
  {
    assert [update][..0] == [];
    assert Arrived([], []) == [];
    assert Arrived([], [update]) == [update];
    assert Pending([], 0) == 0;
  }

  lemma UnservedIsNotPassed(ledger: Ledger, round: Round, update: Update, maxAttempts: nat)
    requires !Serves(round)
    ensures !PassedIn(ledger, round, update, maxAttempts) && AfterRound(ledger, round, update, maxAttempts) == ledger
  {
  }

  /** What one turn says, told for the first turn of a round. */
  lemma FirstTurn(before: Ledger, after: Ledger, round: Round, update: Update, maxAttempts: nat, failures: nat, most: nat, next: Next)
    requires Serves(round)
    requires var turn, handled := TurnOf(round, 0), AfterHandling(before, round, update);
      if IsReported(update, turn) then
        && after == AfterReport(handled, update.id, maxAttempts, IsFinal(update, turn), turn.delivery)
        && next == ReportNext(turn, IsTerminal(after, update.id), failures, most)
      else after == handled && next == HandlingNext(turn)
    ensures after == AfterRound(before, round, update, maxAttempts)
    ensures next.GoOn? <==> PassedIn(before, round, update, maxAttempts)
  {
    hide AfterHandling, AfterReport, IsTerminal, IsFinal, TurnOf;
  }

  lemma InOrder(server: seq<Update>, i: nat)
    requires Ascending(server)
    ensures i + 1 < |server| ==> server[i].id < server[i + 1].id
  {
  }

  /** Arrivals come after what is pending. */
  lemma {:induction false} ArrivalsComeLast(server: seq<Update>, server': seq<Update>, offset: nat, i: nat)
    requires Ascending(server') && server <= server' && i < |server| && server[i].id >= offset
    requires forall j :: 0 <= j < i ==> server[j].id < offset
    ensures Pending(server, offset) > 0 && Pending(server', offset) > 0
    ensures NextUpdate(server, offset) == NextUpdate(server', offset) == server[i]
  {
    PendingFrom(server, offset, i);
    PendingFrom(server', offset, i);
  }

  lemma {:induction false} SomethingIsPending(server: seq<Update>, offset: nat) returns (i: nat)
    requires Ascending(server) && Pending(server, offset) > 0
    ensures i < |server| && server[i].id >= offset && forall j :: 0 <= j < i ==> server[j].id < offset
  {
    i := 0;
    while i < |server| && server[i].id < offset
      invariant i <= |server| && forall j :: 0 <= j < i ==> server[j].id < offset
    {
      i := i + 1;
    }
    PendingFrom(server, offset, i);
  }

  lemma {:induction false} PendingFrom(server: seq<Update>, offset: nat, i: nat)
    requires Ascending(server) && i <= |server|
    requires forall j :: 0 <= j < i ==> server[j].id < offset
    requires i < |server| ==> server[i].id >= offset
    ensures Pending(server, offset) == |server| - i
    decreases |server|
  {
    if server != [] {
      PendingFrom(server[..|server| - 1], offset, if i < |server| then i else i - 1);
    }
  }

  class Poller {
    var offset: nat
    var pollAttempt: nat
    var failureLedgerAttempt: nat
    var ledger: Ledger
    var server: seq<Update>
    const maxUpdateAttempts: nat
    const maxLedgerAttempts: nat
    ghost var log: seq<Event>
    ghost var polls: nat

    /** What holds between any two awaits. */
    ghost predicate Valid()
      reads this
    {
      && 1 <= maxUpdateAttempts <= 20 && maxLedgerAttempts >= 1
      && Ascending(server)
      && (offset > 0 ==> exists i :: 0 <= i < |server| && server[i].id + 1 == offset)
      && LogOk(server, offset, log)
      && LedgerAgrees(ledger, log, maxUpdateAttempts)
      && failureLedgerAttempt == LedgerFailures(log) <= maxLedgerAttempts
    }

    constructor (ledger: Ledger, maxUpdateAttempts: nat, maxLedgerAttempts: nat)
      requires 1 <= maxUpdateAttempts <= 20 && maxLedgerAttempts >= 1
      ensures Valid() && log == [] && polls == 0 && failureLedgerAttempt < maxLedgerAttempts
      ensures Now() == Cursor([], 0, ledger) && this.maxUpdateAttempts == maxUpdateAttempts
    {
      offset, pollAttempt, failureLedgerAttempt := 0, 0, 0;
      this.ledger, server, log, polls := ledger, [], [], 0;
      this.maxUpdateAttempts, this.maxLedgerAttempts := maxUpdateAttempts, maxLedgerAttempts;
    }

    ghost function Now(): Cursor
      reads this
    {
      Cursor(server, offset, ledger)
    }

    method Arrive(updates: seq<Update>)
      requires Valid()
      modifies this`server
      ensures Valid() && old(server) <= server == Arrived(old(server), updates)
    {
      for k := 0 to |updates|
        invariant Valid() && old(server) <= server == Arrived(old(server), updates[..k])
      {
        assert updates[..k + 1][..k] == updates[..k];
        if server == [] || server[|server| - 1].id < updates[k].id { AddUpdate(updates[k]); }
      }
      assert updates[..|updates|] == updates;
    }

    method AddUpdate(update: Update)
      requires Valid() && (server == [] || server[|server| - 1].id < update.id)
      modifies this`server
      ensures Valid() && server == old(server) + [update]
    {
      ghost var before := server;
      server := server + [update];
      assert offset > 0 ==> exists i :: 0 <= i < |before| && before[i].id + 1 == offset;
      if offset > 0 {
        ghost var i :| 0 <= i < |before| && before[i].id + 1 == offset;
        assert server[i].id + 1 == offset && before[i].id <= before[|before| - 1].id;
      }
    }

    /** Where getUpdates starts: the first update that is not below the offset. */
    method FirstPending() returns (first: nat)
      requires Valid()
      ensures first <= |server|
      ensures forall i :: 0 <= i < first ==> server[i].id < offset
      ensures first < |server| ==> server[first].id >= offset
    {
      first := 0;
      while first < |server| && server[first].id < offset
        invariant first <= |server|
        invariant forall i :: 0 <= i < first ==> server[i].id < offset
      {
        first := first + 1;
      }
    }

    method RunHandlers(steps: seq<HandlerStep>)
      requires Valid()
      modifies this`ledger
      ensures Valid() && ledger == AfterHandlers(old(ledger), steps)
    {
      for k := 0 to |steps|
        invariant Valid() && ledger == AfterHandlers(old(ledger), steps[..k])
      {
        assert steps[..k + 1][..k] == steps[..k];
        HandlersKeepAgreement(ledger, steps[k], log, maxUpdateAttempts);
        ledger := HandlerEffect(ledger, steps[k]);
      }
      assert steps[..|steps|] == steps;
    }

    /** Everything but the ledger counter is as it should be. */
    ghost predicate Noted()
      reads this
    {
      && 1 <= maxUpdateAttempts <= 20 && maxLedgerAttempts >= 1 && Ascending(server)
      && (offset > 0 ==> exists i :: 0 <= i < |server| && server[i].id + 1 == offset)
      && LogOk(server, offset, log) && LedgerAgrees(ledger, log, maxUpdateAttempts)
    }

    ghost method Note(e: Event)
      requires Noted() && !e.FailureRecorded? && !e.OffsetSet?
      requires e.WasPassed? ==> IsTerminal(ledger, e.id)
      modifies this`log
      ensures log == old(log) + [e] && Noted()
      ensures LedgerFailures(log) ==
        if e.LedgerFailed? then LedgerFailures(old(log)) + 1
        else if e.LedgerAnswered? || e.WasHandled? then 0
        else LedgerFailures(old(log))
    {
      OtherEventsKeepAgreement(ledger, log, e, maxUpdateAttempts);
      LogGrows(log, e);
      LogStaysOk(server, offset, log, e);
      hide LogOk, LedgerAgrees;
      log := log + [e];
    }

    /** offset = max(offset, id + 1), for an update that has just been settled. */
    method Advance(i: nat)
      requires Noted() && IsNext(i) && Settled(log, server[i].id)
      modifies this`offset, this`log
      ensures Noted() && offset == server[i].id + 1 && LedgerFailures(log) == LedgerFailures(old(log))
    {
      ghost var e := OffsetSet(server[i].id + 1);
      LogAdvances(server, offset, log, i);
      OtherEventsKeepAgreement(ledger, log, e, maxUpdateAttempts);
      LogGrows(log, e);
      hide LogOk, LedgerAgrees;
      offset := Max(offset, server[i].id + 1);
      log := log + [e];
    }

    /** Update `i` is the first one that is not below the offset. */
    predicate IsNext(i: nat)
      reads this
    {
      && i < |server| && server[i].id >= offset
      && forall j :: 0 <= j < i ==> server[j].id < offset
    }

    /** The update was handled. */
    method PassHandled(i: nat)
      requires Valid() && IsNext(i)
      modifies this`offset, this`log, this`failureLedgerAttempt
      ensures Valid() && offset == server[i].id + 1 && failureLedgerAttempt == 0
    {
      failureLedgerAttempt := 0;
      Note(WasHandled(server[i].id));
      assert log[|log| - 1] == WasHandled(server[i].id);
      Advance(i);
    }

    /** recordTelegramUpdateFailure: the report, or that the call raised. */
    method Report(id: nat, terminal: bool, delivery: Delivery) returns (r: Option<UpdateLedger.Report>)
      requires Valid()
      modifies this`ledger, this`log
      ensures Valid() && LedgerFailures(log) == LedgerFailures(old(log))
      ensures ledger == AfterReport(old(ledger), id, maxUpdateAttempts, terminal, delivery)
      ensures r.Some? == delivery.Acked?
      ensures r.Some? ==> (r.value.terminal <==> IsTerminal(ledger, id))
      ensures r.Some? && !r.value.recorded && r.value.status.Processing? ==> !r.value.terminal
    {
      if delivery.NotApplied? { return None; }
      var (ledger', report) := RecordFailure(ledger, id, maxUpdateAttempts, terminal);
      FailuresAreCounted(ledger, id, maxUpdateAttempts, terminal);
      ReportKeepsAgreement(ledger, id, maxUpdateAttempts, terminal, log);
      LogGrows(log, FailureRecorded(id));
      LogStaysOk(server, offset, log, FailureRecorded(id));
      hide RecordFailure, LogOk, LedgerAgrees, Remembers;
      ledger := ledger';
      if report.recorded { log := log + [FailureRecorded(id)]; }
      r := if delivery.Acked? then Some(report) else None;
    }

    /** The failure of update `i` goes to the ledger, which decides whether the offset moves on. */
    method RecordAndDecide(i: nat, terminal: bool, turn: Turn) returns (next: Next)
      requires Valid() && IsNext(i) && failureLedgerAttempt < maxLedgerAttempts
      modifies this`ledger, this`log, this`offset, this`failureLedgerAttempt
      ensures Valid() && offset == (if next.GoOn? then server[i].id + 1 else old(offset))
      ensures ledger == AfterReport(old(ledger), server[i].id, maxUpdateAttempts, terminal, turn.delivery)
      ensures next == ReportNext(turn, IsTerminal(ledger, server[i].id), old(failureLedgerAttempt), maxLedgerAttempts)
      ensures if next == Throw(LedgerUnavailable) then failureLedgerAttempt == maxLedgerAttempts
              else failureLedgerAttempt < maxLedgerAttempts
    {
      var id := server[i].id;
      var recorded := Report(id, terminal, turn.delivery);
      if turn.recordLeaseLost { return Throw(LeaseLost); }
      if recorded.None? {
        if turn.stopDuring { return StopLoop; }
        failureLedgerAttempt := failureLedgerAttempt + 1;
        Note(LedgerFailed);
        return if failureLedgerAttempt >= maxLedgerAttempts then Throw(LedgerUnavailable) else RetryBatch;
      }
      failureLedgerAttempt := 0;
      Note(LedgerAnswered);
      if !recorded.value.recorded && recorded.value.status.Processing? { return RetryBatch; }
      if !recorded.value.terminal { return RetryBatch; }
      PassTerminal(i);
      next := GoOn;
    }

    method PassTerminal(i: nat)
      requires Valid() && IsNext(i) && IsTerminal(ledger, server[i].id)
      modifies this`log, this`offset
      ensures Valid() && offset == server[i].id + 1
    {
      Note(WasPassed(server[i].id));
      assert log[|log| - 1] == WasPassed(server[i].id);
      Advance(i);
    }

    /** One update of a batch. */
    method ProcessUpdate(i: nat, turn: Turn) returns (next: Next)
      requires Valid() && IsNext(i) && failureLedgerAttempt < maxLedgerAttempts
      modifies this
      ensures Valid() && server == old(server) && pollAttempt == old(pollAttempt) && polls == old(polls)
      ensures offset == if next.GoOn? then server[i].id + 1 else old(offset)
      ensures var handled := if ClassifyUpdate(server[i]).Malformed? then old(ledger) else AfterHandlers(old(ledger), turn.steps);
        if IsReported(server[i], turn) then
          && ledger == AfterReport(handled, server[i].id, maxUpdateAttempts, IsFinal(server[i], turn), turn.delivery)
          && next == ReportNext(turn, IsTerminal(ledger, server[i].id), old(failureLedgerAttempt), maxLedgerAttempts)
        else ledger == handled && next == HandlingNext(turn)
      ensures if next == Throw(LedgerUnavailable) then failureLedgerAttempt == maxLedgerAttempts
              else failureLedgerAttempt < maxLedgerAttempts
    {
      var terminal := true;
      if !ClassifyUpdate(server[i]).Malformed? {
        RunHandlers(turn.steps);
        match turn.handling {
          case HandlerConflict => return Throw(Conflict);
          case HandlerLeaseLost => return Throw(LeaseLost);
          case Handled =>
            PassHandled(i);
            return GoOn;
          case HandlerThrew(error) =>
            if turn.stopDuring { return StopLoop; }
            var failure := ClassifyError(error);
            if failure.Busy? { return RetryBatch; }
            terminal := failure.terminal;
        }
      }
      next := RecordAndDecide(i, terminal, turn);
    }

    /** One call of getUpdates and the updates it returns. */
    method PollOnce(round: Round) returns (next: Next)
      requires Valid() && failureLedgerAttempt < maxLedgerAttempts
      modifies this
      ensures Valid() && old(server) <= server && polls == old(polls) + 1
      ensures match round.poll
        case PollLeaseLost => next == Throw(LeaseLost)
        case PollConflict => next == Throw(Conflict)
        case PollCorrupt => next == Throw(ProtocolError)
        case PollFailed =>
          && (next == if round.stopDuring then StopLoop else GoOn)
          && pollAttempt == old(pollAttempt) + if round.stopDuring then 0 else 1
        case Batch(size) =>
          && pollAttempt == 0
          && var before := Pending(server, old(offset));
             next.GoOn? ==> Pending(server, offset) == if size < before then before - size else 0
      ensures !round.poll.Batch? ==> offset == old(offset) && ledger == old(ledger) && log == old(log)
      ensures offset >= old(offset)
      ensures RoundMoves(old(Now()), round, Now(), maxUpdateAttempts)
      ensures next.StopLoop? ==> Ends(round, Stopped)
      ensures next.Throw? ==> Ends(round, next.outcome)
      ensures if next == Throw(LedgerUnavailable) then failureLedgerAttempt == maxLedgerAttempts
              else failureLedgerAttempt < maxLedgerAttempts
    {
      hide Pending, NextUpdate, LogOk, LedgerAgrees, Arrived;
      polls := polls + 1;
      Arrive(round.arrivals);
      match round.poll {
        case PollLeaseLost => next := Throw(LeaseLost);
        case PollConflict => next := Throw(Conflict);
        case PollCorrupt => next := Throw(ProtocolError);
        case PollFailed =>
          if !round.stopDuring { pollAttempt := pollAttempt + 1; }
          next := if round.stopDuring then StopLoop else GoOn;
        case Batch(size) =>
          pollAttempt := 0;
          next := ServeBatch(round, size);
      }
    }

    /** The updates of one batch: they are the first ones that are pending. */
    method ServeBatch(round: Round, size: nat) returns (next: Next)
      requires round.poll == Batch(size)
      requires Valid() && failureLedgerAttempt < maxLedgerAttempts
      modifies this
      ensures Valid() && server == old(server) && pollAttempt == old(pollAttempt) && polls == old(polls)
      ensures next.GoOn? ==>
        var before := Pending(server, old(offset)); Pending(server, offset) == if size < before then before - size else 0
      ensures offset >= old(offset)
      ensures Pending(server, old(offset)) > 0 ==>
        FirstServed(old(ledger), round, NextUpdate(server, old(offset)), maxUpdateAttempts, old(offset), offset, ledger)
      ensures next.StopLoop? ==> Ends(round, Stopped)
      ensures next.Throw? ==> Ends(round, next.outcome)
      ensures if next == Throw(LedgerUnavailable) then failureLedgerAttempt == maxLedgerAttempts
              else failureLedgerAttempt < maxLedgerAttempts
    {
      hide Ends, ReportNext, HandlingNext, TurnOf, Pending, LogOk, LedgerAgrees, AfterReport, AfterHandlers, ClassifyUpdate,
        PassedIn, AfterRound, IsReported, IsFinal, RecordFailure, IsTerminal, LedgerFailures, Ascending;
      var i := FirstPending();
      var end := if i + size < |server| then i + size else |server|;
      PendingFrom(server, offset, i);
      var served := 0;
      ghost var first := i;
      if size == 0 && first < |server| { UnservedIsNotPassed(ledger, round, server[first], maxUpdateAttempts); }
      while i < end
        invariant Valid() && server == old(server) && i <= end <= |server|
        invariant polls == old(polls) && pollAttempt == old(pollAttempt)
        invariant i < |server| ==> server[i].id >= offset
        invariant forall j :: 0 <= j < i ==> server[j].id < offset
        invariant failureLedgerAttempt < maxLedgerAttempts
        invariant first <= i && offset >= old(offset) && (i == first <==> served == 0)
        invariant i == first ==> offset == old(offset) && ledger == old(ledger)
        invariant i > first ==>
          first < |server| && PassedIn(old(ledger), round, server[first], maxUpdateAttempts) && offset > server[first].id
        decreases end - i
      {
        next := ServeNext(round, i, served);
        if !next.GoOn? { return; }
        InOrder(server, i);
        i, served := i + 1, served + 1;
      }
      PendingFrom(server, offset, i);
      next := GoOn;
    }

    /** Update `i` with turn `served` of the round. */
    method ServeNext(round: Round, i: nat, served: nat) returns (next: Next)
      requires Valid() && IsNext(i) && failureLedgerAttempt < maxLedgerAttempts
      modifies this
      ensures Valid() && server == old(server) && pollAttempt == old(pollAttempt) && polls == old(polls)
      ensures offset == if next.GoOn? then server[i].id + 1 else old(offset)
      ensures next.StopLoop? ==> Ends(round, Stopped)
      ensures next.Throw? ==> Ends(round, next.outcome)
      ensures served == 0 && round.poll.Batch? && round.poll.size >= 1 ==>
        && (next.GoOn? <==> PassedIn(old(ledger), round, server[i], maxUpdateAttempts))
        && (!next.GoOn? ==> ledger == AfterRound(old(ledger), round, server[i], maxUpdateAttempts))
      ensures if next == Throw(LedgerUnavailable) then failureLedgerAttempt == maxLedgerAttempts
              else failureLedgerAttempt < maxLedgerAttempts
    {
      hide Ends, ReportNext, HandlingNext, TurnOf, Pending, LogOk, LedgerAgrees, AfterReport, AfterHandlers, ClassifyUpdate,
        PassedIn, AfterRound, IsReported, IsFinal, RecordFailure, IsTerminal;
      var turn := TurnOf(round, served);
      TurnEnds(round, served, false, failureLedgerAttempt, maxLedgerAttempts);
      TurnEnds(round, served, true, failureLedgerAttempt, maxLedgerAttempts);
      if turn.stopBefore {
        if served == 0 { UnservedIsNotPassed(ledger, round, server[i], maxUpdateAttempts); }
        return StopLoop;
      }
      next := ProcessUpdate(i, turn);
      if served == 0 && round.poll.Batch? && round.poll.size >= 1 {
        FirstTurn(old(ledger), ledger, round, server[i], maxUpdateAttempts, old(failureLedgerAttempt), maxLedgerAttempts, next);
      }
    }
  }

  /** pollTelegram. However it ends, no update below the offset was skipped, the offset never went
      back, no update was reported more often than its attempts allow, and the loop gave up on the
      ledger only after the allowed number of consecutive failures. Its rounds make a run. */
  method PollTelegram(poller: Poller, rounds: seq<Round>) returns (outcome: Outcome, ghost cursors: seq<Cursor>)
    requires poller.Valid() && poller.failureLedgerAttempt < poller.maxLedgerAttempts
    modifies poller
    ensures poller.Valid() && NothingSkipped(poller.server, poller.offset, poller.log)
    ensures OffsetsRise(poller.log)
    ensures LedgerAgrees(poller.ledger, poller.log, poller.maxUpdateAttempts)
    ensures IsRun(cursors, rounds, poller.maxUpdateAttempts)
    ensures cursors[0] == old(poller.Now()) && cursors[|cursors| - 1] == poller.Now()
    ensures poller.polls == old(poller.polls) + |cursors| - 1
    ensures outcome.ScriptEnded? ==> |cursors| == |rounds| + 1
    ensures !outcome.ScriptEnded? ==> exists k :: |cursors| - 2 <= k < |cursors| && 0 <= k < |rounds| && Ends(rounds[k], outcome)
    ensures outcome.LedgerUnavailable? ==> LedgerFailures(poller.log) == poller.maxLedgerAttempts
    ensures !outcome.LedgerUnavailable? ==> LedgerFailures(poller.log) < poller.maxLedgerAttempts
  {
    cursors := [poller.Now()];
    for k := 0 to |rounds|
      invariant poller.Valid() && poller.failureLedgerAttempt < poller.maxLedgerAttempts
      invariant poller.polls == old(poller.polls) + k && |cursors| == k + 1
      invariant IsRun(cursors, rounds, poller.maxUpdateAttempts)
      invariant cursors[0] == old(poller.Now()) && cursors[k] == poller.Now()
    {
      hide RoundMoves, NothingSkipped, OffsetsRise, LedgerAgrees;
      if rounds[k].stopBefore { return Stopped, cursors; }
      var next := poller.PollOnce(rounds[k]);
      cursors := cursors + [poller.Now()];
      var asleep := next.RetryBatch? || (next.GoOn? && rounds[k].poll.PollFailed?);
      // A sleep that is aborted throws as well.
      if next.Throw? { return next.outcome, cursors; }
      if next.StopLoop? { return Stopped, cursors; }
      if asleep && rounds[k].stopAsleep { return SleepAborted, cursors; }
    }
    outcome := ScriptEnded;
  }

  /** A poller whose first update is held: after any number of rounds it has not passed it. */
  method RetryHeldUpdate(update: Update, busy: seq<bool>, maxAttempts: nat, maxLedgerAttempts: nat)
    returns (outcome: Outcome, offset: nat, ghost polls: nat)
    requires !ClassifyUpdate(update).Malformed? && 1 <= maxAttempts <= 20 && maxLedgerAttempts >= 1
    ensures outcome == ScriptEnded && offset == 0 && polls == |busy|
  {
    var poller := new Poller(map[], maxAttempts, maxLedgerAttempts);
    ghost var cursors;
    outcome, cursors := PollTelegram(poller, HeldRounds(update, busy));
    HeldForever(cursors, update, busy, |cursors| - 1, maxAttempts);
    hide Ends, HeldRound, IsRun;
    offset, polls := poller.offset, poller.polls;
  }
}
