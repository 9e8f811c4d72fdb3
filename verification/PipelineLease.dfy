/** The lease bracket of `runPipeline` and its heartbeat: the work runs only under the lease, a draft is
    generated only while the lease is not known to be lost, and the lease is given back exactly once. */
module PipelineLease {
  import opened Wrappers

  datatype Event =
    | ResearchStarted
    | DraftStarted
    | DraftFinished
    | RenewalIssued
    | RenewalSucceeded
    | LossObserved
    | Stopped
    | ReleaseIssued

  /** A renewal has been sent and not been answered. */
  function InFlight(log: seq<Event>): bool {
    log != [] && var last := log[|log| - 1];
    last.RenewalIssued? || (!last.RenewalSucceeded? && !last.LossObserved? && InFlight(log[..|log| - 1]))
  }

  /** What may follow what: renewals are single-flight and end with a loss or with the stop, drafts are
      generated and finished before any loss is known, and the release comes last. */
  predicate MayFollow(before: seq<Event>, e: Event) {
    && ReleaseIssued !in before
    && match e
       case ResearchStarted => true
       case DraftStarted => ResearchStarted in before && LossObserved !in before
       case DraftFinished => DraftStarted in before && LossObserved !in before
       case RenewalIssued => !InFlight(before) && LossObserved !in before && Stopped !in before
       case RenewalSucceeded => InFlight(before)
       case LossObserved => InFlight(before)
       case Stopped => Stopped !in before
       case ReleaseIssued => Stopped in before && !InFlight(before)
  }

  ghost predicate Orderly(log: seq<Event>) {
    forall k :: 0 <= k < |log| ==> MayFollow(log[..k], log[k])
  }

  lemma OrderlyExtends(log: seq<Event>, e: Event)
    requires Orderly(log) && MayFollow(log, e)
    ensures Orderly(log + [e]) && (log + [e])[..|log|] == log
  {
    var longer := log + [e];
    assert longer[..|log|] == log;
    forall k | 0 <= k < |longer| ensures MayFollow(longer[..k], longer[k]) {
      if k < |log| { assert longer[..k] == log[..k]; }
    }
  }

  datatype Other = TimerFires | RenewalResolves(renewed: bool)

  /** What happens at one await: the heartbeat meanwhile, and whether our own call succeeds. */
  datatype Turn = Turn(others: seq<Other>, succeeds: bool, granted: bool)

  const QUIET_TURN := Turn([], true, true)

  datatype Outcome = NotAcquired | AlreadyRunning | Completed | Threw

  function FirstTurn(turns: seq<Turn>): Turn {
    if turns == [] then QUIET_TURN else turns[0]
  }

  predicate SomeCallFails(turns: seq<Turn>) {
    exists t :: t in turns && !t.succeeds
  }

  predicate Later(turns': seq<Turn>, turns: seq<Turn>) {
    forall t :: t in turns' ==> t in turns
  }

  class PipelineRun {
    var turns: seq<Turn>
    var renewal: bool
    var lost: bool
    var stopped: bool
    ghost var log: seq<Event>

    ghost predicate Valid()
      reads this
    {
      && Orderly(log)
      && InFlight(log) == renewal
      && (LossObserved in log <==> lost)
      && (Stopped in log <==> stopped)
      && ReleaseIssued !in log
    }

    constructor (turns: seq<Turn>)
      ensures Valid() && log == [] && !renewal && !lost && !stopped
    {
      this.turns, renewal, lost, stopped, log := turns, false, false, false, [];
    }

    ghost method Note(e: Event)
      requires Orderly(log) && MayFollow(log, e)
      modifies this`log
      ensures log == old(log) + [e] && Orderly(log) && log[..|log| - 1] == old(log)
    {
      OrderlyExtends(log, e);
      log := log + [e];
    }

    /** An event of the pipeline itself, which leaves the heartbeat as it is. */
    ghost method Mark(e: Event)
      requires Valid() && MayFollow(log, e) && (e.ResearchStarted? || e.DraftStarted? || e.DraftFinished?)
      modifies this`log
      ensures Valid() && e in log
    {
      Note(e);
      assert log[|log| - 1] == e;
    }

    method NextTurn() returns (turn: Turn)
      modifies this`turns
      ensures turn == FirstTurn(old(turns)) && Later(turns, old(turns)) && (!turn.succeeds ==> SomeCallFails(old(turns)))
    {
      turn := QUIET_TURN;
      if turns != [] { turn, turns := turns[0], turns[1..]; }
    }

    /** renew(), as the timer calls it: nothing happens while one is pending or after a loss. */
    method Renew()
      requires Valid() && !stopped
      modifies this`renewal, this`log
      ensures Valid() && old(log) <= log
    {
      if renewal || lost { return; }
      Note(RenewalIssued);
      renewal := true;
    }

    method ResolveRenewal(renewed: bool)
      requires Valid() && renewal
      modifies this`renewal, this`lost, this`log
      ensures Valid() && old(log) <= log && !renewal && (old(lost) ==> lost)
    {
      Note(if renewed then RenewalSucceeded else LossObserved);
      renewal := false;
      if !renewed { lost := true; }
    }

    /** An await of one of the pipeline's own calls; whether it succeeded. */
    method Await() returns (succeeded: bool)
      requires Valid() && !stopped
      modifies this`turns, this`renewal, this`lost, this`log
      ensures Valid() && (forall e :: e in old(log) ==> e in log) && (old(lost) ==> lost)
      ensures Later(turns, old(turns)) && (!succeeded ==> SomeCallFails(old(turns)))
    {
      hide Orderly, InFlight;
      var turn := NextTurn();
      for k := 0 to |turn.others|
        invariant Valid() && (forall e :: e in old(log) ==> e in log) && (old(lost) ==> lost)
        invariant Later(turns, old(turns))
      {
        match turn.others[k] {
          case TimerFires => Renew();
          case RenewalResolves(renewed) => if renewal { ResolveRenewal(renewed); }
        }
      }
      succeeded := turn.succeeds;
    }

    method ClearTimer()
      requires Valid() && !stopped
      modifies this`stopped, this`log
      ensures Valid() && stopped && old(log) <= log
    {
      Note(Event.Stopped);
      assert log[|log| - 1] == Event.Stopped;
      stopped := true;
    }

    /** stop(): the timer is cleared and a pending renewal is waited for; throws (`false`) after a loss. */
    method Stop() returns (owned: bool)
      requires Valid() && !stopped
      modifies this`turns, this`renewal, this`lost, this`stopped, this`log
      ensures Valid() && old(log) <= log && stopped && !renewal && owned == !lost && (old(lost) ==> lost)
      ensures Later(turns, old(turns))
    {
      ClearTimer();
      if renewal {
        var turn := NextTurn();
        ResolveRenewal(turn.granted);
      }
      owned := !lost;
    }

    /** The body of the bracket: whether it reached its return statement. */
    method Work() returns (finished: bool)
      requires Valid() && !stopped && log == []
      modifies this`turns, this`renewal, this`lost, this`log
      ensures Valid()
      ensures finished ==> DraftFinished in log
      ensures Later(turns, old(turns)) && (!finished ==> lost || SomeCallFails(old(turns)))
    {
      for load := 0 to 3
        invariant Valid() && Later(turns, old(turns))
      {
        var loaded := Await();
        if !loaded { return false; }
      }
      finished := ResearchAndDraft();
    }

    method ResearchAndDraft() returns (finished: bool)
      requires Valid() && !stopped
      modifies this`turns, this`renewal, this`lost, this`log
      ensures Valid()
      ensures finished ==> DraftFinished in log
      ensures Later(turns, old(turns)) && (!finished ==> lost || SomeCallFails(old(turns)))
    {
      hide Orderly, InFlight;
      Mark(ResearchStarted);
      var researched := Await();
      if !researched || lost { return false; }
      Mark(DraftStarted);
      var drafted := Await();
      if !drafted || lost { return false; }
      Mark(DraftFinished);
      finished := true;
    }

    /** runPipeline. An acquired lease is released exactly once, at the very end, with no renewal pending
        and none to come; and the run completes only if no loss of the lease was ever observed. */
    method RunPipeline() returns (outcome: Outcome)
      requires Valid() && log == [] && !stopped
      modifies this
      ensures Orderly(log)
      ensures outcome.NotAcquired? <==> !FirstTurn(old(turns)).succeeds
      ensures outcome.AlreadyRunning? <==> FirstTurn(old(turns)).succeeds && !FirstTurn(old(turns)).granted
      ensures outcome.Threw? ==> LossObserved in log || SomeCallFails(old(turns))
      ensures outcome.NotAcquired? || outcome.AlreadyRunning? ==> log == []
      ensures outcome.Completed? || outcome.Threw? ==> log != [] && log[|log| - 1] == ReleaseIssued
      ensures outcome.Completed? ==> DraftFinished in log && LossObserved !in log
    {
      var acquisition := NextTurn();
      if !acquisition.succeeds { return NotAcquired; }
      if !acquisition.granted { return AlreadyRunning; }
      var finished := Work();
      ghost var worked := log;
      var owned := Stop();
      var release := NextTurn();
      assert forall e :: e in worked ==> e in log;
      Note(ReleaseIssued);
      outcome := if finished && owned && release.succeeds then Completed else Threw;
    }
  }
}
