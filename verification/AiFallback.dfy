/** The AI fallback engine: providers in order, each with its own deadline window and attempt budget,
    against a world that decides how every call settles and how long everything takes. */
module AiFallback {
  import opened Wrappers
  import opened ProviderErrors

  datatype ProviderName = Exa | OpenAi | Gemini

  datatype Provider = Provider(name: ProviderName, supports: bool)

  datatype Options = Options(attempts: nat, baseDelayMs: nat, maxDelayMs: nat, jitterRatio: real, providerDeadlineMs: nat)

  /** What normalizeFallbackRetryOptions guarantees. */
  predicate OptionsOk(o: Options) {
    o.attempts >= 1 && 0.0 <= o.jitterRatio <= 0.5
  }

  /** deadlineForProvider. */
  function Window(provider: Provider, curation: bool, o: Options): nat {
    if curation && provider.name.OpenAi? then 120_000
    else if curation && provider.name.Gemini? then 60_000
    else o.providerDeadlineMs
  }

  const TIMEOUT_ERROR := ProviderError(Some("timeout"), "timeout", None, false, "TimeoutError", "timeout", None, false)

  // ---- Back-off ----

  /** retryDelayMs, for a random number in [0, 1). */
  function RetryDelay(attempt: nat, o: Options, random: real): (delay: int)
    requires attempt >= 1
  {
    var raw := o.baseDelayMs * Power2(attempt - 1);
    var base := (if raw < o.maxDelayMs then raw else o.maxDelayMs) as real;
    var span := base * o.jitterRatio;
    var jittered := base - span + 2.0 * span * random;
    (if jittered < 1.0 then 1.0 else jittered).Floor
  }

  /** A delay is at least one millisecond and, the jitter included, at most half again the maximum. */
  lemma RetryDelayIsBounded(attempt: nat, o: Options, random: real)
    requires attempt >= 1 && OptionsOk(o) && 0.0 <= random < 1.0
    ensures 1 <= RetryDelay(attempt, o, random)
    ensures RetryDelay(attempt, o, random) == 1 || RetryDelay(attempt, o, random) as real <= o.maxDelayMs as real * (1.0 + o.jitterRatio)
  {
    var raw := o.baseDelayMs * Power2(attempt - 1);
    var base := (if raw < o.maxDelayMs then raw else o.maxDelayMs) as real;
    var span := base * o.jitterRatio;
    JitterIsBounded(base, o.maxDelayMs as real, o.jitterRatio, span, random);
  }

  lemma JitterIsBounded(base: real, most: real, ratio: real, span: real, random: real)
    requires 0.0 <= base <= most && 0.0 <= ratio && span == base * ratio && 0.0 <= random < 1.0
    ensures base - span + 2.0 * span * random <= most * (1.0 + ratio)
  {
    TimesIsMonotone(0.0, base, ratio);
    SpanIsBounded(base, span, random);
    TimesIsMonotone(base, most, 1.0 + ratio);
    calc {
      base - span + 2.0 * span * random;
    <= base + span;
    == base * (1.0 + ratio);
    <= most * (1.0 + ratio);
    }
  }

  lemma SpanIsBounded(base: real, span: real, random: real)
    requires 0.0 <= span && 0.0 <= random < 1.0
    ensures base - span + 2.0 * span * random <= base + span
  {
    TimesIsMonotone(random, 1.0, span);
    assert 2.0 * span * random == 2.0 * (random * span);
  }

  lemma TimesIsMonotone(a: real, b: real, x: real)
    requires 0.0 <= x && a <= b
    ensures a * x <= b * x
  {
  }

  // ---- What happens during one visit to a provider ----

  /** How a call settles, if it does. */
  datatype Settles<V> = Resolves(value: V) | Rejects(error: ProviderError) | Hangs

  /** What the world does during one attempt: how long the ledger writes and the call take, how late
      the timers fire, and which random number the back-off draws. */
  datatype Turn<V> = Turn(startWrite: nat, settles: Settles<V>, callTime: nat, lateness: nat,
                          endWrite: nat, random: real, sleepLateness: nat)

  /** The turns come from a script; past its end every call hangs. */
  function TurnAt<V>(script: seq<Turn<V>>, i: nat): Turn<V> {
    if i < |script| then script[i] else Turn(0, Hangs, 0, 0, 0, 0.0, 0)
  }

  function Rest<V>(script: seq<Turn<V>>, n: nat): seq<Turn<V>> {
    if n < |script| then script[n..] else []
  }

  /** One attempt: `calledAt` is None when the window had closed before the call was made, and `fired`
      says that the deadline aborted the provider's controller. */
  datatype Attempt<V> = Attempt(number: nat, turn: Turn<V>, began: nat, calledAt: Option<nat>, fired: bool,
                                ended: nat, outcome: Result<V, ProviderError>)

  datatype Reason = Answered | Quota | NotTransient | BudgetSpent | DeadlineReached

  datatype Visit<V> = Visit(provider: Provider, start: nat, deadline: nat, attempts: seq<Attempt<V>>, closed: nat, reason: Reason)

  predicate ExaQuota(provider: Provider, error: ProviderError) {
    provider.name.Exa? && Classify(error).QuotaExhausted?
  }

  /** An attempt after which the same provider may be tried again. */
  predicate Retryable<V>(provider: Provider, a: Attempt<V>) {
    a.outcome.Failure? && IsTransient(a.outcome.error) && !ExaQuota(provider, a.outcome.error) && !a.fired
  }

  /** The call is made just when the window is still open after the ledger write; it wins the race or
      the deadline fires, and only then does the attempt fail with a timeout. */
  ghost predicate AttemptOk<V>(a: Attempt<V>, start: nat, deadline: nat) {
    var asked := a.began + a.turn.startWrite;
    && start <= a.began
    && a.calledAt == (if asked < deadline then Some(asked) else None)
    && (a.fired <==> asked >= deadline || a.turn.settles.Hangs? || asked + a.turn.callTime > deadline + a.turn.lateness)
    && a.outcome == (if a.fired then Failure(TIMEOUT_ERROR) else OutcomeOf(a.turn.settles))
    && a.ended == a.turn.endWrite + (if asked >= deadline then asked
                                     else if a.fired then deadline + a.turn.lateness
                                     else asked + a.turn.callTime)
  }

  function OutcomeOf<V>(settles: Settles<V>): Result<V, ProviderError>
    requires !settles.Hangs?
  {
    match settles case Resolves(value) => Success(value) case Rejects(error) => Failure(error)
  }

  ghost predicate AttemptsOk<V>(provider: Provider, start: nat, deadline: nat, attempts: seq<Attempt<V>>) {
    && (forall i :: 0 <= i < |attempts| ==> AttemptOk(attempts[i], start, deadline))
    && (forall i :: 0 <= i < |attempts| - 1 ==> Retryable(provider, attempts[i]))
  }

  /** The back-off after the given attempt: never past the deadline, but for the timer's lateness. */
  function Pause<V>(a: Attempt<V>, attempt: nat, deadline: nat, o: Options): nat
    requires attempt >= 1
  {
    Min(RetryDelay(attempt, o, a.turn.random), if deadline > a.ended then deadline - a.ended else 0) + a.turn.sleepLateness
  }

  /** When the next attempt of the visit would begin. */
  function NextStart<V>(attempts: seq<Attempt<V>>, start: nat, deadline: nat, o: Options): nat {
    if attempts == [] then start
    else attempts[|attempts| - 1].ended + Pause(attempts[|attempts| - 1], |attempts|, deadline, o)
  }

  /** Each attempt begins after the back-off of the one before. */
  ghost predicate Spaced<V>(attempts: seq<Attempt<V>>, start: nat, deadline: nat, o: Options) {
    attempts == []
    || var earlier, last := attempts[..|attempts| - 1], attempts[|attempts| - 1];
       last.began == NextStart(earlier, start, deadline, o) < deadline && Spaced(earlier, start, deadline, o)
  }

  ghost predicate Scripted<V>(attempts: seq<Attempt<V>>, script: seq<Turn<V>>) {
    forall i :: 0 <= i < |attempts| ==> attempts[i].turn == TurnAt(script, i)
  }

  /** Attempt numbers run from `first` on without gaps. */
  predicate Numbered<V>(attempts: seq<Attempt<V>>, first: nat) {
    forall i :: 0 <= i < |attempts| ==> attempts[i].number == first + i
  }

  /** A visit's attempts so far, the first of them numbered `first` and the script read from its start. */
  ghost predicate Tried<V>(provider: Provider, start: nat, deadline: nat, attempts: seq<Attempt<V>>, first: nat,
                           script: seq<Turn<V>>, o: Options) {
    && AttemptsOk(provider, start, deadline, attempts) && Numbered(attempts, first)
    && Spaced(attempts, start, deadline, o) && Scripted(attempts, script)
  }

  /** Why a provider was left, told by its last attempt. */
  predicate ReasonOk<V>(v: Visit<V>, o: Options) {
    match v.reason
    case Answered => v.attempts != [] && Last(v).outcome.Success? && v.closed == Last(v).ended
    case Quota =>
      v.attempts != [] && Last(v).outcome.Failure? && ExaQuota(v.provider, Last(v).outcome.error) && v.closed == Last(v).ended
    case NotTransient =>
      && v.attempts != [] && Last(v).outcome.Failure? && v.closed == Last(v).ended
      && !IsTransient(Last(v).outcome.error) && !ExaQuota(v.provider, Last(v).outcome.error)
    case BudgetSpent =>
      |v.attempts| == o.attempts && v.attempts != [] && Retryable(v.provider, Last(v)) && v.closed == Last(v).ended
    case DeadlineReached =>
      if v.attempts == [] then v.closed == v.start >= v.deadline
      else if Last(v).fired then v.closed == Last(v).ended
      else
        && Retryable(v.provider, Last(v)) && v.closed >= v.deadline
        && v.closed == (if Last(v).ended >= v.deadline then Last(v).ended
                        else NextStart(v.attempts, v.start, v.deadline, o))
  }

  function Last<V>(v: Visit<V>): Attempt<V>
    requires v.attempts != []
  {
    v.attempts[|v.attempts| - 1]
  }

  ghost predicate VisitOk<V>(v: Visit<V>, curation: bool, o: Options) {
    && v.deadline == v.start + Window(v.provider, curation, o)
    && v.start <= v.closed
    && |v.attempts| <= o.attempts
    && AttemptsOk(v.provider, v.start, v.deadline, v.attempts)
    && Spaced(v.attempts, v.start, v.deadline, o)
    && ReasonOk(v, o)
  }

  // ---- What a whole call amounts to ----

  function Supporting(providers: seq<Provider>): (r: seq<Provider>) {
    if providers == [] then []
    else (if providers[0].supports then [providers[0]] else []) + Supporting(providers[1..])
  }

  /** All attempts of a call, whichever provider they went to. */
  function AllAttempts<V>(visits: seq<Visit<V>>): seq<Attempt<V>> {
    if visits == [] then [] else AllAttempts(visits[..|visits| - 1]) + visits[|visits| - 1].attempts
  }

  function Failures<V>(attempts: seq<Attempt<V>>): seq<ProviderError> {
    if attempts == [] then []
    else Failures(attempts[..|attempts| - 1])
         + (if attempts[|attempts| - 1].outcome.Failure? then [attempts[|attempts| - 1].outcome.error] else [])
  }

  /** The visits follow the priority list: one per supporting provider, in order, each opening its own
      window, and nothing after an answer or Exa's quota; attempts are numbered from one without gaps. */
  ghost predicate VisitsOk<V>(visits: seq<Visit<V>>, supporting: seq<Provider>, curation: bool, o: Options) {
    && |visits| <= |supporting|
    && (forall k :: 0 <= k < |visits| ==> visits[k].provider == supporting[k] && VisitOk(visits[k], curation, o))
    && InOrder(visits)
    && Numbered(AllAttempts(visits), 1)
  }

  /** All of them are over by now, and none of them ended the call. */
  predicate AllBefore<V>(visits: seq<Visit<V>>, now: nat) {
    forall k :: 0 <= k < |visits| ==> visits[k].closed <= now && GoesOn(visits[k])
  }

  predicate InOrder<V>(visits: seq<Visit<V>>) {
    forall j, k :: 0 <= j < k < |visits| ==> visits[j].closed <= visits[k].start && GoesOn(visits[j])
  }

  /** The next provider is asked. */
  predicate GoesOn<V>(v: Visit<V>) {
    !v.reason.Answered? && !v.reason.Quota?
  }

  /** The answer is the first success; a failure comes after every supporting provider was left, or
      after Exa reported its quota, and carries exactly one error per attempt. */
  predicate ResultOk<V(==)>(r: Result<V, seq<ProviderError>>, visits: seq<Visit<V>>, supporting: seq<Provider>) {
    match r
    case Success(value) =>
      visits != [] && var last := visits[|visits| - 1];
      last.reason.Answered? && last.attempts != [] && Last(last).outcome == Success(value)
    case Failure(errors) =>
      && errors == Failures(AllAttempts(visits)) && |errors| == |AllAttempts(visits)|
      && if visits != [] && visits[|visits| - 1].reason.Quota? then true
         else |visits| == |supporting| && (visits != [] ==> !visits[|visits| - 1].reason.Answered?)
  }

  /** Ideal timers and ledger writes that take no time. */
  ghost predicate Ideal<V(!new)>(script: seq<Turn<V>>) {
    forall k :: 0 <= k < |script| ==>
      script[k].startWrite == 0 && script[k].endWrite == 0 && script[k].lateness == 0 && script[k].sleepLateness == 0
  }

  function Windows<V>(visits: seq<Visit<V>>): int {
    if visits == [] then 0
    else Windows(visits[..|visits| - 1]) + (visits[|visits| - 1].deadline - visits[|visits| - 1].start)
  }

  function Min(a: nat, b: nat): nat { if a < b then a else b }

  // ---- Bookkeeping ----

  lemma {:induction false} SupportingSplit(providers: seq<Provider>, k: nat)
    requires k <= |providers|
    ensures Supporting(providers) == Supporting(providers[..k]) + Supporting(providers[k..])
  {
    if k == 0 {
      assert providers[..0] == [] && providers[0..] == providers;
    } else {
      SupportingSplit(providers[1..], k - 1);
      assert providers[..k][1..] == providers[1..][..k - 1];
      assert providers[k..] == providers[1..][k - 1..];
    }
  }

  lemma {:induction false} FailuresConcat<V>(a: seq<Attempt<V>>, b: seq<Attempt<V>>)
    ensures Failures(a + b) == Failures(a) + Failures(b)
  {
    if b == [] {
      assert a + b == a;
    } else {
      var rest := b[..|b| - 1];
      FailuresConcat(a, rest);
      assert (a + b)[..|a + b| - 1] == a + rest;
    }
  }

  lemma NoAttempts<V>(provider: Provider, start: nat, deadline: nat, first: nat, script: seq<Turn<V>>, o: Options)
    ensures Tried<V>(provider, start, deadline, [], first, script, o)
    ensures Numbered<V>([], first) && Scripted([], script) && Failures<V>([]) == [] && Rest(script, 0) == script
  {
  }

  lemma TimeoutIsRetryable()
    ensures IsTransient(TIMEOUT_ERROR) && !Classify(TIMEOUT_ERROR).QuotaExhausted?
  {
  }

  lemma AttemptsExtend<V>(provider: Provider, start: nat, deadline: nat, attempts: seq<Attempt<V>>, a: Attempt<V>, first: nat)
    requires AttemptsOk(provider, start, deadline, attempts) && Numbered(attempts, first)
    requires attempts != [] ==> Retryable(provider, attempts[|attempts| - 1])
    requires a.number == first + |attempts| && AttemptOk(a, start, deadline)
    ensures AttemptsOk(provider, start, deadline, attempts + [a]) && Numbered(attempts + [a], first)
    ensures Failures(attempts + [a]) == Failures(attempts) + (if a.outcome.Failure? then [a.outcome.error] else [])
  {
    hide AttemptOk, Retryable;
    assert (attempts + [a])[..|attempts|] == attempts;
  }

  lemma SpacedSnoc<V>(attempts: seq<Attempt<V>>, a: Attempt<V>, start: nat, deadline: nat, o: Options)
    requires Spaced(attempts, start, deadline, o) && a.began == NextStart(attempts, start, deadline, o) < deadline
    ensures Spaced(attempts + [a], start, deadline, o)
    ensures NextStart(attempts + [a], start, deadline, o) == a.ended + Pause(a, |attempts| + 1, deadline, o)
  {
    hide Pause;
    assert (attempts + [a])[..|attempts|] == attempts;
  }

  lemma ScriptedSnoc<V>(attempts: seq<Attempt<V>>, a: Attempt<V>, script: seq<Turn<V>>)
    requires Scripted(attempts, script) && a.turn == TurnAt(Rest(script, |attempts|), 0)
    ensures Scripted(attempts + [a], script)
    ensures Rest(Rest(script, |attempts|), 1) == Rest(script, |attempts| + 1)
  {
  }

  /** One more attempt. */
  lemma TriedSnoc<V>(provider: Provider, start: nat, deadline: nat, attempts: seq<Attempt<V>>, a: Attempt<V>, first: nat,
                     script: seq<Turn<V>>, o: Options)
    requires Tried(provider, start, deadline, attempts, first, script, o)
    requires attempts != [] ==> Retryable(provider, attempts[|attempts| - 1])
    requires a.number == first + |attempts| && AttemptOk(a, start, deadline)
    requires a.began == NextStart(attempts, start, deadline, o) < deadline && a.turn == TurnAt(Rest(script, |attempts|), 0)
    ensures Tried(provider, start, deadline, attempts + [a], first, script, o)
    ensures NextStart(attempts + [a], start, deadline, o) == a.ended + Pause(a, |attempts| + 1, deadline, o)
    ensures Failures(attempts + [a]) == Failures(attempts) + (if a.outcome.Failure? then [a.outcome.error] else [])
    ensures Rest(Rest(script, |attempts|), 1) == Rest(script, |attempts| + 1)
  {
    hide AttemptsOk, AttemptOk, Numbered, Spaced, Scripted, NextStart, Retryable, Failures, Rest, TurnAt, Pause;
    AttemptsExtend(provider, start, deadline, attempts, a, first);
    SpacedSnoc(attempts, a, start, deadline, o);
    ScriptedSnoc(attempts, a, script);
  }

  /** The loop that is left by its guard. */
  lemma LeftByItsGuard<V>(provider: Provider, start: nat, deadline: nat, attempts: seq<Attempt<V>>, clock: nat, o: Options)
    requires clock == NextStart(attempts, start, deadline, o) >= deadline
    requires attempts != [] ==>
      var last := attempts[|attempts| - 1]; Retryable(provider, last) && last.ended < deadline && !last.fired
    ensures ReasonOk(Visit(provider, start, deadline, attempts, clock, DeadlineReached), o)
  {
    hide NextStart;
    NextStartOfNothing(attempts, start, deadline, o);
  }

  lemma NextStartOfNothing<V>(attempts: seq<Attempt<V>>, start: nat, deadline: nat, o: Options)
    ensures attempts == [] ==> NextStart(attempts, start, deadline, o) == start
  {
  }

  lemma ScriptedConcat<V>(a: seq<Attempt<V>>, b: seq<Attempt<V>>, script: seq<Turn<V>>)
    requires Scripted(a, script) && Scripted(b, Rest(script, |a|))
    ensures Scripted(a + b, script)
    ensures Rest(Rest(script, |a|), |b|) == Rest(script, |a + b|)
  {
    forall i | 0 <= i < |a + b| ensures (a + b)[i].turn == TurnAt(script, i) {
      if i >= |a| { assert b[i - |a|].turn == TurnAt(Rest(script, |a|), i - |a|); }
    }
  }

  /** One more visit keeps the list in order. */
  lemma VisitsExtend<V>(visits: seq<Visit<V>>, v: Visit<V>, supporting: seq<Provider>, curation: bool, o: Options)
    requires VisitsOk(visits, supporting, curation, o) && |visits| < |supporting|
    requires v.provider == supporting[|visits|] && VisitOk(v, curation, o)
    requires Numbered(v.attempts, |AllAttempts(visits)| + 1)
    requires AllBefore(visits, v.start)
    ensures VisitsOk(visits + [v], supporting, curation, o)
  {
    hide VisitOk, InOrder, AllAttempts, Numbered;
    VisitSnoc(visits, v);
    NumberedConcat(AllAttempts(visits), v.attempts);
    InOrderSnoc(visits, v);
  }

  lemma InOrderSnoc<V>(visits: seq<Visit<V>>, v: Visit<V>)
    requires InOrder(visits)
    requires AllBefore(visits, v.start)
    ensures InOrder(visits + [v])
  {
    hide GoesOn;
  }

  lemma VisitSnoc<V>(visits: seq<Visit<V>>, v: Visit<V>)
    ensures AllAttempts(visits + [v]) == AllAttempts(visits) + v.attempts
    ensures Windows(visits + [v]) == Windows(visits) + (v.deadline - v.start)
  {
    assert (visits + [v])[..|visits|] == visits;
  }

  lemma NumberedConcat<V>(a: seq<Attempt<V>>, b: seq<Attempt<V>>)
    requires Numbered(a, 1) && Numbered(b, |a| + 1)
    ensures Numbered(a + b, 1)
  {
  }

  // ---- What the lists mean ----

  lemma LeftProviderHasOnlyFailures<V>(v: Visit<V>, curation: bool, o: Options)
    requires VisitOk(v, curation, o)
    ensures forall i :: 0 <= i < |v.attempts| && v.attempts[i].outcome.Success? ==> i == |v.attempts| - 1 && v.reason.Answered?
  {
    hide Classify, ClassifySafe;
    forall i | 0 <= i < |v.attempts| && v.attempts[i].outcome.Success? ensures i == |v.attempts| - 1 && v.reason.Answered? {
      if i == |v.attempts| - 1 { assert AttemptOk(Last(v), v.start, v.deadline); }
    }
  }

  /** A call that succeeds has exactly one success among its attempts, the last one made; a call that
      fails has none. */
  lemma {:induction false} OnlyTheLastAttemptSucceeds<V>(visits: seq<Visit<V>>, supporting: seq<Provider>, curation: bool, o: Options)
    requires VisitsOk(visits, supporting, curation, o)
    ensures var all := AllAttempts(visits);
            forall i :: 0 <= i < |all| && all[i].outcome.Success? ==>
              i == |all| - 1 && visits[|visits| - 1].reason.Answered?
    decreases |visits|
  {
    hide VisitOk, Numbered;
    if visits != [] {
      var earlier, last := visits[..|visits| - 1], visits[|visits| - 1];
      assert visits == earlier + [last];
      VisitSnoc(earlier, last);
      PrefixOk(visits, supporting, curation, o);
      OnlyTheLastAttemptSucceeds(earlier, supporting, curation, o);
      LeftProviderHasOnlyFailures(last, curation, o);
      if earlier != [] { assert GoesOn(visits[|earlier| - 1]); }
    }
  }

  lemma PrefixOk<V>(visits: seq<Visit<V>>, supporting: seq<Provider>, curation: bool, o: Options)
    requires VisitsOk(visits, supporting, curation, o) && visits != []
    ensures VisitsOk(visits[..|visits| - 1], supporting, curation, o)
  {
    hide VisitOk;
    var earlier, last := visits[..|visits| - 1], visits[|visits| - 1];
    assert visits == earlier + [last];
    VisitSnoc(earlier, last);
    assert forall i :: 0 <= i < |AllAttempts(earlier)| ==> AllAttempts(earlier)[i] == AllAttempts(visits)[i];
  }

  function TotalWindow(providers: seq<Provider>, curation: bool, o: Options): nat {
    if providers == [] then 0
    else TotalWindow(providers[..|providers| - 1], curation, o) + Window(providers[|providers| - 1], curation, o)
  }

  /** The windows of the visits are those of the providers at the head of the list. */
  lemma {:induction false} WindowsAddUp<V>(visits: seq<Visit<V>>, supporting: seq<Provider>, curation: bool, o: Options)
    requires VisitsOk(visits, supporting, curation, o)
    ensures Windows(visits) == TotalWindow(supporting[..|visits|], curation, o)
    decreases |visits|
  {
    if visits != [] {
      PrefixOk(visits, supporting, curation, o);
      WindowsAddUp(visits[..|visits| - 1], supporting, curation, o);
      assert supporting[..|visits|][..|visits| - 1] == supporting[..|visits| - 1];
      assert VisitOk(visits[|visits| - 1], curation, o);
    }
  }

  // ---- Fact search ----

  /** A paid call that is never raced: it settles, or is waited for without end. */
  datatype ExaCall<V> = Settled(outcome: Result<V, ProviderError>) | Unsettled

  datatype FactResult<V> = Found(value: V) | Exhausted(errors: seq<ProviderError>) | Waiting

  predicate TransientFailure<V>(call: ExaCall<V>) {
    call.Settled? && call.outcome.Failure? && IsTransient(call.outcome.error)
  }

  function Settling<V>(turn: Turn<V>): ExaCall<V> {
    if turn.settles.Hangs? then Unsettled else Settled(OutcomeOf(turn.settles))
  }

  function Took<V>(turn: Turn<V>): nat { turn.startWrite + turn.callTime + turn.endWrite }

  /** At most two calls, the second one only after the first has settled with a transient error; the
      result is that of the last call, and an exhausted search carries every error. */
  predicate FactSearchOk<V(==)>(r: FactResult<V>, calls: seq<ExaCall<V>>) {
    && 1 <= |calls| <= 2
    && (|calls| == 2 <==> TransientFailure(calls[0]))
    && match r
       case Found(value) => calls[|calls| - 1] == Settled(Success(value))
       case Waiting => calls[|calls| - 1] == Unsettled
       case Exhausted(errors) =>
         && |errors| == |calls|
         && forall k :: 0 <= k < |calls| ==> calls[k] == Settled(Failure(errors[k]))
  }

  // ---- The engine ----

  class Engine<V(==,!new)> {
    var clock: nat
    var script: seq<Turn<V>>
    const o: Options
    const curation: bool
    ghost const ideal: bool

    ghost predicate Valid()
      reads this
    {
      OptionsOk(o) && (ideal ==> Ideal(script))
    }

    constructor (script: seq<Turn<V>>, o: Options, curation: bool)
      requires OptionsOk(o)
      ensures Valid() && this.script == script && this.o == o && this.curation == curation && ideal == Ideal(script)
    {
      this.clock, this.script, this.o, this.curation, this.ideal := 0, script, o, curation, Ideal(script);
    }

    method NextTurn() returns (turn: Turn<V>)
      requires Valid()
      modifies this`script
      ensures Valid() && (ideal ==> Ideal([turn]))
      ensures turn == TurnAt(old(script), 0) && script == Rest(old(script), 1)
    {
      turn := Turn(0, Hangs, 0, 0, 0, 0.0, 0);
      if script != [] { turn, script := script[0], script[1..]; }
    }

    /** runAttempt: the call races the deadline timer. */
    method RunAttempt(number: nat, start: nat, deadline: nat, turn: Turn<V>) returns (a: Attempt<V>)
      requires Valid() && start <= clock
      modifies this`clock
      ensures Valid() && old(clock) <= clock
      ensures a.number == number && a.turn == turn && a.began == old(clock) && a.ended == clock
      ensures AttemptOk(a, start, deadline)
      ensures Ideal([turn]) && old(clock) <= deadline ==> clock <= deadline
    {
      var began := clock;
      clock := clock + turn.startWrite;
      if clock >= deadline {
        a := Attempt(number, turn, began, None, true, 0, Failure(TIMEOUT_ERROR));
      } else {
        var calledAt := clock;
        var limit := deadline - clock + turn.lateness;
        if turn.settles.Hangs? || turn.callTime > limit {
          clock := clock + limit;
          a := Attempt(number, turn, began, Some(calledAt), true, 0, Failure(TIMEOUT_ERROR));
        } else {
          clock := clock + turn.callTime;
          a := Attempt(number, turn, began, Some(calledAt), false, 0, OutcomeOf(turn.settles));
        }
      }
      assert Ideal([turn]) ==> [turn][0].endWrite == 0 && [turn][0].startWrite == 0 && [turn][0].lateness == 0;
      clock := clock + turn.endWrite;
      a := a.(ended := clock);
    }

    /** sleep(min(delay, time that is left)). */
    method BackOff(attempt: nat, deadline: nat, turn: Turn<V>, ghost a: Attempt<V>)
      requires Valid() && attempt >= 1 && a.turn == turn && a.ended == clock
      modifies this`clock
      ensures Valid() && clock == a.ended + Pause(a, attempt, deadline, o)
      ensures Ideal([turn]) && old(clock) <= deadline ==> clock <= deadline
    {
      var remaining := if deadline > clock then deadline - clock else 0;
      var delay := RetryDelay(attempt, o, turn.random);
      assert Ideal([turn]) ==> [turn][0].sleepLateness == 0;
      clock := clock + Min(delay, remaining) + turn.sleepLateness;
    }

    /** One pass of the retry loop: the attempt, and why the provider is left if it is. */
    method TryOnce(provider: Provider, number: nat, earlier: seq<Attempt<V>>, start: nat, deadline: nat)
      returns (a: Attempt<V>, reason: Option<Reason>)
      requires Valid() && start <= clock && |earlier| < o.attempts && (ideal ==> clock <= deadline)
      modifies this
      ensures Valid() && old(clock) <= clock && (ideal ==> clock <= deadline)
      ensures a.number == number && a.began == old(clock) && AttemptOk(a, start, deadline)
      ensures a.turn == TurnAt(old(script), 0) && script == Rest(old(script), 1)
      ensures reason.None? ==>
        Retryable(provider, a) && !a.fired && |earlier| + 1 < o.attempts && a.ended < deadline && clock == a.ended + Pause(a, |earlier| + 1, deadline, o)
      ensures a.outcome.Success? <==> reason == Some(Answered)
      ensures reason.Some? ==>
        ReasonOk(Visit(provider, start, deadline, earlier + [a], clock, reason.value), o)
    {
      TimeoutIsRetryable();
      hide AttemptOk, ClassifySafe, Classify, Pause, RetryDelay;
      var turn := NextTurn();
      a := RunAttempt(number, start, deadline, turn);
      if a.outcome.Success? { return a, Some(Answered); }
      if ExaQuota(provider, a.outcome.error) { return a, Some(Quota); }
      if !IsTransient(a.outcome.error) { return a, Some(NotTransient); }
      if a.fired { return a, Some(DeadlineReached); }
      if |earlier| + 1 >= o.attempts { return a, Some(BudgetSpent); }
      if clock >= deadline { return a, Some(DeadlineReached); }
      BackOff(|earlier| + 1, deadline, turn, a);
      reason := None;
    }

    /** runWithRetry, with the errors it adds to the list of the call. */
    method RunWithRetry(provider: Provider, start: nat, deadline: nat, first: nat, errors: seq<ProviderError>)
      returns (attempts: seq<Attempt<V>>, reason: Reason, errors': seq<ProviderError>)
      requires Valid() && start == clock && (ideal ==> clock <= deadline)
      modifies this
      ensures Valid() && old(clock) <= clock && (ideal ==> clock <= deadline)
      ensures |attempts| <= o.attempts && Tried(provider, start, deadline, attempts, first, old(script), o)
      ensures script == Rest(old(script), |attempts|)
      ensures ReasonOk(Visit(provider, start, deadline, attempts, clock, reason), o)
      ensures errors' == errors + Failures(attempts)
      ensures |Failures(attempts)| == |attempts| - (if reason.Answered? then 1 else 0)
    {
      hide Tried, AttemptOk, Retryable, ReasonOk, ClassifySafe, Classify, Pause, TurnAt, Rest, NextStart, Failures;
      attempts, errors' := [], errors;
      NoAttempts<V>(provider, start, deadline, first, script, o);
      NextStartOfNothing<V>([], start, deadline, o);
      while |attempts| < o.attempts && clock < deadline
        invariant Valid() && old(clock) <= clock && (ideal ==> clock <= deadline)
        invariant |attempts| < o.attempts && Tried(provider, start, deadline, attempts, first, old(script), o)
        invariant attempts != [] ==>
          var last := attempts[|attempts| - 1]; Retryable(provider, last) && last.ended < deadline && !last.fired
        invariant clock == NextStart(attempts, start, deadline, o) && script == Rest(old(script), |attempts|)
        invariant errors' == errors + Failures(attempts) && |Failures(attempts)| == |attempts|
        decreases o.attempts - |attempts|
      {
        var a, left := TryOnce(provider, first + |attempts|, attempts, start, deadline);
        TriedSnoc(provider, start, deadline, attempts, a, first, old(script), o);
        attempts := attempts + [a];
        if a.outcome.Failure? { errors' := errors' + [a.outcome.error]; }
        if left.Some? { return attempts, left.value, errors'; }
      }
      LeftByItsGuard(provider, start, deadline, attempts, clock, o);
      reason := DeadlineReached;
    }

    /** One provider's turn in the list, under a window of its own. */
    method Consult(provider: Provider, attemptNumber: nat, errors: seq<ProviderError>)
      returns (answer: Option<V>, quota: bool, errors': seq<ProviderError>, attemptNumber': nat, ghost v: Visit<V>)
      requires Valid()
      modifies this
      ensures Valid() && v.provider == provider && v.start == old(clock) <= v.closed == clock
      ensures VisitOk(v, curation, o) && Numbered(v.attempts, attemptNumber + 1)
      ensures Scripted(v.attempts, old(script)) && script == Rest(old(script), |v.attempts|)
      ensures ideal ==> clock <= v.deadline
      ensures attemptNumber' == attemptNumber + |v.attempts| && errors' == errors + Failures(v.attempts)
      ensures |Failures(v.attempts)| == |v.attempts| - (if answer.Some? then 1 else 0)
      ensures answer.Some? == v.reason.Answered? && quota == v.reason.Quota?
      ensures answer.Some? ==> v.attempts != [] && Last(v).outcome == Success(answer.value)
    {
      hide AttemptsOk, Numbered, Spaced, Scripted, Rest;
      var start := clock;
      var deadline := clock + Window(provider, curation, o);
      var attempts, reason;
      attempts, reason, errors' := RunWithRetry(provider, start, deadline, attemptNumber + 1, errors);
      v := Visit(provider, start, deadline, attempts, clock, reason);
      attemptNumber' := attemptNumber + |attempts|;
      quota := reason.Quota?;
      answer := if reason.Answered? then Some(attempts[|attempts| - 1].outcome.value) else None;
    }

    /** execute. */
    method Execute(providers: seq<Provider>) returns (r: Result<V, seq<ProviderError>>, ghost visits: seq<Visit<V>>)
      requires Valid()
      modifies this
      ensures Valid() && VisitsOk(visits, Supporting(providers), curation, o) && ResultOk(r, visits, Supporting(providers))
      ensures Scripted(AllAttempts(visits), old(script)) && script == Rest(old(script), |AllAttempts(visits)|)
      ensures visits != [] ==> visits[0].start == old(clock)
      ensures ideal ==> clock <= old(clock) + Windows(visits)
    {
      hide VisitOk, VisitsOk, Supporting, Numbered, Scripted, Rest, TurnAt, Failures, AllAttempts, Windows;
      var errors, attemptNumber := [], 0;
      visits := [];
      NoProviders();
      NoVisits<V>(Supporting(providers), curation, script, o);
      for p := 0 to |providers|
        invariant Valid() && VisitsOk(visits, Supporting(providers), curation, o)
        invariant providers[..0] == [] && |visits| == |Supporting(providers[..p])|
        invariant AllBefore(visits, clock) && (visits == [] ==> clock == old(clock))
        invariant visits != [] ==> visits[0].start == old(clock)
        invariant Scripted(AllAttempts(visits), old(script)) && script == Rest(old(script), |AllAttempts(visits)|)
        invariant attemptNumber == |AllAttempts(visits)| == |errors| && errors == Failures(AllAttempts(visits))
        invariant ideal ==> clock <= old(clock) + Windows(visits)
      {
        SupportingAt(providers, p);
        if providers[p].supports {
          ghost var v;
          var answer, quota;
          answer, quota, errors, attemptNumber, v := Consult(providers[p], attemptNumber, errors);
          VisitsExtend(visits, v, Supporting(providers), curation, o);
          VisitSnoc(visits, v);
          FailuresConcat(AllAttempts(visits), v.attempts);
          ScriptedConcat(AllAttempts(visits), v.attempts, old(script));
          visits := visits + [v];
          if answer.Some? { return Success(answer.value), visits; }
          if quota { return Failure(errors), visits; }
        }
      }
      assert providers[..|providers|] == providers;
      r := Failure(errors);
    }

    /** runExaFactAttempt: no deadline, no race; it waits for as long as the call takes. */
    method RunExaFactAttempt() returns (call: ExaCall<V>)
      requires Valid()
      modifies this
      ensures Valid() && call == Settling(TurnAt(old(script), 0)) && script == Rest(old(script), 1)
      ensures call.Settled? ==> clock == old(clock) + Took(TurnAt(old(script), 0))
    {
      var turn := NextTurn();
      clock := clock + turn.startWrite;
      match turn.settles {
        case Hangs => call := Unsettled;
        case Resolves(value) =>
          clock := clock + turn.callTime + turn.endWrite;
          call := Settled(Success(value));
        case Rejects(error) =>
          clock := clock + turn.callTime + turn.endWrite;
          call := Settled(Failure(error));
      }
    }

    /** executeFactSearch where an Exa provider is configured; elsewhere it is `Execute`. */
    method SearchFactWithExa() returns (r: FactResult<V>, ghost calls: seq<ExaCall<V>>)
      requires Valid()
      modifies this
      ensures Valid() && FactSearchOk(r, calls)
      ensures forall k :: 0 <= k < |calls| ==> calls[k] == Settling(TurnAt(old(script), k))
      ensures !r.Waiting? ==>
        var first, second := Took(TurnAt(old(script), 0)), Took(TurnAt(old(script), 1));
        clock == old(clock) + (if |calls| == 1 then first else first + 250 + second)
    {
      var first := RunExaFactAttempt();
      calls := [first];
      if first.Unsettled? { return Waiting, calls; }
      if first.outcome.Success? { return Found(first.outcome.value), calls; }
      if !IsTransient(first.outcome.error) { return Exhausted([first.outcome.error]), calls; }
      clock := clock + 250;
      var second := RunExaFactAttempt();
      calls := calls + [second];
      if second.Unsettled? { return Waiting, calls; }
      r := if second.outcome.Success? then Found(second.outcome.value)
           else Exhausted([first.outcome.error, second.outcome.error]);
    }
  }

  lemma NoProviders()
    ensures Supporting([]) == []
  {
  }

  lemma NoVisits<V>(supporting: seq<Provider>, curation: bool, script: seq<Turn<V>>, o: Options)
    ensures VisitsOk<V>([], supporting, curation, o) && AllAttempts<V>([]) == [] && Windows<V>([]) == 0
    ensures Scripted(AllAttempts<V>([]), script) && Failures<V>([]) == [] && Rest(script, 0) == script
  {
  }

  lemma SupportingAt(providers: seq<Provider>, p: nat)
    requires p < |providers|
    ensures var before := |Supporting(providers[..p])|;
            && |Supporting(providers[..p + 1])| == before + (if providers[p].supports then 1 else 0)
            && (providers[p].supports ==> before < |Supporting(providers)| && Supporting(providers)[before] == providers[p])
  {
    SupportingSplit(providers, p);
    SupportingSplit(providers[..p + 1], p);
    assert providers[..p + 1][..p] == providers[..p] && providers[..p + 1][p..] == [providers[p]];
    assert providers[p..][0] == providers[p];
  }
}
