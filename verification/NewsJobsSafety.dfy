/** What the job functions keep for any clients, whichever tokens they call with. */
module NewsJobsSafety {
  import opened Wrappers
  import opened NewsJobsStore

  // ---- The invariant ----

  /** How often job `j` was claimed for execution or for delivery. */
  function ClaimsOf(claims: seq<Claim>, j: nat, executes: bool): nat {
    if claims == [] then 0
    else ClaimsOf(claims[..|claims| - 1], j, executes)
         + (if claims[|claims| - 1].job == j && claims[|claims| - 1].executes == executes then 1 else 0)
  }

  predicate Unfinished(job: Job) {
    job.status.Queued? || job.status.Processing?
  }

  predicate JobOk(job: Job, limits: Limits) {
    && (job.token.Some? <==> Busy(job))
    && (job.outcome.None? <==> Unfinished(job))
    && (Unfinished(job) ==> job.executions < limits.executions && job.deliveries == 0)
    && (job.status.OutcomeReady? || job.status.Delivering? ==> job.deliveries < limits.deliveries)
  }

  /** The attempt counters count the claims that were given out. */
  predicate CountsOk(s: State, j: nat, limits: Limits)
    requires j < |s.jobs|
  {
    var job := s.jobs[j];
    var executed, delivered := ClaimsOf(s.claims, j, true), ClaimsOf(s.claims, j, false);
    && executed <= limits.executions && delivered <= limits.deliveries
    && (job.status.Queued? ==> executed == job.executions)
    && (job.status.Processing? ==> executed == job.executions + 1)
    && (Unfinished(job) || job.status.OutcomeReady? ==> delivered == job.deliveries)
    && (job.status.Delivering? ==> delivered == job.deliveries + 1)
  }

  /** A claimed row carries the latest claim that was given out for it. */
  predicate HeldOk(s: State, j: nat)
    requires j < |s.jobs|
  {
    var job := s.jobs[j];
    Busy(job) && job.token.Some? ==>
      && job.token.value < |s.claims|
      && s.claims[job.token.value].job == j
      && s.claims[job.token.value].executes == job.status.Processing?
  }

  predicate Spent(s: State, token: nat) {
    forall j :: 0 <= j < |s.jobs| ==> s.jobs[j].token != Some(token)
  }

  predicate AppliedOk(s: State, a: Applied) {
    && a.token < |s.claims|
    && s.claims[a.token].job == a.job
    && s.claims[a.token].executes == (a.mutation.Record? || a.mutation.Retry?)
    && Spent(s, a.token)
  }

  predicate ClaimOk(s: State, k: nat)
    requires k < |s.claims|
  {
    s.claims[k].token == k && s.claims[k].job < |s.jobs|
  }

  predicate AppliedOnce(s: State) {
    forall i, k :: 0 <= i < k < |s.applied| ==> s.applied[i].token != s.applied[k].token
  }

  predicate Inv(s: State, limits: Limits) {
    && s.nextToken == |s.claims|
    && (forall j :: 0 <= j < |s.jobs| ==> JobOk(s.jobs[j], limits) && HeldOk(s, j) && CountsOk(s, j, limits))
    && (forall k :: 0 <= k < |s.claims| ==> ClaimOk(s, k))
    && (forall i :: 0 <= i < |s.applied| ==> AppliedOk(s, s.applied[i]))
    && AppliedOnce(s)
  }

  // ---- Preservation ----

  /** Row `j` is replaced by one that is not claimed, or that keeps the claim it had. */
  lemma RowKeepsInv(s: State, j: nat, job: Job, limits: Limits)
    requires Inv(s, limits) && j < |s.jobs| && JobOk(job, limits)
    requires job.token == s.jobs[j].token || job.token.None?
    requires Busy(job) ==> job.status == s.jobs[j].status
    requires CountsOk(SetJob(s, j, job), j, limits)
    ensures Inv(SetJob(s, j, job), limits)
  {
    var s' := SetJob(s, j, job);
    forall i | 0 <= i < |s'.jobs| ensures JobOk(s'.jobs[i], limits) && HeldOk(s', i) && CountsOk(s', i, limits) {
      assert JobOk(s.jobs[i], limits) && HeldOk(s, i) && CountsOk(s, i, limits);
    }
    forall k | 0 <= k < |s'.claims| ensures ClaimOk(s', k) { assert ClaimOk(s, k); }
    forall i | 0 <= i < |s'.applied| ensures AppliedOk(s', s'.applied[i]) { assert AppliedOk(s, s.applied[i]); }
  }

  lemma {:induction false} OtherClaims(claims: seq<Claim>, claim: Claim, j: nat, executes: bool)
    ensures ClaimsOf(claims + [claim], j, executes)
         == ClaimsOf(claims, j, executes) + (if claim.job == j && claim.executes == executes then 1 else 0)
  {
    assert (claims + [claim])[..|claims|] == claims;
  }

  lemma GivingOutKeepsInv(s: State, j: nat, job: Job, claim: Claim, limits: Limits)
    requires Inv(s, limits) && j < |s.jobs| && JobOk(job, limits)
    requires claim == Claim(s.nextToken, j, job.status.Processing?) && Busy(job) && job.token == Some(s.nextToken)
    requires var s' := SetJob(s, j, job).(nextToken := s.nextToken + 1, claims := s.claims + [claim]); CountsOk(s', j, limits)
    ensures Inv(SetJob(s, j, job).(nextToken := s.nextToken + 1, claims := s.claims + [claim]), limits)
  {
    var s' := SetJob(s, j, job).(nextToken := s.nextToken + 1, claims := s.claims + [claim]);
    forall i | 0 <= i < |s'.jobs| ensures JobOk(s'.jobs[i], limits) && HeldOk(s', i) && CountsOk(s', i, limits) {
      assert JobOk(s.jobs[i], limits) && HeldOk(s, i) && CountsOk(s, i, limits);
      OtherClaims(s.claims, claim, i, true);
      OtherClaims(s.claims, claim, i, false);
    }
    forall k | 0 <= k < |s'.claims| ensures ClaimOk(s', k) { if k < |s.claims| { assert ClaimOk(s, k); } }
    forall i | 0 <= i < |s'.applied| ensures AppliedOk(s', s'.applied[i]) { assert AppliedOk(s, s.applied[i]); }
  }

  lemma ClaimingIsFree(s: State, claiming: Option<Pending>, limits: Limits)
    requires Inv(s, limits)
    ensures Inv(s.(claiming := claiming), limits)
  {
    var s' := s.(claiming := claiming);
    forall j | 0 <= j < |s'.jobs| ensures HeldOk(s', j) && CountsOk(s', j, limits) { assert HeldOk(s, j) && CountsOk(s, j, limits); }
    forall k | 0 <= k < |s'.claims| ensures ClaimOk(s', k) { assert ClaimOk(s, k); }
    forall i | 0 <= i < |s'.applied| ensures AppliedOk(s', s'.applied[i]) { assert AppliedOk(s, s.applied[i]); }
  }

  /** A stale claim that has used up its attempts closes the job or the execution. */
  lemma ExpiryKeepsInv(s: State, who: nat, locked: set<nat>, limits: Limits)
    requires Inv(s, limits) && LimitsOk(limits) && IsClaiming(s, who)
    requires PickClaim(s, who, limits, locked).1.None?
    ensures Inv(PickClaim(s, who, limits, locked).0, limits)
  {
    var s', done := PickClaim(s, who, limits, locked).0, s.(claiming := None);
    ClaimingIsFree(s, None, limits);
    if s' != done {
      var j := PickAmong(s.jobs, s.claiming.value.at, limits, locked, |s.jobs|).value;
      assert JobOk(done.jobs[j], limits) && HeldOk(done, j) && CountsOk(done, j, limits);
      RowKeepsInv(done, j, s'.jobs[j], limits);
    }
  }

  lemma GivenClaimIsOk(s: State, who: nat, locked: set<nat>, limits: Limits)
    requires Inv(s, limits) && LimitsOk(limits)
    requires PickClaim(s, who, limits, locked).1.Some?
    ensures var (s', given) := PickClaim(s, who, limits, locked);
            var j := given.value.job;
            && j < |s.jobs| && |s'.jobs| == |s.jobs| && JobOk(s'.jobs[j], limits) && CountsOk(s', j, limits)
            && Busy(s'.jobs[j]) && s'.jobs[j].token == Some(s.nextToken)
            && given.value == Claim(s.nextToken, j, s'.jobs[j].status.Processing?)
            && s' == SetJob(s.(claiming := None), j, s'.jobs[j]).(nextToken := s.nextToken + 1, claims := s.claims + [given.value])
  {
    var (s', given) := PickClaim(s, who, limits, locked);
    var j := given.value.job;
    assert JobOk(s.jobs[j], limits) && CountsOk(s, j, limits);
    OtherClaims(s.claims, given.value, j, true);
    OtherClaims(s.claims, given.value, j, false);
  }

  lemma PickKeepsInv(s: State, who: nat, locked: set<nat>, limits: Limits)
    requires Inv(s, limits) && LimitsOk(limits)
    ensures Inv(PickClaim(s, who, limits, locked).0, limits)
  {
    var (s', given) := PickClaim(s, who, limits, locked);
    if given.Some? {
      GivenClaimIsOk(s, who, locked, limits);
      ClaimingIsFree(s, None, limits);
      GivingOutKeepsInv(s.(claiming := None), given.value.job, s'.jobs[given.value.job], given.value, limits);
    } else if IsClaiming(s, who) {
      ExpiryKeepsInv(s, who, locked, limits);
    }
  }

  lemma MutationKeepsInv(s: State, j: nat, token: nat, mutation: Mutation, limits: Limits)
    requires Inv(s, limits) && LimitsOk(limits)
    ensures Inv(Step(s, Mutate(j, token, mutation), limits), limits)
  {
    var s' := Step(s, Mutate(j, token, mutation), limits);
    if s' != s {
      var job := s'.jobs[j];
      assert JobOk(s.jobs[j], limits) && HeldOk(s, j) && CountsOk(s, j, limits);
      var row := SetJob(s, j, job);
      RowKeepsInv(s, j, job, limits);
      assert s' == row.(applied := s.applied + [Applied(token, j, mutation)]);
      forall i | 0 <= i < |s'.jobs| ensures HeldOk(s', i) && CountsOk(s', i, limits) {
        assert HeldOk(row, i) && CountsOk(row, i, limits);
      }
      forall k | 0 <= k < |s'.claims| ensures ClaimOk(s', k) { assert ClaimOk(row, k); }
      assert Spent(s', token) by {
        forall i | 0 <= i < |s'.jobs| ensures s'.jobs[i].token != Some(token) {
          assert HeldOk(s, i) && JobOk(s.jobs[i], limits);
        }
      }
      forall i | 0 <= i < |s'.applied| ensures AppliedOk(s', s'.applied[i]) {
        if i < |s.applied| { assert AppliedOk(row, s.applied[i]); }
      }
      forall i | 0 <= i < |s.applied| ensures s.applied[i].token != token { assert AppliedOk(s, s.applied[i]); }
    }
  }

  lemma StepKeepsInv(s: State, a: Action, limits: Limits)
    requires Inv(s, limits) && LimitsOk(limits)
    ensures Inv(Step(s, a, limits), limits)
  {
    match a
    case CheckClaims(who, at) => ClaimingIsFree(s, Some(Pending(who, at)), limits);
    case PickJob(who, locked) => PickKeepsInv(s, who, locked, limits);
    case AbortClaim(_) => ClaimingIsFree(s, None, limits);
    case Mutate(j, token, mutation) => MutationKeepsInv(s, j, token, mutation, limits);
    case Renew(j, token) =>
      if Holds(s, j, token) {
        assert JobOk(s.jobs[j], limits) && CountsOk(s, j, limits);
        RowKeepsInv(s, j, s.jobs[j].(claimedAt := s.now), limits);
      }
    case Enqueue => EnqueueKeepsInv(s, limits);
    case TimePasses(until) =>
      var s' := Step(s, a, limits);
      forall j | 0 <= j < |s'.jobs| ensures HeldOk(s', j) && CountsOk(s', j, limits) { assert HeldOk(s, j) && CountsOk(s, j, limits); }
      forall k | 0 <= k < |s'.claims| ensures ClaimOk(s', k) { assert ClaimOk(s, k); }
      forall i | 0 <= i < |s'.applied| ensures AppliedOk(s', s'.applied[i]) { assert AppliedOk(s, s.applied[i]); }
  }

  lemma EnqueueKeepsInv(s: State, limits: Limits)
    requires Inv(s, limits) && LimitsOk(limits)
    ensures Inv(Step(s, Enqueue, limits), limits)
  {
    var s' := Step(s, Enqueue, limits);
    forall k | 0 <= k < |s'.claims| ensures ClaimOk(s', k) && s'.claims[k].job < |s.jobs| { assert ClaimOk(s, k); }
    NoClaims(s.claims, |s.jobs|, true);
    NoClaims(s.claims, |s.jobs|, false);
    forall j | 0 <= j < |s'.jobs| ensures JobOk(s'.jobs[j], limits) && HeldOk(s', j) && CountsOk(s', j, limits) {
      if j < |s.jobs| { assert JobOk(s.jobs[j], limits) && HeldOk(s, j) && CountsOk(s, j, limits); }
    }
    forall i | 0 <= i < |s'.applied| ensures AppliedOk(s', s'.applied[i]) { assert AppliedOk(s, s.applied[i]); }
  }

  lemma {:induction false} NoClaims(claims: seq<Claim>, j: nat, executes: bool)
    requires forall k :: 0 <= k < |claims| ==> claims[k].job < j
    ensures ClaimsOf(claims, j, executes) == 0
  {
    if claims != [] { NoClaims(claims[..|claims| - 1], j, executes); }
  }

  lemma {:induction false} RunKeepsInv(s: State, trace: seq<Action>, limits: Limits)
    requires Inv(s, limits) && LimitsOk(limits)
    ensures Inv(Run(s, trace, limits), limits)
    decreases |trace|
  {
    if trace != [] {
      StepKeepsInv(s, trace[0], limits);
      RunKeepsInv(Step(s, trace[0], limits), trace[1..], limits);
    }
  }

  // ---- Main results ----

  /** Under one claim at most one mutation is ever applied, on the claimed job and of the claimed
      kind; and a job is executed and delivered no more often than its limits allow. */
  lemma ClaimsAreFenced(trace: seq<Action>, limits: Limits)
    requires LimitsOk(limits)
    ensures var s := Run(Initial(), trace, limits);
            && AppliedOnce(s)
            && (forall i :: 0 <= i < |s.applied| ==>
                  var a := s.applied[i];
                  && a.token < |s.claims| && s.claims[a.token].token == a.token && s.claims[a.token].job == a.job
                  && s.claims[a.token].executes == (a.mutation.Record? || a.mutation.Retry?))
            && (forall j :: 0 <= j < |s.jobs| ==>
                  && ClaimsOf(s.claims, j, true) <= limits.executions
                  && ClaimsOf(s.claims, j, false) <= limits.deliveries)
  {
    RunKeepsInv(Initial(), trace, limits);
    var s := Run(Initial(), trace, limits);
    forall j | 0 <= j < |s.jobs|
      ensures ClaimsOf(s.claims, j, true) <= limits.executions && ClaimsOf(s.claims, j, false) <= limits.deliveries
    {
      assert CountsOk(s, j, limits);
    }
    forall i | 0 <= i < |s.applied|
      ensures var a := s.applied[i];
              && a.token < |s.claims| && s.claims[a.token].token == a.token && s.claims[a.token].job == a.job
              && s.claims[a.token].executes == (a.mutation.Record? || a.mutation.Retry?)
    {
      assert AppliedOk(s, s.applied[i]);
      assert ClaimOk(s, s.applied[i].token);
    }
  }

  lemma PickKeepsOutcome(s: State, who: nat, locked: set<nat>, limits: Limits, j: nat)
    requires Inv(s, limits) && j < |s.jobs| && s.jobs[j].outcome.Some?
    ensures var s' := PickClaim(s, who, limits, locked).0;
            && j < |s'.jobs| && s'.jobs[j].outcome == s.jobs[j].outcome
            && ClaimsOf(s'.claims, j, true) == ClaimsOf(s.claims, j, true)
  {
    assert JobOk(s.jobs[j], limits);
    var given := PickClaim(s, who, limits, locked).1;
    if given.Some? { OtherClaims(s.claims, given.value, j, true); }
  }

  lemma OutcomeStays(s: State, a: Action, limits: Limits, j: nat)
    requires Inv(s, limits) && j < |s.jobs| && s.jobs[j].outcome.Some?
    ensures var s' := Step(s, a, limits);
            && j < |s'.jobs| && s'.jobs[j].outcome == s.jobs[j].outcome
            && ClaimsOf(s'.claims, j, true) == ClaimsOf(s.claims, j, true)
  {
    if a.PickJob? {
      PickKeepsOutcome(s, a.who, a.locked, limits, j);
    } else {
      assert JobOk(s.jobs[j], limits);
    }
  }

  /** An outcome, once recorded, is never replaced, and its job is never executed again. */
  lemma {:induction false} OutcomeIsFinal(s: State, trace: seq<Action>, limits: Limits, j: nat)
    requires Inv(s, limits) && LimitsOk(limits) && j < |s.jobs| && s.jobs[j].outcome.Some?
    ensures var s' := Run(s, trace, limits);
            && j < |s'.jobs| && s'.jobs[j].outcome == s.jobs[j].outcome
            && ClaimsOf(s'.claims, j, true) == ClaimsOf(s.claims, j, true)
    decreases |trace|
  {
    if trace != [] {
      OutcomeStays(s, trace[0], limits, j);
      StepKeepsInv(s, trace[0], limits);
      OutcomeIsFinal(Step(s, trace[0], limits), trace[1..], limits, j);
    }
  }

  // ---- One job at a time ----

  predicate OneBusy(s: State) {
    forall i, j :: 0 <= i < |s.jobs| && 0 <= j < |s.jobs| && Busy(s.jobs[i]) && Busy(s.jobs[j]) ==> i == j
  }

  /** The second read does not see the claimed job, because its row is locked or because its claim has
      been renewed since the first read, and sees another job that waits. */
  predicate PassesOver(s: State, limits: Limits, locked: set<nat>)
    requires s.claiming.Some?
  {
    var at := s.claiming.value.at;
    && (exists j :: 0 <= j < |s.jobs| && Busy(s.jobs[j]) && (j in locked || Fresh(s.jobs[j], at, limits)))
    && (exists k :: 0 <= k < |s.jobs| && k !in locked && Waiting(s.jobs[k], at))
  }

  /** One job at a time survives the second read of a claim exactly when it does not pass over the
      claimed job for another one. */
  lemma OneAtATimeIsExact(s: State, who: nat, limits: Limits, locked: set<nat>)
    requires OneBusy(s) && IsClaiming(s, who)
    ensures OneBusy(PickClaim(s, who, limits, locked).0) <==> !PassesOver(s, limits, locked)
  {
    var (s', given) := PickClaim(s, who, limits, locked);
    var at, picked := s.claiming.value.at, PickAmong(s.jobs, s.claiming.value.at, limits, locked, |s.jobs|);
    if PassesOver(s, limits, locked) {
      var busy :| 0 <= busy < |s.jobs| && Busy(s.jobs[busy]) && (busy in locked || Fresh(s.jobs[busy], at, limits));
      var waiting :| 0 <= waiting < |s.jobs| && waiting !in locked && Waiting(s.jobs[waiting], at);
      assert Open(s.jobs[waiting], at, limits);
      var j := picked.value;
      assert j != busy && !Busy(s.jobs[j]);
      assert Busy(s'.jobs[j]) && Busy(s'.jobs[busy]);
    } else if picked.Some? {
      var j := picked.value;
      assert s'.jobs == s.jobs[j := s'.jobs[j]];
      forall i | 0 <= i < |s'.jobs| && Busy(s'.jobs[i]) && Busy(s'.jobs[j]) ensures i == j {
        if i != j && !Busy(s.jobs[j]) {
          assert Waiting(s.jobs[j], at);
          assert i !in locked && !Fresh(s.jobs[i], at, limits);
          assert Open(s.jobs[i], at, limits) && Before(s.jobs[i], s.jobs[j]);
        }
      }
    }
  }

  /** Between the two reads only a renewal can make a claimed job fresh. */
  lemma {:induction false} OnlyRenewalsIntervene(s: State, who: nat, trace: seq<Action>, limits: Limits)
    requires IsClaiming(s, who) && forall j :: 0 <= j < |s.jobs| ==> !Fresh(s.jobs[j], s.claiming.value.at, limits)
    requires forall k :: 0 <= k < |trace| ==> !trace[k].Renew? && trace[k] != AbortClaim(who) && !(trace[k].PickJob? && trace[k].who == who)
    ensures var s' := Run(s, trace, limits);
      s'.claiming == s.claiming && forall j :: 0 <= j < |s'.jobs| ==> !Fresh(s'.jobs[j], s.claiming.value.at, limits)
    decreases |trace|
  {
    if trace != [] {
      var s' := Step(s, trace[0], limits);
      assert s'.claiming == s.claiming;
      forall j | 0 <= j < |s'.jobs| ensures !Fresh(s'.jobs[j], s.claiming.value.at, limits) {
        if j < |s.jobs| { assert !Fresh(s.jobs[j], s.claiming.value.at, limits); }
      }
      OnlyRenewalsIntervene(s', who, trace[1..], limits);
    }
  }

  /** A claim that is checked and finds no fresh job begins without one. */
  lemma CheckFindsNoneFresh(s: State, who: nat, at: nat, limits: Limits)
    requires s.claiming.None? && at <= s.now
    ensures var s' := CheckClaim(s, who, at, limits);
      s'.jobs == s.jobs && (s'.claiming == Some(Pending(who, at)) <==> forall j :: 0 <= j < |s.jobs| ==> !Fresh(s.jobs[j], at, limits))
  {
  }

  ghost predicate NeverPassesOver(s: State, trace: seq<Action>, limits: Limits)
    decreases |trace|
  {
    trace == [] ||
    (!(trace[0].PickJob? && IsClaiming(s, trace[0].who) && PassesOver(s, limits, trace[0].locked))
     && NeverPassesOver(Step(s, trace[0], limits), trace[1..], limits))
  }

  /** No other function makes a job busy that was not. */
  lemma OthersKeepOneBusy(s: State, a: Action, limits: Limits)
    requires Inv(s, limits) && OneBusy(s) && !a.PickJob?
    ensures OneBusy(Step(s, a, limits))
  {
    var s' := Step(s, a, limits);
    forall j | 0 <= j < |s'.jobs| && Busy(s'.jobs[j]) ensures j < |s.jobs| && Busy(s.jobs[j]) {
      if j < |s.jobs| { assert JobOk(s.jobs[j], limits); }
    }
  }

  /** In every run whose claims pass nothing over, at most one job is busy at any time. */
  lemma {:induction false} OneJobAtATime(s: State, trace: seq<Action>, limits: Limits)
    requires Inv(s, limits) && LimitsOk(limits) && OneBusy(s) && NeverPassesOver(s, trace, limits)
    ensures OneBusy(Run(s, trace, limits))
    decreases |trace|
  {
    if trace != [] {
      var a := trace[0];
      if a.PickJob? {
        if IsClaiming(s, a.who) { OneAtATimeIsExact(s, a.who, limits, a.locked); }
      } else {
        OthersKeepOneBusy(s, a, limits);
      }
      StepKeepsInv(s, a, limits);
      OneJobAtATime(Step(s, a, limits), trace[1..], limits);
    }
  }

  /** Two jobs, the first of them claimed a long time ago. */
  function TwoJobs(limits: Limits): seq<Action> {
    [Enqueue, Enqueue, CheckClaims(0, 0), PickJob(0, {}), TimePasses(limits.staleAfter)]
  }

  predicate FirstIsStale(s: State, limits: Limits) {
    && s == State([Job(Processing, Some(0), 0, 0, 0, 0, None, None), Job(Queued, None, 0, 0, 0, 0, None, None)],
                  limits.staleAfter, 1, [Claim(0, 0, true)], [], None)
  }

  lemma FirstStep(s: State, a: Action, rest: seq<Action>, limits: Limits)
    ensures Run(s, [a] + rest, limits) == Run(Step(s, a, limits), rest, limits)
  {
    assert ([a] + rest)[1..] == rest;
  }

  lemma FourSteps(s: State, a: Action, b: Action, c: Action, d: Action, limits: Limits)
    ensures Run(s, [a, b, c, d], limits) == Step(Step(Step(Step(s, a, limits), b, limits), c, limits), d, limits)
  {
    var s1 := Step(s, a, limits);
    var s2 := Step(s1, b, limits);
    var s3 := Step(s2, c, limits);
    FirstStep(s, a, [b, c, d], limits);
    FirstStep(s1, b, [c, d], limits);
    FirstStep(s2, c, [d], limits);
    FirstStep(s3, d, [], limits);
    hide Step;
    assert [a] + [b, c, d] == [a, b, c, d] && [b] + [c, d] == [b, c, d] && [c] + [d] == [c, d] && [d] + [] == [d];
  }

  lemma FiveSteps(s: State, a: Action, b: Action, c: Action, d: Action, e: Action, limits: Limits)
    ensures Run(s, [a, b, c, d, e], limits) == Step(Step(Step(Step(Step(s, a, limits), b, limits), c, limits), d, limits), e, limits)
  {
    FirstStep(s, a, [b, c, d, e], limits);
    FourSteps(Step(s, a, limits), b, c, d, e, limits);
    hide Step;
    assert [a] + [b, c, d, e] == [a, b, c, d, e];
  }

  lemma TwoJobsRun(limits: Limits)
    requires LimitsOk(limits)
    ensures FirstIsStale(Run(Initial(), TwoJobs(limits), limits), limits)
  {
    var one := Step(Initial(), Enqueue, limits);
    var two := Step(one, Enqueue, limits);
    var checked := Step(two, CheckClaims(0, 0), limits);
    assert !SomeoneIsFresh(two, 0, limits) && IsClaiming(checked, 0);
    assert PickAmong(checked.jobs, 0, limits, {}, 1) == Some(0);
    assert PickAmong(checked.jobs, 0, limits, {}, 2) == Some(0);
    var claimed := Step(checked, PickJob(0, {}), limits);
    var late := Step(claimed, TimePasses(limits.staleAfter), limits);
    FiveSteps(Initial(), Enqueue, Enqueue, CheckClaims(0, 0), PickJob(0, {}), TimePasses(limits.staleAfter), limits);
  }

  /** Both ways to pass a claimed job over are reachable: a renewal that holds the row's lock during the
      second read, and one that commits between the two reads. */
  lemma TwoJobsCanBeBusy(limits: Limits)
    requires LimitsOk(limits)
    ensures !OneBusy(Run(Initial(), TwoJobs(limits) + [CheckClaims(1, limits.staleAfter), PickJob(1, {0})], limits))
    ensures !OneBusy(Run(Initial(), TwoJobs(limits) + [CheckClaims(1, limits.staleAfter), Renew(0, 0), PickJob(1, {})], limits))
  {
    TwoJobsRun(limits);
    var late := Run(Initial(), TwoJobs(limits), limits);
    var checked := Step(late, CheckClaims(1, limits.staleAfter), limits);
    assert !SomeoneIsFresh(late, limits.staleAfter, limits) && IsClaiming(checked, 1);
    SecondJobIsPicked(checked, {0}, limits);
    var renewed := Step(checked, Renew(0, 0), limits);
    assert Holds(checked, 0, 0);
    SecondJobIsPicked(renewed, {}, limits);
    RunTwice(Initial(), TwoJobs(limits), [CheckClaims(1, limits.staleAfter), PickJob(1, {0})], limits);
    RunTwice(Initial(), TwoJobs(limits), [CheckClaims(1, limits.staleAfter), Renew(0, 0), PickJob(1, {})], limits);
    assert [CheckClaims(1, limits.staleAfter), PickJob(1, {0})][1..] == [PickJob(1, {0})];
    assert Run(checked, [PickJob(1, {0})], limits) == Run(Step(checked, PickJob(1, {0}), limits), [], limits);
    assert [CheckClaims(1, limits.staleAfter), Renew(0, 0), PickJob(1, {})][1..] == [Renew(0, 0), PickJob(1, {})];
    assert [Renew(0, 0), PickJob(1, {})][1..] == [PickJob(1, {})];
    assert Run(renewed, [PickJob(1, {})], limits) == Run(Step(renewed, PickJob(1, {}), limits), [], limits);
    assert Run(checked, [Renew(0, 0), PickJob(1, {})], limits) == Run(renewed, [PickJob(1, {})], limits);
  }

  lemma SecondJobIsPicked(s: State, locked: set<nat>, limits: Limits)
    requires IsClaiming(s, 1) && |s.jobs| == 2 && Busy(s.jobs[0]) && Waiting(s.jobs[1], s.claiming.value.at)
    requires 1 !in locked && (0 in locked || Fresh(s.jobs[0], s.claiming.value.at, limits))
    ensures !OneBusy(PickClaim(s, 1, limits, locked).0)
  {
    assert OneBusy(s) by { assert !Busy(s.jobs[1]); }
    assert PassesOver(s, limits, locked);
    OneAtATimeIsExact(s, 1, limits, locked);
  }

  // ---- The back-off of a retry ----

  lemma {:induction false} BackOffFits(n: nat)
    ensures BackOff(n).Some? <==> n <= 30
  {
    Power2Grows(n);
    assert Power2(30) == 0x4000_0000 by { calc { Power2(30); 1024 * Power2(20); 1024 * 1024 * Power2(10); } }
    if n <= 30 { Power2Below(n, 30); } else { Power2Below(31, n); }
  }

  lemma {:induction false} Power2Grows(n: nat)
    ensures Power2(n) >= 1
  {
    if n > 0 { Power2Grows(n - 1); }
  }

  lemma {:induction false} Power2Below(m: nat, n: nat)
    requires m <= n
    ensures Power2(m) <= Power2(n)
    decreases n - m
  {
    if m < n {
      Power2Below(m, n - 1);
      Power2Grows(n - 1);
    }
  }

  lemma {:induction false} RunTwice(s: State, first: seq<Action>, second: seq<Action>, limits: Limits)
    ensures Run(s, first + second, limits) == Run(Run(s, first, limits), second, limits)
    decreases |first|
  {
    if first == [] {
      assert first + second == second;
    } else {
      assert (first + second)[1..] == first[1..] + second;
      RunTwice(Step(s, first[0], limits), first[1..], second, limits);
    }
  }

  /** One job that waits for delivery after `n` failed deliveries. */
  predicate Undelivered(s: State, n: nat) {
    && |s.jobs| == 1
    && s.jobs[0].status.OutcomeReady? && s.jobs[0].deliveries == n && s.jobs[0].token.None? && s.claiming.None?
  }

  /** Its next claim, once it has become available. */
  function Reclaim(s: State): seq<Action>
    requires |s.jobs| == 1
  {
    [TimePasses(s.now + s.jobs[0].availableAt), CheckClaims(0, s.now + s.jobs[0].availableAt), PickJob(0, {})]
  }

  lemma ReclaimDelivers(s: State, n: nat, limits: Limits)
    requires Undelivered(s, n)
    ensures var s' := Run(s, Reclaim(s), limits);
            && |s'.jobs| == 1 && Holds(s', 0, s.nextToken)
            && s'.jobs[0].status.Delivering? && s'.jobs[0].deliveries == n && s'.claiming.None?
  {
    var later := Step(s, TimePasses(s.now + s.jobs[0].availableAt), limits);
    var checked := Step(later, CheckClaims(0, later.now), limits);
    assert !SomeoneIsFresh(later, later.now, limits) && IsClaiming(checked, 0);
    assert Open(checked.jobs[0], later.now, limits);
    assert PickAmong(checked.jobs, later.now, limits, {}, 1) == Some(0);
    assert Run(s, Reclaim(s), limits) == Step(checked, PickJob(0, {}), limits) by {
      assert Reclaim(s)[1..] == [CheckClaims(0, later.now), PickJob(0, {})] && Reclaim(s)[1..][1..] == [PickJob(0, {})];
      assert Run(checked, [PickJob(0, {})], limits) == Run(Step(checked, PickJob(0, {}), limits), [], limits);
      assert Run(later, [CheckClaims(0, later.now), PickJob(0, {})], limits) == Run(checked, [PickJob(0, {})], limits);
    }
  }

  /** A run in which the delivery of one job fails `n` times. */
  lemma {:induction false} FailingDeliveries(n: nat, limits: Limits) returns (trace: seq<Action>)
    requires LimitsOk(limits) && n <= 30 && n < limits.deliveries
    ensures Undelivered(Run(Initial(), trace, limits), n)
  {
    if n == 0 {
      var record := Mutate(0, 0, Record(Outcome(NoNews, None, None)));
      trace := [Enqueue, CheckClaims(0, 0), PickJob(0, {}), record];
      var queued := Step(Initial(), Enqueue, limits);
      var checked := Step(queued, CheckClaims(0, 0), limits);
      assert !SomeoneIsFresh(queued, 0, limits) && IsClaiming(checked, 0);
      assert PickAmong(checked.jobs, 0, limits, {}, 1) == Some(0);
      var claimed := Step(checked, PickJob(0, {}), limits);
      var recorded := Step(claimed, record, limits);
      FourSteps(Initial(), Enqueue, CheckClaims(0, 0), PickJob(0, {}), record, limits);
    } else {
      var earlier := FailingDeliveries(n - 1, limits);
      var s := Run(Initial(), earlier, limits);
      var failure := Mutate(0, s.nextToken, RetryDelivery("admin_delivery_failed"));
      ReclaimDelivers(s, n - 1, limits);
      var claimed := Run(s, Reclaim(s), limits);
      BackOffFits(n);
      assert Run(claimed, [failure], limits) == Run(Step(claimed, failure, limits), [], limits);
      RunTwice(s, Reclaim(s), [failure], limits);
      RunTwice(Initial(), earlier, Reclaim(s) + [failure], limits);
      trace := earlier + (Reclaim(s) + [failure]);
    }
  }

  ghost predicate RetriesNeverRaise(limits: Limits) {
    forall trace: seq<Action>, j: nat, token: nat, mutation: Mutation :: mutation.Retry? || mutation.RetryDelivery? ==>
      MutateJob(Run(Initial(), trace, limits), j, token, mutation, limits).Some?
  }

  lemma ShortBudgetNeverRaises(s: State, j: nat, token: nat, mutation: Mutation, limits: Limits)
    requires Inv(s, limits) && LimitsOk(limits) && limits.deliveries <= 31
    requires mutation.Retry? || mutation.RetryDelivery?
    ensures MutateJob(s, j, token, mutation, limits).Some?
  {
    if Holds(s, j, token) {
      assert JobOk(s.jobs[j], limits);
      BackOffFits(s.jobs[j].executions + 1);
      BackOffFits(s.jobs[j].deliveries + 1);
    }
  }

  lemma LongBudgetRaises(limits: Limits) returns (trace: seq<Action>, token: nat)
    requires LimitsOk(limits) && limits.deliveries > 31
    ensures MutateJob(Run(Initial(), trace, limits), 0, token, RetryDelivery("admin_delivery_failed"), limits).None?
  {
    var failures := FailingDeliveries(30, limits);
    var s := Run(Initial(), failures, limits);
    trace, token := failures + Reclaim(s), s.nextToken;
    ReclaimDelivers(s, 30, limits);
    RunTwice(Initial(), failures, Reclaim(s), limits);
    BackOffFits(31);
  }

  /** A failed attempt can always be put back in the queue exactly when the delivery limit is at most
      31: beyond it the thirty-first delay no longer fits the integer it is cast to. */
  lemma RetryLimitIsExact(limits: Limits)
    requires LimitsOk(limits)
    ensures RetriesNeverRaise(limits) <==> limits.deliveries <= 31
  {
    if limits.deliveries <= 31 {
      forall trace: seq<Action>, j: nat, token: nat, mutation: Mutation | mutation.Retry? || mutation.RetryDelivery?
        ensures MutateJob(Run(Initial(), trace, limits), j, token, mutation, limits).Some?
      {
        RunKeepsInv(Initial(), trace, limits);
        ShortBudgetNeverRaises(Run(Initial(), trace, limits), j, token, mutation, limits);
      }
    } else {
      var trace, token := LongBudgetRaises(limits);
    }
  }
}
