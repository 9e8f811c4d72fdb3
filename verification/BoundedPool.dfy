/** The bounded pool that maps an asynchronous operation over a list: workers share one counter,
    and each keeps claiming the next index until there is none left. */
module BoundedPool {
  import opened Wrappers

  /** How one call of the operation settles. */
  datatype Outcome<R> = Fulfilled(value: R) | Rejected(reason: nat)

  datatype Worker = Ready | Running(index: nat) | Exited

  /** `started` is the order in which the operation was called. */
  datatype Pool<R> = Pool(next: nat, results: seq<Option<Outcome<R>>>, workers: seq<Worker>, started: seq<nat>)

  function PoolSize(concurrency: int, n: nat): nat {
    var wanted := if concurrency < 1 then 1 else concurrency;
    if wanted < n then wanted else n
  }

  function Start<R>(concurrency: int, n: nat): Pool<R> {
    Pool(0, seq(n, _ => None), seq(PoolSize(concurrency, n), _ => Ready), [])
  }

  /** Worker `w` runs until its next await: it claims an index and calls the operation, or its call
      settles, or it leaves. `outcomes[i]` is how the call for index `i` settles. */
  function Step<R>(p: Pool<R>, w: nat, outcomes: seq<Outcome<R>>): Pool<R>
    requires |p.results| == |outcomes|
  {
    if w >= |p.workers| then p
    else match p.workers[w]
      case Ready =>
        if p.next >= |outcomes| then p.(workers := p.workers[w := Exited], next := p.next + 1)
        else p.(workers := p.workers[w := Running(p.next)], next := p.next + 1, started := p.started + [p.next])
      case Running(index) =>
        if index >= |outcomes| then p
        else p.(workers := p.workers[w := Ready], results := p.results[index := Some(outcomes[index])])
      case Exited => p
  }

  function Run<R>(p: Pool<R>, schedule: seq<nat>, outcomes: seq<Outcome<R>>): (r: Pool<R>)
    requires |p.results| == |outcomes|
    ensures |r.results| == |outcomes|
    decreases |schedule|
  {
    if schedule == [] then p else Run(Step(p, schedule[0], outcomes), schedule[1..], outcomes)
  }

  predicate CanStep<R>(p: Pool<R>, w: nat) {
    w < |p.workers| && !p.workers[w].Exited?
  }

  /** Promise.all is satisfied: every worker has returned. */
  predicate Done<R>(p: Pool<R>) {
    forall w :: 0 <= w < |p.workers| ==> p.workers[w].Exited?
  }

  function InFlight(workers: seq<Worker>): nat {
    if workers == [] then 0
    else (if workers[0].Running? then 1 else 0) + InFlight(workers[1..])
  }

  /** How many steps are left: every enabled step uses up exactly one. */
  function Weight(workers: seq<Worker>): nat {
    if workers == [] then 0
    else (match workers[0] case Ready => 1 case Running(_) => 2 case Exited => 0) + Weight(workers[1..])
  }

  function StepsLeft<R>(p: Pool<R>): nat {
    Weight(p.workers) + 2 * (if p.next < |p.results| then |p.results| - p.next else 0)
  }

  // ---- The invariant ----

  predicate RunsIt<R>(p: Pool<R>, w: nat, i: nat) {
    w < |p.workers| && p.workers[w] == Running(i)
  }

  ghost predicate IndexOk<R>(p: Pool<R>, i: nat, outcomes: seq<Outcome<R>>)
    requires |p.results| == |outcomes| && i < |outcomes|
  {
    && (p.results[i].Some? ==> p.results[i].value == outcomes[i])
    && (i >= p.next ==> p.results[i].None?)
    && (i < p.next ==> p.results[i].Some? || exists w :: RunsIt(p, w, i))
    && (forall w :: RunsIt(p, w, i) ==> i < p.next && p.results[i].None?)
    && (forall v, w :: RunsIt(p, v, i) && RunsIt(p, w, i) ==> v == w)
  }

  ghost predicate Inv<R>(p: Pool<R>, outcomes: seq<Outcome<R>>) {
    && |p.results| == |outcomes|
    && (forall w :: 0 <= w < |p.workers| && p.workers[w].Running? ==> p.workers[w].index < |outcomes|)
    && (forall w :: 0 <= w < |p.workers| && p.workers[w].Exited? ==> p.next >= |outcomes|)
    && (forall i :: 0 <= i < |outcomes| ==> IndexOk(p, i, outcomes))
    && p.started == seq(if p.next < |outcomes| then p.next else |outcomes|, i => i)
  }

  lemma {:induction false} WeightOf(workers: seq<Worker>, w: nat, worker: Worker)
    requires w < |workers|
    ensures var own := (x: Worker) => match x case Ready => 1 case Running(_) => 2 case Exited => 0;
            Weight(workers[w := worker]) == Weight(workers) - own(workers[w]) + own(worker)
  {
    if w > 0 {
      assert workers[w := worker][1..] == workers[1..][w - 1 := worker];
      WeightOf(workers[1..], w - 1, worker);
    }
  }

  lemma {:induction false} WeightBounds(workers: seq<Worker>)
    ensures InFlight(workers) <= |workers|
    ensures (forall w :: 0 <= w < |workers| ==> workers[w].Ready?) ==> Weight(workers) == |workers|
    ensures Weight(workers) == 0 <==> forall w :: 0 <= w < |workers| ==> workers[w].Exited?
  {
    if workers != [] {
      WeightBounds(workers[1..]);
      assert forall w :: 1 <= w < |workers| ==> workers[w] == workers[1..][w - 1];
      if Weight(workers[1..]) == 0 && workers[0].Exited? {
      } else if Weight(workers[1..]) != 0 {
        var w :| 0 <= w < |workers[1..]| && !workers[1..][w].Exited?;
        assert !workers[w + 1].Exited?;
      }
    }
  }

  lemma ClaimKeepsInv<R>(p: Pool<R>, w: nat, outcomes: seq<Outcome<R>>)
    requires Inv(p, outcomes) && w < |p.workers| && p.workers[w].Ready? && p.next < |outcomes|
    ensures Inv(Step(p, w, outcomes), outcomes)
  {
    var p' := Step(p, w, outcomes);
    forall i | 0 <= i < |outcomes| ensures IndexOk(p', i, outcomes) {
      assert IndexOk(p, i, outcomes);
      if i == p.next {
        assert RunsIt(p', w, i);
      } else if i < p.next && p.results[i].None? {
        var v :| RunsIt(p, v, i);
        assert RunsIt(p', v, i);
      }
      forall v | RunsIt(p', v, i) ensures if i == p.next then v == w else RunsIt(p, v, i) {
        assert v == w || RunsIt(p, v, i);
      }
    }
  }

  lemma SettleKeepsInv<R>(p: Pool<R>, w: nat, outcomes: seq<Outcome<R>>)
    requires Inv(p, outcomes) && w < |p.workers| && p.workers[w].Running?
    ensures Inv(Step(p, w, outcomes), outcomes)
  {
    var p' := Step(p, w, outcomes);
    var index := p.workers[w].index;
    assert RunsIt(p, w, index) && IndexOk(p, index, outcomes);
    forall i | 0 <= i < |outcomes| ensures IndexOk(p', i, outcomes) {
      assert IndexOk(p, i, outcomes);
      if i < p.next && p'.results[i].None? {
        var v :| RunsIt(p, v, i);
        assert RunsIt(p', v, i);
      }
      forall v | RunsIt(p', v, i) ensures RunsIt(p, v, i) && i != index {
        assert RunsIt(p, v, i) && v != w;
      }
    }
  }

  lemma LeaveKeepsInv<R>(p: Pool<R>, w: nat, outcomes: seq<Outcome<R>>)
    requires Inv(p, outcomes) && w < |p.workers| && p.workers[w].Ready? && p.next >= |outcomes|
    ensures Inv(Step(p, w, outcomes), outcomes)
  {
    var p' := Step(p, w, outcomes);
    forall i | 0 <= i < |outcomes| ensures IndexOk(p', i, outcomes) {
      assert IndexOk(p, i, outcomes);
      if p.results[i].None? {
        var v :| RunsIt(p, v, i);
        assert RunsIt(p', v, i);
      }
      forall v | RunsIt(p', v, i) ensures RunsIt(p, v, i) {}
    }
  }

  lemma StepKeepsInv<R>(p: Pool<R>, w: nat, outcomes: seq<Outcome<R>>)
    requires Inv(p, outcomes)
    ensures Inv(Step(p, w, outcomes), outcomes)
    ensures |Step(p, w, outcomes).workers| == |p.workers|
    ensures StepsLeft(Step(p, w, outcomes)) == StepsLeft(p) - (if CanStep(p, w) then 1 else 0)
  {
    if CanStep(p, w) {
      WeightOf(p.workers, w, Step(p, w, outcomes).workers[w]);
      if p.workers[w].Running? { SettleKeepsInv(p, w, outcomes); }
      else if p.next < |outcomes| { ClaimKeepsInv(p, w, outcomes); }
      else { LeaveKeepsInv(p, w, outcomes); }
    }
  }

  lemma DonePoolHasEveryResult<R>(p: Pool<R>, outcomes: seq<Outcome<R>>)
    requires Inv(p, outcomes) && Done(p) && (outcomes != [] ==> p.workers != [])
    ensures p.results == seq(|outcomes|, i requires 0 <= i < |outcomes| => Some(outcomes[i]))
    ensures p.started == seq(|outcomes|, i => i)
    ensures StepsLeft(p) == 0
  {
    if outcomes != [] { assert p.workers[0].Exited?; }
    forall i | 0 <= i < |outcomes| ensures p.results[i] == Some(outcomes[i]) { assert IndexOk(p, i, outcomes); }
    WeightBounds(p.workers);
  }

  lemma StartInv<R>(concurrency: int, outcomes: seq<Outcome<R>>)
    ensures var p := Start<R>(concurrency, |outcomes|);
            Inv(p, outcomes) && StepsLeft(p) == 2 * |outcomes| + PoolSize(concurrency, |outcomes|)
  {
    var p := Start<R>(concurrency, |outcomes|);
    WeightBounds(p.workers);
    forall i | 0 <= i < |outcomes| ensures IndexOk(p, i, outcomes) {}
  }

  // ---- Main results ----

  /** Each step of the schedule is one that its worker can take. */
  predicate Enabled<R>(p: Pool<R>, schedule: seq<nat>, outcomes: seq<Outcome<R>>)
    requires |p.results| == |outcomes|
    decreases |schedule|
  {
    schedule == [] || (CanStep(p, schedule[0]) && Enabled(Step(p, schedule[0], outcomes), schedule[1..], outcomes))
  }

  lemma {:induction false} RunKeepsInv<R>(p: Pool<R>, schedule: seq<nat>, outcomes: seq<Outcome<R>>)
    requires Inv(p, outcomes)
    ensures var p' := Run(p, schedule, outcomes);
            && Inv(p', outcomes) && |p'.workers| == |p.workers|
            && (Enabled(p, schedule, outcomes) ==> StepsLeft(p') == StepsLeft(p) - |schedule|)
    decreases |schedule|
  {
    if schedule != [] {
      StepKeepsInv(p, schedule[0], outcomes);
      RunKeepsInv(Step(p, schedule[0], outcomes), schedule[1..], outcomes);
    }
  }

  /** In every schedule, at every moment: no more calls in flight than the bound, the calls made so
      far were made in input order, each index once, and every result is the one of its own index. */
  lemma EveryScheduleIsBounded<R>(concurrency: int, schedule: seq<nat>, outcomes: seq<Outcome<R>>)
    ensures var p := Run(Start(concurrency, |outcomes|), schedule, outcomes);
            && InFlight(p.workers) <= PoolSize(concurrency, |outcomes|)
            && p.started == seq(|p.started|, i => i) && |p.started| <= |outcomes|
            && forall i :: 0 <= i < |outcomes| && p.results[i].Some? ==> p.results[i].value == outcomes[i] && i in p.started
  {
    StartInv(concurrency, outcomes);
    RunKeepsInv(Start(concurrency, |outcomes|), schedule, outcomes);
    var p := Run(Start(concurrency, |outcomes|), schedule, outcomes);
    WeightBounds(p.workers);
    forall i | 0 <= i < |outcomes| && p.results[i].Some? ensures p.results[i].value == outcomes[i] && i in p.started {
      assert IndexOk(p, i, outcomes);
      assert p.started[i] == i;
    }
  }

  /** Every schedule of enabled steps comes to an end after exactly 2n + size steps, and only then is
      the pool done; its results are then the outcomes, whoever finished first. */
  lemma EveryScheduleGivesTheSameResults<R>(concurrency: int, schedule: seq<nat>, outcomes: seq<Outcome<R>>)
    requires Enabled(Start(concurrency, |outcomes|), schedule, outcomes)
    ensures var p := Run(Start(concurrency, |outcomes|), schedule, outcomes);
            var total := 2 * |outcomes| + PoolSize(concurrency, |outcomes|);
            && |schedule| <= total
            && (Done(p) <==> |schedule| == total)
            && (Done(p) ==> p.results == seq(|outcomes|, i requires 0 <= i < |outcomes| => Some(outcomes[i])))
  {
    hide Step;
    StartInv(concurrency, outcomes);
    RunKeepsInv(Start(concurrency, |outcomes|), schedule, outcomes);
    var p := Run(Start(concurrency, |outcomes|), schedule, outcomes);
    if Done(p) { DonePoolHasEveryResult(p, outcomes); }
    WeightBounds(p.workers);
  }

  // ---- The method ----

  /** Who continues next: the scheduled worker if it can, else the first that can. */
  method NextWorker(workers: array<Worker>, proposed: nat) returns (w: nat)
    requires exists v :: 0 <= v < workers.Length && !workers[v].Exited?
    ensures w < workers.Length && !workers[w].Exited?
  {
    if proposed < workers.Length && !workers[proposed].Exited? { return proposed; }
    w := 0;
    while workers[w].Exited?
      invariant w < workers.Length
      invariant forall v :: 0 <= v < w ==> workers[v].Exited?
      decreases workers.Length - w
    {
      w := w + 1;
    }
  }

  method AllExited(workers: array<Worker>) returns (done: bool)
    ensures done <==> forall w :: 0 <= w < workers.Length ==> workers[w].Exited?
  {
    for w := 0 to workers.Length
      invariant forall v :: 0 <= v < w ==> workers[v].Exited?
    {
      if !workers[w].Exited? { return false; }
    }
    done := true;
  }

  /** mapSettledWithConcurrency: whatever the schedule, the results in input order. */
  method MapSettledWithConcurrency<R>(outcomes: seq<Outcome<R>>, concurrency: int, schedule: seq<nat>)
    returns (results: array<Option<Outcome<R>>>)
    ensures fresh(results)
    ensures results[..] == seq(|outcomes|, i requires 0 <= i < |outcomes| => Some(outcomes[i]))
  {
    results := new Option<Outcome<R>>[|outcomes|](_ => None);
    var nextIndex := 0;
    var workers := new Worker[PoolSize(concurrency, |outcomes|)](_ => Ready);
    ghost var pool := Start<R>(concurrency, |outcomes|);
    StartInv(concurrency, outcomes);
    var turn := 0;
    var done := AllExited(workers);
    while !done
      invariant fresh(results) && fresh(workers)
      invariant results[..] == pool.results && nextIndex == pool.next && workers[..] == pool.workers
      invariant |pool.workers| == PoolSize(concurrency, |outcomes|) && Inv(pool, outcomes)
      invariant done <==> Done(pool)
      decreases StepsLeft(pool), !done
    {
      var w := NextWorker(workers, if turn < |schedule| then schedule[turn] else 0);
      turn := turn + 1;
      StepKeepsInv(pool, w, outcomes);
      assert CanStep(pool, w) && workers[w] == pool.workers[w];
      pool := Step(pool, w, outcomes);
      match workers[w] {
        case Ready =>
          var index := nextIndex;
          nextIndex := nextIndex + 1;
          workers[w] := if index >= |outcomes| then Exited else Running(index);
        case Running(index) =>
          results[index] := Some(outcomes[index]);
          workers[w] := Ready;
      }
      done := AllExited(workers);
    }
    DonePoolHasEveryResult(pool, outcomes);
  }
}
