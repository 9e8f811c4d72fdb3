/** `runCheckpointedNewsSearch`: the `/news` request with its checkpoint. Runs of one request follow
    each other, and any of them may die at any await; each draft runs the publication protocol. */
module NewsRequest {
  import opened Wrappers
  import PS = PublicationStore
  import P = PublicationProtocol
  import Safety = PublicationSafety

  datatype CheckpointStatus = ReviewReady | NoCandidates | PublishedStatus | BlockedByPolicy

  datatype Checkpoint = Checkpoint(status: CheckpointStatus, draft: Option<nat>, messageId: Option<nat>, automatic: bool)

  /** What one tier of the search comes to. */
  datatype News = Found(body: string) | Nothing | SearchRaised

  datatype DraftStep = DraftStep(draft: nat, action: P.Action)

  /** buildSearchPlan: the last two days, then the last seven. */
  const TIERS: nat := 2

  /** What happens at one await: steps of the drafts' protocols, then how our own call ends, or the
      end of the process. */
  datatype Turn = Turn(others: seq<DraftStep>, delivery: Delivery, news: News, dies: bool)

  const QUIET_TURN := Turn([], Acked, Nothing, false)

  datatype Problem = CallRaised | ProcessDied

  datatype Outcome = Returned(status: CheckpointStatus, messageId: Option<nat>) | Fails(problem: Problem)

  function FirstTurn(turns: seq<Turn>): Turn {
    if turns == [] then QUIET_TURN else turns[0]
  }

  function Rest(turns: seq<Turn>): seq<Turn> {
    if turns == [] then [] else turns[1..]
  }

  /** What a call of ours comes to. */
  function Answer(turn: Turn): Option<Problem> {
    if turn.dies then Some(ProcessDied) else if turn.delivery.Acked? then None else Some(CallRaised)
  }

  /** The text that the tiers find: that of the first tier that does not come up empty. */
  function Searched(turns: seq<Turn>, tiers: nat): Result<Option<string>, Problem> {
    if tiers == 0 then Success(None)
    else if FirstTurn(turns).dies then Failure(ProcessDied)
    else match FirstTurn(turns).news
      case SearchRaised => Failure(CallRaised)
      case Found(body) => Success(Some(body))
      case Nothing => Searched(Rest(turns), tiers - 1)
  }

  /** A publisher that has ended stays as it ended. */
  ghost predicate EndingsStay(before: seq<P.State>, after: seq<P.State>) {
    && |before| <= |after|
    && forall d, pid :: 0 <= d < |before| && 0 <= pid < |before[d].procs| && before[d].procs[pid].pc.Finished? ==>
         pid < |after[d].procs| && after[d].procs[pid].pc == before[d].procs[pid].pc
  }

  lemma StepKeepsEndings(s: P.State, action: P.Action, canonical: string -> string)
    ensures var s' := P.Step(s, action, canonical);
      forall pid :: 0 <= pid < |s.procs| && s.procs[pid].pc.Finished? ==>
        pid < |s'.procs| && s'.procs[pid].pc == s.procs[pid].pc
  {
  }

  lemma EndingsStayReflexively(a: seq<P.State>)
    ensures EndingsStay(a, a)
  {
  }

  lemma EndingsStayTwice(a: seq<P.State>, b: seq<P.State>, c: seq<P.State>)
    requires EndingsStay(a, b) && EndingsStay(b, c)
    ensures EndingsStay(a, c)
  {
    forall d, pid | 0 <= d < |a| && 0 <= pid < |a[d].procs| && a[d].procs[pid].pc.Finished?
      ensures pid < |c[d].procs| && c[d].procs[pid].pc == a[d].procs[pid].pc
    {
      assert b[d].procs[pid].pc == a[d].procs[pid].pc;
    }
  }

  /** The last publisher that was launched has come back with this value. */
  predicate CameBackWith(launches: seq<Launch>, drafts: seq<P.State>, value: P.ReturnValue) {
    launches != [] && var last := launches[|launches| - 1];
    && last.draft < |drafts| && last.pid < |drafts[last.draft].procs|
    && drafts[last.draft].procs[last.pid].pc == P.Finished(P.Returned(value))
  }

  /** Process `pid` of the protocol of `draft` was started for this request. */
  datatype Launch = Launch(draft: nat, pid: nat)

  /** publishCheckpointedDraft goes on from these states, and approves a draft in review first. */
  predicate Resumes(status: PS.Status) {
    status.Review? || status.Approved? || status.Publishing? || status.Published?
  }

  /** Once the checkpoint names a draft it names it for good; its status is settled at most once. */
  predicate Moves(before: Option<Checkpoint>, after: Option<Checkpoint>) {
    before.Some? ==>
      && after.Some? && after.value.draft == before.value.draft
      && (after == before || (before.value.status.ReviewReady? && !after.value.status.ReviewReady?
                              && before.value.automatic && after.value.draft.Some?))
  }

  /** Every draft keeps its protocol's invariant, and every publisher of the request works on the draft
      that the checkpoint names. */
  ghost predicate RequestOk(checkpoint: Option<Checkpoint>, drafts: seq<P.State>, launches: seq<Launch>, canonical: string -> string) {
    && (forall d :: 0 <= d < |drafts| ==> P.Inv(drafts[d], canonical))
    && (checkpoint.Some? && checkpoint.value.draft.Some? ==> checkpoint.value.draft.value < |drafts|)
    && (checkpoint.Some? ==> (checkpoint.value.status.NoCandidates? <==> checkpoint.value.draft.None?))
    && (forall l :: 0 <= l < |launches| ==> LaunchOk(launches[l], checkpoint, drafts))
  }

  predicate LaunchOk(launch: Launch, checkpoint: Option<Checkpoint>, drafts: seq<P.State>) {
    && checkpoint.Some? && checkpoint.value.draft == Some(launch.draft)
    && launch.draft < |drafts| && launch.pid < |drafts[launch.draft].procs|
  }

  // ---- What a run does, as a function of its script ----

  /** The request with its drafts, the publishers started for it, and what is to come. */
  datatype Run = Run(checkpoint: Option<Checkpoint>, drafts: seq<P.State>, launches: seq<Launch>, turns: seq<Turn>)

  /** The drafts after these steps, of which only those that keep the protocol's assumptions are taken. */
  function StepAll(drafts: seq<P.State>, steps: seq<DraftStep>, canonical: string -> string): (r: seq<P.State>)
    ensures |r| == |drafts|
  {
    if steps == [] then drafts
    else
      var before, step := StepAll(drafts, steps[..|steps| - 1], canonical), steps[|steps| - 1];
      if step.draft < |before| && P.Disciplined(before[step.draft], step.action)
      then before[step.draft := P.Step(before[step.draft], step.action, canonical)] else before
  }

  function AfterAwait(r: Run, canonical: string -> string): (r': Run)
    ensures |r'.drafts| == |r.drafts| && r'.checkpoint == r.checkpoint && r'.launches == r.launches && r'.turns == Rest(r.turns)
  {
    r.(drafts := StepAll(r.drafts, FirstTurn(r.turns).others, canonical), turns := Rest(r.turns))
  }

  function AfterSave(r: Run, next: Checkpoint, canonical: string -> string): (Run, Option<Problem>) {
    var turn, r1 := FirstTurn(r.turns), AfterAwait(r, canonical);
    (if turn.dies || turn.delivery.NotApplied? then r1 else r1.(checkpoint := Some(next)), Answer(turn))
  }

  function AfterPrepare(r: Run, d: nat, canonical: string -> string): (result: (Run, Option<Problem>))
    requires d < |r.drafts|
    ensures |result.0.drafts| == |r.drafts| && result.0.checkpoint == r.checkpoint && result.0.launches == r.launches
  {
    var loading, r1 := FirstTurn(r.turns), AfterAwait(r, canonical);
    var status := r1.drafts[d].db.draft.status;
    if Answer(loading).Some? then (r1, Answer(loading))
    else if !Resumes(status) then (r1, Some(CallRaised))
    else if !status.Review? then (r1, None)
    else
      var approving, r2 := FirstTurn(r1.turns), AfterAwait(r1, canonical);
      if approving.dies then (r2, Some(ProcessDied))
      else if approving.delivery.NotApplied? || PS.ApproveDraft(r2.drafts[d].db).None? then (r2, Some(CallRaised))
      else (r2.(drafts := r2.drafts[d := P.Step(r2.drafts[d], P.Approve, canonical)]), Answer(approving))
  }

  function AfterStart(r: Run, d: nat, canonical: string -> string): (result: (Run, Option<P.Ending>))
    requires d < |r.drafts|
    ensures |result.0.drafts| == |r.drafts| && result.0.checkpoint == r.checkpoint
  {
    var pid := |r.drafts[d].procs|;
    var started := r.(drafts := r.drafts[d := P.Step(r.drafts[d], P.Start, canonical)], launches := r.launches + [Launch(d, pid)]);
    var r1 := AfterAwait(started, canonical);
    (r1, if !FirstTurn(r.turns).dies && pid < |r1.drafts[d].procs| && r1.drafts[d].procs[pid].pc.Finished?
         then Some(r1.drafts[d].procs[pid].pc.ending) else None)
  }

  /** An automatic request with a draft that waits to be published. */
  predicate IsToPublish(r: Run) {
    && r.checkpoint.Some? && r.checkpoint.value.status.ReviewReady? && r.checkpoint.value.automatic
    && r.checkpoint.value.draft.Some? && r.checkpoint.value.draft.value < |r.drafts|
  }

  function AfterPublish(r: Run, canonical: string -> string): (Run, Outcome)
    requires IsToPublish(r)
  {
    var d := r.checkpoint.value.draft.value;
    var (prepared, problem) := AfterPrepare(r, d, canonical);
    if problem.Some? then (prepared, Fails(problem.value))
    else
      var (published, ending) := AfterStart(prepared, d, canonical);
      match ending
      case None => (published, Fails(ProcessDied))
      case Some(Raised(_)) => (published, Fails(CallRaised))
      case Some(Returned(value)) =>
        var next := Settled(r.checkpoint.value, value);
        var (saved, unsaved) := AfterSave(published, next, canonical);
        (saved, if unsaved.Some? then Fails(unsaved.value) else Returned(next.status, next.messageId))
  }

  function AfterSearch(r: Run, tiers: nat, canonical: string -> string): (result: (Run, Result<Option<nat>, Problem>))
    ensures result.0.checkpoint == r.checkpoint && result.0.launches == r.launches
    ensures |result.0.drafts| == |r.drafts| + (if result.1.Success? && result.1.value.Some? then 1 else 0)
    ensures result.1.Success? && result.1.value.Some? ==> result.1.value.value == |r.drafts|
    decreases tiers
  {
    var turn, r1 := FirstTurn(r.turns), AfterAwait(r, canonical);
    if tiers == 0 then (r, Success(None))
    else if turn.dies then (r1, Failure(ProcessDied))
    else match turn.news
      case SearchRaised => (r1, Failure(CallRaised))
      case Found(body) => (r1.(drafts := r1.drafts + [P.Initial(body)]), Success(Some(|r.drafts|)))
      case Nothing => AfterSearch(r1, tiers - 1, canonical)
  }

  /** The run of a request that has read no checkpoint. */
  function AfterNothingRead(r: Run, automatic: bool, canonical: string -> string): (Run, Outcome) {
    var (searched, found) := AfterSearch(r, TIERS, canonical);
    if found.Failure? then (searched, Fails(found.error))
    else
      var first := if found.value.Some? then Checkpoint(ReviewReady, found.value, None, automatic)
                   else Checkpoint(NoCandidates, None, None, automatic);
      var (saved, unsaved) := AfterSave(searched, first, canonical);
      if unsaved.Some? then (saved, Fails(unsaved.value))
      else if found.value.None? || !automatic then (saved, Returned(first.status, None))
      else AfterPublish(saved, canonical)
  }

  /** The checkpoint, if any, is one that a run has left. */
  predicate HasItsDraft(r: Run) {
    r.checkpoint.Some? && !r.checkpoint.value.status.NoCandidates? ==>
      r.checkpoint.value.draft.Some? && r.checkpoint.value.draft.value < |r.drafts|
  }

  function AfterRun(r: Run, automatic: bool, canonical: string -> string): (Run, Outcome)
    requires HasItsDraft(r)
  {
    var reading, r1 := FirstTurn(r.turns), AfterAwait(r, canonical);
    if Answer(reading).Some? then (r1, Fails(Answer(reading).value))
    else match r.checkpoint
      case None => AfterNothingRead(r1, automatic, canonical)
      case Some(found) =>
        if found.status.ReviewReady? && found.automatic then AfterPublish(r1, canonical)
        else (r1, Returned(found.status, found.messageId))
  }

  // ---- The code ----

  class Request {
    var checkpoint: Option<Checkpoint>
    var drafts: seq<P.State>
    var turns: seq<Turn>
    const canonical: string -> string
    ghost var launches: seq<Launch>

    ghost predicate Valid()
      reads this
    {
      RequestOk(checkpoint, drafts, launches, canonical)
    }

    ghost function Now(): Run
      reads this
    {
      Run(checkpoint, drafts, launches, turns)
    }

    constructor (turns: seq<Turn>, canonical: string -> string)
      ensures Valid() && checkpoint.None? && launches == [] && drafts == []
    {
      checkpoint, drafts, launches := None, [], [];
      this.turns, this.canonical := turns, canonical;
    }

    /** A step of one draft's protocol, by whomever it is. */
    method StepDraft(d: nat, action: P.Action)
      requires Valid() && d < |drafts| && P.Disciplined(drafts[d], action)
      modifies this`drafts
      ensures Valid() && drafts == old(drafts)[d := P.Step(old(drafts)[d], action, canonical)]
      ensures EndingsStay(old(drafts), drafts)
    {
      hide P.Inv, P.Step;
      StepKeepsEndings(drafts[d], action, canonical);
      Safety.StepKeepsInv(drafts[d], action, canonical);
      ProcsOnlyGrow(drafts[d], action, canonical);
      drafts := drafts[d := P.Step(drafts[d], action, canonical)];
    }

    method Await() returns (turn: Turn)
      requires Valid()
      modifies this`turns, this`drafts
      ensures Valid() && |drafts| == |old(drafts)| && EndingsStay(old(drafts), drafts)
      ensures turn == FirstTurn(old(turns)) && Now() == AfterAwait(old(Now()), canonical)
    {
      hide P.Inv, P.Step, RequestOk, P.Disciplined, EndingsStay;
      EndingsStayReflexively(drafts);
      turn := QUIET_TURN;
      if turns != [] { turn, turns := turns[0], turns[1..]; }
      for k := 0 to |turn.others|
        invariant Valid() && |drafts| == |old(drafts)| && EndingsStay(old(drafts), drafts)
        invariant turns == Rest(old(turns)) && drafts == StepAll(old(drafts), turn.others[..k], canonical)
      {
        var step := turn.others[k];
        assert turn.others[..k + 1][..k] == turn.others[..k];
        if step.draft < |drafts| && P.Disciplined(drafts[step.draft], step.action) {
          ghost var before := drafts;
          StepDraft(step.draft, step.action);
          EndingsStayTwice(old(drafts), before, drafts);
        }
      }
      assert turn.others[..|turn.others|] == turn.others;
    }

    /** getTelegramNewsCheckpoint: a problem when it does not come back. */
    method GetCheckpoint() returns (r: Result<Option<Checkpoint>, Problem>)
      requires Valid()
      modifies this`turns, this`drafts
      ensures Valid() && |drafts| == |old(drafts)| && (r.Success? ==> r.value == checkpoint)
      ensures r.Failure? == Answer(FirstTurn(old(turns))).Some? && (r.Failure? ==> Answer(FirstTurn(old(turns))) == Some(r.error))
      ensures Now() == AfterAwait(old(Now()), canonical)
    {
      var turn := Await();
      r := if turn.dies then Failure(ProcessDied) else if turn.delivery.Acked? then Success(checkpoint) else Failure(CallRaised);
    }

    /** saveTelegramNewsCheckpoint, an upsert that nothing fences. */
    method SaveCheckpoint(next: Checkpoint) returns (problem: Option<Problem>)
      requires Valid() && Moves(checkpoint, Some(next))
      requires next.draft.Some? ==> next.draft.value < |drafts|
      requires next.status.NoCandidates? <==> next.draft.None?
      modifies this`turns, this`drafts, this`checkpoint
      ensures Valid() && |drafts| == |old(drafts)| && Moves(old(checkpoint), checkpoint)
      ensures checkpoint == old(checkpoint) || checkpoint == Some(next)
      ensures problem.None? ==> checkpoint == Some(next)
      ensures (Now(), problem) == AfterSave(old(Now()), next, canonical) && EndingsStay(old(drafts), drafts)
    {
      hide P.Inv;
      var turn := Await();
      if turn.dies { return Some(ProcessDied); }
      if turn.delivery.NotApplied? { return Some(CallRaised); }
      checkpoint := Some(next);
      problem := if turn.delivery.Acked? then None else Some(CallRaised);
    }

    method AddDraft(body: string)
      requires Valid()
      modifies this`drafts
      ensures Valid() && drafts == old(drafts) + [P.Initial(body)]
    {
      Safety.InitialInv(body, canonical);
      hide P.Inv, P.Initial;
      forall l | 0 <= l < |launches| ensures LaunchOk(launches[l], checkpoint, drafts + [P.Initial(body)]) {
        assert LaunchOk(launches[l], checkpoint, drafts);
      }
      drafts := drafts + [P.Initial(body)];
    }

    /** One tier of the search; the pipeline leaves a new draft in review. */
    method SearchTier() returns (r: Result<Option<nat>, Problem>)
      requires Valid()
      modifies this`turns, this`drafts
      ensures Valid() && turns == Rest(old(turns))
      ensures FirstTurn(old(turns)).news.Nothing? && !FirstTurn(old(turns)).dies ==> Now() == AfterAwait(old(Now()), canonical)
      ensures FirstTurn(old(turns)).dies || !FirstTurn(old(turns)).news.Nothing? ==> (Now(), r) == AfterSearch(old(Now()), 1, canonical)
      ensures r == match Searched(old(turns), 1)
        case Failure(problem) => Failure(problem)
        case Success(found) => Success(if found.Some? then Some(|old(drafts)|) else None)
      ensures |drafts| == |old(drafts)| + (if r.Success? && r.value.Some? then 1 else 0)
    {
      hide P.Inv;
      var turn := Await();
      if turn.dies { return Failure(ProcessDied); }
      match turn.news {
        case SearchRaised => r := Failure(CallRaised);
        case Nothing => r := Success(None);
        case Found(body) =>
          AddDraft(body);
          r := Success(Some(|drafts| - 1));
      }
    }

    /** runTieredNewsSearch: the first tier that finds something, `None` when no tier does. */
    method SearchTiers(tiers: nat) returns (r: Result<Option<nat>, Problem>)
      requires Valid()
      modifies this`turns, this`drafts
      ensures Valid() && (Now(), r) == AfterSearch(old(Now()), tiers, canonical)
      ensures r == match Searched(old(turns), tiers)
        case Failure(problem) => Failure(problem)
        case Success(found) => Success(if found.Some? then Some(|old(drafts)|) else None)
      ensures |drafts| == |old(drafts)| + (if r.Success? && r.value.Some? then 1 else 0)
    {
      hide RequestOk;
      for tier := 0 to tiers
        invariant Valid() && |drafts| == |old(drafts)|
        invariant Searched(old(turns), tiers) == Searched(turns, tiers - tier)
        invariant AfterSearch(old(Now()), tiers, canonical) == AfterSearch(Now(), tiers - tier, canonical)
      {
        assert Searched(turns, tiers - tier) ==
          match Searched(turns, 1)
          case Failure(problem) => Failure(problem)
          case Success(Some(body)) => Success(Some(body))
          case Success(None) => Searched(Rest(turns), tiers - tier - 1);
        r := SearchTier();
        if r.Failure? || r.value.Some? { return; }
      }
      r := Success(None);
    }

    /** publishApprovedDraft for the checkpointed draft, up to its end; `None` when it never came back. */
    method StartPublisher(d: nat) returns (ending: Option<P.Ending>)
      requires Valid() && checkpoint.Some? && checkpoint.value.draft == Some(d)
      modifies this`turns, this`drafts, this`launches
      ensures Valid() && |drafts| == |old(drafts)|
      ensures launches == old(launches) + [Launch(d, |old(drafts)[d].procs|)]
      ensures (Now(), ending) == AfterStart(old(Now()), d, canonical)
      ensures ending.Some? && ending.value.Returned? ==> CameBackWith(launches, drafts, ending.value.value)
    {
      hide P.Inv;
      var pid := |drafts[d].procs|;
      StepDraft(d, P.Start);
      launches := launches + [Launch(d, pid)];
      var turn := Await();
      ending := if !turn.dies && pid < |drafts[d].procs| && drafts[d].procs[pid].pc.Finished?
                then Some(drafts[d].procs[pid].pc.ending) else None;
    }

    /** The draft is loaded, and approved if it is still in review. */
    method PrepareDraft(d: nat) returns (problem: Option<Problem>)
      requires Valid() && d < |drafts|
      modifies this`turns, this`drafts
      ensures Valid() && (Now(), problem) == AfterPrepare(old(Now()), d, canonical)
      ensures var status := drafts[d].db.draft.status;
        && (problem.None? ==> Resumes(status) && !status.Review?)
        && (FirstTurn(old(turns)).dies ==> problem == Some(ProcessDied))
    {
      hide P.Inv;
      var loading := Await();
      if loading.dies { return Some(ProcessDied); }
      if !loading.delivery.Acked? || !Resumes(drafts[d].db.draft.status) { return Some(CallRaised); }
      if !drafts[d].db.draft.status.Review? { return None; }
      var approving := Await();
      if approving.dies { return Some(ProcessDied); }
      if approving.delivery.NotApplied? || PS.ApproveDraft(drafts[d].db).None? { return Some(CallRaised); }
      StepDraft(d, P.Approve);
      problem := if approving.delivery.Acked? then None else Some(CallRaised);
    }

    /** publishCheckpointedDraft: publish the draft of the checkpoint and settle the checkpoint. */
    method PublishCheckpointedDraft() returns (outcome: Outcome)
      requires Valid() && checkpoint.Some? && checkpoint.value.status.ReviewReady? && checkpoint.value.automatic
      modifies this
      ensures Valid() && Moves(old(checkpoint), checkpoint)
      ensures IsToPublish(old(Now())) && (Now(), outcome) == AfterPublish(old(Now()), canonical)
      ensures |launches| <= |old(launches)| + 1
      ensures outcome.Returned? ==>
        checkpoint.value.status == outcome.status && checkpoint.value.messageId == outcome.messageId && !outcome.status.ReviewReady?
      ensures outcome.Returned? || checkpoint != old(checkpoint) ==>
        && |launches| == |old(launches)| + 1 && old(launches) <= launches
        && exists value :: CameBackWith(launches, drafts, value) && checkpoint == Some(Settled(old(checkpoint).value, value))
    {
      hide P.Inv, RequestOk, CameBackWith, EndingsStay, Resumes;
      DraftIsThere(checkpoint, drafts, launches, canonical);
      SettledMoves(checkpoint);
      var d := checkpoint.value.draft.value;
      var problem := PrepareDraft(d);
      if problem.Some? { return Fails(problem.value); }
      var ending := StartPublisher(d);
      if ending.None? { return Fails(ProcessDied); }
      if ending.value.Raised? { return Fails(CallRaised); }
      var next := Settled(checkpoint.value, ending.value.value);
      ghost var published := drafts;
      assert checkpoint.value.draft == Some(d) && d < |drafts|;
      var unsaved := SaveCheckpoint(next);
      CameBackStays(launches, published, drafts, ending.value.value);
      outcome := if unsaved.Some? then Fails(unsaved.value) else Returned(next.status, next.messageId);
    }

    /** runCheckpointedNewsSearch. A request whose checkpoint is settled, or waits for a reviewer, is
        only reported; an automatic one is taken up again with the draft that it has. */
    method RunCheckpointedNewsSearch(automatic: bool) returns (outcome: Outcome)
      requires Valid()
      modifies this
      ensures Valid() && Moves(old(checkpoint), checkpoint)
      ensures HasItsDraft(old(Now())) && (Now(), outcome) == AfterRun(old(Now()), automatic, canonical)
      ensures |launches| <= |old(launches)| + 1
      ensures var done := old(checkpoint).Some? && !(old(checkpoint).value.status.ReviewReady? && old(checkpoint).value.automatic);
        done ==> checkpoint == old(checkpoint) && launches == old(launches)
                 && outcome == match Answer(FirstTurn(old(turns)))
                    case Some(problem) => Fails(problem)
                    case None => Returned(old(checkpoint).value.status, old(checkpoint).value.messageId)
      ensures old(checkpoint).None? && !automatic ==> launches == old(launches)
      ensures outcome.Returned? ==>
        checkpoint.Some? && checkpoint.value.status == outcome.status && checkpoint.value.messageId == outcome.messageId
      ensures old(checkpoint).None? && Answer(FirstTurn(old(turns))).None? ==>
        match Searched(Rest(old(turns)), TIERS)
        case Failure(problem) => outcome == Fails(problem) && checkpoint.None?
        case Success(None) =>
          (checkpoint.Some? ==> checkpoint.value.status.NoCandidates?) && (outcome.Returned? ==> outcome == Returned(NoCandidates, None))
        case Success(Some(_)) =>
          && (checkpoint.Some? ==> checkpoint.value.draft == Some(|old(drafts)|) && checkpoint.value.automatic == automatic)
          && (outcome.Returned? ==> (outcome.status.ReviewReady? <==> !automatic))
      ensures checkpoint.Some? && (checkpoint.value.status.PublishedStatus? || checkpoint.value.status.BlockedByPolicy?) && checkpoint != old(checkpoint) ==>
        |launches| == |old(launches)| + 1 && exists value, before ::
          CameBackWith(launches, drafts, value) && checkpoint.value == Settled(before, value)
    {
      hide P.Inv;
      var existing := GetCheckpoint();
      if existing.Failure? { return Fails(existing.error); }
      if existing.value.Some? {
        var found := existing.value.value;
        if found.status.ReviewReady? && found.automatic {
          outcome := PublishCheckpointedDraft();
        } else {
          outcome := Returned(found.status, found.messageId);
        }
        return;
      }
      var draft := SearchTiers(TIERS);
      if draft.Failure? { return Fails(draft.error); }
      var first := if draft.value.Some? then Checkpoint(ReviewReady, draft.value, None, automatic)
                   else Checkpoint(NoCandidates, None, None, automatic);
      var unsaved := SaveCheckpoint(first);
      if unsaved.Some? { return Fails(unsaved.value); }
      if draft.value.None? || !automatic { return Returned(first.status, None); }
      outcome := PublishCheckpointedDraft();
    }

    /** Message `i` of draft `d` was posted by a publisher of this request. */
    ghost predicate PostOf(d: nat, i: nat)
      reads this
    {
      && d < |drafts| && i < |drafts[d].posts|
      && exists l :: 0 <= l < |launches| && launches[l] == Launch(d, drafts[d].posts[i].sender)
    }

    /** However often the request is run again, it posts at most one message. */
    lemma AtMostOnePostPerRequest(d: nat, i: nat, d': nat, i': nat)
      requires Valid() && PostOf(d, i) && PostOf(d', i')
      ensures d == d' && i == i'
    {
      assert P.Inv(drafts[d], canonical);
    }
  }

  /** The checkpoint after the publisher has returned. */
  function Settled(checkpoint: Checkpoint, value: P.ReturnValue): Checkpoint {
    match value
    case ReturnPublished(publication) => checkpoint.(status := PublishedStatus, messageId := Some(publication.messageId))
    case ReturnAlreadyPublished(publication) => checkpoint.(status := PublishedStatus, messageId := Some(publication.messageId))
    case _ => checkpoint.(status := BlockedByPolicy, messageId := None)
  }

  lemma CameBackStays(launches: seq<Launch>, before: seq<P.State>, after: seq<P.State>, value: P.ReturnValue)
    requires CameBackWith(launches, before, value) && EndingsStay(before, after)
    ensures CameBackWith(launches, after, value)
  {
  }

  lemma DraftIsThere(checkpoint: Option<Checkpoint>, drafts: seq<P.State>, launches: seq<Launch>, canonical: string -> string)
    requires RequestOk(checkpoint, drafts, launches, canonical) && checkpoint.Some? && !checkpoint.value.status.NoCandidates?
    ensures checkpoint.value.draft.Some? && checkpoint.value.draft.value < |drafts|
  {
    hide P.Inv;
  }

  lemma SettledMoves(checkpoint: Option<Checkpoint>)
    requires checkpoint.Some? && checkpoint.value.status.ReviewReady? && checkpoint.value.automatic && checkpoint.value.draft.Some?
    ensures forall value :: Moves(checkpoint, Some(Settled(checkpoint.value, value)))
  {
  }

  lemma ProcsOnlyGrow(s: P.State, action: P.Action, canonical: string -> string)
    ensures |P.Step(s, action, canonical).procs| >= |s.procs|
    ensures action.Start? ==> |P.Step(s, action, canonical).procs| == |s.procs| + 1
  {
  }
}
