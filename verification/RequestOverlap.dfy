/** Runs of one `/news` request that overlap: any number of them, each of which may die at any await, with
    the checkpoint that they share and that nothing fences. */
module RequestOverlap {
  import opened Wrappers
  import opened ExcludedTopics
  import PS = PublicationStore
  import P = PublicationProtocol
  import Safety = PublicationSafety
  import Discipline = PublicationDiscipline
  import N = NewsRequest

  /** Where a run waits. */
  datatype Pc =
    | Reading
    | Searching(tiers: nat)
    | Saving(found: Option<nat>)
    | Loading(checkpoint: N.Checkpoint)
    | Approving(checkpoint: N.Checkpoint)
    | Waiting(checkpoint: N.Checkpoint, pid: nat)
    | Settling(next: N.Checkpoint)
    | Ended(outcome: N.Outcome)

  datatype Run = Run(automatic: bool, pc: Pc)

  datatype State = State(checkpoint: Option<N.Checkpoint>, drafts: seq<P.State>, runs: seq<Run>, launches: seq<N.Launch>)

  datatype Action =
    | Begin(automatic: bool)
    | Advance(run: nat, delivery: Delivery, news: N.News)
    | Die(run: nat)
    | DraftStep(draft: nat, action: P.Action)

  function Initial(): State {
    State(None, [], [], [])
  }

  function Goto(s: State, r: nat, pc: Pc): State
    requires r < |s.runs|
  {
    s.(runs := s.runs[r := s.runs[r].(pc := pc)])
  }

  function Raises(s: State, r: nat): State
    requires r < |s.runs|
  {
    Goto(s, r, Ended(N.Fails(N.CallRaised)))
  }

  function AfterRead(checkpoint: Option<N.Checkpoint>): Pc {
    match checkpoint
    case None => Searching(N.TIERS)
    case Some(found) =>
      if found.status.ReviewReady? && found.automatic then Loading(found) else Ended(N.Returned(found.status, found.messageId))
  }

  function AfterTier(s: State, r: nat, tiers: nat, news: N.News): State
    requires r < |s.runs|
  {
    match news
    case SearchRaised => Raises(s, r)
    case Found(body) => Goto(s.(drafts := s.drafts + [P.Initial(body)]), r, Saving(Some(|s.drafts|)))
    case Nothing => Goto(s, r, if tiers <= 1 then Saving(None) else Searching(tiers - 1))
  }

  function FirstCheckpoint(found: Option<nat>, automatic: bool): N.Checkpoint {
    N.Checkpoint(if found.Some? then N.ReviewReady else N.NoCandidates, found, None, automatic)
  }

  /** The upsert, and where the run goes once it is answered. */
  function AfterSave(s: State, r: nat, next: N.Checkpoint, delivery: Delivery, answered: Pc): State
    requires r < |s.runs|
  {
    if delivery.NotApplied? then Raises(s, r)
    else if delivery.Acked? then Goto(s.(checkpoint := Some(next)), r, answered)
    else Raises(s.(checkpoint := Some(next)), r)
  }

  /** The publisher starts without waiting for anyone. */
  function Launching(s: State, r: nat, checkpoint: N.Checkpoint, d: nat, canonical: string -> string): (s': State)
    requires r < |s.runs| && d < |s.drafts|
    ensures |s'.runs| == |s.runs|
  {
    var pid := |s.drafts[d].procs|;
    Goto(s.(drafts := s.drafts[d := P.Step(s.drafts[d], P.Start, canonical)], launches := s.launches + [N.Launch(d, pid)]),
         r, Waiting(checkpoint, pid))
  }

  function AfterLoad(s: State, r: nat, checkpoint: N.Checkpoint, delivery: Delivery, canonical: string -> string): State
    requires r < |s.runs|
  {
    if !delivery.Acked? || checkpoint.draft.None? || checkpoint.draft.value >= |s.drafts| then Raises(s, r)
    else
      var status := s.drafts[checkpoint.draft.value].db.draft.status;
      if !N.Resumes(status) then Raises(s, r)
      else if status.Review? then Goto(s, r, Approving(checkpoint))
      else Launching(s, r, checkpoint, checkpoint.draft.value, canonical)
  }

  function AfterApproval(s: State, r: nat, checkpoint: N.Checkpoint, delivery: Delivery, canonical: string -> string): State
    requires r < |s.runs|
  {
    if delivery.NotApplied? || checkpoint.draft.None? || checkpoint.draft.value >= |s.drafts| then Raises(s, r)
    else
      var d := checkpoint.draft.value;
      var approved := s.(drafts := s.drafts[d := P.Step(s.drafts[d], P.Approve, canonical)]);
      if PS.ApproveDraft(s.drafts[d].db).None? then Raises(s, r)
      else if delivery.Acked? then Launching(approved, r, checkpoint, d, canonical)
      else Raises(approved, r)
  }

  /** A run that finds the publisher it started in its final state. */
  function AfterWait(s: State, r: nat, checkpoint: N.Checkpoint, pid: nat): State
    requires r < |s.runs|
  {
    if checkpoint.draft.None? || checkpoint.draft.value >= |s.drafts| || pid >= |s.drafts[checkpoint.draft.value].procs| then s
    else match s.drafts[checkpoint.draft.value].procs[pid].pc
      case Finished(Raised(_)) => Raises(s, r)
      case Finished(Returned(value)) => Goto(s, r, Settling(N.Settled(checkpoint, value)))
      case _ => s
  }

  function RunStep(s: State, r: nat, delivery: Delivery, news: N.News, canonical: string -> string): State
    requires r < |s.runs|
  {
    match s.runs[r].pc
    case Reading => if delivery.Acked? then Goto(s, r, AfterRead(s.checkpoint)) else Raises(s, r)
    case Searching(tiers) => AfterTier(s, r, tiers, news)
    case Saving(found) =>
      var first := FirstCheckpoint(found, s.runs[r].automatic);
      AfterSave(s, r, first, delivery,
                if found.None? || !s.runs[r].automatic then Ended(N.Returned(first.status, None)) else Loading(first))
    case Loading(checkpoint) => AfterLoad(s, r, checkpoint, delivery, canonical)
    case Approving(checkpoint) => AfterApproval(s, r, checkpoint, delivery, canonical)
    case Waiting(checkpoint, pid) => AfterWait(s, r, checkpoint, pid)
    case Settling(next) => AfterSave(s, r, next, delivery, Ended(N.Returned(next.status, next.messageId)))
    case Ended(_) => s
  }

  function Step(s: State, a: Action, canonical: string -> string): State {
    match a
    case Begin(automatic) => s.(runs := s.runs + [Run(automatic, Reading)])
    case Advance(r, delivery, news) => if r < |s.runs| then RunStep(s, r, delivery, news, canonical) else s
    case Die(r) => if r < |s.runs| && !s.runs[r].pc.Ended? then Goto(s, r, Ended(N.Fails(N.ProcessDied))) else s
    case DraftStep(d, action) =>
      if d < |s.drafts| then s.(drafts := s.drafts[d := P.Step(s.drafts[d], action, canonical)]) else s
  }

  function RunAll(s: State, trace: seq<Action>, canonical: string -> string): State
    decreases |trace|
  {
    if trace == [] then s else RunAll(Step(s, trace[0], canonical), trace[1..], canonical)
  }

  // ---- Runs that can still publish a draft of their own ----

  /** Nothing has been posted of the draft, and it has not been rejected. */
  predicate CanBePosted(s: P.State) {
    s.posts == [] && !s.db.draft.status.Rejected?
  }

  /** The run has read no checkpoint, has not saved one yet, and its draft, if it has found one, can be posted. */
  predicate Hopeful(s: State, r: nat) {
    && r < |s.runs| && s.runs[r].automatic
    && match s.runs[r].pc
       case Searching(_) => true
       case Saving(Some(d)) => d < |s.drafts| && CanBePosted(s.drafts[d])
       case _ => false
  }

  /** The draft steps keep the publication protocol's assumptions. */
  predicate Disciplined(s: State, a: Action) {
    a.DraftStep? && a.draft < |s.drafts| ==> P.Disciplined(s.drafts[a.draft], a.action)
  }

  /** No run reads that there is no checkpoint while another one that read this can still publish. */
  ghost predicate Fenced(s: State, a: Action) {
    a.Advance? && a.run < |s.runs| && s.runs[a.run] == Run(true, Reading) && a.delivery.Acked? && s.checkpoint.None? ==>
      forall r: nat :: !Hopeful(s, r)
  }

  ghost predicate FencedTrace(s: State, trace: seq<Action>, canonical: string -> string)
    decreases |trace|
  {
    trace == []
    || (Disciplined(s, trace[0]) && Fenced(s, trace[0]) && FencedTrace(Step(s, trace[0], canonical), trace[1..], canonical))
  }

  // ---- The invariant ----

  /** The draft that a run sets out to publish. */
  function TargetOf(pc: Pc): Option<nat> {
    match pc
    case Loading(checkpoint) => checkpoint.draft
    case Approving(checkpoint) => checkpoint.draft
    case Waiting(checkpoint, _) => checkpoint.draft
    case _ => None
  }

  predicate IsResumed(checkpoint: Option<N.Checkpoint>, d: nat) {
    checkpoint.Some? && checkpoint.value.status.ReviewReady? && checkpoint.value.automatic && checkpoint.value.draft == Some(d)
  }

  /** The request publishes the draft, has published it, or will when it is run again. */
  ghost predicate IsTarget(s: State, d: nat) {
    || IsResumed(s.checkpoint, d)
    || (exists r :: 0 <= r < |s.runs| && TargetOf(s.runs[r].pc) == Some(d))
    || (exists l :: 0 <= l < |s.launches| && s.launches[l].draft == d)
  }

  /** Message `i` of draft `d` was posted by a publisher of this request. */
  predicate PostOf(s: State, d: nat, i: nat) {
    d < |s.drafts| && i < |s.drafts[d].posts| && N.Launch(d, s.drafts[d].posts[i].sender) in s.launches
  }

  ghost predicate IsPosted(s: State, d: nat) {
    exists i: nat :: PostOf(s, d, i)
  }

  /** A target that has been posted, or can be. */
  ghost predicate Live(s: State, d: nat) {
    IsTarget(s, d) && d < |s.drafts| && (CanBePosted(s.drafts[d]) || IsPosted(s, d))
  }

  predicate SendersKnown(s: P.State) {
    forall i :: 0 <= i < |s.posts| ==> s.posts[i].sender < |s.procs|
  }

  predicate IsSaving(s: State, r: nat, d: nat) {
    r < |s.runs| && s.runs[r].pc == Saving(Some(d))
  }

  ghost predicate DraftsOk(drafts: seq<P.State>, canonical: string -> string) {
    forall d :: 0 <= d < |drafts| ==> P.Inv(drafts[d], canonical) && SendersKnown(drafts[d])
  }

  /** What is found and not yet saved is each run's own. */
  ghost predicate RowsOk(s: State) {
    && (forall d: nat :: IsTarget(s, d) ==> d < |s.drafts| && s.checkpoint.Some?)
    && (forall r: nat, d: nat :: IsSaving(s, r, d) ==> d < |s.drafts| && !IsTarget(s, d))
    && (forall r: nat, r': nat, d: nat :: IsSaving(s, r, d) && IsSaving(s, r', d) ==> r == r')
    && (forall r :: 0 <= r < |s.runs| && s.runs[r].pc.Settling? ==> !s.runs[r].pc.next.status.ReviewReady?)
  }

  /** One run or one draft at most that the request can come to publish. */
  ghost predicate OneSource(s: State) {
    && (forall r: nat, r': nat :: Hopeful(s, r) && Hopeful(s, r') ==> r == r')
    && (forall d: nat, d': nat :: Live(s, d) && Live(s, d') ==> d == d')
    && (forall d: nat, r: nat :: Live(s, d) ==> !Hopeful(s, r))
  }

  ghost predicate Inv(s: State, canonical: string -> string) {
    DraftsOk(s.drafts, canonical) && RowsOk(s) && OneSource(s)
  }

  // ---- Steps of drafts ----

  lemma PostsComeFromLive(s: P.State, a: P.Action, canonical: string -> string)
    requires P.Inv(s, canonical) && P.Disciplined(s, a) && SendersKnown(s)
    ensures var s' := P.Step(s, a, canonical);
      && P.Inv(s', canonical) && SendersKnown(s') && |s.procs| <= |s'.procs|
      && s.posts <= s'.posts && (s'.posts == s.posts || CanBePosted(s))
      && (CanBePosted(s') ==> CanBePosted(s))
  {
    hide P.Step, P.Inv, P.Disciplined;
    Safety.StepKeepsInv(s, a, canonical);
    Safety.EveryStepFollowsTheTable(s, a, canonical);
    N.ProcsOnlyGrow(s, a, canonical);
    PostsAreOwn(s, a, canonical);
  }

  lemma PostsAreOwn(s: P.State, a: P.Action, canonical: string -> string)
    requires P.Inv(s, canonical)
    ensures var s' := P.Step(s, a, canonical);
      s'.posts == s.posts || (CanBePosted(s) && |s'.posts| == 1 && s'.posts[0].sender < |s.procs|)
  {
    if a.Advance? && a.pid < |s.procs| {
      if s.procs[a.pid].pc.Send? {
        SendingPostsOnce(s, a.pid, a.input, canonical);
      } else {
        CallsPostNothing(s, a.pid, a.input, canonical);
      }
    }
    hide P.ProcStep, P.Inv;
  }

  lemma SendingPostsOnce(s: P.State, pid: nat, input: P.Input, canonical: string -> string)
    requires P.Inv(s, canonical) && pid < |s.procs| && s.procs[pid].pc.Send?
    ensures var s' := P.ProcStep(s, pid, input, canonical);
      s'.posts == s.posts || (CanBePosted(s) && |s'.posts| == 1 && s'.posts[0].sender == pid)
  {
    hide P.AfterCall, P.AfterClassification, P.Cleared, P.Known, FinalPolicy;
    assert P.PcOk(s, s.procs[pid].pc);
  }

  lemma CallsPostNothing(s: P.State, pid: nat, input: P.Input, canonical: string -> string)
    requires pid < |s.procs| && !s.procs[pid].pc.Send?
    ensures P.ProcStep(s, pid, input, canonical).posts == s.posts
  {
  }

  // ---- What each step keeps ----

  /** No run and no draft becomes a source that was none. */
  ghost predicate Shrinks(s: State, s': State) {
    && (forall r: nat :: Hopeful(s', r) ==> Hopeful(s, r))
    && (forall d: nat :: Live(s', d) ==> Live(s, d))
  }

  lemma ShrinkingKeepsOne(s: State, s': State)
    requires OneSource(s) && Shrinks(s, s')
    ensures OneSource(s')
  {
    hide Hopeful, Live;
  }

  lemma RowsStay(s: State, s': State)
    requires RowsOk(s) && |s.drafts| <= |s'.drafts| && (s.checkpoint.Some? ==> s'.checkpoint.Some?)
    requires forall d: nat :: IsTarget(s', d) ==> IsTarget(s, d)
    requires forall r: nat, d: nat :: IsSaving(s', r, d) ==> IsSaving(s, r, d)
    requires forall r :: 0 <= r < |s'.runs| && s'.runs[r].pc.Settling? ==> !s'.runs[r].pc.next.status.ReviewReady?
    ensures RowsOk(s')
  {
    hide IsTarget, IsSaving;
  }

  /** One draft takes a step. */
  lemma DraftKeepsInv(s: State, d: nat, action: P.Action, canonical: string -> string)
    requires Inv(s, canonical) && d < |s.drafts| && P.Disciplined(s.drafts[d], action)
    ensures Inv(s.(drafts := s.drafts[d := P.Step(s.drafts[d], action, canonical)]), canonical)
  {
    hide P.Step, P.Inv, SendersKnown;
    var s' := s.(drafts := s.drafts[d := P.Step(s.drafts[d], action, canonical)]);
    assert P.Inv(s.drafts[d], canonical) && SendersKnown(s.drafts[d]);
    PostsComeFromLive(s.drafts[d], action, canonical);
    SameTargets(s, s');
    forall e: nat | Live(s', e) ensures Live(s, e) {
      if IsPosted(s', e) {
        var i: nat :| PostOf(s', e, i);
        assert e != d ==> PostOf(s, e, i);
        if e == d && i < |s.drafts[d].posts| { assert PostOf(s, d, i); }
      }
    }
    ShrinkingKeepsOne(s, s');
    RowsStay(s, s');
  }

  lemma SameTargets(s: State, s': State)
    requires s'.checkpoint == s.checkpoint && s'.launches == s.launches && s'.runs == s.runs
    ensures forall d: nat :: IsTarget(s', d) <==> IsTarget(s, d)
  {
  }

  /** A run moves on and nothing else changes. */
  lemma MoveKeepsInv(s: State, r: nat, pc: Pc, canonical: string -> string)
    requires Inv(s, canonical) && r < |s.runs|
    requires TargetOf(pc).Some? ==> IsTarget(s, TargetOf(pc).value)
    requires pc.Searching? && s.runs[r].automatic ==> Hopeful(s, r)
    requires !(pc.Saving? && pc.found.Some?) && (pc.Settling? ==> !pc.next.status.ReviewReady?)
    ensures Inv(Goto(s, r, pc), canonical)
  {
    hide P.Inv;
    var s' := Goto(s, r, pc);
    assert forall q :: 0 <= q < |s.runs| && q != r ==> s'.runs[q] == s.runs[q];
    TargetsStay(s, s', r);
    forall d: nat | Live(s', d) ensures Live(s, d) {
      if IsPosted(s', d) {
        var i: nat :| PostOf(s', d, i);
        assert PostOf(s, d, i);
      }
    }
    ShrinkingKeepsOne(s, s');
    RowsStay(s, s');
  }

  lemma TargetsStay(s: State, s': State, r: nat)
    requires r < |s.runs| && |s'.runs| == |s.runs| && forall q :: 0 <= q < |s.runs| && q != r ==> s'.runs[q] == s.runs[q]
    requires s'.checkpoint == s.checkpoint && s'.launches == s.launches
    requires TargetOf(s'.runs[r].pc).Some? ==> IsTarget(s, TargetOf(s'.runs[r].pc).value)
    ensures forall d: nat :: IsTarget(s', d) ==> IsTarget(s, d)
  {
    forall d: nat | IsTarget(s', d) ensures IsTarget(s, d) {
      if q: nat :| 0 <= q < |s'.runs| && TargetOf(s'.runs[q].pc) == Some(d) {
        assert q != r ==> TargetOf(s.runs[q].pc) == Some(d);
      }
    }
  }

  lemma BeginKeepsInv(s: State, automatic: bool, canonical: string -> string)
    requires Inv(s, canonical)
    ensures Inv(s.(runs := s.runs + [Run(automatic, Reading)]), canonical)
  {
    hide P.Inv;
    var s' := s.(runs := s.runs + [Run(automatic, Reading)]);
    forall d: nat | IsTarget(s', d) ensures IsTarget(s, d) {
      if q: nat :| 0 <= q < |s'.runs| && TargetOf(s'.runs[q].pc) == Some(d) {
        assert q < |s.runs| && TargetOf(s.runs[q].pc) == Some(d);
      }
    }
    forall d: nat | Live(s', d) ensures Live(s, d) {
      if IsPosted(s', d) {
        var i: nat :| PostOf(s', d, i);
        assert PostOf(s, d, i);
      }
    }
    ShrinkingKeepsOne(s, s');
    RowsStay(s, s');
  }

  /** A run reads that there is no checkpoint, while no other can publish a draft of its own. */
  lemma ReadKeepsInv(s: State, r: nat, canonical: string -> string)
    requires Inv(s, canonical) && r < |s.runs| && s.checkpoint.None?
    requires !Hopeful(s, r) && (s.runs[r].automatic ==> forall q: nat :: !Hopeful(s, q))
    ensures Inv(Goto(s, r, Searching(N.TIERS)), canonical)
  {
    hide P.Inv;
    var s' := Goto(s, r, Searching(N.TIERS));
    assert forall q :: 0 <= q < |s.runs| && q != r ==> s'.runs[q] == s.runs[q];
    TargetsStay(s, s', r);
    RowsStay(s, s');
    assert forall d: nat :: !Live(s', d);
    forall q: nat, q': nat | Hopeful(s', q) && Hopeful(s', q') ensures q == q' {
      assert q != r ==> Hopeful(s, q);
      assert q' != r ==> Hopeful(s, q');
    }
  }

  /** A search finds a draft, which is new. */
  lemma FindKeepsInv(s: State, r: nat, body: string, canonical: string -> string)
    requires Inv(s, canonical) && r < |s.runs| && s.runs[r].pc.Searching?
    ensures Inv(Goto(s.(drafts := s.drafts + [P.Initial(body)]), r, Saving(Some(|s.drafts|))), canonical)
  {
    hide P.Inv, P.Initial;
    var s' := Goto(s.(drafts := s.drafts + [P.Initial(body)]), r, Saving(Some(|s.drafts|)));
    NewDraftIsOk(body, canonical);
    assert forall q :: 0 <= q < |s.runs| && q != r ==> s'.runs[q] == s.runs[q];
    TargetsStay(s, s', r);
    forall d: nat | Live(s', d) ensures Live(s, d) {
      assert IsTarget(s, d);
      if IsPosted(s', d) {
        var i: nat :| PostOf(s', d, i);
        assert PostOf(s, d, i);
      }
    }
    forall q: nat | Hopeful(s', q) ensures Hopeful(s, q) {
      assert q != r && s.runs[q].pc.Saving? ==> IsSaving(s, q, s.runs[q].pc.found.value);
    }
    ShrinkingKeepsOne(s, s');
    forall q: nat, d: nat | IsSaving(s', q, d) ensures q == r || IsSaving(s, q, d) {}
    hide IsTarget, Hopeful, Live, OneSource;
  }

  lemma NewDraftIsOk(body: string, canonical: string -> string)
    ensures P.Inv(P.Initial(body), canonical) && SendersKnown(P.Initial(body)) && CanBePosted(P.Initial(body))
  {
    Safety.InitialInv(body, canonical);
    hide P.Inv;
  }

  /** A run writes the checkpoint: one that is settled, or one with its own draft. */
  lemma SaveKeepsInv(s: State, r: nat, next: N.Checkpoint, pc: Pc, canonical: string -> string)
    requires Inv(s, canonical) && r < |s.runs|
    requires next.status.ReviewReady? && next.automatic ==> next.draft.Some? && IsSaving(s, r, next.draft.value) && s.runs[r].automatic
    requires pc.Ended? || (pc == Loading(next) && next.status.ReviewReady? && next.automatic)
    ensures Inv(Goto(s.(checkpoint := Some(next)), r, pc), canonical)
  {
    hide P.Inv;
    var s' := Goto(s.(checkpoint := Some(next)), r, pc);
    var saved := next.status.ReviewReady? && next.automatic;
    assert forall q :: 0 <= q < |s.runs| && q != r ==> s'.runs[q] == s.runs[q];
    forall d: nat | IsTarget(s', d) ensures IsTarget(s, d) || (saved && d == next.draft.value) {
      if q: nat :| 0 <= q < |s'.runs| && TargetOf(s'.runs[q].pc) == Some(d) {
        assert q != r ==> TargetOf(s.runs[q].pc) == Some(d);
      }
    }
    forall q: nat, d: nat | IsSaving(s', q, d) ensures IsSaving(s, q, d) && q != r {}
    assert RowsOk(s') by { hide IsTarget, Hopeful, Live, OneSource; }
    SaveKeepsOne(s, s', r, next, canonical);
  }

  lemma PostedIsTarget(s: State, d: nat, i: nat)
    requires PostOf(s, d, i)
    ensures IsTarget(s, d)
  {
  }

  lemma SaveKeepsOne(s: State, s': State, r: nat, next: N.Checkpoint, canonical: string -> string)
    requires Inv(s, canonical) && r < |s.runs| && s'.drafts == s.drafts && s'.launches == s.launches
    requires |s'.runs| == |s.runs| && !Hopeful(s', r) && forall q :: 0 <= q < |s.runs| && q != r ==> s'.runs[q] == s.runs[q]
    requires var saved := next.status.ReviewReady? && next.automatic;
      && (saved ==> next.draft.Some? && IsSaving(s, r, next.draft.value) && s.runs[r].automatic)
      && forall d: nat :: IsTarget(s', d) ==> IsTarget(s, d) || (saved && d == next.draft.value)
    ensures OneSource(s')
  {
    hide P.Inv, IsTarget;
    forall q: nat | Hopeful(s', q) ensures Hopeful(s, q) && q != r {}
    forall d: nat | Live(s', d)
      ensures Live(s, d) || (next.status.ReviewReady? && next.automatic && d == next.draft.value && Hopeful(s, r))
    {
      if IsPosted(s', d) {
        var i: nat :| PostOf(s', d, i);
        assert PostOf(s, d, i);
        PostedIsTarget(s, d, i);
      }
    }
    hide Hopeful, Live, RowsOk, DraftsOk;
  }

  lemma LaunchKeepsInv(s: State, r: nat, checkpoint: N.Checkpoint, d: nat, canonical: string -> string)
    requires Inv(s, canonical) && r < |s.runs| && d < |s.drafts|
    requires checkpoint.draft == Some(d) && IsTarget(s, d)
    ensures Inv(Launching(s, r, checkpoint, d, canonical), canonical)
  {
    hide P.Inv, P.Step;
    var s' := Launching(s, r, checkpoint, d, canonical);
    var middle := s.(drafts := s.drafts[d := P.Step(s.drafts[d], P.Start, canonical)]);
    assert SendersKnown(s.drafts[d]);
    DraftKeepsInv(s, d, P.Start, canonical);
    StartPostsNothing(s.drafts[d], canonical);
    SameTargets(s, middle);
    LaunchAddsNothing(middle, s', r, checkpoint, d, |s.drafts[d].procs|, canonical);
  }

  lemma StartPostsNothing(s: P.State, canonical: string -> string)
    ensures P.Step(s, P.Start, canonical).posts == s.posts
  {
  }

  lemma LaunchAddsNothing(s: State, s': State, r: nat, checkpoint: N.Checkpoint, d: nat, pid: nat, canonical: string -> string)
    requires Inv(s, canonical) && r < |s.runs| && d < |s.drafts| && checkpoint.draft == Some(d) && IsTarget(s, d)
    requires forall i :: 0 <= i < |s.drafts[d].posts| ==> s.drafts[d].posts[i].sender < pid
    requires s' == Goto(s.(launches := s.launches + [N.Launch(d, pid)]), r, Waiting(checkpoint, pid))
    ensures Inv(s', canonical)
  {
    hide P.Inv;
    assert forall q :: 0 <= q < |s.runs| && q != r ==> s'.runs[q] == s.runs[q];
    forall e: nat | IsTarget(s', e) ensures IsTarget(s, e) {
      if q: nat :| 0 <= q < |s'.runs| && TargetOf(s'.runs[q].pc) == Some(e) {
        assert q != r ==> TargetOf(s.runs[q].pc) == Some(e);
      }
      if l: nat :| 0 <= l < |s'.launches| && s'.launches[l].draft == e {
        assert l < |s.launches| ==> s.launches[l].draft == e;
      }
    }
    forall e: nat | Live(s', e) ensures Live(s, e) {
      if IsPosted(s', e) {
        var i: nat :| PostOf(s', e, i);
        assert PostOf(s, e, i);
      }
    }
    hide IsTarget;
    ShrinkingKeepsOne(s, s');
    RowsStay(s, s');
  }

  // ---- Every step ----

  lemma RaiseKeepsInv(s: State, r: nat, canonical: string -> string)
    requires Inv(s, canonical) && r < |s.runs|
    ensures Inv(Raises(s, r), canonical)
  {
    hide Inv;
    MoveKeepsInv(s, r, Ended(N.Fails(N.CallRaised)), canonical);
  }

  lemma RunIsTarget(s: State, r: nat)
    requires r < |s.runs| && TargetOf(s.runs[r].pc).Some?
    ensures IsTarget(s, TargetOf(s.runs[r].pc).value)
  {
  }

  lemma TargetIsThere(s: State, d: nat)
    requires RowsOk(s) && IsTarget(s, d)
    ensures d < |s.drafts|
  {
  }

  lemma LoadKeepsInv(s: State, r: nat, checkpoint: N.Checkpoint, delivery: Delivery, canonical: string -> string)
    requires Inv(s, canonical) && r < |s.runs| && s.runs[r].pc == Loading(checkpoint)
    ensures Inv(AfterLoad(s, r, checkpoint, delivery, canonical), canonical)
  {
    RaiseKeepsInv(s, r, canonical);
    if checkpoint.draft.Some? && checkpoint.draft.value < |s.drafts| {
      RunIsTarget(s, r);
      MoveKeepsInv(s, r, Approving(checkpoint), canonical);
      LaunchKeepsInv(s, r, checkpoint, checkpoint.draft.value, canonical);
    }
    hide Inv, IsTarget;
  }

  lemma ApprovalKeepsInv(s: State, r: nat, checkpoint: N.Checkpoint, delivery: Delivery, canonical: string -> string)
    requires Inv(s, canonical) && r < |s.runs| && s.runs[r].pc == Approving(checkpoint)
    ensures Inv(AfterApproval(s, r, checkpoint, delivery, canonical), canonical)
  {
    RaiseKeepsInv(s, r, canonical);
    if checkpoint.draft.Some? && checkpoint.draft.value < |s.drafts| {
      var d := checkpoint.draft.value;
      var approved := s.(drafts := s.drafts[d := P.Step(s.drafts[d], P.Approve, canonical)]);
      DraftKeepsInv(s, d, P.Approve, canonical);
      RunIsTarget(approved, r);
      RaiseKeepsInv(approved, r, canonical);
      LaunchKeepsInv(approved, r, checkpoint, d, canonical);
    }
    hide Inv, IsTarget, P.Step;
  }

  lemma WaitKeepsInv(s: State, r: nat, checkpoint: N.Checkpoint, pid: nat, canonical: string -> string)
    requires Inv(s, canonical) && r < |s.runs|
    ensures Inv(AfterWait(s, r, checkpoint, pid), canonical)
  {
    RaiseKeepsInv(s, r, canonical);
    if checkpoint.draft.Some? && checkpoint.draft.value < |s.drafts| && pid < |s.drafts[checkpoint.draft.value].procs| {
      var pc := s.drafts[checkpoint.draft.value].procs[pid].pc;
      if pc.Finished? && pc.ending.Returned? {
        MoveKeepsInv(s, r, Settling(N.Settled(checkpoint, pc.ending.value)), canonical);
      }
    }
    hide Inv;
  }

  lemma SavingKeepsInv(s: State, r: nat, delivery: Delivery, news: N.News, canonical: string -> string)
    requires Inv(s, canonical) && r < |s.runs| && (s.runs[r].pc.Saving? || s.runs[r].pc.Settling?)
    ensures Inv(RunStep(s, r, delivery, news, canonical), canonical)
  {
    RaiseKeepsInv(s, r, canonical);
    var pc, automatic := s.runs[r].pc, s.runs[r].automatic;
    var next := if pc.Saving? then FirstCheckpoint(pc.found, automatic) else pc.next;
    SaveKeepsInv(s, r, next, Ended(N.Fails(N.CallRaised)), canonical);
    SaveKeepsInv(s, r, next, if pc.Saving? && pc.found.Some? && automatic then Loading(next)
                             else Ended(N.Returned(next.status, if pc.Saving? then None else next.messageId)), canonical);
    hide Inv;
  }

  lemma ReadingKeepsInv(s: State, r: nat, canonical: string -> string)
    requires Inv(s, canonical) && r < |s.runs| && s.runs[r].pc.Reading?
    requires s.runs[r].automatic && s.checkpoint.None? ==> forall q: nat :: !Hopeful(s, q)
    ensures Inv(Goto(s, r, AfterRead(s.checkpoint)), canonical)
  {
    if s.checkpoint.None? {
      ReadKeepsInv(s, r, canonical);
    } else {
      hide DraftsOk, RowsOk, OneSource;
      MoveKeepsInv(s, r, AfterRead(s.checkpoint), canonical);
    }
  }

  lemma RunStepKeepsInv(s: State, r: nat, delivery: Delivery, news: N.News, canonical: string -> string)
    requires Inv(s, canonical) && r < |s.runs| && Fenced(s, Advance(r, delivery, news))
    ensures Inv(RunStep(s, r, delivery, news, canonical), canonical)
  {
    RaiseKeepsInv(s, r, canonical);
    match s.runs[r].pc {
      case Reading => if delivery.Acked? { ReadingKeepsInv(s, r, canonical); }
      case Searching(tiers) =>
        match news {
          case Found(body) => FindKeepsInv(s, r, body, canonical);
          case Nothing => MoveKeepsInv(s, r, if tiers <= 1 then Saving(None) else Searching(tiers - 1), canonical);
          case SearchRaised =>
        }
      case Saving(_) => SavingKeepsInv(s, r, delivery, news, canonical);
      case Settling(_) => SavingKeepsInv(s, r, delivery, news, canonical);
      case Loading(checkpoint) => LoadKeepsInv(s, r, checkpoint, delivery, canonical);
      case Approving(checkpoint) => ApprovalKeepsInv(s, r, checkpoint, delivery, canonical);
      case Waiting(checkpoint, pid) => WaitKeepsInv(s, r, checkpoint, pid, canonical);
      case Ended(_) =>
    }
    hide Inv, AfterSave, AfterLoad, AfterApproval, AfterWait, Fenced;
  }

  lemma StepKeepsInv(s: State, a: Action, canonical: string -> string)
    requires Inv(s, canonical) && Disciplined(s, a) && Fenced(s, a)
    ensures Inv(Step(s, a, canonical), canonical)
  {
    match a {
      case Begin(automatic) => BeginKeepsInv(s, automatic, canonical);
      case Advance(r, delivery, news) => if r < |s.runs| { RunStepKeepsInv(s, r, delivery, news, canonical); }
      case Die(r) =>
        if r < |s.runs| {
          hide DraftsOk, RowsOk, OneSource;
          MoveKeepsInv(s, r, Ended(N.Fails(N.ProcessDied)), canonical);
        }
      case DraftStep(d, action) => if d < |s.drafts| { DraftKeepsInv(s, d, action, canonical); }
    }
    hide Inv, RunStep, Fenced;
  }

  lemma {:induction false} RunKeepsInv(s: State, trace: seq<Action>, canonical: string -> string)
    requires Inv(s, canonical) && FencedTrace(s, trace, canonical)
    ensures Inv(RunAll(s, trace, canonical), canonical)
    decreases |trace|
  {
    hide Inv, Step, Fenced, Disciplined;
    if trace != [] {
      StepKeepsInv(s, trace[0], canonical);
      RunKeepsInv(Step(s, trace[0], canonical), trace[1..], canonical);
    }
  }

  // ---- At most one message ----

  ghost predicate PostsOnce(s: State) {
    forall d: nat, i: nat, d': nat, i': nat :: PostOf(s, d, i) && PostOf(s, d', i') ==> d == d' && i == i'
  }

  lemma InvPostsOnce(s: State, canonical: string -> string)
    requires Inv(s, canonical)
    ensures PostsOnce(s)
  {
    forall d: nat, i: nat, d': nat, i': nat | PostOf(s, d, i) && PostOf(s, d', i') ensures d == d' && i == i' {
      PostedIsTarget(s, d, i);
      PostedIsTarget(s, d', i');
      assert P.Inv(s.drafts[d], canonical);
      hide P.Inv, IsTarget, RowsOk, Hopeful;
      assert Live(s, d) && Live(s, d');
    }
  }

  lemma InitialInv(canonical: string -> string)
    ensures Inv(Initial(), canonical)
  {
  }

  /** Runs of a request may overlap in any way, and die at any await: as long as none reads that there is no
      checkpoint while another one can still publish a draft of its own, the request posts one message at most. */
  lemma AtMostOnePostPerRequest(trace: seq<Action>, canonical: string -> string)
    requires FencedTrace(Initial(), trace, canonical)
    ensures PostsOnce(RunAll(Initial(), trace, canonical))
  {
    InitialInv(canonical);
    RunKeepsInv(Initial(), trace, canonical);
    InvPostsOnce(RunAll(Initial(), trace, canonical), canonical);
  }

  // ---- The fence is exact ----

  /** No fenced continuation comes to a second message. */
  ghost predicate StaysSafe(s: State, canonical: string -> string) {
    forall trace :: FencedTrace(s, trace, canonical) ==> PostsOnce(RunAll(s, trace, canonical))
  }

  lemma {:induction false} Append(s: State, first: seq<Action>, second: seq<Action>, canonical: string -> string)
    ensures RunAll(s, first + second, canonical) == RunAll(RunAll(s, first, canonical), second, canonical)
    ensures FencedTrace(s, first, canonical) && FencedTrace(RunAll(s, first, canonical), second, canonical)
            ==> FencedTrace(s, first + second, canonical)
    decreases |first|
  {
    hide Step, Fenced, Disciplined;
    if first == [] {
      assert first + second == second;
    } else {
      assert (first + second)[1..] == first[1..] + second;
      Append(Step(s, first[0], canonical), first[1..], second, canonical);
    }
  }

  lemma Once(s: State, a: Action, canonical: string -> string)
    ensures RunAll(s, [a], canonical) == Step(s, a, canonical)
    ensures Disciplined(s, a) && Fenced(s, a) ==> FencedTrace(s, [a], canonical)
  {
    assert [a][1..] == [];
    assert RunAll(Step(s, a, canonical), [], canonical) == Step(s, a, canonical);
    hide Step, Fenced, Disciplined;
  }

  function DraftSteps(d: nat, actions: seq<P.Action>): seq<Action> {
    seq(|actions|, k requires 0 <= k < |actions| => DraftStep(d, actions[k]))
  }

  lemma {:induction false} DraftRuns(s: State, d: nat, actions: seq<P.Action>, canonical: string -> string)
    requires d < |s.drafts|
    ensures RunAll(s, DraftSteps(d, actions), canonical) == s.(drafts := s.drafts[d := P.Run(s.drafts[d], actions, canonical)])
    ensures P.DisciplinedTrace(s.drafts[d], actions, canonical) ==> FencedTrace(s, DraftSteps(d, actions), canonical)
    decreases |actions|
  {
    hide P.Step, P.Disciplined;
    if actions == [] {
      assert s.drafts[d := s.drafts[d]] == s.drafts;
    } else {
      var next := Step(s, DraftStep(d, actions[0]), canonical);
      assert DraftSteps(d, actions)[1..] == DraftSteps(d, actions[1..]);
      DraftRuns(next, d, actions[1..], canonical);
      assert s.drafts[d := next.drafts[d]][d := P.Run(next.drafts[d], actions[1..], canonical)]
          == s.drafts[d := P.Run(s.drafts[d], actions, canonical)];
    }
  }

  // ---- A draft that can be posted ----

  lemma OneStep(s: P.State, a: P.Action, canonical: string -> string)
    ensures P.Run(s, [a], canonical) == P.Step(s, a, canonical)
    ensures P.Disciplined(s, a) ==> P.DisciplinedTrace(s, [a], canonical)
  {
    assert [a][1..] == [];
    assert P.Run(P.Step(s, a, canonical), [], canonical) == P.Step(s, a, canonical);
    hide P.Step, P.Disciplined;
  }

  lemma TwoSteps(s: P.State, a: P.Action, b: P.Action, canonical: string -> string)
    ensures P.Run(s, [a, b], canonical) == P.Step(P.Step(s, a, canonical), b, canonical)
    ensures P.Disciplined(s, a) && P.Disciplined(P.Step(s, a, canonical), b) ==> P.DisciplinedTrace(s, [a, b], canonical)
  {
    assert [a, b][1..] == [b];
    OneStep(P.Step(s, a, canonical), b, canonical);
    hide P.Step, P.Disciplined;
  }

  /** It has been approved, and nothing has been posted. */
  predicate IsReady(s: P.State) {
    Discipline.Publishable(s) && s.posts == []
  }

  lemma ReopenedIsReady(s: P.State, pid: nat, canonical: string -> string)
    requires P.Inv(s, canonical) && CanBePosted(s) && s.db.draft.status.Publishing? && pid < |s.procs| && P.Holds(s.procs[pid].pc)
    ensures s.procs[pid].pc.Release? ==> IsReady(P.Step(s, Discipline.Answer(pid), canonical))
    ensures s.procs[pid].pc.Send? ==>
      IsReady(P.Step(P.Step(s, P.Advance(pid, P.Telegram(P.RejectedBySend)), canonical), Discipline.Answer(pid), canonical))
    ensures !s.procs[pid].pc.Finalize?
  {
    hide P.Cleared, P.Known, FinalPolicy;
    assert P.PcOk(s, s.procs[pid].pc);
  }

  /** Disciplined steps bring every draft that can be posted to where it is approved. */
  lemma CanBeApproved(s: P.State, canonical: string -> string) returns (actions: seq<P.Action>)
    requires P.Inv(s, canonical) && CanBePosted(s)
    ensures P.DisciplinedTrace(s, actions, canonical) && IsReady(P.Run(s, actions, canonical))
  {
    match s.db.draft.status {
      case Draft =>
        actions := [P.Submit, P.Approve];
        TwoSteps(s, P.Submit, P.Approve, canonical);
      case Review =>
        actions := [P.Approve];
        OneStep(s, P.Approve, canonical);
      case Approved => actions := [];
      case Publishing =>
        if pid: nat :| pid < |s.procs| && P.Holds(s.procs[pid].pc) {
          var reject, answer := P.Advance(pid, P.Telegram(P.RejectedBySend)), Discipline.Answer(pid);
          ReopenedIsReady(s, pid, canonical);
          hide P.Step, IsReady;
          if s.procs[pid].pc.Release? {
            actions := [answer];
            OneStep(s, answer, canonical);
          } else {
            actions := [reject, answer];
            TwoSteps(s, reject, answer, canonical);
          }
        } else {
          actions := [P.OperatorReset];
          assert !P.PublisherLive(s);
          OneStep(s, P.OperatorReset, canonical);
        }
      case _ =>
    }
  }

  // ---- A run that can publish its own draft does so ----

  /** Run `r` has come to post draft `d`, and nobody else has moved. */
  ghost predicate CameToPost(s: State, s': State, r: nat, d: nat) {
    && IsPosted(s', d)
    && |s'.runs| == |s.runs| && (forall q :: 0 <= q < |s.runs| && q != r ==> s'.runs[q] == s.runs[q])
    && |s.drafts| <= |s'.drafts| && (forall e :: 0 <= e < |s.drafts| && e != d ==> s'.drafts[e] == s.drafts[e])
    && s.launches <= s'.launches
  }

  function Move(r: nat): Action {
    Advance(r, Acked, N.Nothing)
  }

  /** A run that has saved the checkpoint launches a publisher for its draft, once that is approved. */
  lemma LoadLaunches(s: State, r: nat, checkpoint: N.Checkpoint, d: nat, canonical: string -> string)
    requires r < |s.runs| && s.runs[r].pc == Loading(checkpoint) && checkpoint.draft == Some(d)
    requires d < |s.drafts| && s.drafts[d].db.draft.status.Approved?
    ensures Step(s, Move(r), canonical) == Launching(s, r, checkpoint, d, canonical)
  {
    hide P.Step;
  }

  /** What comes after the revision and the start in `Publish`. */
  function Calls(pid: nat): seq<P.Action> {
    Discipline.Publish(pid, 1)[2..]
  }

  lemma PublishInParts(s: P.State, canonical: string -> string)
    requires IsReady(s)
    ensures var revised := P.Step(s, P.Revise([]), canonical);
      var started := P.Step(revised, P.Start, canonical);
      var posted := P.Run(started, Calls(|s.procs|), canonical);
      && |revised.procs| == |s.procs| && revised.db.draft.status.Approved?
      && P.DisciplinedTrace(started, Calls(|s.procs|), canonical)
      && |posted.posts| == 1 && posted.posts[0].sender == |s.procs|
  {
    var publish, n := Discipline.Publish(|s.procs|, 1), |s.procs|;
    Discipline.OneMorePost(s, 1, canonical);
    assert publish[0] == P.Revise([]) && publish[1..][0] == P.Start && publish[1..][1..] == Calls(n);
    var revised := P.Step(s, P.Revise([]), canonical);
    var started := P.Step(revised, P.Start, canonical);
    assert |revised.procs| == |s.procs| && revised.db.draft.status.Approved?;
    hide P.Step, Discipline.Publish, P.Disciplined;
    assert P.Run(s, publish, canonical) == P.Run(revised, publish[1..], canonical);
    assert P.Run(revised, publish[1..], canonical) == P.Run(started, Calls(n), canonical);
    assert P.DisciplinedTrace(revised, publish[1..], canonical);
  }

  lemma MovesAreFenced(s: State, r: nat)
    requires r < |s.runs| && !s.runs[r].pc.Reading?
    ensures Fenced(s, Move(r)) && Disciplined(s, Move(r))
  {
  }

  /** From the checkpoint on: the draft, which is ready, is posted. */
  lemma LoadingPosts(s: State, r: nat, checkpoint: N.Checkpoint, d: nat, canonical: string -> string) returns (trace: seq<Action>)
    requires r < |s.runs| && s.runs[r].pc == Loading(checkpoint) && checkpoint.draft == Some(d)
    requires d < |s.drafts| && IsReady(s.drafts[d])
    ensures FencedTrace(s, trace, canonical) && CameToPost(s, RunAll(s, trace, canonical), r, d)
  {
    hide P.Step, P.Disciplined, Step, Fenced, Disciplined, IsReady;
    var draft, n := s.drafts[d], |s.drafts[d].procs|;
    var revise, calls := DraftSteps(d, [P.Revise([])]), DraftSteps(d, Calls(n));
    PublishInParts(draft, canonical);
    var revised := s.(drafts := s.drafts[d := P.Step(draft, P.Revise([]), canonical)]);
    OneStep(draft, P.Revise([]), canonical);
    RevisionIsDisciplined(draft);
    DraftRuns(s, d, [P.Revise([])], canonical);
    var launched := Launching(revised, r, checkpoint, d, canonical);
    LoadLaunches(revised, r, checkpoint, d, canonical);
    MovesAreFenced(revised, r);
    Once(revised, Move(r), canonical);
    DraftRuns(launched, d, Calls(n), canonical);
    trace := revise + [Move(r)] + calls;
    Append(s, revise, [Move(r)], canonical);
    Append(s, revise + [Move(r)], calls, canonical);
    var posted := RunAll(s, trace, canonical);
    hide RunAll, FencedTrace, P.Run, P.DisciplinedTrace, Calls;
    assert posted.launches[|s.launches|] == N.Launch(d, n);
    assert PostOf(posted, d, 0);
  }

  lemma RevisionIsDisciplined(s: P.State)
    ensures P.Disciplined(s, P.Revise([]))
  {
  }

  lemma CameToPostTwice(s: State, s': State, s'': State, r: nat, d: nat)
    requires |s'.runs| == |s.runs| && (forall q :: 0 <= q < |s.runs| && q != r ==> s'.runs[q] == s.runs[q])
    requires |s.drafts| <= |s'.drafts| && (forall e :: 0 <= e < |s.drafts| && e != d ==> s'.drafts[e] == s.drafts[e])
    requires s.launches <= s'.launches && CameToPost(s', s'', r, d)
    ensures CameToPost(s, s'', r, d)
  {
  }

  lemma SavingPosts(s: State, r: nat, d: nat, canonical: string -> string) returns (trace: seq<Action>)
    requires r < |s.runs| && s.runs[r] == Run(true, Saving(Some(d)))
    requires d < |s.drafts| && P.Inv(s.drafts[d], canonical) && CanBePosted(s.drafts[d])
    ensures FencedTrace(s, trace, canonical) && CameToPost(s, RunAll(s, trace, canonical), r, d)
  {
    var first := FirstCheckpoint(Some(d), true);
    var saved := Step(s, Move(r), canonical);
    assert saved == Goto(s.(checkpoint := Some(first)), r, Loading(first));
    MovesAreFenced(s, r);
    Once(s, Move(r), canonical);
    hide P.Step, P.Disciplined, Step, Fenced, Disciplined, IsReady, P.Inv;
    var approve := CanBeApproved(s.drafts[d], canonical);
    DraftRuns(saved, d, approve, canonical);
    var ready := saved.(drafts := saved.drafts[d := P.Run(s.drafts[d], approve, canonical)]);
    var rest := LoadingPosts(ready, r, first, d, canonical);
    trace := [Move(r)] + DraftSteps(d, approve) + rest;
    Append(s, [Move(r)], DraftSteps(d, approve), canonical);
    Append(s, [Move(r)] + DraftSteps(d, approve), rest, canonical);
    hide CameToPost, RunAll, FencedTrace, P.Run;
    CameToPostTwice(s, ready, RunAll(s, trace, canonical), r, d);
  }

  /** A run that still searches finds a draft first, which is a new one. */
  lemma SearchingPosts(s: State, r: nat, canonical: string -> string) returns (trace: seq<Action>)
    requires r < |s.runs| && s.runs[r].automatic && s.runs[r].pc.Searching?
    ensures FencedTrace(s, trace, canonical) && CameToPost(s, RunAll(s, trace, canonical), r, |s.drafts|)
  {
    var find, d := Advance(r, Acked, N.Found("")), |s.drafts|;
    var found := Step(s, find, canonical);
    assert found == Goto(s.(drafts := s.drafts + [P.Initial("")]), r, Saving(Some(d)));
    Once(s, find, canonical);
    NewDraftIsOk("", canonical);
    hide P.Inv, P.Initial, Step;
    var rest := SavingPosts(found, r, d, canonical);
    trace := [find] + rest;
    Append(s, [find], rest, canonical);
    hide CameToPost, RunAll, FencedTrace;
    CameToPostTwice(s, found, RunAll(s, trace, canonical), r, d);
  }

  lemma HopefulPosts(s: State, r: nat, canonical: string -> string) returns (trace: seq<Action>, d: nat)
    requires DraftsOk(s.drafts, canonical) && Hopeful(s, r)
    ensures FencedTrace(s, trace, canonical) && CameToPost(s, RunAll(s, trace, canonical), r, d)
  {
    hide P.Inv, CameToPost, RunAll, FencedTrace;
    if s.runs[r].pc.Searching? {
      d := |s.drafts|;
      trace := SearchingPosts(s, r, canonical);
    } else {
      d := s.runs[r].pc.found.value;
      assert s.runs[r] == Run(true, Saving(Some(d)));
      trace := SavingPosts(s, r, d, canonical);
    }
  }

  lemma StillSearching(s: State, s': State, q: nat, d: nat, r: nat)
    requires CameToPost(s, s', q, d) && r < |s.runs| && r != q
    ensures r < |s'.runs| && s'.runs[r] == s.runs[r] && d < |s'.drafts|
  {
  }

  lemma BothPosted(s: State, s': State, s'': State, q: nat, d: nat, r: nat)
    requires CameToPost(s, s', q, d) && CameToPost(s', s'', r, |s'.drafts|)
    ensures !PostsOnce(s'')
  {
    var i: nat :| PostOf(s', d, i);
    assert PostOf(s'', d, i);
    var j: nat :| PostOf(s'', |s'.drafts|, j);
  }

  /** While one run that has read no checkpoint can still publish, another one reads this, and both go on. */
  lemma UnfencedReadIsUnsafe(s: State, r: nat, q: nat, canonical: string -> string)
    requires Inv(s, canonical) && r < |s.runs| && s.runs[r] == Run(true, Reading) && s.checkpoint.None? && Hopeful(s, q)
    ensures !StaysSafe(Goto(s, r, Searching(N.TIERS)), canonical)
  {
    hide CameToPost, RunAll, FencedTrace, P.Inv, RowsOk, OneSource;
    var s0 := Goto(s, r, Searching(N.TIERS));
    assert q != r && Hopeful(s0, q);
    var first, d := HopefulPosts(s0, q, canonical);
    var s1 := RunAll(s0, first, canonical);
    StillSearching(s0, s1, q, d, r);
    var second := SearchingPosts(s1, r, canonical);
    var s2 := RunAll(s1, second, canonical);
    Append(s0, first, second, canonical);
    BothPosted(s0, s1, s2, q, d, r);
  }

  /** In every state that fenced runs reach, and for every action: the step keeps the request at one message
      for all fenced continuations if and only if it is fenced. */
  lemma FenceIsExact(s: State, a: Action, canonical: string -> string)
    requires Inv(s, canonical) && Disciplined(s, a)
    ensures Fenced(s, a) <==> StaysSafe(Step(s, a, canonical), canonical)
  {
    if Fenced(s, a) {
      StepKeepsInv(s, a, canonical);
      var s' := Step(s, a, canonical);
      forall trace | FencedTrace(s', trace, canonical) ensures PostsOnce(RunAll(s', trace, canonical)) {
        RunKeepsInv(s', trace, canonical);
        InvPostsOnce(RunAll(s', trace, canonical), canonical);
      }
    } else {
      var q: nat :| Hopeful(s, q);
      UnfencedReadIsUnsafe(s, a.run, q, canonical);
    }
  }

  // ---- Unfenced reads occur ----

  /** Two runs begin, and both read before one of them has saved a checkpoint. */
  lemma UnfencedReadOccurs(canonical: string -> string)
    ensures var trace := [Begin(true), Begin(true), Move(0)];
      FencedTrace(Initial(), trace, canonical) && !Fenced(RunAll(Initial(), trace, canonical), Move(1))
  {
    var s1 := Step(Initial(), Begin(true), canonical);
    var s2 := Step(s1, Begin(true), canonical);
    var s3 := Step(s2, Move(0), canonical);
    assert forall r: nat :: !Hopeful(s2, r);
    assert Hopeful(s3, 0);
    Once(Initial(), Begin(true), canonical);
    Once(s1, Begin(true), canonical);
    Once(s2, Move(0), canonical);
    Append(Initial(), [Begin(true)], [Begin(true)], canonical);
    Append(Initial(), [Begin(true)] + [Begin(true)], [Move(0)], canonical);
    assert [Begin(true)] + [Begin(true)] + [Move(0)] == [Begin(true), Begin(true), Move(0)];
  }

  // ---- A run by itself ----

  /** One turn of a script for run `r`; a process that is left waiting for its publisher is gone. */
  function PlayTurn(s: State, r: nat, turn: N.Turn, canonical: string -> string): (s': State)
    requires r < |s.runs|
    ensures |s'.runs| == |s.runs|
  {
    var s1 := s.(drafts := N.StepAll(s.drafts, turn.others, canonical));
    var s2 := RunStep(s1, r, turn.delivery, turn.news, canonical);
    if turn.dies || (s.runs[r].pc.Waiting? && s2.runs[r].pc.Waiting?) then Goto(s1, r, Ended(N.Fails(N.ProcessDied))) else s2
  }

  function Play(s: State, r: nat, turns: seq<N.Turn>, n: nat, canonical: string -> string): (s': State)
    requires r < |s.runs|
    ensures |s'.runs| == |s.runs|
    decreases n
  {
    if n == 0 || s.runs[r].pc.Ended? then s
    else Play(PlayTurn(s, r, N.FirstTurn(turns), canonical), r, N.Rest(turns), n - 1, canonical)
  }

  /** The steps of a run of this machine that keep its assumptions about drafts. */
  ghost predicate DisciplinedTrace(s: State, trace: seq<Action>, canonical: string -> string)
    decreases |trace|
  {
    trace == [] || (Disciplined(s, trace[0]) && DisciplinedTrace(Step(s, trace[0], canonical), trace[1..], canonical))
  }

  lemma {:induction false} Join(s: State, first: seq<Action>, second: seq<Action>, canonical: string -> string)
    requires DisciplinedTrace(s, first, canonical) && DisciplinedTrace(RunAll(s, first, canonical), second, canonical)
    ensures RunAll(s, first + second, canonical) == RunAll(RunAll(s, first, canonical), second, canonical)
    ensures DisciplinedTrace(s, first + second, canonical)
    decreases |first|
  {
    hide Step, Disciplined;
    if first == [] {
      assert first + second == second;
    } else {
      assert (first + second)[1..] == first[1..] + second;
      Join(Step(s, first[0], canonical), first[1..], second, canonical);
    }
  }

  lemma JoinOne(s: State, first: seq<Action>, a: Action, canonical: string -> string)
    requires DisciplinedTrace(s, first, canonical) && Disciplined(RunAll(s, first, canonical), a)
    ensures RunAll(s, first + [a], canonical) == Step(RunAll(s, first, canonical), a, canonical)
    ensures DisciplinedTrace(s, first + [a], canonical)
  {
    var s1 := RunAll(s, first, canonical);
    Once(s1, a, canonical);
    assert [a][1..] == [];
    assert DisciplinedTrace(s1, [a], canonical);
    Join(s, first, [a], canonical);
    hide Step, Disciplined;
  }

  lemma {:induction false} OthersAreARun(s: State, steps: seq<N.DraftStep>, canonical: string -> string) returns (trace: seq<Action>)
    ensures DisciplinedTrace(s, trace, canonical)
    ensures RunAll(s, trace, canonical) == s.(drafts := N.StepAll(s.drafts, steps, canonical))
  {
    trace := [];
    if steps != [] {
      var last := steps[|steps| - 1];
      trace := OthersAreARun(s, steps[..|steps| - 1], canonical);
      var before := N.StepAll(s.drafts, steps[..|steps| - 1], canonical);
      hide P.Step, P.Disciplined;
      if last.draft < |before| && P.Disciplined(before[last.draft], last.action) {
        JoinOne(s, trace, DraftStep(last.draft, last.action), canonical);
        trace := trace + [DraftStep(last.draft, last.action)];
      }
    }
  }

  /** A played script is a run of the machine. */
  lemma {:induction false} PlayIsARun(s: State, r: nat, turns: seq<N.Turn>, n: nat, canonical: string -> string) returns (trace: seq<Action>)
    requires r < |s.runs|
    ensures DisciplinedTrace(s, trace, canonical) && RunAll(s, trace, canonical) == Play(s, r, turns, n, canonical)
    decreases n
  {
    trace := [];
    if n > 0 && !s.runs[r].pc.Ended? {
      var turn := N.FirstTurn(turns);
      var others := OthersAreARun(s, turn.others, canonical);
      var s1 := RunAll(s, others, canonical);
      var s2 := PlayTurn(s, r, turn, canonical);
      var own := if s2 == Step(s1, Die(r), canonical) then Die(r) else Advance(r, turn.delivery, turn.news);
      assert Step(s1, own, canonical) == s2 && Disciplined(s1, own);
      hide Step, Disciplined, N.StepAll, PlayTurn;
      JoinOne(s, others, own, canonical);
      var rest := PlayIsARun(s2, r, N.Rest(turns), n - 1, canonical);
      Join(s, others + [own], rest, canonical);
      trace := others + [own] + rest;
    }
  }

  /** The request as this run finds it. */
  function Found(s: State, turns: seq<N.Turn>): N.Run {
    N.Run(s.checkpoint, s.drafts, s.launches, turns)
  }

  predicate EndsAs(s: State, r: nat, run: N.Run, outcome: N.Outcome) {
    && r < |s.runs| && s.runs[r].pc == Ended(outcome)
    && s.checkpoint == run.checkpoint && s.drafts == run.drafts && s.launches == run.launches
  }

  lemma SettlingAlone(s: State, r: nat, next: N.Checkpoint, turns: seq<N.Turn>, n: nat, canonical: string -> string)
    requires r < |s.runs| && s.runs[r].pc == Settling(next) && n >= 1
    ensures var (saved, unsaved) := N.AfterSave(Found(s, turns), next, canonical);
      EndsAs(Play(s, r, turns, n, canonical), r, saved,
             if unsaved.Some? then N.Fails(unsaved.value) else N.Returned(next.status, next.messageId))
  {
    hide N.StepAll;
  }

  /** The end of `AfterPublish`, from where the publisher has been started. */
  function AfterWaiting(run: N.Run, checkpoint: N.Checkpoint, d: nat, pid: nat, canonical: string -> string): (N.Run, N.Outcome)
    requires d < |run.drafts|
  {
    var r1 := N.AfterAwait(run, canonical);
    if N.FirstTurn(run.turns).dies || pid >= |r1.drafts[d].procs| || !r1.drafts[d].procs[pid].pc.Finished? then (r1, N.Fails(N.ProcessDied))
    else match r1.drafts[d].procs[pid].pc.ending
      case Raised(_) => (r1, N.Fails(N.CallRaised))
      case Returned(value) =>
        var next := N.Settled(checkpoint, value);
        var (saved, unsaved) := N.AfterSave(r1, next, canonical);
        (saved, if unsaved.Some? then N.Fails(unsaved.value) else N.Returned(next.status, next.messageId))
  }

  lemma WaitingAlone(s: State, r: nat, checkpoint: N.Checkpoint, d: nat, pid: nat, turns: seq<N.Turn>, n: nat, canonical: string -> string)
    requires r < |s.runs| && s.runs[r].pc == Waiting(checkpoint, pid) && checkpoint.draft == Some(d) && d < |s.drafts| && n >= 2
    ensures var (run, outcome) := AfterWaiting(Found(s, turns), checkpoint, d, pid, canonical);
      EndsAs(Play(s, r, turns, n, canonical), r, run, outcome)
  {
    hide N.StepAll, N.AfterSave, AfterTier, AfterSave, AfterLoad, AfterApproval, N.Settled;
    var s' := PlayTurn(s, r, N.FirstTurn(turns), canonical);
    if s'.runs[r].pc.Settling? {
      SettlingAlone(s', r, s'.runs[r].pc.next, N.Rest(turns), n - 1, canonical);
      hide Play;
      assert Play(s, r, turns, n, canonical) == Play(s', r, N.Rest(turns), n - 1, canonical);
    }
  }

  /** The end of `AfterPublish`, from where the draft is prepared. */
  function AfterPreparing(run: N.Run, checkpoint: N.Checkpoint, d: nat, canonical: string -> string): (N.Run, N.Outcome)
    requires d < |run.drafts|
  {
    var (published, ending) := N.AfterStart(run, d, canonical);
    match ending
    case None => (published, N.Fails(N.ProcessDied))
    case Some(Raised(_)) => (published, N.Fails(N.CallRaised))
    case Some(Returned(value)) =>
      var next := N.Settled(checkpoint, value);
      var (saved, unsaved) := N.AfterSave(published, next, canonical);
      (saved, if unsaved.Some? then N.Fails(unsaved.value) else N.Returned(next.status, next.messageId))
  }

  /** The publisher starts, and the run waits for it. */
  lemma LaunchingAlone(s: State, r: nat, checkpoint: N.Checkpoint, d: nat, turns: seq<N.Turn>, n: nat, canonical: string -> string)
    requires r < |s.runs| && checkpoint.draft == Some(d) && d < |s.drafts| && n >= 2
    ensures var (run, outcome) := AfterPreparing(Found(s, turns), checkpoint, d, canonical);
      EndsAs(Play(Launching(s, r, checkpoint, d, canonical), r, turns, n, canonical), r, run, outcome)
  {
    WaitingAlone(Launching(s, r, checkpoint, d, canonical), r, checkpoint, d, |s.drafts[d].procs|, turns, n, canonical);
    hide Play, N.AfterSave, N.StepAll, P.Step, EndsAs;
  }

  /** The run has ended with this problem, or goes on from the start of the publisher. */
  ghost predicate Prepares(end: State, r: nat, checkpoint: N.Checkpoint, d: nat, prepared: N.Run, problem: Option<N.Problem>,
                           canonical: string -> string) {
    if problem.Some? then EndsAs(end, r, prepared, N.Fails(problem.value))
    else exists s: State, n: nat :: n >= 2 && r < |s.runs| && d < |s.drafts| && Found(s, prepared.turns) == prepared
           && end == Play(Launching(s, r, checkpoint, d, canonical), r, prepared.turns, n, canonical)
  }

  /** The end of `AfterPrepare`, for a draft in review. */
  function AfterReview(run: N.Run, d: nat, canonical: string -> string): (N.Run, Option<N.Problem>)
    requires d < |run.drafts|
  {
    var approving, r1 := N.FirstTurn(run.turns), N.AfterAwait(run, canonical);
    if approving.dies then (r1, Some(N.ProcessDied))
    else if approving.delivery.NotApplied? || PS.ApproveDraft(r1.drafts[d].db).None? then (r1, Some(N.CallRaised))
    else (r1.(drafts := r1.drafts[d := P.Step(r1.drafts[d], P.Approve, canonical)]), N.Answer(approving))
  }

  lemma ApprovingAlone(s: State, r: nat, checkpoint: N.Checkpoint, d: nat, turns: seq<N.Turn>, n: nat, canonical: string -> string)
    requires r < |s.runs| && s.runs[r].pc == Approving(checkpoint) && checkpoint.draft == Some(d) && d < |s.drafts| && n >= 3
    ensures var (prepared, problem) := AfterReview(Found(s, turns), d, canonical);
      Prepares(Play(s, r, turns, n, canonical), r, checkpoint, d, prepared, problem, canonical)
  {
    hide N.StepAll, P.Step;
    var s1 := s.(drafts := N.StepAll(s.drafts, N.FirstTurn(turns).others, canonical));
    var t := s1.(drafts := s1.drafts[d := P.Step(s1.drafts[d], P.Approve, canonical)]);
    var s' := PlayTurn(s, r, N.FirstTurn(turns), canonical);
    assert Play(s, r, turns, n, canonical) == Play(s', r, N.Rest(turns), n - 1, canonical);
    var (prepared, problem) := AfterReview(Found(s, turns), d, canonical);
    if problem.None? {
      assert Found(t, prepared.turns) == prepared && s' == Launching(t, r, checkpoint, d, canonical);
      hide Play;
    }
  }

  lemma PreparingAlone(s: State, r: nat, checkpoint: N.Checkpoint, d: nat, turns: seq<N.Turn>, n: nat, canonical: string -> string)
    requires r < |s.runs| && s.runs[r].pc == Loading(checkpoint) && checkpoint.draft == Some(d) && d < |s.drafts| && n >= 4
    ensures var (prepared, problem) := N.AfterPrepare(Found(s, turns), d, canonical);
      Prepares(Play(s, r, turns, n, canonical), r, checkpoint, d, prepared, problem, canonical)
  {
    hide N.StepAll, P.Step;
    var s1 := s.(drafts := N.StepAll(s.drafts, N.FirstTurn(turns).others, canonical));
    var s' := PlayTurn(s, r, N.FirstTurn(turns), canonical);
    assert Play(s, r, turns, n, canonical) == Play(s', r, N.Rest(turns), n - 1, canonical);
    var (prepared, problem) := N.AfterPrepare(Found(s, turns), d, canonical);
    if s'.runs[r].pc.Approving? {
      ApprovingAlone(s', r, checkpoint, d, N.Rest(turns), n - 1, canonical);
      hide Play, Prepares;
      assert (prepared, problem) == AfterReview(Found(s', N.Rest(turns)), d, canonical);
    } else if problem.None? {
      hide Play;
      assert Found(s1, prepared.turns) == prepared && s' == Launching(s1, r, checkpoint, d, canonical);
    }
  }

  lemma LoadingAlone(s: State, r: nat, turns: seq<N.Turn>, n: nat, canonical: string -> string)
    requires r < |s.runs| && N.IsToPublish(Found(s, turns)) && s.runs[r].pc == Loading(s.checkpoint.value) && n >= 4
    ensures var (run, outcome) := N.AfterPublish(Found(s, turns), canonical);
      EndsAs(Play(s, r, turns, n, canonical), r, run, outcome)
  {
    hide Play, Launching, EndsAs, N.AfterStart, N.AfterSave, N.AfterPrepare;
    var checkpoint, d := s.checkpoint.value, s.checkpoint.value.draft.value;
    var (prepared, problem) := N.AfterPrepare(Found(s, turns), d, canonical);
    PreparingAlone(s, r, checkpoint, d, turns, n, canonical);
    if problem.None? {
      var t: State, m: nat :| m >= 2 && r < |t.runs| && d < |t.drafts| && Found(t, prepared.turns) == prepared
        && Play(s, r, turns, n, canonical) == Play(Launching(t, r, checkpoint, d, canonical), r, prepared.turns, m, canonical);
      LaunchingAlone(t, r, checkpoint, d, prepared.turns, m, canonical);
    }
  }

  /** The end of `AfterNothingRead`, with this many tiers to go. */
  function AfterTiers(run: N.Run, tiers: nat, automatic: bool, canonical: string -> string): (N.Run, N.Outcome) {
    var (searched, found) := N.AfterSearch(run, tiers, canonical);
    if found.Failure? then (searched, N.Fails(found.error))
    else AfterFinding(searched, found.value, automatic, canonical)
  }

  function AfterFinding(run: N.Run, found: Option<nat>, automatic: bool, canonical: string -> string): (N.Run, N.Outcome) {
    var first := FirstCheckpoint(found, automatic);
    var (saved, unsaved) := N.AfterSave(run, first, canonical);
    if unsaved.Some? then (saved, N.Fails(unsaved.value))
    else if !N.IsToPublish(saved) then (saved, N.Returned(first.status, None))
    else N.AfterPublish(saved, canonical)
  }

  lemma SavingAlone(s: State, r: nat, found: Option<nat>, turns: seq<N.Turn>, n: nat, canonical: string -> string)
    requires r < |s.runs| && s.runs[r].pc == Saving(found) && (found.Some? ==> found.value < |s.drafts|) && n >= 5
    ensures var (run, outcome) := AfterFinding(Found(s, turns), found, s.runs[r].automatic, canonical);
      EndsAs(Play(s, r, turns, n, canonical), r, run, outcome)
  {
    hide N.StepAll, N.AfterPublish, AfterTier, AfterLoad, AfterApproval, AfterWait;
    var s' := PlayTurn(s, r, N.FirstTurn(turns), canonical);
    assert Play(s, r, turns, n, canonical) == Play(s', r, N.Rest(turns), n - 1, canonical);
    if s'.runs[r].pc.Loading? {
      LoadingAlone(s', r, N.Rest(turns), n - 1, canonical);
      hide Play;
    }
  }

  lemma {:induction false} SearchingAlone(s: State, r: nat, tiers: nat, turns: seq<N.Turn>, n: nat, canonical: string -> string)
    requires r < |s.runs| && s.runs[r].pc == Searching(tiers) && tiers >= 1 && n >= tiers + 5
    ensures var (run, outcome) := AfterTiers(Found(s, turns), tiers, s.runs[r].automatic, canonical);
      EndsAs(Play(s, r, turns, n, canonical), r, run, outcome)
    decreases tiers
  {
    hide N.StepAll, AfterFinding, P.Initial, AfterSave, AfterLoad, AfterApproval, AfterWait;
    var s' := PlayTurn(s, r, N.FirstTurn(turns), canonical);
    assert Play(s, r, turns, n, canonical) == Play(s', r, N.Rest(turns), n - 1, canonical);
    if s'.runs[r].pc.Saving? {
      SavingAlone(s', r, s'.runs[r].pc.found, N.Rest(turns), n - 1, canonical);
      hide Play;
    } else if s'.runs[r].pc.Searching? {
      SearchingAlone(s', r, tiers - 1, N.Rest(turns), n - 1, canonical);
      hide Play;
    }
  }

  lemma NothingReadIsAllTiers(run: N.Run, automatic: bool, canonical: string -> string)
    ensures N.AfterNothingRead(run, automatic, canonical) == AfterTiers(run, N.TIERS, automatic, canonical)
  {
    hide N.AfterPublish, N.AfterSearch, N.StepAll;
  }

  /** A run by itself is the run of the sequential request: from the checkpoint to the outcome, for every
      script, what it does here is what `NewsRequest` says. */
  lemma RunAloneIsTheRequest(s: State, r: nat, turns: seq<N.Turn>, n: nat, canonical: string -> string)
    requires r < |s.runs| && s.runs[r].pc.Reading? && N.HasItsDraft(Found(s, turns)) && n >= 8
    ensures var (run, outcome) := N.AfterRun(Found(s, turns), s.runs[r].automatic, canonical);
      EndsAs(Play(s, r, turns, n, canonical), r, run, outcome)
  {
    hide N.StepAll, N.AfterPublish, N.AfterSearch, N.AfterSave, AfterTier, AfterSave, AfterLoad, AfterApproval, AfterWait;
    var s' := PlayTurn(s, r, N.FirstTurn(turns), canonical);
    assert Play(s, r, turns, n, canonical) == Play(s', r, N.Rest(turns), n - 1, canonical);
    if s'.runs[r].pc.Searching? {
      SearchingAlone(s', r, N.TIERS, N.Rest(turns), n - 1, canonical);
      NothingReadIsAllTiers(Found(s', N.Rest(turns)), s.runs[r].automatic, canonical);
      hide Play;
    } else if s'.runs[r].pc.Loading? {
      LoadingAlone(s', r, N.Rest(turns), n - 1, canonical);
      hide Play;
    }
  }
}
