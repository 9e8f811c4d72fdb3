/** `handleLabsCallback`: a feature flag is changed only under the version that the button carries. */
module LabsFence {
  import opened CallbackCodecs
  import opened Wrappers

  datatype Flag = Flag(version: nat, state: FlagState)

  datatype Flags = Flags(tags: Option<Flag>, editorial: Option<Flag>)

  datatype Action = View(feature: Option<Feature>) | SetState(feature: Option<Feature>, state: FlagState) | Close

  datatype Reply = Shown | Changed | OutOfDate | Raised

  datatype Turn = Turn(others: seq<Flags>, delivery: Delivery)

  const QUIET_TURN := Turn([], Acked)

  /** One of these calls was lost or refused by the database. */
  predicate LostOne(turns: seq<Turn>) {
    exists t :: t in turns && !t.delivery.Acked?
  }

  predicate Later(turns': seq<Turn>, turns: seq<Turn>) {
    forall t :: t in turns' ==> t in turns
  }

  /** The button is of the version that the row has. */
  predicate IsCurrent(flags: Flags, feature: Feature, version: nat) {
    FlagOf(flags, feature).Some? && FlagOf(flags, feature).value.version == version
  }

  function FlagOf(flags: Flags, feature: Feature): Option<Flag> {
    match feature
    case ArticleTags => flags.tags
    case EditorialEnrichment => flags.editorial
    case _ => None
  }

  function WithFlag(flags: Flags, feature: Feature, flag: Flag): Flags {
    match feature
    case ArticleTags => flags.(tags := Some(flag))
    case EditorialEnrichment => flags.(editorial := Some(flag))
    case _ => flags
  }

  /** The row that an action is about; without a feature it is that of the article tags. */
  function Subject(action: Action): Feature {
    match action
    case View(Some(feature)) => feature
    case SetState(Some(feature), _) => feature
    case _ => ArticleTags
  }

  predicate FlagEvolves(before: Option<Flag>, after: Option<Flag>) {
    before.Some? ==> after.Some? && before.value.version <= after.value.version
                     && (before.value.version == after.value.version ==> before == after)
  }

  /** Rows are never deleted, and every change of a row makes a new version. */
  predicate Evolves(before: Flags, after: Flags) {
    FlagEvolves(before.tags, after.tags) && FlagEvolves(before.editorial, after.editorial)
  }

  /** Nothing was written, or the one write changed exactly the row that had been read: its state, under
      the next version, and no other row. */
  predicate WroteWhatWasRead(writes: seq<(Flags, Flags)>, read: Flags, action: Action, version: nat) {
    writes == [] ||
    (&& |writes| == 1 && action.SetState?
     && var (before, after) := writes[0];
        && FlagOf(before, Subject(action)) == FlagOf(read, Subject(action))
        && FlagOf(read, Subject(action)).Some? && FlagOf(read, Subject(action)).value.version == version
        && after == WithFlag(before, Subject(action), Flag(version + 1, action.state)))
  }

  class Table {
    var flags: Flags
    var turns: seq<Turn>
    ghost var writes: seq<(Flags, Flags)>

    constructor (flags: Flags, turns: seq<Turn>)
      ensures this.flags == flags && writes == []
    {
      this.flags, this.turns, writes := flags, turns, [];
    }

    method Await() returns (delivery: Delivery)
      modifies this`flags, this`turns
      ensures Evolves(old(flags), flags) && Later(turns, old(turns)) && (!delivery.Acked? ==> LostOne(old(turns)))
    {
      var turn := QUIET_TURN;
      if turns != [] { turn, turns := turns[0], turns[1..]; }
      for k := 0 to |turn.others|
        invariant Evolves(old(flags), flags) && Later(turns, old(turns))
      {
        if Evolves(flags, turn.others[k]) { flags := turn.others[k]; }
      }
      delivery := turn.delivery;
    }

    /** updateNewsFeatureFlag, which raises for a state that there is not. */
    method Update(feature: Feature, state: FlagState, version: nat) returns (r: Result<bool, ()>)
      modifies this
      ensures Evolves(old(flags), flags)
      ensures writes == old(writes) ||
        exists before :: Evolves(old(flags), before)
          && FlagOf(before, feature).Some? && FlagOf(before, feature).value.version == version
          && writes == old(writes) + [(before, WithFlag(before, feature, Flag(version + 1, state)))]
      ensures r == Success(true) ==> writes != old(writes)
      ensures r == Success(false) ==> writes == old(writes) && !IsCurrent(flags, feature, version)
      ensures r == Success(true) ==> FlagOf(flags, feature) == Some(Flag(version + 1, state))
      ensures Later(turns, old(turns)) && (r.Failure? ==> LostOne(old(turns)) || state.InheritedState?)
      ensures state.InheritedState? ==> r.Failure? && writes == old(writes)
    {
      var delivery := Await();
      if delivery.NotApplied? || state.InheritedState? { return Failure(()); }
      var current := FlagOf(flags, feature);
      var found := current.Some? && current.value.version == version;
      if found {
        ghost var before := flags;
        flags := WithFlag(flags, feature, Flag(version + 1, state));
        writes := writes + [(before, flags)];
      }
      r := if delivery.Acked? then Success(found) else Failure(());
    }
  }

  /** One tap. The version is checked against the row that was read and again by the write, so whatever
      is written replaces the row that the button showed. */
  method HandleLabsCallback(table: Table, action: Option<Action>, version: nat) returns (reply: Reply, ghost read: Flags)
    requires table.writes == []
    modifies table
    ensures Evolves(old(table.flags), read)
    ensures action.None? ==> table.writes == [] && reply.OutOfDate?
    ensures action.Some? ==> WroteWhatWasRead(table.writes, read, action.value, version)
    ensures reply.Changed? ==> table.writes != []
    ensures reply.Shown? || reply.OutOfDate? ==> table.writes == []
    ensures reply.Shown? || reply.Changed? ==>
      action.Some? && IsCurrent(read, Subject(action.value), version) && (reply.Changed? <==> action.value.SetState?)
    ensures reply.OutOfDate? && action.Some? ==>
      !IsCurrent(read, Subject(action.value), version) || !IsCurrent(table.flags, Subject(action.value), version)
    ensures reply.Raised? ==>
      LostOne(old(table.turns)) || (action.Some? && action.value.SetState? && action.value.state.InheritedState?)
    ensures action.Some? && (!KnownFeature(Subject(action.value)) || (action.value.SetState? && action.value.state.InheritedState?)) ==>
      table.writes == [] && !reply.Changed?
  {
    read := table.flags;
    if action.None? { return OutOfDate, read; }
    var delivery := table.Await();
    read := table.flags;
    if !delivery.Acked? { return Raised, read; }
    var feature := Subject(action.value);
    var current := FlagOf(table.flags, feature);
    if current.None? || current.value.version != version { return OutOfDate, read; }
    if !action.value.SetState? { return Shown, read; }
    var updated := table.Update(feature, action.value.state, version);
    reply := if updated.Failure? then Raised else if updated.value then Changed else OutOfDate;
  }
}
