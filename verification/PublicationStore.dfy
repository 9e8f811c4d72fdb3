/** One draft of one channel as the database sees it, and the SQL functions that
    change it. Each function is one transaction; `None` stands for a raised exception. */
module PublicationStore {
  import opened Wrappers
  import opened ExcludedTopics

  datatype Status = Draft | Review | Approved | Publishing | Published | Rejected

  /** SHA-256, idealised: two texts have the same digest only when they are the same text. */
  datatype Digest = Sha256(text: string)

  datatype DraftRow = DraftRow(status: Status, body: string)

  datatype Settings = Settings(version: nat, excluded: seq<string>)

  datatype Publication = Publication(messageId: nat, text: string)

  datatype ReasonCode = TopicMainSubject | TopicUncertain | TopicClassifierError

  datatype PolicyBlock = PolicyBlock(reason: ReasonCode, settingsVersion: nat, digest: Digest)

  datatype Db = Db(draft: DraftRow, settings: Option<Settings>,
                   publication: Option<Publication>, block: Option<PolicyBlock>)

  datatype Outcome =
    | AlreadyPublished
    | AlreadyBlocked
    | StaleSettings
    | NotPublishable
    | OutboundChanged
    | Claimed
    | Blocked

  /** The draft transition table. */
  predicate MayMove(from: Status, to: Status) {
    match from
    case Draft => to.Review? || to.Rejected?
    case Review => to.Approved? || to.Rejected?
    case Approved => to.Publishing? || to.Rejected?
    case Publishing => to.Published? || to.Approved?
    case Published => false
    case Rejected => false
  }

  function SetStatus(db: Db, status: Status): Db {
    db.(draft := db.draft.(status := status))
  }

  predicate VersionIs(db: Db, version: nat) {
    db.settings.Some? && db.settings.value.version == version
  }

  function ReasonOf(classification: Classification): ReasonCode {
    match classification
    case ClassifierError => TopicClassifierError
    case Assessed(relation) => if relation.MainSubject? then TopicMainSubject else TopicUncertain
  }

  /** claim_draft_for_publication_with_policy. */
  function ClaimWithPolicy(db: Db, version: nat, digest: Digest): (Outcome, Db) {
    if db.publication.Some? then (AlreadyPublished, db)
    else if db.block.Some? then (AlreadyBlocked, db)
    else if !VersionIs(db, version) then (StaleSettings, db)
    else if !db.draft.status.Approved? then (NotPublishable, db)
    else if Sha256(db.draft.body) != digest then (OutboundChanged, db)
    else (Claimed, SetStatus(db, Publishing))
  }

  /** block_draft_publication. */
  function BlockDraft(db: Db, version: nat, outbound: string, reason: ReasonCode): (Outcome, Db) {
    if db.publication.Some? then (AlreadyPublished, db)
    else if db.block.Some? then (AlreadyBlocked, db)
    else if !VersionIs(db, version) then (StaleSettings, db)
    else if !db.draft.status.Approved? then (NotPublishable, db)
    else if db.draft.body != outbound then (OutboundChanged, db)
    else (Blocked, SetStatus(db, Rejected).(block := Some(PolicyBlock(reason, version, Sha256(outbound)))))
  }

  /** finalize_draft_publication. */
  function FinalizePublication(db: Db, messageId: nat, text: string): Option<Db> {
    if db.draft.status.Publishing? && db.publication.None? then
      Some(SetStatus(db, Published).(publication := Some(Publication(messageId, text))))
    else None
  }

  /** reset_draft_publication and release_rejected_draft_publication, which update the same row
      under the same condition and differ only in who calls them. */
  function ReopenPublication(db: Db): Option<Db> {
    if db.draft.status.Publishing? && db.publication.None? then Some(SetStatus(db, Approved)) else None
  }

  /** approve_draft. */
  function ApproveDraft(db: Db): Option<Db> {
    if db.draft.status.Review? then Some(SetStatus(db, Approved)) else None
  }

  /** reject_draft. */
  function RejectDraft(db: Db): Option<Db> {
    if db.draft.status.Review? || db.draft.status.Approved? then Some(SetStatus(db, Rejected)) else None
  }

  /** Any settings mutation: the row gets new contents under the next version. */
  function ReviseSettings(db: Db, excluded: seq<string>): Db {
    var version := if db.settings.Some? then db.settings.value.version + 1 else 1;
    db.(settings := Some(Settings(version, excluded)))
  }

  /** One of the functions that change a draft, or its submission, makes this of the row. */
  ghost predicate Changes(db: Db, db': Db) {
    || (db.draft.status.Draft? && (db' == SetStatus(db, Review)))
    || ApproveDraft(db) == Some(db')
    || RejectDraft(db) == Some(db')
    || ReopenPublication(db) == Some(db')
    || (exists messageId, text :: FinalizePublication(db, messageId, text) == Some(db'))
    || (exists version, digest :: ClaimWithPolicy(db, version, digest) == (Claimed, db'))
    || (exists version, outbound, reason :: BlockDraft(db, version, outbound, reason) == (Blocked, db'))
  }

  /** The table is exact: of a draft that is neither published nor blocked, these functions make just the
      moves that the table lists, except that none of them rejects a draft before its submission. */
  lemma TableIsExact(db: Db, to: Status)
    requires db.publication.None? && db.block.None? && db.settings.Some?
    ensures (exists db' :: Changes(db, db') && db'.draft.status == to)
      <==> MayMove(db.draft.status, to) && !(db.draft.status.Draft? && to.Rejected?)
  {
    var version, body := db.settings.value.version, db.draft.body;
    match db.draft.status {
      case Draft => assert Changes(db, SetStatus(db, Review));
      case Review => assert Changes(db, SetStatus(db, Approved)) && Changes(db, SetStatus(db, Rejected));
      case Approved =>
        assert ClaimWithPolicy(db, version, Sha256(body)) == (Claimed, SetStatus(db, Publishing));
        assert Changes(db, SetStatus(db, Publishing)) && Changes(db, SetStatus(db, Rejected));
      case Publishing =>
        var published := FinalizePublication(db, 0, "").value;
        assert Changes(db, published) && Changes(db, SetStatus(db, Approved));
      case _ =>
    }
  }
}
