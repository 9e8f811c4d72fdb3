/** The bot's settings row under optimistic concurrency: handlers read the row, compute a change and
    write it under the version on the button, while other handlers write in between. */
module SettingsFence {
  import opened Lists
  import opened Wrappers

  /** The last kind of topic is a name that every JavaScript object inherits, which the parser of the
      buttons takes for a known one. */
  datatype Topic =
    | Ai | World | Science | Nature | Animals | History | Culture | Technology | Society
    | InheritedTopic(name: string)

  const ALL_TOPICS := [Ai, World, Science, Nature, Animals, History, Culture, Technology, Society]

  datatype Language = English | Ukrainian | German | InheritedLanguage(name: string)

  datatype Settings = Settings(language: Language, topics: seq<Topic>, customs: seq<string>, manual: bool,
                               interval: Option<nat>, quiet: bool, excluded: seq<string>, updatedBy: nat)

  datatype Row = Row(version: nat, settings: Settings)

  datatype Change =
    | SetLanguage(language: Language)
    | AddTopic(topic: Topic)
    | RemoveTopic(topic: Topic)
    | AllTopics
    | ClearCustoms
    | SetApproval(manual: bool)
    | SetInterval(interval: Option<nat>)
    | SetQuiet(quiet: bool)
    | ToggleExcluded
    | AddCustom(text: string)

  const MAX_TOPICS := 12
  const MAX_CUSTOMS := 5
  const WAR_CONFLICT := "war_conflict"

  function Minus<T(==,!new)>(xs: seq<T>, x: T): (r: seq<T>)
    ensures forall y :: y in r <==> y in xs && y != x
  {
    if xs == [] then []
    else
      var rest := Minus(xs[..|xs| - 1], x);
      if xs[|xs| - 1] == x then rest else rest + [xs[|xs| - 1]]
  }

  // ---- What a change does, and when a handler refuses it ----

  function Apply(s: Settings, change: Change, user: nat): Settings {
    var touched := s.(updatedBy := user);
    match change
    case SetLanguage(language) => touched.(language := language)
    case AddTopic(topic) => touched.(topics := if topic in s.topics then s.topics else s.topics + [topic])
    case RemoveTopic(topic) => touched.(topics := Minus(s.topics, topic))
    case AllTopics => touched.(topics := ALL_TOPICS)
    case ClearCustoms => touched.(customs := [])
    case SetApproval(manual) => touched.(manual := manual)
    case SetInterval(interval) => touched.(interval := interval)
    case SetQuiet(quiet) => touched.(quiet := quiet)
    case ToggleExcluded =>
      touched.(excluded := if WAR_CONFLICT in s.excluded then Minus(s.excluded, WAR_CONFLICT) else s.excluded + [WAR_CONFLICT])
    case AddCustom(text) => touched.(customs := s.customs + [text])
  }

  predicate Refuses(s: Settings, change: Change) {
    match change
    case AddTopic(topic) => topic !in s.topics && |s.topics| + |s.customs| >= MAX_TOPICS
    case RemoveTopic(topic) => Minus(s.topics, topic) == [] && s.customs == []
    case AllTopics => |ALL_TOPICS| + |s.customs| > MAX_TOPICS
    case ClearCustoms => s.topics == []
    case AddCustom(_) => |s.customs| >= MAX_CUSTOMS || |s.topics| + |s.customs| >= MAX_TOPICS
    case _ => false
  }

  // ---- Validity ----

  /** The length of a text in UTF-16 code units, as JavaScript counts it. */
  function Utf16Length(text: string): nat {
    if text == "" then 0
    else Utf16Length(text[..|text| - 1]) + (if text[|text| - 1] as int > 0xffff then 2 else 1)
  }

  /** What the checks of texts are built from: the normal form of a text, which is trimmed, the letters,
      digits and marks, the control characters, and the pattern of a URL, which both sides share. */
  datatype Texts = Texts(normalize: string -> string, letter: char -> bool, control: char -> bool, hasUrl: string -> bool)

  const PUNCTUATION := " &'\U{2019}()+,./:-"

  /** Letters and the punctuation of topics are no control characters, and normal texts are trimmed. */
  ghost predicate Sensible(t: Texts) {
    && (forall c :: t.letter(c) || c in PUNCTUATION ==> !t.control(c))
    && (forall text :: Trimmed(t.normalize(text)))
  }

  predicate Trimmed(text: string) {
    text == "" || (text[0] != ' ' && text[|text| - 1] != ' ')
  }

  /** The pattern of custom topics: a letter, then letters and punctuation. */
  predicate Spelled(text: string, t: Texts) {
    && text != "" && t.letter(text[0])
    && forall k :: 0 <= k < |text| ==> t.letter(text[k]) || text[k] in PUNCTUATION
  }

  /** validateCustomTopic lets this text through as it is; lengths are in UTF-16 code units. */
  predicate AcceptsText(text: string, t: Texts) {
    t.normalize(text) == text && 2 <= Utf16Length(text) <= 80 && !t.hasUrl(text) && Spelled(text, t)
  }

  /** valid_news_custom_topics: any trimmed text without control characters and URLs; it counts characters. */
  predicate SqlAcceptsText(text: string, t: Texts) {
    && Trimmed(text) && 2 <= |text| <= 80 && !t.hasUrl(text)
    && forall k :: 0 <= k < |text| ==> !t.control(text[k])
  }

  predicate ValidInterval(interval: Option<nat>) {
    interval.None? || interval.value in {60, 180, 360, 720, 1440}
  }

  /** What the database accepts: one to twelve topics, up to five of them custom, without repetitions. */
  predicate SqlAccepts(s: Settings, t: Texts) {
    && 1 <= |s.topics| + |s.customs| <= MAX_TOPICS
    && |s.customs| <= MAX_CUSTOMS
    && Distinct(s.topics) && Distinct(s.customs)
    && (forall k :: 0 <= k < |s.topics| ==> !s.topics[k].InheritedTopic?)
    && (forall k :: 0 <= k < |s.customs| ==> SqlAcceptsText(s.customs[k], t))
    && ValidInterval(s.interval) && !s.language.InheritedLanguage?
  }

  lemma {:induction false} CharactersFitUnits(text: string)
    ensures |text| <= Utf16Length(text) <= 2 * |text|
  {
    if text != "" { CharactersFitUnits(text[..|text| - 1]); }
  }

  /** Where the two checks disagree: the database refuses a text that the program accepts exactly when it
      is one character of two code units, and accepts one that the program refuses exactly when that is
      not normal, not of the pattern, or longer than 80 code units. */
  lemma TextChecksDisagree(text: string, t: Texts)
    requires Sensible(t)
    ensures AcceptsText(text, t) && !SqlAcceptsText(text, t) <==>
      |text| == 1 && Utf16Length(text) == 2 && t.normalize(text) == text && t.letter(text[0]) && !t.hasUrl(text)
    ensures SqlAcceptsText(text, t) ==>
      (!AcceptsText(text, t) <==> t.normalize(text) != text || !Spelled(text, t) || Utf16Length(text) > 80)
  {
    CharactersFitUnits(text);
    if t.normalize(text) == text { assert Trimmed(t.normalize(text)); }
  }

  function Repeat(c: char, n: nat): string {
    if n == 0 then "" else Repeat(c, n - 1) + [c]
  }

  lemma {:induction false} RepeatedTwice(c: char, n: nat)
    requires c as int > 0xffff
    ensures |Repeat(c, n)| == n && Utf16Length(Repeat(c, n)) == 2 * n
    ensures forall k :: 0 <= k < n ==> Repeat(c, n)[k] == c
  {
    if n > 0 {
      RepeatedTwice(c, n - 1);
      assert Repeat(c, n)[..n - 1] == Repeat(c, n - 1);
    }
  }

  /** A letter beyond the basic plane, `n` times: alone it is accepted by the program only, and more than
      forty of it by the database only. */
  lemma WideLettersDisagree(c: char, n: nat, t: Texts)
    requires Sensible(t) && c as int > 0xffff && t.letter(c) && 1 <= n <= 80
    requires var text := Repeat(c, n); !t.hasUrl(text) && t.normalize(text) == text
    ensures AcceptsText(Repeat(c, n), t) <==> n <= 40
    ensures SqlAcceptsText(Repeat(c, n), t) <==> n >= 2
  {
    assert !t.control(c);
    RepeatedTwice(c, n);
    SameLetters(Repeat(c, n), c, t);
  }

  lemma SameLetters(text: string, c: char, t: Texts)
    requires c as int > 0xffff && t.letter(c) && !t.control(c) && text != "" && forall k :: 0 <= k < |text| ==> text[k] == c
    requires t.normalize(text) == text && !t.hasUrl(text) && Utf16Length(text) == 2 * |text|
    ensures AcceptsText(text, t) <==> |text| <= 40
    ensures SqlAcceptsText(text, t) <==> 2 <= |text| <= 80
  {
    hide Utf16Length;
    assert Trimmed(text) && Spelled(text, t);
  }

  /** The two inputs, with the ideograph U+20000, and a third: the database accepts punctuation that the
      program does not. */
  lemma DisagreementsOccur(t: Texts)
    requires Sensible(t) && t.letter('\U{20000}') && t.letter('a') && !t.letter('!') && !t.control('!')
    requires var one, many := Repeat('\U{20000}', 1), Repeat('\U{20000}', 41);
             t.normalize(one) == one && !t.hasUrl(one) && t.normalize(many) == many && !t.hasUrl(many) && !t.hasUrl("a!")
    ensures AcceptsText(Repeat('\U{20000}', 1), t) && !SqlAcceptsText(Repeat('\U{20000}', 1), t)
    ensures SqlAcceptsText(Repeat('\U{20000}', 41), t) && !AcceptsText(Repeat('\U{20000}', 41), t)
    ensures SqlAcceptsText("a!", t) && !AcceptsText("a!", t)
  {
    hide Repeat, Utf16Length;
    WideLettersDisagree('\U{20000}', 1, t);
    WideLettersDisagree('\U{20000}', 41, t);
    assert "a!"[1] == '!' && '!' !in PUNCTUATION;
  }

  /** The changes that the database refuses although the program does not: a custom topic of one character,
      and languages and topics under inherited names. */
  predicate SqlRefuses(s: Settings, change: Change) {
    || (change.AddCustom? && |change.text| == 1)
    || (change.SetLanguage? && change.language.InheritedLanguage?)
    || (change.AddTopic? && change.topic.InheritedTopic?)
  }

  /** A change that is not refused leaves a valid row valid, with just these exceptions; so the database
      raises for no other. */
  lemma ApplyKeepsValid(s: Settings, change: Change, user: nat, t: Texts)
    requires Sensible(t) && SqlAccepts(s, t) && !Refuses(s, change)
    requires change.SetInterval? ==> ValidInterval(change.interval)
    requires change.AddCustom? ==> AcceptsText(change.text, t) && change.text !in s.customs
    ensures SqlAccepts(Apply(s, change, user), t) <==> !SqlRefuses(s, change)
  {
    if change.AddCustom? {
      TextChecksDisagree(change.text, t);
      CharactersFitUnits(change.text);
      DistinctSnoc(s.customs, change.text);
      var customs := s.customs + [change.text];
      assert customs[|s.customs|] == change.text;
    }
    AllTopicsAreDistinct();
    if change.AddTopic? && change.topic !in s.topics {
      DistinctSnoc(s.topics, change.topic);
      assert (s.topics + [change.topic])[|s.topics|] == change.topic;
    }
    if change.RemoveTopic? {
      var topics := Minus(s.topics, change.topic);
      MinusIsPart(s.topics, change.topic);
      forall k | 0 <= k < |topics| ensures !topics[k].InheritedTopic? { assert topics[k] in topics; }
    }
  }

  lemma AllTopicsAreDistinct()
    ensures Distinct(ALL_TOPICS) && |ALL_TOPICS| == 9 && forall k :: 0 <= k < 9 ==> !ALL_TOPICS[k].InheritedTopic?
  {
  }

  lemma {:induction false} MinusIsPart<T(!new)>(xs: seq<T>, x: T)
    ensures |Minus(xs, x)| <= |xs|
    ensures Distinct(xs) ==> Distinct(Minus(xs, x))
  {
    if xs != [] {
      var rest, last := xs[..|xs| - 1], xs[|xs| - 1];
      MinusIsPart(rest, x);
      if Distinct(xs) && last != x { DistinctSnoc(Minus(rest, x), last); }
    }
  }

  // ---- The row, its history, and what others do to it ----

  /** A successful write: the row it replaced and the row it left. */
  datatype Write = Write(before: Row, after: Row, own: bool)

  datatype DraftStatus = ApprovedDraft | PublishedDraft | OtherDraft

  /** What happens at one await. `unresolved` says that the row, when it is read, has a draft whose
      publication is unresolved, and `draft` is the status of that draft when it is loaded. */
  datatype Turn = Turn(others: seq<Settings>, delivery: Delivery, unresolved: bool, draft: DraftStatus)

  const QUIET_TURN := Turn([], Acked, false, ApprovedDraft)

  function TurnAt(turns: seq<Turn>, k: nat): Turn {
    if k < |turns| then turns[k] else QUIET_TURN
  }

  function Rest(turns: seq<Turn>): seq<Turn> {
    if turns == [] then [] else turns[1..]
  }

  /** A schedule is turned on while its last publication is unresolved. */
  predicate TurnsOnUnresolved(change: Change, turns: seq<Turn>) {
    change.SetInterval? && change.interval.Some? && TurnAt(turns, 0).unresolved && TurnAt(turns, 1).draft.OtherDraft?
  }

  /** One of these calls was lost or refused by the database. */
  predicate LostOne(turns: seq<Turn>) {
    exists t :: t in turns && !t.delivery.Acked?
  }

  predicate Later(turns': seq<Turn>, turns: seq<Turn>) {
    forall t :: t in turns' ==> t in turns
  }

  /** Rows only change by writes, and every write makes a new version. */
  predicate Evolves(before: Row, after: Row) {
    before.version <= after.version && (before.version == after.version ==> before == after)
  }

  function OwnWrites(history: seq<Write>): seq<Write> {
    if history == [] then []
    else OwnWrites(history[..|history| - 1]) + (if history[|history| - 1].own then [history[|history| - 1]] else [])
  }

  lemma OwnSnoc(history: seq<Write>, write: Write)
    ensures OwnWrites(history + [write]) == OwnWrites(history) + (if write.own then [write] else [])
  {
    assert (history + [write])[..|history|] == history;
  }

  /** What one write of this handler must be: made under `version` and computed from `base`; it replaces
      the very row that it was computed from exactly when the version is one that row had reached. */
  ghost predicate WriteOk(write: Write, base: Row, version: nat, change: Change, user: nat) {
    && write.before.version == version && write.after.version == version + 1
    && (write.before == base <==> version <= base.version)
    && (version <= base.version ==> write.after.settings == Apply(write.before.settings, change, user))
  }

  class Table {
    var row: Row
    var turns: seq<Turn>
    const texts: Texts
    ghost var history: seq<Write>

    ghost predicate Valid()
      reads this
    {
      Sensible(texts) && SqlAccepts(row.settings, texts)
    }

    constructor (row: Row, turns: seq<Turn>, texts: Texts)
      requires Sensible(texts) && SqlAccepts(row.settings, texts)
      ensures Valid() && this.row == row && this.texts == texts && history == []
    {
      this.row, this.turns, this.texts, history := row, turns, texts, [];
    }

    method Store(settings: Settings, own: bool)
      requires Valid() && SqlAccepts(settings, texts)
      modifies this`row, this`history
      ensures Valid() && row == Row(old(row).version + 1, settings)
      ensures history == old(history) + [Write(old(row), row, own)]
      ensures OwnWrites(history) == OwnWrites(old(history)) + (if own then [Write(old(row), row, own)] else [])
    {
      ghost var before := row;
      row := Row(row.version + 1, settings);
      OwnSnoc(history, Write(before, row, own));
      history := history + [Write(before, row, own)];
    }

    /** An await: other handlers write meanwhile. */
    method Await() returns (turn: Turn)
      requires Valid()
      modifies this
      ensures Valid() && Evolves(old(row), row) && OwnWrites(history) == OwnWrites(old(history))
      ensures turn == TurnAt(old(turns), 0) && turns == Rest(old(turns))
      ensures Later(turns, old(turns)) && (!turn.delivery.Acked? ==> LostOne(old(turns)))
      ensures |turns| + 1 >= |old(turns)|
    {
      turn := QUIET_TURN;
      if turns != [] { turn, turns := turns[0], turns[1..]; }
      for k := 0 to |turn.others|
        invariant Valid() && Evolves(old(row), row) && OwnWrites(history) == OwnWrites(old(history))
        invariant turns == Rest(old(turns)) && Later(turns, old(turns))
      {
        if SqlAccepts(turn.others[k], texts) { Store(turn.others[k], false); }
      }
    }

    /** getNewsSettings. */
    method Read() returns (r: Option<Row>, unresolved: bool)
      requires Valid()
      modifies this
      ensures Valid() && Evolves(old(row), row) && OwnWrites(history) == OwnWrites(old(history))
      ensures r.Some? ==> r.value == row
      ensures Later(turns, old(turns)) && (r.None? ==> LostOne(old(turns))) && turns == Rest(old(turns))
      ensures unresolved == TurnAt(old(turns), 0).unresolved
    {
      var turn := Await();
      r, unresolved := if turn.delivery.Acked? then Some(row) else None, turn.unresolved;
    }

    /** getDraft, for the draft of the schedule. */
    method LoadDraft() returns (r: Option<DraftStatus>)
      requires Valid()
      modifies this
      ensures Valid() && Evolves(old(row), row) && OwnWrites(history) == OwnWrites(old(history))
      ensures Later(turns, old(turns)) && (r.None? ==> LostOne(old(turns)))
      ensures r.Some? ==> r.value == TurnAt(old(turns), 0).draft
    {
      var turn := Await();
      r := if turn.delivery.Acked? then Some(turn.draft) else None;
    }

    /** The columns that an update writes: all but the excluded topics, or those alone. */
    function Columns(payload: Settings, change: Change): Settings
      reads this`row
    {
      if change.ToggleExcluded? then row.settings.(excluded := payload.excluded, updatedBy := payload.updatedBy)
      else payload.(excluded := row.settings.excluded)
    }

    /** updateNewsSettings and updateNewsExcludedTopics: `Failure` when the call raises, else whether the
        row still had the expected version. */
    method Update(base: Row, change: Change, user: nat, version: nat) returns (r: Result<bool, ()>)
      requires Valid() && Evolves(base, row) && SqlAccepts(base.settings, texts)
      modifies this
      ensures Valid() && Evolves(base, row)
      ensures OwnWrites(history) == OwnWrites(old(history))
        || exists w :: OwnWrites(history) == OwnWrites(old(history)) + [w] && WriteOk(w, base, version, change, user)
      ensures r == Success(true) ==> OwnWrites(history) != OwnWrites(old(history))
      ensures r == Success(false) ==> OwnWrites(history) == OwnWrites(old(history)) && row.version != version
      ensures r == Success(true) ==> row.version == version + 1
      ensures Later(turns, old(turns)) && |turns| + 1 >= |old(turns)|
      ensures r.Failure? ==> LostOne(old(turns)) || !SqlAccepts(Apply(base.settings, change, user), texts)
    {
      var turn := Await();
      var payload := Apply(base.settings, change, user);
      if turn.delivery.NotApplied? || !SqlAccepts(payload, texts) { return Failure(()); }
      if row.version != version { return if turn.delivery.Acked? then Success(false) else Failure(()); }
      Store(Columns(payload, change), true);
      r := if turn.delivery.Acked? then Success(true) else Failure(());
    }
  }

  lemma ApplyKeepsValidHere(s: Settings, change: Change, user: nat, t: Texts)
    requires Sensible(t) && SqlAccepts(s, t) && !Refuses(s, change) && !change.AddCustom?
    ensures (change.SetInterval? ==> ValidInterval(change.interval)) && !SqlRefuses(s, change) ==> SqlAccepts(Apply(s, change, user), t)
  {
    if change.SetInterval? ==> ValidInterval(change.interval) { ApplyKeepsValid(s, change, user, t); }
  }

  datatype Reply = Refused | Stale | Saved | Raised

  /** handleSettingsCallback for an action that changes the settings, tapped on a button that carries
      `version`. At most one write is made, and it is computed from the row it replaces exactly when the
      button did not run ahead of the row that was read. */
  method HandleSettingsCallback(table: Table, change: Change, version: nat, user: nat)
    returns (reply: Reply, ghost base: Row)
    requires table.Valid() && !change.AddCustom?
    modifies table
    ensures table.Valid() && Evolves(old(table.row), table.row)
    ensures reply.Saved? ==> OwnWrites(table.history) != OwnWrites(old(table.history))
    ensures reply.Refused? || reply.Stale? ==> OwnWrites(table.history) == OwnWrites(old(table.history))
    ensures OwnWrites(table.history) == OwnWrites(old(table.history))
      || exists w :: OwnWrites(table.history) == OwnWrites(old(table.history)) + [w] && WriteOk(w, base, version, change, user)
    ensures Evolves(old(table.row), base)
    ensures !reply.Raised? ==>
      (reply.Refused? <==> Refuses(base.settings, change) || TurnsOnUnresolved(change, old(table.turns)))
    ensures reply.Stale? ==> version < table.row.version || base.version < version
    ensures reply.Raised? ==>
      LostOne(old(table.turns)) || SqlRefuses(base.settings, change) || (change.SetInterval? && !ValidInterval(change.interval))
  {
    base := table.row;
    var current, unresolved := table.Read();
    if current.None? { return Raised, base; }
    base := current.value;
    if Refuses(current.value.settings, change) { return Refused, base; }
    if change.SetInterval? && change.interval.Some? && unresolved {
      var draft := table.LoadDraft();
      if draft.None? { return Raised, base; }
      if draft.value.OtherDraft? { return Refused, base; }
    }
    ApplyKeepsValidHere(current.value.settings, change, user, table.texts);
    var updated := table.Update(current.value, change, user, version);
    if updated.Failure? { return Raised, base; }
    if updated.value { return Saved, base; }
    // The menu is shown again, from the row as it is now.
    var latest, _ := table.Read();
    reply := if latest.Some? then Stale else Raised;
  }

  datatype InputReply = AlreadyThere | LimitReached | Added | Repeated | InputRaised

  /** handleSettingsInput: two tries to add a custom topic, each from a row read afresh. */
  method HandleSettingsInput(table: Table, text: string, user: nat) returns (reply: InputReply)
    requires table.Valid()
    modifies table
    ensures table.Valid() && Evolves(old(table.row), table.row)
    ensures reply.Added? ==> OwnWrites(table.history) != OwnWrites(old(table.history))
    ensures reply.AlreadyThere? || reply.LimitReached? || reply.Repeated? ==> OwnWrites(table.history) == OwnWrites(old(table.history))
    ensures OwnWrites(table.history) == OwnWrites(old(table.history))
      || exists w :: OwnWrites(table.history) == OwnWrites(old(table.history)) + [w]
           && w.after.settings == Apply(w.before.settings, AddCustom(text), user)
           && text !in w.before.settings.customs
    ensures reply.AlreadyThere? ==> text in table.row.settings.customs
    ensures reply.LimitReached? ==> Refuses(table.row.settings, AddCustom(text)) && text !in table.row.settings.customs
    ensures |old(table.turns)| <= |table.turns| + 4
    ensures reply.Repeated? ==> table.row.version >= old(table.row).version + 2
    ensures reply.InputRaised? && AcceptsText(text, table.texts) ==> LostOne(old(table.turns)) || |text| == 1
  {
    for attempt := 0 to 2
      invariant table.Valid() && Evolves(old(table.row), table.row)
      invariant OwnWrites(table.history) == OwnWrites(old(table.history))
      invariant Later(table.turns, old(table.turns)) && table.row.version >= old(table.row).version + attempt
      invariant |old(table.turns)| <= |table.turns| + 2 * attempt
    {
      var current, _ := table.Read();
      if current.None? { return InputRaised; }
      if text in current.value.settings.customs { return AlreadyThere; }
      if Refuses(current.value.settings, AddCustom(text)) { return LimitReached; }
      if AcceptsText(text, table.texts) { ApplyKeepsValid(current.value.settings, AddCustom(text), user, table.texts); }
      var updated := table.Update(current.value, AddCustom(text), user, current.value.version);
      if updated.Failure? { return InputRaised; }
      if updated.value { return Added; }
    }
    reply := Repeated;
  }

  /** A button shown by the bot never carries a version that the row has not reached; so the write that
      a tap on it makes is its change applied to the very row it replaces: no update is lost. */
  lemma NoUpdateIsLost(shown: Row, base: Row, write: Write, version: nat, change: Change, user: nat)
    requires version <= shown.version && Evolves(shown, base) && WriteOk(write, base, version, change, user)
    ensures write.before == base && write.after.settings == Apply(write.before.settings, change, user)
  {
  }
}
