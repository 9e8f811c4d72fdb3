/** The printers and parsers of the bot's buttons, and the dispatcher that chooses between them. */
module CallbackCodecs {
  import opened CallbackText
  import opened Wrappers

  // ---- Settings ----

  datatype SettingsAction =
    | ViewPage(page: string)
    | SetLanguage(code: string)
    | TopicAdd(code: string)
    | TopicRemove(code: string)
    | TopicsAll
    | CustomPrompt
    | CustomClear
    | SetApproval(manual: bool)
    | SetInterval(minutes: int)
    | SetQuiet(enabled: bool)
    | ToggleExcluded
    | Applied

  const PAGES := {"home", "language", "topics", "custom", "approval", "automatic", "frequency", "quiet", "excluded"}
  const LANGUAGES := {"en", "uk", "de"}
  const TOPICS := {"ai", "world", "science", "nature", "animals", "history", "culture", "technology", "society"}
  const INTERVALS := {0, 60, 180, 360, 720, 1440}

  /** The names under which every JavaScript object inherits something. Languages, topics, features and
      states are looked up in plain objects, which therefore find these names as well as their own. */
  const INHERITED := {"constructor", "toString", "toLocaleString", "valueOf", "hasOwnProperty", "isPrototypeOf",
                      "propertyIsEnumerable", "__proto__", "__defineGetter__", "__defineSetter__", "__lookupGetter__", "__lookupSetter__"}

  predicate FindsLanguage(code: string) {
    code in LANGUAGES || code in INHERITED
  }

  predicate FindsTopic(code: string) {
    code in TOPICS || code in INHERITED
  }

  /** The code and the value that are printed for an action; `None` when its value is invalid. */
  function SettingsParts(action: SettingsAction): Option<(string, string)> {
    match action
    case ViewPage(page) => if page in PAGES then Some(("v", page)) else None
    case SetLanguage(code) => if FindsLanguage(code) then Some(("l", code)) else None
    case TopicAdd(code) => if FindsTopic(code) then Some(("ta", code)) else None
    case TopicRemove(code) => if FindsTopic(code) then Some(("tr", code)) else None
    case TopicsAll => Some(("tb", "all"))
    case CustomPrompt => Some(("cp", "set"))
    case CustomClear => Some(("cc", "all"))
    case SetApproval(manual) => Some(("a", if manual then "m" else "a"))
    case SetInterval(minutes) => if minutes in INTERVALS then Some(("i", Decimal(minutes))) else None
    case SetQuiet(enabled) => Some(("q", if enabled then "e" else "d"))
    case ToggleExcluded => Some(("x", "w"))
    case Applied => Some(("s", "ok"))
  }

  /** createSettingsCallback: `None` when it throws. */
  function CreateSettings(action: SettingsAction, version: int): Option<string> {
    if !IsVersion(version) || SettingsParts(action).None? then None
    else
      var (code, value) := SettingsParts(action).value;
      CallbackData(["cfg", code, value, Decimal(version)])
  }

  /** The action that a code and a value stand for; `number` reads a text as JavaScript's Number does. */
  function SettingsActionOf(code: string, value: string, number: string -> Option<int>): Option<SettingsAction> {
    if code == "v" && value in PAGES then Some(ViewPage(value))
    else if code == "l" && FindsLanguage(value) then Some(SetLanguage(value))
    else if code == "ta" && FindsTopic(value) then Some(TopicAdd(value))
    else if code == "tr" && FindsTopic(value) then Some(TopicRemove(value))
    else if code == "tb" && value == "all" then Some(TopicsAll)
    else if code == "cp" && value == "set" then Some(CustomPrompt)
    else if code == "cc" && value == "all" then Some(CustomClear)
    else if code == "a" && (value == "m" || value == "a") then Some(SetApproval(value == "m"))
    else if code == "i" && number(value).Some? && number(value).value in INTERVALS then Some(SetInterval(number(value).value))
    else if code == "q" && (value == "e" || value == "d") then Some(SetQuiet(value == "e"))
    else if code == "x" && value == "w" then Some(ToggleExcluded)
    else if code == "s" && value == "ok" then Some(Applied)
    else None
  }

  /** parseSettingsCallback. */
  function ParseSettings(data: string, number: string -> Option<int>): Option<(SettingsAction, nat)> {
    if !StartsWith(data, "cfg:") || Utf8Length(data) > LIMIT_BYTES then None
    else
      var parts := Split(data);
      if |parts| != 4 || parts[0] != "cfg" then None
      else match (ParseVersion(parts[3]), SettingsActionOf(parts[1], parts[2], number))
        case (Some(version), Some(action)) => Some((action, version))
        case _ => None
  }

  /** Number reads canonical decimals as what they denote. */
  ghost predicate ReadsDecimals(number: string -> Option<int>) {
    forall n: nat :: number(Decimal(n)) == Some(n)
  }

  lemma SettingsPartsFit(action: SettingsAction)
    ensures SettingsParts(action).Some? ==>
      var (code, value) := SettingsParts(action).value; Plain(code) && Plain(value) && |code| + |value| <= 22
  {
    if action.SetInterval? && action.minutes in INTERVALS {
      DecimalLength(action.minutes, 4);
      assert Power10(4) == 10_000;
      SmallDecimal(action.minutes);
    }
    if action.ViewPage? { PageFits(action.page); }
    if action.TopicAdd? || action.TopicRemove? { TopicFits(action.code); }
    if action.TopicAdd? || action.TopicRemove? || action.SetLanguage? { InheritedFits(action.code); }
  }

  lemma SmallDecimal(n: nat)
    requires |Decimal(n)| <= 4
    ensures Plain(Decimal(n))
  {
    assert ':' !in Decimal(n);
  }

  lemma PageFits(page: string)
    ensures page in PAGES ==> Plain(page) && |page| <= 9
  {
  }

  lemma TopicFits(topic: string)
    ensures topic in TOPICS ==> Plain(topic) && |topic| <= 10
  {
  }

  lemma InheritedFits(name: string)
    ensures name in INHERITED ==> Plain(name)
  {
    if name in INHERITED { ShortNames(name); }
  }

  lemma ShortNames(name: string)
    requires name in INHERITED
    ensures |name| <= 20 && Ascii(name) && ':' !in name
  {
    NamesAreShort(name);
    NamesAreWords(name);
    hide INHERITED;
  }

  lemma NamesAreShort(name: string)
    requires name in INHERITED
    ensures |name| <= 20
  {
  }

  lemma NamesAreWords(name: string)
    requires name in INHERITED
    ensures forall k :: 0 <= k < |name| ==> 'A' <= name[k] <= 'z'
  {
  }

  lemma SettingsPartsAreRead(action: SettingsAction, number: string -> Option<int>)
    requires SettingsParts(action).Some? && ReadsDecimals(number)
    ensures var (code, value) := SettingsParts(action).value; SettingsActionOf(code, value, number) == Some(action)
  {
  }

  /** Every valid action is printed in at most 64 bytes, and what is printed is read back exactly when
      the version is below 10^15. */
  lemma SettingsRoundTrip(action: SettingsAction, version: nat, number: string -> Option<int>)
    requires IsVersion(version) && SettingsParts(action).Some? && ReadsDecimals(number)
    ensures var printed := CreateSettings(action, version);
            && printed.Some? && Utf8Length(printed.value) <= LIMIT_BYTES
            && ParseSettings(printed.value, number) == if version < VERSION_LIMIT then Some((action, version)) else None
  {
    var (code, value) := SettingsParts(action).value;
    SettingsPartsFit(action);
    FourParts("cfg", code, value, version);
    SettingsPartsAreRead(action, number);
    VersionRoundTrip(version);
  }

  /** How an action may be spelled: as it is printed, or with any numeral of its interval. */
  predicate Spells(code: string, value: string, action: SettingsAction, number: string -> Option<int>) {
    SettingsParts(action) == Some((code, value))
    || (action.SetInterval? && action.minutes in INTERVALS && code == "i" && number(value) == Some(action.minutes))
  }

  lemma ActionIsSpelled(code: string, value: string, action: SettingsAction, number: string -> Option<int>)
    requires ReadsDecimals(number)
    ensures SettingsActionOf(code, value, number) == Some(action) <==> Spells(code, value, action, number)
  {
    hide Decimal;
    if SettingsParts(action) == Some((code, value)) { SettingsPartsAreRead(action, number); }
  }

  /** Exactly these texts are read: three parts that spell an action after the prefix, and any numeral of
      the version with at most fifteen digits. */
  lemma SettingsAreReadExactly(data: string, action: SettingsAction, version: nat, number: string -> Option<int>)
    requires ReadsDecimals(number)
    ensures ParseSettings(data, number) == Some((action, version)) <==>
      Utf8Length(data) <= LIMIT_BYTES && exists code, value, digits ::
        && ':' !in value && data == Join(["cfg", code, value, digits])
        && Spells(code, value, action, number) && ParseVersion(digits) == Some(version)
  {
    hide ReadsDecimals, Utf8Length, SettingsActionOf, SettingsParts, Spells, ParseVersion, Split, Join;
    JoinUndoesSplit(data);
    var parts := Split(data);
    if ParseSettings(data, number) == Some((action, version)) {
      assert parts == ["cfg", parts[1], parts[2], parts[3]];
      ActionIsSpelled(parts[1], parts[2], action, number);
      assert ':' !in parts[2];
    }
    forall code, value, digits | Utf8Length(data) <= LIMIT_BYTES && ':' !in value && data == Join(["cfg", code, value, digits])
        && Spells(code, value, action, number) && ParseVersion(digits) == Some(version)
      ensures ParseSettings(data, number) == Some((action, version))
    {
      SpellingIsRead(code, value, digits, action, number);
    }
  }

  lemma SpellingIsRead(code: string, value: string, digits: string, action: SettingsAction, number: string -> Option<int>)
    requires ReadsDecimals(number) && ':' !in value && Spells(code, value, action, number) && ParseVersion(digits).Some?
    requires Utf8Length(Join(["cfg", code, value, digits])) <= LIMIT_BYTES
    ensures ParseSettings(Join(["cfg", code, value, digits]), number) == Some((action, ParseVersion(digits).value))
  {
    hide ReadsDecimals, Utf8Length, SettingsActionOf, SettingsParts, Spells, ParseVersion, Split, Join;
    ActionIsSpelled(code, value, action, number);
    CodeIsPlain(code, value, action, number);
    VersionIsPlain(digits);
    SplitUndoesJoin(["cfg", code, value, digits]);
    StartsWithFirst("cfg", [code, value, digits]);
    assert ["cfg"] + [code, value, digits] == ["cfg", code, value, digits] && "cfg" + ":" == "cfg:";
  }

  lemma CodeIsPlain(code: string, value: string, action: SettingsAction, number: string -> Option<int>)
    requires Spells(code, value, action, number)
    ensures ':' !in code
  {
    SettingsPartsFit(action);
  }

  lemma VersionIsPlain(digits: string)
    ensures ParseVersion(digits).Some? ==> ':' !in digits
  {
  }

  lemma StartsWithFirst(first: string, rest: seq<string>)
    requires rest != []
    ensures StartsWith(Join([first] + rest), first + ":")
  {
    JoinPair(first, rest);
    assert Join([first] + rest)[..|first| + 1] == first + ":";
  }

  // ---- Labs ----

  /** Besides the two features: what the table of codes inherits under a name, and a key that names no
      feature. */
  datatype Feature = ArticleTags | EditorialEnrichment | InheritedFeature(name: string) | UnknownKey(name: string)

  datatype FlagState = Off | Collect | Enabled | InheritedState(name: string)

  /** A state change as it is parsed may leave the feature out. */
  datatype LabsAction = Home | FeaturePage(page: Feature) | SetState(feature: Option<Feature>, state: FlagState) | Close

  function FeatureCode(feature: Feature): string {
    match feature
    case ArticleTags => "tags"
    case EditorialEnrichment => "edit"
    case InheritedFeature(name) => name
    case UnknownKey(name) => name
  }

  function CodeFeature(code: string): Option<Feature> {
    if code == "tags" then Some(ArticleTags) else if code == "edit" then Some(EditorialEnrichment)
    else if code in INHERITED then Some(InheritedFeature(code)) else None
  }

  function StateCode(state: FlagState): string {
    match state
    case Off => "o"
    case Collect => "c"
    case Enabled => "e"
    case InheritedState(name) => name
  }

  function CodeState(code: string): Option<FlagState> {
    if code == "o" then Some(Off) else if code == "c" then Some(Collect) else if code == "e" then Some(Enabled)
    else if code in INHERITED then Some(InheritedState(code)) else None
  }

  /** The feature that an action is about: article tags unless another one is named. */
  function WithFeature(action: LabsAction): LabsAction {
    match action
    case SetState(None, state) => SetState(Some(ArticleTags), state)
    case _ => action
  }

  predicate KnownFeature(feature: Feature) {
    feature.ArticleTags? || feature.EditorialEnrichment?
  }

  /** The action names a feature and a state that there are. */
  predicate Known(action: LabsAction) {
    match action
    case FeaturePage(feature) => KnownFeature(feature)
    case SetState(feature, state) => (feature.None? || KnownFeature(feature.value)) && !state.InheritedState?
    case _ => true
  }

  /** How an inherited value reads as text: a native function, or the prototype itself. */
  function InheritedText(name: string): string {
    if name == "__proto__" then "[object Object]"
    else "function " + (if name == "constructor" then "Object" else name) + "() { [native code] }"
  }

  /** createLabsCallback: `None` when it throws. Pages and states are looked up in sets; the code of a
      feature is looked up in an object, so a key with an inherited name is printed, too. */
  function CreateLabs(action: LabsAction, version: int): Option<string> {
    if !IsVersion(version) then None
    else
      var last := Decimal(version);
      match WithFeature(action)
      case Home => CallbackData(["lab", "v", "home", last])
      case FeaturePage(feature) => if KnownFeature(feature) then CallbackData(["lab", "v", FeatureCode(feature), last]) else None
      case SetState(Some(feature), state) =>
        if state.InheritedState? then None
        else if feature.ArticleTags? then CallbackData(["lab", "s", StateCode(state), last])
        else if feature.EditorialEnrichment? then CallbackData(["lab", "s", FeatureCode(feature), StateCode(state), last])
        else if feature.UnknownKey? && feature.name in INHERITED then
          CallbackData(["lab", "s", InheritedText(feature.name), StateCode(state), last])
        else None
      case SetState(None, _) => None
      case Close => CallbackData(["lab", "x", "done", last])
  }

  function LabsActionOf(code: string, value: string): Option<LabsAction> {
    if code == "v" && value == "home" then Some(Home)
    else if code == "v" && CodeFeature(value).Some? then Some(FeaturePage(CodeFeature(value).value))
    else if code == "s" && CodeState(value).Some? then Some(SetState(None, CodeState(value).value))
    else if code == "x" && value == "done" then Some(Close)
    else None
  }

  /** parseLabsCallback. */
  function ParseLabs(data: string): Option<(LabsAction, nat)> {
    if !StartsWith(data, "lab:") || Utf8Length(data) > LIMIT_BYTES then None
    else
      var parts := Split(data);
      if parts[0] != "lab" then None
      else if |parts| == 5 then
        (match (CodeFeature(parts[2]), CodeState(parts[3]), ParseVersion(parts[4]))
         case (Some(feature), Some(state), Some(version)) =>
           if parts[1] == "s" then Some((SetState(Some(feature), state), version)) else None
         case _ => None)
      else if |parts| == 4 then
        (match (ParseVersion(parts[3]), LabsActionOf(parts[1], parts[2]))
         case (Some(version), Some(action)) => Some((action, version))
         case _ => None)
      else None
  }

  /** What a parsed action is about, once a missing feature is taken for the article tags. */
  function Meaning(parsed: Option<(LabsAction, nat)>): Option<(LabsAction, nat)> {
    match parsed
    case None => None
    case Some((action, version)) => Some((WithFeature(action), version))
  }

  /** A four-part callback is read back as the action that its code and value stand for. */
  lemma LabsFourParts(code: string, value: string, action: LabsAction, version: nat)
    requires IsVersion(version) && |code| == 1 && Plain(code) && |value| <= 4 && Plain(value)
    requires LabsActionOf(code, value) == Some(action)
    ensures var printed := CallbackData(["lab", code, value, Decimal(version)]);
            && printed.Some? && Utf8Length(printed.value) <= LIMIT_BYTES
            && ParseLabs(printed.value) == if version < VERSION_LIMIT then Some((action, version)) else None
  {
    FourParts("lab", code, value, version);
    VersionRoundTrip(version);
    hide Split, Join, Decimal, Utf8Length, LabsActionOf;
  }

  lemma LabsFiveParts(feature: Feature, state: FlagState, version: nat)
    requires IsVersion(version) && KnownFeature(feature) && !state.InheritedState?
    ensures var printed := CallbackData(["lab", "s", FeatureCode(feature), StateCode(state), Decimal(version)]);
            && printed.Some? && Utf8Length(printed.value) <= LIMIT_BYTES
            && ParseLabs(printed.value) == if version < VERSION_LIMIT then Some((SetState(Some(feature), state), version)) else None
  {
    hide INHERITED, FeatureCode, StateCode, CodeFeature, CodeState, ParseVersion;
    KnownCodesAreRead(feature, state);
    FiveParts("lab", "s", FeatureCode(feature), StateCode(state), version);
    VersionRoundTrip(version);
    hide Split, Join, Decimal, Utf8Length, LabsActionOf, Plain;
  }

  lemma KnownCodesAreRead(feature: Feature, state: FlagState)
    requires KnownFeature(feature) && !state.InheritedState?
    ensures CodeFeature(FeatureCode(feature)) == Some(feature) && CodeState(StateCode(state)) == Some(state)
    ensures Plain(FeatureCode(feature)) && |FeatureCode(feature)| <= 4 && Plain(StateCode(state)) && |StateCode(state)| <= 4
  {
  }

  /** Every known action is printed in at most 64 bytes, and what is printed means the same action when it
      is read back, exactly when the version is below 10^15. */
  lemma LabsRoundTrip(action: LabsAction, version: nat)
    requires IsVersion(version) && Known(action)
    ensures var printed := CreateLabs(action, version);
            && printed.Some? && Utf8Length(printed.value) <= LIMIT_BYTES
            && Meaning(ParseLabs(printed.value)) == if version < VERSION_LIMIT then Some((WithFeature(action), version)) else None
  {
    hide CallbackData, ParseLabs, Decimal, Utf8Length;
    match WithFeature(action) {
      case Home => LabsFourParts("v", "home", Home, version);
      case FeaturePage(page) => LabsFourParts("v", FeatureCode(page), FeaturePage(page), version);
      case SetState(Some(ArticleTags), state) => LabsFourParts("s", StateCode(state), SetState(None, state), version);
      case SetState(Some(EditorialEnrichment), state) => LabsFiveParts(EditorialEnrichment, state, version);
      case Close => LabsFourParts("x", "done", Close, version);
    }
  }

  /** What is printed for an action with an inherited name is not read back as any action. */
  lemma InheritedKeysAreNotReadBack(action: LabsAction, version: nat)
    requires IsVersion(version) && !Known(action) && CreateLabs(action, version).Some?
    ensures action.SetState? && action.feature.Some? && action.feature.value.UnknownKey? && action.feature.value.name in INHERITED
    ensures ParseLabs(CreateLabs(action, version).value) == None
  {
    var name := action.feature.value.name;
    var parts := ["lab", "s", InheritedText(name), StateCode(action.state), Decimal(version)];
    InheritedTextIsStrange(name);
    SplitUndoesJoin(parts);
    hide Split, Join, Decimal, Utf8Length, InheritedText, ParseVersion;
  }

  lemma InheritedTextIsStrange(name: string)
    requires name in INHERITED
    ensures ':' !in InheritedText(name) && CodeFeature(InheritedText(name)) == None
  {
    ShortNames(name);
    var text := InheritedText(name);
    assert text[0] == 'f' || text[0] == '[';
    if name != "__proto__" {
      assert text[..9] == "function " && text[8] == ' ';
    }
    if text in INHERITED { InheritedIsWord(text); }
  }

  lemma InheritedIsWord(name: string)
    requires name in INHERITED
    ensures name[0] != 'f' && name[0] != '['
  {
  }

  /** The texts that stand for an action, with `digits` for the version. */
  function LabsForm(action: LabsAction, digits: string): seq<string> {
    match action
    case Home => ["lab", "v", "home", digits]
    case FeaturePage(feature) => ["lab", "v", FeatureCode(feature), digits]
    case SetState(None, state) => ["lab", "s", StateCode(state), digits]
    case SetState(Some(feature), state) => ["lab", "s", FeatureCode(feature), StateCode(state), digits]
    case Close => ["lab", "x", "done", digits]
  }

  /** The feature and the state are found under their codes. */
  predicate Readable(action: LabsAction) {
    match action
    case FeaturePage(feature) => CodeFeature(FeatureCode(feature)) == Some(feature)
    case SetState(feature, state) =>
      (feature.Some? ==> CodeFeature(FeatureCode(feature.value)) == Some(feature.value)) && CodeState(StateCode(state)) == Some(state)
    case _ => true
  }

  /** Exactly these texts are read, with any numeral of the version of at most fifteen digits. */
  lemma LabsAreReadExactly(data: string, action: LabsAction, version: nat)
    ensures ParseLabs(data) == Some((action, version)) <==>
      Readable(action) && exists digits :: data == Join(LabsForm(action, digits)) && ParseVersion(digits) == Some(version)
  {
    hide Utf8Length, ParseVersion, Split, Join;
    JoinUndoesSplit(data);
    var parts := Split(data);
    if ParseLabs(data) == Some((action, version)) {
      assert parts == LabsForm(action, parts[|parts| - 1]);
    }
    forall digits | Readable(action) && data == Join(LabsForm(action, digits)) && ParseVersion(digits) == Some(version)
      ensures ParseLabs(data) == Some((action, version))
    {
      LabsFormIsRead(action, digits);
    }
  }

  lemma LabsFormIsRead(action: LabsAction, digits: string)
    requires ParseVersion(digits).Some? && Readable(action)
    ensures ParseLabs(Join(LabsForm(action, digits))) == Some((action, ParseVersion(digits).value))
  {
    hide Utf8Length, Split, Join, ParseVersion, ParseLabs, FeatureCode, StateCode, StartsWith, Readable;
    var form := LabsForm(action, digits);
    assert form == ["lab"] + form[1..] && "lab" + ":" == "lab:";
    StartsWithFirst("lab", form[1..]);
    LabsFormFits(action, digits);
    SplitUndoesJoin(form);
    LabsPartsAreRead(Join(form), action, digits);
  }

  lemma LabsPartsAreRead(data: string, action: LabsAction, digits: string)
    requires StartsWith(data, "lab:") && Utf8Length(data) <= LIMIT_BYTES
    requires Split(data) == LabsForm(action, digits) && ParseVersion(digits).Some? && Readable(action)
    ensures ParseLabs(data) == Some((action, ParseVersion(digits).value))
  {
    hide Utf8Length, Split, ParseVersion, StartsWith;
    HomeIsNoFeature();
  }

  lemma HomeIsNoFeature()
    ensures "home" !in INHERITED
  {
  }

  lemma CodesAreShort(feature: Feature, state: FlagState)
    ensures CodeFeature(FeatureCode(feature)) == Some(feature) ==> Plain(FeatureCode(feature))
    ensures CodeState(StateCode(state)) == Some(state) ==> Plain(StateCode(state))
  {
    InheritedFits(FeatureCode(feature));
    InheritedFits(StateCode(state));
    hide INHERITED;
  }

  lemma LabsFormFits(action: LabsAction, digits: string)
    requires ParseVersion(digits).Some? && Readable(action)
    ensures forall k :: 0 <= k < |LabsForm(action, digits)| ==> ':' !in LabsForm(action, digits)[k]
    ensures Utf8Length(Join(LabsForm(action, digits))) <= LIMIT_BYTES
  {
    hide Utf8Length, Join, LabsForm, ParseVersion, Readable;
    LabsFormIsPlain(action, digits);
    JoinIsShort(LabsForm(action, digits));
    AsciiLength(Join(LabsForm(action, digits)));
  }

  lemma LabsFormIsPlain(action: LabsAction, digits: string)
    requires ParseVersion(digits).Some? && Readable(action)
    ensures var form := LabsForm(action, digits);
      && 4 <= |form| <= 5 && |form[0]| == 3 && |form[1]| == 1 && |form[|form| - 1]| <= 15
      && (forall k :: 0 <= k < |form| ==> Ascii(form[k]) && ':' !in form[k])
      && (forall k :: 2 <= k < |form| - 1 ==> |form[k]| <= 20)
  {
    hide NumberOf;
    VersionIsPlain(digits);
    match action {
      case FeaturePage(feature) => CodesAreShort(feature, Off);
      case SetState(None, state) => CodesAreShort(ArticleTags, state);
      case SetState(Some(feature), state) => CodesAreShort(feature, state);
      case _ =>
    }
  }

  /** Two inherited names of twenty letters and fifteen digits still fit. */
  lemma JoinIsShort(form: seq<string>)
    requires 4 <= |form| <= 5 && forall k :: 0 <= k < |form| ==> Ascii(form[k])
    requires |form[0]| == 3 && |form[1]| == 1 && |form[|form| - 1]| <= 15 && forall k :: 2 <= k < |form| - 1 ==> |form[k]| <= 20
    ensures Ascii(Join(form)) && |Join(form)| <= 63
  {
    if |form| == 4 {
      assert form == [form[0], form[1], form[2], form[3]];
      JoinFour(form[0], form[1], form[2], form[3]);
    } else {
      assert form == [form[0]] + form[1..] && form[1..] == [form[1], form[2], form[3], form[4]];
      JoinFour(form[1], form[2], form[3], form[4]);
      JoinPair(form[0], form[1..]);
    }
  }

  lemma JoinFour(a: string, b: string, c: string, d: string)
    ensures Join([a, b, c, d]) == a + ":" + (b + ":" + (c + ":" + d))
  {
    JoinPair(c, [d]);
    JoinPair(b, [c, d]);
    JoinPair(a, [b, c, d]);
    assert [c] + [d] == [c, d] && [b] + [c, d] == [b, c, d] && [a] + [b, c, d] == [a, b, c, d];
  }

  // ---- Inherited names ----

  /** The action names a language or a topic that there is, if it names one at all. */
  predicate NamesKnown(action: SettingsAction) {
    match action
    case SetLanguage(code) => code in LANGUAGES
    case TopicAdd(code) => code in TOPICS
    case TopicRemove(code) => code in TOPICS
    case _ => true
  }

  /** Whatever is read names a known language or topic, except under an inherited name. */
  lemma KnownUnlessInherited(data: string, action: SettingsAction, version: nat, number: string -> Option<int>)
    requires ParseSettings(data, number) == Some((action, version))
    requires forall name :: name in INHERITED ==> number(name) == None
    ensures |Split(data)| == 4 && (NamesKnown(action) <==> Split(data)[2] !in INHERITED)
  {
    NoKnownNameIsInherited(Split(data)[2]);
    hide Split, Utf8Length, ParseVersion, StartsWith, INHERITED;
  }

  lemma NoKnownNameIsInherited(name: string)
    ensures name in INHERITED ==>
      name !in PAGES && name !in LANGUAGES && name !in TOPICS && name !in {"all", "set", "m", "a", "e", "d", "w", "ok"}
  {
    if name in INHERITED { InheritedIsLong(name); }
  }

  lemma InheritedIsLong(name: string)
    requires name in INHERITED
    ensures |name| >= 7 && name !in {"science", "animals", "history", "culture", "society", "technology", "language", "approval", "automatic", "frequency", "excluded"}
  {
  }

  /** Likewise for features and states. */
  lemma KnownLabsUnlessInherited(data: string, action: LabsAction, version: nat)
    requires ParseLabs(data) == Some((action, version))
    ensures 4 <= |Split(data)| <= 5
    ensures Known(action) <==> forall k :: 2 <= k < |Split(data)| - 1 ==> Split(data)[k] !in INHERITED
  {
    forall k | 2 <= k < |Split(data)| - 1 && Split(data)[k] in INHERITED
      ensures Split(data)[k] !in {"home", "tags", "edit", "o", "c", "e", "done"}
    {
      InheritedIsLong(Split(data)[k]);
    }
    hide Split, Utf8Length, ParseVersion, StartsWith, INHERITED;
  }

  /** Two texts that are read although they name nothing that there is. */
  lemma InheritedNamesAreRead(number: string -> Option<int>)
    requires ReadsDecimals(number)
    ensures ParseSettings("cfg:l:constructor:1", number) == Some((SetLanguage("constructor"), 1))
    ensures ParseLabs("lab:s:valueOf:1") == Some((SetState(None, InheritedState("valueOf")), 1))
  {
    hide ParseSettings, ParseLabs, ReadsDecimals;
    SettingsUnderInheritedName(number);
    LabsUnderInheritedName();
  }

  lemma SettingsUnderInheritedName(number: string -> Option<int>)
    requires ReadsDecimals(number)
    ensures ParseSettings("cfg:l:constructor:1", number) == Some((SetLanguage("constructor"), 1))
  {
    OneIsAVersion();
    SettingsSpelling();
    hide ReadsDecimals, ParseSettings, ParseVersion, Join, Utf8Length;
    assert Spells("l", "constructor", SetLanguage("constructor"), number);
    ShortNames("constructor");
    SpellingIsRead("l", "constructor", "1", SetLanguage("constructor"), number);
  }

  lemma SettingsSpelling()
    ensures "cfg:l:constructor:1" == Join(["cfg", "l", "constructor", "1"]) && Utf8Length("cfg:l:constructor:1") <= LIMIT_BYTES
  {
    JoinFour("cfg", "l", "constructor", "1");
    hide Join, Utf8Length;
    AsciiLength("cfg:l:constructor:1");
  }

  lemma LabsUnderInheritedName()
    ensures ParseLabs("lab:s:valueOf:1") == Some((SetState(None, InheritedState("valueOf")), 1))
  {
    OneIsAVersion();
    LabsSpelling();
    hide ParseLabs, ParseVersion, Join, Utf8Length;
    LabsFormIsRead(SetState(None, InheritedState("valueOf")), "1");
  }

  lemma LabsSpelling()
    ensures "lab:s:valueOf:1" == Join(["lab", "s", "valueOf", "1"])
  {
    JoinFour("lab", "s", "valueOf", "1");
    hide Join;
  }

  lemma OneIsAVersion()
    ensures ParseVersion("1") == Some(1)
  {
    assert "1"[..0] == "";
  }

  // ---- Reviews ----

  datatype Review = Publish | Reject

  predicate IsSessionId(id: string) {
    32 <= |id| <= 64 && forall i :: 0 <= i < |id| ==> 'a' <= id[i] <= 'f' || '0' <= id[i] <= '9'
  }

  /** createReviewCallback: `None` when it throws. */
  function CreateReview(review: Review, session: string): Option<string> {
    if IsSessionId(session) then Some((if review.Publish? then "news:p:" else "news:r:") + session) else None
  }

  /** parseReviewCallback. */
  function ParseReview(data: string): Option<(Review, string)> {
    if StartsWith(data, "news:p:") && IsSessionId(data[7..]) then Some((Publish, data[7..]))
    else if StartsWith(data, "news:r:") && IsSessionId(data[7..]) then Some((Reject, data[7..]))
    else None
  }

  /** Printing and parsing reviews are inverse to each other. */
  lemma ReviewRoundTrip(review: Review, session: string, data: string)
    ensures CreateReview(review, session).Some? ==> ParseReview(CreateReview(review, session).value) == Some((review, session))
    ensures ParseReview(data).Some? ==> CreateReview(ParseReview(data).value.0, ParseReview(data).value.1) == Some(data)
  {
    if IsSessionId(session) {
      var printed := CreateReview(review, session).value;
      assert printed[7..] == session && printed[..7] == (if review.Publish? then "news:p:" else "news:r:");
    }
    if StartsWith(data, "news:p:") { assert data == "news:p:" + data[7..]; }
    if StartsWith(data, "news:r:") { assert data == "news:r:" + data[7..]; }
  }

  // ---- Dispatch ----

  datatype Handler = LabsHandler | SettingsHandler | StatusHandler | ReviewHandler

  /** The callback part of classifyControlUpdate. */
  function Dispatch(data: string): Option<Handler> {
    if StartsWith(data, "lab:") then Some(LabsHandler)
    else if StartsWith(data, "cfg:") then Some(SettingsHandler)
    else if StartsWith(data, "status:") then Some(StatusHandler)
    else if StartsWith(data, "news:") then Some(ReviewHandler)
    else None
  }

  /** Whatever one of the parsers reads is dispatched to its own handler, and no other parser reads it. */
  lemma ParsersAreExclusive(data: string, number: string -> Option<int>)
    ensures ParseLabs(data).Some? ==> Dispatch(data) == Some(LabsHandler)
    ensures ParseSettings(data, number).Some? ==> Dispatch(data) == Some(SettingsHandler)
    ensures ParseReview(data).Some? ==> Dispatch(data) == Some(ReviewHandler)
  {
    PrefixOfPrefix(data, "news:", "p:");
    PrefixOfPrefix(data, "news:", "r:");
    assert "news:" + "p:" == "news:p:" && "news:" + "r:" == "news:r:";
    OnePrefix(data, "lab:", "cfg:");
    OnePrefix(data, "lab:", "news:");
    OnePrefix(data, "cfg:", "news:");
    OnePrefix(data, "status:", "news:");
  }

  lemma PrefixOfPrefix(data: string, first: string, second: string)
    ensures StartsWith(data, first + second) ==> StartsWith(data, first)
  {
    if StartsWith(data, first + second) {
      assert data[..|first|] == data[..|first + second|][..|first|] == first;
    }
  }

  /** Texts cannot start with two prefixes that begin differently. */
  lemma OnePrefix(data: string, first: string, second: string)
    requires first != "" && second != "" && first[0] != second[0]
    ensures !(StartsWith(data, first) && StartsWith(data, second))
  {
    if StartsWith(data, first) { assert data[0] == data[..|first|][0]; }
    if StartsWith(data, second) { assert data[0] == data[..|second|][0]; }
  }
}
