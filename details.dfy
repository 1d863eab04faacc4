/** The document model of one extractor page: the closed enumerations of
    capabilities, setting kinds and setting sources, the records the builder
    fills in, and the rows of the setting-values table. */
module Details {
  import opened Wrappers

  /** A value of a field typed `Any`: the JSON-like data a settings service reports. */
  datatype Json =
    | Null
    | Bool(b: bool)
    | Int(i: int)
    | Str(s: string)
    | List(items: seq<Json>)
    | Dict(entries: map<string, Json>)

  /** Python truthiness: `None`, `False`, `0`, `""`, `[]` and `{}` are falsy. */
  predicate Truthy(v: Json) {
    match v
    case Null => false
    case Bool(b) => b
    case Int(i) => i != 0
    case Str(s) => s != ""
    case List(items) => items != []
    case Dict(entries) => entries != map[]
  }

  /** Python truthiness of an optional string. */
  predicate TruthyText(s: Option<string>) {
    s.Some? && s.value != ""
  }

  /** Why pydantic refuses to build a record. */
  datatype ValidationError =
    | Missing(field: string)
    | WrongType(field: string)
    | NotPermitted(extra: set<string>)

  // ---------------------------------------------------------------------------
  // DocsField

  /** A documented value with an optional note on where it came from. */
  datatype DocsField = DocsField(name: string, value: Option<string>, tooltip: Option<string>)

  /** `DocsField(name=...)`: value and tooltip default to `None`. */
  function NewDocsField(name: string): (f: DocsField)
    ensures f.name == name && f.value.None? && f.tooltip.None?
  {
    DocsField(name, None, None)
  }

  // ---------------------------------------------------------------------------
  // Capability

  datatype Capability =
    | Properties | Catalog | Discover | State | About | StreamMaps
    | ActivateVersion | Batch | Test | LogBased | SchemaFlattening
  {
    /** The enumeration value: the string records store and parsing accepts. */
    function Value(): string {
      match this
      case Properties => "properties"
      case Catalog => "catalog"
      case Discover => "discover"
      case State => "state"
      case About => "about"
      case StreamMaps => "stream-maps"
      case ActivateVersion => "activate-version"
      case Batch => "batch"
      case Test => "test"
      case LogBased => "log-based"
      case SchemaFlattening => "schema-flattening"
    }

    /** The name of the Python enumeration member. */
    function MemberName(): string {
      match this
      case Properties => "properties"
      case Catalog => "catalog"
      case Discover => "discover"
      case State => "state"
      case About => "about"
      case StreamMaps => "stream_maps"
      case ActivateVersion => "activate_version"
      case Batch => "batch"
      case Test => "test"
      case LogBased => "log_based"
      case SchemaFlattening => "schema_flattening"
    }
  }

  const AllCapabilities: seq<Capability> :=
    [Properties, Catalog, Discover, State, About, StreamMaps,
     ActivateVersion, Batch, Test, LogBased, SchemaFlattening]

  /** `Capability(s)`: lookup by value; any other string is refused. */
  function ParseCapability(s: string): (c: Option<Capability>)
    ensures c.Some? ==> c.value.Value() == s
  {
    match s
    case "properties" => Some(Properties)
    case "catalog" => Some(Catalog)
    case "discover" => Some(Discover)
    case "state" => Some(State)
    case "about" => Some(About)
    case "stream-maps" => Some(StreamMaps)
    case "activate-version" => Some(ActivateVersion)
    case "batch" => Some(Batch)
    case "test" => Some(Test)
    case "log-based" => Some(LogBased)
    case "schema-flattening" => Some(SchemaFlattening)
    case _ => None
  }

  lemma CapabilityParseIff(s: string, c: Capability)
    ensures ParseCapability(s) == Some(c) <==> c.Value() == s
  {
  }

  /** The enumeration has eleven members with pairwise distinct values. */
  lemma CapabilitiesDistinct()
    ensures |AllCapabilities| == 11
    ensures forall c: Capability :: c in AllCapabilities
    ensures forall i, j :: 0 <= i < j < |AllCapabilities| ==>
      AllCapabilities[i].Value() != AllCapabilities[j].Value()
  {
    forall c: Capability ensures c in AllCapabilities {
      match c {
        case Properties =>
        case Catalog =>
        case Discover =>
        case State =>
        case About =>
        case StreamMaps =>
        case ActivateVersion =>
        case Batch =>
        case Test =>
        case LogBased =>
        case SchemaFlattening =>
      }
    }
  }

  /** Exactly the four hyphenated members have a value that differs from their
      member name, and for those the member name is not accepted as a value. */
  lemma CapabilityNamesAndValues(c: Capability)
    ensures c.Value() != c.MemberName() <==> c in {StreamMaps, ActivateVersion, LogBased, SchemaFlattening}
    ensures c.Value() != c.MemberName() ==> ParseCapability(c.MemberName()).None?
  {
  }

  // ---------------------------------------------------------------------------
  // Kind

  datatype Kind =
    | OAuth | Hidden | Password | DateIso8601 | File | Email
    | Integer | Options | Object | Array | Boolean | String
  {
    function Value(): string {
      match this
      case OAuth => "oauth"
      case Hidden => "hidden"
      case Password => "password"
      case DateIso8601 => "date_iso8601"
      case File => "file"
      case Email => "email"
      case Integer => "integer"
      case Options => "options"
      case Object => "object"
      case Array => "array"
      case Boolean => "boolean"
      case String => "string"
    }
  }

  const AllKinds: seq<Kind> :=
    [OAuth, Hidden, Password, DateIso8601, File, Email,
     Integer, Options, Object, Array, Boolean, String]

  function ParseKind(s: string): (k: Option<Kind>)
    ensures k.Some? ==> k.value.Value() == s
  {
    match s
    case "oauth" => Some(OAuth)
    case "hidden" => Some(Hidden)
    case "password" => Some(Password)
    case "date_iso8601" => Some(DateIso8601)
    case "file" => Some(File)
    case "email" => Some(Email)
    case "integer" => Some(Integer)
    case "options" => Some(Options)
    case "object" => Some(Object)
    case "array" => Some(Array)
    case "boolean" => Some(Boolean)
    case "string" => Some(String)
    case _ => None
  }

  lemma KindParseIff(s: string, k: Kind)
    ensures ParseKind(s) == Some(k) <==> k.Value() == s
  {
  }

  /** The enumeration is a closed set of twelve distinct values. */
  lemma KindsDistinct()
    ensures |AllKinds| == 12
    ensures forall k: Kind :: k in AllKinds
    ensures forall i, j :: 0 <= i < j < |AllKinds| ==> AllKinds[i].Value() != AllKinds[j].Value()
  {
    forall k: Kind ensures k in AllKinds {
      match k {
        case OAuth =>
        case Hidden =>
        case Password =>
        case DateIso8601 =>
        case File =>
        case Email =>
        case Integer =>
        case Options =>
        case Object =>
        case Array =>
        case Boolean =>
        case String =>
      }
    }
  }

  // ---------------------------------------------------------------------------
  // SettingStore

  datatype SettingStore =
    | ConfigOverride | Env | Dotenv | MeltanoEnv | MeltanoYml
    | Db | Inherited | Default | Auto
  {
    function Value(): string {
      match this
      case ConfigOverride => "config_override"
      case Env => "env"
      case Dotenv => "dotenv"
      case MeltanoEnv => "meltano_environment"
      case MeltanoYml => "meltano_yml"
      case Db => "db"
      case Inherited => "inherited"
      case Default => "default"
      case Auto => "auto"
    }
  }

  const AllSettingStores: seq<SettingStore> :=
    [ConfigOverride, Env, Dotenv, MeltanoEnv, MeltanoYml, Db, Inherited, Default, Auto]

  /** `SettingStore(s)`: lookup by value; any other string raises. */
  function ParseSettingStore(s: string): (st: Option<SettingStore>)
    ensures st.Some? ==> st.value.Value() == s
  {
    match s
    case "config_override" => Some(ConfigOverride)
    case "env" => Some(Env)
    case "dotenv" => Some(Dotenv)
    case "meltano_environment" => Some(MeltanoEnv)
    case "meltano_yml" => Some(MeltanoYml)
    case "db" => Some(Db)
    case "inherited" => Some(Inherited)
    case "default" => Some(Default)
    case "auto" => Some(Auto)
    case _ => None
  }

  /** Parsing and `Value` are inverse: a bijection between the nine members and their strings. */
  lemma SettingStoreParseIff(s: string, st: SettingStore)
    ensures ParseSettingStore(s) == Some(st) <==> st.Value() == s
  {
  }

  lemma SettingStoresDistinct()
    ensures |AllSettingStores| == 9
    ensures forall st: SettingStore :: st in AllSettingStores
    ensures forall i, j :: 0 <= i < j < |AllSettingStores| ==>
      AllSettingStores[i].Value() != AllSettingStores[j].Value()
  {
    forall st: SettingStore ensures st in AllSettingStores {
      match st {
        case ConfigOverride =>
        case Env =>
        case Dotenv =>
        case MeltanoEnv =>
        case MeltanoYml =>
        case Db =>
        case Inherited =>
        case Default =>
        case Auto =>
      }
    }
  }

  // ---------------------------------------------------------------------------
  // Setting

  datatype Oauth = Oauth(provider: string)

  /** One declared setting of a plugin. Enumeration-typed fields hold the member;
      records serialise it as its value. */
  datatype Setting = Setting(
    name: string,
    aliases: Option<seq<string>>,
    displayLabel: Option<string>,
    value: Json,
    placeholder: Option<string>,
    kind: Option<Kind>,
    description: Option<string>,
    tooltip: Option<string>,
    documentation: Option<string>,
    protected: Option<bool>,
    env: Option<string>,
    valueProcessor: Json,
    oauth: Option<Oauth>)

  /** The declared fields of a setting; any other key is refused. */
  const SettingFields: set<string> :=
    {"name", "aliases", "label", "value", "placeholder", "kind", "description",
     "tooltip", "documentation", "protected", "env", "value_processor", "oauth"}

  /** `Setting(name=...)`: `protected` defaults to false, every other field to `None`. */
  function NewSetting(name: string): (s: Setting)
    ensures s.name == name && s.protected == Some(false)
    ensures s.aliases.None? && s.displayLabel.None? && s.value.Null? && s.placeholder.None? && s.kind.None?
    ensures s.description.None? && s.tooltip.None? && s.documentation.None? && s.env.None?
    ensures s.valueProcessor.Null? && s.oauth.None?
  {
    Setting(name, None, None, Null, None, None, None, None, None, Some(false), None, Null, None)
  }

  /** A required `str` field: present and a string. */
  function RequiredText(raw: map<string, Json>, field: string): (r: Result<string, ValidationError>)
    ensures r.Success? <==> field in raw && raw[field].Str?
    ensures r.Success? ==> raw[field] == Str(r.value)
    ensures r.Failure? ==> r.error == (if field in raw then WrongType(field) else Missing(field))
  {
    if field !in raw then Failure(Missing(field))
    else if raw[field].Str? then Success(raw[field].s)
    else Failure(WrongType(field))
  }

  /** An `Optional[str]` field defaulting to `None`. */
  function OptionalText(raw: map<string, Json>, field: string): (r: Result<Option<string>, ValidationError>)
    ensures r.Success? <==> field !in raw || raw[field].Null? || raw[field].Str?
    ensures r.Success? ==> TextJson(r.value) == OptionalAny(raw, field)
    ensures r.Failure? ==> r.error == WrongType(field)
  {
    if field !in raw || raw[field].Null? then Success(None)
    else if raw[field].Str? then Success(Some(raw[field].s))
    else Failure(WrongType(field))
  }

  /** An `Optional[Any]` field defaulting to `None`: every value is accepted as it is. */
  function OptionalAny(raw: map<string, Json>, field: string): (v: Json)
    ensures field in raw ==> v == raw[field]
    ensures field !in raw ==> v.Null?
  {
    if field in raw then raw[field] else Null
  }

  /** A list of strings, or nothing when some element is not a string. */
  function TextList(items: seq<Json>): (r: Option<seq<string>>)
    ensures r.Some? <==> forall i :: 0 <= i < |items| ==> items[i].Str?
    ensures r.Some? ==> |r.value| == |items| && forall i :: 0 <= i < |items| ==> items[i] == Str(r.value[i])
  {
    if items == [] then Some([])
    else if !items[0].Str? then None
    else
      match TextList(items[1..])
      case None =>
        assert forall j :: 1 <= j < |items| ==> items[j] == items[1..][j - 1];
        None
      case Some(rest) =>
        assert forall j :: 1 <= j < |items| ==> items[j] == items[1..][j - 1];
        Some([items[0].s] + rest)
  }

  /** An `Optional[List[str]]` field defaulting to `None`. */
  function OptionalTextList(raw: map<string, Json>, field: string): (r: Result<Option<seq<string>>, ValidationError>)
    ensures r.Success? <==>
      field !in raw || raw[field].Null? || (raw[field].List? && forall i :: 0 <= i < |raw[field].items| ==> raw[field].items[i].Str?)
    ensures r.Success? && r.value.None? ==> field !in raw || raw[field].Null?
    ensures r.Success? && r.value.Some? ==> field in raw && raw[field] == List(TextListJson(r.value.value))
    ensures r.Failure? ==> r.error == WrongType(field)
  {
    if field !in raw || raw[field].Null? then Success(None)
    else if raw[field].List? && TextList(raw[field].items).Some? then
      TextListJsonInverse(raw[field].items);
      Success(TextList(raw[field].items))
    else Failure(WrongType(field))
  }

  /** Writing a validated list of strings back gives the original list. */
  lemma TextListJsonInverse(items: seq<Json>)
    requires TextList(items).Some?
    ensures TextListJson(TextList(items).value) == items
  {
  }

  /** An `Optional[Kind]` field defaulting to `None`: a string that is some kind's value. */
  function OptionalKind(raw: map<string, Json>, field: string): (r: Result<Option<Kind>, ValidationError>)
    ensures r.Success? <==> field !in raw || raw[field].Null? || (raw[field].Str? && ParseKind(raw[field].s).Some?)
    ensures r.Success? && r.value.None? ==> field !in raw || raw[field].Null?
    ensures r.Success? && r.value.Some? ==> field in raw && raw[field] == Str(r.value.value.Value())
    ensures r.Failure? ==> r.error == WrongType(field)
  {
    if field !in raw || raw[field].Null? then Success(None)
    else if raw[field].Str? && ParseKind(raw[field].s).Some? then Success(ParseKind(raw[field].s))
    else Failure(WrongType(field))
  }

  /** `protected`: absent gives the default false, an explicit `None` is kept. */
  function OptionalFlag(raw: map<string, Json>, field: string, default: bool): (r: Result<Option<bool>, ValidationError>)
    ensures r.Success? <==> field !in raw || raw[field].Null? || raw[field].Bool?
    ensures field !in raw ==> r == Success(Some(default))
    ensures field in raw && r.Success? ==> raw[field] == FlagJson(r.value)
    ensures r.Failure? ==> r.error == WrongType(field)
  {
    if field !in raw then Success(Some(default))
    else if raw[field].Null? then Success(None)
    else if raw[field].Bool? then Success(Some(raw[field].b))
    else Failure(WrongType(field))
  }

  /** An `Oauth` record needs a string `provider`; it ignores any other key. */
  function OptionalOauth(raw: map<string, Json>, field: string): (r: Result<Option<Oauth>, ValidationError>)
    ensures r.Success? <==>
      || field !in raw || raw[field].Null?
      || (raw[field].Dict? && "provider" in raw[field].entries && raw[field].entries["provider"].Str?)
    ensures r.Success? && r.value.None? ==> field !in raw || raw[field].Null?
    ensures r.Success? && r.value.Some? ==>
      field in raw && raw[field].Dict? && "provider" in raw[field].entries
      && raw[field].entries["provider"] == Str(r.value.value.provider)
    ensures r.Failure? ==> r.error == WrongType(field)
  {
    if field !in raw || raw[field].Null? then Success(None)
    else if raw[field].Dict? && "provider" in raw[field].entries && raw[field].entries["provider"].Str? then
      Success(Some(Oauth(raw[field].entries["provider"].s)))
    else Failure(WrongType(field))
  }

  /** `Setting.parse_obj(raw)`: validates the fields in declaration order, then
      refuses keys outside the declared set. */
  function ParseSetting(raw: map<string, Json>): (r: Result<Setting, ValidationError>)
    ensures r.Success? ==> raw.Keys <= SettingFields
    ensures r.Success? ==> "name" in raw && raw["name"] == Str(r.value.name)
    ensures r.Success? && "protected" !in raw ==> r.value.protected == Some(false)
    ensures r.Success? && "protected" in raw ==>
      raw["protected"] == FlagJson(r.value.protected)
  {
    var name :- RequiredText(raw, "name");
    var aliases :- OptionalTextList(raw, "aliases");
    var displayLabel :- OptionalText(raw, "label");
    var value := OptionalAny(raw, "value");
    var placeholder :- OptionalText(raw, "placeholder");
    var kind :- OptionalKind(raw, "kind");
    var description :- OptionalText(raw, "description");
    var tooltip :- OptionalText(raw, "tooltip");
    var documentation :- OptionalText(raw, "documentation");
    var protected :- OptionalFlag(raw, "protected", false);
    var env :- OptionalText(raw, "env");
    var valueProcessor := OptionalAny(raw, "value_processor");
    var oauth :- OptionalOauth(raw, "oauth");
    if !(raw.Keys <= SettingFields) then Failure(NotPermitted(raw.Keys - SettingFields))
    else
      Success(Setting(name, aliases, displayLabel, value, placeholder, kind, description,
                      tooltip, documentation, protected, env, valueProcessor, oauth))
  }

  function TextJson(s: Option<string>): Json {
    match s
    case None => Null
    case Some(t) => Str(t)
  }

  function FlagJson(b: Option<bool>): Json {
    match b
    case None => Null
    case Some(f) => Bool(f)
  }

  function TextListJson(ss: seq<string>): (r: seq<Json>)
    ensures |r| == |ss| && forall i :: 0 <= i < |ss| ==> r[i] == Str(ss[i])
  {
    seq(|ss|, i requires 0 <= i < |ss| => Str(ss[i]))
  }

  /** The value a setting's mapping holds under one declared field, enumeration
      members written as their values. */
  function FieldJson(s: Setting, field: string): Json {
    match field
    case "name" => Str(s.name)
    case "aliases" => (match s.aliases case None => Null case Some(a) => List(TextListJson(a)))
    case "label" => TextJson(s.displayLabel)
    case "value" => s.value
    case "placeholder" => TextJson(s.placeholder)
    case "kind" => (match s.kind case None => Null case Some(k) => Str(k.Value()))
    case "description" => TextJson(s.description)
    case "tooltip" => TextJson(s.tooltip)
    case "documentation" => TextJson(s.documentation)
    case "protected" => FlagJson(s.protected)
    case "env" => TextJson(s.env)
    case "value_processor" => s.valueProcessor
    case "oauth" => (match s.oauth case None => Null case Some(o) => Dict(map["provider" := Str(o.provider)]))
    case _ => Null
  }

  /** The field mapping of a setting with every declared field present (pydantic's `dict()`). */
  function SettingDict(s: Setting): (raw: map<string, Json>)
    ensures raw.Keys == SettingFields
  {
    map field | field in SettingFields :: FieldJson(s, field)
  }

  /** Each field of a setting's mapping validates back to that field. */
  lemma SettingDictFields(s: Setting)
    ensures var raw := SettingDict(s);
      && RequiredText(raw, "name") == Success(s.name)
      && OptionalTextList(raw, "aliases") == Success(s.aliases)
      && OptionalText(raw, "label") == Success(s.displayLabel)
      && OptionalAny(raw, "value") == s.value
      && OptionalText(raw, "placeholder") == Success(s.placeholder)
      && OptionalKind(raw, "kind") == Success(s.kind)
      && OptionalText(raw, "description") == Success(s.description)
      && OptionalText(raw, "tooltip") == Success(s.tooltip)
      && OptionalText(raw, "documentation") == Success(s.documentation)
      && OptionalFlag(raw, "protected", false) == Success(s.protected)
      && OptionalText(raw, "env") == Success(s.env)
      && OptionalAny(raw, "value_processor") == s.valueProcessor
      && OptionalOauth(raw, "oauth") == Success(s.oauth)
  {
    var raw := SettingDict(s);
    assert RequiredText(raw, "name") == Success(s.name);
    assert OptionalTextList(raw, "aliases") == Success(s.aliases) by {
      if s.aliases.Some? {
        var items := TextListJson(s.aliases.value);
        assert TextList(items).Some?;
        assert TextList(items).value == s.aliases.value;
      }
    }
    assert OptionalText(raw, "label") == Success(s.displayLabel);
    assert OptionalAny(raw, "value") == s.value;
    assert OptionalText(raw, "placeholder") == Success(s.placeholder);
    assert OptionalKind(raw, "kind") == Success(s.kind) by {
      if s.kind.Some? {
        KindParseIff(s.kind.value.Value(), s.kind.value);
      }
    }
    assert OptionalText(raw, "description") == Success(s.description);
    assert OptionalText(raw, "tooltip") == Success(s.tooltip);
    assert OptionalText(raw, "documentation") == Success(s.documentation);
    assert OptionalFlag(raw, "protected", false) == Success(s.protected);
    assert OptionalText(raw, "env") == Success(s.env);
    assert OptionalAny(raw, "value_processor") == s.valueProcessor;
    assert OptionalOauth(raw, "oauth") == Success(s.oauth);
  }

  /** A setting is recovered from its own field mapping. */
  lemma SettingRoundTrip(s: Setting)
    ensures ParseSetting(SettingDict(s)) == Success(s)
  {
    SettingDictFields(s);
  }

  /** Each field of a validated setting is the mapping's entry, written back,
      or the field's default when the mapping leaves it out; `oauth` keeps only
      the provider. */
  lemma ParseSettingFields(raw: map<string, Json>)
    requires ParseSetting(raw).Success?
    ensures forall field :: field in SettingFields && field != "oauth" ==>
      FieldJson(ParseSetting(raw).value, field)
        == (if field in raw then raw[field] else if field == "protected" then Bool(false) else Null)
    ensures ParseSetting(raw).value.oauth.None? <==> "oauth" !in raw || raw["oauth"].Null?
    ensures ParseSetting(raw).value.oauth.Some? ==>
      "oauth" in raw && raw["oauth"].Dict? && "provider" in raw["oauth"].entries
      && raw["oauth"].entries["provider"] == Str(ParseSetting(raw).value.oauth.value.provider)
  {
    var s := ParseSetting(raw).value;
    assert RequiredText(raw, "name") == Success(s.name);
    assert OptionalTextList(raw, "aliases") == Success(s.aliases);
    assert OptionalText(raw, "label") == Success(s.displayLabel);
    assert OptionalAny(raw, "value") == s.value;
    assert OptionalText(raw, "placeholder") == Success(s.placeholder);
    assert OptionalKind(raw, "kind") == Success(s.kind);
    assert OptionalText(raw, "description") == Success(s.description);
    assert OptionalText(raw, "tooltip") == Success(s.tooltip);
    assert OptionalText(raw, "documentation") == Success(s.documentation);
    assert OptionalFlag(raw, "protected", false) == Success(s.protected);
    assert OptionalText(raw, "env") == Success(s.env);
    assert OptionalAny(raw, "value_processor") == s.valueProcessor;
    assert OptionalOauth(raw, "oauth") == Success(s.oauth);
  }

  /** A mapping validates exactly when it has only declared keys and each field
      validates on its own. */
  lemma ParseSettingAccepts(raw: map<string, Json>)
    ensures ParseSetting(raw).Success? <==>
      && raw.Keys <= SettingFields
      && RequiredText(raw, "name").Success?
      && OptionalTextList(raw, "aliases").Success?
      && OptionalText(raw, "label").Success?
      && OptionalText(raw, "placeholder").Success?
      && OptionalKind(raw, "kind").Success?
      && OptionalText(raw, "description").Success?
      && OptionalText(raw, "tooltip").Success?
      && OptionalText(raw, "documentation").Success?
      && OptionalFlag(raw, "protected", false).Success?
      && OptionalText(raw, "env").Success?
      && OptionalOauth(raw, "oauth").Success?
  {
  }

  /** A name and a label, as in a typical setting definition, validate. */
  lemma ParseSettingNameAndLabel()
    ensures ParseSetting(map["name" := Str("x"), "label" := Str("L")])
         == Success(NewSetting("x").(displayLabel := Some("L")))
  {
    var raw := map["name" := Str("x"), "label" := Str("L")];
    assert raw.Keys == {"name", "label"};
  }

  /** A setting given only its name takes every default. */
  lemma ParseSettingDefaults(name: string)
    ensures ParseSetting(map["name" := Str(name)]) == Success(NewSetting(name))
  {
  }

  /** A setting with a field outside its declared set is refused, whatever its other fields. */
  lemma ParseSettingRejectsExtra(raw: map<string, Json>, field: string)
    requires field in raw && field !in SettingFields
    ensures ParseSetting(raw).Failure?
  {
  }

  /** Without a name there is no setting. */
  lemma ParseSettingNeedsName(raw: map<string, Json>)
    requires "name" !in raw
    ensures ParseSetting(raw) == Failure(Missing("name"))
  {
  }

  // ---------------------------------------------------------------------------
  // SettingValue and EnvironmentSettingValues

  /** One resolved setting: its value under one environment and where that value came from. */
  datatype SettingValue = SettingValue(name: string, isRedacted: bool, source: SettingStore, value: Json)

  /** `SettingValue(name=..., is_redacted=..., source=...)`: the value defaults to `None`. */
  function NewSettingValue(name: string, isRedacted: bool, source: SettingStore): (v: SettingValue)
    ensures v.name == name && v.isRedacted == isRedacted && v.source == source && v.value.Null?
  {
    SettingValue(name, isRedacted, source, Null)
  }

  datatype EnvironmentSettingValues = EnvironmentSettingValues(
    settingValues: seq<SettingValue>,
    environment: Option<string>)

  /** `EnvironmentSettingValues(setting_values=...)`: the environment defaults to "base". */
  function NewEnvironmentSettingValues(settingValues: seq<SettingValue>): (e: EnvironmentSettingValues)
    ensures e.settingValues == settingValues && e.environment == Some("base")
  {
    EnvironmentSettingValues(settingValues, Some("base"))
  }

  const LockMarker: string := ":octicon:`lock`"

  /** The cells handed to the table formatter: a header row and one row per setting value. */
  datatype Table = Table(headers: seq<string>, rows: seq<seq<Json>>)

  function Row(v: SettingValue): seq<Json> {
    [ Str(if v.isRedacted then LockMarker else ""),
      Str("``" + v.name + "``"),
      if Truthy(v.value) then v.value else Str(""),
      Str(v.source.Value()) ]
  }

  /** The cells of `as_table`; formatting them as reStructuredText is the formatter's job. */
  function AsTable(e: EnvironmentSettingValues): (t: Table)
    ensures t.headers == [LockMarker, "Setting", "Value", "Source"]
    ensures |t.rows| == |e.settingValues|
    ensures forall i :: 0 <= i < |t.rows| ==> |t.rows[i]| == 4
  {
    Table([LockMarker, "Setting", "Value", "Source"],
          seq(|e.settingValues|, i requires 0 <= i < |e.settingValues| => Row(e.settingValues[i])))
  }

  /** What each cell of row `i` says about the `i`-th setting value: the lock
      marker exactly for redacted values, the name in double backticks (and
      recoverable from it), the value unless it is falsy, and the source's value,
      which parses back to that source. */
  lemma TableCells(e: EnvironmentSettingValues, i: nat)
    requires i < |e.settingValues|
    ensures var row, v := AsTable(e).rows[i], e.settingValues[i];
      && (row[0] == Str(LockMarker) <==> v.isRedacted)
      && (row[0] == Str("") <==> !v.isRedacted)
      && row[1].Str? && |row[1].s| == |v.name| + 4 && row[1].s[2..|row[1].s| - 2] == v.name
      && row[1].s[..2] == "``" && row[1].s[|row[1].s| - 2..] == "``"
      && (Truthy(v.value) ==> row[2] == v.value)
      && (!Truthy(v.value) ==> row[2] == Str(""))
      && row[3].Str? && ParseSettingStore(row[3].s) == Some(v.source)
  {
    var row, v := AsTable(e).rows[i], e.settingValues[i];
    assert row == Row(v);
    var cell := "``" + v.name + "``";
    assert cell[2..|cell| - 2] == v.name;
    SettingStoreParseIff(v.source.Value(), v.source);
  }

  // ---------------------------------------------------------------------------
  // ExtractorDocs

  /** Everything an extractor page shows. Enumeration-typed fields hold the member;
      records serialise it as its value. */
  datatype ExtractorDocs = ExtractorDocs(
    name: string,
    displayLabel: Option<string>,
    variant: Option<string>,
    description: Option<DocsField>,
    capabilities: Option<seq<Capability>>,
    settings: Option<seq<Setting>>,
    environmentSettingValues: Option<seq<EnvironmentSettingValues>>)

  /** `ExtractorDocs(name=...)`: label, variant and description default to `None`,
      the three lists to empty lists. */
  function NewExtractorDocs(name: string): (d: ExtractorDocs)
    ensures d.name == name && d.displayLabel.None? && d.variant.None? && d.description.None?
    ensures d.capabilities == Some([]) && d.settings == Some([]) && d.environmentSettingValues == Some([])
  {
    ExtractorDocs(name, None, None, None, Some([]), Some([]), Some([]))
  }
}
