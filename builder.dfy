/** The project docs builder: which resolved settings each environment section
    keeps, how the document of one extractor is assembled, and which files a
    run writes under the docs root. The Meltano services the builder calls are
    replaced by the values they return, gathered in a `MeltanoProject`. */
module Builder {
  import opened Wrappers
  import opened Details

  // ---------------------------------------------------------------------------
  // What the Meltano project supplies

  /** One entry of the settings service's merged configuration of a plugin:
      the setting's name, its effective value (secrets redacted), whether the
      setting is redacted, and the store the value came from, as its string. */
  datatype ConfigRecord = ConfigRecord(name: string, value: Json, isRedacted: bool, source: string)

  /** An extractor as the project's plugin service reports it. */
  datatype ProjectPlugin = ProjectPlugin(
    name: string,
    displayLabel: Option<string>,
    variant: Option<string>,
    description: Option<string>,
    capabilities: seq<string>,
    allSettings: seq<map<string, Json>>)

  /** The answers of the Meltano services: the extractors in the order the
      plugin service lists them, the names of the declared environments in the
      order the environment service lists them, the description of each
      extractor's definition on the hub, and the configuration the settings
      service reports for an extractor while the named environment is active
      ("base": no environment active). */
  datatype MeltanoProject = MeltanoProject(
    extractors: seq<ProjectPlugin>,
    environments: seq<string>,
    hubDescription: ProjectPlugin -> Option<string>,
    config: (ProjectPlugin, string) -> seq<ConfigRecord>)

  // ---------------------------------------------------------------------------
  // Settings provenance filter

  const BaseEnvironment: string := "base"

  /** Stores whose values the base section shows. */
  const BaseSources: set<string> := {"default", "meltano_yml", "inherited", "dotenv"}

  /** Stores whose values an environment section shows. */
  const EnvironmentSources: set<string> := {"meltano_environment"}

  /** Whether a record from `source` is kept in the section for `environment`.
      The second test does not look at the environment, so it also applies to "base". */
  predicate Retained(environment: string, source: string) {
    (environment == BaseEnvironment && source in BaseSources) || source in EnvironmentSources
  }

  /** A kept record, with its source string parsed as a `SettingStore`. */
  function ToSettingValue(c: ConfigRecord): (v: SettingValue)
    requires ParseSettingStore(c.source).Some?
    ensures v.name == c.name && v.value == c.value && v.isRedacted == c.isRedacted
    ensures v.source.Value() == c.source
  {
    SettingValue(c.name, c.isRedacted, ParseSettingStore(c.source).value, c.value)
  }

  /** Parsing the source of a kept record never fails. */
  lemma RetainedSourceParses(environment: string, source: string)
    requires Retained(environment, source)
    ensures ParseSettingStore(source).Some?
  {
  }

  /** The kept records, converted, in input order. */
  function Filtered(config: seq<ConfigRecord>, environment: string): (vs: seq<SettingValue>)
    ensures |vs| <= |config|
  {
    if config == [] then []
    else
      var n := |config| - 1;
      Filtered(config[..n], environment)
        + if Retained(environment, config[n].source) then [ToSettingValue(config[n])] else []
  }

  /** The section for `environment`. */
  function EnvironmentValues(config: seq<ConfigRecord>, environment: string): EnvironmentSettingValues {
    EnvironmentSettingValues(Filtered(config, environment), Some(environment))
  }

  /** `_get_environment_setting_values`: walks the configuration once, appending
      each kept record. */
  method GetEnvironmentSettingValues(config: seq<ConfigRecord>, environment: string)
    returns (r: EnvironmentSettingValues)
    ensures r == EnvironmentValues(config, environment)
  {
    var settingValues: seq<SettingValue> := [];
    for i := 0 to |config|
      invariant settingValues == Filtered(config[..i], environment)
    {
      var setting := config[i];
      assert config[..i + 1][..i] == config[..i];
      if environment == BaseEnvironment && setting.source in BaseSources {
        var source := ParseSettingStore(setting.source).value;
        settingValues := settingValues + [SettingValue(setting.name, setting.isRedacted, source, setting.value)];
      } else if setting.source in EnvironmentSources {
        var source := ParseSettingStore(setting.source).value;
        settingValues := settingValues + [SettingValue(setting.name, setting.isRedacted, source, setting.value)];
      }
    }
    assert config[..|config|] == config;
    r := EnvironmentSettingValues(settingValues, Some(environment));
  }

  /** The positions of the kept records: increasing, each kept, none missed. */
  function Kept(config: seq<ConfigRecord>, environment: string): (ks: seq<nat>)
    ensures forall k :: 0 <= k < |ks| ==> ks[k] < |config| && Retained(environment, config[ks[k]].source)
    ensures forall k, l :: 0 <= k < l < |ks| ==> ks[k] < ks[l]
    ensures forall i :: 0 <= i < |config| && Retained(environment, config[i].source) ==> i in ks
  {
    if config == [] then []
    else
      var n := |config| - 1;
      assert forall i :: 0 <= i < n ==> config[..n][i] == config[i];
      Kept(config[..n], environment) + if Retained(environment, config[n].source) then [n] else []
  }

  /** The section is a subsequence of the configuration: its `k`-th entry is the
      record at the `k`-th kept position, with name, value and redaction copied. */
  lemma {:induction false} FilteredIsKeptImage(config: seq<ConfigRecord>, environment: string)
    ensures |Filtered(config, environment)| == |Kept(config, environment)|
    ensures forall k :: 0 <= k < |Kept(config, environment)| ==>
      var c := config[Kept(config, environment)[k]];
      ParseSettingStore(c.source).Some? && Filtered(config, environment)[k] == ToSettingValue(c)
  {
    if config != [] {
      var n := |config| - 1;
      var prefix := config[..n];
      FilteredIsKeptImage(prefix, environment);
      var fs, ks := Filtered(prefix, environment), Kept(prefix, environment);
      var kept := Retained(environment, config[n].source);
      assert Filtered(config, environment) == fs + if kept then [ToSettingValue(config[n])] else [];
      assert Kept(config, environment) == ks + if kept then [n] else [];
      forall k | 0 <= k < |ks|
        ensures config[Kept(config, environment)[k]] == prefix[ks[k]]
        ensures Filtered(config, environment)[k] == fs[k]
      {
      }
    }
  }

  /** A position is kept exactly when its record is retained. */
  lemma KeptIff(config: seq<ConfigRecord>, environment: string, i: nat)
    requires i < |config|
    ensures i in Kept(config, environment) <==> Retained(environment, config[i].source)
  {
    var ks := Kept(config, environment);
    if i in ks {
      var k :| 0 <= k < |ks| && ks[k] == i;
    }
  }

  /** Under "base", a record is kept exactly when its source is `default`,
      `meltano_yml`, `inherited`, `dotenv` or `meltano_environment`. */
  lemma BaseSection(config: seq<ConfigRecord>, i: nat)
    requires i < |config|
    ensures i in Kept(config, BaseEnvironment) <==>
      config[i].source in {"default", "meltano_yml", "inherited", "dotenv", "meltano_environment"}
  {
    KeptIff(config, BaseEnvironment, i);
    BaseRetains(config[i].source);
  }

  lemma BaseRetains(source: string)
    ensures Retained(BaseEnvironment, source) <==>
      source in {"default", "meltano_yml", "inherited", "dotenv", "meltano_environment"}
  {
  }

  /** Under any other environment, a record is kept exactly when its source is `meltano_environment`. */
  lemma EnvironmentSection(config: seq<ConfigRecord>, environment: string, i: nat)
    requires environment != BaseEnvironment && i < |config|
    ensures i in Kept(config, environment) <==> config[i].source == "meltano_environment"
  {
    KeptIff(config, environment, i);
  }

  /** Every value in a section comes from a store its environment shows. */
  lemma {:induction false} FilteredSources(config: seq<ConfigRecord>, environment: string)
    ensures forall v :: v in Filtered(config, environment) ==>
      v.source in {Default, MeltanoYml, Inherited, Dotenv, MeltanoEnv}
    ensures environment != BaseEnvironment ==>
      forall v :: v in Filtered(config, environment) ==> v.source == MeltanoEnv
  {
    if config != [] {
      FilteredSources(config[..|config| - 1], environment);
    }
  }

  // ---------------------------------------------------------------------------
  // Multi-environment assembly

  /** `get_all_settings`: the base section, then one section per declared environment, in order. */
  function GetAllSettings(project: MeltanoProject, plugin: ProjectPlugin): (all: seq<EnvironmentSettingValues>)
    ensures |all| == 1 + |project.environments|
    ensures all[0].environment == Some(BaseEnvironment)
    ensures all[0].settingValues == Filtered(project.config(plugin, BaseEnvironment), BaseEnvironment)
    ensures forall i :: 0 <= i < |project.environments| ==>
      var e := project.environments[i];
      all[i + 1].environment == Some(e) && all[i + 1].settingValues == Filtered(project.config(plugin, e), e)
  {
    var environments := project.environments;
    var base := EnvironmentValues(project.config(plugin, BaseEnvironment), BaseEnvironment);
    var sections := seq(|environments|, i requires 0 <= i < |environments| =>
                          EnvironmentValues(project.config(plugin, environments[i]), environments[i]));
    assert forall i :: 0 <= i < |environments| ==>
      ([base] + sections)[i + 1] == EnvironmentValues(project.config(plugin, environments[i]), environments[i]);
    [base] + sections
  }

  /** One extractor "tap-foo" with one setting `account_id` (default "") that the
      environment "prod" overrides with "123": the base section lists it from its
      default, the prod section from the environment block, and nothing else appears. */
  lemma OverrideExample()
    ensures
      var plugin := ProjectPlugin("tap-foo", None, Some("default"), None, [],
                                  [map["name" := Str("account_id"), "kind" := Str("string"), "value" := Str("")]]);
      var project := MeltanoProject(
        [plugin], ["prod"], (p: ProjectPlugin) => None,
        (p: ProjectPlugin, e: string) =>
          if e == "prod" then [ConfigRecord("account_id", Str("123"), false, "meltano_environment")]
          else [ConfigRecord("account_id", Str(""), false, "default")]);
      GetAllSettings(project, plugin) ==
        [ EnvironmentSettingValues([SettingValue("account_id", false, Default, Str(""))], Some("base")),
          EnvironmentSettingValues([SettingValue("account_id", false, MeltanoEnv, Str("123"))], Some("prod")) ]
  {
    var base := [ConfigRecord("account_id", Str(""), false, "default")];
    var prod := [ConfigRecord("account_id", Str("123"), false, "meltano_environment")];
    assert base[..0] == [] && prod[..0] == [];
    assert Filtered(base, "base") == [SettingValue("account_id", false, Default, Str(""))];
    assert Filtered(prod, "prod") == [SettingValue("account_id", false, MeltanoEnv, Str("123"))];
  }

  /** The environment-block test applies under "base" too: a record from the
      environment block is kept in the base section. */
  lemma BaseKeepsEnvironmentBlock(name: string, value: Json, isRedacted: bool)
    ensures Filtered([ConfigRecord(name, value, isRedacted, "meltano_environment")], BaseEnvironment)
         == [SettingValue(name, isRedacted, MeltanoEnv, value)]
  {
    assert [ConfigRecord(name, value, isRedacted, "meltano_environment")][..0] == [];
  }

  // ---------------------------------------------------------------------------
  // Document assembly

  const HubTooltipPrefix: string := "This value was retrieved from Meltano Hub. Use 'meltano config "
  const HubTooltipSuffix: string := " set description <value>' to override."

  function HubTooltip(pluginName: string): string {
    HubTooltipPrefix + pluginName + HubTooltipSuffix
  }

  /** The hub tooltip is not empty and names the plugin. */
  lemma HubTooltipNamesPlugin(pluginName: string)
    ensures var t := HubTooltip(pluginName);
      |t| > 0 && |HubTooltipPrefix| + |pluginName| <= |t|
      && t[|HubTooltipPrefix|..|HubTooltipPrefix| + |pluginName|] == pluginName
  {
    var t := HubTooltip(pluginName);
    assert t == HubTooltipPrefix + (pluginName + HubTooltipSuffix);
    assert (pluginName + HubTooltipSuffix)[..|pluginName|] == pluginName;
  }

  /** The plugin's own description if it is truthy, otherwise the hub's with a tooltip. */
  function Description(plugin: ProjectPlugin, hubDescription: Option<string>): (d: DocsField)
    ensures d.name == "description"
    ensures TruthyText(plugin.description) ==> d.value == plugin.description && d.tooltip.None?
    ensures !TruthyText(plugin.description) ==>
      d.value == hubDescription && d.tooltip == Some(HubTooltip(plugin.name))
  {
    if TruthyText(plugin.description) then DocsField("description", plugin.description, None)
    else DocsField("description", hubDescription, Some(HubTooltip(plugin.name)))
  }

  /** Validating one capability string as a `Capability`. */
  function CapabilityItem(s: string): (r: Result<Capability, ValidationError>)
    ensures r.Success? <==> ParseCapability(s).Some?
    ensures r.Success? ==> r.value.Value() == s
  {
    match ParseCapability(s)
    case Some(c) => Success(c)
    case None => Failure(WrongType("capabilities"))
  }

  /** `get_extractor_documentation`: parses the plugin's settings, assembles the
      description, gathers the sections only when setting values are included,
      and validates the capabilities when the document is built. */
  function GetExtractorDocumentation(project: MeltanoProject, includeSettingValues: bool, plugin: ProjectPlugin)
    : (r: Result<ExtractorDocs, ValidationError>)
    ensures r.Success? <==>
      (forall i :: 0 <= i < |plugin.allSettings| ==> ParseSetting(plugin.allSettings[i]).Success?) &&
      (forall i :: 0 <= i < |plugin.capabilities| ==> ParseCapability(plugin.capabilities[i]).Some?)
    ensures r.Success? ==>
      var d := r.value;
      && d.name == plugin.name && d.displayLabel == plugin.displayLabel && d.variant == plugin.variant
      && d.description == Some(Description(plugin, project.hubDescription(plugin)))
      && d.settings.Some? && |d.settings.value| == |plugin.allSettings|
      && (forall i :: 0 <= i < |plugin.allSettings| ==> ParseSetting(plugin.allSettings[i]) == Success(d.settings.value[i]))
      && d.capabilities.Some? && |d.capabilities.value| == |plugin.capabilities|
      && (forall i :: 0 <= i < |plugin.capabilities| ==> d.capabilities.value[i].Value() == plugin.capabilities[i])
      && d.environmentSettingValues == Some(if includeSettingValues then GetAllSettings(project, plugin) else [])
  {
    var settings :- Traverse(plugin.allSettings, ParseSetting);
    var currentSettings := if includeSettingValues then GetAllSettings(project, plugin) else [];
    var capabilities :- Traverse(plugin.capabilities, CapabilityItem);
    Success(ExtractorDocs(
      name := plugin.name,
      displayLabel := plugin.displayLabel,
      variant := plugin.variant,
      description := Some(Description(plugin, project.hubDescription(plugin))),
      capabilities := Some(capabilities),
      settings := Some(settings),
      environmentSettingValues := Some(currentSettings)))
  }

  /** With setting values left out, a document has no sections, however many
      environments the project declares. */
  lemma NoValuesWithoutInclusion(project: MeltanoProject, plugin: ProjectPlugin)
    requires GetExtractorDocumentation(project, false, plugin).Success?
    ensures GetExtractorDocumentation(project, false, plugin).value.environmentSettingValues == Some([])
  {
  }

  /** The documents of all extractors, in order; the first refusal aborts. */
  function ExtractorDefinitions(project: MeltanoProject, includeSettingValues: bool, extractors: seq<ProjectPlugin>)
    : (r: Result<seq<ExtractorDocs>, ValidationError>)
    ensures r.Success? <==> forall i :: 0 <= i < |extractors| ==>
      GetExtractorDocumentation(project, includeSettingValues, extractors[i]).Success?
    ensures r.Success? ==> |r.value| == |extractors|
    ensures r.Success? ==> forall i :: 0 <= i < |extractors| ==>
      GetExtractorDocumentation(project, includeSettingValues, extractors[i]) == Success(r.value[i])
    ensures r.Failure? ==>
      exists i :: 0 <= i < |extractors| && GetExtractorDocumentation(project, includeSettingValues, extractors[i]) == Failure(r.error)
        && forall j :: 0 <= j < i ==> GetExtractorDocumentation(project, includeSettingValues, extractors[j]).Success?
  {
    Traverse(extractors, (p: ProjectPlugin) => GetExtractorDocumentation(project, includeSettingValues, p))
  }

  // ---------------------------------------------------------------------------
  // Output naming

  /** An optional string as an f-string writes it: `None` becomes "None". */
  function VariantText(variant: Option<string>): string {
    match variant
    case None => "None"
    case Some(v) => v
  }

  /** The file stem of one extractor: its name and variant joined by a hyphen. */
  function Stem(d: ExtractorDocs): string {
    d.name + "-" + VariantText(d.variant)
  }

  function JsonPath(d: ExtractorDocs): string {
    "extract/" + Stem(d) + ".json"
  }

  function PagePath(d: ExtractorDocs): string {
    "extract/" + Stem(d) + ".rst"
  }

  /** The full path of a document's JSON file, the one its page refers to. */
  function DefFile(docsRoot: string, d: ExtractorDocs): string {
    docsRoot + "/" + JsonPath(d)
  }

  /** The entries of the extractors index, one per document, in order. */
  function Directives(defs: seq<ExtractorDocs>): (ds: seq<string>)
    ensures |ds| == |defs|
    ensures forall i :: 0 <= i < |defs| ==>
      ds[i] == "extract/" + defs[i].name + "-" + VariantText(defs[i].variant)
  {
    seq(|defs|, i requires 0 <= i < |defs| => "extract/" + Stem(defs[i]))
  }

  /** Distinct (name, variant) pairs can share a stem, and so a path. */
  lemma StemCollisions()
    ensures Stem(NewExtractorDocs("tap-a").(variant := Some("b-c")))
         == Stem(NewExtractorDocs("tap-a-b").(variant := Some("c")))
    ensures Stem(NewExtractorDocs("tap-a").(variant := None))
         == Stem(NewExtractorDocs("tap-a").(variant := Some("None")))
  {
  }

  // ---------------------------------------------------------------------------
  // The output tree

  /** What a template is rendered with. */
  datatype PageContext = ExtractorDef(file: string) | Include(entries: seq<string>)

  /** The content of one output file: a serialised document, or a template
      rendered with a context. */
  datatype Output = JsonDoc(doc: ExtractorDocs) | Page(template: string, context: PageContext)

  /** The tree after writing each (path, content) pair in order; a later write to
      a path replaces an earlier one. */
  function Written(files: map<string, Output>, writes: seq<(string, Output)>): map<string, Output> {
    if writes == [] then files
    else
      var n := |writes| - 1;
      Written(files, writes[..n])[writes[n].0 := writes[n].1]
  }

  /** The written tree holds exactly the old paths and the written ones. */
  lemma {:induction false} WrittenKeys(files: map<string, Output>, writes: seq<(string, Output)>)
    ensures Written(files, writes).Keys == files.Keys + set j | 0 <= j < |writes| :: writes[j].0
  {
    if writes != [] {
      var n := |writes| - 1;
      WrittenKeys(files, writes[..n]);
      assert (set j | 0 <= j < |writes| :: writes[j].0)
          == (set j | 0 <= j < n :: writes[..n][j].0) + {writes[n].0};
    }
  }

  /** A written path holds the content of the last write to it. */
  lemma {:induction false} LastWriteWins(files: map<string, Output>, writes: seq<(string, Output)>, i: nat)
    requires i < |writes|
    ensures writes[i].0 in Written(files, writes)
    ensures exists j ::
      && i <= j < |writes| && writes[j].0 == writes[i].0
      && Written(files, writes)[writes[i].0] == writes[j].1
      && (forall k :: j < k < |writes| ==> writes[k].0 != writes[i].0)
  {
    var n := |writes| - 1;
    if i < n {
      LastWriteWins(files, writes[..n], i);
      var j :| i <= j < n && writes[..n][j].0 == writes[i].0 &&
        Written(files, writes[..n])[writes[i].0] == writes[..n][j].1 &&
        forall k :: j < k < n ==> writes[..n][k].0 != writes[i].0;
      if writes[n].0 == writes[i].0 {
        assert Written(files, writes)[writes[i].0] == writes[n].1;
      } else {
        assert forall k :: j < k < |writes| ==> writes[k].0 != writes[i].0 by {
          forall k | j < k < |writes| ensures writes[k].0 != writes[i].0 {
            if k < n { assert writes[..n][k] == writes[k]; }
          }
        }
      }
    }
  }

  /** A path no write touches keeps its old content, or stays absent. */
  lemma {:induction false} UntouchedPath(files: map<string, Output>, writes: seq<(string, Output)>, p: string)
    requires forall j :: 0 <= j < |writes| ==> writes[j].0 != p
    ensures p in Written(files, writes) <==> p in files
    ensures p in files ==> Written(files, writes)[p] == files[p]
  {
    if writes != [] {
      var n := |writes| - 1;
      assert forall j :: 0 <= j < n ==> writes[..n][j] == writes[j];
      UntouchedPath(files, writes[..n], p);
    }
  }

  /** Writing one more pair extends the fold by one update. */
  lemma WrittenSnoc(files: map<string, Output>, writes: seq<(string, Output)>, w: (string, Output))
    ensures Written(files, writes + [w]) == Written(files, writes)[w.0 := w.1]
  {
    assert (writes + [w])[..|writes|] == writes;
  }

  lemma JsonWritesSnoc(defs: seq<ExtractorDocs>, i: nat)
    requires i < |defs|
    ensures JsonWrites(defs[..i + 1]) == JsonWrites(defs[..i]) + [JsonWrite(defs[i])]
  {
  }

  lemma PageWritesSnoc(docsRoot: string, defs: seq<ExtractorDocs>, i: nat)
    requires i < |defs|
    ensures PageWrites(docsRoot, defs[..i + 1]) == PageWrites(docsRoot, defs[..i]) + [PageWrite(docsRoot, defs[i])]
  {
  }

  lemma DirectivesSnoc(defs: seq<ExtractorDocs>, i: nat)
    requires i < |defs|
    ensures Directives(defs[..i + 1]) == Directives(defs[..i]) + ["extract/" + Stem(defs[i])]
  {
  }

  function JsonWrite(d: ExtractorDocs): (string, Output) {
    (JsonPath(d), JsonDoc(d))
  }

  function PageWrite(docsRoot: string, d: ExtractorDocs): (string, Output) {
    (PagePath(d), Page("build/extractor.rst", ExtractorDef(DefFile(docsRoot, d))))
  }

  function JsonWrites(defs: seq<ExtractorDocs>): (ws: seq<(string, Output)>)
    ensures |ws| == |defs| && forall i :: 0 <= i < |defs| ==> ws[i] == JsonWrite(defs[i])
  {
    seq(|defs|, i requires 0 <= i < |defs| => JsonWrite(defs[i]))
  }

  function PageWrites(docsRoot: string, defs: seq<ExtractorDocs>): (ws: seq<(string, Output)>)
    ensures |ws| == |defs| && forall i :: 0 <= i < |defs| ==> ws[i] == PageWrite(docsRoot, defs[i])
  {
    seq(|defs|, i requires 0 <= i < |defs| => PageWrite(docsRoot, defs[i]))
  }

  /** The tree after `render_extractors` has written the documents' JSON files,
      then their pages, then the extractors index. */
  function ExtractorsWritten(files: map<string, Output>, docsRoot: string, defs: seq<ExtractorDocs>): map<string, Output> {
    Written(Written(files, JsonWrites(defs)), PageWrites(docsRoot, defs))
      ["extractors.rst" := Page("build/extractors.rst", Include(Directives(defs)))]
  }

  /** Two documents with the same name and variant share a JSON path; the one
      written there last is the one the tree keeps. */
  lemma {:induction false} SameStemOverwrites(files: map<string, Output>, defs: seq<ExtractorDocs>, i: nat, j: nat)
    requires i < j < |defs|
    requires defs[i].name == defs[j].name && defs[i].variant == defs[j].variant
    requires forall k :: j < k < |defs| ==> Stem(defs[k]) != Stem(defs[j])
    ensures JsonPath(defs[i]) in Written(files, JsonWrites(defs))
    ensures Written(files, JsonWrites(defs))[JsonPath(defs[i])] == JsonDoc(defs[j])
  {
    var ws := JsonWrites(defs);
    LastWriteWins(files, ws, j);
    var m :| j <= m < |ws| && ws[m].0 == ws[j].0 && Written(files, ws)[ws[j].0] == ws[m].1 &&
      forall k :: m < k < |ws| ==> ws[k].0 != ws[j].0;
    JsonPathDeterminesStem(defs[m], defs[j]);
  }

  lemma JsonPathDeterminesStem(a: ExtractorDocs, b: ExtractorDocs)
    requires JsonPath(a) == JsonPath(b)
    ensures Stem(a) == Stem(b)
  {
    assert JsonPath(a)[8..|JsonPath(a)| - 5] == Stem(a);
    assert JsonPath(b)[8..|JsonPath(b)| - 5] == Stem(b);
  }

  lemma PagePathDeterminesStem(a: ExtractorDocs, b: ExtractorDocs)
    requires PagePath(a) == PagePath(b)
    ensures Stem(a) == Stem(b)
  {
    assert PagePath(a)[8..|PagePath(a)| - 4] == Stem(a);
    assert PagePath(b)[8..|PagePath(b)| - 4] == Stem(b);
  }

  /** "extractors.rst" is not the page of any extractor. */
  lemma IndexIsNotAPage(d: ExtractorDocs)
    ensures PagePath(d) != "extractors.rst"
  {
    assert PagePath(d)[7] == '/';
  }

  lemma JsonPathIsNotAPage(a: ExtractorDocs, b: ExtractorDocs)
    ensures JsonPath(a) != PagePath(b)
  {
    assert JsonPath(a)[|JsonPath(a)| - 1] == 'n';
    assert PagePath(b)[|PagePath(b)| - 1] == 't';
  }

  /** After the JSON files are written, each document's path holds a document of the same stem. */
  lemma JsonWrittenAt(files: map<string, Output>, defs: seq<ExtractorDocs>, i: nat)
    requires i < |defs|
    ensures var t := Written(files, JsonWrites(defs));
      JsonPath(defs[i]) in t && t[JsonPath(defs[i])].JsonDoc? && Stem(t[JsonPath(defs[i])].doc) == Stem(defs[i])
  {
    var js := JsonWrites(defs);
    LastWriteWins(files, js, i);
    var m :| i <= m < |js| && js[m].0 == js[i].0 && Written(files, js)[js[i].0] == js[m].1 &&
      forall k :: m < k < |js| ==> js[k].0 != js[i].0;
    JsonPathDeterminesStem(defs[m], defs[i]);
  }

  /** After the pages are written, each document's page is rendered with its JSON file. */
  lemma PageWrittenAt(files: map<string, Output>, docsRoot: string, defs: seq<ExtractorDocs>, i: nat)
    requires i < |defs|
    ensures var t := Written(files, PageWrites(docsRoot, defs));
      PagePath(defs[i]) in t && t[PagePath(defs[i])] == Page("build/extractor.rst", ExtractorDef(DefFile(docsRoot, defs[i])))
  {
    var ps := PageWrites(docsRoot, defs);
    LastWriteWins(files, ps, i);
    var j :| i <= j < |ps| && ps[j].0 == ps[i].0 && Written(files, ps)[ps[i].0] == ps[j].1 &&
      forall k :: j < k < |ps| ==> ps[k].0 != ps[i].0;
    PagePathDeterminesStem(defs[j], defs[i]);
  }

  /** Writing the pages leaves every JSON file as it was. */
  lemma PagesKeepJson(files: map<string, Output>, docsRoot: string, defs: seq<ExtractorDocs>, d: ExtractorDocs)
    ensures var t := Written(files, PageWrites(docsRoot, defs));
      (JsonPath(d) in t <==> JsonPath(d) in files) && (JsonPath(d) in files ==> t[JsonPath(d)] == files[JsonPath(d)])
  {
    var ps := PageWrites(docsRoot, defs);
    forall k | 0 <= k < |ps| ensures ps[k].0 != JsonPath(d) {
      JsonPathIsNotAPage(d, defs[k]);
    }
    UntouchedPath(files, ps, JsonPath(d));
  }

  /** Each entry of the extractors index names a page in the tree, and that page
      is rendered with the JSON file of the same stem, which is in the tree too. */
  lemma DirectiveResolves(files: map<string, Output>, docsRoot: string, defs: seq<ExtractorDocs>, i: nat)
    requires i < |defs|
    ensures var tree, entry := ExtractorsWritten(files, docsRoot, defs), Directives(defs)[i];
      && entry + ".rst" in tree
      && tree[entry + ".rst"] == Page("build/extractor.rst", ExtractorDef(docsRoot + "/" + entry + ".json"))
      && entry + ".json" in tree
      && tree[entry + ".json"].JsonDoc? && Stem(tree[entry + ".json"].doc) == Stem(defs[i])
  {
    var entry := Directives(defs)[i];
    assert entry + ".rst" == PagePath(defs[i]);
    assert entry + ".json" == JsonPath(defs[i]);
    assert docsRoot + "/" + entry + ".json" == DefFile(docsRoot, defs[i]);
    var afterJson := Written(files, JsonWrites(defs));
    JsonWrittenAt(files, defs, i);
    PagesKeepJson(afterJson, docsRoot, defs, defs[i]);
    PageWrittenAt(afterJson, docsRoot, defs, i);
    IndexIsNotAPage(defs[i]);
    assert JsonPath(defs[i]) != "extractors.rst" by {
      assert JsonPath(defs[i])[7] == '/';
    }
  }

  // ---------------------------------------------------------------------------
  // Template search path

  /** The template directories, searched in order: the configured one first, if any. */
  method TemplateSearchPath(templateDir: Option<string>, packageTemplates: string) returns (paths: seq<string>)
    ensures TruthyText(templateDir) ==> paths == [templateDir.value, packageTemplates]
    ensures !TruthyText(templateDir) ==> paths == [packageTemplates]
  {
    paths := [packageTemplates];
    if TruthyText(templateDir) {
      paths := [templateDir.value] + paths;
    }
  }

  // ---------------------------------------------------------------------------
  // The builder

  class ProjectDocsBuilder {
    const project: MeltanoProject
    const docsRoot: string
    const includeSettingValues: bool
    /** The template directories, in search order. */
    const templatePaths: seq<string>
    /** The output tree: each path under the docs root and the content written there. */
    var files: map<string, Output>

    /** Sets the builder up and clears the output left by any previous run. */
    constructor (project: MeltanoProject, docsRoot: string, templateDir: Option<string>,
                 packageTemplates: string, includeSettingValues: bool)
      ensures this.project == project && this.docsRoot == docsRoot
      ensures this.includeSettingValues == includeSettingValues
      ensures TruthyText(templateDir) ==> templatePaths == [templateDir.value, packageTemplates]
      ensures !TruthyText(templateDir) ==> templatePaths == [packageTemplates]
      ensures files == map[]
    {
      var paths := TemplateSearchPath(templateDir, packageTemplates);
      this.project := project;
      this.docsRoot := docsRoot;
      this.includeSettingValues := includeSettingValues;
      this.templatePaths := paths;
      this.files := map[];
    }

    /** The first loop of `render_extractors`: writes each document as JSON under
        "extract/" and returns the full paths of the files written, in order. */
    method WriteDefinitionFiles(defs: seq<ExtractorDocs>) returns (extractorDefFiles: seq<string>)
      modifies this
      ensures |extractorDefFiles| == |defs|
      ensures forall k :: 0 <= k < |defs| ==> extractorDefFiles[k] == DefFile(docsRoot, defs[k])
      ensures files == Written(old(files), JsonWrites(defs))
    {
      extractorDefFiles := [];
      for i := 0 to |defs|
        invariant |extractorDefFiles| == i
        invariant forall k :: 0 <= k < i ==> extractorDefFiles[k] == DefFile(docsRoot, defs[k])
        invariant files == Written(old(files), JsonWrites(defs[..i]))
      {
        var path := "extract/" + Stem(defs[i]) + ".json";
        JsonWritesSnoc(defs, i);
        WrittenSnoc(old(files), JsonWrites(defs[..i]), (path, JsonDoc(defs[i])));
        files := files[path := JsonDoc(defs[i])];
        extractorDefFiles := extractorDefFiles + [docsRoot + "/" + path];
      }
      assert defs[..|defs|] == defs;
    }

    /** The second loop of `render_extractors`: renders each document's page with
        its JSON file and returns the index entries, in order. */
    method WriteExtractorPages(defs: seq<ExtractorDocs>, extractorDefFiles: seq<string>)
      returns (extractorDirectives: seq<string>)
      requires |extractorDefFiles| == |defs|
      requires forall k :: 0 <= k < |defs| ==> extractorDefFiles[k] == DefFile(docsRoot, defs[k])
      modifies this
      ensures extractorDirectives == Directives(defs)
      ensures files == Written(old(files), PageWrites(docsRoot, defs))
    {
      extractorDirectives := [];
      for i := 0 to |defs|
        invariant extractorDirectives == Directives(defs[..i])
        invariant files == Written(old(files), PageWrites(docsRoot, defs[..i]))
      {
        var page := Page("build/extractor.rst", ExtractorDef(extractorDefFiles[i]));
        PageWritesSnoc(docsRoot, defs, i);
        WrittenSnoc(old(files), PageWrites(docsRoot, defs[..i]), (PagePath(defs[i]), page));
        DirectivesSnoc(defs, i);
        files := files["extract/" + Stem(defs[i]) + ".rst" := page];
        extractorDirectives := extractorDirectives + ["extract/" + Stem(defs[i])];
      }
      assert defs[..|defs|] == defs;
    }

    /** `render_extractors`: assembles every document first; if one is refused
        nothing is written. Otherwise writes each JSON file, then each page,
        then the extractors index. */
    method RenderExtractors(extractors: seq<ProjectPlugin>) returns (err: Option<ValidationError>)
      modifies this
      ensures var defs := ExtractorDefinitions(project, includeSettingValues, extractors);
        && (defs.Failure? ==> err == Some(defs.error) && files == old(files))
        && (defs.Success? ==> err.None? && files == ExtractorsWritten(old(files), docsRoot, defs.value))
    {
      var definitions := ExtractorDefinitions(project, includeSettingValues, extractors);
      if definitions.Failure? {
        return Some(definitions.error);
      }
      var extractorDefFiles := WriteDefinitionFiles(definitions.value);
      var extractorDirectives := WriteExtractorPages(definitions.value, extractorDefFiles);
      files := files["extractors.rst" := Page("build/extractors.rst", Include(extractorDirectives))];
      err := None;
    }

    /** `render_plugins`: the plugins index, listing the given entries. */
    method RenderPlugins(entries: seq<string>)
      modifies this
      ensures files == old(files)["plugins.rst" := Page("build/plugins.rst", Include(entries))]
    {
      files := files["plugins.rst" := Page("build/plugins.rst", Include(entries))];
    }

    /** `render_index`: the top-level index, listing the given entries. */
    method RenderIndex(entries: seq<string>)
      modifies this
      ensures files == old(files)["index.rst" := Page("build/index.rst", Include(entries))]
    {
      files := files["index.rst" := Page("build/index.rst", Include(entries))];
    }

    /** `render`: the extractor pages, then the plugins index (listing "extractors"),
        then the top-level index (listing "plugins"). A refused document stops the run. */
    method Render() returns (err: Option<ValidationError>)
      modifies this
      ensures var defs := ExtractorDefinitions(project, includeSettingValues, project.extractors);
        && (defs.Failure? ==> err == Some(defs.error) && files == old(files))
        && (defs.Success? ==>
              && err.None?
              && files == ExtractorsWritten(old(files), docsRoot, defs.value)
                            ["plugins.rst" := Page("build/plugins.rst", Include(["extractors"]))]
                            ["index.rst" := Page("build/index.rst", Include(["plugins"]))])
    {
      err := RenderExtractors(project.extractors);
      if err.Some? {
        return;
      }
      RenderPlugins(["extractors"]);
      RenderIndex(["plugins"]);
    }
  }
}
