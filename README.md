# sphinx-meltano: settings provenance and page assembly, in Dafny

sphinx-meltano is a Sphinx extension that writes one reference page per
Meltano extractor: its identity, description, capabilities, declared settings
and, optionally, the setting values in effect under the base configuration and
under each declared environment. This project models the decision logic of its
docs builder and its document model:

- **Settings provenance filter** (`Builder.GetEnvironmentSettingValues`): from
  the merged configuration the settings service reports, the base section keeps
  values from `default`, `meltano_yml`, `inherited` and `dotenv`; every section,
  base included, keeps values from `meltano_environment`. Kept records stay in
  input order, and their source string is parsed as a `SettingStore`.
- **Multi-environment assembly** (`Builder.GetAllSettings`): the base section,
  then one section per declared environment, in order.
- **Document assembly** (`Builder.GetExtractorDocumentation`): the description
  falls back to the hub's description with a tooltip. Setting values are
  included only when the builder is configured to include them. Settings and
  capabilities are validated.
- **Output tree** (`Builder.ProjectDocsBuilder`): a class whose `files` map
  models the docs root. `RenderExtractors` writes
  `extract/<name>-<variant>.json`, then `extract/<name>-<variant>.rst`, then
  `extractors.rst` listing `extract/<name>-<variant>`. `Render` adds
  `plugins.rst` and `index.rst`, and the constructor clears the previous run.
- **Template search path** (`Builder.TemplateSearchPath`): the configured
  template directory comes first, when there is one.
- **Document model** (`Details`): the closed enumerations `Capability`, `Kind`
  and `SettingStore` with their values; the records `DocsField`, `Setting`,
  `SettingValue`, `EnvironmentSettingValues` and `ExtractorDocs` with their
  defaults; pydantic's validation of a `Setting` (extra fields forbidden); and
  the cells of `EnvironmentSettingValues.as_table`.

The Meltano services are replaced by their answers, gathered in
`Builder.MeltanoProject`: the extractors, the environment names, each
extractor's hub description, and the configuration reported for an extractor
while a named environment is active ("base" meaning none). The active
environment is therefore an explicit parameter, not project state. A
setting's `Any` value is the JSON-like `Details.Json`, and Python truthiness
is `Details.Truthy`.

Files: `wrappers.dfy` (Option, Result, and validating each element of a list),
`details.dfy` (module `Details`), `builder.dfy` (module `Builder`).

## Behaviour of the code worth knowing

- Under "base" a `meltano_environment` record is kept. The test for that
  source, at builder.py:97, is an `elif` that does not look at the
  environment (`Builder.BaseSection`, `Builder.BaseKeepsEnvironmentBlock`).
  With no environment active the settings service should not report that
  source, so this probably has no visible effect.
- Distinct (name, variant) pairs can share the stem `<name>-<variant>`, such
  as (`tap-a`, `b-c`) and (`tap-a-b`, `c`), or a variant of `None` and a
  variant of `"None"` (`Builder.StemCollisions`). They then share a path, and
  the last write to a path wins (`Builder.LastWriteWins`,
  `Builder.SameStemOverwrites`).
- Every run starts from an empty tree: the constructor ends with
  `files == map[]`. `Render` gives the new tree in terms of the old tree and
  the builder's configuration. So for a freshly built builder, `Render`'s tree
  depends only on the constructor's arguments: the project, the docs root,
  which appears in every page's context, and the inclusion flag, which decides
  whether each JSON document carries setting values. Two such runs with the
  same arguments give the same tree.

## Model

| member | source | states |
|---|---|---|
| `Wrappers.Traverse` | src/sphinx_meltano/meltano/builder.py:136 | validating a list succeeds iff every element validates, keeping length and order; a failure is the error of the first failing element |
| `Details.Truthy` | src/sphinx_meltano/meltano/details.py:143 | Python truthiness of a setting's value: `None`, false, 0, "" and empty containers are falsy; `TableCells` uses it for the value cell |
| `Details.TruthyText` | src/sphinx_meltano/meltano/builder.py:129 | truthiness of an optional string: present and non-empty; used by `Description` and `TemplateSearchPath` |
| `Details.NewDocsField` | src/sphinx_meltano/meltano/details.py:10-14 | a `DocsField` given only a name has no value and no tooltip |
| `Details.ParseCapability` | src/sphinx_meltano/meltano/details.py:17-28 | lookup by value: a parsed capability's value is the parsed string |
| `Details.CapabilityParseIff` | src/sphinx_meltano/meltano/details.py:17-28 | a string parses to a capability exactly when it is that capability's value |
| `Details.CapabilitiesDistinct` | src/sphinx_meltano/meltano/details.py:17-28 | eleven members, every capability among them, values pairwise distinct |
| `Details.CapabilityNamesAndValues` | src/sphinx_meltano/meltano/details.py:23-28 | exactly the four hyphenated members have a value other than their member name, and their member name does not parse |
| `Details.ParseKind` | src/sphinx_meltano/meltano/details.py:31-43 | lookup by value: a parsed kind's value is the parsed string |
| `Details.KindParseIff` | src/sphinx_meltano/meltano/details.py:31-43 | a string parses to a kind exactly when it is that kind's value |
| `Details.KindsDistinct` | src/sphinx_meltano/meltano/details.py:31-43 | a closed set of twelve members with pairwise distinct values |
| `Details.ParseSettingStore` | src/sphinx_meltano/meltano/details.py:110-119 | lookup by value: a parsed store's value is the parsed string; other strings fail |
| `Details.SettingStoreParseIff` | src/sphinx_meltano/meltano/details.py:110-119 | parsing and the store's value are inverse, a bijection between the nine members and their strings |
| `Details.SettingStoresDistinct` | src/sphinx_meltano/meltano/details.py:110-119 | nine members, every store among them, values pairwise distinct |
| `Details.NewSetting` | src/sphinx_meltano/meltano/details.py:59-107 | a setting given only a name is not protected, and every other field is `None` |
| `Details.TextList` | src/sphinx_meltano/meltano/details.py:62-66 | a list validates as `List[str]` exactly when every element is a string, and the result holds those strings in order |
| `Details.RequiredText` | src/sphinx_meltano/meltano/details.py:59-61 | a required `str` field validates exactly when present as a string, and yields it; otherwise missing or wrong type |
| `Details.OptionalText` | src/sphinx_meltano/meltano/details.py:67-71 | an `Optional[str]` field validates exactly when absent, null or a string; writing the result back gives the entry, or null when absent |
| `Details.OptionalAny` | src/sphinx_meltano/meltano/details.py:72-74 | an `Optional[Any]` field (`value`, `value_processor`) accepts every value as given, and is `None` when absent |
| `Details.OptionalTextList` | src/sphinx_meltano/meltano/details.py:62-66 | an `Optional[List[str]]` field validates exactly when absent, null or a list of strings; a present list is given back element for element |
| `Details.TextListJsonInverse` | src/sphinx_meltano/meltano/details.py:62-66 | writing a validated list of strings back gives the original list |
| `Details.OptionalKind` | src/sphinx_meltano/meltano/details.py:78-80 | an `Optional[Kind]` field validates exactly when absent, null or some kind's value; a kind present is the entry's string |
| `Details.OptionalFlag` | src/sphinx_meltano/meltano/details.py:96-98 | `protected` validates exactly when absent, null or a boolean; absent gives false, present is given back as written |
| `Details.OptionalOauth` | src/sphinx_meltano/meltano/details.py:46-51 | `oauth` validates exactly when absent, null or a mapping with a string `provider`; other keys of that mapping are ignored |
| `Details.ParseSetting` | src/sphinx_meltano/meltano/details.py:54-107 | a validated setting has only declared fields and a string name, and `protected` is false when absent and carries the given flag otherwise |
| `Details.ParseSettingFields` | src/sphinx_meltano/meltano/details.py:59-107 | every field of a validated setting is the mapping's entry written back, or its default (false for `protected`, `None` otherwise) when left out; `oauth` keeps the provider |
| `Details.ParseSettingAccepts` | src/sphinx_meltano/meltano/details.py:54-107 | a mapping validates exactly when all its keys are declared and every declared field validates on its own |
| `Details.ParseSettingNameAndLabel` | src/sphinx_meltano/meltano/details.py:59-71 | a mapping with a name and a label validates to the default setting with that label |
| `Details.SettingRoundTrip` | src/sphinx_meltano/meltano/details.py:54-107 | parsing a setting's own field mapping gives back that setting |
| `Details.SettingDict` | src/sphinx_meltano/meltano/details.py:54-107 | a setting's field mapping, as pydantic's `dict()` gives it, has exactly the thirteen declared fields |
| `Details.ParseSettingDefaults` | src/sphinx_meltano/meltano/details.py:96-98 | a mapping holding only a name parses to the setting with every default, `protected` false |
| `Details.ParseSettingRejectsExtra` | src/sphinx_meltano/meltano/details.py:55-56 | a mapping with a key outside the declared fields is refused whatever its other fields |
| `Details.ParseSettingNeedsName` | src/sphinx_meltano/meltano/details.py:59-61 | a mapping without a name is refused as missing the name |
| `Details.NewSettingValue` | src/sphinx_meltano/meltano/details.py:122-126 | a setting value built without a value has value `None` |
| `Details.NewEnvironmentSettingValues` | src/sphinx_meltano/meltano/details.py:132-135 | the environment defaults to "base" |
| `Details.Row` | src/sphinx_meltano/meltano/details.py:140-145 | the four cells of one setting value: lock marker, quoted name, value or "", source; `TableCells` states each |
| `Details.AsTable` | src/sphinx_meltano/meltano/details.py:137-148 | the four fixed headers, and one row of four cells per setting value |
| `Details.TableCells` | src/sphinx_meltano/meltano/details.py:139-146 | cell 0 is the lock marker iff the value is redacted (empty otherwise); cell 1 is the name in double backticks, recoverable; cell 2 is the value if truthy, else ""; cell 3 parses back to the source |
| `Details.NewExtractorDocs` | src/sphinx_meltano/meltano/details.py:151-163 | label, variant and description default to `None`; capabilities, settings and setting-value sections to empty lists |
| `Builder.ToSettingValue` | src/sphinx_meltano/meltano/builder.py:89-95 | a kept record keeps name, value and redaction, and its source is the parsed source string |
| `Builder.RetainedSourceParses` | src/sphinx_meltano/meltano/builder.py:83-104 | parsing the source of a kept record never fails |
| `Builder.Retained` | src/sphinx_meltano/meltano/builder.py:83-97 | the filter's test: under "base" one of the four base stores, and `meltano_environment` under every environment; `BaseRetains` and `EnvironmentSection` state it per case |
| `Builder.Filtered` | src/sphinx_meltano/meltano/builder.py:81-105 | the kept records, converted, in input order, never more than the configuration; `FilteredIsKeptImage` states which |
| `Builder.EnvironmentValues` | src/sphinx_meltano/meltano/builder.py:106-107 | the section for an environment: its filtered values, under that environment's name |
| `Builder.GetEnvironmentSettingValues` | src/sphinx_meltano/meltano/builder.py:67-108 | the loop returns exactly the kept, converted records in input order, under the requested environment name |
| `Builder.Kept` | src/sphinx_meltano/meltano/builder.py:81-105 | the positions of kept records are increasing, each kept, none missed |
| `Builder.FilteredIsKeptImage` | src/sphinx_meltano/meltano/builder.py:81-105 | a section is a subsequence of the configuration: entry k is the record at the k-th kept position, converted |
| `Builder.KeptIff` | src/sphinx_meltano/meltano/builder.py:82-97 | a position is kept exactly when its record passes the environment's test |
| `Builder.BaseRetains` | src/sphinx_meltano/meltano/builder.py:83-97 | under "base" the test accepts exactly `default`, `meltano_yml`, `inherited`, `dotenv` and `meltano_environment` |
| `Builder.BaseSection` | src/sphinx_meltano/meltano/builder.py:83-97 | under "base" a record is kept iff its source is one of those five |
| `Builder.EnvironmentSection` | src/sphinx_meltano/meltano/builder.py:83-97 | under any other environment a record is kept iff its source is `meltano_environment` |
| `Builder.FilteredSources` | src/sphinx_meltano/meltano/builder.py:83-105 | every kept value's source is one of the five stores, and `MeltanoEnv` under any environment other than "base" |
| `Builder.BaseKeepsEnvironmentBlock` | src/sphinx_meltano/meltano/builder.py:97-105 | an environment-block record is kept in the base section |
| `Builder.GetAllSettings` | src/sphinx_meltano/meltano/builder.py:110-117 | 1 + (number of environments) sections: first "base", then section i+1 for environment i, each the filter of that environment's configuration |
| `Builder.OverrideExample` | src/sphinx_meltano/meltano/builder.py:110-117 | one setting overridden in "prod": base lists it from `default` with "", prod from `meltano_environment` with "123", nothing else |
| `Builder.HubTooltip` | src/sphinx_meltano/meltano/builder.py:133 | the hub tooltip text for a plugin; `HubTooltipNamesPlugin` shows it names the plugin |
| `Builder.HubTooltipNamesPlugin` | src/sphinx_meltano/meltano/builder.py:133 | the hub tooltip is non-empty and contains the plugin name |
| `Builder.Description` | src/sphinx_meltano/meltano/builder.py:127-135 | a truthy own description is used with no tooltip; otherwise the hub description with the hub tooltip |
| `Builder.CapabilityItem` | src/sphinx_meltano/meltano/builder.py:138-147 | a capability string validates exactly when it is some capability's value |
| `Builder.GetExtractorDocumentation` | src/sphinx_meltano/meltano/builder.py:119-150 | succeeds iff every setting and capability validates; then name, label, variant come from the plugin, settings and capabilities are the validated lists in order, and the sections are all environments' when included, empty otherwise |
| `Builder.NoValuesWithoutInclusion` | src/sphinx_meltano/meltano/builder.py:137-140 | without inclusion a document has no setting-value sections, whatever the environments |
| `Builder.ExtractorDefinitions` | src/sphinx_meltano/meltano/builder.py:155-157 | succeeds exactly when every extractor's document validates, giving one document per extractor in order; otherwise fails with the first refusal |
| `Builder.VariantText` | src/sphinx_meltano/meltano/builder.py:164 | an absent variant is written "None", as the f-string does |
| `Builder.Stem` | src/sphinx_meltano/meltano/builder.py:164 | name, hyphen, variant text; `StemCollisions` shows that distinct pairs can share one |
| `Builder.JsonPath` | src/sphinx_meltano/meltano/builder.py:163-165 | `extract/<stem>.json`; `JsonPathDeterminesStem` shows it gives back the stem |
| `Builder.PagePath` | src/sphinx_meltano/meltano/builder.py:177-178 | `extract/<stem>.rst`; `PagePathDeterminesStem` shows it gives back the stem |
| `Builder.DefFile` | src/sphinx_meltano/meltano/builder.py:168 | the full path of a document's JSON file, under the docs root, which its page is rendered with |
| `Builder.Directives` | src/sphinx_meltano/meltano/builder.py:170-184 | as many index entries as documents, entry i is "extract/" + name + "-" + variant ("None" for no variant) |
| `Builder.StemCollisions` | src/sphinx_meltano/meltano/builder.py:163-165 | distinct (name, variant) pairs can share a file stem |
| `Builder.Written` | src/sphinx_meltano/meltano/builder.py:166-167 | the tree after writing each pair in order; `WrittenKeys`, `LastWriteWins` and `UntouchedPath` state its contents |
| `Builder.WrittenKeys` | src/sphinx_meltano/meltano/builder.py:166-167 | after the writes the tree holds exactly the old paths and the written ones |
| `Builder.LastWriteWins` | src/sphinx_meltano/meltano/builder.py:166-167 | a written path holds the content of the last write to it |
| `Builder.UntouchedPath` | src/sphinx_meltano/meltano/builder.py:166-167 | a path no write touches keeps its content |
| `Builder.SameStemOverwrites` | src/sphinx_meltano/meltano/builder.py:162-168 | two documents with the same name and variant share a JSON path, and the tree keeps the later |
| `Builder.JsonWrittenAt` | src/sphinx_meltano/meltano/builder.py:162-168 | after the first loop each document's JSON path holds a document of the same stem |
| `Builder.PageWrittenAt` | src/sphinx_meltano/meltano/builder.py:171-181 | after the second loop each document's page is rendered with that document's JSON file |
| `Builder.PagesKeepJson` | src/sphinx_meltano/meltano/builder.py:171-181 | writing pages leaves the JSON files as they were |
| `Builder.ExtractorsWritten` | src/sphinx_meltano/meltano/builder.py:159-193 | the tree after `render_extractors`: JSON files, then pages, then `extractors.rst`; `DirectiveResolves` states what an entry finds there |
| `Builder.DirectiveResolves` | src/sphinx_meltano/meltano/builder.py:161-193 | each index entry names a page in the tree, rendered with the JSON file of that stem, which is in the tree too |
| `Builder.TemplateSearchPath` | src/sphinx_meltano/meltano/builder.py:47-51 | with a template directory: [template_dir, package templates]; without one: [package templates] |
| `Builder.ProjectDocsBuilder.constructor` | src/sphinx_meltano/meltano/builder.py:30-61 | keeps the configuration, orders the template path, and starts from an empty output tree |
| `Builder.ProjectDocsBuilder.WriteDefinitionFiles` | src/sphinx_meltano/meltano/builder.py:161-168 | writes each document's JSON file in order and returns the full path of each |
| `Builder.ProjectDocsBuilder.WriteExtractorPages` | src/sphinx_meltano/meltano/builder.py:170-184 | writes each page in order and returns exactly the index entries |
| `Builder.ProjectDocsBuilder.RenderExtractors` | src/sphinx_meltano/meltano/builder.py:152-193 | a refused document writes nothing; otherwise the JSON files, then the pages, then `extractors.rst` listing the entries |
| `Builder.ProjectDocsBuilder.RenderPlugins` | src/sphinx_meltano/meltano/builder.py:195-198 | writes `plugins.rst` from its template with the given entries |
| `Builder.ProjectDocsBuilder.RenderIndex` | src/sphinx_meltano/meltano/builder.py:200-203 | writes `index.rst` from its template with the given entries |
| `Builder.ProjectDocsBuilder.Render` | src/sphinx_meltano/meltano/builder.py:205-211 | the extractor pages, then `plugins.rst` listing "extractors", then `index.rst` listing "plugins"; a refused document stops the run |

## Left out

- Meltano services (`Project`, `ProjectPluginsService`, `PluginSettingsService.config_with_metadata`, `EnvironmentService`, the database session, `find_parent` with the hub preference): foreign code. Their answers are the fields of `MeltanoProject`, and their failures are not modelled.
- `activate_environment` / `deactivate_environment`: process-wide project state. The environment is a parameter of the configuration answer instead.
- File contents: a JSON file holds the document value, not `json.dump(plugin_def.dict())`. A page holds its template name and context, not Jinja's rendering. UTF-8 encoding, directory creation and `TemplateNotFound` are not modelled.
- Path handling: a full path is `docsRoot + "/" + relative path`, without `pathlib` normalisation.
- `tabulate`'s reStructuredText formatting: only the header and cell values it receives are modelled.
- `src/sphinx_meltano/directives.py` (markdown conversion, reStructuredText parsing, file checks, `ExtractorDocs.parse_file`), `src/sphinx_meltano/extension.py` (Sphinx registration) and `src/sphinx_meltano/settings.py` are not part of this model. The package template directory `TEMPLATE_DIR` is a constructor parameter.
- Python values typed `Any` are JSON-like; floating-point numbers are not modelled.
- Settings arrive as field mappings, not as Meltano `SettingDefinition` objects.
- Details.ParseSetting: reports only the first failing field, where pydantic lists every error. It accepts only JSON strings for string fields and only booleans for `protected`. pydantic's coercions (a number to a string, "yes" to true) are not modelled.
- Builder.GetExtractorDocumentation: reports a settings error before a capabilities error, and only the first of either.
