# PowerStore MCP tool generator, modelled in Dafny

This project models `ToolGenerator`, the part of the PowerStore MCP server that turns a
parsed OpenAPI 2.0 document into MCP tool definitions. For every path that has a `get`
operation, in document order, the generator emits one tool. A tool has three parts:

- a **name**: the `operationId`, or `get` followed by the capitalised non-parameter path
  segments, with non-alphanumeric characters turned into `_`. A counter map `tool_names`
  makes repeated names distinct by adding a path-derived suffix.
- a **description**: the summary, else the description, else `GET <path>`. For a
  collection query, the generator adds the sorted `select` field list, up to ten key-field
  lines and canned filter examples.
- an **input schema**: the three credential properties, the operation's query and path
  parameters, and four pagination and filter properties for collection queries.

Modules, one per concern of `powerstore_mcp/tool_generator.py`:

- `Strings` (strings.dfy) holds the Python string operations the generator relies on:
  - `split` and `join`;
  - `lower`, `upper`, `capitalize` and `isalnum`;
  - `str(n)`, slicing, `in` on strings;
  - `sorted` on strings.
- `OpenApi` (openapi.dfy) is the part of the document the generator reads. Paths are an
  ordered sequence. A `get` entry or a parameter that is not a mapping is its own
  constructor, because reading a key of it raises.
- `Naming` (naming.dfy) covers path segments, the resource name, the collection test, the
  name made from a path, and `Disambiguate`. `Disambiguate` is the function that
  specifies `_make_unique_name`.
- `Schema` (schema.dfy) covers the input schema and the type mapping.
- `Description` (description.dfy) covers the enriched description.
- `ToolGen` (tool_generator.dfy) holds the class `ToolGenerator`. Its `toolNames` map field
  is updated by `MakeUniqueName`. Its methods `GenerateTools` and `GenerateInputSchema`
  are loops proved against the folds `GenerateAll` and `SchemaFor`. The folds `Counters`
  and `ToolNames` follow only the counters and the names of a run; lemmas tie them to
  `GenerateAll`, so the naming properties are proved without the tools' contents.

The `try`/`except` around one operation is modelled as an `Option`. An entry under `get`
that is not a mapping fails before it is named, so the counters do not change. An
operation with a parameter that is not a mapping fails while its schema is built. That
happens after `_make_unique_name` has run, so its name is still counted.

Two behaviours of the code are worth knowing. The first contradicts the generator's
documentation, which calls every name unique; the second follows from the counters the
generator keeps on the object. The model follows the code:

- **Names are not always unique.** A suffixed name is never recorded in `tool_names`.
  One candidate on `/a`, `/a/{x}` and `/a/{y}` gives `c`, `c_a` and `c_a`
  (`Naming.ParamSiblingsCollide`, `Naming.SuffixedNamesCanCollide`). What does hold:
  - two repeats on paths with different segment lists get different names, as long as
    both paths have at least one non-parameter segment and no segment contains `_`. A
    repeat on `/a_b` and one on `/a/b` both get `c_a_b`
    (`Naming.UnderscoreSegmentsCollide`). With `c` counted at 0, a repeat on `/` gets
    the count suffix `c_1` and a repeat on `/1` then gets `c_1` too
    (`Naming.CountSuffixMeetsSegment`);
  - two repeats on paths without segments get different counts;
  - a first occurrence keeps its bare name.
- **A second run on the same generator renames every tool.** Calling `generate_tools`
  again on the same object does not reproduce its output. The documentation says nothing
  about a second run. The counters persist on the object and remember the first run, so
  every tool of the second run gets a suffix (`ToolGen.SecondRunRenamesEveryTool`). Only
  a fresh generator reproduces the first output.

## Model

| member | source | states |
|---|---|---|
| Strings.SortSpec | powerstore_mcp/tool_generator.py:187 | `sorted` yields an ascending list that is a permutation (same multiset) of its input |
| Strings.Take | powerstore_mcp/tool_generator.py:188 | `s[:n]` has min(len(s), n) elements and is a prefix of `s` |
| Strings.CleanIsIdentText | powerstore_mcp/tool_generator.py:344-349 | cleaning keeps the length and leaves only letters, digits and `_`, also after `lower` or `capitalize` |
| Strings.JoinInjective | powerstore_mcp/tool_generator.py:317 | `"_".join` gives different strings for different segment lists when no segment holds `_` |
| Strings.NatToStringInjective | powerstore_mcp/tool_generator.py:317 | different counts have different decimal suffixes |
| Naming.SegmentsAreClean | powerstore_mcp/tool_generator.py:159 | every kept segment is non-empty, does not start with `{` and holds no `/` |
| Naming.ResourceNameIsFirstSegment | powerstore_mcp/tool_generator.py:150-160 | the resource name is the first piece of `path.split("/")` that is non-empty and not a `{param}`; it is `""` exactly when there is no such piece |
| Naming.ResourceNameOfCollection | powerstore_mcp/tool_generator.py:150-160 | `/alert` has resource name `alert` |
| Naming.ResourceNameOfInstance | powerstore_mcp/tool_generator.py:150-160 | `/volume/{id}` has resource name `volume` |
| Naming.ResourceNameOfNested | powerstore_mcp/tool_generator.py:150-160 | `/appliance/{id}/node` has resource name `appliance` |
| Naming.ToolNameFromPathShape | powerstore_mcp/tool_generator.py:324-351 | a name made from a path starts with the lower-cased cleaned method, holds only letters, digits and `_`, and has one character per character of the method and the kept segments |
| Naming.CamelSegmentsCons | powerstore_mcp/tool_generator.py:342-349 | the loop's name over segments `s, t1, …, tn` is `s` cleaned and capitalised followed by the name over `t1, …, tn` |
| Naming.ToolNameOfOne | powerstore_mcp/tool_generator.py:324-351 | `/<a>` with method `m` gives `lower(clean(m)) + capitalize(clean(a))`, where `clean` turns every non-alphanumeric character into `_` (so `/volume` with `get` gives `getVolume`) |
| Naming.ToolNameAroundParam | powerstore_mcp/tool_generator.py:324-351 | `/<a>/{x}/<b>` gives `lower(clean(m)) + capitalize(clean(a)) + capitalize(clean(b))`, with `clean` as above: a parameter segment adds nothing (so `/volume/{id}/snapshot` gives `getVolumeSnapshot`) |
| Naming.Disambiguate | powerstore_mcp/tool_generator.py:301-322 | the counter keys gain the candidate and no other entry changes; a new candidate is returned as is with count 0; a repeat increments its count by one and is returned as `candidate_<joined segments or new count>` |
| Naming.RepeatsOnDistinctSegmentsDiffer | powerstore_mcp/tool_generator.py:311-318 | two repeats of one candidate on paths that both have at least one non-parameter segment, with different, `_`-free segment lists, get different names |
| Naming.RepeatsWithoutSegmentsDiffer | powerstore_mcp/tool_generator.py:311-318 | two repeats on paths without segments get different names |
| Naming.SuffixedNamesCanCollide | powerstore_mcp/tool_generator.py:311-318 | a repeat on a path with the same non-empty segment list as an earlier repeat gets the earlier repeat's name |
| Naming.CountSuffixMeetsSegment | powerstore_mcp/tool_generator.py:311-318 | with the candidate counted at 0, a repeat on `/` gets `<candidate>_1` and a repeat on `/1` then gets the same name |
| Naming.UnderscoreSegmentsCollide | powerstore_mcp/tool_generator.py:311-318 | for a counted candidate, a repeat on `/a_b` and then one on `/a/b` have different segment lists but get the same name |
| Naming.IsCollectionIff | powerstore_mcp/tool_generator.py:124 | a path is a collection query exactly when `{id}` occurs at no position of it |
| Naming.CollectionExamples | powerstore_mcp/tool_generator.py:124 | `/alert` is a collection query and `/alert/{id}` is not |
| Naming.ParamSiblingsCollide | powerstore_mcp/tool_generator.py:311-318 | one candidate on `/a`, `/a/{x}`, `/a/{y}` is named `c`, `c_a`, `c_a` |
| Schema.ConvertOpenApiType | powerstore_mcp/tool_generator.py:438-455 | `integer` and `number` become `number`; `string`, `boolean`, `array` and `object` stay; anything else becomes `string` |
| Schema.RequiredInOrder | powerstore_mcp/tool_generator.py:383-406 | the appended required names are, in order, the names of the named query/path parameters marked required, one for each |
| Schema.RequiredList | powerstore_mcp/tool_generator.py:379-406 | `required` starts with `host`, `username`, `password`; the rest are exactly the names of required named query/path parameters |
| Schema.PropertyKeys | powerstore_mcp/tool_generator.py:365-429 | a key is a property exactly when it is a credential key, the name of a named query/path parameter, or a collection key of a collection query |
| Schema.CollectionProperties4 | powerstore_mcp/tool_generator.py:409-429 | a collection query has `select`, `limit`, `offset`, `queryParams` with their fixed schemas; a singleton query has one of them only if a parameter carries that name |
| Schema.LastDeclarationWins | powerstore_mcp/tool_generator.py:383-402 | a parameter that no later parameter overrides keeps its own schema in the parameter loop |
| Schema.DeclaredParamSchema | powerstore_mcp/tool_generator.py:383-429 | such a parameter's schema survives into the result unless a collection key overwrites it |
| Schema.CredentialsKept | powerstore_mcp/tool_generator.py:365-379 | a credential property keeps its fixed string schema unless a parameter takes its name |
| Schema.PropertyTypes | powerstore_mcp/tool_generator.py:393-395 | every property's type is a JSON Schema type |
| Description.ShownFields | powerstore_mcp/tool_generator.py:186-190 | the field list shows min(20, N) of the N field names, each at most once, in ascending order, none sorting after a hidden field; exactly when N > 20 the summary is that list joined by `, ` followed by `, ... (N total fields)` |
| Description.EnumValuesBounded | powerstore_mcp/tool_generator.py:248-260 | at most 5 enum values are shown: exactly the first min(5, n) of a non-empty inline `enum`; else exactly the first min(5, n) of the `enum` of the definition named by the last `/`-piece of a `$ref` containing `Enum`; else none |
| Description.KeyFieldLinesFollowPriority | powerstore_mcp/tool_generator.py:219-262 | one line per priority field the properties have, in priority order, each starting with `- <field>` |
| Description.KeyFieldsShown | powerstore_mcp/tool_generator.py:264 | at most 10 key-field lines are shown; the key-field text is empty exactly when no priority field is present |
| Description.FilterExampleCount | powerstore_mcp/tool_generator.py:266-299 | 4 examples for `alert`, 2 for `volume`, 1 for `appliance`, 1 generic one when there is a `state` property, else none; the text is empty exactly when there are none |
| Description.BulletLinesEmpty | powerstore_mcp/tool_generator.py:299 | the bulleted example block is empty exactly when there are no examples |
| Description.EnrichmentOnlyForCollections | powerstore_mcp/tool_generator.py:178-204 | the base description is returned unchanged exactly when the path is not a collection query or `<resource>_instance` has no properties |
| Description.EnrichedStartsWithFields | powerstore_mcp/tool_generator.py:185-192 | an enriched description starts with the base text followed by the field-list section |
| Description.EnrichmentSections | powerstore_mcp/tool_generator.py:192-202 | the key-field section appears exactly when a priority field is present, the examples section exactly when the resource has examples, in that order after the field list |
| ToolGen.CandidateName | powerstore_mcp/tool_generator.py:109-111 | the candidate name is the `operationId` when it is a non-empty string; otherwise it starts with the lower-cased cleaned method and holds only letters, digits and `_` |
| ToolGen.BaseDescription | powerstore_mcp/tool_generator.py:117-121 | the summary when non-empty, else the description when non-empty, else `<METHOD> <path>`; never empty |
| ToolGen.GenerateOne | powerstore_mcp/tool_generator.py:107-148 | an entry that is not a mapping yields nothing and leaves the counters unchanged; a tool is produced exactly when every parameter is a mapping |
| ToolGen.MaybeTool | powerstore_mcp/tool_generator.py:123-148 | a tool exists exactly when every parameter is a mapping, and it carries the name it was given |
| ToolGen.NoGetNoTools | powerstore_mcp/tool_generator.py:74-89 | a document without `get` operations yields no tools and leaves the counters unchanged |
| ToolGen.ToolsFollowEntries | powerstore_mcp/tool_generator.py:74-89 | one tool per `get` operation that does not fail, in document order; the k-th carries that operation's enriched description and schema and is named after its candidate |
| ToolGen.OneToolMatches | powerstore_mcp/tool_generator.py:107-148 | an operation whose parameters are all mappings yields a tool with its enriched description and schema, named after its candidate |
| ToolGen.DisambiguatedNamedAfter | powerstore_mcp/tool_generator.py:301-322 | the name handed out is the candidate or the candidate with a `_` suffix, and a repeated candidate never keeps its bare form |
| ToolGen.GenerateAllNames | powerstore_mcp/tool_generator.py:74-89 | the k-th tool of a run is named by the k-th name the counters hand out, and there are as many names as tools |
| ToolGen.GenerateAllCounters | powerstore_mcp/tool_generator.py:74-89 | the counters a run leaves are those built from the candidates of the `get` operations alone |
| ToolGen.CountedCandidatesAreSuffixed | powerstore_mcp/tool_generator.py:311-318 | when every candidate is already counted, there is one name per produced tool and the k-th differs from the candidate of the k-th produced operation |
| ToolGen.CounterKeys | powerstore_mcp/tool_generator.py:311-320 | after a run the counter keys are the old keys plus the candidates of all `get` operations, and no others |
| ToolGen.CounterCounts | powerstore_mcp/tool_generator.py:311-320 | a candidate's count goes up by the number of times it was asked for; a new one counts from -1 |
| ToolGen.SecondRunRenamesEveryTool | powerstore_mcp/tool_generator.py:56-89 | a second run on the same generator gives the same number of tools, descriptions and schemas, and no tool keeps its bare candidate |
| ToolGen.ToolGenerator.constructor | powerstore_mcp/tool_generator.py:56-63 | keeps the document and starts with no counters |
| ToolGen.ToolGenerator.GenerateTools | powerstore_mcp/tool_generator.py:65-89 | returns the tools and leaves the counters that `GenerateAll` gives for the paths from the old counters |
| ToolGen.ToolGenerator.GenerateToolFromOperation | powerstore_mcp/tool_generator.py:91-148 | returns the tool and leaves the counters that `GenerateOne` gives |
| ToolGen.ToolGenerator.MakeUniqueName | powerstore_mcp/tool_generator.py:301-322 | returns the name and leaves the counters that `Disambiguate` gives |
| ToolGen.ToolGenerator.GenerateInputSchema | powerstore_mcp/tool_generator.py:353-436 | yields a schema exactly when every parameter is a mapping, and then it is `SchemaFor`: type `object`, no additional properties, the properties and `required` list above |

## Left out

- `load_openapi_spec` reads a file and parses it with the JSON and YAML libraries. That is
  file I/O over foreign parsers; the model starts from the parsed document.
- Logging (the `logger.info` and `logger.warning` calls) is a side effect only. The
  exception text that a failing operation logs is not modelled.
- The server configuration, the request dispatcher and the HTTP client are not part of
  this model.
- `isalnum`, `lower`, `upper` and `capitalize` are modelled on ASCII letters and digits.
  Python also treats other Unicode letters and digits this way.
- A Dafny `string` holds Unicode scalar values only. A Python `str` can also hold lone
  surrogate code points (a JSON document can produce them); such strings are not modelled.
- Values are typed. `operationId`, `summary`, `description`, `name`, `in`, `type` and
  `$ref` are strings when present. An `enum` is a list of strings, so `str(e)` is the
  identity. `required` is a boolean. A path item is a mapping, so `"get" in path_item`
  means it has a `get` key. The exceptions that other value types could raise are not
  modelled.
- Only two malformed inputs are modelled: an operation that is not a mapping, and a
  parameter that is not a mapping. A definition or property that is not a mapping is not
  modelled. Such a definition would make `_build_enhanced_description` raise.
- The `properties` of the generated input schema are a map, so their key order is not
  modelled. The generator inserts the credentials, then the parameters in order, then
  `select`, `limit`, `offset` and `queryParams`; a key written again keeps its first
  position. JSON Schema gives no meaning to that order.
- The `properties` of a definition are an ordered list with distinct keys. Only their
  sorted keys and lookups by key are used, so dictionary order does not matter.
- Description.KeyFieldLines: the unused `resource_name` parameter of `_get_key_fields` is
  dropped.
- Naming.ToolNameOfOne and Naming.ToolNameAroundParam state the name for every path of
  the shapes `/a` and `/a/{x}/b`. The two concrete paths `/volume` and
  `/volume/{id}/snapshot` are instances of these shapes and are not stated separately.
- ToolGen.ToolGenerator.GenerateTools: duplicate path keys cannot occur in a parsed JSON
  object. The path sequence does not exclude them, and nothing proved depends on it.
