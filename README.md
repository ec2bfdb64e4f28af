# openengine in Dafny

openengine builds an OpenAPI 3 document from annotated Go source, then checks
that document for consistency. The builder is the `openEngine` object, a
fluent API. It reads three kinds of Go declarations:

- struct declarations documented `@openapi`, whose fields carry `openapi:"…"`
  struct tags;
- enum structs, documented in the same way;
- `@api…` comment blocks that describe operations.

From these it assembles the schema registry (`components.schemas`), the path
table and the tags, then serialises and exports the document. The validator
decodes such a document and reports:

- references that point nowhere;
- duplicate operation ids;
- property-name conversion errors;
- paths without a leading slash;
- GET operations with repeated parameter names;
- a path listed twice under one method.

This project models that core and proves what it promises. The modules are:

| module | file | models |
|---|---|---|
| `Wrappers`, `Text`, `SeqFacts`, `MapOrder` | wrappers.dfy, text.dfy, seq_facts.dfy, map_order.dfy | `Option`/`Result`, the string functions from Go's `strings` and `strconv` the core relies on, and Go's map iteration order (an injected `KeyOrder` that lists each key once) |
| `Types` | types.dfy | the records of `engine/types.go` (with `Content`'s multipart slot, which paths.go assigns): schemas, properties, parameters, operations and their five method slots, responses, security schemes, the tables of constants |
| `Sources` | sources.dfy | what the Go parser and the file system hand the core: a directory tree (`Listing`), files as a sequence of declarations, struct fields with their tags |
| `Engine`, `EngineUtils`, `ApiTypes` | engine.dfy, engine_utils.dfy, api_types.dfy | the `engine` package: struct-tag parsing, map merging, operation ids, directory walking and the Go-to-OpenAPI type tables |
| `CommentNames`, `Schemas`, `Enums` | comment_names.dfy, schemas.dfy, enums.dfy | the schema and enum assemblers, per file and per directory |
| `PathRecords`, `Paths` | path_records.dfy, paths.dfy | the `@api…` comment parser and the path assembler |
| `Aggregation` | aggregation.dfy | how the results of the per-directory workers are folded into one registry |
| `Builder` | open_engine.dfy | the `openEngine` object (class `OpenEngine`): `NewPackage`, and every `Add…`, `Parse…` and `Generate` method |
| `ValidatorUtils`, `ValidatorFindings`, `Validator` | validator_utils.dfy, validator_findings.dfy, validator.dfy | the validator: the `OpenApiValidator` class with its six checks, and `ValidateRaw` |

The builder and the validator mutate objects, so each is a class with the
Go struct's fields. Each method's `ensures` states the whole new state as a
function of the old state. What those functions mean is proved in lemmas:

- which keys a merge keeps;
- which tag clause wins;
- which error responses an operation gets;
- that the worker fold fails exactly when some worker fails;
- that every finding list is empty exactly when the document satisfies the
  property it checks.

Each Go loop is a Dafny method with a `while` loop, proved against the
function that specifies it.

The concurrent directory walk is modelled as a fold whose order is a ghost
out-parameter. `ParseSchemas`, `ParseEnums` and `ParsePaths` return that
order. Their contracts hold for the order that actually happened, and it is
proved to be a permutation of the directories whenever no worker failed.
`Aggregation.OrderIndependentOutcome` proves that two things hold for every
order:

- whether the fold fails;
- which keys the merged registry ends up with.

Which value a colliding key keeps does depend on the order.

## Behaviour of the code worth knowing

The model follows the code, with the two corrections listed under
"## Findings": the required list of a struct schema, and the ignore list of
`ParseTags`.

- **Struct tags.** A flag clause (`required`, `nullable`, `ignored`) resets all
  three flags, so `required;nullable` is only nullable. `ignored` leaves the
  keyed clauses in force: `ignored;in:path` still sets the location
  (`Engine.IgnoredKeepsKeyedValues`, `Engine.LaterFlagCancels`).
- **Merging registries.** On a name collision the entry already present is
  kept.
  - `engine.MergeMaps(src, dest)` copies `src` over `dest`, and every caller
    passes the accumulated registry as `src`.
  - The same holds between the files of one directory
    (`Schemas.EarlierFileWins`, `Paths.FirstFileOwnsPath`). A later file that
    declares another method on an existing path loses that method.
  - `engine.MergePaths`, which merges per method slot, is never called.
- **Enum schemas.** `mapEnumFieldsToSchemaDict` writes a schema with only its
  enum values, so enum schemas have an empty type (`Enums.EnumSchema`).
- **Parsing enums.** `ParseEnums` starts its fold from an empty registry and
  replaces `components.schemas` with the result. Schemas registered earlier by
  `ParseSchemas` or `AddSchemas` are dropped (`Builder.OpenEngine.ParseEnums`).
- **Array properties.** Only `[]T` fields with a reference become an array of
  references. Selector (`pkg.T`) and index expressions become a plain
  reference (`Schemas.PropertyFor`).
- **Custom error responses.** An operation's error response is rewritten only
  by a per-status custom reference. A custom description without a custom
  reference is never used (`Paths.ResponsesFor`).
- **Error codes.** `@apiErrorStatusCodes` selects a code by substring of the
  comma-joined list, so `@apiErrorStatusCodes 4000` also selects `400`
  (`Paths.ErrorCodeSelection`).
- **The error slot.** Every builder method runs whatever the error slot holds,
  and a later error overwrites an earlier one. Only `Generate` consults it.
- **Validation results.** `Generate` discards them: the document is exported
  even when the validator reports findings.
- **The operation-id check.** `CheckDuplicateOperationIDs` scans the raw text
  field `doc`, which `ValidateRaw` never sets. That check therefore never
  reports anything (`ValidatorFindings.ValidateRawFindings`).

## Model

| member | source | states |
|---|---|---|
| Engine.SetKeyField | engine/engine.go:45-58 | a keyed clause sets exactly the field its key names, leaves every other field and the three flags alone, and an unknown key changes nothing |
| Engine.KeyValue | engine/engine.go:47-50 | a clause splits at its first colon: the key is the text before it, and the value keeps any later colons |
| Engine.ParseStructTagValues | engine/engine.go:34-62 | the loop over `;`-separated clauses computes `ParseTag` of the tag |
| Engine.ParseClause | engine/engine.go:38-59 | one clause: a flag clause sets that one flag and clears the other two, a keyed clause sets its field |
| Engine.ParseTagEmpty | engine/engine.go:34-62 | an empty tag yields all defaults |
| Engine.LastFlagClause | engine/engine.go:38-44 | the last clause without a colon, if any, is one of the clauses; if there is none, every clause is keyed |
| Engine.FlagsFromLastFlagClause | engine/engine.go:38-44 | the three flags are decided by the last flag clause alone (or keep their prior values when there is none) |
| Engine.KeyedLastWins | engine/engine.go:45-58 | each keyed field holds the value of the last clause with that key |
| Engine.AtMostOneFlag | engine/engine.go:39-43 | required, nullable and ignored are never set together |
| Engine.FlagThenKeyed | engine/engine.go:36-59 | `flag;key:value` is the flag applied to empty values, then the keyed field set |
| Engine.IgnoredKeepsKeyedValues | engine/engine.go:36-59 | `ignored` does not suppress keyed clauses: `ignored;in:path` still sets the location |
| Engine.LaterFlagCancels | engine/engine.go:39-43 | a later flag clears an earlier one: `required;nullable` is only nullable |
| Engine.TrailingSeparatorResetsFlags | engine/engine.go:36-43 | a trailing `;` yields an empty clause that clears every flag |
| Engine.SingleClause | engine/engine.go:34-62 | a tag without `;` is exactly one clause |
| Engine.KeyedOnly | engine/engine.go:45-58 | a single `key:value` tag sets only that field |
| Engine.ValueKeepsLaterColons | engine/engine.go:47-50 | `example:12:30` gives the example `12:30` |
| Engine.UntrimmedKeyIgnored | engine/engine.go:45-58 | keys are not trimmed, so ` in:path` matches no key and changes nothing |
| Engine.MergeMaps | engine/engine.go:73-78 | the merge holds the keys of both maps; on a collision the value from `src` wins, elsewhere each map's own value is kept |
| Engine.MergeOperations | engine/engine.go:84-90 | per method slot, the destination's operation is kept when present, else the source's |
| Engine.MergePaths | engine/engine.go:80-96 | paths only in one map are copied; paths in both are merged slot by slot with the destination preferred |
| Engine.GetResponseDescription | engine/engine.go:98-103 | a known status code gets its table description, any other gets "Unknown response code" |
| Engine.SecondPieceIsFirstSegment | engine/engine.go:105-108 | the second piece of splitting a path at `/` is its first segment |
| Engine.GenerateOperationId | engine/engine.go:105-108 | the id is the path's first segment with an upper-cased first letter, followed by the REST action and operation for the upper-cased verb |
| Engine.OperationIdCollision | engine/engine.go:105-108 | `/users` and `/users/{id}` get the same id for the same verb |
| Engine.LeadingSegment | engine/engine.go:105-108 | only the first segment of a path enters its id |
| Engine.IsIgnoredFile | engine/engine.go:24-32 | a file is ignored exactly when some pattern of the ignored-file table occurs in its path |
| Engine.SanitizeCommentLineText | engine/engine.go:64-67 | a comment line keeps its length and every character except newlines, and holds no newline |
| EngineUtils.TerIf | engine/utils.go:28-33 | picks the first value when the condition holds and the second otherwise |
| EngineUtils.TerIfNil | engine/utils.go:35-40 | a present value is kept, an absent one is replaced by the fallback |
| EngineUtils.StringInSlice | engine/utils.go:68-75 | the loop answers true exactly when the string is in the list |
| EngineUtils.RemoveNewLines | engine/utils.go:77-79 | every newline becomes a space and every other character is kept |
| EngineUtils.ToUpperFirstLetter | engine/utils.go:85-90 | only the first character is upper-cased and the length is kept |
| EngineUtils.TrimItemsSpace | engine/utils.go:104-110 | each item is trimmed, in place and in order |
| EngineUtils.BuildLogText | engine/utils.go:92-94 | the log text opens with the separator line, the title and the description |
| EngineUtils.AddLeadingSlash | engine/utils.go:112-121 | the empty path stays empty; any other path starts with exactly the one slash it had or was given |
| EngineUtils.AddLeadingSlashIdempotent | engine/utils.go:112-121 | adding the leading slash twice is the same as once |
| EngineUtils.FindAllDirectoriesInPath | engine/utils.go:43-66 | an unreadable tree reports its error and no directories; otherwise the walk lists the directories of `DirsIn`, depth first |
| EngineUtils.DirsInBelowAndNotIgnored | engine/utils.go:48-60 | every directory found lies strictly below the root and its name is not ignored |
| ApiTypes.OpenAPIFormats | engine/apiTypes.go:4-42 | each Go type maps to one of six formats: 32-bit ints and their slices to int32, 64-bit to int64, objects to object, anything unknown to string |
| ApiTypes.OpenAPITypes | engine/apiTypes.go:44-81 | a Go type is an array exactly when it is a slice, an integer exactly for the four integer types, an object exactly when it is neither primitive nor slice |
| ApiTypes.SliceFormatIsElementFormat | engine/apiTypes.go:20-33 | a slice of a primitive has its element's format |
| ApiTypes.PrimitiveTypes | engine/apiTypes.go:16-19 | float64, bool and string map to number/double, boolean/boolean and string/string |
| Text.Atoi | schemas.go:107-110 | a tag limit that is not a signed decimal number counts as 0, and one outside the int64 range is clamped, as `strconv.Atoi` with its error ignored leaves it |
| CommentNames.FirstCapture | schemas.go:48-63 | the name of a comment group is the first capture among its sanitised lines, and there is none only when no line matches |
| CommentNames.ExtractNamesFromComments | schemas.go:22-75 | the loop over comment groups computes `NamesFromComments`: one name per matching group, an error when none matches |
| CommentNames.FirstCaptureIn | schemas.go:48-63 | the inner loop stops at the first matching line |
| CommentNames.AtMostOneNamePerGroup | schemas.go:40-65 | no group contributes more than one name |
| CommentNames.NoNamesIffNoMatch | schemas.go:67-70 | the name list is empty exactly when no line of any group matches |
| Schemas.PropertyName | schemas.go:96-98 | a property name never carries a `,`-option unless it is the field's own name |
| Schemas.PropertyFor | schemas.go:100-165 | the property per field-type shape: no property for an array, selector or index without a reference; a reference clears every other attribute; an outside identifier gets the type tables and the tag's limits; an array with a reference becomes an array of that reference |
| Schemas.FieldProperty | schemas.go:81-94 | untagged and `ignored` fields yield no property |
| Schemas.MapSchemaFieldsToSchemaDict | schemas.go:78-188 | only the named schema changes: its properties gain the fields' properties and its required list gains the required fields' property names (the corrected required list; see Findings) |
| Schemas.WriteProperties | schemas.go:79-166 | the field loop adds each field's property to the schema, later fields overwriting earlier ones |
| Schemas.AppendRequired | schemas.go:169-187 | the required loop appends the property name of each required field (corrected form; see Findings) |
| Schemas.FieldToProperty | schemas.go:81-165 | the per-field body computes `FieldProperty` |
| Schemas.LastFieldWins | schemas.go:152-165 | when two fields yield the same property name, the last one's property is kept |
| Schemas.PropertyKeys | schemas.go:79-166 | a property exists exactly when it was there before or some field yields that name |
| Schemas.RequiredListsEveryRequiredField | schemas.go:169-186 | every field tagged `required` appears in the required list as written |
| Schemas.RequiredFieldsAreNotIgnored | engine/engine.go:39-43 | a required field is never also ignored, so the required loop never lists a skipped field |
| Schemas.SchemasOfDecls | schemas.go:212-240 | a file contributes schemas only under names its comments declare |
| Schemas.ExtractSchemasDictFromFile | schemas.go:190-243 | the loop over declarations computes `FileSchemas`, including the parse and comment errors |
| Schemas.AddStructSchema | schemas.go:226-235 | a declared struct gets an object schema built from its fields, with the corrected required list (see Findings) |
| Schemas.ExtractSchemasFromDirectory | schemas.go:245-300 | the loop over a directory's files computes `DirectorySchemas`, skipping ignored files and files that fail to parse; only an unreadable directory is an error |
| Schemas.EarlierFileWins | schemas.go:270-289 | within a directory, a schema name keeps the definition from the first file that declares it |
| Schemas.RequiredNameMismatch | schemas.go:176-177 | as written, a field `Foo` tagged `json:",omitempty"` and `required` is a property `Foo` but is listed as required under `""` |
| Schemas.IntendedRequiredNamesAreProperties | schemas.go:168-186 | with the required name taken from the property name, every required field names an existing property |
| Enums.EnumSchema | enums.go:97-99 | an enum schema has no type, format, properties or required list; its values are the fields' enum literals |
| Enums.MapEnumFieldsToSchemaDict | enums.go:74-100 | only the named entry changes, and it becomes the enum schema of the fields |
| Enums.OneValuePerContributingField | enums.go:76-95 | when every field has a tag and is not ignored, there is one value per field, in order, blank literals included |
| Enums.NoContributingFieldNoValues | enums.go:76-95 | fields that are all untagged or ignored give no values |
| Enums.EnumsOfDecls | enums.go:120-147 | a file contributes enums only under declared names, all without type or properties |
| Enums.WithEnumDecl | enums.go:128-143 | one declaration adds at most an enum under a declared name |
| Enums.ExtractEnumsDictFromFile | enums.go:102-150 | the loop over declarations computes `FileEnums` |
| Enums.AddEnumDecl | enums.go:134-142 | the per-declaration body computes `WithEnumDecl` |
| Enums.ExtractEnumsFromDirectory | enums.go:152-207 | the loop over a directory's files computes `DirectoryEnums` |
| Enums.DirectoryEnumsHaveNoType | enums.go:176-196 | every enum a directory yields has an empty type and no properties |
| PathRecords.DirectiveOf | paths.go:64-94 | each `@api…` keyword maps to its own directive and no other keyword does |
| PathRecords.ExtractLineRecord | paths.go:45-116 | the per-line body computes `LineRecord`: all matches on the line applied to an empty record |
| PathRecords.ExtractGroupRecords | paths.go:42-117 | the loop over a group's lines computes `LinesRecords` |
| PathRecords.ExtractPathsDataFromComments | paths.go:18-128 | the loop over comment groups computes `PathRecordsOf`, an error when no record is found |
| PathRecords.MatchesErrPersists | paths.go:56-113 | once applying matches fails, the remaining matches do not change the outcome |
| PathRecords.GroupsErrPersists | paths.go:38-118 | once a group fails, later groups do not change the outcome |
| PathRecords.LinesErrPersists | paths.go:42-117 | once a line fails, later lines do not change the outcome |
| PathRecords.OneRecordPerLine | paths.go:42-117 | every line of a group yields exactly one record, matched or not |
| PathRecords.RecordsNeverEmpty | paths.go:116-123 | any non-empty group yields records, so the "no paths" error cannot follow a successful scan of a non-empty file |
| PathRecords.MatchSetsScalar | paths.go:61-84 | a match sets exactly the scalar field its trimmed keyword names, to the trimmed value |
| PathRecords.CustomTouchesOnlyCustomMaps | paths.go:95-113 | a custom error clause changes only the custom reference and description maps |
| PathRecords.LastDirectiveWins | paths.go:56-94 | each scalar field holds the value of the last line that sets it |
| PathRecords.UnknownKeyChangesNothing | paths.go:64-113 | a keyword that is neither known nor custom leaves the record unchanged |
| PathRecords.SecurityDirective | paths.go:85-90 | `@apiSecurity name, s1, s2` records the scopes after the first item under the first item, keeping other schemes |
| PathRecords.CustomRefDirective | paths.go:95-103 | a per-status custom reference keyword records the trimmed value under the status code it names |
| Paths.ContentFor | paths.go:180-196 | a reference is written to all three media types |
| Paths.ParameterFor | paths.go:153-163 | a parameter takes the property's name, location and example, is required exactly when in the path, and carries either the reference or the type |
| Paths.ParametersOf | paths.go:149-165 | an unknown parameters schema gives no parameters, a known one gives one per property |
| Paths.ParametersDescribeProperties | paths.go:152-164 | each parameter describes a distinct property of the schema |
| Paths.EveryPropertyIsAParameter | paths.go:152-164 | every property of the schema becomes a parameter |
| Paths.BuildParameters | paths.go:149-165 | the loop over properties computes `ParametersOf` |
| Paths.SecurityOf | paths.go:251-255 | one security requirement per scheme named in the comments |
| Paths.SecurityFlowsAreSchemes | paths.go:251-255 | each security requirement is a single scheme with its scopes |
| Paths.EverySchemeIsRequired | paths.go:251-255 | every scheme named in the comments appears as a requirement |
| Paths.BuildSecurity | paths.go:251-255 | the loop over schemes computes `SecurityOf` |
| Paths.ErrorCodeSelection | paths.go:226-229 | an operation without listed codes takes every error response; a listed code is selected, and so is any substring of the joined list |
| Paths.ResponsesFor | paths.go:201-249 | an operation's responses: the success code when a response reference is given, and the selected error responses when any are registered; when error responses are registered, a custom reference rewrites any code already present (the success code included), with its custom or tabled description |
| Paths.AddErrorResponses | paths.go:224-231 | the loop over registered error responses adds exactly the selected ones |
| Paths.ApplyCustomErrorRefs | paths.go:234-248 | the custom-reference loop rewrites exactly the codes already present that have a custom reference |
| Paths.BuildResponses | paths.go:201-249 | the response-building steps compute `ResponsesFor` |
| Paths.OperationFor | paths.go:167-257 | an operation's id, tags, deprecation, texts, request body (present exactly with a request reference), parameters, responses and security, each from the comment record |
| Paths.BuildOperation | paths.go:149-257 | the per-record body computes `OperationFor` |
| Paths.PlaceOperation | paths.go:261-267 | the operation goes into the slot of its upper-cased verb, every other slot is kept, and an unknown verb changes nothing |
| Paths.StoreRecord | paths.go:145-267 | one record updates the paths table as `AddRecord` says |
| Paths.ExtractPathsDictFromFile | paths.go:130-270 | the loop over a file's records computes `FilePaths` |
| Paths.AddRecordEffect | paths.go:145-267 | a record adds its own path only when it has one, changes no other path, and puts its operation into that path's slot |
| Paths.RecordsPathsKeys | paths.go:144-148 | a file's paths table holds exactly the non-empty paths its records declare |
| Paths.LastRecordWins | paths.go:144-267 | each method slot of a path holds the operation of the last record for that path and method, and is empty when there is none |
| Paths.SlotAfterRecord | paths.go:258-267 | after one record, a slot of its path holds the new operation when the verb matches and otherwise keeps its previous value |
| Paths.ExtractPathsFromDirectory | paths.go:272-327 | the loop over a directory's files computes `DirectoryPaths` |
| Paths.FirstFileOwnsPath | paths.go:297-316 | within a directory, a path keeps all its methods from the first file that declares it |
| Aggregation.AggregateFails | schemas.go:350-358 | the fold fails exactly when some worker failed, and then with the first failure it meets |
| Aggregation.AggregateKeepsAcc | schemas.go:361 | a successful fold keeps every entry already in the registry |
| Aggregation.AggregateKeys | schemas.go:350-365 | a successful fold holds exactly the registry's keys and the keys of every worker's result |
| Aggregation.AggregateEarliestWins | schemas.go:361 | a new key takes its value from the first worker result, in fold order, that has it |
| Aggregation.OrderIndependentOutcome | schemas.go:341-365 | for any order of the workers, whether the fold fails, the entries already present and the final key set are the same |
| Aggregation.CollectResults | schemas.go:350-365 | the collector folds the results in some order of its choosing; on success that order takes each worker once, and a failure is one of the workers' errors |
| MapOrder.KeysOfLists | validator/utils.go:43-49 | with a valid iteration order, the key listing is that order, each key once |
| ValidatorUtils.FirstRepeatedFrom | validator/utils.go:17-33 | the first value, from a position on, that occurs twice in the whole slice |
| ValidatorUtils.DuplicatesIffNotDistinct | validator/utils.go:14-36 | a duplicate is reported exactly when the slice is not distinct, and at most one value is reported |
| ValidatorUtils.HasSliceDuplicateString | validator/utils.go:14-36 | the counting loop computes `Duplicates` |
| ValidatorUtils.GetMapKeys | validator/utils.go:43-49 | the keys are listed once each, every key of the map and nothing else |
| ValidatorFindings.RefForms | validator/checkAllRefsExistsInSchema.go:27-36 | a reference resolves, bare or with the schema prefix, exactly when the schema exists |
| ValidatorFindings.BarePrefixRef | validator/checkAllRefsExistsInSchema.go:27-36 | the bare prefix `#/components/schemas/` resolves only to a schema named `""` |
| ValidatorFindings.ResponsesFindingsIff | validator/checkAllRefsExistsInSchema.go:10-25 | the response check reports nothing exactly when every response reference resolves |
| ValidatorFindings.OperationFindingsIff | validator/checkAllRefsExistsInSchema.go:41-93 | the check of one operation reports nothing exactly when its request-body JSON reference and each response's form and JSON references resolve; parameter references are not checked |
| ValidatorFindings.SlotFindingsIff | validator/checkAllRefsExistsInSchema.go:41-93 | an empty slot reports nothing; a filled one as its operation |
| ValidatorFindings.PathFindingsIff | validator/checkAllRefsExistsInSchema.go:40-95 | a path reports nothing exactly when all five of its operations resolve |
| ValidatorFindings.PathsRefFindingsIff | validator/checkAllRefsExistsInSchema.go:40-96 | the path loop reports nothing exactly when every path resolves |
| ValidatorFindings.PropertiesFindingsIff | validator/checkAllRefsExistsInSchema.go:101-114 | the property loop reports nothing exactly when every property reference resolves |
| ValidatorFindings.SchemasRefFindingsIff | validator/checkAllRefsExistsInSchema.go:99-116 | the schema loop reports nothing exactly when every schema's properties resolve |
| ValidatorFindings.RefCheckIff | validator/checkAllRefsExistsInSchema.go:38-118 | the reference check reports nothing exactly when every reference the check visits resolves: request-body JSON, response form and JSON, schema properties |
| ValidatorFindings.OperationIds | validator/checkDuplicateOperationIDs.go:6-15 | the ids are the captures of the leading well-formed matches, stopping at the first malformed one |
| ValidatorFindings.OperationIdFindingsIff | validator/checkDuplicateOperationIDs.go:16-20 | a finding exactly when the ids are not distinct, at most one, naming the first id that repeats |
| ValidatorFindings.OnlyConversionErrors | validator/checkDuplicateSchemaPropertyNames.go:6-20 | the check reports only the errors of converting schemas; its duplicate test cannot fire on map keys |
| ValidatorFindings.SlashFindings | validator/checkParamStartWithForeSlash.go:6-10 | nothing is reported exactly when every path starts with `/` |
| ValidatorFindings.SlashFindingPerPath | validator/checkParamStartWithForeSlash.go:6-10 | every path without a leading slash is reported |
| ValidatorFindings.GetParamFindingIff | validator/checkUniqueGetParameters.go:7-23 | a path reports at most once, and only when its GET parameter names repeat |
| ValidatorFindings.GetParamsFindingsIff | validator/checkUniqueGetParameters.go:6-25 | nothing is reported exactly when every GET operation's parameter names are distinct |
| ValidatorFindings.AddPathMethodsEffect | validator/checkUniquePathInParameters.go:8-22 | a path is appended under each method whose slot it fills |
| ValidatorFindings.MethodPathsAreCarriers | validator/checkUniquePathInParameters.go:7-23 | a method lists exactly, in order, the paths that carry it |
| ValidatorFindings.CarriersDistinct | validator/checkUniquePathInParameters.go:7-23 | distinct paths give distinct lists |
| ValidatorFindings.MethodFindingsNone | validator/checkUniquePathInParameters.go:24-32 | lists without repeats give no findings |
| ValidatorFindings.NoDuplicatedPaths | validator/checkUniquePathInParameters.go:5-34 | map keys are distinct, so this check never reports |
| ValidatorFindings.ValidateRawFindings | validator/validator.go:49-60 | with the text field unset, the six checks reduce to the reference, conversion, slash and GET-parameter findings: the operation-id and duplicate-path checks cannot report |
| Validator.OpenApiValidator.constructor | validator/validator.go:49-51 | a new validator holds the document and no errors |
| Validator.OpenApiValidator.BuildError | validator/utils.go:10-12 | one message is appended and nothing else changes |
| Validator.OpenApiValidator.ReportEach | validator/checkDuplicateOperationIDs.go:18-20 | one message is appended per value, in order |
| Validator.OpenApiValidator.IsRefExistsInSchema | validator/checkAllRefsExistsInSchema.go:27-36 | the answer is true exactly when the reference resolves |
| Validator.OpenApiValidator.CheckRef | validator/checkAllRefsExistsInSchema.go:18-23 | one unresolved reference appends its finding |
| Validator.OpenApiValidator.CheckResponseRefs | validator/checkAllRefsExistsInSchema.go:11-24 | one response's two checked references, the form-urlencoded one and then the JSON one, each add a finding exactly when it does not resolve |
| Validator.OpenApiValidator.CheckResponseRefExistsInSchema | validator/checkAllRefsExistsInSchema.go:10-25 | the loop appends the response findings |
| Validator.OpenApiValidator.CheckOperationRefs | validator/checkAllRefsExistsInSchema.go:41-93 | appends one operation's findings |
| Validator.OpenApiValidator.CheckSlotRefs | validator/checkAllRefsExistsInSchema.go:41-93 | appends one slot's findings |
| Validator.OpenApiValidator.CheckPathOperationsRefs | validator/checkAllRefsExistsInSchema.go:40-95 | appends the findings of one path's five slots |
| Validator.OpenApiValidator.CheckPathRefs | validator/checkAllRefsExistsInSchema.go:40-96 | the path loop appends every path's findings |
| Validator.OpenApiValidator.CheckPropertyRefs | validator/checkAllRefsExistsInSchema.go:102-113 | appends one property's finding |
| Validator.OpenApiValidator.CheckPropertiesRefs | validator/checkAllRefsExistsInSchema.go:101-114 | the property loop appends each property's finding |
| Validator.OpenApiValidator.CheckSchemaPropertyRefs | validator/checkAllRefsExistsInSchema.go:100-115 | appends one schema's findings |
| Validator.OpenApiValidator.CheckSchemaRefs | validator/checkAllRefsExistsInSchema.go:99-116 | the schema loop appends every schema's findings |
| Validator.OpenApiValidator.CheckAllRefsExistsInSchema | validator/checkAllRefsExistsInSchema.go:38-118 | appends the reference-check findings, empty exactly when every reference the check visits resolves (request-body JSON, response form and JSON, schema properties) |
| Validator.OpenApiValidator.CheckDuplicateOperationIDs | validator/checkDuplicateOperationIDs.go:5-22 | records the ids, sets the flag exactly when they repeat, and appends the duplicate findings |
| Validator.OpenApiValidator.CheckDuplicateSchemaPropertyNames | validator/checkDuplicateSchemaPropertyNames.go:5-22 | appends the property-name findings of every schema |
| Validator.OpenApiValidator.CheckSchemasPropertyNames | validator/checkDuplicateSchemaPropertyNames.go:6-20 | the schema loop appends each schema's findings |
| Validator.OpenApiValidator.CheckSchemaPropertyNames | validator/checkDuplicateSchemaPropertyNames.go:7-19 | appends one schema's conversion or duplicate finding |
| Validator.OpenApiValidator.CheckParamStartWithForeSlash | validator/checkParamStartWithForeSlash.go:5-12 | appends a finding for each path without a leading slash |
| Validator.OpenApiValidator.CheckPathsSlash | validator/checkParamStartWithForeSlash.go:6-10 | the path loop appends the slash findings |
| Validator.OpenApiValidator.CheckPathSlash | validator/checkParamStartWithForeSlash.go:7-9 | appends one path's slash finding |
| Validator.OpenApiValidator.CheckUniqueGetParameters | validator/checkUniqueGetParameters.go:5-26 | appends a finding for each path whose GET parameter names repeat |
| Validator.OpenApiValidator.CheckPathsGetParameters | validator/checkUniqueGetParameters.go:6-24 | the path loop appends the GET-parameter findings |
| Validator.OpenApiValidator.CheckPathGetParameters | validator/checkUniqueGetParameters.go:7-23 | appends one path's GET-parameter finding |
| Validator.OpenApiValidator.CheckUniquePathInParameters | validator/checkUniquePathInParameters.go:5-34 | appends a finding for each method whose path list repeats |
| Validator.OpenApiValidator.CheckMethodPaths | validator/checkUniquePathInParameters.go:25-31 | appends one method's finding |
| Validator.CollectParameterNames | validator/checkUniqueGetParameters.go:13-16 | the loop collects the parameter names in order |
| Validator.CollectMethodPaths | validator/checkUniquePathInParameters.go:6-23 | the loop computes `MethodPathsOf`, the carrier paths per method |
| Validator.ValidateRaw | validator/validator.go:40-66 | a decoding error is the one error; otherwise no result when the checks find nothing and the findings when they do |
| Validator.ErrorText | validator/validator.go:14-24 | the error text is the encoding of the messages, or the encoder's error |
| Builder.InitOf | openengine.go:81-84 | the first initial value given, or an empty one |
| Builder.OrDefault | openengine.go:87-98 | a given non-empty field is kept, an empty one takes the default |
| Builder.InfoFor | openengine.go:86-99 | each info field is the given value or its default, and the contact URL is always empty |
| Builder.ExternalDocsFor | openengine.go:101-104 | each external-docs field is the given value or its default |
| Builder.ContactUrlIgnored | openengine.go:91-94 | the given contact URL has no effect |
| Builder.InfoForIdempotent | openengine.go:86-99 | defaulting twice is defaulting once |
| Builder.CompleteInfoKept | openengine.go:86-99 | complete info without a contact URL passes through unchanged |
| Builder.NewState | openengine.go:106-120 | a new engine has no error, no output, no error responses, tags, servers, paths or components, the default file name and ignored directories, and the defaulted info |
| Builder.OpenEngine.NewPackage | openengine.go:80-121 | the constructed engine is `NewState` of the first initial value |
| Builder.OpenEngine.SetFileName | openengine.go:123-128 | a non-empty name replaces the file name, and an empty one changes nothing |
| Builder.OpenEngine.AddIgnoredPaths | openengine.go:130-133 | the directories are appended to the ignored list |
| Builder.DefaultRef | errors.go:16-21 | a default reference exists exactly when a non-empty first one is given, and it then carries the schema prefix |
| Builder.NormalizedRef | errors.go:24-33 | an empty reference takes the default, a given one gets the schema prefix |
| Builder.NormalizeResponse | errors.go:23-35 | the JSON and form references are normalised; the description and the multipart reference are kept |
| Builder.NormalizedResponses | errors.go:23-35 | the same status codes, each response normalised |
| Builder.NormalizeErrorResponses | errors.go:23-35 | the loop computes `NormalizedResponses` |
| Builder.OpenEngine.AddErrorResponses | errors.go:10-39 | after paths are parsed, only the error is set; before, the normalised responses are merged with existing ones winning |
| Builder.FilteredCodes | errors.go:53-59 | the filter keeps table entries unchanged |
| Builder.FilteredCodesKeys | errors.go:53-59 | a status code survives exactly when it is in the table and its number is listed |
| Builder.DefaultErrorsFor | errors.go:61-66 | the default errors are table entries, unchanged |
| Builder.DefaultErrorsSelection | errors.go:53-66 | a code is kept exactly when it is in the table and either it is listed or no listed code is in the table |
| Builder.FilterCodes | errors.go:53-59 | the loop computes `FilteredCodes` |
| Builder.OpenEngine.AddDefaultErrors | errors.go:41-69 | after paths, or after custom error responses, only the error is set; otherwise the error responses become the selected defaults |
| Builder.ApprovedNames | tags.go:31-39 | approved names are given names, not ignored, at most as many |
| Builder.ApprovedNamesComplete | tags.go:31-39 | every name that is not ignored is approved |
| Builder.ApprovedNamesAppend | tags.go:31-39 | approval distributes over concatenation |
| Builder.NothingIgnoredKeepsAll | tags.go:31-39 | with no ignored names, every name is approved, in order |
| Builder.IgnoredDirsAsWritten | tags.go:30 | as written, with no ignore list the expression panics, modelled as no value |
| Builder.ParseTagsWithoutIgnoreList | tags.go:30-48 | with no ignore list the code panics, where the intended result is one tag per directory name |
| Builder.TagsOf | tags.go:41-46 | one tag per name, in order |
| Builder.ApproveTags | tags.go:31-39 | the loop computes `ApprovedNames` |
| Builder.BuildTags | tags.go:41-46 | the loop computes `TagsOf` |
| Builder.OpenEngine.AddTag | tags.go:9-12 | the tag is appended and nothing else changes |
| Builder.OpenEngine.ParseTags | tags.go:14-50 | an empty path, a listing error or no directory sets the error; otherwise the tags become one per approved directory name |
| Builder.FlatSchemesLookup | securites.go:5-21 | the flattened schemes hold every scheme of the four kinds, with OpenID over OAuth2 over HTTP over API key on a name collision |
| Builder.PutAll | securites.go:7-19 | the copy loop overwrites the target with every entry of the source |
| Builder.FlatSecuritySchemes | securites.go:5-21 | the four copy loops compute `FlatSchemes` |
| Builder.OpenEngine.AddSecuritySchemes | securites.go:23-26 | the security schemes are replaced by the flattened ones |
| Builder.OpenEngine.AddSchemas | schemas.go:302-305 | the given schemas are merged with existing ones winning |
| Builder.OpenEngine.AddEnums | enums.go:209-212 | the given enums are merged with existing schemas winning |
| Builder.OpenEngine.AddPaths | paths.go:329-332 | the given paths are merged with existing ones winning |
| Builder.IgnoredOf | schemas.go:317-320 | the first ignore list given, or none |
| Builder.ExtractSchemaDirs | schemas.go:341-347 | one result per directory, each that directory's schemas |
| Builder.ExtractEnumDirs | enums.go:247-253 | one result per directory, each that directory's enums |
| Builder.ExtractPathDirs | paths.go:373-379 | one result per directory, each that directory's paths |
| Builder.OpenEngine.ParseSchemas | schemas.go:307-370 | an unreadable tree sets the error; otherwise the directory results are folded onto the existing schemas in the order taken, and a failure sets the error instead (schemas carry the corrected required list; see Findings) |
| Builder.OpenEngine.ParseEnums | enums.go:214-276 | as `ParseSchemas`, but folded onto an empty registry that then replaces the schemas |
| Builder.OpenEngine.ParsePaths | paths.go:334-403 | without schemas only the error is set; otherwise the directory results fold into a path table that replaces the paths |
| Builder.ProvidedPath | openengine.go:136-139 | the export path is the file name, joined to the first destination when one is given |
| Builder.OpenEngine.Generate | openengine.go:135-170 | a set error is returned unchanged; a marshal or export error is stored and returned; otherwise the YAML becomes the raw result, whatever validation finds |

## Findings

| source | as written | input that shows it | evidently intended | confidence | as-written member | corrected member |
|---|---|---|---|---|---|---|
| schemas.go:176-177 | the required list takes the name before the first comma of the `json` tag, while the property name (schemas.go:96-98) falls back to the field name when that part is empty | field `Foo` tagged `json:",omitempty" openapi:"required"` | the required list holds the property name `Foo` | not executed | Schemas.RequiredNameMismatch | Schemas.AppendRequired, used by Schemas.MapSchemaFieldsToSchemaDict and Schemas.AddStructSchema, with the property proved in Schemas.IntendedRequiredNamesAreProperties |
| tags.go:30 | `TerIf(len(allIgnoredDirs) == 0, []string{}, allIgnoredDirs[0])` evaluates `allIgnoredDirs[0]` before the call, so it panics when no ignore list is given | `ParseTags("models")` with no ignore list, on a directory that has subdirectories | no ignore list means nothing is ignored | not executed | Builder.ParseTagsWithoutIgnoreList | Builder.OpenEngine.ParseTags |

## Left out

- The goroutines, `sync.WaitGroup`, channels and mutex of the directory walk.
  They are modelled as a fold over the per-directory results in an order the
  collector chooses, returned as a ghost value.
- Regular expressions and the Go parser (`go/parser`, `go/ast`).
  - Declaration names, `@api…` matches and operation-id matches are
    functions in a `Patterns` record.
  - Parsed files are a sequence of declarations whose field types are
    already classified (identifier declared in the file or not, array,
    selector, index, other).
- File-system access (`os.ReadDir`, `filepath.Walk`) is a `Listing` tree given
  as input.
- `ExtractDirNames` is not part of this model. `ParseTags` takes its result
  as an input.
- Serialisation is abstract: YAML marshalling, exporting, `path.Join`, JSON
  encoding of validator errors, and the YAML/JSON round trip of
  `ToMapStringInterface` (the validator's `Converter`).
- `ValidateFile`, which reads a file before calling `ValidateRaw`, is not part
  of this model. Neither are the Swagger UI handler and logging.
- The constant tables of `engine/variables.go` are a `Tables` parameter:
  response descriptions, REST actions and operations, ignored files. So is
  the default configuration of `openengine.go`.
- Go's map iteration order is an injected `KeyOrder`, assumed to list each
  key once (`IsKeyOrder`). Where that order shows in output (parameters,
  security requirements, findings), the contracts hold for any such order.
- Validator.OpenApiValidator.CheckParamStartWithForeSlash: requires that no
  path is `""`. The Go code indexes `path[0]` and panics there. The
  requirement is carried up to `ValidateRaw`.
- Text: `TrimSpace` and `ToUpper` are ASCII-only; Unicode white space and case
  mapping are not modelled.
- Servers: no method in the modelled files sets them, so they stay empty.
- Types: `Content` carries a `multipartFormData` slot because paths.go:191,
  215 and 246 assign `Content.MultipartFormData`; the `Content` record of
  engine/types.go:217-220 declares only the JSON and form-urlencoded slots.
- ValidatorFindings.RefsResolved: covers only the references the Go check
  visits. Parameter `$ref`s, multipart references and request-body form
  references are never checked (checkAllRefsExistsInSchema.go:11-93).
- Schemas.AppendRequired: appends the property name of each required field,
  the corrected form. The Go loop (schemas.go:173-177) appends the `json` name
  before its first comma whenever the `json` tag is non-empty, so it records
  `""` for `json:",omitempty"`. The as-written list is `Schemas.RequiredNames`,
  and `Schemas.RequiredNameMismatch` shows where the two differ.
- Schemas.MapSchemaFieldsToSchemaDict: computes the corrected required list of
  `Schemas.AppendRequired`, not the one the Go code records. It also does not
  capture the panic on a tagged embedded field (see `Sources.Field` below).
- Schemas.AddStructSchema: the struct's schema carries the corrected required
  list.
- Schemas.ExtractSchemasDictFromFile: the schemas of a file carry the
  corrected required list.
- Schemas.ExtractSchemasFromDirectory: the schemas of a directory carry the
  corrected required list.
- Builder.OpenEngine.ParseSchemas: the schemas it folds into the registry carry
  the corrected required list.
- Sources.Field: every struct field has exactly one name, so an embedded
  (anonymous) field cannot be represented. The Go code indexes
  `field.Names[0]` for every tagged field: at schemas.go:98 when the field is
  not ignored, and at schemas.go:174 in any case. A tagged embedded field
  therefore makes `mapSchemaFieldsToSchemaDict` panic, and the model does not
  capture that panic. Enum structs are unaffected, because enums.go:75-95
  never reads the name.
- Builder.OpenEngine.AddSchemas: the schemas are modelled as values, so
  aliasing is not captured. `engine.MergeMaps(p.Components.Schemas, d)`
  writes the existing entries into the caller's map `d`, and the registry
  then is that same map, so later changes the caller makes to `d` reach the
  engine. `AddSchemas(nil)` on a non-empty registry panics, because it
  assigns into a nil map. On an empty registry it leaves the registry nil.
- Builder.OpenEngine.AddEnums: modelled as values; the same aliasing and
  nil-map panic as `AddSchemas` (enums.go:210) are not captured.
- Builder.OpenEngine.AddPaths: modelled as values; the same aliasing and
  nil-map panic as `AddSchemas` (paths.go:330) are not captured.
