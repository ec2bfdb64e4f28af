/**
 * The builder of openengine.go, errors.go, tags.go and securites.go, with the Add and Parse
 * methods of schemas.go, enums.go and paths.go: an engine object whose fields the chained
 * calls replace or merge into, and whose `err` only Generate consults.
 */
module Builder {

  import opened Wrappers
  import opened Text
  import opened Types
  import opened Sources
  import opened EngineUtils
  import opened Engine
  import opened MapOrder
  import opened Aggregation
  import opened SeqFacts
  import Schemas
  import Enums
  import Paths

  const PathsParsedMessage :=
    BuildLogText("AddErrorResponses", "Paths already parsed. please add error responses before parsing paths")
  const CustomErrorsMessage :=
    BuildLogText("AddErrorResponses",
                 "Custom error responses already provided. please enable default error responses before adding your own ErrorResponsesDict")
  const NoTagPathMessage := "path is not set to parse tags from subdirectories"
  const NoTagsMessage := "no tags found in path"
  const NoSchemasMessage := "parse your schemas first"

  /** The values of the engine package's constants that the builder reads. */
  datatype Defaults = Defaults(
    info: Info,                   // TITLE, DESCRIPTION, VERSION, TERMS_OF_SERVICE, CONTACT_*, LICENSE_*
    externalDocs: ExternalDocs,   // EXTERNAL_DOCS_DESCRIPTION, EXTERNAL_DOCS_URL
    fileName: string,             // DEFAULT_FILE_NAME
    ignoredDirectories: seq<string>, // IgnoredDirectories
    openApiVersion: string,       // OPEN_API_VERSION
    errorResponses: Responses)    // constants.DefaultErrorResponses, keyed by the decimal code

  /** What NewPackage accepts. */
  datatype Init = Init(info: Info, externalDocs: ExternalDocs)

  const EmptyInit := Init(Info("", "", "", "", Contact("", "", ""), License("", "")), ExternalDocs("", ""))

  /** The variadic argument of NewPackage: its first value, or the zero value. */
  function InitOf(data: seq<Init>): (r: Init)
    ensures |data| > 0 ==> r == data[0]
    ensures |data| == 0 ==> r == EmptyInit
  {
    if |data| > 0 then data[0] else EmptyInit
  }

  /** The part of the engine that yaml.Marshal serialises. */
  datatype Spec = Spec(
    openApi: string,
    info: Info,
    externalDocs: ExternalDocs,
    servers: seq<ApiServer>,
    tags: seq<Tag>,
    paths: PathsDict,
    components: Components)

  /** The whole state of an engine. */
  datatype EngineState = EngineState(
    err: Option<string>,
    rawResult: string,
    fileName: string,
    generalIgnoredPaths: seq<string>,
    errorResponses: Responses,
    spec: Spec)

  /** The calls Generate makes into code outside the model: marshalling, validation, path.Join, export. */
  datatype Io = Io(
    marshal: Spec -> Result<string>,
    validate: string -> Option<string>,
    join: (string, string) -> string,
    exportDocs: (string, string) -> Option<string>)

  // ---------------------------------------------------------------------------------------
  // NewPackage defaulting
  // ---------------------------------------------------------------------------------------

  /** TerIf(given == "", default, given). */
  function OrDefault(given: string, default: string): (r: string)
    ensures given != "" ==> r == given
    ensures given == "" ==> r == default
  {
    TerIf(given == "", default, given)
  }

  /** The Info of a new engine: each given field, or its default when empty; Contact.Url is not copied. */
  function InfoFor(given: Info, default: Info): (r: Info)
    ensures r.contact.url == ""
    ensures r.title == OrDefault(given.title, default.title)
    ensures r.description == OrDefault(given.description, default.description)
    ensures r.version == OrDefault(given.version, default.version)
    ensures r.termsOfService == OrDefault(given.termsOfService, default.termsOfService)
    ensures r.contact.name == OrDefault(given.contact.name, default.contact.name)
    ensures r.contact.email == OrDefault(given.contact.email, default.contact.email)
    ensures r.license == License(OrDefault(given.license.name, default.license.name),
                                 OrDefault(given.license.url, default.license.url))
  {
    Info(
      OrDefault(given.title, default.title),
      OrDefault(given.description, default.description),
      OrDefault(given.version, default.version),
      OrDefault(given.termsOfService, default.termsOfService),
      Contact(OrDefault(given.contact.name, default.contact.name), "",
              OrDefault(given.contact.email, default.contact.email)),
      License(OrDefault(given.license.name, default.license.name),
              OrDefault(given.license.url, default.license.url)))
  }

  /** The ExternalDocs of a new engine: each given field, or its default when empty. */
  function ExternalDocsFor(given: ExternalDocs, default: ExternalDocs): (r: ExternalDocs)
    ensures r.description == OrDefault(given.description, default.description)
    ensures r.url == OrDefault(given.url, default.url)
  {
    ExternalDocs(OrDefault(given.description, default.description), OrDefault(given.url, default.url))
  }

  /** Whatever Contact.Url the caller gives, the engine's Info is the same. */
  lemma ContactUrlIgnored(given: Info, url: string, default: Info)
    ensures InfoFor(given.(contact := given.contact.(url := url)), default) == InfoFor(given, default)
  {
  }

  /** Defaulting twice changes nothing more. */
  lemma InfoForIdempotent(given: Info, default: Info)
    ensures InfoFor(InfoFor(given, default), default) == InfoFor(given, default)
  {
  }

  /** An Info with every field set and no contact url is kept as given. */
  lemma CompleteInfoKept(given: Info, default: Info)
    requires given.title != "" && given.description != "" && given.version != "" && given.termsOfService != ""
    requires given.contact.name != "" && given.contact.email != "" && given.contact.url == ""
    requires given.license.name != "" && given.license.url != ""
    ensures InfoFor(given, default) == given
  {
  }

  /** The state NewPackage builds. */
  function NewState(init: Init, defaults: Defaults): (s: EngineState)
    ensures s.err == None && s.rawResult == "" && s.errorResponses == map[]
    ensures s.spec.tags == [] && s.spec.servers == [] && s.spec.paths == map[]
    ensures s.spec.components == Components(map[], map[], map[])
    ensures s.fileName == defaults.fileName && s.generalIgnoredPaths == defaults.ignoredDirectories
    ensures s.spec.info == InfoFor(init.info, defaults.info)
    ensures s.spec.externalDocs == ExternalDocsFor(init.externalDocs, defaults.externalDocs)
  {
    EngineState(None, "", defaults.fileName, defaults.ignoredDirectories, map[],
                Spec(defaults.openApiVersion, InfoFor(init.info, defaults.info),
                     ExternalDocsFor(init.externalDocs, defaults.externalDocs),
                     [], [], map[], Components(map[], map[], map[])))
  }

  // ---------------------------------------------------------------------------------------
  // Error responses
  // ---------------------------------------------------------------------------------------

  /** The default reference: the prefixed first extra argument when it is given and non-empty. */
  function DefaultRef(refs: seq<string>): (r: string)
    ensures r != "" <==> |refs| > 0 && refs[0] != ""
    ensures r != "" ==> r == SchemaRefPrefix + refs[0]
  {
    if |refs| > 0 then TerIf(refs[0] != "", SchemaRefPrefix + refs[0], "") else ""
  }

  /** The rewrite of one content reference, as the guarded TerIf of AddErrorResponses writes it. */
  function NormalizedRef(ref: string, defaultRef: string): (r: string)
    ensures r == if ref == "" then defaultRef else SchemaRefPrefix + ref
  {
    if defaultRef != "" || ref != "" then TerIf(ref == "", defaultRef, SchemaRefPrefix + ref) else ref
  }

  /** A response with its JSON and form-urlencoded references rewritten; nothing else changes. */
  function NormalizeResponse(response: Response, defaultRef: string): (r: Response)
    ensures r.description == response.description
    ensures r.content.multipartFormData == response.content.multipartFormData
    ensures r.content.applicationJson.schemaRef == NormalizedRef(response.content.applicationJson.schemaRef, defaultRef)
    ensures r.content.formUrlencoded.schemaRef == NormalizedRef(response.content.formUrlencoded.schemaRef, defaultRef)
  {
    var c := response.content;
    response.(content := c.(
      applicationJson := MediaType(NormalizedRef(c.applicationJson.schemaRef, defaultRef)),
      formUrlencoded := MediaType(NormalizedRef(c.formUrlencoded.schemaRef, defaultRef))))
  }

  /** Every supplied response rewritten, under the same status code. */
  function NormalizedResponses(responses: Responses, defaultRef: string): (r: Responses)
    ensures r.Keys == responses.Keys
    ensures forall c :: c in r ==> r[c] == NormalizeResponse(responses[c], defaultRef)
  {
    map c | c in responses :: NormalizeResponse(responses[c], defaultRef)
  }

  /** The loop of AddErrorResponses over the supplied responses. */
  method NormalizeErrorResponses(responses: Responses, defaultRef: string) returns (normalized: Responses)
    ensures normalized == NormalizedResponses(responses, defaultRef)
  {
    normalized := map[];
    var todo := responses.Keys;
    while todo != {}
      invariant todo <= responses.Keys
      invariant normalized == map c | c in responses.Keys - todo :: NormalizeResponse(responses[c], defaultRef)
      decreases |todo|
    {
      var statusCode :| statusCode in todo;
      var response := responses[statusCode];
      var c := response.content;
      if defaultRef != "" || c.applicationJson.schemaRef != "" {
        c := c.(applicationJson := MediaType(TerIf(c.applicationJson.schemaRef == "", defaultRef,
                                                   SchemaRefPrefix + c.applicationJson.schemaRef)));
      }
      if defaultRef != "" || c.formUrlencoded.schemaRef != "" {
        c := c.(formUrlencoded := MediaType(TerIf(c.formUrlencoded.schemaRef == "", defaultRef,
                                                  SchemaRefPrefix + c.formUrlencoded.schemaRef)));
      }
      normalized := normalized[statusCode := response.(content := c)];
      todo := todo - {statusCode};
    }
  }

  /** The requested codes found in the default table, in argument order (fmt.Sprint of each code). */
  function FilteredCodes(table: Responses, codes: seq<int>): (r: Responses)
    ensures forall k :: k in r ==> k in table && r[k] == table[k]
    decreases |codes|
  {
    if |codes| == 0 then map[]
    else
      var before := FilteredCodes(table, codes[..|codes| - 1]);
      var key := Itoa(codes[|codes| - 1]);
      if key in table then before[key := table[key]] else before
  }

  /** A code is kept exactly when it is in the table and some argument prints as it. */
  lemma {:induction false} FilteredCodesKeys(table: Responses, codes: seq<int>, k: string)
    ensures k in FilteredCodes(table, codes) <==> k in table && exists i :: 0 <= i < |codes| && Itoa(codes[i]) == k
    decreases |codes|
  {
    if |codes| > 0 {
      FilteredCodesKeys(table, codes[..|codes| - 1], k);
      ExistsSnoc(codes, c => Itoa(c) == k);
    }
  }

  /** What AddDefaultErrors installs: the requested codes found in the table, or the whole table if none is. */
  function DefaultErrorsFor(table: Responses, codes: seq<int>): (r: Responses)
    ensures forall k :: k in r ==> k in table && r[k] == table[k]
  {
    var filtered := FilteredCodes(table, codes);
    if |filtered| != 0 then filtered else table
  }

  /** Whether no argument names a code of the table. */
  predicate NoneListed(table: Responses, codes: seq<int>) {
    forall i :: 0 <= i < |codes| ==> Itoa(codes[i]) !in table
  }

  /**
   * With no usable code the whole table is installed; otherwise exactly the requested codes
   * that the table has, and unknown codes are dropped.
   */
  lemma DefaultErrorsSelection(table: Responses, codes: seq<int>, k: string)
    ensures k in DefaultErrorsFor(table, codes) <==>
      k in table && (NoneListed(table, codes) || exists i :: 0 <= i < |codes| && Itoa(codes[i]) == k)
  {
    var filtered := FilteredCodes(table, codes);
    FilteredCodesKeys(table, codes, k);
    if !NoneListed(table, codes) {
      var i :| 0 <= i < |codes| && Itoa(codes[i]) in table;
      FilteredCodesKeys(table, codes, Itoa(codes[i]));
      assert Itoa(codes[i]) in filtered;
    } else if |filtered| != 0 {
      var key :| key in filtered;
      FilteredCodesKeys(table, codes, key);
      assert false;
    }
  }

  /** The loop of AddDefaultErrors over the requested codes. */
  method FilterCodes(table: Responses, codes: seq<int>) returns (filtered: Responses)
    ensures filtered == FilteredCodes(table, codes)
  {
    filtered := map[];
    var i := 0;
    while i < |codes|
      invariant 0 <= i <= |codes|
      invariant filtered == FilteredCodes(table, codes[..i])
    {
      assert codes[..i + 1][..i] == codes[..i];
      var key := Itoa(codes[i]);
      if key in table {
        filtered := filtered[key := table[key]];
      }
      i := i + 1;
    }
    assert codes[..i] == codes;
  }

  // ---------------------------------------------------------------------------------------
  // Tags
  // ---------------------------------------------------------------------------------------

  /** The names not in the ignore list, in order. */
  function ApprovedNames(names: seq<string>, ignored: seq<string>): (r: seq<string>)
    ensures |r| <= |names|
    ensures forall x :: x in r ==> x in names && x !in ignored
    decreases |names|
  {
    if |names| == 0 then []
    else
      var before := ApprovedNames(names[..|names| - 1], ignored);
      var name := names[|names| - 1];
      if name !in ignored then before + [name] else before
  }

  /** Every name not in the ignore list survives. */
  lemma {:induction false} ApprovedNamesComplete(names: seq<string>, ignored: seq<string>, x: string)
    requires x in names && x !in ignored
    ensures x in ApprovedNames(names, ignored)
    decreases |names|
  {
    if names[|names| - 1] != x {
      var front := names[..|names| - 1];
      assert x in front by {
        var i :| 0 <= i < |names| && names[i] == x;
        assert front[i] == x;
      }
      ApprovedNamesComplete(front, ignored, x);
    }
  }

  /** Filtering keeps order: the filter of a concatenation is the concatenation of the filters. */
  lemma {:induction false} ApprovedNamesAppend(a: seq<string>, b: seq<string>, ignored: seq<string>)
    ensures ApprovedNames(a + b, ignored) == ApprovedNames(a, ignored) + ApprovedNames(b, ignored)
    decreases |b|
  {
    if |b| == 0 {
      assert a + b == a;
    } else {
      var front := b[..|b| - 1];
      assert (a + b)[..|a + b| - 1] == a + front;
      ApprovedNamesAppend(a, front, ignored);
    }
  }

  /** With an empty ignore list nothing is dropped, so the length guard of ParseTags changes nothing. */
  lemma {:induction false} NothingIgnoredKeepsAll(names: seq<string>)
    ensures ApprovedNames(names, []) == names
    decreases |names|
  {
    if |names| > 0 {
      NothingIgnoredKeepsAll(names[..|names| - 1]);
    }
  }

  /**
   * The ignore list of ParseTags as written: Go evaluates every argument of TerIf before the
   * call, so the first list is indexed even when none is given. None stands for that panic.
   */
  function IgnoredDirsAsWritten(allIgnoredDirs: seq<seq<string>>): (r: Option<seq<string>>)
    ensures r.None? <==> |allIgnoredDirs| == 0
    ensures r.Some? ==> r.value == IgnoredOf(allIgnoredDirs)
  {
    if |allIgnoredDirs| == 0 then None
    else Some(TerIf(|allIgnoredDirs| == 0, [], allIgnoredDirs[0]))
  }

  /**
   * ParseTags called without an ignore list panics as written, where it evidently means to
   * turn every subdirectory name into a tag; the model takes the intended reading.
   */
  lemma ParseTagsWithoutIgnoreList(names: seq<string>)
    ensures IgnoredDirsAsWritten([]) == None
    ensures TagsOf(ApprovedNames(names, IgnoredOf([]))) == TagsOf(names)
  {
    NothingIgnoredKeepsAll(names);
  }

  /** One Tag per name, in order. */
  function TagsOf(names: seq<string>): (r: seq<Tag>)
    ensures |r| == |names| && forall i :: 0 <= i < |r| ==> r[i].name == names[i]
  {
    seq(|names|, i requires 0 <= i < |names| => Tag(names[i]))
  }

  /** The approval loop of ParseTags. */
  method ApproveTags(tagNames: seq<string>, ignoredDirs: seq<string>) returns (approved: seq<string>)
    ensures approved == ApprovedNames(tagNames, ignoredDirs)
  {
    approved := [];
    var i := 0;
    while i < |tagNames|
      invariant 0 <= i <= |tagNames|
      invariant approved == ApprovedNames(tagNames[..i], ignoredDirs)
    {
      assert tagNames[..i + 1][..i] == tagNames[..i];
      var ignored := StringInSlice(tagNames[i], ignoredDirs);
      if !ignored {
        approved := approved + [tagNames[i]];
      }
      i := i + 1;
    }
    assert tagNames[..i] == tagNames;
  }

  /** The loop of ParseTags that builds one Tag per name. */
  method BuildTags(tagNames: seq<string>) returns (tags: seq<Tag>)
    ensures tags == TagsOf(tagNames)
  {
    tags := [];
    var i := 0;
    while i < |tagNames|
      invariant 0 <= i <= |tagNames|
      invariant |tags| == i && forall k :: 0 <= k < i ==> tags[k] == Tag(tagNames[k])
    {
      tags := tags + [Tag(tagNames[i])];
      i := i + 1;
    }
  }

  // ---------------------------------------------------------------------------------------
  // Security schemes
  // ---------------------------------------------------------------------------------------

  function ApiKeySchemes(m: map<string, ApiKeySecurityScheme>): map<string, SecurityScheme> {
    map n | n in m :: ApiKeyScheme(m[n])
  }

  function HttpSchemes(m: map<string, HttpSecurityScheme>): map<string, SecurityScheme> {
    map n | n in m :: HttpScheme(m[n])
  }

  function OAuth2Schemes(m: map<string, OAuth2SecurityScheme>): map<string, SecurityScheme> {
    map n | n in m :: OAuth2Scheme(m[n])
  }

  function OpenIdSchemes(m: map<string, OpenIdSecurityScheme>): map<string, SecurityScheme> {
    map n | n in m :: OpenIdScheme(m[n])
  }

  /** The flattened registry: the four maps written in the order ApiKey, Http, OAuth2, OpenId. */
  function FlatSchemes(s: SecuritySchemesTypes): map<string, SecurityScheme> {
    ApiKeySchemes(s.apiKey) + HttpSchemes(s.http) + OAuth2Schemes(s.oauth2) + OpenIdSchemes(s.openId)
  }

  /**
   * A name is registered iff one of the four maps has it, and it holds the record of the
   * last map that has it: OpenId over OAuth2 over Http over ApiKey.
   */
  lemma FlatSchemesLookup(s: SecuritySchemesTypes, n: string)
    ensures n in FlatSchemes(s) <==> n in s.apiKey || n in s.http || n in s.oauth2 || n in s.openId
    ensures n in s.openId ==> FlatSchemes(s)[n] == OpenIdScheme(s.openId[n])
    ensures n in s.oauth2 && n !in s.openId ==> FlatSchemes(s)[n] == OAuth2Scheme(s.oauth2[n])
    ensures n in s.http && n !in s.oauth2 && n !in s.openId ==> FlatSchemes(s)[n] == HttpScheme(s.http[n])
    ensures n in s.apiKey && n !in s.http && n !in s.oauth2 && n !in s.openId ==>
              FlatSchemes(s)[n] == ApiKeyScheme(s.apiKey[n])
  {
  }

  /** `r` is `flat` with the entries of `m` under the keys `done` written over it. */
  ghost predicate WrittenOver<T>(r: map<string, T>, flat: map<string, T>, m: map<string, T>, done: set<string>) {
    && (forall n :: n in r <==> n in flat || n in done)
    && (forall n :: n in done && n in m ==> r[n] == m[n])
    && (forall n :: n in flat && n !in done ==> r[n] == flat[n])
  }

  /** Writing one more key of `m` keeps the relation, with that key moved to the written part. */
  lemma WrittenOverStep<T>(r: map<string, T>, flat: map<string, T>, m: map<string, T>, todo: set<string>, name: string)
    requires todo <= m.Keys && name in todo
    requires WrittenOver(r, flat, m, m.Keys - todo)
    ensures WrittenOver(r[name := m[name]], flat, m, m.Keys - (todo - {name}))
  {
    assert m.Keys - (todo - {name}) == (m.Keys - todo) + {name};
  }

  /** Once every key of `m` is written, `r` is the override of `flat` by `m`. */
  lemma WrittenOverAll<T>(r: map<string, T>, flat: map<string, T>, m: map<string, T>)
    requires WrittenOver(r, flat, m, m.Keys)
    ensures r == flat + m
  {
  }

  /** One loop of flatSecuritySchemes: every entry written into `flat`, overwriting. */
  method PutAll(flat: map<string, SecurityScheme>, m: map<string, SecurityScheme>) returns (r: map<string, SecurityScheme>)
    ensures r == flat + m
  {
    r := flat;
    var todo := m.Keys;
    while todo != {}
      invariant todo <= m.Keys
      invariant WrittenOver(r, flat, m, m.Keys - todo)
      decreases todo
    {
      var name :| name in todo;
      WrittenOverStep(r, flat, m, todo, name);
      r := r[name := m[name]];
      todo := todo - {name};
    }
    WrittenOverAll(r, flat, m);
  }

  /** flatSecuritySchemes: the four loops in order. */
  method FlatSecuritySchemes(s: SecuritySchemesTypes) returns (flat: map<string, SecurityScheme>)
    ensures flat == FlatSchemes(s)
  {
    flat := map[];
    flat := PutAll(flat, ApiKeySchemes(s.apiKey));
    flat := PutAll(flat, HttpSchemes(s.http));
    flat := PutAll(flat, OAuth2Schemes(s.oauth2));
    flat := PutAll(flat, OpenIdSchemes(s.openId));
    assert map[] + ApiKeySchemes(s.apiKey) == ApiKeySchemes(s.apiKey);
  }

  // ---------------------------------------------------------------------------------------
  // Directory folds
  // ---------------------------------------------------------------------------------------

  /** The first ignore list of the variadic argument, or none. */
  function IgnoredOf(allIgnoredPaths: seq<seq<string>>): (r: seq<string>)
    ensures |allIgnoredPaths| > 0 ==> r == allIgnoredPaths[0]
    ensures |allIgnoredPaths| == 0 ==> r == []
  {
    if |allIgnoredPaths| > 0 then allIgnoredPaths[0] else []
  }

  /** One schemas result per directory, as the goroutines send them. */
  function SchemaResults(pat: Patterns, tables: Tables, dirs: seq<DirUnit>): (r: seq<Result<SchemasDict>>)
    ensures |r| == |dirs| && forall i :: 0 <= i < |dirs| ==> r[i] == Schemas.DirectorySchemas(pat, tables, dirs[i])
  {
    seq(|dirs|, i requires 0 <= i < |dirs| => Schemas.DirectorySchemas(pat, tables, dirs[i]))
  }

  /** One enums result per directory. */
  function EnumResults(pat: Patterns, tables: Tables, dirs: seq<DirUnit>): (r: seq<Result<SchemasDict>>)
    ensures |r| == |dirs| && forall i :: 0 <= i < |dirs| ==> r[i] == Enums.DirectoryEnums(pat, tables, dirs[i])
  {
    seq(|dirs|, i requires 0 <= i < |dirs| => Enums.DirectoryEnums(pat, tables, dirs[i]))
  }

  /** One paths result per directory. */
  function PathResults(ctx: Paths.PathContext, pat: Patterns, dirs: seq<DirUnit>): (r: seq<Result<PathsDict>>)
    requires IsKeyOrder(ctx.order)
    ensures |r| == |dirs| && forall i :: 0 <= i < |dirs| ==> r[i] == Paths.DirectoryPaths(ctx, pat, dirs[i])
  {
    seq(|dirs|, i requires 0 <= i < |dirs| => Paths.DirectoryPaths(ctx, pat, dirs[i]))
  }

  /** The fan-out of ParseSchemas: one extraction per directory. */
  method ExtractSchemaDirs(pat: Patterns, tables: Tables, dirs: seq<DirUnit>) returns (results: seq<Result<SchemasDict>>)
    ensures results == SchemaResults(pat, tables, dirs)
  {
    results := [];
    var i := 0;
    while i < |dirs|
      invariant 0 <= i <= |dirs|
      invariant |results| == i && forall k :: 0 <= k < i ==> results[k] == Schemas.DirectorySchemas(pat, tables, dirs[k])
    {
      var r := Schemas.ExtractSchemasFromDirectory(pat, tables, dirs[i]);
      results := results + [r];
      i := i + 1;
    }
  }

  /** The fan-out of ParseEnums. */
  method ExtractEnumDirs(pat: Patterns, tables: Tables, dirs: seq<DirUnit>) returns (results: seq<Result<SchemasDict>>)
    ensures results == EnumResults(pat, tables, dirs)
  {
    results := [];
    var i := 0;
    while i < |dirs|
      invariant 0 <= i <= |dirs|
      invariant |results| == i && forall k :: 0 <= k < i ==> results[k] == Enums.DirectoryEnums(pat, tables, dirs[k])
    {
      var r := Enums.ExtractEnumsFromDirectory(pat, tables, dirs[i]);
      results := results + [r];
      i := i + 1;
    }
  }

  /** The fan-out of ParsePaths. */
  method ExtractPathDirs(ctx: Paths.PathContext, pat: Patterns, dirs: seq<DirUnit>) returns (results: seq<Result<PathsDict>>)
    requires IsKeyOrder(ctx.order)
    ensures results == PathResults(ctx, pat, dirs)
  {
    results := [];
    var i := 0;
    while i < |dirs|
      invariant 0 <= i <= |dirs|
      invariant |results| == i && forall k :: 0 <= k < i ==> results[k] == Paths.DirectoryPaths(ctx, pat, dirs[k])
    {
      var r := Paths.ExtractPathsFromDirectory(ctx, pat, dirs[i]);
      results := results + [r];
      i := i + 1;
    }
  }

  /** Where Generate writes: path.Join of the first destination and the file name, or the file name. */
  function ProvidedPath(dest: seq<string>, fileName: string, join: (string, string) -> string): (r: string)
    ensures |dest| == 0 ==> r == fileName
    ensures |dest| > 0 ==> r == join(dest[0], fileName)
  {
    if |dest| > 0 then join(dest[0], fileName) else fileName
  }

  /** Whether `order` takes indices below `n` only, so that Pick may use it. */
  predicate Within(order: seq<nat>, n: nat) {
    forall i :: 0 <= i < |order| ==> order[i] < n
  }

  // ---------------------------------------------------------------------------------------
  // The engine
  // ---------------------------------------------------------------------------------------

  class OpenEngine {
    /** The engine package's constants, regular expressions and map iteration order. */
    const defaults: Defaults
    const tables: Tables
    const pat: Patterns
    const order: KeyOrder

    var err: Option<string>
    var rawResult: string
    var fileName: string
    var generalIgnoredPaths: seq<string>
    var errorResponses: Responses
    var openApi: string
    var info: Info
    var externalDocs: ExternalDocs
    var servers: seq<ApiServer>
    var tags: seq<Tag>
    var paths: PathsDict
    var components: Components

    /** The serialised part of the engine. */
    function Snapshot(): Spec
      reads this
    {
      Spec(openApi, info, externalDocs, servers, tags, paths, components)
    }

    /** The whole state of the engine. */
    function State(): EngineState
      reads this
    {
      EngineState(err, rawResult, fileName, generalIgnoredPaths, errorResponses, Snapshot())
    }

    /** NewPackage: the given Info and ExternalDocs over the defaults, everything else empty. */
    constructor NewPackage(data: seq<Init>, defaults: Defaults, tables: Tables, pat: Patterns, order: KeyOrder)
      ensures State() == NewState(InitOf(data), defaults)
      ensures this.defaults == defaults && this.tables == tables && this.pat == pat && this.order == order
    {
      var init := InitOf(data);
      this.defaults := defaults;
      this.tables := tables;
      this.pat := pat;
      this.order := order;
      err := None;
      rawResult := "";
      fileName := defaults.fileName;
      generalIgnoredPaths := defaults.ignoredDirectories;
      errorResponses := map[];
      openApi := defaults.openApiVersion;
      info := InfoFor(init.info, defaults.info);
      externalDocs := ExternalDocsFor(init.externalDocs, defaults.externalDocs);
      servers := [];
      tags := [];
      paths := map[];
      components := Components(map[], map[], map[]);
    }

    /** SetFileName: an empty name changes nothing. */
    method SetFileName(name: string)
      modifies this
      ensures State() == old(State()).(fileName := if name == "" then old(fileName) else name)
    {
      if name != "" {
        fileName := name;
      }
    }

    /** AddIgnoredPaths: the directories appended in order. */
    method AddIgnoredPaths(dirs: seq<string>)
      modifies this
      ensures State() == old(State()).(generalIgnoredPaths := old(generalIgnoredPaths) + dirs)
    {
      generalIgnoredPaths := generalIgnoredPaths + dirs;
    }

    /**
     * AddErrorResponses: refused once paths exist; otherwise the normalised responses are
     * merged in, and an error response already registered keeps its entry.
     */
    method AddErrorResponses(responses: Responses, errorResponseRefs: seq<string>)
      modifies this
      ensures |old(paths)| != 0 ==> State() == old(State()).(err := Some(PathsParsedMessage))
      ensures |old(paths)| == 0 ==>
        State() == old(State()).(errorResponses :=
          NormalizedResponses(responses, DefaultRef(errorResponseRefs)) + old(errorResponses))
    {
      if |paths| != 0 {
        err := Some(PathsParsedMessage);
        return;
      }
      var defaultRef := "";
      if |errorResponseRefs| > 0 {
        defaultRef := TerIf(errorResponseRefs[0] != "", SchemaRefPrefix + errorResponseRefs[0], "");
      }
      var normalized := NormalizeErrorResponses(responses, defaultRef);
      errorResponses := MergeMaps(errorResponses, normalized);
    }

    /**
     * AddDefaultErrors: refused once paths or error responses exist; otherwise the table,
     * or only the requested codes it has.
     */
    method AddDefaultErrors(codes: seq<int>)
      modifies this
      ensures |old(paths)| != 0 ==> State() == old(State()).(err := Some(PathsParsedMessage))
      ensures |old(paths)| == 0 && |old(errorResponses)| != 0 ==>
        State() == old(State()).(err := Some(CustomErrorsMessage))
      ensures |old(paths)| == 0 && |old(errorResponses)| == 0 ==>
        State() == old(State()).(errorResponses := DefaultErrorsFor(defaults.errorResponses, codes))
    {
      if |paths| != 0 {
        err := Some(PathsParsedMessage);
        return;
      }
      if |errorResponses| != 0 {
        err := Some(CustomErrorsMessage);
        return;
      }
      var filteredCodes := FilterCodes(defaults.errorResponses, codes);
      errorResponses := MergeMaps(errorResponses, defaults.errorResponses);
      if |filteredCodes| != 0 {
        errorResponses := filteredCodes;
      }
    }

    /** AddTag: exactly one tag appended. */
    method AddTag(tag: Tag)
      modifies this
      ensures State() == old(State()).(spec := old(Snapshot()).(tags := old(tags) + [tag]))
    {
      tags := tags + [tag];
    }

    /**
     * ParseTags over the subdirectory names ExtractDirNames reads: the tags are replaced by
     * one per name not ignored, in order; an empty path, a read error or no names sets err.
     */
    method ParseTags(modelsDirPath: string, allIgnoredDirs: seq<seq<string>>, dirNames: Result<seq<string>>)
      modifies this
      ensures modelsDirPath == "" ==> State() == old(State()).(err := Some(NoTagPathMessage))
      ensures modelsDirPath != "" && dirNames.Err? ==> State() == old(State()).(err := Some(dirNames.error))
      ensures modelsDirPath != "" && dirNames.Ok? && |dirNames.value| == 0 ==>
        State() == old(State()).(err := Some(NoTagsMessage))
      ensures modelsDirPath != "" && dirNames.Ok? && |dirNames.value| > 0 ==>
        State() == old(State()).(spec := old(Snapshot()).(tags :=
          TagsOf(ApprovedNames(dirNames.value, IgnoredOf(allIgnoredDirs)))))
    {
      if modelsDirPath == "" {
        err := Some(NoTagPathMessage);
        return;
      }
      if dirNames.Err? {
        err := Some(dirNames.error);
        return;
      }
      var tagNames := dirNames.value;
      if |tagNames| == 0 {
        err := Some(NoTagsMessage);
        return;
      }
      // The source evaluates allIgnoredDirs[0] even when no list is given; see IgnoredDirsAsWritten.
      var ignoredDirs: seq<string> := [];
      if |allIgnoredDirs| > 0 {
        ignoredDirs := allIgnoredDirs[0];
      }
      if |ignoredDirs| > 0 {
        tagNames := ApproveTags(tagNames, ignoredDirs);
      } else {
        NothingIgnoredKeepsAll(tagNames);
      }
      var newTags := BuildTags(tagNames);
      tags := newTags;
    }

    /** AddSecuritySchemes: the registry replaced by the flattened schemes. */
    method AddSecuritySchemes(s: SecuritySchemesTypes)
      modifies this
      ensures State() == old(State()).(spec := old(Snapshot()).(components :=
        old(components).(securitySchemes := FlatSchemes(s))))
    {
      var flat := FlatSecuritySchemes(s);
      components := components.(securitySchemes := flat);
    }

    /** AddSchemas: merged in, and a schema already registered keeps its entry. */
    method AddSchemas(schemasDict: SchemasDict)
      modifies this
      ensures State() == old(State()).(spec := old(Snapshot()).(components :=
        old(components).(schemas := schemasDict + old(components.schemas))))
    {
      var merged := MergeMaps(components.schemas, schemasDict);
      components := components.(schemas := merged);
    }

    /** AddEnums: merged into the schemas, and a schema already registered keeps its entry. */
    method AddEnums(schemasDict: SchemasDict)
      modifies this
      ensures State() == old(State()).(spec := old(Snapshot()).(components :=
        old(components).(schemas := schemasDict + old(components.schemas))))
    {
      var merged := MergeMaps(components.schemas, schemasDict);
      components := components.(schemas := merged);
    }

    /** AddPaths: merged in, and a path already registered keeps its entry. */
    method AddPaths(pathsDict: PathsDict)
      modifies this
      ensures State() == old(State()).(spec := old(Snapshot()).(paths := pathsDict + old(paths)))
    {
      var merged := MergeMaps(paths, pathsDict);
      paths := merged;
    }

    /**
     * ParseSchemas over the tree at `baseDirectory`: the directory results, folded in the
     * order `order` records into the registered schemas; an error leaves the schemas alone.
     */
    method ParseSchemas(baseDirectory: string, allIgnoredPaths: seq<seq<string>>, tree: Listing)
      returns (ghost order: seq<nat>)
      modifies this
      ensures tree.Unreadable? ==> State() == old(State()).(err := Some(tree.error))
      ensures tree.Entries? ==>
        var results := SchemaResults(pat, tables,
          DirsIn(baseDirectory, tree, old(generalIgnoredPaths) + IgnoredOf(allIgnoredPaths)));
        Within(order, |results|) &&
        var outcome := Aggregate(old(components.schemas), Pick(results, order));
        (outcome.Err? ==> State() == old(State()).(err := Some(outcome.error)))
        && (outcome.Ok? ==>
              IsSchedule(order, |results|)
              && State() == old(State()).(spec := old(Snapshot()).(components :=
                   old(components).(schemas := outcome.value))))
    {
      order := [];
      var allSchemasDict := components.schemas;
      var ignoredPaths: seq<string> := [];
      if |allIgnoredPaths| > 0 {
        ignoredPaths := allIgnoredPaths[0];
      }
      var mergedIgnoredPaths := generalIgnoredPaths + ignoredPaths;
      var dirs, e := FindAllDirectoriesInPath(baseDirectory, tree, mergedIgnoredPaths);
      if e.Some? {
        err := e;
        return;
      }
      var results := ExtractSchemaDirs(pat, tables, dirs);
      var r;
      r, order := CollectResults(allSchemasDict, results);
      if r.Err? {
        err := Some(r.error);
        return;
      }
      components := components.(schemas := r.value);
    }

    /**
     * ParseEnums: as ParseSchemas, but the fold starts from an empty registry and replaces
     * the schemas, so schemas registered before are dropped.
     */
    method ParseEnums(baseDirectory: string, allIgnoredPaths: seq<seq<string>>, tree: Listing)
      returns (ghost order: seq<nat>)
      modifies this
      ensures tree.Unreadable? ==> State() == old(State()).(err := Some(tree.error))
      ensures tree.Entries? ==>
        var results := EnumResults(pat, tables,
          DirsIn(baseDirectory, tree, old(generalIgnoredPaths) + IgnoredOf(allIgnoredPaths)));
        Within(order, |results|) &&
        var outcome := Aggregate(map[], Pick(results, order));
        (outcome.Err? ==> State() == old(State()).(err := Some(outcome.error)))
        && (outcome.Ok? ==>
              IsSchedule(order, |results|)
              && State() == old(State()).(spec := old(Snapshot()).(components :=
                   old(components).(schemas := outcome.value))))
    {
      order := [];
      var allSchemasDict: SchemasDict := map[];
      var ignoredPaths: seq<string> := [];
      if |allIgnoredPaths| > 0 {
        ignoredPaths := allIgnoredPaths[0];
      }
      var mergedIgnoredPaths := generalIgnoredPaths + ignoredPaths;
      var dirs, e := FindAllDirectoriesInPath(baseDirectory, tree, mergedIgnoredPaths);
      if e.Some? {
        err := e;
        return;
      }
      var results := ExtractEnumDirs(pat, tables, dirs);
      var r;
      r, order := CollectResults(allSchemasDict, results);
      if r.Err? {
        err := Some(r.error);
        return;
      }
      components := components.(schemas := r.value);
    }

    /** The context extractPathsDictFromFile reads from the engine. */
    function PathContextOf(): Paths.PathContext
      reads this
    {
      Paths.PathContext(tables, components.schemas, errorResponses, order)
    }

    /**
     * ParsePaths: refused while no schema is registered; otherwise the paths are replaced by
     * the fold of the directory results, and an error leaves them alone.
     */
    method ParsePaths(baseDirectory: string, allIgnoredPaths: seq<seq<string>>, tree: Listing)
      returns (ghost order: seq<nat>)
      requires IsKeyOrder(this.order)
      modifies this
      ensures |old(components.schemas)| == 0 ==> State() == old(State()).(err := Some(NoSchemasMessage))
      ensures |old(components.schemas)| != 0 && tree.Unreadable? ==> State() == old(State()).(err := Some(tree.error))
      ensures |old(components.schemas)| != 0 && tree.Entries? ==>
        var results := PathResults(old(PathContextOf()), pat,
          DirsIn(baseDirectory, tree, old(generalIgnoredPaths) + IgnoredOf(allIgnoredPaths)));
        Within(order, |results|) &&
        var outcome := Aggregate(map[], Pick(results, order));
        (outcome.Err? ==> State() == old(State()).(err := Some(outcome.error)))
        && (outcome.Ok? ==>
              IsSchedule(order, |results|)
              && State() == old(State()).(spec := old(Snapshot()).(paths := outcome.value)))
    {
      order := [];
      if |components.schemas| == 0 {
        err := Some(NoSchemasMessage);
        return;
      }
      var allPathsDict: PathsDict := map[];
      var ignoredPaths: seq<string> := [];
      if |allIgnoredPaths| > 0 {
        ignoredPaths := allIgnoredPaths[0];
      }
      var mergedIgnoredPaths := generalIgnoredPaths + ignoredPaths;
      var dirs, e := FindAllDirectoriesInPath(baseDirectory, tree, mergedIgnoredPaths);
      if e.Some? {
        err := e;
        return;
      }
      var results := ExtractPathDirs(PathContextOf(), pat, dirs);
      var r;
      r, order := CollectResults(allPathsDict, results);
      if r.Err? {
        err := Some(r.error);
        return;
      }
      paths := r.value;
    }

    /**
     * Generate: a set err is returned at once; otherwise the document is marshalled,
     * validated with the findings discarded, and exported, and rawResult changes only after
     * a successful export.
     */
    method Generate(dest: seq<string>, io: Io) returns (raw: string, e: Option<string>)
      modifies this
      ensures old(err).Some? ==> raw == old(rawResult) && e == old(err) && State() == old(State())
      ensures old(err).None? && io.marshal(old(Snapshot())).Err? ==>
        var m := io.marshal(old(Snapshot())).error;
        raw == old(rawResult) && e == Some(m) && State() == old(State()).(err := Some(m))
      ensures old(err).None? && io.marshal(old(Snapshot())).Ok? ==>
        var yaml := io.marshal(old(Snapshot())).value;
        var exported := io.exportDocs(ProvidedPath(dest, old(fileName), io.join), yaml);
        (exported.Some? ==> raw == old(rawResult) && e == exported && State() == old(State()).(err := exported))
        && (exported.None? ==> raw == yaml && e == None && State() == old(State()).(rawResult := yaml))
    {
      var providedPath := fileName;
      if |dest| > 0 {
        providedPath := io.join(dest[0], fileName);
      }
      if err.Some? {
        return rawResult, err;
      }
      var marshalled := io.marshal(Snapshot());
      if marshalled.Err? {
        err := Some(marshalled.error);
        return rawResult, err;
      }
      var yamlDocs := marshalled.value;
      var marshalErr: Option<string> := None;
      var er := io.validate(yamlDocs);
      if er.Some? {
        err := marshalErr;
      }
      var exportErr := io.exportDocs(providedPath, yamlDocs);
      if exportErr.Some? {
        err := exportErr;
        return rawResult, err;
      }
      rawResult := yamlDocs;
      return rawResult, err;
    }
  }
}
