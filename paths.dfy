/**
 * extractPathsDictFromFile and extractPathsFromDirectory (paths.go:130-327): every record
 * with a path becomes one Operation, stored in the method slot of its path.
 */
module Paths {

  import opened Wrappers
  import opened SeqFacts
  import opened Text
  import opened Types
  import opened Sources
  import opened EngineUtils
  import opened Engine
  import opened PathRecords
  import opened MapOrder

  /** What extractPathsDictFromFile reads besides the file: the engine's tables and registries. */
  datatype PathContext = PathContext(
    tables: Tables,
    schemas: SchemasDict,
    errorResponses: Responses,
    order: KeyOrder)

  /** The same schema reference in all three media types. */
  function ContentFor(ref: string): (c: Content)
    ensures c.applicationJson == c.formUrlencoded == c.multipartFormData == MediaType(SchemaRefPrefix + ref)
  {
    var mt := MediaType(SchemaRefPrefix + ref);
    Content(mt, mt, mt)
  }

  // ---------------------------------------------------------------------------------------
  // Parameters
  // ---------------------------------------------------------------------------------------

  /** The parameter a property of the parameters schema describes. */
  function ParameterFor(name: string, p: Property): (r: Parameter)
    ensures r.name == name && r.location == p.location && r.example == p.example && r.description == ""
    ensures r.required <==> p.location == "path"
    ensures r.schema.ref == p.ref
    ensures r.schema.typeName == (if p.ref == "" then p.typeName else "")
    ensures r.schema.defaultValue == "" && r.schema.enumValues == []
  {
    Parameter(name, p.location, "", TerIf(p.location == "path", true, false),
              ParameterSchema(TerIf(p.ref == "", p.typeName, ""), "", [], TerIf(p.ref != "", p.ref, "")),
              p.example)
  }

  /** The parameters of a record: one per property of the schema it names, in key order. */
  function ParametersOf(ctx: PathContext, ref: string): (r: seq<Parameter>)
    requires IsKeyOrder(ctx.order)
    ensures ref !in ctx.schemas ==> r == []
    ensures ref in ctx.schemas ==> |r| == |ctx.schemas[ref].properties|
  {
    if ref !in ctx.schemas then []
    else
      var props := ctx.schemas[ref].properties;
      var ks := ctx.order(props.Keys);
      assert Lists(ks, props.Keys);
      seq(|ks|, i requires 0 <= i < |ks| => ParameterFor(ks[i], props[ks[i]]))
  }

  /** Every parameter describes the property it is named after, and no name repeats. */
  lemma ParametersDescribeProperties(ctx: PathContext, ref: string)
    requires IsKeyOrder(ctx.order) && ref in ctx.schemas
    ensures var r, props := ParametersOf(ctx, ref), ctx.schemas[ref].properties;
      && (forall i :: 0 <= i < |r| ==> r[i].name in props && r[i] == ParameterFor(r[i].name, props[r[i].name]))
      && (forall i, j :: 0 <= i < j < |r| ==> r[i].name != r[j].name)
  {
    var props := ctx.schemas[ref].properties;
    assert Lists(ctx.order(props.Keys), props.Keys);
  }

  /** Every property of the parameters schema becomes a parameter. */
  lemma EveryPropertyIsAParameter(ctx: PathContext, ref: string, n: string)
    requires IsKeyOrder(ctx.order) && ref in ctx.schemas && n in ctx.schemas[ref].properties
    ensures exists i :: 0 <= i < |ParametersOf(ctx, ref)| && ParametersOf(ctx, ref)[i].name == n
  {
    var props := ctx.schemas[ref].properties;
    var ks := ctx.order(props.Keys);
    assert Lists(ks, props.Keys);
    var i :| 0 <= i < |ks| && ks[i] == n;
    assert ParametersOf(ctx, ref)[i].name == n;
  }

  /** The loop over the parameters schema's properties. */
  method BuildParameters(ctx: PathContext, ref: string) returns (parameters: seq<Parameter>)
    requires IsKeyOrder(ctx.order)
    ensures parameters == ParametersOf(ctx, ref)
  {
    parameters := [];
    if ref in ctx.schemas {
      var props := ctx.schemas[ref].properties;
      var names := ctx.order(props.Keys);
      assert Lists(names, props.Keys);
      var i := 0;
      while i < |names|
        invariant 0 <= i <= |names|
        invariant |parameters| == i
        invariant forall k :: 0 <= k < i ==> parameters[k] == ParameterFor(names[k], props[names[k]])
      {
        var name := names[i];
        parameters := parameters + [ParameterFor(name, props[name])];
        i := i + 1;
      }
      ParametersByName(ctx, ref, parameters);
    }
  }

  /** A sequence with one parameter per listed property, in key order, is the record's parameters. */
  lemma ParametersByName(ctx: PathContext, ref: string, ps: seq<Parameter>)
    requires IsKeyOrder(ctx.order) && ref in ctx.schemas
    requires var props := ctx.schemas[ref].properties; var names := ctx.order(props.Keys);
      && |ps| == |names|
      && forall k :: 0 <= k < |ps| ==> names[k] in props && ps[k] == ParameterFor(names[k], props[names[k]])
    ensures ps == ParametersOf(ctx, ref)
  {
  }

  // ---------------------------------------------------------------------------------------
  // Security
  // ---------------------------------------------------------------------------------------

  /** One single-scheme requirement per `@apiSecurity` scheme of the record, in key order. */
  function SecurityOf(order: KeyOrder, securities: map<string, seq<string>>): (r: seq<SecurityFlow>)
    requires IsKeyOrder(order)
    ensures |r| == |securities|
  {
    var ks := order(securities.Keys);
    assert Lists(ks, securities.Keys);
    seq(|ks|, i requires 0 <= i < |ks| => map[ks[i] := securities[ks[i]]])
  }

  /** Each requirement names one of the record's schemes with its scopes. */
  lemma SecurityFlowsAreSchemes(order: KeyOrder, securities: map<string, seq<string>>, i: nat)
    requires IsKeyOrder(order) && i < |SecurityOf(order, securities)|
    ensures exists n :: n in securities && SecurityOf(order, securities)[i] == map[n := securities[n]]
  {
    var ks := order(securities.Keys);
    assert Lists(ks, securities.Keys);
    assert ks[i] in securities;
  }

  /** Each of the record's schemes has its requirement. */
  lemma EverySchemeIsRequired(order: KeyOrder, securities: map<string, seq<string>>, n: string)
    requires IsKeyOrder(order) && n in securities
    ensures exists i :: 0 <= i < |SecurityOf(order, securities)| && SecurityOf(order, securities)[i] == map[n := securities[n]]
  {
    var ks := order(securities.Keys);
    assert Lists(ks, securities.Keys);
    var i :| 0 <= i < |ks| && ks[i] == n;
    assert SecurityOf(order, securities)[i] == map[n := securities[n]];
  }

  /** The loop over the record's security schemes. */
  method BuildSecurity(order: KeyOrder, securities: map<string, seq<string>>) returns (security: seq<SecurityFlow>)
    requires IsKeyOrder(order)
    ensures security == SecurityOf(order, securities)
  {
    var flows := order(securities.Keys);
    assert Lists(flows, securities.Keys);
    security := [];
    var i := 0;
    while i < |flows|
      invariant 0 <= i <= |flows|
      invariant |security| == i
      invariant forall k :: 0 <= k < i ==> security[k] == map[flows[k] := securities[flows[k]]]
    {
      var flow := flows[i];
      var securityFlow: SecurityFlow := map[];
      securityFlow := securityFlow[flow := securities[flow]];
      security := security + [securityFlow];
      i := i + 1;
    }
  }

  // ---------------------------------------------------------------------------------------
  // Responses
  // ---------------------------------------------------------------------------------------

  /** The `@apiResponseRef` response, under `@apiStatusCode`. */
  function SuccessResponses(tables: Tables, rec: PathData): Responses {
    if rec.apiResponseRef != "" then
      map[rec.apiStatusCode := Response(GetResponseDescription(tables, rec.apiStatusCode), ContentFor(rec.apiResponseRef))]
    else map[]
  }

  /**
   * Whether a default error response applies to the record: always when it lists no error
   * codes, otherwise when the code occurs as a substring of its comma-joined list.
   */
  predicate Selected(rec: PathData, code: string) {
    !(!Contains(Join(rec.apiErrorStatusCodes, ','), code) && |rec.apiErrorStatusCodes| > 0)
  }

  /**
   * Which default errors an operation gets: all of them when it lists no codes, every listed
   * code, and also any code that occurs inside a listed one ("4001" selects "400").
   */
  lemma ErrorCodeSelection(rec: PathData, code: string, listed: string)
    ensures |rec.apiErrorStatusCodes| == 0 ==> Selected(rec, code)
    ensures code in rec.apiErrorStatusCodes ==> Selected(rec, code)
    ensures rec.apiErrorStatusCodes == [listed] && HasPrefix(listed, code) ==> Selected(rec, code)
  {
    if code in rec.apiErrorStatusCodes {
      var k :| 0 <= k < |rec.apiErrorStatusCodes| && rec.apiErrorStatusCodes[k] == code;
      ContainsJoinedPiece(rec.apiErrorStatusCodes, ',', k);
    }
  }

  /** A default error response redirected to a custom schema, with its custom or standard description. */
  function Customised(tables: Tables, rec: PathData, code: string): Response
    requires code in rec.apiCustomErrorRefs
  {
    var description := TerIf(code in rec.apiCustomErrorDescriptions,
                             Lookup(rec.apiCustomErrorDescriptions, code), GetResponseDescription(tables, code));
    Response(description, ContentFor(rec.apiCustomErrorRefs[code]))
  }

  /** The selected default error responses, written over the success response. */
  function WithErrors(ctx: PathContext, rec: PathData): Responses {
    SuccessResponses(ctx.tables, rec) + SelectedErrors(ctx.errorResponses, rec, ctx.errorResponses.Keys)
  }

  /** The responses of an operation. */
  function ResponsesFor(ctx: PathContext, rec: PathData): (r: Responses)
    ensures forall c :: c in r <==>
      (rec.apiResponseRef != "" && c == rec.apiStatusCode)
      || (|ctx.errorResponses| > 0 && c in ctx.errorResponses && Selected(rec, c))
    ensures forall c :: c in r && |ctx.errorResponses| > 0 && c in rec.apiCustomErrorRefs ==>
      && r[c].content == ContentFor(rec.apiCustomErrorRefs[c])
      && r[c].description == if c in rec.apiCustomErrorDescriptions then rec.apiCustomErrorDescriptions[c]
                             else GetResponseDescription(ctx.tables, c)
    ensures forall c :: c in r && c in ctx.errorResponses && Selected(rec, c) && c !in rec.apiCustomErrorRefs ==>
      r[c] == ctx.errorResponses[c]
    ensures forall c :: c in r && (c !in ctx.errorResponses || !Selected(rec, c))
                        && (|ctx.errorResponses| == 0 || c !in rec.apiCustomErrorRefs) ==>
      r[c] == Response(GetResponseDescription(ctx.tables, c), ContentFor(rec.apiResponseRef))
  {
    if |ctx.errorResponses| == 0 then SuccessResponses(ctx.tables, rec)
    else
      var w := WithErrors(ctx, rec);
      map c | c in w :: if c in rec.apiCustomErrorRefs then Customised(ctx.tables, rec, c) else w[c]
  }

  /** The default error responses among `codes` that apply to the record. */
  function SelectedErrors(errors: Responses, rec: PathData, codes: set<string>): Responses {
    map c | c in codes && c in errors && Selected(rec, c) :: errors[c]
  }

  /** One more code considered: the selection grows by that code exactly when it applies. */
  lemma SelectedErrorsStep(errors: Responses, rec: PathData, codes: set<string>, code: string, base: Responses)
    requires code in errors
    ensures base + SelectedErrors(errors, rec, codes + {code})
            == if Selected(rec, code) then (base + SelectedErrors(errors, rec, codes))[code := errors[code]]
               else base + SelectedErrors(errors, rec, codes)
  {
  }

  /** The loop over the default error responses. */
  method AddErrorResponses(ctx: PathContext, rec: PathData, success: Responses) returns (responses: Responses)
    ensures responses == success + SelectedErrors(ctx.errorResponses, rec, ctx.errorResponses.Keys)
  {
    responses := success;
    var todo := ctx.errorResponses.Keys;
    ghost var done: set<string> := {};
    while todo != {}
      invariant todo + done == ctx.errorResponses.Keys && todo !! done
      invariant responses == success + SelectedErrors(ctx.errorResponses, rec, done)
      decreases |todo|
    {
      var statusCode :| statusCode in todo;
      SelectedErrorsStep(ctx.errorResponses, rec, done, statusCode, success);
      var codes := Join(rec.apiErrorStatusCodes, ',');
      if !(!Contains(codes, statusCode) && |rec.apiErrorStatusCodes| > 0) {
        responses := responses[statusCode := ctx.errorResponses[statusCode]];
      }
      todo := todo - {statusCode};
      done := done + {statusCode};
    }
  }

  /** The loop over the custom error references: only codes already present are redirected. */
  method ApplyCustomErrorRefs(tables: Tables, rec: PathData, w: Responses) returns (responses: Responses)
    ensures responses == map c | c in w :: if c in rec.apiCustomErrorRefs then Customised(tables, rec, c) else w[c]
  {
    responses := w;
    var todo := rec.apiCustomErrorRefs.Keys;
    ghost var done: set<string> := {};
    while todo != {}
      invariant todo + done == rec.apiCustomErrorRefs.Keys && todo !! done
      invariant responses == map c | c in w :: if c in done then Customised(tables, rec, c) else w[c]
      decreases |todo|
    {
      var statusCode :| statusCode in todo;
      CustomisedStep(tables, rec, w, done, statusCode);
      if statusCode in responses {
        var ref := SchemaRefPrefix + rec.apiCustomErrorRefs[statusCode];
        var description := TerIf(statusCode in rec.apiCustomErrorDescriptions,
                                 Lookup(rec.apiCustomErrorDescriptions, statusCode),
                                 GetResponseDescription(tables, statusCode));
        var mt := MediaType(ref);
        responses := responses[statusCode := Response(description, Content(mt, mt, mt))];
      }
      todo := todo - {statusCode};
      done := done + {statusCode};
    }
  }

  /** One more custom code handled: the response under that code, if any, is redirected. */
  lemma CustomisedStep(tables: Tables, rec: PathData, w: Responses, done: set<string>, code: string)
    requires code in rec.apiCustomErrorRefs && done <= rec.apiCustomErrorRefs.Keys
    ensures var before := map c | c in w :: if c in done then Customised(tables, rec, c) else w[c];
      (map c | c in w :: if c in done + {code} then Customised(tables, rec, c) else w[c])
      == if code in w then before[code := Customised(tables, rec, code)] else before
  {
  }

  /** The responses of one record: success response, default errors, custom error references. */
  method BuildResponses(ctx: PathContext, rec: PathData) returns (responses: Responses)
    ensures responses == ResponsesFor(ctx, rec)
  {
    responses := map[];
    if rec.apiResponseRef != "" {
      responses := responses[rec.apiStatusCode :=
        Response(GetResponseDescription(ctx.tables, rec.apiStatusCode), ContentFor(rec.apiResponseRef))];
    }
    if |ctx.errorResponses| > 0 {
      responses := AddErrorResponses(ctx, rec, responses);
      responses := ApplyCustomErrorRefs(ctx.tables, rec, responses);
    }
  }

  // ---------------------------------------------------------------------------------------
  // Operations
  // ---------------------------------------------------------------------------------------

  /** The operation a record declares at `apiPath` (its path with the leading slash). */
  function OperationFor(ctx: PathContext, rec: PathData, apiPath: string): (op: Operation)
    requires IsKeyOrder(ctx.order) && '/' in apiPath
    ensures op.operationId == GenerateOperationId(ctx.tables, rec.apiMethod, apiPath)
    ensures op.tags == if rec.apiTag != "" then [rec.apiTag] else []
    ensures op.deprecated <==> rec.apiDeprecated == "true"
    ensures op.summary == rec.apiSummary && op.description == rec.apiDescription
    ensures op.requestBody.Some? <==> rec.apiRequestRef != ""
    ensures op.requestBody.Some? ==>
      op.requestBody.value.required && op.requestBody.value.content == ContentFor(rec.apiRequestRef)
    ensures op.parameters == ParametersOf(ctx, rec.apiParametersRef)
    ensures op.responses == ResponsesFor(ctx, rec)
    ensures op.security == SecurityOf(ctx.order, rec.apiSecurities)
  {
    Operation(
      TerIf(rec.apiTag != "", [rec.apiTag], []),
      rec.apiSummary,
      rec.apiDescription,
      GenerateOperationId(ctx.tables, rec.apiMethod, apiPath),
      ParametersOf(ctx, rec.apiParametersRef),
      if rec.apiRequestRef != "" then Some(RequestBody("", ContentFor(rec.apiRequestRef), true)) else None,
      ResponsesFor(ctx, rec),
      SecurityOf(ctx.order, rec.apiSecurities),
      rec.apiDeprecated == "true")
  }

  /** The operation of one record, built as the loop body does. */
  method BuildOperation(ctx: PathContext, rec: PathData, apiPath: string) returns (op: Operation)
    requires IsKeyOrder(ctx.order) && '/' in apiPath
    ensures op == OperationFor(ctx, rec, apiPath)
  {
    var parameters := BuildParameters(ctx, rec.apiParametersRef);
    op := Operation(TerIf(rec.apiTag != "", [rec.apiTag], []), rec.apiSummary, rec.apiDescription,
                    GenerateOperationId(ctx.tables, rec.apiMethod, apiPath), parameters, None,
                    map[], [], rec.apiDeprecated == "true");
    if rec.apiRequestRef != "" {
      op := op.(requestBody := Some(RequestBody("", ContentFor(rec.apiRequestRef), true)));
    }
    var responses := BuildResponses(ctx, rec);
    var security := BuildSecurity(ctx.order, rec.apiSecurities);
    op := op.(responses := responses, security := security, parameters := parameters);
  }

  /** The slots of a path after storing `op` under the upper-cased `verb`; other verbs store nothing. */
  function PlaceOperation(ops: Operations, verb: string, op: Operation): (r: Operations)
    ensures forall m :: Slot(r, m) == if MethodNamed(ToUpper(verb)) == Some(m) then Some(op) else Slot(ops, m)
  {
    var upper := ToUpper(verb);
    Operations(
      put := TerIf(upper == "PUT", Some(op), ops.put),
      post := TerIf(upper == "POST", Some(op), ops.post),
      get := TerIf(upper == "GET", Some(op), ops.get),
      delete := TerIf(upper == "DELETE", Some(op), ops.delete),
      patch := TerIf(upper == "PATCH", Some(op), ops.patch))
  }

  /** The paths dictionary after one record. */
  function AddRecord(ctx: PathContext, dict: PathsDict, rec: PathData): PathsDict
    requires IsKeyOrder(ctx.order)
  {
    var apiPath := AddLeadingSlash(rec.apiPath);
    if apiPath == "" then dict
    else
      var ops := if apiPath in dict then dict[apiPath] else NoOperations;
      dict[apiPath := PlaceOperation(ops, rec.apiMethod, OperationFor(ctx, rec, apiPath))]
  }

  /** The paths dictionary of a file's records, in order. */
  function RecordsPaths(ctx: PathContext, records: seq<PathData>): PathsDict
    requires IsKeyOrder(ctx.order)
    decreases |records|
  {
    if |records| == 0 then map[]
    else AddRecord(ctx, RecordsPaths(ctx, records[..|records| - 1]), records[|records| - 1])
  }

  /** What extractPathsDictFromFile returns. */
  function FilePaths(ctx: PathContext, pat: Patterns, fileName: string, parsed: Result<GoFile>): Result<PathsDict>
    requires IsKeyOrder(ctx.order)
  {
    match parsed
    case Err(e) => Err(e)
    case Ok(file) =>
      match PathRecordsOf(pat, fileName, file.comments)
      case Err(e) => Err(e)
      case Ok(records) => Ok(RecordsPaths(ctx, records))
  }

  /** The loop body: a record with a path stores its operation in the slot of its method. */
  method StoreRecord(ctx: PathContext, pathsDict: PathsDict, commentData: PathData) returns (r: PathsDict)
    requires IsKeyOrder(ctx.order)
    ensures r == AddRecord(ctx, pathsDict, commentData)
  {
    r := pathsDict;
    var apiPath := AddLeadingSlash(commentData.apiPath);
    if apiPath != "" {
      var operation := BuildOperation(ctx, commentData, apiPath);
      if apiPath !in r {
        r := r[apiPath := NoOperations];
      }
      r := r[apiPath := PlaceOperation(r[apiPath], commentData.apiMethod, operation)];
    }
  }

  /** extractPathsDictFromFile: the records of the file's comments, one operation each. */
  method ExtractPathsDictFromFile(ctx: PathContext, pat: Patterns, fileName: string, parsed: Result<GoFile>)
    returns (r: Result<PathsDict>)
    requires IsKeyOrder(ctx.order)
    ensures r == FilePaths(ctx, pat, fileName, parsed)
  {
    if parsed.Err? {
      return Err(parsed.error);
    }
    var commentsData := ExtractPathsDataFromComments(pat, fileName, parsed.value.comments);
    if commentsData.Err? {
      return Err(commentsData.error);
    }
    var records := commentsData.value;
    var pathsDict: PathsDict := map[];
    var i := 0;
    while i < |records|
      invariant 0 <= i <= |records|
      invariant pathsDict == RecordsPaths(ctx, records[..i])
    {
      assert records[..i + 1][..i] == records[..i];
      pathsDict := StoreRecord(ctx, pathsDict, records[i]);
      i := i + 1;
    }
    assert records[..i] == records;
    return Ok(pathsDict);
  }

  /** The index of the last record storing an operation in slot `m` of path `key`, if any. */
  function LastFor(records: seq<PathData>, key: string, m: Method): (r: Option<nat>)
    ensures r.Some? ==> r.value < |records|
    decreases |records|
  {
    if |records| == 0 then None
    else
      var rec := records[|records| - 1];
      if key != "" && AddLeadingSlash(rec.apiPath) == key && MethodNamed(ToUpper(rec.apiMethod)) == Some(m)
      then Some(|records| - 1)
      else LastFor(records[..|records| - 1], key, m)
  }

  /** One record adds its path, if it has one, and leaves the other paths alone. */
  lemma AddRecordEffect(ctx: PathContext, dict: PathsDict, rec: PathData, key: string)
    requires IsKeyOrder(ctx.order)
    ensures var r, apiPath := AddRecord(ctx, dict, rec), AddLeadingSlash(rec.apiPath);
      && (key in r <==> key in dict || (rec.apiPath != "" && apiPath == key))
      && (key in dict && key != apiPath ==> r[key] == dict[key])
      && (rec.apiPath != "" && apiPath == key ==>
            '/' in key && r[key] == PlaceOperation(if key in dict then dict[key] else NoOperations,
                                                   rec.apiMethod, OperationFor(ctx, rec, key)))
  {
    var apiPath := AddLeadingSlash(rec.apiPath);
    if apiPath != "" {
      assert apiPath[0] == '/';
    }
  }

  /** The record LastFor picks declares the path and the method. */
  lemma {:induction false} LastForDeclares(records: seq<PathData>, key: string, m: Method)
    requires LastFor(records, key, m).Some?
    ensures var i := LastFor(records, key, m).value;
      key != "" && records[i].apiPath != "" && AddLeadingSlash(records[i].apiPath) == key
      && MethodNamed(ToUpper(records[i].apiMethod)) == Some(m)
    decreases |records|
  {
    var rec := records[|records| - 1];
    if !(key != "" && AddLeadingSlash(rec.apiPath) == key && MethodNamed(ToUpper(rec.apiMethod)) == Some(m)) {
      LastForDeclares(records[..|records| - 1], key, m);
    }
  }

  /** A path that some record declares with method `m` is one of the file's paths. */
  lemma LastForHasPath(ctx: PathContext, records: seq<PathData>, key: string, m: Method)
    requires IsKeyOrder(ctx.order)
    ensures LastFor(records, key, m).Some? ==> key in RecordsPaths(ctx, records)
  {
    if LastFor(records, key, m).Some? {
      var i := LastFor(records, key, m).value;
      LastForDeclares(records, key, m);
      assert DeclaresPath(records[i], key);
      RecordsPathsKeys(ctx, records, key);
    }
  }

  /** Whether a record declares the path `key` (its non-empty path with the leading slash added). */
  predicate DeclaresPath(rec: PathData, key: string) {
    rec.apiPath != "" && AddLeadingSlash(rec.apiPath) == key
  }

  /** One record adds exactly the path it declares. */
  lemma AddRecordKeys(ctx: PathContext, dict: PathsDict, rec: PathData, key: string)
    requires IsKeyOrder(ctx.order)
    ensures key in AddRecord(ctx, dict, rec) <==> key in dict || DeclaresPath(rec, key)
  {
    AddRecordEffect(ctx, dict, rec, key);
  }

  /** Some record of a non-empty sequence declares `key` iff the last one does or an earlier one does. */
  lemma DeclaredSnoc(records: seq<PathData>, key: string)
    requires |records| > 0
    ensures var init := records[..|records| - 1];
      (exists i :: 0 <= i < |records| && DeclaresPath(records[i], key))
      <==> (exists i :: 0 <= i < |init| && DeclaresPath(init[i], key)) || DeclaresPath(records[|records| - 1], key)
  {
    ExistsSnoc(records, x => DeclaresPath(x, key));
  }

  /** The paths of a file are exactly the non-empty record paths, with the leading slash added. */
  lemma {:induction false} RecordsPathsKeys(ctx: PathContext, records: seq<PathData>, key: string)
    requires IsKeyOrder(ctx.order)
    ensures key in RecordsPaths(ctx, records) <==> exists i :: 0 <= i < |records| && DeclaresPath(records[i], key)
    decreases |records|
  {
    if |records| > 0 {
      var init := records[..|records| - 1];
      RecordsPathsKeys(ctx, init, key);
      AddRecordKeys(ctx, RecordsPaths(ctx, init), records[|records| - 1], key);
      DeclaredSnoc(records, key);
    }
  }

  /**
   * Each slot of a path holds the operation of the last record declaring that path and
   * method; a method with no such record keeps its slot empty.
   */
  lemma {:induction false} LastRecordWins(ctx: PathContext, records: seq<PathData>, key: string, m: Method)
    requires IsKeyOrder(ctx.order) && key in RecordsPaths(ctx, records)
    ensures LastFor(records, key, m).None? ==> Slot(RecordsPaths(ctx, records)[key], m).None?
    ensures LastFor(records, key, m).Some? ==>
      '/' in key && Slot(RecordsPaths(ctx, records)[key], m) == Some(OperationFor(ctx, records[LastFor(records, key, m).value], key))
    decreases |records|
  {
    var init := records[..|records| - 1];
    var rec := records[|records| - 1];
    var before := RecordsPaths(ctx, init);
    SlotAfterRecord(ctx, before, rec, key, m);
    if rec.apiPath != "" && AddLeadingSlash(rec.apiPath) == key {
      if MethodNamed(ToUpper(rec.apiMethod)) != Some(m) {
        assert LastFor(records, key, m) == LastFor(init, key, m);
        LastForHasPath(ctx, init, key, m);
        if key in before {
          LastRecordWins(ctx, init, key, m);
        }
      }
    } else {
      assert LastFor(records, key, m) == LastFor(init, key, m);
      LastRecordWins(ctx, init, key, m);
    }
  }

  /** The slot `m` of `key` after one record. */
  lemma SlotAfterRecord(ctx: PathContext, before: PathsDict, rec: PathData, key: string, m: Method)
    requires IsKeyOrder(ctx.order)
    requires key in AddRecord(ctx, before, rec)
    ensures rec.apiPath != "" && AddLeadingSlash(rec.apiPath) == key ==>
      '/' in key && Slot(AddRecord(ctx, before, rec)[key], m) ==
        if MethodNamed(ToUpper(rec.apiMethod)) == Some(m) then Some(OperationFor(ctx, rec, key))
        else if key in before then Slot(before[key], m) else None
    ensures !(rec.apiPath != "" && AddLeadingSlash(rec.apiPath) == key) ==>
      key in before && AddRecord(ctx, before, rec)[key] == before[key]
  {
    AddRecordEffect(ctx, before, rec, key);
  }

  // ---------------------------------------------------------------------------------------
  // Directories
  // ---------------------------------------------------------------------------------------

  /** The paths of a directory's usable files, earlier files winning on a shared path. */
  function EntriesPaths(ctx: PathContext, pat: Patterns, entries: seq<Entry>): PathsDict
    requires IsKeyOrder(ctx.order)
    decreases |entries|
  {
    if |entries| == 0 then map[]
    else
      var before := EntriesPaths(ctx, pat, entries[..|entries| - 1]);
      match entries[|entries| - 1]
      case Dir(_, _) => before
      case File(name, parsed) =>
        if IgnoredFile(ctx.tables, name) then before
        else
          match FilePaths(ctx, pat, name, parsed)
          case Err(_) => before
          case Ok(dict) => dict + before
  }

  /** What extractPathsFromDirectory delivers for a directory. */
  function DirectoryPaths(ctx: PathContext, pat: Patterns, dir: DirUnit): Result<PathsDict>
    requires IsKeyOrder(ctx.order)
  {
    match dir.listing
    case Unreadable(e) => Err(e)
    case Entries(entries) => Ok(EntriesPaths(ctx, pat, entries))
  }

  /** extractPathsFromDirectory: merge the paths of every usable file of one directory. */
  method ExtractPathsFromDirectory(ctx: PathContext, pat: Patterns, dir: DirUnit) returns (r: Result<PathsDict>)
    requires IsKeyOrder(ctx.order)
    ensures r == DirectoryPaths(ctx, pat, dir)
  {
    if dir.listing.Unreadable? {
      return Err(dir.listing.error);
    }
    var entries := dir.listing.entries;
    var all: PathsDict := map[];
    var i := 0;
    while i < |entries|
      invariant 0 <= i <= |entries|
      invariant all == EntriesPaths(ctx, pat, entries[..i])
    {
      assert entries[..i + 1][..i] == entries[..i];
      var entry := entries[i];
      if entry.File? {
        var ignored := IsIgnoredFile(ctx.tables, entry.name);
        if !ignored {
          var dict := ExtractPathsDictFromFile(ctx, pat, entry.name, entry.parsed);
          if dict.Ok? {
            all := MergeMaps(all, dict.value);
          }
        }
      }
      i := i + 1;
    }
    assert entries[..i] == entries;
    return Ok(all);
  }

  /**
   * A path declared in two files of a directory keeps the operations of the first file only:
   * the later file's methods for that path are dropped, not merged slot by slot.
   */
  lemma {:induction false} FirstFileOwnsPath(ctx: PathContext, pat: Patterns, entries: seq<Entry>, i: nat, key: string)
    requires IsKeyOrder(ctx.order)
    requires i < |entries| && entries[i].File? && !IgnoredFile(ctx.tables, entries[i].name)
    requires FilePaths(ctx, pat, entries[i].name, entries[i].parsed).Ok?
    requires key in FilePaths(ctx, pat, entries[i].name, entries[i].parsed).value
    requires key !in EntriesPaths(ctx, pat, entries[..i])
    ensures key in EntriesPaths(ctx, pat, entries)
    ensures EntriesPaths(ctx, pat, entries)[key] == FilePaths(ctx, pat, entries[i].name, entries[i].parsed).value[key]
    decreases |entries|
  {
    if i < |entries| - 1 {
      assert entries[..|entries| - 1][..i] == entries[..i];
      FirstFileOwnsPath(ctx, pat, entries[..|entries| - 1], i, key);
    } else {
      assert entries[..|entries| - 1] == entries[..i];
    }
  }
}
