/**
 * The validator of validator/validator.go: a decoded document, the document text and the
 * findings the six checks append to.
 */
module Validator {

  import opened Wrappers
  import opened Text
  import opened Types
  import opened MapOrder
  import opened ValidatorUtils
  import opened ValidatorFindings

  class OpenApiValidator {
    /** Map order, operation-id matcher and property converter. */
    const env: Env
    /** The decoded document and its text; no check reassigns them. */
    const yamlDoc: Document
    const doc: string
    var operationIds: seq<string>
    var isValidOperationIds: bool
    var errors: seq<string>

    /** `&openApiValidator{YamlDoc: &yamlDoc}`: every other field has its zero value. */
    constructor (env: Env, yamlDoc: Document)
      ensures this.env == env && this.yamlDoc == yamlDoc
      ensures doc == "" && operationIds == [] && !isValidOperationIds && errors == []
    {
      this.env := env;
      this.yamlDoc := yamlDoc;
      doc := "";
      operationIds := [];
      isValidOperationIds := false;
      errors := [];
    }

    /** Everything but the findings is as before. */
    twostate predicate FindingsOnly()
      reads this
    {
      operationIds == old(operationIds) && isValidOperationIds == old(isValidOperationIds)
    }

    /** BuildError: one finding at the end. */
    method BuildError(message: string)
      modifies this
      ensures errors == old(errors) + [message]
      ensures FindingsOnly()
    {
      errors := errors + [message];
    }

    /** One finding per value, in order. */
    method ReportEach(f: string -> string, values: seq<string>)
      modifies this
      ensures errors == old(errors) + Messages(f, values)
      ensures FindingsOnly()
    {
      var i := 0;
      while i < |values|
        invariant 0 <= i <= |values|
        invariant errors == old(errors) + Messages(f, values[..i])
        invariant FindingsOnly()
      {
        assert Messages(f, values[..i + 1]) == Messages(f, values[..i]) + [f(values[i])];
        BuildError(f(values[i]));
        AppendAssoc(old(errors), Messages(f, values[..i]), [f(values[i])]);
        i := i + 1;
      }
      assert values[..i] == values;
    }

    /** isRefExistsInSchema: a search of the schema names, in any order, for the last segment of `ref`. */
    method IsRefExistsInSchema(ref: string) returns (b: bool)
      ensures b <==> RefExists(yamlDoc.components.schemas, ref)
    {
      var splittedRefName := Split(ref, '/');
      var refName := splittedRefName[|splittedRefName| - 1];
      var remaining := yamlDoc.components.schemas.Keys;
      while remaining != {}
        invariant remaining <= yamlDoc.components.schemas.Keys
        invariant refName in yamlDoc.components.schemas ==> refName in remaining
        decreases |remaining|
      {
        var schemaName :| schemaName in remaining;
        if schemaName == refName {
          return true;
        }
        remaining := remaining - {schemaName};
      }
      return false;
    }

    /** A non-empty reference that does not resolve gives one finding. */
    method CheckRef(ref: string)
      modifies this
      ensures errors == old(errors) + RefFindings(yamlDoc.components.schemas, ref)
      ensures FindingsOnly()
    {
      if ref != "" {
        var found := IsRefExistsInSchema(ref);
        if !found {
          BuildError(MissingRefMessage(ref));
        }
      }
    }

    /** The loop body of checkResponseRefExistsInSchema. */
    method CheckResponseRefs(response: Response)
      modifies this
      ensures errors == old(errors) + ResponseFindings(yamlDoc.components.schemas, response)
      ensures FindingsOnly()
    {
      var schemas := yamlDoc.components.schemas;
      CheckRef(response.content.formUrlencoded.schemaRef);
      CheckRef(response.content.applicationJson.schemaRef);
      AppendAssoc(old(errors), RefFindings(schemas, response.content.formUrlencoded.schemaRef),
                  RefFindings(schemas, response.content.applicationJson.schemaRef));
    }

    /**
     * checkResponseRefExistsInSchema: the form-urlencoded, then the JSON reference of each
     * response, visiting the codes in the order `codes` lists them.
     */
    method CheckResponseRefExistsInSchema(responses: Responses, codes: seq<string>)
      requires forall k :: k in codes ==> k in responses
      modifies this
      ensures errors == old(errors) + ResponsesFindings(yamlDoc.components.schemas, responses, codes)
      ensures FindingsOnly()
    {
      var i := 0;
      while i < |codes|
        invariant 0 <= i <= |codes|
        invariant forall k :: k in codes[..i] ==> k in responses
        invariant errors == old(errors) + ResponsesFindings(yamlDoc.components.schemas, responses, codes[..i])
        invariant FindingsOnly()
      {
        assert codes[..i + 1][..i] == codes[..i];
        CheckResponseRefs(responses[codes[i]]);
        AppendAssoc(old(errors), ResponsesFindings(yamlDoc.components.schemas, responses, codes[..i]),
                    ResponseFindings(yamlDoc.components.schemas, responses[codes[i]]));
        i := i + 1;
      }
      assert codes[..i] == codes;
    }

    /** The block each method slot repeats: the JSON request-body reference, then the responses. */
    method CheckOperationRefs(op: Operation)
      modifies this
      ensures errors == old(errors) + OperationFindings(env.order, yamlDoc.components.schemas, op)
      ensures FindingsOnly()
    {
      var codes := KeysOf(env.order, op.responses.Keys);
      if op.requestBody.Some? {
        CheckRef(op.requestBody.value.content.applicationJson.schemaRef);
        CheckResponseRefExistsInSchema(op.responses, codes);
        AppendAssoc(old(errors), RefFindings(yamlDoc.components.schemas, op.requestBody.value.content.applicationJson.schemaRef),
                    ResponsesFindings(yamlDoc.components.schemas, op.responses, codes));
      } else {
        CheckResponseRefExistsInSchema(op.responses, codes);
      }
    }

    /** One method slot of a path: checked when the path has that operation. */
    method CheckSlotRefs(slot: Option<Operation>)
      modifies this
      ensures errors == old(errors) + SlotFindings(env.order, yamlDoc.components.schemas, slot)
      ensures FindingsOnly()
    {
      if slot.Some? {
        CheckOperationRefs(slot.value);
      }
    }

    /** The loop body of the first loop of CheckAllRefsExistsInSchema: the five slots of a path. */
    method CheckPathOperationsRefs(operations: Operations)
      modifies this
      ensures errors == old(errors) + PathFindings(env.order, yamlDoc.components.schemas, operations)
      ensures FindingsOnly()
    {
      var schemas := yamlDoc.components.schemas;
      var get := SlotFindings(env.order, schemas, operations.get);
      var put := SlotFindings(env.order, schemas, operations.put);
      var patch := SlotFindings(env.order, schemas, operations.patch);
      var delete := SlotFindings(env.order, schemas, operations.delete);
      var post := SlotFindings(env.order, schemas, operations.post);
      CheckSlotRefs(operations.get);
      CheckSlotRefs(operations.put);
      AppendAssoc(old(errors), get, put);
      CheckSlotRefs(operations.patch);
      AppendAssoc(old(errors), get + put, patch);
      CheckSlotRefs(operations.delete);
      AppendAssoc(old(errors), get + put + patch, delete);
      CheckSlotRefs(operations.post);
      AppendAssoc(old(errors), get + put + patch + delete, post);
    }

    /** The first loop of CheckAllRefsExistsInSchema, over the path keys in the order `pathKeys` lists them. */
    method CheckPathRefs(pathKeys: seq<string>)
      requires forall k :: k in pathKeys ==> k in yamlDoc.paths
      modifies this
      ensures errors == old(errors) + PathsRefFindings(env.order, yamlDoc.components.schemas, yamlDoc.paths, pathKeys)
      ensures FindingsOnly()
    {
      var i := 0;
      while i < |pathKeys|
        invariant 0 <= i <= |pathKeys|
        invariant forall k :: k in pathKeys[..i] ==> k in yamlDoc.paths
        invariant errors == old(errors) + PathsRefFindings(env.order, yamlDoc.components.schemas, yamlDoc.paths, pathKeys[..i])
        invariant FindingsOnly()
      {
        assert pathKeys[..i + 1][..i] == pathKeys[..i];
        CheckPathOperationsRefs(yamlDoc.paths[pathKeys[i]]);
        AppendAssoc(old(errors), PathsRefFindings(env.order, yamlDoc.components.schemas, yamlDoc.paths, pathKeys[..i]),
                    PathFindings(env.order, yamlDoc.components.schemas, yamlDoc.paths[pathKeys[i]]));
        i := i + 1;
      }
      assert pathKeys[..i] == pathKeys;
    }

    /** The Ref, then the Items.Ref, of one property. */
    method CheckPropertyRefs(prop: Property)
      modifies this
      ensures errors == old(errors) + PropertyFindings(yamlDoc.components.schemas, prop)
      ensures FindingsOnly()
    {
      CheckRef(prop.ref);
      if prop.items.Some? {
        CheckRef(prop.items.value.ref);
        AppendAssoc(old(errors), RefFindings(yamlDoc.components.schemas, prop.ref),
                    RefFindings(yamlDoc.components.schemas, prop.items.value.ref));
      }
    }

    /** The inner loop over the properties of one schema, in the order `names` lists them. */
    method CheckPropertiesRefs(props: map<string, Property>, names: seq<string>)
      requires forall k :: k in names ==> k in props
      modifies this
      ensures errors == old(errors) + PropertiesFindings(yamlDoc.components.schemas, props, names)
      ensures FindingsOnly()
    {
      var i := 0;
      while i < |names|
        invariant 0 <= i <= |names|
        invariant forall k :: k in names[..i] ==> k in props
        invariant errors == old(errors) + PropertiesFindings(yamlDoc.components.schemas, props, names[..i])
        invariant FindingsOnly()
      {
        assert names[..i + 1][..i] == names[..i];
        CheckPropertyRefs(props[names[i]]);
        AppendAssoc(old(errors), PropertiesFindings(yamlDoc.components.schemas, props, names[..i]),
                    PropertyFindings(yamlDoc.components.schemas, props[names[i]]));
        i := i + 1;
      }
      assert names[..i] == names;
    }

    /** The loop body of the second loop of CheckAllRefsExistsInSchema: one schema's properties. */
    method CheckSchemaPropertyRefs(schema: Schema)
      modifies this
      ensures errors == old(errors) + SchemaRefFindings(env.order, yamlDoc.components.schemas, schema)
      ensures FindingsOnly()
    {
      var names := KeysOf(env.order, schema.properties.Keys);
      CheckPropertiesRefs(schema.properties, names);
    }

    /** The second loop of CheckAllRefsExistsInSchema, over the schema names in the order `schemaNames` lists them. */
    method CheckSchemaRefs(schemaNames: seq<string>)
      requires forall k :: k in schemaNames ==> k in yamlDoc.components.schemas
      modifies this
      ensures errors == old(errors) + SchemasRefFindings(env.order, yamlDoc.components.schemas, schemaNames)
      ensures FindingsOnly()
    {
      var i := 0;
      while i < |schemaNames|
        invariant 0 <= i <= |schemaNames|
        invariant forall k :: k in schemaNames[..i] ==> k in yamlDoc.components.schemas
        invariant errors == old(errors) + SchemasRefFindings(env.order, yamlDoc.components.schemas, schemaNames[..i])
        invariant FindingsOnly()
      {
        assert schemaNames[..i + 1][..i] == schemaNames[..i];
        CheckSchemaPropertyRefs(yamlDoc.components.schemas[schemaNames[i]]);
        AppendAssoc(old(errors), SchemasRefFindings(env.order, yamlDoc.components.schemas, schemaNames[..i]),
                    SchemaRefFindings(env.order, yamlDoc.components.schemas, yamlDoc.components.schemas[schemaNames[i]]));
        i := i + 1;
      }
      assert schemaNames[..i] == schemaNames;
    }

    /** CheckAllRefsExistsInSchema: one finding per unresolved occurrence, paths first. */
    method CheckAllRefsExistsInSchema()
      modifies this
      ensures errors == old(errors) + RefCheckFindings(env.order, yamlDoc)
      ensures FindingsOnly()
    {
      var pathKeys := KeysOf(env.order, yamlDoc.paths.Keys);
      var schemaNames := KeysOf(env.order, yamlDoc.components.schemas.Keys);
      CheckPathRefs(pathKeys);
      CheckSchemaRefs(schemaNames);
      AppendAssoc(old(errors), PathsRefFindings(env.order, yamlDoc.components.schemas, yamlDoc.paths, pathKeys),
                  SchemasRefFindings(env.order, yamlDoc.components.schemas, schemaNames));
    }

    /** CheckDuplicateOperationIDs: collect the captured ids, then report the first repeated one. */
    method CheckDuplicateOperationIDs()
      modifies this
      ensures operationIds == OperationIds(env.operationIdMatches(doc))
      ensures isValidOperationIds <==> !Distinct(operationIds)
      ensures errors == old(errors) + OperationIdFindings(operationIds)
    {
      var allMatches := env.operationIdMatches(doc);
      var ids: seq<string> := [];
      var i := 0;
      ghost var all := OperationIds(allMatches);
      while i < |allMatches|
        invariant 0 <= i <= |all|
        invariant ids == all[..i]
      {
        if |allMatches[i]| != 2 {
          break;
        }
        assert all[..i + 1] == all[..i] + [all[i]];
        ids := ids + [allMatches[i][1]];
        i := i + 1;
      }
      assert i == |all|;
      assert all[..i] == all;
      operationIds := ids;
      var dupValues, isValid := HasSliceDuplicateString(ids);
      isValidOperationIds := isValid;
      DuplicatesIffNotDistinct(ids);
      ReportEach(DuplicatedIdMessage, dupValues);
    }

    /** CheckDuplicateSchemaPropertyNames: a conversion error, or the repeated key, per schema. */
    method CheckDuplicateSchemaPropertyNames()
      modifies this
      ensures errors == old(errors) + PropertyNamesFindings(env.order, env.convert, yamlDoc.components.schemas,
                                                            KeysOf(env.order, yamlDoc.components.schemas.Keys))
      ensures FindingsOnly()
    {
      CheckSchemasPropertyNames(KeysOf(env.order, yamlDoc.components.schemas.Keys));
    }

    /** The loop of CheckDuplicateSchemaPropertyNames, over the schema names in the order `ks` lists them. */
    method CheckSchemasPropertyNames(ks: seq<string>)
      requires forall k :: k in ks ==> k in yamlDoc.components.schemas
      modifies this
      ensures errors == old(errors) + PropertyNamesFindings(env.order, env.convert, yamlDoc.components.schemas, ks)
      ensures FindingsOnly()
    {
      var schemas := yamlDoc.components.schemas;
      var i := 0;
      while i < |ks|
        invariant 0 <= i <= |ks|
        invariant forall k :: k in ks[..i] ==> k in schemas
        invariant errors == old(errors) + PropertyNamesFindings(env.order, env.convert, schemas, ks[..i])
        invariant FindingsOnly()
      {
        assert ks[..i + 1][..i] == ks[..i];
        CheckSchemaPropertyNames(ks[i], schemas[ks[i]]);
        AppendAssoc(old(errors), PropertyNamesFindings(env.order, env.convert, schemas, ks[..i]),
                    SchemaNameFindings(env.order, env.convert, ks[i], schemas[ks[i]]));
        i := i + 1;
      }
      assert ks[..i] == ks;
    }

    /** The loop body of CheckDuplicateSchemaPropertyNames. */
    method CheckSchemaPropertyNames(schemaName: string, schema: Schema)
      modifies this
      ensures errors == old(errors) + SchemaNameFindings(env.order, env.convert, schemaName, schema)
      ensures FindingsOnly()
    {
      match env.convert(schema.properties) {
        case Err(e) =>
          BuildError(e);
        case Ok(mapStringInterface) =>
          var keys := GetMapKeys(env.order, mapStringInterface);
          var dupValues, hasDuplicateValue := HasSliceDuplicateString(keys);
          if hasDuplicateValue {
            ReportEach(DuplicatedPropertyMessage(schemaName), dupValues);
          }
      }
    }

    /** CheckParamStartWithForeSlash: one finding per path key not starting with '/'. */
    method CheckParamStartWithForeSlash()
      requires NoEmptyPath(yamlDoc)
      modifies this
      ensures errors == old(errors) + SlashFindings(KeysOf(env.order, yamlDoc.paths.Keys))
      ensures FindingsOnly()
    {
      CheckPathsSlash(KeysOf(env.order, yamlDoc.paths.Keys));
    }

    /** The loop of CheckParamStartWithForeSlash, over the path keys in the order `ks` lists them. */
    method CheckPathsSlash(ks: seq<string>)
      requires "" !in ks
      modifies this
      ensures errors == old(errors) + SlashFindings(ks)
      ensures FindingsOnly()
    {
      var i := 0;
      while i < |ks|
        invariant 0 <= i <= |ks|
        invariant errors == old(errors) + SlashFindings(ks[..i])
        invariant FindingsOnly()
      {
        assert ks[..i + 1][..i] == ks[..i];
        CheckPathSlash(ks[i]);
        AppendAssoc(old(errors), SlashFindings(ks[..i]), SlashFinding(ks[i]));
        i := i + 1;
      }
      assert ks[..i] == ks;
    }

    /** The loop body of CheckParamStartWithForeSlash. */
    method CheckPathSlash(path: string)
      requires path != ""
      modifies this
      ensures errors == old(errors) + SlashFinding(path)
      ensures FindingsOnly()
    {
      if path[0] != '/' {
        BuildError(NoSlashMessage(path));
      }
    }

    /** CheckUniqueGetParameters: per path with a GET operation, the first repeated parameter name. */
    method CheckUniqueGetParameters()
      modifies this
      ensures errors == old(errors) + GetParamsFindings(yamlDoc.paths, KeysOf(env.order, yamlDoc.paths.Keys))
      ensures FindingsOnly()
    {
      CheckPathsGetParameters(KeysOf(env.order, yamlDoc.paths.Keys));
    }

    /** The loop of CheckUniqueGetParameters, over the path keys in the order `ks` lists them. */
    method CheckPathsGetParameters(ks: seq<string>)
      requires forall k :: k in ks ==> k in yamlDoc.paths
      modifies this
      ensures errors == old(errors) + GetParamsFindings(yamlDoc.paths, ks)
      ensures FindingsOnly()
    {
      var paths := yamlDoc.paths;
      var i := 0;
      while i < |ks|
        invariant 0 <= i <= |ks|
        invariant forall k :: k in ks[..i] ==> k in paths
        invariant errors == old(errors) + GetParamsFindings(paths, ks[..i])
        invariant FindingsOnly()
      {
        assert ks[..i + 1][..i] == ks[..i];
        CheckPathGetParameters(ks[i], paths[ks[i]]);
        AppendAssoc(old(errors), GetParamsFindings(paths, ks[..i]), GetParamFindings(ks[i], paths[ks[i]]));
        i := i + 1;
      }
      assert ks[..i] == ks;
    }

    /** The loop body of CheckUniqueGetParameters: only a GET operation with parameters is looked at. */
    method CheckPathGetParameters(path: string, operations: Operations)
      modifies this
      ensures errors == old(errors) + GetParamFindings(path, operations)
      ensures FindingsOnly()
    {
      if operations.get.Some? && |operations.get.value.parameters| > 0 {
        var parameterNames := CollectParameterNames(operations.get.value.parameters);
        var dupValues, hasDuplicateValue := HasSliceDuplicateString(parameterNames);
        if hasDuplicateValue {
          ReportEach(DuplicatedParameterMessage(path), dupValues);
        }
      } else if operations.get.Some? {
        assert ParameterNames(operations.get.value.parameters) == [];
        DuplicatesIffNotDistinct([]);
      }
    }

    /** CheckUniquePathInParameters: per method, the first path listed twice. */
    method CheckUniquePathInParameters()
      modifies this
      ensures errors == old(errors) + UniquePathFindings(env.order, yamlDoc.paths)
      ensures FindingsOnly()
    {
      var paths := yamlDoc.paths;
      var mapPathParameters := CollectMethodPaths(paths, KeysOf(env.order, paths.Keys));
      var ms := KeysOf(env.order, mapPathParameters.Keys);
      var j := 0;
      while j < |ms|
        invariant 0 <= j <= |ms|
        invariant forall m :: m in ms[..j] ==> m in mapPathParameters
        invariant errors == old(errors) + MethodFindings(mapPathParameters, ms[..j])
        invariant FindingsOnly()
      {
        assert ms[..j + 1][..j] == ms[..j];
        CheckMethodPaths(ms[j], mapPathParameters[ms[j]]);
        AppendAssoc(old(errors), MethodFindings(mapPathParameters, ms[..j]),
                    MethodFinding(ms[j], mapPathParameters[ms[j]]));
        j := j + 1;
      }
      assert ms[..j] == ms;
    }

    /** The loop body of the second loop of CheckUniquePathInParameters. */
    method CheckMethodPaths(name: string, methodPaths: seq<string>)
      modifies this
      ensures errors == old(errors) + MethodFinding(name, methodPaths)
      ensures FindingsOnly()
    {
      var dupValues, hasDuplicateValue := HasSliceDuplicateString(methodPaths);
      if hasDuplicateValue {
        ReportEach(DuplicatedPathMessage(name), dupValues);
      }
    }
  }

  lemma AppendAssoc(a: seq<string>, b: seq<string>, c: seq<string>)
    ensures a + b + c == a + (b + c)
  {
  }

  /** The names of a parameter list, in order. */
  method CollectParameterNames(parameters: seq<Parameter>) returns (parameterNames: seq<string>)
    ensures parameterNames == ParameterNames(parameters)
  {
    parameterNames := [];
    var i := 0;
    while i < |parameters|
      invariant 0 <= i <= |parameters|
      invariant parameterNames == ParameterNames(parameters[..i])
    {
      parameterNames := parameterNames + [parameters[i].name];
      i := i + 1;
    }
    assert parameters[..i] == parameters;
  }

  /** The first loop of CheckUniquePathInParameters: each path joins the list of each of its methods. */
  method CollectMethodPaths(paths: PathsDict, ks: seq<string>) returns (mapPathParameters: MethodPaths)
    requires forall k :: k in ks ==> k in paths
    ensures mapPathParameters == MethodPathsOf(paths, ks)
  {
    mapPathParameters := map[];
    var i := 0;
    while i < |ks|
      invariant 0 <= i <= |ks|
      invariant mapPathParameters == MethodPathsOf(paths, ks[..i])
    {
      assert ks[..i + 1][..i] == ks[..i];
      var path := ks[i];
      var operations := paths[path];
      if operations.get.Some? {
        mapPathParameters := mapPathParameters["get" := Entry(mapPathParameters, "get") + [path]];
      }
      if operations.post.Some? {
        mapPathParameters := mapPathParameters["post" := Entry(mapPathParameters, "post") + [path]];
      }
      if operations.put.Some? {
        mapPathParameters := mapPathParameters["put" := Entry(mapPathParameters, "put") + [path]];
      }
      if operations.patch.Some? {
        mapPathParameters := mapPathParameters["patch" := Entry(mapPathParameters, "patch") + [path]];
      }
      if operations.delete.Some? {
        mapPathParameters := mapPathParameters["delete" := Entry(mapPathParameters, "delete") + [path]];
      }
      i := i + 1;
    }
    assert ks[..i] == ks;
  }

  /**
   * ValidateRaw: an unmarshal error is returned alone; otherwise the six checks run in
   * their fixed order over a validator whose text is never set, and nil means no finding.
   */
  method ValidateRaw(env: Env, unmarshaled: Result<Document>) returns (r: Option<seq<string>>)
    requires unmarshaled.Ok? ==> NoEmptyPath(unmarshaled.value)
    ensures unmarshaled.Err? ==> r == Some([unmarshaled.error])
    ensures unmarshaled.Ok? ==> r == (if AllFindings(env, unmarshaled.value, "") == [] then None
                                      else Some(AllFindings(env, unmarshaled.value, "")))
  {
    match unmarshaled {
      case Err(e) =>
        return Some([e]);
      case Ok(yamlDoc) =>
        ghost var pks := KeysOf(env.order, yamlDoc.paths.Keys);
        ghost var refs := RefCheckFindings(env.order, yamlDoc);
        ghost var ids := OperationIdFindings(OperationIds(env.operationIdMatches("")));
        ghost var names := PropertyNamesFindings(env.order, env.convert, yamlDoc.components.schemas,
                                                 KeysOf(env.order, yamlDoc.components.schemas.Keys));
        ghost var slashes := SlashFindings(pks);
        ghost var gets := GetParamsFindings(yamlDoc.paths, pks);
        ghost var uniques := UniquePathFindings(env.order, yamlDoc.paths);
        assert AllFindings(env, yamlDoc, "") == refs + ids + names + slashes + gets + uniques;
        var validator := new OpenApiValidator(env, yamlDoc);
        validator.CheckAllRefsExistsInSchema();
        assert validator.errors == refs;
        validator.CheckDuplicateOperationIDs();
        assert validator.errors == refs + ids;
        validator.CheckDuplicateSchemaPropertyNames();
        validator.CheckParamStartWithForeSlash();
        assert validator.errors == refs + ids + names + slashes;
        validator.CheckUniqueGetParameters();
        validator.CheckUniquePathInParameters();
        var errors := validator.errors;
        assert errors == AllFindings(env, yamlDoc, "");
        if |errors| > 0 {
          return Some(errors);
        }
        return None;
    }
  }

  /** Errors.Error: the messages, one per error and in order, handed to the JSON encoder. */
  method ErrorText(errs: seq<string>, encode: seq<string> -> Result<string>) returns (text: string)
    ensures text == match encode(errs) case Ok(t) => t case Err(e) => e
  {
    var content: seq<string> := [];
    var i := 0;
    while i < |errs|
      invariant 0 <= i <= |errs|
      invariant content == errs[..i]
    {
      content := content + [errs[i]];
      i := i + 1;
    }
    assert errs[..i] == errs;
    match encode(content) {
      case Err(e) => text := e;
      case Ok(t) => text := t;
    }
  }
}
