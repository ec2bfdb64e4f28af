/**
 * What each validator check appends to the findings, as functions of the decoded
 * document. Map iteration goes through a `KeyOrder`; every fold here lists a map's keys in
 * that order and visits them front to back.
 */
module ValidatorFindings {

  import opened Wrappers
  import opened Text
  import opened Types
  import opened MapOrder
  import opened ValidatorUtils

  /** One message per value, in order: the `for _, dupValue := range dupValues` loops. */
  function Messages(f: string -> string, values: seq<string>): (r: seq<string>)
    ensures |r| == |values|
  {
    seq(|values|, i requires 0 <= i < |values| => f(values[i]))
  }

  // ---------------------------------------------------------------------------------------
  // References (checkAllRefsExistsInSchema.go)
  // ---------------------------------------------------------------------------------------

  /** The text after the last '/' of a reference: the name isRefExistsInSchema looks up. */
  function LastSegment(ref: string): string {
    var parts := Split(ref, '/');
    parts[|parts| - 1]
  }

  /** isRefExistsInSchema as a predicate. */
  predicate RefExists(schemas: SchemasDict, ref: string) {
    LastSegment(ref) in schemas
  }

  /** A bare schema name and its full reference resolve alike. */
  lemma RefForms(schemas: SchemasDict, name: string)
    requires '/' !in name
    ensures RefExists(schemas, name) <==> name in schemas
    ensures RefExists(schemas, SchemaRefPrefix + name) <==> name in schemas
  {
    SplitSingle(name, '/');
    assert SchemaRefPrefix + name == "#/components/schemas" + ['/'] + name;
    SplitLast("#/components/schemas", name, '/');
  }

  /** The bare prefix resolves only when the empty name is a schema. */
  lemma BarePrefixRef(schemas: SchemasDict)
    ensures RefExists(schemas, SchemaRefPrefix) <==> "" in schemas
  {
    RefForms(schemas, "");
    assert SchemaRefPrefix + "" == SchemaRefPrefix;
  }

  function MissingRefMessage(ref: string): string {
    "Ref " + ref + " does not exist in schema"
  }

  /** A checked reference is empty or resolves. */
  predicate RefOk(schemas: SchemasDict, ref: string) {
    ref == "" || RefExists(schemas, ref)
  }

  /** The findings of one checked reference. */
  function RefFindings(schemas: SchemasDict, ref: string): seq<string> {
    if ref != "" && !RefExists(schemas, ref) then [MissingRefMessage(ref)] else []
  }

  predicate ResponseOk(schemas: SchemasDict, response: Response) {
    RefOk(schemas, response.content.formUrlencoded.schemaRef)
    && RefOk(schemas, response.content.applicationJson.schemaRef)
  }

  /** One response: the form-urlencoded reference, then the JSON one. */
  function ResponseFindings(schemas: SchemasDict, response: Response): seq<string> {
    RefFindings(schemas, response.content.formUrlencoded.schemaRef)
      + RefFindings(schemas, response.content.applicationJson.schemaRef)
  }

  /** checkResponseRefExistsInSchema over the response codes `ks`. */
  function ResponsesFindings(schemas: SchemasDict, responses: Responses, ks: seq<string>): seq<string>
    requires forall k :: k in ks ==> k in responses
    decreases |ks|
  {
    if |ks| == 0 then []
    else
      var init := ks[..|ks| - 1];
      assert forall k :: k in init ==> k in ks;
      ResponsesFindings(schemas, responses, init) + ResponseFindings(schemas, responses[ks[|ks| - 1]])
  }

  /** Only the JSON reference of a request body is checked. */
  predicate OperationOk(schemas: SchemasDict, op: Operation) {
    && (op.requestBody.Some? ==> RefOk(schemas, op.requestBody.value.content.applicationJson.schemaRef))
    && (forall code :: code in op.responses ==> ResponseOk(schemas, op.responses[code]))
  }

  /** The findings of one operation: its request body, then its responses. */
  function OperationFindings(order: KeyOrder, schemas: SchemasDict, op: Operation): seq<string> {
    var responses := ResponsesFindings(schemas, op.responses, KeysOf(order, op.responses.Keys));
    if op.requestBody.Some? then RefFindings(schemas, op.requestBody.value.content.applicationJson.schemaRef) + responses
    else responses
  }

  function SlotFindings(order: KeyOrder, schemas: SchemasDict, slot: Option<Operation>): seq<string> {
    match slot
    case None => []
    case Some(op) => OperationFindings(order, schemas, op)
  }

  predicate SlotOk(schemas: SchemasDict, slot: Option<Operation>) {
    slot.Some? ==> OperationOk(schemas, slot.value)
  }

  /** Every operation of a path passes. */
  predicate OperationsOk(schemas: SchemasDict, ops: Operations) {
    && SlotOk(schemas, ops.get) && SlotOk(schemas, ops.put) && SlotOk(schemas, ops.post)
    && SlotOk(schemas, ops.delete) && SlotOk(schemas, ops.patch)
  }

  /** The five slots of a path, in the order Get, Put, Patch, Delete, Post. */
  function PathFindings(order: KeyOrder, schemas: SchemasDict, ops: Operations): seq<string> {
    SlotFindings(order, schemas, ops.get) + SlotFindings(order, schemas, ops.put)
      + SlotFindings(order, schemas, ops.patch) + SlotFindings(order, schemas, ops.delete)
      + SlotFindings(order, schemas, ops.post)
  }

  /** The path half of CheckAllRefsExistsInSchema over the path keys `ks`. */
  function PathsRefFindings(order: KeyOrder, schemas: SchemasDict, paths: PathsDict, ks: seq<string>): seq<string>
    requires forall k :: k in ks ==> k in paths
    decreases |ks|
  {
    if |ks| == 0 then []
    else
      var init := ks[..|ks| - 1];
      assert forall k :: k in init ==> k in ks;
      PathsRefFindings(order, schemas, paths, init) + PathFindings(order, schemas, paths[ks[|ks| - 1]])
  }

  predicate PropertyOk(schemas: SchemasDict, p: Property) {
    RefOk(schemas, p.ref) && (p.items.Some? ==> RefOk(schemas, p.items.value.ref))
  }

  /** One property: its Ref, then its Items.Ref. */
  function PropertyFindings(schemas: SchemasDict, p: Property): seq<string> {
    RefFindings(schemas, p.ref) + if p.items.Some? then RefFindings(schemas, p.items.value.ref) else []
  }

  /** The properties `ks` of one schema. */
  function PropertiesFindings(schemas: SchemasDict, props: map<string, Property>, ks: seq<string>): seq<string>
    requires forall k :: k in ks ==> k in props
    decreases |ks|
  {
    if |ks| == 0 then []
    else
      var init := ks[..|ks| - 1];
      assert forall k :: k in init ==> k in ks;
      PropertiesFindings(schemas, props, init) + PropertyFindings(schemas, props[ks[|ks| - 1]])
  }

  predicate SchemaOk(schemas: SchemasDict, s: Schema) {
    forall n :: n in s.properties ==> PropertyOk(schemas, s.properties[n])
  }

  function SchemaRefFindings(order: KeyOrder, schemas: SchemasDict, s: Schema): seq<string> {
    PropertiesFindings(schemas, s.properties, KeysOf(order, s.properties.Keys))
  }

  /** The schema half of CheckAllRefsExistsInSchema over the schema names `ks`. */
  function SchemasRefFindings(order: KeyOrder, schemas: SchemasDict, ks: seq<string>): seq<string>
    requires forall k :: k in ks ==> k in schemas
    decreases |ks|
  {
    if |ks| == 0 then []
    else
      var init := ks[..|ks| - 1];
      assert forall k :: k in init ==> k in ks;
      SchemasRefFindings(order, schemas, init) + SchemaRefFindings(order, schemas, schemas[ks[|ks| - 1]])
  }

  /** Every checked reference of the document is empty or names a schema. */
  predicate RefsResolved(doc: Document) {
    && (forall p :: p in doc.paths ==> OperationsOk(doc.components.schemas, doc.paths[p]))
    && (forall n :: n in doc.components.schemas ==> SchemaOk(doc.components.schemas, doc.components.schemas[n]))
  }

  /** CheckAllRefsExistsInSchema: the paths, then the schemas. */
  function RefCheckFindings(order: KeyOrder, doc: Document): seq<string> {
    var schemas := doc.components.schemas;
    var pks := KeysOf(order, doc.paths.Keys);
    var sks := KeysOf(order, schemas.Keys);
    PathsRefFindings(order, schemas, doc.paths, pks) + SchemasRefFindings(order, schemas, sks)
  }

  /** The responses `ks` give no finding exactly when each of their two references passes. */
  lemma {:induction false} ResponsesFindingsIff(schemas: SchemasDict, responses: Responses, ks: seq<string>)
    requires forall k :: k in ks ==> k in responses
    ensures ResponsesFindings(schemas, responses, ks) == [] <==> forall k :: k in ks ==> ResponseOk(schemas, responses[k])
    decreases |ks|
  {
    if |ks| > 0 {
      var init := ks[..|ks| - 1];
      assert forall k :: k in ks <==> k in init || k == ks[|ks| - 1];
      ResponsesFindingsIff(schemas, responses, init);
    }
  }

  /** An operation gives no finding exactly when its request body and responses pass. */
  lemma OperationFindingsIff(order: KeyOrder, schemas: SchemasDict, op: Operation)
    requires IsKeyOrder(order)
    ensures OperationFindings(order, schemas, op) == [] <==> OperationOk(schemas, op)
  {
    var ks := KeysOf(order, op.responses.Keys);
    KeysOfLists(order, op.responses.Keys);
    ResponsesFindingsIff(schemas, op.responses, ks);
  }

  /** A path gives no finding exactly when each of its operations passes. */
  lemma PathFindingsIff(order: KeyOrder, schemas: SchemasDict, ops: Operations)
    requires IsKeyOrder(order)
    ensures PathFindings(order, schemas, ops) == [] <==> OperationsOk(schemas, ops)
  {
    SlotFindingsIff(order, schemas, ops.get);
    SlotFindingsIff(order, schemas, ops.put);
    SlotFindingsIff(order, schemas, ops.patch);
    SlotFindingsIff(order, schemas, ops.delete);
    SlotFindingsIff(order, schemas, ops.post);
    var r := PathFindings(order, schemas, ops);
    assert |r| == |SlotFindings(order, schemas, ops.get)| + |SlotFindings(order, schemas, ops.put)|
      + |SlotFindings(order, schemas, ops.patch)| + |SlotFindings(order, schemas, ops.delete)|
      + |SlotFindings(order, schemas, ops.post)|;
  }

  lemma SlotFindingsIff(order: KeyOrder, schemas: SchemasDict, slot: Option<Operation>)
    requires IsKeyOrder(order)
    ensures SlotFindings(order, schemas, slot) == [] <==> SlotOk(schemas, slot)
  {
    if slot.Some? {
      OperationFindingsIff(order, schemas, slot.value);
    }
  }

  lemma {:induction false} PathsRefFindingsIff(order: KeyOrder, schemas: SchemasDict, paths: PathsDict, ks: seq<string>)
    requires IsKeyOrder(order)
    requires forall k :: k in ks ==> k in paths
    ensures PathsRefFindings(order, schemas, paths, ks) == [] <==> forall k :: k in ks ==> OperationsOk(schemas, paths[k])
    decreases |ks|
  {
    if |ks| > 0 {
      var init := ks[..|ks| - 1];
      assert forall k :: k in ks <==> k in init || k == ks[|ks| - 1];
      PathsRefFindingsIff(order, schemas, paths, init);
      PathFindingsIff(order, schemas, paths[ks[|ks| - 1]]);
    }
  }

  lemma {:induction false} PropertiesFindingsIff(schemas: SchemasDict, props: map<string, Property>, ks: seq<string>)
    requires forall k :: k in ks ==> k in props
    ensures PropertiesFindings(schemas, props, ks) == [] <==> forall k :: k in ks ==> PropertyOk(schemas, props[k])
    decreases |ks|
  {
    if |ks| > 0 {
      var init := ks[..|ks| - 1];
      assert forall k :: k in ks <==> k in init || k == ks[|ks| - 1];
      PropertiesFindingsIff(schemas, props, init);
    }
  }

  lemma {:induction false} SchemasRefFindingsIff(order: KeyOrder, schemas: SchemasDict, ks: seq<string>)
    requires IsKeyOrder(order)
    requires forall k :: k in ks ==> k in schemas
    ensures SchemasRefFindings(order, schemas, ks) == [] <==> forall k :: k in ks ==> SchemaOk(schemas, schemas[k])
    decreases |ks|
  {
    if |ks| > 0 {
      var init := ks[..|ks| - 1];
      assert forall k :: k in ks <==> k in init || k == ks[|ks| - 1];
      SchemasRefFindingsIff(order, schemas, init);
      var s := schemas[ks[|ks| - 1]];
      KeysOfLists(order, s.properties.Keys);
      PropertiesFindingsIff(schemas, s.properties, KeysOf(order, s.properties.Keys));
    }
  }

  /** The reference check reports nothing exactly when every checked reference resolves. */
  lemma RefCheckIff(order: KeyOrder, doc: Document)
    requires IsKeyOrder(order)
    ensures RefCheckFindings(order, doc) == [] <==> RefsResolved(doc)
  {
    var schemas := doc.components.schemas;
    var pks := KeysOf(order, doc.paths.Keys);
    var sks := KeysOf(order, schemas.Keys);
    KeysOfLists(order, doc.paths.Keys);
    KeysOfLists(order, schemas.Keys);
    PathsRefFindingsIff(order, schemas, doc.paths, pks);
    SchemasRefFindingsIff(order, schemas, sks);
  }

  // ---------------------------------------------------------------------------------------
  // Operation ids (checkDuplicateOperationIDs.go)
  // ---------------------------------------------------------------------------------------

  /** The first capture of each match, stopping at the first match that is not a pair. */
  function OperationIds(matches: seq<seq<string>>): (ids: seq<string>)
    ensures |ids| <= |matches|
    ensures forall i :: 0 <= i < |ids| ==> |matches[i]| == 2 && ids[i] == matches[i][1]
    ensures |ids| < |matches| ==> |matches[|ids|]| != 2
    decreases |matches|
  {
    if |matches| == 0 || |matches[0]| != 2 then []
    else [matches[0][1]] + OperationIds(matches[1..])
  }

  function DuplicatedIdMessage(id: string): string {
    "OperationId with value of " + id + " is duplicated"
  }

  function OperationIdFindings(ids: seq<string>): seq<string> {
    Messages(DuplicatedIdMessage, Duplicates(ids).0)
  }

  /**
   * At most one finding, for the earliest id that occurs twice, and none exactly when the
   * ids are distinct; IsValidOperationIds holds exactly when there is a duplicate.
   */
  lemma OperationIdFindingsIff(ids: seq<string>)
    ensures OperationIdFindings(ids) == [] <==> Distinct(ids)
    ensures Duplicates(ids).1 <==> !Distinct(ids)
    ensures |OperationIdFindings(ids)| <= 1
    ensures !Distinct(ids) ==>
      (exists k :: && 0 <= k < |ids| && Count(ids, ids[k]) >= 2
                   && (forall j :: 0 <= j < k ==> Count(ids, ids[j]) < 2)
                   && OperationIdFindings(ids) == [DuplicatedIdMessage(ids[k])])
  {
    DuplicatesIffNotDistinct(ids);
    if !Distinct(ids) {
      var k := FirstRepeatedFrom(ids, 0).value;
      assert OperationIdFindings(ids)[0] == DuplicatedIdMessage(ids[k]);
    }
  }

  // ---------------------------------------------------------------------------------------
  // Property names (checkDuplicateSchemaPropertyNames.go)
  // ---------------------------------------------------------------------------------------

  /** How a schema's properties survive the YAML round trip of ToMapStringInterface. */
  type Converter = map<string, Property> -> Result<map<string, Property>>

  function DuplicatedPropertyMessage(schemaName: string): string -> string {
    name => "Schema " + schemaName + " has duplicated property name " + name
  }

  /** One schema: the conversion error, or the duplicates among the converted keys. */
  function SchemaNameFindings(order: KeyOrder, convert: Converter, schemaName: string, s: Schema): seq<string> {
    match convert(s.properties)
    case Err(e) => [e]
    case Ok(m) => Messages(DuplicatedPropertyMessage(schemaName), Duplicates(KeysOf(order, m.Keys)).0)
  }

  /** CheckDuplicateSchemaPropertyNames over the schema names `ks`. */
  function PropertyNamesFindings(order: KeyOrder, convert: Converter, schemas: SchemasDict, ks: seq<string>): seq<string>
    requires forall k :: k in ks ==> k in schemas
    decreases |ks|
  {
    if |ks| == 0 then []
    else
      var init := ks[..|ks| - 1];
      assert forall k :: k in init ==> k in ks;
      PropertyNamesFindings(order, convert, schemas, init)
        + SchemaNameFindings(order, convert, ks[|ks| - 1], schemas[ks[|ks| - 1]])
  }

  /** The conversion errors of the schemas `ks`, in order. */
  function ConversionErrors(convert: Converter, schemas: SchemasDict, ks: seq<string>): (r: seq<string>)
    requires forall k :: k in ks ==> k in schemas
    ensures |r| <= |ks|
    decreases |ks|
  {
    if |ks| == 0 then []
    else
      var init := ks[..|ks| - 1];
      assert forall k :: k in init ==> k in ks;
      ConversionErrors(convert, schemas, init)
        + match convert(schemas[ks[|ks| - 1]].properties)
          case Err(e) => [e]
          case Ok(_) => []
  }

  /** Map keys are distinct, so the check reports only conversion errors. */
  lemma {:induction false} OnlyConversionErrors(order: KeyOrder, convert: Converter, schemas: SchemasDict, ks: seq<string>)
    requires IsKeyOrder(order)
    requires forall k :: k in ks ==> k in schemas
    ensures PropertyNamesFindings(order, convert, schemas, ks) == ConversionErrors(convert, schemas, ks)
    decreases |ks|
  {
    if |ks| > 0 {
      var init := ks[..|ks| - 1];
      assert forall k :: k in init ==> k in ks;
      OnlyConversionErrors(order, convert, schemas, init);
      var last := ks[|ks| - 1];
      match convert(schemas[last].properties)
      case Err(e) =>
      case Ok(m) =>
        var keys := KeysOf(order, m.Keys);
        KeysOfLists(order, m.Keys);
        DuplicatesIffNotDistinct(keys);
    }
  }

  // ---------------------------------------------------------------------------------------
  // Leading slash (checkParamStartWithForeSlash.go)
  // ---------------------------------------------------------------------------------------

  function NoSlashMessage(path: string): string {
    "Path " + path + " does not start with /"
  }

  /** One finding per path whose first character is not '/'. */
  function SlashFindings(ks: seq<string>): (r: seq<string>)
    requires "" !in ks
    ensures r == [] <==> forall i :: 0 <= i < |ks| ==> ks[i][0] == '/'
    ensures |r| <= |ks|
    decreases |ks|
  {
    if |ks| == 0 then []
    else
      var init := ks[..|ks| - 1];
      SlashFindings(init) + SlashFinding(ks[|ks| - 1])
  }

  /** One path key: a finding when its first character is not '/'. */
  function SlashFinding(path: string): seq<string>
    requires path != ""
  {
    if path[0] != '/' then [NoSlashMessage(path)] else []
  }

  /** Every path not starting with '/' has its own finding. */
  lemma {:induction false} SlashFindingPerPath(ks: seq<string>, i: nat)
    requires "" !in ks
    requires i < |ks| && ks[i][0] != '/'
    ensures NoSlashMessage(ks[i]) in SlashFindings(ks)
    decreases |ks|
  {
    var init := ks[..|ks| - 1];
    if i < |ks| - 1 {
      assert init[i] == ks[i];
      SlashFindingPerPath(init, i);
    }
  }

  // ---------------------------------------------------------------------------------------
  // GET parameters (checkUniqueGetParameters.go)
  // ---------------------------------------------------------------------------------------

  function ParameterNames(ps: seq<Parameter>): (names: seq<string>)
    ensures |names| == |ps|
  {
    seq(|ps|, i requires 0 <= i < |ps| => ps[i].name)
  }

  function DuplicatedParameterMessage(path: string): string -> string {
    name => "Path " + path + " has duplicated parameter " + name
  }

  /** One path: the duplicates among the names of its GET parameters. */
  function GetParamFindings(path: string, ops: Operations): seq<string> {
    match ops.get
    case None => []
    case Some(op) => Messages(DuplicatedParameterMessage(path), Duplicates(ParameterNames(op.parameters)).0)
  }

  /** CheckUniqueGetParameters over the path keys `ks`. */
  function GetParamsFindings(paths: PathsDict, ks: seq<string>): seq<string>
    requires forall k :: k in ks ==> k in paths
    decreases |ks|
  {
    if |ks| == 0 then []
    else
      var init := ks[..|ks| - 1];
      assert forall k :: k in init ==> k in ks;
      GetParamsFindings(paths, init) + GetParamFindings(ks[|ks| - 1], paths[ks[|ks| - 1]])
  }

  /** The GET parameter names of a path are distinct, when it has a GET operation. */
  predicate GetNamesDistinct(ops: Operations) {
    ops.get.Some? ==> Distinct(ParameterNames(ops.get.value.parameters))
  }

  /** A path gives at most one finding, and none exactly when its GET names are distinct. */
  lemma GetParamFindingIff(path: string, ops: Operations)
    ensures |GetParamFindings(path, ops)| <= 1
    ensures GetParamFindings(path, ops) == [] <==> GetNamesDistinct(ops)
  {
    if ops.get.Some? {
      DuplicatesIffNotDistinct(ParameterNames(ops.get.value.parameters));
    }
  }

  /** The check reports nothing exactly when every path's GET names are distinct. */
  lemma {:induction false} GetParamsFindingsIff(paths: PathsDict, ks: seq<string>)
    requires forall k :: k in ks ==> k in paths
    ensures GetParamsFindings(paths, ks) == [] <==> forall k :: k in ks ==> GetNamesDistinct(paths[k])
    decreases |ks|
  {
    if |ks| > 0 {
      var init := ks[..|ks| - 1];
      assert forall k :: k in ks <==> k in init || k == ks[|ks| - 1];
      GetParamsFindingsIff(paths, init);
      GetParamFindingIff(ks[|ks| - 1], paths[ks[|ks| - 1]]);
    }
  }

  // ---------------------------------------------------------------------------------------
  // Paths per method (checkUniquePathInParameters.go)
  // ---------------------------------------------------------------------------------------

  type MethodPaths = map<string, seq<string>>

  /** A Go map read: the stored list, or nil for a missing key. */
  function Entry(mp: MethodPaths, name: string): seq<string> {
    if name in mp then mp[name] else []
  }

  /** Appends `path` to the list of `name` when `present`. */
  function AppendPath(mp: MethodPaths, name: string, path: string, present: bool): MethodPaths {
    if present then mp[name := Entry(mp, name) + [path]] else mp
  }

  /** One path: it joins the list of each method it carries, in the order get, post, put, patch, delete. */
  function AddPathMethods(mp: MethodPaths, path: string, ops: Operations): MethodPaths {
    var m1 := AppendPath(mp, "get", path, ops.get.Some?);
    var m2 := AppendPath(m1, "post", path, ops.post.Some?);
    var m3 := AppendPath(m2, "put", path, ops.put.Some?);
    var m4 := AppendPath(m3, "patch", path, ops.patch.Some?);
    AppendPath(m4, "delete", path, ops.delete.Some?)
  }

  /** The method-to-paths map built over the path keys `ks`. */
  function MethodPathsOf(paths: PathsDict, ks: seq<string>): MethodPaths
    requires forall k :: k in ks ==> k in paths
    decreases |ks|
  {
    if |ks| == 0 then map[]
    else
      var init := ks[..|ks| - 1];
      assert forall k :: k in init ==> k in ks;
      AddPathMethods(MethodPathsOf(paths, init), ks[|ks| - 1], paths[ks[|ks| - 1]])
  }

  /** The slot a lower-case method key of the map stands for. */
  function Carries(ops: Operations, name: string): bool {
    if name == "get" then ops.get.Some?
    else if name == "post" then ops.post.Some?
    else if name == "put" then ops.put.Some?
    else if name == "patch" then ops.patch.Some?
    else if name == "delete" then ops.delete.Some?
    else false
  }

  /** The keys among `ks` whose paths carry method `name`, in order. */
  function Carriers(paths: PathsDict, ks: seq<string>, name: string): (r: seq<string>)
    requires forall k :: k in ks ==> k in paths
    ensures forall k :: k in r ==> k in ks
    decreases |ks|
  {
    if |ks| == 0 then []
    else
      var init := ks[..|ks| - 1];
      assert forall k :: k in ks <==> k in init || k == ks[|ks| - 1];
      Carriers(paths, init, name) + if Carries(paths[ks[|ks| - 1]], name) then [ks[|ks| - 1]] else []
  }

  /** One append touches only the list of its own method. */
  lemma AppendPathEffect(mp: MethodPaths, m: string, path: string, present: bool, name: string)
    ensures var r := AppendPath(mp, m, path, present);
      && (name in r <==> name in mp || (present && m == name))
      && Entry(r, name) == (if present && m == name then Entry(mp, name) + [path] else Entry(mp, name))
  {
  }

  /** A path joins exactly the lists of the methods it carries. */
  lemma AddPathMethodsEffect(mp: MethodPaths, path: string, ops: Operations, name: string)
    ensures var r := AddPathMethods(mp, path, ops);
      && (name in r <==> name in mp || Carries(ops, name))
      && Entry(r, name) == (if Carries(ops, name) then Entry(mp, name) + [path] else Entry(mp, name))
  {
    var m1 := AppendPath(mp, "get", path, ops.get.Some?);
    var m2 := AppendPath(m1, "post", path, ops.post.Some?);
    var m3 := AppendPath(m2, "put", path, ops.put.Some?);
    var m4 := AppendPath(m3, "patch", path, ops.patch.Some?);
    AppendPathEffect(mp, "get", path, ops.get.Some?, name);
    AppendPathEffect(m1, "post", path, ops.post.Some?, name);
    AppendPathEffect(m2, "put", path, ops.put.Some?, name);
    AppendPathEffect(m3, "patch", path, ops.patch.Some?, name);
    AppendPathEffect(m4, "delete", path, ops.delete.Some?, name);
    if name == "get" {
      assert Entry(m4, name) == Entry(m1, name);
    } else if name == "post" {
      assert Entry(m4, name) == Entry(m2, name) && Entry(m1, name) == Entry(mp, name);
    } else if name == "put" {
      assert Entry(m4, name) == Entry(m3, name) && Entry(m2, name) == Entry(mp, name);
    } else if name == "patch" {
      assert Entry(m3, name) == Entry(mp, name);
    } else {
      assert Entry(m4, name) == Entry(mp, name);
    }
  }

  /** Each method's list holds exactly the paths carrying it, in key order; lists are never empty. */
  lemma {:induction false} MethodPathsAreCarriers(paths: PathsDict, ks: seq<string>, name: string)
    requires forall k :: k in ks ==> k in paths
    ensures name in MethodPathsOf(paths, ks) <==> Carriers(paths, ks, name) != []
    ensures name in MethodPathsOf(paths, ks) ==> MethodPathsOf(paths, ks)[name] == Carriers(paths, ks, name)
    decreases |ks|
  {
    if |ks| > 0 {
      var init := ks[..|ks| - 1];
      assert forall k :: k in init ==> k in ks;
      MethodPathsAreCarriers(paths, init, name);
      AddPathMethodsEffect(MethodPathsOf(paths, init), ks[|ks| - 1], paths[ks[|ks| - 1]], name);
    }
  }

  /** Keeping some elements of a distinct list in order keeps it distinct. */
  lemma {:induction false} CarriersDistinct(paths: PathsDict, ks: seq<string>, name: string)
    requires forall k :: k in ks ==> k in paths
    requires Distinct(ks)
    ensures Distinct(Carriers(paths, ks, name))
    decreases |ks|
  {
    if |ks| > 0 {
      var init := ks[..|ks| - 1];
      assert forall k :: k in init ==> k in ks;
      assert Distinct(init);
      CarriersDistinct(paths, init, name);
      var last := ks[|ks| - 1];
      assert last !in init;
    }
  }

  function DuplicatedPathMessage(name: string): string -> string {
    path => "Method " + name + " has duplicated path " + path
  }

  /** The second loop of the check, over the method keys `ms`. */
  function MethodFindings(mp: MethodPaths, ms: seq<string>): seq<string>
    requires forall m :: m in ms ==> m in mp
    decreases |ms|
  {
    if |ms| == 0 then []
    else
      var init := ms[..|ms| - 1];
      assert forall m :: m in init ==> m in ms;
      MethodFindings(mp, init) + MethodFinding(ms[|ms| - 1], mp[ms[|ms| - 1]])
  }

  /** One method: the first path its list holds twice. */
  function MethodFinding(name: string, methodPaths: seq<string>): seq<string> {
    Messages(DuplicatedPathMessage(name), Duplicates(methodPaths).0)
  }

  /** CheckUniquePathInParameters. */
  function UniquePathFindings(order: KeyOrder, paths: PathsDict): seq<string> {
    var mp := MethodPathsOf(paths, KeysOf(order, paths.Keys));
    MethodFindings(mp, KeysOf(order, mp.Keys))
  }

  /** With no repeated path in any list, the second loop reports nothing. */
  lemma {:induction false} MethodFindingsNone(mp: MethodPaths, ms: seq<string>)
    requires forall m :: m in ms ==> m in mp && Distinct(mp[m])
    ensures MethodFindings(mp, ms) == []
    decreases |ms|
  {
    if |ms| > 0 {
      var init := ms[..|ms| - 1];
      assert forall m :: m in init ==> m in ms;
      MethodFindingsNone(mp, init);
      DuplicatesIffNotDistinct(mp[ms[|ms| - 1]]);
    }
  }

  /** Path keys are distinct, so no method lists a path twice and the check never reports. */
  lemma NoDuplicatedPaths(order: KeyOrder, paths: PathsDict)
    requires IsKeyOrder(order)
    ensures UniquePathFindings(order, paths) == []
  {
    var ks := KeysOf(order, paths.Keys);
    KeysOfLists(order, paths.Keys);
    var mp := MethodPathsOf(paths, ks);
    forall m | m in mp
      ensures Distinct(mp[m])
    {
      MethodPathsAreCarriers(paths, ks, m);
      CarriersDistinct(paths, ks, m);
    }
    MethodFindingsNone(mp, KeysOf(order, mp.Keys));
  }

  // ---------------------------------------------------------------------------------------
  // ValidateRaw (validator.go)
  // ---------------------------------------------------------------------------------------

  /** The collaborators ValidateRaw needs: map order, the operation-id matcher, the converter. */
  datatype Env = Env(
    order: KeyOrder,
    operationIdMatches: string -> seq<seq<string>>,
    convert: Converter)

  /** Go panics on `path[0]` for an empty path key. */
  predicate NoEmptyPath(doc: Document) {
    "" !in doc.paths
  }

  /** The six checks in their fixed order, run over the document and its text. */
  function AllFindings(env: Env, doc: Document, text: string): seq<string>
    requires NoEmptyPath(doc)
  {
    var pks := KeysOf(env.order, doc.paths.Keys);
    var sks := KeysOf(env.order, doc.components.schemas.Keys);
    RefCheckFindings(env.order, doc)
      + OperationIdFindings(OperationIds(env.operationIdMatches(text)))
      + PropertyNamesFindings(env.order, env.convert, doc.components.schemas, sks)
      + SlashFindings(pks)
      + GetParamsFindings(doc.paths, pks)
      + UniquePathFindings(env.order, doc.paths)
  }

  /** What ValidateRaw returns: nil, or the findings; an unmarshal error runs no check. */
  function ValidateRawResult(env: Env, unmarshaled: Result<Document>): (r: Option<seq<string>>)
    requires unmarshaled.Ok? ==> NoEmptyPath(unmarshaled.value)
  {
    match unmarshaled
    case Err(e) => Some([e])
    case Ok(doc) =>
      var findings := AllFindings(env, doc, "");
      if |findings| > 0 then Some(findings) else None
  }

  /** The findings the reference, conversion, slash and GET-parameter checks produce. */
  function DecodedFindings(env: Env, doc: Document): seq<string>
    requires NoEmptyPath(doc)
  {
    var pks := KeysOf(env.order, doc.paths.Keys);
    var sks := KeysOf(env.order, doc.components.schemas.Keys);
    RefCheckFindings(env.order, doc)
      + ConversionErrors(env.convert, doc.components.schemas, sks)
      + SlashFindings(pks)
      + GetParamsFindings(doc.paths, pks)
  }

  /**
   * ValidateRaw never sets the validator's text, so when the operation-id pattern finds
   * nothing in "" that check contributes nothing; the property-name check reports only
   * conversion errors and the method/path check nothing at all.
   */
  lemma ValidateRawFindings(env: Env, doc: Document)
    requires IsKeyOrder(env.order) && NoEmptyPath(doc)
    requires env.operationIdMatches("") == []
    ensures AllFindings(env, doc, "") == DecodedFindings(env, doc)
  {
    var pks := KeysOf(env.order, doc.paths.Keys);
    var sks := KeysOf(env.order, doc.components.schemas.Keys);
    var refs := RefCheckFindings(env.order, doc);
    var conversions := ConversionErrors(env.convert, doc.components.schemas, sks);
    var slashes := SlashFindings(pks);
    var gets := GetParamsFindings(doc.paths, pks);
    OnlyConversionErrors(env.order, env.convert, doc.components.schemas, sks);
    NoDuplicatedPaths(env.order, doc.paths);
    DuplicatesIffNotDistinct([]);
    assert OperationIdFindings(OperationIds(env.operationIdMatches(""))) == [];
    assert AllFindings(env, doc, "") == refs + [] + conversions + slashes + gets + [];
    assert DecodedFindings(env, doc) == refs + conversions + slashes + gets;
    DropEmpty(refs, conversions, slashes, gets);
  }

  lemma DropEmpty(a: seq<string>, b: seq<string>, c: seq<string>, d: seq<string>)
    ensures a + [] + b + c + d + [] == a + b + c + d
  {
    assert a + [] == a;
  }
}
