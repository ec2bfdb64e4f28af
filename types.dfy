/**
 * The records of engine/types.go that the core builds: the OpenAPI document pieces,
 * the parsed directive record and the parsed field annotation.
 * Go field names that are Dafny keywords are renamed: `Type` is `typeName` and `In` is
 * `location`. A nil Go pointer is `None`; nil and empty slices are both the empty sequence
 * (the YAML writer omits both).
 */
module Types {

  import opened Wrappers

  /** OpenApiFieldTagValues: one parsed `openapi:"…"` struct tag. */
  datatype TagValues = TagValues(
    location: string,
    example: string,
    ref: string,
    required: bool,
    nullable: bool,
    maxLength: string,
    minLength: string,
    minimum: string,
    maximum: string,
    pattern: string,
    ignored: bool,
    enumValue: string)

  /** The zero value of TagValues. */
  const EmptyTagValues := TagValues("", "", "", false, false, "", "", "", "", "", false, "")

  datatype PropertyItems = PropertyItems(ref: string)

  datatype Property = Property(
    location: string,
    typeName: string,
    format: string,
    example: string,
    ref: string,
    pattern: string,
    items: Option<PropertyItems>,
    required: bool,
    nullable: bool,
    maxLength: int,
    minLength: int,
    minimum: int,
    maximum: int)

  datatype Schema = Schema(
    typeName: string,
    format: string,
    properties: map<string, Property>,
    required: seq<string>,
    enumValues: seq<string>)

  type SchemasDict = map<string, Schema>

  datatype MediaType = MediaType(schemaRef: string)

  datatype Content = Content(
    applicationJson: MediaType,
    formUrlencoded: MediaType,
    multipartFormData: MediaType)

  datatype Response = Response(description: string, content: Content)

  type Responses = map<string, Response>

  datatype RequestBody = RequestBody(description: string, content: Content, required: bool)

  datatype ParameterSchema = ParameterSchema(
    typeName: string,
    defaultValue: string,
    enumValues: seq<string>,
    ref: string)

  datatype Parameter = Parameter(
    name: string,
    location: string,
    description: string,
    required: bool,
    schema: ParameterSchema,
    example: string)

  /** One security requirement: scheme name to scopes. */
  type SecurityFlow = map<string, seq<string>>

  datatype Operation = Operation(
    tags: seq<string>,
    summary: string,
    description: string,
    operationId: string,
    parameters: seq<Parameter>,
    requestBody: Option<RequestBody>,
    responses: Responses,
    security: seq<SecurityFlow>,
    deprecated: bool)

  /** The five method slots of one path. */
  datatype Operations = Operations(
    put: Option<Operation>,
    post: Option<Operation>,
    get: Option<Operation>,
    delete: Option<Operation>,
    patch: Option<Operation>)

  const NoOperations := Operations(None, None, None, None, None)

  type PathsDict = map<string, Operations>

  /** The upper-case method names that own a slot. */
  datatype Method = Get | Put | Post | Delete | Patch

  function Slot(ops: Operations, m: Method): Option<Operation> {
    match m
    case Get => ops.get
    case Put => ops.put
    case Post => ops.post
    case Delete => ops.delete
    case Patch => ops.patch
  }

  /** The slot an upper-cased method name selects, if any. */
  function MethodNamed(upper: string): Option<Method> {
    if upper == "GET" then Some(Get)
    else if upper == "PUT" then Some(Put)
    else if upper == "POST" then Some(Post)
    else if upper == "DELETE" then Some(Delete)
    else if upper == "PATCH" then Some(Patch)
    else None
  }

  /** PathData: the directives of one comment line. */
  datatype PathData = PathData(
    apiPath: string,
    apiMethod: string,
    apiDescription: string,
    apiSummary: string,
    apiRequestRef: string,
    apiResponseRef: string,
    apiStatusCode: string,
    apiTag: string,
    apiParametersRef: string,
    apiDeprecated: string,
    apiErrorStatusCodes: seq<string>,
    apiCustomErrorRefs: map<string, string>,
    apiCustomErrorDescriptions: map<string, string>,
    apiSecurities: map<string, seq<string>>)

  const EmptyPathData := PathData("", "", "", "", "", "", "", "", "", "", [], map[], map[], map[])

  // Security scheme records.

  datatype ApiKeySecurityScheme = ApiKeySecurityScheme(
    typeName: string, description: string, name: string, location: string)

  datatype HttpSecurityScheme = HttpSecurityScheme(
    typeName: string, description: string, scheme: string, bearerFormat: string)

  type OAuth2Scopes = map<string, string>

  datatype OAuth2ImplicitFlow = OAuth2ImplicitFlow(
    authorizationUrl: string, refreshUrl: string, scopes: OAuth2Scopes)

  datatype OAuth2PasswordFlow = OAuth2PasswordFlow(
    tokenUrl: string, refreshUrl: string, scopes: OAuth2Scopes)

  datatype OAuth2CredsFlow = OAuth2CredsFlow(
    tokenUrl: string, refreshUrl: string, scopes: OAuth2Scopes)

  datatype OAuth2CodeFlow = OAuth2CodeFlow(
    authorizationUrl: string, tokenUrl: string, refreshUrl: string, scopes: OAuth2Scopes)

  datatype OAuth2Flows = OAuth2Flows(
    implicit: Option<OAuth2ImplicitFlow>,
    resourceOwnerPassword: Option<OAuth2PasswordFlow>,
    clientCredentials: Option<OAuth2CredsFlow>,
    authorizationCodeWithPkce: Option<OAuth2CodeFlow>)

  datatype OAuth2SecurityScheme = OAuth2SecurityScheme(
    typeName: string, description: string, flows: OAuth2Flows)

  datatype OpenIdSecurityScheme = OpenIdSecurityScheme(
    typeName: string, description: string, openIdConnectUrl: string)

  /** SecuritySchemesTypes: the four registries a caller hands in. */
  datatype SecuritySchemesTypes = SecuritySchemesTypes(
    apiKey: map<string, ApiKeySecurityScheme>,
    http: map<string, HttpSecurityScheme>,
    oauth2: map<string, OAuth2SecurityScheme>,
    openId: map<string, OpenIdSecurityScheme>)

  /** A value of the flattened `map[string]interface{}` registry. */
  datatype SecurityScheme =
    | ApiKeyScheme(apiKey: ApiKeySecurityScheme)
    | HttpScheme(http: HttpSecurityScheme)
    | OAuth2Scheme(oauth2: OAuth2SecurityScheme)
    | OpenIdScheme(openId: OpenIdSecurityScheme)

  // Document metadata.

  datatype Contact = Contact(name: string, url: string, email: string)

  datatype License = License(name: string, url: string)

  datatype Info = Info(
    title: string,
    description: string,
    version: string,
    termsOfService: string,
    contact: Contact,
    license: License)

  datatype ExternalDocs = ExternalDocs(description: string, url: string)

  datatype ApiServer = ApiServer(url: string)

  datatype Tag = Tag(name: string)

  datatype Components = Components(
    schemas: SchemasDict,
    requestBodies: map<string, RequestBody>,
    securitySchemes: map<string, SecurityScheme>)

  /** The part of the document that the validator reads back. */
  datatype Document = Document(paths: PathsDict, components: Components)

  /** The prefix every schema reference carries. */
  const SchemaRefPrefix := "#/components/schemas/"
}
