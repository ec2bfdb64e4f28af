/**
 * What the engine reads, in the shape it reads it: the parsed Go files (only the parts the
 * engine inspects), the directory tree, and the constants and regular expressions defined
 * outside the modelled files, which stay abstract.
 */
module Sources {

  import opened Wrappers
  import opened Types

  /** The syntactic shape of a struct field's type, as the engine distinguishes it. */
  datatype FieldType =
    | Ident(name: string, resolvedInFile: bool)   // *ast.Ident; resolvedInFile is `Obj != nil`
    | ArrayType                                   // *ast.ArrayType
    | SelectorExpr                                // *ast.SelectorExpr, as in `time.Time`
    | IndexExpr                                   // *ast.IndexExpr, a generic instance
    | OtherType                                   // maps, pointers, funcs, …

  /**
   * A struct tag literal, through reflect.StructTag.Get: the value of the `json` key and of
   * the `openapi` key, each "" when the key is absent.
   */
  datatype StructTag = StructTag(json: string, openapi: string)

  /** One struct field: its first Go name, its tag (None when it has no tag), its type. */
  datatype Field = Field(name: string, tag: Option<StructTag>, fieldType: FieldType)

  /** A type spec of a file: a struct with its fields, or any other declaration. */
  datatype Decl =
    | StructDecl(name: string, fields: seq<Field>)
    | OtherDecl

  /** A parsed Go file: its comment groups (each a list of comment lines) and its declarations. */
  datatype GoFile = GoFile(comments: seq<seq<string>>, decls: seq<Decl>)

  /** A directory entry; a file carries the result of parsing it. */
  datatype Entry =
    | File(name: string, parsed: Result<GoFile>)
    | Dir(name: string, listing: Listing)

  /** What reading a directory yields: an error, or its entries in name order. */
  datatype Listing =
    | Unreadable(error: string)
    | Entries(entries: seq<Entry>)

  /** A directory to scan: its path, its bare name and its contents. */
  datatype DirUnit = DirUnit(path: string, name: string, listing: Listing)

  /**
   * The regular expressions of the engine package, as functions of the sanitised comment
   * line (or directive key) they are applied to.
   */
  datatype Patterns = Patterns(
    schemaName: string -> Option<string>,         // group 2 of API_SCHEMAS_DATA_REGEXP
    enumName: string -> Option<string>,           // group 2 of API_ENUMS_DATA_REGEXP
    directives: string -> seq<seq<string>>,       // FindAllStringSubmatch of API_PATHS_DATA_REGEXP
    customRefCode: string -> Option<string>,      // group 1 of API_CUSTOM_REF_REGEXP
    customDescriptionCode: string -> Option<string>) // group 1 of API_CUSTOM_DESCRIPTION_REGEXP

  /** The constant tables of the engine package. */
  datatype Tables = Tables(
    responseDescriptions: map<string, string>,   // ResponseDescriptions
    restActions: map<string, string>,            // RestActions
    restOperations: map<string, string>,         // RestOperations
    ignoredFilePatterns: seq<string>)            // IGNORED_FILES_TO_PARS
}
