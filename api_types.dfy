/** The type and format tables of engine/apiTypes.go. */
module ApiTypes {

  /** The Go primitive type names both tables list. */
  const Primitives: set<string> := {"string", "int", "uint", "int64", "uint64", "float64", "bool"}

  /** The slice type names both tables list. */
  const SliceNames: set<string> :=
    {"[]string", "[]int", "[]uint", "[]int64", "[]uint64", "[]float64", "[]bool", "[]interface{}"}

  /** The names that both tables treat as free-form objects. */
  const ObjectNames: set<string> := {"interface{}", "map[string]interface{}"}

  /** OpenAPIFormats: the OpenAPI `format` for a Go type name; total, "string" when unlisted. */
  function OpenAPIFormats(t: string): (r: string)
    ensures r in {"string", "int32", "int64", "double", "boolean", "object"}
    ensures t in ObjectNames || t == "[]interface{}" ==> r == "object"
    ensures t !in Primitives && t !in SliceNames && t !in ObjectNames ==> r == "string"
    ensures r == "int32" <==> t in {"int", "uint", "[]int", "[]uint"}
    ensures r == "int64" <==> t in {"int64", "uint64", "[]int64", "[]uint64"}
  {
    if t == "string" then "string"
    else if t == "int" then "int32"
    else if t == "uint" then "int32"
    else if t == "int64" then "int64"
    else if t == "uint64" then "int64"
    else if t == "float64" then "double"
    else if t == "bool" then "boolean"
    else if t == "[]string" then "string"
    else if t == "[]int" then "int32"
    else if t == "[]uint" then "int32"
    else if t == "[]int64" then "int64"
    else if t == "[]uint64" then "int64"
    else if t == "[]float64" then "double"
    else if t == "[]bool" then "boolean"
    else if t == "[]interface{}" then "object"
    else if t == "interface{}" then "object"
    else if t == "map[string]interface{}" then "object"
    else "string"
  }

  /** OpenAPITypes: the OpenAPI `type` for a Go type name; total, "object" when unlisted. */
  function OpenAPITypes(t: string): (r: string)
    ensures r in {"string", "integer", "number", "boolean", "array", "object"}
    ensures r == "array" <==> t in SliceNames
    ensures r == "integer" <==> t in {"int", "uint", "int64", "uint64"}
    ensures r == "object" <==> t !in Primitives && t !in SliceNames
  {
    if t == "string" then "string"
    else if t == "int" then "integer"
    else if t == "uint" then "integer"
    else if t == "int64" then "integer"
    else if t == "uint64" then "integer"
    else if t == "float64" then "number"
    else if t == "bool" then "boolean"
    else if t == "[]string" then "array"
    else if t == "[]int" then "array"
    else if t == "[]uint" then "array"
    else if t == "[]int64" then "array"
    else if t == "[]uint64" then "array"
    else if t == "[]float64" then "array"
    else if t == "[]bool" then "array"
    else if t == "[]interface{}" then "array"
    else if t == "interface{}" then "object"
    else if t == "map[string]interface{}" then "object"
    else "object"
  }

  /** A slice of a primitive has the format of its element type. */
  lemma SliceFormatIsElementFormat(t: string)
    requires t in Primitives
    ensures OpenAPIFormats("[]" + t) == OpenAPIFormats(t)
  {
    if t == "string" { assert "[]" + t == "[]string"; }
    else if t == "int" { assert "[]" + t == "[]int"; }
    else if t == "uint" { assert "[]" + t == "[]uint"; }
    else if t == "int64" { assert "[]" + t == "[]int64"; }
    else if t == "uint64" { assert "[]" + t == "[]uint64"; }
    else if t == "float64" { assert "[]" + t == "[]float64"; }
    else { assert "[]" + t == "[]bool"; }
  }

  /** The primitive entries of the type table. */
  lemma PrimitiveTypes()
    ensures OpenAPITypes("float64") == "number"
    ensures OpenAPITypes("bool") == "boolean"
    ensures OpenAPITypes("string") == "string"
    ensures OpenAPIFormats("float64") == "double"
    ensures OpenAPIFormats("bool") == "boolean"
    ensures OpenAPIFormats("string") == "string"
  {
  }
}
