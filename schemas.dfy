/**
 * schemas.go: from the struct declarations a file's comments name, build one object schema
 * each, with a property per usable tagged field and the list of required fields; then merge
 * the files of a directory.
 */
module Schemas {

  import opened Wrappers
  import opened SeqFacts
  import opened Text
  import opened Types
  import opened Sources
  import opened EngineUtils
  import opened ApiTypes
  import opened Engine
  import opened CommentNames

  // ---------------------------------------------------------------------------------------
  // One field
  // ---------------------------------------------------------------------------------------

  /** The property name: the json name before its first ',', or the Go name when that is "". */
  function PropertyName(f: Field, tag: StructTag): (r: string)
    ensures ',' !in r || r == f.name
  {
    var jsonFieldName := Split(tag.json, ',')[0];
    if jsonFieldName == "" then f.name else jsonFieldName
  }

  /**
   * The property a field with parsed annotation `tv` and type `ft` yields, or None for an
   * array, selector or index type without a `$ref`.
   */
  function PropertyFor(tv: TagValues, ft: FieldType): (r: Option<Property>)
    ensures r.None? <==> (ft.ArrayType? || ft.SelectorExpr? || ft.IndexExpr?) && tv.ref == ""
    ensures r.Some? ==> r.value.location == (if tv.location != "" then tv.location else "query")
    ensures r.Some? ==> !r.value.required
    // a property with a reference carries nothing else
    ensures r.Some? && r.value.ref != "" ==>
              && r.value.typeName == "" && r.value.format == "" && r.value.example == ""
              && r.value.pattern == "" && !r.value.nullable
              && r.value.maxLength == 0 && r.value.minLength == 0 && r.value.minimum == 0 && r.value.maximum == 0
    // an identifier declared elsewhere: the type tables, no reference, the tag's limits
    ensures ft.Ident? && !ft.resolvedInFile ==>
              && r.Some? && r.value.ref == "" && r.value.items.None?
              && r.value.typeName == OpenAPITypes(ft.name) && r.value.format == OpenAPIFormats(ft.name)
              && r.value.maxLength == Atoi(tv.maxLength) && r.value.minLength == Atoi(tv.minLength)
              && r.value.minimum == Atoi(tv.minimum) && r.value.maximum == Atoi(tv.maximum)
    // an identifier declared in the file: a reference, even to the bare prefix
    ensures ft.Ident? && ft.resolvedInFile ==> r.Some? && r.value.ref == SchemaRefPrefix + tv.ref && r.value.items.None?
    // an array with a reference: the reference moves into the items, the tag's limits stay
    ensures ft.ArrayType? && tv.ref != "" ==>
              && r.Some? && r.value.ref == "" && r.value.items == Some(PropertyItems(SchemaRefPrefix + tv.ref))
              && r.value.typeName == "array" && r.value.format == "array"
              && r.value.maxLength == Atoi(tv.maxLength) && r.value.minimum == Atoi(tv.minimum)
    ensures (ft.SelectorExpr? || ft.IndexExpr?) && tv.ref != "" ==>
              r.Some? && r.value.ref == SchemaRefPrefix + tv.ref && r.value.items.None?
    // any other shape: no type and no format
    ensures ft.OtherType? ==> r.Some? && r.value.typeName == "" && r.value.format == "" && r.value.ref == ""
  {
    var maxLength, minLength := Atoi(tv.maxLength), Atoi(tv.minLength);
    var maximum, minimum := Atoi(tv.maximum), Atoi(tv.minimum);
    var location := if tv.location != "" then tv.location else "query";
    var shape: Option<(string, string, string, Option<PropertyItems>, bool)> :=
      // (type, format, ref, items, limits kept)
      match ft
      case Ident(name, resolved) =>
        if resolved then Some(("object", "object", SchemaRefPrefix + tv.ref, None, false))
        else Some((OpenAPITypes(name), OpenAPIFormats(name), "", None, true))
      case ArrayType =>
        if tv.ref == "" then None else Some(("array", "array", "", Some(PropertyItems(SchemaRefPrefix + tv.ref)), true))
      case SelectorExpr =>
        if tv.ref == "" then None else Some(("object", "object", SchemaRefPrefix + tv.ref, None, true))
      case IndexExpr =>
        if tv.ref == "" then None else Some(("object", "object", SchemaRefPrefix + tv.ref, None, true))
      case OtherType => Some(("", "", "", None, true));
    match shape
    case None => None
    case Some((tp, format, ref, items, keepLimits)) =>
      var bare := ref == "";
      Some(Property(
        location := location,
        typeName := if bare then tp else "",
        format := if bare then format else "",
        example := if bare then tv.example else "",
        ref := ref,
        pattern := if bare then tv.pattern else "",
        items := items,
        required := false,
        nullable := if bare then tv.nullable else false,
        maxLength := if bare && keepLimits then maxLength else 0,
        minLength := if bare && keepLimits then minLength else 0,
        minimum := if bare && keepLimits then minimum else 0,
        maximum := if bare && keepLimits then maximum else 0))
  }

  /** The named property a field contributes: none without a tag, when ignored, or when skipped. */
  function FieldProperty(f: Field): (r: Option<(string, Property)>)
    ensures f.tag.None? ==> r.None?
    ensures f.tag.Some? && ParseTag(f.tag.value.openapi).ignored ==> r.None?
  {
    match f.tag
    case None => None
    case Some(tag) =>
      var tv := ParseTag(tag.openapi);
      if tv.ignored then None
      else
        match PropertyFor(tv, f.fieldType)
        case None => None
        case Some(p) => Some((PropertyName(f, tag), p))
  }

  /** The properties map after the fields are written into it in order. */
  function AddProperties(props: map<string, Property>, fields: seq<Field>): map<string, Property>
    decreases |fields|
  {
    if |fields| == 0 then props
    else
      var before := AddProperties(props, fields[..|fields| - 1]);
      match FieldProperty(fields[|fields| - 1])
      case None => before
      case Some((name, p)) => before[name := p]
  }

  /**
   * The name the required-field loop records: the json tag before its first ',', or the Go
   * name when the whole json tag is "".
   */
  function RequiredName(f: Field, tag: StructTag): string {
    if tag.json == "" then f.name else Split(tag.json, ',')[0]
  }

  /** The required list: in field order, every tagged field whose annotation parses Required. */
  function RequiredNames(fields: seq<Field>): seq<string>
    decreases |fields|
  {
    if |fields| == 0 then []
    else
      var f := fields[|fields| - 1];
      RequiredNames(fields[..|fields| - 1])
      + if f.tag.Some? && ParseTag(f.tag.value.openapi).required then [RequiredName(f, f.tag.value)] else []
  }

  /**
   * The schema a named struct becomes, with the corrected required list: the names the
   * properties use (AsWrittenSchemaFor keeps the names the source records).
   */
  function SchemaFor(fields: seq<Field>): Schema {
    Schema("object", "object", AddProperties(map[], fields), IntendedRequiredNames(fields), [])
  }

  /** The schema a named struct becomes with the required names as the source records them. */
  function AsWrittenSchemaFor(fields: seq<Field>): Schema {
    Schema("object", "object", AddProperties(map[], fields), RequiredNames(fields), [])
  }

  // ---------------------------------------------------------------------------------------
  // mapSchemaFieldsToSchemaDict
  // ---------------------------------------------------------------------------------------

  /**
   * mapSchemaFieldsToSchemaDict: write the struct's properties into its entry, then append
   * its required fields. Go panics writing a property into an entry that does not exist.
   */
  method MapSchemaFieldsToSchemaDict(fields: seq<Field>, structName: string, dict: SchemasDict)
    returns (r: SchemasDict)
    requires structName in dict
    ensures r == dict[structName := dict[structName].(
                  properties := AddProperties(dict[structName].properties, fields),
                  required := dict[structName].required + IntendedRequiredNames(fields))]
  {
    r := WriteProperties(fields, structName, dict);
    r := AppendRequired(fields, structName, r);
  }

  /** The first loop of mapSchemaFieldsToSchemaDict: one property write per usable field. */
  method WriteProperties(fields: seq<Field>, structName: string, dict: SchemasDict) returns (r: SchemasDict)
    requires structName in dict
    ensures r == dict[structName := dict[structName].(properties := AddProperties(dict[structName].properties, fields))]
  {
    r := dict;
    ghost var s0 := dict[structName];
    var i := 0;
    while i < |fields|
      invariant 0 <= i <= |fields|
      invariant r == dict[structName := s0.(properties := AddProperties(s0.properties, fields[..i]))]
    {
      assert fields[..i + 1][..i] == fields[..i];
      var named := FieldToProperty(fields[i]);
      if named.Some? {
        var schema := r[structName];
        r := r[structName := schema.(properties := schema.properties[named.value.0 := named.value.1])];
      }
      i := i + 1;
    }
    assert fields[..i] == fields;
  }

  /**
   * The second loop of mapSchemaFieldsToSchemaDict, corrected: append the name of every
   * required field, taken as the property loop takes it (the json name before its first ',',
   * else the Go name). The loop as written records RequiredName instead, which is "" for a
   * json tag such as ",omitempty"; RequiredNameMismatch exhibits the difference.
   */
  method AppendRequired(fields: seq<Field>, structName: string, dict: SchemasDict) returns (r: SchemasDict)
    requires structName in dict
    ensures r == dict[structName := dict[structName].(required := dict[structName].required + IntendedRequiredNames(fields))]
  {
    r := dict;
    ghost var s0 := dict[structName];
    assert IntendedRequiredNames(fields[..0]) == [];
    assert s0.required + [] == s0.required;
    var i := 0;
    while i < |fields|
      invariant 0 <= i <= |fields|
      invariant r == dict[structName := s0.(required := s0.required + IntendedRequiredNames(fields[..i]))]
    {
      var field := fields[i];
      assert fields[..i + 1][..i] == fields[..i];
      ghost var extra := if field.tag.Some? && ParseTag(field.tag.value.openapi).required then [PropertyName(field, field.tag.value)] else [];
      ghost var cur := s0.required + IntendedRequiredNames(fields[..i]);
      assert IntendedRequiredNames(fields[..i + 1]) == IntendedRequiredNames(fields[..i]) + extra;
      assert s0.required + IntendedRequiredNames(fields[..i + 1]) == cur + extra;
      ghost var want := s0.(required := cur + extra);
      if field.tag.Some? {
        var tag := field.tag.value;
        var jsonFieldName := Split(tag.json, ',')[0];
        var fieldName := TerIf(jsonFieldName == "", field.name, jsonFieldName);
        var tagValues := ParseStructTagValues(tag.openapi);
        var schema := r[structName];
        if tagValues.required {
          schema := schema.(required := schema.required + [fieldName]);
        }
        assert schema == want;
        r := r[structName := schema];
      } else {
        assert cur + extra == cur;
      }
      assert r == dict[structName := want];
      i := i + 1;
    }
    assert fields[..i] == fields;
  }

  /** The body of the property loop for one field: the property it writes, if any. */
  method FieldToProperty(field: Field) returns (named: Option<(string, Property)>)
    ensures named == FieldProperty(field)
  {
    if field.tag.None? {
      return None;
    }
    var fieldTag := field.tag.value;
    var tagValues := ParseStructTagValues(fieldTag.openapi);
    if tagValues.ignored {
      return None;
    }
    var jsonFieldName := Split(fieldTag.json, ',')[0];
    var fieldName := TerIf(jsonFieldName == "", field.name, jsonFieldName);
    var p := PropertyFor(tagValues, field.fieldType);
    if p.None? {
      return None;
    }
    return Some((fieldName, p.value));
  }

  /** For a property name, the last field that writes it decides the property. */
  lemma {:induction false} LastFieldWins(props: map<string, Property>, fields: seq<Field>, i: nat, name: string, p: Property)
    requires i < |fields| && FieldProperty(fields[i]) == Some((name, p))
    requires forall j :: i < j < |fields| ==> FieldProperty(fields[j]).None? || FieldProperty(fields[j]).value.0 != name
    ensures name in AddProperties(props, fields) && AddProperties(props, fields)[name] == p
    decreases |fields|
  {
    if i < |fields| - 1 {
      LastFieldWins(props, fields[..|fields| - 1], i, name, p);
    }
  }

  /** Whether a field yields a property stored under `name`. */
  predicate Yields(f: Field, name: string) {
    FieldProperty(f).Some? && FieldProperty(f).value.0 == name
  }

  /** Some field of a non-empty sequence yields `name` iff the last one does or an earlier one does. */
  lemma YieldsSnoc(fields: seq<Field>, name: string)
    requires |fields| > 0
    ensures var front := fields[..|fields| - 1];
      (exists i :: 0 <= i < |fields| && Yields(fields[i], name))
      <==> (exists i :: 0 <= i < |front| && Yields(front[i], name)) || Yields(fields[|fields| - 1], name)
  {
    ExistsSnoc(fields, x => Yields(x, name));
  }

  /** The property names are those of the starting map and of the fields that yield a property. */
  lemma {:induction false} PropertyKeys(props: map<string, Property>, fields: seq<Field>, name: string)
    ensures name in AddProperties(props, fields) <==> name in props || exists i :: 0 <= i < |fields| && Yields(fields[i], name)
    decreases |fields|
  {
    if |fields| > 0 {
      PropertyKeys(props, fields[..|fields| - 1], name);
      YieldsSnoc(fields, name);
    }
  }

  /** Every tagged field whose annotation parses Required is listed, whatever its type. */
  lemma {:induction false} RequiredListsEveryRequiredField(fields: seq<Field>, i: nat)
    requires i < |fields| && fields[i].tag.Some? && ParseTag(fields[i].tag.value.openapi).required
    ensures RequiredName(fields[i], fields[i].tag.value) in RequiredNames(fields)
    decreases |fields|
  {
    if i < |fields| - 1 {
      RequiredListsEveryRequiredField(fields[..|fields| - 1], i);
    }
  }

  /** A required field is never an ignored one: the flags exclude each other. */
  lemma RequiredFieldsAreNotIgnored(f: Field)
    requires f.tag.Some? && ParseTag(f.tag.value.openapi).required
    ensures !ParseTag(f.tag.value.openapi).ignored
  {
    AtMostOneFlag(f.tag.value.openapi);
  }

  // ---------------------------------------------------------------------------------------
  // Files and directories
  // ---------------------------------------------------------------------------------------

  /** The registry built from a file's declarations: each named struct replaces its entry. */
  function SchemasOfDecls(names: seq<string>, decls: seq<Decl>): (r: SchemasDict)
    ensures forall k :: k in r ==> k in names
    decreases |decls|
  {
    if |decls| == 0 then map[]
    else
      var before := SchemasOfDecls(names, decls[..|decls| - 1]);
      match decls[|decls| - 1]
      case StructDecl(name, fields) => if name in names then before[name := SchemaFor(fields)] else before
      case OtherDecl => before
  }

  /** What extractSchemasDictFromFile returns for a file. */
  function FileSchemas(pat: Patterns, fileName: string, parsed: Result<GoFile>): Result<SchemasDict> {
    match parsed
    case Err(e) => Err(e)
    case Ok(file) =>
      match NamesFromComments(pat.schemaName, fileName, file.comments, EmptySchemaGroupMessage)
      case Err(e) => Err(e)
      case Ok(names) => Ok(SchemasOfDecls(names, file.decls))
  }

  /** extractSchemasDictFromFile: the schemas of the struct declarations the comments name. */
  method ExtractSchemasDictFromFile(pat: Patterns, fileName: string, parsed: Result<GoFile>)
    returns (r: Result<SchemasDict>)
    ensures r == FileSchemas(pat, fileName, parsed)
  {
    if parsed.Err? {
      return Err(parsed.error);
    }
    var file := parsed.value;
    var names := ExtractNamesFromComments(pat.schemaName, fileName, file.comments, EmptySchemaGroupMessage);
    if names.Err? {
      return Err(names.error);
    }
    var dict: SchemasDict := map[];
    var i := 0;
    while i < |file.decls|
      invariant 0 <= i <= |file.decls|
      invariant dict == SchemasOfDecls(names.value, file.decls[..i])
    {
      assert file.decls[..i + 1][..i] == file.decls[..i];
      match file.decls[i] {
        case StructDecl(name, fields) =>
          var wanted := StringInSlice(name, names.value);
          if wanted {
            dict := AddStructSchema(fields, name, dict);
          }
        case OtherDecl =>
      }
      i := i + 1;
    }
    assert file.decls[..i] == file.decls;
    return Ok(dict);
  }

  /** One named struct: a fresh object entry, then its fields mapped into it. */
  method AddStructSchema(fields: seq<Field>, name: string, dict: SchemasDict) returns (r: SchemasDict)
    ensures r == dict[name := SchemaFor(fields)]
  {
    r := dict[name := Schema("object", "object", map[], [], [])];
    r := MapSchemaFieldsToSchemaDict(fields, name, r);
    assert [] + IntendedRequiredNames(fields) == IntendedRequiredNames(fields);
  }

  /**
   * The registry of a directory's files taken in order: subdirectories, ignored files and
   * failing files are skipped; a name already merged beats a later file's.
   */
  function EntriesSchemas(pat: Patterns, tables: Tables, entries: seq<Entry>): SchemasDict
    decreases |entries|
  {
    if |entries| == 0 then map[]
    else
      var before := EntriesSchemas(pat, tables, entries[..|entries| - 1]);
      match entries[|entries| - 1]
      case Dir(_, _) => before
      case File(name, parsed) =>
        if IgnoredFile(tables, name) then before
        else
          match FileSchemas(pat, name, parsed)
          case Err(_) => before
          case Ok(dict) => dict + before
  }

  /** What extractSchemasFromDirectory delivers for a directory. */
  function DirectorySchemas(pat: Patterns, tables: Tables, dir: DirUnit): Result<SchemasDict> {
    match dir.listing
    case Unreadable(e) => Err(e)
    case Entries(entries) => Ok(EntriesSchemas(pat, tables, entries))
  }

  /** extractSchemasFromDirectory: merge the schemas of every usable file of one directory. */
  method ExtractSchemasFromDirectory(pat: Patterns, tables: Tables, dir: DirUnit) returns (r: Result<SchemasDict>)
    ensures r == DirectorySchemas(pat, tables, dir)
  {
    if dir.listing.Unreadable? {
      return Err(dir.listing.error);
    }
    var entries := dir.listing.entries;
    var all: SchemasDict := map[];
    var i := 0;
    while i < |entries|
      invariant 0 <= i <= |entries|
      invariant all == EntriesSchemas(pat, tables, entries[..i])
    {
      assert entries[..i + 1][..i] == entries[..i];
      var entry := entries[i];
      if entry.File? {
        var ignored := IsIgnoredFile(tables, entry.name);
        if !ignored {
          var dict := ExtractSchemasDictFromFile(pat, entry.name, entry.parsed);
          if dict.Ok? {
            all := MergeMaps(all, dict.value);
          }
        }
      }
      i := i + 1;
    }
    assert entries[..i] == entries;
    return Ok(all);
  }

  /** A file's schema never loses to a later file's schema of the same name. */
  lemma {:induction false} EarlierFileWins(pat: Patterns, tables: Tables, entries: seq<Entry>, i: nat, name: string)
    requires i < |entries| && entries[i].File? && !IgnoredFile(tables, entries[i].name)
    requires FileSchemas(pat, entries[i].name, entries[i].parsed).Ok?
    requires name in FileSchemas(pat, entries[i].name, entries[i].parsed).value
    requires name !in EntriesSchemas(pat, tables, entries[..i])
    ensures name in EntriesSchemas(pat, tables, entries)
    ensures EntriesSchemas(pat, tables, entries)[name] == FileSchemas(pat, entries[i].name, entries[i].parsed).value[name]
    decreases |entries|
  {
    if i < |entries| - 1 {
      assert entries[..|entries| - 1][..i] == entries[..i];
      EarlierFileWins(pat, tables, entries[..|entries| - 1], i, name);
    } else {
      assert entries[..|entries| - 1] == entries[..i];
    }
  }

  // ---------------------------------------------------------------------------------------
  // The required-name mismatch
  // ---------------------------------------------------------------------------------------

  /**
   * As written, the required list and the properties disagree on a json tag that starts with
   * ',' (`json:",omitempty" openapi:"required"` on a field Foo of type string): the property
   * is named after the Go field, the required entry is "".
   */
  lemma RequiredNameMismatch(f: Field)
    requires f.tag.Some? && |f.tag.value.json| > 0 && f.tag.value.json[0] == ','
    requires ParseTag(f.tag.value.openapi).required
    requires f.fieldType.Ident? && !f.fieldType.resolvedInFile
    ensures f.name in AsWrittenSchemaFor([f]).properties
    ensures AsWrittenSchemaFor([f]).required == [""]
    ensures f.name != "" ==> f.name !in AsWrittenSchemaFor([f]).required
  {
    var tag := f.tag.value;
    RequiredFieldsAreNotIgnored(f);
    SplitFirst(tag.json, ',', 0);
    assert PropertyName(f, tag) == f.name;
    assert RequiredName(f, tag) == "";
    assert [f][..0] == [];
    assert RequiredNames([f]) == [] + [RequiredName(f, tag)];
    assert FieldProperty(f) == Some((f.name, PropertyFor(ParseTag(tag.openapi), f.fieldType).value));
  }

  /** The name the required list evidently means: the same name the property is stored under. */
  function IntendedRequiredNames(fields: seq<Field>): seq<string>
    decreases |fields|
  {
    if |fields| == 0 then []
    else
      var f := fields[|fields| - 1];
      IntendedRequiredNames(fields[..|fields| - 1])
      + if f.tag.Some? && ParseTag(f.tag.value.openapi).required then [PropertyName(f, f.tag.value)] else []
  }

  /** With the intended names, every required field that yields a property names a property. */
  lemma {:induction false} IntendedRequiredNamesAreProperties(fields: seq<Field>, i: nat)
    requires i < |fields| && fields[i].tag.Some? && ParseTag(fields[i].tag.value.openapi).required
    requires FieldProperty(fields[i]).Some?
    ensures PropertyName(fields[i], fields[i].tag.value) in IntendedRequiredNames(fields)
    ensures PropertyName(fields[i], fields[i].tag.value) in AddProperties(map[], fields)
    decreases |fields|
  {
    assert FieldProperty(fields[i]).value.0 == PropertyName(fields[i], fields[i].tag.value);
    assert Yields(fields[i], PropertyName(fields[i], fields[i].tag.value));
    PropertyKeys(map[], fields, PropertyName(fields[i], fields[i].tag.value));
    if i < |fields| - 1 {
      IntendedRequiredNamesAreProperties(fields[..|fields| - 1], i);
    }
  }
}
