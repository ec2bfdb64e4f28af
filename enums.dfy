/**
 * enums.go: from the struct declarations a file's comments name as enums, build one schema
 * each holding the enum values of its fields; then merge the files of a directory.
 */
module Enums {

  import opened Wrappers
  import opened Types
  import opened Sources
  import opened EngineUtils
  import opened Engine
  import opened CommentNames

  /** A field contributes an enum value when it has a tag whose annotation is not Ignored. */
  predicate Contributes(f: Field) {
    f.tag.Some? && !ParseTag(f.tag.value.openapi).ignored
  }

  /** The enum values: in field order, the enumValue text of every contributing field. */
  function EnumValues(fields: seq<Field>): seq<string>
    decreases |fields|
  {
    if |fields| == 0 then []
    else
      var f := fields[|fields| - 1];
      EnumValues(fields[..|fields| - 1])
      + if Contributes(f) then [ParseTag(f.tag.value.openapi).enumValue] else []
  }

  /** The schema an enum struct ends as: the values alone, with no type. */
  function EnumSchema(fields: seq<Field>): (r: Schema)
    ensures r.typeName == "" && r.format == "" && r.properties == map[] && r.required == []
    ensures r.enumValues == EnumValues(fields)
  {
    Schema("", "", map[], [], EnumValues(fields))
  }

  /** mapEnumFieldsToSchemaDict: collect the values, then replace the entry with them. */
  method MapEnumFieldsToSchemaDict(fields: seq<Field>, structName: string, dict: SchemasDict)
    returns (r: SchemasDict)
    ensures r == dict[structName := EnumSchema(fields)]
  {
    var enumValues: seq<string> := [];
    var i := 0;
    while i < |fields|
      invariant 0 <= i <= |fields|
      invariant enumValues == EnumValues(fields[..i])
    {
      var field := fields[i];
      assert fields[..i + 1][..i] == fields[..i];
      if field.tag.Some? {
        var tagValues := ParseStructTagValues(field.tag.value.openapi);
        if !tagValues.ignored {
          enumValues := enumValues + [tagValues.enumValue];
        }
      }
      i := i + 1;
    }
    assert fields[..i] == fields;
    r := dict[structName := Schema("", "", map[], [], enumValues)];
  }

  /** When every field contributes, there is one value per field, in field order. */
  lemma {:induction false} OneValuePerContributingField(fields: seq<Field>)
    requires forall i :: 0 <= i < |fields| ==> Contributes(fields[i])
    ensures |EnumValues(fields)| == |fields|
    ensures forall i :: 0 <= i < |fields| ==> fields[i].tag.Some? && EnumValues(fields)[i] == ParseTag(fields[i].tag.value.openapi).enumValue
    decreases |fields|
  {
    if |fields| > 0 {
      var front := fields[..|fields| - 1];
      assert forall i :: 0 <= i < |front| ==> front[i] == fields[i];
      OneValuePerContributingField(front);
    }
  }

  /** Without a contributing field the enum holds no values. */
  lemma {:induction false} NoContributingFieldNoValues(fields: seq<Field>)
    requires forall i :: 0 <= i < |fields| ==> !Contributes(fields[i])
    ensures EnumValues(fields) == []
    decreases |fields|
  {
    if |fields| > 0 {
      var front := fields[..|fields| - 1];
      assert forall i :: 0 <= i < |front| ==> front[i] == fields[i];
      NoContributingFieldNoValues(front);
    }
  }

  /** The registry built from a file's declarations: each named struct replaces its entry. */
  function EnumsOfDecls(names: seq<string>, decls: seq<Decl>): (r: SchemasDict)
    ensures forall k :: k in r ==> k in names && r[k].typeName == "" && r[k].properties == map[]
    decreases |decls|
  {
    if |decls| == 0 then map[]
    else
      WithEnumDecl(names, EnumsOfDecls(names, decls[..|decls| - 1]), decls[|decls| - 1])
  }

  /** One declaration: a named struct replaces its entry, anything else changes nothing. */
  function WithEnumDecl(names: seq<string>, before: SchemasDict, decl: Decl): (r: SchemasDict)
    ensures forall k :: k in r && k !in before ==> k in names
  {
    match decl
    case StructDecl(name, fields) => if name in names then before[name := EnumSchema(fields)] else before
    case OtherDecl => before
  }

  /** What extractEnumsDictFromFile returns for a file. */
  function FileEnums(pat: Patterns, fileName: string, parsed: Result<GoFile>): Result<SchemasDict> {
    match parsed
    case Err(e) => Err(e)
    case Ok(file) =>
      match NamesFromComments(pat.enumName, fileName, file.comments, NoCommentsListMessage)
      case Err(e) => Err(e)
      case Ok(names) => Ok(EnumsOfDecls(names, file.decls))
  }

  /**
   * extractEnumsDictFromFile: each named struct first gets a "string" schema, which the
   * field mapping then replaces.
   */
  method ExtractEnumsDictFromFile(pat: Patterns, fileName: string, parsed: Result<GoFile>)
    returns (r: Result<SchemasDict>)
    ensures r == FileEnums(pat, fileName, parsed)
  {
    if parsed.Err? {
      return Err(parsed.error);
    }
    var file := parsed.value;
    var names := ExtractNamesFromComments(pat.enumName, fileName, file.comments, NoCommentsListMessage);
    if names.Err? {
      return Err(names.error);
    }
    var dict: SchemasDict := map[];
    var i := 0;
    while i < |file.decls|
      invariant 0 <= i <= |file.decls|
      invariant dict == EnumsOfDecls(names.value, file.decls[..i])
    {
      assert file.decls[..i + 1][..i] == file.decls[..i];
      dict := AddEnumDecl(names.value, dict, file.decls[i]);
      i := i + 1;
    }
    assert file.decls[..i] == file.decls;
    return Ok(dict);
  }

  /** The loop body: a named struct first gets a "string" schema, which its fields then replace. */
  method AddEnumDecl(names: seq<string>, dict: SchemasDict, decl: Decl) returns (r: SchemasDict)
    ensures r == WithEnumDecl(names, dict, decl)
  {
    r := dict;
    match decl {
      case StructDecl(name, fields) =>
        var wanted := StringInSlice(name, names);
        if wanted {
          r := r[name := Schema("string", "", map[], [], [])];
          r := MapEnumFieldsToSchemaDict(fields, name, r);
        }
      case OtherDecl =>
    }
  }

  /** The registry of a directory's files in order, skipping what the directory loop skips. */
  function EntriesEnums(pat: Patterns, tables: Tables, entries: seq<Entry>): SchemasDict
    decreases |entries|
  {
    if |entries| == 0 then map[]
    else
      var before := EntriesEnums(pat, tables, entries[..|entries| - 1]);
      match entries[|entries| - 1]
      case Dir(_, _) => before
      case File(name, parsed) =>
        if IgnoredFile(tables, name) then before
        else
          match FileEnums(pat, name, parsed)
          case Err(_) => before
          case Ok(dict) => dict + before
  }

  /** What extractEnumsFromDirectory delivers for a directory. */
  function DirectoryEnums(pat: Patterns, tables: Tables, dir: DirUnit): Result<SchemasDict> {
    match dir.listing
    case Unreadable(e) => Err(e)
    case Entries(entries) => Ok(EntriesEnums(pat, tables, entries))
  }

  /** extractEnumsFromDirectory: merge the enums of every usable file of one directory. */
  method ExtractEnumsFromDirectory(pat: Patterns, tables: Tables, dir: DirUnit) returns (r: Result<SchemasDict>)
    ensures r == DirectoryEnums(pat, tables, dir)
  {
    if dir.listing.Unreadable? {
      return Err(dir.listing.error);
    }
    var entries := dir.listing.entries;
    var all: SchemasDict := map[];
    var i := 0;
    while i < |entries|
      invariant 0 <= i <= |entries|
      invariant all == EntriesEnums(pat, tables, entries[..i])
    {
      assert entries[..i + 1][..i] == entries[..i];
      var entry := entries[i];
      if entry.File? {
        var ignored := IsIgnoredFile(tables, entry.name);
        if !ignored {
          var dict := ExtractEnumsDictFromFile(pat, entry.name, entry.parsed);
          if dict.Ok? {
            all := MergeMaps(all, dict.value);
          }
        }
      }
      i := i + 1;
    }
    assert entries[..i] == entries;
    return Ok(all);
  }

  /** Every enum a directory yields has no type and no properties. */
  lemma {:induction false} DirectoryEnumsHaveNoType(pat: Patterns, tables: Tables, entries: seq<Entry>)
    ensures forall k :: k in EntriesEnums(pat, tables, entries) ==>
              EntriesEnums(pat, tables, entries)[k].typeName == "" && EntriesEnums(pat, tables, entries)[k].properties == map[]
    decreases |entries|
  {
    if |entries| > 0 {
      DirectoryEnumsHaveNoType(pat, tables, entries[..|entries| - 1]);
    }
  }
}
