/**
 * engine/engine.go: the `openapi:"…"` tag grammar, the map merges, the response-description
 * and operation-id helpers, and the ignored-file test.
 */
module Engine {

  import opened Wrappers
  import opened Text
  import opened Types
  import opened Sources
  import opened EngineUtils

  // ---------------------------------------------------------------------------------------
  // The struct tag grammar
  // ---------------------------------------------------------------------------------------

  /** The keys a `key:value` clause may set; any other key is ignored. */
  const TagKeys: set<string> :=
    {"in", "example", "$ref", "maxLength", "minLength", "enumValue", "minimum", "maximum", "pattern"}

  /** The record field a key names. */
  function KeyField(v: TagValues, key: string): string {
    if key == "in" then v.location
    else if key == "example" then v.example
    else if key == "$ref" then v.ref
    else if key == "maxLength" then v.maxLength
    else if key == "minLength" then v.minLength
    else if key == "enumValue" then v.enumValue
    else if key == "minimum" then v.minimum
    else if key == "maximum" then v.maximum
    else if key == "pattern" then v.pattern
    else ""
  }

  /** Set the record field a key names; an unknown key changes nothing. */
  function SetKeyField(v: TagValues, key: string, value: string): (r: TagValues)
    ensures key in TagKeys ==> KeyField(r, key) == value
    ensures forall k :: k != key ==> KeyField(r, k) == KeyField(v, k)
    ensures key !in TagKeys ==> r == v
    ensures r.required == v.required && r.nullable == v.nullable && r.ignored == v.ignored
  {
    if key == "in" then v.(location := value)
    else if key == "example" then v.(example := value)
    else if key == "$ref" then v.(ref := value)
    else if key == "maxLength" then v.(maxLength := value)
    else if key == "minLength" then v.(minLength := value)
    else if key == "enumValue" then v.(enumValue := value)
    else if key == "minimum" then v.(minimum := value)
    else if key == "maximum" then v.(maximum := value)
    else if key == "pattern" then v.(pattern := value)
    else v
  }

  /**
   * The two groups of `(?sm)^(.*?):(.*?)$` on a clause holding ':': the key is everything
   * before the first ':', the value everything after it up to the first line feed.
   */
  function KeyValue(item: string): (kv: (string, string))
    requires ':' in item
    ensures ':' !in kv.0 && '\n' !in kv.1
    ensures |kv.0| < |item| && item[..|kv.0|] == kv.0 && item[|kv.0|] == ':'
    ensures HasPrefix(item[|kv.0| + 1..], kv.1)
  {
    var i := IndexOf(item, ':').value;
    var rest := item[i + 1..];
    match IndexOf(rest, '\n')
    case None => (item[..i], rest)
    case Some(j) => (item[..i], rest[..j])
  }

  /** The effect of one `;`-separated clause. */
  function ApplyClause(v: TagValues, item: string): TagValues {
    if ':' !in item then
      v.(required := item == "required", nullable := item == "nullable", ignored := item == "ignored")
    else
      var kv := KeyValue(item);
      SetKeyField(v, kv.0, kv.1)
  }

  /** The clauses applied left to right, starting from `v`. */
  function ApplyClauses(v: TagValues, items: seq<string>): TagValues
    decreases |items|
  {
    if |items| == 0 then v else ApplyClause(ApplyClauses(v, items[..|items| - 1]), items[|items| - 1])
  }

  /** What ParseStructTagValues computes. */
  function ParseTag(tag: string): TagValues {
    if tag == "" then EmptyTagValues else ApplyClauses(EmptyTagValues, Split(tag, ';'))
  }

  /** ParseStructTagValues: fold the clauses of the tag into a record. */
  method ParseStructTagValues(tag: string) returns (values: TagValues)
    ensures values == ParseTag(tag)
  {
    values := EmptyTagValues;
    if tag != "" {
      var items := Split(tag, ';');
      var n := 0;
      while n < |items|
        invariant 0 <= n <= |items|
        invariant values == ApplyClauses(EmptyTagValues, items[..n])
      {
        assert items[..n + 1][..n] == items[..n];
        values := ParseClause(values, items[n]);
        n := n + 1;
      }
      assert items[..n] == items;
    }
  }

  /**
   * The loop body of ParseStructTagValues: a clause without ':' resets the three flags, any
   * other clause overwrites the field its key names.
   */
  method ParseClause(before: TagValues, item: string) returns (values: TagValues)
    ensures values == ApplyClause(before, item)
  {
    values := before;
    var splitted := Split(item, ':');
    SplitSingle(item, ':');
    if |splitted| == 1 {
      values := values.(required := TerIf(splitted[0] == "required", true, false),
                        nullable := TerIf(splitted[0] == "nullable", true, false),
                        ignored := TerIf(splitted[0] == "ignored", true, false));
    } else {
      var kv := KeyValue(item);
      var key, value := kv.0, kv.1;
      values := values.(location := TerIf(key == "in", value, values.location));
      values := values.(example := TerIf(key == "example", value, values.example));
      values := values.(ref := TerIf(key == "$ref", value, values.ref));
      values := values.(maxLength := TerIf(key == "maxLength", value, values.maxLength));
      values := values.(minLength := TerIf(key == "minLength", value, values.minLength));
      values := values.(enumValue := TerIf(key == "enumValue", value, values.enumValue));
      values := values.(minimum := TerIf(key == "minimum", value, values.minimum));
      values := values.(maximum := TerIf(key == "maximum", value, values.maximum));
      values := values.(pattern := TerIf(key == "pattern", value, values.pattern));
    }
  }

  /** The empty tag gives the zero record. */
  lemma ParseTagEmpty()
    ensures ParseTag("") == EmptyTagValues
  {
  }

  /** The last clause without ':' among `items`, if any. */
  function LastFlagClause(items: seq<string>): (r: Option<string>)
    ensures r.Some? ==> r.value in items && ':' !in r.value
    ensures r.None? ==> forall i :: 0 <= i < |items| ==> ':' in items[i]
    decreases |items|
  {
    if |items| == 0 then None
    else if ':' !in items[|items| - 1] then Some(items[|items| - 1])
    else LastFlagClause(items[..|items| - 1])
  }

  /** The value of the last clause whose key is `key`, if any. */
  function LastKeyed(items: seq<string>, key: string): Option<string>
    decreases |items|
  {
    if |items| == 0 then None
    else
      var item := items[|items| - 1];
      if ':' in item && KeyValue(item).0 == key then Some(KeyValue(item).1)
      else LastKeyed(items[..|items| - 1], key)
  }

  /**
   * The three flags come from the last flag clause alone: each is set exactly when that
   * clause is its name, so at most one of them holds. With no flag clause they keep their
   * starting values.
   */
  lemma {:induction false} FlagsFromLastFlagClause(v: TagValues, items: seq<string>)
    ensures var r := ApplyClauses(v, items);
      match LastFlagClause(items)
      case Some(c) => r.required == (c == "required") && r.nullable == (c == "nullable") && r.ignored == (c == "ignored")
      case None => r.required == v.required && r.nullable == v.nullable && r.ignored == v.ignored
    decreases |items|
  {
    if |items| > 0 {
      FlagsFromLastFlagClause(v, items[..|items| - 1]);
    }
  }

  /** For every key, the last clause with that key wins; with none the field keeps its value. */
  lemma {:induction false} KeyedLastWins(v: TagValues, items: seq<string>, key: string)
    requires key in TagKeys
    ensures KeyField(ApplyClauses(v, items), key) == LastKeyed(items, key).GetOr(KeyField(v, key))
    decreases |items|
  {
    if |items| > 0 {
      KeyedLastWins(v, items[..|items| - 1], key);
    }
  }

  /** At most one of the three flags of a parsed tag is set. */
  lemma AtMostOneFlag(tag: string)
    ensures var r := ParseTag(tag);
      (if r.required then 1 else 0) + (if r.nullable then 1 else 0) + (if r.ignored then 1 else 0) <= 1
  {
    if tag != "" {
      FlagsFromLastFlagClause(EmptyTagValues, Split(tag, ';'));
    }
  }

  /** Splitting at a first separator: the first piece, then the pieces of the remainder. */
  lemma {:induction false} SplitAt(s: string, sep: char, k: nat)
    requires k < |s| && sep !in s[..k] && s[k] == sep
    ensures Split(s, sep) == [s[..k]] + Split(s[k + 1..], sep)
    decreases k
  {
    if k == 0 {
      assert s[1..] == s[k + 1..];
    } else {
      assert s[1..][..k - 1] == s[..k][1..];
      SplitAt(s[1..], sep, k - 1);
      assert s[1..][k..] == s[k + 1..];
      assert s[..k] == [s[0]] + s[1..][..k - 1];
    }
  }

  /** A tag of two clauses splits into exactly those clauses. */
  lemma SplitTwo(a: string, b: string)
    requires ';' !in a && ';' !in b
    ensures Split(a + ";" + b, ';') == [a, b]
  {
    var s := a + ";" + b;
    assert s[..|a|] == a && s[|a|] == ';' && s[|a| + 1..] == b;
    SplitAt(s, ';', |a|);
    SplitSingle(b, ';');
  }

  /** A keyed clause whose key has no ':' and whose value has no line feed. */
  lemma KeyValueOf(k: string, v: string)
    requires ':' !in k && '\n' !in v
    ensures ':' in k + ":" + v && KeyValue(k + ":" + v) == (k, v)
  {
    var s := k + ":" + v;
    assert s[|k|] == ':' && s[..|k|] == k && s[|k| + 1..] == v;
    assert IndexOf(s, ':') == Some(|k|);
  }

  /** A flag clause followed by a keyed clause. */
  lemma FlagThenKeyed(f: string, k: string, v: string)
    requires ':' !in f && ';' !in f && ':' !in k && ';' !in k && ';' !in v && '\n' !in v
    ensures ParseTag(f + ";" + k + ":" + v) == SetKeyField(ApplyClause(EmptyTagValues, f), k, v)
  {
    var kv := k + ":" + v;
    assert f + ";" + k + ":" + v == f + ";" + kv;
    assert ';' !in kv;
    SplitTwo(f, kv);
    KeyValueOf(k, v);
    assert [f, kv][..1] == [f];
    assert [f][..0] == [];
    assert ApplyClauses(EmptyTagValues, [f]) == ApplyClause(EmptyTagValues, f);
    assert ApplyClauses(EmptyTagValues, [f, kv]) == ApplyClause(ApplyClause(EmptyTagValues, f), kv);
  }

  /** Keyed clauses never touch the flags: `"ignored;in:path"` is ignored and still located. */
  lemma IgnoredKeepsKeyedValues()
    ensures ParseTag("ignored;in:path").ignored
    ensures ParseTag("ignored;in:path").location == "path"
  {
    FlagThenKeyed("ignored", "in", "path");
    assert "ignored" + ";" + "in" + ":" + "path" == "ignored;in:path";
  }

  /** A later flag clause cancels an earlier one: `"required;nullable"` is nullable only. */
  lemma LaterFlagCancels()
    ensures !ParseTag("required;nullable").required
    ensures ParseTag("required;nullable").nullable
  {
    SplitTwo("required", "nullable");
    assert "required" + ";" + "nullable" == "required;nullable";
    assert ':' !in "nullable";
  }

  /** The empty clause a trailing `;` leaves resets every flag: `"required;"` sets none. */
  lemma TrailingSeparatorResetsFlags()
    ensures var r := ParseTag("required;"); !r.required && !r.nullable && !r.ignored
  {
    SplitTwo("required", "");
    assert "required" + ";" + "" == "required;";
  }

  /** A non-empty tag without ';' is a single clause. */
  lemma SingleClause(tag: string)
    requires tag != "" && ';' !in tag
    ensures ParseTag(tag) == ApplyClause(EmptyTagValues, tag)
  {
    SplitSingle(tag, ';');
    assert [tag][..0] == [];
    assert ApplyClauses(EmptyTagValues, [tag][..0]) == EmptyTagValues;
  }

  /** A tag that is one keyed clause sets that key alone. */
  lemma KeyedOnly(k: string, v: string)
    requires k != "" && ':' !in k && ';' !in k && ';' !in v && '\n' !in v
    ensures ParseTag(k + ":" + v) == SetKeyField(EmptyTagValues, k, v)
  {
    var tag := k + ":" + v;
    KeyValueOf(k, v);
    assert ';' !in tag;
    SingleClause(tag);
  }

  /** The value runs past later colons: `"example:12:30"` has example `"12:30"`. */
  lemma ValueKeepsLaterColons()
    ensures ParseTag("example:12:30").example == "12:30"
  {
    KeyedOnly("example", "12:30");
    assert "example" + ":" + "12:30" == "example:12:30";
  }

  /** Keys are not trimmed: `" in:path"` names no known key. */
  lemma UntrimmedKeyIgnored()
    ensures ParseTag(" in:path") == EmptyTagValues
  {
    KeyedOnly(" in", "path");
    assert " in" + ":" + "path" == " in:path";
  }

  // ---------------------------------------------------------------------------------------
  // Merges
  // ---------------------------------------------------------------------------------------

  /**
   * MergeMaps: every entry of `src` is written into `dest`. Callers pass the accumulated
   * registry as `src`, so on a shared key the accumulated entry wins.
   */
  method MergeMaps<T>(src: map<string, T>, dest: map<string, T>) returns (r: map<string, T>)
    ensures r == dest + src
    ensures r.Keys == src.Keys + dest.Keys
    ensures forall k :: k in src ==> r[k] == src[k]
    ensures forall k :: k in dest && k !in src ==> r[k] == dest[k]
  {
    r := dest;
    var todo := src.Keys;
    while todo != {}
      invariant todo <= src.Keys
      invariant r.Keys == (src.Keys - todo) + dest.Keys
      invariant forall k :: k in src && k !in todo ==> r[k] == src[k]
      invariant forall k :: k in dest && (k !in src || k in todo) ==> r[k] == dest[k]
      decreases todo
    {
      var key :| key in todo;
      r := r[key := src[key]];
      todo := todo - {key};
    }
  }

  /** The slots of one path after a merge: a slot already filled in `dest` stays. */
  function MergeOperations(dest: Operations, src: Operations): (r: Operations)
    ensures forall m :: Slot(r, m) == if Slot(dest, m).Some? then Slot(dest, m) else Slot(src, m)
  {
    Operations(
      put := TerIfNil(dest.put, src.put),
      post := TerIfNil(dest.post, src.post),
      get := TerIfNil(dest.get, src.get),
      delete := TerIfNil(dest.delete, src.delete),
      patch := TerIfNil(dest.patch, src.patch))
  }

  /**
   * MergePaths: a path only in `src` is copied; a path in both keeps every filled slot of
   * `dest` and fills only its empty slots from `src`; a path only in `dest` is unchanged.
   */
  method MergePaths(src: PathsDict, dest: PathsDict) returns (r: PathsDict)
    ensures r.Keys == src.Keys + dest.Keys
    ensures forall k :: k in src && k !in dest ==> r[k] == src[k]
    ensures forall k :: k !in src && k in dest ==> r[k] == dest[k]
    ensures forall k, m :: k in src && k in dest ==>
              Slot(r[k], m) == if Slot(dest[k], m).Some? then Slot(dest[k], m) else Slot(src[k], m)
  {
    r := dest;
    var todo := src.Keys;
    while todo != {}
      invariant todo <= src.Keys
      invariant r.Keys == (src.Keys - todo) + dest.Keys
      invariant forall k :: k in src && k !in todo && k !in dest ==> r[k] == src[k]
      invariant forall k :: k in src && k !in todo && k in dest ==> r[k] == MergeOperations(dest[k], src[k])
      invariant forall k :: k in dest && (k !in src || k in todo) ==> r[k] == dest[k]
      decreases todo
    {
      var key :| key in todo;
      if key in r {
        r := r[key := MergeOperations(r[key], src[key])];
      } else {
        r := r[key := src[key]];
      }
      todo := todo - {key};
    }
  }

  // ---------------------------------------------------------------------------------------
  // Lookups
  // ---------------------------------------------------------------------------------------

  /** A Go map read: the entry, or "" when the key is absent. */
  function Lookup(m: map<string, string>, k: string): string {
    if k in m then m[k] else ""
  }

  /** GetResponseDescription: the standard description of a status code. */
  function GetResponseDescription(tables: Tables, statusCode: string): (r: string)
    ensures statusCode in tables.responseDescriptions ==> r == tables.responseDescriptions[statusCode]
    ensures statusCode !in tables.responseDescriptions ==> r == "Unknown response code"
  {
    if statusCode in tables.responseDescriptions then tables.responseDescriptions[statusCode]
    else "Unknown response code"
  }

  /** The text after the first '/' of `path`, up to the next '/' or the end. */
  function FirstSegment(path: string): string
    requires '/' in path
  {
    var i := IndexOf(path, '/').value;
    var rest := path[i + 1..];
    match IndexOf(rest, '/')
    case None => rest
    case Some(j) => rest[..j]
  }

  /** The piece strings.Split puts at index 1 is the first segment after the first '/'. */
  lemma SecondPieceIsFirstSegment(path: string)
    requires '/' in path
    ensures |Split(path, '/')| >= 2 && Split(path, '/')[1] == FirstSegment(path)
  {
    var i := IndexOf(path, '/').value;
    SplitAt(path, '/', i);
    var rest := path[i + 1..];
    match IndexOf(rest, '/')
    case None => SplitSingle(rest, '/');
    case Some(j) => SplitFirst(rest, '/', j);
  }

  /**
   * GenerateOperationId: the first path segment with its first letter upper-cased, then the
   * action and operation words of the upper-cased method `verb`. Go panics on a path without '/'.
   */
  function GenerateOperationId(tables: Tables, verb: string, path: string): (r: string)
    requires '/' in path
    ensures r == ToUpperFirstLetter(FirstSegment(path))
                 + Lookup(tables.restActions, ToUpper(verb))
                 + Lookup(tables.restOperations, ToUpper(verb))
  {
    SecondPieceIsFirstSegment(path);
    ToUpperFirstLetter(Split(path, '/')[1])
      + Lookup(tables.restActions, ToUpper(verb))
      + Lookup(tables.restOperations, ToUpper(verb))
  }

  /** A collection path and its item path share an operation id for the same method. */
  lemma OperationIdCollision(tables: Tables, verb: string)
    ensures GenerateOperationId(tables, verb, "/users") == GenerateOperationId(tables, verb, "/users/{id}")
  {
    assert "/users/{id}" == "/" + "users" + "/" + "{id}";
    LeadingSegment("users", "{id}");
  }

  /** The first segment of "/a" and of "/a/b" is `a`, for `a` without '/'. */
  lemma LeadingSegment(a: string, b: string)
    requires '/' !in a
    ensures FirstSegment("/" + a) == a
    ensures FirstSegment("/" + a + "/" + b) == a
  {
    var short, long := "/" + a, "/" + a + "/" + b;
    assert short[0] == '/' && long[0] == '/';
    assert IndexOf(short, '/') == Some(0) && IndexOf(long, '/') == Some(0);
    assert short[1..] == a;
    var rest := long[1..];
    assert rest == a + "/" + b;
    assert rest[|a|] == '/' && rest[..|a|] == a;
    assert IndexOf(rest, '/') == Some(|a|);
  }

  /** Some ignored-file pattern occurs in the path. */
  predicate IgnoredFile(tables: Tables, filePath: string) {
    exists v :: v in tables.ignoredFilePatterns && Contains(filePath, v)
  }

  /** IsIgnoredFile: a linear search of the ignored-file patterns for one occurring in the path. */
  method IsIgnoredFile(tables: Tables, filePath: string) returns (ignored: bool)
    ensures ignored <==> IgnoredFile(tables, filePath)
  {
    var i := 0;
    while i < |tables.ignoredFilePatterns|
      invariant 0 <= i <= |tables.ignoredFilePatterns|
      invariant forall k :: 0 <= k < i ==> !Contains(filePath, tables.ignoredFilePatterns[k])
    {
      if Contains(filePath, tables.ignoredFilePatterns[i]) {
        assert tables.ignoredFilePatterns[i] in tables.ignoredFilePatterns;
        return true;
      }
      i := i + 1;
    }
    return false;
  }

  /** SanitizeCommentLineText: a comment line with its line feeds turned into spaces. */
  function SanitizeCommentLineText(s: string): (r: string)
    ensures |r| == |s| && '\n' !in r
    ensures forall i :: 0 <= i < |s| && s[i] != '\n' ==> r[i] == s[i]
  {
    RemoveNewLines(s)
  }
}
