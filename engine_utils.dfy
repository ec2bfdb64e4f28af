/** The helpers of engine/utils.go. */
module EngineUtils {

  import opened Wrappers
  import opened Text
  import opened Sources

  /** TerIf: the generic conditional. */
  function TerIf<T>(cond: bool, vtrue: T, vfalse: T): (r: T)
    ensures cond ==> r == vtrue
    ensures !cond ==> r == vfalse
  {
    if cond then vtrue else vfalse
  }

  /** TerIfNil: the first pointer unless it is nil. */
  function TerIfNil<T>(cond: Option<T>, vtrue: Option<T>): (r: Option<T>)
    ensures cond.Some? ==> r == cond
    ensures cond.None? ==> r == vtrue
  {
    if cond.Some? then cond else vtrue
  }

  /** StringInSlice: a linear search of the list. */
  method StringInSlice(a: string, list: seq<string>) returns (found: bool)
    ensures found <==> a in list
  {
    var i := 0;
    while i < |list|
      invariant 0 <= i <= |list|
      invariant a !in list[..i]
    {
      if list[i] == a {
        return true;
      }
      i := i + 1;
    }
    assert list[..i] == list;
    return false;
  }

  /** RemoveNewLines: every line feed becomes a space. */
  function RemoveNewLines(s: string): (r: string)
    ensures |r| == |s|
    ensures '\n' !in r
    ensures forall i :: 0 <= i < |s| && s[i] != '\n' ==> r[i] == s[i]
    ensures forall i :: 0 <= i < |s| && s[i] == '\n' ==> r[i] == ' '
  {
    seq(|s|, i requires 0 <= i < |s| => if s[i] == '\n' then ' ' else s[i])
  }

  /** ToUpperFirstLetter: upper-case the first character and keep the rest. */
  function ToUpperFirstLetter(s: string): (r: string)
    ensures |r| == |s|
    ensures |s| > 0 ==> r[0] == ToUpperChar(s[0]) && r[1..] == s[1..]
  {
    if |s| == 0 then "" else ToUpper(s[..1]) + s[1..]
  }

  /** TrimItemsSpace: trim every item, keeping count and order. */
  method TrimItemsSpace(items: seq<string>) returns (result: seq<string>)
    ensures |result| == |items|
    ensures forall i :: 0 <= i < |items| ==> result[i] == TrimSpace(items[i])
  {
    result := [];
    var i := 0;
    while i < |items|
      invariant 0 <= i <= |items|
      invariant |result| == i
      invariant forall k :: 0 <= k < i ==> result[k] == TrimSpace(items[k])
    {
      result := result + [TrimSpace(items[i])];
      i := i + 1;
    }
  }

  /** The value TrimItemsSpace computes, for use in specifications. */
  function TrimmedItems(items: seq<string>): (r: seq<string>)
    ensures |r| == |items|
    ensures forall i :: 0 <= i < |items| ==> r[i] == TrimSpace(items[i])
  {
    seq(|items|, i requires 0 <= i < |items| => TrimSpace(items[i]))
  }

  /** BuildLogText: the title and description framed by dashed lines; BuildError wraps it. */
  function BuildLogText(title: string, description: string): (r: string)
    ensures HasPrefix(r, "\n------\n" + title + ": " + description)
  {
    "\n------\n" + title + ": " + description + "\n------\n"
  }

  /** AddLeadingSlash: "" stays "", any other text is made to start with '/'. */
  function AddLeadingSlash(path: string): (r: string)
    ensures path == "" <==> r == ""
    ensures r != "" ==> r[0] == '/'
    ensures path != "" && path[0] == '/' ==> r == path
    ensures path != "" && path[0] != '/' ==> r == "/" + path
  {
    if path == "" then ""
    else if path[0] != '/' then "/" + path
    else path
  }

  /** Adding a leading slash twice is the same as adding it once. */
  lemma AddLeadingSlashIdempotent(path: string)
    ensures AddLeadingSlash(AddLeadingSlash(path)) == AddLeadingSlash(path)
  {
  }

  /**
   * The directories FindAllDirectoriesInPath lists under `path`, in pre-order: each
   * subdirectory whose bare name is not ignored, followed by its own subdirectories.
   * An unreadable directory contributes nothing below itself.
   */
  function DirsIn(path: string, listing: Listing, ignored: seq<string>): seq<DirUnit>
    decreases listing, if listing.Entries? then |listing.entries| + 1 else 0
  {
    match listing
    case Unreadable(_) => []
    case Entries(_) => DirsFrom(path, listing, 0, ignored)
  }

  function DirsFrom(path: string, listing: Listing, i: nat, ignored: seq<string>): seq<DirUnit>
    requires listing.Entries? && i <= |listing.entries|
    decreases listing, |listing.entries| - i
  {
    if i == |listing.entries| then []
    else
      var e := listing.entries[i];
      assert e in listing.entries;
      var here :=
        if e.name in ignored || e.File? then []
        else [DirUnit(path + "/" + e.name, e.name, e.listing)] + DirsIn(path + "/" + e.name, e.listing, ignored);
      here + DirsFrom(path, listing, i + 1, ignored)
  }

  /**
   * FindAllDirectoriesInPath: a read error at `path` itself is returned; below it, an
   * unreadable directory is still listed but its error is dropped.
   */
  method FindAllDirectoriesInPath(path: string, listing: Listing, ignored: seq<string>)
    returns (dirs: seq<DirUnit>, err: Option<string>)
    ensures listing.Unreadable? ==> dirs == [] && err == Some(listing.error)
    ensures listing.Entries? ==> err == None && dirs == DirsIn(path, listing, ignored)
    decreases listing
  {
    if listing.Unreadable? {
      return [], Some(listing.error);
    }
    dirs := [];
    var i := 0;
    while i < |listing.entries|
      invariant 0 <= i <= |listing.entries|
      invariant dirs + DirsFrom(path, listing, i, ignored) == DirsFrom(path, listing, 0, ignored)
    {
      var e := listing.entries[i];
      assert e in listing.entries;
      ghost var before := dirs;
      var isIgnored := StringInSlice(e.name, ignored);
      if !isIgnored && e.Dir? {
        dirs := dirs + [DirUnit(path + "/" + e.name, e.name, e.listing)];
        var sub, subErr := FindAllDirectoriesInPath(path + "/" + e.name, e.listing, ignored);
        if subErr.None? {
          dirs := dirs + sub;
        }
      }
      DirsFromStep(path, listing, i, ignored, before, dirs);
      i := i + 1;
    }
    return dirs, None;
  }

  /** One step of the walk: what the loop appended for entry `i` is that entry's share of DirsFrom. */
  lemma DirsFromStep(path: string, listing: Listing, i: nat, ignored: seq<string>, before: seq<DirUnit>, after: seq<DirUnit>)
    requires listing.Entries? && i < |listing.entries|
    requires var e := listing.entries[i];
      after == before + (if e.name in ignored || e.File? then [] else [DirUnit(path + "/" + e.name, e.name, e.listing)] + DirsIn(path + "/" + e.name, e.listing, ignored))
    ensures after + DirsFrom(path, listing, i + 1, ignored) == before + DirsFrom(path, listing, i, ignored)
  {
  }

  /**
   * Every listed directory lies strictly below `path` (so the root itself is never listed)
   * and none has an ignored bare name.
   */
  lemma {:induction false} DirsFromBelowAndNotIgnored(path: string, listing: Listing, i: nat, ignored: seq<string>)
    requires listing.Entries? && i <= |listing.entries|
    ensures forall u :: u in DirsFrom(path, listing, i, ignored) ==>
              u.name !in ignored && HasPrefix(u.path, path + "/")
    decreases listing, |listing.entries| - i
  {
    if i < |listing.entries| {
      var e := listing.entries[i];
      assert e in listing.entries;
      DirsFromBelowAndNotIgnored(path, listing, i + 1, ignored);
      if !(e.name in ignored || e.File?) {
        var child := path + "/" + e.name;
        assert HasPrefix(child, path + "/") by {
          assert child[..|path + "/"|] == path + "/";
        }
        if e.listing.Entries? {
          DirsFromBelowAndNotIgnored(child, e.listing, 0, ignored);
          forall u | u in DirsIn(child, e.listing, ignored)
            ensures HasPrefix(u.path, path + "/")
          {
            assert u.path[..|child + "/"|] == child + "/";
            assert u.path[..|path + "/"|] == (child + "/")[..|path + "/"|];
          }
        }
      }
    }
  }

  lemma DirsInBelowAndNotIgnored(path: string, listing: Listing, ignored: seq<string>)
    ensures forall u :: u in DirsIn(path, listing, ignored) ==>
              u.name !in ignored && HasPrefix(u.path, path + "/") && u.path != path
  {
    if listing.Entries? {
      DirsFromBelowAndNotIgnored(path, listing, 0, ignored);
    }
  }
}
