/**
 * extractSchemaNamesFromComments (schemas.go:22-75) and extractEnumNamesFromComments
 * (enums.go:18-71): the same walk over a file's comment groups, each with its own pattern.
 * A pattern is the function from a sanitised comment line to its second capture group.
 */
module CommentNames {

  import opened Wrappers
  import opened EngineUtils
  import opened Engine

  const NoCommentsMessage := "reading comment file: there is no comments (@api declarations) in the file"
  /** The empty-group message of the schema walk; the enum walk uses NoCommentsListMessage. */
  const EmptySchemaGroupMessage := "reading comment.List: there is no @api declarations in the file"
  const NoCommentsListMessage := "reading comment.List: there is no comments (@api declarations) in the file"
  const NoDeclarationsMessage := "parsing commentLine: there is no @api declarations in the file"

  /** The capture of the first line of a group that the pattern matches, if any. */
  function FirstCapture(capture: string -> Option<string>, lines: seq<string>): (r: Option<string>)
    ensures r.None? <==> forall j :: 0 <= j < |lines| ==> capture(SanitizeCommentLineText(lines[j])).None?
    ensures r.Some? ==> exists j :: 0 <= j < |lines| && capture(SanitizeCommentLineText(lines[j])) == r
                          && forall j' :: 0 <= j' < j ==> capture(SanitizeCommentLineText(lines[j'])).None?
    decreases |lines|
  {
    if |lines| == 0 then None
    else
      match capture(SanitizeCommentLineText(lines[0]))
      case Some(name) => Some(name)
      case None =>
        var rest := FirstCapture(capture, lines[1..]);
        assert forall j :: 1 <= j < |lines| ==> lines[j] == lines[1..][j - 1];
        rest
  }

  /** The names the groups contribute, in order, at most one per group. */
  function CapturedNames(capture: string -> Option<string>, groups: seq<seq<string>>): seq<string>
    decreases |groups|
  {
    if |groups| == 0 then []
    else
      CapturedNames(capture, groups[..|groups| - 1])
      + match FirstCapture(capture, groups[|groups| - 1]) case Some(n) => [n] case None => []
  }

  /** What the walk returns for a file's comment groups. */
  function NamesFromComments(capture: string -> Option<string>, fileName: string, groups: seq<seq<string>>,
                             emptyGroupMessage: string): Result<seq<string>>
  {
    if |groups| == 0 then Err(BuildLogText(fileName, NoCommentsMessage))
    else if exists i :: 0 <= i < |groups| && |groups[i]| == 0 then Err(BuildLogText(fileName, emptyGroupMessage))
    else if |CapturedNames(capture, groups)| == 0 then Err(BuildLogText(fileName, NoDeclarationsMessage))
    else Ok(CapturedNames(capture, groups))
  }

  /** The walk: per group, the first matching line's capture; then the emptiness checks. */
  method ExtractNamesFromComments(capture: string -> Option<string>, fileName: string, groups: seq<seq<string>>,
                                  emptyGroupMessage: string) returns (r: Result<seq<string>>)
    ensures r == NamesFromComments(capture, fileName, groups, emptyGroupMessage)
  {
    if |groups| == 0 {
      return Err(BuildLogText(fileName, NoCommentsMessage));
    }
    var names: seq<string> := [];
    var g := 0;
    while g < |groups|
      invariant 0 <= g <= |groups|
      invariant names == CapturedNames(capture, groups[..g])
      invariant forall i :: 0 <= i < g ==> |groups[i]| > 0
    {
      var lines := groups[g];
      if |lines| == 0 {
        return Err(BuildLogText(fileName, emptyGroupMessage));
      }
      var found := FirstCaptureIn(capture, lines);
      if found.Some? {
        names := names + [found.value];
      }
      assert groups[..g + 1][..g] == groups[..g];
      g := g + 1;
    }
    assert groups[..g] == groups;
    if |names| == 0 {
      return Err(BuildLogText(fileName, NoDeclarationsMessage));
    }
    return Ok(names);
  }

  /** The inner loop of the walk: the capture of the first line of a group that matches. */
  method FirstCaptureIn(capture: string -> Option<string>, lines: seq<string>) returns (found: Option<string>)
    ensures found == FirstCapture(capture, lines)
  {
    found := None;
    var j := 0;
    while j < |lines|
      invariant 0 <= j <= |lines|
      invariant FirstCapture(capture, lines) == FirstCapture(capture, lines[j..])
    {
      var m := capture(SanitizeCommentLineText(lines[j]));
      if m.Some? {
        return m;
      }
      assert lines[j..][1..] == lines[j + 1..];
      j := j + 1;
    }
  }

  /** A group contributes at most one name, so there are at most as many names as groups. */
  lemma {:induction false} AtMostOneNamePerGroup(capture: string -> Option<string>, groups: seq<seq<string>>)
    ensures |CapturedNames(capture, groups)| <= |groups|
    decreases |groups|
  {
    if |groups| > 0 {
      AtMostOneNamePerGroup(capture, groups[..|groups| - 1]);
    }
  }

  /** No name is captured exactly when no line of any group matches the pattern. */
  lemma {:induction false} NoNamesIffNoMatch(capture: string -> Option<string>, groups: seq<seq<string>>)
    ensures |CapturedNames(capture, groups)| == 0 <==>
              forall i, j :: 0 <= i < |groups| && 0 <= j < |groups[i]| ==> capture(SanitizeCommentLineText(groups[i][j])).None?
    decreases |groups|
  {
    if |groups| > 0 {
      var front := groups[..|groups| - 1];
      NoNamesIffNoMatch(capture, front);
      assert forall i :: 0 <= i < |front| ==> front[i] == groups[i];
    }
  }
}
