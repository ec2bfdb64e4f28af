/**
 * extractPathsDataFromComments (paths.go:18-128): every comment line becomes one PathData
 * record, filled from the `@key value` matches of the line's directive pattern.
 */
module PathRecords {

  import opened Wrappers
  import opened Text
  import opened Types
  import opened Sources
  import opened EngineUtils
  import opened Engine

  const NoPathCommentsMessage := "reading comment file: there is no @api declarations in the file"
  const EmptyPathGroupMessage := "reading comment.List: there is no @api declarations in the file"
  const NoPathDeclarationsMessage := "parsing commentLine: there is no @api declarations in the file"
  const InvalidDirectiveMessage := "document comment is not valid: example @apiPath: /users"

  /** The trimmed comma-separated items of a directive value. */
  function Items(value: string): (r: seq<string>)
    ensures |r| >= 1
  {
    TrimmedItems(Split(value, ','))
  }

  /** The directives the switch of extractPathsDataFromComments recognises. */
  datatype Directive =
    | ApiPath | ApiMethod | ApiDescription | ApiSummary | ApiResponseRef | ApiRequestRef
    | ApiStatusCode | ApiTag | ApiParametersRef | ApiDeprecated | ApiSecurity | ApiErrorStatusCodes

  /** The directive a trimmed key names, if any. */
  function DirectiveOf(key: string): (d: Option<Directive>)
    ensures d == Some(ApiPath) <==> key == "@apiPath"
    ensures d == Some(ApiMethod) <==> key == "@apiMethod"
    ensures d == Some(ApiParametersRef) <==> key == "@apiParametersRef"
    ensures d == Some(ApiDeprecated) <==> key == "@apiDeprecated"
    ensures d == Some(ApiSecurity) <==> key == "@apiSecurity"
  {
    if key == "@apiPath" then Some(ApiPath)
    else if key == "@apiMethod" then Some(ApiMethod)
    else if key == "@apiDescription" then Some(ApiDescription)
    else if key == "@apiSummary" then Some(ApiSummary)
    else if key == "@apiResponseRef" then Some(ApiResponseRef)
    else if key == "@apiRequestRef" then Some(ApiRequestRef)
    else if key == "@apiStatusCode" then Some(ApiStatusCode)
    else if key == "@apiTag" then Some(ApiTag)
    else if key == "@apiParametersRef" then Some(ApiParametersRef)
    else if key == "@apiDeprecated" then Some(ApiDeprecated)
    else if key == "@apiSecurity" then Some(ApiSecurity)
    else if key == "@apiErrorStatusCodes" then Some(ApiErrorStatusCodes)
    else None
  }

  /** The effect of a recognised directive with trimmed `value` on a record. */
  function ApplyDirective(pd: PathData, d: Directive, value: string): PathData {
    match d
    case ApiPath => pd.(apiPath := value)
    case ApiMethod => pd.(apiMethod := value)
    case ApiDescription => pd.(apiDescription := value)
    case ApiSummary => pd.(apiSummary := value)
    case ApiResponseRef => pd.(apiResponseRef := value)
    case ApiRequestRef => pd.(apiRequestRef := value)
    case ApiStatusCode => pd.(apiStatusCode := value)
    case ApiTag => pd.(apiTag := value)
    case ApiParametersRef => pd.(apiParametersRef := value)
    case ApiDeprecated => pd.(apiDeprecated := value)
    case ApiSecurity =>
      var scopes := Items(value);
      pd.(apiSecurities := pd.apiSecurities[scopes[0] := scopes[1..]])
    case ApiErrorStatusCodes => pd.(apiErrorStatusCodes := Items(value))
  }

  /** The switch on a trimmed key: unrecognised keys leave the record alone. */
  function ApplyKey(pd: PathData, key: string, value: string): PathData {
    match DirectiveOf(key)
    case Some(d) => ApplyDirective(pd, d, value)
    case None => pd
  }

  /** The custom error-ref and error-description patterns store the value under the captured code. */
  function ApplyCustom(pat: Patterns, pd: PathData, key: string, value: string): PathData {
    var withRef :=
      match pat.customRefCode(key)
      case Some(code) => pd.(apiCustomErrorRefs := pd.apiCustomErrorRefs[code := value])
      case None => pd;
    match pat.customDescriptionCode(key)
    case Some(code) => withRef.(apiCustomErrorDescriptions := withRef.apiCustomErrorDescriptions[code := value])
    case None => withRef
  }

  /** One match of the directive pattern: the switch on its trimmed key, then the custom patterns. */
  function ApplyMatch(pat: Patterns, pd: PathData, m: seq<string>): PathData
    requires |m| >= 3
  {
    var key, value := TrimSpace(m[1]), TrimSpace(m[2]);
    ApplyCustom(pat, ApplyKey(pd, key, value), key, value)
  }

  /** The matches applied in order; a match with fewer than three groups is an error. */
  function ApplyMatches(pat: Patterns, pd: PathData, ms: seq<seq<string>>): Result<PathData>
    decreases |ms|
  {
    if |ms| == 0 then Ok(pd)
    else
      match ApplyMatches(pat, pd, ms[..|ms| - 1])
      case Err(e) => Err(e)
      case Ok(cur) =>
        var m := ms[|ms| - 1];
        if |m| < 3 then Err(InvalidDirectiveMessage) else Ok(ApplyMatch(pat, cur, m))
  }

  /** The record of one comment line. */
  function LineRecord(pat: Patterns, line: string): Result<PathData> {
    ApplyMatches(pat, EmptyPathData, pat.directives(SanitizeCommentLineText(line)))
  }

  /** The records of a group's lines, in order, stopping at the first invalid line. */
  function LinesRecords(pat: Patterns, lines: seq<string>): Result<seq<PathData>>
    decreases |lines|
  {
    if |lines| == 0 then Ok([])
    else
      match LinesRecords(pat, lines[..|lines| - 1])
      case Err(e) => Err(e)
      case Ok(rs) =>
        match LineRecord(pat, lines[|lines| - 1])
        case Err(e) => Err(e)
        case Ok(r) => Ok(rs + [r])
  }

  /** The records of the groups, in order, stopping at the first empty group or invalid line. */
  function GroupsRecords(pat: Patterns, fileName: string, groups: seq<seq<string>>): Result<seq<PathData>>
    decreases |groups|
  {
    if |groups| == 0 then Ok([])
    else
      match GroupsRecords(pat, fileName, groups[..|groups| - 1])
      case Err(e) => Err(e)
      case Ok(rs) =>
        var lines := groups[|groups| - 1];
        if |lines| == 0 then Err(BuildLogText(fileName, EmptyPathGroupMessage))
        else
          match LinesRecords(pat, lines)
          case Err(e) => Err(e)
          case Ok(more) => Ok(rs + more)
  }

  /** What extractPathsDataFromComments returns for a file's comment groups. */
  function PathRecordsOf(pat: Patterns, fileName: string, groups: seq<seq<string>>): Result<seq<PathData>> {
    if |groups| == 0 then Err(BuildLogText(fileName, NoPathCommentsMessage))
    else
      match GroupsRecords(pat, fileName, groups)
      case Err(e) => Err(e)
      case Ok(rs) => if |rs| == 0 then Err(BuildLogText(fileName, NoPathDeclarationsMessage)) else Ok(rs)
  }

  /** The loop over one line's matches. */
  method ExtractLineRecord(pat: Patterns, line: string) returns (r: Result<PathData>)
    ensures r == LineRecord(pat, line)
  {
    var ms := pat.directives(SanitizeCommentLineText(line));
    var pathData := EmptyPathData;
    var k := 0;
    while k < |ms|
      invariant 0 <= k <= |ms|
      invariant ApplyMatches(pat, EmptyPathData, ms[..k]) == Ok(pathData)
    {
      assert ms[..k + 1][..k] == ms[..k];
      var m := ms[k];
      if |m| < 3 {
        MatchesErrPersists(pat, ms, k + 1);
        return Err(InvalidDirectiveMessage);
      }
      pathData := ApplyMatch(pat, pathData, m);
      k := k + 1;
    }
    assert ms[..k] == ms;
    return Ok(pathData);
  }

  /** The loop over one group's lines. */
  method ExtractGroupRecords(pat: Patterns, lines: seq<string>) returns (r: Result<seq<PathData>>)
    ensures r == LinesRecords(pat, lines)
  {
    var records: seq<PathData> := [];
    var j := 0;
    while j < |lines|
      invariant 0 <= j <= |lines|
      invariant LinesRecords(pat, lines[..j]) == Ok(records)
    {
      assert lines[..j + 1][..j] == lines[..j];
      var record := ExtractLineRecord(pat, lines[j]);
      if record.Err? {
        LinesErrPersists(pat, lines, j + 1);
        return Err(record.error);
      }
      records := records + [record.value];
      j := j + 1;
    }
    assert lines[..j] == lines;
    return Ok(records);
  }

  /** The loop over the comment groups, then the emptiness check. */
  method ExtractPathsDataFromComments(pat: Patterns, fileName: string, groups: seq<seq<string>>)
    returns (r: Result<seq<PathData>>)
    ensures r == PathRecordsOf(pat, fileName, groups)
  {
    if |groups| == 0 {
      return Err(BuildLogText(fileName, NoPathCommentsMessage));
    }
    var pathsData: seq<PathData> := [];
    var g := 0;
    while g < |groups|
      invariant 0 <= g <= |groups|
      invariant GroupsRecords(pat, fileName, groups[..g]) == Ok(pathsData)
    {
      assert groups[..g + 1][..g] == groups[..g];
      var lines := groups[g];
      if |lines| == 0 {
        GroupsErrPersists(pat, fileName, groups, g + 1);
        return Err(BuildLogText(fileName, EmptyPathGroupMessage));
      }
      var records := ExtractGroupRecords(pat, lines);
      if records.Err? {
        GroupsErrPersists(pat, fileName, groups, g + 1);
        return Err(records.error);
      }
      pathsData := pathsData + records.value;
      g := g + 1;
    }
    assert groups[..g] == groups;
    if |pathsData| == 0 {
      return Err(BuildLogText(fileName, NoPathDeclarationsMessage));
    }
    return Ok(pathsData);
  }

  /** An invalid match stops the fold for good. */
  lemma {:induction false} MatchesErrPersists(pat: Patterns, ms: seq<seq<string>>, j: nat)
    requires j <= |ms| && ApplyMatches(pat, EmptyPathData, ms[..j]).Err?
    ensures ApplyMatches(pat, EmptyPathData, ms) == ApplyMatches(pat, EmptyPathData, ms[..j])
    decreases |ms| - j
  {
    if j < |ms| {
      assert ms[..j + 1][..j] == ms[..j];
      MatchesErrPersists(pat, ms, j + 1);
    } else {
      assert ms[..j] == ms;
    }
  }

  /** An empty group or invalid line stops the fold for good. */
  lemma {:induction false} GroupsErrPersists(pat: Patterns, fileName: string, groups: seq<seq<string>>, j: nat)
    requires j <= |groups| && GroupsRecords(pat, fileName, groups[..j]).Err?
    ensures GroupsRecords(pat, fileName, groups) == GroupsRecords(pat, fileName, groups[..j])
    decreases |groups| - j
  {
    if j < |groups| {
      assert groups[..j + 1][..j] == groups[..j];
      GroupsErrPersists(pat, fileName, groups, j + 1);
    } else {
      assert groups[..j] == groups;
    }
  }

  /** An invalid line stops the fold for good. */
  lemma {:induction false} LinesErrPersists(pat: Patterns, lines: seq<string>, j: nat)
    requires j <= |lines| && LinesRecords(pat, lines[..j]).Err?
    ensures LinesRecords(pat, lines) == LinesRecords(pat, lines[..j])
    decreases |lines| - j
  {
    if j < |lines| {
      assert lines[..j + 1][..j] == lines[..j];
      LinesErrPersists(pat, lines, j + 1);
    } else {
      assert lines[..j] == lines;
    }
  }

  /** Every line yields exactly one record, whether or not any directive matched. */
  lemma {:induction false} OneRecordPerLine(pat: Patterns, lines: seq<string>)
    requires LinesRecords(pat, lines).Ok?
    ensures |LinesRecords(pat, lines).value| == |lines|
    decreases |lines|
  {
    if |lines| > 0 {
      OneRecordPerLine(pat, lines[..|lines| - 1]);
    }
  }

  /** Non-empty groups give at least one record, so the "no declarations" error never fires. */
  lemma {:induction false} RecordsNeverEmpty(pat: Patterns, fileName: string, groups: seq<seq<string>>)
    requires GroupsRecords(pat, fileName, groups).Ok? && |groups| > 0
    ensures |GroupsRecords(pat, fileName, groups).value| >= |groups[|groups| - 1]| > 0
    ensures PathRecordsOf(pat, fileName, groups) == GroupsRecords(pat, fileName, groups)
    decreases |groups|
  {
    OneRecordPerLine(pat, groups[|groups| - 1]);
  }

  /** The directives that store their value as a single string field. */
  predicate IsScalar(d: Directive) {
    d != ApiSecurity && d != ApiErrorStatusCodes
  }

  /** The string field a scalar directive sets. */
  function ScalarField(pd: PathData, d: Directive): string
    requires IsScalar(d)
  {
    match d
    case ApiPath => pd.apiPath
    case ApiMethod => pd.apiMethod
    case ApiDescription => pd.apiDescription
    case ApiSummary => pd.apiSummary
    case ApiResponseRef => pd.apiResponseRef
    case ApiRequestRef => pd.apiRequestRef
    case ApiStatusCode => pd.apiStatusCode
    case ApiTag => pd.apiTag
    case ApiParametersRef => pd.apiParametersRef
    case ApiDeprecated => pd.apiDeprecated
  }

  /** The trimmed value of the last match whose trimmed key names `d`, if any. */
  function LastValue(ms: seq<seq<string>>, d: Directive): Option<string>
    requires forall i :: 0 <= i < |ms| ==> |ms[i]| >= 3
    decreases |ms|
  {
    if |ms| == 0 then None
    else if DirectiveOf(TrimSpace(ms[|ms| - 1][1])) == Some(d) then Some(TrimSpace(ms[|ms| - 1][2]))
    else LastValue(ms[..|ms| - 1], d)
  }

  /** A recognised directive sets only its own scalar field. */
  lemma DirectiveSetsScalar(pd: PathData, e: Directive, value: string, d: Directive)
    requires IsScalar(d)
    ensures ScalarField(ApplyDirective(pd, e, value), d) == if e == d then value else ScalarField(pd, d)
  {
  }

  /** The switch sets a scalar field exactly when the key names it. */
  lemma KeySetsScalar(pd: PathData, key: string, value: string, d: Directive)
    requires IsScalar(d)
    ensures ScalarField(ApplyKey(pd, key, value), d) == if DirectiveOf(key) == Some(d) then value else ScalarField(pd, d)
  {
    match DirectiveOf(key)
    case None =>
    case Some(e) => DirectiveSetsScalar(pd, e, value, d);
  }

  /** One match sets a scalar field exactly when its trimmed key names that field. */
  lemma MatchSetsScalar(pat: Patterns, pd: PathData, m: seq<string>, d: Directive)
    requires |m| >= 3 && IsScalar(d)
    ensures ScalarField(ApplyMatch(pat, pd, m), d)
            == if DirectiveOf(TrimSpace(m[1])) == Some(d) then TrimSpace(m[2]) else ScalarField(pd, d)
  {
    var key, value := TrimSpace(m[1]), TrimSpace(m[2]);
    KeySetsScalar(pd, key, value, d);
    CustomTouchesOnlyCustomMaps(pat, ApplyKey(pd, key, value), key, value);
  }

  /** The custom patterns write only the two custom maps. */
  lemma CustomTouchesOnlyCustomMaps(pat: Patterns, pd: PathData, key: string, value: string)
    ensures var r := ApplyCustom(pat, pd, key, value);
      r == pd.(apiCustomErrorRefs := r.apiCustomErrorRefs, apiCustomErrorDescriptions := r.apiCustomErrorDescriptions)
  {
  }

  /** Each scalar field of a line's record comes from the last directive naming it. */
  lemma {:induction false} LastDirectiveWins(pat: Patterns, pd: PathData, ms: seq<seq<string>>, d: Directive)
    requires forall i :: 0 <= i < |ms| ==> |ms[i]| >= 3
    requires IsScalar(d)
    ensures ApplyMatches(pat, pd, ms).Ok?
    ensures ScalarField(ApplyMatches(pat, pd, ms).value, d) == LastValue(ms, d).GetOr(ScalarField(pd, d))
    decreases |ms|
  {
    if |ms| > 0 {
      LastDirectiveWins(pat, pd, ms[..|ms| - 1], d);
      MatchSetsScalar(pat, ApplyMatches(pat, pd, ms[..|ms| - 1]).value, ms[|ms| - 1], d);
    }
  }

  /** A match whose key is no directive and matches neither custom pattern changes nothing. */
  lemma UnknownKeyChangesNothing(pat: Patterns, pd: PathData, m: seq<string>)
    requires |m| >= 3
    requires TrimSpace(m[1]) !in {"@apiPath", "@apiMethod", "@apiDescription", "@apiSummary", "@apiResponseRef",
                                  "@apiRequestRef", "@apiStatusCode", "@apiTag", "@apiParametersRef",
                                  "@apiDeprecated", "@apiSecurity", "@apiErrorStatusCodes"}
    requires pat.customRefCode(TrimSpace(m[1])).None? && pat.customDescriptionCode(TrimSpace(m[1])).None?
    ensures ApplyMatch(pat, pd, m) == pd
  {
  }

  /** `@apiSecurity name, s1, s2` stores the trimmed scopes under the trimmed name. */
  lemma SecurityDirective(pat: Patterns, pd: PathData, m: seq<string>)
    requires |m| >= 3 && TrimSpace(m[1]) == "@apiSecurity"
    ensures var items := Items(TrimSpace(m[2]));
      var r := ApplyMatch(pat, pd, m);
      items[0] in r.apiSecurities && r.apiSecurities[items[0]] == items[1..]
      && |r.apiSecurities[items[0]]| == |Split(TrimSpace(m[2]), ',')| - 1
    ensures forall n :: n in pd.apiSecurities && n != Items(TrimSpace(m[2]))[0] ==>
              n in ApplyMatch(pat, pd, m).apiSecurities && ApplyMatch(pat, pd, m).apiSecurities[n] == pd.apiSecurities[n]
  {
    var items := Items(TrimSpace(m[2]));
    SecuritiesAfter(pat, pd, m);
    var after := ApplyMatch(pat, pd, m).apiSecurities;
    assert after == pd.apiSecurities[items[0] := items[1..]];
    assert |items| == |Split(TrimSpace(m[2]), ',')|;
    forall n | n in pd.apiSecurities && n != items[0]
      ensures n in after && after[n] == pd.apiSecurities[n]
    {
    }
  }

  /** The security map after an `@apiSecurity` match. */
  lemma SecuritiesAfter(pat: Patterns, pd: PathData, m: seq<string>)
    requires |m| >= 3 && TrimSpace(m[1]) == "@apiSecurity"
    ensures var items := Items(TrimSpace(m[2]));
      ApplyMatch(pat, pd, m).apiSecurities == pd.apiSecurities[items[0] := items[1..]]
  {
    var key, value := TrimSpace(m[1]), TrimSpace(m[2]);
    KeySecurity(pd, key, value);
    CustomKeepsSecurities(pat, ApplyKey(pd, key, value), key, value);
  }

  /** The switch on an `@apiSecurity` key sets one entry of the security map. */
  lemma KeySecurity(pd: PathData, key: string, value: string)
    requires DirectiveOf(key) == Some(ApiSecurity)
    ensures ApplyKey(pd, key, value).apiSecurities == pd.apiSecurities[Items(value)[0] := Items(value)[1..]]
  {
    KeyApplies(pd, key, value);
    DirectiveSecurity(pd, value);
  }

  /** A recognised key applies its directive. */
  lemma KeyApplies(pd: PathData, key: string, value: string)
    requires DirectiveOf(key).Some?
    ensures ApplyKey(pd, key, value) == ApplyDirective(pd, DirectiveOf(key).value, value)
  {
  }

  /** `@apiSecurity` sets one entry of the security map. */
  lemma DirectiveSecurity(pd: PathData, value: string)
    ensures ApplyDirective(pd, ApiSecurity, value).apiSecurities == pd.apiSecurities[Items(value)[0] := Items(value)[1..]]
  {
  }

  /** The custom patterns leave the security map alone. */
  lemma CustomKeepsSecurities(pat: Patterns, pd: PathData, key: string, value: string)
    ensures ApplyCustom(pat, pd, key, value).apiSecurities == pd.apiSecurities
  {
  }

  /** A custom-ref key stores the trimmed value under its captured status code. */
  lemma CustomRefDirective(pat: Patterns, pd: PathData, m: seq<string>)
    requires |m| >= 3 && pat.customRefCode(TrimSpace(m[1])).Some?
    ensures var code := pat.customRefCode(TrimSpace(m[1])).value;
      code in ApplyMatch(pat, pd, m).apiCustomErrorRefs
      && ApplyMatch(pat, pd, m).apiCustomErrorRefs[code] == TrimSpace(m[2])
  {
  }
}
