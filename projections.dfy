/** The projections of `MalcoreApi` that build their result vectors with
    `push_back`/`emplace_back` inside loops, each proved to compute the
    projection its specification function describes. A `return None`
    inside a loop is the `json::exception` that leaves the loop and is
    caught at the end of the projection. */
module MalcoreProjections {
  import opened Wrappers
  import opened JsonValue
  import opened CNumbers
  import opened Sequences
  import opened MalcoreResults

  method GetInterestingStrings(analysis: Json) returns (r: Option<seq<string>>)
    ensures r == InterestingStringsOf(analysis)
  {
    var strings := Lookup(analysis, StringsPath);
    if strings.None? {
      return None;
    }
    var items := Elements(strings.value);
    var result: seq<string> := [];
    var i := 0;
    while i < |items|
      invariant 0 <= i <= |items|
      invariant MapAll(items[..i], GetString) == Some(result)
    {
      var item := items[i];
      if !item.Str? {
        MapAllFails(items, i, GetString);
        return None;
      }
      MapAllSnoc(items, i, GetString, result, item.s);
      result := result + [item.s];
      i := i + 1;
    }
    assert items[..i] == items;
    return Some(result);
  }

  method GetThreatScore(analysis: Json) returns (r: Option<ThreatScore>)
    ensures r == ThreatScoreOf(analysis)
  {
    var threatScore := Lookup(analysis, ThreatScorePath);
    if threatScore.None? {
      return None;
    }
    var score := StringAt(threatScore.value, "score");
    if score.None? {
      return None;
    }
    var signatures := Member(threatScore.value, "signatures");
    if signatures.None? {
      return None;
    }
    var items := Elements(signatures.value);
    var result: seq<Signature> := [];
    var i := 0;
    while i < |items|
      invariant 0 <= i <= |items|
      invariant MapAll(items[..i], SignatureOf) == Some(result)
    {
      var info := Member(items[i], "info");
      var title := if info.Some? then StringAt(info.value, "title") else None;
      var description := if info.Some? then StringAt(info.value, "description") else None;
      var discovered := Member(items[i], "discovered");
      if title.None? || description.None? || discovered.None? {
        MapAllFails(items, i, SignatureOf);
        return None;
      }
      var signature := Signature(title.value, description.value, discovered.value);
      MapAllSnoc(items, i, SignatureOf, result, signature);
      result := result + [signature];
      i := i + 1;
    }
    assert items[..i] == items;
    return Some(ThreatScore(score.value, result));
  }

  /** One `apis` entry: its name, its `pc` parsed in base 16, its `args`
      collected in order and its `ret_val` if that is a string. */
  method DecodeApi(api: Json) returns (r: Option<Api>)
    ensures r == ApiOf(api)
  {
    var apiName := StringAt(api, "api_name");
    var pc := StringAt(api, "pc");
    var args := Member(api, "args");
    if apiName.None? || pc.None? || args.None? {
      return None;
    }
    var items := Elements(args.value);
    var arguments: seq<string> := [];
    var i := 0;
    while i < |items|
      invariant 0 <= i <= |items|
      invariant MapAll(items[..i], GetString) == Some(arguments)
    {
      var argument := items[i];
      if !argument.Str? {
        MapAllFails(items, i, GetString);
        return None;
      }
      MapAllSnoc(items, i, GetString, arguments, argument.s);
      arguments := arguments + [argument.s];
      i := i + 1;
    }
    assert items[..i] == items;
    var returnValue := "";
    var retVal := Member(api, "ret_val");
    if retVal.Some? && retVal.value.Str? {
      returnValue := retVal.value.s;
    }
    return Some(Api(apiName.value, ParseHex(pc.value), arguments, returnValue));
  }

  /** One entry point: its `apihash` and its `apis`, in order. */
  method DecodeEntryPoint(entryPoint: Json) returns (r: Option<DynamicAnalysisResult>)
    ensures r == EntryPointOf(entryPoint)
  {
    var hash := StringAt(entryPoint, "apihash");
    var apis := Member(entryPoint, "apis");
    if hash.None? || apis.None? {
      return None;
    }
    var items := Elements(apis.value);
    var result: seq<Api> := [];
    var i := 0;
    while i < |items|
      invariant 0 <= i <= |items|
      invariant MapAll(items[..i], ApiOf) == Some(result)
    {
      var api := DecodeApi(items[i]);
      if api.None? {
        MapAllFails(items, i, ApiOf);
        return None;
      }
      MapAllSnoc(items, i, ApiOf, result, api.value);
      result := result + [api.value];
      i := i + 1;
    }
    assert items[..i] == items;
    return Some(DynamicAnalysisResult(hash.value, result));
  }

  /** The loop over one group's `entry_points`: one result per entry
      point, in order. */
  method DecodeGroup(group: Json) returns (r: Option<seq<DynamicAnalysisResult>>)
    ensures r == GroupOf(group)
  {
    var entryPointList := Member(group, "entry_points");
    if entryPointList.None? {
      return None;
    }
    var entryPoints := Elements(entryPointList.value);
    assert EntryPoints(group) == Some(entryPoints);
    var results: seq<DynamicAnalysisResult> := [];
    var j := 0;
    while j < |entryPoints|
      invariant 0 <= j <= |entryPoints|
      invariant MapAll(entryPoints[..j], EntryPointOf) == Some(results)
    {
      var result := DecodeEntryPoint(entryPoints[j]);
      if result.None? {
        MapAllFails(entryPoints, j, EntryPointOf);
        return None;
      }
      MapAllSnoc(entryPoints, j, EntryPointOf, results, result.value);
      results := results + [result.value];
      j := j + 1;
    }
    assert entryPoints[..j] == entryPoints;
    return Some(results);
  }

  /** The outer loop: the results of every analysis group, in group order
      and then entry order, appended to one result vector. */
  method GetDynamicAnalysisResult(analysis: Json) returns (r: Option<seq<DynamicAnalysisResult>>)
    ensures r == DynamicAnalysisOf(analysis)
  {
    var list := Lookup(analysis, DynamicAnalysisPath);
    if list.None? {
      return None;
    }
    var groups := Elements(list.value);
    assert AnalysisGroups(analysis) == Some(groups);
    var results: seq<DynamicAnalysisResult> := [];
    ghost var perGroup: seq<seq<DynamicAnalysisResult>> := [];
    var i := 0;
    while i < |groups|
      invariant 0 <= i <= |groups|
      invariant MapAll(groups[..i], GroupOf) == Some(perGroup)
      invariant results == Concat(perGroup)
    {
      var groupResults := DecodeGroup(groups[i]);
      if groupResults.None? {
        MapAllFails(groups, i, GroupOf);
        return None;
      }
      MapAllSnoc(groups, i, GroupOf, perGroup, groupResults.value);
      ConcatSnoc(perGroup, groupResults.value);
      results := results + groupResults.value;
      perGroup := perGroup + [groupResults.value];
      i := i + 1;
    }
    assert groups[..i] == groups;
    return Some(results);
  }
}
