/** The typed results `MalcoreApi` extracts from a status document, and the
    meaning of each projection as a function of the document. Every
    projection succeeds completely or yields `None`: any missing key,
    out-of-range index or non-string where a string is read is caught at
    the projection's `try` boundary. */
module MalcoreResults {
  import opened Wrappers
  import opened JsonValue
  import opened CNumbers
  import opened Sequences

  datatype PackerInformation = PackerInformation(name: string, confidence: u32)

  /** `discovered` is passed through as the service sent it. */
  datatype Signature = Signature(title: string, description: string, discovered: Json)

  /** The score is the text the float is parsed from with `strtof`. */
  datatype ThreatScore = ThreatScore(scoreText: string, signatures: seq<Signature>)

  datatype Api = Api(apiName: string, pcValue: u64, arguments: seq<string>, returnValue: string)

  datatype DynamicAnalysisResult = DynamicAnalysisResult(hash: string, apis: seq<Api>)

  const MessagesTypePath: seq<Step> := [Key("messages"), Index(0), Key("type")]
  const PackerPath: seq<Step> := [Key("data"), Key("packer_information"), Index(0)]
  const StringsPath: seq<Step> := [Key("data"), Key("interesting_strings"), Key("results")]
  const ThreatScorePath: seq<Step> := [Key("data"), Key("threat_score"), Key("results")]
  const DynamicAnalysisPath: seq<Step> := [Key("data"), Key("dynamic_analysis"), Key("dynamic_analysis")]

  // ---------------------------------------------------------------------
  // Terminal status

  /** `messages[0].type == "success"`. There is no `try` here, so `None`
      stands for two outcomes: a json exception that reaches the caller
      (a key lookup on a non-object, an index on a non-array, or a
      `type` that is not a string), and the undefined behaviour of the
      const `operator[]` (a missing `messages` or `type` key, or an empty
      `messages` array). */
  function IsAnalysisFinished(analysis: Json): (r: Option<bool>)
    ensures r.Some? <==> StringAtPath(analysis, MessagesTypePath).Some?
    ensures r == Some(true) <==> Lookup(analysis, MessagesTypePath) == Some(Str("success"))
    ensures r == Some(false) <==> exists t :: Lookup(analysis, MessagesTypePath) == Some(Str(t)) && t != "success"
  {
    var messages :- Member(analysis, "messages");
    var first :- At(messages, 0);
    var kind :- StringAt(first, "type");
    Some(kind == "success")
  }

  // ---------------------------------------------------------------------
  // Packer information

  /** `strtoul(percent, nullptr, 10)` stored into a `u32`: the conversion
      keeps the low 32 bits. */
  function Confidence(percent: string): (c: u32)
    ensures ParseDecimal(percent) <= 0xFFFF_FFFF ==> c == ParseDecimal(percent)
  {
    var v: u64 := ParseDecimal(percent);
    Low32(v)
  }

  /** A percentage that starts with the decimal digits of `n` has the low
      32 bits of `n` as its confidence. */
  lemma ConfidenceOfDigits(n: u64, rest: string)
    requires rest == [] || !IsDigit(rest[0], 10)
    ensures Confidence(ToDigits(n, 10) + rest) == n % 0x1_0000_0000
  {
    ParseDecimalRendered(n, rest);
  }

  /** A percentage without digits has confidence 0. */
  lemma ConfidenceWithoutDigits(percent: string)
    requires forall i :: 0 <= i < |percent| ==> !IsDigit(percent[i], 10)
    ensures Confidence(percent) == 0
  {
    NoDigitsIsZero(percent, 10);
  }

  function GetPackerInformation(analysis: Json): (r: Option<PackerInformation>)
    ensures r.Some? <==> (StringAtPath(analysis, PackerPath + [Key("packer_name")]).Some?
                       && StringAtPath(analysis, PackerPath + [Key("percent")]).Some?)
    ensures r.Some? ==> Lookup(analysis, PackerPath + [Key("packer_name")]) == Some(Str(r.value.name))
    ensures r.Some? ==> r.value.confidence == Confidence(StringAtPath(analysis, PackerPath + [Key("percent")]).value)
  {
    LookupAppend(analysis, PackerPath, [Key("packer_name")]);
    LookupAppend(analysis, PackerPath, [Key("percent")]);
    var info :- Lookup(analysis, PackerPath);
    var name :- StringAt(info, "packer_name");
    var percent :- StringAt(info, "percent");
    Some(PackerInformation(name, Confidence(percent)))
  }

  // ---------------------------------------------------------------------
  // Interesting strings

  /** What the loop over `data.interesting_strings.results` visits. */
  function StringItems(analysis: Json): Option<seq<Json>>
  {
    var results :- Lookup(analysis, StringsPath);
    Some(Elements(results))
  }

  function InterestingStringsOf(analysis: Json): (r: Option<seq<string>>)
    ensures r.Some? <==> (StringItems(analysis).Some?
                       && forall i :: 0 <= i < |StringItems(analysis).value| ==> StringItems(analysis).value[i].Str?)
    ensures r.Some? ==> (|r.value| == |StringItems(analysis).value|
                      && forall i :: 0 <= i < |r.value| ==> StringItems(analysis).value[i] == Str(r.value[i]))
  {
    var items :- StringItems(analysis);
    MapAll(items, GetString)
  }

  // ---------------------------------------------------------------------
  // Threat score

  function SignatureOf(signature: Json): (r: Option<Signature>)
    ensures r.Some? <==> (Member(signature, "info").Some?
                       && StringAt(Member(signature, "info").value, "title").Some?
                       && StringAt(Member(signature, "info").value, "description").Some?
                       && Member(signature, "discovered").Some?)
    ensures r.Some? ==> (var info := Member(signature, "info").value;
                         && Member(info, "title") == Some(Str(r.value.title))
                         && Member(info, "description") == Some(Str(r.value.description))
                         && Member(signature, "discovered") == Some(r.value.discovered))
  {
    var info :- Member(signature, "info");
    var title :- StringAt(info, "title");
    var description :- StringAt(info, "description");
    var discovered :- Member(signature, "discovered");
    Some(Signature(title, description, discovered))
  }

  /** `data.threat_score.results`, provided its `score` is a string. */
  function ThreatResults(analysis: Json): Option<(string, Json)>
  {
    var results :- Lookup(analysis, ThreatScorePath);
    var score :- StringAt(results, "score");
    var signatures :- Member(results, "signatures");
    Some((score, signatures))
  }

  function ThreatScoreOf(analysis: Json): (r: Option<ThreatScore>)
    ensures r.Some? <==> (ThreatResults(analysis).Some?
                       && forall i :: 0 <= i < |Elements(ThreatResults(analysis).value.1)|
                            ==> SignatureOf(Elements(ThreatResults(analysis).value.1)[i]).Some?)
    ensures r.Some? ==> (var sigs := Elements(ThreatResults(analysis).value.1);
                         && r.value.scoreText == ThreatResults(analysis).value.0
                         && |r.value.signatures| == |sigs|
                         && forall i :: 0 <= i < |sigs| ==> Some(r.value.signatures[i]) == SignatureOf(sigs[i]))
  {
    var (score, signatures) :- ThreatResults(analysis);
    var list :- MapAll(Elements(signatures), SignatureOf);
    Some(ThreatScore(score, list))
  }

  // ---------------------------------------------------------------------
  // Dynamic analysis

  /** `ret_val` when it is a string, the empty string otherwise. */
  function ReturnValueOf(api: Json): (v: string)
    ensures Member(api, "ret_val").Some? && Member(api, "ret_val").value.Str? ==> Member(api, "ret_val") == Some(Str(v))
    ensures !(Member(api, "ret_val").Some? && Member(api, "ret_val").value.Str?) ==> v == ""
  {
    match Member(api, "ret_val")
    case Some(Str(s)) => s
    case _ => ""
  }

  function ApiOf(api: Json): (r: Option<Api>)
    ensures r.Some? <==> (StringAt(api, "api_name").Some? && StringAt(api, "pc").Some?
                       && Member(api, "args").Some?
                       && forall i :: 0 <= i < |Elements(Member(api, "args").value)| ==> Elements(Member(api, "args").value)[i].Str?)
    ensures r.Some? ==> (var args := Elements(Member(api, "args").value);
                         && Member(api, "api_name") == Some(Str(r.value.apiName))
                         && r.value.pcValue == ParseHex(StringAt(api, "pc").value)
                         && |r.value.arguments| == |args|
                         && (forall i :: 0 <= i < |args| ==> args[i] == Str(r.value.arguments[i]))
                         && r.value.returnValue == ReturnValueOf(api))
  {
    var name :- StringAt(api, "api_name");
    var pc :- StringAt(api, "pc");
    var args :- Member(api, "args");
    var arguments :- MapAll(Elements(args), GetString);
    Some(Api(name, ParseHex(pc), arguments, ReturnValueOf(api)))
  }

  /** The `apis` of an entry point, as the loop over them visits them. */
  function ApiItems(entryPoint: Json): Option<seq<Json>>
  {
    var apis :- Member(entryPoint, "apis");
    Some(Elements(apis))
  }

  function EntryPointOf(entryPoint: Json): (r: Option<DynamicAnalysisResult>)
    ensures r.Some? <==> (StringAt(entryPoint, "apihash").Some? && ApiItems(entryPoint).Some?
                       && forall i :: 0 <= i < |ApiItems(entryPoint).value| ==> ApiOf(ApiItems(entryPoint).value[i]).Some?)
    ensures r.Some? ==> (var apis := ApiItems(entryPoint).value;
                         && Member(entryPoint, "apihash") == Some(Str(r.value.hash))
                         && |r.value.apis| == |apis|
                         && forall i :: 0 <= i < |apis| ==> Some(r.value.apis[i]) == ApiOf(apis[i]))
  {
    var hash :- StringAt(entryPoint, "apihash");
    var apis :- ApiItems(entryPoint);
    var list :- MapAll(apis, ApiOf);
    Some(DynamicAnalysisResult(hash, list))
  }

  /** The `entry_points` of an analysis group, as the loop visits them. */
  function EntryPoints(group: Json): Option<seq<Json>>
  {
    var entryPoints :- Member(group, "entry_points");
    Some(Elements(entryPoints))
  }

  /** One result per entry point of the group, in order. */
  function GroupOf(group: Json): (r: Option<seq<DynamicAnalysisResult>>)
    ensures r.Some? <==> (EntryPoints(group).Some?
                       && forall i :: 0 <= i < |EntryPoints(group).value| ==> EntryPointOf(EntryPoints(group).value[i]).Some?)
    ensures r.Some? ==> (var entryPoints := EntryPoints(group).value;
                         && |r.value| == |entryPoints|
                         && forall i :: 0 <= i < |entryPoints| ==> Some(r.value[i]) == EntryPointOf(entryPoints[i]))
  {
    var entryPoints :- EntryPoints(group);
    MapAll(entryPoints, EntryPointOf)
  }

  /** The analysis groups the outer loop visits. */
  function AnalysisGroups(analysis: Json): Option<seq<Json>>
  {
    var list :- Lookup(analysis, DynamicAnalysisPath);
    Some(Elements(list))
  }

  /** The result list fails exactly when the group list is missing or
      some group's entry points do not all decode. */
  function DynamicAnalysisOf(analysis: Json): (r: Option<seq<DynamicAnalysisResult>>)
    ensures r.Some? <==> (AnalysisGroups(analysis).Some?
                       && forall g :: 0 <= g < |AnalysisGroups(analysis).value| ==> GroupOf(AnalysisGroups(analysis).value[g]).Some?)
  {
    var groups :- AnalysisGroups(analysis);
    var perGroup :- MapAll(groups, GroupOf);
    Some(Concat(perGroup))
  }

  /** How many entry points the groups hold altogether. */
  function EntryPointTotal(groups: seq<Json>): nat
  {
    if groups == [] then 0
    else
      var last := groups[|groups| - 1];
      EntryPointTotal(groups[..|groups| - 1]) + (if EntryPoints(last).Some? then |EntryPoints(last).value| else 0)
  }

  /** Decoding every group yields as many results as the groups before it
      hold entry points. */
  lemma {:induction false} GroupSizes(groups: seq<Json>, perGroup: seq<seq<DynamicAnalysisResult>>, g: nat)
    requires MapAll(groups, GroupOf) == Some(perGroup) && g <= |groups|
    ensures SumLengths(perGroup[..g]) == EntryPointTotal(groups[..g])
  {
    if g > 0 {
      GroupSizes(groups, perGroup, g - 1);
      var ps, gs := perGroup[..g], groups[..g];
      assert ps[..g - 1] == perGroup[..g - 1] && ps[g - 1] == perGroup[g - 1];
      assert gs[..g - 1] == groups[..g - 1] && gs[g - 1] == groups[g - 1];
    }
  }

  /** There are as many results as entry points across all groups. */
  lemma DynamicAnalysisCount(analysis: Json)
    requires DynamicAnalysisOf(analysis).Some?
    ensures |DynamicAnalysisOf(analysis).value| == EntryPointTotal(AnalysisGroups(analysis).value)
  {
    var groups := AnalysisGroups(analysis).value;
    var perGroup := MapAll(groups, GroupOf).value;
    ConcatLength(perGroup);
    GroupSizes(groups, perGroup, |groups|);
    assert groups[..|groups|] == groups && perGroup[..|perGroup|] == perGroup;
  }

  /** The results are ordered group by group, then entry by entry: the one
      for entry point `e` of group `g` comes right after the results for
      all entry points of the groups before `g`, and is that entry point
      decoded. */
  lemma DynamicAnalysisOrder(analysis: Json, g: nat, e: nat)
    requires DynamicAnalysisOf(analysis).Some?
    requires g < |AnalysisGroups(analysis).value|
    requires EntryPoints(AnalysisGroups(analysis).value[g]).Some?
    requires e < |EntryPoints(AnalysisGroups(analysis).value[g]).value|
    ensures var groups := AnalysisGroups(analysis).value;
            var rs := DynamicAnalysisOf(analysis).value;
            && EntryPointTotal(groups[..g]) + e < |rs|
            && Some(rs[EntryPointTotal(groups[..g]) + e]) == EntryPointOf(EntryPoints(groups[g]).value[e])
  {
    var groups := AnalysisGroups(analysis).value;
    var perGroup := MapAll(groups, GroupOf).value;
    GroupSizes(groups, perGroup, g);
    ConcatIndex(perGroup, g, e);
  }
}
