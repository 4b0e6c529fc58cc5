/** Status documents as the service lays them out, built from the typed
    results, and the round trips that show each projection recovers what
    the document holds; a full document with every section shows that the
    projections read their own sections independently of each other. */
module StatusDocuments {
  import opened Wrappers
  import opened JsonValue
  import opened CNumbers
  import opened Sequences
  import opened MalcoreResults
  import opened MalcoreClient

  function Strs(ss: seq<string>): (js: seq<Json>)
    ensures |js| == |ss| && forall i :: 0 <= i < |ss| ==> js[i] == Str(ss[i])
  {
    seq(|ss|, i requires 0 <= i < |ss| => Str(ss[i]))
  }

  /** A list of strings survives `get<std::string>()` element by element. */
  lemma StringsYield(ss: seq<string>)
    ensures MapAll(Strs(ss), GetString) == Some(ss)
  {
    MapAllYields(Strs(ss), GetString, ss);
  }

  // ---------------------------------------------------------------------
  // Status and upload

  /** The `messages` member of a status document. */
  function Messages(status: string): Json
  {
    Arr([Obj([("type", Str(status))])])
  }

  lemma AnalysisFinishedWhenSuccess(analysis: Json, status: string)
    requires Member(analysis, "messages") == Some(Messages(status))
    ensures IsAnalysisFinished(analysis) == Some(status == "success")
  {
  }

  function UploadBody(uuid: string): Json
  {
    Obj([("data", Obj([("data", Obj([("uuid", Str(uuid))]))]))])
  }

  /** The upload yields the uuid the service sent, unless the status is
      not a success. */
  lemma UploadRoundTrip(uuid: string, isSuccess: bool)
    ensures UploadUuid(HttpResponse(isSuccess, Some(UploadBody(uuid)))) == if isSuccess then Some(uuid) else None
  {
  }

  // ---------------------------------------------------------------------
  // Packer information

  /** `data.packer_information`: a one-element array. */
  function PackerSection(name: string, percent: string): Json
  {
    Arr([Obj([("packer_name", Str(name)), ("percent", Str(percent))])])
  }

  lemma PackerSectionFields(name: string, percent: string)
    ensures At(PackerSection(name, percent), 0).Some?
    ensures var info := At(PackerSection(name, percent), 0).value;
            StringAt(info, "packer_name") == Some(name) && StringAt(info, "percent") == Some(percent)
  {
    var info := At(PackerSection(name, percent), 0).value;
    FindAt(info.members, 0, "packer_name");
    FindAt(info.members, 1, "percent");
  }

  /** The name comes back verbatim and the confidence is the number the
      percentage text starts with (`"85%"` gives 85). */
  lemma PackerRoundTrip(analysis: Json, name: string, confidence: u32, rest: string)
    requires Lookup(analysis, [Key("data"), Key("packer_information")])
             == Some(PackerSection(name, ToDigits(confidence, 10) + rest))
    requires rest == [] || !IsDigit(rest[0], 10)
    ensures GetPackerInformation(analysis) == Some(PackerInformation(name, confidence))
  {
    var percent := ToDigits(confidence, 10) + rest;
    LookupAppend(analysis, [Key("data"), Key("packer_information")], [Index(0)]);
    assert [Key("data"), Key("packer_information")] + [Index(0)] == PackerPath;
    PackerSectionFields(name, percent);
    assert Lookup(analysis, PackerPath) == At(PackerSection(name, percent), 0);
    ParseDecimalRendered(confidence, rest);
  }

  // ---------------------------------------------------------------------
  // Interesting strings

  /** `data.interesting_strings`. */
  function StringsSection(strings: seq<string>): Json
  {
    Obj([("results", Arr(Strs(strings)))])
  }

  lemma StringsRoundTrip(analysis: Json, strings: seq<string>)
    requires Lookup(analysis, [Key("data"), Key("interesting_strings")]) == Some(StringsSection(strings))
    ensures InterestingStringsOf(analysis) == Some(strings)
  {
    LookupAppend(analysis, [Key("data"), Key("interesting_strings")], [Key("results")]);
    assert [Key("data"), Key("interesting_strings")] + [Key("results")] == StringsPath;
    FindAt(StringsSection(strings).members, 0, "results");
    assert StringItems(analysis) == Some(Strs(strings));
    StringsYield(strings);
  }

  // ---------------------------------------------------------------------
  // Threat score

  function SignatureJson(signature: Signature): Json
  {
    Obj([("discovered", signature.discovered),
         ("info", Obj([("description", Str(signature.description)), ("title", Str(signature.title))]))])
  }

  function SignatureJsons(signatures: seq<Signature>): (js: seq<Json>)
    ensures |js| == |signatures| && forall i :: 0 <= i < |js| ==> js[i] == SignatureJson(signatures[i])
  {
    seq(|signatures|, i requires 0 <= i < |signatures| => SignatureJson(signatures[i]))
  }

  /** `data.threat_score`. */
  function ThreatScoreSection(threatScore: ThreatScore): Json
  {
    Obj([("results", Obj([("score", Str(threatScore.scoreText)),
                          ("signatures", Arr(SignatureJsons(threatScore.signatures)))]))])
  }

  lemma SignatureRoundTrip(signature: Signature)
    ensures SignatureOf(SignatureJson(signature)) == Some(signature)
  {
    var j := SignatureJson(signature);
    FindAt(j.members, 0, "discovered");
    FindAt(j.members, 1, "info");
    var info := j.members[1].1;
    FindAt(info.members, 0, "description");
    FindAt(info.members, 1, "title");
  }

  lemma ThreatScoreSectionFields(threatScore: ThreatScore)
    ensures Member(ThreatScoreSection(threatScore), "results").Some?
    ensures var results := Member(ThreatScoreSection(threatScore), "results").value;
            && StringAt(results, "score") == Some(threatScore.scoreText)
            && Member(results, "signatures") == Some(Arr(SignatureJsons(threatScore.signatures)))
  {
    var section := ThreatScoreSection(threatScore);
    FindAt(section.members, 0, "results");
    var results := section.members[0].1;
    FindAt(results.members, 0, "score");
    FindAt(results.members, 1, "signatures");
  }

  lemma ThreatScoreRoundTrip(analysis: Json, threatScore: ThreatScore)
    requires Lookup(analysis, [Key("data"), Key("threat_score")]) == Some(ThreatScoreSection(threatScore))
    ensures ThreatScoreOf(analysis) == Some(threatScore)
  {
    LookupAppend(analysis, [Key("data"), Key("threat_score")], [Key("results")]);
    assert [Key("data"), Key("threat_score")] + [Key("results")] == ThreatScorePath;
    ThreatScoreSectionFields(threatScore);
    var sigs := threatScore.signatures;
    assert ThreatResults(analysis) == Some((threatScore.scoreText, Arr(SignatureJsons(sigs))));
    forall i | 0 <= i < |sigs|
      ensures SignatureOf(SignatureJsons(sigs)[i]) == Some(sigs[i])
    {
      SignatureRoundTrip(sigs[i]);
    }
    MapAllYields(SignatureJsons(sigs), SignatureOf, sigs);
  }

  // ---------------------------------------------------------------------
  // Dynamic analysis

  /** An `apis` entry; the program counter is written as `0x` and its
      lower-case hexadecimal digits. */
  function ApiJson(api: Api): Json
  {
    Obj([("api_name", Str(api.apiName)),
         ("args", Arr(Strs(api.arguments))),
         ("pc", Str(PcText(api.pcValue))),
         ("ret_val", Str(api.returnValue))])
  }

  function ApiJsons(apis: seq<Api>): (js: seq<Json>)
    ensures |js| == |apis| && forall i :: 0 <= i < |js| ==> js[i] == ApiJson(apis[i])
  {
    seq(|apis|, i requires 0 <= i < |apis| => ApiJson(apis[i]))
  }

  function EntryPointJson(result: DynamicAnalysisResult): Json
  {
    Obj([("apihash", Str(result.hash)), ("apis", Arr(ApiJsons(result.apis)))])
  }

  function EntryPointJsons(results: seq<DynamicAnalysisResult>): (js: seq<Json>)
    ensures |js| == |results| && forall i :: 0 <= i < |js| ==> js[i] == EntryPointJson(results[i])
  {
    seq(|results|, i requires 0 <= i < |results| => EntryPointJson(results[i]))
  }

  function GroupJson(results: seq<DynamicAnalysisResult>): Json
  {
    Obj([("entry_points", Arr(EntryPointJsons(results)))])
  }

  function GroupJsons(groups: seq<seq<DynamicAnalysisResult>>): (js: seq<Json>)
    ensures |js| == |groups| && forall i :: 0 <= i < |js| ==> js[i] == GroupJson(groups[i])
  {
    seq(|groups|, i requires 0 <= i < |groups| => GroupJson(groups[i]))
  }

  /** `data.dynamic_analysis`. */
  function DynamicAnalysisSection(groups: seq<seq<DynamicAnalysisResult>>): Json
  {
    Obj([("dynamic_analysis", Arr(GroupJsons(groups)))])
  }

  function PcText(pc: u64): string
  {
    "0x" + ToDigits(pc, 16)
  }

  lemma PcRoundTrip(pc: u64)
    ensures ParseHex(PcText(pc)) == pc
  {
    ParseHexRendered(pc, "0x", []);
    assert "0x" + ToDigits(pc, 16) + [] == PcText(pc);
  }

  lemma ApiJsonMembers(api: Api)
    ensures StringAt(ApiJson(api), "api_name") == Some(api.apiName)
    ensures StringAt(ApiJson(api), "pc") == Some(PcText(api.pcValue))
    ensures Member(ApiJson(api), "args") == Some(Arr(Strs(api.arguments)))
    ensures ReturnValueOf(ApiJson(api)) == api.returnValue
  {
    var j := ApiJson(api);
    FindAt(j.members, 0, "api_name");
    FindAt(j.members, 1, "args");
    FindAt(j.members, 2, "pc");
    FindAt(j.members, 3, "ret_val");
  }

  /** An `apis` entry whose fields are all present decodes to them. */
  lemma ApiOfFields(j: Json, name: string, pc: string, arguments: seq<string>)
    requires StringAt(j, "api_name") == Some(name) && StringAt(j, "pc") == Some(pc)
    requires Member(j, "args") == Some(Arr(Strs(arguments)))
    ensures ApiOf(j) == Some(Api(name, ParseHex(pc), arguments, ReturnValueOf(j)))
  {
    StringsYield(arguments);
  }

  lemma ApiRoundTrip(api: Api)
    ensures ApiOf(ApiJson(api)) == Some(api)
  {
    ApiJsonMembers(api);
    PcRoundTrip(api.pcValue);
    ApiOfFields(ApiJson(api), api.apiName, PcText(api.pcValue), api.arguments);
  }

  /** An entry point whose `apihash` is a string and whose `apis` all
      decode yields them. */
  lemma EntryPointOfFields(j: Json, hash: string, apiJsons: seq<Json>, apis: seq<Api>)
    requires StringAt(j, "apihash") == Some(hash) && Member(j, "apis") == Some(Arr(apiJsons))
    requires |apiJsons| == |apis| && forall i :: 0 <= i < |apis| ==> ApiOf(apiJsons[i]) == Some(apis[i])
    ensures EntryPointOf(j) == Some(DynamicAnalysisResult(hash, apis))
  {
    MapAllYields(apiJsons, ApiOf, apis);
    assert Elements(Arr(apiJsons)) == apiJsons;
    assert ApiItems(j) == Some(apiJsons);
  }

  lemma EntryPointRoundTrip(result: DynamicAnalysisResult)
    ensures EntryPointOf(EntryPointJson(result)) == Some(result)
  {
    var j := EntryPointJson(result);
    FindAt(j.members, 0, "apihash");
    FindAt(j.members, 1, "apis");
    forall i | 0 <= i < |result.apis|
      ensures ApiOf(ApiJsons(result.apis)[i]) == Some(result.apis[i])
    {
      ApiRoundTrip(result.apis[i]);
    }
    EntryPointOfFields(j, result.hash, ApiJsons(result.apis), result.apis);
  }

  lemma GroupRoundTrip(results: seq<DynamicAnalysisResult>)
    ensures GroupOf(GroupJson(results)) == Some(results)
  {
    FindAt(GroupJson(results).members, 0, "entry_points");
    assert EntryPoints(GroupJson(results)) == Some(EntryPointJsons(results));
    forall i | 0 <= i < |results|
      ensures EntryPointOf(EntryPointJsons(results)[i]) == Some(results[i])
    {
      EntryPointRoundTrip(results[i]);
    }
    MapAllYields(EntryPointJsons(results), EntryPointOf, results);
  }

  /** The groups come back flattened, group by group. */
  lemma DynamicAnalysisRoundTrip(analysis: Json, groups: seq<seq<DynamicAnalysisResult>>)
    requires Lookup(analysis, [Key("data"), Key("dynamic_analysis")]) == Some(DynamicAnalysisSection(groups))
    ensures DynamicAnalysisOf(analysis) == Some(Concat(groups))
  {
    LookupAppend(analysis, [Key("data"), Key("dynamic_analysis")], [Key("dynamic_analysis")]);
    assert [Key("data"), Key("dynamic_analysis")] + [Key("dynamic_analysis")] == DynamicAnalysisPath;
    FindAt(DynamicAnalysisSection(groups).members, 0, "dynamic_analysis");
    assert AnalysisGroups(analysis) == Some(GroupJsons(groups));
    forall i | 0 <= i < |groups|
      ensures GroupOf(GroupJsons(groups)[i]) == Some(groups[i])
    {
      GroupRoundTrip(groups[i]);
    }
    MapAllYields(GroupJsons(groups), GroupOf, groups);
  }

  // ---------------------------------------------------------------------
  // A complete document

  /** A terminal status document holding every section, its keys in the
      sorted order nlohmann iterates them in. */
  function FullDocument(status: string, packerName: string, percent: string, strings: seq<string>,
                        threatScore: ThreatScore, groups: seq<seq<DynamicAnalysisResult>>): Json
  {
    Obj([("data", DataSection(packerName, percent, strings, threatScore, groups)),
         ("messages", Messages(status))])
  }

  /** The `data` object of a complete document. */
  function DataSection(packerName: string, percent: string, strings: seq<string>,
                       threatScore: ThreatScore, groups: seq<seq<DynamicAnalysisResult>>): Json
  {
    Obj([("dynamic_analysis", DynamicAnalysisSection(groups)),
         ("interesting_strings", StringsSection(strings)),
         ("packer_information", PackerSection(packerName, percent)),
         ("threat_score", ThreatScoreSection(threatScore))])
  }

  lemma DataSectionMembers(packerName: string, percent: string, strings: seq<string>,
                           threatScore: ThreatScore, groups: seq<seq<DynamicAnalysisResult>>)
    ensures var data := DataSection(packerName, percent, strings, threatScore, groups);
            && Member(data, "dynamic_analysis") == Some(DynamicAnalysisSection(groups))
            && Member(data, "interesting_strings") == Some(StringsSection(strings))
            && Member(data, "packer_information") == Some(PackerSection(packerName, percent))
            && Member(data, "threat_score") == Some(ThreatScoreSection(threatScore))
  {
    var data := DataSection(packerName, percent, strings, threatScore, groups);
    FindAt(data.members, 0, "dynamic_analysis");
    FindAt(data.members, 1, "interesting_strings");
    FindAt(data.members, 2, "packer_information");
    FindAt(data.members, 3, "threat_score");
  }

  /** Two keys deep: `j[a][b]`. */
  lemma LookupTwoKeys(j: Json, a: string, b: string, outer: Json, v: Json)
    requires Member(j, a) == Some(outer) && Member(outer, b) == Some(v)
    ensures Lookup(j, [Key(a), Key(b)]) == Some(v)
  {
    assert [Key(a), Key(b)][1..] == [Key(b)] && [Key(b)][1..] == [];
    assert Lookup(outer, [Key(b)]) == Lookup(v, []);
  }

  /** Where each section of a complete document sits. */
  lemma FullDocumentSections(status: string, packerName: string, percent: string, strings: seq<string>,
                             threatScore: ThreatScore, groups: seq<seq<DynamicAnalysisResult>>)
    ensures var doc := FullDocument(status, packerName, percent, strings, threatScore, groups);
            && Member(doc, "messages") == Some(Messages(status))
            && Lookup(doc, [Key("data"), Key("dynamic_analysis")]) == Some(DynamicAnalysisSection(groups))
            && Lookup(doc, [Key("data"), Key("interesting_strings")]) == Some(StringsSection(strings))
            && Lookup(doc, [Key("data"), Key("packer_information")]) == Some(PackerSection(packerName, percent))
            && Lookup(doc, [Key("data"), Key("threat_score")]) == Some(ThreatScoreSection(threatScore))
  {
    var doc := FullDocument(status, packerName, percent, strings, threatScore, groups);
    var data := DataSection(packerName, percent, strings, threatScore, groups);
    FindAt(doc.members, 0, "data");
    FindAt(doc.members, 1, "messages");
    DataSectionMembers(packerName, percent, strings, threatScore, groups);
    LookupTwoKeys(doc, "data", "dynamic_analysis", data, DynamicAnalysisSection(groups));
    LookupTwoKeys(doc, "data", "interesting_strings", data, StringsSection(strings));
    LookupTwoKeys(doc, "data", "packer_information", data, PackerSection(packerName, percent));
    LookupTwoKeys(doc, "data", "threat_score", data, ThreatScoreSection(threatScore));
  }

  /** Every projection of a complete document yields its own section. */
  lemma FullDocumentProjections(status: string, packerName: string, confidence: u32, strings: seq<string>,
                                threatScore: ThreatScore, groups: seq<seq<DynamicAnalysisResult>>)
    ensures var doc := FullDocument(status, packerName, ToDigits(confidence, 10), strings, threatScore, groups);
            && IsAnalysisFinished(doc) == Some(status == "success")
            && GetPackerInformation(doc) == Some(PackerInformation(packerName, confidence))
            && InterestingStringsOf(doc) == Some(strings)
            && ThreatScoreOf(doc) == Some(threatScore)
            && DynamicAnalysisOf(doc) == Some(Concat(groups))
  {
    var percent := ToDigits(confidence, 10);
    var doc := FullDocument(status, packerName, percent, strings, threatScore, groups);
    FullDocumentSections(status, packerName, percent, strings, threatScore, groups);
    AnalysisFinishedWhenSuccess(doc, status);
    assert percent + [] == percent;
    PackerRoundTrip(doc, packerName, confidence, []);
    StringsRoundTrip(doc, strings);
    ThreatScoreRoundTrip(doc, threatScore);
    DynamicAnalysisRoundTrip(doc, groups);
  }
}
