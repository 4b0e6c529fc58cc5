/** The request side of `MalcoreApi`: the process-wide configuration (the
    API key and the upload limit), the requests built from it, the upload
    of a region and the status query. The HTTP exchange itself is not
    modelled: a response enters as its success flag and its body as parsed
    JSON, `None` standing for a body `nlohmann::json::parse` rejects. */
module MalcoreClient {
  import opened Wrappers
  import opened JsonValue
  import opened CNumbers

  const ApiUrl: string := "https://api.malcore.io/api"

  const MiB: nat := 1024 * 1024

  /** `20_MiB`, the initial value of `s_uploadLimit`. */
  const DefaultUploadLimit: u64 := 20 * MiB

  const UuidPath: seq<Step> := [Key("data"), Key("data"), Key("uuid")]

  datatype HttpRequest = HttpRequest(verb: string, url: string, headers: seq<(string, string)>, body: string)

  datatype HttpResponse = HttpResponse(isSuccess: bool, body: Option<Json>)

  /** What `uploadProviderData` submits: `size` bytes read from the start
      of the region, sent as the multipart file field `fieldName`. */
  datatype Upload = Upload(request: HttpRequest, fieldName: string, size: u64)

  /** The uuid at the end of `uploadProviderData`: nothing unless the
      response is a success, its body parses and `data.data.uuid` is a
      string. The mutable `operator[]` used there inserts null for a
      missing key, and `get<std::string>()` then throws, so a missing key
      fails the same way as under the const accessor. */
  function UploadUuid(response: HttpResponse): (r: Option<string>)
    ensures r.Some? <==> (response.isSuccess && response.body.Some?
                          && StringAtPath(response.body.value, UuidPath).Some?)
    ensures r.Some? ==> Lookup(response.body.value, UuidPath) == Some(Str(r.value))
  {
    if !response.isSuccess then None
    else
      var json :- response.body;
      var outer :- Member(json, "data");
      var inner :- Member(outer, "data");
      StringAt(inner, "uuid")
  }

  /** The form body of a status query. */
  function StatusBody(uuid: string): (body: string)
    ensures |body| == |uuid| + 5 && body[..5] == "uuid=" && body[5..] == uuid
  {
    "uuid=" + uuid
  }

  /** The static state of `MalcoreApi`, as one object. */
  class MalcoreApi {
    var apiKey: string
    var uploadLimit: u64

    constructor ()
      ensures apiKey == "" && uploadLimit == DefaultUploadLimit
      ensures !HasApiKey()
    {
      apiKey := "";
      uploadLimit := DefaultUploadLimit;
    }

    predicate HasApiKey()
      reads this
      ensures HasApiKey() <==> |apiKey| > 0
    {
      apiKey != ""
    }

    method SetApiKey(key: string)
      modifies this
      ensures apiKey == key && uploadLimit == old(uploadLimit)
      ensures HasApiKey() <==> |key| > 0
    {
      apiKey := key;
    }

    method SetUploadLimit(limit: u64)
      modifies this
      ensures uploadLimit == limit && apiKey == old(apiKey)
    {
      uploadLimit := limit;
    }

    /** `std::min(region.getSize(), s_uploadLimit)`. */
    function UploadSize(regionSize: u64): (n: u64)
      reads this
      ensures n <= regionSize && n <= uploadLimit
      ensures n == regionSize || n == uploadLimit
    {
      if regionSize < uploadLimit then regionSize else uploadLimit
    }

    /** A request to `ApiUrl + endpoint` carrying the current key. */
    function CreateRequest(verb: string, endpoint: string): (r: HttpRequest)
      reads this
      ensures r.verb == verb && r.url == ApiUrl + endpoint && r.body == ""
      ensures r.headers == [("apiKey", apiKey), ("X-No-Poll", "true")]
      ensures Find(r.headers, "apiKey") == Some(apiKey)
      ensures Find(r.headers, "X-No-Poll") == Some("true")
    {
      HttpRequest(verb, ApiUrl + endpoint, [("apiKey", apiKey), ("X-No-Poll", "true")], "")
    }

    /** Reads at most `uploadLimit` bytes of the region, posts them to
        `/upload` and extracts the uuid from `response`. */
    method UploadProviderData(regionSize: u64, response: HttpResponse) returns (upload: Upload, uuid: Option<string>)
      ensures upload.size <= uploadLimit && upload.size <= regionSize
      ensures upload.size == regionSize || upload.size == uploadLimit
      ensures upload.request == CreateRequest("POST", "/upload") && upload.fieldName == "filename1"
      ensures uuid == UploadUuid(response)
    {
      var size := UploadSize(regionSize);
      var request := CreateRequest("POST", "/upload");
      upload := Upload(request, "filename1", size);
      if !response.isSuccess {
        return upload, None;
      }
      match response.body
      case None =>
        uuid := None;
      case Some(json) =>
        uuid := StringAtPath(json, UuidPath);
    }

    /** Posts `uuid=<uuid>` to `/status`; the parsed body of a successful
        response is the status document. */
    method GetAnalysisStatus(uuid: string, response: HttpResponse) returns (request: HttpRequest, status: Option<Json>)
      ensures request == CreateRequest("POST", "/status").(body := StatusBody(uuid))
      ensures status.Some? <==> response.isSuccess && response.body.Some?
      ensures status.Some? ==> status == response.body
    {
      request := CreateRequest("POST", "/status");
      request := request.(body := StatusBody(uuid));
      if !response.isSuccess {
        return request, None;
      }
      status := response.body;
    }
  }
}
