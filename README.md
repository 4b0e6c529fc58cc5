# Malcore API client, modelled in Dafny

This project models `MalcoreApi`, the helper class of the ImHex Malcore plugin that
talks to the Malcore analysis service. The model covers three parts. The first is the
request side: the process-wide API key and upload limit, the request headers, the
clamped upload size, the status-query body and the uuid taken from an upload response.
The second is the decoding side, which turns a status document, once parsed, into typed
results: the terminal-status test, packer information, interesting strings, threat-score
signatures and dynamic-analysis results. The third part is the prefix number parsing of
`strtoul` and `strtoull` that the decoders rely on.

Modules:

- `Wrappers` holds `Option`.
- `JsonValue` models a parsed `nlohmann::json` value and its accessors:
  - the const `operator[]` with a key or an index;
  - `get<std::string>()`;
  - range-`for` iteration;
  - chained lookups along a path.
- `CNumbers` models `strtoul`/`strtoull` with base 10 or 16 on an LP64 platform:
  - leading white space, an optional sign, an optional `0x`/`0X` in base 16;
  - saturation at `ULONG_MAX` and negation modulo 2^64;
  - the conversion to `u32`.
- `Sequences` holds the two shapes the decoders build:
  - an all-or-nothing element-wise map, which is a `push_back` loop inside a `try`;
  - flattening.
- `MalcoreResults` holds the result records. Each projection is stated as a function of
  the document, with contracts that say when it fails and what lands where.
- `MalcoreProjections` holds the loop-based projections as methods with `while` loops. Each
  is proved equal to its specification function in `MalcoreResults`.
- `MalcoreClient` holds class `MalcoreApi`: its fields `apiKey` and `uploadLimit`, the
  setters, the clamp, `CreateRequest`, and the two request operations. Each request
  operation takes the HTTP response as an input.
- `StatusDocuments` builds status documents from typed results. Its round-trip lemmas show
  that each projection recovers exactly what the document holds.

Every accessor that would throw a `json::exception` yields `None`. So does every accessor
whose behaviour nlohmann leaves undefined, such as a missing key under the const
`operator[]` or an index past the end. A projection with a `try` block yields `None` as a
whole as soon as one step inside it fails.

Points where the code behaves differently from what a reader might expect; the model
follows the code:

- `IsAnalysisFinished` has no `try` block, so a document that does not hold a string at
  `messages[0].type` is not simply "still running". The outcome depends on the case.
  - When the document is not an object, `messages` is not an array, `messages[0]` is
    not an object, or `type` is not a string, nlohmann throws a `json::exception` and it
    reaches the caller.
  - When the `messages` or `type` key is missing, or `messages` is an empty array, the
    const `operator[]` has undefined behaviour (see the undefined-behaviour line under
    "Left out").
  - The model yields `None` in all of these cases, and `Some(false)` only for a string
    other than `success`.
- `confidence` is the value `strtoul` returns stored into a `u32` field, so it is the low
  32 bits of that value, not the parsed integer itself. The two differ only above
  2^32 - 1.
- `returnValue` is a plain string, left empty when `ret_val` is not a string; there is no
  separate "no return value" state.
- The API key is read when the request is built (`CreateRequest`). The model builds the
  request at the call itself. In the code, the request is built inside the asynchronous
  task.

## Model

| member | source | states |
|---|---|---|
| JsonValue.FindSpec | include/helpers/malcore_api.hpp:191-194 | a lookup by name succeeds exactly when some entry has that name, and yields the value of the first such entry (object members and request headers alike) |
| JsonValue.MemberSpec | include/helpers/malcore_api.hpp:93-95 | the const `json[key]` succeeds exactly on an object that has the key, and yields the value of its first member with that key |
| JsonValue.AtIsElement | include/helpers/malcore_api.hpp:90 | on an array, `json[i]` succeeds exactly when `i` is below the number of elements the range-`for` visits, and yields the `i`-th of them |
| JsonValue.StringAt | include/helpers/malcore_api.hpp:93 | `json[key].get<std::string>()` succeeds exactly when the member exists and is a string, and yields that string |
| StatusDocuments.StringsYield | include/helpers/malcore_api.hpp:110 | `get<std::string>()` over a list of JSON strings gives back exactly the strings, in order |
| JsonValue.Elements | include/helpers/malcore_api.hpp:109 | the range-`for` visits an array's items, an object's values in member order, nothing for null, and a scalar itself once |
| JsonValue.MemberIsElement | include/helpers/malcore_api.hpp:125-132 | on an object without duplicate keys, the `i`-th value the range-`for` visits is what `json[key]` gives for its key |
| JsonValue.LookupAppend | include/helpers/malcore_api.hpp:90 | following the path `p + q` is following `p`, then `q` from where `p` led, and fails when either part fails |
| JsonValue.StringAtPath | include/helpers/malcore_api.hpp:85 | a path ending in `get<std::string>()` succeeds exactly when the path leads to a string, and yields it |
| MalcoreClient.MalcoreApi.HasApiKey | include/helpers/malcore_api.hpp:182-184 | there is a key exactly when the stored key is non-empty |
| MalcoreClient.MalcoreApi.constructor | include/helpers/malcore_api.hpp:205-206 | the key starts empty, so `HasApiKey()` is false, and the limit starts at 20 MiB (20·1024·1024 bytes) |
| MalcoreClient.MalcoreApi.SetApiKey | include/helpers/malcore_api.hpp:178-184 | the key becomes `key` and `HasApiKey()` holds exactly when `key` is non-empty; the limit is untouched |
| MalcoreClient.MalcoreApi.SetUploadLimit | include/helpers/malcore_api.hpp:186-188 | only the limit changes; the key is untouched |
| MalcoreClient.MalcoreApi.UploadSize | include/helpers/malcore_api.hpp:44 | the upload size is at most the region size and at most the current limit, and equals one of the two, so it is their minimum |
| MalcoreClient.MalcoreApi.CreateRequest | include/helpers/malcore_api.hpp:191-197 | the URL is `ApiUrl + endpoint`; the headers are exactly `apiKey` with the current key, then `X-No-Poll: true`; looking up either header finds that value |
| MalcoreClient.UploadUuid | include/helpers/malcore_api.hpp:51-63 | a uuid comes back exactly when the response is a success, its body parses, and `data.data.uuid` resolves to a string; the uuid is that string |
| MalcoreClient.MalcoreApi.UploadProviderData | include/helpers/malcore_api.hpp:42-65 | the upload carries the clamped number of bytes, never more than the limit, in the `filename1` field of a `POST /upload` request with the current headers; the outcome is `UploadUuid` of the response |
| StatusDocuments.UploadRoundTrip | include/helpers/malcore_api.hpp:51-63 | a successful response whose body holds `data.data.uuid` yields that uuid; a failed response yields nothing |
| MalcoreClient.StatusBody | include/helpers/malcore_api.hpp:70 | the status body is `uuid=` followed by the uuid, and nothing else |
| MalcoreClient.MalcoreApi.GetAnalysisStatus | include/helpers/malcore_api.hpp:67-82 | the request is `POST /status` with the current headers and the `uuid=` body; a document comes back exactly when the response is a success and its body parses |
| MalcoreResults.IsAnalysisFinished | include/helpers/malcore_api.hpp:84-86 | true exactly when `messages[0].type` is the string `success`; false exactly when it is some other string; no answer (the exception) when it is missing or not a string |
| StatusDocuments.AnalysisFinishedWhenSuccess | include/helpers/malcore_api.hpp:84-86 | a document whose first message has type `t` is finished exactly when `t` is `success`, so `pending` is not finished |
| CNumbers.Low32 | include/helpers/malcore_api.hpp:96 | storing an `unsigned long` into a `u32` keeps it when it fits, and otherwise removes a whole multiple of 2^32 |
| MalcoreResults.Confidence | include/helpers/malcore_api.hpp:95-96 | a percentage whose parsed value fits in 32 bits gives exactly that value |
| MalcoreResults.ConfidenceOfDigits | include/helpers/malcore_api.hpp:96 | a percentage that starts with the decimal digits of `n`, followed by a non-digit such as `%`, gives `n` modulo 2^32 |
| MalcoreResults.ConfidenceWithoutDigits | include/helpers/malcore_api.hpp:96 | a percentage with no digit at all gives 0 |
| CNumbers.LeadingDigits | include/helpers/malcore_api.hpp:96 | the digits `strtoul` reads form a prefix made only of digits, and the character after them is not a digit |
| CNumbers.NoDigitsIsZero | include/helpers/malcore_api.hpp:96 | a string without digits parses as 0 in either base |
| CNumbers.Saturate | include/helpers/malcore_api.hpp:96 | a value that fits in 64 bits is kept and a larger one becomes `ULONG_MAX`, as `strtoul` does on `ERANGE` |
| CNumbers.StrToUnsigned | include/helpers/malcore_api.hpp:96 | no digits read gives 0; a value above `ULONG_MAX` gives `ULONG_MAX`; otherwise the digits' value, or after a minus sign the value that adds up with it to 0 modulo 2^64 |
| CNumbers.ParseDecimal | include/helpers/malcore_api.hpp:96 | `strtoul` in base 10: a string that starts with a digit reads as the value of its leading digits, saturated at `ULONG_MAX` |
| CNumbers.ParseHex | include/helpers/malcore_api.hpp:155 | `strtoull` in base 16: after a `0x`/`0X` prefix, or from the start when the string begins with a hex digit and has no prefix, it reads as the value of the leading hex digits, saturated at `ULONG_MAX` |
| CNumbers.ParseDecimalRendered | include/helpers/malcore_api.hpp:96 | the decimal digits of any 64-bit `n`, followed by a non-digit, parse back to `n` |
| CNumbers.ParseHexRendered | include/helpers/malcore_api.hpp:155 | the hexadecimal digits of any 64-bit `n`, with no prefix or with `0x`/`0X`, followed by anything that is neither a hex digit nor an `x`, parse back to `n` in base 16 |
| MalcoreResults.GetPackerInformation | include/helpers/malcore_api.hpp:88-102 | present exactly when `data.packer_information[0]` has string fields `packer_name` and `percent`; the name is `packer_name` verbatim and the confidence is `Confidence` of `percent` |
| StatusDocuments.PackerRoundTrip | include/helpers/malcore_api.hpp:88-102 | a packer section with name `n` and a percentage such as `85%` yields name `n` and confidence 85 |
| Sequences.MapAll | include/helpers/malcore_api.hpp:109-110 | the loop result exists exactly when every element converts; it then has one value per element, in order |
| MalcoreResults.InterestingStringsOf | include/helpers/malcore_api.hpp:104-116 | present exactly when `data.interesting_strings.results` resolves and every element visited is a string; the output has the same length and order as those elements |
| MalcoreProjections.GetInterestingStrings | include/helpers/malcore_api.hpp:104-116 | the `push_back` loop computes `InterestingStringsOf` |
| StatusDocuments.StringsRoundTrip | include/helpers/malcore_api.hpp:104-116 | a list of strings placed at `data.interesting_strings.results` comes back unchanged |
| MalcoreResults.SignatureOf | include/helpers/malcore_api.hpp:125-131 | a signature exists exactly when it has an `info` object with string `title` and `description` and a `discovered` member; the title and description come from `info`, and `discovered` is passed through unchanged |
| MalcoreResults.ThreatScoreOf | include/helpers/malcore_api.hpp:118-139 | present exactly when `data.threat_score.results` has a string `score`, has `signatures`, and every signature decodes; the list has the same length and order as `signatures` |
| MalcoreProjections.GetThreatScore | include/helpers/malcore_api.hpp:118-139 | the signature loop computes `ThreatScoreOf` |
| StatusDocuments.SignatureRoundTrip | include/helpers/malcore_api.hpp:125-131 | a signature laid out as the service sends it decodes to itself |
| StatusDocuments.ThreatScoreRoundTrip | include/helpers/malcore_api.hpp:118-139 | a threat-score section comes back with its score text and every signature, in order |
| MalcoreResults.ReturnValueOf | include/helpers/malcore_api.hpp:160-161 | `returnValue` is `ret_val` when that member is a string, and empty otherwise |
| MalcoreResults.ApiOf | include/helpers/malcore_api.hpp:153-163 | present exactly when `api_name` and `pc` are strings and every `args` element is a string; the name comes from `api_name`, `pcValue` is `pc` in base 16, the arguments keep the order of `args`, and the return value is `ReturnValueOf` |
| MalcoreResults.EntryPointOf | include/helpers/malcore_api.hpp:149-166 | present exactly when `apihash` is a string and every `apis` entry decodes; the hash is `apihash` and there is one decoded api per entry, in order |
| MalcoreResults.GroupSizes | include/helpers/malcore_api.hpp:147-168 | the first `g` groups yield as many results as they hold entry points |
| MalcoreResults.GroupOf | include/helpers/malcore_api.hpp:148-167 | a group decodes exactly when it has `entry_points` and every entry point decodes; it then yields one result per entry point, in order |
| MalcoreResults.DynamicAnalysisOf | include/helpers/malcore_api.hpp:141-175 | the dynamic analysis is present exactly when `data.dynamic_analysis.dynamic_analysis` resolves and every group decodes |
| MalcoreResults.DynamicAnalysisCount | include/helpers/malcore_api.hpp:141-175 | the number of results is the total number of entry points across all groups |
| Sequences.ConcatIndex | include/helpers/malcore_api.hpp:147-168 | flattening keeps part-then-element order: element `e` of part `g` sits after all elements of the earlier parts |
| MalcoreResults.DynamicAnalysisOrder | include/helpers/malcore_api.hpp:147-168 | the result for entry point `e` of group `g` comes right after the results of all earlier groups' entry points, and is that entry point decoded |
| MalcoreProjections.DecodeApi | include/helpers/malcore_api.hpp:153-163 | the argument loop and the `ret_val` test compute `ApiOf` |
| MalcoreProjections.DecodeEntryPoint | include/helpers/malcore_api.hpp:149-166 | the `apis` loop computes `EntryPointOf` |
| MalcoreProjections.DecodeGroup | include/helpers/malcore_api.hpp:148-167 | the `entry_points` loop computes one group's results |
| MalcoreProjections.GetDynamicAnalysisResult | include/helpers/malcore_api.hpp:141-175 | the outer loop appends each group's results and computes `DynamicAnalysisOf` |
| StatusDocuments.PcRoundTrip | include/helpers/malcore_api.hpp:155 | a program counter written as `0x` and its hex digits parses back to itself |
| StatusDocuments.ApiOfFields | include/helpers/malcore_api.hpp:153-163 | an `apis` entry with string `api_name` and `pc` and a string list `args` decodes to exactly those fields |
| StatusDocuments.ApiRoundTrip | include/helpers/malcore_api.hpp:153-163 | an api call laid out as the service sends it decodes to itself, including its return value |
| StatusDocuments.EntryPointOfFields | include/helpers/malcore_api.hpp:149-166 | an entry point whose `apihash` is a string and whose `apis` all decode yields that hash and those calls |
| StatusDocuments.EntryPointRoundTrip | include/helpers/malcore_api.hpp:149-166 | an entry point decodes to the hash and calls it was built from |
| StatusDocuments.GroupRoundTrip | include/helpers/malcore_api.hpp:148-167 | a group decodes to its entry points' results, in order |
| StatusDocuments.DynamicAnalysisRoundTrip | include/helpers/malcore_api.hpp:141-175 | a dynamic-analysis section made of groups comes back as the groups' results flattened, group by group |
| StatusDocuments.FullDocumentProjections | include/helpers/malcore_api.hpp:84-175 | in a document holding every section, each projection reads back its own section, and the document counts as finished exactly when the status is `success` |

## Left out

- Threads: `std::async` and the futures run the request bodies on another thread. The model runs each body at the call; concurrency is not modelled.
- HTTP: the transport (`uploadFile`, `execute`) is outside the model. A response enters as its success flag and its body.
- JSON text parsing: `nlohmann::json::parse` is outside the model. A body that does not parse is `None`.
- Logging: the `hex::log::error` calls have no effect on results and are not modelled.
- MalcoreClient.MalcoreApi.UploadProviderData: `provider->read` is I/O. The model states how many bytes are read and uploaded, not which bytes.
- MalcoreResults.ThreatScoreOf: `strtof` on the score is floating point. The threat score keeps the text the float would be read from, and the model requires only that it is a string.
- MalcoreClient.MalcoreApi.CreateRequest: the key is read when the request is built. The model builds the request when the operation is called. In the code it is built inside the asynchronous task, so a key set in between would be used there.
- Undefined behaviour: a missing key or an out-of-range index under the const `operator[]` is undefined in nlohmann. It is modelled as a failure of the projection (the `None` of `IsAnalysisFinished` included).
- Object shape: nlohmann keeps an object's members in a `std::map`, with unique keys in sorted order. The model's `Obj` is a plain list of members and does not enforce either property; a list with a duplicate key or unsorted keys stands for no real document. The status documents built in `StatusDocuments` list their keys uniquely and in sorted order, and `MemberIsElement` assumes unique keys.
- MalcoreResults.ReturnValueOf: a missing `ret_val` gives the empty string. This is the reading under which `is_string()` is false; the const lookup of a missing key is undefined in nlohmann.
- Platform: `unsigned long` and `unsigned long long` are assumed to be 64 bits wide, and white space is the C locale's. Locale-specific digits and `errno` are not modelled.
- Number width: `size_t` region sizes and limits are 64-bit.
- `source/plugin_malcore.cpp` only registers a menu item with an empty callback, so there is nothing in it to model.
- Polling: no poll loop or analysis session exists in this class, so none is modelled.
