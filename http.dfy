/**
 * The transport as the clients see it: one `requests.request(...)`
 * followed by `raise_for_status()` and `response.json()`. Timeouts,
 * retries inside `requests` and the network itself are not modelled; the
 * outcome of a call is a value handed to the client functions.
 */
module Http {
  import opened Wrappers

  /** What the body of a failed response parses to. */
  datatype ErrorBody =
    | NotJson                                  // `response.json()` raised
    | JsonObject(fields: map<string, string>)  // a JSON object
    | JsonOther(typeName: string)              // valid JSON that is not an object (a list, a number, ...)

  /** The outcome of one HTTP call. */
  datatype Outcome<J> =
    | Success(json: J)                                        // 2xx and a JSON body
    // `HTTPError` from `raise_for_status`: what the body parses to, `response.text`, `str(e)`
    | HttpFailure(body: ErrorBody, responseText: string, exceptionText: string)
    // any other `RequestException`: `e.response.text` when the exception carries a response, `str(e)`
    | TransportFailure(carriedText: Option<string>, exceptionText: string)

  const ServerErrorPrefix: string := "Email Server Error with "

  /** `error_data.get(key, default)` on a JSON object. */
  function FieldOr(fields: map<string, string>, key: string, default: string): (r: string)
    ensures key in fields ==> r == fields[key]
    ensures key !in fields ==> r == default
  {
    if key in fields then fields[key] else default
  }

  /**
   * `f"Email Server Error with {endpoint} - {error} : {detail}"`, the text
   * both REST helpers raise: it names the endpoint, then the error, then
   * the detail, each at a position fixed by the lengths of the others.
   */
  function ServerErrorText(endpoint: string, error: string, detail: string): (r: string)
    ensures |r| == |ServerErrorPrefix| + |endpoint| + 3 + |error| + 3 + |detail|
    ensures r[..|ServerErrorPrefix|] == ServerErrorPrefix
    ensures r[|ServerErrorPrefix|..|ServerErrorPrefix| + |endpoint|] == endpoint
    ensures r[|r| - |detail| - 3 - |error|..|r| - |detail| - 3] == error
    ensures r[|r| - |detail|..] == detail
  {
    var r := ServerErrorPrefix + endpoint + " - " + error + " : " + detail;
    assert r == ServerErrorPrefix + endpoint + " - " + error + " : " + detail;
    r
  }
}
