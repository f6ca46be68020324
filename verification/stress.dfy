/**
 * The request and response-validation logic of stress/stress.go:
 * resolving the request body, building the request, checking the status
 * and checking the body in one of four modes.
 *
 * The libraries the source calls (encoding/json, regexp and the gopcp
 * interpreter) are not modelled; they are passed in as the functions of an
 * `Oracles` value, and the HTTP round trip is passed in as a function from
 * the request to its outcome. Go strings and byte slices are both modelled
 * as `string`; the conversions between them are the identity.
 */
module Stress {

  datatype Option<T> = None | Some(value: T)

  /** A foreign call's result: a value, or the error it returned (its message). */
  datatype Result<T> = Ok(value: T) | Err(msg: string)

  /**
   * A JSON value as encoding/json decodes it into an interface{}: objects
   * become maps (so key order is irrelevant), numbers become floating-point
   * values (modelled as reals). reflect.DeepEqual on such values is
   * structural equality, which is `==` here.
   */
  datatype Json =
    | JNull
    | JBool(b: bool)
    | JNumber(n: real)
    | JString(s: string)
    | JArray(items: seq<Json>)
    | JObject(members: map<string, Json>)

  /** The body-check modes (BodyExpectType values). */
  const ModeEqual: string := "equal"
  const ModeEqualJson: string := "equal_json"
  const ModeReg: string := "reg"
  const ModePcp: string := "pcp"

  /** ApiExpect: what a response must look like. */
  datatype ApiExpect = ApiExpect(
    status: seq<int>,        // accepted status codes
    bodyExpectType: string,  // one of the modes above; anything else checks nothing
    bodyExp: Json,           // mode-specific: the body, the JSON value, the pattern or the program
    logBody: bool)           // log the body before the body check

  /** ApiConfig: one endpoint under test. */
  datatype ApiConfig = ApiConfig(
    name: string,
    scheme: string,
    host: string,
    path: string,
    httpMethod: string,
    headers: map<string, string>,
    body: Json,              // a string is sent as it is, anything else is JSON-encoded
    timeout: int,            // seconds
    reqPerSec: int,
    duration: int,           // seconds
    maxRunningReq: int,
    expectation: ApiExpect,
    failExit: bool)

  datatype StressConfig = StressConfig(apis: seq<ApiConfig>)

  /**
   * The foreign libraries.
   * - marshal: json.Marshal of a non-string body;
   * - unmarshal: json.Unmarshal of a response body into an interface{};
   * - regexMatch: regexp.Match(pattern, body); an error means the pattern is malformed;
   * - pcpExecute: running a pcp program whose only capability is getJson,
   *   which returns the response body decoded as by unmarshal (the second
   *   argument is what getJson yields).
   */
  datatype Oracles = Oracles(
    marshal: Json -> Result<string>,
    unmarshal: string -> Result<Json>,
    regexMatch: (string, string) -> Result<bool>,
    pcpExecute: (string, Result<Json>) -> Result<Json>)

  /** The request TestApi hands to the HTTP client. */
  datatype Request = Request(
    httpMethod: string,
    url: string,
    headers: map<string, string>,
    body: string,
    timeout: int)

  /** What the HTTP client and the body read produce for one request. */
  datatype Exchange =
    | BadRequest(msg: string)       // http.NewRequest rejected the method or the URL
    | NoResponse(msg: string)       // client.Do failed: connection, DNS, timeout
    | BodyUnreadable(msg: string)   // ioutil.ReadAll failed
    | Response(statusCode: int, body: string)

  /** The errors TestApi and CheckBody return. */
  datatype Error =
    | BodyEncodeFailed(msg: string)
    | RequestFailed(msg: string)
    | TransportFailed(msg: string)
    | ReadFailed(msg: string)
    | StatusCheckFail(statusCode: int, accepted: seq<int>, body: string)
    | BodyCheckFail(body: string, bodyExp: Json)
    | JsonDecodeFailed(msg: string)
    | BodyExpNotString
    | PatternFailed(msg: string)
    | PcpFailed(msg: string)
    | PcpNotBoolean

  /** nil, or the error returned. */
  datatype Verdict = Pass | Fail(err: Error)

  /** GetRequestBody: a string body verbatim, anything else JSON-encoded. */
  function GetRequestBody(api: ApiConfig, ora: Oracles): (r: Result<string>)
    ensures api.body.JString? ==> r == Ok(api.body.s)
    ensures !api.body.JString? ==> r == ora.marshal(api.body)
  {
    match api.body
    case JString(s) => Ok(s)
    case _ => ora.marshal(api.body)
  }

  function Url(api: ApiConfig): string
  {
    api.scheme + "://" + api.host + api.path
  }

  /**
   * The part of TestApi before the round trip: resolve the body and build
   * the request from the endpoint's method, URL, headers and timeout.
   */
  function PrepareRequest(api: ApiConfig, ora: Oracles): (r: Result<Request>)
    ensures r.Err? <==> GetRequestBody(api, ora).Err?
    ensures r.Err? ==> r.msg == GetRequestBody(api, ora).msg
    ensures r.Ok? ==> r.value.body == GetRequestBody(api, ora).value
    ensures r.Ok? ==> r.value.url == api.scheme + "://" + api.host + api.path
    ensures r.Ok? ==> r.value.httpMethod == api.httpMethod && r.value.headers == api.headers
    ensures r.Ok? ==> r.value.timeout == api.timeout
  {
    match GetRequestBody(api, ora)
    case Err(m) => Err(m)
    case Ok(b) => Ok(Request(api.httpMethod, Url(api), api.headers, b, api.timeout))
  }

  /** The body check of one response, dispatched on the mode. */
  function CheckBody(body: string, want: ApiExpect, ora: Oracles): (v: Verdict)
    // equal: the body is exactly the expected string; a non-string expectation never equals
    ensures want.bodyExpectType == ModeEqual ==>
      (v.Pass? <==> want.bodyExp == JString(body))
    // equal_json: a decode error is returned as it is, otherwise deep equality decides
    ensures want.bodyExpectType == ModeEqualJson ==>
      (v.Pass? <==> ora.unmarshal(body) == Ok(want.bodyExp))
    ensures want.bodyExpectType == ModeEqualJson && ora.unmarshal(body).Err? ==>
      v == Fail(JsonDecodeFailed(ora.unmarshal(body).msg))
    // reg and pcp need a string expectation
    ensures (want.bodyExpectType == ModeReg || want.bodyExpectType == ModePcp) && !want.bodyExp.JString? ==>
      v == Fail(BodyExpNotString)
    // reg: a malformed pattern is an error, otherwise a match anywhere passes
    ensures want.bodyExpectType == ModeReg && want.bodyExp.JString? ==>
      (v.Pass? <==> ora.regexMatch(want.bodyExp.s, body) == Ok(true))
    ensures want.bodyExpectType == ModeReg && want.bodyExp.JString? && ora.regexMatch(want.bodyExp.s, body).Err? ==>
      v == Fail(PatternFailed(ora.regexMatch(want.bodyExp.s, body).msg))
    // pcp: only an execution that yields boolean true passes
    ensures want.bodyExpectType == ModePcp && want.bodyExp.JString? ==>
      (v.Pass? <==> ora.pcpExecute(want.bodyExp.s, ora.unmarshal(body)) == Ok(JBool(true)))
    ensures want.bodyExpectType == ModePcp && want.bodyExp.JString? ==>
      match ora.pcpExecute(want.bodyExp.s, ora.unmarshal(body))
      case Err(m) => v == Fail(PcpFailed(m))
      case Ok(x) => !x.JBool? ==> v == Fail(PcpNotBoolean)
    // a mismatch names the body and the expectation
    ensures v.Fail? && v.err.BodyCheckFail? ==> v.err == BodyCheckFail(body, want.bodyExp)
    // and every comparison that ran and did not hold is such a mismatch
    ensures want.bodyExpectType == ModeEqual && !v.Pass? ==>
      v == Fail(BodyCheckFail(body, want.bodyExp))
    ensures want.bodyExpectType == ModeEqualJson && ora.unmarshal(body).Ok? && !v.Pass? ==>
      v == Fail(BodyCheckFail(body, want.bodyExp))
    ensures want.bodyExpectType == ModeReg && want.bodyExp.JString? && ora.regexMatch(want.bodyExp.s, body).Ok? && !v.Pass? ==>
      v == Fail(BodyCheckFail(body, want.bodyExp))
    ensures want.bodyExpectType == ModePcp && want.bodyExp.JString? && !v.Pass? ==>
      match ora.pcpExecute(want.bodyExp.s, ora.unmarshal(body))
      case Ok(x) => x.JBool? ==> v == Fail(BodyCheckFail(body, want.bodyExp))
      case Err(_) => true
    // any other mode falls through the switch
    ensures want.bodyExpectType !in {ModeEqual, ModeEqualJson, ModeReg, ModePcp} ==> v == Pass
  {
    var mismatch := Fail(BodyCheckFail(body, want.bodyExp));
    if want.bodyExpectType == ModeEqual then
      if want.bodyExp != JString(body) then mismatch else Pass
    else if want.bodyExpectType == ModeEqualJson then
      match ora.unmarshal(body)
      case Err(m) => Fail(JsonDecodeFailed(m))
      case Ok(value) => if value != want.bodyExp then mismatch else Pass
    else if want.bodyExpectType == ModeReg then
      if !want.bodyExp.JString? then Fail(BodyExpNotString)
      else
        match ora.regexMatch(want.bodyExp.s, body)
        case Err(m) => Fail(PatternFailed(m))
        case Ok(matched) => if !matched then mismatch else Pass
    else if want.bodyExpectType == ModePcp then
      if !want.bodyExp.JString? then Fail(BodyExpNotString)
      else
        match ora.pcpExecute(want.bodyExp.s, ora.unmarshal(body))
        case Err(m) => Fail(PcpFailed(m))
        case Ok(r) =>
          if !r.JBool? then Fail(PcpNotBoolean)
          else if !r.b then mismatch
          else Pass
    else
      Pass
  }

  /**
   * TestApi with the HTTP round trip abstracted by `send`. Errors are
   * returned in the source's order: body encoding, request construction,
   * transport, body read, status, then the body check.
   */
  function TestApi(api: ApiConfig, ora: Oracles, send: Request -> Exchange): (v: Verdict)
    ensures v.Pass? <==>
      && PrepareRequest(api, ora).Ok?
      && var x := send(PrepareRequest(api, ora).value);
         x.Response? && x.statusCode in api.expectation.status && CheckBody(x.body, api.expectation, ora).Pass?
  {
    match PrepareRequest(api, ora)
    case Err(m) => Fail(BodyEncodeFailed(m))
    case Ok(request) =>
      match send(request)
      case BadRequest(m) => Fail(RequestFailed(m))
      case NoResponse(m) => Fail(TransportFailed(m))
      case BodyUnreadable(m) => Fail(ReadFailed(m))
      case Response(code, body) =>
        if code !in api.expectation.status then
          Fail(StatusCheckFail(code, api.expectation.status, body))
        else
          CheckBody(body, api.expectation, ora)
  }

  /** A body that cannot be encoded stops TestApi before anything is sent. */
  lemma BodyEncodeErrorFirst(api: ApiConfig, ora: Oracles, send: Request -> Exchange)
    requires GetRequestBody(api, ora).Err?
    ensures TestApi(api, ora, send) == Fail(BodyEncodeFailed(GetRequestBody(api, ora).msg))
  {
  }

  /** A string body is sent exactly as configured. */
  lemma StringBodySentVerbatim(api: ApiConfig, ora: Oracles)
    requires api.body.JString?
    ensures PrepareRequest(api, ora).Ok? && PrepareRequest(api, ora).value.body == api.body.s
  {
  }

  /** Transport and read errors are returned as they are, before any check. */
  lemma TransportErrorsReturned(api: ApiConfig, ora: Oracles, send: Request -> Exchange)
    requires PrepareRequest(api, ora).Ok?
    ensures var x := send(PrepareRequest(api, ora).value);
      && (x.BadRequest? ==> TestApi(api, ora, send) == Fail(RequestFailed(x.msg)))
      && (x.NoResponse? ==> TestApi(api, ora, send) == Fail(TransportFailed(x.msg)))
      && (x.BodyUnreadable? ==> TestApi(api, ora, send) == Fail(ReadFailed(x.msg)))
  {
  }

  /**
   * A status outside the accepted list fails whatever the body and the
   * mode; a status inside it leaves the verdict to the body check alone.
   */
  lemma StatusDecidesBeforeBody(api: ApiConfig, ora: Oracles, send: Request -> Exchange)
    requires PrepareRequest(api, ora).Ok?
    requires send(PrepareRequest(api, ora).value).Response?
    ensures var x := send(PrepareRequest(api, ora).value);
      && (x.statusCode !in api.expectation.status ==>
            TestApi(api, ora, send) == Fail(StatusCheckFail(x.statusCode, api.expectation.status, x.body)))
      && (x.statusCode in api.expectation.status ==>
            TestApi(api, ora, send) == CheckBody(x.body, api.expectation, ora))
  {
  }

  /** Logging the body has no effect on the verdict. */
  lemma LogBodyIrrelevant(api: ApiConfig, ora: Oracles, send: Request -> Exchange, logBody: bool)
    ensures TestApi(api.(expectation := api.expectation.(logBody := logBody)), ora, send) == TestApi(api, ora, send)
  {
  }

  /**
   * The package's body-check tests, given that the regular-expression
   * library and the pcp interpreter answer on those inputs as the real ones
   * do: "123" equals "123" and matches [0-9]+, "a23" does not match
   * ^[0-9]+$, and the program comparing errno with 0 yields true on a body
   * whose errno is 0.
   */
  lemma CheckBodyTests(ora: Oracles, status: seq<int>, logBody: bool)
    requires ora.regexMatch("[0-9]+", "123") == Ok(true)
    requires ora.regexMatch("^[0-9]+$", "a23") == Ok(false)
    requires ora.pcpExecute("[\"==\", [\"prop\", [\"getJson\"], \"errno\"], 0]",
                            ora.unmarshal("{\"errno\": 0}")) == Ok(JBool(true))
    ensures CheckBody("123", ApiExpect(status, ModeEqual, JString("123"), logBody), ora) == Pass
    ensures CheckBody("123", ApiExpect(status, ModeReg, JString("[0-9]+"), logBody), ora) == Pass
    ensures CheckBody("a23", ApiExpect(status, ModeReg, JString("^[0-9]+$"), logBody), ora).Fail?
    ensures CheckBody("{\"errno\": 0}",
                      ApiExpect(status, ModePcp, JString("[\"==\", [\"prop\", [\"getJson\"], \"errno\"], 0]"), logBody),
                      ora) == Pass
  {
  }

  /** equal mode accepts a body against itself and rejects every other body. */
  lemma EqualModeExact(body: string, other: string, status: seq<int>, logBody: bool, ora: Oracles)
    requires other != body
    ensures CheckBody(body, ApiExpect(status, ModeEqual, JString(body), logBody), ora) == Pass
    ensures CheckBody(other, ApiExpect(status, ModeEqual, JString(body), logBody), ora).Fail?
  {
  }
}
