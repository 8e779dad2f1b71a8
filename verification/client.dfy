/**
 * The request-dispatch and error-normalisation layer of `PanAirsTsClient`.
 *
 * The HTTP transport is an abstract `send` that classifies every exchange into
 * one tagged `Outcome`; serialising the nested error object (a foreign call) is
 * the parameter `stringify`. The response interceptor is the pure function
 * `Intercept`, and each of the four operations is a method that validates its
 * input, issues at most one request against the client's fixed configuration,
 * and returns the request log beside its result.
 */
module Client {
  import opened Wrappers
  import opened Text
  import opened Types
  import opened Errors

  const DEFAULT_BASE_URL := "https://service.api.aisecurity.paloaltonetworks.com"
  const SYNC_SCAN_PATH := "/v1/scan/sync/request"
  const ASYNC_SCAN_PATH := "/v1/scan/async/request"
  const SCAN_RESULTS_PATH := "/v1/scan/results"
  const SCAN_REPORTS_PATH := "/v1/scan/reports"

  /** Status reported when the response carries a falsy status, or when no response arrived. */
  const FALLBACK_STATUS := 500
  const UNKNOWN_ERROR_MESSAGE := "Unknown error while calling AIRS"
  const API_ERROR_PREFIX := "API Error "
  const MAX_BATCH := 5

  datatype PanAirsTsConfig = PanAirsTsConfig(apiToken: string, baseURL: Option<string>)

  datatype HttpVerb = Get | Post

  /** One request as handed to the transport, with the client's base URL and headers attached. */
  datatype HttpRequest = HttpRequest(
    verb: HttpVerb,
    baseURL: string,
    headers: map<string, string>,
    path: string,
    params: map<string, string>,
    body: Option<Json>)

  datatype Response = Response(status: int, data: Json)

  /** How the transport classifies one exchange. */
  datatype Outcome =
    | Success(response: Response)
    | ApiFailure(status: int, data: Option<ErrorResponse>)
    | NoResponse

  /**
   * What a failed call yields: a local validation failure, raised before any
   * request is sent, or the normalised error of a request that was sent.
   */
  datatype ClientError = ValidationError(message: string) | ApiError(error: PanAirsApiError)

  /** The two identifier batches the service can be queried with. */
  datatype IdKind = ScanIds | ReportIds

  const SCAN_IDS_EMPTY_MESSAGE := "At least 1 scan_id is required"
  const SCAN_IDS_TOO_MANY_MESSAGE := "Max of 5 scan_ids can be requested at a time"
  const REPORT_IDS_EMPTY_MESSAGE := "At least 1 report_id is required"
  const REPORT_IDS_TOO_MANY_MESSAGE := "Max of 5 report_ids can be requested at a time"

  function AtLeastOneMessage(kind: IdKind): string {
    match kind
    case ScanIds => SCAN_IDS_EMPTY_MESSAGE
    case ReportIds => REPORT_IDS_EMPTY_MESSAGE
  }

  function TooManyMessage(kind: IdKind): string {
    match kind
    case ScanIds => SCAN_IDS_TOO_MANY_MESSAGE
    case ReportIds => REPORT_IDS_TOO_MANY_MESSAGE
  }

  /** `config.baseURL ?? DEFAULT_BASE_URL`: only a missing base URL is replaced, an empty one is kept. */
  function ResolveBaseURL(configured: Option<string>): (url: string)
    ensures configured.Some? ==> url == configured.value
    ensures configured.None? ==> url == DEFAULT_BASE_URL
  {
    match configured
    case Some(u) => u
    case None => DEFAULT_BASE_URL
  }

  /** The headers every request carries: the JSON content type and the token as `x-pan-token`. */
  function DefaultHeaders(apiToken: string): (headers: map<string, string>)
    ensures headers.Keys == {"Content-Type", "x-pan-token"}
    ensures headers["Content-Type"] == "application/json"
    ensures headers["x-pan-token"] == apiToken
  {
    map["Content-Type" := "application/json", "x-pan-token" := apiToken]
  }

  /** The error body the handler reads: the one received, or `{}` when there is none. */
  function BodyOrEmpty(data: Option<ErrorResponse>): ErrorResponse {
    if data.Some? then data.value else EMPTY_ERROR_RESPONSE
  }

  /** `data.error?.message`. */
  function NestedMessage(body: ErrorResponse): Option<string> {
    if body.error.Some? then body.error.value.message else None
  }

  /**
   * The interceptor's error handler: every failure becomes exactly one
   * `PanAirsApiError`. A response with a falsy status reports 500; the message
   * is chosen by `message || error?.message || "API Error <status>"`; the details
   * are the serialised nested error object when there is one. Without a
   * response the error is always 500 with the fixed unknown-error message.
   */
  function NormalizeError(o: Outcome, stringify: ErrorObject -> JsonText): (e: PanAirsApiError)
    requires !o.Success?
    ensures e.name == ERROR_NAME
    ensures e.statusCode != 0 && e.message != ""
    ensures o.NoResponse? ==>
      e.statusCode == FALLBACK_STATUS && e.message == UNKNOWN_ERROR_MESSAGE && e.details == None
    ensures o.ApiFailure? && o.status != 0 ==> e.statusCode == o.status
    ensures o.ApiFailure? && o.status == 0 ==> e.statusCode == FALLBACK_STATUS
    ensures o.ApiFailure? ==> (e.details.Some? <==> BodyOrEmpty(o.data).error.Some?)
    ensures o.ApiFailure? && BodyOrEmpty(o.data).error.Some? ==>
      e.details == Some(stringify(BodyOrEmpty(o.data).error.value))
  {
    match o
    case ApiFailure(status, data) =>
      var statusCode := if status != 0 then status else FALLBACK_STATUS;
      var body := BodyOrEmpty(data);
      var message := FirstTruthy([body.message, NestedMessage(body)], API_ERROR_PREFIX + IntToDecimal(statusCode));
      var details: Option<string> := if body.error.Some? then Some(stringify(body.error.value)) else None;
      NewPanAirsApiError(statusCode, message, details)
    case NoResponse =>
      NewPanAirsApiError(FALLBACK_STATUS, UNKNOWN_ERROR_MESSAGE, None)
  }

  /**
   * The message of a normalised API failure, in priority order: the body's
   * top-level message if truthy, else the nested error message if truthy,
   * else "API Error " followed by the normalised status.
   */
  lemma MessagePriority(o: Outcome, stringify: ErrorObject -> JsonText)
    requires o.ApiFailure?
    ensures var body := BodyOrEmpty(o.data);
      var e := NormalizeError(o, stringify);
      (Truthy(body.message) ==> e.message == body.message.value) &&
      (!Truthy(body.message) && Truthy(NestedMessage(body)) ==> e.message == NestedMessage(body).value) &&
      (!Truthy(body.message) && !Truthy(NestedMessage(body)) ==>
        e.message == API_ERROR_PREFIX + IntToDecimal(e.statusCode))
  {
    var body := BodyOrEmpty(o.data);
    var candidates := [body.message, NestedMessage(body)];
    var statusCode := if o.status != 0 then o.status else FALLBACK_STATUS;
    var fallback := API_ERROR_PREFIX + IntToDecimal(statusCode);
    if Truthy(body.message) {
      FirstTruthySelects(candidates, fallback, 0);
    } else if Truthy(NestedMessage(body)) {
      FirstTruthySelects(candidates, fallback, 1);
    } else {
      FirstTruthySelects(candidates, fallback, 2);
    }
  }

  /**
   * When neither body message is usable, the synthesised message names the
   * normalised status: the text after "API Error " reads back as that status.
   */
  lemma FallbackMessageNamesStatus(o: Outcome, stringify: ErrorObject -> JsonText)
    requires o.ApiFailure?
    requires !Truthy(BodyOrEmpty(o.data).message) && !Truthy(NestedMessage(BodyOrEmpty(o.data)))
    ensures var e := NormalizeError(o, stringify);
      |e.message| > |API_ERROR_PREFIX| &&
      e.message[..|API_ERROR_PREFIX|] == API_ERROR_PREFIX &&
      ParseDecimal(e.message[|API_ERROR_PREFIX|..]) == Some(e.statusCode)
  {
    var e := NormalizeError(o, stringify);
    MessagePriority(o, stringify);
    NatToDecimalDenotes(if e.statusCode < 0 then -e.statusCode else e.statusCode);
    IntToDecimalRoundTrip(e.statusCode);
    assert e.message[|API_ERROR_PREFIX|..] == IntToDecimal(e.statusCode);
  }

  /**
   * The response interceptor: a response that arrived with a success status is
   * passed through unchanged; every failure is replaced by its normalised error.
   */
  function Intercept(o: Outcome, stringify: ErrorObject -> JsonText): (r: Result<Response, PanAirsApiError>)
    ensures r.Ok? <==> o.Success?
    ensures o.Success? ==> r.value == o.response
    ensures r.Err? ==> r.error == NormalizeError(o, stringify)
  {
    match o
    case Success(response) => Ok(response)
    case _ => Err(NormalizeError(o, stringify))
  }

  /**
   * The local batch-size check: an empty list is reported first, then a list
   * longer than five; each kind has its own messages.
   */
  function ValidateBatch(kind: IdKind, ids: seq<string>): (failure: Option<string>)
    ensures failure.None? <==> 1 <= |ids| <= MAX_BATCH
    ensures |ids| == 0 ==> failure == Some(AtLeastOneMessage(kind))
    ensures |ids| > MAX_BATCH ==> failure == Some(TooManyMessage(kind))
  {
    if |ids| < 1 then Some(AtLeastOneMessage(kind))
    else if |ids| > MAX_BATCH then Some(TooManyMessage(kind))
    else None
  }

  class PanAirsTsClient {
    const baseURL: string
    const headers: map<string, string>

    constructor (config: PanAirsTsConfig)
      ensures baseURL == ResolveBaseURL(config.baseURL)
      ensures headers == DefaultHeaders(config.apiToken)
    {
      baseURL := ResolveBaseURL(config.baseURL);
      headers := DefaultHeaders(config.apiToken);
    }

    /** A request against this client's configuration. */
    function Request(verb: HttpVerb, path: string, params: map<string, string>, body: Option<Json>): (q: HttpRequest)
      ensures q.baseURL == baseURL && q.headers == headers
      ensures q.verb == verb && q.path == path && q.params == params && q.body == body
    {
      HttpRequest(verb, baseURL, headers, path, params, body)
    }

    /** POST /v1/scan/sync/request with the caller's body; returns the response data unchanged. */
    method ScanSyncRequest(requestBody: Json, send: HttpRequest -> Outcome, stringify: ErrorObject -> JsonText)
      returns (r: Result<Json, ClientError>, sent: seq<HttpRequest>)
      ensures sent == [Request(Post, SYNC_SCAN_PATH, map[], Some(requestBody))]
      ensures send(sent[0]).Success? ==> r == Ok(send(sent[0]).response.data)
      ensures !send(sent[0]).Success? ==> r == Err(ApiError(NormalizeError(send(sent[0]), stringify)))
    {
      var request := Request(Post, SYNC_SCAN_PATH, map[], Some(requestBody));
      sent := [request];
      var intercepted := Intercept(send(request), stringify);
      match intercepted
      case Ok(response) => r := Ok(response.data);
      case Err(e) => r := Err(ApiError(e));
    }

    /** POST /v1/scan/async/request with the caller's batch; returns the response data unchanged. */
    method ScanAsyncRequest(requestBody: Json, send: HttpRequest -> Outcome, stringify: ErrorObject -> JsonText)
      returns (r: Result<Json, ClientError>, sent: seq<HttpRequest>)
      ensures sent == [Request(Post, ASYNC_SCAN_PATH, map[], Some(requestBody))]
      ensures send(sent[0]).Success? ==> r == Ok(send(sent[0]).response.data)
      ensures !send(sent[0]).Success? ==> r == Err(ApiError(NormalizeError(send(sent[0]), stringify)))
    {
      var request := Request(Post, ASYNC_SCAN_PATH, map[], Some(requestBody));
      sent := [request];
      var intercepted := Intercept(send(request), stringify);
      match intercepted
      case Ok(response) => r := Ok(response.data);
      case Err(e) => r := Err(ApiError(e));
    }

    /**
     * GET /v1/scan/results?scan_ids=<ids joined by ",">. A list outside 1..5 fails
     * locally and nothing is sent; otherwise exactly one request is sent.
     */
    method GetScanResultsByScanIds(scanIds: seq<string>, send: HttpRequest -> Outcome, stringify: ErrorObject -> JsonText)
      returns (r: Result<Json, ClientError>, sent: seq<HttpRequest>)
      ensures |sent| == (if 1 <= |scanIds| <= MAX_BATCH then 1 else 0)
      ensures (r.Err? && r.error.ValidationError?) <==> !(1 <= |scanIds| <= MAX_BATCH)
      ensures |scanIds| == 0 ==> r == Err(ValidationError(AtLeastOneMessage(ScanIds)))
      ensures |scanIds| > MAX_BATCH ==> r == Err(ValidationError(TooManyMessage(ScanIds)))
      ensures sent != [] ==>
        sent[0] == Request(Get, SCAN_RESULTS_PATH, map["scan_ids" := Join(scanIds, ",")], None)
      ensures sent != [] && send(sent[0]).Success? ==> r == Ok(send(sent[0]).response.data)
      ensures sent != [] && !send(sent[0]).Success? ==>
        r == Err(ApiError(NormalizeError(send(sent[0]), stringify)))
    {
      var failure := ValidateBatch(ScanIds, scanIds);
      if failure.Some? {
        return Err(ValidationError(failure.value)), [];
      }
      var query := Join(scanIds, ",");
      var request := Request(Get, SCAN_RESULTS_PATH, map["scan_ids" := query], None);
      sent := [request];
      var intercepted := Intercept(send(request), stringify);
      match intercepted
      case Ok(response) => r := Ok(response.data);
      case Err(e) => r := Err(ApiError(e));
    }

    /**
     * GET /v1/scan/reports?report_ids=<ids joined by ",">. A list outside 1..5 fails
     * locally and nothing is sent; otherwise exactly one request is sent.
     */
    method GetThreatScanReports(reportIds: seq<string>, send: HttpRequest -> Outcome, stringify: ErrorObject -> JsonText)
      returns (r: Result<Json, ClientError>, sent: seq<HttpRequest>)
      ensures |sent| == (if 1 <= |reportIds| <= MAX_BATCH then 1 else 0)
      ensures (r.Err? && r.error.ValidationError?) <==> !(1 <= |reportIds| <= MAX_BATCH)
      ensures |reportIds| == 0 ==> r == Err(ValidationError(AtLeastOneMessage(ReportIds)))
      ensures |reportIds| > MAX_BATCH ==> r == Err(ValidationError(TooManyMessage(ReportIds)))
      ensures sent != [] ==>
        sent[0] == Request(Get, SCAN_REPORTS_PATH, map["report_ids" := Join(reportIds, ",")], None)
      ensures sent != [] && send(sent[0]).Success? ==> r == Ok(send(sent[0]).response.data)
      ensures sent != [] && !send(sent[0]).Success? ==>
        r == Err(ApiError(NormalizeError(send(sent[0]), stringify)))
    {
      var failure := ValidateBatch(ReportIds, reportIds);
      if failure.Some? {
        return Err(ValidationError(failure.value)), [];
      }
      var query := Join(reportIds, ",");
      var request := Request(Get, SCAN_REPORTS_PATH, map["report_ids" := query], None);
      sent := [request];
      var intercepted := Intercept(send(request), stringify);
      match intercepted
      case Ok(response) => r := Ok(response.data);
      case Err(e) => r := Err(ApiError(e));
    }
  }
}
