/**
 * The data shapes the client exchanges with the service. Scan payloads are
 * forwarded and returned verbatim, so they are kept as an opaque JSON value;
 * only the error body has a shape the client looks into.
 */
module Types {
  import opened Wrappers

  /** A decoded JSON value; object members keep their order. Numbers are integral here. */
  datatype Json =
    | JNull
    | JBool(b: bool)
    | JNumber(n: int)
    | JString(s: string)
    | JArray(items: seq<Json>)
    | JObject(members: seq<(string, Json)>)

  /** Text produced by serialising a JSON object: never shorter than `{}`. */
  type JsonText = s: string | |s| >= 2 witness "{}"

  /** The nested `error` object of an error body: an optional message and any other members. */
  datatype ErrorObject = ErrorObject(message: Option<string>, otherMembers: seq<(string, Json)>)

  datatype RetryAfter = RetryAfter(interval: Option<int>, unit: Option<string>)

  /** The body the service sends with a failure status; every member is optional. */
  datatype ErrorResponse = ErrorResponse(
    statusCode: Option<int>,
    message: Option<string>,
    error: Option<ErrorObject>,
    retryAfter: Option<RetryAfter>)

  /** The `{}` the client substitutes for a missing error body. */
  const EMPTY_ERROR_RESPONSE := ErrorResponse(None, None, None, None)
}
