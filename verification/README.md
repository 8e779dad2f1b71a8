# PanAirsTsClient dispatch and error normalisation, in Dafny

This project models the core of `pan-airs-ts`, a TypeScript client for the Palo Alto
Networks AI Runtime Security (AIRS) scanning API: the request-dispatch layer of
`PanAirsTsClient` and the `PanAirsApiError` value every failed call is turned into.

- `wrappers.dfy` (`Wrappers`): `Option` and `Result`.
- `text.dfy` (`Text`): JavaScript truthiness of an optional string and the
  `a || b || fallback` chain (`FirstTruthy`), `Array.prototype.join` (`Join`) with its
  inverse `Split`, and the decimal rendering of an integer in a template literal
  (`IntToDecimal`) with its inverse `ParseDecimal`.
- `types.dfy` (`Types`): the data shapes from `src/types.ts` that the core touches. These
  are an opaque `Json` value for the scan payloads, which are forwarded verbatim, and the
  error body `ErrorResponse` with its nested `ErrorObject`.
- `errors.dfy` (`Errors`): `PanAirsApiError` and its constructor `NewPanAirsApiError`.
  The fields are assigned once during construction and never changed, so the error is a
  value.
- `client.dfy` (`Client`): the response interceptor (`Intercept`, `NormalizeError`), the
  batch check (`ValidateBatch`), and the class `PanAirsTsClient`. The class has immutable
  `baseURL` and `headers` fields set by its constructor, and four operation methods.

The HTTP transport (axios) is modelled as a parameter `send: HttpRequest -> Outcome`. It
classifies every exchange as `Success(response)`, `ApiFailure(status, body)` or
`NoResponse`. `JSON.stringify` of the nested error object is a foreign call, so it is the
parameter `stringify: ErrorObject -> JsonText`. `JsonText` is a string of at least two
characters, because a serialised object is never shorter than `{}`. Each operation returns
its result together with the list of requests it handed to `send`. This list is the
request log that shows whether zero or one request was issued.

Three details follow the code exactly, where a looser reading of the client's purpose might suggest otherwise:
- The status of an API failure is not taken verbatim: a falsy (zero) status becomes 500.
- A non-empty token is not enforced at construction.
- The unknown-error message is literally "Unknown error while calling AIRS".

## Model

| member | source | states |
|---|---|---|
| `Text.FirstTruthy` | src/client.ts:53 | the `||` chain returns either the fallback or one of the candidates, and it is never empty when the fallback is not empty |
| `Text.FirstTruthySelects` | src/client.ts:53 | the chain returns the first truthy candidate, so an empty string falls through; with no truthy candidate it returns the fallback |
| `Text.SplitJoin` | src/client.ts:100 | the `scan_ids` (and likewise `report_ids`) query value loses nothing when no id contains the separator: splitting the joined text gives back the ids in input order |
| `Text.NatToDecimalDenotes` | src/client.ts:53 | the decimal text of a status is canonical digits that denote that status |
| `Text.IntToDecimalRoundTrip` | src/client.ts:53 | the rendered status in `API Error {status}` reads back as the same integer |
| `Errors.NewPanAirsApiError` | src/errors.ts:7-13 | `name` is always "PanAirsApiError"; `statusCode` and `message` are kept verbatim; `details` is present exactly when the argument is a non-empty string, and then equals it; an omitted or empty argument leaves it absent |
| `Client.ResolveBaseURL` | src/client.ts:36 | a configured base URL is kept even when empty; only a missing one becomes the default service URL |
| `Client.DefaultHeaders` | src/client.ts:37-40 | the headers are exactly `Content-Type: application/json` and `x-pan-token: <token>` |
| `Client.NormalizeError` | src/client.ts:48-60 | every failure yields one error named PanAirsApiError with a non-zero status and a non-empty message; with no response it is always 500, "Unknown error while calling AIRS" and no details; an API failure keeps a non-zero status and reports 500 for a zero one; details are present exactly when the body has a nested `error`, and then they are its serialisation |
| `Client.MessagePriority` | src/client.ts:52-53 | for an API failure, with a missing body read as `{}`, the message is the top-level `message` if non-empty; otherwise the nested `error.message` if non-empty; otherwise "API Error " followed by the normalised status |
| `Client.FallbackMessageNamesStatus` | src/client.ts:50-53 | the synthesised message starts with "API Error " and the rest parses back to the normalised status code |
| `Client.Intercept` | src/client.ts:44-60 | a success passes the response through unchanged, and every failure is replaced by its normalised error |
| `Client.ValidateBatch` | src/client.ts:92-98 | a batch passes exactly when it has 1 to 5 ids; an empty batch gets the "At least 1" message, never the "Max of 5" one; a longer batch gets the "Max of 5" message; each id kind has its own messages |
| `Client.PanAirsTsClient.constructor` | src/client.ts:34-41 | the client's base URL and headers are fixed at construction from the config, with the default base URL and the token header |
| `Client.PanAirsTsClient.ScanSyncRequest` | src/client.ts:68-74 | exactly one POST to /v1/scan/sync/request carrying the caller's body verbatim with the client's base URL and headers; on success the response data is returned unchanged; on failure the call yields the normalised API error |
| `Client.PanAirsTsClient.ScanAsyncRequest` | src/client.ts:80-86 | exactly one POST to /v1/scan/async/request carrying the caller's batch verbatim; the response data is returned unchanged, or the call yields the normalised API error |
| `Client.PanAirsTsClient.GetScanResultsByScanIds` | src/client.ts:92-105 | outside 1 to 5 ids the call fails with a local validation error (the scan_id messages) and sends nothing; a validation error occurs exactly then; otherwise exactly one GET to /v1/scan/results is sent with `scan_ids` set to the ids joined by ","; it returns the response data unchanged or the normalised API error |
| `Client.PanAirsTsClient.GetThreatScanReports` | src/client.ts:111-124 | as for scan results, with the report_id messages, /v1/scan/reports and the `report_ids` parameter |

## Left out

- The axios instance, the registration of the interceptor and promises. Each call is one
  request and its response through the abstract `send`. Concurrent calls share only the
  immutable configuration, so they are not modelled.
- URL and query-string encoding done inside axios. Only the joined query value is modelled.
- `JSON.stringify` of the nested error object is a foreign call. It is the `stringify`
  parameter. Its result type `JsonText` only says the text is at least `{}` long, which
  holds for any serialised object.
- `Error.captureStackTrace`, the stack contents and the `Error` prototype chain. They are
  runtime-specific.
- Client.NormalizeError: a `NaN` status, which JavaScript also treats as falsy, is not
  modelled, because statuses are integers here. Body `message` fields that are not strings
  are not modelled either.
- The scan payload schemas of `src/types.ts`. They are forwarded and returned verbatim and
  are an opaque `Json` value, whose numbers are integers in the model.
- Deciding which HTTP statuses count as failures. That is the transport's classification
  and is given by `send`.
- The example program and the test mocks.
