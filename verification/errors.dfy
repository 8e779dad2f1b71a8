/**
 * The single error value every failed remote call is turned into. Its fields
 * are assigned once, while it is constructed, and never changed afterwards, so
 * the model keeps it as a value and models the constructor as a function.
 */
module Errors {
  import opened Wrappers
  import opened Text

  const ERROR_NAME := "PanAirsApiError"

  datatype PanAirsApiError = PanAirsApiError(
    name: string,
    statusCode: int,
    message: string,
    details: Option<string>)

  /**
   * `new PanAirsApiError(statusCode, message, details)`: the name is fixed, the
   * status code and message are kept verbatim, and `details` is kept only when
   * it is truthy, so an omitted or empty details string leaves it absent.
   */
  function NewPanAirsApiError(statusCode: int, message: string, details: Option<string>): (e: PanAirsApiError)
    ensures e.name == ERROR_NAME
    ensures e.statusCode == statusCode && e.message == message
    ensures e.details.Some? <==> Truthy(details)
    ensures e.details.Some? ==> e.details == details
  {
    var kept := if Truthy(details) then details else None;
    PanAirsApiError(ERROR_NAME, statusCode, message, kept)
  }
}
