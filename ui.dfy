/**
 * What the pages hand to the outside world without waiting for it: toast
 * notifications, and the abstract outcome of an HTTP call.
 */
module Ui {
  import opened Wrappers
  import opened JsText

  datatype ToastStatus = Success | Error

  /** A toast notification, as passed to Chakra's `toast({...})`; durations and
      the close button are presentation and are not recorded. */
  datatype Toast = Toast(status: ToastStatus, title: string, description: Option<string>)

  /** How an awaited HTTP call ended: a response body, or a thrown error whose
      response may carry an `error` field. */
  datatype Outcome<+T> = Ok(body: T) | Failed(serverError: Option<string>)

  const Unexpected := "An unexpected error occurred"

  /** `error.response?.data?.error || 'An unexpected error occurred'`. */
  function FailureText(serverError: Option<string>): (text: string)
    ensures text != ""
    ensures serverError.Some? && serverError.value != "" ==> text == serverError.value
    ensures serverError.None? || serverError.value == "" ==> text == Unexpected
  {
    OrElse(serverError, Unexpected)
  }
}
