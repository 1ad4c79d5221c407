/**
 * What a failed fetch or submit throws, and the diagnostic branch the catch
 * block of each handler chooses for it.
 */
module Failures {
  import opened Js
  import opened Wrappers

  /** An HTTP response that came back with an error status (`error.response`). */
  datatype Reply = Reply(status: int, data: JsValue)

  /** A value caught by a handler's `catch` block. */
  datatype Failure =
    | AxiosFailure(message: string, response: Option<Reply>, requestSent: bool)
    | OtherFailure(message: string)

  /** The four diagnostic branches of the catch block. */
  datatype ErrorKind =
    | Rejected(status: int, data: JsValue)  // a response was received
    | Unanswered                            // the request went out, no response came back
    | Misconfigured                         // the request could not be set up
    | Unexpected                            // not an Axios error at all

  /**
   * The branch is chosen in order: a response, else a request without a
   * response, else neither; errors that are not Axios errors form their own case.
   */
  function Classify(e: Failure): (k: ErrorKind)
    ensures k.Unexpected? <==> e.OtherFailure?
    ensures k.Rejected? <==> e.AxiosFailure? && e.response.Some?
    ensures k.Rejected? ==> k == Rejected(e.response.value.status, e.response.value.data)
    ensures k.Unanswered? <==> e.AxiosFailure? && e.response.None? && e.requestSent
    ensures k.Misconfigured? <==> e.AxiosFailure? && e.response.None? && !e.requestSent
  {
    match e
    case OtherFailure(_) => Unexpected
    case AxiosFailure(_, response, requestSent) =>
      if response.Some? then Rejected(response.value.status, response.value.data)
      else if requestSent then Unanswered
      else Misconfigured
  }
}
