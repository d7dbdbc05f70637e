/**
 * The error normalisation both services apply in `catchError`: an `HttpErrorResponse`
 * becomes one message string. The two copies (shows.service.ts and auth.service.ts)
 * are the same code, so they are one function here.
 */
module HttpErrors {
  import opened Wrappers
  import opened Strings

  /** A JSON error body from the server; either field may be missing. */
  datatype ErrorBody = ErrorBody(error: Option<string>, message: Option<string>)

  /** `ClientSide`: `error.error` is a browser `ErrorEvent` carrying a message.
      `ServerSide`: the server answered; `body` is its parsed JSON object (None when it sent
      something else), and `message` is the transport's own description of the failure. */
  datatype HttpError =
    | ClientSide(eventMessage: string)
    | ServerSide(body: Option<ErrorBody>, message: string)

  /** `error.error?.error`, with undefined as "". */
  function BodyError(body: Option<ErrorBody>): string {
    if body.Some? && body.value.error.Some? then body.value.error.value else ""
  }

  /** `error.error?.message`, with undefined as "". */
  function BodyMessage(body: Option<ErrorBody>): string {
    if body.Some? && body.value.message.Some? then body.value.message.value else ""
  }

  /** The message `handleError` wraps in the `Error` it rethrows. */
  function ErrorMessage(e: HttpError): (m: string)
    ensures e.ClientSide? ==> m == e.eventMessage
    ensures e.ServerSide? && BodyError(e.body) != "" ==> m == BodyError(e.body)
    ensures e.ServerSide? && BodyError(e.body) == "" && BodyMessage(e.body) != "" ==> m == BodyMessage(e.body)
    ensures e.ServerSide? && BodyError(e.body) == "" && BodyMessage(e.body) == "" ==> m == e.message
  {
    match e
    case ClientSide(msg) => msg
    case ServerSide(body, msg) => Or(Or(BodyError(body), BodyMessage(body)), msg)
  }

  /** The result is always one of the candidate strings, and it is empty only when all of them are. */
  lemma ErrorMessageIsACandidate(e: HttpError)
    requires e.ServerSide?
    ensures ErrorMessage(e) in {BodyError(e.body), BodyMessage(e.body), e.message}
    ensures ErrorMessage(e) == "" <==> BodyError(e.body) == "" && BodyMessage(e.body) == "" && e.message == ""
  {
  }
}
