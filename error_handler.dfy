/** The API's last-resort error middleware and the helper that builds the
    errors route handlers throw. The middleware turns an error and the
    server's `NODE_ENV` mode into a status and a JSON body; logging is not
    part of the model. */
module ErrorHandling {
  import opened Common

  /** An error as the middleware reads it. A status field that is missing
      or otherwise falsy is 0; a missing message is the empty string. */
  datatype HttpError = HttpError(
    statusCode: int,
    status: int,
    message: string,
    details: Option<Json>,
    stack: Option<string>)

  /** The value of `NODE_ENV`. */
  datatype Mode = Development | Production | OtherMode

  /** The JSON body; `None` fields are not serialised. */
  datatype ErrorBody = ErrorBody(error: string, details: Option<Json>, stack: Option<string>)

  datatype ErrorReply = ErrorReply(status: int, body: ErrorBody)

  const GenericMessage: string := "An internal server error occurred. Please try again later."

  const FallbackMessage: string := "An error occurred"

  /** `err.statusCode || err.status || 500`. */
  function StatusOf(e: HttpError): (s: int)
    ensures s != 0
    ensures e.statusCode != 0 ==> s == e.statusCode
    ensures e.statusCode == 0 && e.status != 0 ==> s == e.status
    ensures e.statusCode == 0 && e.status == 0 ==> s == 500
  {
    if e.statusCode != 0 then e.statusCode
    else if e.status != 0 then e.status
    else 500
  }

  /** `errorHandler`: the reply carries the computed status. The message
      is replaced by a generic text for a 500 in production and otherwise
      is the error's own message or a fallback; the error's details and
      stack are sent only in development. */
  function ErrorHandler(e: HttpError, mode: Mode): (reply: ErrorReply)
    ensures reply.status == StatusOf(e)
    ensures mode.Production? && reply.status == 500 ==> reply.body.error == GenericMessage
    ensures !(mode.Production? && reply.status == 500) ==>
              reply.body.error == (if e.message != "" then e.message else FallbackMessage)
    ensures reply.body.error != ""
    ensures mode.Development? ==> reply.body.details == e.details && reply.body.stack == e.stack
    ensures !mode.Development? ==> reply.body.details.None? && reply.body.stack.None?
  {
    var status := StatusOf(e);
    var message := if mode.Production? && status == 500 then GenericMessage
                   else if e.message != "" then e.message
                   else FallbackMessage;
    var body := if mode.Development? then ErrorBody(message, e.details, e.stack)
                else ErrorBody(message, None, None);
    ErrorReply(status, body)
  }

  /** Outside development nothing but the message leaves the server, and
      in production an internal error's own message does not either. */
  lemma ProductionHidesInternals(e: HttpError)
    ensures var reply := ErrorHandler(e, Production);
            && reply.body.details.None? && reply.body.stack.None?
            && (StatusOf(e) == 500 ==> reply.body == ErrorBody(GenericMessage, None, None))
  {
  }

  /** `createError`: a new error with the message and the status, which
      defaults to 500 when the caller gives none. The runtime captures
      `trace` as the error's stack. */
  function CreateError(message: string, statusCode: Option<int>, trace: string): (e: HttpError)
    ensures e.message == message && e.status == 0 && e.details.None? && e.stack == Some(trace)
    ensures statusCode.None? ==> e.statusCode == 500
    ensures statusCode.Some? ==> e.statusCode == statusCode.value
  {
    HttpError(if statusCode.Some? then statusCode.value else 500, 0, message, None, Some(trace))
  }

  /** An error built by `createError` and handled by `errorHandler` is
      answered with the status it was created with (500 by default, and
      500 as well for a falsy 0), and with its own message unless it is a
      production 500 or the message is empty. */
  lemma CreatedErrorReply(message: string, statusCode: Option<int>, trace: string, mode: Mode)
    ensures var reply := ErrorHandler(CreateError(message, statusCode, trace), mode);
            var expected := if statusCode.Some? && statusCode.value != 0 then statusCode.value else 500;
            && reply.status == expected
            && (message != "" && !(mode.Production? && expected == 500) ==> reply.body.error == message)
            && (mode.Development? ==> reply.body.stack == Some(trace))
  {
  }
}
