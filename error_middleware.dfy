/**
 * The outermost HTTP error layer: each thrown error becomes exactly one
 * (status, body) pair, and an unmatched route becomes a 404.
 * The statuses are those of sections 15.5 and 15.6 of RFC 9110.
 */
module ErrorMiddleware {
  import opened Wrappers
  import opened ChatTypes
  import LlmService

  const BadRequest: int := 400          // section 15.5.1 of RFC 9110
  const NotFound: int := 404            // section 15.5.5 of RFC 9110
  const InternalServerError: int := 500 // section 15.6.1 of RFC 9110
  const BadGateway: int := 502          // section 15.6.3 of RFC 9110
  const ServiceUnavailable: int := 503  // section 15.6.4 of RFC 9110
  const GatewayTimeout: int := 504      // section 15.6.5 of RFC 9110

  const RedactedMessage: string := "An unexpected error occurred"

  /** An error reaching the handler: an `LLMError`, or any other `Error` with its `name` and `message`. */
  datatype ServerError = LlmThrown(err: LLMError) | OtherThrown(name: string, message: string)

  /** The JSON body `{ error, message }`. */
  datatype ErrorBody = ErrorBody(error: string, message: string)

  /** A status code with its JSON body. */
  datatype HttpReply = HttpReply(status: int, body: ErrorBody)

  /** `getStatusCodeForLLMError`. */
  function StatusForLlmError(e: LLMError): (status: int)
    ensures e.code == ConnectionRefused ==> status == ServiceUnavailable
    ensures e.code == Timeout ==> status == GatewayTimeout
    ensures e.code == NetworkError ==> status == BadGateway
    ensures e.code == UnknownError ==> status == InternalServerError
    ensures e.code == ApiError ==> status == (if e.statusCode.Some? && e.statusCode.value != 0 then e.statusCode.value else BadGateway)
  {
    match e.code
    case ConnectionRefused => ServiceUnavailable
    case Timeout => GatewayTimeout
    case ApiError => if e.statusCode.Some? && e.statusCode.value != 0 then e.statusCode.value else BadGateway
    case NetworkError => BadGateway
    case UnknownError => InternalServerError
  }

  /**
   * `errorHandler`: an `LLMError` first, then a validation error, then any
   * other error; only the last has its message hidden, and only in production.
   */
  function ErrorHandler(error: ServerError, nodeEnv: string): (reply: HttpReply)
    ensures error.LlmThrown? ==> reply == HttpReply(StatusForLlmError(error.err), ErrorBody(error.err.code.Name(), error.err.message))
    ensures error.OtherThrown? && error.name == "ValidationError" ==> reply == HttpReply(BadRequest, ErrorBody("Validation Error", error.message))
    ensures error.OtherThrown? && error.name != "ValidationError" ==>
              reply.status == InternalServerError && reply.body.error == "Internal Server Error" &&
              (reply.body.message == RedactedMessage <==> nodeEnv == "production" || error.message == RedactedMessage)
    ensures error.OtherThrown? && error.name != "ValidationError" && nodeEnv != "production" ==> reply.body.message == error.message
  {
    match error
    case LlmThrown(e) => HttpReply(StatusForLlmError(e), ErrorBody(e.code.Name(), e.message))
    case OtherThrown(name, message) =>
      if name == "ValidationError" then HttpReply(BadRequest, ErrorBody("Validation Error", message))
      else HttpReply(InternalServerError, ErrorBody("Internal Server Error", if nodeEnv == "production" then RedactedMessage else message))
  }

  /** `notFoundHandler`: always 404, naming the method and the path. */
  function NotFoundHandler(httpMethod: string, path: string): (reply: HttpReply)
    ensures reply.status == NotFound && reply.body.error == "Not Found"
    ensures reply.body.message == "Cannot " + httpMethod + " " + path
  {
    HttpReply(NotFound, ErrorBody("Not Found", "Cannot " + httpMethod + " " + path))
  }

  /** Every reply carries one of the statuses above, or an upstream status relayed for an API error. */
  lemma StatusesAreKnown(error: ServerError, nodeEnv: string)
    ensures var s := ErrorHandler(error, nodeEnv).status;
            s in {BadRequest, InternalServerError, BadGateway, ServiceUnavailable, GatewayTimeout} ||
            (error.LlmThrown? && error.err.code == ApiError && error.err.statusCode == Some(s) && s != 0)
  {
  }

  /** Classified errors are never redacted: their real message reaches the client in every environment. */
  lemma LlmErrorsNotRedacted(e: LLMError, nodeEnv: string, otherEnv: string)
    ensures ErrorHandler(LlmThrown(e), nodeEnv) == ErrorHandler(LlmThrown(e), otherEnv)
    ensures ErrorHandler(LlmThrown(e), nodeEnv).body.message == e.message
  {
  }

  /**
   * End to end for a transport failure: a refused connection is 503, a
   * received error response relays its status (502 when it is zero), a
   * timeout is 504 and any other transport failure is 502.
   */
  lemma TransportFailureStatus(code: Option<string>, message: string, response: Option<HttpStatus>, nodeEnv: string)
    ensures var status := ErrorHandler(LlmThrown(LlmService.HandleError(AxiosFailure(code, message, response))), nodeEnv).status;
            && (LlmService.LooksRefused(code, message) ==> status == ServiceUnavailable)
            && (!LlmService.LooksRefused(code, message) && response.Some? ==>
                  status == if response.value.status != 0 then response.value.status else BadGateway)
            && (!LlmService.LooksRefused(code, message) && response.None? && LlmService.LooksTimedOut(code, message) ==> status == GatewayTimeout)
            && (!LlmService.LooksRefused(code, message) && response.None? && !LlmService.LooksTimedOut(code, message) ==> status == BadGateway)
  {
  }
}
