/** The backend's shared record types: chat messages, reply styles and the LLM error. */
module ChatTypes {
  import opened Wrappers

  /** Who wrote a chat message. */
  datatype Role = System | User | Assistant

  /** One entry of a conversation, replayed verbatim to the LLM. */
  datatype ChatMessage = ChatMessage(role: Role, content: string)

  /** The three reply styles; each selects one system-prompt overlay. */
  datatype ApologyStyle = Gentle | Formal | Empathetic

  /** The machine-readable codes of `LLMError`. */
  datatype ErrorCode = ConnectionRefused | ApiError | Timeout | NetworkError | UnknownError {
    /** The code as it appears in the `error` field of a response body. */
    function Name(): string {
      match this
      case ConnectionRefused => "CONNECTION_REFUSED"
      case ApiError => "API_ERROR"
      case Timeout => "TIMEOUT"
      case NetworkError => "NETWORK_ERROR"
      case UnknownError => "UNKNOWN_ERROR"
    }
  }

  /** The HTTP status line of a response that axios received. */
  datatype HttpStatus = HttpStatus(status: int, statusText: string)

  /**
   * A value caught by a `catch` block, by what `handleError` can tell about it:
   * an `LLMError`, an axios error (`code?`, `message`, `response?`), any other
   * `Error`, or a thrown value that is not an `Error` at all.
   */
  datatype Thrown =
    | LlmFailure(err: LLMError)
    | AxiosFailure(code: Option<string>, message: string, response: Option<HttpStatus>)
    | PlainFailure(message: string)
    | NonError

  /**
   * The gateway's typed error: a tagged value with a human-readable message,
   * a code, an optional HTTP status and an optional wrapped original error.
   */
  datatype LLMError = LLMError(message: string, code: ErrorCode, statusCode: Option<int>, cause: Option<Thrown>)
}
