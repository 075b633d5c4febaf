/**
 * The LLM gateway without its network: configuration defaulting and merging,
 * the request body, the shaping of a completion into an apology, and the
 * ordered classifier that turns anything thrown into one `LLMError`.
 * The endpoint is a function from the client used and the body sent to
 * what came back, so the client's base URL and timeout decide the outcome.
 */
module LlmService {
  import opened Wrappers
  import opened Text
  import opened ChatTypes
  import Prompts

  const DefaultBaseUrl: string := "http://127.0.0.1:1234"
  const DefaultModel: string := "local-model"
  const DefaultTemperature: real := 0.7
  const DefaultMaxTokens: int := 500
  const DefaultTimeout: int := 30000

  /** The active configuration: every field present. */
  datatype LlmConfig = LlmConfig(baseURL: string, model: string, temperature: real, maxTokens: int, timeout: int)

  /** A partial configuration: `None` is a key that is not given. */
  datatype ConfigPatch = ConfigPatch(
    baseURL: Option<string>, model: Option<string>, temperature: Option<real>,
    maxTokens: Option<int>, timeout: Option<int>)

  /** The patch that gives no key at all (also the constructor called without arguments). */
  const NoPatch: ConfigPatch := ConfigPatch(None, None, None, None, None)

  /**
   * The environment variables the constructor reads: `LM_STUDIO_URL`,
   * `LLM_MODEL_NAME`, and the numbers parsed from `LLM_TEMPERATURE` and
   * `LLM_MAX_TOKENS`. `None` is a variable that is unset or empty.
   */
  datatype Environment = Environment(
    lmStudioUrl: Option<string>, modelName: Option<string>,
    temperature: Option<real>, maxTokens: Option<int>)

  /** The settings the HTTP client was built with. */
  datatype ClientSettings = ClientSettings(baseURL: string, timeout: int)

  /** `a || b` for an optional string: a missing or empty string falls through. */
  function OrText(a: Option<string>, b: string): string {
    if a.Some? && a.value != "" then a.value else b
  }

  /** `a || b` for an optional integer: a missing value or zero falls through. */
  function OrInt(a: Option<int>, b: int): int {
    if a.Some? && a.value != 0 then a.value else b
  }

  /** `a || b` for an optional number: a missing value or zero falls through. */
  function OrReal(a: Option<real>, b: real): real {
    if a.Some? && a.value != 0.0 then a.value else b
  }

  /** The constructor's configuration: each field is the override when truthy, else the environment's, else the default. */
  function InitialConfig(patch: ConfigPatch, env: Environment): LlmConfig {
    LlmConfig(
      OrText(patch.baseURL, OrText(env.lmStudioUrl, DefaultBaseUrl)),
      OrText(patch.model, OrText(env.modelName, DefaultModel)),
      OrReal(patch.temperature, env.temperature.GetOr(DefaultTemperature)),
      OrInt(patch.maxTokens, env.maxTokens.GetOr(DefaultMaxTokens)),
      OrInt(patch.timeout, DefaultTimeout))
  }

  /** `{ ...config, ...patch }`: every key the patch gives replaces the old value, whatever it is. */
  function MergeConfig(config: LlmConfig, patch: ConfigPatch): LlmConfig {
    LlmConfig(
      patch.baseURL.GetOr(config.baseURL),
      patch.model.GetOr(config.model),
      patch.temperature.GetOr(config.temperature),
      patch.maxTokens.GetOr(config.maxTokens),
      patch.timeout.GetOr(config.timeout))
  }

  /** The client after `updateConfig`: rebuilt from the new configuration only when the patch's base URL is truthy. */
  function ClientAfterUpdate(client: ClientSettings, config: LlmConfig, patch: ConfigPatch): ClientSettings {
    if patch.baseURL.Some? && patch.baseURL.value != "" then ClientSettings(config.baseURL, config.timeout)
    else client
  }

  /** With no overrides and an empty environment every field takes its documented default. */
  lemma DefaultsApply()
    ensures InitialConfig(NoPatch, Environment(None, None, None, None)) ==
            LlmConfig(DefaultBaseUrl, DefaultModel, DefaultTemperature, DefaultMaxTokens, DefaultTimeout)
    ensures InitialConfig(NoPatch, Environment(None, None, None, None)).temperature > 0.0
    ensures InitialConfig(NoPatch, Environment(None, None, None, None)).maxTokens > 0
  {
  }

  /** Truthy overrides win over the environment and the defaults, field by field. */
  lemma TruthyOverridesWin(patch: ConfigPatch, env: Environment)
    ensures patch.baseURL.Some? && patch.baseURL.value != "" ==> InitialConfig(patch, env).baseURL == patch.baseURL.value
    ensures patch.model.Some? && patch.model.value != "" ==> InitialConfig(patch, env).model == patch.model.value
    ensures patch.temperature.Some? && patch.temperature.value != 0.0 ==> InitialConfig(patch, env).temperature == patch.temperature.value
    ensures patch.maxTokens.Some? && patch.maxTokens.value != 0 ==> InitialConfig(patch, env).maxTokens == patch.maxTokens.value
    ensures patch.timeout.Some? && patch.timeout.value != 0 ==> InitialConfig(patch, env).timeout == patch.timeout.value
  {
  }

  /** The constructor ignores falsy overrides: `0` and `""` behave as if the key were not given. */
  lemma FalsyOverridesIgnored(patch: ConfigPatch, env: Environment)
    ensures InitialConfig(patch.(timeout := Some(0)), env) == InitialConfig(patch.(timeout := None), env)
    ensures InitialConfig(patch.(maxTokens := Some(0)), env) == InitialConfig(patch.(maxTokens := None), env)
    ensures InitialConfig(patch.(temperature := Some(0.0)), env) == InitialConfig(patch.(temperature := None), env)
    ensures InitialConfig(patch.(model := Some("")), env) == InitialConfig(patch.(model := None), env)
    ensures InitialConfig(patch.(baseURL := Some("")), env) == InitialConfig(patch.(baseURL := None), env)
  {
  }

  /** Merging replaces exactly the keys the patch gives, falsy values included, and keeps the rest. */
  lemma MergeReplacesGivenKeys(config: LlmConfig, patch: ConfigPatch)
    ensures MergeConfig(config, NoPatch) == config
    ensures patch.timeout == Some(0) ==> MergeConfig(config, patch).timeout == 0
    ensures patch.baseURL.None? ==> MergeConfig(config, patch).baseURL == config.baseURL
    ensures patch.model.None? ==> MergeConfig(config, patch).model == config.model
    ensures patch.temperature.None? ==> MergeConfig(config, patch).temperature == config.temperature
    ensures patch.maxTokens.None? ==> MergeConfig(config, patch).maxTokens == config.maxTokens
    ensures patch.timeout.None? ==> MergeConfig(config, patch).timeout == config.timeout
    ensures patch.baseURL.Some? ==> MergeConfig(config, patch).baseURL == patch.baseURL.value
    ensures patch.model.Some? ==> MergeConfig(config, patch).model == patch.model.value
    ensures patch.temperature.Some? ==> MergeConfig(config, patch).temperature == patch.temperature.value
    ensures patch.maxTokens.Some? ==> MergeConfig(config, patch).maxTokens == patch.maxTokens.value
    ensures patch.timeout.Some? ==> MergeConfig(config, patch).timeout == patch.timeout.value
    ensures MergeConfig(MergeConfig(config, patch), patch) == MergeConfig(config, patch)
  {
  }

  /**
   * A patch that changes only the timeout leaves the client on its old timeout:
   * after such an update the configuration and the client disagree.
   */
  lemma TimeoutOnlyUpdateLeavesClientStale(config: LlmConfig, t: int)
    requires t != config.timeout
    ensures var patch := NoPatch.(timeout := Some(t));
            var client := ClientSettings(config.baseURL, config.timeout);
            ClientAfterUpdate(client, MergeConfig(config, patch), patch).timeout != MergeConfig(config, patch).timeout
  {
  }

  /** The body of an OpenAI-style chat request before the configured model is added. */
  datatype ChatRequest = ChatRequest(
    model: Option<string>, messages: seq<ChatMessage>, temperature: Option<real>,
    maxTokens: Option<int>, stream: Option<bool>)

  /** The JSON body sent to `/v1/chat/completions`. */
  datatype WireRequest = WireRequest(
    model: string, messages: seq<ChatMessage>, temperature: Option<real>,
    maxTokens: Option<int>, stream: Option<bool>)

  datatype Choice = Choice(index: int, message: ChatMessage, finishReason: string)
  datatype Usage = Usage(promptTokens: int, completionTokens: int, totalTokens: int)

  /** The parts of a completion response the gateway reads. */
  datatype ChatResponse = ChatResponse(choices: seq<Choice>, usage: Usage)

  /** What a request to the endpoint came to: a 2xx response, or something thrown. */
  datatype Transport = Delivered(response: ChatResponse) | Failed(thrown: Thrown)

  /** The server behind the client: what a post of a body through a client with these settings comes to. */
  type Endpoint = (ClientSettings, WireRequest) -> Transport

  /** `{ model: config.model, ...request }`: a model given in the request replaces the configured one. */
  function WireBody(config: LlmConfig, request: ChatRequest): WireRequest {
    WireRequest(request.model.GetOr(config.model), request.messages, request.temperature, request.maxTokens, request.stream)
  }

  lemma RequestModelOverridesConfig(config: LlmConfig, request: ChatRequest)
    ensures request.model.Some? ==> WireBody(config, request).model == request.model.value
    ensures request.model.None? ==> WireBody(config, request).model == config.model
    ensures WireBody(config, request).messages == request.messages
  {
  }

  const RefusedMessage: string := "Cannot connect to LM Studio. Please ensure LM Studio is running."
  const TimeoutMessage: string := "Request to LM Studio timed out"
  const UnknownMessage: string := "An unknown error occurred"

  /** The connection-refused test of `handleError` on an axios error. */
  predicate LooksRefused(code: Option<string>, message: string) {
    code == Some("ECONNREFUSED") || Includes(message, "ECONNREFUSED") ||
    (Includes(message, "connect") && Includes(message, "refused"))
  }

  /** The timeout test of `handleError` on an axios error. */
  predicate LooksTimedOut(code: Option<string>, message: string) {
    code == Some("ETIMEDOUT") || code == Some("ECONNABORTED") || Includes(message, "timeout")
  }

  /** `handleError`: turns anything thrown into one `LLMError`, testing in a fixed order. */
  function HandleError(t: Thrown): LLMError {
    match t
    case LlmFailure(e) => e
    case AxiosFailure(code, message, response) =>
      if LooksRefused(code, message) then
        LLMError(RefusedMessage, ConnectionRefused, None, Some(t))
      else if response.Some? then
        LLMError("LM Studio API error: " + response.value.statusText, ApiError, Some(response.value.status), Some(t))
      else if LooksTimedOut(code, message) then
        LLMError(TimeoutMessage, Timeout, None, Some(t))
      else
        LLMError("Network error: " + message, NetworkError, None, Some(t))
    case PlainFailure(message) => LLMError(message, UnknownError, None, Some(t))
    case NonError => LLMError(UnknownMessage, UnknownError, None, None)
  }

  /** An error that is already an `LLMError` passes through, so wrapping twice changes nothing. */
  lemma HandleErrorIdempotent(t: Thrown)
    ensures HandleError(LlmFailure(HandleError(t))) == HandleError(t)
  {
  }

  /**
   * Transport errors are classified in order: refused connection first, then
   * a received response, then a timeout, and everything else is a network error.
   */
  lemma TransportClassification(code: Option<string>, message: string, response: Option<HttpStatus>)
    ensures var e := HandleError(AxiosFailure(code, message, response));
            && (e.code == ConnectionRefused <==> LooksRefused(code, message))
            && (e.code == ApiError <==> !LooksRefused(code, message) && response.Some?)
            && (e.code == Timeout <==> !LooksRefused(code, message) && response.None? && LooksTimedOut(code, message))
            && (e.code == NetworkError <==> !LooksRefused(code, message) && response.None? && !LooksTimedOut(code, message))
            && e.code != UnknownError
            && (e.code == ApiError ==> e.statusCode == Some(response.value.status))
  {
  }

  /** Only API errors carry a status code, and only values that are not transport errors are unknown errors. */
  lemma StatusOnlyOnApiErrors(t: Thrown)
    requires !t.LlmFailure?
    ensures HandleError(t).statusCode.Some? <==> HandleError(t).code == ApiError
    ensures HandleError(t).code == UnknownError <==> !t.AxiosFailure?
    ensures t.PlainFailure? ==> HandleError(t).message == t.message
    ensures t.NonError? ==> HandleError(t).message == UnknownMessage && HandleError(t).cause.None?
  {
  }

  /** An axios error whose code is `ECONNREFUSED` is a refused connection even when a response is present. */
  lemma RefusedTakesPrecedence(message: string, response: Option<HttpStatus>)
    ensures HandleError(AxiosFailure(Some("ECONNREFUSED"), message, response)).code == ConnectionRefused
  {
  }

  /** An apology request: the message, an optional emotion, style and history. */
  datatype ApologyRequest = ApologyRequest(
    message: string, emotion: Option<string>, style: Option<ApologyStyle>, history: Option<seq<ChatMessage>>)

  /** An apology: the reply, the emotion, the style used and the tokens the endpoint reported. */
  datatype ApologyResponse = ApologyResponse(reply: string, emotion: string, style: ApologyStyle, tokensUsed: int)

  /** `style = 'gentle'`: an omitted style means gentle. */
  function EffectiveStyle(style: Option<ApologyStyle>): ApologyStyle {
    style.GetOr(Gentle)
  }

  /** `params.emotion || detectEmotion(message)`. */
  function EffectiveEmotion(emotion: Option<string>, message: string): string {
    OrText(emotion, Prompts.DetectEmotion(message))
  }

  /**
   * The messages `generateApology` sends: the style's system prompt, the
   * history as given, and the user's message last.
   */
  function ApologyMessages(style: ApologyStyle, history: seq<ChatMessage>, message: string): (ms: seq<ChatMessage>)
    ensures |ms| == |history| + 2
    ensures ms[0] == ChatMessage(System, Prompts.SystemPrompt(style))
    ensures ms[1..|ms| - 1] == history
    ensures ms[|ms| - 1] == ChatMessage(User, message)
  {
    [ChatMessage(System, Prompts.SystemPrompt(style))] + history + [ChatMessage(User, message)]
  }

  /** The request `generateApology` hands to `chatCompletion`: no model key, the configured sampling settings. */
  function ApologyChatRequest(config: LlmConfig, request: ApologyRequest): ChatRequest {
    ChatRequest(None,
      ApologyMessages(EffectiveStyle(request.style), request.history.GetOr([]), request.message),
      Some(config.temperature), Some(config.maxTokens), None)
  }

  /** What `chatCompletion` returns for an endpoint outcome: the response, or the classified error. */
  function CompletionOutcome(t: Transport): Result<ChatResponse, LLMError> {
    match t
    case Delivered(response) => Success(response)
    case Failed(thrown) => Failure(HandleError(thrown))
  }

  /** The `TypeError` V8 throws when `choices[0]` is read from an empty array. */
  const NoChoiceMessage: string := "Cannot read properties of undefined (reading 'message')"

  /** The result of `generateApology` once the completion is known. */
  function ShapeApology(style: ApologyStyle, emotion: string, completion: Result<ChatResponse, LLMError>): Result<ApologyResponse, LLMError> {
    match completion
    case Failure(e) => Failure(HandleError(LlmFailure(e)))
    case Success(response) =>
      if |response.choices| == 0 then Failure(HandleError(PlainFailure(NoChoiceMessage)))
      else Success(ApologyResponse(response.choices[0].message.content, emotion, style, response.usage.totalTokens))
  }

  /** `generateApology` for a configuration, the client it posts through, a request and an endpoint. */
  function Apology(config: LlmConfig, client: ClientSettings, request: ApologyRequest, endpoint: Endpoint): Result<ApologyResponse, LLMError> {
    ShapeApology(
      EffectiveStyle(request.style),
      EffectiveEmotion(request.emotion, request.message),
      CompletionOutcome(endpoint(client, WireBody(config, ApologyChatRequest(config, request)))))
  }

  /** The body sent for an apology: the configured model and settings, and system prompt, history and message in order. */
  lemma ApologyBodySent(config: LlmConfig, request: ApologyRequest)
    ensures var body := WireBody(config, ApologyChatRequest(config, request));
            && body.model == config.model
            && body.temperature == Some(config.temperature)
            && body.maxTokens == Some(config.maxTokens)
            && |body.messages| == |request.history.GetOr([])| + 2
            && body.messages[0].role == System
            && body.messages[0].content == Prompts.SystemPrompt(EffectiveStyle(request.style))
            && body.messages[1..|body.messages| - 1] == request.history.GetOr([])
            && body.messages[|body.messages| - 1] == ChatMessage(User, request.message)
  {
  }

  /**
   * A successful apology echoes the effective style and emotion and passes the
   * first choice's content and the reported token total through unchanged.
   */
  lemma ApologySuccess(config: LlmConfig, client: ClientSettings, request: ApologyRequest, endpoint: Endpoint)
    ensures var t := endpoint(client, WireBody(config, ApologyChatRequest(config, request)));
            var r := Apology(config, client, request, endpoint);
            && (r.Success? <==> t.Delivered? && |t.response.choices| > 0)
            && (r.Success? ==> r.value == ApologyResponse(
                  t.response.choices[0].message.content,
                  EffectiveEmotion(request.emotion, request.message),
                  EffectiveStyle(request.style),
                  t.response.usage.totalTokens))
            && (r.Success? && request.style.None? ==> r.value.style == Gentle)
            && (r.Success? && request.emotion.Some? && request.emotion.value != "" ==> r.value.emotion == request.emotion.value)
  {
  }

  /**
   * A failed apology carries the classified transport error, wrapped only once,
   * or an unknown error when the response had no choices.
   */
  lemma ApologyFailure(config: LlmConfig, client: ClientSettings, request: ApologyRequest, endpoint: Endpoint)
    ensures var t := endpoint(client, WireBody(config, ApologyChatRequest(config, request)));
            var r := Apology(config, client, request, endpoint);
            && (t.Failed? ==> r == Failure(HandleError(t.thrown)))
            && (t.Delivered? && |t.response.choices| == 0 ==>
                  r.Failure? && r.error.code == UnknownError && r.error.message == NoChoiceMessage)
  {
  }

  /**
   * After an update whose base URL is missing or empty, the next apology is
   * still posted through the old client (its base URL and timeout), while
   * the body is built from the merged configuration.
   */
  lemma UpdateWithoutBaseUrlKeepsClient(
    config: LlmConfig, client: ClientSettings, patch: ConfigPatch, request: ApologyRequest, endpoint: Endpoint)
    requires patch.baseURL.None? || patch.baseURL.value == ""
    ensures var merged := MergeConfig(config, patch);
            var r := Apology(merged, ClientAfterUpdate(client, merged, patch), request, endpoint);
            var t := endpoint(client, WireBody(merged, ApologyChatRequest(merged, request)));
            && (t.Failed? ==> r == Failure(HandleError(t.thrown)))
            && (t.Delivered? && |t.response.choices| > 0 ==> r.Success? && r.value.reply == t.response.choices[0].message.content)
  {
    var merged := MergeConfig(config, patch);
    assert ClientAfterUpdate(client, merged, patch) == client;
    ApologyFailure(merged, client, request, endpoint);
    ApologySuccess(merged, client, request, endpoint);
  }

  /** An update with a truthy base URL makes the next apology go through a client built from the merged configuration. */
  lemma UpdateWithBaseUrlRebuildsClient(
    config: LlmConfig, client: ClientSettings, patch: ConfigPatch, request: ApologyRequest, endpoint: Endpoint)
    requires patch.baseURL.Some? && patch.baseURL.value != ""
    ensures var merged := MergeConfig(config, patch);
            && merged.baseURL == patch.baseURL.value
            && Apology(merged, ClientAfterUpdate(client, merged, patch), request, endpoint) ==
               Apology(merged, ClientSettings(patch.baseURL.value, merged.timeout), request, endpoint)
  {
  }

  /** The gateway object: its configuration and the client built from it. */
  class LlmGateway {
    var config: LlmConfig
    var client: ClientSettings

    /** `new LLMService(config?)`. */
    constructor (patch: ConfigPatch, env: Environment)
      ensures config == InitialConfig(patch, env)
      ensures client == ClientSettings(config.baseURL, config.timeout)
    {
      config := InitialConfig(patch, env);
      client := ClientSettings(InitialConfig(patch, env).baseURL, InitialConfig(patch, env).timeout);
    }

    /** `updateConfig(patch)`: merge, then rebuild the client if a base URL was given. */
    method UpdateConfig(patch: ConfigPatch)
      modifies this
      ensures config == MergeConfig(old(config), patch)
      ensures client == ClientAfterUpdate(old(client), config, patch)
    {
      config := MergeConfig(config, patch);
      if patch.baseURL.Some? && patch.baseURL.value != "" {
        client := ClientSettings(config.baseURL, config.timeout);
      }
    }

    /** `getConfig()`: a copy of the active configuration. */
    method GetConfig() returns (c: LlmConfig)
      ensures c == config
    {
      c := config;
    }

    /** `chatCompletion(request)`: posts the merged body once through the client and classifies a failure. */
    method ChatCompletion(request: ChatRequest, endpoint: Endpoint) returns (r: Result<ChatResponse, LLMError>)
      ensures var t := endpoint(client, WireBody(config, request));
              && (t.Delivered? ==> r == Success(t.response))
              && (t.Failed? ==> r == Failure(HandleError(t.thrown)))
    {
      var t := endpoint(client, WireBody(config, request));
      match t
      case Delivered(response) =>
        r := Success(response);
      case Failed(thrown) =>
        r := Failure(HandleError(thrown));
    }

    /** `generateApology(params)`. */
    method GenerateApology(request: ApologyRequest, endpoint: Endpoint) returns (r: Result<ApologyResponse, LLMError>)
      ensures r == Apology(config, client, request, endpoint)
    {
      var style := EffectiveStyle(request.style);
      var emotion := EffectiveEmotion(request.emotion, request.message);
      var messages := ApologyMessages(style, request.history.GetOr([]), request.message);
      var completion := ChatCompletion(ChatRequest(None, messages, Some(config.temperature), Some(config.maxTokens), None), endpoint);
      r := ShapeApology(style, emotion, completion);
    }
  }
}
