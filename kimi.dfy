/** The Kimi (Moonshot) provider adapter, apart from its stream parser:
    defaults, headers, the OpenAI-style request body, the status-code table,
    the error funnel every failure goes through, and the response mapper. */
module Kimi {
  import opened Wrappers
  import opened Json
  import opened LlmEntities
  import GeminiLegacy

  const DefaultBaseUrl: string := "https://api.moonshot.ai/v1"
  const DefaultTimeout: real := 30000.0

  const AuthorizationHeader: string := "Authorization"
  const ContentTypeHeader: string := "Content-Type"
  const JsonContentType: string := "application/json"

  datatype KimiSettings = KimiSettings(config: ProviderConfig, baseURL: string, timeout: real)

  /** The constructor: the Moonshot endpoint and a 30-second timeout unless
      the configuration says otherwise. */
  function NewKimiAdapter(config: ProviderConfig): (s: KimiSettings)
    ensures s.config == config
    ensures s.baseURL == if config.baseURL.Some? then config.baseURL.value else DefaultBaseUrl
    ensures s.timeout == if config.timeout.Some? then config.timeout.value else DefaultTimeout
  {
    KimiSettings(config, config.baseURL.GetOr(DefaultBaseUrl), config.timeout.GetOr(DefaultTimeout))
  }

  /** The configured extra headers, none when there are none. */
  function ExtraHeaders(config: ProviderConfig): map<string, string> {
    config.headers.GetOr(map[])
  }

  /** `buildHeaders`: a bearer token and a JSON content type, then the
      configured headers spread over them. */
  function BuildHeaders(s: KimiSettings): (h: map<string, string>)
    ensures h.Keys == {AuthorizationHeader, ContentTypeHeader} + ExtraHeaders(s.config).Keys
    ensures forall k :: k in ExtraHeaders(s.config) ==> h[k] == ExtraHeaders(s.config)[k]
    ensures AuthorizationHeader !in ExtraHeaders(s.config) ==> h[AuthorizationHeader] == "Bearer " + s.config.apiKey
    ensures ContentTypeHeader !in ExtraHeaders(s.config) ==> h[ContentTypeHeader] == JsonContentType
  {
    map[AuthorizationHeader := "Bearer " + s.config.apiKey, ContentTypeHeader := JsonContentType] + ExtraHeaders(s.config)
  }

  /** The chat-completions body; `None` fields are left out. */
  datatype KimiRequest = KimiRequest(
    model: string,
    messages: seq<Message>,
    stream: bool,
    temperature: Option<real>,
    maxTokens: Option<real>,
    tools: Option<seq<Tool>>)

  /** `buildRequestBody`: model and messages copied, `stream` as asked,
      temperature and token limit only when defined, tools only when there
      is at least one. */
  function BuildRequestBody(request: CompletionRequest, stream: bool): (body: KimiRequest)
    ensures body.model == request.model && body.messages == request.messages && body.stream == stream
    ensures body.temperature == request.temperature && body.maxTokens == request.maxTokens
    ensures body.tools.Some? <==> request.tools.Some? && request.tools.value != []
    ensures body.tools.Some? ==> body.tools == request.tools
  {
    KimiRequest(request.model, request.messages, stream, request.temperature, request.maxTokens,
      if request.tools.Some? && request.tools.value != [] then request.tools else None)
  }

  /** The request a body was built from, read back. */
  function RequestOf(body: KimiRequest): CompletionRequest {
    CompletionRequest(body.messages, body.model, body.tools, body.temperature, body.maxTokens)
  }

  /** The body loses nothing but an empty tool list: reading it back gives
      the request, and both stream modes send the same request. */
  lemma BodyKeepsRequest(request: CompletionRequest, stream: bool)
    requires request.tools != Some([])
    ensures RequestOf(BuildRequestBody(request, stream)) == request
    ensures RequestOf(BuildRequestBody(request, true)) == RequestOf(BuildRequestBody(request, false))
  {
  }

  function AuthenticationFailed(body: string): string { "Authentication failed: " + body }
  function RateLimitExceeded(body: string): string { "Rate limit exceeded: " + body }
  function RequestTimedOut(body: string): string { "Request timed out: " + body }
  function UnexpectedError(message: string): string { "Unexpected error: " + message }

  /** `Kimi API error ${status}: ${body}`, with the status written by `show`. */
  function ApiError(status: string, body: string): string {
    "Kimi API error " + status + ": " + body
  }

  /** `handleErrorResponse`: the error thrown for a failed status, each
      carrying the response text. There is no 403 case. */
  function HandleErrorResponse(status: int, body: string, show: int -> string): (e: LLMError)
    ensures e.Authentication? <==> status == 401
    ensures e.RateLimit? <==> status == 429
    ensures e.Timeout? <==> status == 408 || status == 504
    ensures e.Authentication? ==> e.message == AuthenticationFailed(body)
    ensures e.RateLimit? ==> e.message == RateLimitExceeded(body)
    ensures e.Timeout? ==> e.message == RequestTimedOut(body)
    ensures e.Unavailable? ==> e.message == ApiError(show(status), body)
  {
    if status == 401 then Authentication(AuthenticationFailed(body))
    else if status == 429 then RateLimit(RateLimitExceeded(body))
    else if status == 408 || status == 504 then Timeout(RequestTimedOut(body))
    else Unavailable(ApiError(show(status), body))
  }

  /** Two errors of the same class. */
  predicate SameKind(a: LLMError, b: LLMError) {
    a.Authentication? == b.Authentication? && a.RateLimit? == b.RateLimit? &&
    a.Timeout? == b.Timeout? && a.Unavailable? == b.Unavailable?
  }

  /** The Kimi and Gemini status tables throw the same class of error for
      every status except 403, which only Gemini reads as an
      authentication failure. */
  lemma StatusTablesDifferOnlyAt403(status: int, body: string, show: int -> string, detail: string)
    ensures var kimi := HandleErrorResponse(status, body, show);
      var gemini := GeminiLegacy.HandleErrorResponse(status, detail);
      SameKind(kimi, gemini) <==> status != 403
  {
  }

  /** `handleError`: an aborted fetch is a timeout naming the configured
      limit, an LLM error is rethrown as it is, and anything else becomes an
      unavailable service with its message. */
  function HandleError(s: KimiSettings, f: Failure, show: real -> string): (e: LLMError)
    ensures f.Other? && f.name == "AbortError" ==> e == Timeout("Request timed out after " + show(s.timeout) + "ms")
    ensures f.LLM? ==> e == f.error
    ensures f.Other? && f.name != "AbortError" ==> e == Unavailable(UnexpectedError(f.message))
  {
    match f
    case Other(name, message) =>
      if name == "AbortError" then Timeout("Request timed out after " + show(s.timeout) + "ms")
      else Unavailable(UnexpectedError(message))
    case LLM(error) => error
  }

  /** An error that went through `handleError` once is not changed by a
      second pass. */
  lemma HandleErrorIdempotent(s: KimiSettings, f: Failure, show: real -> string)
    ensures HandleError(s, LLM(HandleError(s, f, show)), show) == HandleError(s, f, show)
  {
  }

  /** `finish_reason`: absent, `null`, or a string. */
  datatype FinishReason = NoReason | NullReason | Reason(reason: string)

  datatype KimiChoice = KimiChoice(content: string, finishReason: FinishReason)

  /** `choices` and `usage.total_tokens` of a validated response. */
  datatype KimiResponse = KimiResponse(choices: seq<KimiChoice>, totalTokens: Option<real>)

  /** The schema check: the validated response, or the validation message. */
  type KimiParser = Json -> Result<KimiResponse, string>

  const NoChoices: string := "Kimi response has no choices"

  function InvalidResponse(message: string): string {
    "Invalid Kimi response: " + message
  }

  /** `kimiMapper`: always a text completion with the first choice's
      message; tokens default to 0 and a `null` finish reason is dropped. */
  function KimiMapper(raw: Json, model: string, parse: KimiParser): (r: Result<CompletionResponse, string>)
    ensures parse(raw).Err? ==> r == Err(InvalidResponse(parse(raw).error))
    ensures parse(raw).Ok? && parse(raw).value.choices == [] ==> r == Err(NoChoices)
    ensures r.Ok? <==> parse(raw).Ok? && parse(raw).value.choices != []
    ensures r.Ok? ==>
      && r.value.TextCompletion?
      && r.value.content == parse(raw).value.choices[0].content
      && r.value.tokensUsed == parse(raw).value.totalTokens.GetOr(0.0)
      && r.value.model == model
      && r.value.rawResponse.None?
      && (r.value.finishReason.Some? <==> parse(raw).value.choices[0].finishReason.Reason?)
    ensures r.Ok? && parse(raw).value.choices[0].finishReason.Reason? ==>
      r.value.finishReason == Some(parse(raw).value.choices[0].finishReason.reason)
  {
    match parse(raw)
    case Err(message) => Err(InvalidResponse(message))
    case Ok(data) =>
      if data.choices == [] then Err(NoChoices)
      else
        var choice := data.choices[0];
        var finishReason := if choice.finishReason.Reason? then Some(choice.finishReason.reason) else None;
        Ok(TextCompletion(choice.content, data.totalTokens.GetOr(0.0), model, finishReason, None))
  }

  /** The one-choice response Kimi sends for a text completion. */
  function ResponseFor(c: CompletionResponse): KimiResponse
    requires c.TextCompletion?
  {
    KimiResponse([KimiChoice(c.content, if c.finishReason.Some? then Reason(c.finishReason.value) else NullReason)],
                 Some(c.tokensUsed))
  }

  /** The mapper recovers every text completion from Kimi's response for
      it, a `null` finish reason included. */
  lemma MapperInvertsResponse(raw: Json, c: CompletionResponse, parse: KimiParser)
    requires c.TextCompletion? && c.rawResponse.None?
    requires parse(raw) == Ok(ResponseFor(c))
    ensures KimiMapper(raw, c.model, parse) == Ok(c)
  {
  }

  /** `complete`, once the request is sent: a failed status or a mapping
      error is thrown inside the `try`, so every failure reaches the caller
      through `handleError`. */
  function KimiComplete(s: KimiSettings, request: CompletionRequest, outcome: HttpOutcome, parse: KimiParser,
                        showStatus: int -> string, showTimeout: real -> string): (r: Result<CompletionResponse, LLMError>)
    ensures outcome.NotSent? ==> r == Err(HandleError(s, outcome.failure, showTimeout))
    ensures outcome.Sent? && !outcome.reply.ok ==>
      r == Err(HandleErrorResponse(outcome.reply.status, outcome.reply.text, showStatus))
    ensures outcome.Sent? && outcome.reply.ok && outcome.reply.body.Err? ==>
      r == Err(Unavailable(UnexpectedError(outcome.reply.body.error)))
    ensures outcome.Sent? && outcome.reply.ok && outcome.reply.body.Ok? ==>
      match KimiMapper(outcome.reply.body.value, request.model, parse)
      case Ok(c) => r == Ok(c)
      case Err(message) => r == Err(Unavailable(UnexpectedError(message)))
  {
    match outcome
    case NotSent(failure) => Err(HandleError(s, failure, showTimeout))
    case Sent(reply) =>
      if !reply.ok then Err(HandleError(s, LLM(HandleErrorResponse(reply.status, reply.text, showStatus)), showTimeout))
      else
        match reply.body
        case Err(message) => Err(HandleError(s, NotJson(message), showTimeout))
        case Ok(data) =>
          match KimiMapper(data, request.model, parse)
          case Ok(c) => Ok(c)
          case Err(message) => Err(HandleError(s, Other("Error", message), showTimeout))
  }
}
