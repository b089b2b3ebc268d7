/** The older Gemini adapter: the same request translation written as
    separate helpers, a status-code table that throws the four LLM errors,
    and a `complete` that lets those errors through and wraps every other. */
module GeminiLegacy {
  import opened Wrappers
  import opened Json
  import opened LlmEntities
  import opened Gemini

  const BaseUrl: string := "https://generativelanguage.googleapis.com/v1beta"

  /** `mapMessagesToGemini`: system messages dropped, order kept, assistant
      turns spoken by the model and every other turn by the user. */
  function MapMessagesToGemini(messages: seq<Message>): (r: seq<Content>)
    ensures |r| == |NonSystem(messages)|
    ensures forall i :: 0 <= i < |r| ==>
      r[i] == Content(Some(if NonSystem(messages)[i].role == Assistant then "model" else "user"),
                      [NonSystem(messages)[i].content])
  {
    var kept := NonSystem(messages);
    seq(|kept|, i requires 0 <= i < |kept| =>
      Content(Some(if kept[i].role == Assistant then "model" else "user"), [kept[i].content]))
  }

  /** Both generations send the same conversation. */
  lemma SameContentsAsNewAdapter(request: CompletionRequest)
    ensures MapMessagesToGemini(request.messages) == BuildRequestBody(request).contents
  {
  }

  /** `mapToolsToGemini`: `undefined` for no tools or an empty list, and
      otherwise one declaration per tool copied from its `function`. */
  function MapToolsToGemini(tools: Option<seq<Tool>>): (r: Option<seq<FunctionDeclaration>>)
    ensures r.None? <==> tools.None? || tools.value == []
    ensures r.Some? ==> |r.value| == |tools.value|
    ensures r.Some? ==> forall i :: 0 <= i < |r.value| ==>
      r.value[i].name == Some(tools.value[i].fn.name) &&
      r.value[i].description == Some(tools.value[i].fn.description) &&
      r.value[i].parameters == tools.value[i].fn.parameters
  {
    if tools.None? || tools.value == [] then None
    else Some(seq(|tools.value|, i requires 0 <= i < |tools.value| => Declaration(tools.value[i])))
  }

  /** The older adapter declares the tools the way the newer one should. */
  lemma SameToolsAsCorrectedAdapter(request: CompletionRequest)
    ensures MapToolsToGemini(request.tools) == BuildRequestBody(request).tools
  {
    var a := MapToolsToGemini(request.tools);
    var b := BuildRequestBody(request).tools;
    if a.Some? {
      assert b.Some? && |a.value| == |b.value|;
      forall i | 0 <= i < |a.value|
        ensures a.value[i] == b.value[i]
      {
      }
      assert a.value == b.value;
    }
  }

  /** `extractSystemPrompt`: the first system message's text, if any. */
  function ExtractSystemPrompt(messages: seq<Message>): (r: Option<string>)
    ensures r.None? <==> forall i :: 0 <= i < |messages| ==> messages[i].role != System
  {
    var m := FirstSystem(messages);
    if m.Some? then Some(m.value.content) else None
  }

  /** The body of `complete`: `generationConfig` is always sent, and the
      system instruction only for a non-empty system prompt. */
  function LegacyRequestBody(request: CompletionRequest): (body: GenerateContentBody)
    ensures body.contents == MapMessagesToGemini(request.messages)
    ensures body.generationConfig == Some(GenerationConfig(request.temperature, request.maxTokens))
    ensures body.tools == MapToolsToGemini(request.tools)
    ensures body.systemInstruction.Some? <==>
      ExtractSystemPrompt(request.messages).Some? && ExtractSystemPrompt(request.messages).value != ""
  {
    var prompt := ExtractSystemPrompt(request.messages);
    GenerateContentBody(
      MapMessagesToGemini(request.messages),
      if prompt.Some? && prompt.value != "" then Some(Content(None, [prompt.value])) else None,
      MapToolsToGemini(request.tools),
      Some(GenerationConfig(request.temperature, request.maxTokens)))
  }

  /** Where the two generations' bodies differ: the newer one leaves out
      an empty generation config and keeps an empty system prompt. */
  lemma LegacyBodyAgainstNew(request: CompletionRequest)
    ensures LegacyRequestBody(request).contents == BuildRequestBody(request).contents
    ensures LegacyRequestBody(request).tools == BuildRequestBody(request).tools
    ensures BuildRequestBody(request).generationConfig.Some? ==>
      LegacyRequestBody(request).generationConfig == BuildRequestBody(request).generationConfig
    ensures LegacyRequestBody(request).systemInstruction.Some? ==>
      LegacyRequestBody(request).systemInstruction == BuildRequestBody(request).systemInstruction
  {
    SameContentsAsNewAdapter(request);
    SameToolsAsCorrectedAdapter(request);
  }

  const AuthenticationFailed: string := "Falha na autenticação com o serviço LLM. Verifique suas credenciais."
  const RateLimited: string := "Limite de taxa excedido. Tente novamente mais tarde."
  const TimedOut: string := "A requisição excedeu o tempo limite."
  const NoResponse: string := "O serviço LLM retornou nenhuma resposta."

  function ServiceError(message: string): string {
    "O serviço LLM retornou um erro: " + message
  }

  function UnexpectedError(message: string): string {
    "Erro inesperado ao chamar o serviço LLM: " + message
  }

  /** The `switch` of `handleErrorResponse`: the error thrown for a failed
      status, given the detail `ErrorDetail` read from the body. */
  function HandleErrorResponse(status: int, detail: string): (e: LLMError)
    ensures e.Authentication? <==> status == 401 || status == 403
    ensures e.RateLimit? <==> status == 429
    ensures e.Timeout? <==> status == 408 || status == 504
    ensures e.Authentication? ==> e.message == AuthenticationFailed
    ensures e.RateLimit? ==> e.message == RateLimited
    ensures e.Timeout? ==> e.message == TimedOut
    ensures e.Unavailable? ==> e.message == ServiceError(detail)
  {
    if status == 401 || status == 403 then Authentication(AuthenticationFailed)
    else if status == 429 then RateLimit(RateLimited)
    else if status == 408 || status == 504 then Timeout(TimedOut)
    else Unavailable(ServiceError(detail))
  }

  /** `body.error?.message` of a body that is not `null`: `undefined` when
      there is no `error` or it has no `message`. */
  function MessageOf(body: Json): Option<Json> {
    var error := Get(body, "error");
    if error.Some? then Get(error.value, "message") else None
  }

  /** What V8 throws for reading `error` from a `null` body. */
  const NullPropertyRead: string := "Cannot read properties of null (reading 'error')"

  /** The message template `${errorMessage}`: a string as it is, any other
      value as `show` writes it (`String(value)`). */
  function Rendered(v: Json, show: Json -> string): string {
    if v.JString? then v.s else show(v)
  }

  /** The first half of `handleErrorResponse`: the body is read as JSON
      (`{}` when it is not JSON), and `errorData.error?.message ||
      response.statusText` is the detail. `errorData` itself is read
      without `?.`, so a `null` body throws a `TypeError`; any truthy
      message is used, written as the template writes it. */
  function ErrorDetail(read: Result<Json, string>, statusText: string, show: Json -> string): (r: Result<string, Failure>)
    ensures r.Err? <==> read == Ok(JNull)
    ensures r.Err? ==> r.error == Other("TypeError", NullPropertyRead)
    ensures read.Err? ==> r == Ok(statusText)
    ensures read.Ok? && !read.value.JNull? && !Truthy(MessageOf(read.value)) ==> r == Ok(statusText)
    ensures read.Ok? && Truthy(MessageOf(read.value)) && MessageOf(read.value).value.JString? ==>
      r == Ok(MessageOf(read.value).value.s)
    ensures read.Ok? && Truthy(MessageOf(read.value)) && !MessageOf(read.value).value.JString? ==>
      r == Ok(show(MessageOf(read.value).value))
  {
    var errorData := if read.Ok? then read.value else JObject(map[]);
    if errorData.JNull? then Err(Other("TypeError", NullPropertyRead))
    else
      var message := MessageOf(errorData);
      Ok(if Truthy(message) then Rendered(message.value, show) else statusText)
  }

  /** The response as its schema validates it: the parts have an optional
      text and an optional function call. */
  datatype LegacyCall = LegacyCall(name: string, args: map<string, Json>)
  datatype LegacyPart = LegacyPart(text: Option<string>, functionCall: Option<LegacyCall>)
  datatype LegacyCandidate = LegacyCandidate(parts: seq<LegacyPart>, finishReason: Option<string>)
  datatype LegacyResponse = LegacyResponse(candidates: seq<LegacyCandidate>, totalTokenCount: Option<real>)

  /** `GeminiResponseSchema.parse`: the validated response, or the message
      of the error it throws. */
  type LegacyParser = Json -> Result<LegacyResponse, string>

  /** `mapGeminiResponseToCompletionResponse`: no candidate is an
      unavailable service; a function call in the first part wins over its
      text; a missing part or text is the empty text. */
  function MapGeminiResponse(response: LegacyResponse, model: string, raw: Json): (r: Result<CompletionResponse, LLMError>)
    ensures r.Err? <==> response.candidates == []
    ensures r.Err? ==> r.error == Unavailable(NoResponse)
    ensures r.Ok? ==>
      var candidate := response.candidates[0];
      && r.value.model == model
      && r.value.rawResponse == Some(raw)
      && r.value.tokensUsed == response.totalTokenCount.GetOr(0.0)
      && r.value.finishReason == candidate.finishReason
      && (r.value.FunctionCallCompletion? <==> candidate.parts != [] && candidate.parts[0].functionCall.Some?)
      && (r.value.FunctionCallCompletion? ==>
           r.value.functionName == candidate.parts[0].functionCall.value.name &&
           r.value.functionArguments == JObject(candidate.parts[0].functionCall.value.args))
      && (r.value.TextCompletion? ==>
           r.value.content == if candidate.parts == [] then "" else candidate.parts[0].text.GetOr(""))
  {
    if response.candidates == [] then Err(Unavailable(NoResponse))
    else
      var candidate := response.candidates[0];
      var tokensUsed := response.totalTokenCount.GetOr(0.0);
      var part := if candidate.parts == [] then None else Some(candidate.parts[0]);
      if part.Some? && part.value.functionCall.Some? then
        Ok(FunctionCallCompletion(part.value.functionCall.value.name, JObject(part.value.functionCall.value.args),
                                  tokensUsed, model, candidate.finishReason, Some(raw)))
      else
        Ok(TextCompletion(if part.Some? then part.value.text.GetOr("") else "",
                          tokensUsed, model, candidate.finishReason, Some(raw)))
  }

  /** The one-candidate response Gemini sends for a completion. */
  function LegacyResponseFor(c: CompletionResponse): LegacyResponse {
    var part := match c
      case TextCompletion(content, _, _, _, _) => LegacyPart(Some(content), None)
      case FunctionCallCompletion(name, args, _, _, _, _) =>
        LegacyPart(None, Some(LegacyCall(name, if args.JObject? then args.fields else map[])));
    LegacyResponse([LegacyCandidate([part], c.finishReason)], Some(c.tokensUsed))
  }

  /** The mapping recovers every completion from Gemini's response for it. */
  lemma MapGeminiResponseInverts(c: CompletionResponse, raw: Json)
    requires c.rawResponse == Some(raw)
    requires c.FunctionCallCompletion? ==> c.functionArguments.JObject?
    ensures MapGeminiResponse(LegacyResponseFor(c), c.model, raw) == Ok(c)
  {
  }

  /** The `catch` of `complete`: the four LLM errors go through unchanged,
      anything else becomes an unavailable service with its message. */
  function WrapError(f: Failure): (e: LLMError)
    ensures f.LLM? ==> e == f.error
    ensures f.Other? ==> e == Unavailable(UnexpectedError(f.message))
  {
    match f
    case LLM(error) => error
    case Other(_, message) => Unavailable(UnexpectedError(message))
  }

  /** Wrapping is idempotent: an error that has been through the `catch`
      comes out of a second one unchanged. */
  lemma WrapErrorIdempotent(f: Failure)
    ensures WrapError(LLM(WrapError(f))) == WrapError(f)
  {
  }

  /** `complete`, once the request is sent: a failed fetch or a failed
      status becomes its error, then the body is validated and mapped;
      every error leaves through `WrapError`. `show` writes a non-string
      error message into the failed-status message. */
  function LegacyComplete(request: CompletionRequest, outcome: HttpOutcome, parse: LegacyParser,
                          show: Json -> string): (r: Result<CompletionResponse, LLMError>)
    ensures outcome.NotSent? ==> r == Err(WrapError(outcome.failure))
    ensures outcome.Sent? && !outcome.reply.ok && outcome.reply.body == Ok(JNull) ==>
      r == Err(Unavailable(UnexpectedError(NullPropertyRead)))
    ensures outcome.Sent? && !outcome.reply.ok && outcome.reply.body != Ok(JNull) ==>
      r == Err(HandleErrorResponse(outcome.reply.status,
                                   ErrorDetail(outcome.reply.body, outcome.reply.statusText, show).value))
    ensures outcome.Sent? && outcome.reply.ok && outcome.reply.body.Err? ==>
      r == Err(Unavailable(UnexpectedError(outcome.reply.body.error)))
    ensures outcome.Sent? && outcome.reply.ok && outcome.reply.body.Ok? && parse(outcome.reply.body.value).Err? ==>
      r == Err(Unavailable(UnexpectedError(parse(outcome.reply.body.value).error)))
    ensures r.Ok? ==> outcome.Sent? && outcome.reply.ok && outcome.reply.body.Ok? && parse(outcome.reply.body.value).Ok?
    ensures r.Ok? ==>
      r == MapGeminiResponse(parse(outcome.reply.body.value).value, request.model, outcome.reply.body.value)
  {
    match outcome
    case NotSent(failure) => Err(WrapError(failure))
    case Sent(reply) =>
      if !reply.ok then
        match ErrorDetail(reply.body, reply.statusText, show)
        case Err(failure) => Err(WrapError(failure))
        case Ok(detail) => Err(WrapError(LLM(HandleErrorResponse(reply.status, detail))))
      else
        match reply.body
        case Err(message) => Err(WrapError(NotJson(message)))
        case Ok(data) =>
          match parse(data)
          case Err(message) => Err(WrapError(Other("ZodError", message)))
          case Ok(response) =>
            match MapGeminiResponse(response, request.model, data)
            case Ok(c) => Ok(c)
            case Err(e) => Err(WrapError(LLM(e)))
  }

  /** A failed reply whose body is `null` hides its status: whatever the
      status, even 401, the caller sees an unexpected error. */
  lemma NullErrorBodyHidesStatus(request: CompletionRequest, reply: HttpReply, parse: LegacyParser, show: Json -> string)
    requires !reply.ok && reply.body == Ok(JNull)
    ensures LegacyComplete(request, Sent(reply), parse, show) == Err(Unavailable(UnexpectedError(NullPropertyRead)))
    ensures !LegacyComplete(request, Sent(reply), parse, show).error.Authentication?
  {
  }

  /** With a body that is not `null`, the failed status alone decides the
      class of the error, as the status table says. */
  lemma ErrorClassFromStatus(request: CompletionRequest, reply: HttpReply, parse: LegacyParser, show: Json -> string)
    requires !reply.ok && reply.body != Ok(JNull)
    ensures var r := LegacyComplete(request, Sent(reply), parse, show);
      && r.Err?
      && (r.error.Authentication? <==> reply.status == 401 || reply.status == 403)
      && (r.error.RateLimit? <==> reply.status == 429)
      && (r.error.Timeout? <==> reply.status == 408 || reply.status == 504)
  {
  }
}
