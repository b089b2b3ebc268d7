/** The Gemini provider adapter: the request body it builds from a
    completion request, and the mapper from a validated `generateContent`
    response back to a completion. */
module Gemini {
  import opened Wrappers
  import opened Json
  import opened LlmEntities

  const DefaultBaseUrl: string := "https://generativelanguage.googleapis.com/v1beta"
  const ModelPrefix: string := "gemini/"

  /** The adapter's configuration and its resolved base URL. */
  datatype GeminiSettings = GeminiSettings(config: ProviderConfig, baseURL: string)

  /** The constructor: the configured base URL, or the public endpoint. */
  function NewGeminiAdapter(config: ProviderConfig): (s: GeminiSettings)
    ensures config.baseURL.Some? ==> s.baseURL == config.baseURL.value
    ensures config.baseURL.None? ==> s.baseURL == DefaultBaseUrl
    ensures s.config == config
  {
    GeminiSettings(config, config.baseURL.GetOr(DefaultBaseUrl))
  }

  /** The model name in the URL: a leading "gemini/" is dropped, and any
      other name is used as it is. */
  function ExtractModelName(model: string): (name: string)
    ensures ModelPrefix <= model ==> ModelPrefix + name == model
    ensures !(ModelPrefix <= model) ==> name == model
  {
    if ModelPrefix <= model then model[|ModelPrefix|..] else model
  }

  /** Stripping the prefix undoes adding it. */
  lemma ExtractModelNameOfPrefixed(name: string)
    ensures ExtractModelName(ModelPrefix + name) == name
  {
    assert ModelPrefix <= ModelPrefix + name;
  }

  const ApiKeyHeader: string := "x-goog-api-key"
  const ContentTypeHeader: string := "Content-Type"
  const JsonContentType: string := "application/json"

  /** The configured extra headers, none when there are none. */
  function ExtraHeaders(config: ProviderConfig): map<string, string> {
    config.headers.GetOr(map[])
  }

  /** The headers of `complete`: the API key and a JSON content type, then
      the configured headers spread over them. */
  function RequestHeaders(s: GeminiSettings): (h: map<string, string>)
    ensures h.Keys == {ApiKeyHeader, ContentTypeHeader} + ExtraHeaders(s.config).Keys
    ensures forall k :: k in ExtraHeaders(s.config) ==> h[k] == ExtraHeaders(s.config)[k]
    ensures ApiKeyHeader !in ExtraHeaders(s.config) ==> h[ApiKeyHeader] == s.config.apiKey
    ensures ContentTypeHeader !in ExtraHeaders(s.config) ==> h[ContentTypeHeader] == JsonContentType
  {
    map[ApiKeyHeader := s.config.apiKey, ContentTypeHeader := JsonContentType] + ExtraHeaders(s.config)
  }

  /** The `generateContent` endpoint for a model. */
  function EndpointUrl(s: GeminiSettings, model: string): string {
    s.baseURL + "/models/" + ExtractModelName(model) + ":generateContent"
  }

  /** "gemini/flash" and "flash" reach the same endpoint. */
  lemma EndpointIgnoresPrefix(s: GeminiSettings, name: string)
    ensures EndpointUrl(s, ModelPrefix + name) == s.baseURL + "/models/" + name + ":generateContent"
    ensures !(ModelPrefix <= name) ==> EndpointUrl(s, ModelPrefix + name) == EndpointUrl(s, name)
  {
    ExtractModelNameOfPrefixed(name);
  }

  /** Gemini knows two speakers: the model, and everybody else. */
  function MapRole(role: Role): (r: string)
    ensures r == "model" <==> role == Assistant
    ensures r == "user" <==> role != Assistant
  {
    if role == Assistant then "model" else "user"
  }

  /** One `contents` (or `systemInstruction`) entry with text parts only. */
  datatype Content = Content(role: Option<string>, parts: seq<string>)

  /** One entry of `functionDeclarations`; `None` is a property that is `undefined`. */
  datatype FunctionDeclaration = FunctionDeclaration(name: Option<string>, description: Option<string>, parameters: Option<Json>)

  datatype GenerationConfig = GenerationConfig(temperature: Option<real>, maxOutputTokens: Option<real>)

  /** The `generateContent` body; `tools` holds the declarations of its one
      tool object. */
  datatype GenerateContentBody = GenerateContentBody(
    contents: seq<Content>,
    systemInstruction: Option<Content>,
    tools: Option<seq<FunctionDeclaration>>,
    generationConfig: Option<GenerationConfig>)

  /** `messages.filter((m) => m.role !== "system")`. */
  function NonSystem(messages: seq<Message>): (r: seq<Message>)
    ensures forall m :: m in r <==> m in messages && m.role != System
    ensures |r| <= |messages|
  {
    if messages == [] then []
    else if messages[0].role == System then NonSystem(messages[1..])
    else [messages[0]] + NonSystem(messages[1..])
  }

  /** Where `messages.find((m) => m.role === "system")` stops: the first
      system message, or the length when there is none. */
  function FirstSystemIndex(messages: seq<Message>, from: nat := 0): (k: nat)
    requires from <= |messages|
    ensures from <= k <= |messages|
    ensures forall j :: from <= j < k ==> messages[j].role != System
    ensures k < |messages| ==> messages[k].role == System
    decreases |messages| - from
  {
    if from == |messages| || messages[from].role == System then from
    else FirstSystemIndex(messages, from + 1)
  }

  /** `messages.find((m) => m.role === "system")`. */
  function FirstSystem(messages: seq<Message>): Option<Message> {
    var k := FirstSystemIndex(messages);
    if k < |messages| then Some(messages[k]) else None
  }

  /** A conversation entry: the mapped role and the text as the only part. */
  function ContentOf(m: Message): Content {
    Content(Some(MapRole(m.role)), [m.content])
  }

  function Contents(messages: seq<Message>): (r: seq<Content>)
    ensures |r| == |messages|
    ensures forall i :: 0 <= i < |messages| ==> r[i] == ContentOf(messages[i])
  {
    seq(|messages|, i requires 0 <= i < |messages| => ContentOf(messages[i]))
  }

  /** The declaration of a tool: its function's name, description and
      parameters. */
  function Declaration(t: Tool): FunctionDeclaration {
    FunctionDeclaration(Some(t.fn.name), Some(t.fn.description), t.fn.parameters)
  }

  /** The declaration the adapter builds as written: it reads `name`,
      `description` and `parameters` from the tool itself, where a tool has
      only `type` and `function`, so all three are `undefined`. */
  function DeclarationAsWritten(t: Tool): FunctionDeclaration {
    FunctionDeclaration(None, None, None)
  }

  /** `tools` only for a non-empty tool list (`request.tools?.length`). */
  function ToolsWith(tools: Option<seq<Tool>>, declare: Tool -> FunctionDeclaration): (r: Option<seq<FunctionDeclaration>>)
    ensures r.Some? <==> tools.Some? && tools.value != []
    ensures r.Some? ==> |r.value| == |tools.value|
    ensures r.Some? ==> forall i :: 0 <= i < |tools.value| ==> r.value[i] == declare(tools.value[i])
  {
    if tools.Some? && tools.value != [] then
      Some(seq(|tools.value|, i requires 0 <= i < |tools.value| => declare(tools.value[i])))
    else None
  }

  /** The body with tool declarations made by `declare`. */
  function BodyWith(request: CompletionRequest, declare: Tool -> FunctionDeclaration): GenerateContentBody {
    var system := FirstSystem(request.messages);
    GenerateContentBody(
      Contents(NonSystem(request.messages)),
      if system.Some? then Some(Content(None, [system.value.content])) else None,
      ToolsWith(request.tools, declare),
      if request.temperature.Some? || request.maxTokens.Some?
      then Some(GenerationConfig(request.temperature, request.maxTokens))
      else None)
  }

  /** `buildRequestBody` as written: every declaration is empty. */
  function BuildRequestBodyAsWritten(request: CompletionRequest): (body: GenerateContentBody)
    ensures body.tools.Some? ==> forall i :: 0 <= i < |body.tools.value| ==> body.tools.value[i].name.None?
  {
    BodyWith(request, DeclarationAsWritten)
  }

  /** The as-written body names no function to the model, even when the
      request declares tools: no declaration carries the tool's name. */
  lemma AsWrittenLosesToolNames(request: CompletionRequest, i: nat)
    requires request.tools.Some? && i < |request.tools.value|
    ensures BuildRequestBodyAsWritten(request).tools.Some?
    ensures BuildRequestBodyAsWritten(request).tools.value[i].name != Some(request.tools.value[i].fn.name)
  {
  }

  /** `buildRequestBody` with the declarations copied from each tool's
      `function`, as the other adapters do. */
  function BuildRequestBody(request: CompletionRequest): (body: GenerateContentBody)
    ensures |body.contents| == |NonSystem(request.messages)|
    ensures forall i :: 0 <= i < |body.contents| ==>
      body.contents[i].role == Some(if NonSystem(request.messages)[i].role == Assistant then "model" else "user") &&
      body.contents[i].parts == [NonSystem(request.messages)[i].content]
    ensures body.systemInstruction.Some? <==> exists i :: 0 <= i < |request.messages| && request.messages[i].role == System
    ensures body.tools.Some? <==> request.tools.Some? && request.tools.value != []
    ensures body.tools.Some? ==> |body.tools.value| == |request.tools.value|
    ensures body.tools.Some? ==> forall i :: 0 <= i < |body.tools.value| ==>
        body.tools.value[i].name == Some(request.tools.value[i].fn.name) &&
        body.tools.value[i].description == Some(request.tools.value[i].fn.description) &&
        body.tools.value[i].parameters == request.tools.value[i].fn.parameters
    ensures body.generationConfig.Some? <==> request.temperature.Some? || request.maxTokens.Some?
    ensures body.generationConfig.Some? ==>
      body.generationConfig.value == GenerationConfig(request.temperature, request.maxTokens)
  {
    BodyWith(request, Declaration)
  }

  /** The system instruction is the first system message's text, whatever
      system messages follow it. */
  lemma SystemInstructionIsFirst(request: CompletionRequest, i: nat)
    requires i < |request.messages| && request.messages[i].role == System
    requires forall j :: 0 <= j < i ==> request.messages[j].role != System
    ensures BuildRequestBody(request).systemInstruction == Some(Content(None, [request.messages[i].content]))
  {
    var k := FirstSystemIndex(request.messages);
    assert k == i;
  }

  /** The two bodies agree everywhere except in the declarations. */
  lemma AsWrittenDiffersOnlyInTools(request: CompletionRequest)
    ensures BuildRequestBodyAsWritten(request).(tools := BuildRequestBody(request).tools) == BuildRequestBody(request)
  {
  }

  /** The validated response, as far as the mapper reads it. The parts are
      the alternatives of the part schema, in the order it tries them. */
  datatype GeminiPart =
    | TextPart(text: string)
    | InlineDataPart(mimeType: string, data: string)
    | FileDataPart(fileUri: string)
    | FunctionCallPart(name: string, args: Option<map<string, Json>>)
    | FunctionResponsePart(responseName: string)

  datatype GeminiCandidate = GeminiCandidate(parts: seq<GeminiPart>, finishReason: Option<string>)

  /** `candidates` and `usageMetadata.totalTokenCount`, each optional. */
  datatype GeminiResponse = GeminiResponse(candidates: Option<seq<GeminiCandidate>>, totalTokenCount: Option<real>)

  /** The schema check: the validated response, or the validation message. */
  type GeminiParser = Json -> Result<GeminiResponse, string>

  const NoCandidates: string := "Gemini response has no candidates"
  const NoParts: string := "Gemini response has no parts"
  const NeitherTextNorCall: string := "Gemini response part is neither text nor function call"

  function InvalidResponse(message: string): string {
    "Invalid Gemini response: " + message
  }

  /** `geminiMapper`: the first part of the first candidate decides the
      completion; the token count defaults to 0. */
  function GeminiMapper(raw: Json, model: string, parse: GeminiParser): (r: Result<CompletionResponse, string>)
    ensures parse(raw).Err? ==> r == Err(InvalidResponse(parse(raw).error))
    ensures parse(raw).Ok? && (parse(raw).value.candidates.None? || parse(raw).value.candidates.value == []) ==>
      r == Err(NoCandidates)
    ensures r.Ok? ==> parse(raw).Ok? && parse(raw).value.candidates.Some? && parse(raw).value.candidates.value != []
    ensures r.Ok? ==>
      var data := parse(raw).value;
      var candidate := data.candidates.value[0];
      && candidate.parts != []
      && r.value.model == model
      && r.value.rawResponse.None?
      && r.value.tokensUsed == data.totalTokenCount.GetOr(0.0)
      && r.value.finishReason == candidate.finishReason
      && (r.value.TextCompletion? <==> candidate.parts[0].TextPart?)
      && (r.value.TextCompletion? ==> r.value.content == candidate.parts[0].text)
      && (r.value.FunctionCallCompletion? ==>
           candidate.parts[0].FunctionCallPart? &&
           r.value.functionName == candidate.parts[0].name &&
           r.value.functionArguments == JObject(candidate.parts[0].args.GetOr(map[])))
    ensures r.Err? && parse(raw).Ok? && parse(raw).value.candidates.Some? && parse(raw).value.candidates.value != [] ==>
      var candidate := parse(raw).value.candidates.value[0];
      if candidate.parts == [] then r == Err(NoParts)
      else !candidate.parts[0].TextPart? && !candidate.parts[0].FunctionCallPart? && r == Err(NeitherTextNorCall)
  {
    match parse(raw)
    case Err(message) => Err(InvalidResponse(message))
    case Ok(data) =>
      if data.candidates.None? || data.candidates.value == [] then Err(NoCandidates)
      else
        var candidate := data.candidates.value[0];
        if candidate.parts == [] then Err(NoParts)
        else
          var tokensUsed := data.totalTokenCount.GetOr(0.0);
          match candidate.parts[0]
          case FunctionCallPart(name, args) =>
            Ok(FunctionCallCompletion(name, JObject(args.GetOr(map[])), tokensUsed, model, candidate.finishReason, None))
          case TextPart(text) =>
            Ok(TextCompletion(text, tokensUsed, model, candidate.finishReason, None))
          case _ => Err(NeitherTextNorCall)
  }

  /** The one-candidate response Gemini sends for a completion. */
  function ResponseFor(c: CompletionResponse): GeminiResponse {
    var part := match c
      case TextCompletion(content, _, _, _, _) => TextPart(content)
      case FunctionCallCompletion(name, args, _, _, _, _) =>
        FunctionCallPart(name, if args.JObject? then Some(args.fields) else None);
    GeminiResponse(Some([GeminiCandidate([part], c.finishReason)]), Some(c.tokensUsed))
  }

  function ApiError(status: string, body: string): string {
    "Gemini API error: " + status + " - " + body
  }

  /** `complete`, given what the fetch did. Nothing is caught: a failed
      fetch propagates as it is, a failed status throws a plain error with
      the status (written by `show`) and the response text, a body that is
      not JSON propagates its `SyntaxError`, and an ok JSON response goes
      through the mapper, whose errors propagate too. */
  function GeminiComplete(s: GeminiSettings, request: CompletionRequest, outcome: HttpOutcome, parse: GeminiParser,
                          show: int -> string): (r: Result<CompletionResponse, Failure>)
    ensures outcome.NotSent? ==> r == Err(outcome.failure)
    ensures outcome.Sent? && !outcome.reply.ok ==>
      r == Err(Other("Error", ApiError(show(outcome.reply.status), outcome.reply.text)))
    ensures outcome.Sent? && outcome.reply.ok && outcome.reply.body.Err? ==>
      r == Err(NotJson(outcome.reply.body.error))
    ensures outcome.Sent? && outcome.reply.ok && outcome.reply.body.Ok? ==>
      match GeminiMapper(outcome.reply.body.value, request.model, parse)
      case Ok(c) => r == Ok(c)
      case Err(message) => r == Err(Other("Error", message))
  {
    match outcome
    case NotSent(failure) => Err(failure)
    case Sent(reply) =>
      if !reply.ok then Err(Other("Error", ApiError(show(reply.status), reply.text)))
      else
        match reply.body
        case Err(message) => Err(NotJson(message))
        case Ok(data) =>
          match GeminiMapper(data, request.model, parse)
          case Ok(c) => Ok(c)
          case Err(message) => Err(Other("Error", message))
  }

  /** The mapper recovers every completion from Gemini's response for it,
      as long as a call's arguments are an object. */
  lemma MapperInvertsResponse(raw: Json, c: CompletionResponse, parse: GeminiParser)
    requires parse(raw) == Ok(ResponseFor(c))
    requires c.rawResponse.None?
    requires c.FunctionCallCompletion? ==> c.functionArguments.JObject?
    ensures GeminiMapper(raw, c.model, parse) == Ok(c)
  {
  }

  /** An ok response carrying a completion comes back as that completion,
      and the adapter itself never classifies a failure as an LLM error:
      one reaches the caller only when the fetch threw it. */
  lemma CompleteReturnsCompletion(s: GeminiSettings, request: CompletionRequest, outcome: HttpOutcome,
                                  parse: GeminiParser, show: int -> string, c: CompletionResponse)
    requires c.rawResponse.None? && c.model == request.model
    requires c.FunctionCallCompletion? ==> c.functionArguments.JObject?
    ensures outcome.Sent? && outcome.reply.ok && outcome.reply.body.Ok? &&
            parse(outcome.reply.body.value) == Ok(ResponseFor(c)) ==>
      GeminiComplete(s, request, outcome, parse, show) == Ok(c)
    ensures GeminiComplete(s, request, outcome, parse, show).Err? && GeminiComplete(s, request, outcome, parse, show).error.LLM? ==>
      outcome.NotSent?
  {
    if outcome.Sent? && outcome.reply.ok && outcome.reply.body.Ok? && parse(outcome.reply.body.value) == Ok(ResponseFor(c)) {
      MapperInvertsResponse(outcome.reply.body.value, c, parse);
    }
  }
}
