/** The values that travel between the LLM client, the provider adapters and
    the repositories: chat messages, tool declarations, completion requests
    and responses, stream chunks, and the errors an adapter throws. */
module LlmEntities {
  import opened Wrappers
  import opened Json

  datatype Role = System | User | Assistant

  /** The role as it is written on the wire. */
  function RoleName(role: Role): (name: string)
    ensures name in {"system", "user", "assistant"}
  {
    match role
    case System => "system"
    case User => "user"
    case Assistant => "assistant"
  }

  datatype Message = Message(role: Role, content: string)

  /** `{ type: "function", function: { name, description, parameters } }`; `fn` is the `function` property. */
  datatype ToolFunction = ToolFunction(name: string, description: string, parameters: Option<Json>)
  datatype Tool = Tool(fn: ToolFunction)

  /** Optional fields are `None` when the property is `undefined`. */
  datatype CompletionRequest = CompletionRequest(
    messages: seq<Message>,
    model: string,
    tools: Option<seq<Tool>>,
    temperature: Option<real>,
    maxTokens: Option<real>)

  /** The two kinds of completion; `rawResponse` is only filled in by the
      older Gemini adapter. */
  datatype CompletionResponse =
    | TextCompletion(content: string, tokensUsed: real, model: string,
                     finishReason: Option<string>, rawResponse: Option<Json>)
    | FunctionCallCompletion(functionName: string, functionArguments: Json, tokensUsed: real,
                             model: string, finishReason: Option<string>, rawResponse: Option<Json>)

  datatype StreamChunk =
    | TextChunk(content: string)
    | FunctionCallChunk(functionName: string, functionArguments: Json)

  /** The four `LLMError` subclasses, each with its message. */
  datatype LLMError =
    | Authentication(message: string)
    | RateLimit(message: string)
    | Timeout(message: string)
    | Unavailable(message: string)

  /** Something thrown inside an adapter: one of the LLM errors, or any other
      `Error` with its `name` (such as "AbortError") and `message`. */
  datatype Failure =
    | LLM(error: LLMError)
    | Other(name: string, message: string)

  /** What a provider adapter is built from: the model, the key, and the
      optional endpoint, timeout in milliseconds and extra headers. */
  datatype ProviderConfig = ProviderConfig(
    model: string,
    apiKey: string,
    baseURL: Option<string>,
    timeout: Option<real>,
    headers: Option<map<string, string>>)

  /** A fetch response as the adapters read it: the status, whether it is
      `ok`, its status text, and the body read as text or as JSON; reading
      a body that is not JSON rejects with the message of a `SyntaxError`. */
  datatype HttpReply = HttpReply(ok: bool, status: int, statusText: string, text: string, body: Result<Json, string>)

  /** The error `response.json()` rejects with. */
  function NotJson(message: string): Failure {
    Other("SyntaxError", message)
  }

  /** A fetch either fails with an error or produces a response. */
  datatype HttpOutcome = Sent(reply: HttpReply) | NotSent(failure: Failure)
}
