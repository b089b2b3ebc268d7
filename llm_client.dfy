/** The provider-independent LLM client: it turns a conversation into a
    completion request and hands it to the adapter. */
module LlmClient {
  import opened Wrappers
  import opened LlmEntities
  import Gemini
  import Kimi

  /** What the client was constructed with, apart from its adapter. */
  datatype ClientSettings = ClientSettings(
    model: string,
    systemPrompt: Option<string>,
    tools: Option<seq<Tool>>,
    temperature: Option<real>,
    maxTokens: Option<real>)

  /** A truthy system prompt: set and non-empty. */
  predicate Prompted(s: ClientSettings) {
    s.systemPrompt.Some? && s.systemPrompt.value != ""
  }

  /** `buildRequest`: one system message carrying the prompt ahead of the
      caller's messages when there is a prompt, the messages unchanged when
      there is none, and the configured model and options. */
  function BuildRequest(s: ClientSettings, messages: seq<Message>): (r: CompletionRequest)
    ensures Prompted(s) ==> r.messages == [Message(System, s.systemPrompt.value)] + messages
    ensures !Prompted(s) ==> r.messages == messages
    ensures r.model == s.model && r.tools == s.tools
    ensures r.temperature == s.temperature && r.maxTokens == s.maxTokens
  {
    var allMessages := if Prompted(s) then [Message(System, s.systemPrompt.value)] + messages else messages;
    CompletionRequest(allMessages, s.model, s.tools, s.temperature, s.maxTokens)
  }

  /** The caller's conversation survives as the request's suffix, behind at
      most one added message, and exactly one message is added iff there
      is a prompt. */
  lemma CallerMessagesKept(s: ClientSettings, messages: seq<Message>)
    ensures var r := BuildRequest(s, messages);
      && |r.messages| == |messages| + (if Prompted(s) then 1 else 0)
      && r.messages[|r.messages| - |messages|..] == messages
  {
  }

  /** With a prompt, Gemini receives it as the system instruction and the
      conversation as the user's and the model's turns, whatever system
      messages the caller's conversation holds. */
  lemma PromptBecomesGeminiInstruction(s: ClientSettings, messages: seq<Message>)
    requires Prompted(s)
    ensures var body := Gemini.BuildRequestBody(BuildRequest(s, messages));
      && body.systemInstruction == Some(Gemini.Content(None, [s.systemPrompt.value]))
      && body.contents == Gemini.Contents(Gemini.NonSystem(messages))
  {
    var r := BuildRequest(s, messages);
    assert Gemini.FirstSystemIndex(r.messages) == 0;
    assert r.messages[1..] == messages;
    assert Gemini.NonSystem(r.messages) == Gemini.NonSystem(messages);
  }

  /** With a prompt, Kimi's body starts with the system message, which
      carries the prompt. */
  lemma PromptLeadsKimiBody(s: ClientSettings, messages: seq<Message>, stream: bool)
    requires Prompted(s)
    ensures var body := Kimi.BuildRequestBody(BuildRequest(s, messages), stream);
      && body.messages != []
      && body.messages[0] == Message(System, s.systemPrompt.value)
      && body.messages[1..] == messages
  {
  }

  /** `complete` and `streamComplete`: the request built from the
      conversation goes to the adapter, and what the adapter returns (its
      response, its error, or its stream of text) is the client's. */
  function Delegate<R>(s: ClientSettings, messages: seq<Message>, adapter: CompletionRequest -> R): R {
    adapter(BuildRequest(s, messages))
  }

  /** What the client returns is the adapter's answer to a request that
      carries the configured model and options and ends with the caller's
      whole conversation, behind the prompt as a system message when there
      is one and behind nothing otherwise. */
  lemma DelegateHandsOverConversation<R>(s: ClientSettings, messages: seq<Message>, adapter: CompletionRequest -> R)
    ensures exists request: CompletionRequest ::
      && Delegate(s, messages, adapter) == adapter(request)
      && request.model == s.model && request.tools == s.tools
      && request.temperature == s.temperature && request.maxTokens == s.maxTokens
      && |request.messages| == |messages| + (if Prompted(s) then 1 else 0)
      && request.messages[|request.messages| - |messages|..] == messages
      && (Prompted(s) ==> request.messages[0] == Message(System, s.systemPrompt.value))
  {
    var request := BuildRequest(s, messages);
    CallerMessagesKept(s, messages);
    assert Delegate(s, messages, adapter) == adapter(request);
  }
}
