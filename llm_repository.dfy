/** The LLM repository: a short-term memory of the conversation that every
    completion appends to, the user's turn before the client is called and
    the assistant's answer after it returns. */
module LlmRepository {
  import opened Wrappers
  import opened Json
  import opened LlmEntities

  /** The client's `complete`: the response for the conversation so far,
      or the failure it throws. */
  type Client = seq<Message> -> Result<CompletionResponse, Failure>

  /** How function arguments are written into memory: `JSON.stringify` in
      the TypeScript copies, the dictionary's `str` in the Python one. */
  type Renderer = Json -> string

  function FunctionCallNote(name: string, arguments: string): string {
    "Function call: " + name + " with arguments " + arguments
  }

  /** The assistant turn remembered for a response: its text, or a note
      naming the function called and its arguments. */
  function AssistantEntry(response: CompletionResponse, render: Renderer): (m: Message)
    ensures m.role == Assistant
    ensures response.TextCompletion? ==> m.content == response.content
    ensures response.FunctionCallCompletion? ==>
      m.content == FunctionCallNote(response.functionName, render(response.functionArguments))
  {
    match response
    case TextCompletion(content, _, _, _, _) => Message(Assistant, content)
    case FunctionCallCompletion(name, args, _, _, _, _) => Message(Assistant, FunctionCallNote(name, render(args)))
  }

  /** The memory after one exchange: the user's turn, then the assistant's
      when the client answered. */
  function Exchange(memory: seq<Message>, userInput: string, outcome: Result<CompletionResponse, Failure>,
                    render: Renderer): seq<Message>
  {
    memory + [Message(User, userInput)] + (if outcome.Ok? then [AssistantEntry(outcome.value, render)] else [])
  }

  /** Memory only grows: by two entries for an answered call and by one when
      the client throws, the earlier entries untouched. */
  lemma ExchangeAppends(memory: seq<Message>, userInput: string, outcome: Result<CompletionResponse, Failure>,
                        render: Renderer)
    ensures var after := Exchange(memory, userInput, outcome, render);
      && |after| == |memory| + (if outcome.Ok? then 2 else 1)
      && after[..|memory|] == memory
      && after[|memory|] == Message(User, userInput)
      && (outcome.Ok? ==> after[|memory| + 1] == AssistantEntry(outcome.value, render))
  {
  }

  /** The memory after a run of answered calls, each input with the
      response it got, oldest first. */
  function Replay(memory: seq<Message>, answered: seq<(string, CompletionResponse)>, render: Renderer): seq<Message>
    decreases |answered|
  {
    if answered == [] then memory
    else Replay(Exchange(memory, answered[0].0, Ok(answered[0].1), render), answered[1..], render)
  }

  /** After a run of answered calls the memory alternates user and
      assistant turns: the i-th input at 2i and its answer at 2i + 1, behind
      the memory the run started from. */
  lemma {:induction false} ReplayAlternates(memory: seq<Message>, answered: seq<(string, CompletionResponse)>,
                                            render: Renderer)
    ensures var after := Replay(memory, answered, render);
      && |after| == |memory| + 2 * |answered|
      && after[..|memory|] == memory
      && forall i :: 0 <= i < |answered| ==>
           && after[|memory| + 2 * i] == Message(User, answered[i].0)
           && after[|memory| + 2 * i + 1] == AssistantEntry(answered[i].1, render)
    decreases |answered|
  {
    if answered != [] {
      var next := Exchange(memory, answered[0].0, Ok(answered[0].1), render);
      ExchangeAppends(memory, answered[0].0, Ok(answered[0].1), render);
      ReplayAlternates(next, answered[1..], render);
      var after := Replay(next, answered[1..], render);
      assert after[..|memory|] == next[..|next|][..|memory|] by {
        assert after[..|next|] == next;
      }
      forall i | 0 <= i < |answered|
        ensures after[|memory| + 2 * i] == Message(User, answered[i].0)
        ensures after[|memory| + 2 * i + 1] == AssistantEntry(answered[i].1, render)
      {
        if i > 0 {
          assert answered[1..][i - 1] == answered[i];
          assert |memory| + 2 * i == |next| + 2 * (i - 1);
        } else {
          assert after[..|next|] == next;
        }
      }
    }
  }

  class Repository {
    /** The conversation so far. */
    var shortTermMemory: seq<Message>

    constructor()
      ensures shortTermMemory == []
    {
      shortTermMemory := [];
    }

    /** `complete`: remember the user's turn, ask the client with the whole
        memory, remember the answer, and return the client's outcome. A
        client that throws leaves the user's turn in memory. */
    method Complete(userInput: string, client: Client, render: Renderer) returns (r: Result<CompletionResponse, Failure>)
      modifies this
      ensures r == client(old(shortTermMemory) + [Message(User, userInput)])
      ensures shortTermMemory == Exchange(old(shortTermMemory), userInput, r, render)
    {
      shortTermMemory := shortTermMemory + [Message(User, userInput)];
      r := client(shortTermMemory);
      if r.Ok? {
        shortTermMemory := shortTermMemory + [AssistantEntry(r.value, render)];
      }
    }
  }
}
