/**
 * MockChatCompletionService, the chat completion service the tests plug into a kernel: a settable
 * response generator that either replays a list of canned answers (the last one repeating), echoes
 * the chat history followed by a fixed text, answers with a function call, or delegates to a
 * caller-supplied generator.
 */
module MockChat {
  import opened Wrappers
  import opened Text
  import opened Chat

  type Reply = seq<ChatMessageContent>

  /**
   * The current response generator. Replay carries the call counter its closure captures;
   * Custom and the streaming generator are caller-supplied functions of the history.
   */
  datatype Generator =
    | Replay(responses: seq<string>, calls: nat)
    | Echo(mockedResponse: string)
    | ToolCall(call: FunctionCall)
    | Custom(generate: seq<ChatMessage> -> Reply)

  /** The echo answer: "Chat history:\n", the formatted history, "\n", then the mocked text. */
  function EchoText(history: seq<ChatMessage>, mockedResponse: string): string
  {
    "Chat history:\n" + Transcript(history) + "\n" + mockedResponse
  }

  function Min(a: int, b: int): int { if a <= b then a else b }

  /** One call of the mock as a function of its generator: the generator afterwards and the answer. */
  function Respond(generator: Option<Generator>, history: seq<ChatMessage>): (Option<Generator>, Result<Reply>)
  {
    if generator.None? then (generator, Failure(InvalidOperationException("Response generator not set")))
    else match generator.value
      case Replay(rs, k) =>
        (Some(Replay(rs, k + 1)),
         if rs == [] then Failure(IndexOutOfRangeException) else Success([AssistantText(rs[Min(k, |rs| - 1)])]))
      case Echo(text) => (generator, Success([AssistantText(EchoText(history, text))]))
      case ToolCall(call) => (generator, Success([ChatMessageContent(AssistantRole, "", [call], None)]))
      case Custom(f) => (generator, Success(f(history)))
  }

  class MockChatCompletionService {
    var generator: Option<Generator>
    var streamingGenerator: Option<seq<ChatMessage> -> seq<string>>

    /** A new mock echoes the history followed by "Dummy response"; streaming is not set up. */
    constructor ()
      ensures generator == Some(Echo("Dummy response")) && streamingGenerator.None?
    {
      generator := Some(Echo("Dummy response"));
      streamingGenerator := None;
    }

    /** SetResponseGenerator (a null generator is allowed and makes later calls throw). */
    method SetResponseGenerator(g: Option<seq<ChatMessage> -> Reply>)
      modifies this
      ensures generator == (if g.Some? then Some(Custom(g.value)) else None)
      ensures streamingGenerator == old(streamingGenerator)
    {
      generator := if g.Some? then Some(Custom(g.value)) else None;
    }

    /** SetMockResponse: replay the given answers in order from the next call on, with a fresh counter. */
    method SetMockResponse(responses: seq<string>)
      modifies this
      ensures generator == Some(Replay(responses, 0)) && streamingGenerator == old(streamingGenerator)
    {
      generator := Some(Replay(responses, 0));
    }

    /** SetChatMockedResponse: echo the history followed by the given text. */
    method SetChatMockedResponse(mockedResponse: string)
      modifies this
      ensures generator == Some(Echo(mockedResponse)) && streamingGenerator == old(streamingGenerator)
    {
      generator := Some(Echo(mockedResponse));
    }

    /** SetMockResponseTool: every call answers with one assistant message whose only item is the call. */
    method SetMockResponseTool(pluginName: string, methodName: string, arguments: Arguments)
      modifies this
      ensures generator == Some(ToolCall(FunctionCall(methodName, arguments)))
      ensures streamingGenerator == old(streamingGenerator)
    {
      generator := Some(ToolCall(FunctionCall(methodName, arguments)));
    }

    method SetStreamingResponseGenerator(g: seq<ChatMessage> -> seq<string>)
      modifies this
      ensures streamingGenerator == Some(g) && generator == old(generator)
    {
      streamingGenerator := Some(g);
    }

    /**
     * GetChatMessageContentsAsync. With no generator it throws InvalidOperationException. A replay
     * answers with responses[min(k, n - 1)] on its k-th call (counted from 0), and indexes at -1,
     * so throws, when it holds no response at all; its counter advances on every call.
     */
    method GetChatMessageContents(history: seq<ChatMessage>) returns (r: Result<Reply>)
      modifies this
      ensures streamingGenerator == old(streamingGenerator)
      ensures (generator, r) == Respond(old(generator), history)
      ensures old(generator).None? ==> r == Failure(InvalidOperationException("Response generator not set")) && generator == old(generator)
      ensures old(generator).Some? ==> match old(generator).value
        case Replay(rs, k) =>
          generator == Some(Replay(rs, k + 1))
          && (rs == [] ==> r == Failure(IndexOutOfRangeException))
          && (rs != [] ==> r == Success([AssistantText(rs[Min(k, |rs| - 1)])]))
        case Echo(text) =>
          generator == old(generator) && r == Success([AssistantText(EchoText(history, text))])
        case ToolCall(call) =>
          generator == old(generator) && r == Success([ChatMessageContent(AssistantRole, "", [call], None)])
        case Custom(f) =>
          generator == old(generator) && r == Success(f(history))
    {
      if generator.None? {
        return Failure(InvalidOperationException("Response generator not set"));
      }
      match generator.value
      case Replay(rs, k) =>
        generator := Some(Replay(rs, k + 1));
        var index := Min(k, |rs| - 1);
        if index < 0 {
          return Failure(IndexOutOfRangeException);
        }
        return Success([AssistantText(rs[index])]);
      case Echo(text) =>
        return Success([AssistantText(EchoText(history, text))]);
      case ToolCall(call) =>
        return Success([ChatMessageContent(AssistantRole, "", [call], None)]);
      case Custom(f) =>
        return Success(f(history));
    }

    /** GetStreamingChatMessageContentsAsync: InvalidOperationException when no streaming generator is set. */
    method GetStreamingChatMessageContents(history: seq<ChatMessage>) returns (r: Result<seq<string>>)
      ensures streamingGenerator.None? ==> r == Failure(InvalidOperationException("Streaming response generator not set"))
      ensures streamingGenerator.Some? ==> r == Success(streamingGenerator.value(history))
    {
      if streamingGenerator.None? {
        return Failure(InvalidOperationException("Streaming response generator not set"));
      }
      return Success(streamingGenerator.value(history));
    }
  }

  /**
   * SetMockResponse(r1..rn) followed by `count` calls: the k-th call (from 0) answers
   * r[min(k, n - 1)], so once the list is exhausted the last response repeats; an empty list makes
   * every call throw.
   */
  method ReplayCalls(responses: seq<string>, history: seq<ChatMessage>, count: nat) returns (answers: seq<Result<Reply>>)
    ensures |answers| == count
    ensures responses == [] ==> forall k :: 0 <= k < count ==> answers[k] == Failure(IndexOutOfRangeException)
    ensures responses != [] ==> forall k :: 0 <= k < count ==>
      answers[k] == Success([AssistantText(responses[if k < |responses| then k else |responses| - 1])])
  {
    var mock := new MockChatCompletionService();
    mock.SetMockResponse(responses);
    answers := [];
    while |answers| < count
      invariant |answers| <= count && mock.generator == Some(Replay(responses, |answers|))
      invariant responses == [] ==> forall k :: 0 <= k < |answers| ==> answers[k] == Failure(IndexOutOfRangeException)
      invariant responses != [] ==> forall k :: 0 <= k < |answers| ==>
        answers[k] == Success([AssistantText(responses[if k < |responses| then k else |responses| - 1])])
    {
      var a := mock.GetChatMessageContents(history);
      answers := answers + [a];
    }
  }
}
