/**
 * SimpleChatAssistant: one chat turn adds the user message to the conversation, sends the whole
 * history to the kernel's chat completion service, expects exactly one reply, adds it to the
 * conversation as an assistant message and returns its text.
 */
module ChatAssistants {
  import opened Wrappers
  import opened Chat
  import opened MockChat
  import opened Conversations
  import opened Kernels

  /** Enumerable.Single(): the only element, InvalidOperationException for none or several. */
  function Single(results: Reply): (r: Result<ChatMessageContent>)
    ensures r.Success? <==> |results| == 1
    ensures r.Success? ==> r.value == results[0]
    ensures |results| == 0 ==> r == Failure(InvalidOperationException("Sequence contains no elements"))
    ensures |results| > 1 ==> r == Failure(InvalidOperationException("Sequence contains more than one element"))
  {
    if |results| == 0 then Failure(InvalidOperationException("Sequence contains no elements"))
    else if |results| > 1 then Failure(InvalidOperationException("Sequence contains more than one element"))
    else Success(results[0])
  }

  /**
   * The assistant. It looks its kernel up by name in the store on every turn; the chat completion
   * service that kernel resolves is given with the assistant.
   */
  class SimpleChatAssistant {
    const conversation: Conversation
    const kernelName: string
    const store: KernelStore
    const service: MockChatCompletionService

    /** Without a conversation the assistant starts a SimpleConversation of its own. */
    constructor (kernelName: string, store: KernelStore, service: MockChatCompletionService, conversation: Option<Conversation>)
      ensures this.kernelName == kernelName && this.store == store && this.service == service
      ensures conversation.Some? ==> this.conversation == conversation.value
      ensures conversation.None? ==> (this.conversation.Simple? && fresh(this.conversation.simple.history)
        && this.conversation.History().messages == [])
    {
      this.kernelName := kernelName;
      this.store := store;
      this.service := service;
      if conversation.Some? {
        this.conversation := conversation.value;
      } else {
        var c := new SimpleConversation();
        this.conversation := Simple(c);
      }
    }

    /** The generator a token-limited conversation's summarizer finds once the turn's own call is made. */
    function SummarizerGenerator(afterCall: Option<Generator>, before: Option<Generator>): Option<Generator>
      requires conversation.Limited?
      reads this
    {
      if conversation.limited.service == service then afterCall else before
    }

    /**
     * SendMessageAsync. The user message is added first; an unknown kernel name then throws
     * KeyNotFoundException before the service is called. Otherwise the rest of the turn is Answer's.
     */
    method SendMessage(message: string) returns (r: Result<string>)
      modifies conversation.Repr(), service, store.InfoSet(kernelName)
      ensures var h1 := old(conversation.History().messages) + [ChatMessage(UserRole, message)];
        store.InfoOf(kernelName).None? ==>
          r == Failure(KeyNotFoundException(kernelName)) && conversation.History().messages == h1
          && service.generator == old(service.generator)
          && (conversation.Limited? ==> conversation.limited.service.generator == old(conversation.limited.service.generator))
      ensures var h1 := old(conversation.History().messages) + [ChatMessage(UserRole, message)];
        var call := Respond(old(service.generator), h1);
        store.InfoOf(kernelName).Some? ==> (
        && (call.1.Failure? ==>
              r == Failure(call.1.error) && conversation.History().messages == h1 && service.generator == call.0)
        && (call.1.Success? && |call.1.value| != 1 ==>
              r == Failure(Single(call.1.value).error) && conversation.History().messages == h1
              && service.generator == call.0)
        && (call.1.Success? && |call.1.value| == 1 && conversation.Simple? ==>
              r == Success(call.1.value[0].content)
              && conversation.History().messages == h1 + [ChatMessage(AssistantRole, call.1.value[0].content)]
              && service.generator == call.0)
        && (call.1.Success? && |call.1.value| == 1 && conversation.Limited? ==>
              var cr := conversation.limited.Compressed(h1 + [ChatMessage(AssistantRole, call.1.value[0].content)],
                          old(SummarizerGenerator(call.0, conversation.limited.service.generator)));
              conversation.History().messages == cr.0 && conversation.limited.service.generator == cr.1
              && r == (if cr.2.Failure? then Failure(cr.2.error) else Success(call.1.value[0].content))))
    {
      AddUserMessage(conversation, message);
      var kernel := store.GetKernel(kernelName);
      if kernel.Failure? {
        return Failure(kernel.error);
      }
      r := Answer();
    }

    /**
     * The turn once the user message is in and the kernel found. The service sees the whole
     * history; a failed call or a reply of other than one message leaves the history as it is. A
     * single reply is added as an assistant message (for a token-limited conversation this may
     * summarize the history) and its text is the answer.
     */
    method Answer() returns (r: Result<string>)
      modifies conversation.Repr(), service
      ensures var h1 := old(conversation.History().messages);
        var call := Respond(old(service.generator), h1);
        && (call.1.Failure? ==>
              r == Failure(call.1.error) && conversation.History().messages == h1 && service.generator == call.0)
        && (call.1.Success? && |call.1.value| != 1 ==>
              r == Failure(Single(call.1.value).error) && conversation.History().messages == h1
              && service.generator == call.0)
        && (call.1.Success? && |call.1.value| == 1 && conversation.Simple? ==>
              r == Success(call.1.value[0].content)
              && conversation.History().messages == h1 + [ChatMessage(AssistantRole, call.1.value[0].content)]
              && service.generator == call.0)
        && (call.1.Success? && |call.1.value| == 1 && conversation.Limited? ==>
              var cr := conversation.limited.Compressed(h1 + [ChatMessage(AssistantRole, call.1.value[0].content)],
                          old(SummarizerGenerator(call.0, conversation.limited.service.generator)));
              conversation.History().messages == cr.0 && conversation.limited.service.generator == cr.1
              && r == (if cr.2.Failure? then Failure(cr.2.error) else Success(call.1.value[0].content)))
    {
      ghost var gl := if conversation.Limited? then conversation.limited.service.generator else None;
      var chatHistory := GetChatHistory(conversation);
      var results := service.GetChatMessageContents(chatHistory.messages);
      assert conversation.Limited? ==>
        conversation.limited.service.generator == SummarizerGenerator(service.generator, gl);
      if results.Failure? {
        return Failure(results.error);
      }
      var result := Single(results.value);
      if result.Failure? {
        return Failure(result.error);
      }
      var added := AddAssistantObject(conversation, MessageObject(result.value));
      if added.Failure? {
        return Failure(added.error);
      }
      return Success(result.value.content);
    }
  }

  /** The entries of a two- or three-message transcript, line by line. */
  lemma TranscriptOfTwo(a: ChatMessage, b: ChatMessage)
    ensures Transcript([a, b]) == EntryText(a) + "\n" + EntryText(b)
  {
    TranscriptSnoc([], a);
    assert [a] + [b] == [a, b];
    TranscriptSnoc([a], b);
  }

  lemma TranscriptOfThree(a: ChatMessage, b: ChatMessage, c: ChatMessage)
    ensures Transcript([a, b, c]) == EntryText(a) + "\n" + EntryText(b) + "\n" + EntryText(c)
  {
    TranscriptOfTwo(a, b);
    assert [a, b] + [c] == [a, b, c];
    TranscriptSnoc([a, b], c);
  }

  /** The entry of a message by each role the tests use. */
  lemma RoleEntries(t: string)
    ensures EntryText(ChatMessage(UserRole, t)) == "user: " + t
    ensures EntryText(ChatMessage(AssistantRole, t)) == "assistant: " + t
    ensures EntryText(ChatMessage(SystemRole, t)) == "system: " + t
  {
  }

  /** The echo of a two- or three-message history, entry by entry. */
  lemma EchoOfTwo(x: ChatMessage, y: ChatMessage, text: string)
    ensures EchoText([x, y], text) == "Chat history:\n" + EntryText(x) + "\n" + EntryText(y) + "\n" + text
  {
    TranscriptOfTwo(x, y);
  }

  lemma EchoOfThree(x: ChatMessage, y: ChatMessage, z: ChatMessage, text: string)
    ensures EchoText([x, y, z], text)
      == "Chat history:\n" + EntryText(x) + "\n" + EntryText(y) + "\n" + EntryText(z) + "\n" + text
  {
    TranscriptOfThree(x, y, z);
  }

  lemma RegroupThree(head: string, a1: string, a2: string, b1: string, b2: string, c1: string, c2: string, t: string)
    ensures head + (a1 + a2) + "\n" + (b1 + b2) + "\n" + (c1 + c2) + "\n" + t
      == head + a1 + a2 + "\n" + b1 + b2 + "\n" + c1 + c2 + "\n" + t
  {
  }

  lemma Regroup(head: string, a1: string, a2: string, a3: string, a4: string, b1: string, b2: string, t: string)
    ensures head + (a1 + (a2 + a3 + a4)) + "\n" + (b1 + b2) + "\n" + t
      == head + a1 + a2 + a3 + a4 + "\n" + b1 + b2 + "\n" + t
  {
  }

  /** The echo the simple assistant's second turn receives. */
  lemma SimpleChatEcho()
    ensures EchoText([ChatMessage(UserRole, "Hi there!"), ChatMessage(AssistantRole, "Hello, I'm here to help!"),
                      ChatMessage(UserRole, "I need help!")], "I'm still here to help!")
      == "Chat history:\n" + "user: " + "Hi there!" + "\n" + "assistant: " + "Hello, I'm here to help!" + "\n"
        + "user: " + "I need help!" + "\n" + "I'm still here to help!"
  {
    var t1, t2, t3, t := "Hi there!", "Hello, I'm here to help!", "I need help!", "I'm still here to help!";
    EchoOfThree(ChatMessage(UserRole, t1), ChatMessage(AssistantRole, t2), ChatMessage(UserRole, t3), t);
    RoleEntries(t1);
    RoleEntries(t2);
    RoleEntries(t3);
    RegroupThree("Chat history:\n", "user: ", t1, "assistant: ", t2, "user: ", t3, t);
  }

  /** The echo the token-limited conversation's second turn receives once the history was summarized. */
  lemma SummarizedEcho()
    ensures EchoText([SummaryMessage("this is summary"), ChatMessage(UserRole, "Hi there this is the second question!")],
                     "this is third response")
      == "Chat history:\n" + "system: " + "Conversation so far:\n" + "this is summary" + "\n\n" + "\n"
        + "user: " + "Hi there this is the second question!" + "\n" + "this is third response"
  {
    var s, q, t := "this is summary", "Hi there this is the second question!", "this is third response";
    var m := SummaryMessage(s);
    assert m == ChatMessage(SystemRole, "Conversation so far:\n" + s + "\n\n");
    EchoOfTwo(m, ChatMessage(UserRole, q), t);
    RoleEntries("Conversation so far:\n" + s + "\n\n");
    RoleEntries(q);
    Regroup("Chat history:\n", "system: ", "Conversation so far:\n", s, "\n\n", "user: ", q, t);
  }

  /** The tests' kernel store: one kernel registered as "gpt4o". */
  method StoreWithKernel(model: ModelInformation) returns (store: KernelStore, ghost info: KernelInfo)
    ensures fresh(store) && fresh(info) && store.InfoOf("gpt4o") == Some(info) && store.InfoSet("gpt4o") == {info}
  {
    store := new KernelStore([], []);
    var builder := new KernelBuilder();
    var _ := store.AddKernel(Some("gpt4o"), builder, model, "default");
    info := store.InfoOf("gpt4o").value;
  }

  /**
   * The conversation test of the simple assistant: a replayed first answer, then an echo of the
   * whole history, which shows both turns were kept in order.
   */
  method SimpleChatScenario(model: ModelInformation) returns (first: Result<string>, second: Result<string>)
    ensures first == Success("Hello, I'm here to help!")
    ensures second == Success(
      "Chat history:\n" + "user: " + "Hi there!" + "\n" + "assistant: " + "Hello, I'm here to help!" + "\n"
      + "user: " + "I need help!" + "\n" + "I'm still here to help!")
  {
    var mock, assistant;
    mock, assistant, first := SimpleChatFirstTurn(model);
    var u1 := ChatMessage(UserRole, "Hi there!");
    var a1 := ChatMessage(AssistantRole, "Hello, I'm here to help!");
    var u2 := ChatMessage(UserRole, "I need help!");
    mock.SetChatMockedResponse("I'm still here to help!");
    second := assistant.SendMessage("I need help!");
    assert [u1, a1] + [u2] == [u1, a1, u2];
    SimpleChatEcho();
  }

  /** The first turn of the conversation test: the replayed answer, kept in the history after the question. */
  method SimpleChatFirstTurn(model: ModelInformation)
    returns (mock: MockChatCompletionService, assistant: SimpleChatAssistant, first: Result<string>)
    ensures fresh(mock) && assistant.service == mock && assistant.conversation.Simple?
    ensures fresh(assistant.conversation.simple.history)
    ensures assistant.kernelName == "gpt4o" && assistant.store.InfoOf("gpt4o").Some?
    ensures fresh(assistant.store.InfoSet("gpt4o"))
    ensures first == Success("Hello, I'm here to help!")
    ensures assistant.conversation.History().messages
      == [ChatMessage(UserRole, "Hi there!"), ChatMessage(AssistantRole, "Hello, I'm here to help!")]
  {
    mock := new MockChatCompletionService();
    mock.SetMockResponse(["Hello, I'm here to help!"]);
    var store, info := StoreWithKernel(model);
    assistant := new SimpleChatAssistant("gpt4o", store, mock, None);
    first := assistant.SendMessage("Hi there!");
  }

  /** Over the limit, a replaying service hands out its next answer as the summary. */
  lemma CompressedByReplay(c: TokenLimitedConversation, h: seq<ChatMessage>, responses: seq<string>, k: nat)
    requires c.OverLimit(h) && responses != []
    ensures c.Compressed(h, Some(Replay(responses, k)))
      == ([SummaryMessage(responses[Min(k, |responses| - 1)])], Some(Replay(responses, k + 1)), Success(()))
  {
    var call := Respond(Some(Replay(responses, k)), c.SummaryRequest(h));
    assert call == (Some(Replay(responses, k + 1)), Success([AssistantText(responses[Min(k, |responses| - 1)])]));
  }

  /** An echoing service never fails, so compression against it always succeeds. */
  lemma CompressedByEchoSucceeds(c: TokenLimitedConversation, h: seq<ChatMessage>, text: string)
    ensures c.Compressed(h, Some(Echo(text))).2.Success?
  {
    if c.OverLimit(h) {
      assert Respond(Some(Echo(text)), c.SummaryRequest(h)).1.Success?;
    }
  }

  /**
   * The arrangement of the summarization test: a replaying service, a store with the kernel
   * "gpt4o", a conversation limited to 10 tokens on that kernel and an assistant using both.
   */
  method TokenLimitedSetup(model: ModelInformation, responses: seq<string>, countTokens: string -> nat,
                           renderOther: Reply -> string)
    returns (mock: MockChatCompletionService, assistant: SimpleChatAssistant, conversation: TokenLimitedConversation)
    ensures fresh(mock) && fresh(conversation.history) && mock.generator == Some(Replay(responses, 0))
    ensures conversation.history.messages == [] && conversation.service == mock
    ensures conversation.countTokens == countTokens && conversation.maxTokens == 10
    ensures assistant.service == mock && assistant.conversation == Limited(conversation)
    ensures assistant.kernelName == "gpt4o" && assistant.store.InfoOf("gpt4o").Some?
    ensures fresh(assistant.store.InfoSet("gpt4o"))
  {
    mock := new MockChatCompletionService();
    mock.SetMockResponse(responses);
    var store, info := StoreWithKernel(model);
    var created := TokenLimitedConversation.Create(store, "gpt4o", mock, countTokens, Some(10), renderOther);
    conversation := created.value;
    assistant := new SimpleChatAssistant("gpt4o", store, mock, Some(Limited(conversation)));
  }

  /** The first turn of the summarization test: the replayed answer, then the second replayed answer as summary. */
  method TokenLimitedFirstTurn(model: ModelInformation, countTokens: string -> nat, renderOther: Reply -> string)
    returns (mock: MockChatCompletionService, assistant: SimpleChatAssistant, conversation: TokenLimitedConversation,
             first: Result<string>)
    ensures fresh(mock) && fresh(conversation.history) && assistant.service == mock
    ensures assistant.kernelName == "gpt4o" && assistant.store.InfoOf("gpt4o").Some?
    ensures fresh(assistant.store.InfoSet("gpt4o"))
    ensures assistant.conversation == Limited(conversation) && conversation.service == mock
    ensures first == Success("Here is a very long response that will consume tokens")
    ensures countTokens("Hi there!") + countTokens("Here is a very long response that will consume tokens") > 10 ==>
      conversation.history.messages == [SummaryMessage("this is summary")]
  {
    var responses := ["Here is a very long response that will consume tokens", "this is summary"];
    mock, assistant, conversation := TokenLimitedSetup(model, responses, countTokens, renderOther);
    first := ReplayedTurn(assistant, conversation, mock, "Hi there!", responses, 0);
    FirstTurnCompression(conversation);
    assert [] + [ChatMessage(UserRole, "Hi there!"), ChatMessage(AssistantRole, responses[0])]
      == [ChatMessage(UserRole, "Hi there!")] + [ChatMessage(AssistantRole, responses[0])];
  }

  /**
   * A turn of a token-limited conversation against a service replaying its k-th answer: the
   * question and that answer are added, then compressed with the service one answer further on,
   * and the answer is returned unless the compression fails.
   */
  method ReplayedTurn(assistant: SimpleChatAssistant, conversation: TokenLimitedConversation,
                      mock: MockChatCompletionService, question: string, responses: seq<string>, k: nat)
    returns (r: Result<string>)
    requires assistant.service == mock && assistant.conversation == Limited(conversation) && conversation.service == mock
    requires assistant.store.InfoOf(assistant.kernelName).Some?
    requires mock.generator == Some(Replay(responses, k)) && k < |responses|
    modifies mock, conversation.history, assistant.store.InfoSet(assistant.kernelName)
    ensures var h := old(conversation.history.messages) + [ChatMessage(UserRole, question), ChatMessage(AssistantRole, responses[k])];
      var cr := conversation.Compressed(h, Some(Replay(responses, k + 1)));
      conversation.history.messages == cr.0 && mock.generator == cr.1
      && r == (if cr.2.Failure? then Failure(cr.2.error) else Success(responses[k]))
  {
    ghost var h1 := conversation.history.messages + [ChatMessage(UserRole, question)];
    ghost var a := ChatMessage(AssistantRole, responses[k]);
    ghost var cr := conversation.Compressed(h1 + [a], Some(Replay(responses, k + 1)));
    assert assistant.conversation.History().messages == conversation.history.messages;
    assert Respond(Some(Replay(responses, k)), h1) == (Some(Replay(responses, k + 1)), Success([AssistantText(responses[k])]));
    assert h1 + [a] == conversation.history.messages + [ChatMessage(UserRole, question), a];
    assert assistant.SummarizerGenerator(Some(Replay(responses, k + 1)), mock.generator) == Some(Replay(responses, k + 1));
    r := assistant.SendMessage(question);
    assert conversation.history.messages == cr.0 && mock.generator == cr.1;
  }

  /**
   * What the first turn's compression does with the replaying service already past its first
   * answer: it succeeds, and when the two messages weigh more than the limit of 10 the second
   * answer becomes the summary.
   */
  lemma FirstTurnCompression(c: TokenLimitedConversation)
    requires c.maxTokens == 10
    ensures var responses := ["Here is a very long response that will consume tokens", "this is summary"];
      var u1 := ChatMessage(UserRole, "Hi there!");
      var cr := c.Compressed([u1] + [ChatMessage(AssistantRole, responses[0])], Some(Replay(responses, 1)));
      && cr.2.Success?
      && (c.countTokens("Hi there!") + c.countTokens(responses[0]) > 10 ==> cr.0 == [SummaryMessage("this is summary")])
  {
    var responses := ["Here is a very long response that will consume tokens", "this is summary"];
    var u1 := ChatMessage(UserRole, "Hi there!");
    var a1 := ChatMessage(AssistantRole, responses[0]);
    assert [u1] + [a1] == [u1, a1];
    TokenTotalAppend([], u1, c.countTokens);
    TokenTotalAppend([u1], a1, c.countTokens);
    if c.OverLimit([u1, a1]) {
      CompressedByReplay(c, [u1, a1], responses, 1);
    } else {
      CompressedWithinLimit(c, [u1, a1], Some(Replay(responses, 1)));
    }
  }

  /**
   * The summarization test of the token-limited conversation with a limit of 10 tokens. The first
   * answer is replayed; when the first two messages weigh more than the limit, the second replayed
   * answer becomes the summary, so the echo of the second turn shows only the summary message and
   * the new question.
   */
  method TokenLimitedScenario(model: ModelInformation, countTokens: string -> nat, renderOther: Reply -> string)
    returns (first: Result<string>, second: Result<string>)
    ensures first == Success("Here is a very long response that will consume tokens")
    ensures countTokens("Hi there!") + countTokens("Here is a very long response that will consume tokens") > 10 ==>
      second == Success(
        "Chat history:\n" + "system: " + "Conversation so far:\n" + "this is summary" + "\n\n" + "\n"
        + "user: " + "Hi there this is the second question!" + "\n" + "this is third response")
  {
    var mock, assistant, conversation;
    mock, assistant, conversation, first := TokenLimitedFirstTurn(model, countTokens, renderOther);
    ghost var afterFirst := conversation.history.messages;
    var u2 := ChatMessage(UserRole, "Hi there this is the second question!");
    second := EchoedTurn(assistant, conversation, mock, "Hi there this is the second question!", "this is third response");
    if countTokens("Hi there!") + countTokens("Here is a very long response that will consume tokens") > 10 {
      assert afterFirst + [u2] == [SummaryMessage("this is summary"), u2];
      SummarizedEcho();
    }
  }

  /**
   * A turn of a token-limited conversation against a service set to echo: the answer is the echo
   * of the history with the new question, whatever the compression that follows does.
   */
  method EchoedTurn(assistant: SimpleChatAssistant, conversation: TokenLimitedConversation,
                    mock: MockChatCompletionService, question: string, text: string)
    returns (r: Result<string>)
    requires assistant.service == mock && assistant.conversation == Limited(conversation) && conversation.service == mock
    requires assistant.store.InfoOf(assistant.kernelName).Some?
    modifies mock, conversation.history, assistant.store.InfoSet(assistant.kernelName)
    ensures r == Success(EchoText(old(conversation.history.messages) + [ChatMessage(UserRole, question)], text))
  {
    mock.SetChatMockedResponse(text);
    var u := ChatMessage(UserRole, question);
    ghost var h1 := conversation.history.messages + [u];
    var echo := EchoText(h1, text);
    assert Respond(Some(Echo(text)), h1) == (Some(Echo(text)), Success([AssistantText(echo)]));
    ghost var h2 := h1 + [ChatMessage(AssistantRole, echo)];
    CompressedByEchoSucceeds(conversation, h2, text);
    r := assistant.SendMessage(question);
  }
}
