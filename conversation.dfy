/**
 * Conversations: the chat history an assistant keeps between turns. BaseConversation routes an
 * assistant reply of any type to one of two hooks; SimpleConversation only appends, and
 * TokenLimitedConversation also replaces the whole history by a one-message summary, asked of the
 * kernel's chat completion service, whenever an assistant turn brings the token count over its limit.
 */
module Conversations {
  import opened Wrappers
  import opened Chat
  import opened MockChat
  import opened Kernels

  /** The Value a FunctionResult holds: nothing, an OpenAIChatMessageContent, or an object of another type. */
  datatype FunctionValue = NullValue | OpenAIMessageValue(message: ChatMessageContent) | OtherValue(typeName: string)

  /**
   * The run-time type of the object handed to AddAssistantMessageAsync(object): a FunctionResult,
   * a ChatMessageContent (an OpenAIChatMessageContent when its openAI details are present),
   * a string, or anything else.
   */
  datatype AssistantObject =
    | FunctionResultObject(value: FunctionValue)
    | MessageObject(message: ChatMessageContent)
    | StringObject(text: string)
    | OtherObject(typeName: string)

  /** The hook a reply is routed to: OnAddOpenaiResponseAsync (with a possibly null message) or OnAddAssistantMessageAsync. */
  datatype Delegated = OpenaiResponse(response: Option<ChatMessageContent>) | AssistantMessage(text: string)

  /**
   * FunctionResult.GetValue<OpenAIChatMessageContent>(): null for a null value, the message when
   * the value is one, InvalidCastException otherwise.
   */
  function GetOpenAIValue(v: FunctionValue): (r: Result<Option<ChatMessageContent>>)
    ensures r.Failure? <==> v.OtherValue?
    ensures r.Failure? ==> r.error == InvalidCastException
    ensures r.Success? && r.value.Some? <==> v.OpenAIMessageValue?
    ensures v.OpenAIMessageValue? ==> r.value.value == v.message
  {
    match v
    case NullValue => Success(None)
    case OpenAIMessageValue(m) => Success(Some(m))
    case OtherValue(_) => Failure(InvalidCastException)
  }

  /**
   * The type tests of AddAssistantMessageAsync(object), in order: FunctionResult, then
   * OpenAIChatMessageContent, then string, then ChatMessageContent; any other type is an
   * ArgumentException. Every routed ChatMessageContent, OpenAI or not, delivers its text.
   */
  function Route(obj: AssistantObject): (r: Result<Delegated>)
    ensures r.Failure? <==> obj.OtherObject? || (obj.FunctionResultObject? && obj.value.OtherValue?)
    ensures obj.OtherObject? ==> r == Failure(ArgumentException("Invalid object type for assistant message"))
    ensures obj.StringObject? ==> r == Success(AssistantMessage(obj.text))
    ensures obj.MessageObject? ==> r.Success? && DeliveredText(r.value) == Some(obj.message.content)
    ensures obj.FunctionResultObject? && obj.value.NullValue? ==> r == Success(OpenaiResponse(None))
  {
    match obj
    case FunctionResultObject(v) =>
      var m := GetOpenAIValue(v);
      if m.Failure? then Failure(m.error) else Success(OpenaiResponse(m.value))
    case MessageObject(m) =>
      if m.openAI.Some? then Success(OpenaiResponse(Some(m))) else Success(AssistantMessage(m.content))
    case StringObject(s) => Success(AssistantMessage(s))
    case OtherObject(_) => Failure(ArgumentException("Invalid object type for assistant message"))
  }

  /** The text a routed reply appends to the history, None when the hook dereferences a null message. */
  function DeliveredText(d: Delegated): Option<string>
  {
    match d
    case OpenaiResponse(m) => if m.Some? then Some(m.value.content) else None
    case AssistantMessage(t) => Some(t)
  }

  /** The sum of the tokens of every message content of a history. */
  function TokenTotal(history: seq<ChatMessage>, countTokens: string -> nat): nat
  {
    if history == [] then 0
    else TokenTotal(history[..|history| - 1], countTokens) + countTokens(history[|history| - 1].content)
  }

  lemma TokenTotalAppend(history: seq<ChatMessage>, m: ChatMessage, countTokens: string -> nat)
    ensures TokenTotal(history + [m], countTokens) == TokenTotal(history, countTokens) + countTokens(m.content)
  {
    assert (history + [m])[..|history|] == history;
  }

  /** No single message weighs more than the whole history, so one over-long message alone forces a summary. */
  lemma {:induction false} TokenTotalBoundsEach(history: seq<ChatMessage>, countTokens: string -> nat, i: int)
    requires 0 <= i < |history|
    ensures countTokens(history[i].content) <= TokenTotal(history, countTokens)
  {
    if i < |history| - 1 {
      var init := history[..|history| - 1];
      TokenTotalBoundsEach(init, countTokens, i);
      assert init[i] == history[i];
    }
  }

  /** The fixed text of the summarizer prompt, before its {{$input}} placeholder. */
  const SummarizerInstruction: string :=
    "Summarize this conversation between a user and an assistant while keeping the most important points: "

  /** The prompt of the summarizer function with the conversation text in place of {{$input}}. */
  function SummaryPrompt(conversationText: string): string
  {
    SummarizerInstruction + conversationText
  }

  /** The system message that replaces a summarized history. */
  function SummaryMessage(summary: string): (m: ChatMessage)
    ensures m.role == SystemRole && |m.content| == |summary| + 23
    ensures m.content[..21] == "Conversation so far:\n" && m.content[|m.content| - 2..] == "\n\n"
    ensures m.content[21..|m.content| - 2] == summary
  {
    ChatMessage(SystemRole, "Conversation so far:\n" + summary + "\n\n")
  }

  /**
   * The ToString() of the summarizer's FunctionResult: the content of its single message; a reply
   * of any other length is rendered by `renderOther`.
   */
  function SummaryText(reply: Reply, renderOther: Reply -> string): string
  {
    if |reply| == 1 then reply[0].content else renderOther(reply)
  }

  /** SimpleConversation: every hook appends to its own ChatHistory. */
  class SimpleConversation {
    const history: ChatHistory

    constructor ()
      ensures fresh(history) && history.messages == []
    {
      history := new ChatHistory();
    }

    /** OnAddOpenaiResponseAsync: the message's content is added as an assistant message; a null message throws. */
    method OnAddOpenaiResponse(response: Option<ChatMessageContent>) returns (r: Result<()>)
      modifies history
      ensures response.None? ==> r == Failure(NullReferenceException) && history.messages == old(history.messages)
      ensures response.Some? ==> (r == Success(())
        && history.messages == old(history.messages) + [ChatMessage(AssistantRole, response.value.content)])
    {
      if response.None? {
        return Failure(NullReferenceException);
      }
      OnAddAssistantMessage(response.value.content);
      return Success(());
    }

    method OnAddAssistantMessage(message: string)
      modifies history
      ensures history.messages == old(history.messages) + [ChatMessage(AssistantRole, message)]
    {
      history.AddAssistantMessage(message);
    }

    method OnAddUserMessage(message: string)
      modifies history
      ensures history.messages == old(history.messages) + [ChatMessage(UserRole, message)]
    {
      history.AddUserMessage(message);
    }

    /** The history itself, not a copy: later turns see what the caller adds to it. */
    method OnGetChatHistory() returns (h: ChatHistory)
      ensures h == history
    {
      h := history;
    }
  }

  /**
   * TokenLimitedConversation. Of the kernel it looks up, it keeps the chat completion service the
   * summarizer calls; of the tokenizer, its name and its CountTokens.
   */
  class TokenLimitedConversation {
    const history: ChatHistory
    const service: MockChatCompletionService
    const tokenizer: string
    const countTokens: string -> nat
    const maxTokens: int
    const renderOther: Reply -> string

    /** The source's default limit when none is given. */
    static const DefaultMaxTokens := 2000

    constructor (service: MockChatCompletionService, tokenizer: string, countTokens: string -> nat, maxTokens: int,
                 renderOther: Reply -> string)
      ensures fresh(history) && history.messages == []
      ensures this.service == service && this.tokenizer == tokenizer && this.countTokens == countTokens
      ensures this.maxTokens == maxTokens && this.renderOther == renderOther
    {
      this.history := new ChatHistory();
      this.service := service;
      this.tokenizer := tokenizer;
      this.countTokens := countTokens;
      this.maxTokens := maxTokens;
      this.renderOther := renderOther;
    }

    /**
     * The public constructor: the kernel, then its tokenizer, are looked up by name in the store,
     * so an unknown name throws KeyNotFoundException and no conversation is made; a known one has
     * its kernel built if it was not yet. The service that kernel resolves and the count of its
     * tokenizer are given with the call. A limit left out is the default one.
     */
    static method Create(store: KernelStore, kernelName: string, service: MockChatCompletionService,
                         countTokens: string -> nat, maxTokens: Option<int>, renderOther: Reply -> string)
      returns (r: Result<TokenLimitedConversation>)
      modifies store.InfoSet(kernelName)
      ensures store.InfoOf(kernelName).None? ==> r == Failure(KeyNotFoundException(kernelName))
      ensures store.InfoOf(kernelName).Some? ==> (
        && r.Success? && fresh(r.value.history) && r.value.history.messages == []
        && r.value.service == service && r.value.tokenizer == store.InfoOf(kernelName).value.modelInformation.tokenizer
        && r.value.countTokens == countTokens && r.value.renderOther == renderOther
        && r.value.maxTokens == (if maxTokens.Some? then maxTokens.value else DefaultMaxTokens)
        && store.InfoOf(kernelName).value.kernel != null)
    {
      var kernel := store.GetKernel(kernelName);
      if kernel.Failure? {
        return Failure(kernel.error);
      }
      var tokenizer := store.GetKernelTokenizer(kernelName);
      assert tokenizer == Success(store.InfoOf(kernelName).value.modelInformation.tokenizer);
      var limit := if maxTokens.Some? then maxTokens.value else DefaultMaxTokens;
      var c := new TokenLimitedConversation(service, tokenizer.value, countTokens, limit, renderOther);
      return Success(c);
    }

    /** A non-empty history whose tokens exceed the limit (the limit itself is still allowed). */
    predicate OverLimit(h: seq<ChatMessage>)
    {
      h != [] && TokenTotal(h, countTokens) > maxTokens
    }

    /** The one-message chat history the summarizer function sends to the service. */
    function SummaryRequest(h: seq<ChatMessage>): seq<ChatMessage>
    {
      [ChatMessage(UserRole, SummaryPrompt(Transcript(h)))]
    }

    /**
     * CompressHistoryIfNeededAsync as a function of the history and of the service's generator:
     * the history, generator and outcome afterwards. Within the limit nothing happens and the
     * service is not called; over it, the service answers one summary request and the history
     * becomes the single summary message, or stays as it was when the service fails.
     */
    function Compressed(h: seq<ChatMessage>, g: Option<Generator>): (r: (seq<ChatMessage>, Option<Generator>, Result<()>))
    {
      if !OverLimit(h) then (h, g, Success(()))
      else
        var call := Respond(g, SummaryRequest(h));
        if call.1.Failure? then (h, call.0, Failure(call.1.error))
        else ([SummaryMessage(SummaryText(call.1.value, renderOther))], call.0, Success(()))
    }

    method CompressHistoryIfNeeded() returns (r: Result<()>)
      modifies history, service
      ensures (history.messages, service.generator, r) == Compressed(old(history.messages), old(service.generator))
      ensures service.streamingGenerator == old(service.streamingGenerator)
    {
      if |history.messages| == 0 {
        return Success(());
      }
      var tokenCount := TokenTotal(history.messages, countTokens);
      if tokenCount > maxTokens {
        ghost var h := history.messages;
        var conversationText := Transcript(history.messages);
        var summary := service.GetChatMessageContents([ChatMessage(UserRole, SummaryPrompt(conversationText))]);
        assert (service.generator, summary) == Respond(old(service.generator), SummaryRequest(h));
        if summary.Failure? {
          return Failure(summary.error);
        }
        history.Clear();
        history.AddSystemMessage("Conversation so far:\n" + SummaryText(summary.value, renderOther) + "\n\n");
        assert history.messages == [SummaryMessage(SummaryText(summary.value, renderOther))];
      }
      return Success(());
    }

    /** OnAddOpenaiResponseAsync: append the content, then compress; a null message throws before anything changes. */
    method OnAddOpenaiResponse(response: Option<ChatMessageContent>) returns (r: Result<()>)
      modifies history, service
      ensures service.streamingGenerator == old(service.streamingGenerator)
      ensures response.None? ==> (r == Failure(NullReferenceException)
        && history.messages == old(history.messages) && service.generator == old(service.generator))
      ensures response.Some? ==> ((history.messages, service.generator, r)
        == Compressed(old(history.messages) + [ChatMessage(AssistantRole, response.value.content)], old(service.generator)))
    {
      if response.None? {
        return Failure(NullReferenceException);
      }
      r := OnAddAssistantMessage(response.value.content);
    }

    /** OnAddAssistantMessageAsync: append, then compress. */
    method OnAddAssistantMessage(message: string) returns (r: Result<()>)
      modifies history, service
      ensures service.streamingGenerator == old(service.streamingGenerator)
      ensures (history.messages, service.generator, r)
        == Compressed(old(history.messages) + [ChatMessage(AssistantRole, message)], old(service.generator))
    {
      history.AddAssistantMessage(message);
      r := CompressHistoryIfNeeded();
    }

    /** OnAddUserMessageAsync: append only; a user turn never compresses. */
    method OnAddUserMessage(message: string)
      modifies history
      ensures history.messages == old(history.messages) + [ChatMessage(UserRole, message)]
    {
      history.AddUserMessage(message);
    }

    method OnGetChatHistory() returns (h: ChatHistory)
      ensures h == history
    {
      h := history;
    }
  }

  /** Within the limit, compression changes nothing and the summarizer's service is not called. */
  lemma CompressedWithinLimit(c: TokenLimitedConversation, h: seq<ChatMessage>, g: Option<Generator>)
    requires !c.OverLimit(h)
    ensures c.Compressed(h, g) == (h, g, Success(()))
  {
  }

  /** A failed summary call leaves the history as it was, and the failure is the service's. */
  lemma CompressedFailureKeepsHistory(c: TokenLimitedConversation, h: seq<ChatMessage>, g: Option<Generator>)
    ensures var r := c.Compressed(h, g);
      r.2.Failure? ==> r.0 == h && c.OverLimit(h) && Respond(g, c.SummaryRequest(h)).1 == Failure(r.2.error)
  {
    if c.OverLimit(h) {
      var call := Respond(g, c.SummaryRequest(h));
      if call.1.Failure? {
        assert c.Compressed(h, g) == (h, call.0, Failure(call.1.error));
      }
    }
  }

  /**
   * Once an assistant turn has been absorbed, a token-limited history is either within its limit or
   * the single summary message, whatever the summarizer answered.
   */
  lemma AssistantTurnBounded(c: TokenLimitedConversation, h: seq<ChatMessage>, g: Option<Generator>, text: string)
    ensures var r := c.Compressed(h + [ChatMessage(AssistantRole, text)], g);
      r.2.Success? ==> TokenTotal(r.0, c.countTokens) <= c.maxTokens || (|r.0| == 1 && r.0[0].role == SystemRole)
  {
    var h' := h + [ChatMessage(AssistantRole, text)];
    if c.OverLimit(h') {
      var call := Respond(g, c.SummaryRequest(h'));
      if call.1.Success? {
        assert c.Compressed(h', g) == ([SummaryMessage(SummaryText(call.1.value, c.renderOther))], call.0, Success(()));
      }
    }
  }

  /** The transcript of a summarized history, as the next turn's service sees it. */
  lemma SummaryTranscript(summary: string)
    ensures Transcript([SummaryMessage(summary)]) == "system: " + "Conversation so far:\n" + summary + "\n\n"
  {
    var m := SummaryMessage(summary);
    assert EntryTexts([m]) == [EntryText(m)];
  }

  /** An assistant text that alone exceeds the limit always sends the history to the summarizer. */
  lemma LongReplyForcesSummary(c: TokenLimitedConversation, h: seq<ChatMessage>, text: string)
    requires c.countTokens(text) > c.maxTokens
    ensures c.OverLimit(h + [ChatMessage(AssistantRole, text)])
  {
    var h' := h + [ChatMessage(AssistantRole, text)];
    TokenTotalBoundsEach(h', c.countTokens, |h|);
  }

  /** An IConversation: one of the two implementations of BaseConversation's hooks. */
  datatype Conversation = Simple(simple: SimpleConversation) | Limited(limited: TokenLimitedConversation)
  {
    function History(): ChatHistory
    {
      match this
      case Simple(c) => c.history
      case Limited(c) => c.history
    }

    /** The objects a turn may change: the history, and for a token-limited one the summarizer's service. */
    function Repr(): set<object>
    {
      match this
      case Simple(c) => {c.history}
      case Limited(c) => {c.history, c.service}
    }
  }

  /** AddUserMessageAsync: every conversation appends the user message. */
  method AddUserMessage(c: Conversation, message: string)
    modifies c.Repr()
    ensures c.History().messages == old(c.History().messages) + [ChatMessage(UserRole, message)]
    ensures c.Limited? ==> c.limited.service.generator == old(c.limited.service.generator)
  {
    match c
    case Simple(s) => s.OnAddUserMessage(message);
    case Limited(l) => l.OnAddUserMessage(message);
  }

  /** The effect of OnAddOpenaiResponseAsync and OnAddAssistantMessageAsync, as one delegated call. */
  method Deliver(c: Conversation, d: Delegated) returns (r: Result<()>)
    modifies c.Repr()
    ensures DeliveredText(d).None? ==> (r == Failure(NullReferenceException)
      && c.History().messages == old(c.History().messages)
      && (c.Limited? ==> c.limited.service.generator == old(c.limited.service.generator)))
    ensures DeliveredText(d).Some? && c.Simple? ==> (r == Success(())
      && c.History().messages == old(c.History().messages) + [ChatMessage(AssistantRole, DeliveredText(d).value)])
    ensures DeliveredText(d).Some? && c.Limited? ==> ((c.History().messages, c.limited.service.generator, r)
      == c.limited.Compressed(old(c.History().messages) + [ChatMessage(AssistantRole, DeliveredText(d).value)],
                              old(c.limited.service.generator)))
  {
    match c
    case Simple(s) =>
      match d {
        case OpenaiResponse(m) => r := s.OnAddOpenaiResponse(m);
        case AssistantMessage(t) => s.OnAddAssistantMessage(t); r := Success(());
      }
    case Limited(l) =>
      match d {
        case OpenaiResponse(m) => r := l.OnAddOpenaiResponse(m);
        case AssistantMessage(t) => r := l.OnAddAssistantMessage(t);
      }
  }

  /** AddAssistantMessageAsync(string). */
  method AddAssistantMessage(c: Conversation, message: string) returns (r: Result<()>)
    modifies c.Repr()
    ensures c.Simple? ==> (r == Success(())
      && c.History().messages == old(c.History().messages) + [ChatMessage(AssistantRole, message)])
    ensures c.Limited? ==> ((c.History().messages, c.limited.service.generator, r)
      == c.limited.Compressed(old(c.History().messages) + [ChatMessage(AssistantRole, message)], old(c.limited.service.generator)))
  {
    r := Deliver(c, AssistantMessage(message));
  }

  /** AddAssistantMessageAsync(FunctionResult): the value is read as an OpenAI message and handed to the hook. */
  method AddAssistantFunctionResult(c: Conversation, value: FunctionValue) returns (r: Result<()>)
    modifies c.Repr()
    ensures !value.OpenAIMessageValue? ==> (c.History().messages == old(c.History().messages)
      && (c.Limited? ==> c.limited.service.generator == old(c.limited.service.generator)))
    ensures value.OtherValue? ==> r == Failure(InvalidCastException)
    ensures value.NullValue? ==> r == Failure(NullReferenceException)
    ensures value.OpenAIMessageValue? && c.Simple? ==> (r == Success(())
      && c.History().messages == old(c.History().messages) + [ChatMessage(AssistantRole, value.message.content)])
    ensures value.OpenAIMessageValue? && c.Limited? ==> ((c.History().messages, c.limited.service.generator, r)
      == c.limited.Compressed(old(c.History().messages) + [ChatMessage(AssistantRole, value.message.content)],
                              old(c.limited.service.generator)))
  {
    var m := GetOpenAIValue(value);
    if m.Failure? {
      return Failure(m.error);
    }
    r := Deliver(c, OpenaiResponse(m.value));
  }

  /**
   * AddAssistantMessageAsync(object): routed by type. Whatever the object, the history changes
   * exactly as AddAssistantMessageAsync(string) would with the text it delivers, and an object that
   * delivers no text leaves the history as it was.
   */
  method AddAssistantObject(c: Conversation, obj: AssistantObject) returns (r: Result<()>)
    modifies c.Repr()
    ensures Route(obj).Failure? ==> (r == Failure(Route(obj).error) && c.History().messages == old(c.History().messages)
      && (c.Limited? ==> c.limited.service.generator == old(c.limited.service.generator)))
    ensures Route(obj).Success? && DeliveredText(Route(obj).value).None? ==> (r == Failure(NullReferenceException)
      && c.History().messages == old(c.History().messages))
    ensures Route(obj).Success? && DeliveredText(Route(obj).value).Some? && c.Simple? ==> (r == Success(())
      && c.History().messages
         == old(c.History().messages) + [ChatMessage(AssistantRole, DeliveredText(Route(obj).value).value)])
    ensures Route(obj).Success? && DeliveredText(Route(obj).value).Some? && c.Limited? ==> (
      (c.History().messages, c.limited.service.generator, r)
      == c.limited.Compressed(old(c.History().messages) + [ChatMessage(AssistantRole, DeliveredText(Route(obj).value).value)],
                              old(c.limited.service.generator)))
  {
    var d := Route(obj);
    if d.Failure? {
      return Failure(d.error);
    }
    r := Deliver(c, d.value);
  }

  /** GetChatHistoryAsync: the conversation's own history object. */
  method GetChatHistory(c: Conversation) returns (h: ChatHistory)
    ensures h == c.History()
  {
    match c
    case Simple(s) => h := s.OnGetChatHistory();
    case Limited(l) => h := l.OnGetChatHistory();
  }
}
