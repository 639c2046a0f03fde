/**
 * The Semantic Kernel chat vocabulary the orchestration code handles: author roles, chat messages,
 * function-call items, usage metadata, and the mutable ChatHistory list.
 */
module Chat {
  import opened Wrappers
  import opened Text

  datatype Role = SystemRole | UserRole | AssistantRole | ToolRole

  /** AuthorRole.ToString(), the label interpolated into prompts and mock replies. */
  function RoleLabel(r: Role): string
  {
    match r
    case SystemRole => "system"
    case UserRole => "user"
    case AssistantRole => "assistant"
    case ToolRole => "tool"
  }

  /** One entry of a ChatHistory: its author and its text content. */
  datatype ChatMessage = ChatMessage(role: Role, content: string)

  /** Function arguments: names with the ToString() of each value, in dictionary order. */
  type Arguments = seq<(string, string)>

  /** A FunctionCallContent item: the function the model asks to call and its arguments. */
  datatype FunctionCall = FunctionCall(functionName: string, arguments: Arguments)

  /** The ChatTokenUsage metadata an OpenAI reply carries. */
  datatype Usage = Usage(totalTokens: int, inputTokens: int, outputTokens: int)

  /**
   * What an OpenAIChatMessageContent adds to a plain message: the "Usage" metadata entry, if present,
   * and the Model of the inner ChatCompletion, if the inner content is one (a null model reads as "").
   */
  datatype OpenAIDetails = OpenAIDetails(usage: Option<Usage>, innerModel: Option<string>)

  /**
   * A ChatMessageContent returned by a completion service: its role, its text, its function-call
   * items in order, and the OpenAI details when it is an OpenAIChatMessageContent.
   */
  datatype ChatMessageContent = ChatMessageContent(
    role: Role, content: string, calls: seq<FunctionCall>, openAI: Option<OpenAIDetails>)

  /** A plain assistant message holding only text. */
  function AssistantText(text: string): (m: ChatMessageContent)
    ensures m.role == AssistantRole && m.content == text && m.calls == [] && m.openAI.None?
  {
    ChatMessageContent(AssistantRole, text, [], None)
  }

  /** One history entry as it is rendered into a transcript: "role: content". */
  function EntryText(m: ChatMessage): string
  {
    RoleLabel(m.role) + ": " + m.content
  }

  function EntryTexts(history: seq<ChatMessage>): (r: seq<string>)
    ensures |r| == |history| && forall i :: 0 <= i < |history| ==> r[i] == EntryText(history[i])
  {
    seq(|history|, i requires 0 <= i < |history| => EntryText(history[i]))
  }

  /** A history rendered one "role: content" entry per line, joined with "\n". */
  function Transcript(history: seq<ChatMessage>): string
  {
    Join("\n", EntryTexts(history))
  }

  /** Formatting grows entry by entry: one more message adds a newline (unless it is the first) and its entry. */
  lemma TranscriptSnoc(history: seq<ChatMessage>, m: ChatMessage)
    ensures Transcript(history + [m]) ==
      (if history == [] then "" else Transcript(history) + "\n") + EntryText(m)
  {
    var parts := EntryTexts(history + [m]);
    assert parts[..|parts| - 1] == EntryTexts(history);
  }

  /** With no newline inside any entry, the formatted history has exactly one line per message. */
  lemma {:induction false} TranscriptLines(history: seq<ChatMessage>)
    requires history != []
    requires forall i :: 0 <= i < |history| ==> '\n' !in EntryText(history[i])
    ensures CountChar('\n', Transcript(history)) == |history| - 1
  {
    var init := history[..|history| - 1];
    var last := history[|history| - 1];
    assert history == init + [last];
    TranscriptSnoc(init, last);
    NoNewLineCount(EntryText(last));
    if init == [] {
      assert Transcript(history) == EntryText(last);
    } else {
      TranscriptLines(init);
      CountCharAppend('\n', Transcript(init) + "\n", EntryText(last));
      CountCharAppend('\n', Transcript(init), "\n");
    }
  }

  /** The ChatHistory object: a list of messages that its owners append to and clear in place. */
  class ChatHistory {
    var messages: seq<ChatMessage>

    constructor ()
      ensures messages == []
    {
      messages := [];
    }

    method AddUserMessage(text: string)
      modifies this
      ensures messages == old(messages) + [ChatMessage(UserRole, text)]
    {
      messages := messages + [ChatMessage(UserRole, text)];
    }

    method AddAssistantMessage(text: string)
      modifies this
      ensures messages == old(messages) + [ChatMessage(AssistantRole, text)]
    {
      messages := messages + [ChatMessage(AssistantRole, text)];
    }

    method AddSystemMessage(text: string)
      modifies this
      ensures messages == old(messages) + [ChatMessage(SystemRole, text)]
    {
      messages := messages + [ChatMessage(SystemRole, text)];
    }

    method Clear()
      modifies this
      ensures messages == []
    {
      messages := [];
    }
  }
}
