# SemanticKernel.Orchestration in Dafny

A verified model of the orchestration core of SemanticKernel.Orchestration, a C# library that builds
multi-agent assistants on top of Microsoft Semantic Kernel. The model covers:

- **Assistants** (`Assistants`, `AssistantResponses`). `BaseAssistant` holds a registry of
  callable functions. Names compare ignoring case, and registering a name again overwrites the old
  entry. Each function has a delegate, a final flag and an optional eligibility predicate. The
  assistant also keeps a property store and a link to its orchestrator. `AssistantResponse` and
  `AgentOperationResult` are what the functions return to the dispatch loop.
- **The SQL Server agents**. This is the composite `SqlServerAssistant` in its two versions,
  SampleAgents and Demo2 (`SqlServerOrchestration`). Its `ExcuteDatabaseOperation` loop repeats
  these steps until a call is final or ends the cycle:
  - offer the eligible functions of the sub-assistants to a language model;
  - route the calls the model makes to the sub-assistant that owns each function.

  The agents' other parts:
  - the shared state, its fact texts, and the schema assistant with its database-list and schema
    caches (`SqlSchemaAgent`);
  - the grouping of catalogue rows into tables, and the schema text (`SqlSchema`);
  - the Demo2 query executor, which rewrites a request as SQL and renders the result as a
    Markdown table (`SqlQueryExecutor`).
- **SQL utilities**:
  - the fluent `SqlQuery` builder, with its text operations, parameter setters and two reader
    loops (`SqlQueries`);
  - `DataAccess`, which covers the command dumper, declaration type names, the `ConnectionData`
    transaction bookkeeping and `Execute`.
- **The interception layer** (`Interception`, `CallLimiter`, `TokenUsage`, `Kernels`):
  - the chat-completion interceptor, which consults wrappers first, then calls the inner service
    once and notifies the interceptors;
  - the per-scope `InterceptorContainer`;
  - the call limiter;
  - the per-model token counter;
  - the `KernelStore` registry, which has lazily built kernels and an ambient container.
- **Conversations** (`Conversations`, `ChatAssistants`, `MockChat`):
  - the append-only and the token-limited chat histories; the token-limited one replaces the
    history by a one-message summary once it grows over its limit;
  - the one-turn `SimpleChatAssistant`;
  - the `MockChatCompletionService` the tests run against, with the test scenarios built on it.
- **Small pieces**: the `WorkflowBuilderPlugin`, which collects blocks and dumps a Mermaid
  flowchart (`WorkflowBuilder`), and `DisposableAction` (`DisposableActions`).

Some modules are shared helpers:
- `Wrappers` holds Option, Result and the .NET exceptions.
- `Text` holds the string helpers.
- `OrderedDict` models a .NET `Dictionary<string, V>`. Its entries enumerate in insertion order,
  and it compares keys either ordinally or ignoring the case of ASCII letters, as
  `OrdinalIgnoreCase` does for those letters.

Objects whose fields the C# code updates are Dafny classes whose methods state their whole new
state. Loops that build strings or lists are methods, proved against specification functions,
and the lemmas about those functions state what the code promises.

Calls to code outside the model become parameters. This covers:
- language models, SQL execution, tokenizers and `DateTime.TryParse`;
- the user's database choice;
- the delegates registered with assistants.

The dispatch loops run over an abstract world state `S`. Whatever the delegates read and change
lives in that state.

## Model

| member | source | states |
|---|---|---|
| AssistantResponses.FromString | src/SemanticKernel.Orchestration/Assistants/AgentOperationResult.cs:23-25 | a response made from a bare string carries that string as its result, no state, and does not end the cycle |
| AssistantResponses.ToPromptStringFrames | src/SemanticKernel.Orchestration/Assistants/AgentOperationResult.cs:12 | the prompt string starts with "Tool called: <name> with parameters " and ends with the function's result, whatever the arguments |
| AssistantResponses.ToPromptStringArguments | src/SemanticKernel.Orchestration/Assistants/AgentOperationResult.cs:12 | with no argument the parameter list is empty; with one it is that pair written "[key, value]" |
| Assistants.RegisterWellFormed | src/SemanticKernel.Orchestration/Assistants/BaseAssistant.cs:66-74 | registering a function keeps one entry per name (names compared ignoring case) |
| Assistants.RegisterThenLookup | src/SemanticKernel.Orchestration/Assistants/BaseAssistant.cs:66-74 | after registering a name, looking it up in any letter case finds the new registration, with the always-true predicate when none was given: the last registration wins |
| Assistants.RegisterKeepsOthers | src/SemanticKernel.Orchestration/Assistants/BaseAssistant.cs:66-74 | registering a name leaves every other name's function as it was |
| Assistants.ExecuteAfterRegister | src/SemanticKernel.Orchestration/Assistants/BaseAssistant.cs:99-109 | executing a just-registered name, in any case, runs the delegate registered last |
| Assistants.ExecuteUnknown | src/SemanticKernel.Orchestration/Assistants/BaseAssistant.cs:101-104 | an unregistered name throws ArgumentException "Function <name> not found" |
| Assistants.EligibleFunctionsExactly | src/SemanticKernel.Orchestration/Assistants/BaseAssistant.cs:86-97 | a function is offered iff it is registered and its predicate holds, and no more functions are offered than are registered |
| Assistants.UnguardedAlwaysOffered | src/SemanticKernel.Orchestration/Assistants/BaseAssistant.cs:86-97 | a function registered without a predicate is offered whatever the state |
| Assistants.Assistant.constructor | src/SemanticKernel.Orchestration/Assistants/BaseAssistant.cs:46-49 | a new assistant has its name, no functions, no properties and no orchestrator |
| Assistants.Assistant.SetOrchestrator | src/SemanticKernel.Orchestration/Assistants/BaseAssistant.cs:59-62 | stores the orchestrator and changes nothing else |
| Assistants.Assistant.RegisterFunctionDelegate | src/SemanticKernel.Orchestration/Assistants/BaseAssistant.cs:66-74 | the registry afterwards is the old one with the name (re)bound, and stays well formed |
| Assistants.Assistant.GetFunctions | src/SemanticKernel.Orchestration/Assistants/BaseAssistant.cs:86-97 | returns, in registry order, exactly the registered functions whose predicate holds now |
| Assistants.Assistant.ExecuteFunction | src/SemanticKernel.Orchestration/Assistants/BaseAssistant.cs:99-109 | an unknown name throws ArgumentException; a known one (any case) runs its stored delegate |
| Assistants.Assistant.GetAssistantProperty | src/SemanticKernel.Orchestration/Assistants/BaseAssistant.cs:116-124 | succeeds iff the property is stored (any case) and returns its value; otherwise ArgumentException "Property <name> not found" |
| Assistants.Assistant.GetProperty | src/SemanticKernel.Orchestration/Assistants/BaseAssistant.cs:141-144 | null exactly when GetAssistantProperty would throw, and the same value otherwise |
| Assistants.Assistant.SetLocalProperty | src/SemanticKernel.Orchestration/Assistants/BaseAssistant.cs:126-129 | afterwards every name equal to the key ignoring case reads the new value and every other name reads what it read before |
| Assistants.Assistant.AddProperty | src/SemanticKernel.Orchestration/Assistants/BaseAssistant.cs:136-139 | the same update as SetLocalProperty |
| Assistants.Assistant.SetGlobalProperty | src/SemanticKernel.Orchestration/Assistants/BaseAssistant.cs:131-134 | throws NullReferenceException iff no orchestrator is set; otherwise the orchestrator's property store receives the value |
| Assistants.Assistant.AddResultToPrompt | src/SemanticKernel.Orchestration/Assistants/BaseAssistant.cs:76-79 | appends exactly one assistant message holding the response's Result |
| Assistants.Assistant.GetFact | src/SemanticKernel.Orchestration/Assistants/BaseAssistant.cs:81-84 | the fact of a response is its Result text |
| CallLimiter.CallLimiterTool.constructor | src/SemanticKernel.Orchestration/Helpers/CallLimiterTool.cs:16-19 | a new limiter has its limit and has seen no call |
| CallLimiter.CallLimiterTool.OnChatWrapping | src/SemanticKernel.Orchestration/Helpers/CallLimiterTool.cs:21-39 | every call is counted; the call answers itself iff the count exceeds the limit, with one assistant message "Max number of call reached: <max>" |
| CallLimiter.CallRepeatedly | src/SemanticKernel.Orchestration/Helpers/CallLimiterTool.cs:21-39 | over n calls of a fresh limiter, exactly the first maxCalls pass through, and once a call is answered by the limiter every later call gets the same answer |
| Chat.TranscriptSnoc | src/SemanticKernel.Orchestration.Tests/Helpers/MockChatCompletionService.cs:121-124 | the formatted history grows by "\n" (except for the first message) and "role: content" per message |
| Chat.TranscriptLines | src/SemanticKernel.Orchestration.Tests/Helpers/MockChatCompletionService.cs:121-124 | when no entry holds a newline, the formatted history has one line per message |
| MockChat.MockChatCompletionService.constructor | src/SemanticKernel.Orchestration.Tests/Helpers/MockChatCompletionService.cs:24-27 | a new mock echoes the history followed by "Dummy response" |
| MockChat.MockChatCompletionService.SetResponseGenerator | src/SemanticKernel.Orchestration.Tests/Helpers/MockChatCompletionService.cs:29-32 | installs the caller's generator (null allowed) and leaves the streaming generator |
| MockChat.MockChatCompletionService.SetMockResponse | src/SemanticKernel.Orchestration.Tests/Helpers/MockChatCompletionService.cs:39-47 | installs a replay of the given answers with its own counter at 0 |
| MockChat.MockChatCompletionService.SetChatMockedResponse | src/SemanticKernel.Orchestration.Tests/Helpers/MockChatCompletionService.cs:53-60 | installs the echo generator with the given text |
| MockChat.MockChatCompletionService.SetMockResponseTool | src/SemanticKernel.Orchestration.Tests/Helpers/MockChatCompletionService.cs:62-86 | installs a generator answering with one assistant message whose only item is the function call |
| MockChat.MockChatCompletionService.SetStreamingResponseGenerator | src/SemanticKernel.Orchestration.Tests/Helpers/MockChatCompletionService.cs:88-91 | installs the streaming generator and leaves the other |
| MockChat.MockChatCompletionService.GetChatMessageContents | src/SemanticKernel.Orchestration.Tests/Helpers/MockChatCompletionService.cs:39-105 | no generator: InvalidOperationException "Response generator not set"; a replay answers responses[min(k, n-1)] on its k-th call and advances its counter, and throws on an empty list; the echo answers "Chat history:\n" + formatted history + "\n" + text |
| MockChat.MockChatCompletionService.GetStreamingChatMessageContents | src/SemanticKernel.Orchestration.Tests/Helpers/MockChatCompletionService.cs:107-119 | InvalidOperationException "Streaming response generator not set" iff no streaming generator is set, else that generator's output |
| MockChat.ReplayCalls | src/SemanticKernel.Orchestration.Tests/Helpers/MockChatCompletionService.cs:39-47 | after SetMockResponse(r1..rn), call k answers r[min(k, n-1)]: the last answer repeats once the list is used up, and an empty list makes every call throw |
| Conversations.GetOpenAIValue | src/SemanticKernel.Orchestration/Orchestrators/IConversation.cs:47 | reading a function result as an OpenAI message fails with InvalidCastException exactly for a value of another type, gives null for a null value and the message for a message |
| Conversations.Route | src/SemanticKernel.Orchestration/Orchestrators/IConversation.cs:66-88 | the type tests in order: a string goes to the assistant-message hook, any chat message delivers its content, a null function result reaches the OpenAI hook as null, and anything else (or a function result of another type) fails, with ArgumentException "Invalid object type for assistant message" for an unknown type |
| Conversations.TokenTotalAppend | src/SemanticKernel.Orchestration/Orchestrators/TokenLimitedConversation.cs:36-38 | one more message adds exactly its token count to the history's total |
| Conversations.TokenTotalBoundsEach | src/SemanticKernel.Orchestration/Orchestrators/TokenLimitedConversation.cs:36-38 | no message weighs more than the whole history |
| Conversations.SummaryMessage | src/SemanticKernel.Orchestration/Orchestrators/TokenLimitedConversation.cs:51 | the replacement message is a system message made of "Conversation so far:\n", the summary, and "\n\n" |
| Conversations.SimpleConversation.constructor | src/SemanticKernel.Orchestration/Orchestrators/SimpleConversation.cs:12-15 | a new conversation owns a fresh empty history |
| Conversations.SimpleConversation.OnAddOpenaiResponse | src/SemanticKernel.Orchestration/Orchestrators/SimpleConversation.cs:17-20 | appends the message's content as an assistant message; a null message throws NullReferenceException and changes nothing |
| Conversations.SimpleConversation.OnAddAssistantMessage | src/SemanticKernel.Orchestration/Orchestrators/SimpleConversation.cs:22-26 | appends one assistant message |
| Conversations.SimpleConversation.OnAddUserMessage | src/SemanticKernel.Orchestration/Orchestrators/SimpleConversation.cs:28-32 | appends one user message |
| Conversations.SimpleConversation.OnGetChatHistory | src/SemanticKernel.Orchestration/Orchestrators/SimpleConversation.cs:34-37 | returns the conversation's own history object, not a copy |
| Conversations.TokenLimitedConversation.constructor | src/SemanticKernel.Orchestration/Orchestrators/TokenLimitedConversation.cs:25-26 | a new conversation owns a fresh empty history and keeps the service, tokenizer and limit it is given |
| Conversations.TokenLimitedConversation.Create | src/SemanticKernel.Orchestration/Orchestrators/TokenLimitedConversation.cs:18-27 | an unknown kernel name throws KeyNotFoundException; a known one has its kernel built and gives a conversation with a fresh empty history, the tokenizer registered with that kernel, and the given limit, or 2000 when none is given |
| Conversations.TokenLimitedConversation.CompressHistoryIfNeeded | src/SemanticKernel.Orchestration/Orchestrators/TokenLimitedConversation.cs:29-53 | an empty history or one within the limit is left alone without calling the service; over the limit the service is asked once for a summary of the "role: content" transcript and the history becomes the single summary message; a failing call leaves the history |
| Conversations.TokenLimitedConversation.OnAddOpenaiResponse | src/SemanticKernel.Orchestration/Orchestrators/TokenLimitedConversation.cs:55-59 | appends the content then compresses; a null message throws before anything changes |
| Conversations.TokenLimitedConversation.OnAddAssistantMessage | src/SemanticKernel.Orchestration/Orchestrators/TokenLimitedConversation.cs:61-65 | appends the assistant message then compresses |
| Conversations.TokenLimitedConversation.OnAddUserMessage | src/SemanticKernel.Orchestration/Orchestrators/TokenLimitedConversation.cs:67-71 | appends the user message and never compresses |
| Conversations.TokenLimitedConversation.OnGetChatHistory | src/SemanticKernel.Orchestration/Orchestrators/TokenLimitedConversation.cs:73-76 | returns the conversation's own history object |
| Conversations.CompressedWithinLimit | src/SemanticKernel.Orchestration/Orchestrators/TokenLimitedConversation.cs:31-40 | within the limit, or empty, compression changes nothing and leaves the service untouched |
| Conversations.CompressedFailureKeepsHistory | src/SemanticKernel.Orchestration/Orchestrators/TokenLimitedConversation.cs:40-51 | when compression fails the history is unchanged, the history was over the limit, and the failure is the summarizer service's |
| Conversations.AssistantTurnBounded | src/SemanticKernel.Orchestration/Orchestrators/TokenLimitedConversation.cs:29-65 | after a successful assistant turn the history is within its limit or is the single system summary message |
| Conversations.SummaryTranscript | src/SemanticKernel.Orchestration/Orchestrators/TokenLimitedConversation.cs:46-51 | the transcript of a summarized history is "system: Conversation so far:\n<summary>\n\n" |
| Conversations.LongReplyForcesSummary | src/SemanticKernel.Orchestration/Orchestrators/TokenLimitedConversation.cs:36-40 | an assistant text whose tokens alone exceed the limit always sends the history to the summarizer |
| Conversations.AddUserMessage | src/SemanticKernel.Orchestration/Orchestrators/IConversation.cs:56-59 | every kind of conversation appends the user message and calls no service |
| Conversations.Deliver | src/SemanticKernel.Orchestration/Orchestrators/IConversation.cs:45-54 | a delivered text is appended (and, for a token-limited conversation, compressed); a null message throws NullReferenceException and changes nothing |
| Conversations.AddAssistantMessage | src/SemanticKernel.Orchestration/Orchestrators/IConversation.cs:51-54 | a simple conversation appends the message; a token-limited one appends then compresses |
| Conversations.AddAssistantFunctionResult | src/SemanticKernel.Orchestration/Orchestrators/IConversation.cs:45-49 | a value of another type throws InvalidCastException and a null value NullReferenceException, both leaving the history and the summarizer as they were; an OpenAI message appends its content, and a token-limited conversation then runs its compression check on the extended history |
| Conversations.AddAssistantObject | src/SemanticKernel.Orchestration/Orchestrators/IConversation.cs:66-88 | whatever the object, the history changes exactly as adding the text it delivers would, and an object that delivers no text leaves the history as it was |
| Conversations.GetChatHistory | src/SemanticKernel.Orchestration/Orchestrators/IConversation.cs:61-64 | returns the conversation's own history object |
| ChatAssistants.Single | src/SemanticKernel.Orchestration/Assistants/SimpleChatAssistant.cs:39 | succeeds iff there is exactly one reply, and returns it; none or several replies throw InvalidOperationException with the .NET messages |
| ChatAssistants.SimpleChatAssistant.constructor | src/SemanticKernel.Orchestration/Assistants/SimpleChatAssistant.cs:19-27 | keeps the kernel name and the store; without a conversation the assistant starts a fresh, empty SimpleConversation, otherwise it keeps the one given |
| ChatAssistants.SimpleChatAssistant.SendMessage | src/SemanticKernel.Orchestration/Assistants/SimpleChatAssistant.cs:29-43 | the user message is added first; an unknown kernel name then throws KeyNotFoundException with the service untouched; otherwise the service sees the history ending with the new user message, a failed call or a reply of other than one message leaves only the user message added, and one reply is added as an assistant message (a token-limited conversation may then summarize) and its text is returned |
| ChatAssistants.SimpleChatAssistant.Answer | src/SemanticKernel.Orchestration/Assistants/SimpleChatAssistant.cs:35-42 | the service sees the whole history; a failed call or a reply of other than one message changes no message; one reply is added as an assistant message (a token-limited conversation may then summarize) and its text is returned |
| ChatAssistants.TranscriptOfTwo | src/SemanticKernel.Orchestration.Tests/Helpers/MockChatCompletionService.cs:121-124 | a two-message transcript is the two entries on two lines |
| ChatAssistants.TranscriptOfThree | src/SemanticKernel.Orchestration.Tests/Helpers/MockChatCompletionService.cs:121-124 | a three-message transcript is the three entries on three lines |
| ChatAssistants.SimpleChatEcho | src/SemanticKernel.Orchestration.Tests/Orchestrator/SimpleChatAssistantTests.cs:61-70 | the echo of the second turn lists both turns in order, then the mocked text |
| ChatAssistants.EchoOfTwo | src/SemanticKernel.Orchestration.Tests/Helpers/MockChatCompletionService.cs:55-59 | the echo of a two-message history is its two entries followed by the mocked text |
| ChatAssistants.EchoOfThree | src/SemanticKernel.Orchestration.Tests/Helpers/MockChatCompletionService.cs:55-59 | the echo of a three-message history is its three entries followed by the mocked text |
| ChatAssistants.RoleEntries | src/SemanticKernel.Orchestration.Tests/Helpers/MockChatCompletionService.cs:121-124 | a user, assistant or system entry is the role name, ": " and the content |
| ChatAssistants.SummarizedEcho | src/SemanticKernel.Orchestration.Tests/Orchestrator/TokenLimitedConversationTests.cs:66-76 | after summarization the echo shows only the summary message and the new question |
| ChatAssistants.SimpleChatFirstTurn | src/SemanticKernel.Orchestration.Tests/Orchestrator/SimpleChatAssistantTests.cs:37-58 | with a store holding "gpt4o" and no conversation given, the first turn answers the replayed text and leaves the question and that answer in the history |
| ChatAssistants.SimpleChatScenario | src/SemanticKernel.Orchestration.Tests/Orchestrator/SimpleChatAssistantTests.cs:37-72 | the first turn answers the replayed text; the second answers the echo of the whole history, so both turns were kept in order |
| ChatAssistants.CompressedByReplay | src/SemanticKernel.Orchestration/Orchestrators/TokenLimitedConversation.cs:40-51 | over the limit a replaying service's next answer becomes the summary and its counter advances |
| ChatAssistants.CompressedByEchoSucceeds | src/SemanticKernel.Orchestration/Orchestrators/TokenLimitedConversation.cs:40-51 | compression against an echoing service never fails |
| ChatAssistants.TokenLimitedSetup | src/SemanticKernel.Orchestration.Tests/Orchestrator/TokenLimitedConversationTests.cs:42-57 | the arrangement builds a conversation on the registered kernel with an empty history and a limit of 10, and an assistant sharing its service |
| ChatAssistants.FirstTurnCompression | src/SemanticKernel.Orchestration/Orchestrators/TokenLimitedConversation.cs:29-53 | after the first exchange the compression succeeds and, when the two messages weigh more than 10 tokens, leaves only the second replayed answer as summary |
| ChatAssistants.EchoedTurn | src/SemanticKernel.Orchestration.Tests/Orchestrator/TokenLimitedConversationTests.cs:66-68 | against an echoing service a token-limited turn answers the echo of the history with the new question, whatever compression follows |
| ChatAssistants.TokenLimitedFirstTurn | src/SemanticKernel.Orchestration.Tests/Orchestrator/TokenLimitedConversationTests.cs:38-63 | the first turn of the summarization test answers the first replayed text and, once the two messages exceed 10 tokens, leaves only the summary message |
| ChatAssistants.ReplayedTurn | src/SemanticKernel.Orchestration.Tests/Orchestrator/TokenLimitedConversationTests.cs:59-63 | a token-limited turn against a replaying service answers the next replayed text, and the history and the replay position become what compressing the question and that answer leaves |
| ChatAssistants.TokenLimitedScenario | src/SemanticKernel.Orchestration.Tests/Orchestrator/TokenLimitedConversationTests.cs:38-77 | the summarization test: first answer replayed; over 10 tokens the second turn's echo shows only the summary and the new question |
| DataAccess.DeclarationType | src/SemanticKernel.Orchestration/Helpers/SqlUtils/DataAccess.cs:337-347 | Int32, Int16, Int64 and String get their SQL spelling, which differs from the type's name; every other type is declared by its name |
| DataAccess.DeclarationTypeDistinguishes | src/SemanticKernel.Orchestration/Helpers/SqlUtils/DataAccess.cs:337-347 | the four SQL spellings are distinct, so a declared SQL spelling identifies the type |
| DataAccess.ExecTailIsSuffixedConcat | src/SemanticKernel.Orchestration/Helpers/SqlUtils/DataAccess.cs:310-320 | the stored-procedure loop writes every assignment followed by ", " |
| DataAccess.StoredProcedureDumpJoins | src/SemanticKernel.Orchestration/Helpers/SqlUtils/DataAccess.cs:305-321 | a stored-procedure dump is the header line, "EXEC name " and the assignments joined by ", ": the Length -= 2 removes exactly the trailing separator when there are parameters |
| DataAccess.DeclareLinesCount | src/SemanticKernel.Orchestration/Helpers/SqlUtils/DataAccess.cs:325-331 | the DECLARE block has one line per parameter when no declaration holds a line break |
| DataAccess.TextDumpLines | src/SemanticKernel.Orchestration/Helpers/SqlUtils/DataAccess.cs:305-333 | a text-command dump has exactly (number of parameters) + 2 lines when no name, value or text holds a line break |
| DataAccess.DumpCommand | src/SemanticKernel.Orchestration/Helpers/SqlUtils/DataAccess.cs:300-335 | the dump is built parameter by parameter and equals the dump text: empty for null, otherwise the header then the EXEC or the DECLARE form |
| DataAccess.AppendAssignments | src/SemanticKernel.Orchestration/Helpers/SqlUtils/DataAccess.cs:310-320 | the builder's loop produces the assignments each followed by ", " (at least two characters when there are parameters, so the Length -= 2 is safe) |
| DataAccess.AppendDeclarations | src/SemanticKernel.Orchestration/Helpers/SqlUtils/DataAccess.cs:325-331 | the builder's loop produces one DECLARE line per parameter |
| DataAccess.ConnectionData.constructor | src/SemanticKernel.Orchestration/Helpers/SqlUtils/DataAccess.cs:83-102 | a new ConnectionData has no connection or transaction yet, is not finished and has done nothing |
| DataAccess.ConnectionData.CreateWeak | src/SemanticKernel.Orchestration/Helpers/SqlUtils/DataAccess.cs:88-95 | a weak copy shares the connection, transaction and enlistment of the original and is not finished |
| DataAccess.ConnectionData.Commit | src/SemanticKernel.Orchestration/Helpers/SqlUtils/DataAccess.cs:104-113 | a weak reference does nothing; otherwise the data is marked finished and an open, non-enlisted transaction is committed |
| DataAccess.ConnectionData.Rollback | src/SemanticKernel.Orchestration/Helpers/SqlUtils/DataAccess.cs:115-123 | as Commit, rolling back instead |
| DataAccess.ConnectionData.Dispose | src/SemanticKernel.Orchestration/Helpers/SqlUtils/DataAccess.cs:125-138 | a weak or enlisted reference does nothing; otherwise an unfinished transaction is rolled back, then the transaction and the connection are disposed; rolling back a transaction never begun throws NullReferenceException |
| DataAccess.ConnectionData.EnlistCommand | src/SemanticKernel.Orchestration/Helpers/SqlUtils/DataAccess.cs:144-160 | the first call opens the connection and begins the transaction; later calls reuse them and do nothing else |
| DataAccess.Execute | src/SemanticKernel.Orchestration/Helpers/SqlUtils/DataAccess.cs:252-288 | the body's outcome is rethrown unchanged; a successful body is committed and a failing one rolled back, then the transaction and the connection are disposed |
| DisposableActions.DisposableAction.constructor | src/SemanticKernel.Orchestration/Helpers/DisposableAction.cs:10-13 | a new object keeps its callback, is not disposed and has not run it |
| DisposableActions.DisposableAction.Create | src/SemanticKernel.Orchestration/Helpers/DisposableAction.cs:10-13 | a null callback throws ArgumentNullException naming "action"; otherwise a fresh, undisposed object |
| DisposableActions.DisposableAction.DisposeCore | src/SemanticKernel.Orchestration/Helpers/DisposableAction.cs:21-32 | on an undisposed object, disposing true runs the callback first: a throwing callback propagates its exception and leaves the object undisposed, otherwise (and when disposing is false) the object becomes disposed; a disposed object does nothing; the callback returns normally at most once |
| DisposableActions.DisposableAction.Dispose | src/SemanticKernel.Orchestration/Helpers/DisposableAction.cs:15-19 | runs the callback iff the object was not yet disposed; it becomes disposed iff that run returns normally, and a thrown exception propagates |
| DisposableActions.DisposeRepeatedly | src/SemanticKernel.Orchestration/Helpers/DisposableAction.cs:15-32 | repeated Dispose calls rerun the callback until one run returns normally and never after; each throwing call reports its exception; a callback that never throws runs exactly once |
| DisposableActions.FinalizedFirst | src/SemanticKernel.Orchestration/Helpers/DisposableAction.cs:21-32 | an object first disposed with disposing false never runs its callback, however often it is disposed afterwards |
| WorkflowBuilder.WorkflowBuilderPlugin.constructor | src/SemanticKernel.Orchestration/SamplePlugins/WorkflowBuilderPlugin.cs:13 | a new plugin holds no block |
| WorkflowBuilder.WorkflowBuilderPlugin.AddBlock | src/SemanticKernel.Orchestration/SamplePlugins/WorkflowBuilderPlugin.cs:24-34 | returns false and changes nothing iff the id is null, empty or already present (case-sensitive); otherwise appends the block with its predecessor, "" for null, and its parameters; ids stay non-empty and distinct |
| WorkflowBuilder.WorkflowBuilderPlugin.DumpMermaidDiagram | src/SemanticKernel.Orchestration/SamplePlugins/WorkflowBuilderPlugin.cs:36-65 | the text is the AppendLine of every diagram line: "flowchart TD", then each block's lines in insertion order |
| WorkflowBuilder.AppendBlock | src/SemanticKernel.Orchestration/SamplePlugins/WorkflowBuilderPlugin.cs:46-61 | one pass of the loop appends the node line, the edge line when there is a predecessor, and the class and parameter lines when there are parameters |
| WorkflowBuilder.BlockRendered | src/SemanticKernel.Orchestration/SamplePlugins/WorkflowBuilderPlugin.cs:46-61 | the text the loop appends for a block is exactly the AppendLine of that block's lines |
| WorkflowBuilder.DiagramStep | src/SemanticKernel.Orchestration/SamplePlugins/WorkflowBuilderPlugin.cs:41-62 | one more block appends its own text to the diagram of the blocks before it |
| WorkflowBuilder.BlockLinesShape | src/SemanticKernel.Orchestration/SamplePlugins/WorkflowBuilderPlugin.cs:47-61 | a block's lines start with its node line; an edge line "prev --> id" comes second iff it has a predecessor; the class line and the "-. params .->" line close it iff it has parameters |
| WorkflowBuilder.DiagramAppend | src/SemanticKernel.Orchestration/SamplePlugins/WorkflowBuilderPlugin.cs:24-62 | adding a block after existing ones leaves their lines in place and appends its own |
| WorkflowBuilder.DiagramStartsWithHeader | src/SemanticKernel.Orchestration/SamplePlugins/WorkflowBuilderPlugin.cs:39 | every diagram starts with the line "flowchart TD" |
| WorkflowBuilder.FirstNodeFollowsHeader | src/SemanticKernel.Orchestration/SamplePlugins/WorkflowBuilderPlugin.cs:39-47 | the line after the header is the node line of the first block added |
| WorkflowBuilder.DiagramLineCount | src/SemanticKernel.Orchestration/SamplePlugins/WorkflowBuilderPlugin.cs:41-62 | each block contributes one to four lines: the diagram has between 1 + n and 1 + 4n lines |
| WorkflowBuilder.AddThenDump | src/SemanticKernel.Orchestration/SamplePlugins/WorkflowBuilderPlugin.cs:24-65 | a successful AddBlock appends exactly the new block's lines to the dumped diagram; a refused one leaves the diagram unchanged |
| WorkflowBuilder.ParamTexts | src/SemanticKernel.Orchestration/SamplePlugins/WorkflowBuilderPlugin.cs:58 | one "key: value" text per parameter, in order |
| Interception.Disposables | src/SemanticKernel.Orchestration/Helpers/IChatInterceptorTool.cs:72-89 | exactly the disposable tools of the list, never more than the list holds |
| Interception.InterceptorContainer.constructor | src/SemanticKernel.Orchestration/Helpers/IChatInterceptorTool.cs:59-65 | copies both arrays in order; the property bag starts empty |
| Interception.InterceptorContainer.AddWrapper | src/SemanticKernel.Orchestration/Helpers/IChatInterceptorTool.cs:67-70 | appends the wrapper at the end and changes nothing else |
| Interception.InterceptorContainer.Dispose | src/SemanticKernel.Orchestration/Helpers/IChatInterceptorTool.cs:72-89 | disposes exactly the disposable interceptors, then exactly the disposable wrappers, in order |
| Interception.Consult | src/SemanticKernel.Orchestration/Helpers/IChatCompletionServiceInterceptor.cs:38-68 | consulting stops at the first non-null answer: at most all wrappers are consulted, and all of them exactly when none answers |
| Interception.ConsultStopsAtAnswer | src/SemanticKernel.Orchestration/Helpers/IChatCompletionServiceInterceptor.cs:46-66 | the wrappers after the first answer make no difference, and every wrapper before it answered null |
| Interception.ConsultAppend | src/SemanticKernel.Orchestration/Helpers/IChatCompletionServiceInterceptor.cs:37-68 | consulting the constructor wrappers then the container's is consulting the first list and, only if none answered, the second |
| Interception.ObserveAllAppend | src/SemanticKernel.Orchestration/Helpers/IChatCompletionServiceInterceptor.cs:72-95 | notifying the constructor interceptors then the container's is one pass over both lists in order |
| Interception.RunWrappers | src/SemanticKernel.Orchestration/Helpers/IChatCompletionServiceInterceptor.cs:38-50 | the foreach loop consults the wrappers in order, returns the first non-null answer, and consults no wrapper after it |
| Interception.RunInterceptors | src/SemanticKernel.Orchestration/Helpers/IChatCompletionServiceInterceptor.cs:73-81 | the foreach loop lets every interceptor observe the same result, in order |
| Interception.ChatCompletionInterceptor.constructor | src/SemanticKernel.Orchestration/Helpers/IChatCompletionServiceInterceptor.cs:17-25 | keeps the inner service and both tool lists |
| Interception.ChatCompletionInterceptor.Create | src/SemanticKernel.Orchestration/Helpers/IChatCompletionServiceInterceptor.cs:17-25 | a null inner service, interceptor list or wrapper list throws ArgumentNullException naming that parameter, checked in that order |
| Interception.ChatCompletionInterceptor.GetChatMessageContents | src/SemanticKernel.Orchestration/Helpers/IChatCompletionServiceInterceptor.cs:29-98 | the first non-null wrapper answer (constructor wrappers, then the container's) is returned at once, without calling the inner service or any interceptor; otherwise the inner service is called once: its exception propagates with no interceptor run, or every interceptor (constructor's, then the container's) observes its answer, which is returned |
| Interception.ChatCompletionInterceptor.ConsultWrappers | src/SemanticKernel.Orchestration/Helpers/IChatCompletionServiceInterceptor.cs:37-68 | the two wrapper loops together consult the combined list and stop at the first answer |
| Interception.ChatCompletionInterceptor.NotifyInterceptors | src/SemanticKernel.Orchestration/Helpers/IChatCompletionServiceInterceptor.cs:72-95 | the two interceptor loops together notify the combined list with the same result |
| Interception.ChatCompletionInterceptor.GetStreamingChatMessageContents | src/SemanticKernel.Orchestration/Helpers/IChatCompletionServiceInterceptor.cs:100-107 | streaming goes straight to the inner service; no tool is consulted or notified |
| Kernels.KernelInfo.constructor | src/SemanticKernel.Orchestration/Orchestrators/KernelStore.cs:19-25 | keeps the builder, model, description and name; no kernel is built yet |
| Kernels.KernelInfo.GetKernel | src/SemanticKernel.Orchestration/Orchestrators/KernelStore.cs:32 | the kernel is built from the builder on first read and the same instance is returned afterwards |
| Kernels.ReadKernelTwice | src/SemanticKernel.Orchestration/Orchestrators/KernelStore.cs:32 | two reads of the Kernel property give the same instance |
| Kernels.Available | src/SemanticKernel.Orchestration/Orchestrators/KernelStore.cs:130-135 | every kernel whose name differs from the excluded one is listed, and only such kernels, never more than are registered |
| Kernels.OfType | src/SemanticKernel.Orchestration/Orchestrators/KernelStore.cs:185-188 | exactly the properties whose value has the requested type |
| Kernels.FirstOf | src/SemanticKernel.Orchestration/Orchestrators/KernelStore.cs:199-200 | the first tool of the requested type, null exactly when none has it |
| Kernels.KernelStore.constructor | src/SemanticKernel.Orchestration/Orchestrators/KernelStore.cs:41-44 | a new store has no kernel, and its own container slot is empty |
| Kernels.KernelStore.AddKernel | src/SemanticKernel.Orchestration/Orchestrators/KernelStore.cs:46-56 | a null or empty name throws ArgumentNullException and changes nothing; otherwise a fresh KernelInfo with no built kernel is stored under the name, replacing an earlier one in place |
| Kernels.KernelStore.TryGetKernel | src/SemanticKernel.Orchestration/Orchestrators/KernelStore.cs:58-69 | true with the lazily built kernel iff the name is registered, otherwise false and null |
| Kernels.KernelStore.GetKernel | src/SemanticKernel.Orchestration/Orchestrators/KernelStore.cs:71-83 | the registered kernel (built once), or KeyNotFoundException for an unknown name |
| Kernels.KernelStore.GetKernelTokenizer | src/SemanticKernel.Orchestration/Orchestrators/KernelStore.cs:71-88 | the registered model's tokenizer, KeyNotFoundException exactly for an unknown name |
| Kernels.KernelStore.AddPlugin | src/SemanticKernel.Orchestration/Orchestrators/KernelStore.cs:90-96 | adds the plugin to the named kernel's builder only; an unknown kernel throws KeyNotFoundException |
| Kernels.KernelStore.AddRegistration | src/SemanticKernel.Orchestration/Orchestrators/KernelStore.cs:98-112 | one registration is appended to the named kernel's builder; an unknown kernel throws KeyNotFoundException |
| Kernels.KernelStore.AddInterceptor | src/SemanticKernel.Orchestration/Orchestrators/KernelStore.cs:98-104 | one transient interceptor registration on the named kernel's builder; an unknown kernel throws KeyNotFoundException |
| Kernels.KernelStore.AddWrapper | src/SemanticKernel.Orchestration/Orchestrators/KernelStore.cs:106-112 | one transient wrapper registration on the named kernel's builder; an unknown kernel throws KeyNotFoundException |
| Kernels.KernelStore.RegisterEverywhere | src/SemanticKernel.Orchestration/Orchestrators/KernelStore.cs:114-128 | the loop over registered kernels gives every builder one registration per kernel that uses it |
| Kernels.KernelStore.AddGlobalInterceptor | src/SemanticKernel.Orchestration/Orchestrators/KernelStore.cs:114-120 | every builder receives the interceptor once per kernel that uses it |
| Kernels.KernelStore.AddGlobalWrapper | src/SemanticKernel.Orchestration/Orchestrators/KernelStore.cs:122-128 | every builder receives the wrapper once per kernel that uses it |
| Kernels.KernelStore.GetAvailableKernels | src/SemanticKernel.Orchestration/Orchestrators/KernelStore.cs:130-135 | every kernel except the one stored under the excluded name, and only registered kernels |
| Kernels.KernelStore.EnableInterception | src/SemanticKernel.Orchestration/Orchestrators/KernelStore.cs:137-143 | every registered kernel's builder has interception enabled and nothing else changes |
| Kernels.KernelStore.StartContainerScope | src/SemanticKernel.Orchestration/Orchestrators/KernelStore.cs:145-153 | a fresh container holding the provider's tools, with an empty bag, becomes the active one |
| Kernels.KernelStore.ClearContainer | src/SemanticKernel.Orchestration/Orchestrators/KernelStore.cs:160-163 | no container is active afterwards |
| Kernels.KernelStore.SetProperty | src/SemanticKernel.Orchestration/Orchestrators/KernelStore.cs:165-175 | stores the value in the active container's bag and changes nothing else there; without a container nothing happens |
| Kernels.KernelStore.GetAllPropertyValues | src/SemanticKernel.Orchestration/Orchestrators/KernelStore.cs:177-189 | none without a container; otherwise exactly the active container's properties of the requested type |
| Kernels.KernelStore.GetInterceptor | src/SemanticKernel.Orchestration/Orchestrators/KernelStore.cs:191-201 | null without a container; otherwise a tool of the requested type, an interceptor whenever one has that type, a wrapper only otherwise, and null exactly when no tool has it |
| OrderedDict.PutThenGet | src/SemanticKernel.Orchestration/Assistants/BaseAssistant.cs:126-129 | after the indexer sets a key, reading any key the comparer equates with it gives the new value |
| OrderedDict.PutKeepsOthers | src/SemanticKernel.Orchestration/Assistants/BaseAssistant.cs:126-129 | setting a key leaves every other key's value as it was |
| OrderedDict.PutKeepsUnique | src/SemanticKernel.Orchestration/Assistants/BaseAssistant.cs:126-129 | setting a key never creates a second entry for it |
| OrderedDict.PutKeys | src/SemanticKernel.Orchestration/Assistants/BaseAssistant.cs:126-129 | an existing key keeps its slot and first spelling; a new key enumerates last |
| SqlQueries.TrimRun | src/SemanticKernel.Orchestration.SampleAgents/SqlServer/SqlUtils/SqlQuery.cs:114-124 | the query cut after the last character that differs from the trimmed one: a prefix of the original, not ending in that character, with only that character removed |
| SqlQueries.TrimRunNoTrailing | src/SemanticKernel.Orchestration.SampleAgents/SqlServer/SqlUtils/SqlQuery.cs:114-124 | a query that does not end in the character is left as it is |
| SqlQueries.TrimRunEmpty | src/SemanticKernel.Orchestration.SampleAgents/SqlServer/SqlUtils/SqlQuery.cs:114-124 | trimming leaves nothing exactly when the query consists of the trimmed character alone |
| SqlQueries.TrimRunIdempotent | src/SemanticKernel.Orchestration.SampleAgents/SqlServer/SqlUtils/SqlQuery.cs:114-124 | trimming a second time removes nothing more |
| SqlQueries.TrimRunStep | src/SemanticKernel.Orchestration.SampleAgents/SqlServer/SqlUtils/SqlQuery.cs:114-124 | stepping back over one more trailing occurrence of the character does not change what trimming leaves |
| SqlQueries.SetLength | src/SemanticKernel.Orchestration.SampleAgents/SqlServer/SqlUtils/SqlQuery.cs:122-134 | setting a StringBuilder's Length truncates to that length or pads with '\0' characters |
| SqlQueries.StoredValue | src/SemanticKernel.Orchestration.SampleAgents/SqlServer/SqlUtils/SqlQuery.cs:480 | a null value is stored as DBNull; any other value is stored as given |
| SqlQueries.OptionalValue | src/SemanticKernel.Orchestration.SampleAgents/SqlServer/SqlUtils/SqlQuery.cs:423-433 | a nullable argument is null exactly when it has no value, and otherwise carries that value's text |
| SqlQueries.SqlQuery.constructor | src/SemanticKernel.Orchestration.SampleAgents/SqlServer/SqlUtils/SqlQuery.cs:86-93 | a new query holds the given text and command type, no parameters and a 1200-second timeout |
| SqlQueries.SqlQuery.ParameterName | src/SemanticKernel.Orchestration/Helpers/SqlUtils/DataAccess.cs:593-597 | the parameter name is the provider's marker followed by the name |
| SqlQueries.SqlQuery.AppendToQuery | src/SemanticKernel.Orchestration.SampleAgents/SqlServer/SqlUtils/SqlQuery.cs:95-99 | the fragment is appended verbatim and the builder itself is returned |
| SqlQueries.SqlQuery.AppendLineToQuery | src/SemanticKernel.Orchestration.SampleAgents/SqlServer/SqlUtils/SqlQuery.cs:101-106 | a line break and then the fragment are appended |
| SqlQueries.SqlQuery.TrimCharFromEnd | src/SemanticKernel.Orchestration.SampleAgents/SqlServer/SqlUtils/SqlQuery.cs:114-124 | a query made only of the character (or empty) throws IndexOutOfRangeException and is unchanged; otherwise it becomes its trimmed form |
| SqlQueries.SqlQuery.TrimCharsFromEnd | src/SemanticKernel.Orchestration.SampleAgents/SqlServer/SqlUtils/SqlQuery.cs:132-136 | a negative resulting length throws and changes nothing; otherwise the length drops by the count: a prefix for a non-negative count, a '\0'-padded extension for a negative one |
| SqlQueries.SqlQuery.SetTimeout | src/SemanticKernel.Orchestration.SampleAgents/SqlServer/SqlUtils/SqlQuery.cs:142-146 | the command timeout becomes the given value |
| SqlQueries.SqlQuery.SetParam | src/SemanticKernel.Orchestration.SampleAgents/SqlServer/SqlUtils/SqlQuery.cs:465-483 | for a text command every "{name}" becomes the parameter name; exactly one parameter is added with that name, the given type (String by default) and the value or DBNull |
| SqlQueries.SqlQuery.SetStringParam | src/SemanticKernel.Orchestration.SampleAgents/SqlServer/SqlUtils/SqlQuery.cs:371-375 | SetParam with DbType.String and the string or DBNull |
| SqlQueries.SqlQuery.SetList | src/SemanticKernel.Orchestration.SampleAgents/SqlServer/SqlUtils/SqlQuery.cs:377-381 | one String parameter holding the values joined with "," |
| SqlQueries.SqlQuery.SetInt32Param | src/SemanticKernel.Orchestration.SampleAgents/SqlServer/SqlUtils/SqlQuery.cs:389-393 | one Int32 parameter holding the number's text or DBNull |
| SqlQueries.SqlQuery.SetInt64Param | src/SemanticKernel.Orchestration.SampleAgents/SqlServer/SqlUtils/SqlQuery.cs:383-387 | one Int64 parameter holding the number's text or DBNull |
| SqlQueries.SqlQuery.SetInt32ParamWithNullValue | src/SemanticKernel.Orchestration.SampleAgents/SqlServer/SqlUtils/SqlQuery.cs:395-403 | a value equal to the null marker changes nothing; any other value adds an Int32 parameter |
| SqlQueries.SqlQuery.SetDoubleParam | src/SemanticKernel.Orchestration.SampleAgents/SqlServer/SqlUtils/SqlQuery.cs:423-427 | the double is declared as DbType.Single, holding its text or DBNull |
| SqlQueries.SqlQuery.SetBooleanParam | src/SemanticKernel.Orchestration.SampleAgents/SqlServer/SqlUtils/SqlQuery.cs:429-433 | one Boolean parameter holding "True"/"False" or DBNull |
| SqlQueries.SqlQuery.SetOutParam | src/SemanticKernel.Orchestration.SampleAgents/SqlServer/SqlUtils/SqlQuery.cs:485-499 | the placeholder is replaced and an output parameter with no value is added; its name is returned |
| SqlQueries.SqlQuery.SetInt32OutParam | src/SemanticKernel.Orchestration.SampleAgents/SqlServer/SqlUtils/SqlQuery.cs:505-510 | the Int32 output parameter is always added; recording the caller's name a second time throws ArgumentException, otherwise the name is recorded last |
| SqlQueries.SetParamReplacesPlaceholder | src/SemanticKernel.Orchestration.SampleAgents/SqlServer/SqlUtils/SqlQuery.cs:468-471 | a placeholder occurring once is replaced by the parameter name and the rest of the query is kept |
| SqlQueries.SetParamWithoutPlaceholder | src/SemanticKernel.Orchestration.SampleAgents/SqlServer/SqlUtils/SqlQuery.cs:468-471 | a query without a placeholder is left unchanged |
| SqlQueries.FreeDefaultIndex | src/SemanticKernel.Orchestration.SampleAgents/SqlServer/SqlUtils/SqlQuery.cs:61 | the default name "Column" + index that an unnamed column gets: the first index from the given one on whose name no column has, every index passed over being taken |
| SqlQueries.AddColumn | src/SemanticKernel.Orchestration.SampleAgents/SqlServer/SqlUtils/SqlQuery.cs:61 | Columns.Add: an unnamed column always gets a free default name, and the index moves past it; a named column is added as given exactly when no column has that exact name, and otherwise DuplicateNameException names it; distinct columns stay distinct |
| SqlQueries.AddColumns | src/SemanticKernel.Orchestration.SampleAgents/SqlServer/SqlUtils/SqlQuery.cs:54-63 | the header's Adds up to the first that throws: distinct columns, every named field under its own name, every unnamed one under a default name, and a stop only at a named field that an added column already has |
| SqlQueries.AddColumnsSnoc | src/SemanticKernel.Orchestration.SampleAgents/SqlServer/SqlUtils/SqlQuery.cs:54-63 | one more field is added only while no Add has thrown |
| SqlQueries.AddColumnsNamed | src/SemanticKernel.Orchestration.SampleAgents/SqlServer/SqlUtils/SqlQuery.cs:54-63 | distinct non-empty field names are all added, under their own names |
| SqlQueries.DatasetAsWritten | src/SemanticKernel.Orchestration.SampleAgents/SqlServer/SqlUtils/SqlQuery.cs:37-82 | an empty reader gives an empty table; otherwise the columns are distinct, at most one per field, each the renamed field name or, for an unnamed field, a default name; all rows are kept exactly when every field got a column, and otherwise no row is kept and the next renamed name is non-empty and already a column; distinct non-empty field names are kept with every row |
| SqlQueries.RenamedHeaderCollides | src/SemanticKernel.Orchestration.SampleAgents/SqlServer/SqlUtils/SqlQuery.cs:54-63 | the fields "a", "a1", "a" rename to "a", "a1", "a1"; the third Add throws, the exception is swallowed, and the table keeps two columns and no rows |
| SqlQueries.RenameAllSnoc | src/SemanticKernel.Orchestration.SampleAgents/SqlServer/SqlUtils/SqlQuery.cs:54-63 | one more field keeps its name when no column has it yet, and otherwise gets the name followed by the running counter, which then goes up by one |
| SqlQueries.RenamedHeader | src/SemanticKernel.Orchestration.SampleAgents/SqlServer/SqlUtils/SqlQuery.cs:54-63 | the fields "a", "a1", "a" are renamed to "a", "a1", "a1" |
| SqlQueries.CaseVariantHeaderKept | src/SemanticKernel.Orchestration.SampleAgents/SqlServer/SqlUtils/SqlQuery.cs:54-63 | "Id" and "ID" are two names for both the list and the table: both columns and every row are kept |
| SqlQueries.DatasetOfHeader | src/SemanticKernel.Orchestration.SampleAgents/SqlServer/SqlUtils/SqlQuery.cs:37-82 | with a non-empty reader the table holds the columns the renamed header adds, and all rows or none as every Add succeeded or not |
| SqlQueries.AddUnnamed | src/SemanticKernel.Orchestration.SampleAgents/SqlServer/SqlUtils/SqlQuery.cs:61 | an unnamed first field becomes the column "Column1" and the default index moves to 2 |
| SqlQueries.UnnamedColumnDefaultName | src/SemanticKernel.Orchestration.SampleAgents/SqlServer/SqlUtils/SqlQuery.cs:54-63 | a result with one unnamed field has the single column "Column1" and every row |
| SqlQueries.AddUnnamedThenColumn1 | src/SemanticKernel.Orchestration.SampleAgents/SqlServer/SqlUtils/SqlQuery.cs:54-63 | after an unnamed field the table rejects a field named "Column1" |
| SqlQueries.UnnamedThenColumn1LosesRows | src/SemanticKernel.Orchestration.SampleAgents/SqlServer/SqlUtils/SqlQuery.cs:54-63 | the fields "", "Column1" pass the list check unchanged, the table rejects the second, and the result keeps the column "Column1" and no rows |
| SqlQueries.AddUnnamedThenOne | src/SemanticKernel.Orchestration.SampleAgents/SqlServer/SqlUtils/SqlQuery.cs:54-63 | the renamed header "", "1" becomes the columns "Column1", "1" |
| SqlQueries.TwoUnnamedColumns | src/SemanticKernel.Orchestration.SampleAgents/SqlServer/SqlUtils/SqlQuery.cs:54-63 | two unnamed fields are renamed "", "1" in the list and become the columns "Column1", "1", with every row |
| SqlQueries.FreeName | src/SemanticKernel.Orchestration.SampleAgents/SqlServer/SqlUtils/SqlQuery.cs:57-60 | a numbered form of the name that the table does not have, with the counter advanced |
| SqlQueries.CreateHeader | src/SemanticKernel.Orchestration.SampleAgents/SqlServer/SqlUtils/SqlQuery.cs:51-64 | as many columns as fields, pairwise distinct; a named field keeps its name or gets it with a number, an unnamed one gets a default name; distinct non-empty names are kept as they are |
| SqlQueries.ExecuteDataset | src/SemanticKernel.Orchestration.SampleAgents/SqlServer/SqlUtils/SqlQuery.cs:37-82 | every row the reader returns is kept, under distinct column names, one per field, an unnamed field under a default name; distinct non-empty field names are the columns |
| SqlQueries.ExecuteReaderMaxRecordAsWritten | src/SemanticKernel.Orchestration.SampleAgents/SqlServer/SqlUtils/SqlQuery.cs:199-214 | the action sees the first maxRecordsToFetch + 1 rows (or all of them when there are fewer) |
| SqlQueries.MaxRecordAsWrittenExceedsBound | src/SemanticKernel.Orchestration.SampleAgents/SqlServer/SqlUtils/SqlQuery.cs:207 | with more rows than the bound, one row too many reaches the action |
| SqlQueries.ExecuteReaderMaxRecord | src/SemanticKernel.Orchestration.SampleAgents/SqlServer/SqlUtils/SqlQuery.cs:199-214 | the action sees the first rows, at most maxRecordsToFetch of them |
| SqlQueryExecutor.UnescapeEscape | src/SemanticKernel.Orchestration/Assistants/SampleAssistantDemo2/SqlServerQueryExecutor.cs:103-106 | escaping the pipes of a cell loses nothing: unescaping gives the cell text back |
| SqlQueryExecutor.EscapeNoNewLine | src/SemanticKernel.Orchestration/Assistants/SampleAssistantDemo2/SqlServerQueryExecutor.cs:105 | escaping adds no line break to a cell |
| SqlQueryExecutor.MarkdownLineCount | src/SemanticKernel.Orchestration/Assistants/SampleAssistantDemo2/SqlServerQueryExecutor.cs:79-112 | a table whose names and cells have no line break renders as exactly a header line, a separator line and one line per row |
| SqlQueryExecutor.MarkdownStartsWithHeader | src/SemanticKernel.Orchestration/Assistants/SampleAssistantDemo2/SqlServerQueryExecutor.cs:84-89 | the rendering starts with the header line: every column name in order, then "\|" and a line break |
| SqlQueryExecutor.RewritePrompt | src/SemanticKernel.Orchestration/Assistants/SampleAssistantDemo2/SqlServerQueryExecutor.cs:129-133 | the prompt starts with the fixed instructions followed immediately by the schema text, and continues with the user query |
| SqlQueryExecutor.RewritePromptWrapsSchema | src/SemanticKernel.Orchestration/Assistants/SampleAssistantDemo2/SqlServerQueryExecutor.cs:129-133 | as written, the schema reaches the model inside the record text of the AssistantResponse that ToPrompt returns |
| SqlQueryExecutor.RewrittenQuery | src/SemanticKernel.Orchestration/Assistants/SampleAssistantDemo2/SqlServerQueryExecutor.cs:137-140 | the query argument of the only function call; no call dereferences null, more than one throws |
| SqlQueryExecutor.FirstTable | src/SemanticKernel.Orchestration/Assistants/SampleAssistantDemo2/SqlServerQueryExecutor.cs:81 | Tables[0] exists exactly when the DataSet has a table |
| SqlQueryExecutor.QueryMarkdown | src/SemanticKernel.Orchestration/Assistants/SampleAssistantDemo2/SqlServerQueryExecutor.cs:65-135 | the Markdown of the first table returned by the query the model rewrites from the prompt as written, with the schema inside the record text; missing "gpt4o" kernel, a call count other than one, or no table stop it with the matching exception |
| SqlQueryExecutor.QueryExecutor.constructor | src/SemanticKernel.Orchestration/Assistants/SampleAssistantDemo2/SqlServerQueryExecutor.cs:20-32 | a new executor has only the ExecuteQuery function registered, no properties, no orchestrator and no shared state |
| SqlQueryExecutor.QueryExecutor.InitializeWithSharedState | src/SemanticKernel.Orchestration/Assistants/SampleAssistantDemo2/SqlServerQueryExecutor.cs:34-38 | the executor keeps the shared state, and the shared state records it as its query executor |
| SqlQueryExecutor.AppendHeaderCells | src/SemanticKernel.Orchestration/Assistants/SampleAssistantDemo2/SqlServerQueryExecutor.cs:85-88 | the header loop builds "\| name " for every column, in column order |
| SqlQueryExecutor.AppendSeparatorCells | src/SemanticKernel.Orchestration/Assistants/SampleAssistantDemo2/SqlServerQueryExecutor.cs:92-95 | the separator loop builds one "\|---" per column |
| SqlQueryExecutor.AppendRowCells | src/SemanticKernel.Orchestration/Assistants/SampleAssistantDemo2/SqlServerQueryExecutor.cs:101-107 | the cell loop builds "\| cell " per cell, a null cell as empty and every pipe escaped |
| SqlQueryExecutor.AppendRowLines | src/SemanticKernel.Orchestration/Assistants/SampleAssistantDemo2/SqlServerQueryExecutor.cs:99-109 | the row loop builds one line per row, in row order, each closed by "\|" |
| SqlQueryExecutor.QueryExecutor.ConvertDatasetToMarkdown | src/SemanticKernel.Orchestration/Assistants/SampleAssistantDemo2/SqlServerQueryExecutor.cs:79-112 | the Markdown table of the first table; a DataSet without tables throws |
| SqlQueryExecutor.QueryExecutor.ResolveDatabase | src/SemanticKernel.Orchestration/Assistants/SampleAssistantDemo2/SqlServerQueryExecutor.cs:49-155 | the named database or the user's pick, which becomes the current database; its schema from the cache or from the catalogue, which is cached afterwards |
| SqlQueryExecutor.QueryExecutor.ExecuteQuery | src/SemanticKernel.Orchestration/Assistants/SampleAssistantDemo2/SqlServerQueryExecutor.cs:45-77 | succeeds exactly when the query produces a table and an orchestrator is attached; then the Markdown is returned and stored in the "queryresult" property; otherwise the exception that stopped it |
| SqlSchema.FindGroup | src/SemanticKernel.Orchestration/Assistants/SampleAssistantDemo2/SqlServerSchemaAssistant.cs:138-139 | the position of the group whose key is the given table, and none exactly when no group has that key |
| SqlSchema.AddRowDistinct | src/SemanticKernel.Orchestration/Assistants/SampleAssistantDemo2/SqlServerSchemaAssistant.cs:138-146 | adding a catalogue row never opens a second group for a table |
| SqlSchema.AddRowColumns | src/SemanticKernel.Orchestration/Assistants/SampleAssistantDemo2/SqlServerSchemaAssistant.cs:140-145 | adding a row appends its column to its own table's group and to no other |
| SqlSchema.AddRowKeys | src/SemanticKernel.Orchestration/Assistants/SampleAssistantDemo2/SqlServerSchemaAssistant.cs:139 | after a row is added, the known tables are the earlier ones plus the row's table |
| SqlSchema.AddRowTotal | src/SemanticKernel.Orchestration/Assistants/SampleAssistantDemo2/SqlServerSchemaAssistant.cs:138-146 | adding a row adds exactly one column over all groups |
| SqlSchema.GroupRowsCorrect | src/SemanticKernel.Orchestration/Assistants/SampleAssistantDemo2/SqlServerSchemaAssistant.cs:138-146 | one TableInfo per distinct (schema, table) pair, exactly the pairs that occur in the rows, each holding that pair's columns in row order; no row is lost or duplicated |
| SqlSchema.ToPrompt | src/SemanticKernel.Orchestration/Assistants/SampleAssistantDemo2/SqlServerSchemaAssistant.cs:190-206 | the StringBuilder loops produce the schema text: for each table a header line, one line per column and a footer line |
| SqlSchema.SchemaTextLineCount | src/SemanticKernel.Orchestration/Assistants/SampleAssistantDemo2/SqlServerSchemaAssistant.cs:190-206 | a schema without line breaks in its names renders as two lines per table plus one per column |
| SqlSchema.RetrievedSchemaLineCount | src/SemanticKernel.Orchestration/Assistants/SampleAssistantDemo2/SqlServerSchemaAssistant.cs:117-206 | the schema built from catalogue rows renders as one line per row plus two per table |
| SqlSchemaAgent.SchemaRegistryShape | src/SemanticKernel.Orchestration.SampleAgents/SqlServer/SqlServerSchemaAssistant.cs:15-38 | the constructor registers three functions in order, GetDatabaseList, RetrieveDatabaseSchema (RetrieveTableSchema in Demo2) and GetTableSchemaRepresentation, only the last one final |
| SqlSchemaAgent.Demo2OffersEverything | src/SemanticKernel.Orchestration/Assistants/SampleAssistantDemo2/SqlServerSchemaAssistant.cs:20-41 | Demo2 registers no predicates, so every call offers all three functions whatever the state |
| SqlSchemaAgent.Answer | src/SemanticKernel.Orchestration.SampleAgents/SqlServer/SqlServerSchemaAssistant.cs:73-94 | fails exactly when the "gpt4omini" kernel is missing; otherwise it ends the cycle with the model's answer to the prompt built from the question and the schema text |
| SqlSchemaAgent.AnswerAsWrittenFailsOnMiss | src/SemanticKernel.Orchestration.SampleAgents/SqlServer/SqlServerSchemaAssistant.cs:78-91 | as written, a question about a database whose schema is not cached dereferences the null local and fails |
| SqlSchemaAgent.AnswerAsWrittenWrapsSchema | src/SemanticKernel.Orchestration.SampleAgents/SqlServer/SqlServerSchemaAssistant.cs:85-91 | as written, a cached schema reaches the model wrapped in the text of the AssistantResponse record |
| SqlSchemaAgent.RetrieveSchemaHiddenWhileNeeded | src/SemanticKernel.Orchestration.SampleAgents/SqlServer/SqlServerSchemaAssistant.cs:28 | as written, RetrieveDatabaseSchema is hidden while a listed database still has no schema; the intended predicate offers it |
| SqlSchemaAgent.RetrieveSchemaOfferedWhenDone | src/SemanticKernel.Orchestration.SampleAgents/SqlServer/SqlServerSchemaAssistant.cs:28 | as written, RetrieveDatabaseSchema is offered once every listed database has its schema; the intended predicate hides it |
| SqlSchemaAgent.RetrieveSchemaPredicatesOpposite | src/SemanticKernel.Orchestration.SampleAgents/SqlServer/SqlServerSchemaAssistant.cs:28 | once state is shared, the intended predicate holds exactly when the written one does not |
| SqlSchemaAgent.RetrievedForAllIsACount | src/SemanticKernel.Orchestration.SampleAgents/SqlServer/SqlServerSharedState.cs:41-43 | SchemaRetrievedForAllDataBases compares counts: a schema cached under an unlisted name makes it true while a listed database lacks its schema |
| SqlSchemaAgent.SchemaFactWithoutList | src/SemanticKernel.Orchestration.SampleAgents/SqlServer/SqlServerSharedState.cs:52-81 | without a database list the fact says only that every schema is retrieved |
| SqlSchemaAgent.SchemaFactAllLine | src/SemanticKernel.Orchestration.SampleAgents/SqlServer/SqlServerSharedState.cs:52-81 | the fact is the list header, the status lines, and the "all retrieved" line exactly when no listed database lacks a schema |
| SqlSchemaAgent.StatusLinesAt | src/SemanticKernel.Orchestration.SampleAgents/SqlServer/SqlServerSharedState.cs:59-73 | each listed database gets its own status line, at its position in the list |
| SqlSchemaAgent.Demo2FactRunsNamesTogether | src/SemanticKernel.Orchestration/Assistants/SampleAssistantDemo2/SqlServerSchemaAssistant.cs:174-181 | the Demo2 fact writes the cached names back to back, so a cache holding "ab" reads like one holding "a" and "b" |
| SqlSchemaAgent.SqlServerSharedState.constructor | src/SemanticKernel.Orchestration.SampleAgents/SqlServer/SqlServerSharedState.cs:8-50 | new shared state has no list, no cached schema, no current database and no assistants |
| SqlSchemaAgent.SqlServerSharedState.SchemaRetrievedForAllDataBases | src/SemanticKernel.Orchestration.SampleAgents/SqlServer/SqlServerSharedState.cs:41-43 | true only with a non-empty database list |
| SqlSchemaAgent.SqlServerSharedState.SetSchemaAssistant | src/SemanticKernel.Orchestration.SampleAgents/SqlServer/SqlServerSharedState.cs:17 | records the schema assistant |
| SqlSchemaAgent.SqlServerSharedState.SetQueryExecutor | src/SemanticKernel.Orchestration.SampleAgents/SqlServer/SqlServerSharedState.cs:18 | records the query executor |
| SqlSchemaAgent.SqlServerSharedState.SetCurrentDatabase | src/SemanticKernel.Orchestration.SampleAgents/SqlServer/SqlServerSharedState.cs:34-37 | records the chosen database |
| SqlSchemaAgent.SqlServerSharedState.AppendStatus | src/SemanticKernel.Orchestration.SampleAgents/SqlServer/SqlServerSharedState.cs:61-72 | one database's status line, and whether its schema is cached |
| SqlSchemaAgent.SqlServerSharedState.StatusList | src/SemanticKernel.Orchestration.SampleAgents/SqlServer/SqlServerSharedState.cs:59-73 | the status lines of all listed databases, and whether every one has a schema |
| SqlSchemaAgent.SqlServerSharedState.SchemaStateFact | src/SemanticKernel.Orchestration.SampleAgents/SqlServer/SqlServerSharedState.cs:52-81 | the StringBuilder loop produces the schema fact |
| SqlSchemaAgent.SqlServerSharedState.Demo2SchemaStateFact | src/SemanticKernel.Orchestration/Assistants/SampleAssistantDemo2/SqlServerSchemaAssistant.cs:162-185 | the Demo2 loop produces the Demo2 schema fact |
| SqlSchemaAgent.SqlServerSharedState.ToPromptFact | src/SemanticKernel.Orchestration.SampleAgents/SqlServer/SqlServerSharedState.cs:22-32 | the schema fact, the query fact, and the chosen database when there is one |
| SqlSchemaAgent.SchemaAssistant.constructor | src/SemanticKernel.Orchestration.SampleAgents/SqlServer/SqlServerSchemaAssistant.cs:15-38 | a new assistant has the three registrations of its variant, no properties, no orchestrator and no shared state |
| SqlSchemaAgent.SchemaAssistant.InitializeWithSharedState | src/SemanticKernel.Orchestration.SampleAgents/SqlServer/SqlServerSchemaAssistant.cs:40-44 | the assistant keeps the shared state, and the shared state records the assistant |
| SqlSchemaAgent.SchemaAssistant.InnerGetDatabaseList | src/SemanticKernel.Orchestration.SampleAgents/SqlServer/SqlServerSchemaAssistant.cs:58-71 | a cached list is returned without asking the server; otherwise the server's list is returned and cached |
| SqlSchemaAgent.SchemaAssistant.GetDatabaseList | src/SemanticKernel.Orchestration.SampleAgents/SqlServer/SqlServerSchemaAssistant.cs:46-51 | the database list wrapped in a response, the list cached afterwards |
| SqlSchemaAgent.SchemaAssistant.InnerGetDatabaseSchema | src/SemanticKernel.Orchestration.SampleAgents/SqlServer/SqlServerSchemaAssistant.cs:110-154 | a schema cached under the name in any case is returned unchanged; otherwise the grouped catalogue rows are cached under the name and returned |
| SqlSchemaAgent.SchemaAssistant.RetrieveDatabaseSchema | src/SemanticKernel.Orchestration.SampleAgents/SqlServer/SqlServerSchemaAssistant.cs:96-108 | the response carries the schema now cached for the database |
| SqlSchemaAgent.SchemaAssistant.GetTableSchemaRepresentation | src/SemanticKernel.Orchestration.SampleAgents/SqlServer/SqlServerSchemaAssistant.cs:73-94 | as written: the schema is always cached afterwards, and the answer is the as-written one for the cache as it was before the call |
| SqlSchemaAgent.SchemaAssistant.GetTableSchemaRepresentationCorrected | src/SemanticKernel.Orchestration.SampleAgents/SqlServer/SqlServerSchemaAssistant.cs:73-94 | fails exactly when the kernel is missing; otherwise it answers from the schema now cached for the database |
| SqlServerOrchestration.LastOwnerSpec | src/SemanticKernel.Orchestration.SampleAgents/SqlServer/SqlServerAssistant.cs:85-98 | the map knows a name exactly when some offered function has it, and then names the owner of the last such function |
| SqlServerOrchestration.OwnersOfIsLastOwner | src/SemanticKernel.Orchestration.SampleAgents/SqlServer/SqlServerAssistant.cs:85-98 | the dictionary the loop builds has one entry per name, holding the last owner that offered it |
| SqlServerOrchestration.FinalsOfExactly | src/SemanticKernel.Orchestration.SampleAgents/SqlServer/SqlServerAssistant.cs:93-96 | a name is in finalFunctions exactly when a final function of that name was offered |
| SqlServerOrchestration.OfferedPairsSound | src/SemanticKernel.Orchestration.SampleAgents/SqlServer/SqlServerAssistant.cs:86-97 | every offered function belongs to its owner's registry and its predicate holds |
| SqlServerOrchestration.RoutedCallIsKnown | src/SemanticKernel.Orchestration.SampleAgents/SqlServer/SqlServerAssistant.cs:122-123 | a call the map routes to a sub-assistant is a function that sub-assistant has registered, so "not found" cannot happen |
| SqlServerOrchestration.OperationPromptShape | src/SemanticKernel.Orchestration.SampleAgents/SqlServer/SqlServerAssistant.cs:133-152 | the prompt holds the facts on their own line right after the preamble and ends with the question (the task in Demo2) on its own line |
| SqlServerOrchestration.IterateFuelMonotone | src/SemanticKernel.Orchestration.SampleAgents/SqlServer/SqlServerAssistant.cs:77-130 | more rounds never change a loop that already ended |
| SqlServerOrchestration.DispatchFuelMonotone | src/SemanticKernel.Orchestration.SampleAgents/SqlServer/SqlServerAssistant.cs:77-130 | more fuel never changes an operation that already ended |
| SqlServerOrchestration.StoppingRoundEnds | src/SemanticKernel.Orchestration.SampleAgents/SqlServer/SqlServerAssistant.cs:77-130 | a round that stops the loop ends the operation at once |
| SqlServerOrchestration.TextReplyEnds | src/SemanticKernel.Orchestration.SampleAgents/SqlServer/SqlServerAssistant.cs:112-117 | a reply without function calls ends the operation with the reply's text |
| SqlServerOrchestration.UnofferedCallThrows | src/SemanticKernel.Orchestration.SampleAgents/SqlServer/SqlServerAssistant.cs:122 | a call to a function nobody offered this round throws KeyNotFoundException |
| SqlServerOrchestration.FinalCallEnds | src/SemanticKernel.Orchestration.SampleAgents/SqlServer/SqlServerAssistant.cs:123-128 | a call to a final function ends the operation with its owner's response, whatever calls follow |
| SqlServerOrchestration.StopIgnoresSuffix | src/SemanticKernel.Orchestration.SampleAgents/SqlServer/SqlServerAssistant.cs:119-129 | the calls after a stopping one are never executed |
| SqlServerOrchestration.CollectFrom | src/SemanticKernel.Orchestration.SampleAgents/SqlServer/SqlServerAssistant.cs:89-97 | the inner loop appends one sub-assistant's functions, maps their names to it and notes the final ones |
| SqlServerOrchestration.CollectFunctions | src/SemanticKernel.Orchestration.SampleAgents/SqlServer/SqlServerAssistant.cs:81-98 | the loops build the functions list, the name-to-owner map and the final names from all offered functions in order |
| SqlServerOrchestration.RunRoundCalls | src/SemanticKernel.Orchestration.SampleAgents/SqlServer/SqlServerAssistant.cs:119-129 | the foreach over the calls gives the outcome of the call sequence |
| SqlServerOrchestration.ExcuteDatabaseOperation | src/SemanticKernel.Orchestration.SampleAgents/SqlServer/SqlServerAssistant.cs:70-131 | the method's result is the operation's outcome: the kernel lookup, then the rounds |
| SqlServerOrchestration.PlayRounds | src/SemanticKernel.Orchestration.SampleAgents/SqlServer/SqlServerAssistant.cs:77-130 | the while loop plays the rounds until one stops it |
| SqlServerOrchestration.PlayRound | src/SemanticKernel.Orchestration/Assistants/SampleAssistantDemo2/SqlServerAssistant.cs:87-133 | one pass of the loop gives the round's outcome in both versions, the Demo2 single call and usage report included |
| SqlServerOrchestration.SqlServerAssistant.constructor | src/SemanticKernel.Orchestration.SampleAgents/SqlServer/SqlServerAssistant.cs:31-57 | fresh shared state wired both ways to the two sub-assistants, "schema" and "query" in that order, and ExcuteDatabaseOperation registered |
| SqlServerOrchestration.SqlServerAssistant.ConstructedExecutorIsWired | src/SemanticKernel.Orchestration.SampleAgents/SqlServer/SqlServerAssistant.cs:39-51 | the wiring the constructor sets up is what the query executor needs |
| SqlServerOrchestration.SqlServerAssistant.SetOrchestrator | src/SemanticKernel.Orchestration.SampleAgents/SqlServer/SqlServerAssistant.cs:59-64 | the orchestrator is set on this assistant and on both sub-assistants |
| TokenUsage.AddTo | src/SemanticKernel.Orchestration/Helpers/TokenUsageCounter.cs:18-23 | each counter grows by exactly the matching count of the report |
| TokenUsage.AddEntryTotals | src/SemanticKernel.Orchestration/Helpers/TokenUsageCounter.cs:38-45 | adding a report grows that model's counters, created at zero if missing, and leaves every other model's counters as they were |
| TokenUsage.AccumulateTotals | src/SemanticKernel.Orchestration/Helpers/TokenUsageCounter.cs:38-112 | after a sequence of reports, each model's counters are its earlier counters plus the sum of exactly the reports naming it |
| TokenUsage.UsageSumAbsent | src/SemanticKernel.Orchestration/Helpers/TokenUsageCounter.cs:38-45 | a model no report names gains nothing |
| TokenUsage.ModelTokenUsage.constructor | src/SemanticKernel.Orchestration/Helpers/TokenUsageCounter.cs:26-36 | a new usage object has no models and zero last-call figures |
| TokenUsage.ModelTokenUsage.AddUsage | src/SemanticKernel.Orchestration/Helpers/TokenUsageCounter.cs:38-50 | the report is accumulated into the model's entry and recorded as the last call |
| TokenUsage.CleanModelName | src/SemanticKernel.Orchestration/Helpers/TokenUsageCounter.cs:75-90 | an empty name gives ""; a name ending in a date loses the date and the separator before it; any other name is kept; a ten-character date alone throws ArgumentOutOfRangeException |
| TokenUsage.GetModelName | src/SemanticKernel.Orchestration/Helpers/TokenUsageCounter.cs:66-73 | the cleaned model of the inner ChatCompletion, or "" when there is none |
| TokenUsage.NoUsageNoContribution | src/SemanticKernel.Orchestration/Helpers/TokenUsageCounter.cs:101-112 | items that are not OpenAI replies carrying usage add nothing |
| TokenUsage.ContributionsFromItems | src/SemanticKernel.Orchestration/Helpers/TokenUsageCounter.cs:101-112 | every report added is the usage of one of the returned items |
| TokenUsage.ContributionsStop | src/SemanticKernel.Orchestration/Helpers/TokenUsageCounter.cs:101-112 | once a model name throws, the later items add nothing |
| TokenUsage.TokenUsageCounter.constructor | src/SemanticKernel.Orchestration/Helpers/TokenUsageCounter.cs:53-57 | a new counter has counted no call and holds an empty usage object |
| TokenUsage.TokenUsageCounter.CountItem | src/SemanticKernel.Orchestration/Helpers/TokenUsageCounter.cs:103-110 | one returned item contributes what Contribution says: an OpenAI item with usage adds its report under its cleaned model name and becomes the last call, a throwing name adds nothing, any other item changes nothing |
| TokenUsage.TokenUsageCounter.OnChatCompletion | src/SemanticKernel.Orchestration/Helpers/TokenUsageCounter.cs:92-116 | the call is counted; the usage of each OpenAI item carrying one is accumulated in order; a throwing model name stops it with the earlier items kept; the last-call model and total, prompt and completion counts are those of the last report added, and unchanged when none is |

## Left out

- Asynchrony and cancellation. Every `async` method is modelled as a sequential step, and `CancellationToken` arguments are dropped. There is no concurrency to verify.
- The `AsyncLocal` ambient container of `KernelStore` is an explicit field of the store, `currentContainer`.
- `Kernels.KernelStore.constructor`: the source's container slot is `private static` (KernelStore.cs:39), one slot shared by every store within an async flow. So a store created while a scope is active already sees that scope's container, and a scope started through one store is the active one for all of them. The model gives each store its own slot, empty at construction, and does not capture that sharing.
- Language-model calls, SQL execution, the tokenizer, `DateTime.TryParse` and the user's database selection are parameters of the members that use them. Examples are `ask`, `rewrite`, `runQuery`, `llm`, `countTokens`, `parsesAsDate` and `choose`. The model states what the code does with their answers, not what those answers are.
- Delegates registered with an assistant are a function of the world state, the delegate's identity and the arguments. Eligibility predicates are likewise evaluated against the world state.
- Prompts reach a language model as one text. The execution settings are not modelled: function-choice behaviour, temperature, and the `KernelFunction` objects built from methods by reflection.
- ADO.NET objects are not modelled as objects. `ConnectionData` records the actions it asks of the connection and transaction, in order. A query result is a list of rows of cell texts.
- Provider-specific parameter naming is reduced to the provider's marker prefix. `DataAccess.GetParameterFormat` and `string.Format` are not modelled.
- Parameter values are modelled by their text (`ToString`), or DBNull. Their .NET runtime types are not modelled.
- Logging and console output produce no observable state here: `ILogger` calls, the usage report Demo2 prints, and `TokenUsagePrinter`. The Demo2 loop keeps only the null dereference of a missing token counter.
- `SqlQuery` members not modelled:
  - `FormatQuery`;
  - the setters that differ from the modelled ones only in their DbType (`SetInt16Param`, `SetInt8Param`, `SetSingleParam`, `SetGuidParam`, the non-nullable `SetBooleanParam`, both `SetDateTimeParam`, `SetFloatParam`);
  - `SetInt64OutParam`, which is `SetInt32OutParam` with Int64;
  - `GetOutParam`;
  - the executors other than `ExecuteDataset` and `ExecuteReaderMaxRecord`: `ExecuteScalar`, `ExecuteReader`, `ExecuteGetSchema`, `ExecuteBuildEntities`, `ExecuteList`, `ExecuteNonQuery`, `FillDataTable`, `FillDataset`, `Hydrate` and `HydrateSingle`.

  These executors hand the reader straight to caller code, which is outside the model.
- `DataAccess`: the static executors and helpers built on `Execute` are not modelled (`ExecuteScalar`, `ExecuteGetEntity`, `ExecuteNonQuery`, `ExecuteReader`, `FillDataset`, `ExecuteDataset`, `ToSafeValue`, `AddParameterToCommand`, `CreateQuery*`, connection-string set-up). Also not modelled is the copy of output-parameter values after `Execute`'s body runs.
- `SqlServerSharedState` of the Demo2 variant is not part of this model. The SampleAgents shared state stands in for it. It has the same members, and its Demo2 schema fact is `Demo2SchemaStateFact`.
- `SqlServerQueryExecutor` of the SampleAgents variant is not part of this model. The Demo2 executor serves as the composite assistant's "query" sub-assistant.
- The constant facts `SqlServerQueryExecutorState.ToPromptFact` ("QueryResult.") and `InjectedPrompt` are used only as text. `QueryResults` and `SqlServerQueryExecutorState.Queries` are never read, so they are not modelled.
- `SqlServerOrchestration.ExcuteDatabaseOperation`: the C# loop is unbounded. The model runs at most `fuel` rounds and reports `OutOfFuel` when they run out. `DispatchFuelMonotone` shows that the bound only cuts off loops that were still going.
- `TokenUsage.AddTo`, `TokenUsage.TokenUsageCounter.OnChatCompletion` and `CallLimiter.CallLimiterTool.OnChatWrapping`: the counters are unbounded integers. The 32-bit overflow of the C# `int` fields is not modelled, because no realistic number of calls or tokens reaches it.
- `MockChat.MockChatCompletionService.SetMockResponseTool`: the plugin name, the generated call id and the message metadata are not kept. Only the function name and arguments reach the model's replies.
- The summarizer reply of `TokenLimitedConversation`, when it does not hold exactly one message, is rendered by the parameter `renderOther`, because `FunctionResult.ToString` is outside the model. A null message content is modelled as "".
- `DisposableAction`: `GC.SuppressFinalize` is not modelled, as the class declares no finalizer. The protected `Dispose(false)` that a subclass may call is `DisposeCore(false)`.
- Streaming completions: the interceptor passes streaming calls straight through, and the mock either returns its streaming generator's output or throws.
- `Text.Fold`, and with it every key compared ignoring case: only the ASCII letters A-Z are folded. .NET's `OrdinalIgnoreCase` also folds letters outside ASCII (such as "É" and "é"), which the model treats as different keys.
- `Text.Line` and `Text.NewLine`: `StringBuilder.AppendLine` and `Environment.NewLine` are "\n", as on Linux and macOS. On Windows .NET writes "\r\n", which the model does not cover, so the line counts and texts it proves hold for "\n" line ends only. Verbatim prompt literals that span lines are another matter: their source files use CRLF line ends, so those literals hold "\r\n" on every platform. The model writes "\r\n" there: `SqlQueryExecutor.RewritePromptHead`, `SqlSchemaAgent.SchemaQuestionInstruction` and `SqlSchemaAgent.SchemaQuestionPrompt`, `SqlServerOrchestration.SampleAgentsPreamble` and `SqlServerOrchestration.Demo2Preamble`, and `SqlServerOrchestration.InjectedPrompt`.
- `Interception.ChatCompletionInterceptor.GetChatMessageContents`: the wrappers' and interceptors' hooks always return normally. A hook that throws, which would end the call and skip the later hooks, is not modelled; an exception of the inner service is.
- `ChatAssistants.SimpleChatAssistant.SendMessage` and `Conversations.TokenLimitedConversation.Create`: the kernel is looked up and built, but the chat completion service it resolves with `GetRequiredService` is the one given to the assistant or the conversation. Resolving the service from the kernel's registrations, and the exception when none is registered, are not modelled.
- `SqlQueryExecutor.QueryMarkdown` and `SqlQueryExecutor.QueryExecutor.ExecuteQuery`: `runQuery` is any function from database and query to tables, so it may return no table, and `FirstTable` then throws IndexOutOfRangeException. In the source that path is unreachable. `SqlQuery.ExecuteDataset` always returns its one "Result" table (SqlQuery.cs:39-40) and swallows query errors into it (:75-77). The model does not tie `runQuery` to `SqlQueries.DatasetAsWritten`.
- `WorkflowBuilder.WorkflowBuilderPlugin.AddBlock`: the parameter dictionary is never null. In C# a null one is stored as given, and `DumpMermaidDiagram` then throws NullReferenceException at `parameters.Count`; the model cannot express that input.

## Findings

| source | as written | input that shows it | evidently intended | confidence | as-written member | corrected member |
|---|---|---|---|---|---|---|
| src/SemanticKernel.Orchestration.SampleAgents/SqlServer/SqlServerSchemaAssistant.cs:78-91 | on a cache miss the schema is retrieved and cached, but the local `databaseSchema` stays null and is then dereferenced | the first GetTableSchemaRepresentation call for a database whose schema is not cached, with the kernel registered | answer from the schema just retrieved | high, not executed | SqlSchemaAgent.AnswerAsWrittenFailsOnMiss | SqlSchemaAgent.SchemaAssistant.GetTableSchemaRepresentationCorrected |
| src/SemanticKernel.Orchestration.SampleAgents/SqlServer/SqlServerSchemaAssistant.cs:28 | RetrieveDatabaseSchema is offered only when the schemas of all listed databases are already retrieved | database list ["db"], no schema cached: the function is hidden | offer it while some schema is still missing | medium, not executed | SqlSchemaAgent.RetrieveSchemaHiddenWhileNeeded | SqlSchemaAgent.RetrieveSchemaPredicatesOpposite |
| src/SemanticKernel.Orchestration/Assistants/SampleAssistantDemo2/SqlServerQueryExecutor.cs:132 | `DatabaseSchema.ToPrompt` returns an AssistantResponse, so the prompt interpolates the record's ToString around the schema text | any schema: the prompt holds "AssistantResponse { Result = ..., State = , TerminateCycle = False }" | the schema text itself | medium, not executed | SqlQueryExecutor.RewritePromptWrapsSchema | SqlQueryExecutor.RewritePrompt |
| src/SemanticKernel.Orchestration.SampleAgents/SqlServer/SqlServerSchemaAssistant.cs:85-91 | the same record wrapper reaches the schema question prompt on a cache hit | any cached schema | the schema text itself | medium, not executed | SqlSchemaAgent.AnswerAsWrittenWrapsSchema | SqlSchemaAgent.Answer |
| src/SemanticKernel.Orchestration.SampleAgents/SqlServer/SqlUtils/SqlQuery.cs:54-63 | a renamed header (name + counter) is not checked against later fields; the rejected Add throws inside the swallowed reader, so every row is lost | fields "a", "a1", "a" with one row: the table keeps no rows | distinct column names and every row kept | medium, not executed | SqlQueries.RenamedHeaderCollides | SqlQueries.ExecuteDataset |
| src/SemanticKernel.Orchestration.SampleAgents/SqlServer/SqlUtils/SqlQuery.cs:56-61 | the duplicate check looks at the field names, where an unnamed field is "", but the table names that column "Column1", so a later field "Column1" passes the check and the table rejects it inside the swallowed reader, losing every row | fields "", "Column1" (an unnamed expression such as COUNT(*) next to a column named Column1) with one row: the table keeps no rows | distinct column names and every row kept | medium, not executed | SqlQueries.UnnamedThenColumn1LosesRows | SqlQueries.ExecuteDataset |
| src/SemanticKernel.Orchestration.SampleAgents/SqlServer/SqlUtils/SqlQuery.cs:207 | `maxRecordsToFetch-- >= 0` lets maxRecordsToFetch + 1 rows reach the action | maxRecordsToFetch = 0 and a reader with one row: the action runs once | at most maxRecordsToFetch rows | high, not executed | SqlQueries.MaxRecordAsWrittenExceedsBound | SqlQueries.ExecuteReaderMaxRecord |
