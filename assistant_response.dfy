/**
 * AgentOperationResult and AssistantResponse: what an assistant function returns to the dispatch
 * loop, and the text form of a tool call that is put back into a prompt.
 */
module AssistantResponses {
  import opened Wrappers
  import opened Chat
  import Text
  import SqlSchema

  /**
   * The untyped State object attached to a response, restricted to the kinds the modelled
   * assistants attach: a database list, a database schema, a Markdown table.
   */
  datatype Payload =
    | DatabaseNames(names: seq<string>)
    | Schema(schema: SqlSchema.DatabaseSchema)
    | Markdown(text: string)

  datatype AssistantResponse = AssistantResponse(result: string, state: Option<Payload>, terminateCycle: bool)

  /** The implicit conversion from string: no state, and the cycle goes on. */
  function FromString(result: string): (r: AssistantResponse)
    ensures r.result == result && r.state.None? && !r.terminateCycle
  {
    AssistantResponse(result, None, false)
  }

  const RecordPrefix: string := "AssistantResponse { Result = "
  const RecordMiddle: string := ", State = , TerminateCycle = "

  /** The compiler-generated ToString of the record, for a response without state. */
  function ResponseRecordText(r: AssistantResponse): string
    requires r.state.None?
  {
    RecordPrefix + r.result + RecordMiddle + (if r.terminateCycle then "True" else "False") + " }"
  }

  /** The record text of a plain string response wraps the string, with TerminateCycle = False. */
  lemma FromStringRecordText(t: string)
    ensures ResponseRecordText(FromString(t)) == RecordPrefix + t + RecordMiddle + "False" + " }"
  {
  }

  datatype AgentOperationResult = AgentOperationResult(
    functionName: string, arguments: Arguments, result: string, state: Option<Payload>)

  /** KeyValuePair<string, object>.ToString(): "[key, value]". */
  function PairText(p: (string, string)): string
  {
    "[" + p.0 + ", " + p.1 + "]"
  }

  function PairTexts(args: Arguments): (r: seq<string>)
    ensures |r| == |args| && forall i :: 0 <= i < |args| ==> r[i] == PairText(args[i])
  {
    seq(|args|, i requires 0 <= i < |args| => PairText(args[i]))
  }

  /** ToPromptString: the call, its arguments joined by ",", and the result. */
  function ToPromptString(op: AgentOperationResult): string
  {
    "Tool called: " + op.functionName + " with parameters " + Text.Join(",", PairTexts(op.arguments))
      + " returned: " + op.result
  }

  /** The prompt string names the function first and ends with the result, whatever the arguments. */
  lemma ToPromptStringFrames(op: AgentOperationResult)
    ensures var s := ToPromptString(op);
      var head := "Tool called: " + op.functionName + " with parameters ";
      |s| >= |head| + |op.result| && s[..|head|] == head && s[|s| - |op.result|..] == op.result
  {
  }

  /** With no arguments the parameter list is empty; with one it is that pair alone. */
  lemma ToPromptStringArguments(op: AgentOperationResult)
    requires |op.arguments| <= 1
    ensures ToPromptString(op) == "Tool called: " + op.functionName + " with parameters "
      + (if |op.arguments| == 0 then "" else "[" + op.arguments[0].0 + ", " + op.arguments[0].1 + "]")
      + " returned: " + op.result
  {
  }
}
