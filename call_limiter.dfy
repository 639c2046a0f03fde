/**
 * CallLimiterTool: a chat wrapper that counts the calls it sees and, past its limit, answers every
 * call itself with a fixed assistant message, so that the language model is not called any more.
 */
module CallLimiter {
  import opened Wrappers
  import opened Text
  import opened Chat

  /** The message returned once the limit is exceeded. */
  function LimitMessage(maxCalls: int): string
  {
    "Max number of call reached: " + IntToString(maxCalls)
  }

  class CallLimiterTool {
    const maxCalls: int
    var actualCalls: int

    constructor (maxCalls: int)
      ensures this.maxCalls == maxCalls && actualCalls == 0
    {
      this.maxCalls := maxCalls;
      actualCalls := 0;
    }

    /**
     * OnChatWrappingAsync: every call is counted. Calls 1 to maxCalls pass through (None, the null
     * answer); every later call is answered with one assistant message naming the limit.
     */
    method OnChatWrapping() returns (r: Option<seq<ChatMessageContent>>)
      modifies this
      ensures actualCalls == old(actualCalls) + 1
      ensures r.Some? <==> actualCalls > maxCalls
      ensures r.Some? ==> r.value == [AssistantText(LimitMessage(maxCalls))]
    {
      actualCalls := actualCalls + 1;
      if actualCalls > maxCalls {
        return Some([AssistantText(LimitMessage(maxCalls))]);
      }
      return None;
    }
  }

  /** The answer the n-th call of a fresh limiter gives (n counted from 1). */
  function NthAnswer(maxCalls: int, n: nat): Option<seq<ChatMessageContent>>
  {
    if n > maxCalls then Some([AssistantText(LimitMessage(maxCalls))]) else None
  }

  /**
   * Calls a fresh limiter n times in a row and collects the answers: exactly the calls numbered up
   * to maxCalls pass through, and once one call is answered by the limiter every later call is too.
   */
  method CallRepeatedly(maxCalls: int, n: nat) returns (answers: seq<Option<seq<ChatMessageContent>>>)
    ensures |answers| == n
    ensures forall k :: 0 <= k < n ==> answers[k] == NthAnswer(maxCalls, k + 1)
    ensures forall k :: 0 <= k < n ==> (answers[k].None? <==> k < maxCalls)
    ensures forall j, k :: 0 <= j <= k < n && answers[j].Some? ==> answers[k] == answers[j]
  {
    var limiter := new CallLimiterTool(maxCalls);
    answers := [];
    while |answers| < n
      invariant |answers| <= n && limiter.actualCalls == |answers|
      invariant forall k :: 0 <= k < |answers| ==> answers[k] == NthAnswer(maxCalls, k + 1)
    {
      var a := limiter.OnChatWrapping();
      answers := answers + [a];
    }
  }
}
