/**
 * The composite SQL Server assistant (SqlServerAssistant, in its SampleAgents and Demo2 versions):
 * it owns the shared state, wires its two sub-assistants to it, and runs ExcuteDatabaseOperation, a
 * loop that offers the sub-assistants' eligible functions to a language model and executes the calls
 * the model makes until one of them is final or ends the cycle.
 *
 * The loop is modelled over an abstract world S: whatever the sub-assistants' delegates read and
 * change. The delegates (run), the truth of their predicates (holds), the facts text (facts) and the
 * model (ask) are parameters.
 */
module SqlServerOrchestration {
  import opened Wrappers
  import opened Text
  import opened OrderedDict
  import opened Chat
  import opened AssistantResponses
  import opened Assistants
  import opened SqlSchemaAgent
  import opened SqlQueryExecutor

  /** What the model answers: its text, and the function calls it asks for, in order. */
  datatype Reply = Reply(text: string, calls: seq<FunctionCall>)

  /** How ExcuteDatabaseOperation ends: with a response, with an exception, or still looping when the fuel ran out. */
  datatype Outcome<S> = Finished(response: AssistantResponse, state: S) | Threw(error: Exception, state: S) | OutOfFuel(state: S)

  /**
   * Everything the loop runs against. subs are the sub-assistants' registries in _subAssistants order;
   * run(s, i, h, args) is what delegate h of sub-assistant i does.
   */
  datatype Env<!S> = Env(
    variant: Variant,
    operation: string,
    subs: seq<Registry>,
    run: (S, nat, nat, Arguments) -> Result<Step<S>>,
    holds: S -> string -> bool,
    facts: S -> string,
    ask: (Prompt, seq<FunctionInfo>) -> Reply,
    counterAvailable: bool)

  /** The delegates of sub-assistant i. */
  function SubDelegates<S>(e: Env<S>, i: nat): Delegates<S>
  {
    (x: S, h: nat, args: Arguments) => e.run(x, i, h, args)
  }

  /** An offered function with the index of the sub-assistant that offers it. */
  type Owned = (nat, FunctionInfo)

  function Tagged(i: nat, fs: seq<FunctionInfo>): seq<Owned>
  {
    if |fs| == 0 then [] else Tagged(i, fs[..|fs| - 1]) + [(i, fs[|fs| - 1])]
  }

  /** The functions of one round, each with its owner: every sub-assistant's eligible functions, in order. */
  function OfferedPairs(subs: seq<Registry>, holds: string -> bool): seq<Owned>
  {
    if |subs| == 0 then [] else OfferedPairs(subs[..|subs| - 1], holds) + Tagged(|subs| - 1, EligibleFunctions(subs[|subs| - 1], holds))
  }

  lemma {:induction false} TaggedAt(i: nat, fs: seq<FunctionInfo>)
    ensures |Tagged(i, fs)| == |fs| && forall k :: 0 <= k < |fs| ==> Tagged(i, fs)[k] == (i, fs[k])
    decreases |fs|
  {
    if |fs| > 0 {
      TaggedAt(i, fs[..|fs| - 1]);
    }
  }

  /** The functions list handed to the model. */
  function Infos(pairs: seq<Owned>): seq<FunctionInfo>
  {
    if |pairs| == 0 then [] else Infos(pairs[..|pairs| - 1]) + [pairs[|pairs| - 1].1]
  }

  /** assistantMap: function name to owner, a case-sensitive dictionary in which a later owner overwrites an earlier one. */
  function OwnersOf(pairs: seq<Owned>): Entries<nat>
  {
    if |pairs| == 0 then [] else
    var last := pairs[|pairs| - 1];
    Put(OwnersOf(pairs[..|pairs| - 1]), last.1.name, last.0, false)
  }

  /** finalFunctions: the names of the final functions offered, in order. */
  function FinalsOf(pairs: seq<Owned>): seq<string>
  {
    if |pairs| == 0 then [] else
    var last := pairs[|pairs| - 1];
    FinalsOf(pairs[..|pairs| - 1]) + (if last.1.isFinal then [last.1.name] else [])
  }

  /** Position k holds the last offered function named name. */
  predicate LastWithName(pairs: seq<Owned>, name: string, k: int)
  {
    0 <= k < |pairs| && pairs[k].1.name == name && forall j :: k < j < |pairs| ==> pairs[j].1.name != name
  }

  /** The owner the map ends up with for a name: that of the last offered function with exactly that name. */
  function LastOwner(pairs: seq<Owned>, name: string): Option<nat>
  {
    if |pairs| == 0 then None
    else if pairs[|pairs| - 1].1.name == name then Some(pairs[|pairs| - 1].0)
    else LastOwner(pairs[..|pairs| - 1], name)
  }

  /** The map knows a name exactly when some offered function has it, and then names the owner of the last one. */
  lemma {:induction false} LastOwnerSpec(pairs: seq<Owned>, name: string)
    ensures LastOwner(pairs, name).Some? <==> exists k :: 0 <= k < |pairs| && pairs[k].1.name == name
    ensures LastOwner(pairs, name).Some? ==> exists k :: LastWithName(pairs, name, k) && pairs[k].0 == LastOwner(pairs, name).value
    decreases |pairs|
  {
    if |pairs| > 0 && pairs[|pairs| - 1].1.name != name {
      var init := pairs[..|pairs| - 1];
      LastOwnerSpec(init, name);
      assert forall k :: 0 <= k < |init| ==> init[k] == pairs[k];
      if LastOwner(init, name).Some? {
        var k :| LastWithName(init, name, k) && init[k].0 == LastOwner(init, name).value;
        assert LastWithName(pairs, name, k);
      }
    } else if |pairs| > 0 {
      assert LastWithName(pairs, name, |pairs| - 1);
    }
  }

  /** The owner the map names is one of the sub-assistants. */
  lemma LastOwnerBelow(pairs: seq<Owned>, name: string, n: nat)
    requires OwnersBelow(pairs, n) && LastOwner(pairs, name).Some?
    ensures LastOwner(pairs, name).value < n
  {
    LastOwnerSpec(pairs, name);
  }

  predicate OwnersBelow(pairs: seq<Owned>, n: nat)
  {
    forall k :: 0 <= k < |pairs| ==> pairs[k].0 < n
  }

  /** The dictionary built by the loop holds, for each name, the last owner offering it. */
  lemma {:induction false} OwnersOfIsLastOwner(pairs: seq<Owned>, name: string)
    ensures UniqueKeys(OwnersOf(pairs), false)
    ensures Get(OwnersOf(pairs), name, false) == LastOwner(pairs, name)
    decreases |pairs|
  {
    if |pairs| > 0 {
      var init := pairs[..|pairs| - 1];
      var last := pairs[|pairs| - 1];
      OwnersOfIsLastOwner(init, name);
      PutKeepsUnique(OwnersOf(init), last.1.name, last.0, false);
      if last.1.name == name {
        PutThenGet(OwnersOf(init), last.1.name, name, last.0, false);
      } else {
        PutKeepsOthers(OwnersOf(init), last.1.name, name, last.0, false);
      }
    }
  }

  lemma {:induction false} FinalsOfExactly(pairs: seq<Owned>, name: string)
    ensures name in FinalsOf(pairs) <==> exists k :: 0 <= k < |pairs| && pairs[k].1.name == name && pairs[k].1.isFinal
    decreases |pairs|
  {
    if |pairs| > 0 {
      var init := pairs[..|pairs| - 1];
      FinalsOfExactly(init, name);
      assert forall k :: 0 <= k < |init| ==> init[k] == pairs[k];
    }
  }

  /** Every offered function belongs to the registry of its owner and its predicate holds. */
  lemma {:induction false} OfferedPairsSound(subs: seq<Registry>, holds: string -> bool)
    ensures OwnersBelow(OfferedPairs(subs, holds), |subs|)
    ensures forall k :: 0 <= k < |OfferedPairs(subs, holds)| ==>
      OfferedPairs(subs, holds)[k].1 in Values(subs[OfferedPairs(subs, holds)[k].0])
      && Eligible(OfferedPairs(subs, holds)[k].1, holds)
    decreases |subs|
  {
    if |subs| > 0 {
      var init := subs[..|subs| - 1];
      OfferedPairsSound(init, holds);
      var n := |subs| - 1;
      var tail := EligibleFunctions(subs[n], holds);
      var before := OfferedPairs(init, holds);
      var all := OfferedPairs(subs, holds);
      assert init == subs[..n];
      assert all == before + Tagged(n, tail);
      TaggedAt(n, tail);
      forall k | 0 <= k < |all|
        ensures all[k].0 < |subs|
        ensures all[k].1 in Values(subs[all[k].0]) && Eligible(all[k].1, holds)
      {
        if k < |before| {
          assert all[k] == before[k];
          assert init[before[k].0] == subs[before[k].0];
        } else {
          assert all[k] == (n, tail[k - |before|]);
          assert tail[k - |before|] in tail;
          EligibleFunctionsExactly(subs[n], holds, tail[k - |before|]);
        }
      }
    }
  }

  /** A well-formed registry holds each of its functions under the function's own name. */
  lemma RegisteredUnderOwnName(reg: Registry, f: FunctionInfo)
    requires WellFormed(reg) && f in Values(reg)
    ensures ContainsKey(reg, f.name, true)
  {
    var k :| 0 <= k < |reg| && Values(reg)[k] == f;
    assert SameKey(reg[k].1.name, reg[k].0, true);
  }

  /**
   * A call the map routes to a sub-assistant never meets "Function ... not found": the owner
   * offered a function of that very name.
   */
  lemma RoutedCallIsKnown(subs: seq<Registry>, holds: string -> bool, name: string)
    requires forall i :: 0 <= i < |subs| ==> WellFormed(subs[i])
    requires LastOwner(OfferedPairs(subs, holds), name).Some?
    ensures LastOwner(OfferedPairs(subs, holds), name).value < |subs|
    ensures ContainsKey(subs[LastOwner(OfferedPairs(subs, holds), name).value], name, true)
  {
    var pairs := OfferedPairs(subs, holds);
    OfferedPairsSound(subs, holds);
    LastOwnerSpec(pairs, name);
    var k :| LastWithName(pairs, name, k) && pairs[k].0 == LastOwner(pairs, name).value;
    RegisteredUnderOwnName(subs[pairs[k].0], pairs[k].1);
  }

  /** How a batch of calls ends: every call ran and the loop goes on, or the batch stopped the operation. */
  datatype CallsOutcome<S> = Continue(state: S) | Stop(outcome: Outcome<S>)

  /**
   * The foreach over the model's calls, from call k on: route by exact name (an unknown name throws
   * KeyNotFoundException), execute on the owner, and stop on a final function or a response that ends the cycle.
   */
  function RunCalls<S>(e: Env<S>, pairs: seq<Owned>, calls: seq<FunctionCall>, k: nat, s: S): CallsOutcome<S>
    requires OwnersBelow(pairs, |e.subs|) && k <= |calls|
    decreases |calls| - k
  {
    if k == |calls| then Continue(s) else
    var c := calls[k];
    match LastOwner(pairs, c.functionName)
    case None => Stop(Threw(KeyNotFoundException(c.functionName), s))
    case Some(i) =>
      LastOwnerBelow(pairs, c.functionName, |e.subs|);
      match Execute(e.subs[i], c.functionName, c.arguments, s, SubDelegates(e, i))
      case Failure(err) => Stop(Threw(err, s))
      case Success(step) =>
        if c.functionName in FinalsOf(pairs) || step.response.terminateCycle then Stop(Finished(step.response, step.state))
        else RunCalls(e, pairs, calls, k + 1, step.state)
  }

  const SampleAgentsPreamble: string :=
    "You are a sql server assistant, capable of performing query and various operation on the database.\r\n"
    + "You will be asked to answer to a question. You can use the FACTS that follows to answer the question.\r\n"
    + "If Facts does not contains data to answer you can call functions to get more FACTS.\r\n\r\nFACTS:"

  const Demo2Preamble: string :=
    "You are a sql server assistant, capable of performing query and various operation on the database.\r\n"
    + "You will be asked to perform a task, and you need to give the next step to do examining the facts that are given to you.\r\n\r\nFACTS:"

  /** The preamble each variant opens its prompt with. */
  function Preamble(variant: Variant): string
  {
    match variant
    case SampleAgents => SampleAgentsPreamble
    case Demo2 => Demo2Preamble
  }

  /** The label each variant puts before the operation. */
  function OperationTag(variant: Variant): string
  {
    match variant
    case SampleAgents => "\nQuestion: "
    case Demo2 => "\nTask: "
  }

  /** PerformCallWithSimplePromptModel's prompt: the preamble, the facts, then the question (SampleAgents) or task (Demo2). */
  function OperationPrompt(variant: Variant, fact: string, operation: string): string
  {
    Line(Preamble(variant)) + Line(fact) + Line(OperationTag(variant) + operation)
  }

  /** The prompt the model is asked with, by its parts; the text it carries is its Text(). */
  datatype Prompt = Prompt(variant: Variant, fact: string, operation: string)
  {
    function Text(): string
    {
      OperationPrompt(variant, fact, operation)
    }
  }

  lemma PromptLayout(pre: string, fact: string, tag: string, operation: string)
    ensures var p := Line(pre) + Line(fact) + Line(tag + operation);
      && |p| > |pre| + |fact| + |operation| + 2
      && p[|pre| + 1..|pre| + 1 + |fact|] == fact
      && p[|p| - |operation| - 1..] == operation + "\n"
  {
  }

  /** The prompt carries the facts on their own line after the preamble, and ends with the operation on its own line. */
  lemma OperationPromptShape(variant: Variant, fact: string, operation: string)
    ensures var p := OperationPrompt(variant, fact, operation);
      && |p| > |Preamble(variant)| + |fact| + |operation| + 2
      && p[|Preamble(variant)| + 1..|Preamble(variant)| + 1 + |fact|] == fact
      && p[|p| - |operation| - 1..] == operation + "\n"
  {
    PromptLayout(Preamble(variant), fact, OperationTag(variant), operation);
  }

  const MoreThanOneElement: string := "Sequence contains more than one element"

  /**
   * One round: collect the offered functions, ask the model, then run its calls. Demo2 reads the single
   * call with SingleOrDefault, and prints a usage report that dereferences the token counter after the model call.
   */
  function Round<S>(e: Env<S>, s: S): CallsOutcome<S>
  {
    var pairs := OfferedPairs(e.subs, e.holds(s));
    var reply := e.ask(Prompt(e.variant, e.facts(s), e.operation), Infos(pairs));
    if e.variant == Demo2 && !e.counterAvailable then Stop(Threw(NullReferenceException, s))
    else if |reply.calls| == 0 then Stop(Finished(FromString(reply.text), s))
    else if e.variant == Demo2 && |reply.calls| > 1 then Stop(Threw(InvalidOperationException(MoreThanOneElement), s))
    else
      OfferedPairsSound(e.subs, e.holds(s));
      RunCalls(e, pairs, reply.calls, 0, s)
  }

  /** Rounds of a loop that ends when a round stops it, with at most fuel rounds. */
  function Iterate<S>(round: S -> CallsOutcome<S>, fuel: nat, s: S): Outcome<S>
    decreases fuel
  {
    if fuel == 0 then OutOfFuel(s) else
    match round(s)
    case Stop(o) => o
    case Continue(next) => Iterate(round, fuel - 1, next)
  }

  function RoundOf<S>(e: Env<S>): S -> CallsOutcome<S>
  {
    (x: S) => Round(e, x)
  }

  /** round plays the rounds of e. */
  ghost predicate RoundsOf<S(!new)>(e: Env<S>, round: S -> CallsOutcome<S>)
  {
    forall x {:trigger Round(e, x)} :: round(x) == Round(e, x)
  }

  /** The rounds of ExcuteDatabaseOperation, with at most fuel model calls. */
  function Dispatch<S>(e: Env<S>, fuel: nat, s: S): Outcome<S>
  {
    Iterate(RoundOf(e), fuel, s)
  }

  /** ExcuteDatabaseOperation: the "gpt4omini" kernel is looked up first, then the rounds run. */
  function Operation<S>(e: Env<S>, kernelAvailable: bool, fuel: nat, s: S): Outcome<S>
  {
    if !kernelAvailable then Threw(KeyNotFoundException("gpt4omini"), s) else Dispatch(e, fuel, s)
  }

  /** More fuel never changes a loop that already ended. */
  lemma {:induction false} IterateFuelMonotone<S>(round: S -> CallsOutcome<S>, fuel: nat, more: nat, s: S)
    requires fuel <= more && !Iterate(round, fuel, s).OutOfFuel?
    ensures Iterate(round, more, s) == Iterate(round, fuel, s)
    decreases fuel
  {
    match round(s)
    case Stop(o) =>
    case Continue(next) => IterateFuelMonotone(round, fuel - 1, more - 1, next);
  }

  /** More fuel never changes an operation that already ended: the bound only cuts off loops that go on. */
  lemma DispatchFuelMonotone<S>(e: Env<S>, fuel: nat, more: nat, s: S)
    requires fuel <= more && !Dispatch(e, fuel, s).OutOfFuel?
    ensures Dispatch(e, more, s) == Dispatch(e, fuel, s)
  {
    IterateFuelMonotone(RoundOf(e), fuel, more, s);
  }

  /** A round that ends the operation ends it at once, whatever the fuel left. */
  lemma StoppingRoundEnds<S>(e: Env<S>, fuel: nat, s: S)
    requires fuel > 0 && Round(e, s).Stop?
    ensures Dispatch(e, fuel, s) == Round(e, s).outcome
  {
    assert RoundOf(e)(s) == Round(e, s);
  }

  /** A reply without function calls ends the operation with the reply's text and no state. */
  lemma TextReplyEnds<S>(e: Env<S>, fuel: nat, s: S)
    requires fuel > 0 && (e.variant == SampleAgents || e.counterAvailable)
    requires |e.ask(Prompt(e.variant, e.facts(s), e.operation), Infos(OfferedPairs(e.subs, e.holds(s)))).calls| == 0
    ensures Dispatch(e, fuel, s) == Finished(AssistantResponse(
      e.ask(Prompt(e.variant, e.facts(s), e.operation), Infos(OfferedPairs(e.subs, e.holds(s)))).text, None, false), s)
  {
    StoppingRoundEnds(e, fuel, s);
  }

  /** A call to a function no sub-assistant offered this round throws KeyNotFoundException, and the earlier calls' state is kept. */
  lemma UnofferedCallThrows<S>(e: Env<S>, pairs: seq<Owned>, calls: seq<FunctionCall>, k: nat, s: S)
    requires OwnersBelow(pairs, |e.subs|) && k < |calls|
    requires forall j :: 0 <= j < |pairs| ==> pairs[j].1.name != calls[k].functionName
    ensures RunCalls(e, pairs, calls, k, s) == Stop(Threw(KeyNotFoundException(calls[k].functionName), s))
  {
    LastOwnerSpec(pairs, calls[k].functionName);
  }

  /**
   * A call to a final function that runs without an exception ends the operation with the delegate's
   * response, whatever calls follow it.
   */
  lemma FinalCallEnds<S>(e: Env<S>, pairs: seq<Owned>, calls: seq<FunctionCall>, k: nat, s: S, i: nat)
    requires OwnersBelow(pairs, |e.subs|) && k < |calls|
    requires exists j :: 0 <= j < |pairs| && pairs[j].1.name == calls[k].functionName && pairs[j].1.isFinal
    requires LastOwner(pairs, calls[k].functionName) == Some(i) && i < |e.subs|
    requires Execute(e.subs[i], calls[k].functionName, calls[k].arguments, s, SubDelegates(e, i)).Success?
    ensures RunCalls(e, pairs, calls, k, s)
      == Stop(Finished(Execute(e.subs[i], calls[k].functionName, calls[k].arguments, s, SubDelegates(e, i)).value.response,
                       Execute(e.subs[i], calls[k].functionName, calls[k].arguments, s, SubDelegates(e, i)).value.state))
  {
    FinalsOfExactly(pairs, calls[k].functionName);
  }

  /** Calls after a stopping one are never executed: what follows does not change the outcome. */
  lemma {:induction false} StopIgnoresSuffix<S>(e: Env<S>, pairs: seq<Owned>, calls: seq<FunctionCall>, more: seq<FunctionCall>, k: nat, s: S)
    requires OwnersBelow(pairs, |e.subs|) && k <= |calls|
    requires RunCalls(e, pairs, calls, k, s).Stop?
    ensures RunCalls(e, pairs, calls + more, k, s) == RunCalls(e, pairs, calls, k, s)
    decreases |calls| - k
  {
    var all := calls + more;
    assert all[k] == calls[k];
    var c := calls[k];
    match LastOwner(pairs, c.functionName)
    case None =>
    case Some(i) =>
      LastOwnerBelow(pairs, c.functionName, |e.subs|);
      match Execute(e.subs[i], c.functionName, c.arguments, s, SubDelegates(e, i))
      case Failure(err) =>
      case Success(step) =>
        if !(c.functionName in FinalsOf(pairs) || step.response.terminateCycle) {
          StopIgnoresSuffix(e, pairs, calls, more, k + 1, step.state);
        }
  }

  lemma OfferedPairsSnoc(subs: seq<Registry>, holds: string -> bool, i: nat)
    requires i < |subs|
    ensures OfferedPairs(subs[..i + 1], holds) == OfferedPairs(subs[..i], holds) + Tagged(i, EligibleFunctions(subs[i], holds))
  {
    assert subs[..i + 1][..i] == subs[..i];
  }

  lemma TaggedSnoc(i: nat, fs: seq<FunctionInfo>, j: nat)
    requires j < |fs|
    ensures Tagged(i, fs[..j + 1]) == Tagged(i, fs[..j]) + [(i, fs[j])]
  {
    assert fs[..j + 1][..j] == fs[..j];
  }

  lemma PairsSnoc(pairs: seq<Owned>, p: Owned)
    ensures Infos(pairs + [p]) == Infos(pairs) + [p.1]
    ensures OwnersOf(pairs + [p]) == Put(OwnersOf(pairs), p.1.name, p.0, false)
    ensures FinalsOf(pairs + [p]) == FinalsOf(pairs) + (if p.1.isFinal then [p.1.name] else [])
  {
    assert (pairs + [p])[..|pairs|] == pairs;
  }

  /** The inner foreach of the bookkeeping: one sub-assistant's offered functions, appended in order. */
  method CollectFrom(i: nat, offered: seq<FunctionInfo>, ghost before: seq<Owned>,
                     functions0: seq<FunctionInfo>, assistantMap0: Entries<nat>, finalFunctions0: seq<string>)
    returns (functions: seq<FunctionInfo>, assistantMap: Entries<nat>, finalFunctions: seq<string>)
    requires functions0 == Infos(before) && assistantMap0 == OwnersOf(before) && finalFunctions0 == FinalsOf(before)
    ensures functions == Infos(before + Tagged(i, offered))
    ensures assistantMap == OwnersOf(before + Tagged(i, offered))
    ensures finalFunctions == FinalsOf(before + Tagged(i, offered))
  {
    functions, assistantMap, finalFunctions := functions0, assistantMap0, finalFunctions0;
    ghost var acc := before;
    assert offered[..0] == [];
    var j := 0;
    while j < |offered|
      invariant 0 <= j <= |offered|
      invariant acc == before + Tagged(i, offered[..j])
      invariant functions == Infos(acc)
      invariant assistantMap == OwnersOf(acc)
      invariant finalFunctions == FinalsOf(acc)
    {
      var f := offered[j];
      PairsSnoc(acc, (i, f));
      TaggedSnoc(i, offered, j);
      acc := acc + [(i, f)];
      functions := functions + [f];
      assistantMap := Put(assistantMap, f.name, i, false);
      if f.isFinal {
        finalFunctions := finalFunctions + [f.name];
      }
      j := j + 1;
    }
    assert offered[..j] == offered;
  }

  /**
   * The round's bookkeeping as the loop builds it: for every sub-assistant and each of its eligible
   * functions, add it to the functions list, map its name to the sub-assistant, and note it if final.
   */
  method CollectFunctions(subs: seq<Registry>, holds: string -> bool)
    returns (functions: seq<FunctionInfo>, assistantMap: Entries<nat>, finalFunctions: seq<string>)
    ensures functions == Infos(OfferedPairs(subs, holds))
    ensures assistantMap == OwnersOf(OfferedPairs(subs, holds))
    ensures finalFunctions == FinalsOf(OfferedPairs(subs, holds))
  {
    functions, assistantMap, finalFunctions := [], [], [];
    var i := 0;
    while i < |subs|
      invariant 0 <= i <= |subs|
      invariant functions == Infos(OfferedPairs(subs[..i], holds))
      invariant assistantMap == OwnersOf(OfferedPairs(subs[..i], holds))
      invariant finalFunctions == FinalsOf(OfferedPairs(subs[..i], holds))
    {
      functions, assistantMap, finalFunctions :=
        CollectFrom(i, EligibleFunctions(subs[i], holds), OfferedPairs(subs[..i], holds), functions, assistantMap, finalFunctions);
      OfferedPairsSnoc(subs, holds, i);
      i := i + 1;
    }
    assert subs[..i] == subs;
  }

  /** The foreach over the model's calls in one round, routed through the round's assistantMap and finalFunctions. */
  method RunRoundCalls<S>(e: Env<S>, ghost pairs: seq<Owned>, calls: seq<FunctionCall>, assistantMap: Entries<nat>,
                          finalFunctions: seq<string>, s0: S) returns (r: CallsOutcome<S>)
    requires OwnersBelow(pairs, |e.subs|)
    requires assistantMap == OwnersOf(pairs) && finalFunctions == FinalsOf(pairs)
    ensures r == RunCalls(e, pairs, calls, 0, s0)
  {
    var s := s0;
    var k := 0;
    while k < |calls|
      invariant 0 <= k <= |calls|
      invariant RunCalls(e, pairs, calls, 0, s0) == RunCalls(e, pairs, calls, k, s)
      decreases |calls| - k
    {
      var call := calls[k];
      OwnersOfIsLastOwner(pairs, call.functionName);
      var owner := Get(assistantMap, call.functionName, false);
      if owner.None? {
        return Stop(Threw(KeyNotFoundException(call.functionName), s));
      }
      var i := owner.value;
      LastOwnerBelow(pairs, call.functionName, |e.subs|);
      var result := Execute(e.subs[i], call.functionName, call.arguments, s, SubDelegates(e, i));
      if result.Failure? {
        return Stop(Threw(result.error, s));
      }
      if call.functionName in finalFunctions || result.value.response.terminateCycle {
        return Stop(Finished(result.value.response, result.value.state));
      }
      s := result.value.state;
      k := k + 1;
    }
    return Continue(s);
  }

  /**
   * ExcuteDatabaseOperation, bounded by fuel model calls: the while (true) loop of rounds, each
   * collecting the functions, asking the model and running its calls.
   */
  method ExcuteDatabaseOperation<S(!new)>(e: Env<S>, kernelAvailable: bool, fuel: nat, s0: S) returns (outcome: Outcome<S>)
    ensures outcome == Operation(e, kernelAvailable, fuel, s0)
  {
    if !kernelAvailable {
      return Threw(KeyNotFoundException("gpt4omini"), s0);
    }
    outcome := PlayRounds(e, RoundOf(e), fuel, s0);
  }

  /** The while (true) loop of ExcuteDatabaseOperation, with at most fuel rounds; round is Round(e, ·). */
  method PlayRounds<S(!new)>(e: Env<S>, ghost round: S -> CallsOutcome<S>, fuel: nat, s0: S) returns (outcome: Outcome<S>)
    requires RoundsOf(e, round)
    ensures outcome == Iterate(round, fuel, s0)
  {
    var s := s0;
    var left: nat := fuel;
    while left > 0
      invariant left <= fuel
      invariant Iterate(round, left, s) == Iterate(round, fuel, s0)
      decreases left
    {
      var calls := PlayRound(e, round, s);
      if calls.Stop? {
        return calls.outcome;
      }
      s := calls.state;
      left := left - 1;
    }
    return OutOfFuel(s);
  }

  /** One pass of the loop: collect the offered functions, ask the model, run what it calls. */
  method PlayRound<S(!new)>(e: Env<S>, ghost round: S -> CallsOutcome<S>, s: S) returns (r: CallsOutcome<S>)
    requires RoundsOf(e, round)
    ensures r == round(s)
  {
    ghost var expected := Round(e, s);
    var functions, assistantMap, finalFunctions := CollectFunctions(e.subs, e.holds(s));
    ghost var pairs := OfferedPairs(e.subs, e.holds(s));
    var reply := e.ask(Prompt(e.variant, e.facts(s), e.operation), functions);
    if e.variant == Demo2 && !e.counterAvailable {
      return Stop(Threw(NullReferenceException, s));
    }
    if |reply.calls| == 0 {
      return Stop(Finished(FromString(reply.text), s));
    }
    if e.variant == Demo2 && |reply.calls| > 1 {
      return Stop(Threw(InvalidOperationException(MoreThanOneElement), s));
    }
    OfferedPairsSound(e.subs, e.holds(s));
    r := RunRoundCalls(e, pairs, reply.calls, assistantMap, finalFunctions, s);
  }

  /** The one function the composite assistant registers, under its name as spelled in the source. */
  const OperationFunctionName: string := "ExcuteDatabaseOperation"

  /** InjectedPrompt: the hint added to the orchestrator's prompt, naming the registered function. */
  const InjectedPrompt: string :=
    "\r\nIf the question regards databases and you do not have information in the FACTS, you can call " + OperationFunctionName

  /** The SqlServerAssistant object: its own assistant part, the shared state and the two sub-assistants. */
  class SqlServerAssistant {
    const variant: Variant
    const base: Assistant
    const shared: SqlServerSharedState
    const schemaAssistant: SchemaAssistant
    const queryExecutor: QueryExecutor
    /** _subAssistants: "schema" and "query", keyed with OrdinalIgnoreCase. */
    const subAssistants: Entries<Assistant>

    constructor (variant: Variant, schemaAssistant: SchemaAssistant, queryExecutor: QueryExecutor)
      modifies schemaAssistant`shared, queryExecutor`shared
      ensures this.variant == variant && this.schemaAssistant == schemaAssistant && this.queryExecutor == queryExecutor
      ensures fresh(shared) && fresh(base) && base.Valid()
      ensures shared.databaseList.None? && shared.schemas == [] && shared.currentDatabase.None?
      ensures shared.schemaAssistant == schemaAssistant && shared.queryExecutor == queryExecutor.base
      ensures schemaAssistant.shared == shared && queryExecutor.shared == shared
      ensures subAssistants == [("schema", schemaAssistant.base), ("query", queryExecutor.base)]
      ensures base.functions == Register([], OperationFunctionName, 0, false, None)
      ensures base.properties == [] && base.orchestrator == null
    {
      this.variant := variant;
      this.schemaAssistant := schemaAssistant;
      this.queryExecutor := queryExecutor;
      var s := new SqlServerSharedState();
      shared := s;
      var entries := Put([], "schema", schemaAssistant.base, true);
      subAssistants := Put(entries, "query", queryExecutor.base, true);
      assert Fold("schema")[0] != Fold("query")[0];
      var b := new Assistant("SqlServerAssistant");
      b.RegisterFunctionDelegate(OperationFunctionName, 0, false, None);
      base := b;
      new;
      schemaAssistant.InitializeWithSharedState(s);
      queryExecutor.InitializeWithSharedState(s);
    }

    /** The wiring the constructor sets up, which the query executor relies on. */
    lemma ConstructedExecutorIsWired()
      requires schemaAssistant.shared == shared && queryExecutor.shared == shared && shared.schemaAssistant == schemaAssistant
      ensures queryExecutor.Wired()
    {
    }

    /** SetOrchestrator: the orchestrator is set on this assistant and passed on to both sub-assistants. */
    method SetOrchestrator(o: Assistant?)
      modifies base`orchestrator, queryExecutor.base`orchestrator, schemaAssistant.base`orchestrator
      ensures base.orchestrator == o && queryExecutor.base.orchestrator == o && schemaAssistant.base.orchestrator == o
    {
      base.SetOrchestrator(o);
      queryExecutor.base.SetOrchestrator(o);
      schemaAssistant.base.SetOrchestrator(o);
    }

  }
}
