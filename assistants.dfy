/**
 * BaseAssistant: a named agent holding a registry of callable functions (case-insensitive names,
 * each with a delegate, a final flag and an eligibility predicate) and a case-insensitive
 * property store, bound to an orchestrator that receives its global properties.
 */
module Assistants {
  import opened Wrappers
  import opened Chat
  import opened OrderedDict
  import opened AssistantResponses

  /**
   * The CanBeExecuted predicate of a function: the default one, always true, or a predicate of the
   * owning assistant, named here by an identifier and evaluated by the caller against the current state.
   */
  datatype Guard = Always | When(id: string)

  /** FunctionInfo: the name as registered, the delegate (by identity), the final flag and the predicate. */
  datatype FunctionInfo = FunctionInfo(name: string, handler: nat, isFinal: bool, canBeExecuted: Guard)

  /** The _functions dictionary, keyed with StringComparer.OrdinalIgnoreCase. */
  type Registry = Entries<FunctionInfo>

  /** What running a delegate gives: its response, and the state of the world after it ran. */
  datatype Step<S> = Step(response: AssistantResponse, state: S)

  /** The delegates: given the world, a delegate identity and the arguments, the step it takes or the exception it throws. */
  type Delegates<!S> = (S, nat, Arguments) -> Result<Step<S>>

  function GuardOf(canExecute: Option<string>): Guard
  {
    if canExecute.None? then Always else When(canExecute.value)
  }

  /** RegisterFunctionDelegate: _functions[name] = new FunctionInfo(...), overwriting any entry with the same name in any case. */
  function Register(reg: Registry, name: string, handler: nat, isFinal: bool, canExecute: Option<string>): Registry
  {
    Put(reg, name, FunctionInfo(name, handler, isFinal, GuardOf(canExecute)), true)
  }

  /** The function registered under a name, compared ignoring case. */
  function Lookup(reg: Registry, name: string): Option<FunctionInfo>
  {
    Get(reg, name, true)
  }

  /** Whether the function's CanBeExecuted predicate holds, given the current truth of the assistant's predicates. */
  predicate Eligible(f: FunctionInfo, holds: string -> bool)
  {
    f.canBeExecuted.Always? || holds(f.canBeExecuted.id)
  }

  /** GetFunctionsAsync: the registered functions, in dictionary order, whose predicate holds. */
  function EligibleFunctions(reg: Registry, holds: string -> bool): seq<FunctionInfo>
  {
    if |reg| == 0 then [] else
    var last := reg[|reg| - 1].1;
    EligibleFunctions(reg[..|reg| - 1], holds) + (if Eligible(last, holds) then [last] else [])
  }

  /** ExecuteFunctionAsync: an unknown name throws ArgumentException, a known one runs its stored delegate. */
  function Execute<S>(reg: Registry, name: string, args: Arguments, s: S, run: Delegates<S>): Result<Step<S>>
  {
    match Lookup(reg, name)
    case None => Failure(ArgumentException("Function " + name + " not found"))
    case Some(f) => run(s, f.handler, args)
  }

  /** The registry keeps one entry per name and each entry sits under its own name. */
  ghost predicate WellFormed(reg: Registry)
  {
    UniqueKeys(reg, true) && forall i :: 0 <= i < |reg| ==> SameKey(reg[i].1.name, reg[i].0, true)
  }

  /** Registering keeps the registry well formed. */
  lemma RegisterWellFormed(reg: Registry, name: string, handler: nat, isFinal: bool, canExecute: Option<string>)
    requires WellFormed(reg)
    ensures WellFormed(Register(reg, name, handler, isFinal, canExecute))
  {
    PutKeepsUnique(reg, name, FunctionInfo(name, handler, isFinal, GuardOf(canExecute)), true);
  }

  /** After registering a name, looking it up in any case finds the new registration: the last one wins. */
  lemma RegisterThenLookup(reg: Registry, name: string, name2: string, handler: nat, isFinal: bool, canExecute: Option<string>)
    requires WellFormed(reg) && SameKey(name, name2, true)
    ensures Lookup(Register(reg, name, handler, isFinal, canExecute), name2) == Some(FunctionInfo(name, handler, isFinal, GuardOf(canExecute)))
  {
    PutThenGet(reg, name, name2, FunctionInfo(name, handler, isFinal, GuardOf(canExecute)), true);
  }

  /** Registering a name leaves the functions under every other name as they were. */
  lemma RegisterKeepsOthers(reg: Registry, name: string, name2: string, handler: nat, isFinal: bool, canExecute: Option<string>)
    requires !SameKey(name, name2, true)
    ensures Lookup(Register(reg, name, handler, isFinal, canExecute), name2) == Lookup(reg, name2)
  {
    PutKeepsOthers(reg, name, name2, FunctionInfo(name, handler, isFinal, GuardOf(canExecute)), true);
  }

  /** Executing a just-registered name, in any case, runs the delegate registered last. */
  lemma ExecuteAfterRegister<S>(reg: Registry, name: string, name2: string, handler: nat, isFinal: bool,
                                canExecute: Option<string>, args: Arguments, s: S, run: Delegates<S>)
    requires WellFormed(reg) && SameKey(name, name2, true)
    ensures Execute(Register(reg, name, handler, isFinal, canExecute), name2, args, s, run) == run(s, handler, args)
  {
    RegisterThenLookup(reg, name, name2, handler, isFinal, canExecute);
  }

  /** A name that was never registered is reported as not found, and nothing runs. */
  lemma ExecuteUnknown<S>(reg: Registry, name: string, args: Arguments, s: S, run: Delegates<S>)
    requires !ContainsKey(reg, name, true)
    ensures Execute(reg, name, args, s, run) == Failure(ArgumentException("Function " + name + " not found"))
  {
  }

  /** GetFunctionsAsync offers exactly the registered functions whose predicate holds, none twice. */
  lemma {:induction false} EligibleFunctionsExactly(reg: Registry, holds: string -> bool, f: FunctionInfo)
    ensures f in EligibleFunctions(reg, holds) <==> f in Values(reg) && Eligible(f, holds)
    ensures |EligibleFunctions(reg, holds)| <= |reg|
    decreases |reg|
  {
    if |reg| > 0 {
      var init := reg[..|reg| - 1];
      EligibleFunctionsExactly(init, holds, f);
      assert Values(reg) == Values(init) + [reg[|reg| - 1].1];
    }
  }

  /** A function registered without a predicate is offered on every call, whatever the state. */
  lemma UnguardedAlwaysOffered(reg: Registry, holds: string -> bool, f: FunctionInfo)
    requires f in Values(reg) && f.canBeExecuted.Always?
    ensures f in EligibleFunctions(reg, holds)
  {
    EligibleFunctionsExactly(reg, holds, f);
  }

  class Assistant {
    const name: string
    var functions: Registry
    var properties: Entries<string>
    /** The IConversationOrchestrator this agent refers to; BaseAssistant is the implementation modelled. */
    var orchestrator: Assistant?

    ghost predicate Valid()
      reads this
    {
      WellFormed(functions) && UniqueKeys(properties, true)
    }

    constructor (name: string)
      ensures Valid()
      ensures this.name == name && functions == [] && properties == [] && orchestrator == null
    {
      this.name := name;
      functions := [];
      properties := [];
      orchestrator := null;
    }

    method SetOrchestrator(o: Assistant?)
      modifies this`orchestrator
      ensures orchestrator == o
    {
      orchestrator := o;
    }

    method RegisterFunctionDelegate(functionName: string, handler: nat, isFinal: bool, canExecute: Option<string>)
      requires Valid()
      modifies this`functions
      ensures Valid()
      ensures functions == Register(old(functions), functionName, handler, isFinal, canExecute)
    {
      RegisterWellFormed(functions, functionName, handler, isFinal, canExecute);
      functions := Register(functions, functionName, handler, isFinal, canExecute);
    }

    /** GetFunctionsAsync: the loop over _functions.Values keeping those whose predicate holds now. */
    method GetFunctions(holds: string -> bool) returns (r: seq<FunctionInfo>)
      ensures r == EligibleFunctions(functions, holds)
      ensures forall f :: f in r <==> f in Values(functions) && Eligible(f, holds)
    {
      r := [];
      var i := 0;
      while i < |functions|
        invariant 0 <= i <= |functions|
        invariant r == EligibleFunctions(functions[..i], holds)
      {
        assert functions[..i + 1][..i] == functions[..i];
        if Eligible(functions[i].1, holds) {
          r := r + [functions[i].1];
        }
        i := i + 1;
      }
      assert functions[..i] == functions;
      forall f ensures f in r <==> f in Values(functions) && Eligible(f, holds) {
        EligibleFunctionsExactly(functions, holds, f);
      }
    }

    /** ExecuteFunctionAsync. */
    method ExecuteFunction<S>(functionName: string, args: Arguments, s: S, run: Delegates<S>) returns (r: Result<Step<S>>)
      ensures !ContainsKey(functions, functionName, true) ==> r == Failure(ArgumentException("Function " + functionName + " not found"))
      ensures ContainsKey(functions, functionName, true) ==> r == run(s, Lookup(functions, functionName).value.handler, args)
    {
      if !ContainsKey(functions, functionName, true) {
        return Failure(ArgumentException("Function " + functionName + " not found"));
      }
      var info := Lookup(functions, functionName).value;
      r := run(s, info.handler, args);
    }

    /** GetAssistantProperty: the value stored under the name, any case, or ArgumentException. */
    function GetAssistantProperty(propertyName: string): (r: Result<string>)
      reads this
      ensures r.Success? <==> ContainsKey(properties, propertyName, true)
      ensures r.Success? ==> Some(r.value) == Get(properties, propertyName, true)
      ensures r.Failure? ==> r.error == ArgumentException("Property " + propertyName + " not found")
    {
      match Get(properties, propertyName, true)
      case Some(v) => Success(v)
      case None => Failure(ArgumentException("Property " + propertyName + " not found"))
    }

    /** GetProperty: the stored value, or null (None) when the name is unknown. */
    function GetProperty(propertyName: string): (r: Option<string>)
      reads this
      ensures r.Some? <==> GetAssistantProperty(propertyName).Success?
      ensures r.Some? ==> r.value == GetAssistantProperty(propertyName).value
    {
      Get(properties, propertyName, true)
    }

    method SetLocalProperty(propertyName: string, value: string)
      requires Valid()
      modifies this`properties
      ensures Valid()
      ensures properties == Put(old(properties), propertyName, value, true)
      ensures forall n :: SameKey(n, propertyName, true) ==> GetProperty(n) == Some(value)
      ensures forall n :: !SameKey(n, propertyName, true) ==> GetProperty(n) == old(GetProperty(n))
    {
      PutKeepsUnique(properties, propertyName, value, true);
      forall n | SameKey(n, propertyName, true) ensures Get(Put(properties, propertyName, value, true), n, true) == Some(value) {
        PutThenGet(properties, propertyName, n, value, true);
      }
      forall n | !SameKey(n, propertyName, true)
        ensures Get(Put(properties, propertyName, value, true), n, true) == Get(properties, n, true)
      {
        PutKeepsOthers(properties, propertyName, n, value, true);
      }
      properties := Put(properties, propertyName, value, true);
    }

    /** IConversationOrchestrator.AddProperty: the same as SetLocalProperty. */
    method AddProperty(propertyName: string, value: string)
      requires Valid()
      modifies this`properties
      ensures Valid()
      ensures properties == Put(old(properties), propertyName, value, true)
    {
      SetLocalProperty(propertyName, value);
    }

    /** SetGlobalProperty: forwards to the orchestrator; without one it dereferences null. */
    method SetGlobalProperty(propertyName: string, value: string) returns (r: Result<()>)
      requires orchestrator != null ==> orchestrator.Valid()
      modifies orchestrator
      ensures r.Failure? <==> old(orchestrator) == null
      ensures r.Failure? ==> r.error == NullReferenceException
      ensures orchestrator == old(orchestrator)
      ensures orchestrator != null ==> orchestrator.Valid()
      ensures orchestrator != null ==> orchestrator.properties == Put(old(orchestrator.properties), propertyName, value, true)
    {
      if orchestrator == null {
        return Failure(NullReferenceException);
      }
      orchestrator.AddProperty(propertyName, value);
      r := Success(());
    }

    /** AddResultToPrompt: one assistant message holding the response's Result text. */
    method AddResultToPrompt(history: ChatHistory, response: AssistantResponse)
      modifies history
      ensures history.messages == old(history.messages) + [ChatMessage(AssistantRole, response.result)]
    {
      history.AddAssistantMessage(response.result);
    }

    /** GetFact: the response's Result text. */
    function GetFact(response: AssistantResponse): (fact: string)
      ensures fact == response.result
    {
      response.result
    }
  }
}
