/**
 * TokenUsageCounter: a chat interceptor that counts completion calls and accumulates the token
 * usage an OpenAI reply reports, per cleaned model name, into a ModelTokenUsage dictionary.
 */
module TokenUsage {
  import opened Wrappers
  import opened Chat
  import opened OrderedDict

  /** The three cumulative counters of one model (SingleModelTokenUsage), starting at zero. */
  datatype Totals = Totals(totalTokens: int, promptTokens: int, completionTokens: int)

  const Zero := Totals(0, 0, 0)

  function Plus(a: Totals, b: Totals): Totals
  {
    Totals(a.totalTokens + b.totalTokens, a.promptTokens + b.promptTokens, a.completionTokens + b.completionTokens)
  }

  /** The counters a single usage report contributes. */
  function OfUsage(u: Usage): Totals
  {
    Totals(u.totalTokens, u.inputTokens, u.outputTokens)
  }

  /** SingleModelTokenUsage.AddUsage: each counter grows by the matching count of the report. */
  function AddTo(t: Totals, u: Usage): (r: Totals)
    ensures r.totalTokens - t.totalTokens == u.totalTokens
    ensures r.promptTokens - t.promptTokens == u.inputTokens
    ensures r.completionTokens - t.completionTokens == u.outputTokens
  {
    Plus(t, OfUsage(u))
  }

  /** The model dictionary uses the default (ordinal) comparer. */
  const ModelKeysIgnoreCase := false

  /** The counters of a model, or a fresh zeroed entry when the model is not in the dictionary yet. */
  function TotalsOf(d: Entries<Totals>, model: string): Totals
  {
    match Get(d, model, ModelKeysIgnoreCase)
    case Some(t) => t
    case None => Zero
  }

  /** ModelTokenUsage.AddUsage on the dictionary: the model's entry, created if missing, grows by the report. */
  function AddEntry(d: Entries<Totals>, model: string, u: Usage): Entries<Totals>
  {
    Put(d, model, AddTo(TotalsOf(d, model), u), ModelKeysIgnoreCase)
  }

  /** A sequence of (model, report) pairs added to the dictionary one after the other. */
  function Accumulate(d: Entries<Totals>, cs: seq<(string, Usage)>): Entries<Totals>
  {
    if cs == [] then d
    else
      var last := cs[|cs| - 1];
      AddEntry(Accumulate(d, cs[..|cs| - 1]), last.0, last.1)
  }

  /** The sum of the reports in cs that name the given model. */
  function UsageSum(cs: seq<(string, Usage)>, model: string): Totals
  {
    if cs == [] then Zero
    else
      var last := cs[|cs| - 1];
      var rest := UsageSum(cs[..|cs| - 1], model);
      if last.0 == model then Plus(rest, OfUsage(last.1)) else rest
  }

  /** Adding one report grows that model's counters by the report and leaves every other model's as it was. */
  lemma AddEntryTotals(d: Entries<Totals>, model: string, u: Usage, other: string)
    requires UniqueKeys(d, ModelKeysIgnoreCase)
    ensures UniqueKeys(AddEntry(d, model, u), ModelKeysIgnoreCase)
    ensures TotalsOf(AddEntry(d, model, u), model) == Plus(TotalsOf(d, model), OfUsage(u))
    ensures other != model ==> TotalsOf(AddEntry(d, model, u), other) == TotalsOf(d, other)
  {
    PutKeepsUnique(d, model, AddTo(TotalsOf(d, model), u), ModelKeysIgnoreCase);
    PutThenGet(d, model, model, AddTo(TotalsOf(d, model), u), ModelKeysIgnoreCase);
    if other != model {
      PutKeepsOthers(d, model, other, AddTo(TotalsOf(d, model), u), ModelKeysIgnoreCase);
    }
  }

  lemma PlusAssociative(a: Totals, b: Totals, c: Totals)
    ensures Plus(Plus(a, b), c) == Plus(a, Plus(b, c))
  {
  }

  /**
   * Per-model accumulation: after a sequence of reports, every model's counters are its earlier
   * counters (zero for a new model) plus the sum of exactly the reports that name it; a model no
   * report names keeps its counters.
   */
  lemma {:induction false} AccumulateTotals(d: Entries<Totals>, cs: seq<(string, Usage)>, model: string)
    requires UniqueKeys(d, ModelKeysIgnoreCase)
    ensures UniqueKeys(Accumulate(d, cs), ModelKeysIgnoreCase)
    ensures TotalsOf(Accumulate(d, cs), model) == Plus(TotalsOf(d, model), UsageSum(cs, model))
  {
    if cs == [] {
      assert Plus(TotalsOf(d, model), Zero) == TotalsOf(d, model);
    } else {
      var init := cs[..|cs| - 1];
      var last := cs[|cs| - 1];
      AccumulateTotals(d, init, model);
      AddEntryTotals(Accumulate(d, init), last.0, last.1, model);
      if last.0 == model {
        PlusAssociative(TotalsOf(d, model), UsageSum(init, model), OfUsage(last.1));
      }
    }
  }

  /** A model that no report names contributes nothing to the sum. */
  lemma {:induction false} UsageSumAbsent(cs: seq<(string, Usage)>, model: string)
    requires forall i :: 0 <= i < |cs| ==> cs[i].0 != model
    ensures UsageSum(cs, model) == Zero
  {
    if cs != [] {
      UsageSumAbsent(cs[..|cs| - 1], model);
    }
  }

  /** The ModelTokenUsage object: the per-model dictionary and the figures of the latest report. */
  class ModelTokenUsage {
    var modelUsage: Entries<Totals>
    var lastCallModel: string
    var lastCallTotalTokens: int
    var lastCallPromptTokens: int
    var lastCallCompletionTokens: int

    constructor ()
      ensures modelUsage == [] && lastCallModel == ""
      ensures lastCallTotalTokens == 0 && lastCallPromptTokens == 0 && lastCallCompletionTokens == 0
    {
      modelUsage := [];
      lastCallModel := "";
      lastCallTotalTokens := 0;
      lastCallPromptTokens := 0;
      lastCallCompletionTokens := 0;
    }

    /** AddUsage: accumulates the report into the model's entry and records it as the last call. */
    method AddUsage(modelName: string, usage: Usage)
      modifies this
      ensures modelUsage == AddEntry(old(modelUsage), modelName, usage)
      ensures lastCallModel == modelName && lastCallTotalTokens == usage.totalTokens
      ensures lastCallPromptTokens == usage.inputTokens && lastCallCompletionTokens == usage.outputTokens
    {
      modelUsage := AddEntry(modelUsage, modelName, usage);
      lastCallModel := modelName;
      lastCallTotalTokens := usage.totalTokens;
      lastCallPromptTokens := usage.inputTokens;
      lastCallCompletionTokens := usage.outputTokens;
    }
  }

  /**
   * CleanModelName: strips a "-YYYY-MM-DD" version suffix. parsesAsDate stands for DateTime.TryParse.
   * A name of exactly ten characters that parses as a date asks for Substring(0, -1), which throws.
   */
  function CleanModelName(name: string, parsesAsDate: string -> bool): (r: Result<string>)
    ensures |name| == 0 ==> r == Success("")
    ensures |name| < 10 ==> r == Success(name)
    ensures r.Failure? <==> |name| == 10 && parsesAsDate(name)
    ensures r.Failure? ==> r.error == ArgumentOutOfRangeException
    ensures |name| > 10 && parsesAsDate(name[|name| - 10..]) ==>
      r.Success? && r.value + name[|name| - 11..] == name
    ensures |name| >= 10 && !parsesAsDate(name[|name| - 10..]) ==> r == Success(name)
  {
    if |name| == 0 then Success("")
    else if |name| >= 10 && parsesAsDate(name[|name| - 10..]) then
      if |name| - 11 < 0 then Failure(ArgumentOutOfRangeException)
      else Success(name[..|name| - 11])
    else Success(name)
  }

  /** GetModelName: the cleaned model of the inner ChatCompletion, or "" when there is none. */
  function GetModelName(details: OpenAIDetails, parsesAsDate: string -> bool): (r: Result<string>)
    ensures details.innerModel.None? ==> r == Success("")
    ensures details.innerModel.Some? ==> r == CleanModelName(details.innerModel.value, parsesAsDate)
  {
    match details.innerModel
    case None => Success("")
    case Some(m) => CleanModelName(m, parsesAsDate)
  }

  /** What one returned item contributes: a (model, report) pair for an OpenAI item carrying usage, else nothing. */
  function Contribution(item: ChatMessageContent, parsesAsDate: string -> bool): Result<Option<(string, Usage)>>
  {
    match item.openAI
    case None => Success(None)
    case Some(details) =>
      match details.usage
      case None => Success(None)
      case Some(u) =>
        match GetModelName(details, parsesAsDate)
        case Failure(e) => Failure(e)
        case Success(m) => Success(Some((m, u)))
  }

  /**
   * The pairs the items contribute, in order, up to the first item whose model name throws, and
   * that exception.
   */
  function Contributions(items: seq<ChatMessageContent>, parsesAsDate: string -> bool): (seq<(string, Usage)>, Option<Exception>)
  {
    if items == [] then ([], None)
    else
      var prev := Contributions(items[..|items| - 1], parsesAsDate);
      if prev.1.Some? then prev
      else
        match Contribution(items[|items| - 1], parsesAsDate)
        case Failure(e) => (prev.0, Some(e))
        case Success(None) => prev
        case Success(Some(c)) => (prev.0 + [c], None)
  }

  /** Items that are not OpenAI replies carrying usage contribute nothing and raise nothing. */
  lemma {:induction false} NoUsageNoContribution(items: seq<ChatMessageContent>, parsesAsDate: string -> bool)
    requires forall i :: 0 <= i < |items| ==> items[i].openAI.None? || items[i].openAI.value.usage.None?
    ensures Contributions(items, parsesAsDate) == ([], None)
  {
    if items != [] {
      NoUsageNoContribution(items[..|items| - 1], parsesAsDate);
    }
  }

  /** Every contributed report is the usage of one of the items, in item order. */
  lemma {:induction false} ContributionsFromItems(items: seq<ChatMessageContent>, parsesAsDate: string -> bool)
    ensures |Contributions(items, parsesAsDate).0| <= |items|
    ensures forall c :: c in Contributions(items, parsesAsDate).0 ==>
      exists i :: 0 <= i < |items| && items[i].openAI.Some? && items[i].openAI.value.usage == Some(c.1)
  {
    if items != [] {
      var init := items[..|items| - 1];
      ContributionsFromItems(init, parsesAsDate);
      forall c | c in Contributions(init, parsesAsDate).0
        ensures exists i :: 0 <= i < |items| && items[i].openAI.Some? && items[i].openAI.value.usage == Some(c.1)
      {
        var i :| 0 <= i < |init| && init[i].openAI.Some? && init[i].openAI.value.usage == Some(c.1);
        assert items[i] == init[i];
      }
    }
  }

  /** The state of a ModelTokenUsage: accumulated totals, then the last call's model and counts. */
  type UsageState = (Entries<Totals>, string, int, int, int)

  function Snapshot(u: ModelTokenUsage): UsageState
    reads u
  {
    (u.modelUsage, u.lastCallModel, u.lastCallTotalTokens, u.lastCallPromptTokens, u.lastCallCompletionTokens)
  }

  /** The last-call part of the state after the report c. */
  function LastCall(c: (string, Usage)): (string, int, int, int)
  {
    (c.0, c.1.totalTokens, c.1.inputTokens, c.1.outputTokens)
  }

  /** That state after the reports cs have been added, in order, to the state s. */
  function AfterReports(s: UsageState, cs: seq<(string, Usage)>): UsageState
  {
    if cs == [] then s else
    var last := LastCall(cs[|cs| - 1]);
    (Accumulate(s.0, cs), last.0, last.1, last.2, last.3)
  }

  lemma AfterReportsSnoc(s: UsageState, cs: seq<(string, Usage)>, c: (string, Usage))
    ensures AfterReports(s, cs + [c])
      == (AddEntry(AfterReports(s, cs).0, c.0, c.1), c.0, c.1.totalTokens, c.1.inputTokens, c.1.outputTokens)
  {
    assert (cs + [c])[..|cs|] == cs;
  }

  /** The TokenUsageCounter interceptor. */
  class TokenUsageCounter {
    var callCount: int
    const modelTokenUsage: ModelTokenUsage

    constructor ()
      ensures callCount == 0 && fresh(modelTokenUsage)
      ensures modelTokenUsage.modelUsage == [] && modelTokenUsage.lastCallModel == ""
    {
      callCount := 0;
      modelTokenUsage := new ModelTokenUsage();
    }

    /**
     * The loop body of OnChatCompletionAsync for one item: an OpenAI item carrying usage has its model
     * name cleaned and its report added; any other item changes nothing.
     */
    method CountItem(item: ChatMessageContent, parsesAsDate: string -> bool) returns (r: Result<Option<(string, Usage)>>)
      modifies modelTokenUsage
      ensures r == Contribution(item, parsesAsDate)
      ensures r.Success? && r.value.Some? ==>
        && modelTokenUsage.modelUsage == AddEntry(old(modelTokenUsage.modelUsage), r.value.value.0, r.value.value.1)
        && modelTokenUsage.lastCallModel == r.value.value.0
        && modelTokenUsage.lastCallTotalTokens == r.value.value.1.totalTokens
        && modelTokenUsage.lastCallPromptTokens == r.value.value.1.inputTokens
        && modelTokenUsage.lastCallCompletionTokens == r.value.value.1.outputTokens
      ensures !(r.Success? && r.value.Some?) ==> unchanged(modelTokenUsage)
    {
      if item.openAI.Some? && item.openAI.value.usage.Some? {
        var name := GetModelName(item.openAI.value, parsesAsDate);
        if name.Failure? {
          return Failure(name.error);
        }
        modelTokenUsage.AddUsage(name.value, item.openAI.value.usage.value);
        return Success(Some((name.value, item.openAI.value.usage.value)));
      }
      return Success(None);
    }

    /**
     * OnChatCompletionAsync: counts the call, then adds the usage of every OpenAI item that carries
     * one, in order; an exception from the model-name cleaning leaves the earlier items added.
     */
    method OnChatCompletion(returnValue: seq<ChatMessageContent>, parsesAsDate: string -> bool) returns (r: Result<()>)
      modifies this, modelTokenUsage
      ensures callCount == old(callCount) + 1
      ensures var cs := Contributions(returnValue, parsesAsDate);
        && modelTokenUsage.modelUsage == Accumulate(old(modelTokenUsage.modelUsage), cs.0)
        && (r.Failure? <==> cs.1.Some?)
        && (r.Failure? ==> r.error == cs.1.value)
        && (cs.0 == [] ==> (modelTokenUsage.lastCallModel == old(modelTokenUsage.lastCallModel)
                           && modelTokenUsage.lastCallTotalTokens == old(modelTokenUsage.lastCallTotalTokens)
                           && modelTokenUsage.lastCallPromptTokens == old(modelTokenUsage.lastCallPromptTokens)
                           && modelTokenUsage.lastCallCompletionTokens == old(modelTokenUsage.lastCallCompletionTokens)))
        && (cs.0 != [] ==> (modelTokenUsage.lastCallModel == cs.0[|cs.0| - 1].0
                           && modelTokenUsage.lastCallTotalTokens == cs.0[|cs.0| - 1].1.totalTokens
                           && modelTokenUsage.lastCallPromptTokens == cs.0[|cs.0| - 1].1.inputTokens
                           && modelTokenUsage.lastCallCompletionTokens == cs.0[|cs.0| - 1].1.outputTokens))
    {
      ghost var before := Snapshot(modelTokenUsage);
      callCount := callCount + 1;
      var i := 0;
      var added: seq<(string, Usage)> := [];
      while i < |returnValue|
        invariant 0 <= i <= |returnValue|
        invariant Contributions(returnValue[..i], parsesAsDate) == (added, None)
        invariant callCount == old(callCount) + 1
        invariant Snapshot(modelTokenUsage) == AfterReports(before, added)
      {
        ContributionsStep(returnValue, i, parsesAsDate);
        var c := CountItem(returnValue[i], parsesAsDate);
        if c.Failure? {
          ContributionsStop(returnValue, i + 1, parsesAsDate);
          assert returnValue[..|returnValue|] == returnValue;
          return Failure(c.error);
        }
        if c.value.Some? {
          AfterReportsSnoc(before, added, c.value.value);
          added := added + [c.value.value];
        }
        i := i + 1;
      }
      assert returnValue[..i] == returnValue;
      return Success(());
    }
  }

  /** One more item, while nothing has raised yet, contributes what Contribution says. */
  lemma ContributionsStep(items: seq<ChatMessageContent>, i: nat, parsesAsDate: string -> bool)
    requires i < |items| && Contributions(items[..i], parsesAsDate).1.None?
    ensures var prev := Contributions(items[..i], parsesAsDate);
      Contributions(items[..i + 1], parsesAsDate) ==
        match Contribution(items[i], parsesAsDate)
        case Failure(e) => (prev.0, Some(e))
        case Success(None) => prev
        case Success(Some(c)) => (prev.0 + [c], None)
  {
    assert items[..i + 1][..i] == items[..i];
  }

  /** Once the item prefix has raised, the later items change nothing. */
  lemma {:induction false} ContributionsStop(items: seq<ChatMessageContent>, k: nat, parsesAsDate: string -> bool)
    requires k <= |items| && Contributions(items[..k], parsesAsDate).1.Some?
    ensures Contributions(items, parsesAsDate) == Contributions(items[..k], parsesAsDate)
    decreases |items| - k
  {
    if k < |items| {
      assert items[..k + 1][..k] == items[..k];
      ContributionsStop(items, k + 1, parsesAsDate);
    } else {
      assert items[..k] == items;
    }
  }
}
