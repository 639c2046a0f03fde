/**
 * DisposableAction: an IDisposable that runs a callback when it is disposed. The object counts as
 * disposed only once the callback has returned normally, so a callback that throws is run again by
 * the next Dispose. What the callback does is observed through how many times it has been run and
 * how many of those runs returned normally; whether a run throws is a parameter of the call.
 */
module DisposableActions {
  import opened Wrappers

  /** The callback, identified by a name. */
  type Action = string

  /** What one run of the callback does: None when it returns normally, else the exception it throws. */
  type Outcome = Option<Exception>

  class DisposableAction {
    const action: Action
    var disposed: bool
    /** How many times the callback has been run. */
    var runs: nat
    /** How many of those runs returned normally. */
    var completed: nat

    /** The callback returns normally at most once, and only an object already disposed can have seen that. */
    predicate Valid()
      reads this
    {
      completed <= runs && completed <= (if disposed then 1 else 0)
    }

    constructor (action: Action)
      ensures this.action == action && !disposed && runs == 0 && completed == 0 && Valid()
    {
      this.action := action;
      disposed := false;
      runs := 0;
      completed := 0;
    }

    /** The public constructor: a null action throws ArgumentNullException naming "action". */
    static method Create(action: Option<Action>) returns (r: Result<DisposableAction>)
      ensures action.None? ==> r == Failure(ArgumentNullException("action"))
      ensures action.Some? ==>
        r.Success? && fresh(r.value) && r.value.action == action.value
        && !r.value.disposed && r.value.runs == 0 && r.value.completed == 0 && r.value.Valid()
    {
      if action.None? {
        return Failure(ArgumentNullException("action"));
      }
      var d := new DisposableAction(action.value);
      return Success(d);
    }

    /**
     * Dispose(bool disposing). On an object not yet disposed, disposing true runs the callback
     * first: when it throws, the exception propagates and the object stays undisposed; otherwise,
     * and when disposing is false, the object becomes disposed. On a disposed object it does nothing.
     */
    method DisposeCore(disposing: bool, outcome: Outcome) returns (r: Result<()>)
      requires Valid()
      modifies this
      ensures Valid()
      ensures old(disposed) ==> r == Success(()) && disposed && runs == old(runs) && completed == old(completed)
      ensures !old(disposed) && !disposing ==> r == Success(()) && disposed && runs == old(runs) && completed == old(completed)
      ensures !old(disposed) && disposing && outcome.Some? ==>
        r == Failure(outcome.value) && !disposed && runs == old(runs) + 1 && completed == old(completed)
      ensures !old(disposed) && disposing && outcome.None? ==>
        r == Success(()) && disposed && runs == old(runs) + 1 && completed == old(completed) + 1
    {
      r := Success(());
      if !disposed {
        if disposing {
          runs := runs + 1;
          if outcome.Some? {
            return Failure(outcome.value);
          }
          completed := completed + 1;
        }
        disposed := true;
      }
    }

    /** Dispose(): Dispose(true); the finalizer suppression has no observable effect here. */
    method Dispose(outcome: Outcome) returns (r: Result<()>)
      requires Valid()
      modifies this
      ensures Valid()
      ensures old(disposed) ==> r == Success(()) && disposed && runs == old(runs) && completed == old(completed)
      ensures !old(disposed) ==> runs == old(runs) + 1
      ensures !old(disposed) && outcome.Some? ==> r == Failure(outcome.value) && !disposed && completed == old(completed)
      ensures !old(disposed) && outcome.None? ==> r == Success(()) && disposed && completed == 1
    {
      r := DisposeCore(true, outcome);
    }
  }

  /** The number of leading runs that throw: the index of the first normal outcome, or all of them. */
  function Throwing(outcomes: seq<Outcome>): (n: nat)
    ensures n <= |outcomes|
    ensures forall k :: 0 <= k < n ==> outcomes[k].Some?
    ensures n < |outcomes| ==> outcomes[n].None?
  {
    if outcomes == [] || outcomes[0].None? then 0 else 1 + Throwing(outcomes[1..])
  }

  /**
   * Disposing a new object once per outcome, the callback run by the k-th Dispose having outcome k:
   * every Dispose runs the callback until one run returns normally, and none after that. So the
   * callback runs Throwing(outcomes) + 1 times (every time when all of them throw), each throwing
   * Dispose reports its exception, and every later Dispose succeeds.
   */
  method DisposeRepeatedly(action: Action, outcomes: seq<Outcome>) returns (runs: nat, results: seq<Result<()>>)
    ensures var t := Throwing(outcomes); runs == if t < |outcomes| then t + 1 else t
    ensures |outcomes| > 0 && (forall k :: 0 <= k < |outcomes| ==> outcomes[k].None?) ==> runs == 1
    ensures |results| == |outcomes|
    ensures forall k :: 0 <= k < |outcomes| ==>
      results[k] == if k < Throwing(outcomes) then Failure(outcomes[k].value) else Success(())
  {
    var d := new DisposableAction(action);
    ghost var t := Throwing(outcomes);
    results := [];
    var k := 0;
    while k < |outcomes|
      invariant 0 <= k <= |outcomes| && d.Valid() && |results| == k
      invariant k <= t ==> !d.disposed && d.runs == k
      invariant k > t ==> d.disposed && d.runs == t + 1
      invariant forall j :: 0 <= j < k ==> results[j] == if j < t then Failure(outcomes[j].value) else Success(())
    {
      var r := d.Dispose(outcomes[k]);
      results := results + [r];
      k := k + 1;
    }
    runs := d.runs;
  }

  /** An object first disposed with disposing false never runs its callback, however often it is disposed after. */
  method FinalizedFirst(action: Action, later: seq<Outcome>) returns (runs: nat)
    ensures runs == 0
  {
    var d := new DisposableAction(action);
    var _ := d.DisposeCore(false, None);
    var k := 0;
    while k < |later|
      invariant 0 <= k <= |later| && d.Valid() && d.disposed && d.runs == 0
    {
      var _ := d.Dispose(later[k]);
      k := k + 1;
    }
    runs := d.runs;
  }
}
