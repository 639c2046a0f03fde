/**
 * The interception layer around a chat completion service: wrapping tools that may answer a call
 * in place of the model, interceptor tools that observe every real answer, the per-scope
 * InterceptorContainer holding extra tools and a property bag, and the IChatCompletionServiceInterceptor
 * that chains them around the inner service.
 *
 * A tool is identified by a Hook value; what a tool answers or does when observing is an oracle
 * over an abstract world state S, so tools with state of their own (such as the call limiter and
 * the token counter) are covered.
 */
module Interception {
  import opened Wrappers
  import opened Chat
  import opened OrderedDict

  /** A registered tool object: its identity and whether it implements IDisposable. */
  datatype Hook = Hook(id: nat, disposable: bool)

  /** An object stored in a container's property bag: its runtime type name and its content. */
  datatype PropertyValue = PropertyValue(typeName: string, content: string)

  /** The property bag uses the default (ordinal) comparer. */
  const PropertyKeysIgnoreCase := false

  type Reply = seq<ChatMessageContent>

  /** The disposable tools of hs, in order. */
  function Disposables(hs: seq<Hook>): (r: seq<Hook>)
    ensures |r| <= |hs|
    ensures forall h :: h in r <==> h in hs && h.disposable
  {
    if hs == [] then []
    else Disposables(hs[..|hs| - 1]) + (if hs[|hs| - 1].disposable then [hs[|hs| - 1]] else [])
  }

  /** InterceptorContainer: the tools of one container scope and its property bag. */
  class InterceptorContainer {
    var interceptors: seq<Hook>
    var wrappers: seq<Hook>
    var properties: Entries<PropertyValue>

    /** Copies both arrays in order; the property bag starts empty. */
    constructor (interceptors: seq<Hook>, wrappers: seq<Hook>)
      ensures this.interceptors == interceptors && this.wrappers == wrappers && properties == []
    {
      this.interceptors := interceptors;
      this.wrappers := wrappers;
      properties := [];
    }

    /** AddWrapper: appends at the end and changes nothing else. */
    method AddWrapper(w: Hook)
      modifies this
      ensures wrappers == old(wrappers) + [w]
      ensures interceptors == old(interceptors) && properties == old(properties)
    {
      wrappers := wrappers + [w];
    }

    /**
     * Dispose: visits every interceptor and then every wrapper and disposes exactly the disposable
     * ones, in that order; the container's lists are left as they are.
     */
    method Dispose() returns (disposed: seq<Hook>)
      ensures disposed == Disposables(interceptors) + Disposables(wrappers)
    {
      disposed := [];
      var i := 0;
      while i < |interceptors|
        invariant 0 <= i <= |interceptors| && disposed == Disposables(interceptors[..i])
      {
        assert interceptors[..i + 1][..i] == interceptors[..i];
        if interceptors[i].disposable {
          disposed := disposed + [interceptors[i]];
        }
        i := i + 1;
      }
      assert interceptors[..i] == interceptors;
      var fromInterceptors := disposed;
      var j := 0;
      while j < |wrappers|
        invariant 0 <= j <= |wrappers| && disposed == fromInterceptors + Disposables(wrappers[..j])
      {
        assert wrappers[..j + 1][..j] == wrappers[..j];
        if wrappers[j].disposable {
          disposed := disposed + [wrappers[j]];
        }
        j := j + 1;
      }
      assert wrappers[..j] == wrappers;
    }
  }

  /** The wrappers of the active container, none when there is no active container. */
  function ContainerWrappers(c: InterceptorContainer?): (r: seq<Hook>)
    reads c
    ensures c == null ==> r == []
  {
    if c == null then [] else c.wrappers
  }

  /** The interceptors of the active container, none when there is no active container. */
  function ContainerInterceptors(c: InterceptorContainer?): (r: seq<Hook>)
    reads c
    ensures c == null ==> r == []
  {
    if c == null then [] else c.interceptors
  }

  /** What a call through the interceptor does, step by step. */
  datatype Event = Consulted(wrapper: Hook) | InnerCalled | Observed(interceptor: Hook, result: Reply)

  function ConsultedEvents(ws: seq<Hook>): (r: seq<Event>)
    ensures |r| == |ws| && forall k :: 0 <= k < |ws| ==> r[k] == Consulted(ws[k])
  {
    seq(|ws|, k requires 0 <= k < |ws| => Consulted(ws[k]))
  }

  lemma ConsultedEventsAppend(a: seq<Hook>, b: seq<Hook>)
    ensures ConsultedEvents(a + b) == ConsultedEvents(a) + ConsultedEvents(b)
  {
  }

  function ObservedEvents(obs: seq<Hook>, result: Reply): (r: seq<Event>)
    ensures |r| == |obs| && forall k :: 0 <= k < |obs| ==> r[k] == Observed(obs[k], result)
  {
    seq(|obs|, k requires 0 <= k < |obs| => Observed(obs[k], result))
  }

  /**
   * Consulting wrappers in order from state s: the state afterwards, how many were consulted, and
   * the first non-null answer, if any.
   */
  function Consult<S>(wrap: (S, Hook) -> (S, Option<Reply>), s: S, ws: seq<Hook>): (c: (S, nat, Option<Reply>))
    ensures c.1 <= |ws|
    ensures c.2.Some? ==> 1 <= c.1
    ensures c.2.None? ==> c.1 == |ws|
  {
    if ws == [] then (s, 0, None)
    else
      var step := wrap(s, ws[0]);
      if step.1.Some? then (step.0, 1, step.1)
      else
        var c := Consult(wrap, step.0, ws[1..]);
        (c.0, c.1 + 1, c.2)
  }

  /**
   * Consultation stops at the first answer: the wrappers after it make no difference, and the
   * wrappers before it all answered null.
   */
  lemma {:induction false} ConsultStopsAtAnswer<S>(wrap: (S, Hook) -> (S, Option<Reply>), s: S, ws: seq<Hook>)
    ensures Consult(wrap, s, ws[..Consult(wrap, s, ws).1]) == Consult(wrap, s, ws)
    ensures Consult(wrap, s, ws).2.Some? ==> Consult(wrap, s, ws[..Consult(wrap, s, ws).1 - 1]).2.None?
  {
    var c := Consult(wrap, s, ws);
    if ws != [] {
      var step := wrap(s, ws[0]);
      if step.1.None? {
        var rest := ws[1..];
        ConsultStopsAtAnswer(wrap, step.0, rest);
        var n := Consult(wrap, step.0, rest).1;
        assert ws[..c.1][1..] == rest[..n];
        if c.2.Some? {
          assert ws[..c.1 - 1][1..] == rest[..n - 1];
        }
      } else {
        assert ws[..0] == [];
      }
    }
  }

  /** Consulting a + b is consulting a and, only when no wrapper of a answered, then consulting b. */
  lemma {:induction false} ConsultAppend<S>(wrap: (S, Hook) -> (S, Option<Reply>), s: S, a: seq<Hook>, b: seq<Hook>)
    ensures var ca := Consult(wrap, s, a);
      Consult(wrap, s, a + b) ==
        if ca.2.Some? then ca
        else var cb := Consult(wrap, ca.0, b); (cb.0, |a| + cb.1, cb.2)
  {
    if a == [] {
      assert a + b == b;
    } else {
      assert (a + b)[0] == a[0];
      assert (a + b)[1..] == a[1..] + b;
      var step := wrap(s, a[0]);
      if step.1.None? {
        ConsultAppend(wrap, step.0, a[1..], b);
      }
    }
  }

  /** Every interceptor of obs observes the same result, in order, starting from state s. */
  function ObserveAll<S>(observe: (S, Hook, Reply) -> S, s: S, obs: seq<Hook>, result: Reply): S
  {
    if obs == [] then s
    else observe(ObserveAll(observe, s, obs[..|obs| - 1], result), obs[|obs| - 1], result)
  }

  lemma {:induction false} ObserveAllAppend<S>(observe: (S, Hook, Reply) -> S, s: S, a: seq<Hook>, b: seq<Hook>, result: Reply)
    ensures ObserveAll(observe, s, a + b, result) == ObserveAll(observe, ObserveAll(observe, s, a, result), b, result)
  {
    if b == [] {
      assert a + b == a;
    } else {
      assert (a + b)[..|a + b| - 1] == a + b[..|b| - 1];
      ObserveAllAppend(observe, s, a, b[..|b| - 1], result);
    }
  }

  /** One foreach over wrappers that returns the first non-null answer. */
  method RunWrappers<S>(wrap: (S, Hook) -> (S, Option<Reply>), s0: S, ws: seq<Hook>)
    returns (s: S, consulted: nat, answer: Option<Reply>, trace: seq<Event>)
    ensures (s, consulted, answer) == Consult(wrap, s0, ws)
    ensures trace == ConsultedEvents(ws[..consulted])
  {
    s := s0;
    trace := [];
    var i := 0;
    while i < |ws|
      invariant 0 <= i <= |ws|
      invariant var c := Consult(wrap, s, ws[i..]); Consult(wrap, s0, ws) == (c.0, c.1 + i, c.2)
      invariant trace == ConsultedEvents(ws[..i])
    {
      assert ws[i..][0] == ws[i] && ws[i..][1..] == ws[i + 1..];
      var step := wrap(s, ws[i]);
      trace := trace + [Consulted(ws[i])];
      if step.1.Some? {
        return step.0, i + 1, step.1, trace;
      }
      s := step.0;
      i := i + 1;
    }
    assert ws[i..] == [];
    return s, i, None, trace;
  }

  /** One foreach over interceptors, each observing the same result. */
  method RunInterceptors<S>(observe: (S, Hook, Reply) -> S, s0: S, obs: seq<Hook>, result: Reply)
    returns (s: S, trace: seq<Event>)
    ensures s == ObserveAll(observe, s0, obs, result)
    ensures trace == ObservedEvents(obs, result)
  {
    s := s0;
    trace := [];
    var i := 0;
    while i < |obs|
      invariant 0 <= i <= |obs| && s == ObserveAll(observe, s0, obs[..i], result)
      invariant trace == ObservedEvents(obs[..i], result)
    {
      assert obs[..i + 1][..i] == obs[..i];
      s := observe(s, obs[i], result);
      trace := trace + [Observed(obs[i], result)];
      i := i + 1;
    }
    assert obs[..i] == obs;
  }

  /** The IChatCompletionServiceInterceptor decorator around one inner completion service. */
  class ChatCompletionInterceptor {
    /** The inner service, by identity. */
    const inner: nat
    const interceptors: seq<Hook>
    const wrappers: seq<Hook>

    constructor (inner: nat, interceptors: seq<Hook>, wrappers: seq<Hook>)
      ensures this.inner == inner && this.interceptors == interceptors && this.wrappers == wrappers
    {
      this.inner := inner;
      this.interceptors := interceptors;
      this.wrappers := wrappers;
    }

    /**
     * The public constructor: a null inner service, interceptor list or wrapper list throws
     * ArgumentNullException naming that parameter, checked in that order.
     */
    static method Create(inner: Option<nat>, interceptors: Option<seq<Hook>>, wrappers: Option<seq<Hook>>)
      returns (r: Result<ChatCompletionInterceptor>)
      ensures inner.None? ==> r == Failure(ArgumentNullException("inner"))
      ensures inner.Some? && interceptors.None? ==> r == Failure(ArgumentNullException("interceptors"))
      ensures inner.Some? && interceptors.Some? && wrappers.None? ==> r == Failure(ArgumentNullException("wrappers"))
      ensures inner.Some? && interceptors.Some? && wrappers.Some? ==>
        r.Success? && fresh(r.value) && r.value.inner == inner.value
        && r.value.interceptors == interceptors.value && r.value.wrappers == wrappers.value
    {
      if inner.None? {
        return Failure(ArgumentNullException("inner"));
      }
      if interceptors.None? {
        return Failure(ArgumentNullException("interceptors"));
      }
      if wrappers.None? {
        return Failure(ArgumentNullException("wrappers"));
      }
      var c := new ChatCompletionInterceptor(inner.value, interceptors.value, wrappers.value);
      return Success(c);
    }

    /**
     * GetChatMessageContentsAsync with the active container given explicitly. The constructor
     * wrappers and then the container's wrappers are consulted in order, and the first non-null
     * answer is returned at once: the inner service is not called and no interceptor runs.
     * Otherwise the inner service is called once. When it throws, the exception propagates and no
     * interceptor runs; else every constructor interceptor and then every container interceptor
     * observes that same result, and it is returned unchanged.
     */
    method GetChatMessageContents<S>(
      s0: S, container: InterceptorContainer?,
      wrap: (S, Hook) -> (S, Option<Reply>), callInner: S -> (S, Result<Reply>), observe: (S, Hook, Reply) -> S)
      returns (r: Result<Reply>, trace: seq<Event>, s: S)
      ensures var ws := wrappers + ContainerWrappers(container);
        var c := Consult(wrap, s0, ws);
        c.2.Some? ==> r == Success(c.2.value) && s == c.0 && trace == ConsultedEvents(ws[..c.1])
      ensures var ws := wrappers + ContainerWrappers(container);
        var c := Consult(wrap, s0, ws);
        c.2.None? && callInner(c.0).1.Failure? ==>
          r == callInner(c.0).1 && s == callInner(c.0).0 && trace == ConsultedEvents(ws) + [InnerCalled]
      ensures var ws := wrappers + ContainerWrappers(container);
        var c := Consult(wrap, s0, ws);
        var obs := interceptors + ContainerInterceptors(container);
        c.2.None? && callInner(c.0).1.Success? ==>
          r == callInner(c.0).1 && s == ObserveAll(observe, callInner(c.0).0, obs, r.value)
          && trace == ConsultedEvents(ws) + [InnerCalled] + ObservedEvents(obs, r.value)
    {
      var consulted, answer;
      s, consulted, answer, trace := ConsultWrappers(s0, container, wrap);
      if answer.Some? {
        return Success(answer.value), trace, s;
      }
      var called := callInner(s);
      s, r := called.0, called.1;
      trace := trace + [InnerCalled];
      if r.Failure? {
        return;
      }
      var t;
      s, t := NotifyInterceptors(s, container, observe, r.value);
      trace := trace + t;
    }

    /** The two wrapper loops: constructor wrappers first, then the container's, stopping at the first answer. */
    method ConsultWrappers<S>(s0: S, container: InterceptorContainer?, wrap: (S, Hook) -> (S, Option<Reply>))
      returns (s: S, consulted: nat, answer: Option<Reply>, trace: seq<Event>)
      ensures var ws := wrappers + ContainerWrappers(container);
        (s, consulted, answer) == Consult(wrap, s0, ws) && trace == ConsultedEvents(ws[..consulted])
    {
      var b := ContainerWrappers(container);
      ghost var ws := wrappers + b;
      ConsultAppend(wrap, s0, wrappers, b);
      s, consulted, answer, trace := RunWrappers(wrap, s0, wrappers);
      if answer.Some? {
        assert ws[..consulted] == wrappers[..consulted];
        return;
      }
      assert wrappers[..consulted] == wrappers;
      if container != null {
        var n, t;
        s, n, answer, t := RunWrappers(wrap, s, b);
        assert ws[..|wrappers| + n] == wrappers + b[..n];
        ConsultedEventsAppend(wrappers, b[..n]);
        consulted := consulted + n;
        trace := trace + t;
      } else {
        assert ws == wrappers;
      }
    }

    /** The two interceptor loops: constructor interceptors first, then the container's, all seeing the same result. */
    method NotifyInterceptors<S>(s0: S, container: InterceptorContainer?, observe: (S, Hook, Reply) -> S, result: Reply)
      returns (s: S, trace: seq<Event>)
      ensures var obs := interceptors + ContainerInterceptors(container);
        s == ObserveAll(observe, s0, obs, result) && trace == ObservedEvents(obs, result)
    {
      ObserveAllAppend(observe, s0, interceptors, ContainerInterceptors(container), result);
      s, trace := RunInterceptors(observe, s0, interceptors, result);
      if container != null {
        var t;
        s, t := RunInterceptors(observe, s, container.interceptors, result);
        trace := trace + t;
      } else {
        assert interceptors + ContainerInterceptors(container) == interceptors;
      }
    }

    /** GetStreamingChatMessageContentsAsync: handed straight to the inner service; no tool is consulted or notified. */
    method GetStreamingChatMessageContents<S, Stream>(s0: S, streamInner: S -> (S, Stream))
      returns (r: Stream, trace: seq<Event>, s: S)
      ensures (s, r) == streamInner(s0)
      ensures trace == [InnerCalled]
    {
      var called := streamInner(s0);
      s, r := called.0, called.1;
      trace := [InnerCalled];
    }
  }
}
