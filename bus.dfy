/** The event bus: an append-only, ordered listener sequence, a flag that
    chooses between blocking and detached emission, the registration
    methods that grow the sequence, and the emission loop. */
module EventBus {
  import opened Dispatch

  /** Registration as a sequence of single appends, one per argument in
      argument order: the reference for the bulk registration methods. */
  function AppendEach(s: seq<Listener>, ls: seq<Listener>): seq<Listener>
    decreases ls
  {
    if ls == [] then s else AppendEach(s + [ls[0]], ls[1..])
  }

  /** Appending one by one keeps the earlier listeners, adds the arguments
      after them in argument order, and grows the sequence by |ls|. */
  lemma {:induction false} AppendEachIsConcat(s: seq<Listener>, ls: seq<Listener>)
    ensures AppendEach(s, ls) == s + ls
    ensures |AppendEach(s, ls)| == |s| + |ls|
    decreases ls
  {
    if ls != [] {
      AppendEachIsConcat(s + [ls[0]], ls[1..]);
      assert s + [ls[0]] + ls[1..] == s + ls;
    }
  }

  /** After listeners are appended one by one, a dispatch invokes what the
      earlier listeners invoke, then what the new ones invoke, in argument
      order. */
  lemma AppendEachTrace(s: seq<Listener>, ls: seq<Listener>, e: Event, data: seq<Value>)
    ensures Trace(AppendEach(s, ls), e, data) == Trace(s, e, data) + Trace(ls, e, data)
  {
    AppendEachIsConcat(s, ls);
    TraceAppend(s, ls, e, data);
  }

  /** The emission loop: every listener of the given snapshot is called once,
      in order, with the same event copy and the same payload; `trace` is
      what those calls invoke. */
  method DoEmit(e: Event, data: seq<Value>, listeners: seq<Listener>)
    returns (calls: seq<Call>, trace: seq<Invocation>)
    ensures |calls| == |listeners|
    ensures forall i :: 0 <= i < |calls| ==> calls[i] == Call(listeners[i], e, data)
    ensures trace == Trace(listeners, e, data)
  {
    calls, trace := [], [];
    for i := 0 to |listeners|
      invariant |calls| == i
      invariant forall j :: 0 <= j < i ==> calls[j] == Call(listeners[j], e, data)
      invariant trace == Trace(listeners[..i], e, data)
    {
      var listener := listeners[i];
      calls := calls + [Call(listener, e, data)];
      TraceAppend(listeners[..i], [listener], e, data);
      assert listeners[..i + 1] == listeners[..i] + [listener];
      trace := trace + React(listener, e, data);
    }
    assert listeners[..|listeners|] == listeners;
  }

  class Bus {
    /** Whether emission runs detached from the caller. Set at creation;
        no operation changes it. */
    var allowRoutines: bool
    /** The registered listeners, in registration order. */
    var listeners: seq<Listener>

    /** A bus with no listeners in the given mode. */
    constructor CreateBus(allowRoutines: bool)
      ensures this.allowRoutines == allowRoutines
      ensures listeners == []
    {
      this.allowRoutines := allowRoutines;
      listeners := [];
    }

    /** Appends one listener; nothing else changes. */
    method AddListener(listener: Listener)
      modifies this
      ensures listeners == old(listeners) + [listener]
      ensures allowRoutines == old(allowRoutines)
    {
      listeners := listeners + [listener];
    }

    /** Registers each argument with AddListener, in argument order. */
    method AddListeners(ls: seq<Listener>)
      modifies this
      ensures listeners == AppendEach(old(listeners), ls)
      ensures listeners == old(listeners) + ls
      ensures allowRoutines == old(allowRoutines)
    {
      for i := 0 to |ls|
        invariant listeners == old(listeners) + ls[..i]
        invariant allowRoutines == old(allowRoutines)
      {
        AddListener(ls[i]);
        assert ls[..i + 1] == ls[..i] + [ls[i]];
      }
      assert ls[..|ls|] == ls;
      AppendEachIsConcat(old(listeners), ls);
    }

    /** Appends the wrapper that forwards to `listener` only events whose
        name is exactly `name`. */
    method AddNamedListener(name: string, listener: Listener)
      modifies this
      ensures listeners == old(listeners) + [Named(name, listener)]
      ensures allowRoutines == old(allowRoutines)
    {
      var internalListener := Named(name, listener);
      AddListener(internalListener);
    }

    /** Registers one wrapper per argument, in argument order, all for the
        same name. */
    method AddNamedListeners(name: string, ls: seq<Listener>)
      modifies this
      ensures listeners == old(listeners) + NamedWrappers(name, ls)
      ensures allowRoutines == old(allowRoutines)
    {
      for i := 0 to |ls|
        invariant listeners == old(listeners) + NamedWrappers(name, ls[..i])
        invariant allowRoutines == old(allowRoutines)
      {
        AddNamedListener(name, ls[i]);
        assert NamedWrappers(name, ls[..i + 1]) == NamedWrappers(name, ls[..i]) + [Named(name, ls[i])];
      }
      assert ls[..|ls|] == ls;
    }

    /** Dispatches `e` with `data`. With no listeners it returns at once,
        calling nothing and spawning nothing. Otherwise it emits over the
        listeners registered at the moment of the call, detached from the
        caller when the bus allows it and inline when not; the calls and
        the invocations are the same in both modes. */
    method CallEvent(e: Event, data: seq<Value>)
      returns (spawned: bool, calls: seq<Call>, trace: seq<Invocation>)
      ensures spawned <==> allowRoutines && |listeners| > 0
      ensures |listeners| == 0 ==> calls == [] && trace == []
      ensures |calls| == |listeners|
      ensures forall i :: 0 <= i < |calls| ==> calls[i] == Call(listeners[i], e, data)
      ensures trace == Trace(listeners, e, data)
    {
      if |listeners| < 1 {
        return false, [], [];
      }
      if allowRoutines {
        spawned := true;
        calls, trace := DoEmit(e, data, listeners);
      } else {
        spawned := false;
        calls, trace := DoEmit(e, data, listeners);
      }
    }
  }

  /** Three plain listeners registered in order on a blocking bus are
      invoked in that order by one dispatch. */
  method InOrderScenario(data: seq<Value>) returns (trace: seq<Invocation>)
    ensures trace == [Invocation(1, Event("x", []), data), Invocation(2, Event("x", []), data),
                      Invocation(3, Event("x", []), data)]
  {
    var bus := new Bus.CreateBus(false);
    bus.AddListener(Plain(1));
    bus.AddListener(Plain(2));
    bus.AddListener(Plain(3));
    var spawned, calls;
    spawned, calls, trace := bus.CallEvent(Event("x", []), data);
    PlainTrace(bus.listeners, Event("x", []), data);
  }

  /** A plain listener and a wrapper for "click": a "hover" event reaches
      only the plain one; a "click" event reaches both, the wrapped delegate
      with the payload boxed. */
  method ClickHoverScenario(data: seq<Value>) returns (hover: seq<Invocation>, click: seq<Invocation>)
    ensures hover == [Invocation(1, Event("hover", []), data)]
    ensures click == [Invocation(1, Event("click", []), data), Invocation(2, Event("click", []), [Slice(data)])]
  {
    var bus := new Bus.CreateBus(false);
    bus.AddListener(Plain(1));
    bus.AddNamedListener("click", Plain(2));
    var spawned, calls;
    spawned, calls, hover := bus.CallEvent(Event("hover", []), data);
    assert bus.listeners[1..][1..] == [];
    spawned, calls, click := bus.CallEvent(Event("click", []), data);
    MixedDispatch(1, 2, Event("click", []), data);
  }
}
