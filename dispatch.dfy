/** The values a bus passes around (events, payload elements, listeners) and
    what one dispatch does with them: the sequence of delegate invocations
    that results when an event and its payload are fanned out to a listener
    sequence. Nothing here changes state; module EventBus holds the bus. */
module Dispatch {

  /** Identity of a listener function value supplied by the bus's user. Its
      only observable effect is being invoked. */
  type DelegateId = nat

  /** One payload element. `Atom` stands for any opaque value; `Slice` is a
      slice of values boxed into a single element, which is what the
      name-filtering wrapper forwards. */
  datatype Value = Atom(token: nat) | Slice(items: seq<Value>)

  /** An event: the name the filters compare against and, opaquely, whatever
      other fields the caller puts in it. */
  datatype Event = Event(name: string, fields: seq<Value>)

  /** A listener stored in a bus: either a function value of the user's, or
      the closure that the bus builds around any listener to filter by name. */
  datatype Listener = Plain(id: DelegateId) | Named(filter: string, inner: Listener)

  /** One invocation of a user's function value: who, with which event, and
      with which arguments after the event. */
  datatype Invocation = Invocation(delegate: DelegateId, event: Event, payload: seq<Value>)

  /** One call of a stored listener made by the emission loop. */
  datatype Call = Call(listener: Listener, event: Event, payload: seq<Value>)

  /** The wrapper's guard: an exact, case-sensitive name comparison. */
  predicate Forwards(filter: string, e: Event)
  {
    e.name == filter
  }

  /** The arguments the wrapper hands its delegate: the whole payload slice
      passed as one argument instead of being spread. */
  function Boxed(data: seq<Value>): seq<Value>
  {
    [Slice(data)]
  }

  /** The invocations that calling listener `l` with `e` and `data` performs.
      A plain listener is invoked once with the payload spread; a wrapper
      either returns at once or forwards the boxed payload to its delegate.
      Either way at most one user function runs, and it sees `e`. */
  function React(l: Listener, e: Event, data: seq<Value>): (r: seq<Invocation>)
    ensures |r| <= 1
    ensures forall k :: 0 <= k < |r| ==> r[k].event == e
  {
    match l
    case Plain(id) => [Invocation(id, e, data)]
    case Named(filter, inner) =>
      if Forwards(filter, e) then React(inner, e, Boxed(data)) else []
  }

  /** The invocations of one dispatch: each listener in turn, in order. */
  function Trace(ls: seq<Listener>, e: Event, data: seq<Value>): (r: seq<Invocation>)
    ensures |r| <= |ls|
    ensures forall k :: 0 <= k < |r| ==> r[k].event == e
  {
    if ls == [] then [] else React(ls[0], e, data) + Trace(ls[1..], e, data)
  }

  /** The wrappers that registering `ds` under `filter` appends: one per
      delegate, in argument order, all filtering on the same name. */
  function NamedWrappers(filter: string, ds: seq<Listener>): (r: seq<Listener>)
    ensures |r| == |ds|
    ensures forall k :: 0 <= k < |r| ==> r[k] == Named(filter, ds[k])
  {
    if ds == [] then [] else [Named(filter, ds[0])] + NamedWrappers(filter, ds[1..])
  }

  // ---------------------------------------------------------------------
  // A closed form for one listener.

  /** The user function at the bottom of a chain of wrappers. */
  function Delegate(l: Listener): DelegateId
  {
    match l
    case Plain(id) => id
    case Named(_, inner) => Delegate(inner)
  }

  /** How many wrappers stand between the bus and the user function. */
  function Depth(l: Listener): nat
  {
    match l
    case Plain(_) => 0
    case Named(_, inner) => 1 + Depth(inner)
  }

  /** Every wrapper in the chain lets an event of this name through. */
  predicate Admits(l: Listener, name: string)
  {
    match l
    case Plain(_) => true
    case Named(filter, inner) => filter == name && Admits(inner, name)
  }

  /** The payload boxed `k` times. */
  function Nest(data: seq<Value>, k: nat): seq<Value>
    decreases k
  {
    if k == 0 then data else Nest(Boxed(data), k - 1)
  }

  /** A listener invokes its user function exactly when every filter on the
      way matches the event's name, and then exactly once, with the payload
      boxed once per wrapper. */
  lemma {:induction false} ReactClosedForm(l: Listener, e: Event, data: seq<Value>)
    ensures React(l, e, data) ==
            if Admits(l, e.name) then [Invocation(Delegate(l), e, Nest(data, Depth(l)))] else []
  {
    match l
    case Plain(_) =>
    case Named(filter, inner) =>
      if filter == e.name {
        ReactClosedForm(inner, e, Boxed(data));
      }
  }

  /** The wrapper built around a user function invokes it if and only if
      the names are equal; when it does, the argument list is the boxed
      payload, and when it does not, nothing at all is invoked. */
  lemma NamedFilter(filter: string, d: DelegateId, e: Event, data: seq<Value>)
    ensures |React(Named(filter, Plain(d)), e, data)| == 1 <==> e.name == filter
    ensures e.name == filter ==> React(Named(filter, Plain(d)), e, data) == [Invocation(d, e, [Slice(data)])]
    ensures e.name != filter ==> React(Named(filter, Plain(d)), e, data) == []
  {
  }

  /** The boxed payload is never the spread one: a delegate behind a wrapper
      cannot observe the arguments a plain listener observes. */
  lemma BoxedIsNotSpread(data: seq<Value>)
    ensures Boxed(data) != data
  {
    if Boxed(data) == data {
      // then data[0] would be a slice holding data itself
      SliceNotInItems(data);
      assert false;
    }
  }

  /** A slice is never one of its own items. */
  lemma SliceNotInItems(data: seq<Value>)
    ensures Slice(data) !in data
  {
  }

  // ---------------------------------------------------------------------
  // Traces of listener sequences.

  /** Dispatching over a concatenation is dispatching over each part in turn. */
  lemma {:induction false} TraceAppend(a: seq<Listener>, b: seq<Listener>, e: Event, data: seq<Value>)
    ensures Trace(a + b, e, data) == Trace(a, e, data) + Trace(b, e, data)
  {
    if a == [] {
      assert a + b == b;
    } else {
      assert (a + b)[1..] == a[1..] + b;
      TraceAppend(a[1..], b, e, data);
    }
  }

  /** Over plain listeners only, each user function is invoked exactly once,
      in registration order, with the same event and the spread payload. */
  lemma {:induction false} PlainTrace(ls: seq<Listener>, e: Event, data: seq<Value>)
    requires forall i :: 0 <= i < |ls| ==> ls[i].Plain?
    ensures |Trace(ls, e, data)| == |ls|
    ensures forall k :: 0 <= k < |ls| ==> Trace(ls, e, data)[k] == Invocation(ls[k].id, e, data)
  {
    if ls != [] {
      PlainTrace(ls[1..], e, data);
      var t := Trace(ls, e, data);
      assert t == [Invocation(ls[0].id, e, data)] + Trace(ls[1..], e, data);
      forall k | 0 <= k < |ls| ensures t[k] == Invocation(ls[k].id, e, data) {
        if k > 0 {
          assert t[k] == Trace(ls[1..], e, data)[k - 1];
        }
      }
    }
  }

  /** Wrappers registered under one name stay silent for any other name. */
  lemma {:induction false} NamedWrappersSilent(filter: string, ds: seq<Listener>, e: Event, data: seq<Value>)
    requires e.name != filter
    ensures Trace(NamedWrappers(filter, ds), e, data) == []
  {
    if ds != [] {
      NamedWrappersSilent(filter, ds[1..], e, data);
    }
  }

  /** For their own name, wrappers registered under one name dispatch to
      their delegates, in order, as if the boxed payload had been sent. */
  lemma {:induction false} NamedWrappersForward(filter: string, ds: seq<Listener>, e: Event, data: seq<Value>)
    requires e.name == filter
    ensures Trace(NamedWrappers(filter, ds), e, data) == Trace(ds, e, Boxed(data))
  {
    if ds != [] {
      NamedWrappersForward(filter, ds[1..], e, data);
    }
  }

  /** In one dispatch a plain listener sees the payload spread and a wrapper
      for the event's own name hands its delegate the payload boxed, and the
      two argument lists differ. */
  lemma MixedDispatch(a: DelegateId, b: DelegateId, e: Event, data: seq<Value>)
    ensures Trace([Plain(a), Named(e.name, Plain(b))], e, data) ==
            [Invocation(a, e, data), Invocation(b, e, [Slice(data)])]
    ensures Trace([Plain(a), Named(e.name, Plain(b))], e, data)[0].payload !=
            Trace([Plain(a), Named(e.name, Plain(b))], e, data)[1].payload
  {
    var ls := [Plain(a), Named(e.name, Plain(b))];
    assert ls[1..] == [Named(e.name, Plain(b))];
    assert ls[1..][1..] == [];
    assert Trace(ls[1..], e, data) == React(ls[1], e, data) + Trace([], e, data);
    BoxedIsNotSpread(data);
  }
}
