# golisten event bus, modelled in Dafny

This project models the in-process event bus of the golisten package
(`bus.go`). A `Bus` holds a flag, `allowRoutines`, and an append-only,
ordered sequence of listeners. Listeners are registered either plain or
wrapped in a closure that forwards only events whose `Name` matches a given
name exactly. `CallEvent` fans an event and its payload out to every listener
registered at the moment of the call, in registration order. On a bus that
allows routines the whole fan-out runs as one detached goroutine; otherwise
it runs inline. With no listeners, `CallEvent` returns at once.

The project has two modules:

- `Dispatch` (`dispatch.dfy`) holds the values: payload elements (`Value`),
  events, listeners (`Plain(id)` or `Named(filter, inner)`), and the record of
  one user function invocation. It defines, as pure functions, what one
  listener call invokes (`React`) and what one dispatch invokes (`Trace`).
  It also proves the filter rule, a closed form for chains of wrappers, and
  how traces compose.
- `EventBus` (`bus.dfy`) holds the `Bus` class, whose `listeners` field the
  registration methods update in place, and the emission loop `DoEmit`.
  Every registration method states the whole new listener sequence and the
  unchanged flag. `AddListeners` is also proved equal to `AppendEach`,
  which appends its arguments one at a time. `AddNamedListeners` is stated
  with `NamedWrappers`. `DoEmit` and `CallEvent` are proved against
  `Trace`.

A user's listener function is modelled by an opaque identity
(`DelegateId`). Its only observable effect is being invoked, so a dispatch
is described by the sequence of `Invocation(delegate, event, payload)` it
performs. `DoEmit` returns that sequence and the listener calls it makes.
`CallEvent` returns the same two results, and a third that says whether a
goroutine was spawned. These results stand for what the Go code does as
side effects; Go returns nothing here.

One behaviour of the code is kept as written. The name-filtering wrapper
calls its delegate with `data`, not `data...` (bus.go:38). The delegate
therefore receives a single argument: the payload slice itself, modelled as
`[Slice(data)]`. A plain listener receives the payload elements spread
(bus.go:71). Nested wrappers box the payload once per level
(`ReactClosedForm`).

## Model

| member | source | states |
|---|---|---|
| Dispatch.React | bus.go:31-43 | calling a stored listener runs at most one user function, and that function sees the dispatched event |
| Dispatch.Trace | bus.go:69-73 | a dispatch performs at most one invocation per listener, and every invocation sees the same event |
| Dispatch.NamedWrappers | bus.go:45-49 | the listeners appended for `name` are one wrapper per delegate, in argument order, each filtering on `name` |
| Dispatch.ReactClosedForm | bus.go:31-43 | a listener invokes its innermost user function exactly when every wrapper's name equals the event's name; it then does so exactly once, with the payload boxed once per wrapper, and otherwise invokes nothing |
| Dispatch.NamedFilter | bus.go:33-38 | a wrapper around a user function invokes it if and only if `e.Name == name`, with the argument list `[data]`; on a mismatch it invokes nothing |
| Dispatch.BoxedIsNotSpread | bus.go:38 | the argument list a wrapper forwards, `[data]`, never equals the spread payload `data` |
| Dispatch.TraceAppend | bus.go:70-72 | dispatching over `a + b` performs the invocations for `a`, then those for `b` |
| Dispatch.PlainTrace | bus.go:69-73 | over plain listeners, each user function is invoked exactly once, in registration order, with the same event and the spread payload |
| Dispatch.NamedWrappersSilent | bus.go:45-49 | wrappers registered under `name` invoke nothing for an event with any other name |
| Dispatch.NamedWrappersForward | bus.go:45-49 | for an event named `name`, wrappers registered under `name` invoke exactly what their delegates would invoke for the boxed payload, in order |
| Dispatch.MixedDispatch | bus.go:31-73 | in one dispatch, a plain listener sees `data` and a matching wrapper's delegate sees `[data]`, and these two argument lists differ |
| EventBus.AppendEachIsConcat | bus.go:20-29 | appending the arguments one at a time gives the old sequence followed by the arguments, longer by their count |
| EventBus.AppendEachTrace | bus.go:20-29 | after one-at-a-time registration, a dispatch invokes the earlier listeners' invocations first, then the new listeners' in argument order |
| EventBus.DoEmit | bus.go:69-73 | every listener in the snapshot is called exactly once, in order, with the same event copy and payload; the invocations are `Trace` of the snapshot |
| EventBus.Bus.CreateBus | bus.go:12-16 | a new bus has no listeners, and its flag is the argument |
| EventBus.Bus.AddListener | bus.go:27-29 | the new sequence is the old sequence followed by the listener; the flag is unchanged |
| EventBus.Bus.AddListeners | bus.go:20-24 | the new sequence equals calling AddListener once per argument in argument order, which is the old sequence followed by the arguments; the flag is unchanged |
| EventBus.Bus.AddNamedListener | bus.go:31-43 | the new sequence is the old one followed by one wrapper that filters on `name` around the listener; the flag is unchanged |
| EventBus.Bus.AddNamedListeners | bus.go:45-49 | the new sequence is the old one followed by one wrapper per argument, in order, all on `name`; the flag is unchanged |
| EventBus.Bus.CallEvent | bus.go:52-65 | with no listeners: no calls, no invocations, no goroutine. Otherwise: every listener registered at call time is called once, in order, with the same event and payload, and the invocations are `Trace` of those listeners. A goroutine is spawned if and only if the bus allows routines and has listeners. The bus is left unchanged |
| EventBus.InOrderScenario | bus.go:12-73 | three plain listeners added to a blocking bus are invoked in registration order by one `CallEvent` |
| EventBus.ClickHoverScenario | bus.go:12-73 | with one plain listener and one wrapper for "click": a "hover" event invokes only the plain listener; a "click" event invokes both, and the wrapped delegate gets the boxed payload |

## Left out

- The goroutine at bus.go:60 and any timing. A detached dispatch is modelled by the same calls and invocations as a blocking one, plus the `spawned` result. The model makes no ordering claim between overlapping dispatches.
- EventBus.Bus.CallEvent: in detached mode it returns the calls the spawned goroutine would make if it runs to completion. Go does not guarantee that it runs at all: the program may exit first. The model also does not state that the caller returns before any listener runs.
- Data races between registration and a dispatch running in another goroutine. `listeners` is a Dafny value, so each dispatch works on the snapshot taken at call time.
- The effects of user listener functions, and panics raised by them. In blocking mode a panic aborts the rest of the fan-out. In detached mode, a panic that nothing recovers inside the goroutine ends the whole program. The model assumes no panic occurs.
- The dynamic types of `interface{}` payload values. Payload elements are opaque atoms. The only distinction kept is between a spread payload and a slice boxed as one element.
- Listeners changing the event through the `*Event` pointer (bus.go:69-71). Every call sees the event value that was passed to `CallEvent`.
- Listeners changing the payload. Spreading `data...` at bus.go:71 passes the caller's slice itself, and the wrapper's single argument at bus.go:38 is that same slice. A listener that writes an element would change what later listeners see. The model gives every call the payload passed to `CallEvent`.
- Go's value semantics for `Bus`. `CreateBus` returns a struct, and copies of a struct may share a slice backing array. The model has a single referenced object instead.
- A `Listener` whose `On` field is nil. Calling it panics, and it is not modelled.
- The definitions of `Listener` and `Event` are not part of this model. Only the `On` field and the `Name` field are modelled; other event fields are an opaque `fields` sequence.
