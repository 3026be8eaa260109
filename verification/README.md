# EventEmitter: listener registry and dispatch

A model of the event emitter that `EventEmitter.mixin({})` grafts onto an
object. The emitter keeps an ordered list of subscriptions. Each one has
an event name, a handler, a context and a once-flag. It offers four
operations:

- `on(name, handler[, ctx])` validates its arguments and appends a
  persistent subscription.
- `once(name, handler[, ctx])` appends a subscription that the emit
  which fires it also removes.
- `off()`, `off(name)` and `off(name, handler)` remove every subscription,
  those under one name, or those of one name and handler.
- `emit(name[, payload])` validates the name. It then invokes, in
  registration order, every subscription under that name with
  `(payload)`. It invokes every subscription under the reserved name
  `"all"` with `(name, payload)`.

The implementation file (`index`) is not part of this model. The
behaviour modelled here is the behaviour its Jasmine suite pins down,
`test/unit/specs/test.super-event-emitter.js`. Each behavioural `it(...)`
case of that suite is a lemma in `Scenarios`: that is every case except
'should exists' (lines 8-13), which only checks the module's shape.

Modelling choices:

- An emitter is a value: its store, `Option<seq<Subscription>>`. `None`
  is the `_listeners === undefined` state of a freshly mixed-in object.
  Two emitters are two values, so they cannot share subscriptions.
- Arguments are dynamic values: `Absent | Str | Num | Fn | Obj`. An
  omitted argument is `Absent`. A handler is an opaque `Fn(id)`.
- A thrown error is a `Failure(InvalidName | InvalidHandler)` result.
- `emit` returns the new store and the trace of `Call(handler, context,
  args)` it performed.
- `Session.Run` replays a test body (a list of calls) on one store. A
  call that throws is caught at its call site, as `expect(...).toThrow()`
  does, and changes nothing.

Files: `wrappers.dfy` (Option, Result), `values.dfy` (dynamic values),
`emitter.dfy` (the four operations), `properties.dfy` (lemmas relating
them), `session.dfy` (sequences of calls), `scenarios.dfy` (the test
cases).

## Model

| member | source | states |
|---|---|---|
| Emitter.Subscribe | test/unit/specs/test.super-event-emitter.js:49-65 | Succeeds exactly when the name is a string and the handler is callable. A non-string or missing name gives InvalidName; otherwise a non-callable or missing handler gives InvalidHandler. On success the store exists and grows by one subscription at the end, with all earlier subscriptions kept in order. |
| Emitter.On | test/unit/specs/test.super-event-emitter.js:27-40 | `on` validates as above and appends a persistent subscription bound to the given context, or to the emitter when none is given. |
| Emitter.Once | test/unit/specs/test.super-event-emitter.js:85-97 | `once` validates like `on` (so `once()` throws) and appends a once-subscription. |
| Emitter.Keep | test/unit/specs/test.super-event-emitter.js:111-126 | The subscriptions `off(name[, handler])` keeps are exactly those it does not match, and there are never more of them than before. Order and copies are stated by Properties.KeepConcat, Properties.Single and Properties.KeepCounts. |
| Emitter.Off | test/unit/specs/test.super-event-emitter.js:111-142 | `off` never throws and never creates or drops the store. `off()` leaves no subscriptions. `off(name[, handler])` leaves exactly Keep of the old list: the unmatched subscriptions, in their old order, each with all its copies. |
| Emitter.Dispatch | test/unit/specs/test.super-event-emitter.js:42-47 | An emit makes no more calls than there are subscriptions. Every call it makes invokes a subscription that fires: one under the event's own name gets `[payload]`, one under "all" gets `[name, payload]`. That each firing subscription is called exactly once, in order, is stated by Properties.DispatchConcat with Properties.Single. |
| Emitter.Survivors | test/unit/specs/test.super-event-emitter.js:85-91 | After an emit, the store keeps exactly the subscriptions that are not once-subscriptions fired by it. |
| Emitter.Emit | test/unit/specs/test.super-event-emitter.js:159-163 | `emit` throws InvalidName exactly when the name is missing or not a string. Otherwise it keeps the store's existence, leaves exactly Survivors of the old list (the subscriptions that are not fired once-subscriptions, in their old order), and performs the dispatch of the current snapshot. |
| Properties.DispatchConcat | test/unit/specs/test.super-event-emitter.js:165-179 | Calls follow registration order in one pass over the whole list: the calls for earlier subscriptions precede those for later ones, whether they are named or "all" subscribers. |
| Properties.SurvivorsConcat | test/unit/specs/test.super-event-emitter.js:85-91 | Whether a subscription survives an emit depends only on that subscription, and survivors keep their relative order. |
| Properties.KeepConcat | test/unit/specs/test.super-event-emitter.js:111-126 | Whether `off` removes a subscription depends only on that subscription, and kept subscriptions keep their relative order. |
| Properties.KeepCounts | test/unit/specs/test.super-event-emitter.js:119-126 | `off(name[, handler])` removes every copy of a matching subscription (both `on('foo', spy)` registrations go) and keeps every copy of any other. |
| Properties.SurvivorsCounts | test/unit/specs/test.super-event-emitter.js:85-91 | An emit removes every copy of a fired once-subscription and keeps every copy of any other subscription. |
| Properties.Single | test/unit/specs/test.super-event-emitter.js:27-32 | A single subscription is invoked by an emit exactly when it fires, survives exactly when it is not consumed, and is kept by `off` exactly when it does not match. |
| Properties.DispatchCoversFiring | test/unit/specs/test.super-event-emitter.js:27-32 | Every subscription that fires for the emitted name is invoked. |
| Properties.InvokedIff | test/unit/specs/test.super-event-emitter.js:111-136 | A handler is invoked by an emit if and only if one of its subscriptions fires for that name. |
| Properties.FirstSubscribeCreatesStore | test/unit/specs/test.super-event-emitter.js:21-25 | The first `on` or `once` on an object without a store creates a list holding exactly that subscription. |
| Properties.SubscribeThenEmit | test/unit/specs/test.super-event-emitter.js:27-47 | On any store, a newly added subscription fires after all earlier ones, and the rest of the emit is unchanged by it. |
| Properties.OnThenEmit | test/unit/specs/test.super-event-emitter.js:34-47 | After `on(name, h, ctx)` on any store, `emit(name, p)` ends with the call of `h` bound to `ctx` with exactly `[p]`, and the subscription stays. |
| Properties.OnceThenEmit | test/unit/specs/test.super-event-emitter.js:85-91 | After `once(name, h)` on any store, `emit(name, p)` ends with the call of `h` with `[p]`, and the list of subscriptions is as if `once` had never been called. |
| Properties.OnAllHearsEvery | test/unit/specs/test.super-event-emitter.js:67-75 | After `on("all", h)` on any store, an emit of any other name ends with the call of `h` with `[name, payload]`. |
| Properties.OnceAllHearsEvery | test/unit/specs/test.super-event-emitter.js:99-107 | After `once("all", h)` on any store, an emit of any other name ends with the call of `h` with `[name, payload]`, and the subscription is gone. |
| Properties.RegistrationOrder | test/unit/specs/test.super-event-emitter.js:165-179 | Two handlers registered under one name, on any store, are invoked first-registered first. |
| Properties.OnceFiresAtMostOnce | test/unit/specs/test.super-event-emitter.js:85-91 | A second emit of the same name invokes only persistent subscriptions of the original store, so no once-subscription is invoked twice. |
| Properties.OffPairSilences | test/unit/specs/test.super-event-emitter.js:111-117 | After `off(name, h)`, `emit(name)` does not invoke `h`. For a name other than "all", this holds provided `h` is not also subscribed under "all"; `off("all", h)` silences `h` for `emit("all")` unconditionally. |
| Properties.OffNameSilences | test/unit/specs/test.super-event-emitter.js:119-126 | After `off(name)`, `emit(name)` reaches only "all" subscribers. Duplicate registrations under `name` go with the rest, and `off("all")` silences everything for `emit("all")`. |
| Properties.OffAllSilences | test/unit/specs/test.super-event-emitter.js:128-136 | After `off()`, the store is empty and no emit invokes anything. |
| Session.Step | test/unit/specs/test.super-event-emitter.js:49-65 | A call that throws throws one error and leaves the store as it was, with no invocations. `off` never throws. Only `emit` invokes handlers. A successful `on`/`once` grows the store by one. |
| Session.Run | test/unit/specs/test.super-event-emitter.js:138-142 | A test body throws at most once per call. A body of only `off` calls throws nothing, and a body without `emit` invokes nothing. |
| Scenarios.OnCreatesStore | test/unit/specs/test.super-event-emitter.js:21-25 | A fresh object has no store; after `on('foo', spy)` it has a list. |
| Scenarios.OnThenEmitCallsSpy | test/unit/specs/test.super-event-emitter.js:27-32 | `on('foo', spy); emit('foo')` invokes the spy. |
| Scenarios.OnWithContext | test/unit/specs/test.super-event-emitter.js:34-40 | The handler registered with `{foo: 'bar'}` runs once, bound to that object. |
| Scenarios.OnPassesPayload | test/unit/specs/test.super-event-emitter.js:42-47 | The spy is invoked with exactly `({foo: 'bar'})`. |
| Scenarios.OnRejectsBadArguments | test/unit/specs/test.super-event-emitter.js:49-65 | `on()`, `on(12)`, `on('foo')` and `on('foo', 123)` throw and leave any store unchanged; `on('foo', Function)` does not throw. |
| Scenarios.OnAllEvent | test/unit/specs/test.super-event-emitter.js:67-75 | The "all" subscriber is invoked with `('something-on', {name: 'iPhone'})`. |
| Scenarios.OnceCreatesStore | test/unit/specs/test.super-event-emitter.js:79-83 | `once('foo', spy)` on a fresh object creates the list. |
| Scenarios.OnceRunsAndLeaves | test/unit/specs/test.super-event-emitter.js:85-91 | `once('foo', spy); emit('foo')` invokes the spy and leaves an empty list. |
| Scenarios.OnceRejectsNoArguments | test/unit/specs/test.super-event-emitter.js:93-97 | `once()` throws and leaves any store unchanged. |
| Scenarios.OnceAllEvent | test/unit/specs/test.super-event-emitter.js:99-107 | The once "all" subscriber is invoked with `('something-once', {name: 'iPad'})`. |
| Scenarios.OffConcreteListener | test/unit/specs/test.super-event-emitter.js:111-117 | `on('foo', spy); off('foo', spy); emit('foo')` never invokes the spy. |
| Scenarios.OffByName | test/unit/specs/test.super-event-emitter.js:119-126 | Two `on('foo', spy)`, then `off('foo')`, then `emit('foo')` never invokes the spy. |
| Scenarios.OffEverything | test/unit/specs/test.super-event-emitter.js:128-136 | After subscribing to 'foo', 'bar' and 'baz', `off()` leaves an empty list and `emit('foo')` invokes nothing. |
| Scenarios.OffNeverThrows | test/unit/specs/test.super-event-emitter.js:138-142 | `off()` on a fresh object does not throw; `off` with any arguments on any store does not throw. That the fresh object still has no store afterwards is the model's choice. |
| Scenarios.EmitCallsHandler | test/unit/specs/test.super-event-emitter.js:146-157 | The handler is not invoked by `on`, and is invoked by the following `emit('foo')`. |
| Scenarios.EmitRejectsNoArguments | test/unit/specs/test.super-event-emitter.js:159-163 | `emit()` throws and leaves any store unchanged. |
| Scenarios.SetupOrder | test/unit/specs/test.super-event-emitter.js:165-179 | `point *= 2` registered before `point += 2` are invoked in that order, so `point` goes from 2 to 6. |

## Left out

- Module shape (`typeof EventEmitter === 'object'`, no `prototype`, lines 8-13): facts about the JavaScript object model with no behaviour to model.
- Mixin mechanics (line 16): injecting properties onto an arbitrary object is not modelled. Each emitter is an independent store value, so per-object independence holds by construction.
- Handler bodies: handlers are opaque identifiers. A handler that throws, or that calls `on`/`off`/`emit` while being dispatched, cannot be expressed. Because of this, removing a once-subscription before or after its invocation gives the same result here.
- Jasmine machinery (spies, the `done` callback): a spy is a handler id, and "was called" is a property of the trace.
- Aliases, chaining and return values of `on`/`once`/`off`/`emit`: the suite does not exercise them.
- A second wildcard spelling (such as `"*"`): the suite only uses `"all"`, so only `"all"` is reserved.
- Relative order of named and `"all"` subscribers: the suite does not fix it (lines 67-75 and 165-179 each use only one kind). The model chooses one pass over the snapshot in registration order, interleaving both kinds; invoking the named subscribers first would be equally consistent with the suite. Properties.DispatchConcat, SubscribeThenEmit, OnThenEmit, OnceThenEmit, OnAllHearsEvery, OnceAllHearsEvery and RegistrationOrder state results for any store, so they rest on this choice.
- An emit of `"all"` itself: the model invokes an `"all"` subscriber once, with `[payload]`. The suite does not fix this.
- Empty-string event names: the suite does not fix their treatment. Every string is accepted as a name.
- `emit` on an object that has no store yet: the suite does not fix this. The model invokes nothing and leaves the store absent.
- `off(undefined, handler)`: the suite does not fix this. The model treats it like `off()`.
- `off` on an object that has no store yet: the suite only requires that it does not throw (lines 138-142). The model leaves the store absent.
- Which error `on`/`once` report when both arguments are bad: the suite only requires that the call throws (lines 49-65, 93-97). The model reports InvalidName before InvalidHandler; Emitter.Subscribe, On, Once and Scenarios.OnRejectsBadArguments state this choice.
- Properties.OffPairSilences: for a name other than `"all"`, assumes `h` is not also subscribed under `"all"`, because such a subscription legitimately hears `emit(name)` as a catch-all call. For `off("all", h)` it needs no assumption.
