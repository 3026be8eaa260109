/**
  The listener registry and dispatch engine of the event emitter.

  An emitter is a value: its subscription store.  A freshly mixed-in object
  has no store yet (`None`, the `_listeners === undefined` state); the first
  successful `on` or `once` creates it as a list.  Every operation is a pure
  function from the old store to the new one; `emit` also returns the trace
  of handler invocations it performed, in the order it performed them.
 */
module Emitter {
  import opened Wrappers
  import opened Values

  /** The reserved event name whose subscribers hear every emitted event. */
  const AllEvents: string := "all"

  /** The receiver (`this`) a handler is invoked with. */
  datatype Context = Owner | Bound(receiver: Value)

  datatype Subscription = Subscription(
    name: string,
    handler: HandlerId,
    context: Context,
    once: bool)

  /** `None` until the first subscription is recorded. */
  type Store = Option<seq<Subscription>>

  /** The reasons `on`, `once` and `emit` throw. */
  datatype Error = InvalidName | InvalidHandler

  /** One handler invocation: who was called, bound to what, with which arguments. */
  datatype Call = Call(handler: HandlerId, context: Context, args: seq<Value>)

  /** What a successful `emit` leaves behind. */
  datatype Emitted = Emitted(store: Store, calls: seq<Call>)

  /** The store of a freshly mixed-in object. */
  function Fresh(): Store {
    None
  }

  /** The subscriptions of a store, in registration order; an absent store has none. */
  function Listeners(store: Store): seq<Subscription> {
    match store
    case None => []
    case Some(subs) => subs
  }

  /** An omitted context means the handler runs with the emitter itself as receiver. */
  function ContextOf(ctx: Value): Context {
    if ctx.Absent? then Owner else Bound(ctx)
  }

  // ---------------------------------------------------------------------------
  // on / once

  /** Validates the arguments and appends one subscription. */
  function Subscribe(store: Store, name: Value, handler: Value, ctx: Value, once: bool): (r: Result<Store, Error>)
    ensures r.Success? <==> IsEventName(name) && IsCallable(handler)
    ensures !IsEventName(name) ==> r == Failure(InvalidName)
    ensures IsEventName(name) && !IsCallable(handler) ==> r == Failure(InvalidHandler)
    ensures r.Success? ==>
      var before, after := Listeners(store), Listeners(r.value);
      && r.value.Some?
      && |after| == |before| + 1
      && after[..|before|] == before
      && after[|before|] == Subscription(name.text, handler.fn, ContextOf(ctx), once)
  {
    if !IsEventName(name) then Failure(InvalidName)
    else if !IsCallable(handler) then Failure(InvalidHandler)
    else Success(Some(Listeners(store) + [Subscription(name.text, handler.fn, ContextOf(ctx), once)]))
  }

  /** `on(name, handler[, ctx])`: a subscription that stays until removed. */
  function On(store: Store, name: Value, handler: Value, ctx: Value): (r: Result<Store, Error>)
    ensures r.Success? <==> IsEventName(name) && IsCallable(handler)
    ensures !IsEventName(name) ==> r == Failure(InvalidName)
    ensures IsEventName(name) && !IsCallable(handler) ==> r == Failure(InvalidHandler)
    ensures r.Success? ==>
      var before, after := Listeners(store), Listeners(r.value);
      && r.value.Some?
      && |after| == |before| + 1
      && after[..|before|] == before
      && after[|before|] == Subscription(name.text, handler.fn, ContextOf(ctx), false)
  {
    Subscribe(store, name, handler, ctx, false)
  }

  /** `once(name, handler[, ctx])`: a subscription removed when it fires. */
  function Once(store: Store, name: Value, handler: Value, ctx: Value): (r: Result<Store, Error>)
    ensures r.Success? <==> IsEventName(name) && IsCallable(handler)
    ensures !IsEventName(name) ==> r == Failure(InvalidName)
    ensures IsEventName(name) && !IsCallable(handler) ==> r == Failure(InvalidHandler)
    ensures r.Success? ==>
      var before, after := Listeners(store), Listeners(r.value);
      && r.value.Some?
      && |after| == |before| + 1
      && after[..|before|] == before
      && after[|before|] == Subscription(name.text, handler.fn, ContextOf(ctx), true)
  {
    Subscribe(store, name, handler, ctx, true)
  }

  // ---------------------------------------------------------------------------
  // off

  /** Whether `off(name, handler)` removes subscription `s`. */
  predicate Removes(name: Value, handler: Value, s: Subscription) {
    name == Str(s.name) && (handler.Absent? || handler == Fn(s.handler))
  }

  /** The subscriptions `off(name, handler)` keeps, in their original order. */
  function Keep(subs: seq<Subscription>, name: Value, handler: Value): (r: seq<Subscription>)
    ensures |r| <= |subs|
    ensures forall s :: s in r <==> s in subs && !Removes(name, handler, s)
    decreases |subs|
  {
    if subs == [] then []
    else
      if Removes(name, handler, subs[0]) then Keep(subs[1..], name, handler)
      else [subs[0]] + Keep(subs[1..], name, handler)
  }

  /**
    `off()`, `off(name)` and `off(name, handler)`.  It never throws: any
    arguments are accepted, and arguments that match nothing remove nothing.
   */
  function Off(store: Store, name: Value, handler: Value): (r: Store)
    ensures r.Some? <==> store.Some?
    ensures name.Absent? ==> Listeners(r) == []
    ensures !name.Absent? ==> Listeners(r) == Keep(Listeners(store), name, handler)
    ensures !name.Absent? ==>
      forall s :: s in Listeners(r) <==> s in Listeners(store) && !Removes(name, handler, s)
    ensures |Listeners(r)| <= |Listeners(store)|
  {
    match store
    case None => None
    case Some(subs) => if name.Absent? then Some([]) else Some(Keep(subs, name, handler))
  }

  // ---------------------------------------------------------------------------
  // emit

  /** Whether `s` is invoked by an emit of `event`: by its own name or as a catch-all. */
  predicate Fires(s: Subscription, event: string) {
    s.name == event || s.name == AllEvents
  }

  /** A once-subscription is consumed by the emit that fires it. */
  predicate Consumed(s: Subscription, event: string) {
    s.once && Fires(s, event)
  }

  /**
    The arguments of a firing subscription: a subscriber to the event itself
    receives the payload; a catch-all subscriber receives the event name and
    then the payload.
   */
  function Arguments(s: Subscription, event: string, payload: Value): seq<Value> {
    if s.name == event then [payload] else [Str(event), payload]
  }

  /** The invocation of a firing subscription, bound to its context. */
  function Invocation(s: Subscription, event: string, payload: Value): Call {
    Call(s.handler, s.context, Arguments(s, event, payload))
  }

  /**
    The calls made by one emit over the snapshot `subs`: at most one per
    subscription, and each the invocation of a firing subscription.
   */
  function Dispatch(subs: seq<Subscription>, event: string, payload: Value): (calls: seq<Call>)
    ensures |calls| <= |subs|
    ensures forall k :: 0 <= k < |calls| ==> InvocationOf(calls[k], subs, event, payload)
    decreases |subs|
  {
    if subs == [] then []
    else
      var rest := Dispatch(subs[1..], event, payload);
      assert forall k :: 0 <= k < |rest| ==> InvocationOf(rest[k], subs, event, payload) by {
        forall k | 0 <= k < |rest|
          ensures InvocationOf(rest[k], subs, event, payload)
        {
          var i :| 0 <= i < |subs[1..]| && Fires(subs[1..][i], event) && rest[k] == Invocation(subs[1..][i], event, payload);
          assert subs[1..][i] == subs[i + 1];
        }
      }
      if Fires(subs[0], event) then [Invocation(subs[0], event, payload)] + rest else rest
  }

  /** `c` is the invocation of some subscription of `subs` that fires for `event`. */
  ghost predicate InvocationOf(c: Call, subs: seq<Subscription>, event: string, payload: Value) {
    exists i :: 0 <= i < |subs| && Fires(subs[i], event) && c == Invocation(subs[i], event, payload)
  }

  /** The subscriptions left after an emit of `event`: all but the consumed ones. */
  function Survivors(subs: seq<Subscription>, event: string): (r: seq<Subscription>)
    ensures |r| <= |subs|
    ensures forall s :: s in r <==> s in subs && !Consumed(s, event)
    decreases |subs|
  {
    if subs == [] then []
    else
      if Consumed(subs[0], event) then Survivors(subs[1..], event)
      else [subs[0]] + Survivors(subs[1..], event)
  }

  /**
    `emit(name[, payload])`: throws unless the name is a string; otherwise
    invokes the firing subscriptions of the current snapshot and removes the
    once-subscriptions among them.
   */
  function Emit(store: Store, name: Value, payload: Value): (r: Result<Emitted, Error>)
    ensures r.Success? <==> IsEventName(name)
    ensures !IsEventName(name) ==> r == Failure(InvalidName)
    ensures r.Success? ==> (r.value.store.Some? <==> store.Some?)
    ensures r.Success? ==> Listeners(r.value.store) == Survivors(Listeners(store), name.text)
    ensures r.Success? ==>
      forall s :: s in Listeners(r.value.store) <==> s in Listeners(store) && !Consumed(s, name.text)
    ensures r.Success? ==> r.value.calls == Dispatch(Listeners(store), name.text, payload)
  {
    if !IsEventName(name) then Failure(InvalidName)
    else
      var calls := Dispatch(Listeners(store), name.text, payload);
      match store
      case None => Success(Emitted(None, calls))
      case Some(subs) => Success(Emitted(Some(Survivors(subs, name.text)), calls))
  }

  /** Whether handler `h` appears in a trace. */
  predicate Invoked(calls: seq<Call>, h: HandlerId) {
    exists k :: 0 <= k < |calls| && calls[k].handler == h
  }
}
