/**
  The behaviour of a mixed-in emitter, one test case at a time.  Each
  lemma starts from a freshly mixed-in object (`Fresh()`, no store) and
  runs the calls the test case makes.
 */
module Scenarios {
  import opened Wrappers
  import opened Values
  import opened Emitter
  import opened Properties
  import opened Session

  /** The spy handler each test case starts with. */
  const Spy: HandlerId := 0
  /** Another handler, written inline in a test case. */
  const Inline: HandlerId := 1
  /** `point *= 2` in the ordering case. */
  const Double: HandlerId := 2
  /** `point += 2` in the ordering case. */
  const AddTwo: HandlerId := 3

  /** The event name most test cases use. */
  const Foo: Value := Str("foo")

  /** The `{ foo: 'bar' }` object used as a context and as a payload. */
  const FooBar: Value := Obj(map["foo" := Str("bar")])

  /** Whether a trace holds an invocation of `h` with exactly `args`. */
  predicate InvokedWith(calls: seq<Call>, h: HandlerId, args: seq<Value>) {
    exists k :: 0 <= k < |calls| && calls[k].handler == h && calls[k].args == args
  }

  /** The session `on(name, handler, ctx); emit(event, payload)` on a fresh object. */
  lemma OnThenEmitSession(name: Value, handler: Value, ctx: Value, event: Value, payload: Value)
    requires IsEventName(name) && IsCallable(handler) && IsEventName(event)
    ensures
      var e := Emit(On(Fresh(), name, handler, ctx).value, event, payload).value;
      Run(Fresh(), [OnReq(name, handler, ctx), EmitReq(event, payload)]) == Outcome(e.store, e.calls, [])
  {
    var a, b := OnReq(name, handler, ctx), EmitReq(event, payload);
    assert [a, b] == [a] + [b];
    RunCons(Fresh(), a, [b]);
    RunSingle(Step(Fresh(), a).store, b);
  }

  /** The session `once(name, handler, ctx); emit(event, payload)` on a fresh object. */
  lemma OnceThenEmitSession(name: Value, handler: Value, ctx: Value, event: Value, payload: Value)
    requires IsEventName(name) && IsCallable(handler) && IsEventName(event)
    ensures
      var e := Emit(Once(Fresh(), name, handler, ctx).value, event, payload).value;
      Run(Fresh(), [OnceReq(name, handler, ctx), EmitReq(event, payload)]) == Outcome(e.store, e.calls, [])
  {
    var a, b := OnceReq(name, handler, ctx), EmitReq(event, payload);
    assert [a, b] == [a] + [b];
    RunCons(Fresh(), a, [b]);
    RunSingle(Step(Fresh(), a).store, b);
  }

  // ---------------------------------------------------------------------------
  // on

  /** A fresh object has no store; `on` creates it as a list. */
  lemma OnCreatesStore()
    ensures Fresh().None?
    ensures Run(Fresh(), [OnReq(Foo, Fn(Spy), Absent)]).store.Some?
  {
    FirstSubscribeCreatesStore(Foo, Fn(Spy), Absent, false);
  }

  /** `on('foo', spy); emit('foo')` invokes the spy. */
  lemma OnThenEmitCallsSpy()
    ensures Invoked(Run(Fresh(), [OnReq(Foo, Fn(Spy), Absent), EmitReq(Foo, Absent)]).calls, Spy)
  {
    OnThenEmit(Fresh(), "foo", Spy, Absent, Absent);
    var calls := Emit(On(Fresh(), Foo, Fn(Spy), Absent).value, Foo, Absent).value.calls;
    OnThenEmitSession(Foo, Fn(Spy), Absent, Foo, Absent);
    assert calls[0].handler == Spy;
  }

  /** A handler registered with a context runs with that context as receiver. */
  lemma OnWithContext()
    ensures Run(Fresh(), [OnReq(Foo, Fn(Inline), FooBar), EmitReq(Foo, Absent)]).calls
         == [Call(Inline, Bound(FooBar), [Absent])]
  {
    OnThenEmit(Fresh(), "foo", Inline, FooBar, Absent);
    OnThenEmitSession(Foo, Fn(Inline), FooBar, Foo, Absent);
  }

  /** The spy is invoked with exactly the emitted payload. */
  lemma OnPassesPayload()
    ensures InvokedWith(Run(Fresh(), [OnReq(Foo, Fn(Spy), Absent), EmitReq(Foo, FooBar)]).calls, Spy, [FooBar])
  {
    OnThenEmit(Fresh(), "foo", Spy, Absent, FooBar);
    OnThenEmitSession(Foo, Fn(Spy), Absent, Foo, FooBar);
    var calls := Emit(On(Fresh(), Foo, Fn(Spy), Absent).value, Foo, FooBar).value.calls;
    assert calls[0] == Call(Spy, Owner, [FooBar]);
  }

  /**
    `on()`, `on(12)`, `on('foo')` and `on('foo', 123)` throw and record
    nothing; `on('foo', Function)` does not throw.
   */
  lemma OnRejectsBadArguments(store: Store, anyFn: HandlerId)
    ensures Step(store, OnReq(Absent, Absent, Absent)) == Outcome(store, [], [InvalidName])
    ensures Step(store, OnReq(Num(12), Absent, Absent)) == Outcome(store, [], [InvalidName])
    ensures Step(store, OnReq(Foo, Absent, Absent)) == Outcome(store, [], [InvalidHandler])
    ensures Step(store, OnReq(Foo, Num(123), Absent)) == Outcome(store, [], [InvalidHandler])
    ensures Step(store, OnReq(Foo, Fn(anyFn), Absent)).thrown == []
  {
  }

  /** A subscriber to "all" receives the event name and the payload of any emit. */
  lemma OnAllEvent()
    ensures
      var payload := Obj(map["name" := Str("iPhone")]);
      Run(Fresh(), [OnReq(Str("all"), Fn(Inline), Absent), EmitReq(Str("something-on"), payload)]).calls
        == [Call(Inline, Owner, [Str("something-on"), payload])]
  {
    var payload := Obj(map["name" := Str("iPhone")]);
    OnAllHearsEvery(Fresh(), Inline, Absent, "something-on", payload);
    OnThenEmitSession(Str("all"), Fn(Inline), Absent, Str("something-on"), payload);
  }

  // ---------------------------------------------------------------------------
  // once

  /** `once` also creates the store as a list. */
  lemma OnceCreatesStore()
    ensures Run(Fresh(), [OnceReq(Foo, Fn(Spy), Absent)]).store.Some?
  {
    FirstSubscribeCreatesStore(Foo, Fn(Spy), Absent, true);
  }

  /** `once('foo', spy); emit('foo')` invokes the spy and leaves an empty list. */
  lemma OnceRunsAndLeaves()
    ensures
      var o := Run(Fresh(), [OnceReq(Foo, Fn(Spy), Absent), EmitReq(Foo, Absent)]);
      && Invoked(o.calls, Spy)
      && o.store == Some([])
  {
    OnceThenEmit(Fresh(), "foo", Spy, Absent, Absent);
    OnceThenEmitSession(Foo, Fn(Spy), Absent, Foo, Absent);
    var calls := Emit(Once(Fresh(), Foo, Fn(Spy), Absent).value, Foo, Absent).value.calls;
    assert calls[0].handler == Spy;
  }

  /** `once()` throws. */
  lemma OnceRejectsNoArguments(store: Store)
    ensures Step(store, OnceReq(Absent, Absent, Absent)) == Outcome(store, [], [InvalidName])
  {
  }

  /** A once-subscriber to "all" receives the event name and the payload. */
  lemma OnceAllEvent()
    ensures
      var payload := Obj(map["name" := Str("iPad")]);
      Run(Fresh(), [OnceReq(Str("all"), Fn(Inline), Absent), EmitReq(Str("something-once"), payload)]).calls
        == [Call(Inline, Owner, [Str("something-once"), payload])]
  {
    var payload := Obj(map["name" := Str("iPad")]);
    OnceAllHearsEvery(Fresh(), Inline, Absent, "something-once", payload);
    OnceThenEmitSession(Str("all"), Fn(Inline), Absent, Str("something-once"), payload);
  }

  // ---------------------------------------------------------------------------
  // off

  /** `on('foo', spy); off('foo', spy); emit('foo')` does not invoke the spy. */
  lemma OffConcreteListener()
    ensures !Invoked(Run(Fresh(), [OnReq(Foo, Fn(Spy), Absent), OffReq(Foo, Fn(Spy)), EmitReq(Foo, Absent)]).calls, Spy)
  {
    var a, b, c := OnReq(Foo, Fn(Spy), Absent), OffReq(Foo, Fn(Spy)), EmitReq(Foo, Absent);
    var s1 := On(Fresh(), Foo, Fn(Spy), Absent).value;
    var s2 := Off(s1, Foo, Fn(Spy));
    assert [a, b, c] == [a] + ([b] + [c]);
    RunCons(Fresh(), a, [b, c]);
    RunCons(s1, b, [c]);
    RunSingle(s2, c);
    OffPairSilences(s1, "foo", Spy, Absent);
  }

  /** Two registrations of the spy under 'foo' are both removed by `off('foo')`. */
  lemma OffByName()
    ensures !Invoked(Run(Fresh(), [OnReq(Foo, Fn(Spy), Absent), OnReq(Foo, Fn(Spy), Absent),
                                   OffReq(Foo, Absent), EmitReq(Foo, Absent)]).calls, Spy)
  {
    var a, b, c := OnReq(Foo, Fn(Spy), Absent), OffReq(Foo, Absent), EmitReq(Foo, Absent);
    var s1 := On(Fresh(), Foo, Fn(Spy), Absent).value;
    var s2 := On(s1, Foo, Fn(Spy), Absent).value;
    var s3 := Off(s2, Foo, Absent);
    assert [a, a, b, c] == [a] + ([a] + ([b] + [c]));
    RunCons(Fresh(), a, [a, b, c]);
    RunCons(s1, a, [b, c]);
    RunCons(s2, b, [c]);
    RunSingle(s3, c);
    assert Listeners(s3) == [];
  }

  /** `off()` removes the subscriptions of every name. */
  lemma OffEverything()
    ensures
      var o := Run(Fresh(), [OnReq(Foo, Fn(Spy), Absent), OnReq(Str("bar"), Fn(Spy), Absent),
                             OnReq(Str("baz"), Fn(Spy), Absent), OffReq(Absent, Absent), EmitReq(Foo, Absent)]);
      && o.calls == []
      && o.store == Some([])
  {
    var a, b, c := OnReq(Foo, Fn(Spy), Absent), OnReq(Str("bar"), Fn(Spy), Absent), OnReq(Str("baz"), Fn(Spy), Absent);
    var d, e := OffReq(Absent, Absent), EmitReq(Foo, Absent);
    var s1 := On(Fresh(), Foo, Fn(Spy), Absent).value;
    var s2 := On(s1, Str("bar"), Fn(Spy), Absent).value;
    var s3 := On(s2, Str("baz"), Fn(Spy), Absent).value;
    var s4 := Off(s3, Absent, Absent);
    assert [a, b, c, d, e] == [a] + ([b] + ([c] + ([d] + [e])));
    RunCons(Fresh(), a, [b, c, d, e]);
    RunCons(s1, b, [c, d, e]);
    RunCons(s2, c, [d, e]);
    RunCons(s3, d, [e]);
    RunSingle(s4, e);
    OffAllSilences(s3, "foo", Absent);
  }

  /** `off()` does not throw, on a fresh object or on any other store. */
  lemma OffNeverThrows(store: Store, name: Value, handler: Value)
    ensures Step(Fresh(), OffReq(Absent, Absent)) == Outcome(Fresh(), [], [])
    ensures Step(store, OffReq(name, handler)).thrown == []
  {
  }

  // ---------------------------------------------------------------------------
  // emit

  /** A handler is not invoked by `on`, and is invoked by the following `emit`. */
  lemma EmitCallsHandler()
    ensures Run(Fresh(), [OnReq(Foo, Fn(Inline), Absent)]).calls == []
    ensures Invoked(Run(Fresh(), [OnReq(Foo, Fn(Inline), Absent), EmitReq(Foo, Absent)]).calls, Inline)
  {
    OnThenEmit(Fresh(), "foo", Inline, Absent, Absent);
    OnThenEmitSession(Foo, Fn(Inline), Absent, Foo, Absent);
    var calls := Emit(On(Fresh(), Foo, Fn(Inline), Absent).value, Foo, Absent).value.calls;
    assert calls[0].handler == Inline;
  }

  /** `emit()` throws. */
  lemma EmitRejectsNoArguments(store: Store)
    ensures Step(store, EmitReq(Absent, Absent)) == Outcome(store, [], [InvalidName])
  {
  }

  /** The effect of the two ordering-case handlers on `point`. */
  function Effect(h: HandlerId, point: int): int {
    if h == Double then point * 2
    else if h == AddTwo then point + 2
    else point
  }

  /** `point` after the calls of a trace, applied in trace order. */
  function Replay(calls: seq<Call>, point: int): int
    decreases |calls|
  {
    if calls == [] then point else Replay(calls[1..], Effect(calls[0].handler, point))
  }

  /**
    With `point *= 2` registered before `point += 2`, an emit leaves
    `point` at 6 starting from 2 (the other order would give 8).
   */
  lemma SetupOrder()
    ensures
      var calls := Run(Fresh(), [OnReq(Str("order"), Fn(Double), Absent), OnReq(Str("order"), Fn(AddTwo), Absent),
                                 EmitReq(Str("order"), Absent)]).calls;
      && calls == [Call(Double, Owner, [Absent]), Call(AddTwo, Owner, [Absent])]
      && Replay(calls, 2) == 6
  {
    var a, b, c := OnReq(Str("order"), Fn(Double), Absent), OnReq(Str("order"), Fn(AddTwo), Absent),
                   EmitReq(Str("order"), Absent);
    var s1 := On(Fresh(), Str("order"), Fn(Double), Absent).value;
    var s2 := On(s1, Str("order"), Fn(AddTwo), Absent).value;
    assert [a, b, c] == [a] + ([b] + [c]);
    RunCons(Fresh(), a, [b, c]);
    RunCons(s1, b, [c]);
    RunSingle(s2, c);
    RegistrationOrder(Fresh(), "order", Double, AddTwo, Absent);
    var calls := Emit(s2, Str("order"), Absent).value.calls;
    assert calls[1..] == [Call(AddTwo, Owner, [Absent])];
    assert Replay(calls, 2) == Replay(calls[1..], 4) == Replay([], 6);
  }
}
