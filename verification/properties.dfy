/**
  Properties of the emitter that relate several operations: what an emit
  does after an `on`, `once` or `off`, in which order handlers run, and
  what removal leaves behind.
 */
module Properties {
  import opened Wrappers
  import opened Values
  import opened Emitter

  // ---------------------------------------------------------------------------
  // Structure of a dispatch

  /** Dispatch walks the snapshot front to back: the calls of earlier subscriptions come first. */
  lemma {:induction false} DispatchConcat(a: seq<Subscription>, b: seq<Subscription>, event: string, payload: Value)
    ensures Dispatch(a + b, event, payload) == Dispatch(a, event, payload) + Dispatch(b, event, payload)
    decreases |a|
  {
    if a == [] {
      assert a + b == b;
    } else {
      assert (a + b)[0] == a[0];
      assert (a + b)[1..] == a[1..] + b;
      DispatchConcat(a[1..], b, event, payload);
    }
  }

  /** Consumption is decided subscription by subscription, so it distributes over concatenation. */
  lemma {:induction false} SurvivorsConcat(a: seq<Subscription>, b: seq<Subscription>, event: string)
    ensures Survivors(a + b, event) == Survivors(a, event) + Survivors(b, event)
    decreases |a|
  {
    if a == [] {
      assert a + b == b;
    } else {
      assert (a + b)[0] == a[0];
      assert (a + b)[1..] == a[1..] + b;
      SurvivorsConcat(a[1..], b, event);
    }
  }

  /** Removal is decided subscription by subscription, so it distributes over concatenation. */
  lemma {:induction false} KeepConcat(a: seq<Subscription>, b: seq<Subscription>, name: Value, handler: Value)
    ensures Keep(a + b, name, handler) == Keep(a, name, handler) + Keep(b, name, handler)
    decreases |a|
  {
    if a == [] {
      assert a + b == b;
    } else {
      assert (a + b)[0] == a[0];
      assert (a + b)[1..] == a[1..] + b;
      KeepConcat(a[1..], b, name, handler);
    }
  }

  /** `off` removes every copy of a matching subscription and keeps every copy of any other. */
  lemma {:induction false} KeepCounts(subs: seq<Subscription>, name: Value, handler: Value, s: Subscription)
    ensures multiset(Keep(subs, name, handler))[s] == if Removes(name, handler, s) then 0 else multiset(subs)[s]
    decreases |subs|
  {
    if subs != [] {
      assert subs == [subs[0]] + subs[1..];
      KeepCounts(subs[1..], name, handler, s);
    }
  }

  /** An emit removes every copy of a consumed subscription and keeps every copy of any other. */
  lemma {:induction false} SurvivorsCounts(subs: seq<Subscription>, event: string, s: Subscription)
    ensures multiset(Survivors(subs, event))[s] == if Consumed(s, event) then 0 else multiset(subs)[s]
    decreases |subs|
  {
    if subs != [] {
      assert subs == [subs[0]] + subs[1..];
      SurvivorsCounts(subs[1..], event, s);
    }
  }

  /** Every subscription of the snapshot that fires is invoked. */
  lemma {:induction false} DispatchCoversFiring(subs: seq<Subscription>, event: string, payload: Value, i: nat)
    requires i < |subs| && Fires(subs[i], event)
    ensures Invocation(subs[i], event, payload) in Dispatch(subs, event, payload)
    decreases |subs|
  {
    if i > 0 {
      assert subs[1..][i - 1] == subs[i];
      DispatchCoversFiring(subs[1..], event, payload, i - 1);
    }
  }

  /** The position in the snapshot of the subscription behind the `k`-th call. */
  lemma DispatchSource(subs: seq<Subscription>, event: string, payload: Value, k: nat) returns (i: nat)
    requires k < |Dispatch(subs, event, payload)|
    ensures i < |subs| && Fires(subs[i], event) && Dispatch(subs, event, payload)[k] == Invocation(subs[i], event, payload)
  {
    var calls := Dispatch(subs, event, payload);
    assert InvocationOf(calls[k], subs, event, payload);
    i :| 0 <= i < |subs| && Fires(subs[i], event) && calls[k] == Invocation(subs[i], event, payload);
  }

  /** A handler is invoked by an emit exactly when one of its subscriptions fires. */
  lemma InvokedIff(subs: seq<Subscription>, event: string, payload: Value, h: HandlerId)
    ensures Invoked(Dispatch(subs, event, payload), h)
        <==> exists i :: 0 <= i < |subs| && Fires(subs[i], event) && subs[i].handler == h
  {
    var calls := Dispatch(subs, event, payload);
    if Invoked(calls, h) {
      var k :| 0 <= k < |calls| && calls[k].handler == h;
      var i := DispatchSource(subs, event, payload, k);
      assert subs[i].handler == h;
    }
    if i :| 0 <= i < |subs| && Fires(subs[i], event) && subs[i].handler == h {
      DispatchCoversFiring(subs, event, payload, i);
      var k :| 0 <= k < |calls| && calls[k] == Invocation(subs[i], event, payload);
      assert calls[k].handler == h;
    }
  }

  // ---------------------------------------------------------------------------
  // Subscribing, then emitting

  /** The first subscription creates the store, as a list holding just that subscription. */
  lemma FirstSubscribeCreatesStore(name: Value, handler: Value, ctx: Value, once: bool)
    requires IsEventName(name) && IsCallable(handler)
    ensures Subscribe(Fresh(), name, handler, ctx, once)
         == Success(Some([Subscription(name.text, handler.fn, ContextOf(ctx), once)]))
  {
    var r := Subscribe(Fresh(), name, handler, ctx, once);
    assert |Listeners(r.value)| == 1;
  }

  /** The dispatch and the survivors of a single subscription. */
  lemma Single(sub: Subscription, event: string, payload: Value)
    ensures Dispatch([sub], event, payload) == if Fires(sub, event) then [Invocation(sub, event, payload)] else []
    ensures Survivors([sub], event) == if Consumed(sub, event) then [] else [sub]
    ensures forall name, handler :: Keep([sub], name, handler) == if Removes(name, handler, sub) then [] else [sub]
  {
    assert [sub][1..] == [];
  }

  /**
    A subscription added by `Subscribe` fires after every subscription that
    was already in the store, and the rest of the emit is what it would have
    been without it.
   */
  lemma SubscribeThenEmit(store: Store, name: Value, handler: Value, ctx: Value, once: bool, event: string, payload: Value)
    requires IsEventName(name) && IsCallable(handler)
    ensures
      var sub := Subscription(name.text, handler.fn, ContextOf(ctx), once);
      var before := Emit(store, Str(event), payload).value;
      var after := Emit(Subscribe(store, name, handler, ctx, once).value, Str(event), payload).value;
      && after.calls == before.calls + Dispatch([sub], event, payload)
      && Listeners(after.store) == Listeners(before.store) + Survivors([sub], event)
  {
    var sub := Subscription(name.text, handler.fn, ContextOf(ctx), once);
    var subs := Listeners(store);
    assert Listeners(Subscribe(store, name, handler, ctx, once).value) == subs + [sub];
    DispatchConcat(subs, [sub], event, payload);
    SurvivorsConcat(subs, [sub], event);
  }

  /**
    After `on(name, h[, ctx])`, `emit(name, p)` ends by invoking `h`, bound
    to `ctx` (or to the emitter when no context was given), with exactly `p`;
    the subscription stays.
   */
  lemma OnThenEmit(store: Store, name: string, h: HandlerId, ctx: Value, payload: Value)
    ensures On(store, Str(name), Fn(h), ctx).Success?
    ensures
      var before := Emit(store, Str(name), payload).value;
      var after := Emit(On(store, Str(name), Fn(h), ctx).value, Str(name), payload).value;
      && after.calls == before.calls + [Call(h, ContextOf(ctx), [payload])]
      && Listeners(after.store) == Listeners(before.store) + [Subscription(name, h, ContextOf(ctx), false)]
  {
    SubscribeThenEmit(store, Str(name), Fn(h), ctx, false, name, payload);
    Single(Subscription(name, h, ContextOf(ctx), false), name, payload);
  }

  /**
    After `once(name, h[, ctx])`, `emit(name, p)` ends by invoking `h` with
    `p`, and the new subscription is already gone from the store.
   */
  lemma OnceThenEmit(store: Store, name: string, h: HandlerId, ctx: Value, payload: Value)
    ensures Once(store, Str(name), Fn(h), ctx).Success?
    ensures
      var before := Emit(store, Str(name), payload).value;
      var after := Emit(Once(store, Str(name), Fn(h), ctx).value, Str(name), payload).value;
      && after.calls == before.calls + [Call(h, ContextOf(ctx), [payload])]
      && Listeners(after.store) == Listeners(before.store)
  {
    SubscribeThenEmit(store, Str(name), Fn(h), ctx, true, name, payload);
    Single(Subscription(name, h, ContextOf(ctx), true), name, payload);
  }

  /**
    A subscriber to "all" registered with `on` is invoked by an emit of any
    other name, with the event name and then the payload.
   */
  lemma OnAllHearsEvery(store: Store, h: HandlerId, ctx: Value, event: string, payload: Value)
    requires event != AllEvents
    ensures
      var before := Emit(store, Str(event), payload).value;
      var after := Emit(On(store, Str(AllEvents), Fn(h), ctx).value, Str(event), payload).value;
      after.calls == before.calls + [Call(h, ContextOf(ctx), [Str(event), payload])]
  {
    SubscribeThenEmit(store, Str(AllEvents), Fn(h), ctx, false, event, payload);
    Single(Subscription(AllEvents, h, ContextOf(ctx), false), event, payload);
  }

  /**
    A subscriber to "all" registered with `once` is invoked by an emit of any
    other name, with the event name and then the payload, and is then gone.
   */
  lemma OnceAllHearsEvery(store: Store, h: HandlerId, ctx: Value, event: string, payload: Value)
    requires event != AllEvents
    ensures
      var before := Emit(store, Str(event), payload).value;
      var after := Emit(Once(store, Str(AllEvents), Fn(h), ctx).value, Str(event), payload).value;
      && after.calls == before.calls + [Call(h, ContextOf(ctx), [Str(event), payload])]
      && Listeners(after.store) == Listeners(before.store)
  {
    SubscribeThenEmit(store, Str(AllEvents), Fn(h), ctx, true, event, payload);
    Single(Subscription(AllEvents, h, ContextOf(ctx), true), event, payload);
  }

  /** Two handlers registered under one name are invoked in registration order. */
  lemma RegistrationOrder(store: Store, name: string, h1: HandlerId, h2: HandlerId, payload: Value)
    ensures
      var s1 := On(store, Str(name), Fn(h1), Absent).value;
      var s2 := On(s1, Str(name), Fn(h2), Absent).value;
      Emit(s2, Str(name), payload).value.calls
        == Emit(store, Str(name), payload).value.calls + [Call(h1, Owner, [payload]), Call(h2, Owner, [payload])]
  {
    var s1 := On(store, Str(name), Fn(h1), Absent).value;
    var c0 := Emit(store, Str(name), payload).value.calls;
    var c1 := Emit(s1, Str(name), payload).value.calls;
    OnThenEmit(store, name, h1, Absent, payload);
    assert c1 == c0 + [Call(h1, Owner, [payload])];
    OnThenEmit(s1, name, h2, Absent, payload);
    assert c0 + [Call(h1, Owner, [payload])] + [Call(h2, Owner, [payload])]
        == c0 + [Call(h1, Owner, [payload]), Call(h2, Owner, [payload])];
  }

  /**
    A second emit of the same event invokes only persistent subscriptions:
    every once-subscription the first emit fired is gone.
   */
  lemma OnceFiresAtMostOnce(store: Store, event: string, p1: Value, p2: Value)
    ensures
      var first := Emit(store, Str(event), p1).value;
      OnlyPersistent(Emit(first.store, Str(event), p2).value.calls, Listeners(store), event, p2)
  {
    var subs := Listeners(store);
    var first := Emit(store, Str(event), p1).value;
    var rest := Listeners(first.store);
    var calls := Emit(first.store, Str(event), p2).value.calls;
    assert calls == Dispatch(rest, event, p2);
    forall k | 0 <= k < |calls|
      ensures FromPersistent(calls[k], subs, event, p2)
    {
      var j := DispatchSource(rest, event, p2, k);
      assert rest[j] in rest;
      assert rest[j] in subs && !Consumed(rest[j], event);
      var i :| 0 <= i < |subs| && subs[i] == rest[j];
      assert !subs[i].once;
    }
  }

  /** `c` is the invocation of a firing subscription of `subs` that is not a once-subscription. */
  ghost predicate FromPersistent(c: Call, subs: seq<Subscription>, event: string, payload: Value) {
    exists i :: 0 <= i < |subs| && Fires(subs[i], event) && !subs[i].once && c == Invocation(subs[i], event, payload)
  }

  /** Every call in `calls` comes from a persistent subscription of `subs`. */
  ghost predicate OnlyPersistent(calls: seq<Call>, subs: seq<Subscription>, event: string, payload: Value) {
    forall k :: 0 <= k < |calls| ==> FromPersistent(calls[k], subs, event, payload)
  }

  // ---------------------------------------------------------------------------
  // Unsubscribing

  /**
    After `off(name, h)`, `emit(name)` does not invoke `h` (unless `h` is
    also registered under "all" and hears the event from there; `off("all", h)`
    removes those registrations too).
   */
  lemma OffPairSilences(store: Store, name: string, h: HandlerId, payload: Value)
    requires name == AllEvents || forall s :: s in Listeners(store) && s.handler == h ==> s.name != AllEvents
    ensures !Invoked(Emit(Off(store, Str(name), Fn(h)), Str(name), payload).value.calls, h)
  {
    var subs := Listeners(Off(store, Str(name), Fn(h)));
    InvokedIff(subs, name, payload, h);
    forall i | 0 <= i < |subs| && subs[i].handler == h
      ensures !Fires(subs[i], name)
    {
      assert subs[i] in subs;
    }
  }

  /**
    After `off(name)`, `emit(name)` invokes no subscriber of `name`: only
    catch-all subscribers run, and they receive the event name first.
   */
  lemma OffNameSilences(store: Store, name: string, payload: Value)
    ensures
      var calls := Emit(Off(store, Str(name), Absent), Str(name), payload).value.calls;
      && (forall k :: 0 <= k < |calls| ==> calls[k].args == [Str(name), payload])
      && (name == AllEvents ==> calls == [])
  {
    var subs := Listeners(Off(store, Str(name), Absent));
    var calls := Emit(Off(store, Str(name), Absent), Str(name), payload).value.calls;
    forall k | 0 <= k < |calls|
      ensures calls[k].args == [Str(name), payload] && name != AllEvents
    {
      var i := DispatchSource(subs, name, payload, k);
      assert subs[i] in subs;
    }
    if calls != [] {
      assert calls[0].args == [Str(name), payload] && name != AllEvents;
    }
  }

  /** After `off()`, no emit invokes anything. */
  lemma OffAllSilences(store: Store, event: string, payload: Value)
    ensures Listeners(Off(store, Absent, Absent)) == []
    ensures Emit(Off(store, Absent, Absent), Str(event), payload).value.calls == []
  {
  }
}
