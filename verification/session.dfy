/**
  A sequence of calls made on one emitter, as a test body makes them.
  A call that throws is caught at the call site (as `expect(...).toThrow()`
  does): it records its error and leaves the store as it found it.
 */
module Session {
  import opened Wrappers
  import opened Values
  import opened Emitter

  /** One call on the emitter; an omitted argument is `Absent`. */
  datatype Request =
    | OnReq(name: Value, handler: Value, ctx: Value)
    | OnceReq(name: Value, handler: Value, ctx: Value)
    | OffReq(name: Value, handler: Value)
    | EmitReq(name: Value, payload: Value)

  /** The store after some calls, the handler invocations they made and the errors they threw. */
  datatype Outcome = Outcome(store: Store, calls: seq<Call>, thrown: seq<Error>)

  /** The outcome of a subscribing call: the new store, or the old one and the error. */
  function Subscribed(store: Store, r: Result<Store, Error>): Outcome {
    match r
    case Success(next) => Outcome(next, [], [])
    case Failure(e) => Outcome(store, [], [e])
  }

  /** One call. Only `emit` invokes handlers; only `off` can never throw. */
  function Step(store: Store, req: Request): (o: Outcome)
    ensures |o.thrown| <= 1
    ensures o.thrown != [] ==> o.store == store && o.calls == []
    ensures req.OffReq? ==> o.thrown == []
    ensures !req.EmitReq? ==> o.calls == []
    ensures o.thrown == [] && (req.OnReq? || req.OnceReq?) ==> |Listeners(o.store)| == |Listeners(store)| + 1
  {
    match req
    case OnReq(name, handler, ctx) => Subscribed(store, On(store, name, handler, ctx))
    case OnceReq(name, handler, ctx) => Subscribed(store, Once(store, name, handler, ctx))
    case OffReq(name, handler) => Outcome(Off(store, name, handler), [], [])
    case EmitReq(name, payload) =>
      match Emit(store, name, payload)
      case Success(e) => Outcome(e.store, e.calls, [])
      case Failure(err) => Outcome(store, [], [err])
  }

  /** `first` followed by `second`, which started from the store `first` left. */
  function Then(first: Outcome, second: Outcome): Outcome {
    Outcome(second.store, first.calls + second.calls, first.thrown + second.thrown)
  }

  /** The calls of `reqs` made one after another on `store`. */
  function Run(store: Store, reqs: seq<Request>): (o: Outcome)
    ensures |o.thrown| <= |reqs|
    ensures (forall i :: 0 <= i < |reqs| ==> !reqs[i].EmitReq?) ==> o.calls == []
    ensures (forall i :: 0 <= i < |reqs| ==> reqs[i].OffReq?) ==> o.thrown == []
    decreases |reqs|
  {
    if reqs == [] then Outcome(store, [], [])
    else
      var first := Step(store, reqs[0]);
      assert forall i :: 1 <= i < |reqs| ==> reqs[i] == reqs[1..][i - 1];
      Then(first, Run(first.store, reqs[1..]))
  }

  /** A session of one call is that call. */
  lemma RunSingle(store: Store, req: Request)
    ensures Run(store, [req]) == Step(store, req)
  {
    var step := Step(store, req);
    assert [req][1..] == [];
    assert step.calls + [] == step.calls;
    assert step.thrown + [] == step.thrown;
  }

  /** A session is its first call followed by the rest. */
  lemma RunCons(store: Store, req: Request, rest: seq<Request>)
    ensures Run(store, [req] + rest) == Then(Step(store, req), Run(Step(store, req).store, rest))
  {
    assert ([req] + rest)[0] == req;
    assert ([req] + rest)[1..] == rest;
  }
}
