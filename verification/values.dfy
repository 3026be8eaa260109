/**
  The dynamic values a caller can pass to the emitter.  JavaScript is
  untyped, so the argument validation of `on`, `once` and `emit` is a
  question about which kind of value arrived; an omitted argument is
  `Absent` (JavaScript's `undefined`).
 */
module Values {

  /** Functions are opaque: a handler is known only by its identity. */
  type HandlerId = nat

  datatype Value =
    | Absent
    | Str(text: string)
    | Num(number: int)
    | Fn(fn: HandlerId)
    | Obj(fields: map<string, Value>)

  /** An argument that may serve as an event name. */
  predicate IsEventName(v: Value) {
    v.Str?
  }

  /** An argument that may serve as a handler. */
  predicate IsCallable(v: Value) {
    v.Fn?
  }
}
