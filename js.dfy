/**
 * The pieces of JavaScript semantics the core relies on: values, truthiness
 * (the `!x` guards), property reads, exceptions as outcomes, and injected
 * collaborator references.
 */
module Js {

  import opened Errors

  /**
   * A JavaScript value. Numbers are integers here: NaN, -0 and fractions are
   * not modelled. `Obj` holds an object's own data properties.
   */
  datatype Value =
    | Undefined
    | Null
    | Bool(b: bool)
    | Num(n: int)
    | Str(s: string)
    | Obj(props: map<string, Value>)

  /** `!!v`: false exactly for undefined, null, false, 0 and the empty string. */
  predicate Truthy(v: Value) {
    match v
    case Undefined => false
    case Null => false
    case Bool(b) => b
    case Num(n) => n != 0
    case Str(s) => s != ""
    case Obj(_) => true
  }

  predicate Nullish(v: Value) {
    v.Undefined? || v.Null?
  }

  /** The result of evaluating or awaiting an expression: a value, or a thrown error. */
  datatype Outcome<+T> = Return(value: T) | Throw(error: Error)

  /**
   * `v.key` (also what object destructuring does per key). Reading from
   * undefined or null throws a TypeError; a missing own property reads as
   * undefined. The keys the core reads (body, email, password) are not
   * inherited from any built-in prototype, so primitives read as undefined.
   */
  function Get(v: Value, key: string): (r: Outcome<Value>)
    ensures r.Throw? <==> Nullish(v)
    ensures r.Throw? ==> r.error == TypeError
    ensures v.Obj? ==> r == Return(if key in v.props then v.props[key] else Undefined)
    ensures !Nullish(v) && !v.Obj? ==> r == Return(Undefined)
  {
    match v
    case Undefined => Throw(TypeError)
    case Null => Throw(TypeError)
    case Obj(props) => if key in props then Return(props[key]) else Return(Undefined)
    case _ => Return(Undefined)
  }

  /**
   * A collaborator stored in a field at construction: absent (undefined or
   * null), an object without the method the core calls, or one providing it.
   */
  datatype Dependency<F> = Absent | LacksMethod | Provides(op: F)

  /** An outcome together with the log of collaborator calls made to reach it, in order. */
  datatype Traced<+T, +C> = Traced(outcome: Outcome<T>, calls: seq<C>)
}
