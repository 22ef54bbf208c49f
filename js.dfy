/**
 * The few JavaScript values the request pipeline inspects, and JavaScript's
 * notion of truthiness, which decides every `if (!x)` and `x || fallback`
 * in server/app.js.
 */
module Js {

  datatype Option<T> = None | Some(value: T)

  /**
   * A JavaScript value as far as the pipeline looks at it. Numbers are
   * integers (no NaN, no -0); objects are opaque and told apart by an id.
   */
  datatype Value =
    | Undefined
    | Null
    | Bool(b: bool)
    | Num(n: int)
    | Str(s: string)
    | Obj(id: nat)

  /** `!!v`: false exactly for undefined, null, false, 0 and the empty string. */
  predicate Truthy(v: Value) {
    match v
    case Undefined => false
    case Null => false
    case Bool(b) => b
    case Num(n) => n != 0
    case Str(s) => s != ""
    case Obj(_) => true
  }

  /** `a || b`: the first operand when it is truthy, the second otherwise. */
  function Or(a: Value, b: Value): Value {
    if Truthy(a) then a else b
  }

  /** A numeric field that may be missing (`undefined`), as a value. */
  function OfNumber(o: Option<int>): Value {
    match o
    case None => Undefined
    case Some(n) => Num(n)
  }
}
