/** JavaScript values as far as the bundler's runtime observes them, with the
    language's truthiness rule, and the Option/Result wrappers used for the
    source's `false` returns and thrown errors. */
module Js {

  datatype Option<+T> = None | Some(value: T)

  datatype Result<+T, +E> = Ok(value: T) | Err(error: E)

  /** A JavaScript value. Objects and functions are identified by a reference;
      their properties are not modelled. Numbers are integers (NaN is left out). */
  datatype Value =
    | Undefined
    | Null
    | Bool(b: bool)
    | Num(n: int)
    | Str(s: string)
    | Obj(ref: nat)
    | Fun(ref: nat)

  /** ECMAScript ToBoolean: `undefined`, `null`, `false`, `0` and `""` are falsy;
      every object and function is truthy. */
  predicate Truthy(v: Value) {
    match v
    case Undefined => false
    case Null => false
    case Bool(b) => b
    case Num(n) => n != 0
    case Str(s) => s != ""
    case Obj(_) => true
    case Fun(_) => true
  }

  /** `typeof v === "function"` */
  predicate IsFunction(v: Value) {
    v.Fun?
  }
}
