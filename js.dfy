/** The JavaScript values that cross the adapter's decisions, with the
    language's truthiness rule, which every `if (x)` in the adapter uses. */
module Js {

  /** A JavaScript value as far as the adapter can observe it. Objects,
      arrays and functions are all `Obj`, told apart by an identity. */
  datatype JsValue =
    | Undefined
    | Null
    | Bool(b: bool)
    | Num(n: int)
    | Str(s: string)
    | Obj(id: nat)

  /** ECMAScript ToBoolean: `undefined`, `null`, `false`, `0` and `""` are
      falsy, everything else is truthy. */
  predicate Truthy(v: JsValue) {
    match v
    case Undefined => false
    case Null => false
    case Bool(b) => b
    case Num(n) => n != 0
    case Str(s) => s != ""
    case Obj(_) => true
  }
}
