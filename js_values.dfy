/**
 * The JavaScript values that flow through the strategy untouched (the
 * verifier's `err`, `user` and `info`, the `passReqToCallback` option), and
 * the truthiness test every `if (x)` of the strategy applies to them.
 */
module JsValues {
  /** Numbers are integers here: NaN and fractional values are not modelled.
      Objects and functions are identified by an opaque reference. */
  datatype Value =
    | Undefined
    | Null
    | Bool(b: bool)
    | Num(n: int)
    | Str(s: string)
    | Obj(ref: nat)

  /** JavaScript's ToBoolean. */
  predicate Truthy(v: Value)
  {
    match v
    case Undefined => false
    case Null => false
    case Bool(b) => b
    case Num(n) => n != 0
    case Str(s) => s != ""
    case Obj(_) => true
  }

  /** Truthiness of a string, as `if (token)` reads it: only "" is falsy. */
  predicate TruthyString(s: string)
  {
    Truthy(Str(s))
  }
}
