/**
 * The JavaScript values that the modelled code inspects for truthiness or
 * type. Numbers are integers here: NaN and fractions do not occur.
 */
module JsValues {
  import opened Wrappers

  /** A `Date` carries its time value, or `None` for an Invalid Date. */
  datatype JsValue =
    | Undefined
    | Null
    | Bool(b: bool)
    | Num(n: int)
    | Str(s: string)
    | Date(time: Option<int>)
    | Obj

  /** ECMAScript ToBoolean: what `if (v)`, `!v` and `v || w` test. */
  predicate Truthy(v: JsValue) {
    match v
    case Undefined => false
    case Null => false
    case Bool(b) => b
    case Num(n) => n != 0
    case Str(s) => s != ""
    case Date(_) => true
    case Obj => true
  }

  /** An optional string is truthy when present and non-empty. */
  predicate TruthyString(s: Option<string>) {
    s.Some? && s.value != ""
  }

  /** `s || fallback` on an optional string. */
  function OrElse(s: Option<string>, fallback: string): string {
    if TruthyString(s) then s.value else fallback
  }
}
