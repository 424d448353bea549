/** JavaScript values as the session code handles them: a string that may also
    be `null` or `undefined`, the truthiness that `||` tests, and `String(v)`. */
module Js {

  datatype Option<T> = None | Some(value: T)

  /** A string-valued JavaScript slot: a string, or one of the two empty values. */
  datatype JsString = Null | Undefined | Str(s: string)

  /** Truthiness on these values: only a non-empty string is truthy. */
  predicate Truthy(v: JsString) {
    v.Str? && v.s != ""
  }

  /** `a || b`: the left operand when it is truthy, the right one otherwise. */
  function Or(a: JsString, b: JsString): (r: JsString)
    ensures r == a || r == b
    ensures Truthy(r) <==> Truthy(a) || Truthy(b)
    ensures Truthy(a) ==> r == a
    ensures !Truthy(a) ==> r == b
  {
    if Truthy(a) then a else b
  }

  /** `String(v)`, the coercion applied by `localStorage.setItem` and by template literals. */
  function ToStr(v: JsString): (r: string)
    ensures v.Str? ==> r == v.s
    ensures !v.Str? ==> r != ""
  {
    match v
    case Null => "null"
    case Undefined => "undefined"
    case Str(s) => s
  }
}
