/** JavaScript values as the geographic API client handles them: parameter
    values, token fields and parsed response bodies are carried through
    untouched, except where the client converts one to a string or tests
    whether it is truthy. */
module Values {

  datatype Option<+T> = None | Some(value: T)

  datatype Result<+R, +E> = Success(value: R) | Failure(error: E)

  /** `s.startsWith(prefix)`. */
  predicate StartsWith(s: string, prefix: string) {
    |prefix| <= |s| && s[..|prefix|] == prefix
  }

  /** A JavaScript value. A number is kept in its JavaScript string form
      (`String(n)`), so the float behind it stays opaque. */
  datatype Value =
    | Undefined
    | Null
    | Str(s: string)
    | Num(text: string)
    | Bool(b: bool)
    | Arr(items: seq<Value>)
    | Obj(props: map<string, Value>)

  /** JavaScript's `String(v)`: the conversion that `'Bearer ' + v` and a
      computed property key `o[v]` apply. */
  function ToJsString(v: Value): string
    decreases v, 1, 0
  {
    match v
    case Undefined => "undefined"
    case Null => "null"
    case Str(s) => s
    case Num(t) => t
    case Bool(b) => if b then "true" else "false"
    case Arr(items) => JoinItems(v, items, 0)
    case Obj(_) => "[object Object]"
  }

  /** `Array.prototype.join(",")` from index `from` on: `undefined` and
      `null` elements become empty strings. */
  function JoinItems(whole: Value, items: seq<Value>, from: nat): string
    requires whole == Arr(items) && from <= |items|
    decreases whole, 0, |items| - from
  {
    if from == |items| then ""
    else
      var item := items[from];
      var text := if item.Undefined? || item.Null? then "" else ToJsString(item);
      if from + 1 == |items| then text else text + "," + JoinItems(whole, items, from + 1)
  }

  /** JavaScript truthiness, as `if (v)` and `v ? a : b` test it. A number
      is falsy exactly when its string form is "0" (also for -0) or "NaN". */
  predicate Truthy(v: Value) {
    match v
    case Undefined => false
    case Null => false
    case Str(s) => s != ""
    case Num(t) => t != "0" && t != "NaN"
    case Bool(b) => b
    case Arr(_) => true
    case Obj(_) => true
  }
}
