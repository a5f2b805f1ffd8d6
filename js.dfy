/** JavaScript values as far as the nodes of this model observe them:
    truthiness, nullish defaulting, the string conversion `parseInt` applies
    to its argument, and `Error` objects with their `toString`. */
module Js {

  datatype Option<+T> = None | Some(value: T)

  datatype Result<+T, +E> = Ok(value: T) | Err(error: E)

  /** A JavaScript value. Numbers are integers here (floating point is not
      modelled); `Object` is a plain object, which is always truthy. Arrays
      are not values of this model. */
  datatype Value = Undefined | Null | Bool(b: bool) | Num(n: int) | Str(s: string) | Object

  /** The truthiness test used by `if (x)`, `x && y` and `!x`. */
  predicate Truthy(v: Value)
    ensures Nullish(v) ==> !Truthy(v)
    ensures v.Object? ==> Truthy(v)
  {
    match v
    case Undefined => false
    case Null => false
    case Bool(b) => b
    case Num(n) => n != 0
    case Str(s) => s != ""
    case Object => true
  }

  predicate Nullish(v: Value)
  {
    v == Undefined || v == Null
  }

  /** `v ?? fallback`: only `undefined` and `null` are replaced. */
  function Coalesce(v: Value, fallback: Value): (r: Value)
    ensures Nullish(v) ==> r == fallback
    ensures !Nullish(v) ==> r == v
  {
    if Nullish(v) then fallback else v
  }

  /** A thrown JavaScript error: its `name` ("Error", "TypeError", ...) and message. */
  datatype Exception = Exception(name: string, message: string)

  function ErrorOf(message: string): Exception
  {
    Exception("Error", message)
  }

  /** `String(e)` for an error object, as `Error.prototype.toString` computes it. */
  function ErrorToString(e: Exception): (r: string)
    ensures e.name != "" && e.message != "" ==> r == e.name + ": " + e.message
    ensures e.name == "" ==> r == e.message
    ensures e.name != "" && e.message == "" ==> r == e.name
  {
    if e.name == "" then e.message
    else if e.message == "" then e.name
    else e.name + ": " + e.message
  }

  /** `catch (e) { throw new Error(e) }`: the caught error becomes the
      message of a fresh plain `Error`, prefixed with its own name. */
  function Rethrow(e: Exception): (r: Exception)
    ensures r.name == "Error"
    ensures e.name != "" && e.message != "" ==> r.message == e.name + ": " + e.message
  {
    ErrorOf(ErrorToString(e))
  }
}
