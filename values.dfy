/** The Python values the bots handle: decoded JSON bodies and configuration
    dictionaries, their truthiness, the two lookups the code applies to
    them (`d.get(k, default)` and `x[0]`), and the outcome of evaluating an
    expression that may raise. */
module Values {

  datatype Option<T> = None | Some(value: T)

  /** A value, or the message of the ValueError raised instead. */
  datatype Result<T> = Ok(value: T) | Failure(error: string)

  /** A value decoded from JSON or YAML. JSON numbers are kept as integers:
      nothing in the bots computes with them, only their truthiness counts. */
  datatype Json =
    | JNull
    | JBool(b: bool)
    | JNum(n: int)
    | JStr(s: string)
    | JArr(items: seq<Json>)
    | JObj(fields: map<string, Json>)

  /** Python's truth value of a decoded value (`if x:` / `not x`). */
  predicate Truthy(j: Json) {
    match j
    case JNull => false
    case JBool(b) => b
    case JNum(n) => n != 0
    case JStr(s) => s != []
    case JArr(items) => items != []
    case JObj(fields) => fields != map[]
  }

  /** Evaluating a Python expression: a value, or an exception named by its
      class (`type(e).__name__`). */
  datatype Py<T> = Value(value: T) | Raised(name: string)

  /** `obj.get(key, default)`: only a dict has a `get` method. */
  function Get(obj: Json, key: string, default: Json): Py<Json> {
    if obj.JObj? then Value(if key in obj.fields then obj.fields[key] else default)
    else Raised("AttributeError")
  }

  /** `x[0]` on a truthy value: a list gives its first element, a string its
      first character; a dict has no integer keys (its keys are strings) and
      numbers and booleans cannot be subscripted. */
  function First(j: Json): Py<Json>
    requires Truthy(j)
  {
    match j
    case JArr(items) => Value(items[0])
    case JStr(s) => Value(JStr([s[0]]))
    case JObj(_) => Raised("KeyError")
    case _ => Raised("TypeError")
  }
}
