/**
 * The data the service handles as Python does: the mapping `safe_load`
 * returns for the configuration file and the JSON body of a request.
 */
module Values {
  import opened Wrappers

  datatype Value =
    | Null
    | Bool(b: bool)
    | Int(i: int)
    | Str(s: string)
    | List(items: seq<Value>)
    | Dict(fields: map<string, Value>)

  /** The Python exceptions that reading such a value can raise. */
  datatype Fault =
    | AttributeError   // `.get` called on something that is not a mapping
    | TypeError        // a `for` loop over something that is not iterable
    | KeyError(key: string)

  /** Python truthiness: `if v:`. */
  predicate Truthy(v: Value) {
    match v
    case Null => false
    case Bool(b) => b
    case Int(i) => i != 0
    case Str(s) => s != ""
    case List(items) => items != []
    case Dict(fields) => fields != map[]
  }

  /** `v.get(key, default)`; only a mapping has `get`. */
  function Get(v: Value, key: string, default: Value): Result<Value, Fault> {
    if !v.Dict? then Failure(AttributeError)
    else if key in v.fields then Success(v.fields[key])
    else Success(default)
  }

  /**
   * The elements a `for` loop visits when its body starts by calling `.get`
   * on each of them. A list yields its items. A mapping or a string yields
   * its keys or characters, which are strings: when there is at least one,
   * the first `.get` raises AttributeError. Anything else is not iterable.
   */
  function Elements(v: Value): Result<seq<Value>, Fault> {
    match v
    case List(items) => Success(items)
    case Dict(fields) => if fields == map[] then Success([]) else Failure(AttributeError)
    case Str(s) => if s == "" then Success([]) else Failure(AttributeError)
    case _ => Failure(TypeError)
  }

  predicate StartsWith(s: string, prefix: string) {
    |prefix| <= |s| && s[..|prefix|] == prefix
  }
}
