/** The parsed JSON value that response.json() hands to a record, and subscripting it. */
module Json {
  import opened Outcomes

  datatype Value =
    | Null
    | Bool(b: bool)
    | Num(n: int)
    | Str(s: string)
    | Arr(items: seq<Value>)
    | Obj(fields: map<string, Value>)

  /** v[key] for a string key: a dict answers with the key's value or a KeyError; any other
      value (list, string, number, None) raises TypeError. */
  function Get(v: Value, key: string): Result<Value> {
    if !v.Obj? then Failure(NotAnObject(key))
    else if key !in v.fields then Failure(MissingKey(key))
    else Success(v.fields[key])
  }

  /** v[path[0]][path[1]]...: follows the keys in order, failing at the first subscript
      that fails, as a chain of Python subscripts does. */
  function At(v: Value, path: seq<string>): Result<Value>
    decreases |path|
  {
    if path == [] then Success(v)
    else
      match Get(v, path[0])
      case Failure(e) => Failure(e)
      case Success(w) => At(w, path[1..])
  }
}
