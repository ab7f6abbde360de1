/** The Python values that `json.loads` produces, which is what the
    integration stores, reads and hands on: `None`, booleans, integers,
    floats, strings, lists and dicts. */
module Json {

  datatype Value =
    | Null
    | Bool(b: bool)
    | Int(i: int)
    | Float(f: real)
    | Str(s: string)
    | Array(items: seq<Value>)
    | Object(members: map<string, Value>)

  /** Python truth testing (`if x`, `not x`) on a decoded JSON value: `None`,
      `False`, zero, and empty strings, lists and dicts are false: `Truthy`
      picks out exactly the values that differ from the falsy value of their
      own kind. */
  predicate Truthy(v: Value)
    ensures !Truthy(v) <==>
      v in {Null, Bool(false), Int(0), Float(0.0), Str([]), Array([]), Object(map[])}
  {
    match v
    case Null => false
    case Bool(b) => b
    case Int(i) => i != 0
    case Float(f) => f != 0.0
    case Str(s) => s != []
    case Array(items) => items != []
    case Object(members) => members != map[]
  }
}
