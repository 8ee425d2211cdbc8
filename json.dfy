/**
 * Values as they arrive from the shop's REST API once the JSON body has been
 * decoded: JSON numbers are Python ints or floats, objects are string-keyed
 * dicts. A raw record (and a transformed row) is such a dict.
 */
module Json {

  datatype Value =
    | Null
    | Bool(b: bool)
    | Int(i: int)
    | Float(x: real)
    | Str(s: string)
    | Arr(items: seq<Value>)
    | Obj(fields: map<string, Value>)

  /** A raw API record: field name to value. */
  type Record = map<string, Value>

  /** A flat row handed to the warehouse loader. */
  type Row = map<string, Value>

  /** Python's `d.get(k)`: the value under `k`, or None when `k` is absent. */
  function Get(d: map<string, Value>, k: string): (v: Value)
    ensures k !in d ==> v == Null
    ensures k in d ==> v == d[k]
  {
    if k in d then d[k] else Null
  }

  /** Python truthiness of a decoded JSON value. */
  predicate Truthy(v: Value)
  {
    match v
    case Null => false
    case Bool(b) => b
    case Int(i) => i != 0
    case Float(x) => x != 0.0
    case Str(s) => s != ""
    case Arr(items) => items != []
    case Obj(fields) => fields != map[]
  }

  /** The name Python's `type(v).__name__` gives a decoded JSON value. */
  function PyTypeName(v: Value): string
  {
    match v
    case Null => "NoneType"
    case Bool(_) => "bool"
    case Int(_) => "int"
    case Float(_) => "float"
    case Str(_) => "str"
    case Arr(_) => "list"
    case Obj(_) => "dict"
  }
}
