/** JSON values as the workflow engine sees them after parsing: Python's `None`,
    `bool`, `int`, `float`, `str`, `list` and `dict` with string keys. */
module Json {

  datatype Value =
    | Null
    | Bool(b: bool)
    | Int(n: int)
    | Real(r: real)
    | Str(s: string)
    | List(items: seq<Value>)
    | Dict(fields: map<string, Value>)

  datatype Option<+T> = None | Some(value: T)
  {
    function GetOr(default: T): T {
      if Some? then value else default
    }
  }

  /** `d.get(key)`, with `Null` standing for both a missing key and a `None` value. */
  function Get(d: Value, key: string): (r: Value)
  {
    if d.Dict? && key in d.fields then d.fields[key] else Null
  }

  /** `key in d` for a dict, and false for anything else. */
  predicate Has(d: Value, key: string) {
    d.Dict? && key in d.fields
  }

  /** `bool(v)` in Python. */
  predicate Truthy(v: Value) {
    match v
    case Null => false
    case Bool(b) => b
    case Int(n) => n != 0
    case Real(r) => r != 0.0
    case Str(s) => s != ""
    case List(items) => items != []
    case Dict(fields) => fields != map[]
  }

  /** The number a value compares as under Python's `==`: a bool is an int. */
  function AsNumber(v: Value): Option<real> {
    match v
    case Bool(b) => Some(if b then 1.0 else 0.0)
    case Int(n) => Some(n as real)
    case Real(r) => Some(r)
    case _ => None
  }

  /** Python's `a == b`, under which `True == 1 == 1.0`, at every depth. */
  predicate PyEq(a: Value, b: Value)
    decreases a
  {
    if AsNumber(a).Some? || AsNumber(b).Some? then
      AsNumber(a) == AsNumber(b)
    else match (a, b)
      case (Null, Null) => true
      case (Str(s), Str(t)) => s == t
      case (List(xs), List(ys)) =>
        |xs| == |ys| && forall i | 0 <= i < |xs| :: PyEq(xs[i], ys[i])
      case (Dict(f), Dict(g)) =>
        f.Keys == g.Keys && forall k | k in f :: PyEq(f[k], g[k])
      case _ => false
  }

  /** `v in list` uses `==`, not identity. */
  predicate PyIn(v: Value, items: seq<Value>) {
    exists i | 0 <= i < |items| :: PyEq(v, items[i])
  }
}
