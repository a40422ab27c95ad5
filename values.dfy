/** Loosely typed values: the model of the Python dictionaries the services pass around. */
module Values {

  datatype Option<+T> = None | Some(value: T)

  /** A scalar held in a Python dict (a JSON document, a database row, a user record). */
  datatype Value = Null | Bool(b: bool) | Int(i: int) | Num(r: real) | Str(s: string)

  /** A Python dict from field names to scalars. */
  type Record = map<string, Value>

  /** Python truthiness of a scalar: `if v:`. */
  predicate Truthy(v: Value) {
    match v
    case Null => false
    case Bool(b) => b
    case Int(i) => i != 0
    case Num(r) => r != 0.0
    case Str(s) => s != ""
  }

  /** Python truthiness of a dict: only the empty dict is falsy. */
  predicate TruthyRecord(r: Record) {
    r != map[]
  }

  /** The numeric reading Python arithmetic gives a scalar (`bool` is a subclass of `int`). */
  function NumberOf(v: Value): Option<real> {
    match v
    case Bool(b) => Some(if b then 1.0 else 0.0)
    case Int(i) => Some(i as real)
    case Num(r) => Some(r)
    case _ => None
  }
}
