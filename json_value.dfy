/** The Python values the services pass around as dicts, lists and scalars. */
module JsonValue {

  /**
   * A Python value as produced by `json.loads` or held in the wizard state.
   * Dict key order is not kept: no modelled operation depends on it.
   */
  datatype Value =
    | Null
    | Bool(b: bool)
    | Int(i: int)
    | Real(r: real)
    | Str(s: string)
    | Arr(items: seq<Value>)
    | Obj(fields: map<string, Value>)

  /** Python truthiness (`bool(v)`). */
  predicate Truthy(v: Value) {
    match v
    case Null => false
    case Bool(b) => b
    case Int(i) => i != 0
    case Real(r) => r != 0.0
    case Str(s) => s != []
    case Arr(items) => items != []
    case Obj(fields) => fields != map[]
  }

  /** `isinstance(v, (int, float))`: a bool counts, since Python's bool is an int. */
  predicate IsNumber(v: Value) {
    v.Bool? || v.Int? || v.Real?
  }

  /** The numeric value of a number, with True and False as 1 and 0. */
  function NumberValue(v: Value): real
    requires IsNumber(v)
  {
    match v
    case Bool(b) => if b then 1.0 else 0.0
    case Int(i) => i as real
    case Real(r) => r
  }

  /** `d.get(key)` on a dict value, None for a missing key or a non-dict. */
  function Field(v: Value, key: string): Value {
    if v.Obj? && key in v.fields then v.fields[key] else Null
  }
}
