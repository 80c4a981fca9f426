/** The slice of JavaScript's value semantics the KPI script relies on: JSON-like
    values (plus BigInt), truthiness, optional-chained property access and `||`. */
module JsValue {

  /** A JavaScript number. Finite doubles are idealised as reals; the three
      non-finite values are kept because the script tests for them. */
  datatype Number = Finite(x: real) | NaN | PosInf | NegInf

  datatype Value =
    | Undefined
    | Null
    | Bool(b: bool)
    | Num(n: Number)
    | BigInt(i: int)
    | Str(s: string)
    | Arr(elems: seq<Value>)
    | Obj(fields: map<string, Value>)

  /** JavaScript's ToBoolean: `if (v)`, `!v`, `filter(Boolean)`. */
  predicate Truthy(v: Value) {
    match v
    case Undefined => false
    case Null => false
    case Bool(b) => b
    case Num(n) => (n.Finite? && n.x != 0.0) || n.PosInf? || n.NegInf?
    case BigInt(i) => i != 0
    case Str(s) => s != ""
    case Arr(_) => true
    case Obj(_) => true
  }

  /** `v == null` (loose equality): true of null and of undefined. */
  predicate IsNullish(v: Value) {
    v.Undefined? || v.Null?
  }

  /** `v?.[k]`: the own property `k` of an object, undefined otherwise. */
  function Get(v: Value, k: string): Value {
    if v.Obj? && k in v.fields then v.fields[k] else Undefined
  }

  /** `a || b`: `a` when it is truthy, otherwise `b`. */
  function Or(a: Value, b: Value): (r: Value)
    ensures r == a || r == b
    ensures Truthy(r) <==> Truthy(a) || Truthy(b)
  {
    if Truthy(a) then a else b
  }
}
