/** The values a YAML document or a JSON object can hold, as Python sees them. */
module Values {
  import opened Wrappers

  datatype Value =
    | Null
    | Bool(b: bool)
    | Int(i: int)
    | Float(f: real)
    | Str(s: string)
    | List(items: seq<Value>)
    | Map(fields: map<string, Value>)

  /** `bool(v)` */
  predicate Truthy(v: Value)
  {
    match v
    case Null => false
    case Bool(b) => b
    case Int(i) => i != 0
    case Float(f) => f != 0.0
    case Str(s) => s != ""
    case List(xs) => xs != []
    case Map(m) => m != map[]
  }

  /** `a or b` */
  function Or(a: Value, b: Value): (r: Value)
    ensures Truthy(a) ==> r == a
    ensures !Truthy(a) ==> r == b
  {
    if Truthy(a) then a else b
  }

  /** `a or b` is one of its operands, truthy exactly when either operand is, associative, and
      a falsy left operand is skipped. */
  lemma OrProperties(a: Value, b: Value, c: Value)
    ensures Or(a, b) == a || Or(a, b) == b
    ensures Truthy(Or(a, b)) <==> Truthy(a) || Truthy(b)
    ensures Or(Or(a, b), c) == Or(a, Or(b, c))
    ensures Or(a, a) == a
  {
  }

  /** `len(v)`, or None where Python raises a TypeError. */
  function LenOf(v: Value): (r: Option<nat>)
    ensures r.Some? <==> v.Str? || v.List? || v.Map?
  {
    match v
    case Str(s) => Some(|s|)
    case List(xs) => Some(|xs|)
    case Map(m) => Some(|m|)
    case _ => None
  }

  /** `d.get(k)`: the value under `k`, or None (Python's) when it is absent. */
  function GetOrNull(d: map<string, Value>, k: string): Value
  {
    if k in d then d[k] else Null
  }
}
