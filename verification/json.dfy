/** The dynamically typed values the service reads from decoded JSON payloads,
    with the bits of Python semantics the pure code relies on: truthiness,
    `dict.get` without a default, and `isinstance(x, (int, float))`. */
module Json {

  /** A decoded JSON value. Integers and floats are both `Num`; floating-point
      rounding is not modelled. */
  datatype Value =
    | Null
    | Bool(b: bool)
    | Num(n: real)
    | Str(s: string)
    | Arr(items: seq<Value>)
    | Obj(fields: map<string, Value>)

  /** The Python exceptions the pure code can raise on unexpected payloads. */
  datatype Fault =
    | NotADictionary(v: Value)   // `.get` on something that is not a dict
    | NotAString(v: Value)       // a string operation on something that is not a str
    | NoPeriods                  // the explicit `ValueError` for an empty period list

  /** Python truthiness: `None`, `False`, `0`, `""`, `[]` and `{}` are false. */
  predicate Truthy(v: Value)
  {
    match v
    case Null => false
    case Bool(b) => b
    case Num(n) => n != 0.0
    case Str(s) => |s| > 0
    case Arr(items) => |items| > 0
    case Obj(fields) => |fields| > 0
  }

  /** `d.get(key)`: a missing key and an explicit `null` both read as `None`. */
  function Get(d: map<string, Value>, key: string): Value
  {
    if key in d then d[key] else Null
  }

  /** `isinstance(v, (int, float))`; Python's `bool` is a subclass of `int`. */
  predicate IsNumber(v: Value)
  {
    v.Num? || v.Bool?
  }

  /** The numeric value of an `IsNumber` value (`True` is 1, `False` is 0). */
  function NumberValue(v: Value): real
    requires IsNumber(v)
  {
    match v
    case Num(n) => n
    case Bool(b) => if b then 1.0 else 0.0
  }
}
