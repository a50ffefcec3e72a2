/** Python values as they reach the model from JSON, pydantic and Chroma metadata. */
module PyValues {
  import opened Text

  /** A Python float: its exact value and the text `str()` prints for it. */
  datatype PyFloat = PyFloat(value: real, repr: string)

  /** A scalar from a JSON document or a metadata dictionary. */
  datatype Value = Str(s: string) | Int(i: int) | Float(f: PyFloat)

  /** `int(x)` on a float: truncation toward zero. */
  function Trunc(x: real): (r: int)
    ensures x >= 0.0 ==> r as real <= x < r as real + 1.0
    ensures x < 0.0 ==> r as real - 1.0 < x <= r as real
  {
    if x >= 0.0 then x.Floor else -((-x).Floor)
  }

  /** `str(v)` / `f"{v}"` */
  function ToText(v: Value): string {
    match v
    case Str(s) => s
    case Int(i) => IntToString(i)
    case Float(f) => f.repr
  }

  /** The number a value stands for; a text stands for none and gets 0. */
  function Magnitude(v: Value): real {
    match v
    case Str(_) => 0.0
    case Int(i) => i as real
    case Float(f) => f.value
  }

  /** Python truthiness of a number. */
  predicate IsTruthy(v: Value) {
    match v
    case Str(s) => s != ""
    case Int(i) => i != 0
    case Float(f) => f.value != 0.0
  }
}
