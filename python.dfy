/**
 * The Python values the drivers receive as arguments, and the built-in conversions they
 * apply to them (`isinstance`, `==` against an integer, `float()`, `int()`, `str()`).
 * Parsing and printing of floating-point text is not computed here: the conversions that
 * need it take a `Conv`, a bundle of those functions supplied from outside.
 */
module Python {
  import opened Wrappers
  import opened Text

  /** A dynamically typed argument. `Object` is anything else (a list, bytes, an object), shown as `repr`. */
  datatype Value =
    | Int(i: int)
    | Float(f: real)
    | Bool(b: bool)
    | Str(s: string)
    | NoneValue
    | Object(repr: string)

  /** A byte of a `bytes` object. */
  type Byte = x: int | 0 <= x < 256

  /** An argument that must be a `bytes` object: bytes, or anything else. */
  datatype Payload = Bytes(data: seq<Byte>) | NotBytes(v: Value)

  /** `isinstance(v, int)`: `bool` is a subclass of `int`. */
  predicate IsInt(v: Value) { v.Int? || v.Bool? }

  /** `isinstance(v, (int, float))`. */
  predicate IsNumber(v: Value) { v.Int? || v.Float? || v.Bool? }

  /** The numeric value of an int, float or bool (`True == 1`). */
  function Number(v: Value): (x: real)
    requires IsNumber(v)
    ensures v.Int? ==> x == v.i as real
    ensures v.Bool? ==> x == if v.b then 1.0 else 0.0
  {
    match v
    case Int(i) => i as real
    case Float(f) => f
    case Bool(b) => if b then 1.0 else 0.0
  }

  /** `type(v).__name__` of a number, as error messages print it. */
  function NumberTypeName(v: Value): string
    requires IsNumber(v)
  {
    match v
    case Int(_) => "int"
    case Float(_) => "float"
    case Bool(_) => "bool"
  }

  /** Python `v == n` for an integer literal `n`: true only for numbers of that value. */
  predicate EqualsInt(v: Value, n: int)
  {
    IsNumber(v) && Number(v) == n as real
  }

  /** Python `int(x)` for a float: truncation toward zero. */
  function Trunc(x: real): (r: int)
    ensures 0.0 <= x ==> r as real <= x < r as real + 1.0
    ensures x < 0.0 ==> r as real - 1.0 < x <= r as real
  {
    if x >= 0.0 then x.Floor else -((-x).Floor)
  }

  /** The text conversions of the Python runtime that are not computed in this model. */
  datatype Conv = Conv(
    parseFloat: string -> Option<real>,  // float(s)
    parseInt: string -> Option<int>,     // int(s)
    showFloat: real -> string,           // str(x) for a float x
    fixed: (nat, real) -> string)        // "%.<n>f" % x

  /** Python `float(v)`; None stands for the ValueError or TypeError it raises. */
  function ToFloat(c: Conv, v: Value): (r: Option<real>)
    ensures IsNumber(v) ==> r == Some(Number(v))
    ensures (v.NoneValue? || v.Object?) ==> r.None?
  {
    match v
    case Str(s) => c.parseFloat(s)
    case NoneValue => None
    case Object(_) => None
    case _ => Some(Number(v))
  }

  /** Python `int(v)`; None stands for the ValueError or TypeError it raises. */
  function ToInt(c: Conv, v: Value): (r: Option<int>)
    ensures IsInt(v) ==> r.Some? && r.value as real == Number(v)
    ensures v.Float? ==> r == Some(Trunc(v.f))
    ensures (v.NoneValue? || v.Object?) ==> r.None?
  {
    match v
    case Int(i) => Some(i)
    case Bool(b) => Some(if b then 1 else 0)
    case Float(f) => Some(Trunc(f))
    case Str(s) => c.parseInt(s)
    case NoneValue => None
    case Object(_) => None
  }

  /** Python `str(v)`. */
  function ToStr(c: Conv, v: Value): (r: string)
    ensures v.Str? ==> r == v.s
    ensures v.Int? ==> r == IntToString(v.i)
  {
    match v
    case Int(i) => IntToString(i)
    case Float(f) => c.showFloat(f)
    case Bool(b) => if b then "True" else "False"
    case Str(s) => s
    case NoneValue => "None"
    case Object(r) => r
  }

  /** `"%.3f" % x` (also what `"%4.3f" % x` prints, since "%.3f" never has fewer than 5 characters). */
  function Fixed3(c: Conv, x: real): string { c.fixed(3, x) }

  /** `"%.1f" % x`. */
  function Fixed1(c: Conv, x: real): string { c.fixed(1, x) }
}
