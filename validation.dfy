/**
 * The argument checks and clamps the drivers repeat in almost every setter: a type test
 * raising an ARGUMENT_TYPE error, a range test raising an ARGUMENT_VALUE error, and the
 * silent clamping of the AP1000 modules.
 */
module Validation {
  import opened Wrappers
  import opened Python
  import opened Errors

  /**
   * `isinstance(v, (float, int))` then `lo <= v <= hi`: the number on success, the
   * type error before the value error otherwise.
   */
  function NumberIn(v: Value, lo: real, hi: real, name: string): (r: Result<real, Failure>)
    ensures r.Ok? <==> IsNumber(v) && lo <= Number(v) <= hi
    ensures r.Ok? ==> r.value == Number(v)
    ensures r.Err? ==> r.error == Apex(if IsNumber(v) then ARGUMENT_VALUE else ARGUMENT_TYPE, name)
  {
    if !IsNumber(v) then Err(Apex(ARGUMENT_TYPE, name))
    else if Number(v) < lo || Number(v) > hi then Err(Apex(ARGUMENT_VALUE, name))
    else Ok(Number(v))
  }

  /** `isinstance(v, int)` then `lo <= v <= hi`, for integer-valued settings. */
  function IntIn(v: Value, lo: int, hi: int, name: string): (r: Result<int, Failure>)
    ensures r.Ok? <==> IsInt(v) && lo as real <= Number(v) <= hi as real
    ensures r.Ok? ==> r.value as real == Number(v)
    ensures r.Err? ==> r.error == Apex(if IsInt(v) then ARGUMENT_VALUE else ARGUMENT_TYPE, name)
  {
    if !IsInt(v) then Err(Apex(ARGUMENT_TYPE, name))
    else
      var n := if v.Int? then v.i else if v.b then 1 else 0;
      if n < lo || n > hi then Err(Apex(ARGUMENT_VALUE, name)) else Ok(n)
  }

  /** Python `v in [lo, lo+1, ..., hi]`: equality with one of the listed integers. */
  predicate InIntList(v: Value, lo: int, hi: int)
  {
    IsNumber(v) && Number(v) == Number(v).Floor as real && lo <= Number(v).Floor <= hi
  }

  /** The trace numbers the spectrum analysers accept: an int in 0..6. */
  function TraceNumber(v: Value): (r: Result<int, Failure>)
    ensures r.Ok? <==> IsInt(v) && InIntList(v, 0, 6)
    ensures r.Ok? ==> 0 <= r.value <= 6 && r.value as real == Number(v)
  {
    IntIn(v, 0, 6, "TraceNumber")
  }

  /** The AP1000 clamp: `if x < lo: x = lo` then `if x > hi: x = hi`. */
  function Clamp(x: real, lo: real, hi: real): (r: real)
    requires lo <= hi
    ensures lo <= r <= hi
    ensures lo <= x <= hi ==> r == x
    ensures x < lo ==> r == lo
    ensures x > hi ==> r == hi
  {
    var y := if x < lo then lo else x;
    if y > hi then hi else y
  }

  /** Clamping twice is clamping once. */
  lemma ClampIdempotent(x: real, lo: real, hi: real)
    requires lo <= hi
    ensures Clamp(Clamp(x, lo, hi), lo, hi) == Clamp(x, lo, hi)
  {
  }

  /** Clamping keeps the order of its arguments. */
  lemma ClampMonotone(x: real, y: real, lo: real, hi: real)
    requires lo <= hi && x <= y
    ensures Clamp(x, lo, hi) <= Clamp(y, lo, hi)
  {
  }
}
