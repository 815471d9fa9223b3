/**
 * What the plug-in modules of the AP1000 mainframe share (the files under AP1000/): the two-digit slot
 * prefix of their commands, the fields of a slot identity string, `float()`/`int()` of an
 * argument with the ARGUMENT_TYPE error, the channel fall-back, the power-unit setting and
 * the dBm/mW conversions.
 */
module Slots {
  import opened Wrappers
  import opened Text
  import opened Python
  import opened Errors
  import opened Constants

  // ---------------------------------------------------------------- command prefix

  /** `FAMILY[` + `str(slot).zfill(2)` + `]:`, the head of every command of a module. */
  function SlotPrefix(family: string, slot: int): string
  {
    family + "[" + TwoDigits(slot) + "]:"
  }

  /** For slots 0..99 the prefix is the family, "[", two digits that read back as the slot, and "]:". */
  lemma PrefixReadsBack(family: string, slot: int)
    requires 0 <= slot < 100
    ensures |SlotPrefix(family, slot)| == |family| + 5
    ensures SlotPrefix(family, slot)[..|family| + 1] == family + "["
    ensures SlotPrefix(family, slot)[|family| + 3..] == "]:"
    ensures var d := SlotPrefix(family, slot)[|family| + 1..|family| + 3]; AllDigits(d) && DigitsValue(d) == slot
  {
    TwoDigitsRoundTrip(slot);
    assert SlotPrefix(family, slot)[|family| + 1..|family| + 3] == TwoDigits(slot);
  }

  /** Two slots of one family share a prefix only when they are the same slot. */
  lemma PrefixInjective(family: string, a: int, b: int)
    requires 0 <= a < 100 && 0 <= b < 100
    requires SlotPrefix(family, a) == SlotPrefix(family, b)
    ensures a == b
  {
    PrefixReadsBack(family, a);
    PrefixReadsBack(family, b);
  }

  /** `"SLT[" + str(slot).zfill(2) + "]:IDN?\n"`: the identity query of a slot. */
  function IdentityQuery(slot: int): string
  {
    SlotPrefix("SLT", slot) + "IDN?\n"
  }

  // ---------------------------------------------------------------- identity fields

  /** `s.split(sep)[k]`, negative `k` counting from the end; None is the IndexError of a missing field. */
  function Field(s: string, sep: char, k: int): (r: Option<string>)
    ensures r.Some? <==> -|Split(s, sep)| <= k < |Split(s, sep)|
    ensures r.Some? ==> sep !in r.value
    ensures 0 <= k < |Split(s, sep)| ==> r == Some(Split(s, sep)[k])
  {
    SplitFieldsFree(s, sep);
    At(Split(s, sep), k)
  }

  /** The fields of an identity "a/b/c/d" made of four "/"-free parts. */
  lemma FieldsOfIdentity(a: string, b: string, c: string, d: string)
    requires '/' !in a && '/' !in b && '/' !in c && '/' !in d
    ensures Field(a + "/" + b + "/" + c + "/" + d, '/', 1) == Some(b)
    ensures Field(a + "/" + b + "/" + c + "/" + d, '/', 2) == Some(c)
  {
    SplitFour(a, b, c, d, '/');
  }

  // ---------------------------------------------------------------- arguments

  /** `float(v)`; a failure is the ARGUMENT_TYPE error the modules raise, after closing, for `name`. */
  function FloatArg(py: Conv, v: Value, name: string): (r: Result<real, Failure>)
    ensures r.Ok? <==> ToFloat(py, v).Some?
    ensures r.Ok? ==> r.value == ToFloat(py, v).value
    ensures IsNumber(v) ==> r == Ok(Number(v))
    ensures r.Err? ==> r.error == Apex(ARGUMENT_TYPE, name)
  {
    match ToFloat(py, v)
    case Some(x) => Ok(x)
    case None => Err(Apex(ARGUMENT_TYPE, name))
  }

  /** `int(v)`; a failure is the ARGUMENT_TYPE error for `name`. */
  function IntArg(py: Conv, v: Value, name: string): (r: Result<int, Failure>)
    ensures r.Ok? <==> ToInt(py, v).Some?
    ensures r.Ok? ==> r.value == ToInt(py, v).value
    ensures v.Int? ==> r == Ok(v.i)
    ensures r.Err? ==> r.error == Apex(ARGUMENT_TYPE, name)
  {
    match ToInt(py, v)
    case Some(n) => Ok(n)
    case None => Err(Apex(ARGUMENT_TYPE, name))
  }

  // ---------------------------------------------------------------- channels

  /**
   * `if ChNumber > len(Channels): ChNumber = 1`: a channel past the last one falls back to the
   * first; smaller numbers, zero and negative ones included, pass through.
   */
  function Channel(ch: int, count: nat): (r: int)
    ensures r == ch <==> ch <= count || ch == 1
    ensures r <= count || r == 1
  {
    if ch > count then 1 else ch
  }

  /** The fall-back is applied again by a setter that another setter calls; twice is once. */
  lemma ChannelIdempotent(ch: int, count: nat)
    ensures Channel(Channel(ch, count), count) == Channel(ch, count)
  {
  }

  // ---------------------------------------------------------------- power unit

  const PowerUnits: set<string> := {"dbm", "mw"}

  /**
   * `SetUnit`: `Unit = str(Unit)`, kept, with the caller's casing, only when its lower-case form
   * is a valid unit; otherwise the current unit stays.
   */
  function ChosenUnit(py: Conv, current: string, v: Value, valid: set<string>): (u: string)
    ensures Lower(ToStr(py, v)) in valid ==> u == ToStr(py, v)
    ensures Lower(ToStr(py, v)) !in valid ==> u == current
    ensures Lower(current) in valid ==> Lower(u) in valid
  {
    var s := ToStr(py, v);
    if Lower(s) in valid then s else current
  }

  /** `log10` and `10 ** x`, which the model does not compute. */
  datatype Maths = Maths(log10: real -> real, pow10: real -> real)

  /**
   * `ConvertForWriting`: in dBm the power is written as given; in mW `log10(Power)` must exist
   * (a positive power, else ARGUMENT_VALUE) and `-10 * log10(Power / 100)` is written; any other
   * unit is VARIABLE_NOT_DEFINED.
   */
  function PowerForWriting(m: Maths, unit: string, p: real): (r: Result<real, Failure>)
    ensures r.Err? <==> Lower(unit) !in PowerUnits || (Lower(unit) == "mw" && p <= 0.0)
    ensures Lower(unit) == "dbm" ==> r == Ok(p)
    ensures r.Err? ==> r.error == if Lower(unit) == "mw" then Apex(ARGUMENT_VALUE, "Power")
                                  else Apex(VARIABLE_NOT_DEFINED, "self.Unit")
  {
    if Lower(unit) == "dbm" then Ok(p)
    else if Lower(unit) == "mw" then
      if p > 0.0 then Ok(-10.0 * m.log10(p / 100.0)) else Err(Apex(ARGUMENT_VALUE, "Power"))
    else Err(Apex(VARIABLE_NOT_DEFINED, "self.Unit"))
  }

  /** `ConvertForReading`: in mW `10 ** (Power / 10)`, in dBm the power itself; any other unit is VARIABLE_NOT_DEFINED. */
  function PowerForReading(m: Maths, unit: string, p: real): (r: Result<real, Failure>)
    ensures r.Err? <==> Lower(unit) !in PowerUnits
    ensures Lower(unit) == "dbm" ==> r == Ok(p)
    ensures r.Err? ==> r.error == Apex(VARIABLE_NOT_DEFINED, "self.Unit")
  {
    if Lower(unit) == "mw" then Ok(m.pow10(p / 10.0))
    else if Lower(unit) == "dbm" then Ok(p)
    else Err(Apex(VARIABLE_NOT_DEFINED, "self.Unit"))
  }

  /** In dBm, reading back what was written gives the power given. */
  lemma DbmRoundTrip(m: Maths, unit: string, p: real)
    requires Lower(unit) == "dbm"
    ensures PowerForWriting(m, unit, p).Ok?
    ensures PowerForReading(m, unit, PowerForWriting(m, unit, p).value) == Ok(p)
  {
  }

  /** The conversions fail on exactly the same units, so a unit `SetUnit` accepts never makes them raise VARIABLE_NOT_DEFINED. */
  lemma ValidUnitConverts(m: Maths, py: Conv, current: string, v: Value, p: real)
    requires Lower(current) in PowerUnits
    ensures PowerForReading(m, ChosenUnit(py, current, v, PowerUnits), p).Ok?
    ensures PowerForWriting(m, ChosenUnit(py, current, v, PowerUnits), p).Err? ==>
      PowerForWriting(m, ChosenUnit(py, current, v, PowerUnits), p).error == Apex(ARGUMENT_VALUE, "Power")
  {
  }

  /** The initial unit "dBm" of every module is valid. */
  lemma InitialUnitValid()
    ensures Lower("dBm") == "dbm" && Lower("dBm") in PowerUnits
  {
    assert Lower("dBm") == "dbm";
  }

  // ---------------------------------------------------------------- light speed

  /**
   * `VACCUM_LIGHT_SPEED / f`: a frequency between c / hi and c / lo gives a wavelength
   * between lo and hi, which the wavelength clamp then leaves as it is.
   */
  lemma WavelengthOfFrequency(lo: real, hi: real, f: real)
    requires 0.0 < lo <= hi
    requires LIGHT_SPEED / hi <= f <= LIGHT_SPEED / lo
    ensures 0.0 < f
    ensures lo <= LIGHT_SPEED / f <= hi
  {
    assert 0.0 < LIGHT_SPEED / hi;
    var w := LIGHT_SPEED / f;
    assert w * f == LIGHT_SPEED;
    assert lo * f <= lo * (LIGHT_SPEED / lo) == LIGHT_SPEED;
    assert hi * f >= hi * (LIGHT_SPEED / hi) == LIGHT_SPEED;
  }

  /** Converting a frequency to a wavelength and back, or the reverse, gives the value back. */
  lemma LightSpeedInvolution(x: real)
    requires x != 0.0
    ensures LIGHT_SPEED / x != 0.0
    ensures LIGHT_SPEED / (LIGHT_SPEED / x) == x
  {
    var y := LIGHT_SPEED / x;
    assert y * x == LIGHT_SPEED;
  }

  // ---------------------------------------------------------------- measurements

  /** A measured value, or the `float("NaN")` some modules return when a reply does not parse. */
  datatype Sample = Measured(x: real) | NaN

  /** `float(text)` with the NaN fall-back: every token gives one sample. */
  function SampleOf(py: Conv, text: string): (s: Sample)
    ensures s.NaN? <==> py.parseFloat(text).None?
    ensures s.Measured? ==> s.x == py.parseFloat(text).value
  {
    match py.parseFloat(text)
    case Some(x) => Measured(x)
    case None => NaN
  }
}
