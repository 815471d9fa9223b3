/**
 * What the AP2XXX optical spectrum analyser drivers (the `AP2XXX` class and its copy `OSA`)
 * compute without the instrument: the option spellings they accept, the commands these select,
 * the tokens they keep from a reply, and the reductions `FindPeak` and `LineWidth` apply.
 */
module Spectrum {
  import opened Wrappers
  import opened Text
  import opened Python
  import opened Errors

  /** What `FindPeak` and `LineWidth` return: a list, or a single value picked from it. */
  datatype Reading = Many(values: seq<real>) | One(value: real)

  /** `str(v).lower()`: how the drivers compare an option that may have any type. */
  function LowerStr(py: Conv, v: Value): string
  {
    Lower(ToStr(py, v))
  }

  // ---------------------------------------------------------------- Run

  /** The sweep command of `Run`: a name for a string, a number for anything else. */
  function SweepCommand(kind: Value): (cmd: string)
    ensures cmd in {"SPSWP0\n", "SPSWP1\n", "SPSWP2\n"}
    ensures cmd == "SPSWP0\n" <==> (if kind.Str? then Lower(kind.s) == "auto" else EqualsInt(kind, 0))
    ensures cmd == "SPSWP2\n" <==> (if kind.Str? then Lower(kind.s) == "repeat" else EqualsInt(kind, 2))
  {
    if kind.Str? then
      if Lower(kind.s) == "auto" then "SPSWP0\n"
      else if Lower(kind.s) == "repeat" then "SPSWP2\n"
      else "SPSWP1\n"
    else if EqualsInt(kind, 0) then "SPSWP0\n"
    else if EqualsInt(kind, 2) then "SPSWP2\n"
    else "SPSWP1\n"
  }

  /** The documented pairs "auto"/0, "single"/1 and "repeat"/2 select the same sweep, in any case. */
  lemma SweepSpellingsAgree(s: string)
    ensures SweepCommand(Str("auto")) == SweepCommand(Int(0)) == SweepCommand(Float(0.0)) == "SPSWP0\n"
    ensures SweepCommand(Str("single")) == SweepCommand(Int(1)) == "SPSWP1\n"
    ensures SweepCommand(Str("repeat")) == SweepCommand(Int(2)) == "SPSWP2\n"
    ensures SweepCommand(Str(s)) == SweepCommand(Str(Lower(s)))
    ensures SweepCommand(Bool(false)) == "SPSWP0\n" && SweepCommand(Bool(true)) == "SPSWP1\n"
  {
    LowerIdempotent(s);
    assert Lower("auto") == "auto" && Lower("single") == "single" && Lower("repeat") == "repeat";
  }

  // ---------------------------------------------------------------- unit and polarisation options

  /** `SetScaleXUnit`: "nm" in any case is 1, any other string 0. */
  function XUnitCode(s: string): int { if Lower(s) == "nm" then 1 else 0 }

  /** `SetScaleYUnit`: "log" in any case is 1, any other string 0. */
  function YUnitCode(s: string): int { if Lower(s) == "log" then 1 else 0 }

  /** `SetPolarizationMode`: "1&2" is 1, "1" is 2, "2" is 3, any other string 0. */
  function PolarizationCode(s: string): int
  {
    if Lower(s) == "1&2" then 1 else if Lower(s) == "1" then 2 else if Lower(s) == "2" then 3 else 0
  }

  /**
   * The validation shared by `SetScaleXUnit`, `SetScaleYUnit` and `SetPolarizationMode`: a string
   * is first replaced by its code, then the value must be an `int` (type error) among lo..hi
   * (value error). The result is the value the driver prints into its command and stores.
   */
  function ModeValue(v: Value, code: string -> int, lo: int, hi: int, name: string): (r: Result<Value, Failure>)
    ensures v.Str? ==> (r.Ok? <==> lo <= code(v.s) <= hi) && (r.Ok? ==> r.value == Int(code(v.s)))
    ensures !v.Str? ==> (r.Ok? <==> IsInt(v) && lo as real <= Number(v) <= hi as real) && (r.Ok? ==> r.value == v)
    ensures r.Ok? ==> IsInt(r.value) && lo as real <= Number(r.value) <= hi as real
    ensures r.Err? ==> r.error == Apex(if v.Str? || IsInt(v) then ARGUMENT_VALUE else ARGUMENT_TYPE, name)
  {
    var w := if v.Str? then Int(code(v.s)) else v;
    if !IsInt(w) then Err(Apex(ARGUMENT_TYPE, name))
    else if Number(w) < lo as real || Number(w) > hi as real then Err(Apex(ARGUMENT_VALUE, name))
    else Ok(w)
  }

  /** Giving back the value a setter stored selects that same value again. */
  lemma {:induction false} ModeValueStable(v: Value, code: string -> int, lo: int, hi: int, name: string)
    requires ModeValue(v, code, lo, hi, name).Ok?
    ensures ModeValue(ModeValue(v, code, lo, hi, name).value, code, lo, hi, name) == ModeValue(v, code, lo, hi, name)
  {
  }

  /** Every string is accepted by the three options, and the names match their documented numbers. */
  lemma OptionSpellings(s: string)
    ensures ModeValue(Str(s), XUnitCode, 0, 1, "ScaleXUnit").Ok?
    ensures ModeValue(Str(s), YUnitCode, 0, 1, "ScaleYUnit").Ok?
    ensures ModeValue(Str(s), PolarizationCode, 0, 3, "PolarizationMode").Ok?
    ensures XUnitCode("nm") == 1 && XUnitCode("NM") == 1 && XUnitCode("ghz") == 0
    ensures YUnitCode("log") == 1 && YUnitCode("LOG") == 1 && YUnitCode("lin") == 0
    ensures PolarizationCode("1+2") == 0 && PolarizationCode("1&2") == 1
    ensures PolarizationCode("1") == 2 && PolarizationCode("2") == 3
  {
    assert Lower("nm") == "nm" && Lower("NM") == "nm";
    assert |Lower("ghz")| == 3;
    assert Lower("log") == "log" && Lower("LOG") == "log";
    assert Lower("lin")[1] == 'i';
    assert Lower("1+2") == "1+2" && Lower("1&2") == "1&2" && Lower("1") == "1" && Lower("2") == "2";
  }

  /** Integers outside the valid codes, and floats, are refused; `True` passes as 1. */
  lemma OptionRejections()
    ensures ModeValue(Int(2), XUnitCode, 0, 1, "ScaleXUnit") == Err(Apex(ARGUMENT_VALUE, "ScaleXUnit"))
    ensures ModeValue(Int(4), PolarizationCode, 0, 3, "PolarizationMode") == Err(Apex(ARGUMENT_VALUE, "PolarizationMode"))
    ensures ModeValue(Float(1.0), YUnitCode, 0, 1, "ScaleYUnit") == Err(Apex(ARGUMENT_TYPE, "ScaleYUnit"))
    ensures ModeValue(Bool(true), XUnitCode, 0, 1, "ScaleXUnit") == Ok(Bool(true))
  {
  }

  // ---------------------------------------------------------------- axis and trace checks

  /** `Axis in [0, 1] or str(Axis).lower() in ['x', 'y']`. */
  predicate AxisAccepted(py: Conv, axis: Value)
  {
    EqualsInt(axis, 0) || EqualsInt(axis, 1) || LowerStr(py, axis) in {"x", "y"}
  }

  /** The axis `GetMarkers` reads as written: 'x' in any case selects X, everything else Y. */
  predicate AxisIsXAsWritten(py: Conv, axis: Value)
  {
    LowerStr(py, axis) == "x"
  }

  /** The axis as documented: 0 or 'x' in any case selects X, 1 or 'y' selects Y. */
  predicate AxisIsX(py: Conv, axis: Value)
  {
    EqualsInt(axis, 0) || LowerStr(py, axis) == "x"
  }

  /** As written, the documented spelling 0 of the X axis is accepted but reads the Y markers. */
  lemma AxisZeroReadsY(py: Conv)
    ensures AxisAccepted(py, Int(0)) && !AxisIsXAsWritten(py, Int(0))
  {
    assert ToStr(py, Int(0)) == "0";
    assert Lower("0") == "0";
  }

  /** The corrected selection: X exactly for 0, False and 'x'/'X'; Y for every other accepted int or string. */
  lemma AxisSelection(py: Conv, axis: Value)
    requires axis.Int? || axis.Bool? || axis.Str?
    requires AxisAccepted(py, axis)
    ensures AxisIsX(py, axis) <==> (axis.Int? && axis.i == 0) || axis == Bool(false) || (axis.Str? && Lower(axis.s) == "x")
    ensures !AxisIsX(py, axis) <==> (axis.Int? && axis.i == 1) || axis == Bool(true) || (axis.Str? && Lower(axis.s) == "y")
  {
    if axis.Int? {
      var t := IntToString(axis.i);
      assert Lower(t)[0] == LowerChar(t[0]);
    } else if axis.Bool? {
      assert Lower("True") == "true" && Lower("False") == "false";
    }
  }

  /** The trace numbers the analyser knows: an `int` listed in 0..6, `True` and `False` included. */
  function TraceCheck(trace: Value): (r: Option<Failure>)
    ensures r.None? <==> IsInt(trace) && 0.0 <= Number(trace) <= 6.0
    ensures r.Some? ==> r.value == Apex(if IsInt(trace) then ARGUMENT_VALUE else ARGUMENT_TYPE, "TraceNumber")
  {
    if !IsInt(trace) then Some(Apex(ARGUMENT_TYPE, "TraceNumber"))
    else if Number(trace) < 0.0 || Number(trace) > 6.0 then Some(Apex(ARGUMENT_VALUE, "TraceNumber"))
    else None
  }

  /** The checks of `GetMarkers`, in their order: axis type, axis value, trace type, trace value. */
  function MarkersCheck(py: Conv, trace: Value, axis: Value): (r: Option<Failure>)
    ensures r.None? <==> (axis.Int? || axis.Bool? || axis.Str?) && AxisAccepted(py, axis) && TraceCheck(trace).None?
    ensures !(axis.Int? || axis.Bool? || axis.Str?) ==> r == Some(Apex(ARGUMENT_TYPE, "Axis"))
  {
    if !(axis.Int? || axis.Bool? || axis.Str?) then Some(Apex(ARGUMENT_TYPE, "Axis"))
    else if !AxisAccepted(py, axis) then Some(Apex(ARGUMENT_VALUE, "Axis"))
    else TraceCheck(trace)
  }

  /** The checks of `FindPeak`, in their order: trace type, axis value, trace value, threshold type. */
  function PeakCheck(py: Conv, trace: Value, threshold: Value, axis: Value): (r: Option<Failure>)
    ensures r.None? <==> TraceCheck(trace).None? && AxisAccepted(py, axis) && IsNumber(threshold)
    ensures !IsInt(trace) ==> r == Some(Apex(ARGUMENT_TYPE, "TraceNumber"))
  {
    if !IsInt(trace) then Some(Apex(ARGUMENT_TYPE, "TraceNumber"))
    else if !AxisAccepted(py, axis) then Some(Apex(ARGUMENT_VALUE, "Axis"))
    else if TraceCheck(trace).Some? then TraceCheck(trace)
    else if !IsNumber(threshold) then Some(Apex(ARGUMENT_TYPE, "ThresholdValue"))
    else None
  }

  // ---------------------------------------------------------------- reply tokens

  /** The unit words a marker or line-width reply carries between its numbers. */
  predicate UnitWord(t: string)
  {
    Lower(t) in {"dbm", "mw", "nm", "ghz"}
  }

  /** What one token contributes to a marker list: its number, unless it is a unit word or not a number. */
  function TokenValue(py: Conv, t: string): Option<real>
  {
    if UnitWord(t) then None else py.parseFloat(t)
  }

  /** The numbers among the tokens, in order: unit words and tokens `float()` refuses are dropped. */
  function Numbers(py: Conv, tokens: seq<string>): (vs: seq<real>)
    ensures |vs| <= |tokens|
  {
    if tokens == [] then []
    else
      var last := tokens[|tokens| - 1];
      Numbers(py, tokens[..|tokens| - 1]) + (if TokenValue(py, last).Some? then [TokenValue(py, last).value] else [])
  }

  /** Keeping the numbers of two token lists one after the other is keeping those of their concatenation. */
  lemma {:induction false} NumbersAppend(py: Conv, a: seq<string>, b: seq<string>)
    ensures Numbers(py, a + b) == Numbers(py, a) + Numbers(py, b)
    decreases |b|
  {
    if b == [] {
      assert a + b == a;
    } else {
      var b' := b[..|b| - 1];
      assert (a + b)[..|a + b| - 1] == a + b';
      assert (a + b)[|a + b| - 1] == b[|b| - 1];
      NumbersAppend(py, a, b');
    }
  }

  /** Every number kept is the value of some token that is not a unit word. */
  lemma {:induction false} NumbersSound(py: Conv, tokens: seq<string>, i: int)
    requires 0 <= i < |Numbers(py, tokens)|
    ensures exists k :: 0 <= k < |tokens| && TokenValue(py, tokens[k]) == Some(Numbers(py, tokens)[i])
  {
    var n := |tokens|;
    var init := tokens[..n - 1];
    if i < |Numbers(py, init)| {
      NumbersSound(py, init, i);
      var k :| 0 <= k < |init| && TokenValue(py, init[k]) == Some(Numbers(py, init)[i]);
      assert tokens[k] == init[k];
    } else {
      assert TokenValue(py, tokens[n - 1]) == Some(Numbers(py, tokens)[i]);
    }
  }

  /** Every token that is a number and not a unit word is kept. */
  lemma {:induction false} NumbersComplete(py: Conv, tokens: seq<string>, k: int)
    requires 0 <= k < |tokens| && TokenValue(py, tokens[k]).Some?
    ensures TokenValue(py, tokens[k]).value in Numbers(py, tokens)
  {
    var n := |tokens|;
    if k < n - 1 {
      NumbersComplete(py, tokens[..n - 1], k);
    }
  }

  /** The marker loop of `GetMarkers`: `float(v)` for every token `v` that is not a unit word, failures skipped. */
  method ParseMarkers(py: Conv, tokens: seq<string>) returns (vs: seq<real>)
    ensures vs == Numbers(py, tokens)
  {
    vs := [];
    var i := 0;
    while i < |tokens|
      invariant 0 <= i <= |tokens|
      invariant vs == Numbers(py, tokens[..i])
    {
      assert tokens[..i + 1][..i] == tokens[..i];
      match TokenValue(py, tokens[i]) {
        case Some(x) => vs := vs + [x];
        case None =>
      }
      i := i + 1;
    }
    assert tokens[..i] == tokens;
  }

  /** A numeric reply: `float(text[:-1])`, a ValueError when that is not a number. */
  function ReadReal(py: Conv, text: string): (r: Result<real, Failure>)
    ensures r.Ok? <==> py.parseFloat(DropLast(text)).Some?
    ensures r.Ok? ==> r.value == py.parseFloat(DropLast(text)).value
    ensures r.Err? ==> r.error == ValueError("float")
  {
    match py.parseFloat(DropLast(text))
    case Some(x) => Ok(x)
    case None => Err(ValueError("float"))
  }

  /** An integer reply: `int(text[:-1])`, a ValueError when that is not an integer. */
  function ReadInt(py: Conv, text: string): (r: Result<int, Failure>)
    ensures r.Ok? <==> py.parseInt(DropLast(text)).Some?
    ensures r.Ok? ==> r.value == py.parseInt(DropLast(text)).value
    ensures r.Err? ==> r.error == ValueError("int")
  {
    match py.parseInt(DropLast(text))
    case Some(n) => Ok(n)
    case None => Err(ValueError("int"))
  }

  /** `float(s)`, or 0.0 when `float()` refuses `s`. */
  function FloatOrZero(py: Conv, s: string): real
  {
    match py.parseFloat(s)
    case Some(x) => x
    case None => 0.0
  }

  /** The values of a data reply: one per token, 0.0 for a token that is not a number. */
  function DataValues(py: Conv, tokens: seq<string>): (vs: seq<real>)
    ensures |vs| == |tokens|
    ensures forall i :: 0 <= i < |tokens| ==> vs[i] == FloatOrZero(py, tokens[i])
  {
    seq(|tokens|, i requires 0 <= i < |tokens| => FloatOrZero(py, tokens[i]))
  }

  /** The tokens of a data reply: its last character removed, split on spaces. */
  function DataTokens(reply: string): (ts: seq<string>)
    ensures |ts| >= 1
  {
    Split(DropLast(reply), ' ')
  }

  /** The data loop of `GetData`. */
  method ParseData(py: Conv, tokens: seq<string>) returns (vs: seq<real>)
    ensures vs == DataValues(py, tokens)
  {
    vs := [];
    var i := 0;
    while i < |tokens|
      invariant 0 <= i <= |tokens| && |vs| == i
      invariant forall j :: 0 <= j < i ==> vs[j] == FloatOrZero(py, tokens[j])
    {
      vs := vs + [FloatOrZero(py, tokens[i])];
      i := i + 1;
    }
  }

  /**
   * The simulated trace: `n` points from `start` in steps of `(stop - start) / n`, with the values
   * drawn by `sample`. A count of zero is the division by zero of the code.
   */
  method SimulatedTrace(start: real, stop: real, n: int, sample: int -> real) returns (r: Result<(seq<real>, seq<real>), Failure>)
    ensures n == 0 <==> r == Err(ZeroDivisionError)
    ensures r.Ok? <==> n != 0
    ensures r.Ok? ==> |r.value.0| == |r.value.1| == (if n < 0 then 0 else n)
    ensures r.Ok? ==> forall i :: 0 <= i < |r.value.1| ==>
      r.value.0[i] == sample(i) && r.value.1[i] == start + i as real * ((stop - start) / n as real)
  {
    if n == 0 {
      return Err(ZeroDivisionError);
    }
    var delta := (stop - start) / n as real;
    var ys: seq<real> := [];
    var xs: seq<real> := [];
    var i := 0;
    while i < n
      invariant 0 <= i && (n > 0 ==> i <= n) && (n < 0 ==> i == 0) && |ys| == |xs| == i
      invariant forall j :: 0 <= j < i ==> ys[j] == sample(j) && xs[j] == start + j as real * delta
    {
      ys := ys + [sample(i)];
      xs := xs + [start + i as real * delta];
      i := i + 1;
    }
    return Ok((ys, xs));
  }

  /** Successive simulated points are one step apart, and the trace stops one step short of `stop`. */
  lemma SimulatedTraceSpacing(start: real, stop: real, n: int, i: int)
    requires 0 < n && 0 <= i < n
    ensures (start + (i + 1) as real * ((stop - start) / n as real)) - (start + i as real * ((stop - start) / n as real))
         == (stop - start) / n as real
    ensures start + n as real * ((stop - start) / n as real) == stop
  {
  }

  // ---------------------------------------------------------------- FindPeak reductions

  /** Sum of a list. */
  function Sum(s: seq<real>): real
  {
    if s == [] then 0.0 else Sum(s[..|s| - 1]) + s[|s| - 1]
  }

  /** The smallest element of a non-empty list. */
  function MinOf(s: seq<real>): (m: real)
    requires s != []
    ensures m in s && forall p :: p in s ==> m <= p
  {
    if |s| == 1 then s[0]
    else
      var m := MinOf(s[..|s| - 1]);
      assert forall p :: p in s ==> p in s[..|s| - 1] || p == s[|s| - 1];
      if m > s[|s| - 1] then s[|s| - 1] else m
  }

  /** The largest element of a non-empty list. */
  function MaxOf(s: seq<real>): (m: real)
    requires s != []
    ensures m in s && forall p :: p in s ==> p <= m
  {
    if |s| == 1 then s[0]
    else
      var m := MaxOf(s[..|s| - 1]);
      assert forall p :: p in s ==> p in s[..|s| - 1] || p == s[|s| - 1];
      if m < s[|s| - 1] then s[|s| - 1] else m
  }

  /** A lower bound of every element bounds the sum from below, once per element. */
  lemma {:induction false} SumAtLeast(s: seq<real>, lo: real)
    requires forall p :: p in s ==> lo <= p
    ensures |s| as real * lo <= Sum(s)
  {
    if s != [] {
      var init := s[..|s| - 1];
      assert forall p :: p in init ==> p in s;
      SumAtLeast(init, lo);
      assert s[|s| - 1] in s;
      assert |s| as real * lo == |init| as real * lo + lo;
    }
  }

  /** An upper bound of every element bounds the sum from above, once per element. */
  lemma {:induction false} SumAtMost(s: seq<real>, hi: real)
    requires forall p :: p in s ==> p <= hi
    ensures Sum(s) <= |s| as real * hi
  {
    if s != [] {
      var init := s[..|s| - 1];
      assert forall p :: p in init ==> p in s;
      SumAtMost(init, hi);
      assert s[|s| - 1] in s;
      assert |s| as real * hi == |init| as real * hi + hi;
    }
  }

  /** Dividing by a positive count keeps a bound that holds for the total. */
  lemma DivBounds(a: real, n: real, lo: real, hi: real)
    requires n > 0.0 && n * lo <= a <= n * hi
    ensures lo <= a / n <= hi
  {
    assert (a / n) * n == a;
  }

  /** The mean of the peaks lies between the smallest and the largest peak. */
  lemma {:induction false} MeanBetweenMinAndMax(s: seq<real>)
    requires s != []
    ensures MinOf(s) <= Sum(s) / |s| as real <= MaxOf(s)
  {
    SumAtLeast(s, MinOf(s));
    SumAtMost(s, MaxOf(s));
    DivBounds(Sum(s), |s| as real, MinOf(s), MaxOf(s));
  }

  /** The "mean" loop of `FindPeak`: the average, or 0.0 for no peak. */
  method MeanPeak(peaks: seq<real>) returns (m: real)
    ensures peaks == [] ==> m == 0.0
    ensures peaks != [] ==> m == Sum(peaks) / |peaks| as real
  {
    if |peaks| == 0 {
      return 0.0;
    }
    var sum := 0.0;
    var i := 0;
    while i < |peaks|
      invariant 0 <= i <= |peaks| && sum == Sum(peaks[..i])
    {
      assert peaks[..i + 1][..i] == peaks[..i];
      sum := sum + peaks[i];
      i := i + 1;
    }
    assert peaks[..i] == peaks;
    m := sum / |peaks| as real;
  }

  /** The "min" loop of `FindPeak`: the smallest peak, or 0.0 for no peak. */
  method MinPeak(peaks: seq<real>) returns (m: real)
    ensures peaks == [] ==> m == 0.0
    ensures peaks != [] ==> m in peaks && forall p :: p in peaks ==> m <= p
  {
    if |peaks| == 0 {
      return 0.0;
    }
    m := peaks[0];
    var i := 0;
    while i < |peaks|
      invariant 0 <= i <= |peaks|
      invariant m in peaks && forall j :: 0 <= j < i ==> m <= peaks[j]
    {
      if m > peaks[i] {
        m := peaks[i];
      }
      i := i + 1;
    }
  }

  /** The "max" loop of `FindPeak`: the largest peak, or 0.0 for no peak. */
  method MaxPeak(peaks: seq<real>) returns (m: real)
    ensures peaks == [] ==> m == 0.0
    ensures peaks != [] ==> m in peaks && forall p :: p in peaks ==> p <= m
  {
    if |peaks| == 0 {
      return 0.0;
    }
    m := peaks[0];
    var i := 0;
    while i < |peaks|
      invariant 0 <= i <= |peaks|
      invariant m in peaks && forall j :: 0 <= j < i ==> peaks[j] <= m
    {
      if m < peaks[i] {
        m := peaks[i];
      }
      i := i + 1;
    }
  }

  /** What `FindPeak` returns for the option `find` (already lower-cased): "all", "mean", "min", or the maximum. */
  function Reduce(peaks: seq<real>, find: string): (r: Reading)
    ensures find == "all" <==> r.Many?
    ensures r.Many? ==> r.values == peaks
    ensures r.One? && peaks == [] ==> r.value == 0.0
    ensures r.One? && peaks != [] && find != "mean" ==> r.value in peaks
  {
    if find == "all" then Many(peaks)
    else if peaks == [] then One(0.0)
    else if find == "mean" then One(Sum(peaks) / |peaks| as real)
    else if find == "min" then One(MinOf(peaks))
    else One(MaxOf(peaks))
  }

  /** The reduction loops compute `Reduce`. */
  method ReducePeaks(peaks: seq<real>, find: string) returns (r: Reading)
    ensures r == Reduce(peaks, find)
  {
    if find == "all" {
      r := Many(peaks);
    } else if find == "mean" {
      var m := MeanPeak(peaks);
      r := One(m);
    } else if find == "min" {
      var m := MinPeak(peaks);
      r := One(m);
    } else {
      var m := MaxPeak(peaks);
      r := One(m);
    }
  }

  // ---------------------------------------------------------------- LineWidth

  /** The values of a line-width reply: the numbers of the space tokens of each "_"-separated part. */
  function LineValues(py: Conv, parts: seq<string>): seq<real>
  {
    if parts == [] then [] else LineValues(py, parts[..|parts| - 1]) + Numbers(py, Split(parts[|parts| - 1], ' '))
  }

  /** A line-width reply without "_" holds just the numbers of its space tokens. */
  lemma LineValuesOfOnePart(py: Conv, s: string)
    ensures LineValues(py, [s]) == Numbers(py, Split(s, ' '))
  {
    assert [s][..0] == [];
  }

  /** The line-width loops: parse every part, then pad with 0.0 until three values are present. */
  method ParseLineWidth(py: Conv, parts: seq<string>) returns (vs: seq<real>)
    ensures |vs| >= 3 && |vs| == if |LineValues(py, parts)| >= 3 then |LineValues(py, parts)| else 3
    ensures vs[..|LineValues(py, parts)|] == LineValues(py, parts)
    ensures forall i :: |LineValues(py, parts)| <= i < |vs| ==> vs[i] == 0.0
  {
    vs := [];
    var i := 0;
    while i < |parts|
      invariant 0 <= i <= |parts| && vs == LineValues(py, parts[..i])
    {
      assert parts[..i + 1][..i] == parts[..i];
      var more := ParseMarkers(py, Split(parts[i], ' '));
      vs := vs + more;
      i := i + 1;
    }
    assert parts[..i] == parts;
    ghost var n := |vs|;
    while |vs| < 3
      invariant n <= |vs| && (|vs| > 3 ==> |vs| == n)
      invariant vs[..n] == LineValues(py, parts)
      invariant forall j :: n <= j < |vs| ==> vs[j] == 0.0
      decreases 3 - |vs|
    {
      vs := vs + [0.0];
    }
  }

  /** The value `LineWidth` returns for the option `get` (already lower-cased). */
  function PickLineWidth(values: seq<real>, get: string): (r: Reading)
    requires |values| >= 3
    ensures get == "all" <==> r.Many?
    ensures r.Many? ==> r.values == values
    ensures r.One? ==> r.value == values[if get == "center" then 1 else if get == "level" then 2 else 0]
  {
    if get == "all" then Many(values)
    else if get == "center" then One(values[1])
    else if get == "level" then One(values[2])
    else One(values[0])
  }
}
