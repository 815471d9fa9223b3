/**
 * The optical spectrum analyser built from two AP1000 modules (AP1000/OSA.py): a power meter or
 * polarimeter slot, a filter slot, the sweep window and point count, and comma-separated traces.
 * Every command is addressed to the power-meter slot.
 */
module Ap1000Osa {
  import opened Wrappers
  import opened Text
  import opened Python
  import opened Errors
  import opened Constants
  import opened Transport
  import opened Spectrum
  import opened Slots

  // ---------------------------------------------------------------- selectors

  /** `Run`'s sweep type: "repeat" (any case) is 2, any other string 1; 1 and 2 stay, anything else is 1. */
  function RunType(v: Value): (t: Value)
    ensures v.Str? ==> t == Int(if Lower(v.s) == "repeat" then 2 else 1)
    ensures !v.Str? && (EqualsInt(v, 1) || EqualsInt(v, 2)) ==> t == v
    ensures !v.Str? && !(EqualsInt(v, 1) || EqualsInt(v, 2)) ==> t == Int(1)
    ensures EqualsInt(t, 1) || EqualsInt(t, 2)
  {
    if v.Str? then Int(if Lower(v.s) == "repeat" then 2 else 1)
    else if EqualsInt(v, 1) || EqualsInt(v, 2) then v
    else Int(1)
  }

  /** Strings and integers always select sweep "1" or "2" on the wire. */
  lemma RunTypeText(py: Conv, v: Value)
    requires v.Str? || v.Int?
    ensures ToStr(py, RunType(v)) in {"1", "2"}
  {
    assert NatToString(1) == "1" && NatToString(2) == "2";
    if v.Int? && (v.i == 1 || v.i == 2) {
      assert RunType(v) == Int(v.i);
    }
  }

  /** `GetData`'s X selector: 1 for "GHz" (any case), 0 for anything else. */
  function XSelector(s: string): (x: int)
    ensures x == 1 <==> Lower(s) == "ghz"
    ensures x in {0, 1}
  {
    if Lower(s) == "ghz" then 1 else 0
  }

  /** `GetData`'s Y selector: lin 4, S1 1, S2 2, S3 3, DOP 5, anything else (log) 0. */
  function YSelector(s: string): (y: int)
    ensures 0 <= y <= 5
    ensures y == 4 <==> Lower(s) == "lin"
    ensures y == 1 <==> Lower(s) == "s1"
    ensures y == 2 <==> Lower(s) == "s2"
    ensures y == 3 <==> Lower(s) == "s3"
    ensures y == 5 <==> Lower(s) == "dop"
    ensures y == 0 <==> Lower(s) !in {"lin", "s1", "s2", "s3", "dop"}
  {
    var l := Lower(s);
    if l == "lin" then 4
    else if l == "s1" then 1
    else if l == "s2" then 2
    else if l == "s3" then 3
    else if l == "dop" then 5
    else 0
  }

  // ---------------------------------------------------------------- traces

  /** The numbers among the tokens of a trace, in order: a token `float()` refuses is dropped. */
  function Floats(py: Conv, tokens: seq<string>): (vs: seq<real>)
    ensures |vs| <= |tokens|
  {
    if tokens == [] then []
    else
      var last := tokens[|tokens| - 1];
      Floats(py, tokens[..|tokens| - 1]) + (if py.parseFloat(last).Some? then [py.parseFloat(last).value] else [])
  }

  /** When every token is a number, no value is dropped and each is its token's value. */
  lemma {:induction false} FloatsAllParsed(py: Conv, tokens: seq<string>)
    requires forall k :: 0 <= k < |tokens| ==> py.parseFloat(tokens[k]).Some?
    ensures |Floats(py, tokens)| == |tokens|
    ensures forall k :: 0 <= k < |tokens| ==> Floats(py, tokens)[k] == py.parseFloat(tokens[k]).value
  {
    if tokens != [] {
      var init := tokens[..|tokens| - 1];
      FloatsAllParsed(py, init);
    }
  }

  /** Every value kept comes from a token. */
  lemma {:induction false} FloatsSound(py: Conv, tokens: seq<string>, i: int)
    requires 0 <= i < |Floats(py, tokens)|
    ensures exists k :: 0 <= k < |tokens| && py.parseFloat(tokens[k]) == Some(Floats(py, tokens)[i])
  {
    var n := |tokens|;
    var init := tokens[..n - 1];
    if i < |Floats(py, init)| {
      FloatsSound(py, init, i);
      var k :| 0 <= k < |init| && py.parseFloat(init[k]) == Some(Floats(py, init)[i]);
      assert tokens[k] == init[k];
    } else {
      assert py.parseFloat(tokens[n - 1]) == Some(Floats(py, tokens)[i]);
    }
  }

  /** The parsing loop of `GetData`: `float(v)` for every token, failures skipped. */
  method ParseTrace(py: Conv, tokens: seq<string>) returns (vs: seq<real>)
    ensures vs == Floats(py, tokens)
  {
    vs := [];
    var i := 0;
    while i < |tokens|
      invariant 0 <= i <= |tokens|
      invariant vs == Floats(py, tokens[..i])
    {
      assert tokens[..i + 1][..i] == tokens[..i];
      var x := py.parseFloat(tokens[i]);
      if x.Some? {
        vs := vs + [x.value];
      }
      i := i + 1;
    }
    assert tokens[..i] == tokens;
  }

  /** A simulated power or Stokes value from the random draw `d` in [0, 1) for Y selector `y`. */
  function SimulatedY(m: Maths, y: int, d: real): real
  {
    if y <= 1 then (if y == 1 then m.pow10((d * 70.0 - 60.0) / 10.0) else d * 70.0 - 60.0)
    else if y <= 4 then d * 2.0 - 1.0
    else d
  }

  class Osa {
    const link: Connexion
    const simulation: bool
    const py: Conv
    const m: Maths
    const celerity: real   // `Celerity`, which the constants module does not define

    var powSlot: int
    var filSlot: int
    var xUnit: string
    var yUnit: string
    var start: real
    var stop: real
    var nbPoints: int

    /** "OSA[ss]:" for the current power-meter slot, the head of every command. */
    function Head(): string
      reads this
    {
      SlotPrefix("OSA", powSlot)
    }

    constructor (link: Connexion, slot: int, simulation: bool, py: Conv, m: Maths, celerity: real)
      ensures this.link == link && this.simulation == simulation && this.py == py && this.m == m
      ensures this.celerity == celerity
      ensures powSlot == slot && filSlot == -1 && xUnit == "nm" && yUnit == "dBm"
      ensures start == 1530.0 && stop == 1560.0 && nbPoints == 400
    {
      this.link := link;
      this.simulation := simulation;
      this.py := py;
      this.m := m;
      this.celerity := celerity;
      powSlot := slot;
      filSlot := -1;
      xUnit := "nm";
      yUnit := "dBm";
      start := 1530.0;
      stop := 1560.0;
      nbPoints := 400;
    }

    /**
     * `SetPowerMeterSlotNumber`: `int(Slot)` (a failure closes and raises ARGUMENT_TYPE); the
     * command goes to the OLD power-meter slot, then the new slot is cached.
     */
    method SetPowerMeterSlotNumber(v: Value) returns (r: Result<(), Failure>)
      modifies this`powSlot, link
      ensures match IntArg(py, v, "Slot")
        case Err(e) => r == Err(e) && !link.open && link.sent == old(link.sent) && powSlot == old(powSlot)
        case Ok(s) => (r == Ok(()) && link.open == old(link.open) && powSlot == s
          && link.sent == old(link.sent) + Unless(simulation, SlotPrefix("OSA", old(powSlot)) + "POWER" + IntToString(s) + "\n"))
    {
      match IntArg(py, v, "Slot") {
        case Err(e) =>
          link.Close();
          return Err(e);
        case Ok(s) =>
          Emit(link, simulation, Head() + "POWER" + IntToString(s) + "\n");
          powSlot := s;
          return Ok(());
      }
    }

    /** `SetFilterSlotNumber`: as above for the filter slot, addressed to the power-meter slot. */
    method SetFilterSlotNumber(v: Value) returns (r: Result<(), Failure>)
      modifies this`filSlot, link
      ensures match IntArg(py, v, "Slot")
        case Err(e) => r == Err(e) && !link.open && link.sent == old(link.sent) && filSlot == old(filSlot)
        case Ok(s) => (r == Ok(()) && link.open == old(link.open) && filSlot == s
          && link.sent == old(link.sent) + Unless(simulation, Head() + "FILTER" + IntToString(s) + "\n"))
    {
      match IntArg(py, v, "Slot") {
        case Err(e) =>
          link.Close();
          return Err(e);
        case Ok(s) =>
          Emit(link, simulation, Head() + "FILTER" + IntToString(s) + "\n");
          filSlot := s;
          return Ok(());
      }
    }

    /** `GetPowerMeterSlotNumber`: "POWER?" and the cached integer reply; the cache in simulation. */
    method GetPowerMeterSlotNumber(reply: string) returns (r: Result<int, Failure>)
      modifies this`powSlot, link
      ensures simulation ==> r == Ok(powSlot) && powSlot == old(powSlot) && link.sent == old(link.sent)
      ensures !simulation ==> (r == ReadInt(py, reply) && link.sent == old(link.sent) + [SlotPrefix("OSA", old(powSlot)) + "POWER?\n"]
        && powSlot == if r.Ok? then r.value else old(powSlot))
      ensures link.open == old(link.open)
    {
      if !simulation {
        link.Send(Head() + "POWER?\n");
        var n := ReadInt(py, reply);
        if n.Err? {
          return Err(n.error);
        }
        powSlot := n.value;
      }
      return Ok(powSlot);
    }

    /** `GetFilterSlotNumber`: "FILTER?" and the cached integer reply; the cache in simulation. */
    method GetFilterSlotNumber(reply: string) returns (r: Result<int, Failure>)
      modifies this`filSlot, link
      ensures simulation ==> r == Ok(filSlot) && filSlot == old(filSlot) && link.sent == old(link.sent)
      ensures !simulation ==> (r == ReadInt(py, reply) && link.sent == old(link.sent) + [Head() + "FILTER?\n"]
        && filSlot == if r.Ok? then r.value else old(filSlot))
      ensures link.open == old(link.open)
    {
      if !simulation {
        link.Send(Head() + "FILTER?\n");
        var n := ReadInt(py, reply);
        if n.Err? {
          return Err(n.error);
        }
        filSlot := n.value;
      }
      return Ok(filSlot);
    }

    /**
     * `SetXUnit` with the list of X units it evidently means (see `SetUnitAsWritten`): `str(Unit)`
     * kept, with its casing, when it is nm or GHz.
     */
    method SetXUnit(v: Value)
      modifies this`xUnit
      ensures xUnit == ChosenUnit(py, old(xUnit), v, {"nm", "ghz"})
    {
      xUnit := ChosenUnit(py, xUnit, v, {"nm", "ghz"});
    }

    /** `SetYUnit` with the list of Y units it evidently means: kept when it is dBm or mW. */
    method SetYUnit(v: Value)
      modifies this`yUnit
      ensures yUnit == ChosenUnit(py, old(yUnit), v, PowerUnits)
    {
      yUnit := ChosenUnit(py, yUnit, v, PowerUnits);
    }

    /** "STARTWL" or "STOPWL" and the wavelength as "%4.3f", zero-filled to 8 characters. */
    function WavelengthCommand(which: string, x: real): string
      reads this
    {
      Head() + which + ZFill(Fixed3(py, x), 8) + "\n"
    }

    /** `SetStartWavelength`: `float(Wavelength)` (a failure closes and raises ARGUMENT_TYPE), written and cached. */
    method SetStartWavelength(v: Value) returns (r: Result<(), Failure>)
      modifies this`start, link
      ensures match FloatArg(py, v, "Wavelength")
        case Err(e) => r == Err(e) && !link.open && link.sent == old(link.sent) && start == old(start)
        case Ok(x) => (r == Ok(()) && link.open == old(link.open) && start == x
          && link.sent == old(link.sent) + Unless(simulation, WavelengthCommand("STARTWL", x)))
    {
      match FloatArg(py, v, "Wavelength") {
        case Err(e) =>
          link.Close();
          return Err(e);
        case Ok(x) =>
          Emit(link, simulation, WavelengthCommand("STARTWL", x));
          start := x;
          return Ok(());
      }
    }

    /** `SetStopWavelength`: as `SetStartWavelength`, for the stop wavelength. */
    method SetStopWavelength(v: Value) returns (r: Result<(), Failure>)
      modifies this`stop, link
      ensures match FloatArg(py, v, "Wavelength")
        case Err(e) => r == Err(e) && !link.open && link.sent == old(link.sent) && stop == old(stop)
        case Ok(x) => (r == Ok(()) && link.open == old(link.open) && stop == x
          && link.sent == old(link.sent) + Unless(simulation, WavelengthCommand("STOPWL", x)))
    {
      match FloatArg(py, v, "Wavelength") {
        case Err(e) =>
          link.Close();
          return Err(e);
        case Ok(x) =>
          Emit(link, simulation, WavelengthCommand("STOPWL", x));
          stop := x;
          return Ok(());
      }
    }

    /** `GetStartWavelength`: "STARTWL?" and the cached reply; the cache in simulation. */
    method GetStartWavelength(reply: string) returns (r: Result<real, Failure>)
      modifies this`start, link
      ensures simulation ==> r == Ok(start) && start == old(start) && link.sent == old(link.sent)
      ensures !simulation ==> (r == ReadReal(py, reply) && link.sent == old(link.sent) + [Head() + "STARTWL?\n"]
        && start == if r.Ok? then r.value else old(start))
      ensures link.open == old(link.open)
    {
      if !simulation {
        link.Send(Head() + "STARTWL?\n");
        var x := ReadReal(py, reply);
        if x.Err? {
          return Err(x.error);
        }
        start := x.value;
      }
      return Ok(start);
    }

    /** `GetStopWavelength`: "STOPWL?" and the cached reply; the cache in simulation. */
    method GetStopWavelength(reply: string) returns (r: Result<real, Failure>)
      modifies this`stop, link
      ensures simulation ==> r == Ok(stop) && stop == old(stop) && link.sent == old(link.sent)
      ensures !simulation ==> (r == ReadReal(py, reply) && link.sent == old(link.sent) + [Head() + "STOPWL?\n"]
        && stop == if r.Ok? then r.value else old(stop))
      ensures link.open == old(link.open)
    {
      if !simulation {
        link.Send(Head() + "STOPWL?\n");
        var x := ReadReal(py, reply);
        if x.Err? {
          return Err(x.error);
        }
        stop := x.value;
      }
      return Ok(stop);
    }

    /**
     * `SetStartFrequency`: `float(Frequency)` (a failure closes and raises ARGUMENT_TYPE); a
     * positive frequency sets the STOP wavelength to c / f, the highest frequency being the
     * lowest wavelength; any other frequency is ignored.
     */
    method SetStartFrequency(v: Value) returns (r: Result<(), Failure>)
      modifies this`stop, link
      ensures start == old(start)
      ensures match FloatArg(py, v, "Frequency")
        case Err(e) => r == Err(e) && !link.open && link.sent == old(link.sent) && stop == old(stop)
        case Ok(f) =>
          if f > 0.0 then (r == Ok(()) && link.open == old(link.open) && stop == LIGHT_SPEED / f
            && link.sent == old(link.sent) + Unless(simulation, WavelengthCommand("STOPWL", stop)))
          else r == Ok(()) && link.open == old(link.open) && link.sent == old(link.sent) && stop == old(stop)
    {
      match FloatArg(py, v, "Frequency") {
        case Err(e) =>
          link.Close();
          return Err(e);
        case Ok(f) =>
          if f > 0.0 {
            r := SetStopWavelength(Float(LIGHT_SPEED / f));
          } else {
            return Ok(());
          }
      }
    }

    /** `SetStopFrequency`: a positive frequency sets the START wavelength to c / f. */
    method SetStopFrequency(v: Value) returns (r: Result<(), Failure>)
      modifies this`start, link
      ensures stop == old(stop)
      ensures match FloatArg(py, v, "Frequency")
        case Err(e) => r == Err(e) && !link.open && link.sent == old(link.sent) && start == old(start)
        case Ok(f) =>
          if f > 0.0 then (r == Ok(()) && link.open == old(link.open) && start == LIGHT_SPEED / f
            && link.sent == old(link.sent) + Unless(simulation, WavelengthCommand("STARTWL", start)))
          else r == Ok(()) && link.open == old(link.open) && link.sent == old(link.sent) && start == old(start)
    {
      match FloatArg(py, v, "Frequency") {
        case Err(e) =>
          link.Close();
          return Err(e);
        case Ok(f) =>
          if f > 0.0 {
            r := SetStartWavelength(Float(LIGHT_SPEED / f));
          } else {
            return Ok(());
          }
      }
    }

    /**
     * `GetStartFrequency`: the stop wavelength is read (and cached) through `GetStopWavelength`,
     * but the division names VACCUM_LIGHT_SPEED, which the method never imports; the bare
     * `except` turns that NameError, like any other failure, into 0.0.
     */
    method GetStartFrequency(reply: string) returns (f: real)
      modifies this`stop, link
      ensures f == 0.0
      ensures simulation ==> stop == old(stop) && link.sent == old(link.sent)
      ensures !simulation ==> (link.sent == old(link.sent) + [Head() + "STOPWL?\n"]
        && stop == if ReadReal(py, reply).Ok? then ReadReal(py, reply).value else old(stop))
      ensures link.open == old(link.open)
    {
      var w := GetStopWavelength(reply);
      return 0.0;
    }

    /** `GetStopFrequency`: reads the start wavelength, then returns 0.0 for the same reason. */
    method GetStopFrequency(reply: string) returns (f: real)
      modifies this`start, link
      ensures f == 0.0
      ensures simulation ==> start == old(start) && link.sent == old(link.sent)
      ensures !simulation ==> (link.sent == old(link.sent) + [Head() + "STARTWL?\n"]
        && start == if ReadReal(py, reply).Ok? then ReadReal(py, reply).value else old(start))
      ensures link.open == old(link.open)
    {
      var w := GetStartWavelength(reply);
      return 0.0;
    }

    /** `SetNbPoints`: `int(NbPoints)` (a failure closes and raises ARGUMENT_TYPE), written and cached. */
    method SetNbPoints(v: Value) returns (r: Result<(), Failure>)
      modifies this`nbPoints, link
      ensures match IntArg(py, v, "NbPoints")
        case Err(e) => r == Err(e) && !link.open && link.sent == old(link.sent) && nbPoints == old(nbPoints)
        case Ok(n) => (r == Ok(()) && link.open == old(link.open) && nbPoints == n
          && link.sent == old(link.sent) + Unless(simulation, Head() + "NBPTS" + IntToString(n) + "\n"))
    {
      match IntArg(py, v, "NbPoints") {
        case Err(e) =>
          link.Close();
          return Err(e);
        case Ok(n) =>
          Emit(link, simulation, Head() + "NBPTS" + IntToString(n) + "\n");
          nbPoints := n;
          return Ok(());
      }
    }

    /** `GetNbPoints`: "NBPTS?" and the cached integer reply; the cache in simulation. */
    method GetNbPoints(reply: string) returns (r: Result<int, Failure>)
      modifies this`nbPoints, link
      ensures simulation ==> r == Ok(nbPoints) && nbPoints == old(nbPoints) && link.sent == old(link.sent)
      ensures !simulation ==> (r == ReadInt(py, reply) && link.sent == old(link.sent) + [Head() + "NBPTS?\n"]
        && nbPoints == if r.Ok? then r.value else old(nbPoints))
      ensures link.open == old(link.open)
    {
      if !simulation {
        link.Send(Head() + "NBPTS?\n");
        var n := ReadInt(py, reply);
        if n.Err? {
          return Err(n.error);
        }
        nbPoints := n.value;
      }
      return Ok(nbPoints);
    }

    /** `Run`: "SWEEP" and `str` of the sweep type of `RunType`, outside simulation. */
    method Run(v: Value)
      modifies link
      ensures link.sent == old(link.sent) + Unless(simulation, Head() + "SWEEP" + ToStr(py, RunType(v)) + "\n")
      ensures link.open == old(link.open)
    {
      Emit(link, simulation, Head() + "SWEEP" + ToStr(py, RunType(v)) + "\n");
    }

    /** `Stop`: "SWEEP0", outside simulation. */
    method Stop()
      modifies link
      ensures link.sent == old(link.sent) + Unless(simulation, Head() + "SWEEP0\n")
      ensures link.open == old(link.open)
    {
      Emit(link, simulation, Head() + "SWEEP0\n");
    }

    /**
     * `IsRunning`: "SWEEP?" and true exactly when the integer reply is 1. In simulation the
     * local `IsRunning` is never assigned before it is compared: an UnboundLocalError.
     */
    method IsRunning(reply: string) returns (r: Result<bool, Failure>)
      modifies link
      ensures simulation ==> r == Err(UnboundLocalError("IsRunning")) && link.sent == old(link.sent)
      ensures !simulation ==> (link.sent == old(link.sent) + [Head() + "SWEEP?\n"]
        && r == match ReadInt(py, reply)
                case Err(e) => Err(e)
                case Ok(n) => Ok(n == 1))
      ensures link.open == old(link.open)
    {
      if simulation {
        return Err(UnboundLocalError("IsRunning"));
      }
      link.Send(Head() + "SWEEP?\n");
      match ReadInt(py, reply) {
        case Err(e) => return Err(e);
        case Ok(n) => return Ok(n == 1);
      }
    }

    /** The simulated X axis: `nbPoints` evenly spaced wavelengths from the start, or frequencies from c / stop. */
    function SimulatedX(x: int): (r: Result<seq<real>, Failure>)
      reads this
      ensures r.Ok? ==> |r.value| == if nbPoints > 0 then nbPoints else 0
    {
      if nbPoints == 0 then Err(ZeroDivisionError)
      else if x == 1 && (start == 0.0 || stop == 0.0) then Err(ZeroDivisionError)
      else
        var n := if nbPoints > 0 then nbPoints else 0;
        var first, last, c := start, stop, celerity;
        if x == 1 then
          var delta := (c / first - c / last) / nbPoints as real;
          Ok(seq(n, i => c / last + i as real * delta))
        else
          var delta := (last - first) / nbPoints as real;
          Ok(seq(n, i => first + i as real * delta))
    }

    /**
     * `GetData`: the X and Y selectors of `str(DataX)` and `str(DataY)`; outside simulation
     * "DATAX<x>" and "DATAY<y>" and the two replies without their last character; in simulation
     * the computed X axis written with `str()` and one "%.3f" random value per point. Both are
     * split on commas, tokens `float()` refuses are dropped, and the result is [Y, X].
     */
    method GetData(dataX: Value, dataY: Value, replyX: string, replyY: string, draw: int -> real)
      returns (r: Result<(seq<real>, seq<real>), Failure>)
      modifies link
      ensures link.open == old(link.open)
      ensures !simulation ==> (link.sent == old(link.sent)
          + [Head() + "DATAX" + IntToString(XSelector(ToStr(py, dataX))) + "\n",
             Head() + "DATAY" + IntToString(YSelector(ToStr(py, dataY))) + "\n"]
        && r == Ok((Floats(py, Split(DropLast(replyY), ',')), Floats(py, Split(DropLast(replyX), ',')))))
      ensures simulation ==> (link.sent == old(link.sent)
        && match SimulatedX(XSelector(ToStr(py, dataX)))
           case Err(e) => r == Err(e)
           case Ok(xs) => (r.Ok?
             && r.value.1 == Floats(py, seq(|xs|, i requires 0 <= i < |xs| => py.showFloat(xs[i])))
             && r.value.0 == Floats(py, seq(|xs|, i requires 0 <= i < |xs|
                               => Fixed3(py, SimulatedY(m, YSelector(ToStr(py, dataY)), draw(i)))))))
    {
      var x := XSelector(ToStr(py, dataX));
      var y := YSelector(ToStr(py, dataY));
      var xTokens: seq<string>;
      var yTokens: seq<string>;
      if simulation {
        var xs := SimulatedX(x);
        if xs.Err? {
          return Err(xs.error);
        }
        xTokens := seq(|xs.value|, i requires 0 <= i < |xs.value| => py.showFloat(xs.value[i]));
        yTokens := seq(|xs.value|, i requires 0 <= i < |xs.value| => Fixed3(py, SimulatedY(m, y, draw(i))));
      } else {
        link.Send(Head() + "DATAX" + IntToString(x) + "\n");
        xTokens := Split(DropLast(replyX), ',');
        link.Send(Head() + "DATAY" + IntToString(y) + "\n");
        yTokens := Split(DropLast(replyY), ',');
      }
      var xData := ParseTrace(py, xTokens);
      var yData := ParseTrace(py, yTokens);
      return Ok((yData, xData));
    }
  }

  /**
   * `SetXUnit` and `SetYUnit` as written: they test the unit against `self.__ValidUnits`, an
   * attribute the class never defines (it has `__ValidXUnits` and `__ValidYUnits`), so `str()`
   * succeeds and the membership test raises AttributeError, leaving the unit unchanged.
   */
  function SetUnitAsWritten(v: Value): (r: Result<(), Failure>)
    ensures r == Err(AttributeError("_OSA__ValidUnits"))
  {
    Err(AttributeError("_OSA__ValidUnits"))
  }

  /** "GHz" is a valid X unit, which the code as written still refuses. */
  lemma SetUnitAsWrittenRefusesGHz(py: Conv)
    ensures ChosenUnit(py, "nm", Str("GHz"), {"nm", "ghz"}) == "GHz"
    ensures SetUnitAsWritten(Str("GHz")).Err?
  {
    assert Lower("GHz") == "ghz";
  }
}
