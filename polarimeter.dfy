/**
 * The polarimeter of the AP1000 (AP1000/Polarimeter.py): clamped acquisition time and
 * wavelength, a power unit, and space-separated lists of measurements in which a value that
 * does not parse becomes NaN.
 */
module Polarimeters {
  import opened Wrappers
  import opened Text
  import opened Python
  import opened Errors
  import opened Constants
  import opened Transport
  import opened Spectrum
  import opened Validation
  import opened Slots

  /**
   * The limits the constants module does not define: AP1000_POL_ACQMIN/ACQMAX (ms) and
   * AP1000_POL_WLMIN/WLMAX (nm).
   */
  datatype PolLimits = PolLimits(acqMin: real, acqMax: real, wlMin: real, wlMax: real)

  predicate ValidLimits(k: PolLimits)
  {
    k.acqMin <= k.acqMax && 0.0 < k.wlMin <= k.wlMax
  }

  /** One token of a list reply: `float(v)` (or `int(v)` for the raw counts), NaN when that fails. */
  function TokenSample(py: Conv, t: string, integer: bool): (s: Sample)
    ensures !integer ==> s == SampleOf(py, t)
    ensures integer ==> (s.NaN? <==> py.parseInt(t).None?)
    ensures integer && s.Measured? ==> s.x == py.parseInt(t).value as real
  {
    if !integer then SampleOf(py, t)
    else
      match py.parseInt(t)
      case Some(n) => Measured(n as real)
      case None => NaN
  }

  /** The loop of `GetSOP`, `GetRawValues` and `GetPowerValues`: one sample per token, in order. */
  method ParseSamples(py: Conv, tokens: seq<string>, integer: bool) returns (vs: seq<Sample>)
    ensures |vs| == |tokens|
    ensures forall i :: 0 <= i < |tokens| ==> vs[i] == TokenSample(py, tokens[i], integer)
  {
    vs := [];
    var i := 0;
    while i < |tokens|
      invariant 0 <= i <= |tokens|
      invariant |vs| == i
      invariant forall j :: 0 <= j < i ==> vs[j] == TokenSample(py, tokens[j], integer)
    {
      vs := vs + [TokenSample(py, tokens[i], integer)];
      i := i + 1;
    }
  }

  /** The tokens of a list reply: the reply without its last character, split on spaces. */
  function ReplyTokens(reply: string): (ts: seq<string>)
    ensures |ts| >= 1
    ensures forall k :: 0 <= k < |ts| ==> ' ' !in ts[k]
  {
    SplitFieldsFree(DropLast(reply), ' ');
    Split(DropLast(reply), ' ')
  }

  /** A reply that is space-free fields and a terminator gives those fields back as its tokens. */
  lemma ReplyTokensOfFields(fields: seq<string>, terminator: char)
    requires |fields| >= 1
    requires forall k :: 0 <= k < |fields| ==> ' ' !in fields[k]
    ensures ReplyTokens(Join(fields, ' ') + [terminator]) == fields
  {
    var reply := Join(fields, ' ') + [terminator];
    assert DropLast(reply) == Join(fields, ' ');
    SplitJoin(fields, ' ');
  }

  /** The simulated board identity of `GetBoardID`. */
  const SimulatedBoardID: seq<string> := ["XX-AB3510-XXXXXX", "1.0", "1.0"]

  class Polarimeter {
    const link: Connexion
    const slot: int
    const simulation: bool
    const py: Conv
    const m: Maths
    const k: PolLimits

    var unit: string
    var wavelength: real
    var acqTime: real

    /** The unit is one the power queries know, and the limits are ordered. */
    predicate Valid()
      reads this
    {
      ValidLimits(k) && Lower(unit) in PowerUnits
    }

    /** "POL[ss]:", the head of every command of this polarimeter. */
    function Head(): string
    {
      SlotPrefix("POL", slot)
    }

    constructor (link: Connexion, slot: int, simulation: bool, py: Conv, m: Maths, k: PolLimits)
      requires ValidLimits(k)
      ensures this.link == link && this.slot == slot && this.simulation == simulation
      ensures this.py == py && this.m == m && this.k == k
      ensures unit == "dBm" && wavelength == 1550.0 && acqTime == 100.0 && Valid()
    {
      this.link := link;
      this.slot := slot;
      this.simulation := simulation;
      this.py := py;
      this.m := m;
      this.k := k;
      unit := "dBm";
      wavelength := 1550.0;
      acqTime := 100.0;
      InitialUnitValid();
    }

    /**
     * `SetAcquisitionTime`: `float(AcqTime)` (a failure closes and raises ARGUMENT_TYPE), clamped
     * into [ACQMIN, ACQMAX], written as "ACQTIME<str(value)>" outside simulation and cached.
     */
    method SetAcquisitionTime(v: Value) returns (r: Result<(), Failure>)
      requires ValidLimits(k)
      modifies this`acqTime, link
      ensures match FloatArg(py, v, "AcqTime")
        case Err(e) => r == Err(e) && !link.open && link.sent == old(link.sent) && acqTime == old(acqTime)
        case Ok(x) => (r == Ok(()) && link.open == old(link.open)
          && acqTime == Clamp(x, k.acqMin, k.acqMax)
          && link.sent == old(link.sent) + Unless(simulation, Head() + "ACQTIME" + py.showFloat(acqTime) + "\n"))
    {
      match FloatArg(py, v, "AcqTime") {
        case Err(e) =>
          link.Close();
          return Err(e);
        case Ok(x) =>
          var y := Clamp(x, k.acqMin, k.acqMax);
          Emit(link, simulation, Head() + "ACQTIME" + py.showFloat(y) + "\n");
          acqTime := y;
          return Ok(());
      }
    }

    /**
     * `GetAcquisitionTime`: outside simulation "ACQTIME?" and the reply (a ValueError when it is
     * not a number), which is cached; in simulation the cached value.
     */
    method GetAcquisitionTime(reply: string) returns (r: Result<real, Failure>)
      modifies this`acqTime, link
      ensures simulation ==> r == Ok(acqTime) && acqTime == old(acqTime) && link.sent == old(link.sent)
      ensures !simulation ==> (r == ReadReal(py, reply) && link.sent == old(link.sent) + [Head() + "ACQTIME?\n"]
        && acqTime == if r.Ok? then r.value else old(acqTime))
      ensures link.open == old(link.open)
    {
      if !simulation {
        link.Send(Head() + "ACQTIME?\n");
        var x := ReadReal(py, reply);
        if x.Err? {
          return Err(x.error);
        }
        acqTime := x.value;
      }
      return Ok(acqTime);
    }

    /** `SetUnit`: `str(Unit)` is kept, with its casing, only when it names dBm or mW. */
    method SetUnit(v: Value)
      modifies this`unit
      ensures unit == ChosenUnit(py, old(unit), v, PowerUnits)
      ensures old(Valid()) ==> Valid()
    {
      unit := ChosenUnit(py, unit, v, PowerUnits);
    }

    /** "WL" and the wavelength as "%4.3f", zero-filled to 8 characters. */
    function WavelengthCommand(x: real): string
    {
      Head() + "WL" + ZFill(Fixed3(py, x), 8) + "\n"
    }

    /**
     * `SetWavelength`: `float(Wavelength)` (a failure closes and raises ARGUMENT_TYPE), clamped
     * into [WLMIN, WLMAX], written outside simulation and cached.
     */
    method SetWavelength(v: Value) returns (r: Result<(), Failure>)
      requires ValidLimits(k)
      modifies this`wavelength, link
      ensures match FloatArg(py, v, "Wavelength")
        case Err(e) => r == Err(e) && !link.open && link.sent == old(link.sent) && wavelength == old(wavelength)
        case Ok(x) => (r == Ok(()) && link.open == old(link.open)
          && wavelength == Clamp(x, k.wlMin, k.wlMax)
          && link.sent == old(link.sent) + Unless(simulation, WavelengthCommand(wavelength)))
    {
      match FloatArg(py, v, "Wavelength") {
        case Err(e) =>
          link.Close();
          return Err(e);
        case Ok(x) =>
          var y := Clamp(x, k.wlMin, k.wlMax);
          Emit(link, simulation, WavelengthCommand(y));
          wavelength := y;
          return Ok(());
      }
    }

    /** `GetWavelength`: "WL?" and the cached reply outside simulation, the cached value in it. */
    method GetWavelength(reply: string) returns (r: Result<real, Failure>)
      modifies this`wavelength, link
      ensures simulation ==> r == Ok(wavelength) && wavelength == old(wavelength) && link.sent == old(link.sent)
      ensures !simulation ==> (r == ReadReal(py, reply) && link.sent == old(link.sent) + [Head() + "WL?\n"]
        && wavelength == if r.Ok? then r.value else old(wavelength))
      ensures link.open == old(link.open)
    {
      if !simulation {
        link.Send(Head() + "WL?\n");
        var x := ReadReal(py, reply);
        if x.Err? {
          return Err(x.error);
        }
        wavelength := x.value;
      }
      return Ok(wavelength);
    }

    /**
     * `SetFrequency`: `float(Frequency)` (a failure closes and raises ARGUMENT_TYPE); a positive
     * frequency sets the wavelength `c / f` through `SetWavelength`. For any other frequency the
     * warning names AP1000_PWM_WLMAX, which the method never imports: a NameError, before anything
     * is sent. A frequency between c / WLMAX and c / WLMIN is not clamped.
     */
    method SetFrequency(v: Value) returns (r: Result<(), Failure>)
      requires ValidLimits(k)
      modifies this`wavelength, link
      ensures match FloatArg(py, v, "Frequency")
        case Err(e) => r == Err(e) && !link.open && link.sent == old(link.sent) && wavelength == old(wavelength)
        case Ok(f) =>
          if f > 0.0 then (r == Ok(()) && link.open == old(link.open)
            && wavelength == Clamp(LIGHT_SPEED / f, k.wlMin, k.wlMax)
            && link.sent == old(link.sent) + Unless(simulation, WavelengthCommand(wavelength))
            && (LIGHT_SPEED / k.wlMax <= f <= LIGHT_SPEED / k.wlMin ==> wavelength == LIGHT_SPEED / f))
          else (r == Err(NameError("AP1000_PWM_WLMAX")) && link.open == old(link.open)
            && link.sent == old(link.sent) && wavelength == old(wavelength))
    {
      match FloatArg(py, v, "Frequency") {
        case Err(e) =>
          link.Close();
          return Err(e);
        case Ok(f) =>
          if f > 0.0 {
            r := SetWavelength(Float(LIGHT_SPEED / f));
            if LIGHT_SPEED / k.wlMax <= f <= LIGHT_SPEED / k.wlMin {
              WavelengthOfFrequency(k.wlMin, k.wlMax, f);
            }
          } else {
            return Err(NameError("AP1000_PWM_WLMAX"));
          }
      }
    }

    /**
     * `GetFrequency` reads the undefined `ChNumber` inside its `try`, and the bare `except`
     * turns the NameError into 0.0: it always returns 0.0 and sends nothing.
     */
    method GetFrequency() returns (f: real)
      ensures f == 0.0
    {
      f := 0.0;
    }

    /**
     * `GetPower`: in simulation the random draw in [0, 1) gives a power in [-60, 10) dBm, turned
     * into mW in that unit. Otherwise "DBM?" or "MW?" by unit (any other unit closes and raises
     * VARIABLE_NOT_DEFINED) and the reply without its last character, NaN when it is not a number.
     */
    method GetPower(reply: string, draw: real) returns (r: Result<Sample, Failure>)
      modifies link
      ensures simulation ==> (link.sent == old(link.sent) && link.open == old(link.open)
        && r == Ok(Measured(if Lower(unit) == "mw" then m.pow10((draw * 70.0 - 60.0) / 10.0) else draw * 70.0 - 60.0)))
      ensures !simulation && Lower(unit) !in PowerUnits ==>
        r == Err(Apex(VARIABLE_NOT_DEFINED, "self.__Unit")) && !link.open && link.sent == old(link.sent)
      ensures !simulation && Lower(unit) in PowerUnits ==> (r == Ok(SampleOf(py, DropLast(reply)))
        && link.open == old(link.open)
        && link.sent == old(link.sent) + [Head() + (if Lower(unit) == "dbm" then "DBM?\n" else "MW?\n")])
      ensures Valid() ==> r.Ok?
    {
      if simulation {
        var p := draw * 70.0 - 60.0;
        if Lower(unit) == "mw" {
          p := m.pow10(p / 10.0);
        }
        return Ok(Measured(p));
      }
      var command;
      if Lower(unit) == "dbm" {
        command := Head() + "DBM?\n";
      } else if Lower(unit) == "mw" {
        command := Head() + "MW?\n";
      } else {
        link.Close();
        return Err(Apex(VARIABLE_NOT_DEFINED, "self.__Unit"));
      }
      link.Send(command);
      return Ok(SampleOf(py, DropLast(reply)));
    }

    /** The simulated dBm power lies in [-60, 10). */
    static lemma SimulatedPowerRange(draw: real)
      requires 0.0 <= draw < 1.0
      ensures -60.0 <= draw * 70.0 - 60.0 < 10.0
    {
    }

    /**
     * The list queries ("SOP?", "RAW4?", "POW4?"): outside simulation one sample per token of
     * the reply; in simulation the four values the random draws give.
     */
    method ListQuery(query: string, reply: string, integer: bool, simulated: seq<Sample>) returns (vs: seq<Sample>)
      modifies link
      ensures simulation ==> vs == simulated && link.sent == old(link.sent)
      ensures !simulation ==> (link.sent == old(link.sent) + [Head() + query]
        && |vs| == |ReplyTokens(reply)|
        && forall i :: 0 <= i < |vs| ==> vs[i] == TokenSample(py, ReplyTokens(reply)[i], integer))
      ensures link.open == old(link.open)
    {
      if simulation {
        return simulated;
      }
      link.Send(Head() + query);
      vs := ParseSamples(py, ReplyTokens(reply), integer);
    }

    /** `GetSOP`: four Stokes values, each `2 * draw - 1` in simulation. */
    method GetSOP(reply: string, draws: seq<real>) returns (vs: seq<Sample>)
      requires |draws| == 4
      modifies link
      ensures simulation ==> vs == seq(4, i requires 0 <= i < 4 => Measured(draws[i] * 2.0 - 1.0))
      ensures !simulation ==> (link.sent == old(link.sent) + [Head() + "SOP?\n"]
        && |vs| == |ReplyTokens(reply)|
        && forall i :: 0 <= i < |vs| ==> vs[i] == SampleOf(py, ReplyTokens(reply)[i]))
      ensures link.open == old(link.open)
    {
      vs := ListQuery("SOP?\n", reply, false, seq(4, i requires 0 <= i < 4 => Measured(draws[i] * 2.0 - 1.0)));
    }

    /** `GetRawValues`: four detector counts read with `int()`; random integers in simulation. */
    method GetRawValues(reply: string, counts: seq<int>) returns (vs: seq<Sample>)
      requires |counts| == 4
      modifies link
      ensures simulation ==> vs == seq(4, i requires 0 <= i < 4 => Measured(counts[i] as real))
      ensures !simulation ==> (link.sent == old(link.sent) + [Head() + "RAW4?\n"]
        && |vs| == |ReplyTokens(reply)|
        && forall i :: 0 <= i < |vs| ==> vs[i] == TokenSample(py, ReplyTokens(reply)[i], true))
      ensures link.open == old(link.open)
    {
      vs := ListQuery("RAW4?\n", reply, true, seq(4, i requires 0 <= i < 4 => Measured(counts[i] as real)));
    }

    /** `GetPowerValues`: four detector powers, `70 * draw - 60` dBm each in simulation. */
    method GetPowerValues(reply: string, draws: seq<real>) returns (vs: seq<Sample>)
      requires |draws| == 4
      modifies link
      ensures simulation ==> vs == seq(4, i requires 0 <= i < 4 => Measured(draws[i] * 70.0 - 60.0))
      ensures !simulation ==> (link.sent == old(link.sent) + [Head() + "POW4?\n"]
        && |vs| == |ReplyTokens(reply)|
        && forall i :: 0 <= i < |vs| ==> vs[i] == SampleOf(py, ReplyTokens(reply)[i]))
      ensures link.open == old(link.open)
    {
      vs := ListQuery("POW4?\n", reply, false, seq(4, i requires 0 <= i < 4 => Measured(draws[i] * 70.0 - 60.0)));
    }

    /** `GetBoardID`: the space-separated fields of the reply, or the simulated board identity. */
    method GetBoardID(reply: string) returns (id: seq<string>)
      modifies link
      ensures simulation ==> id == SimulatedBoardID && link.sent == old(link.sent)
      ensures !simulation ==> id == ReplyTokens(reply) && link.sent == old(link.sent) + [Head() + "BOARDID?\n"]
      ensures link.open == old(link.open)
    {
      if simulation {
        return SimulatedBoardID;
      }
      link.Send(Head() + "BOARDID?\n");
      return ReplyTokens(reply);
    }

    /** `GetTemperature`: "TEMP?" and the reply, NaN when not a number; `40 * draw + 10` in simulation. */
    method GetTemperature(reply: string, draw: real) returns (t: Sample)
      modifies link
      ensures simulation ==> t == Measured(draw * 40.0 + 10.0) && link.sent == old(link.sent)
      ensures !simulation ==> t == SampleOf(py, DropLast(reply)) && link.sent == old(link.sent) + [Head() + "TEMP?\n"]
      ensures link.open == old(link.open)
    {
      if simulation {
        return Measured(draw * 40.0 + 10.0);
      }
      link.Send(Head() + "TEMP?\n");
      return SampleOf(py, DropLast(reply));
    }
  }
}
