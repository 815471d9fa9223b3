/**
 * The tunable laser embedded in an AP2XXX analyser (AP2XXX/apextls.py). It shares the
 * analyser's connection and keeps a cache of its power unit, wavelength unit, power,
 * wavelength and output status. Unlike the AP1000 laser it neither clamps nor range-checks:
 * the wavelength and frequency it is given are written and cached as they are.
 */
module ApexTls {
  import opened Wrappers
  import opened Text
  import opened Python
  import opened Errors
  import opened Constants
  import opened Transport
  import opened Spectrum
  import opened Slots

  /**
   * The command `Run` sends: "TLSSWP0" (a single sweep) for the string "single" in any case or
   * a value equal to 0, "TLSSWP1" (a repeated sweep) for anything else.
   */
  function LaserSweepCommand(kind: Value): (cmd: string)
    ensures cmd == "TLSSWP0\n" <==> (kind.Str? && Lower(kind.s) == "single") || (!kind.Str? && EqualsInt(kind, 0))
    ensures cmd == "TLSSWP0\n" || cmd == "TLSSWP1\n"
  {
    if kind.Str? then
      if Lower(kind.s) == "single" then "TLSSWP0\n" else "TLSSWP1\n"
    else if EqualsInt(kind, 0) then "TLSSWP0\n"
    else "TLSSWP1\n"
  }

  /** The documented spellings: "single"/0 start a single sweep, "repeat"/1 a repeated one; `False` counts as 0. */
  lemma SweepSpellings()
    ensures LaserSweepCommand(Str("single")) == LaserSweepCommand(Str("SINGLE")) == LaserSweepCommand(Int(0)) == "TLSSWP0\n"
    ensures LaserSweepCommand(Bool(false)) == LaserSweepCommand(Float(0.0)) == "TLSSWP0\n"
    ensures LaserSweepCommand(Str("repeat")) == LaserSweepCommand(Int(1)) == LaserSweepCommand(Str("0")) == "TLSSWP1\n"
  {
    assert Lower("SINGLE") == "single";
    assert Lower("repeat") != "single" by { assert Lower("repeat")[0] == 'r'; }
    assert Lower("0") != "single" by { assert |Lower("0")| == 1; }
  }

  /**
   * The parameters of a wavelength sweep, each with its own command and the Python type its
   * setter insists on: the step number is an int, all the others must be floats (an int is
   * refused too).
   */
  datatype SweepParameter = StartWL | StopWL | Speed | ContPower | StepDelay | StepNum

  /** The command word of a sweep parameter: "TLS<word><value>" sets it, "TLS<word>?" queries it. */
  function Word(p: SweepParameter): string
  {
    match p
    case StartWL => "STAR"
    case StopWL => "STOP"
    case Speed => "SPE"
    case ContPower => "CONTPWR"
    case StepDelay => "STEPDELAY"
    case StepNum => "STEPNUM"
  }

  /** The words are distinct, so no two parameters share a command. */
  lemma WordsDistinct(p: SweepParameter, q: SweepParameter)
    requires p != q
    ensures Word(p) != Word(q)
  {
    var a, b := Word(p), Word(q);
    if |a| == |b| {
      assert a[0] != b[0] || a[1] != b[1] || a[|a| - 1] != b[|b| - 1];
    }
  }

  /** The type a sweep parameter setter accepts: `isinstance(x, int)` for the step number, `isinstance(x, float)` otherwise. */
  predicate Accepts(p: SweepParameter, v: Value)
  {
    if p == StepNum then IsInt(v) else v.Float?
  }

  /** The TypeError each setter raises for a value of the wrong type (its message, typos included). */
  function TypeMessage(p: SweepParameter): string
  {
    match p
    case StepDelay => "Set Step Delay: Argument should be float"
    case StepNum => "Set Step Delay: Argument should be int"
    case _ => "Set Start WL: Argument should be float"
  }

  /** The local each query returns (both wavelength queries name it `StartWL`). */
  function LocalName(p: SweepParameter): string
  {
    match p
    case StartWL => "StartWL"
    case StopWL => "StartWL"
    case Speed => "Speed"
    case ContPower => "ContPower"
    case StepDelay => "StepDelay"
    case StepNum => "StepNum"
  }

  /** The value a sweep parameter query returns: `int(reply[:-1])` for the step number, `float(reply[:-1])` otherwise. */
  function ReadParameter(py: Conv, p: SweepParameter, reply: string): (r: Result<real, Failure>)
    ensures p == StepNum ==> (r.Ok? <==> ReadInt(py, reply).Ok?)
    ensures p == StepNum && r.Ok? ==> r.value == ReadInt(py, reply).value as real
    ensures p != StepNum ==> r == ReadReal(py, reply)
  {
    if p == StepNum then
      match ReadInt(py, reply)
      case Ok(n) => Ok(n as real)
      case Err(e) => Err(e)
    else ReadReal(py, reply)
  }

  /** The status `GetStatus` reads: "ON" for 1 and "OFF" for any other integer. */
  function StatusOf(n: int): (s: string)
    ensures s == "ON" <==> n == 1
    ensures s == "ON" || s == "OFF"
  {
    if n == 1 then "ON" else "OFF"
  }

  /** The error `SetPower` runs into for a non-positive power in mW: `log10` has no value there. */
  const MathDomain: Failure := ValueError("math domain error")

  /**
   * The power `SetPower` caches and writes for `p`: `10 * log10(p)` when the unit is mW (a
   * ValueError for p <= 0), `p` itself in any other unit; no range check and no closing.
   */
  function PowerToWrite(m: Maths, unit: string, p: real): (r: Result<real, Failure>)
    ensures Lower(unit) != "mw" ==> r == Ok(p)
    ensures r.Err? <==> Lower(unit) == "mw" && p <= 0.0
    ensures r.Err? ==> r.error == MathDomain
  {
    if Lower(unit) == "mw" then
      if p > 0.0 then Ok(10.0 * m.log10(p)) else Err(MathDomain)
    else Ok(p)
  }

  /** The power `GetPower` caches and returns for a reading `p` in dBm: `10 ** (p / 10)` in mW, `p` otherwise. */
  function PowerRead(m: Maths, unit: string, p: real): (r: real)
    ensures Lower(unit) != "mw" ==> r == p
  {
    if Lower(unit) == "mw" then m.pow10(p / 10.0) else p
  }

  class TunableLaser {
    const link: Connexion
    const simulation: bool
    const py: Conv
    const m: Maths
    const id: string

    var unit: string
    var wlUnit: string
    var power: real
    var wavelength: real
    var status: string

    /** The output is either on or off. */
    predicate Valid()
      reads this
    {
      status == "ON" || status == "OFF"
    }

    /** The constructor: the analyser's connection and identity, power in dBm, 1550 nm, output off. */
    constructor (link: Connexion, simulation: bool, py: Conv, m: Maths, id: string)
      ensures this.link == link && this.simulation == simulation && this.py == py && this.m == m
      ensures this.id == id
      ensures unit == "dBm" && wlUnit == "nm" && power == 0.0 && wavelength == 1550.0 && status == "OFF"
      ensures Valid()
    {
      this.link := link;
      this.simulation := simulation;
      this.py := py;
      this.m := m;
      this.id := id;
      unit := "dBm";
      wlUnit := "nm";
      power := 0.0;
      wavelength := 1550.0;
      status := "OFF";
    }

    /** `__str__`. */
    function Describe(): (s: string)
      ensures "TLS of " <= s
    {
      "TLS of " + id
    }

    /** `SetUnit`: `str(Unit)` is kept, with its casing, only when it names dBm or mW in any case. */
    method SetUnit(v: Value)
      modifies this`unit
      ensures unit == ChosenUnit(py, old(unit), v, PowerUnits)
    {
      unit := ChosenUnit(py, unit, v, PowerUnits);
    }

    /** `GetUnit`: the cached unit. */
    function GetUnit(): (u: string)
      reads this
      ensures u == unit
    {
      unit
    }

    /** `SetPRWUnit`: an int (else TypeError, connection left open) written as "TLSPWRUNT<n>". */
    method SetPRWUnit(n: Value) returns (r: Result<(), Failure>)
      modifies link
      ensures r.Ok? <==> IsInt(n)
      ensures r.Err? ==> r.error == TypeError("Set Power Unit Scale : Argument should be int")
      ensures link.open == old(link.open)
      ensures link.sent == old(link.sent) + if r.Ok? then Unless(simulation, "TLSPWRUNT" + ToStr(py, n) + "\n") else []
    {
      if !IsInt(n) {
        return Err(TypeError("Set Power Unit Scale : Argument should be int"));
      }
      Emit(link, simulation, "TLSPWRUNT" + ToStr(py, n) + "\n");
      return Ok(());
    }

    /** `GetPRWUnit`: outside simulation the unit becomes the reply without its last character. */
    method GetPRWUnit(reply: string) returns (u: string)
      modifies this`unit, link
      ensures unit == (if simulation then old(unit) else DropLast(reply)) && u == unit
      ensures link.open == old(link.open)
      ensures link.sent == old(link.sent) + Unless(simulation, "TLSPWRUNT?\n")
    {
      Emit(link, simulation, "TLSPWRUNT?\n");
      if !simulation {
        unit := DropLast(reply);
      }
      return unit;
    }

    /** `SetWLUnit`: an int (else TypeError) written as "TLSWLUNT<n>"; the cached unit is not touched. */
    method SetWLUnit(n: Value) returns (r: Result<(), Failure>)
      modifies link
      ensures r.Ok? <==> IsInt(n)
      ensures r.Err? ==> r.error == TypeError("Set Power Unit Scale : Argument should be int")
      ensures link.open == old(link.open)
      ensures link.sent == old(link.sent) + if r.Ok? then Unless(simulation, "TLSWLUNT" + ToStr(py, n) + "\n") else []
    {
      if !IsInt(n) {
        return Err(TypeError("Set Power Unit Scale : Argument should be int"));
      }
      Emit(link, simulation, "TLSWLUNT" + ToStr(py, n) + "\n");
      return Ok(());
    }

    /** `GetWLUnit`: outside simulation the wavelength unit becomes the reply without its last character. */
    method GetWLUnit(reply: string) returns (u: string)
      modifies this`wlUnit, link
      ensures wlUnit == (if simulation then old(wlUnit) else DropLast(reply)) && u == wlUnit
      ensures link.open == old(link.open)
      ensures link.sent == old(link.sent) + Unless(simulation, "TLSWLUNT?\n")
    {
      Emit(link, simulation, "TLSWLUNT?\n");
      if !simulation {
        wlUnit := DropLast(reply);
      }
      return wlUnit;
    }

    /**
     * `SetPower`: a number (else close and ARGUMENT_TYPE), converted from mW when that is the
     * unit, cached, and written as "TLSPWR" with one decimal outside simulation.
     */
    method SetPower(v: Value) returns (r: Result<(), Failure>)
      modifies this`power, link
      ensures !IsNumber(v) ==> r == Err(Apex(ARGUMENT_TYPE, "Power")) && !link.open
                               && power == old(power) && link.sent == old(link.sent)
      ensures IsNumber(v) ==>
        match PowerToWrite(m, unit, Number(v))
        case Err(e) => r == Err(e) && power == old(power) && link.open == old(link.open) && link.sent == old(link.sent)
        case Ok(p) => r == Ok(()) && power == p && link.open == old(link.open)
                      && link.sent == old(link.sent) + Unless(simulation, "TLSPWR" + Fixed1(py, p) + "\n")
      ensures IsNumber(v) && Lower(unit) != "mw" ==> r.Ok? && power == Number(v)
    {
      if !IsNumber(v) {
        link.Close();
        return Err(Apex(ARGUMENT_TYPE, "Power"));
      }
      match PowerToWrite(m, unit, Number(v)) {
        case Err(e) => return Err(e);
        case Ok(p) =>
          power := p;
          Emit(link, simulation, "TLSPWR" + Fixed1(py, p) + "\n");
          return Ok(());
      }
    }

    /** `GetPower`: outside simulation "TLSPWR?", the reply read as dBm and converted into the unit, then cached. */
    method GetPower(reply: string) returns (r: Result<real, Failure>)
      modifies this`power, link
      ensures simulation ==> r == Ok(old(power)) && power == old(power)
      ensures !simulation ==>
        match ReadReal(py, reply)
        case Err(e) => r == Err(e) && power == old(power)
        case Ok(x) => r == Ok(PowerRead(m, unit, x)) && power == PowerRead(m, unit, x)
      ensures link.open == old(link.open)
      ensures link.sent == old(link.sent) + Unless(simulation, "TLSPWR?\n")
    {
      Emit(link, simulation, "TLSPWR?\n");
      if !simulation {
        match ReadReal(py, reply) {
          case Err(e) => return Err(e);
          case Ok(x) => power := PowerRead(m, unit, x);
        }
      }
      return Ok(power);
    }

    /** `SetWavelength`: any number (else close and ARGUMENT_TYPE) is cached as given and written with three decimals. */
    method SetWavelength(v: Value) returns (r: Result<(), Failure>)
      modifies this`wavelength, link
      ensures r.Ok? <==> IsNumber(v)
      ensures r.Err? ==> r.error == Apex(ARGUMENT_TYPE, "Wavelength") && !link.open
                         && wavelength == old(wavelength) && link.sent == old(link.sent)
      ensures r.Ok? ==> wavelength == Number(v) && link.open == old(link.open)
                        && link.sent == old(link.sent) + Unless(simulation, "TLSSWL" + Fixed3(py, wavelength) + "\n")
    {
      if !IsNumber(v) {
        link.Close();
        return Err(Apex(ARGUMENT_TYPE, "Wavelength"));
      }
      wavelength := Number(v);
      Emit(link, simulation, "TLSSWL" + Fixed3(py, wavelength) + "\n");
      return Ok(());
    }

    /** `GetWavelength`: outside simulation "TLSSWL?" and the reply, which is cached. */
    method GetWavelength(reply: string) returns (r: Result<real, Failure>)
      modifies this`wavelength, link
      ensures simulation ==> r == Ok(old(wavelength)) && wavelength == old(wavelength)
      ensures !simulation ==> r == ReadReal(py, reply)
                              && wavelength == (if r.Ok? then r.value else old(wavelength))
      ensures link.open == old(link.open)
      ensures link.sent == old(link.sent) + Unless(simulation, "TLSSWL?\n")
    {
      Emit(link, simulation, "TLSSWL?\n");
      if !simulation {
        r := ReadReal(py, reply);
        if r.Ok? {
          wavelength := r.value;
        }
        return;
      }
      return Ok(wavelength);
    }

    /**
     * `SetFrequency`: a number (else close and ARGUMENT_TYPE); the cached wavelength becomes
     * c / f (a ZeroDivisionError for 0, nothing written) and the frequency is written with
     * three decimals.
     */
    method SetFrequency(v: Value) returns (r: Result<(), Failure>)
      modifies this`wavelength, link
      ensures !IsNumber(v) ==> r == Err(Apex(ARGUMENT_TYPE, "Frequency")) && !link.open
                               && wavelength == old(wavelength) && link.sent == old(link.sent)
      ensures IsNumber(v) && Number(v) == 0.0 ==>
                r == Err(ZeroDivisionError) && link.open == old(link.open)
                && wavelength == old(wavelength) && link.sent == old(link.sent)
      ensures IsNumber(v) && Number(v) != 0.0 ==>
                r == Ok(()) && wavelength == LIGHT_SPEED / Number(v) && link.open == old(link.open)
                && link.sent == old(link.sent) + Unless(simulation, "TLSSFR" + Fixed3(py, Number(v)) + "\n")
    {
      if !IsNumber(v) {
        link.Close();
        return Err(Apex(ARGUMENT_TYPE, "Frequency"));
      }
      var f := Number(v);
      if f == 0.0 {
        return Err(ZeroDivisionError);
      }
      wavelength := LIGHT_SPEED / f;
      Emit(link, simulation, "TLSSFR" + Fixed3(py, f) + "\n");
      return Ok(());
    }

    /**
     * `GetFrequency`: in simulation c over the cached wavelength; otherwise "TLSSFR?", the reply,
     * and the cached wavelength becomes c over it.
     */
    method GetFrequency(reply: string) returns (r: Result<real, Failure>)
      modifies this`wavelength, link
      ensures simulation ==> wavelength == old(wavelength)
                             && r == if old(wavelength) == 0.0 then Err(ZeroDivisionError) else Ok(LIGHT_SPEED / old(wavelength))
      ensures !simulation ==>
        match ReadReal(py, reply)
        case Err(e) => r == Err(e) && wavelength == old(wavelength)
        case Ok(f) => if f == 0.0 then r == Err(ZeroDivisionError) && wavelength == old(wavelength)
                      else r == Ok(f) && wavelength == LIGHT_SPEED / f
      ensures link.open == old(link.open)
      ensures link.sent == old(link.sent) + Unless(simulation, "TLSSFR?\n")
    {
      Emit(link, simulation, "TLSSFR?\n");
      if simulation {
        if wavelength == 0.0 {
          return Err(ZeroDivisionError);
        }
        return Ok(LIGHT_SPEED / wavelength);
      }
      match ReadReal(py, reply) {
        case Err(e) => return Err(e);
        case Ok(f) =>
          if f == 0.0 {
            return Err(ZeroDivisionError);
          }
          wavelength := LIGHT_SPEED / f;
          return Ok(f);
      }
    }

    /** `On`: "TLSOUT1" outside simulation; the status is "ON" in both modes. */
    method On()
      modifies this`status, link
      ensures status == "ON" && link.open == old(link.open)
      ensures link.sent == old(link.sent) + Unless(simulation, "TLSOUT1\n")
    {
      Emit(link, simulation, "TLSOUT1\n");
      status := "ON";
    }

    /** `Off`: "TLSOUT0" outside simulation; the status is "OFF" in both modes. */
    method Off()
      modifies this`status, link
      ensures status == "OFF" && link.open == old(link.open)
      ensures link.sent == old(link.sent) + Unless(simulation, "TLSOUT0\n")
    {
      Emit(link, simulation, "TLSOUT0\n");
      status := "OFF";
    }

    /** `GetStatus`: outside simulation "TLSOUT?" and `int(reply[:-1])`, 1 meaning on; the cached status otherwise. */
    method GetStatus(reply: string) returns (r: Result<string, Failure>)
      modifies this`status, link
      ensures simulation ==> r == Ok(old(status)) && status == old(status)
      ensures !simulation ==>
        match ReadInt(py, reply)
        case Err(e) => r == Err(e) && status == old(status)
        case Ok(n) => r == Ok(StatusOf(n)) && status == StatusOf(n)
      ensures old(Valid()) ==> Valid()
      ensures link.open == old(link.open)
      ensures link.sent == old(link.sent) + Unless(simulation, "TLSOUT?\n")
    {
      Emit(link, simulation, "TLSOUT?\n");
      if !simulation {
        match ReadInt(py, reply) {
          case Err(e) => return Err(e);
          case Ok(n) => status := StatusOf(n);
        }
      }
      return Ok(status);
    }

    /** `SetLaserStatic`: "TLSS" outside simulation. */
    method SetLaserStatic()
      modifies link
      ensures link.open == old(link.open)
      ensures link.sent == old(link.sent) + Unless(simulation, "TLSS\n")
    {
      Emit(link, simulation, "TLSS\n");
    }

    /** `SetLaserSweep`: an int (else TypeError) written as "TLSSW<mode>". */
    method SetLaserSweep(mode: Value) returns (r: Result<(), Failure>)
      modifies link
      ensures r.Ok? <==> IsInt(mode)
      ensures r.Err? ==> r.error == TypeError("Set Sweep mode : Argument should be int")
      ensures link.open == old(link.open)
      ensures link.sent == old(link.sent) + if r.Ok? then Unless(simulation, "TLSSW" + ToStr(py, mode) + "\n") else []
    {
      if !IsInt(mode) {
        return Err(TypeError("Set Sweep mode : Argument should be int"));
      }
      Emit(link, simulation, "TLSSW" + ToStr(py, mode) + "\n");
      return Ok(());
    }

    /**
     * `SetStartWL`, `SetStopWL`, `SetLaserSpeed`, `SetContPower`, `SeStepDealy` and `SeStepNum`:
     * a value of the parameter's type (else TypeError) written with `str()` after its word.
     */
    method SetSweepParameter(p: SweepParameter, v: Value) returns (r: Result<(), Failure>)
      modifies link
      ensures r.Ok? <==> Accepts(p, v)
      ensures r.Err? ==> r.error == TypeError(TypeMessage(p))
      ensures link.open == old(link.open)
      ensures link.sent == old(link.sent) + if r.Ok? then Unless(simulation, "TLS" + Word(p) + ToStr(py, v) + "\n") else []
    {
      if !Accepts(p, v) {
        return Err(TypeError(TypeMessage(p)));
      }
      Emit(link, simulation, "TLS" + Word(p) + ToStr(py, v) + "\n");
      return Ok(());
    }

    /**
     * `GetStartWL`, `GetStopWL`, `GetLaserSpeed`, `GetContPower`, `GetStepDelay` and
     * `GetStepNum`: outside simulation the query and the parsed reply. In simulation the local
     * they return is never bound, so they all raise UnboundLocalError.
     */
    method GetSweepParameter(p: SweepParameter, reply: string) returns (r: Result<real, Failure>)
      modifies link
      ensures simulation ==> r == Err(UnboundLocalError(LocalName(p)))
      ensures !simulation ==> r == ReadParameter(py, p, reply)
      ensures link.open == old(link.open)
      ensures link.sent == old(link.sent) + Unless(simulation, "TLS" + Word(p) + "?\n")
    {
      Emit(link, simulation, "TLS" + Word(p) + "?\n");
      if simulation {
        return Err(UnboundLocalError(LocalName(p)));
      }
      return ReadParameter(py, p, reply);
    }

    /**
     * `Run`: -1 in simulation; otherwise the sweep command of `kind` is sent with the socket
     * timeout lifted, the previous timeout is put back, and `kind` is returned unchanged.
     */
    method Run(kind: Value) returns (result: Value)
      modifies link
      ensures result == if simulation then Int(-1) else kind
      ensures link.timeout == old(link.timeout) && link.open == old(link.open)
      ensures link.sent == old(link.sent) + Unless(simulation, LaserSweepCommand(kind))
    {
      if simulation {
        return Int(-1);
      }
      var saved := link.timeout;
      link.SetTimeout(None);
      link.Send(LaserSweepCommand(kind));
      link.SetTimeout(saved);
      return kind;
    }

    /** `Stop`: "TLSSWP2" outside simulation. */
    method Stop()
      modifies link
      ensures link.open == old(link.open)
      ensures link.sent == old(link.sent) + Unless(simulation, "TLSSWP2\n")
    {
      Emit(link, simulation, "TLSSWP2\n");
    }
  }
}
