/**
 * The AP2040 optical spectrum analyser (AP2040/__init__.py). Its limits are the `AP2040_*`
 * constants; its simulated getters answer with the AP2050 simulation strings.
 */
module AP2040 {
  import opened Wrappers
  import opened Text
  import opened Python
  import opened Errors
  import opened Constants
  import opened Validation
  import opened MeasurementWindow
  import opened Transport
  import opened Spectrum

  /** The settings the getters read back. */
  datatype Setting = StartWavelength | StopWavelength | Span | Center | XResolution | YResolution

  /** The query each getter sends. */
  function Query(s: Setting): (cmd: string)
    ensures |cmd| >= 2 && cmd[|cmd| - 2..] == "?\n"
  {
    match s
    case StartWavelength => "SPSTRTWL?\n"
    case StopWavelength => "SPSTOPWL?\n"
    case Span => "SPSPANWL?\n"
    case Center => "SPCTRWL?\n"
    case XResolution => "SPSWPRES?\n"
    case YResolution => "SPDIVY?\n"
  }

  /** The reply each getter reads in simulation. The stop getter reads the simulated start. */
  function SimulatedReply(s: Setting): (reply: string)
    ensures s != StopWavelength ==> reply in {SimuAP2050_StartWavelength, SimuAP2050_Span, SimuAP2050_Center,
                                              SimuAP2050_XResolution, SimuAP2050_YResolution}
  {
    match s
    case StartWavelength => SimuAP2050_StartWavelength
    case StopWavelength => SimuAP2050_StartWavelength
    case Span => SimuAP2050_Span
    case Center => SimuAP2050_Center
    case XResolution => SimuAP2050_XResolution
    case YResolution => SimuAP2050_YResolution
  }

  /** In simulation the stop wavelength reads back as the start, not as the simulated stop. */
  lemma SimulatedStopIsStart()
    ensures SimulatedReply(StopWavelength) == SimulatedReply(StartWavelength)
    ensures SimulatedReply(StopWavelength) != SimuAP2050_StopWavelength
  {
    assert SimuAP2050_StartWavelength[2] != SimuAP2050_StopWavelength[2];
  }

  /**
   * `Run`: the string must be one of "auto", "single" and "repeat" (any case). Another string
   * leaves the command unbound, and a non-string has no `lower`.
   */
  function RunCommand(kind: Value): (r: Result<string, Failure>)
    ensures !kind.Str? ==> r == Err(AttributeError("lower"))
    ensures kind.Str? ==> (r.Ok? <==> Lower(kind.s) in {"auto", "single", "repeat"})
    ensures kind.Str? && r.Err? ==> r.error == UnboundLocalError("Command")
    ensures r.Ok? ==> r.value == if Lower(kind.s) == "auto" then "SPSWP0\n"
                                 else if Lower(kind.s) == "single" then "SPSWP1\n" else "SPSWP2\n"
  {
    if !kind.Str? then Err(AttributeError("lower"))
    else if Lower(kind.s) == "auto" then Ok("SPSWP0\n")
    else if Lower(kind.s) == "single" then Ok("SPSWP1\n")
    else if Lower(kind.s) == "repeat" then Ok("SPSWP2\n")
    else Err(UnboundLocalError("Command"))
  }

  /** The three sweep kinds select three distinct commands, whatever their case. */
  lemma RunSpellings(s: string)
    ensures RunCommand(Str(s)) == RunCommand(Str(Lower(s)))
    ensures RunCommand(Str("Auto")) == Ok("SPSWP0\n") && RunCommand(Str("SINGLE")) == Ok("SPSWP1\n")
    ensures RunCommand(Str("repeat")) == Ok("SPSWP2\n") && RunCommand(Int(0)).Err?
  {
    LowerIdempotent(s);
    assert Lower("Auto") == "auto";
    assert Lower("SINGLE") == "single";
    assert Lower("repeat") == "repeat";
  }

  /** The center check as written: it compares the undefined name `Span`, so every number fails. */
  function CenterCheckAsWritten(c: Value): (r: Result<(), Failure>)
    ensures !IsNumber(c) ==> r == Err(Apex(ARGUMENT_TYPE, "Center"))
    ensures IsNumber(c) ==> r == Err(NameError("Span"))
  {
    if !IsNumber(c) then Err(Apex(ARGUMENT_TYPE, "Center")) else Err(NameError("Span"))
  }

  /** The center of the full range passes the intended check and fails the written one. */
  lemma CenterCheckAsWrittenRejectsValidCenter()
    ensures CenterCheckAsWritten(Float(1546.0)).Err?
    ensures NumberIn(Float(1546.0), AP2040_MINCENTER, AP2040_MAXCENTER, "Center") == Ok(1546.0)
  {
  }

  class AP2040 {
    const link: Connexion
    const simulation: bool
    const py: Conv

    var startWavelength: real
    var stopWavelength: real
    var span: real
    var center: real

    /** The cached measurement window. */
    function CurrentWindow(): Window
      reads this
    {
      Window(startWavelength, stopWavelength, span, center)
    }

    /** The constructor: the window spans AP2040_WLMIN..AP2040_WLMAX. */
    constructor (link: Connexion, simulation: bool, py: Conv)
      ensures this.link == link && this.simulation == simulation && this.py == py
      ensures CurrentWindow() == Between(AP2040_WLMIN, AP2040_WLMAX)
    {
      this.link := link;
      this.simulation := simulation;
      this.py := py;
      startWavelength := AP2040_WLMIN;
      stopWavelength := AP2040_WLMAX;
      span := AP2040_WLMAX - AP2040_WLMIN;
      center := AP2040_WLMIN + (AP2040_WLMAX - AP2040_WLMIN) / 2.0;
    }

    /** `SetStartWavelength`: a number in [AP2040_WLMIN, AP2040_WLMAX] becomes the start; span and center follow. */
    method SetStartWavelength(wavelength: Value) returns (r: Result<(), Failure>)
      modifies this`startWavelength, this`span, this`center, link
      ensures link.open == old(link.open)
      ensures match NumberIn(wavelength, AP2040_WLMIN, AP2040_WLMAX, "Wavelength")
        case Err(e) => r == Err(e) && CurrentWindow() == old(CurrentWindow()) && link.sent == old(link.sent)
        case Ok(x) => (r == Ok(()) && CurrentWindow() == WithStart(old(CurrentWindow()), x)
          && link.sent == old(link.sent) + Unless(simulation, "SPSTRTWL" + ToStr(py, wavelength) + "\n"))
    {
      match NumberIn(wavelength, AP2040_WLMIN, AP2040_WLMAX, "Wavelength")
      case Err(e) => return Err(e);
      case Ok(x) =>
        Emit(link, simulation, "SPSTRTWL" + ToStr(py, wavelength) + "\n");
        startWavelength := x;
        span := stopWavelength - startWavelength;
        center := startWavelength + span / 2.0;
        return Ok(());
    }

    /** `SetStopWavelength`: a number in [AP2040_WLMIN, AP2040_WLMAX] becomes the stop; span and center follow. */
    method SetStopWavelength(wavelength: Value) returns (r: Result<(), Failure>)
      modifies this`stopWavelength, this`span, this`center, link
      ensures link.open == old(link.open)
      ensures match NumberIn(wavelength, AP2040_WLMIN, AP2040_WLMAX, "Wavelength")
        case Err(e) => r == Err(e) && CurrentWindow() == old(CurrentWindow()) && link.sent == old(link.sent)
        case Ok(x) => (r == Ok(()) && CurrentWindow() == WithStop(old(CurrentWindow()), x)
          && link.sent == old(link.sent) + Unless(simulation, "SPSTOPWL" + ToStr(py, wavelength) + "\n"))
    {
      match NumberIn(wavelength, AP2040_WLMIN, AP2040_WLMAX, "Wavelength")
      case Err(e) => return Err(e);
      case Ok(x) =>
        Emit(link, simulation, "SPSTOPWL" + ToStr(py, wavelength) + "\n");
        stopWavelength := x;
        span := stopWavelength - startWavelength;
        center := startWavelength + span / 2.0;
        return Ok(());
    }

    /**
     * `SetSpan`: a number in [AP2040_MINSPAN, AP2040_MAXSPAN] is written; the update that follows
     * reads the undefined name `Wavelength`, so the call then fails and nothing is cached.
     */
    method SetSpan(s: Value) returns (r: Result<(), Failure>)
      modifies link
      ensures link.open == old(link.open)
      ensures match NumberIn(s, AP2040_MINSPAN, AP2040_MAXSPAN, "Span")
        case Err(e) => r == Err(e) && link.sent == old(link.sent)
        case Ok(_) => (r == Err(NameError("Wavelength"))
          && link.sent == old(link.sent) + Unless(simulation, "SPSPANWL" + ToStr(py, s) + "\n"))
    {
      match NumberIn(s, AP2040_MINSPAN, AP2040_MAXSPAN, "Span")
      case Err(e) => return Err(e);
      case Ok(_) =>
        Emit(link, simulation, "SPSPANWL" + ToStr(py, s) + "\n");
        return Err(NameError("Wavelength"));
    }

    /**
     * `SetCenter` with its range check applied to the center (see `CenterCheckAsWritten`): a
     * number in [AP2040_MINCENTER, AP2040_MAXCENTER] is written and cached as the center alone.
     */
    method SetCenter(c: Value) returns (r: Result<(), Failure>)
      modifies this`center, link
      ensures link.open == old(link.open)
      ensures match NumberIn(c, AP2040_MINCENTER, AP2040_MAXCENTER, "Center")
        case Err(e) => r == Err(e) && center == old(center) && link.sent == old(link.sent)
        case Ok(x) => (r == Ok(()) && CurrentWindow() == old(CurrentWindow()).(center := x)
          && link.sent == old(link.sent) + Unless(simulation, "SPCTRWL" + ToStr(py, c) + "\n"))
    {
      match NumberIn(c, AP2040_MINCENTER, AP2040_MAXCENTER, "Center")
      case Err(e) => return Err(e);
      case Ok(x) =>
        Emit(link, simulation, "SPCTRWL" + ToStr(py, c) + "\n");
        center := x;
        return Ok(());
    }

    /** `SetXResolution`: the value is written without a check. */
    method SetXResolution(resolution: Value)
      modifies link
      ensures link.sent == old(link.sent) + Unless(simulation, "SPSWPRES" + ToStr(py, resolution) + "\n")
      ensures link.open == old(link.open)
    {
      Emit(link, simulation, "SPSWPRES" + ToStr(py, resolution) + "\n");
    }

    /** `SetYResolution`: a number in [AP2040_MINYRES, AP2040_MAXYRES] is written. */
    method SetYResolution(resolution: Value) returns (r: Result<(), Failure>)
      modifies link
      ensures link.open == old(link.open)
      ensures match NumberIn(resolution, AP2040_MINYRES, AP2040_MAXYRES, "Resolution")
        case Err(e) => r == Err(e) && link.sent == old(link.sent)
        case Ok(_) => r == Ok(()) && link.sent == old(link.sent) + Unless(simulation, "SPDIVY" + ToStr(py, resolution) + "\n")
    {
      match NumberIn(resolution, AP2040_MINYRES, AP2040_MAXYRES, "Resolution")
      case Err(e) => return Err(e);
      case Ok(_) =>
        Emit(link, simulation, "SPDIVY" + ToStr(py, resolution) + "\n");
        return Ok(());
    }

    /** `SetNPoints`: an `int` in [AP2040_MINNPTS, AP2040_MAXNPTS] is written. */
    method SetNPoints(nPoints: Value) returns (r: Result<(), Failure>)
      modifies link
      ensures link.open == old(link.open)
      ensures match IntIn(nPoints, AP2040_MINNPTS, AP2040_MAXNPTS, "NPoints")
        case Err(e) => r == Err(e) && link.sent == old(link.sent)
        case Ok(_) => r == Ok(()) && link.sent == old(link.sent) + Unless(simulation, "SPNBPTSWP" + ToStr(py, nPoints) + "\n")
    {
      match IntIn(nPoints, AP2040_MINNPTS, AP2040_MAXNPTS, "NPoints")
      case Err(e) => return Err(e);
      case Ok(_) =>
        Emit(link, simulation, "SPNBPTSWP" + ToStr(py, nPoints) + "\n");
        return Ok(());
    }

    /** The getters `GetStartWavelength` … `GetYResolution`: the reply (or the simulated one) read as a number. */
    method Get(s: Setting, reply: string) returns (r: Result<real, Failure>)
      modifies link
      ensures link.open == old(link.open)
      ensures link.sent == old(link.sent) + Unless(simulation, Query(s))
      ensures r == ReadReal(py, if simulation then SimulatedReply(s) else reply)
    {
      Emit(link, simulation, Query(s));
      return ReadReal(py, if simulation then SimulatedReply(s) else reply);
    }

    /** `GetNPoints`: the reply (or "10000\n" in simulation) read as an integer. */
    method GetNPoints(reply: string) returns (r: Result<int, Failure>)
      modifies link
      ensures link.open == old(link.open)
      ensures link.sent == old(link.sent) + Unless(simulation, "SPNBPTSWP?\n")
      ensures r == ReadInt(py, if simulation then SimuAP2050_NPoints else reply)
    {
      Emit(link, simulation, "SPNBPTSWP?\n");
      return ReadInt(py, if simulation then SimuAP2050_NPoints else reply);
    }

    /** `Run`: outside simulation the command chosen by `RunCommand`; in simulation nothing is checked. */
    method Run(kind: Value) returns (r: Result<(), Failure>)
      modifies link
      ensures link.open == old(link.open)
      ensures simulation ==> r == Ok(()) && link.sent == old(link.sent)
      ensures !simulation ==> match RunCommand(kind)
        case Err(e) => r == Err(e) && link.sent == old(link.sent)
        case Ok(cmd) => r == Ok(()) && link.sent == old(link.sent) + [cmd]
    {
      if simulation {
        return Ok(());
      }
      match RunCommand(kind) {
        case Err(e) => return Err(e);
        case Ok(cmd) =>
          link.Send(cmd);
          return Ok(());
      }
    }

    /** `Stop`: the fixed command "SPSWP3". */
    method Stop()
      modifies link
      ensures link.sent == old(link.sent) + Unless(simulation, "SPSWP3\n") && link.open == old(link.open)
    {
      Emit(link, simulation, "SPSWP3\n");
    }

    /**
     * `GetData`: outside simulation the point count is read, then the raw Y and X replies of the
     * trace are returned as they are; in simulation the data are never bound.
     */
    method GetData(trace: Value, nPointsReply: string, yReply: string, xReply: string) returns (r: Result<(string, string), Failure>)
      modifies link
      ensures link.open == old(link.open)
      ensures simulation ==> r == Err(UnboundLocalError("YData")) && link.sent == old(link.sent)
      ensures !simulation && ReadInt(py, nPointsReply).Err? ==>
        r == Err(ReadInt(py, nPointsReply).error) && link.sent == old(link.sent) + ["SPNBPTSWP?\n"]
      ensures !simulation && ReadInt(py, nPointsReply).Ok? ==>
        r == Ok((yReply, xReply))
        && link.sent == old(link.sent) + ["SPNBPTSWP?\n", "SPDATAD" + ToStr(py, trace) + "\n", "SPDATAWL" + ToStr(py, trace) + "\n"]
    {
      if simulation {
        return Err(UnboundLocalError("YData"));
      }
      var nPoints := GetNPoints(nPointsReply);
      if nPoints.Err? {
        return Err(nPoints.error);
      }
      link.Send("SPDATAD" + ToStr(py, trace) + "\n");
      link.Send("SPDATAWL" + ToStr(py, trace) + "\n");
      return Ok((yReply, xReply));
    }
  }
}
