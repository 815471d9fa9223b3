/**
 * The AP2050 optical spectrum analyser (AP2050/__init__.py): a window between AP2050_WLMIN and
 * AP2050_WLMAX, its setters and the two wavelength getters.
 */
module AP2050 {
  import opened Wrappers
  import opened Text
  import opened Python
  import opened Errors
  import opened Constants
  import opened Validation
  import opened MeasurementWindow
  import opened Transport
  import opened Spectrum

  class AP2050 {
    const link: Connexion
    const simulation: bool
    const py: Conv

    var startWavelength: real
    var stopWavelength: real
    var span: real
    var center: real

    /** The cached measurement window. */
    function CurrentWindow(): Window
      reads this
    {
      Window(startWavelength, stopWavelength, span, center)
    }

    /** The constructor: the window spans AP2050_WLMIN..AP2050_WLMAX, centered on its midpoint. */
    constructor (link: Connexion, simulation: bool, py: Conv)
      ensures this.link == link && this.simulation == simulation && this.py == py
      ensures CurrentWindow() == Between(AP2050_WLMIN, AP2050_WLMAX)
    {
      this.link := link;
      this.simulation := simulation;
      this.py := py;
      startWavelength := AP2050_WLMIN;
      stopWavelength := AP2050_WLMAX;
      span := AP2050_WLMAX - AP2050_WLMIN;
      center := AP2050_WLMIN + (AP2050_WLMAX - AP2050_WLMIN) / 2.0;
    }

    /** `SetStartWavelength`: a number in [AP2050_WLMIN, AP2050_WLMAX] becomes the start; span and center follow. */
    method SetStartWavelength(wavelength: Value) returns (r: Result<(), Failure>)
      modifies this`startWavelength, this`span, this`center, link
      ensures link.open == old(link.open)
      ensures match NumberIn(wavelength, AP2050_WLMIN, AP2050_WLMAX, "Wavelength")
        case Err(e) => r == Err(e) && CurrentWindow() == old(CurrentWindow()) && link.sent == old(link.sent)
        case Ok(x) => (r == Ok(()) && CurrentWindow() == WithStart(old(CurrentWindow()), x)
          && link.sent == old(link.sent) + Unless(simulation, "SPSTRTWL" + ToStr(py, wavelength) + "\n"))
    {
      match NumberIn(wavelength, AP2050_WLMIN, AP2050_WLMAX, "Wavelength")
      case Err(e) => return Err(e);
      case Ok(x) =>
        Emit(link, simulation, "SPSTRTWL" + ToStr(py, wavelength) + "\n");
        startWavelength := x;
        span := stopWavelength - startWavelength;
        center := startWavelength + span / 2.0;
        return Ok(());
    }

    /** `SetStopWavelength`: a number in [AP2050_WLMIN, AP2050_WLMAX] becomes the stop; span and center follow. */
    method SetStopWavelength(wavelength: Value) returns (r: Result<(), Failure>)
      modifies this`stopWavelength, this`span, this`center, link
      ensures link.open == old(link.open)
      ensures match NumberIn(wavelength, AP2050_WLMIN, AP2050_WLMAX, "Wavelength")
        case Err(e) => r == Err(e) && CurrentWindow() == old(CurrentWindow()) && link.sent == old(link.sent)
        case Ok(x) => (r == Ok(()) && CurrentWindow() == WithStop(old(CurrentWindow()), x)
          && link.sent == old(link.sent) + Unless(simulation, "SPSTOPWL" + ToStr(py, wavelength) + "\n"))
    {
      match NumberIn(wavelength, AP2050_WLMIN, AP2050_WLMAX, "Wavelength")
      case Err(e) => return Err(e);
      case Ok(x) =>
        Emit(link, simulation, "SPSTOPWL" + ToStr(py, wavelength) + "\n");
        stopWavelength := x;
        span := stopWavelength - startWavelength;
        center := startWavelength + span / 2.0;
        return Ok(());
    }

    /**
     * `SetSpan`: a number in [AP2050_MINSPAN, AP2050_MAXSPAN] is written; the update that follows
     * reads the undefined name `Wavelength`, so the call then fails and nothing is cached.
     */
    method SetSpan(s: Value) returns (r: Result<(), Failure>)
      modifies link
      ensures link.open == old(link.open)
      ensures match NumberIn(s, AP2050_MINSPAN, AP2050_MAXSPAN, "Span")
        case Err(e) => r == Err(e) && link.sent == old(link.sent)
        case Ok(_) => (r == Err(NameError("Wavelength"))
          && link.sent == old(link.sent) + Unless(simulation, "SPSPANWL" + ToStr(py, s) + "\n"))
    {
      match NumberIn(s, AP2050_MINSPAN, AP2050_MAXSPAN, "Span")
      case Err(e) => return Err(e);
      case Ok(_) =>
        Emit(link, simulation, "SPSPANWL" + ToStr(py, s) + "\n");
        return Err(NameError("Wavelength"));
    }

    /** `GetStartWavelength`: the reply, or "1526.000\n" in simulation, read as a number. */
    method GetStartWavelength(reply: string) returns (r: Result<real, Failure>)
      modifies link
      ensures link.open == old(link.open)
      ensures link.sent == old(link.sent) + Unless(simulation, "SPSTRTWL?\n")
      ensures simulation ==> r == ReadReal(py, SimuAP2050_StartWavelength)
      ensures !simulation ==> r == ReadReal(py, reply)
    {
      Emit(link, simulation, "SPSTRTWL?\n");
      return ReadReal(py, if simulation then SimuAP2050_StartWavelength else reply);
    }

    /**
     * `GetStopWavelength`: the reply read as a number; in simulation it reads the simulated
     * start wavelength, so it answers what `GetStartWavelength` answers.
     */
    method GetStopWavelength(reply: string) returns (r: Result<real, Failure>)
      modifies link
      ensures link.open == old(link.open)
      ensures link.sent == old(link.sent) + Unless(simulation, "SPSTOPWL?\n")
      ensures simulation ==> r == ReadReal(py, SimuAP2050_StartWavelength)
      ensures !simulation ==> r == ReadReal(py, reply)
    {
      Emit(link, simulation, "SPSTOPWL?\n");
      return ReadReal(py, if simulation then SimuAP2050_StartWavelength else reply);
    }
  }
}
