/**
 * The fast-sweep OSA embedded in an AP2XXX (`OsaFs` in AP2XXX/osafs.py). Its window setters check
 * only the type of their argument; span and center are set by writing both ends and reading them
 * back from the instrument, so after a read the cached span and center may lag behind the ends.
 */
module OsaFs {
  import opened Wrappers
  import opened Text
  import opened Python
  import opened Errors
  import opened MeasurementWindow
  import opened Transport
  import opened Spectrum

  /** What slicing a cached float raises: the simulated getters read `self.StartWavelength[:-1]`. */
  const FloatSliceError: Failure := TypeError("'float' object is not subscriptable")

  /**
   * The two ends `SetSpan` writes, as the code computes them: the start is the center minus half
   * the span, and the stop is again "center minus half the span", read after the start setter has
   * already moved the center.
   */
  function SpanTargetsAsWritten(w: Window, s: real): (ends: (real, real))
    ensures ends.0 == w.center - s / 2.0
    ensures ends.1 == WithStart(w, ends.0).center - s / 2.0
  {
    var a := w.center - s / 2.0;
    (a, WithStart(w, a).center - s / 2.0)
  }

  /** The two ends `SetCenter` writes, as the code computes them (the span is read after the start moved). */
  function CenterTargetsAsWritten(w: Window, c: real): (ends: (real, real))
    ensures ends.0 == c - w.span / 2.0
    ensures ends.1 == c - WithStart(w, ends.0).span / 2.0
  {
    var a := c - w.span / 2.0;
    (a, c - WithStart(w, a).span / 2.0)
  }

  /** On the default window 1530..1560 nm, a span of 10 nm writes the ends 1540 and 1545: a 5 nm window. */
  lemma SpanTargetsAsWrittenHalveTheSpan()
    ensures SpanTargetsAsWritten(Between(1530.0, 1560.0), 10.0) == (1540.0, 1545.0)
    ensures Between(1540.0, 1545.0).span != 10.0
  {
  }

  /** On the default window, centering on 1550 nm writes the ends 1535 and 1537.5 instead of 1535 and 1565. */
  lemma CenterTargetsAsWrittenMissTheCenter()
    ensures CenterTargetsAsWritten(Between(1530.0, 1560.0), 1550.0) == (1535.0, 1537.5)
    ensures Between(1535.0, 1537.5).center != 1550.0
  {
  }

  /** The ends `SetSpan` is meant to write: the span `s` around the current center. */
  function SpanTargets(w: Window, s: real): (ends: (real, real))
    ensures ends.1 - ends.0 == s
    ensures Consistent(w) ==> (ends.0 + ends.1) / 2.0 == w.center
    ensures Between(ends.0, ends.1) == WithSpan(w, s)
  {
    (w.center - s / 2.0, w.center + s / 2.0)
  }

  /** The ends `SetCenter` is meant to write: the current span around the center `c`. */
  function CenterTargets(w: Window, c: real): (ends: (real, real))
    ensures (ends.0 + ends.1) / 2.0 == c
    ensures Consistent(w) ==> ends.1 - ends.0 == w.stop - w.start
    ensures Between(ends.0, ends.1) == WithCenter(w, c)
  {
    (c - w.span / 2.0, c + w.span / 2.0)
  }

  /** `SetOSAMode` normalisation: "fast" is 1 and other strings 2; a number other than 2 is 1. */
  function FastSweepMode(mode: Value): (r: Result<Value, Failure>)
    ensures r.Ok? <==> mode.Str? || IsNumber(mode)
    ensures r.Err? ==> r.error == Apex(ARGUMENT_TYPE, "Mode")
    ensures r.Ok? ==> EqualsInt(r.value, 1) || EqualsInt(r.value, 2)
    ensures r.Ok? ==> (EqualsInt(r.value, 1) <==> if mode.Str? then Lower(mode.s) == "fast" else !EqualsInt(mode, 2))
  {
    match mode
    case Str(s) => Ok(if Lower(s) == "fast" then Int(1) else Int(2))
    case Int(_) => Ok(if EqualsInt(mode, 2) then mode else Int(1))
    case Float(_) => Ok(if EqualsInt(mode, 2) then mode else Int(1))
    case Bool(_) => Ok(Int(1))
    case NoneValue => Err(Apex(ARGUMENT_TYPE, "Mode"))
    case Object(_) => Err(Apex(ARGUMENT_TYPE, "Mode"))
  }

  /** `GetOSAMode` with Type 's': the name of a mode code. */
  function ModeName(mode: Value): (name: string)
    ensures name == "Fast" <==> EqualsInt(mode, 1)
    ensures name == "Sensitive" <==> EqualsInt(mode, 2)
    ensures name in {"Fast", "Sensitive", "Unknown Mode"}
  {
    if EqualsInt(mode, 1) then "Fast" else if EqualsInt(mode, 2) then "Sensitive" else "Unknown Mode"
  }

  /** A mode `SetOSAMode` accepts is stored in normal form and always has a name. */
  lemma FastSweepModeNamed(mode: Value)
    requires FastSweepMode(mode).Ok?
    ensures FastSweepMode(FastSweepMode(mode).value) == FastSweepMode(mode)
    ensures ModeName(FastSweepMode(mode).value) != "Unknown Mode"
    ensures ModeName(FastSweepMode(Str("Fast")).value) == "Fast" && ModeName(FastSweepMode(Str("Sensitive")).value) == "Sensitive"
  {
  }

  /** `GetOSAMode` as written: the misspelt `isintance` is an undefined name, raised on every call. */
  function GetModeAsWritten(kind: Value): (r: Result<Value, Failure>)
    ensures r.Err? && r.error.NameError?
  {
    Err(NameError("isintance"))
  }

  /** The documented calls with Type 'd' and 's' both fail as written. */
  lemma GetModeAsWrittenAlwaysFails()
    ensures GetModeAsWritten(Str("d")) == GetModeAsWritten(Str("s")) == Err(NameError("isintance"))
  {
  }

  /** The `Run` command: "repeat" or the number 2 repeat, every other string or number is a single sweep. */
  function RunCommand(kind: Value): (r: Result<string, Failure>)
    ensures r.Ok? <==> kind.Str? || IsNumber(kind)
    ensures r.Ok? ==> r.value in {"OSAFSRUN1\n", "OSAFSRUN2\n"}
    ensures r.Ok? ==> (r.value == "OSAFSRUN2\n" <==> if kind.Str? then Lower(kind.s) == "repeat" else EqualsInt(kind, 2))
    ensures r.Err? ==> r.error == NameError("APXXXX_ERROR_ARGUMENT_TYPE")
  {
    match kind
    case Str(s) => Ok(if Lower(s) == "repeat" then "OSAFSRUN2\n" else "OSAFSRUN1\n")
    case NoneValue => Err(NameError("APXXXX_ERROR_ARGUMENT_TYPE"))
    case Object(_) => Err(NameError("APXXXX_ERROR_ARGUMENT_TYPE"))
    case _ => Ok(if EqualsInt(kind, 2) then "OSAFSRUN2\n" else "OSAFSRUN1\n")
  }

  /** The simulated sweep: `n` points on the evenly spaced grid from `start` toward `stop`, Y drawn by `sample`. */
  predicate SweepData(data: (seq<real>, seq<real>), start: real, stop: real, n: int, sample: int -> real)
  {
    |data.0| == |data.1| == n
    && forall i :: 0 <= i < n ==> data.0[i] == sample(i) && data.1[i] == start + i as real * ((stop - start) / n as real)
  }

  class OsaFs {
    const link: Connexion
    const simulation: bool
    const py: Conv

    var startWavelength: real
    var stopWavelength: real
    var span: real
    var center: real
    var mode: Value

    /** The cached measurement window. */
    function CurrentWindow(): Window
      reads this
    {
      Window(startWavelength, stopWavelength, span, center)
    }

    /** The constructor: 1530..1560 nm in high-sensitivity mode, on the connection of the equipment. */
    constructor (link: Connexion, simulation: bool, py: Conv)
      ensures this.link == link && this.simulation == simulation && this.py == py
      ensures CurrentWindow() == Between(1530.0, 1560.0) && mode == Int(2)
    {
      this.link := link;
      this.simulation := simulation;
      this.py := py;
      startWavelength := 1530.0;
      stopWavelength := 1560.0;
      span := 1560.0 - 1530.0;
      center := 1530.0 + (1560.0 - 1530.0) / 2.0;
      mode := Int(2);
    }

    /** `SetStartWavelength`: any number (no range check) becomes the start; span and center follow. */
    method SetStartWavelength(wavelength: Value) returns (r: Result<(), Failure>)
      modifies this`startWavelength, this`span, this`center, link
      ensures link.open == old(link.open)
      ensures !IsNumber(wavelength) ==>
        r == Err(Apex(ARGUMENT_TYPE, "Wavelength")) && CurrentWindow() == old(CurrentWindow()) && link.sent == old(link.sent)
      ensures IsNumber(wavelength) ==>
        r == Ok(()) && CurrentWindow() == WithStart(old(CurrentWindow()), Number(wavelength))
        && link.sent == old(link.sent) + Unless(simulation, "OSAFSSTARTWL" + ToStr(py, wavelength) + "\n")
    {
      if !IsNumber(wavelength) {
        return Err(Apex(ARGUMENT_TYPE, "Wavelength"));
      }
      Emit(link, simulation, "OSAFSSTARTWL" + ToStr(py, wavelength) + "\n");
      startWavelength := Number(wavelength);
      span := stopWavelength - startWavelength;
      center := startWavelength + span / 2.0;
      return Ok(());
    }

    /** `SetStopWavelength`: any number (no range check) becomes the stop; span and center follow. */
    method SetStopWavelength(wavelength: Value) returns (r: Result<(), Failure>)
      modifies this`stopWavelength, this`span, this`center, link
      ensures link.open == old(link.open)
      ensures !IsNumber(wavelength) ==>
        r == Err(Apex(ARGUMENT_TYPE, "Wavelength")) && CurrentWindow() == old(CurrentWindow()) && link.sent == old(link.sent)
      ensures IsNumber(wavelength) ==>
        r == Ok(()) && CurrentWindow() == WithStop(old(CurrentWindow()), Number(wavelength))
        && link.sent == old(link.sent) + Unless(simulation, "OSAFSSTOPWL" + ToStr(py, wavelength) + "\n")
    {
      if !IsNumber(wavelength) {
        return Err(Apex(ARGUMENT_TYPE, "Wavelength"));
      }
      Emit(link, simulation, "OSAFSSTOPWL" + ToStr(py, wavelength) + "\n");
      stopWavelength := Number(wavelength);
      span := stopWavelength - startWavelength;
      center := startWavelength + span / 2.0;
      return Ok(());
    }

    /** `GetStartWavelength`: the instrument's start; in simulation the cached float is sliced, which fails. */
    method GetStartWavelength(reply: string) returns (r: Result<real, Failure>)
      modifies link
      ensures link.open == old(link.open)
      ensures simulation ==> r == Err(FloatSliceError) && link.sent == old(link.sent)
      ensures !simulation ==> r == ReadReal(py, reply) && link.sent == old(link.sent) + ["OSAFSSTARTWL?\n"]
    {
      if simulation {
        return Err(FloatSliceError);
      }
      link.Send("OSAFSSTARTWL?\n");
      return ReadReal(py, reply);
    }

    /** `GetStopWavelength`: the instrument's stop; in simulation the cached float is sliced, which fails. */
    method GetStopWavelength(reply: string) returns (r: Result<real, Failure>)
      modifies link
      ensures link.open == old(link.open)
      ensures simulation ==> r == Err(FloatSliceError) && link.sent == old(link.sent)
      ensures !simulation ==> r == ReadReal(py, reply) && link.sent == old(link.sent) + ["OSAFSSTOPWL?\n"]
    {
      if simulation {
        return Err(FloatSliceError);
      }
      link.Send("OSAFSSTOPWL?\n");
      return ReadReal(py, reply);
    }

    /**
     * The reload shared by the span and center methods: the stop is read and cached, then the
     * start; span and center are left as they were.
     */
    method Reload(stopReply: string, startReply: string) returns (r: Result<(), Failure>)
      modifies this`startWavelength, this`stopWavelength, link
      ensures link.open == old(link.open)
      ensures simulation ==>
        r == Err(FloatSliceError) && CurrentWindow() == old(CurrentWindow()) && link.sent == old(link.sent)
      ensures !simulation && ReadReal(py, stopReply).Err? ==>
        r == Err(ReadReal(py, stopReply).error) && CurrentWindow() == old(CurrentWindow())
        && link.sent == old(link.sent) + ["OSAFSSTOPWL?\n"]
      ensures !simulation && ReadReal(py, stopReply).Ok? ==>
        stopWavelength == ReadReal(py, stopReply).value
        && link.sent == old(link.sent) + ["OSAFSSTOPWL?\n", "OSAFSSTARTWL?\n"]
        && (r.Ok? <==> ReadReal(py, startReply).Ok?)
        && (r.Ok? ==> startWavelength == ReadReal(py, startReply).value)
        && (r.Err? ==> r == Err(ReadReal(py, startReply).error) && startWavelength == old(startWavelength))
      ensures span == old(span) && center == old(center)
      ensures r.Ok? ==> r == Ok(())
    {
      var stop := GetStopWavelength(stopReply);
      if stop.Err? {
        return Err(stop.error);
      }
      stopWavelength := stop.value;
      var start := GetStartWavelength(startReply);
      if start.Err? {
        return Err(start.error);
      }
      startWavelength := start.value;
      return Ok(());
    }

    /**
     * `SetSpan`, with the stop written at center plus half the span (see `SpanTargetsAsWritten`
     * for the code's stop): both ends are written, read back, and span and center recomputed
     * from what the instrument reports.
     */
    method SetSpan(s: Value, stopReply: string, startReply: string) returns (r: Result<(), Failure>)
      modifies this`startWavelength, this`stopWavelength, this`span, this`center, link
      ensures link.open == old(link.open)
      ensures !IsNumber(s) ==>
        r == Err(Apex(ARGUMENT_TYPE, "Span")) && CurrentWindow() == old(CurrentWindow()) && link.sent == old(link.sent)
      ensures IsNumber(s) ==>
        var ends := SpanTargets(old(CurrentWindow()), Number(s));
        link.sent == old(link.sent) + Unless(simulation, "OSAFSSTARTWL" + ToStr(py, Float(ends.0)) + "\n")
             + Unless(simulation, "OSAFSSTOPWL" + ToStr(py, Float(ends.1)) + "\n") + ReloadQueries(stopReply)
        && ReloadOutcome(r, ends, stopReply, startReply)
    {
      if !IsNumber(s) {
        return Err(Apex(ARGUMENT_TYPE, "Span"));
      }
      var ends := SpanTargets(CurrentWindow(), Number(s));
      r := WriteEndsAndReload(ends, stopReply, startReply);
    }

    /**
     * `SetCenter`, with the stop written at the center plus half the span (see
     * `CenterTargetsAsWritten` for the code's stop); then as `SetSpan`.
     */
    method SetCenter(c: Value, stopReply: string, startReply: string) returns (r: Result<(), Failure>)
      modifies this`startWavelength, this`stopWavelength, this`span, this`center, link
      ensures link.open == old(link.open)
      ensures !IsNumber(c) ==>
        r == Err(Apex(ARGUMENT_TYPE, "Center")) && CurrentWindow() == old(CurrentWindow()) && link.sent == old(link.sent)
      ensures IsNumber(c) ==>
        var ends := CenterTargets(old(CurrentWindow()), Number(c));
        link.sent == old(link.sent) + Unless(simulation, "OSAFSSTARTWL" + ToStr(py, Float(ends.0)) + "\n")
             + Unless(simulation, "OSAFSSTOPWL" + ToStr(py, Float(ends.1)) + "\n") + ReloadQueries(stopReply)
        && ReloadOutcome(r, ends, stopReply, startReply)
    {
      if !IsNumber(c) {
        return Err(Apex(ARGUMENT_TYPE, "Center"));
      }
      var ends := CenterTargets(CurrentWindow(), Number(c));
      r := WriteEndsAndReload(ends, stopReply, startReply);
    }

    /** The queries a reload sends: none in simulation, and the start is not asked for when the stop reply is bad. */
    function ReloadQueries(stopReply: string): (cmds: seq<string>)
      reads this
      ensures simulation ==> cmds == []
      ensures !simulation ==> 1 <= |cmds| <= 2 && cmds[0] == "OSAFSSTOPWL?\n"
    {
      if simulation then []
      else if ReadReal(py, stopReply).Err? then ["OSAFSSTOPWL?\n"]
      else ["OSAFSSTOPWL?\n", "OSAFSSTARTWL?\n"]
    }

    /**
     * The state after both ends were written and reloaded: with both replies good, the window the
     * instrument reports; otherwise the written ends, with the stop already replaced when only the
     * start reply is bad.
     */
    predicate ReloadOutcome(r: Result<(), Failure>, ends: (real, real), stopReply: string, startReply: string)
      reads this
    {
      var written := Between(ends.0, ends.1);
      if simulation then r == Err(FloatSliceError) && CurrentWindow() == written
      else
        var stop, start := ReadReal(py, stopReply), ReadReal(py, startReply);
        if stop.Err? then r == Err(stop.error) && CurrentWindow() == written
        else if start.Err? then r == Err(start.error) && CurrentWindow() == written.(stop := stop.value)
        else r == Ok(()) && CurrentWindow() == Between(start.value, stop.value)
    }

    /** Writes the two ends through the setters, reloads them and recomputes span and center. */
    method WriteEndsAndReload(ends: (real, real), stopReply: string, startReply: string) returns (r: Result<(), Failure>)
      modifies this`startWavelength, this`stopWavelength, this`span, this`center, link
      ensures link.open == old(link.open)
      ensures link.sent == old(link.sent) + Unless(simulation, "OSAFSSTARTWL" + ToStr(py, Float(ends.0)) + "\n")
        + Unless(simulation, "OSAFSSTOPWL" + ToStr(py, Float(ends.1)) + "\n") + ReloadQueries(stopReply)
      ensures ReloadOutcome(r, ends, stopReply, startReply)
    {
      var _ := SetStartWavelength(Float(ends.0));
      var _ := SetStopWavelength(Float(ends.1));
      assert CurrentWindow() == Between(ends.0, ends.1);
      r := Reload(stopReply, startReply);
      if r.Ok? {
        span := stopWavelength - startWavelength;
        center := startWavelength + span / 2.0;
      }
    }

    /** `GetSpan`: both ends are reloaded and cached; the span is their distance. */
    method GetSpan(stopReply: string, startReply: string) returns (r: Result<real, Failure>)
      modifies this`startWavelength, this`stopWavelength, link
      ensures link.open == old(link.open) && link.sent == old(link.sent) + ReloadQueries(stopReply)
      ensures span == old(span) && center == old(center)
      ensures r.Ok? <==> !simulation && ReadReal(py, stopReply).Ok? && ReadReal(py, startReply).Ok?
      ensures simulation ==> r == Err(FloatSliceError) && CurrentWindow() == old(CurrentWindow())
      ensures !simulation && ReadReal(py, stopReply).Err? ==>
        r == Err(ReadReal(py, stopReply).error) && CurrentWindow() == old(CurrentWindow())
      ensures !simulation && ReadReal(py, stopReply).Ok? && ReadReal(py, startReply).Err? ==>
        r == Err(ReadReal(py, startReply).error) && stopWavelength == ReadReal(py, stopReply).value
        && startWavelength == old(startWavelength)
      ensures r.Ok? ==>
        startWavelength == ReadReal(py, startReply).value && stopWavelength == ReadReal(py, stopReply).value
        && r.value == stopWavelength - startWavelength
    {
      var reloaded := Reload(stopReply, startReply);
      if reloaded.Err? {
        return Err(reloaded.error);
      }
      return Ok(stopWavelength - startWavelength);
    }

    /** `GetCenter`: both ends are reloaded and cached; the center is their midpoint. */
    method GetCenter(stopReply: string, startReply: string) returns (r: Result<real, Failure>)
      modifies this`startWavelength, this`stopWavelength, link
      ensures link.open == old(link.open) && link.sent == old(link.sent) + ReloadQueries(stopReply)
      ensures span == old(span) && center == old(center)
      ensures r.Ok? <==> !simulation && ReadReal(py, stopReply).Ok? && ReadReal(py, startReply).Ok?
      ensures simulation ==> r == Err(FloatSliceError) && CurrentWindow() == old(CurrentWindow())
      ensures !simulation && ReadReal(py, stopReply).Err? ==>
        r == Err(ReadReal(py, stopReply).error) && CurrentWindow() == old(CurrentWindow())
      ensures !simulation && ReadReal(py, stopReply).Ok? && ReadReal(py, startReply).Err? ==>
        r == Err(ReadReal(py, startReply).error) && stopWavelength == ReadReal(py, stopReply).value
        && startWavelength == old(startWavelength)
      ensures r.Ok? ==>
        startWavelength == ReadReal(py, startReply).value && stopWavelength == ReadReal(py, stopReply).value
        && r.value == Between(startWavelength, stopWavelength).center
    {
      var reloaded := Reload(stopReply, startReply);
      if reloaded.Err? {
        return Err(reloaded.error);
      }
      return Ok((stopWavelength + startWavelength) / 2.0);
    }

    /** `SetOSAMode`: the normalised mode is written and cached. */
    method SetOSAMode(m: Value) returns (r: Result<(), Failure>)
      modifies this`mode, link
      ensures link.open == old(link.open)
      ensures match FastSweepMode(m)
        case Err(e) => r == Err(e) && mode == old(mode) && link.sent == old(link.sent)
        case Ok(v) => (r == Ok(()) && mode == v && link.sent == old(link.sent) + Unless(simulation, "OSAFSMODE" + ToStr(py, v) + "\n"))
    {
      match FastSweepMode(m)
      case Err(e) => return Err(e);
      case Ok(v) =>
        Emit(link, simulation, "OSAFSMODE" + ToStr(py, v) + "\n");
        mode := v;
        return Ok(());
    }

    /**
     * `GetOSAMode` once its type check reads `isinstance` (see `GetModeAsWritten`): a string
     * Type is required; the instrument's mode is read and cached outside simulation; 's' gives the
     * mode's name and any other Type the code itself.
     */
    method GetOSAMode(kind: Value, reply: string) returns (r: Result<Value, Failure>)
      modifies this`mode, link
      ensures link.open == old(link.open)
      ensures !kind.Str? ==> r == Err(Apex(ARGUMENT_TYPE, "Type")) && mode == old(mode) && link.sent == old(link.sent)
      ensures kind.Str? ==> link.sent == old(link.sent) + Unless(simulation, "OSAFSMODE?\n")
      ensures kind.Str? && !simulation && py.parseInt(DropLast(reply)).None? ==>
        r == Err(ValueError("int")) && mode == old(mode)
      ensures kind.Str? && !simulation && py.parseInt(DropLast(reply)).Some? ==>
        mode == Int(py.parseInt(DropLast(reply)).value)
      ensures kind.Str? && simulation ==> mode == old(mode)
      ensures kind.Str? && (simulation || py.parseInt(DropLast(reply)).Some?) ==>
        r == Ok(if Lower(kind.s) == "s" then Str(ModeName(mode)) else mode)
    {
      if !kind.Str? {
        return Err(Apex(ARGUMENT_TYPE, "Type"));
      }
      if !simulation {
        link.Send("OSAFSMODE?\n");
        match py.parseInt(DropLast(reply)) {
          case None => return Err(ValueError("int"));
          case Some(n) => mode := Int(n);
        }
      }
      if Lower(kind.s) == "s" {
        return Ok(Str(ModeName(mode)));
      }
      return Ok(mode);
    }

    /** `Run`: the command chosen by `RunCommand`, written outside simulation. */
    method Run(kind: Value) returns (r: Result<(), Failure>)
      modifies link
      ensures link.open == old(link.open)
      ensures match RunCommand(kind)
        case Err(e) => r == Err(e) && link.sent == old(link.sent)
        case Ok(cmd) => r == Ok(()) && link.sent == old(link.sent) + Unless(simulation, cmd)
    {
      match RunCommand(kind)
      case Err(e) => return Err(e);
      case Ok(cmd) =>
        Emit(link, simulation, cmd);
        return Ok(());
    }

    /** `Stop`: the fixed command "OSAFSSTOP". */
    method Stop()
      modifies link
      ensures link.sent == old(link.sent) + Unless(simulation, "OSAFSSTOP\n") && link.open == old(link.open)
    {
      Emit(link, simulation, "OSAFSSTOP\n");
    }

    /**
     * `GetNPoints`: an int trace number in 0..6; the integer reply, 0 when it is not one. In
     * simulation the count is `drawn`, the value of `randint(400, 600)`.
     */
    method GetNPoints(trace: Value, reply: string, drawn: int) returns (r: Result<int, Failure>)
      requires 400 <= drawn <= 600
      modifies link
      ensures link.open == old(link.open)
      ensures TraceCheck(trace).Some? ==> r == Err(TraceCheck(trace).value) && link.sent == old(link.sent)
      ensures TraceCheck(trace).None? && simulation ==> r == Ok(drawn) && link.sent == old(link.sent)
      ensures TraceCheck(trace).None? && !simulation ==>
        link.sent == old(link.sent) + ["OSAFSPOINTS" + IntToString(Trunc(Number(trace))) + "\n"]
        && r == Ok(match py.parseInt(DropLast(reply)) case Some(n) => n case None => 0)
    {
      match TraceCheck(trace) {
        case Some(e) => return Err(e);
        case None =>
      }
      if simulation {
        return Ok(drawn);
      }
      link.Send("OSAFSPOINTS" + IntToString(Trunc(Number(trace))) + "\n");
      match py.parseInt(DropLast(reply)) {
        case Some(n) => r := Ok(n);
        case None => r := Ok(0);
      }
    }

    /** The two data requests of `GetData`: the levels, then the wavelengths, each parsed. */
    method FetchTrace(dataCommand: string, axisCommand: string, yReply: string, xReply: string)
      returns (ys: seq<real>, xs: seq<real>)
      modifies link
      ensures link.open == old(link.open) && link.sent == old(link.sent) + [dataCommand, axisCommand]
      ensures ys == DataValues(py, DataTokens(yReply)) && xs == DataValues(py, DataTokens(xReply))
    {
      link.Send(dataCommand);
      ys := ParseData(py, DataTokens(yReply));
      link.Send(axisCommand);
      xs := ParseData(py, DataTokens(xReply));
    }

    /** `GetData` asks for the number of points of trace 1, which passes the trace check. */
    lemma PointsOfFirstTrace()
      ensures TraceCheck(Int(1)).None?
      ensures "OSAFSPOINTS" + IntToString(Trunc(Number(Int(1)))) + "\n" == "OSAFSPOINTS1\n"
    {
      assert IntToString(1) == "1";
    }

    /**
     * `GetData`: a string scale and a number trace in 0..6. Outside simulation every token of the
     * Y and X replies becomes a number (0.0 when it is not one) and nothing is dropped; in
     * simulation the X axis is the evenly spaced grid over the cached window.
     */
    method GetData(scale: Value, trace: Value, nPointsReply: string, yReply: string, xReply: string, drawn: int, sample: int -> real)
      returns (r: Result<(seq<real>, seq<real>), Failure>)
      requires 400 <= drawn <= 600
      modifies link
      ensures link.open == old(link.open)
      ensures !scale.Str? ==> r == Err(Apex(ARGUMENT_TYPE, "Scale")) && link.sent == old(link.sent)
      ensures scale.Str? && !IsNumber(trace) ==> r == Err(Apex(ARGUMENT_TYPE, "TraceNumber")) && link.sent == old(link.sent)
      ensures scale.Str? && IsNumber(trace) && !(0.0 <= Number(trace) <= 6.0) ==>
        r == Err(Apex(ARGUMENT_VALUE, "TraceNumber")) && link.sent == old(link.sent)
      ensures scale.Str? && IsNumber(trace) && 0.0 <= Number(trace) <= 6.0 && !simulation ==>
        var t := IntToString(Trunc(Number(trace)));
        r == Ok((DataValues(py, DataTokens(yReply)), DataValues(py, DataTokens(xReply))))
        && link.sent == old(link.sent)
           + ["OSAFSPOINTS1\n", (if Lower(scale.s) == "lin" then "OSAFSDATAL" else "OSAFSDATAD") + t + "\n", "OSAFSDATAWL" + t + "\n"]
      ensures scale.Str? && IsNumber(trace) && 0.0 <= Number(trace) <= 6.0 && simulation ==>
        link.sent == old(link.sent) && r.Ok? && SweepData(r.value, startWavelength, stopWavelength, drawn, sample)
    {
      if !scale.Str? {
        return Err(Apex(ARGUMENT_TYPE, "Scale"));
      }
      if !IsNumber(trace) {
        return Err(Apex(ARGUMENT_TYPE, "TraceNumber"));
      }
      if !(0.0 <= Number(trace) <= 6.0) {
        return Err(Apex(ARGUMENT_VALUE, "TraceNumber"));
      }
      PointsOfFirstTrace();
      ghost var sent0 := link.sent;
      var nPoints := GetNPoints(Int(1), nPointsReply, drawn);
      if simulation {
        var sim := SimulatedTrace(startWavelength, stopWavelength, nPoints.value, sample);
        return sim;
      }
      var t := IntToString(Trunc(Number(trace)));
      var ys, xs := FetchTrace((if Lower(scale.s) == "lin" then "OSAFSDATAL" else "OSAFSDATAD") + t + "\n",
                               "OSAFSDATAWL" + t + "\n", yReply, xReply);
      return Ok((ys, xs));
    }
  }
}
