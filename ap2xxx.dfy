/**
 * The AP2XXX optical spectrum analyser (`AP2XXX` in AP2XXX/__init__.py; the class `OSA` of
 * AP2XXX/osa.py has the same methods, line for line). The object caches the measurement window
 * and the display options; every setter checks its argument first and changes nothing when
 * the check fails, and every command is written to the connection only outside simulation.
 */
module AP2XXX {
  import opened Wrappers
  import opened Text
  import opened Python
  import opened Errors
  import opened Validation
  import opened MeasurementWindow
  import opened Transport
  import opened Spectrum

  /**
   * The `AP2XXX_*` constants the driver imports and the simulated replies it reads. They are
   * not part of `Constantes.py`, so they are parameters of the model.
   */
  datatype Limits = Limits(
    wlMin: real, wlMax: real,
    minSpan: real, maxSpan: real,
    minCenter: real, maxCenter: real,
    minYRes: real, maxYRes: real,
    minNPts: int, maxNPts: int,
    badFilename: int,    // APXXXX_ERROR_BAD_FILENAME
    simNPoints: string,  // SimuAP2XXX_NPoints
    simStart: real,      // SimuAP2XXX_StartWavelength
    simStop: real)       // SimuAP2XXX_StopWavelength

  /** The peaks the simulated `FindPeak` finds. */
  const SimulatedPeaks: seq<real> := [1545.0, 1550.0, 1555.0]

  /** The line width the simulated `LineWidth` measures: width, center, level. */
  const SimulatedLineWidth: seq<real> := [0.1, 1550.0, 2.25]

  /** The tokens of a marker reply: its last character removed, split on spaces, first token dropped. */
  function MarkerTokens(reply: string): (ts: seq<string>)
    ensures |ts| == |Split(DropLast(reply), ' ')| - 1
  {
    Split(DropLast(reply), ' ')[1..]
  }

  /** The Y-data query of `GetData`: linear ("lin") or logarithmic data of the truncated trace number. */
  function TraceCommand(scale: string, trace: Value): string
    requires IsNumber(trace)
  {
    (if Lower(scale) == "lin" then "SPDATAL" else "SPDATAD") + IntToString(Trunc(Number(trace))) + "\n"
  }

  /**
   * The simulated data without its first point: `n - 1` points (none for a negative count), X on
   * the evenly spaced grid from the simulated start, Y drawn by `sample`.
   */
  predicate SimulatedData(data: (seq<real>, seq<real>), lim: Limits, n: int, sample: int -> real)
  {
    |data.0| == |data.1| == (if n < 1 then 0 else n - 1)
    && forall i :: 0 <= i < |data.1| ==>
         data.0[i] == sample(i + 1)
         && data.1[i] == lim.simStart + (i + 1) as real * ((lim.simStop - lim.simStart) / n as real)
  }

  /** Dropping the first point of a simulated trace of `n` points leaves `SimulatedData`. */
  lemma SimulatedDataDropsFirst(ys: seq<real>, xs: seq<real>, lim: Limits, n: int, sample: int -> real)
    requires n != 0 && |ys| == |xs| == (if n < 0 then 0 else n)
    requires forall i :: 0 <= i < |xs| ==>
      ys[i] == sample(i) && xs[i] == lim.simStart + i as real * ((lim.simStop - lim.simStart) / n as real)
    ensures SimulatedData((DropFirst(ys), DropFirst(xs)), lim, n, sample)
  {
  }

  class AP2XXX {
    const link: Connexion
    const simulation: bool
    const py: Conv
    const lim: Limits

    var startWavelength: real
    var stopWavelength: real
    var span: real
    var center: real
    var noiseMaskValue: Value
    var scaleXUnit: Value
    var scaleYUnit: Value
    var polarizationMode: Value

    /** The cached measurement window. */
    function CurrentWindow(): Window
      reads this
    {
      Window(startWavelength, stopWavelength, span, center)
    }

    /** Span and center agree with the two ends. */
    predicate Valid()
      reads this
    {
      Consistent(CurrentWindow())
    }

    /** The constructor: the widest window and the default options; the connection is given. */
    constructor (link: Connexion, simulation: bool, py: Conv, lim: Limits)
      ensures this.link == link && this.simulation == simulation && this.py == py && this.lim == lim
      ensures CurrentWindow() == Between(lim.wlMin, lim.wlMax) && Valid()
      ensures noiseMaskValue == Int(-70) && scaleXUnit == Int(1) && scaleYUnit == Int(1)
      ensures polarizationMode == Int(0)
    {
      this.link := link;
      this.simulation := simulation;
      this.py := py;
      this.lim := lim;
      startWavelength := lim.wlMin;
      stopWavelength := lim.wlMax;
      span := lim.wlMax - lim.wlMin;
      center := lim.wlMin + (lim.wlMax - lim.wlMin) / 2.0;
      noiseMaskValue := Int(-70);
      scaleXUnit := Int(1);
      scaleYUnit := Int(1);
      polarizationMode := Int(0);
    }

    /** `SetStartWavelength`: a number in [WLMIN, WLMAX] becomes the start; span and center follow. */
    method SetStartWavelength(wavelength: Value) returns (r: Result<(), Failure>)
      requires Valid()
      modifies this`startWavelength, this`span, this`center, link
      ensures Valid() && link.open == old(link.open)
      ensures match NumberIn(wavelength, lim.wlMin, lim.wlMax, "Wavelength")
        case Err(e) => r == Err(e) && CurrentWindow() == old(CurrentWindow()) && link.sent == old(link.sent)
        case Ok(x) => (r == Ok(()) && CurrentWindow() == WithStart(old(CurrentWindow()), x)
          && link.sent == old(link.sent) + Unless(simulation, "SPSTRTWL" + ToStr(py, wavelength) + "\n"))
    {
      match NumberIn(wavelength, lim.wlMin, lim.wlMax, "Wavelength")
      case Err(e) => return Err(e);
      case Ok(x) =>
        Emit(link, simulation, "SPSTRTWL" + ToStr(py, wavelength) + "\n");
        startWavelength := x;
        span := stopWavelength - startWavelength;
        center := startWavelength + span / 2.0;
        return Ok(());
    }

    /** `SetStopWavelength`: a number in [WLMIN, WLMAX] becomes the stop; span and center follow. */
    method SetStopWavelength(wavelength: Value) returns (r: Result<(), Failure>)
      requires Valid()
      modifies this`stopWavelength, this`span, this`center, link
      ensures Valid() && link.open == old(link.open)
      ensures match NumberIn(wavelength, lim.wlMin, lim.wlMax, "Wavelength")
        case Err(e) => r == Err(e) && CurrentWindow() == old(CurrentWindow()) && link.sent == old(link.sent)
        case Ok(x) => (r == Ok(()) && CurrentWindow() == WithStop(old(CurrentWindow()), x)
          && link.sent == old(link.sent) + Unless(simulation, "SPSTOPWL" + ToStr(py, wavelength) + "\n"))
    {
      match NumberIn(wavelength, lim.wlMin, lim.wlMax, "Wavelength")
      case Err(e) => return Err(e);
      case Ok(x) =>
        Emit(link, simulation, "SPSTOPWL" + ToStr(py, wavelength) + "\n");
        stopWavelength := x;
        span := stopWavelength - startWavelength;
        center := startWavelength + span / 2.0;
        return Ok(());
    }

    /** `SetSpan`: a number in [MINSPAN, MAXSPAN] becomes the span around the unchanged center. */
    method SetSpan(s: Value) returns (r: Result<(), Failure>)
      requires Valid()
      modifies this`startWavelength, this`stopWavelength, this`span, link
      ensures Valid() && link.open == old(link.open)
      ensures match NumberIn(s, lim.minSpan, lim.maxSpan, "Span")
        case Err(e) => r == Err(e) && CurrentWindow() == old(CurrentWindow()) && link.sent == old(link.sent)
        case Ok(x) => (r == Ok(()) && CurrentWindow() == WithSpan(old(CurrentWindow()), x)
          && link.sent == old(link.sent) + Unless(simulation, "SPSPANWL" + ToStr(py, s) + "\n"))
    {
      match NumberIn(s, lim.minSpan, lim.maxSpan, "Span")
      case Err(e) => return Err(e);
      case Ok(x) =>
        Emit(link, simulation, "SPSPANWL" + ToStr(py, s) + "\n");
        span := x;
        stopWavelength := center + span / 2.0;
        startWavelength := center - span / 2.0;
        return Ok(());
    }

    /** `SetCenter`: a number in [MINCENTER, MAXCENTER] becomes the center; the span is kept. */
    method SetCenter(c: Value) returns (r: Result<(), Failure>)
      requires Valid()
      modifies this`startWavelength, this`stopWavelength, this`center, link
      ensures Valid() && link.open == old(link.open)
      ensures match NumberIn(c, lim.minCenter, lim.maxCenter, "Center")
        case Err(e) => r == Err(e) && CurrentWindow() == old(CurrentWindow()) && link.sent == old(link.sent)
        case Ok(x) => (r == Ok(()) && CurrentWindow() == WithCenter(old(CurrentWindow()), x)
          && link.sent == old(link.sent) + Unless(simulation, "SPCTRWL" + ToStr(py, c) + "\n"))
    {
      match NumberIn(c, lim.minCenter, lim.maxCenter, "Center")
      case Err(e) => return Err(e);
      case Ok(x) =>
        Emit(link, simulation, "SPCTRWL" + ToStr(py, c) + "\n");
        center := x;
        stopWavelength := center + span / 2.0;
        startWavelength := center - span / 2.0;
        return Ok(());
    }

    /** `SetXResolution`: the value is written as it is, without a check. */
    method SetXResolution(resolution: Value)
      modifies link
      ensures link.sent == old(link.sent) + Unless(simulation, "SPSWPRES" + ToStr(py, resolution) + "\n")
      ensures link.open == old(link.open)
    {
      Emit(link, simulation, "SPSWPRES" + ToStr(py, resolution) + "\n");
    }

    /** `SetYResolution`: a number in [MINYRES, MAXYRES] is written; nothing is cached. */
    method SetYResolution(resolution: Value) returns (r: Result<(), Failure>)
      modifies link
      ensures link.open == old(link.open)
      ensures match NumberIn(resolution, lim.minYRes, lim.maxYRes, "Resolution")
        case Err(e) => r == Err(e) && link.sent == old(link.sent)
        case Ok(_) => r == Ok(()) && link.sent == old(link.sent) + Unless(simulation, "SPDIVY" + ToStr(py, resolution) + "\n")
    {
      match NumberIn(resolution, lim.minYRes, lim.maxYRes, "Resolution")
      case Err(e) => return Err(e);
      case Ok(_) =>
        Emit(link, simulation, "SPDIVY" + ToStr(py, resolution) + "\n");
        return Ok(());
    }

    /** `SetNPoints`: an `int` in [MINNPTS, MAXNPTS] is written; nothing is cached. */
    method SetNPoints(nPoints: Value) returns (r: Result<(), Failure>)
      modifies link
      ensures link.open == old(link.open)
      ensures match IntIn(nPoints, lim.minNPts, lim.maxNPts, "NPoints")
        case Err(e) => r == Err(e) && link.sent == old(link.sent)
        case Ok(_) => r == Ok(()) && link.sent == old(link.sent) + Unless(simulation, "SPNBPTSWP" + ToStr(py, nPoints) + "\n")
    {
      match IntIn(nPoints, lim.minNPts, lim.maxNPts, "NPoints")
      case Err(e) => return Err(e);
      case Ok(_) =>
        Emit(link, simulation, "SPNBPTSWP" + ToStr(py, nPoints) + "\n");
        return Ok(());
    }

    /** `GetNPoints`: the reply (or the simulated one) without its last character, read as an int. */
    method GetNPoints(reply: string) returns (r: Result<int, Failure>)
      modifies link
      ensures link.open == old(link.open)
      ensures link.sent == old(link.sent) + Unless(simulation, "SPNBPTSWP?\n")
      ensures simulation ==> r == ReadInt(py, lim.simNPoints)
      ensures !simulation ==> r == ReadInt(py, reply)
    {
      Emit(link, simulation, "SPNBPTSWP?\n");
      r := ReadInt(py, if simulation then lim.simNPoints else reply);
    }

    /**
     * `Run`: the sweep command chosen by `SweepCommand`; the status is the integer reply, 0 when
     * the reply is not an integer, and 1 in simulation.
     */
    method Run(kind: Value, reply: string) returns (status: int)
      modifies link
      ensures link.sent == old(link.sent) + Unless(simulation, SweepCommand(kind)) && link.open == old(link.open)
      ensures simulation ==> status == 1
      ensures !simulation ==> status == match py.parseInt(reply) case Some(n) => n case None => 0
    {
      if simulation {
        return 1;
      }
      link.Send(SweepCommand(kind));
      match py.parseInt(reply) {
        case Some(n) => status := n;
        case None => status := 0;
      }
    }

    /** `Stop`: the fixed command "SPSWP3". */
    method Stop()
      modifies link
      ensures link.sent == old(link.sent) + Unless(simulation, "SPSWP3\n") && link.open == old(link.open)
    {
      Emit(link, simulation, "SPSWP3\n");
    }

    /**
     * `GetData`: the Y and X lists of a trace, each without its first point. Outside simulation
     * every reply token becomes a number, 0.0 when it is not one; in simulation the X axis is the
     * evenly spaced grid over the simulated window and the Y values come from `sample`.
     */
    method GetData(scale: Value, trace: Value, nPointsReply: string, yReply: string, xReply: string, sample: int -> real)
      returns (r: Result<(seq<real>, seq<real>), Failure>)
      modifies link
      ensures link.open == old(link.open)
      ensures !scale.Str? ==> r == Err(Apex(ARGUMENT_TYPE, "Scale")) && link.sent == old(link.sent)
      ensures scale.Str? && !IsNumber(trace) ==> r == Err(Apex(ARGUMENT_TYPE, "TraceNumber")) && link.sent == old(link.sent)
      ensures scale.Str? && IsNumber(trace) && !simulation && ReadInt(py, nPointsReply).Err? ==>
        r == Err(ValueError("int")) && link.sent == old(link.sent) + ["SPNBPTSWP?\n"]
      ensures scale.Str? && IsNumber(trace) && !simulation && ReadInt(py, nPointsReply).Ok? ==>
        r == Ok((DropFirst(DataValues(py, DataTokens(yReply))), DropFirst(DataValues(py, DataTokens(xReply)))))
      ensures scale.Str? && IsNumber(trace) && !simulation && ReadInt(py, nPointsReply).Ok? ==>
        link.sent == old(link.sent) + ["SPNBPTSWP?\n", TraceCommand(scale.s, trace), "SPDATAWL" + ToStr(py, trace) + "\n"]
      ensures scale.Str? && IsNumber(trace) && simulation ==> link.sent == old(link.sent)
      ensures scale.Str? && IsNumber(trace) && simulation && ReadInt(py, lim.simNPoints).Err? ==> r == Err(ValueError("int"))
      ensures scale.Str? && IsNumber(trace) && simulation && ReadInt(py, lim.simNPoints).Ok? ==>
        (ReadInt(py, lim.simNPoints).value == 0 <==> r == Err(ZeroDivisionError))
      ensures scale.Str? && IsNumber(trace) && simulation && ReadInt(py, lim.simNPoints).Ok? ==>
        (ReadInt(py, lim.simNPoints).value != 0 ==> r.Ok?)
      ensures scale.Str? && IsNumber(trace) && simulation && r.Ok? ==>
        SimulatedData(r.value, lim, ReadInt(py, lim.simNPoints).value, sample)
    {
      if !scale.Str? {
        return Err(Apex(ARGUMENT_TYPE, "Scale"));
      }
      if !IsNumber(trace) {
        return Err(Apex(ARGUMENT_TYPE, "TraceNumber"));
      }
      var nPoints := GetNPoints(nPointsReply);
      if nPoints.Err? {
        return Err(nPoints.error);
      }
      if simulation {
        var sim := SimulatedTrace(lim.simStart, lim.simStop, nPoints.value, sample);
        if sim.Err? {
          return Err(sim.error);
        }
        SimulatedDataDropsFirst(sim.value.0, sim.value.1, lim, nPoints.value, sample);
        return Ok((DropFirst(sim.value.0), DropFirst(sim.value.1)));
      }
      link.Send(TraceCommand(scale.s, trace));
      var ys := ParseData(py, DataTokens(yReply));
      link.Send("SPDATAWL" + ToStr(py, trace) + "\n");
      var xs := ParseData(py, DataTokens(xReply));
      return Ok((DropFirst(ys), DropFirst(xs)));
    }

    /** `SetNoiseMask`: any number is written and cached. */
    method SetNoiseMask(value: Value) returns (r: Result<(), Failure>)
      modifies this`noiseMaskValue, link
      ensures link.open == old(link.open)
      ensures !IsNumber(value) ==>
        r == Err(Apex(ARGUMENT_TYPE, "NoiseMaskValue")) && noiseMaskValue == old(noiseMaskValue) && link.sent == old(link.sent)
      ensures IsNumber(value) ==>
        r == Ok(()) && noiseMaskValue == value && link.sent == old(link.sent) + Unless(simulation, "SPSWPMSK" + ToStr(py, value) + "\n")
    {
      if !IsNumber(value) {
        return Err(Apex(ARGUMENT_TYPE, "NoiseMaskValue"));
      }
      Emit(link, simulation, "SPSWPMSK" + ToStr(py, value) + "\n");
      noiseMaskValue := value;
      return Ok(());
    }

    /** `SetScaleXUnit`: "nm" or 1 for nm, any other string or 0 for GHz; the normalised value is cached. */
    method SetScaleXUnit(unit: Value) returns (r: Result<(), Failure>)
      modifies this`scaleXUnit, link
      ensures link.open == old(link.open)
      ensures match ModeValue(unit, XUnitCode, 0, 1, "ScaleXUnit")
        case Err(e) => r == Err(e) && scaleXUnit == old(scaleXUnit) && link.sent == old(link.sent)
        case Ok(v) => r == Ok(()) && scaleXUnit == v && link.sent == old(link.sent) + Unless(simulation, "SPXUNT" + ToStr(py, v) + "\n")
    {
      match ModeValue(unit, XUnitCode, 0, 1, "ScaleXUnit")
      case Err(e) => return Err(e);
      case Ok(v) =>
        Emit(link, simulation, "SPXUNT" + ToStr(py, v) + "\n");
        scaleXUnit := v;
        return Ok(());
    }

    /** `SetScaleYUnit`: "log" or 1 for dBm, any other string or 0 for mW; the normalised value is cached. */
    method SetScaleYUnit(unit: Value) returns (r: Result<(), Failure>)
      modifies this`scaleYUnit, link
      ensures link.open == old(link.open)
      ensures match ModeValue(unit, YUnitCode, 0, 1, "ScaleYUnit")
        case Err(e) => r == Err(e) && scaleYUnit == old(scaleYUnit) && link.sent == old(link.sent)
        case Ok(v) => r == Ok(()) && scaleYUnit == v && link.sent == old(link.sent) + Unless(simulation, "SPLINSC" + ToStr(py, v) + "\n")
    {
      match ModeValue(unit, YUnitCode, 0, 1, "ScaleYUnit")
      case Err(e) => return Err(e);
      case Ok(v) =>
        Emit(link, simulation, "SPLINSC" + ToStr(py, v) + "\n");
        scaleYUnit := v;
        return Ok(());
    }

    /** `SetPolarizationMode`: "1+2"/0, "1&2"/1, "1"/2, "2"/3; the normalised value is cached. */
    method SetPolarizationMode(mode: Value) returns (r: Result<(), Failure>)
      modifies this`polarizationMode, link
      ensures link.open == old(link.open)
      ensures match ModeValue(mode, PolarizationCode, 0, 3, "PolarizationMode")
        case Err(e) => r == Err(e) && polarizationMode == old(polarizationMode) && link.sent == old(link.sent)
        case Ok(v) => r == Ok(()) && polarizationMode == v && link.sent == old(link.sent) + Unless(simulation, "SPPOLAR" + ToStr(py, v) + "\n")
    {
      match ModeValue(mode, PolarizationCode, 0, 3, "PolarizationMode")
      case Err(e) => return Err(e);
      case Ok(v) =>
        Emit(link, simulation, "SPPOLAR" + ToStr(py, v) + "\n");
        polarizationMode := v;
        return Ok(());
    }

    /**
     * `GetMarkers`: after the axis and trace checks, the numbers of the marker reply. The axis is
     * chosen as documented (0 or 'x' for X), see `AxisIsX`; in simulation the list is empty.
     */
    method GetMarkers(trace: Value, axis: Value, reply: string) returns (r: Result<seq<real>, Failure>)
      modifies link
      ensures link.open == old(link.open)
      ensures match MarkersCheck(py, trace, axis)
        case Some(e) => r == Err(e) && link.sent == old(link.sent)
        case None =>
          r == Ok(if simulation then [] else Numbers(py, MarkerTokens(reply)))
          && link.sent == old(link.sent)
             + Unless(simulation, (if AxisIsX(py, axis) then "SPDATAMKRX" else "SPDATAMKRY") + ToStr(py, trace) + "\n")
    {
      match MarkersCheck(py, trace, axis) {
        case Some(e) => return Err(e);
        case None =>
      }
      var cmd := (if AxisIsX(py, axis) then "SPDATAMKRX" else "SPDATAMKRY") + ToStr(py, trace) + "\n";
      if simulation {
        return Ok([]);
      }
      link.Send(cmd);
      var markers := ParseMarkers(py, MarkerTokens(reply));
      return Ok(markers);
    }

    /**
     * `FindPeak`: after the checks, the peak search command, then the markers of the trace (the
     * three simulated peaks in simulation) reduced as `find` asks.
     */
    method FindPeak(trace: Value, threshold: Value, axis: Value, find: Value, reply: string) returns (r: Result<Reading, Failure>)
      modifies link
      ensures link.open == old(link.open)
      ensures match PeakCheck(py, trace, threshold, axis)
        case Some(e) => r == Err(e) && link.sent == old(link.sent)
        case None =>
          var search := "SPPKFIND" + ToStr(py, trace) + "_" + ToStr(py, threshold) + "\n";
          if simulation then r == Ok(Reduce(SimulatedPeaks, LowerStr(py, find))) && link.sent == old(link.sent)
          else match MarkersCheck(py, trace, axis)
            case Some(e) => r == Err(e) && link.sent == old(link.sent) + [search]
            case None =>
              r == Ok(Reduce(Numbers(py, MarkerTokens(reply)), LowerStr(py, find)))
              && link.sent == old(link.sent) + [search, (if AxisIsX(py, axis) then "SPDATAMKRX" else "SPDATAMKRY") + ToStr(py, trace) + "\n"]
    {
      match PeakCheck(py, trace, threshold, axis) {
        case Some(e) => return Err(e);
        case None =>
      }
      var peaks := SimulatedPeaks;
      if !simulation {
        link.Send("SPPKFIND" + ToStr(py, trace) + "_" + ToStr(py, threshold) + "\n");
        var markers := GetMarkers(trace, axis, reply);
        if markers.Err? {
          return Err(markers.error);
        }
        peaks := markers.value;
      }
      var reading := ReducePeaks(peaks, LowerStr(py, find));
      return Ok(reading);
    }

    /**
     * `LineWidth`: after the trace check, the 3 dB line width values of the reply padded with 0.0
     * to three (the simulated three in simulation), reduced as `get` asks.
     */
    method LineWidth(trace: Value, get: Value, reply: string) returns (r: Result<Reading, Failure>)
      modifies link
      ensures link.open == old(link.open)
      ensures match TraceCheck(trace)
        case Some(e) => r == Err(e) && link.sent == old(link.sent)
        case None =>
          link.sent == old(link.sent) + Unless(simulation, "SPLWTH" + ToStr(py, trace) + "_3.0\n")
          && r.Ok?
          && (simulation ==> r.value == PickLineWidth(SimulatedLineWidth, LowerStr(py, get)))
          && (!simulation ==>
               var vs := LineValues(py, Split(DropLast(reply), '_'));
               exists padded: seq<real> ::
                 |padded| == (if |vs| >= 3 then |vs| else 3) && padded[..|vs|] == vs
                 && (forall i :: |vs| <= i < |padded| ==> padded[i] == 0.0)
                 && r.value == PickLineWidth(padded, LowerStr(py, get)))
    {
      match TraceCheck(trace) {
        case Some(e) => return Err(e);
        case None =>
      }
      var values := SimulatedLineWidth;
      if !simulation {
        link.Send("SPLWTH" + ToStr(py, trace) + "_3.0\n");
        values := ParseLineWidth(py, Split(DropLast(reply), '_'));
      }
      return Ok(PickLineWidth(values, LowerStr(py, get)));
    }

    /**
     * `SaveToFile`: after the trace check and the directory check (`dirExists` says whether the
     * directory of the path exists), "SPSAVEB" for a "txt" file, "SPSAVEA" otherwise.
     */
    method SaveToFile(fileName: Value, trace: Value, kind: Value, dirExists: bool) returns (r: Result<(), Failure>)
      modifies link
      ensures link.open == old(link.open)
      ensures TraceCheck(trace).Some? ==> r == Err(TraceCheck(trace).value) && link.sent == old(link.sent)
      ensures TraceCheck(trace).None? && !fileName.Str? ==> r == Err(TypeError("dirname")) && link.sent == old(link.sent)
      ensures TraceCheck(trace).None? && fileName.Str? && !dirExists ==>
        r == Err(Apex(lim.badFilename, fileName.s)) && link.sent == old(link.sent)
      ensures TraceCheck(trace).None? && fileName.Str? && dirExists ==>
        r == Ok(()) && link.sent == old(link.sent) + Unless(simulation, (if LowerStr(py, kind) == "txt" then "SPSAVEB" else "SPSAVEA") + ToStr(py, trace) + "_" + fileName.s + "\n")
    {
      match TraceCheck(trace) {
        case Some(e) => return Err(e);
        case None =>
      }
      if !fileName.Str? {
        return Err(TypeError("dirname"));
      }
      if !dirExists {
        return Err(Apex(lim.badFilename, fileName.s));
      }
      var head := if LowerStr(py, kind) == "txt" then "SPSAVEB" else "SPSAVEA";
      Emit(link, simulation, head + ToStr(py, trace) + "_" + fileName.s + "\n");
      return Ok(());
    }
  }

  /**
   * Each window update the AP2XXX setters cache gives a consistent window, whatever window it
   * starts from: span and center are recomputed from the new ends, or the ends from the new
   * span and center.
   */
  lemma SettersKeepWindowConsistent(w: Window, x: real)
    ensures Consistent(WithStart(w, x)) && Consistent(WithStop(w, x))
    ensures Consistent(WithSpan(w, x)) && Consistent(WithCenter(w, x))
  {
  }
}
