/**
 * The tunable optical filter of the AP1000 (AP1000/Filter.py): a wavelength that must lie within
 * limits read from the module (or the simulation limits), set directly or through a frequency.
 * Out-of-range values are rejected, not clamped, and errors leave the connection open.
 */
module Filters {
  import opened Wrappers
  import opened Text
  import opened Python
  import opened Errors
  import opened Transport
  import opened Spectrum
  import opened Slots

  /**
   * The constants the filter needs that the constants module does not define: the simulation
   * limits AP1000_FIL_WLMIN/WLMAX (nm) and AP1000_FIL_FRMIN/FRMAX (GHz), and `Celerity`.
   */
  datatype FilterConstants = FilterConstants(wlMin: real, wlMax: real, frMin: real, frMax: real, celerity: real)

  predicate ValidConstants(k: FilterConstants)
  {
    k.wlMin <= k.wlMax && k.frMin <= k.frMax && k.celerity > 0.0
  }

  const FilterUnits: set<string> := {"nm", "ghz"}

  /** `Convert`: `Celerity / v`, wavelength to frequency or back; 0 divides by zero. */
  function Convert(celerity: real, v: real): (r: Result<real, Failure>)
    ensures r.Err? <==> v == 0.0
    ensures r.Err? ==> r.error == ZeroDivisionError
    ensures r.Ok? ==> r.value * v == celerity
  {
    if v == 0.0 then Err(ZeroDivisionError) else Ok(celerity / v)
  }

  /** `Convert` is its own inverse: a converted non-zero value converts back to itself. */
  lemma ConvertInvolution(celerity: real, v: real)
    requires celerity > 0.0 && v != 0.0
    ensures Convert(celerity, v).Ok? && Convert(celerity, Convert(celerity, v).value) == Ok(v)
  {
    var w := celerity / v;
    assert w * v == celerity;
    assert w != 0.0;
    assert celerity / w == v;
  }

  /**
   * A frequency within [celerity / hi, celerity / lo] converts to a wavelength within [lo, hi]:
   * when the frequency limits are the converted wavelength limits, `SetFrequency` leaves the
   * filter inside its wavelength limits.
   */
  lemma ConvertedFrequencyInLimits(celerity: real, lo: real, hi: real, f: real)
    requires celerity > 0.0 && 0.0 < lo <= hi
    requires celerity / hi <= f <= celerity / lo
    ensures Convert(celerity, f).Ok? && lo <= Convert(celerity, f).value <= hi
  {
    assert 0.0 < celerity / hi;
    var w := celerity / f;
    assert w * f == celerity;
    assert lo * f <= lo * (celerity / lo) == celerity;
    assert hi * f >= hi * (celerity / hi) == celerity;
  }

  /** Limits read from two replies, each without its last character; a bad reply is a ValueError. */
  function ReadLimits(py: Conv, replyMin: string, replyMax: string): (r: Result<(real, real), Failure>)
    ensures r.Ok? <==> ReadReal(py, replyMin).Ok? && ReadReal(py, replyMax).Ok?
    ensures r.Ok? ==> r.value == (ReadReal(py, replyMin).value, ReadReal(py, replyMax).value)
    ensures r.Err? ==> r.error == ValueError("float")
  {
    match ReadReal(py, replyMin)
    case Err(e) => Err(e)
    case Ok(lo) =>
      match ReadReal(py, replyMax)
      case Err(e) => Err(e)
      case Ok(hi) => Ok((lo, hi))
  }

  /** The queries a limit read sends: none in simulation, and none after a bad first reply. */
  function LimitQueries(simulation: bool, py: Conv, head: string, what: string, replyMin: string): (cmds: seq<string>)
    ensures simulation ==> cmds == []
    ensures !simulation ==> 1 <= |cmds| <= 2 && cmds[0] == head + what + "MIN?\n"
  {
    if simulation then []
    else if ReadReal(py, replyMin).Err? then [head + what + "MIN?\n"]
    else [head + what + "MIN?\n", head + what + "MAX?\n"]
  }

  class Filter {
    const link: Connexion
    const slot: int
    const simulation: bool
    const py: Conv
    const k: FilterConstants

    var unit: string
    var wavelength: real
    /** The Python type of the cached wavelength: "float", or the type of the number last set. */
    var wavelengthType: string

    /** The unit is one of the filter's units. */
    predicate Valid()
      reads this
    {
      ValidConstants(k) && Lower(unit) in FilterUnits
    }

    /** The message of slicing the cached wavelength, as Python words it. */
    function Unsliceable(): string
      reads this
    {
      "'" + wavelengthType + "' object is not subscriptable"
    }

    /** "FIL[ss]:", the head of every command of this filter. */
    function Head(): string
    {
      SlotPrefix("FIL", slot)
    }

    /** `GetWavelngthLimits`: the simulation constants, or the "WLMIN?" and "WLMAX?" replies. */
    function WavelengthLimits(replyMin: string, replyMax: string): (r: Result<(real, real), Failure>)
      ensures simulation ==> r == Ok((k.wlMin, k.wlMax))
      ensures !simulation ==> r == ReadLimits(py, replyMin, replyMax)
    {
      if simulation then Ok((k.wlMin, k.wlMax)) else ReadLimits(py, replyMin, replyMax)
    }

    /** `GetFrequencyLimits`: the simulation constants, or the "FRMIN?" and "FRMAX?" replies. */
    function FrequencyLimits(replyMin: string, replyMax: string): (r: Result<(real, real), Failure>)
      ensures simulation ==> r == Ok((k.frMin, k.frMax))
      ensures !simulation ==> r == ReadLimits(py, replyMin, replyMax)
    {
      if simulation then Ok((k.frMin, k.frMax)) else ReadLimits(py, replyMin, replyMax)
    }

    constructor (link: Connexion, slot: int, simulation: bool, py: Conv, k: FilterConstants)
      requires ValidConstants(k)
      ensures this.link == link && this.slot == slot && this.simulation == simulation
      ensures this.py == py && this.k == k
      ensures unit == "nm" && wavelength == 1550.0 && wavelengthType == "float" && Valid()
    {
      this.link := link;
      this.slot := slot;
      this.simulation := simulation;
      this.py := py;
      this.k := k;
      unit := "nm";
      wavelength := 1550.0;
      wavelengthType := "float";
      assert Lower("nm") == "nm";
    }

    /** Sends the limit queries of `what` ("WL" or "FR") and reads the replies. */
    method QueryLimits(what: string, replyMin: string, replyMax: string) returns (r: Result<(real, real), Failure>)
      requires !simulation
      modifies link
      ensures r == ReadLimits(py, replyMin, replyMax)
      ensures link.sent == old(link.sent) + LimitQueries(simulation, py, Head(), what, replyMin)
      ensures link.open == old(link.open)
    {
      link.Send(Head() + what + "MIN?\n");
      var lo := ReadReal(py, replyMin);
      if lo.Err? {
        return Err(lo.error);
      }
      link.Send(Head() + what + "MAX?\n");
      var hi := ReadReal(py, replyMax);
      if hi.Err? {
        return Err(hi.error);
      }
      return Ok((lo.value, hi.value));
    }

    /**
     * `SetWavelength`: a number (else ARGUMENT_TYPE, nothing sent), the limits, then the range
     * (else ARGUMENT_VALUE), then "TWL<%.3f>" outside simulation and the cached wavelength.
     */
    method SetWavelength(v: Value, replyMin: string, replyMax: string) returns (r: Result<(), Failure>)
      modifies this`wavelength, this`wavelengthType, link
      ensures !IsNumber(v) ==> r == Err(Apex(ARGUMENT_TYPE, "Wavelength")) && link.sent == old(link.sent)
      ensures IsNumber(v) ==> match WavelengthLimits(replyMin, replyMax)
        case Err(e) => r == Err(e)
        case Ok(lim) => (r.Ok? <==> lim.0 <= Number(v) <= lim.1)
      ensures IsNumber(v) ==> link.sent == old(link.sent) + LimitQueries(simulation, py, Head(), "WL", replyMin)
                              + (if r.Ok? then Unless(simulation, Head() + "TWL" + Fixed3(py, Number(v)) + "\n") else [])
      ensures r.Ok? ==> wavelength == Number(v) && wavelengthType == NumberTypeName(v)
      ensures r.Err? ==> wavelength == old(wavelength) && wavelengthType == old(wavelengthType)
      ensures r.Err? && IsNumber(v) && WavelengthLimits(replyMin, replyMax).Ok? ==> r == Err(Apex(ARGUMENT_VALUE, "Wavelength"))
      ensures link.open == old(link.open)
    {
      if !IsNumber(v) {
        return Err(Apex(ARGUMENT_TYPE, "Wavelength"));
      }
      var lim: Result<(real, real), Failure>;
      if simulation {
        lim := Ok((k.wlMin, k.wlMax));
      } else {
        lim := QueryLimits("WL", replyMin, replyMax);
      }
      if lim.Err? {
        return Err(lim.error);
      }
      if Number(v) < lim.value.0 || Number(v) > lim.value.1 {
        return Err(Apex(ARGUMENT_VALUE, "Wavelength"));
      }
      Emit(link, simulation, Head() + "TWL" + Fixed3(py, Number(v)) + "\n");
      wavelength := Number(v);
      wavelengthType := NumberTypeName(v);
      return Ok(());
    }

    /**
     * `SetFrequency`: a number (else ARGUMENT_TYPE), the frequency limits, the range (else
     * ARGUMENT_VALUE), "TFR<%.3f>" outside simulation, then the cached wavelength becomes
     * `Convert` of the frequency (a zero frequency, accepted when the limits read from the
     * module or the simulation limits enclose 0, divides by zero after the command).
     */
    method SetFrequency(v: Value, replyMin: string, replyMax: string) returns (r: Result<(), Failure>)
      modifies this`wavelength, this`wavelengthType, link
      ensures !IsNumber(v) ==> r == Err(Apex(ARGUMENT_TYPE, "Frequency")) && link.sent == old(link.sent)
      ensures IsNumber(v) ==> match FrequencyLimits(replyMin, replyMax)
        case Err(e) => r == Err(e)
        case Ok(lim) => ((r.Ok? <==> lim.0 <= Number(v) <= lim.1 && Number(v) != 0.0)
          && (r.Err? ==> r.error == if lim.0 <= Number(v) <= lim.1 then ZeroDivisionError
                                    else Apex(ARGUMENT_VALUE, "Frequency")))
      ensures IsNumber(v) ==> (link.sent == old(link.sent) + LimitQueries(simulation, py, Head(), "FR", replyMin)
        + (if FrequencyLimits(replyMin, replyMax).Ok? && r != Err(Apex(ARGUMENT_VALUE, "Frequency"))
           then Unless(simulation, Head() + "TFR" + Fixed3(py, Number(v)) + "\n") else []))
      ensures r.Ok? ==> Convert(k.celerity, Number(v)) == Ok(wavelength) && wavelengthType == "float"
      ensures r.Err? ==> wavelength == old(wavelength) && wavelengthType == old(wavelengthType)
      ensures link.open == old(link.open)
    {
      if !IsNumber(v) {
        return Err(Apex(ARGUMENT_TYPE, "Frequency"));
      }
      var lim: Result<(real, real), Failure>;
      if simulation {
        lim := Ok((k.frMin, k.frMax));
      } else {
        lim := QueryLimits("FR", replyMin, replyMax);
      }
      if lim.Err? {
        return Err(lim.error);
      }
      if Number(v) < lim.value.0 || Number(v) > lim.value.1 {
        return Err(Apex(ARGUMENT_VALUE, "Frequency"));
      }
      Emit(link, simulation, Head() + "TFR" + Fixed3(py, Number(v)) + "\n");
      match Convert(k.celerity, Number(v)) {
        case Err(e) => return Err(e);
        case Ok(w) =>
          wavelength := w;
          wavelengthType := "float";
          return Ok(());
      }
    }

    /**
     * `GetWavelength`: "TWL?" and the reply without its last character. In simulation the
     * cached wavelength is a number, which cannot be sliced: a TypeError naming its type.
     */
    method GetWavelength(reply: string) returns (r: Result<real, Failure>)
      modifies link
      ensures simulation ==> r == Err(TypeError(Unsliceable())) && link.sent == old(link.sent)
      ensures !simulation ==> r == ReadReal(py, reply) && link.sent == old(link.sent) + [Head() + "TWL?\n"]
      ensures link.open == old(link.open)
    {
      if simulation {
        return Err(TypeError(Unsliceable()));
      }
      link.Send(Head() + "TWL?\n");
      return ReadReal(py, reply);
    }

    /** `GetFrequency`: "TFR?" and the parsed reply; in simulation the same TypeError. */
    method GetFrequency(reply: string) returns (r: Result<real, Failure>)
      modifies link
      ensures simulation ==> r == Err(TypeError(Unsliceable())) && link.sent == old(link.sent)
      ensures !simulation ==> r == ReadReal(py, reply) && link.sent == old(link.sent) + [Head() + "TFR?\n"]
      ensures link.open == old(link.open)
    {
      if simulation {
        return Err(TypeError(Unsliceable()));
      }
      link.Send(Head() + "TFR?\n");
      return ReadReal(py, reply);
    }

    /** `SetUnit`: a string is required (else ARGUMENT_TYPE); it is kept when it names nm or GHz. */
    method SetUnit(v: Value) returns (r: Result<(), Failure>)
      modifies this`unit
      ensures !v.Str? ==> r == Err(Apex(ARGUMENT_TYPE, "Unit")) && unit == old(unit)
      ensures v.Str? ==> r == Ok(()) && unit == (if Lower(v.s) in FilterUnits then v.s else old(unit))
      ensures old(Valid()) ==> Valid()
    {
      if !v.Str? {
        return Err(Apex(ARGUMENT_TYPE, "Unit"));
      }
      if Lower(v.s) in FilterUnits {
        unit := v.s;
      }
      return Ok(());
    }
  }
}
