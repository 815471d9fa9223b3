/**
 * The tunable laser source of the AP1000 (AP1000/TunableLaser.py): a C-band or L-band laser
 * whose band, read from the slot identity, selects the power and wavelength limits that the
 * setters clamp into. Every argument error switches the laser off and closes the connection.
 */
module TunableLasers {
  import opened Wrappers
  import opened Text
  import opened Python
  import opened Errors
  import opened Constants
  import opened Validation
  import opened Transport
  import opened Spectrum
  import opened Slots

  /** The two lasers: `Type` 0 is the C band, `Type` 2 the L band. */
  datatype Band = CBand | LBand

  /** The `Type` attribute: the index of the band in the limit tables. */
  function TypeCode(b: Band): (t: int)
    ensures t == 0 || t == 2
    ensures b == CBand <==> t == 0
  {
    if b == CBand then 0 else 2
  }

  /**
   * The band `GetType` finds in an identity's second "/" field: the C band when
   * `str(AP1000_TLS_CBAND)` occurs in it, else the L band when `str(AP1000_TLS_LBAND)` does.
   */
  function BandOf(field: string): (r: Option<Band>)
    ensures r == Some(CBand) <==> Contains(field, "3350")
    ensures r == Some(LBand) <==> !Contains(field, "3350") && Contains(field, "3352")
    ensures r.None? <==> !Contains(field, "3350") && !Contains(field, "3352")
  {
    if Contains(field, "3350") then Some(CBand)
    else if Contains(field, "3352") then Some(LBand)
    else None
  }

  /** The texts searched for are `str()` of the two laser codes of the constant table. */
  lemma BandCodesAreModuleCodes()
    ensures IntToString(TLS_CBAND) == "3350" && IntToString(TLS_LBAND) == "3352"
  {
    assert NatToString(3) == "3";
    assert NatToString(33) == "33";
    assert NatToString(335) == "335";
    assert NatToString(3350) == "3350" && NatToString(3352) == "3352";
  }

  /** The limits of a band: `AP1000_TLS_WLMIN[Type]` and the other tables. */
  function WlMin(b: Band): real { TLS_WLMIN[TypeCode(b)].value }
  function WlMax(b: Band): real { TLS_WLMAX[TypeCode(b)].value }
  function PowMin(b: Band): real { TLS_POWMIN[TypeCode(b)].value }
  function PowMax(b: Band): real { TLS_POWMAX[TypeCode(b)].value }

  /** Both bands have ordered, positive limits, and the C band ends where the L band starts. */
  lemma BandLimits(b: Band)
    ensures 0.0 < WlMin(b) < WlMax(b)
    ensures PowMin(b) < PowMax(b)
    ensures TLS_FRMAX[TypeCode(b)] == Some(LIGHT_SPEED / WlMax(b))
    ensures TLS_FRMIN[TypeCode(b)] == Some(LIGHT_SPEED / WlMin(b))
    ensures WlMax(CBand) == WlMin(LBand)
  {
    TunableLaserTables();
  }

  /** The simulated laser is a C-band one. */
  lemma SimulatedBand()
    ensures Field(SimuTLS_SlotID, '/', 1) == Some("3350")
    ensures BandOf("3350") == Some(CBand)
  {
    FieldsOfIdentity("APEX-TECHNOLOGIES", "3350", "10" + "-" + "3350" + "-" + "A" + "-" + "000503", "0.0\n");
    assert "3350" <= "3350";
  }

  /**
   * The constants the laser imports for calibration but that are not part of the constant
   * table (`AP1000_TLS_SOAMIN`/`SOAMAX`, `AP1000_TLS_TMIN`/`TMAX`).
   */
  datatype Calibration = Calibration(soaMin: real, soaMax: real, tMin: real, tMax: real)

  /**
   * `SetDiodeTemp`'s checks, in the driver's order: the diode number is an int, the temperature
   * a number, the diode number in 1..12, the temperature within the limits.
   */
  function DiodeCheck(cal: Calibration, diode: Value, temp: Value): (r: Result<(), Failure>)
    ensures r.Ok? <==> IsInt(diode) && IsNumber(temp) && 1.0 <= Number(diode) <= 12.0
                       && cal.tMin <= Number(temp) <= cal.tMax
    ensures !IsInt(diode) ==> r == Err(Apex(ARGUMENT_TYPE, "DiodeNumber"))
    ensures IsInt(diode) && !IsNumber(temp) ==> r == Err(Apex(ARGUMENT_TYPE, "Temperature"))
    ensures IsInt(diode) && IsNumber(temp) && !(1.0 <= Number(diode) <= 12.0) ==>
              r == Err(Apex(ARGUMENT_VALUE, "DiodeNumber"))
    ensures r.Err? ==> r.error.Apex? && r.error.code in {ARGUMENT_TYPE, ARGUMENT_VALUE}
  {
    if !IsInt(diode) then Err(Apex(ARGUMENT_TYPE, "DiodeNumber"))
    else if !IsNumber(temp) then Err(Apex(ARGUMENT_TYPE, "Temperature"))
    else if Number(diode) < 1.0 || Number(diode) > 12.0 then Err(Apex(ARGUMENT_VALUE, "DiodeNumber"))
    else if Number(temp) < cal.tMin || Number(temp) > cal.tMax then Err(Apex(ARGUMENT_VALUE, "Temperature"))
    else Ok(())
  }

  /**
   * The constructor: the band is read from the slot identity (the simulated one in simulation).
   * An identity without a second "/" field is an IndexError; one naming neither band switches the
   * laser off, closes the connection and raises SLOT_TYPE_NOT_DEFINED with the slot number.
   */
  method NewTunableLaser(link: Connexion, slot: int, simulation: bool, py: Conv, m: Maths,
                         cal: Calibration, reply: string)
    returns (r: Result<TunableLaser, Failure>)
    modifies link
    ensures var id := if simulation then SimuTLS_SlotID else reply;
      match Field(id, '/', 1)
      case None => (r == Err(IndexError) && link.open == old(link.open)
        && link.sent == old(link.sent) + Unless(simulation, IdentityQuery(slot)))
      case Some(f) =>
        match BandOf(f)
        case None => (r == Err(Apex(SLOT_TYPE_NOT_DEFINED, IntToString(slot))) && !link.open
          && link.sent == old(link.sent) + Unless(simulation, IdentityQuery(slot))
                                         + Unless(simulation, SlotPrefix("TLS", slot) + "L0\n"))
        case Some(b) => (r.Ok? && fresh(r.value) && r.value.Valid()
          && r.value.link == link && r.value.slot == slot && r.value.simulation == simulation
          && r.value.py == py && r.value.m == m && r.value.cal == cal && r.value.band == b
          && r.value.unit == "dBm" && r.value.wavelength == 1550.0 && r.value.power == 0.0
          && r.value.status == "OFF" && r.value.soaCurrent.None? && r.value.diode.None?
          && link.open == old(link.open)
          && link.sent == old(link.sent) + Unless(simulation, IdentityQuery(slot)))
  {
    Emit(link, simulation, IdentityQuery(slot));
    var id := if simulation then SimuTLS_SlotID else reply;
    match Field(id, '/', 1) {
      case None => return Err(IndexError);
      case Some(f) =>
        match BandOf(f) {
          case None =>
            Emit(link, simulation, SlotPrefix("TLS", slot) + "L0\n");
            link.Close();
            return Err(Apex(SLOT_TYPE_NOT_DEFINED, IntToString(slot)));
          case Some(b) =>
            var laser := new TunableLaser(link, slot, simulation, py, m, cal, b);
            return Ok(laser);
        }
    }
  }

  /** The calibration settings of the last successful `SetDiodeTemp`. */
  datatype DiodeSettings = DiodeSettings(number: Value, temperature: Value, sweepSpeed: Value, soaComp: Value)

  class TunableLaser {
    const link: Connexion
    const slot: int
    const simulation: bool
    const py: Conv
    const m: Maths
    const cal: Calibration
    const band: Band

    var unit: string
    var wavelength: real
    var power: real
    var status: string
    var soaCurrent: Option<Value>
    var diode: Option<DiodeSettings>

    /** The unit is one the conversions know, and the laser is either on or off. */
    predicate Valid()
      reads this
    {
      Lower(unit) in PowerUnits && (status == "ON" || status == "OFF")
    }

    /** "TLS[ss]:", the head of every command of this laser. */
    function Head(): string
    {
      SlotPrefix("TLS", slot)
    }

    constructor (link: Connexion, slot: int, simulation: bool, py: Conv, m: Maths, cal: Calibration, band: Band)
      ensures this.link == link && this.slot == slot && this.simulation == simulation
      ensures this.py == py && this.m == m && this.cal == cal && this.band == band
      ensures unit == "dBm" && wavelength == 1550.0 && power == 0.0 && status == "OFF"
      ensures soaCurrent.None? && diode.None? && Valid()
    {
      this.link := link;
      this.slot := slot;
      this.simulation := simulation;
      this.py := py;
      this.m := m;
      this.cal := cal;
      this.band := band;
      unit := "dBm";
      wavelength := 1550.0;
      power := 0.0;
      status := "OFF";
      soaCurrent := None;
      diode := None;
      InitialUnitValid();
    }

    /** `On`: "L1" outside simulation; the status is "ON" in both modes. */
    method On()
      modifies this`status, link
      ensures status == "ON" && link.open == old(link.open)
      ensures link.sent == old(link.sent) + Unless(simulation, Head() + "L1\n")
    {
      Emit(link, simulation, Head() + "L1\n");
      status := "ON";
    }

    /** `Off`: "L0" outside simulation; the status is "OFF" in both modes. */
    method Off()
      modifies this`status, link
      ensures status == "OFF" && link.open == old(link.open)
      ensures link.sent == old(link.sent) + Unless(simulation, Head() + "L0\n")
    {
      Emit(link, simulation, Head() + "L0\n");
      status := "OFF";
    }

    /** `self.Off()` then `self.Connexion.close()`, before each argument error. */
    method Abort()
      modifies this`status, link
      ensures status == "OFF" && !link.open
      ensures link.sent == old(link.sent) + Unless(simulation, Head() + "L0\n")
    {
      Off();
      link.Close();
    }

    /** `GetStatus`: the cached status, never queried. */
    function GetStatus(): (s: string)
      reads this
      ensures Valid() ==> s == "ON" || s == "OFF"
    {
      status
    }

    /** `SetUnit`: `str(Unit)` is kept when it names dBm or mW in any case. */
    method SetUnit(v: Value)
      modifies this`unit
      ensures unit == ChosenUnit(py, old(unit), v, PowerUnits)
      ensures old(Valid()) ==> Valid()
    {
      unit := ChosenUnit(py, unit, v, PowerUnits);
    }

    /** The power actually set for `x` written in dBm: `if`/`elif` against the band's limits. */
    function PowerSetting(x: real): (p: real)
      ensures PowMin(band) <= p <= PowMax(band)
      ensures PowMin(band) <= x <= PowMax(band) ==> p == x
    {
      BandLimits(band);
      if x < PowMin(band) then PowMin(band)
      else if x > PowMax(band) then PowMax(band)
      else x
    }

    /**
     * `SetPower`: `float(Power)` (else off, close and ARGUMENT_TYPE), converted from the unit into
     * dBm (a non-positive power in mW is off, close and ARGUMENT_VALUE), clamped into the band's
     * power limits, written as "TPDB" with one decimal outside simulation, and cached.
     */
    method SetPower(v: Value) returns (r: Result<(), Failure>)
      modifies this`status, this`power, link
      ensures match FloatArg(py, v, "Power")
        case Err(e) => (r == Err(e) && status == "OFF" && !link.open && power == old(power)
          && link.sent == old(link.sent) + Unless(simulation, Head() + "L0\n"))
        case Ok(x) =>
          match PowerForWriting(m, unit, x)
          case Err(e) => (r == Err(e) && status == "OFF" && !link.open && power == old(power)
            && link.sent == old(link.sent) + Unless(simulation, Head() + "L0\n"))
          case Ok(p) => (r == Ok(()) && status == old(status) && link.open == old(link.open)
            && power == PowerSetting(p)
            && link.sent == old(link.sent) + Unless(simulation, Head() + "TPDB" + Fixed1(py, power) + "\n"))
      ensures Lower(unit) == "dbm" && IsNumber(v) ==> r.Ok? && power == Clamp(Number(v), PowMin(band), PowMax(band))
    {
      match FloatArg(py, v, "Power") {
        case Err(e) =>
          Abort();
          return Err(e);
        case Ok(x) =>
          match PowerForWriting(m, unit, x) {
            case Err(e) =>
              Abort();
              return Err(e);
            case Ok(p) =>
              var y := PowerSetting(p);
              Emit(link, simulation, Head() + "TPDB" + Fixed1(py, y) + "\n");
              power := y;
              BandLimits(band);
              return Ok(());
          }
      }
    }

    /**
     * `GetPower`: "TPDB?" outside simulation, the reply (the simulated power in simulation) read
     * as a float without its last character, then converted into the unit; a unit the
     * conversion does not know closes the connection.
     */
    method GetPower(reply: string) returns (r: Result<real, Failure>)
      modifies link
      ensures var text := if simulation then SimuTLS_Power else reply;
        match ReadReal(py, text)
        case Err(e) => (r == Err(e) && link.open == old(link.open)
          && link.sent == old(link.sent) + Unless(simulation, Head() + "TPDB?\n"))
        case Ok(x) => (r == PowerForReading(m, unit, x)
          && link.open == (old(link.open) && r.Ok?)
          && link.sent == old(link.sent) + Unless(simulation, Head() + "TPDB?\n"))
      ensures Lower(unit) == "dbm" ==> r == ReadReal(py, if simulation then SimuTLS_Power else reply)
    {
      Emit(link, simulation, Head() + "TPDB?\n");
      var read := ReadReal(py, if simulation then SimuTLS_Power else reply);
      match read {
        case Err(e) => return Err(e);
        case Ok(x) =>
          r := PowerForReading(m, unit, x);
          if r.Err? {
            link.Close();
          }
      }
    }

    /** The wavelength command: the clamped value as "%4.3f" zero-filled to 8 characters. */
    function WavelengthCommand(w: real): string
    {
      Head() + "TWL" + ZFill(Fixed3(py, w), 8) + "\n"
    }

    /**
     * `SetWavelength`: `float(Wavelength)` (else off, close and ARGUMENT_TYPE), clamped into the
     * band's wavelength limits, written outside simulation and cached.
     */
    method SetWavelength(v: Value) returns (r: Result<(), Failure>)
      modifies this`status, this`wavelength, link
      ensures match FloatArg(py, v, "Wavelength")
        case Err(e) => (r == Err(e) && status == "OFF" && !link.open && wavelength == old(wavelength)
          && link.sent == old(link.sent) + Unless(simulation, Head() + "L0\n"))
        case Ok(x) => (r == Ok(()) && status == old(status) && link.open == old(link.open)
          && wavelength == Clamp(x, WlMin(band), WlMax(band))
          && link.sent == old(link.sent) + Unless(simulation, WavelengthCommand(wavelength)))
      ensures r.Ok? ==> WlMin(band) <= wavelength <= WlMax(band)
    {
      BandLimits(band);
      match FloatArg(py, v, "Wavelength") {
        case Err(e) =>
          Abort();
          return Err(e);
        case Ok(x) =>
          var y := Clamp(x, WlMin(band), WlMax(band));
          Emit(link, simulation, WavelengthCommand(y));
          wavelength := y;
          return Ok(());
      }
    }

    /** `GetWavelength`: "TWL?" outside simulation, then the reply without its last character. */
    method GetWavelength(reply: string) returns (r: Result<real, Failure>)
      modifies link
      ensures r == ReadReal(py, if simulation then SimuTLS_Wavelength else reply)
      ensures link.open == old(link.open)
      ensures link.sent == old(link.sent) + Unless(simulation, Head() + "TWL?\n")
    {
      Emit(link, simulation, Head() + "TWL?\n");
      return ReadReal(py, if simulation then SimuTLS_Wavelength else reply);
    }

    /**
     * `SetFrequency`: `float(Frequency)` (else off, close and ARGUMENT_TYPE); a positive frequency
     * sets the wavelength c / f, any other the band's maximum wavelength.
     */
    method SetFrequency(v: Value) returns (r: Result<(), Failure>)
      modifies this`status, this`wavelength, link
      ensures match FloatArg(py, v, "Frequency")
        case Err(e) => (r == Err(e) && status == "OFF" && !link.open && wavelength == old(wavelength)
          && link.sent == old(link.sent) + Unless(simulation, Head() + "L0\n"))
        case Ok(f) => (r == Ok(()) && status == old(status) && link.open == old(link.open)
          && wavelength == Clamp(if f > 0.0 then LIGHT_SPEED / f else WlMax(band), WlMin(band), WlMax(band))
          && link.sent == old(link.sent) + Unless(simulation, WavelengthCommand(wavelength)))
    {
      BandLimits(band);
      match FloatArg(py, v, "Frequency") {
        case Err(e) =>
          Abort();
          return Err(e);
        case Ok(f) =>
          var target := if f > 0.0 then LIGHT_SPEED / f else WlMax(band);
          r := SetWavelength(Float(target));
      }
    }

    /** `GetFrequency`: c divided by what `GetWavelength` returns (ZeroDivisionError for 0). */
    method GetFrequency(reply: string) returns (r: Result<real, Failure>)
      modifies link
      ensures var w := ReadReal(py, if simulation then SimuTLS_Wavelength else reply);
        r == match w
             case Err(e) => Err(e)
             case Ok(x) => if x == 0.0 then Err(ZeroDivisionError) else Ok(LIGHT_SPEED / x)
      ensures link.open == old(link.open)
      ensures link.sent == old(link.sent) + Unless(simulation, Head() + "TWL?\n")
    {
      var w := GetWavelength(reply);
      match w {
        case Err(e) => return Err(e);
        case Ok(x) =>
          if x == 0.0 {
            return Err(ZeroDivisionError);
          }
          return Ok(LIGHT_SPEED / x);
      }
    }

    /**
     * `SetSOACurrent`: a number within the calibration limits (else off, close, and ARGUMENT_TYPE
     * or ARGUMENT_VALUE), written with `str()` outside simulation and stored.
     */
    method SetSOACurrent(v: Value) returns (r: Result<(), Failure>)
      modifies this`status, this`soaCurrent, link
      ensures match NumberIn(v, cal.soaMin, cal.soaMax, "Current")
        case Err(e) => (r == Err(e) && status == "OFF" && !link.open && soaCurrent == old(soaCurrent)
          && link.sent == old(link.sent) + Unless(simulation, Head() + "L0\n"))
        case Ok(_) => (r == Ok(()) && status == old(status) && link.open == old(link.open)
          && soaCurrent == Some(v)
          && link.sent == old(link.sent) + Unless(simulation, Head() + "SETSOAVALUE" + ToStr(py, v) + "\n"))
    {
      match NumberIn(v, cal.soaMin, cal.soaMax, "Current") {
        case Err(e) =>
          Abort();
          return Err(e);
        case Ok(_) =>
          Emit(link, simulation, Head() + "SETSOAVALUE" + ToStr(py, v) + "\n");
          soaCurrent := Some(v);
          return Ok(());
      }
    }

    /** The calibration command of `SetDiodeTemp`: the four values separated by ";". */
    function DiodeCommand(s: DiodeSettings): string
    {
      Head() + "SETTARGETPARAM" + ToStr(py, s.number) + ";" + ToStr(py, s.temperature) + ";"
        + ToStr(py, s.sweepSpeed) + ";" + ToStr(py, s.soaComp) + "\n"
    }

    /**
     * `SetDiodeTemp`: the four checks of `DiodeCheck` (each failure is off, close and the error);
     * then the command outside simulation, and the four values are stored together.
     */
    method SetDiodeTemp(d: Value, t: Value, speed: Value, comp: Value) returns (r: Result<(), Failure>)
      modifies this`status, this`diode, link
      ensures match DiodeCheck(cal, d, t)
        case Err(e) => (r == Err(e) && status == "OFF" && !link.open && diode == old(diode)
          && link.sent == old(link.sent) + Unless(simulation, Head() + "L0\n"))
        case Ok(_) => (r == Ok(()) && status == old(status) && link.open == old(link.open)
          && diode == Some(DiodeSettings(d, t, speed, comp))
          && link.sent == old(link.sent) + Unless(simulation, DiodeCommand(DiodeSettings(d, t, speed, comp))))
    {
      match DiodeCheck(cal, d, t) {
        case Err(e) =>
          Abort();
          return Err(e);
        case Ok(_) =>
          var s := DiodeSettings(d, t, speed, comp);
          Emit(link, simulation, DiodeCommand(s));
          diode := Some(s);
          return Ok(());
      }
    }
  }

  /** A frequency within the band's frequency limits is set exactly: c / f is not clamped. */
  lemma FrequencyInBand(b: Band, f: real)
    requires TLS_FRMAX[TypeCode(b)].value <= f <= TLS_FRMIN[TypeCode(b)].value
    ensures f > 0.0
    ensures Clamp(LIGHT_SPEED / f, WlMin(b), WlMax(b)) == LIGHT_SPEED / f
  {
    BandLimits(b);
    WavelengthOfFrequency(WlMin(b), WlMax(b), f);
  }
}
