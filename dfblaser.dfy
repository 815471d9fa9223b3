/**
 * The DFB laser source of the AP1000 (AP1000/DfbLaser.py): a C-, L- or O-band laser whose band,
 * read from the slot identity, selects the limits its setters clamp into. The band codes, the
 * per-band limits and the simulated identity it imports are not in the constant table, so they
 * are a parameter here.
 */
module DfbLasers {
  import opened Wrappers
  import opened Text
  import opened Python
  import opened Errors
  import opened Constants
  import opened Validation
  import opened Transport
  import opened Spectrum
  import opened Slots

  /** The three lasers: `Type` 0 is the C band, 2 the L band, 5 the O band. */
  datatype Band = CBand | LBand | OBand

  /** The `Type` attribute, the index of the band in the limit tables. */
  function TypeCode(b: Band): (t: int)
    ensures t in {0, 2, 5}
  {
    match b
    case CBand => 0
    case LBand => 2
    case OBand => 5
  }

  /** `AP1000_DFB_POWMIN[Type]` and the other tables, for one band. */
  datatype Limits = Limits(powMin: real, powMax: real, wlMin: real, wlMax: real, frMin: real, frMax: real)

  /** Ordered limits, with a positive minimum frequency since c is divided by it. */
  predicate ValidLimits(l: Limits)
  {
    l.powMin <= l.powMax && l.wlMin <= l.wlMax && 0.0 < l.frMin <= l.frMax
  }

  /** `AP1000_DFB_CBAND`, `_LBAND`, `_OBAND`, the limit tables and `SimuDFB_SlotID`. */
  datatype Profile = Profile(cCode: int, lCode: int, oCode: int,
                             c: Limits, l: Limits, o: Limits, simSlotID: string)

  predicate ValidProfile(p: Profile)
  {
    ValidLimits(p.c) && ValidLimits(p.l) && ValidLimits(p.o)
  }

  /** The limits of a band. */
  function LimitsOf(p: Profile, b: Band): (l: Limits)
    ensures ValidProfile(p) ==> ValidLimits(l)
  {
    match b
    case CBand => p.c
    case LBand => p.l
    case OBand => p.o
  }

  /**
   * The band `GetType` finds in an identity's second "/" field: the first of the C, L and O band
   * codes, as `str()` prints them, that occurs in it.
   */
  function BandOf(p: Profile, field: string): (r: Option<Band>)
    ensures r == Some(CBand) <==> Contains(field, IntToString(p.cCode))
    ensures r == Some(LBand) <==> !Contains(field, IntToString(p.cCode)) && Contains(field, IntToString(p.lCode))
    ensures r == Some(OBand) <==> !Contains(field, IntToString(p.cCode)) && !Contains(field, IntToString(p.lCode))
                                  && Contains(field, IntToString(p.oCode))
  {
    if Contains(field, IntToString(p.cCode)) then Some(CBand)
    else if Contains(field, IntToString(p.lCode)) then Some(LBand)
    else if Contains(field, IntToString(p.oCode)) then Some(OBand)
    else None
  }

  /** The status a `L?` reply gives: "ON" for the reply "1" (its last character dropped), else "OFF". */
  function StatusOf(reply: string): (s: string)
    ensures s == "ON" <==> DropLast(reply) == "1"
    ensures s == "ON" || s == "OFF"
  {
    if DropLast(reply) == "1" then "ON" else "OFF"
  }

  /** Exactly the replies "1" followed by one character read as "ON". */
  lemma StatusOnReplies(reply: string)
    ensures StatusOf(reply) == "ON" <==> |reply| == 2 && reply[0] == '1'
  {
    if |reply| == 2 && reply[0] == '1' {
      assert DropLast(reply) == "1";
    }
    if DropLast(reply) == "1" {
      assert DropLast(reply) + [reply[|reply| - 1]] == reply;
    }
  }

  /**
   * The constructor: the band is read from the slot identity (the simulated one in simulation).
   * An identity without a second "/" field is an IndexError; one naming no band switches the
   * laser off, closes the connection and raises SLOT_TYPE_NOT_DEFINED with the slot number.
   */
  method NewDfbLaser(link: Connexion, slot: int, simulation: bool, py: Conv, m: Maths,
                     profile: Profile, reply: string)
    returns (r: Result<DfbLaser, Failure>)
    requires ValidProfile(profile)
    modifies link
    ensures var id := if simulation then profile.simSlotID else reply;
      match Field(id, '/', 1)
      case None => (r == Err(IndexError) && link.open == old(link.open)
        && link.sent == old(link.sent) + Unless(simulation, IdentityQuery(slot)))
      case Some(f) =>
        match BandOf(profile, f)
        case None => (r == Err(Apex(SLOT_TYPE_NOT_DEFINED, IntToString(slot))) && !link.open
          && link.sent == old(link.sent) + Unless(simulation, IdentityQuery(slot))
                                         + Unless(simulation, SlotPrefix("DFB", slot) + "L0\n"))
        case Some(b) => (r.Ok? && fresh(r.value) && r.value.Valid()
          && r.value.link == link && r.value.slot == slot && r.value.simulation == simulation
          && r.value.py == py && r.value.m == m && r.value.profile == profile && r.value.band == b
          && r.value.unit == "dBm" && r.value.wavelength == 1550.0 && r.value.power == 0.0
          && r.value.status == "OFF" && link.open == old(link.open)
          && link.sent == old(link.sent) + Unless(simulation, IdentityQuery(slot)))
  {
    Emit(link, simulation, IdentityQuery(slot));
    var id := if simulation then profile.simSlotID else reply;
    match Field(id, '/', 1) {
      case None => return Err(IndexError);
      case Some(f) =>
        match BandOf(profile, f) {
          case None =>
            Emit(link, simulation, SlotPrefix("DFB", slot) + "L0\n");
            link.Close();
            return Err(Apex(SLOT_TYPE_NOT_DEFINED, IntToString(slot)));
          case Some(b) =>
            var laser := new DfbLaser(link, slot, simulation, py, m, profile, b);
            return Ok(laser);
        }
    }
  }

  class DfbLaser {
    const link: Connexion
    const slot: int
    const simulation: bool
    const py: Conv
    const m: Maths
    const profile: Profile
    const band: Band

    var unit: string
    var wavelength: real
    var power: real
    var status: string

    /** The limits are ordered, the unit is one the conversions know, and the laser is on or off. */
    predicate Valid()
      reads this
    {
      ValidProfile(profile) && Lower(unit) in PowerUnits && (status == "ON" || status == "OFF")
    }

    /** "DFB[ss]:", the head of every command of this laser. */
    function Head(): string
    {
      SlotPrefix("DFB", slot)
    }

    /** The limits of this laser's band. */
    function Lim(): Limits
    {
      LimitsOf(profile, band)
    }

    constructor (link: Connexion, slot: int, simulation: bool, py: Conv, m: Maths, profile: Profile, band: Band)
      requires ValidProfile(profile)
      ensures this.link == link && this.slot == slot && this.simulation == simulation
      ensures this.py == py && this.m == m && this.profile == profile && this.band == band
      ensures unit == "dBm" && wavelength == 1550.0 && power == 0.0 && status == "OFF" && Valid()
    {
      this.link := link;
      this.slot := slot;
      this.simulation := simulation;
      this.py := py;
      this.m := m;
      this.profile := profile;
      this.band := band;
      unit := "dBm";
      wavelength := 1550.0;
      power := 0.0;
      status := "OFF";
      InitialUnitValid();
    }

    /** `On`: "L1" outside simulation; the status is "ON" in both modes. */
    method On()
      modifies this`status, link
      ensures status == "ON" && link.open == old(link.open)
      ensures link.sent == old(link.sent) + Unless(simulation, Head() + "L1\n")
    {
      Emit(link, simulation, Head() + "L1\n");
      status := "ON";
    }

    /** `Off`: "L0" outside simulation; the status is "OFF" in both modes. */
    method Off()
      modifies this`status, link
      ensures status == "OFF" && link.open == old(link.open)
      ensures link.sent == old(link.sent) + Unless(simulation, Head() + "L0\n")
    {
      Emit(link, simulation, Head() + "L0\n");
      status := "OFF";
    }

    /** `self.Off()` then `self.Connexion.close()`, before each argument error. */
    method Abort()
      modifies this`status, link
      ensures status == "OFF" && !link.open
      ensures link.sent == old(link.sent) + Unless(simulation, Head() + "L0\n")
    {
      Off();
      link.Close();
    }

    /**
     * `GetStatus`: outside simulation "L?" is sent and the reply decides the status, which is
     * cached; in simulation the cached status is returned.
     */
    method GetStatus(reply: string) returns (s: string)
      modifies this`status, link
      ensures link.open == old(link.open)
      ensures link.sent == old(link.sent) + Unless(simulation, Head() + "L?\n")
      ensures status == (if simulation then old(status) else StatusOf(reply))
      ensures s == status
    {
      Emit(link, simulation, Head() + "L?\n");
      if !simulation {
        status := StatusOf(reply);
      }
      return status;
    }

    /** `SetUnit`: `str(Unit)` is kept when it names dBm or mW in any case. */
    method SetUnit(v: Value)
      modifies this`unit
      ensures unit == ChosenUnit(py, old(unit), v, PowerUnits)
      ensures old(Valid()) ==> Valid()
    {
      unit := ChosenUnit(py, unit, v, PowerUnits);
    }

    /** The power set for `x` in dBm: `if`/`elif` against the band's power limits. */
    function PowerSetting(x: real): (p: real)
      requires ValidProfile(profile)
      ensures Lim().powMin <= p <= Lim().powMax
      ensures p == Clamp(x, Lim().powMin, Lim().powMax)
    {
      if x < Lim().powMin then Lim().powMin
      else if x > Lim().powMax then Lim().powMax
      else x
    }

    /**
     * `SetPower`: `float(Power)` (else off, close and ARGUMENT_TYPE), converted from the unit into
     * dBm (a non-positive power in mW is off, close and ARGUMENT_VALUE), clamped into the band's
     * power limits, written as "TPDB" with one decimal outside simulation, and cached.
     */
    method SetPower(v: Value) returns (r: Result<(), Failure>)
      requires ValidProfile(profile)
      modifies this`status, this`power, link
      ensures match FloatArg(py, v, "Power")
        case Err(e) => (r == Err(e) && status == "OFF" && !link.open && power == old(power)
          && link.sent == old(link.sent) + Unless(simulation, Head() + "L0\n"))
        case Ok(x) =>
          match PowerForWriting(m, unit, x)
          case Err(e) => (r == Err(e) && status == "OFF" && !link.open && power == old(power)
            && link.sent == old(link.sent) + Unless(simulation, Head() + "L0\n"))
          case Ok(p) => (r == Ok(()) && status == old(status) && link.open == old(link.open)
            && power == PowerSetting(p)
            && link.sent == old(link.sent) + Unless(simulation, Head() + "TPDB" + Fixed1(py, power) + "\n"))
      ensures r.Ok? ==> Lim().powMin <= power <= Lim().powMax
    {
      match FloatArg(py, v, "Power") {
        case Err(e) =>
          Abort();
          return Err(e);
        case Ok(x) =>
          match PowerForWriting(m, unit, x) {
            case Err(e) =>
              Abort();
              return Err(e);
            case Ok(p) =>
              var y := PowerSetting(p);
              Emit(link, simulation, Head() + "TPDB" + Fixed1(py, y) + "\n");
              power := y;
              return Ok(());
          }
      }
    }

    /**
     * `GetPower`: in simulation the power is drawn between the band's limits (`draw` is what
     * `random()` returned); outside simulation "TPDB?" is sent and the reply, without its last
     * character, is parsed (a ValueError leaves the cached power). The cached power is then
     * converted into the unit; a unit the conversion does not know closes the connection.
     */
    method GetPower(reply: string, draw: real) returns (r: Result<real, Failure>)
      modifies this`power, link
      ensures link.sent == old(link.sent) + Unless(simulation, Head() + "TPDB?\n")
      ensures simulation ==> power == draw * (Lim().powMax - Lim().powMin) + Lim().powMin
      ensures !simulation && ReadReal(py, reply).Err? ==>
        r == ReadReal(py, reply) && power == old(power) && link.open == old(link.open)
      ensures !simulation && ReadReal(py, reply).Ok? ==> power == ReadReal(py, reply).value
      ensures simulation || ReadReal(py, reply).Ok? ==>
        r == PowerForReading(m, unit, power) && link.open == (old(link.open) && r.Ok?)
    {
      Emit(link, simulation, Head() + "TPDB?\n");
      if simulation {
        power := draw * (Lim().powMax - Lim().powMin) + Lim().powMin;
      } else {
        var read := ReadReal(py, reply);
        if read.Err? {
          return read;
        }
        power := read.value;
      }
      r := PowerForReading(m, unit, power);
      if r.Err? {
        link.Close();
      }
    }

    /** The wavelength command: the clamped value as "%4.3f" zero-filled to 8 characters. */
    function WavelengthCommand(w: real): string
    {
      Head() + "TWL" + ZFill(Fixed3(py, w), 8) + "\n"
    }

    /**
     * `SetWavelength`: `float(Wavelength)` (else off, close and ARGUMENT_TYPE), clamped into the
     * band's wavelength limits, written outside simulation and cached.
     */
    method SetWavelength(v: Value) returns (r: Result<(), Failure>)
      requires ValidProfile(profile)
      modifies this`status, this`wavelength, link
      ensures match FloatArg(py, v, "Wavelength")
        case Err(e) => (r == Err(e) && status == "OFF" && !link.open && wavelength == old(wavelength)
          && link.sent == old(link.sent) + Unless(simulation, Head() + "L0\n"))
        case Ok(x) => (r == Ok(()) && status == old(status) && link.open == old(link.open)
          && wavelength == Clamp(x, Lim().wlMin, Lim().wlMax)
          && link.sent == old(link.sent) + Unless(simulation, WavelengthCommand(wavelength)))
      ensures r.Ok? ==> Lim().wlMin <= wavelength <= Lim().wlMax
    {
      match FloatArg(py, v, "Wavelength") {
        case Err(e) =>
          Abort();
          return Err(e);
        case Ok(x) =>
          var y := Clamp(x, Lim().wlMin, Lim().wlMax);
          Emit(link, simulation, WavelengthCommand(y));
          wavelength := y;
          return Ok(());
      }
    }

    /**
     * `GetWavelength`: outside simulation "TWL?" is sent and a reply that parses (without its last
     * character) replaces the cached wavelength; one that does not is ignored. In simulation the
     * drawn wavelength is a float, which cannot be sliced, so the cached one is returned.
     */
    method GetWavelength(reply: string) returns (w: real)
      modifies this`wavelength, link
      ensures link.open == old(link.open)
      ensures link.sent == old(link.sent) + Unless(simulation, Head() + "TWL?\n")
      ensures wavelength == (if !simulation && ReadReal(py, reply).Ok? then ReadReal(py, reply).value
                             else old(wavelength))
      ensures w == wavelength
    {
      Emit(link, simulation, Head() + "TWL?\n");
      if !simulation {
        var read := ReadReal(py, reply);
        if read.Ok? {
          wavelength := read.value;
        }
      }
      return wavelength;
    }

    /**
     * `SetFrequency`: `float(Frequency)` (else off, close and ARGUMENT_TYPE), clamped into the
     * band's frequency limits, then `SetWavelength(c / f)`.
     */
    method SetFrequency(v: Value) returns (r: Result<(), Failure>)
      requires ValidProfile(profile)
      modifies this`status, this`wavelength, link
      ensures match FloatArg(py, v, "Frequency")
        case Err(e) => (r == Err(e) && status == "OFF" && !link.open && wavelength == old(wavelength)
          && link.sent == old(link.sent) + Unless(simulation, Head() + "L0\n"))
        case Ok(f) => (r == Ok(()) && status == old(status) && link.open == old(link.open)
          && wavelength == Clamp(LIGHT_SPEED / Clamp(f, Lim().frMin, Lim().frMax), Lim().wlMin, Lim().wlMax)
          && link.sent == old(link.sent) + Unless(simulation, WavelengthCommand(wavelength)))
    {
      match FloatArg(py, v, "Frequency") {
        case Err(e) =>
          Abort();
          return Err(e);
        case Ok(f) =>
          var g := Clamp(f, Lim().frMin, Lim().frMax);
          r := SetWavelength(Float(LIGHT_SPEED / g));
      }
    }

    /** `GetFrequency`: c divided by what `GetWavelength` returns (ZeroDivisionError for 0). */
    method GetFrequency(reply: string) returns (r: Result<real, Failure>)
      modifies this`wavelength, link
      ensures link.open == old(link.open)
      ensures link.sent == old(link.sent) + Unless(simulation, Head() + "TWL?\n")
      ensures r == if wavelength == 0.0 then Err(ZeroDivisionError) else Ok(LIGHT_SPEED / wavelength)
      ensures wavelength == (if !simulation && ReadReal(py, reply).Ok? then ReadReal(py, reply).value
                             else old(wavelength))
    {
      var w := GetWavelength(reply);
      if w == 0.0 {
        return Err(ZeroDivisionError);
      }
      return Ok(LIGHT_SPEED / w);
    }
  }

  /**
   * A frequency inside the band's limits is not clamped, and when the frequency limits are
   * c / wavelength limits, neither is the wavelength it gives.
   */
  lemma FrequencyInBand(l: Limits, f: real)
    requires ValidLimits(l) && 0.0 < l.wlMin
    requires l.frMin == LIGHT_SPEED / l.wlMax && l.frMax == LIGHT_SPEED / l.wlMin
    requires l.frMin <= f <= l.frMax
    ensures Clamp(f, l.frMin, l.frMax) == f
    ensures Clamp(LIGHT_SPEED / f, l.wlMin, l.wlMax) == LIGHT_SPEED / f
  {
    WavelengthOfFrequency(l.wlMin, l.wlMax, f);
  }
}
