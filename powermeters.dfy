/**
 * The optical power meters of the AP1000 (AP1000/PowerMeter.py, PowerMeterB.py and
 * PowerMeter1.py). The three drivers are one class written three times: they differ in the
 * command family ("POW", "POWB", "POW1"), in the limits and tables they import, and in how
 * their getters cache. Here they are one class with a `Profile` saying which of the three it is.
 */
module PowerMeters {
  import opened Wrappers
  import opened Text
  import opened Python
  import opened Errors
  import opened Constants
  import opened Validation
  import opened Transport
  import opened Spectrum
  import opened Slots

  /** `PowerMeter`, `PowerMeterB` or `PowerMeter1`. */
  datatype Kind = Pwm | PwmB | Pw1

  /** The command family of each driver. */
  function Family(k: Kind): string
  {
    match k
    case Pwm => "POW"
    case PwmB => "POWB"
    case Pw1 => "POW1"
  }

  /** The average-time query: `PowerMeter1` asks "GETAVERAGE", the other two "SETAVERAGE?". */
  function AverageQuery(k: Kind): string
  {
    if k == Pw1 then "GETAVERAGE\n" else "SETAVERAGE?\n"
  }

  /**
   * What a driver imports: its channel table, its simulated identity and powers, and its limits.
   * The average-time limits are integer constants, which `str()` prints without a decimal point.
   */
  datatype Profile = Profile(
    kind: Kind,
    chType: map<string, string>,
    simSlotID: string,
    simPowerDbm: string,
    simPowerMw: string,
    wlMin: real, wlMax: real,
    avgMin: int, avgMax: int)

  predicate ValidProfile(p: Profile)
  {
    p.wlMin <= p.wlMax && p.avgMin <= p.avgMax
  }

  /** `PowerMeter` and `PowerMeterB` read the AP1000_PWM_* constants and the SimuPWM_* replies. */
  function PwmProfile(k: Kind): (p: Profile)
    requires k != Pw1
    ensures ValidProfile(p)
  {
    Profile(k, PWM_CHTYPE, SimuPWM_SlotID, SimuPWM_Power_dBm, SimuPWM_Power_mW,
            PWM_WLMIN, PWM_WLMAX, PWM_AVGMIN.Floor, PWM_AVGMAX.Floor)
  }

  /** The fourth "-" part of the third "/" field of a slot identity: one digit per channel. */
  function ChannelDigits(id: string): Option<string>
  {
    match Field(id, '/', 2)
    case None => None
    case Some(serial) => Field(serial, '-', 3)
  }

  /**
   * `GetChannels`: one entry per character of the digits that the table knows (`c == k` for a
   * key `k`), in order; unknown characters are skipped.
   */
  function ChannelTypes(digits: string, table: map<string, string>): (r: seq<string>)
    ensures |r| <= |digits|
    ensures forall i :: 0 <= i < |r| ==> r[i] in table.Values
  {
    if |digits| == 0 then []
    else
      var last := [digits[|digits| - 1]];
      ChannelTypes(digits[..|digits| - 1], table) + if last in table then [table[last]] else []
  }

  /** When every digit is in the table, there is one channel per digit, each the table's entry. */
  lemma {:induction false} ChannelTypesAllKnown(digits: string, table: map<string, string>)
    requires forall i :: 0 <= i < |digits| ==> [digits[i]] in table
    ensures |ChannelTypes(digits, table)| == |digits|
    ensures forall i :: 0 <= i < |digits| ==> ChannelTypes(digits, table)[i] == table[[digits[i]]]
  {
    if |digits| > 0 {
      var init := digits[..|digits| - 1];
      ChannelTypesAllKnown(init, table);
    }
  }

  /** Digits the table does not know give no channel at all. */
  lemma {:induction false} ChannelTypesNoneKnown(digits: string, table: map<string, string>)
    requires forall i :: 0 <= i < |digits| ==> [digits[i]] !in table
    ensures ChannelTypes(digits, table) == []
  {
    if |digits| > 0 {
      ChannelTypesNoneKnown(digits[..|digits| - 1], table);
    }
  }

  /** The loop of `GetChannels` over the digits. */
  method DecodeChannels(digits: string, table: map<string, string>) returns (channels: seq<string>)
    ensures channels == ChannelTypes(digits, table)
  {
    channels := [];
    for i := 0 to |digits|
      invariant channels == ChannelTypes(digits[..i], table)
    {
      assert digits[..i + 1][..i] == digits[..i];
      var key := [digits[i]];
      if key in table {
        channels := channels + [table[key]];
      }
    }
    assert digits[..|digits|] == digits;
  }

  /** The simulated power meter has two channels, a standard one and a high-power one. */
  lemma SimulatedChannels()
    ensures ChannelDigits(SimuPWM_SlotID) == Some("13")
    ensures ChannelTypes("13", PWM_CHTYPE) == ["Standard", "High Power"]
  {
    var serial := "13" + "-" + "3314" + "-" + "A" + "-" + "13" + "-" + "000502";
    FieldsOfIdentity("APEX-TECHNOLOGIES", "3314", serial, "1.0\n");
    SplitFive("13", "3314", "A", "13", "000502", '-');
    ChannelTypesAllKnown("13", PWM_CHTYPE);
  }

  /**
   * The constructor: the identity of the slot (read from the module outside simulation) gives the
   * channel list; an identity without the serial's fourth part is an IndexError.
   */
  method NewPowerMeter(link: Connexion, slot: int, simulation: bool, py: Conv, profile: Profile, reply: string)
    returns (r: Result<PowerMeter, Failure>)
    requires ValidProfile(profile)
    modifies link
    ensures link.sent == old(link.sent) + Unless(simulation, IdentityQuery(slot)) && link.open == old(link.open)
    ensures var id := if simulation then profile.simSlotID else reply;
      match ChannelDigits(id)
      case None => r == Err(IndexError)
      case Some(digits) => (r.Ok? && fresh(r.value) && r.value.Valid()
        && r.value.link == link && r.value.slot == slot && r.value.simulation == simulation
        && r.value.py == py && r.value.profile == profile
        && r.value.channels == ChannelTypes(digits, profile.chType)
        && r.value.unit == "dBm" && r.value.wavelength == 1550.0 && r.value.avgTime == 100.0)
  {
    Emit(link, simulation, IdentityQuery(slot));
    var id := if simulation then profile.simSlotID else reply;
    match ChannelDigits(id) {
      case None => return Err(IndexError);
      case Some(digits) =>
        var channels := DecodeChannels(digits, profile.chType);
        var meter := new PowerMeter(link, slot, simulation, py, profile, channels);
        return Ok(meter);
    }
  }

  class PowerMeter {
    const link: Connexion
    const slot: int
    const simulation: bool
    const py: Conv
    const profile: Profile
    const channels: seq<string>

    var unit: string
    var wavelength: real
    var avgTime: real

    /** The unit is one the conversions know, and the limits are ordered. */
    predicate Valid()
      reads this
    {
      ValidProfile(profile) && Lower(unit) in PowerUnits
    }

    /** The head of every command of this module. */
    function Head(): string
    {
      SlotPrefix(Family(profile.kind), slot)
    }

    constructor (link: Connexion, slot: int, simulation: bool, py: Conv, profile: Profile, channels: seq<string>)
      requires ValidProfile(profile)
      ensures this.link == link && this.slot == slot && this.simulation == simulation && this.py == py
      ensures this.profile == profile && this.channels == channels
      ensures unit == "dBm" && wavelength == 1550.0 && avgTime == 100.0 && Valid()
    {
      this.link := link;
      this.slot := slot;
      this.simulation := simulation;
      this.py := py;
      this.profile := profile;
      this.channels := channels;
      unit := "dBm";
      wavelength := 1550.0;
      avgTime := 100.0;
      InitialUnitValid();
    }

    /** `str()` of the clamped average time: the bound, an integer, when it was clamped. */
    function AverageText(x: real): string
    {
      if x < profile.avgMin as real then IntToString(profile.avgMin)
      else if x > profile.avgMax as real then IntToString(profile.avgMax)
      else py.showFloat(x)
    }

    /**
     * `SetAverageTime`: `float(AvgTime)` (else close and ARGUMENT_TYPE), clamped into the average
     * limits, written outside simulation and cached.
     */
    method SetAverageTime(v: Value) returns (r: Result<(), Failure>)
      requires ValidProfile(profile)
      modifies this`avgTime, link
      ensures match FloatArg(py, v, "AvgTime")
        case Err(e) => r == Err(e) && !link.open && link.sent == old(link.sent) && avgTime == old(avgTime)
        case Ok(x) => (r == Ok(()) && link.open == old(link.open)
          && avgTime == Clamp(x, profile.avgMin as real, profile.avgMax as real)
          && profile.avgMin as real <= avgTime <= profile.avgMax as real
          && link.sent == old(link.sent) + Unless(simulation, Head() + "SETAVERAGE" + AverageText(x) + "\n"))
    {
      match FloatArg(py, v, "AvgTime") {
        case Err(e) =>
          link.Close();
          return Err(e);
        case Ok(x) =>
          var t := Clamp(x, profile.avgMin as real, profile.avgMax as real);
          Emit(link, simulation, Head() + "SETAVERAGE" + AverageText(x) + "\n");
          avgTime := t;
          return Ok(());
      }
    }

    /**
     * `GetAverageTime`. `PowerMeter` reads the reply (the simulated one in simulation) and caches
     * nothing; the other two query outside simulation and cache the value read, and in simulation
     * return the cached value.
     */
    method GetAverageTime(reply: string) returns (r: Result<real, Failure>)
      modifies this`avgTime, link
      ensures link.open == old(link.open)
      ensures link.sent == old(link.sent) + Unless(simulation, Head() + AverageQuery(profile.kind))
      ensures profile.kind == Pwm ==> (avgTime == old(avgTime)
        && r == ReadReal(py, if simulation then SimuPWM_AvgTime else reply))
      ensures profile.kind != Pwm && simulation ==> avgTime == old(avgTime) && r == Ok(avgTime)
      ensures profile.kind != Pwm && !simulation ==> (r == ReadReal(py, reply)
        && avgTime == (if r.Ok? then r.value else old(avgTime)))
    {
      Emit(link, simulation, Head() + AverageQuery(profile.kind));
      if profile.kind == Pwm {
        return ReadReal(py, if simulation then SimuPWM_AvgTime else reply);
      } else if simulation {
        return Ok(avgTime);
      } else {
        r := ReadReal(py, reply);
        if r.Ok? {
          avgTime := r.value;
        }
      }
    }

    /** `SetUnit`: `str(Unit)` is kept when it names dBm or mW in any case. */
    method SetUnit(v: Value)
      modifies this`unit
      ensures unit == ChosenUnit(py, old(unit), v, PowerUnits)
      ensures old(Valid()) ==> Valid()
    {
      unit := ChosenUnit(py, unit, v, PowerUnits);
    }

    /** The wavelength command of channel `ch`: the clamped value as "%4.3f", zero-filled to 8 characters. */
    function WavelengthCommand(x: real, ch: int): string
    {
      Head() + "SETWAVELENGTH[" + IntToString(ch) + "]" + ZFill(Fixed3(py, x), 8) + "\n"
    }

    /**
     * `SetWavelength`: `float(Wavelength)` then `int(ChNumber)` (each failure closes and raises
     * ARGUMENT_TYPE); the wavelength is clamped into the limits, the channel falls back to 1 past
     * the last channel, and the clamped value is written and cached.
     */
    method SetWavelength(w: Value, ch: Value) returns (r: Result<(), Failure>)
      requires ValidProfile(profile)
      modifies this`wavelength, link
      ensures match FloatArg(py, w, "Wavelength")
        case Err(e) => r == Err(e) && !link.open && link.sent == old(link.sent) && wavelength == old(wavelength)
        case Ok(x) =>
          match IntArg(py, ch, "ChNumber")
          case Err(e) => r == Err(e) && !link.open && link.sent == old(link.sent) && wavelength == old(wavelength)
          case Ok(c) => (r == Ok(()) && link.open == old(link.open)
            && wavelength == Clamp(x, profile.wlMin, profile.wlMax)
            && link.sent == old(link.sent)
              + Unless(simulation, WavelengthCommand(wavelength, Channel(c, |channels|))))
    {
      match FloatArg(py, w, "Wavelength") {
        case Err(e) =>
          link.Close();
          return Err(e);
        case Ok(x) =>
          match IntArg(py, ch, "ChNumber") {
            case Err(e) =>
              link.Close();
              return Err(e);
            case Ok(c) =>
              var y := Clamp(x, profile.wlMin, profile.wlMax);
              var k := Channel(c, |channels|);
              Emit(link, simulation, WavelengthCommand(y, k));
              wavelength := y;
              return Ok(());
          }
      }
    }

    /**
     * `GetWavelength`. In `PowerMeter` the query names the misspelt `slef`, so outside simulation
     * it raises NameError before sending; in simulation it reads the simulated wavelength. The
     * other two query and cache outside simulation and return the cached value in simulation.
     */
    method GetWavelength(ch: Value, reply: string) returns (r: Result<real, Failure>)
      modifies this`wavelength, link
      ensures match IntArg(py, ch, "ChNumber")
        case Err(e) => r == Err(e) && !link.open && link.sent == old(link.sent) && wavelength == old(wavelength)
        case Ok(c) => (link.open == old(link.open)
          && (profile.kind == Pwm ==> (wavelength == old(wavelength) && link.sent == old(link.sent)
               && r == if simulation then ReadReal(py, SimuPWM_Wavelength) else Err(NameError("slef"))))
          && (profile.kind != Pwm && simulation ==>
               wavelength == old(wavelength) && link.sent == old(link.sent) && r == Ok(wavelength))
          && (profile.kind != Pwm && !simulation ==>
               link.sent == old(link.sent) + [Head() + "WAV[" + IntToString(Channel(c, |channels|)) + "]?\n"]
               && r == ReadReal(py, reply) && wavelength == (if r.Ok? then r.value else old(wavelength))))
    {
      match IntArg(py, ch, "ChNumber") {
        case Err(e) =>
          link.Close();
          return Err(e);
        case Ok(c) =>
          var k := Channel(c, |channels|);
          if profile.kind == Pwm {
            return if simulation then ReadReal(py, SimuPWM_Wavelength) else Err(NameError("slef"));
          } else if simulation {
            return Ok(wavelength);
          } else {
            link.Send(Head() + "WAV[" + IntToString(k) + "]?\n");
            r := ReadReal(py, reply);
            if r.Ok? {
              wavelength := r.value;
            }
          }
      }
    }

    /**
     * `SetFrequency`: `float(Frequency)` then `int(ChNumber)` (else close and ARGUMENT_TYPE); a
     * positive frequency sets the wavelength c / f, any other the maximum wavelength.
     */
    method SetFrequency(f: Value, ch: Value) returns (r: Result<(), Failure>)
      requires ValidProfile(profile)
      modifies this`wavelength, link
      ensures match FloatArg(py, f, "Frequency")
        case Err(e) => r == Err(e) && !link.open && link.sent == old(link.sent) && wavelength == old(wavelength)
        case Ok(x) =>
          match IntArg(py, ch, "ChNumber")
          case Err(e) => r == Err(e) && !link.open && link.sent == old(link.sent) && wavelength == old(wavelength)
          case Ok(c) => (r == Ok(()) && link.open == old(link.open)
            && wavelength == Clamp(if x > 0.0 then LIGHT_SPEED / x else profile.wlMax, profile.wlMin, profile.wlMax)
            && link.sent == old(link.sent)
              + Unless(simulation, WavelengthCommand(wavelength, Channel(c, |channels|))))
    {
      match FloatArg(py, f, "Frequency") {
        case Err(e) =>
          link.Close();
          return Err(e);
        case Ok(x) =>
          match IntArg(py, ch, "ChNumber") {
            case Err(e) =>
              link.Close();
              return Err(e);
            case Ok(c) =>
              var k := Channel(c, |channels|);
              var target := if x > 0.0 then LIGHT_SPEED / x else profile.wlMax;
              ChannelIdempotent(c, |channels|);
              r := SetWavelength(Float(target), Int(k));
          }
      }
    }

    /**
     * `GetFrequency`: `int(ChNumber)` (else close and ARGUMENT_TYPE), the channel fall-back, then
     * c divided by what `GetWavelength` returns for that channel (ZeroDivisionError for 0), with
     * the query and the cached wavelength that `GetWavelength` leaves.
     */
    method GetFrequency(ch: Value, reply: string) returns (r: Result<real, Failure>)
      modifies this`wavelength, link
      ensures match IntArg(py, ch, "ChNumber")
        case Err(e) => r == Err(e) && !link.open && link.sent == old(link.sent) && wavelength == old(wavelength)
        case Ok(c) =>
          var queried := profile.kind != Pwm && !simulation;
          var w := if profile.kind == Pwm then (if simulation then ReadReal(py, SimuPWM_Wavelength) else Err(NameError("slef")))
                   else if simulation then Ok(old(wavelength)) else ReadReal(py, reply);
          (link.open == old(link.open)
          && r == (match w
                   case Err(e) => Err(e)
                   case Ok(x) => if x == 0.0 then Err(ZeroDivisionError) else Ok(LIGHT_SPEED / x))
          && link.sent == old(link.sent) + (if queried then [Head() + "WAV[" + IntToString(Channel(c, |channels|)) + "]?\n"] else [])
          && wavelength == (if queried && w.Ok? then w.value else old(wavelength)))
      ensures profile.kind != Pwm && IntArg(py, ch, "ChNumber").Ok? && r.Ok? ==> r.value == LIGHT_SPEED / wavelength
      ensures r.Ok? ==> r.value != 0.0
    {
      match IntArg(py, ch, "ChNumber") {
        case Err(e) =>
          link.Close();
          return Err(e);
        case Ok(c) =>
          var k := Channel(c, |channels|);
          ChannelIdempotent(c, |channels|);
          var w := GetWavelength(Int(k), reply);
          match w {
            case Err(e) => return Err(e);
            case Ok(x) =>
              if x == 0.0 {
                return Err(ZeroDivisionError);
              }
              return Ok(LIGHT_SPEED / x);
          }
      }
    }

    /** The power query for the unit: "DBM[ch]?" or "MW[ch]?"; any other unit has none. */
    function PowerQuery(ch: int): Option<string>
      reads this
    {
      if Lower(unit) == "dbm" then Some(Head() + "DBM[" + IntToString(ch) + "]?\n")
      else if Lower(unit) == "mw" then Some(Head() + "MW[" + IntToString(ch) + "]?\n")
      else None
    }

    /** The cause of the unit error: the attribute name as each driver spells it. */
    function UnitCause(): string
    {
      if profile.kind == Pwm then "self.Unit" else "self.__Unit"
    }

    /**
     * `GetPower`: `int(ChNumber)` (else close and ARGUMENT_TYPE), the channel fall-back, then the
     * query of the unit (the simulated value of the unit in simulation); a unit that is neither
     * dBm nor mW closes and raises VARIABLE_NOT_DEFINED, which cannot happen to a valid meter.
     */
    method GetPower(ch: Value, reply: string) returns (r: Result<real, Failure>)
      modifies link
      ensures match IntArg(py, ch, "ChNumber")
        case Err(e) => r == Err(e) && !link.open && link.sent == old(link.sent)
        case Ok(c) =>
          match PowerQuery(Channel(c, |channels|))
          case None => r == Err(Apex(VARIABLE_NOT_DEFINED, UnitCause())) && !link.open && link.sent == old(link.sent)
          case Some(q) => (link.open == old(link.open) && link.sent == old(link.sent) + Unless(simulation, q)
            && r == ReadReal(py, if !simulation then reply
                                 else if Lower(unit) == "dbm" then profile.simPowerDbm else profile.simPowerMw))
      ensures Valid() && IntArg(py, ch, "ChNumber").Ok? ==> r != Err(Apex(VARIABLE_NOT_DEFINED, UnitCause()))
    {
      match IntArg(py, ch, "ChNumber") {
        case Err(e) =>
          link.Close();
          return Err(e);
        case Ok(c) =>
          match PowerQuery(Channel(c, |channels|)) {
            case None =>
              link.Close();
              return Err(Apex(VARIABLE_NOT_DEFINED, UnitCause()));
            case Some(q) =>
              Emit(link, simulation, q);
              return ReadReal(py, if !simulation then reply
                                  else if Lower(unit) == "dbm" then profile.simPowerDbm else profile.simPowerMw);
          }
      }
    }
  }
}
