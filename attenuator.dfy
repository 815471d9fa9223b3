/**
 * The optical attenuator of the AP1000 (AP1000/Attenuator.py): an attenuation per channel, in dB
 * or in percent, checked against the attenuator's limits and written with a zero-based channel.
 * Unlike the other modules, it raises its errors without closing the connection.
 */
module Attenuators {
  import opened Wrappers
  import opened Text
  import opened Python
  import opened Errors
  import opened Constants
  import opened Transport
  import opened Spectrum
  import opened Slots

  const AttenuationUnits: set<string> := {"db", "%"}

  /**
   * `ConvertForWriting`: in dB the attenuation as given; in % `log10` of it must exist (a
   * positive value, else ARGUMENT_VALUE) and `-10 * log10(a / 100)` is written; any other unit
   * is VARIABLE_NOT_DEFINED.
   */
  function AttenuationForWriting(m: Maths, unit: string, a: real): (r: Result<real, Failure>)
    ensures r.Err? <==> Lower(unit) !in AttenuationUnits || (Lower(unit) == "%" && a <= 0.0)
    ensures Lower(unit) == "db" ==> r == Ok(a)
    ensures r.Err? ==> r.error == if Lower(unit) == "%" then Apex(ARGUMENT_VALUE, "Attenuation")
                                  else Apex(VARIABLE_NOT_DEFINED, "self.Unit")
  {
    if Lower(unit) == "db" then Ok(a)
    else if Lower(unit) == "%" then
      if a > 0.0 then Ok(-10.0 * m.log10(a / 100.0)) else Err(Apex(ARGUMENT_VALUE, "Attenuation"))
    else Err(Apex(VARIABLE_NOT_DEFINED, "self.Unit"))
  }

  /** `ConvertForReading`: in % `10 ** (-a / 10)`, in dB the attenuation itself; else VARIABLE_NOT_DEFINED. */
  function AttenuationForReading(m: Maths, unit: string, a: real): (r: Result<real, Failure>)
    ensures r.Err? <==> Lower(unit) !in AttenuationUnits
    ensures Lower(unit) == "db" ==> r == Ok(a)
    ensures r.Err? ==> r.error == Apex(VARIABLE_NOT_DEFINED, "self.Unit")
  {
    if Lower(unit) == "%" then Ok(m.pow10(-a / 10.0))
    else if Lower(unit) == "db" then Ok(a)
    else Err(Apex(VARIABLE_NOT_DEFINED, "self.Unit"))
  }

  /** In dB an attenuation read back is the one written. */
  lemma DbRoundTrip(m: Maths, unit: string, a: real)
    requires Lower(unit) == "db"
    ensures AttenuationForWriting(m, unit, a) == Ok(a)
    ensures AttenuationForReading(m, unit, AttenuationForWriting(m, unit, a).value) == Ok(a)
  {
  }

  /** `int(ChNumber)` of an argument already known to be an `int` (or a `bool`). */
  function IntOf(v: Value): (n: int)
    requires IsInt(v)
    ensures n as real == Number(v)
  {
    if v.Int? then v.i else if v.b then 1 else 0
  }

  /** `isinstance(ChNumber, int)` then `1 <= ChNumber <= AP1000_ATT_CHNUMBER`. */
  function ChannelCheck(ch: Value): (r: Result<int, Failure>)
    ensures r.Ok? <==> IsInt(ch) && 1 <= IntOf(ch) <= ATT_CHNUMBER
    ensures r.Ok? ==> r.value == IntOf(ch)
    ensures !IsInt(ch) ==> r == Err(Apex(ARGUMENT_TYPE, "ChNumber"))
    ensures IsInt(ch) && r.Err? ==> r == Err(Apex(ARGUMENT_VALUE, "ChNumber"))
  {
    if !IsInt(ch) then Err(Apex(ARGUMENT_TYPE, "ChNumber"))
    else if IntOf(ch) > ATT_CHNUMBER || IntOf(ch) < 1 then Err(Apex(ARGUMENT_VALUE, "ChNumber"))
    else Ok(IntOf(ch))
  }

  /**
   * `SetAttenuation`'s checks in the driver's order: both argument types, then the conversion
   * from the unit, then the converted attenuation against its limits, then the channel range.
   * The result is the attenuation in dB and the channel.
   */
  function AttenuationCheck(m: Maths, unit: string, v: Value, ch: Value): (r: Result<(real, int), Failure>)
    ensures !IsNumber(v) ==> r == Err(Apex(ARGUMENT_TYPE, "Attenuation"))
    ensures IsNumber(v) && !IsInt(ch) ==> r == Err(Apex(ARGUMENT_TYPE, "ChNumber"))
    ensures r.Ok? <==> IsNumber(v) && IsInt(ch)
                       && AttenuationForWriting(m, unit, Number(v)).Ok?
                       && ATT_ATTMIN <= AttenuationForWriting(m, unit, Number(v)).value <= ATT_ATTMAX
                       && ChannelCheck(ch).Ok?
    ensures r.Ok? ==> r.value == (AttenuationForWriting(m, unit, Number(v)).value, IntOf(ch))
  {
    if !IsNumber(v) then Err(Apex(ARGUMENT_TYPE, "Attenuation"))
    else if !IsInt(ch) then Err(Apex(ARGUMENT_TYPE, "ChNumber"))
    else
      match AttenuationForWriting(m, unit, Number(v))
      case Err(e) => Err(e)
      case Ok(a) =>
        if a < ATT_ATTMIN || a > ATT_ATTMAX then Err(Apex(ARGUMENT_VALUE, "Attenuation"))
        else
          match ChannelCheck(ch)
          case Err(e) => Err(e)
          case Ok(c) => Ok((a, c))
  }

  /**
   * `SetAttenuation` as written: the limit constants are never imported, so once both types are
   * right and the conversion succeeds, the range test raises NameError.
   */
  function SetAttenuationAsWritten(m: Maths, unit: string, v: Value, ch: Value): (r: Result<(), Failure>)
    ensures r.Err?
    ensures IsNumber(v) && IsInt(ch) && AttenuationForWriting(m, unit, Number(v)).Ok? ==>
      r == Err(NameError("AP1000_ATT_ATTMIN"))
  {
    if !IsNumber(v) then Err(Apex(ARGUMENT_TYPE, "Attenuation"))
    else if !IsInt(ch) then Err(Apex(ARGUMENT_TYPE, "ChNumber"))
    else
      match AttenuationForWriting(m, unit, Number(v))
      case Err(e) => Err(e)
      case Ok(_) => Err(NameError("AP1000_ATT_ATTMIN"))
  }

  /** `GetAttenuation` as written: a right channel type reaches the unimported channel count. */
  function GetAttenuationAsWritten(ch: Value): (r: Result<real, Failure>)
    ensures r.Err?
    ensures IsInt(ch) ==> r == Err(NameError("AP1000_ATT_CHNUMBER"))
  {
    if !IsInt(ch) then Err(Apex(ARGUMENT_TYPE, "ChNumber")) else Err(NameError("AP1000_ATT_CHNUMBER"))
  }

  /** 10 dB on channel 1 is a valid setting, which the code as written still refuses. */
  lemma AsWrittenRefusesValidSetting(m: Maths)
    ensures AttenuationCheck(m, "dB", Float(10.0), Int(1)) == Ok((10.0, 1))
    ensures SetAttenuationAsWritten(m, "dB", Float(10.0), Int(1)) == Err(NameError("AP1000_ATT_ATTMIN"))
    ensures ChannelCheck(Int(1)).Ok? && GetAttenuationAsWritten(Int(1)).Err?
  {
    assert Lower("dB") == "db";
  }

  /** The channel as written on the wire: `ChNumber - 1`, so 0 or 1 for a checked channel. */
  function WireChannel(ch: int): (s: string)
  {
    IntToString(ch - 1)
  }

  /** Checked channels go on the wire as "0" and "1", one per channel. */
  lemma WireChannelsZeroBased()
    ensures WireChannel(1) == "0" && WireChannel(2) == "1"
  {
    assert NatToString(0) == "0" && NatToString(1) == "1";
  }

  class Attenuator {
    const link: Connexion
    const slot: int
    const simulation: bool
    const py: Conv
    const m: Maths

    var unit: string
    var attenuation: real

    /** The unit is one the conversions know and the attenuation is within the limits. */
    predicate Valid()
      reads this
    {
      Lower(unit) in AttenuationUnits && ATT_ATTMIN <= attenuation <= ATT_ATTMAX
    }

    /** "ATT[ss]:", the head of every command of this attenuator. */
    function Head(): string
    {
      SlotPrefix("ATT", slot)
    }

    constructor (link: Connexion, slot: int, simulation: bool, py: Conv, m: Maths)
      ensures this.link == link && this.slot == slot && this.simulation == simulation
      ensures this.py == py && this.m == m
      ensures unit == "dB" && attenuation == 0.0 && Valid()
    {
      this.link := link;
      this.slot := slot;
      this.simulation := simulation;
      this.py := py;
      this.m := m;
      unit := "dB";
      attenuation := 0.0;
      assert Lower("dB") == "db";
    }

    /**
     * `SetAttenuation` with the constants it uses imported (see `SetAttenuationAsWritten`): the
     * checks of `AttenuationCheck`, then "DB[ch-1]" and the dB value with one decimal outside
     * simulation; the converted value is cached. No error closes the connection.
     */
    method SetAttenuation(v: Value, ch: Value) returns (r: Result<(), Failure>)
      modifies this`attenuation, link
      ensures link.open == old(link.open)
      ensures match AttenuationCheck(m, unit, v, ch)
        case Err(e) => r == Err(e) && attenuation == old(attenuation) && link.sent == old(link.sent)
        case Ok(p) => (r == Ok(()) && attenuation == p.0
          && link.sent == old(link.sent)
               + Unless(simulation, Head() + "DB[" + WireChannel(p.1) + "]" + Fixed1(py, p.0) + "\n"))
      ensures old(Valid()) ==> Valid()
    {
      match AttenuationCheck(m, unit, v, ch) {
        case Err(e) => return Err(e);
        case Ok(p) =>
          Emit(link, simulation, Head() + "DB[" + WireChannel(p.1) + "]" + Fixed1(py, p.0) + "\n");
          attenuation := p.0;
          return Ok(());
      }
    }

    /**
     * `GetAttenuation` with its constants imported (see `GetAttenuationAsWritten`): the channel
     * checks, "DB[ch-1]?" outside simulation, the reply (the simulated one in simulation) without
     * its last character, converted into the unit.
     */
    method GetAttenuation(ch: Value, reply: string) returns (r: Result<real, Failure>)
      modifies link
      ensures link.open == old(link.open)
      ensures match ChannelCheck(ch)
        case Err(e) => r == Err(e) && link.sent == old(link.sent)
        case Ok(c) => (link.sent == old(link.sent) + Unless(simulation, Head() + "DB[" + WireChannel(c) + "]?\n")
          && r == match ReadReal(py, if simulation then SimuATT_Attenuation else reply)
                  case Err(e) => Err(e)
                  case Ok(x) => AttenuationForReading(m, unit, x))
    {
      match ChannelCheck(ch) {
        case Err(e) => return Err(e);
        case Ok(c) =>
          Emit(link, simulation, Head() + "DB[" + WireChannel(c) + "]?\n");
          match ReadReal(py, if simulation then SimuATT_Attenuation else reply) {
            case Err(e) => return Err(e);
            case Ok(x) => return AttenuationForReading(m, unit, x);
          }
      }
    }

    /** `SetUnit`: a string is required (else ARGUMENT_TYPE); it is kept when it names dB or %. */
    method SetUnit(v: Value) returns (r: Result<(), Failure>)
      modifies this`unit
      ensures !v.Str? ==> r == Err(Apex(ARGUMENT_TYPE, "Unit")) && unit == old(unit)
      ensures v.Str? ==> r == Ok(()) && unit == (if Lower(v.s) in AttenuationUnits then v.s else old(unit))
      ensures old(Valid()) ==> Valid()
    {
      if !v.Str? {
        return Err(Apex(ARGUMENT_TYPE, "Unit"));
      }
      if Lower(v.s) in AttenuationUnits {
        unit := v.s;
      }
      return Ok(());
    }
  }
}
