/**
 * The erbium-doped fibre amplifier of the AP1000 (AP1000/ErbiumAmplifier.py): its type letter,
 * read from the slot identity, the pump-current setting and the voltage and power readings.
 */
module ErbiumAmplifiers {
  import opened Wrappers
  import opened Text
  import opened Python
  import opened Errors
  import opened Constants
  import opened Transport
  import opened Spectrum
  import opened Slots

  /** The three amplifiers, by the option letter of their serial: A, B and C. */
  datatype AmpType = Booster | InLine | PreAmplifier

  /** The digit `GetType` returns by default, also the index into `AP1000_EFA_IPMAX`. */
  function TypeCode(t: AmpType): (n: int)
    ensures 0 <= n < |EFA_IPMAX|
  {
    match t
    case Booster => 0
    case InLine => 1
    case PreAmplifier => 2
  }

  /** The option letter of each type. */
  function Letter(t: AmpType): string
  {
    match t
    case Booster => "A"
    case InLine => "B"
    case PreAmplifier => "C"
  }

  /** The name `GetType("s")` returns. */
  function Name(t: AmpType): string
  {
    match t
    case Booster => "Booster"
    case InLine => "In-Line"
    case PreAmplifier => "Pre-Amplifier"
  }

  /** The three forms are each one-to-one: a type is known from any of its answers. */
  lemma AnswersDetermineType(s: AmpType, t: AmpType)
    ensures TypeCode(s) == TypeCode(t) ==> s == t
    ensures Letter(s) == Letter(t) ==> s == t
    ensures Name(s) == Name(t) ==> s == t
  {
  }

  /** The third "-" part of the third "/" field of an identity: the option letter. */
  function OptionPart(id: string): Option<string>
  {
    match Field(id, '/', 2)
    case None => None
    case Some(serial) => Field(serial, '-', 2)
  }

  /** The type of an option part: the first of "A", "B", "C" found in it. */
  function TypeOf(part: string): (r: Option<AmpType>)
    ensures r == Some(Booster) <==> Contains(part, "A")
    ensures r == Some(InLine) <==> !Contains(part, "A") && Contains(part, "B")
    ensures r == Some(PreAmplifier) <==> !Contains(part, "A") && !Contains(part, "B") && Contains(part, "C")
    ensures r.Some? ==> Contains(part, Letter(r.value))
  {
    if Contains(part, "A") then Some(Booster)
    else if Contains(part, "B") then Some(InLine)
    else if Contains(part, "C") then Some(PreAmplifier)
    else None
  }

  /** The answer of `GetType(type)`: the letter for "c", the name for "s", the digit otherwise. */
  function TypeAnswer(t: AmpType, form: string): (v: Value)
    ensures Lower(form) == "c" ==> v == Str(Letter(t))
    ensures Lower(form) == "s" ==> v == Str(Name(t))
    ensures Lower(form) != "c" && Lower(form) != "s" ==> v == Int(TypeCode(t))
  {
    if Lower(form) == "c" then Str(Letter(t))
    else if Lower(form) == "s" then Str(Name(t))
    else Int(TypeCode(t))
  }

  /** The answer of each type's own letter, in either case, is that letter. */
  lemma LetterForm(t: AmpType)
    ensures TypeAnswer(t, "c") == TypeAnswer(t, "C") == Str(Letter(t))
    ensures TypeAnswer(t, "d") == Int(TypeCode(t))
  {
    assert Lower("C") == "c";
    assert Lower("c") == "c";
    assert Lower("d") == "d";
  }

  /** The simulated amplifier is a booster. */
  lemma SimulatedType()
    ensures OptionPart(SimuEFA_SlotID) == Some("A")
    ensures TypeOf("A") == Some(Booster)
  {
    FieldsOfIdentity("APEX-TECHNOLOGIES", "3371", "09" + "-" + "3371" + "-" + "A" + "-" + "000500", "0.0\n");
    SplitFour("09", "3371", "A", "000500", '-');
    assert "A" <= "A";
  }

  /**
   * How `GetType` ends for an identity: the type, an IndexError for an identity without the
   * option part, or SLOT_TYPE_NOT_DEFINED (after closing) when no letter is found.
   */
  function Identify(id: string, slot: int): (r: Result<AmpType, Failure>)
    ensures OptionPart(id).None? ==> r == Err(IndexError)
    ensures r.Ok? <==> OptionPart(id).Some? && TypeOf(OptionPart(id).value).Some?
    ensures r.Ok? ==> r.value == TypeOf(OptionPart(id).value).value
    ensures OptionPart(id).Some? && r.Err? ==> r.error == Apex(SLOT_TYPE_NOT_DEFINED, IntToString(slot))
  {
    match OptionPart(id)
    case None => Err(IndexError)
    case Some(part) =>
      match TypeOf(part)
      case None => Err(Apex(SLOT_TYPE_NOT_DEFINED, IntToString(slot)))
      case Some(t) => Ok(t)
  }

  /**
   * The constructor: `GetType()` on the slot identity (the simulated one in simulation); the
   * SLOT_TYPE_NOT_DEFINED error closes the connection.
   */
  method NewErbiumAmplifier(link: Connexion, slot: int, simulation: bool, py: Conv, m: Maths, reply: string)
    returns (r: Result<ErbiumAmplifier, Failure>)
    modifies link
    ensures link.sent == old(link.sent) + Unless(simulation, IdentityQuery(slot))
    ensures var id := if simulation then SimuEFA_SlotID else reply;
      match Identify(id, slot)
      case Err(e) => r == Err(e) && link.open == (old(link.open) && e == IndexError)
      case Ok(t) => (r.Ok? && fresh(r.value) && r.value.Valid() && r.value.link == link
        && r.value.slot == slot && r.value.simulation == simulation && r.value.py == py
        && r.value.m == m && r.value.kind == t && r.value.unit == "dBm" && r.value.iPump == 0.0
        && link.open == old(link.open))
  {
    Emit(link, simulation, IdentityQuery(slot));
    var id := if simulation then SimuEFA_SlotID else reply;
    match Identify(id, slot) {
      case Err(e) =>
        if e != IndexError {
          link.Close();
        }
        return Err(e);
      case Ok(t) =>
        var amp := new ErbiumAmplifier(link, slot, simulation, py, m, t);
        return Ok(amp);
    }
  }

  /**
   * `SetIPump` as written: its first import names `APXXXX_ERROR__ARGUMENT_TYPE`, which the
   * constant table does not define (and its second the package `PyAPex`), so every call raises
   * ImportError before reading its argument.
   */
  function SetIPumpAsWritten(v: Value): (r: Result<(), Failure>)
    ensures r.Err? && r.error.ImportError?
  {
    Err(ImportError("APXXXX_ERROR__ARGUMENT_TYPE"))
  }

  /** The pump current set for `x`: at most `AP1000_EFA_IPMAX[Type]`, then at least 0. */
  function PumpSetting(t: AmpType, x: real): (i: real)
    ensures 0.0 <= i <= EFA_IPMAX[TypeCode(t)]
    ensures 0.0 <= x <= EFA_IPMAX[TypeCode(t)] ==> i == x
    ensures x > EFA_IPMAX[TypeCode(t)] ==> i == EFA_IPMAX[TypeCode(t)]
    ensures x < 0.0 ==> i == 0.0
  {
    var y := if x > EFA_IPMAX[TypeCode(t)] then EFA_IPMAX[TypeCode(t)] else x;
    if y < 0.0 then 0.0 else y
  }

  /** Even a current every type accepts unchanged is never set by the code as written. */
  lemma SetIPumpAsWrittenRejectsValidCurrent(t: AmpType)
    ensures PumpSetting(t, 500.0) == 500.0
    ensures SetIPumpAsWritten(Float(500.0)).Err?
  {
  }

  class ErbiumAmplifier {
    const link: Connexion
    const slot: int
    const simulation: bool
    const py: Conv
    const m: Maths
    const kind: AmpType

    var unit: string
    var iPump: real

    /** The unit is one the conversions know and the pump current is within the type's range. */
    predicate Valid()
      reads this
    {
      Lower(unit) in PowerUnits && 0.0 <= iPump <= EFA_IPMAX[TypeCode(kind)]
    }

    /** "AMP[ss]:", the head of every command of this amplifier. */
    function Head(): string
    {
      SlotPrefix("AMP", slot)
    }

    constructor (link: Connexion, slot: int, simulation: bool, py: Conv, m: Maths, kind: AmpType)
      ensures this.link == link && this.slot == slot && this.simulation == simulation
      ensures this.py == py && this.m == m && this.kind == kind
      ensures unit == "dBm" && iPump == 0.0 && Valid()
    {
      this.link := link;
      this.slot := slot;
      this.simulation := simulation;
      this.py := py;
      this.m := m;
      this.kind := kind;
      unit := "dBm";
      iPump := 0.0;
      InitialUnitValid();
    }

    /** `GetType(type)`: the identity is read again and answered in the requested form. */
    method GetType(form: string, reply: string) returns (r: Result<Value, Failure>)
      modifies link
      ensures link.sent == old(link.sent) + Unless(simulation, IdentityQuery(slot))
      ensures var id := if simulation then SimuEFA_SlotID else reply;
        match Identify(id, slot)
        case Err(e) => r == Err(e) && link.open == (old(link.open) && e == IndexError)
        case Ok(t) => r == Ok(TypeAnswer(t, form)) && link.open == old(link.open)
    {
      Emit(link, simulation, IdentityQuery(slot));
      var id := if simulation then SimuEFA_SlotID else reply;
      match Identify(id, slot) {
        case Err(e) =>
          if e != IndexError {
            link.Close();
          }
          return Err(e);
        case Ok(t) =>
          return Ok(TypeAnswer(t, form));
      }
    }

    /** `ConvertForWriting`: the power in dBm; an error closes the connection. */
    method ConvertForWriting(p: real) returns (r: Result<real, Failure>)
      modifies link
      ensures r == PowerForWriting(m, unit, p)
      ensures link.sent == old(link.sent) && link.open == (old(link.open) && r.Ok?)
    {
      r := PowerForWriting(m, unit, p);
      if r.Err? {
        link.Close();
      }
    }

    /** `ConvertForReading`: the power in the unit; an error closes the connection. */
    method ConvertForReading(p: real) returns (r: Result<real, Failure>)
      modifies link
      ensures r == PowerForReading(m, unit, p)
      ensures link.sent == old(link.sent) && link.open == (old(link.open) && r.Ok?)
    {
      r := PowerForReading(m, unit, p);
      if r.Err? {
        link.Close();
      }
    }

    /** `SetUnit`: `str(Unit)` is kept when it names dBm or mW in any case. */
    method SetUnit(v: Value)
      modifies this`unit
      ensures unit == ChosenUnit(py, old(unit), v, PowerUnits)
      ensures old(Valid()) ==> Valid()
    {
      unit := ChosenUnit(py, unit, v, PowerUnits);
    }

    /**
     * `SetIPump` with its imports corrected (see `SetIPumpAsWritten`): `float(IPump)` (else close
     * and ARGUMENT_TYPE), limited to the type's maximum and to 0, written with one decimal outside
     * simulation, and cached.
     */
    method SetIPump(v: Value) returns (r: Result<(), Failure>)
      modifies this`iPump, link
      ensures match FloatArg(py, v, "IPump")
        case Err(e) => (r == Err(e) && !link.open && link.sent == old(link.sent) && iPump == old(iPump))
        case Ok(x) => (r == Ok(()) && link.open == old(link.open) && iPump == PumpSetting(kind, x)
          && link.sent == old(link.sent) + Unless(simulation, Head() + "PUMP" + Fixed1(py, iPump) + "\n"))
      ensures old(Valid()) ==> Valid()
    {
      match FloatArg(py, v, "IPump") {
        case Err(e) =>
          link.Close();
          return Err(e);
        case Ok(x) =>
          var i := PumpSetting(kind, x);
          Emit(link, simulation, Head() + "PUMP" + Fixed1(py, i) + "\n");
          iPump := i;
          return Ok(());
      }
    }

    /** A reading: `command` outside simulation, then the reply (or `simulated`) without its last character. */
    method Read(command: string, simulated: string, reply: string) returns (text: string)
      modifies link
      ensures text == if simulation then simulated else reply
      ensures link.open == old(link.open)
      ensures link.sent == old(link.sent) + Unless(simulation, Head() + command)
    {
      Emit(link, simulation, Head() + command);
      return if simulation then simulated else reply;
    }

    /** `GetInVoltage`: "POWERINVALUE", read as an int in binary units. */
    method GetInVoltage(reply: string) returns (r: Result<int, Failure>)
      modifies link
      ensures r == ReadInt(py, if simulation then SimuEFA_InVoltage else reply)
      ensures link.open == old(link.open)
      ensures link.sent == old(link.sent) + Unless(simulation, Head() + "POWERINVALUE\n")
    {
      var text := Read("POWERINVALUE\n", SimuEFA_InVoltage, reply);
      return ReadInt(py, text);
    }

    /** `GetOutVoltage`: "POWEROUTVALUE", read as an int in binary units. */
    method GetOutVoltage(reply: string) returns (r: Result<int, Failure>)
      modifies link
      ensures r == ReadInt(py, if simulation then SimuEFA_OutVoltage else reply)
      ensures link.open == old(link.open)
      ensures link.sent == old(link.sent) + Unless(simulation, Head() + "POWEROUTVALUE\n")
    {
      var text := Read("POWEROUTVALUE\n", SimuEFA_OutVoltage, reply);
      return ReadInt(py, text);
    }

    /** `GetInPower`: "INDB?", read as a float (no unit conversion). */
    method GetInPower(reply: string) returns (r: Result<real, Failure>)
      modifies link
      ensures r == ReadReal(py, if simulation then SimuEFA_InPower else reply)
      ensures link.open == old(link.open)
      ensures link.sent == old(link.sent) + Unless(simulation, Head() + "INDB?\n")
    {
      var text := Read("INDB?\n", SimuEFA_InPower, reply);
      return ReadReal(py, text);
    }

    /** `GetOutPower`: "OTDB?", read as a float (no unit conversion). */
    method GetOutPower(reply: string) returns (r: Result<real, Failure>)
      modifies link
      ensures r == ReadReal(py, if simulation then SimuEFA_OutPower else reply)
      ensures link.open == old(link.open)
      ensures link.sent == old(link.sent) + Unless(simulation, Head() + "OTDB?\n")
    {
      var text := Read("OTDB?\n", SimuEFA_OutPower, reply);
      return ReadReal(py, text);
    }
  }
}
