/**
 * The AP1000 mainframe (AP1000/__init__.py): the slot queries, the reading of a slot's
 * identity string into a serial number and a module name, and the factories that build the
 * driver of the module in a slot once its type is confirmed.
 *
 * A slot identity has four "/" fields, "maker/code-…/serial-…-digits/version": the module code
 * leads the second field, and the serial number ends the third.
 */
module Mainframe {
  import opened Wrappers
  import opened Text
  import opened Python
  import opened Errors
  import opened Constants
  import opened Validation
  import opened Transport
  import opened Slots

  // ---------------------------------------------------------------- queries and replies

  /** `"SLT[" + str(SlotNumber).zfill(2) + "]:" + what`. */
  function SlotQuery(py: Conv, slot: Value, what: string): (cmd: string)
    ensures "SLT[" <= cmd
  {
    "SLT[" + ZFill(ToStr(py, slot), 2) + "]:" + what
  }

  const EmptyQuery: string := "EMPTY?\n"
  const IdnQuery: string := "IDN?\n"

  /** The slot checks of every query: an `int` (a bool passes `isinstance`) in AP1000_SLOT_MIN..AP1000_SLOT_MAX. */
  function SlotCheck(v: Value): (r: Result<int, Failure>)
    ensures r.Ok? <==> IsInt(v) && SLOT_MIN as real <= Number(v) <= SLOT_MAX as real
    ensures r.Ok? ==> SLOT_MIN <= r.value <= SLOT_MAX && r.value as real == Number(v)
    ensures r.Err? ==> r.error == Apex(if IsInt(v) then ARGUMENT_VALUE else ARGUMENT_TYPE, "SlotNumber")
  {
    IntIn(v, SLOT_MIN, SLOT_MAX, "SlotNumber")
  }

  /**
   * `SlotUsed`'s reading of the "EMPTY?" reply without its last character: "0" is an empty
   * slot, "1" a used one, and anything else gives `None` back.
   */
  function UsedOf(reply: string): (r: Option<bool>)
    ensures r == Some(false) <==> DropLast(reply) == "0"
    ensures r == Some(true) <==> DropLast(reply) == "1"
  {
    var flag := DropLast(reply);
    if flag == "0" then Some(false) else if flag == "1" then Some(true) else None
  }

  /** `SlotSN`'s reading: the last "-" part of the third "/" field, lower-cased, and its first digit run as an int. */
  function SerialOf(id: string): (r: Option<int>)
    ensures r.Some? ==> r.value >= 0
  {
    match Field(Lower(id), '/', 2)
    case None => None
    case Some(third) =>
      var parts := Split(third, '-');
      match FirstDigitRun(parts[|parts| - 1])
      case None => None
      case Some(run) => Some(DigitsValue(run))
  }

  /** `SlotType`'s reading: the first digit run of the first "-" part of the second "/" field, looked up in `Modules`. */
  function TypeOf(id: string): (r: Option<string>)
  {
    match Field(Lower(id), '/', 1)
    case None => None
    case Some(second) =>
      match FirstDigitRun(Split(second, '-')[0])
      case None => None
      case Some(run) =>
        var code := DigitsValue(run);
        if code in Modules then Some(Modules[code]) else None
  }

  /** The text `SlotID` gives back outside simulation: the identity without its last character, or "Slot not used". */
  function IdentityText(force: bool, usedReply: string, idReply: string): string
  {
    if force || UsedOf(usedReply) == Some(true) then DropLast(idReply) else "Slot not used"
  }

  /** The commands `SlotID` writes outside simulation: "EMPTY?" unless forced, then "IDN?" for a used slot. */
  function IdentityQueries(py: Conv, v: Value, force: bool, usedReply: string): (cmds: seq<string>)
    ensures force ==> cmds == [SlotQuery(py, v, IdnQuery)]
    ensures !force ==> 1 <= |cmds| <= 2 && cmds[0] == SlotQuery(py, v, EmptyQuery)
  {
    (if force then [] else [SlotQuery(py, v, EmptyQuery)])
    + (if force || UsedOf(usedReply) == Some(true) then [SlotQuery(py, v, IdnQuery)] else [])
  }

  /**
   * The commands `SlotType` writes outside simulation: "EMPTY?" of its own, then, for a used
   * slot, the "EMPTY?" and "IDN?" of the `SlotID` it calls.
   */
  function TypeQueries(py: Conv, v: Value, usedReply: string): (cmds: seq<string>)
    ensures |cmds| == if UsedOf(usedReply) == Some(true) then 3 else 1
  {
    [SlotQuery(py, v, EmptyQuery)]
    + (if UsedOf(usedReply) == Some(true) then IdentityQueries(py, v, false, usedReply) else [])
  }

  /**
   * What `SlotType` returns or raises: the slot checks, then the module name read from the
   * simulated identity `simId` or, outside simulation, "Slot not used" for a slot that is not used and
   * the name read from the slot's identity otherwise. An identity that gives no name raises
   * SLOT_NOT_DEFINED.
   */
  function SlotTypeOf(simulation: bool, simId: string, py: Conv, v: Value, usedReply: string, idReply: string): (r: Result<string, Failure>)
    ensures r.Err? ==> r.error.Apex?
    ensures SlotCheck(v).Err? ==> r == Err(SlotCheck(v).error)
  {
    match SlotCheck(v)
    case Err(e) => Err(e)
    case Ok(_) =>
      if !simulation && UsedOf(usedReply) != Some(true) then Ok("Slot not used")
      else
        var id := if simulation then simId else DropLast(idReply);
        match TypeOf(id)
        case None => Err(Apex(SLOT_NOT_DEFINED, ToStr(py, v)))
        case Some(name) => Ok(name)
  }

  // ---------------------------------------------------------------- factories

  /** The four factories of the mainframe. */
  datatype Kind = PowerMeterKind | AttenuatorKind | TunableLaserKind | AmplifierKind

  /** The module names a factory accepts, in the order it compares them with `SlotType`. */
  function Names(k: Kind): (names: seq<string>)
    ensures 1 <= |names| <= 3
  {
    match k
    case PowerMeterKind => [PWM_NAME]
    case AttenuatorKind => [ATT_NAME]
    case TunableLaserKind => [TLS_CBAND_NAME, TLS_LBAND_NAME]
    case AmplifierKind => [EFA_PREAMP_NAME, EFA_BOOST_NAME, EFA_INLINE_NAME]
  }

  /** The driver a factory builds: its kind and the slot argument it is given. */
  datatype Plugin = Plugin(kind: Kind, slot: Value)

  /** How many times the `or` chain of a factory calls `SlotType` before it stops on `name`. */
  function Calls(names: seq<string>, name: string): (n: nat)
    ensures 1 <= n <= |names| || (names == [] && n == 0)
    ensures name !in names ==> n == |names|
    ensures name in names ==> names[n - 1] == name
  {
    if |names| == 0 then 0
    else if names[0] == name then 1
    else 1 + Calls(names[1..], name)
  }

  /** `cmds` written `n` times. */
  function Repeat(cmds: seq<string>, n: nat): (r: seq<string>)
    ensures |r| == n * |cmds|
  {
    if n == 0 then [] else Repeat(cmds, n - 1) + cmds
  }

  /** One more round of `cmds` after `sent + Repeat(cmds, n)`. */
  lemma RepeatMore(sent: seq<string>, cmds: seq<string>, n: nat)
    ensures sent + Repeat(cmds, n) + cmds == sent + Repeat(cmds, n + 1)
  {
  }

  /** A name first met at index `i` of `names` stops the chain after `i + 1` calls. */
  lemma {:induction false} CallsStop(names: seq<string>, i: nat, name: string)
    requires i < |names| && names[i] == name
    requires forall j :: 0 <= j < i ==> names[j] != name
    ensures Calls(names, name) == i + 1
  {
    if i > 0 {
      assert names[0] != name;
      CallsStop(names[1..], i - 1, name);
    }
  }

  /**
   * What a factory of kind `k` leaves behind: `r`, and the commands `sent1` and state `open1`
   * after the commands `sent0` and state `open0` before it, when each call of `SlotType` gives
   * `t` and writes `queries`. With `Force`, or in simulation (`skip`), the driver is built and
   * nothing is asked. Otherwise `SlotType` is called for each accepted name until one matches;
   * its failure is raised, a match builds the driver, and no match closes the connection and
   * raises `notGood`.
   */
  predicate Outcome(k: Kind, v: Value, skip: bool, t: Result<string, Failure>, queries: seq<string>,
                    notGood: Failure, r: Result<Plugin, Failure>,
                    sent0: seq<string>, open0: bool, sent1: seq<string>, open1: bool)
    requires t.Err? ==> t.error.Apex?
  {
    if skip then r == Ok(Plugin(k, v)) && sent1 == sent0 && open1 == open0
    else
      match t
      case Err(e) => r == Err(e) && sent1 == sent0 + queries && open1 == (open0 && e.code != SLOT_NOT_DEFINED)
      case Ok(name) => (sent1 == sent0 + Repeat(queries, Calls(Names(k), name)) &&
        if name in Names(k) then r == Ok(Plugin(k, v)) && open1 == open0
        else r == Err(notGood) && !open1)
  }

  class AP1000 {
    const link: Connexion
    const simulation: bool
    const py: Conv
    const simulatedId: string   // the slot identity of simulation mode, SimuAP1000_SlotID

    /** The constructor; opening the socket is not part of the model. */
    constructor (link: Connexion, simulation: bool, py: Conv)
      ensures this.link == link && this.simulation == simulation && this.py == py
      ensures simulatedId == SimuAP1000_SlotID
    {
      this.link := link;
      this.simulation := simulation;
      this.py := py;
      simulatedId := SimuAP1000_SlotID;
    }

    /** `Close`: the socket is closed outside simulation. */
    method Close()
      modifies link
      ensures link.sent == old(link.sent)
      ensures link.open == (old(link.open) && simulation)
    {
      if !simulation {
        link.Close();
      }
    }

    /** `GetID`: "*IDN?" and the reply, or the simulated identity. */
    method GetID(reply: string) returns (id: string)
      modifies link
      ensures id == if simulation then SimuAP1000_ID else reply
      ensures link.sent == old(link.sent) + Unless(simulation, "*IDN?\n") && link.open == old(link.open)
    {
      Emit(link, simulation, "*IDN?\n");
      return if simulation then SimuAP1000_ID else reply;
    }

    /** `Reset`: "*RST" outside simulation. */
    method Reset()
      modifies link
      ensures link.sent == old(link.sent) + Unless(simulation, "*RST\n") && link.open == old(link.open)
    {
      Emit(link, simulation, "*RST\n");
    }

    /**
     * `SlotUsed` with the slot limits it uses imported (see `SlotCheckAsWritten`): a bad slot
     * closes the connection and raises; otherwise "EMPTY?" is asked outside simulation and the
     * reply (the simulated one in simulation) read by `UsedOf`.
     */
    method SlotUsed(v: Value, reply: string) returns (r: Result<Option<bool>, Failure>)
      modifies link
      ensures match SlotCheck(v)
        case Err(e) => r == Err(e) && !link.open && link.sent == old(link.sent)
        case Ok(_) => (r == Ok(UsedOf(if simulation then SimuAP1000_SlotUsed else reply))
          && link.open == old(link.open)
          && link.sent == old(link.sent) + Unless(simulation, SlotQuery(py, v, EmptyQuery)))
    {
      match SlotCheck(v) {
        case Err(e) =>
          link.Close();
          return Err(e);
        case Ok(_) =>
          Emit(link, simulation, SlotQuery(py, v, EmptyQuery));
          return Ok(UsedOf(if simulation then SimuAP1000_SlotUsed else reply));
      }
    }

    /**
     * `SlotID`: the slot checks of `SlotUsed`; the simulated identity without its last
     * character in simulation; otherwise, unless forced, `SlotUsed` first, and "IDN?" only for
     * a used slot, whose identity is returned without its last character.
     */
    method SlotID(v: Value, force: bool, usedReply: string, idReply: string) returns (r: Result<string, Failure>)
      modifies link
      ensures match SlotCheck(v)
        case Err(e) => r == Err(e) && !link.open && link.sent == old(link.sent)
        case Ok(_) => (link.open == old(link.open) &&
          if simulation then r == Ok(DropLast(simulatedId)) && link.sent == old(link.sent)
          else (r == Ok(IdentityText(force, usedReply, idReply))
            && link.sent == old(link.sent) + IdentityQueries(py, v, force, usedReply)))
    {
      match SlotCheck(v) {
        case Err(e) =>
          link.Close();
          return Err(e);
        case Ok(_) =>
      }
      if simulation {
        return Ok(DropLast(simulatedId));
      }
      var used := true;
      if !force {
        var u := SlotUsed(v, usedReply);
        used := u.value == Some(true);
      }
      if !used {
        return Ok("Slot not used");
      }
      link.Send(SlotQuery(py, v, IdnQuery));
      return Ok(DropLast(idReply));
    }

    /**
     * `SlotSN` with the corrected slot range of `SlotCheck` (as written it reads the
     * unimported `AP1000_SLOT_MIN`, see `SlotCheckAsWritten`): the slot checks, which raise without closing; then the serial number of the
     * simulated identity or of what `SlotID` returns. An identity without one ("Slot not used"
     * included) closes the connection and raises SLOT_NOT_DEFINED.
     */
    method SlotSN(v: Value, force: bool, usedReply: string, idReply: string) returns (r: Result<int, Failure>)
      modifies link
      ensures SlotCheck(v).Err? ==> r == Err(SlotCheck(v).error) && link.open == old(link.open) && link.sent == old(link.sent)
      ensures SlotCheck(v).Ok? ==>
        var id := if simulation then simulatedId else IdentityText(force, usedReply, idReply);
        (link.sent == old(link.sent) + (if simulation then [] else IdentityQueries(py, v, force, usedReply))
        && match SerialOf(id)
           case None => r == Err(Apex(SLOT_NOT_DEFINED, ToStr(py, v))) && !link.open
           case Some(n) => r == Ok(n) && link.open == old(link.open))
      ensures r.Ok? ==> r.value >= 0
    {
      if SlotCheck(v).Err? {
        return Err(SlotCheck(v).error);
      }
      var id := simulatedId;
      if !simulation {
        var t := SlotID(v, force, usedReply, idReply);
        id := t.value;
      }
      match SerialOf(id) {
        case None =>
          link.Close();
          return Err(Apex(SLOT_NOT_DEFINED, ToStr(py, v)));
        case Some(n) =>
          return Ok(n);
      }
    }

    /**
     * The identity `SlotType` reads outside simulation: `SlotUsed`, then, for a used slot
     * only, `SlotID`.
     */
    method UsedIdentity(v: Value, usedReply: string, idReply: string) returns (id: Option<string>)
      requires SlotCheck(v).Ok? && !simulation
      modifies link
      ensures id == if UsedOf(usedReply) == Some(true) then Some(DropLast(idReply)) else None
      ensures link.sent == old(link.sent) + TypeQueries(py, v, usedReply) && link.open == old(link.open)
    {
      var u := SlotUsed(v, usedReply);
      if u.value != Some(true) {
        return None;
      }
      var t := SlotID(v, false, usedReply, idReply);
      return Some(t.value);
    }

    /**
     * `SlotType` with its constants imported from the constant table (see `SlotTypeAsWritten`):
     * the result is `SlotTypeOf`; only an identity that gives no module name closes the connection.
     */
    method SlotType(v: Value, usedReply: string, idReply: string) returns (r: Result<string, Failure>)
      modifies link
      ensures r == SlotTypeOf(simulation, simulatedId, py, v, usedReply, idReply)
      ensures link.sent == old(link.sent) + (if SlotCheck(v).Err? || simulation then [] else TypeQueries(py, v, usedReply))
      ensures link.open == (old(link.open) && (r.Ok? || r.error.code != SLOT_NOT_DEFINED))
    {
      if SlotCheck(v).Err? {
        return Err(SlotCheck(v).error);
      }
      var id := simulatedId;
      if !simulation {
        var read := UsedIdentity(v, usedReply, idReply);
        if read.None? {
          return Ok("Slot not used");
        }
        id := read.value;
      }
      match TypeOf(id) {
        case None =>
          link.Close();
          return Err(Apex(SLOT_NOT_DEFINED, ToStr(py, v)));
        case Some(name) =>
          return Ok(name);
      }
    }

    /**
     * The factories `PowerMeter`, `Attenuator`, `TunableLaser` and `ErbiumAmplifier`: with
     * `Force`, or in simulation, the driver of kind `k` is built at once; otherwise `SlotType`
     * is asked once per accepted name, as the `or` chain of comparisons does, until one matches.
     */
    method Factory(k: Kind, v: Value, force: bool, usedReply: string, idReply: string) returns (r: Result<Plugin, Failure>)
      modifies link
      ensures Outcome(k, v, force || simulation, SlotTypeOf(simulation, simulatedId, py, v, usedReply, idReply),
                      if SlotCheck(v).Err? then [] else TypeQueries(py, v, usedReply),
                      Apex(SLOT_NOT_GOOD_TYPE, ToStr(py, v)), r, old(link.sent), old(link.open), link.sent, link.open)
      ensures r.Ok? ==> r.value == Plugin(k, v)
    {
      if force || simulation {
        return Ok(Plugin(k, v));
      }
      var names := Names(k);
      ghost var t := SlotTypeOf(simulation, simulatedId, py, v, usedReply, idReply);
      ghost var q := if SlotCheck(v).Err? then [] else TypeQueries(py, v, usedReply);
      var i := 0;
      while true
        invariant i < |names|
        invariant link.sent == old(link.sent) + Repeat(q, i) && link.open == old(link.open)
        invariant i > 0 ==> t.Ok? && forall j :: 0 <= j < i ==> names[j] != t.value
        decreases |names| - i
      {
        var s := SlotType(v, usedReply, idReply);
        RepeatMore(old(link.sent), q, i);
        if s.Err? {
          return Err(s.error);
        }
        if s.value == names[i] {
          CallsStop(names, i, s.value);
          return Ok(Plugin(k, v));
        }
        if i + 1 == |names| {
          link.Close();
          return Err(Apex(SLOT_NOT_GOOD_TYPE, ToStr(py, v)));
        }
        i := i + 1;
      }
    }
  }

  // ---------------------------------------------------------------- properties

  /** A slot in range is asked with the same two digits the module drivers put in their prefix. */
  lemma QueriesUseTwoDigits(py: Conv, slot: int)
    requires SLOT_MIN <= slot <= SLOT_MAX
    ensures SlotQuery(py, Int(slot), EmptyQuery) == "SLT[" + TwoDigits(slot) + "]:EMPTY?\n"
    ensures |TwoDigits(slot)| == 2 && AllDigits(TwoDigits(slot)) && DigitsValue(TwoDigits(slot)) == slot
  {
    TwoDigitsRoundTrip(slot);
  }

  /** The two replies `SlotUsed` understands are the two states a slot can be in. */
  lemma UsedReadsBack(used: bool)
    ensures UsedOf(if used then "1\n" else "0\n") == Some(used)
  {
    assert DropLast("1\n") == "1";
    assert DropLast("0\n") == "0";
  }

  /** An all-digit text is its own first digit run. */
  lemma {:induction false} LeadingDigitsOfDigits(s: string)
    requires AllDigits(s)
    ensures LeadingDigits(s) == s
  {
    if |s| > 0 {
      LeadingDigitsOfDigits(s[1..]);
    }
  }

  /** `str(n)` is left alone by `lower()` and is its own first digit run. */
  lemma DecimalText(n: nat)
    ensures Lower(NatToString(n)) == NatToString(n)
    ensures FirstDigitRun(NatToString(n)) == Some(NatToString(n))
    ensures DigitsValue(NatToString(n)) == n
    ensures '/' !in NatToString(n) && '-' !in NatToString(n)
  {
    var s := NatToString(n);
    LeadingDigitsOfDigits(s);
    assert FirstDigitIndex(s) == Some(0);
    assert s[0..] == s;
    DigitsValueOfNatToString(n);
  }

  /** The second and third "/" fields of a lower-cased identity are its lower-cased fields. */
  lemma FieldsLower(a: string, b: string, c: string, d: string)
    requires '/' !in a && '/' !in b && '/' !in c && '/' !in d
    ensures Field(Lower(a + "/" + b + "/" + c + "/" + d), '/', 1) == Some(Lower(b))
    ensures Field(Lower(a + "/" + b + "/" + c + "/" + d), '/', 2) == Some(Lower(c))
  {
    SplitFour(a, b, c, d, '/');
    SplitLower(a + "/" + b + "/" + c + "/" + d, '/');
  }

  /** Lower-casing leaves a last "-" part made of digits as it is. */
  lemma LastPartLower(c: string, digits: string)
    requires AllDigits(digits)
    requires var parts := Split(c, '-'); parts[|parts| - 1] == digits
    ensures var parts := Split(Lower(c), '-'); parts[|parts| - 1] == digits
  {
    SplitLower(c, '-');
    assert Lower(digits) == digits;
  }

  /** A non-empty digit text is its own first digit run. */
  lemma DigitsRun(digits: string)
    requires |digits| >= 1 && AllDigits(digits)
    ensures FirstDigitRun(digits) == Some(digits)
  {
    LeadingDigitsOfDigits(digits);
    assert FirstDigitIndex(digits) == Some(0);
    assert digits[0..] == digits;
  }

  /** `SerialOf` stops on the first digit run of the last "-" part of the third field. */
  lemma SerialOfRun(id: string, third: string, digits: string)
    requires Field(Lower(id), '/', 2) == Some(third)
    requires var parts := Split(third, '-'); parts[|parts| - 1] == digits
    requires FirstDigitRun(digits) == Some(digits)
    ensures SerialOf(id) == Some(DigitsValue(digits))
  {
    var parts := Split(third, '-');
    assert FirstDigitRun(parts[|parts| - 1]) == Some(digits);
  }

  /**
   * `SlotSN` reads the digits that end the third field of an identity, leading zeros
   * included, whatever the case of the other fields.
   */
  lemma SerialDigitsReadBack(a: string, b: string, c: string, d: string, digits: string)
    requires '/' !in a && '/' !in b && '/' !in c && '/' !in d
    requires |digits| >= 1 && AllDigits(digits)
    requires var parts := Split(c, '-'); parts[|parts| - 1] == digits
    ensures SerialOf(a + "/" + b + "/" + c + "/" + d) == Some(DigitsValue(digits))
  {
    FieldsLower(a, b, c, d);
    LastPartLower(c, digits);
    DigitsRun(digits);
    SerialOfRun(a + "/" + b + "/" + c + "/" + d, Lower(c), digits);
  }

  /** `SlotSN` reads back the serial number written in decimal at the end of the third field. */
  lemma SerialReadsBack(a: string, b: string, c: string, d: string, n: nat)
    requires '/' !in a && '/' !in b && '/' !in c && '/' !in d
    requires var parts := Split(c, '-'); parts[|parts| - 1] == NatToString(n)
    ensures SerialOf(a + "/" + b + "/" + c + "/" + d) == Some(n)
  {
    SerialDigitsReadBack(a, b, c, d, NatToString(n));
    DigitsValueOfNatToString(n);
  }

  /** `TypeOf` looks up the first digit run of the first "-" part of the second field. */
  lemma TypeOfRun(id: string, second: string, code: nat)
    requires Field(Lower(id), '/', 1) == Some(second)
    requires FirstDigitRun(Split(second, '-')[0]) == Some(NatToString(code)) && code in Modules
    ensures TypeOf(id) == Some(Modules[code])
  {
    DecimalText(code);
  }

  /** `SlotType` reads back the name of every module whose code leads the second field. */
  lemma TypeReadsBack(a: string, b: string, c: string, d: string, code: nat)
    requires '/' !in a && '/' !in b && '/' !in c && '/' !in d
    requires Split(b, '-')[0] == NatToString(code) && code in Modules
    ensures TypeOf(a + "/" + b + "/" + c + "/" + d) == Some(Modules[code])
  {
    FieldsLower(a, b, c, d);
    SplitLower(b, '-');
    DecimalText(code);
    assert Split(Lower(b), '-')[0] == NatToString(code);
    TypeOfRun(a + "/" + b + "/" + c + "/" + d, Lower(b), code);
  }

  /** The serial field of the simulated identity. */
  const SimulatedSerial: string := "13" + "-" + "3314" + "-" + "A" + "-" + "13" + "-" + "000502"

  /** The simulated identity, field by field. */
  lemma SimulatedFields()
    ensures SimuAP1000_SlotID == "APEX-TECHNOLOGIES" + "/" + "3314" + "/" + SimulatedSerial + "/" + "1.0\n"
  {
  }

  /** The type code of the simulated module, 3314, as text. */
  lemma PowerMeterCode()
    ensures Split("3314", '-')[0] == NatToString(3314)
  {
    SplitWhole("3314", '-');
    assert NatToString(3) == "3" && NatToString(33) == "33" && NatToString(331) == "331";
  }

  /** The simulated slot is used and holds a power meter. */
  lemma SimulatedSlotType()
    ensures UsedOf(SimuAP1000_SlotUsed) == Some(true)
    ensures TypeOf(SimuAP1000_SlotID) == Some(PWM_NAME)
  {
    UsedReadsBack(true);
    SimulatedFields();
    PowerMeterCode();
    TypeReadsBack("APEX-TECHNOLOGIES", "3314", SimulatedSerial, "1.0\n", 3314);
  }

  /** The simulated module has serial number 502: its serial ends in "000502". */
  lemma SimulatedSlotSerial()
    ensures SerialOf(SimuAP1000_SlotID) == Some(502)
  {
    SimulatedFields();
    SplitFive("13", "3314", "A", "13", "000502", '-');
    SerialDigitsReadBack("APEX-TECHNOLOGIES", "3314", SimulatedSerial, "1.0\n", "000502");
    PaddedSerial();
  }

  /** The value of a digit text grows by one digit at a time. */
  lemma DigitsAppend(s: string, c: char)
    requires AllDigits(s) && IsDigit(c)
    ensures AllDigits(s + [c]) && DigitsValue(s + [c]) == 10 * DigitsValue(s) + (c as int - '0' as int)
  {
    assert (s + [c])[..|s|] == s;
  }

  /** "000502" reads as 502. */
  lemma PaddedSerial()
    ensures DigitsValue("000502") == 502
  {
    assert DigitsValue("") == 0;
    DigitsAppend("", '0');
    DigitsAppend("0", '0');
    DigitsAppend("00", '0');
    DigitsAppend("000", '5');
    DigitsAppend("0005", '0');
    DigitsAppend("00050", '2');
    assert "" + ['0'] == "0" && "0" + ['0'] == "00" && "00" + ['0'] == "000";
    assert "000" + ['5'] == "0005" && "0005" + ['0'] == "00050" && "00050" + ['2'] == "000502";
  }

  /** `SlotType` names a module of the constant table, or says the slot is not used. */
  lemma SlotTypeNamesModules(simulation: bool, simId: string, py: Conv, v: Value, usedReply: string, idReply: string)
    ensures var r := SlotTypeOf(simulation, simId, py, v, usedReply, idReply);
      r.Ok? ==> r.value == "Slot not used" || r.value in Modules.Values
  {
  }

  /** A name confirms at most one kind of driver: the factories accept disjoint sets of modules. */
  lemma FactoriesDisjoint(name: string, k1: Kind, k2: Kind)
    requires name in Names(k1) && name in Names(k2)
    ensures k1 == k2
  {
  }

  /** Every name a factory accepts is one of the module names of the constant table. */
  lemma FactoryNamesAreModules(k: Kind)
    ensures forall name :: name in Names(k) ==> name in Modules.Values
  {
    assert Modules[PWM] == PWM_NAME && Modules[ATT] == ATT_NAME;
    assert Modules[TLS_CBAND] == TLS_CBAND_NAME && Modules[TLS_LBAND] == TLS_LBAND_NAME;
    assert Modules[EFA_PREAMP] == EFA_PREAMP_NAME && Modules[EFA_BOOST] == EFA_BOOST_NAME;
    assert Modules[EFA_INLINE] == EFA_INLINE_NAME;
  }

  /** In simulation `SlotType` names the power meter of the simulated slot, for any slot in range. */
  lemma SimulatedType(py: Conv, slot: int, usedReply: string, idReply: string)
    requires SLOT_MIN <= slot <= SLOT_MAX
    ensures SlotTypeOf(true, SimuAP1000_SlotID, py, Int(slot), usedReply, idReply) == Ok(PWM_NAME)
  {
    SimulatedSlotType();
  }

  // ---------------------------------------------------------------- the code as written

  /**
   * The slot checks of `SlotUsed` and `SlotID` as written: AP1000_SLOT_MIN is read without
   * being imported, so every int slot raises NameError after the type check.
   */
  function SlotCheckAsWritten(v: Value): (r: Result<int, Failure>)
    ensures r.Err?
    ensures IsInt(v) ==> r.error == NameError("AP1000_SLOT_MIN")
  {
    if !IsInt(v) then Err(Apex(ARGUMENT_TYPE, "SlotNumber")) else Err(NameError("AP1000_SLOT_MIN"))
  }

  /** Slot 1 is a valid slot, and the code as written refuses it. */
  lemma SlotCheckAsWrittenRefusesSlotOne()
    ensures SlotCheck(Int(1)) == Ok(1)
    ensures SlotCheckAsWritten(Int(1)) == Err(NameError("AP1000_SLOT_MIN"))
  {
  }

  /**
   * `SlotType` as written: its first line imports from `PyApex.Constants`, a module the
   * package does not have, so every call raises ImportError, in simulation too.
   */
  function SlotTypeAsWritten(v: Value): (r: Result<string, Failure>)
    ensures r == Err(ImportError("PyApex.Constants"))
  {
    Err(ImportError("PyApex.Constants"))
  }

  /** The simulated slot has a type, which the code as written never returns. */
  lemma SlotTypeAsWrittenNeverNames(py: Conv)
    ensures SlotTypeOf(true, SimuAP1000_SlotID, py, Int(1), "", "") == Ok(PWM_NAME)
    ensures SlotTypeAsWritten(Int(1)).Err?
  {
    SimulatedType(py, 1, "", "");
  }
}
