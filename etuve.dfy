/**
 * The thermal chamber driver (Etuve/__init__.py): the 14-word status buffer `Msg` that
 * `Receive` decodes from 4-byte groups, the temperature getters that refresh it at most every
 * 10 seconds, and the set-point frame `SetConsigneTemp` writes. The serial port is not
 * modelled: what a read returns and the current time are arguments, and what is written is
 * kept in a log.
 */
module Etuve {
  import opened Wrappers
  import opened Python
  import opened Errors

  /** The number of words of the status buffer. */
  const MSG_WORDS: nat := 14

  /** The header byte of a status group. */
  const GROUP_HEADER: int := 129

  /** The largest register number a status group may carry; it lands in word 13. */
  const REGISTER_MAX: int := 26

  /** The error codes of the separate PyEtuve package, which is not part of this model. */
  datatype EtuveCodes = EtuveCodes(argumentType: int)  // ETUVE_ERROR_ARGUMENT_TYPE

  /** What is written to the serial port: an encoded command, or a frame of byte values. */
  datatype Write = Text(command: string) | Frame(values: seq<int>)

  /** The status buffer `Receive` starts from. */
  function Cleared(): (msg: seq<int>)
    ensures |msg| == MSG_WORDS && forall k :: 0 <= k < MSG_WORDS ==> msg[k] == 0
  {
    seq(MSG_WORDS, _ => 0)
  }

  /**
   * The decoding of `data` from offset `i` on, in steps of 4, into `msg`: a group starting with
   * 129 whose register is at most 26 stores `data[i+2] + 256·data[i+3]` in word `register / 2`;
   * every other group is skipped. The flag is false when a group runs past the end of the data
   * (IndexError), `msg` then holding what was stored before.
   */
  function Decode(msg: seq<int>, data: seq<Byte>, i: nat): (r: (seq<int>, bool))
    requires |msg| == MSG_WORDS
    ensures |r.0| == MSG_WORDS
    decreases |data| - i
  {
    if i >= |data| then (msg, true)
    else if data[i] != GROUP_HEADER then Decode(msg, data, i + 4)
    else if i + 1 >= |data| then (msg, false)
    else if data[i + 1] > REGISTER_MAX then Decode(msg, data, i + 4)
    else if i + 3 >= |data| then (msg, false)
    else Decode(msg[data[i + 1] / 2 := data[i + 2] as int + 256 * (data[i + 3] as int)], data, i + 4)
  }

  /** `SetConsigneTemp`'s frame for `t` tenths of a degree: 0x81, 0x02, `t % 256`, `int(t / 256)`. */
  function SetPointFrame(t: int): (frame: seq<int>)
    ensures |frame| == 4 && frame[0] == 0x81 && frame[1] == 0x02
    ensures 0 <= t < 65536 ==> frame[2] + 256 * frame[3] == t
    ensures 0 <= t < 65536 ==> forall k :: 0 <= k < 4 ==> 0 <= frame[k] < 256
  {
    [0x81, 0x02, t % 256, Trunc(t as real / 256.0)]
  }

  /** For a set point of 0..65535 tenths, `Trunc(t / 256)` is the integer quotient. */
  lemma HighByte(t: int)
    requires 0 <= t
    ensures Trunc(t as real / 256.0) == t / 256
  {
    var q := t / 256;
    assert q as real <= t as real / 256.0 < q as real + 1.0;
  }

  /** A group of 4 bytes the status decoding reads as `value` in word `register / 2`. */
  function Group(register: int, value: int): (g: seq<Byte>)
    requires 0 <= register <= REGISTER_MAX && 0 <= value < 65536
    ensures |g| == 4
  {
    [GROUP_HEADER, register, value % 256, value / 256]
  }

  /** A complete group at offset `i` stores its value in word `register / 2`, and decoding goes on after it. */
  lemma DecodeGroupAt(msg: seq<int>, data: seq<Byte>, i: nat, register: int, value: int)
    requires |msg| == MSG_WORDS && 0 <= register <= REGISTER_MAX && 0 <= value < 65536
    requires i + 4 <= |data| && data[i..i + 4] == Group(register, value)
    ensures Decode(msg, data, i) == Decode(msg[register / 2 := value], data, i + 4)
  {
    var g := Group(register, value);
    assert data[i] == g[0] && data[i + 1] == g[1] && data[i + 2] == g[2] && data[i + 3] == g[3];
    assert data[i + 2] as int + 256 * (data[i + 3] as int) == value;
  }

  /** Decoding one complete group stores its value in word `register / 2` and nothing else. */
  lemma DecodeGroup(msg: seq<int>, register: int, value: int)
    requires |msg| == MSG_WORDS && 0 <= register <= REGISTER_MAX && 0 <= value < 65536
    ensures Decode(msg, Group(register, value), 0) == (msg[register / 2 := value], true)
  {
    var g := Group(register, value);
    assert g[0..4] == g;
    DecodeGroupAt(msg, g, 0, register, value);
  }

  /**
   * The set-point frame, read back as a status group, stores the set point in word 1, the
   * word `GetConsigneTemp` reports.
   */
  lemma SetPointRoundTrip(t: int)
    requires 0 <= t < 65536
    ensures var frame: seq<Byte> := SetPointFrame(t);
      Decode(Cleared(), frame, 0) == (Cleared()[1 := t], true)
  {
    HighByte(t);
    assert SetPointFrame(t) == Group(2, t);
    DecodeGroup(Cleared(), 2, t);
  }

  /** Decoding two groups in a row: the later one wins when both land in the same word. */
  lemma DecodeLaterGroupWins(msg: seq<int>, r1: int, v1: int, r2: int, v2: int)
    requires |msg| == MSG_WORDS && 0 <= r1 <= REGISTER_MAX && 0 <= r2 <= REGISTER_MAX
    requires 0 <= v1 < 65536 && 0 <= v2 < 65536
    ensures Decode(msg, Group(r1, v1) + Group(r2, v2), 0) == (msg[r1 / 2 := v1][r2 / 2 := v2], true)
  {
    var data := Group(r1, v1) + Group(r2, v2);
    var m1 := msg[r1 / 2 := v1];
    assert data[0..4] == Group(r1, v1) && data[4..8] == Group(r2, v2);
    DecodeGroupAt(msg, data, 0, r1, v1);
    DecodeGroupAt(m1, data, 4, r2, v2);
  }

  /** Groups that do not start with the header byte leave the buffer as it is. */
  lemma {:induction false} DecodeSkipsForeignGroups(msg: seq<int>, data: seq<Byte>, i: nat)
    requires |msg| == MSG_WORDS && i % 4 == 0
    requires forall k :: i <= k < |data| && k % 4 == 0 ==> data[k] != GROUP_HEADER
    ensures Decode(msg, data, i) == (msg, true)
    decreases |data| - i
  {
    if i < |data| {
      DecodeSkipsForeignGroups(msg, data, i + 4);
    }
  }

  class Etuve {
    const comPort: Value
    const simulation: bool
    const codes: EtuveCodes

    var connected: bool        // the serial connexion is open (there is none in simulation)
    var written: seq<Write>    // what was written to the serial port, in order
    var msg: seq<int>          // Msg, the last status read
    var lastSend: real         // LastSend, in seconds

    predicate Valid()
      reads this
    {
      |msg| == MSG_WORDS
    }

    /** The constructor: the connexion is opened outside simulation; no status has been read at time 0. */
    constructor (comPort: Value, simulation: bool, codes: EtuveCodes)
      ensures this.comPort == comPort && this.simulation == simulation && this.codes == codes
      ensures connected == !simulation && written == [] && msg == Cleared() && lastSend == 0.0
      ensures Valid()
    {
      this.comPort := comPort;
      this.simulation := simulation;
      this.codes := codes;
      connected := !simulation;
      written := [];
      msg := Cleared();
      lastSend := 0.0;
    }

    /** `__str__`: the port the chamber is on. */
    function Name(c: Conv): (s: string)
      reads this
      ensures s == "Thermal Etuve on " + ToStr(c, comPort)
      ensures |s| >= 16 && s[..16] == "Thermal Etuve on"
    {
      "Thermal Etuve on " + ToStr(c, comPort)
    }

    /** `Close`: the connexion is closed outside simulation. */
    method Close()
      modifies this`connected
      ensures connected == (old(connected) && simulation)
    {
      if !simulation {
        connected := false;
      }
    }

    /** `Send`: a string is written outside simulation; anything else closes the connexion and raises. */
    method Send(command: Value) returns (r: Result<(), Failure>)
      modifies this`connected, this`written
      ensures !command.Str? ==> (r == Err(Etuve(codes.argumentType, "Command"))
        && connected == (old(connected) && simulation) && written == old(written))
      ensures command.Str? ==> (r == Ok(()) && connected == old(connected)
        && written == old(written) + (if simulation then [] else [Text(command.s)]))
    {
      if !command.Str? {
        Close();
        return Err(Etuve(codes.argumentType, "Command"));
      }
      if !simulation {
        written := written + [Text(command.s)];
      }
      return Ok(());
    }

    /**
     * `Receive`: the byte count must be an int; outside simulation `Msg` is reset to zeros and
     * the groups of `data` (what the read returned) are decoded into it in place.
     */
    method Receive(byteNumber: Value, data: seq<Byte>) returns (r: Result<(), Failure>)
      requires Valid()
      modifies this`connected, this`msg
      ensures Valid()
      ensures !IsInt(byteNumber) ==> (r == Err(Etuve(codes.argumentType, "ByteNumber"))
        && connected == (old(connected) && simulation) && msg == old(msg))
      ensures IsInt(byteNumber) && simulation ==> r == Ok(()) && msg == old(msg) && connected == old(connected)
      ensures IsInt(byteNumber) && !simulation ==> connected == old(connected)
      ensures IsInt(byteNumber) && !simulation ==> msg == Decode(Cleared(), data, 0).0
      ensures IsInt(byteNumber) && !simulation ==> r == if Decode(Cleared(), data, 0).1 then Ok(()) else Err(IndexError)
    {
      if !IsInt(byteNumber) {
        Close();
        return Err(Etuve(codes.argumentType, "ByteNumber"));
      }
      if simulation {
        return Ok(());
      }
      msg := Cleared();
      var i := 0;
      while i < |data|
        invariant i % 4 == 0 && |msg| == MSG_WORDS && connected == old(connected)
        invariant Decode(msg, data, i) == Decode(Cleared(), data, 0)
        decreases |data| - i
      {
        if data[i] == GROUP_HEADER {
          if i + 1 >= |data| {
            assert Decode(msg, data, i) == (msg, false);
            return Err(IndexError);
          }
          if data[i + 1] <= REGISTER_MAX {
            if i + 3 >= |data| {
              assert Decode(msg, data, i) == (msg, false);
              return Err(IndexError);
            }
            msg := msg[data[i + 1] / 2 := data[i + 2] as int + 256 * (data[i + 3] as int)];
          }
        }
        i := i + 4;
      }
      return Ok(());
    }

    /**
     * The refresh both getters begin with: when more than 10 s have passed since the last one,
     * 't' is sent and the reply received, and the time is noted once the reply is decoded.
     */
    method Refresh(now: real, reply: seq<Byte>) returns (r: Result<(), Failure>)
      requires Valid()
      modifies this`connected, this`written, this`msg, this`lastSend
      ensures Valid() && connected == old(connected)
      ensures now - old(lastSend) <= 10.0 ==>
        r == Ok(()) && written == old(written) && msg == old(msg) && lastSend == old(lastSend)
      ensures now - old(lastSend) > 10.0 ==> written == old(written) + (if simulation then [] else [Text("t")])
      ensures now - old(lastSend) > 10.0 && simulation ==> r == Ok(()) && msg == old(msg) && lastSend == now
      ensures now - old(lastSend) > 10.0 && !simulation ==>
        && msg == Decode(Cleared(), reply, 0).0
        && (Decode(Cleared(), reply, 0).1 ==> r == Ok(()) && lastSend == now)
        && (!Decode(Cleared(), reply, 0).1 ==> r == Err(IndexError) && lastSend == old(lastSend))
    {
      if now - lastSend > 10.0 {
        var sent := Send(Str("t"));
        r := Receive(Int(56), reply);
        if r.Err? {
          return;
        }
        lastSend := now;
      } else {
        r := Ok(());
      }
    }

    /** `GetActualTemp`: word 0 of the (refreshed) status, in degrees. */
    method GetActualTemp(now: real, reply: seq<Byte>) returns (r: Result<real, Failure>)
      requires Valid()
      modifies this`connected, this`written, this`msg, this`lastSend
      ensures Valid()
      ensures now - old(lastSend) <= 10.0 ==> r == Ok(old(msg)[0] as real / 10.0) && msg == old(msg)
      ensures now - old(lastSend) > 10.0 && !simulation ==>
        r == if Decode(Cleared(), reply, 0).1 then Ok(Decode(Cleared(), reply, 0).0[0] as real / 10.0) else Err(IndexError)
      ensures r.Ok? ==> r.value == msg[0] as real / 10.0
    {
      var refreshed := Refresh(now, reply);
      if refreshed.Err? {
        return Err(refreshed.error);
      }
      return Ok(msg[0] as real / 10.0);
    }

    /** `GetConsigneTemp`: word 1 of the (refreshed) status, the set point, in degrees. */
    method GetConsigneTemp(now: real, reply: seq<Byte>) returns (r: Result<real, Failure>)
      requires Valid()
      modifies this`connected, this`written, this`msg, this`lastSend
      ensures Valid()
      ensures now - old(lastSend) <= 10.0 ==> r == Ok(old(msg)[1] as real / 10.0) && msg == old(msg)
      ensures now - old(lastSend) > 10.0 && !simulation ==>
        r == if Decode(Cleared(), reply, 0).1 then Ok(Decode(Cleared(), reply, 0).0[1] as real / 10.0) else Err(IndexError)
      ensures r.Ok? ==> r.value == msg[1] as real / 10.0
    {
      var refreshed := Refresh(now, reply);
      if refreshed.Err? {
        return Err(refreshed.error);
      }
      return Ok(msg[1] as real / 10.0);
    }

    /**
     * `SetConsigneTemp`: the frame for `int(Temperature·10)` is written; in simulation there is
     * no connexion to write to.
     */
    method SetConsigneTemp(temperature: real) returns (r: Result<(), Failure>)
      modifies this`written
      ensures simulation ==> r == Err(AttributeError("Connexion")) && written == old(written)
      ensures !simulation ==> r == Ok(()) && written == old(written) + [Frame(SetPointFrame(Trunc(temperature * 10.0)))]
    {
      if simulation {
        return Err(AttributeError("Connexion"));
      }
      written := written + [Frame(SetPointFrame(Trunc(temperature * 10.0)))];
      return Ok(());
    }
  }
}
