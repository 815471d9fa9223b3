/**
 * The AB3510 four-channel acquisition board (AB3510/__init__.py): its calibration tables, the
 * handle it opens among the boards found on USB, the temperature and sample words it decodes,
 * and the argument checks of its EEPROM requests. The USB transfers themselves are not modelled:
 * the words a transfer returns are arguments, and the requests sent are kept in a log.
 */
module AB3510 {
  import opened Wrappers
  import opened Text
  import opened Python
  import opened Errors

  /** The number of points of a channel's power calibration table, 2^14. */
  const CALIBRATION_POINTS: nat := 16384

  /** The largest sample a channel reports: 14 bits. */
  const SAMPLE_MAX: int := 16383

  /**
   * The board error codes and vendor request numbers. The code imports them from the constants
   * file, which does not define them, so they are parameters here.
   */
  datatype BoardCodes = BoardCodes(
    noEquipment: int,      // ABXXXX_NO_EQUIPMENT_FOUND
    readError: int,        // ABXXXX_EP0_READ_ERROR
    getTemperature: int,   // AB3510_VR_GET_TEMPERATURE
    getSample: int,        // AB3510_VR_GET_SAMPLE
    simTemperature: real)  // SIMU_AB3510_TEMPERATURE

  /** One channel's calibration: the power table and two coefficient pairs. */
  datatype Channel = Channel(powerCalib: seq<real>, first: seq<real>, second: seq<real>)

  /** The calibration a channel starts with: a zero power table and the pairs [1.0, 0.0]. */
  function DefaultChannel(): (c: Channel)
    ensures |c.powerCalib| == CALIBRATION_POINTS
    ensures forall k :: 0 <= k < |c.powerCalib| ==> c.powerCalib[k] == 0.0
    ensures c.first == c.second == [1.0, 0.0]
  {
    Channel(seq(CALIBRATION_POINTS, _ => 0.0), [1.0, 0.0], [1.0, 0.0])
  }

  // ---------------------------------------------------------------- the temperature word

  /** A temperature word, most significant byte first, in sixteenths of 0.0625 °C. */
  function Temperature(b0: Byte, b1: Byte): (t: real)
    ensures t == (b0 as int * 256 + b1) as real / 256.0
    ensures 0.0 <= t < 256.0
  {
    ((b0 as int * 256 + b1) as real / 16.0) * 0.0625
  }

  /** `GetTemperature` on the word a transfer returned: the first two bytes, an IndexError when short. */
  function TemperatureOf(word: seq<Byte>): (r: Result<real, Failure>)
    ensures r.Err? <==> |word| < 2
    ensures r.Err? ==> r.error == IndexError
    ensures r.Ok? ==> r.value == Temperature(word[0], word[1])
  {
    if |word| < 2 then Err(IndexError) else Ok(Temperature(word[0], word[1]))
  }

  /** The word a board sends for `w/256` °C. */
  function TemperatureWord(w: int): (word: seq<Byte>)
    requires 0 <= w < 65536
    ensures |word| == 2
  {
    [w / 256, w % 256]
  }

  /** Every temperature that is a whole number of 1/256 °C below 256 °C is decoded from its word. */
  lemma TemperatureRoundTrip(w: int)
    requires 0 <= w < 65536
    ensures TemperatureOf(TemperatureWord(w)) == Ok(w as real / 256.0)
  {
    var word := TemperatureWord(w);
    assert word[0] as int * 256 + word[1] == w;
  }

  /** Distinct words decode to distinct temperatures. */
  lemma TemperatureInjective(a0: Byte, a1: Byte, b0: Byte, b1: Byte)
    requires Temperature(a0, a1) == Temperature(b0, b1)
    ensures a0 == b0 && a1 == b1
  {
    assert a0 as int * 256 + a1 == b0 as int * 256 + b1;
  }

  // ---------------------------------------------------------------- the sample word

  /** One 14-bit sample: a 16-bit little-endian word whose two low bits are dropped (`int(w / 4)`). */
  function Sample(lo: Byte, hi: Byte): (s: int)
    ensures 0 <= s <= SAMPLE_MAX
    ensures 4 * s <= lo as int + 256 * hi < 4 * s + 4
  {
    (lo as int + 256 * hi) / 4
  }

  /** The low and high bytes of the word for sample `s`. */
  function SampleWord(s: int): (word: seq<Byte>)
    requires 0 <= s <= SAMPLE_MAX
    ensures |word| == 2
  {
    [(4 * s) % 256, (4 * s) / 256]
  }

  /** Every 14-bit sample is decoded from its word. */
  lemma SampleRoundTrip(s: int)
    requires 0 <= s <= SAMPLE_MAX
    ensures Sample(SampleWord(s)[0], SampleWord(s)[1]) == s
  {
    var word := SampleWord(s);
    assert word[0] as int + 256 * (word[1] as int) == 4 * s;
  }

  /** The two low bits of the word do not reach the sample. */
  lemma SampleDropsLowBits(lo: Byte, hi: Byte)
    ensures Sample(lo, hi) == Sample(lo - lo % 4, hi)
  {
    var w := lo as int + 256 * hi;
    assert lo as int - lo % 4 + 256 * hi == w - w % 4;
  }

  /**
   * The `for i in range(0, 8, 2)` loop of `GetSample`: the four samples of an eight-byte word,
   * channel `k` from bytes `2k` and `2k + 1`; a shorter word raises IndexError.
   */
  method ReadSamples(word: seq<Byte>) returns (r: Result<seq<int>, Failure>)
    ensures |word| < 8 ==> r == Err(IndexError)
    ensures |word| >= 8 ==> r.Ok? && |r.value| == 4
    ensures r.Ok? ==> forall k :: 0 <= k < 4 ==> r.value[k] == Sample(word[2 * k], word[2 * k + 1])
  {
    var samples: seq<int> := [];
    var i := 0;
    while i < 8
      invariant 0 <= i <= 8 && i % 2 == 0 && i <= |word| && |samples| == i / 2
      invariant forall k :: 0 <= k < i / 2 ==> samples[k] == Sample(word[2 * k], word[2 * k + 1])
    {
      if i + 1 >= |word| {
        return Err(IndexError);
      }
      samples := samples + [Sample(word[i], word[i + 1])];
      i := i + 2;
    }
    return Ok(samples);
  }

  // ---------------------------------------------------------------- the board

  class AB3510 {
    const simulation: bool
    const codes: BoardCodes

    var device: Option<nat>        // the index of the opened board among those found, None when not open
    var channels: seq<Channel>
    var eepromWrites: seq<seq<Byte>>  // the data sent by the EEPROM write requests, in order

    /** The tables set up before the board search: four channels of default calibration, no board open. */
    constructor (simulation: bool, codes: BoardCodes)
      ensures this.simulation == simulation && this.codes == codes
      ensures device.None? && eepromWrites == []
      ensures |channels| == 4 && forall i :: 0 <= i < 4 ==> channels[i] == DefaultChannel()
    {
      var tables: seq<Channel> := [];
      var i := 0;
      while i < 4
        invariant 0 <= i <= 4 && |tables| == i
        invariant forall j :: 0 <= j < i ==> tables[j] == DefaultChannel()
      {
        var calib: seq<real> := [];
        var k := 0;
        while k < CALIBRATION_POINTS
          invariant 0 <= k <= CALIBRATION_POINTS && |calib| == k
          invariant forall j :: 0 <= j < k ==> calib[j] == 0.0
        {
          calib := calib + [0.0];
          k := k + 1;
        }
        assert calib == DefaultChannel().powerCalib;
        tables := tables + [Channel(calib, [1.0, 0.0], [1.0, 0.0])];
        i := i + 1;
      }
      this.simulation := simulation;
      this.codes := codes;
      device := None;
      channels := tables;
      eepromWrites := [];
    }

    /**
     * `Open(Handle)` with `devices` boards found: outside simulation the board at `Handle`
     * (Python indexing, so a negative handle counts from the end) becomes the device. No board,
     * a handle out of range, or any other failure is caught by the bare `except`, which only
     * prints: the device is then left as it was.
     */
    method Open(handle: int, devices: nat)
      modifies this`device
      ensures simulation ==> device == old(device)
      ensures !simulation && -(devices as int) <= handle < devices ==>
        device == Some(if handle >= 0 then handle else devices as int + handle)
      ensures !simulation && !(-(devices as int) <= handle < devices) ==> device == old(device)
    {
      if !simulation && -(devices as int) <= handle < devices {
        device := Some(if handle >= 0 then handle else devices as int + handle);
      }
    }

    /** `Close`: no board is open any more. */
    method Close()
      modifies this`device
      ensures device.None?
    {
      device := None;
    }

    /**
     * `GetTemperature`: the simulated temperature, or the decoded word; a transfer without an
     * open board raises inside the `try` and is reported as a read error of that request.
     */
    function GetTemperature(word: seq<Byte>): (r: Result<real, Failure>)
      reads this
      ensures simulation ==> r == Ok(codes.simTemperature)
      ensures !simulation && device.None? ==> r == Err(Apex(codes.readError, IntToString(codes.getTemperature)))
      ensures !simulation && device.Some? ==> r == TemperatureOf(word)
    {
      if simulation then Ok(codes.simTemperature)
      else if device.None? then Err(Apex(codes.readError, IntToString(codes.getTemperature)))
      else TemperatureOf(word)
    }

    /**
     * `GetSample`: in simulation the call fails on the name `randint`, which is not imported;
     * otherwise the four samples of the word, or a read error without an open board.
     */
    method GetSample(word: seq<Byte>) returns (r: Result<seq<int>, Failure>)
      ensures simulation ==> r == Err(NameError("randint"))
      ensures !simulation && device.None? ==> r == Err(Apex(codes.readError, IntToString(codes.getSample)))
      ensures !simulation && device.Some? && |word| < 8 ==> r == Err(IndexError)
      ensures !simulation && device.Some? && |word| >= 8 ==>
        r.Ok? && |r.value| == 4 && forall k :: 0 <= k < 4 ==> 0 <= r.value[k] <= SAMPLE_MAX
      ensures !simulation && r.Ok? ==> forall k :: 0 <= k < 4 ==> r.value[k] == Sample(word[2 * k], word[2 * k + 1])
    {
      if simulation {
        return Err(NameError("randint"));
      }
      if device.None? {
        return Err(Apex(codes.readError, IntToString(codes.getSample)));
      }
      r := ReadSamples(word);
    }

    /**
     * `SetEEPROMParameters`: the data must be bytes; simulation answers True; outside it the
     * transfer needs an open board (it is outside the `try`, so the AttributeError escapes).
     */
    method SetEEPROMParameters(payload: Payload) returns (r: Result<bool, Failure>)
      modifies this`eepromWrites
      ensures payload.NotBytes? ==> r == Err(Apex(ARGUMENT_TYPE, "Data")) && eepromWrites == old(eepromWrites)
      ensures payload.Bytes? && simulation ==> r == Ok(true) && eepromWrites == old(eepromWrites)
      ensures payload.Bytes? && !simulation && device.None? ==>
        r == Err(AttributeError("ctrl_transfer")) && eepromWrites == old(eepromWrites)
      ensures payload.Bytes? && !simulation && device.Some? ==>
        r == Ok(true) && eepromWrites == old(eepromWrites) + [payload.data]
    {
      if payload.NotBytes? {
        return Err(Apex(ARGUMENT_TYPE, "Data"));
      }
      if simulation {
        return Ok(true);
      }
      if device.None? {
        return Err(AttributeError("ctrl_transfer"));
      }
      eepromWrites := eepromWrites + [payload.data];
      return Ok(true);
    }

    /**
     * `GetEEPROMParameters`: the count must be an int (a bool is one); simulation answers −1,
     * shown as None; outside it the board's reply, which needs an open board.
     */
    function GetEEPROMParameters(bytesNumber: Value, reply: seq<Byte>): (r: Result<Option<seq<Byte>>, Failure>)
      reads this
      ensures !IsInt(bytesNumber) ==> r == Err(Apex(ARGUMENT_TYPE, "BytesNumber"))
      ensures IsInt(bytesNumber) && simulation ==> r == Ok(None)
      ensures IsInt(bytesNumber) && !simulation && device.None? ==> r == Err(AttributeError("ctrl_transfer"))
      ensures IsInt(bytesNumber) && !simulation && device.Some? ==> r == Ok(Some(reply))
    {
      if !IsInt(bytesNumber) then Err(Apex(ARGUMENT_TYPE, "BytesNumber"))
      else if simulation then Ok(None)
      else if device.None? then Err(AttributeError("ctrl_transfer"))
      else Ok(Some(reply))
    }
  }

  /**
   * The constructor's board search: outside simulation no board found raises; a single board
   * is opened at handle 0; with several, none is opened. In simulation one simulated board is
   * found and `Open` only prints.
   */
  method Connect(simulation: bool, codes: BoardCodes, devices: nat) returns (r: Result<AB3510, Failure>)
    ensures !simulation && devices == 0 ==> r == Err(Apex(codes.noEquipment, "AB3510"))
    ensures simulation || devices > 0 ==> r.Ok? && fresh(r.value)
    ensures r.Ok? ==> r.value.simulation == simulation && r.value.codes == codes && r.value.eepromWrites == []
    ensures r.Ok? ==> r.value.device == if !simulation && devices == 1 then Some(0) else None
    ensures r.Ok? ==> |r.value.channels| == 4
  {
    var board := new AB3510(simulation, codes);
    if !simulation && devices == 0 {
      return Err(Apex(codes.noEquipment, "AB3510"));
    }
    if simulation || devices == 1 {
      board.Open(0, if simulation then 1 else devices);
    }
    return Ok(board);
  }
}
