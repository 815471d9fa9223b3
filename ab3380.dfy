/**
 * The AB3380 tunable filter board (AB3380/__init__.py): two filters driven by a voltage and a
 * switch through USB vendor requests, and an EEPROM holding the board's serial number, the
 * layout version, the two switch-over wavelengths and a wavelength-to-DAC table per filter.
 *
 * The EEPROM image is laid out as 20 serial bytes, two little-endian int16 version digits,
 * then 4-byte float32 slots: the two transitions, the PTS_NB table wavelengths (in pm), and
 * the PTS_NB DAC values of each filter.
 */
module AB3380 {
  import opened Wrappers
  import opened Text
  import opened Python
  import opened Errors


  /**
   * `struct.pack('f', x)` and `struct.unpack('f', b)[0]`: the float32 bit pattern is not
   * computed here; only that it takes four bytes is known.
   */
  datatype Float32 = Float32(pack: real -> seq<Byte>, unpack: seq<Byte> -> real)

  type FloatFormat = fmt: Float32 | forall x :: |fmt.pack(x)| == 4
    witness Float32((x: real) => [0, 0, 0, 0], (b: seq<Byte>) => 0.0)

  /** `x` is a float32 value: packing it and unpacking the bytes gives it back. */
  predicate Exact(fmt: FloatFormat, x: real)
  {
    fmt.unpack(fmt.pack(x)) == x
  }

  // ---------------------------------------------------------------- the EEPROM layout

  /** The size of the image for `n` table points: 20 + 2·2 + 2·4 + 3·n·4 bytes. */
  function Size(n: nat): nat
  {
    20 + 2 * 2 + 2 * 4 + 3 * n * 4
  }

  /** `struct.pack('h', v)` in little-endian order; `Int16Of` reads it back. */
  function Int16Bytes(v: int): (bs: seq<Byte>)
    requires -32768 <= v < 32768
    ensures |bs| == 2 && Int16Of(bs[0], bs[1]) == v
  {
    var u := if v < 0 then v + 65536 else v;
    [u % 256, u / 256]
  }

  /** `struct.unpack('h', [b0, b1])[0]` in little-endian order. */
  function Int16Of(b0: Byte, b1: Byte): (v: int)
    ensures -32768 <= v < 32768
  {
    var u := b0 + 256 * b1;
    if u >= 32768 then u - 65536 else u
  }

  /** The byte written for character `i` of the serial number; a missing or non-byte character leaves 0. */
  function SerialByte(serial: string, i: nat): Byte
  {
    if i < |serial| && serial[i] as int < 256 then serial[i] as int else 0
  }

  function SerialBytes(serial: string): (bs: seq<Byte>)
    ensures |bs| == 20
  {
    seq(20, i requires 0 <= i < 20 => SerialByte(serial, i))
  }

  /** The characters of the non-zero bytes, in order. */
  function NonZeroChars(bs: seq<Byte>): (s: string)
    ensures |s| <= |bs|
    ensures forall k :: 0 <= k < |s| ==> 0 < s[k] as int < 256
  {
    if bs == [] then ""
    else NonZeroChars(bs[..|bs| - 1]) + (if bs[|bs| - 1] != 0 then [bs[|bs| - 1] as char] else "")
  }

  /** The serial number read from an image: the non-zero bytes among its first 19. */
  function SerialOf(data: seq<Byte>): string
  {
    NonZeroChars(data[..if |data| < 19 then |data| else 19])
  }

  /** The version read from an image: the two int16 at offset 20, as "a.b". */
  function VersionOf(data: seq<Byte>): string
    requires |data| >= 24
  {
    IntToString(Int16Of(data[20], data[21])) + "." + IntToString(Int16Of(data[22], data[23]))
  }

  /** `EEPromOK`: the serial names an AB3380 and the layout version is "0.0". */
  predicate Accepted(serial: string, version: string)
  {
    Contains(serial, "3380") && version == "0.0"
  }

  /** The float32 slots `data[at + 4i : at + 4i + 4]` for `i` below `count`, unpacked. */
  function Slots(fmt: FloatFormat, data: seq<Byte>, at: nat, count: nat): (xs: seq<real>)
    requires at + 4 * count <= |data|
    ensures |xs| == count
  {
    seq(count, i requires 0 <= i < count => fmt.unpack(data[at + 4 * i..at + 4 * i + 4]))
  }

  function Thousandths(xs: seq<real>): (ys: seq<real>)
    ensures |ys| == |xs|
  {
    seq(|xs|, i requires 0 <= i < |xs| => xs[i] / 1000.0)
  }

  function Thousands(xs: seq<real>): (ys: seq<real>)
    ensures |ys| == |xs|
  {
    seq(|xs|, i requires 0 <= i < |xs| => xs[i] * 1000.0)
  }

  /** `int(x)` on each value. */
  function Truncated(xs: seq<real>): (ys: seq<real>)
    ensures |ys| == |xs|
  {
    seq(|xs|, i requires 0 <= i < |xs| => Trunc(xs[i]) as real)
  }

  /** The two transition wavelengths read from an image, in nm. */
  function TransitionsOf(fmt: FloatFormat, data: seq<Byte>): seq<real>
    requires |data| >= 32
  {
    Thousandths(Slots(fmt, data, 24, 2))
  }

  /** The table wavelengths read from an image, in nm. */
  function WavelengthsOf(fmt: FloatFormat, data: seq<Byte>, n: nat): seq<real>
    requires |data| >= Size(n)
  {
    Thousandths(Slots(fmt, data, 32, n))
  }

  /** The DAC table of filter `k + 1` read from an image, each value truncated to an integer. */
  function DacOf(fmt: FloatFormat, data: seq<Byte>, n: nat, k: nat): seq<real>
    requires k < 2 && |data| >= Size(n)
  {
    Truncated(Slots(fmt, data, if k == 0 then 32 + 4 * n else 32 + 8 * n, n))
  }

  /** How many of `count` float32 slots from offset `at` lie wholly inside `data`. */
  function Complete(data: seq<Byte>, at: nat, count: nat): (k: nat)
    ensures k <= count
    ensures k > 0 ==> at + 4 * k <= |data|
    ensures k < count ==> |data| < at + 4 * (k + 1)
    ensures count > 0 ==> (k == count <==> at + 4 * count <= |data|)
  {
    if |data| < at then 0 else if (|data| - at) / 4 < count then (|data| - at) / 4 else count
  }

  /** The slots an unpacking loop has stored when the data runs out: those before the first cut slot. */
  function SlotsPrefix(fmt: FloatFormat, data: seq<Byte>, at: nat, count: nat): (xs: seq<real>)
    ensures |xs| == Complete(data, at, count)
    ensures count > 0 && at + 4 * count <= |data| ==> xs == Slots(fmt, data, at, count)
  {
    var k := Complete(data, at, count);
    if k == 0 then [] else Slots(fmt, data, at, k)
  }

  /** The driver fields `EEPromData2Parameters` assigns. */
  datatype Parameters = Parameters(serial: string, version: string, ok: bool,
                                   transitions: seq<real>, wavelengths: seq<real>, dac: seq<seq<real>>)

  /**
   * The parameters after `EEPromData2Parameters` decodes `data` over `p`. Each field is assigned
   * once the bytes it needs are present, so an image cut short keeps what was decoded before the
   * cut, a table cut short holds its entries before the cut, and later fields keep their values.
   */
  function Decode(fmt: FloatFormat, n: nat, data: seq<Byte>, p: Parameters): (q: Parameters)
    requires |p.transitions| == 2 && |p.dac| == 2
    ensures q.serial == SerialOf(data) && |q.transitions| == 2 && |q.dac| == 2
    ensures |data| < 24 ==> q == p.(serial := SerialOf(data))
    ensures |data| >= 24 ==> q.version == VersionOf(data) && q.ok == Accepted(SerialOf(data), VersionOf(data))
    ensures |data| >= 28 ==> q.transitions[0] == fmt.unpack(data[24..28]) / 1000.0
    ensures |data| < 32 ==> q.transitions[1] == p.transitions[1] && q.wavelengths == p.wavelengths
    ensures |data| >= 32 ==> q.transitions == TransitionsOf(fmt, data) && q.wavelengths == Thousandths(SlotsPrefix(fmt, data, 32, n))
    ensures q.dac[0] == if |data| < 32 + 4 * n then p.dac[0] else Truncated(SlotsPrefix(fmt, data, 32 + 4 * n, n))
    ensures q.dac[1] == if |data| < 32 + 8 * n then p.dac[1] else Truncated(SlotsPrefix(fmt, data, 32 + 8 * n, n))
    ensures n > 0 && |data| >= Size(n) ==>
      q == Parameters(SerialOf(data), VersionOf(data), Accepted(SerialOf(data), VersionOf(data)),
                      TransitionsOf(fmt, data), WavelengthsOf(fmt, data, n),
                      [DacOf(fmt, data, n, 0), DacOf(fmt, data, n, 1)])
  {
    var h := HeaderDecoded(fmt, data, p);
    if |data| < 32 then h else TablesDecoded(fmt, n, data, h)
  }

  /** The header stage of `Decode`: the serial, then version and acceptance, then each transition. */
  function HeaderDecoded(fmt: FloatFormat, data: seq<Byte>, p: Parameters): (q: Parameters)
    requires |p.transitions| == 2
    ensures q.serial == SerialOf(data) && |q.transitions| == 2
    ensures q.wavelengths == p.wavelengths && q.dac == p.dac
    ensures |data| < 24 ==> q == p.(serial := SerialOf(data))
    ensures |data| >= 32 ==> q.transitions == TransitionsOf(fmt, data)
  {
    var serial := SerialOf(data);
    if |data| < 24 then p.(serial := serial)
    else
      var version := VersionOf(data);
      var h := p.(serial := serial, version := version, ok := Accepted(serial, version));
      if |data| < 28 then h
      else if |data| < 32 then h.(transitions := h.transitions[0 := fmt.unpack(data[24..28]) / 1000.0])
      else h.(transitions := TransitionsOf(fmt, data))
  }

  /** Parameters whose fields are those the header stage assigns are the header stage's result. */
  lemma HeaderFields(fmt: FloatFormat, data: seq<Byte>, p: Parameters, q: Parameters)
    requires |p.transitions| == 2
    requires q.serial == SerialOf(data) && q.wavelengths == p.wavelengths && q.dac == p.dac
    requires |data| < 24 ==> q.version == p.version && q.ok == p.ok
    requires |data| >= 24 ==> q.version == VersionOf(data) && q.ok == Accepted(SerialOf(data), VersionOf(data))
    requires q.transitions == if |data| < 28 then p.transitions
                              else if |data| < 32 then p.transitions[0 := fmt.unpack(data[24..28]) / 1000.0]
                              else TransitionsOf(fmt, data)
    ensures q == HeaderDecoded(fmt, data, p)
  {
  }

  /** The table stage of `Decode`: the wavelength table, then each DAC table once the one before is complete. */
  function TablesDecoded(fmt: FloatFormat, n: nat, data: seq<Byte>, p: Parameters): (q: Parameters)
    requires |data| >= 32 && |p.dac| == 2
    ensures |q.dac| == 2 && q.serial == p.serial && q.version == p.version && q.ok == p.ok && q.transitions == p.transitions
  {
    var t := p.(wavelengths := Thousandths(SlotsPrefix(fmt, data, 32, n)));
    if |data| < 32 + 4 * n then t
    else
      var t0 := t.(dac := t.dac[0 := Truncated(SlotsPrefix(fmt, data, 32 + 4 * n, n))]);
      if |data| < 32 + 8 * n then t0
      else t0.(dac := t0.dac[1 := Truncated(SlotsPrefix(fmt, data, 32 + 8 * n, n))])
  }

  /** What the unpacking loop stores from a cut image is a prefix of what it reads from the whole one. */
  lemma SlotsPrefixOfWhole(fmt: FloatFormat, data: seq<Byte>, whole: seq<Byte>, at: nat, count: nat)
    requires data <= whole && count > 0 && at + 4 * count <= |whole|
    ensures SlotsPrefix(fmt, data, at, count) <= Slots(fmt, whole, at, count)
  {
    var xs, ys := SlotsPrefix(fmt, data, at, count), Slots(fmt, whole, at, count);
    forall i | 0 <= i < |xs|
      ensures xs[i] == ys[i]
    {
      assert data[at + 4 * i..at + 4 * i + 4] == whole[at + 4 * i..at + 4 * i + 4];
    }
  }

  /** Scaling keeps a prefix a prefix. */
  lemma ThousandthsPrefix(xs: seq<real>, ys: seq<real>)
    requires xs <= ys
    ensures Thousandths(xs) <= Thousandths(ys)
  {
    assert forall i :: 0 <= i < |xs| ==> Thousandths(xs)[i] == Thousandths(ys)[i];
  }

  /** Truncating keeps a prefix a prefix. */
  lemma TruncatedPrefix(xs: seq<real>, ys: seq<real>)
    requires xs <= ys
    ensures Truncated(xs) <= Truncated(ys)
  {
    assert forall i :: 0 <= i < |xs| ==> Truncated(xs)[i] == Truncated(ys)[i];
  }

  /** A cut image that holds the header reads the serial, the version and the acceptance of the whole one. */
  lemma CutImageHeader(data: seq<Byte>, whole: seq<Byte>)
    requires data <= whole && |data| >= 24
    ensures SerialOf(data) == SerialOf(whole) && VersionOf(data) == VersionOf(whole)
  {
    assert data[..19] == whole[..19];
    assert data[20..24] == whole[20..24];
  }

  /** A cut image decodes a DAC table either not at all or as the start of the whole image's table. */
  lemma CutImageDacAgrees(fmt: FloatFormat, n: nat, data: seq<Byte>, whole: seq<Byte>, p: Parameters, k: nat)
    requires n > 0 && |p.transitions| == 2 && |p.dac| == 2 && k < 2
    requires data <= whole && |whole| >= Size(n)
    ensures var q := Decode(fmt, n, data, p);
      q.dac[k] == p.dac[k] || q.dac[k] <= DacOf(fmt, whole, n, k)
  {
    var at := if k == 0 then 32 + 4 * n else 32 + 8 * n;
    if |data| >= at {
      SlotsPrefixOfWhole(fmt, data, whole, at, n);
      TruncatedPrefix(SlotsPrefix(fmt, data, at, n), Slots(fmt, whole, at, n));
    }
  }

  /**
   * Decoding an image that the transfer cut short never disagrees with decoding the whole image:
   * each field either keeps its old value or holds the start of what the whole image gives.
   */
  lemma CutImageAgreesWithWhole(fmt: FloatFormat, n: nat, data: seq<Byte>, whole: seq<Byte>, p: Parameters)
    requires n > 0 && |p.transitions| == 2 && |p.dac| == 2
    requires data <= whole && |whole| >= Size(n)
    ensures var q := Decode(fmt, n, data, p);
      && (|data| >= 24 ==> q.version == VersionOf(whole) && q.ok == Accepted(SerialOf(whole), VersionOf(whole)))
      && (q.transitions == p.transitions || q.transitions[0] == TransitionsOf(fmt, whole)[0])
      && (q.wavelengths == p.wavelengths || q.wavelengths <= WavelengthsOf(fmt, whole, n))
      && (q.dac[0] == p.dac[0] || q.dac[0] <= DacOf(fmt, whole, n, 0))
      && (q.dac[1] == p.dac[1] || q.dac[1] <= DacOf(fmt, whole, n, 1))
  {
    if |data| >= 24 {
      CutImageHeader(data, whole);
    }
    if |data| >= 28 {
      assert data[24..28] == whole[24..28];
    }
    if |data| >= 32 {
      SlotsPrefixOfWhole(fmt, data, whole, 32, n);
      ThousandthsPrefix(SlotsPrefix(fmt, data, 32, n), Slots(fmt, whole, 32, n));
    }
    CutImageDacAgrees(fmt, n, data, whole, p, 0);
    CutImageDacAgrees(fmt, n, data, whole, p, 1);
  }

  /** The 'f' slots of `xs`, one after the other. */
  function Packed(fmt: FloatFormat, xs: seq<real>): (bs: seq<Byte>)
    ensures |bs| == 4 * |xs|
  {
    if xs == [] then [] else Packed(fmt, xs[..|xs| - 1]) + fmt.pack(xs[|xs| - 1])
  }

  /** Slot `i` of a packed sequence holds `xs[i]`. */
  lemma {:induction false} PackedSlot(fmt: FloatFormat, xs: seq<real>, i: nat)
    requires i < |xs|
    ensures Packed(fmt, xs)[4 * i..4 * i + 4] == fmt.pack(xs[i])
  {
    var init := xs[..|xs| - 1];
    if i < |xs| - 1 {
      PackedSlot(fmt, init, i);
      assert init[i] == xs[i];
      assert Packed(fmt, xs)[4 * i..4 * i + 4] == Packed(fmt, init)[4 * i..4 * i + 4];
    } else {
      assert |Packed(fmt, init)| == 4 * i;
    }
  }

  /**
   * The image `Parameters2EEPromData` lays out: the serial bytes, the version digits, the
   * transition slots, the table wavelength slots and the two DAC tables, with every
   * value already in the unit it is stored in.
   */
  function Image(fmt: FloatFormat, serial: string, a: int, b: int, transitions: seq<real>,
                 wavelengths: seq<real>, dac0: seq<real>, dac1: seq<real>): (data: seq<Byte>)
    requires 0 <= a <= 9 && 0 <= b <= 9 && |transitions| == 2
    ensures |data| == 32 + 4 * |wavelengths| + 4 * |dac0| + 4 * |dac1|
  {
    SerialBytes(serial) + (Int16Bytes(a) + (Int16Bytes(b) + (Packed(fmt, transitions)
      + (Packed(fmt, wavelengths) + (Packed(fmt, dac0) + Packed(fmt, dac1))))))
  }

  /** Slot `i` of a packed sequence placed at `at` is at `at + 4i`. */
  lemma SlotAt(fmt: FloatFormat, data: seq<Byte>, at: nat, xs: seq<real>, i: nat)
    requires at + 4 * |xs| <= |data| && data[at..at + 4 * |xs|] == Packed(fmt, xs) && i < |xs|
    ensures data[at + 4 * i..at + 4 * i + 4] == fmt.pack(xs[i])
  {
    var len, lo := 4 * |xs|, 4 * i;
    assert lo + 4 <= len;
    PackedSlot(fmt, xs, i);
    SliceOfSlice(data, at, len, lo, lo + 4);
  }

  /** A slice of a slice is a slice of the whole. */
  lemma SliceOfSlice<T>(s: seq<T>, at: nat, len: nat, i: nat, j: nat)
    requires at + len <= |s| && i <= j <= len
    ensures s[at..at + len][i..j] == s[at + i..at + j]
  {
    var whole := s[at..at + len];
    var part := whole[i..j];
    forall k | 0 <= k < j - i
      ensures part[k] == s[at + i..at + j][k]
    {
      assert part[k] == whole[i + k];
    }
  }

  /** Unpacking the slots of a packed sequence of float32 values gives the sequence back. */
  lemma SlotsReadBack(fmt: FloatFormat, data: seq<Byte>, at: nat, xs: seq<real>)
    requires at + 4 * |xs| <= |data| && data[at..at + 4 * |xs|] == Packed(fmt, xs)
    requires forall i :: 0 <= i < |xs| ==> Exact(fmt, xs[i])
    ensures Slots(fmt, data, at, |xs|) == xs
  {
    var ys := Slots(fmt, data, at, |xs|);
    forall i | 0 <= i < |xs|
      ensures ys[i] == xs[i]
    {
      SlotAt(fmt, data, at, xs, i);
      assert ys[i] == fmt.unpack(data[at + 4 * i..at + 4 * i + 4]);
    }
  }

  /** Scaling to thousandths undoes scaling to thousands. */
  lemma ThousandthsOfThousands(xs: seq<real>)
    ensures Thousandths(Thousands(xs)) == xs
  {
  }

  /** Truncating values that are already integers changes nothing. */
  lemma TruncatedIntegers(xs: seq<real>)
    requires forall i :: 0 <= i < |xs| ==> Trunc(xs[i]) as real == xs[i]
    ensures Truncated(xs) == xs
  {
  }

  /** `int(version[0])` and `int(version[2])`: the two digits the image stores. */
  function VersionDigits(version: string): (r: Result<(int, int), Failure>)
    ensures r.Ok? <==> |version| >= 3 && IsDigit(version[0]) && IsDigit(version[2])
    ensures r.Ok? ==> 0 <= r.value.0 <= 9 && 0 <= r.value.1 <= 9
    ensures r.Ok? ==> DigitChar(r.value.0) == version[0] && DigitChar(r.value.1) == version[2]
    ensures r.Err? ==> r.error in {IndexError, ValueError("int")}
  {
    if |version| == 0 then Err(IndexError)
    else if !IsDigit(version[0]) then Err(ValueError("int"))
    else if |version| < 3 then Err(IndexError)
    else if !IsDigit(version[2]) then Err(ValueError("int"))
    else Ok((version[0] as int - '0' as int, version[2] as int - '0' as int))
  }

  /**
   * The image `Parameters2EEPromData` writes, with the transitions stored in pm like the
   * table wavelengths (see `TransitionSlotsAsWritten`): the version must have digits at 0
   * and 2, and each table at least `n` entries.
   */
  function Encoding(fmt: FloatFormat, n: nat, serial: string, version: string, transitions: seq<real>,
                    wavelengths: seq<real>, dac: seq<seq<real>>): (r: Result<seq<Byte>, Failure>)
    requires |transitions| == 2 && |dac| == 2
    ensures r.Ok? <==> VersionDigits(version).Ok? && |wavelengths| >= n && |dac[0]| >= n && |dac[1]| >= n
    ensures r.Err? ==> r.error in {IndexError, ValueError("int")}
    ensures r.Ok? ==> |r.value| == Size(n)
  {
    match VersionDigits(version)
    case Err(e) => Err(e)
    case Ok(digits) =>
      if |wavelengths| < n || |dac[0]| < n || |dac[1]| < n then Err(IndexError)
      else Ok(Image(fmt, serial, digits.0, digits.1, Thousands(transitions),
                    Thousands(wavelengths[..n]), dac[0][..n], dac[1][..n]))
  }

  /** A serial of at most 19 byte-sized, non-NUL characters is read back from its 20 bytes. */
  lemma {:induction false} SerialRoundTrip(serial: string)
    requires |serial| <= 19
    requires forall k :: 0 <= k < |serial| ==> 0 < serial[k] as int < 256
    ensures SerialOf(SerialBytes(serial)) == serial
  {
    var bs := SerialBytes(serial)[..19];
    assert SerialOf(SerialBytes(serial)) == NonZeroChars(bs);
    assert forall i :: 0 <= i < 19 ==> bs[i] == SerialByte(serial, i);
    NonZeroCharsPrefix(serial, bs, 19);
    assert bs[..19] == bs;
  }

  /** The non-zero characters of the first `k` serial bytes are the serial's first `k` characters. */
  lemma {:induction false} NonZeroCharsPrefix(serial: string, bs: seq<Byte>, k: nat)
    requires |serial| <= 19 && |bs| == 19 && k <= 19
    requires forall k :: 0 <= k < |serial| ==> 0 < serial[k] as int < 256
    requires forall i :: 0 <= i < 19 ==> bs[i] == SerialByte(serial, i)
    ensures NonZeroChars(bs[..k]) == if k <= |serial| then serial[..k] else serial
  {
    if k > 0 {
      NonZeroCharsPrefix(serial, bs, k - 1);
      assert bs[..k][..k - 1] == bs[..k - 1];
      if k <= |serial| {
        assert serial[..k] == serial[..k - 1] + [serial[k - 1]];
      }
    }
  }

  /**
   * With the version digits "a.b" and every table at least `n` long, `Encoding` writes the
   * image of the scaled transitions and wavelengths and of the first `n` DAC values.
   */
  lemma EncodingImage(fmt: FloatFormat, n: nat, serial: string, version: string, transitions: seq<real>,
                      wavelengths: seq<real>, dac: seq<seq<real>>)
    requires |transitions| == 2 && |dac| == 2 && |wavelengths| == n && |dac[0]| == n && |dac[1]| == n
    requires |version| == 3 && IsDigit(version[0]) && IsDigit(version[2])
    ensures var (a, b) := VersionDigits(version).value;
      Encoding(fmt, n, serial, version, transitions, wavelengths, dac)
        == Ok(Image(fmt, serial, a, b, Thousands(transitions), Thousands(wavelengths), dac[0], dac[1]))
  {
    assert wavelengths[..n] == wavelengths && dac[0][..n] == dac[0] && dac[1][..n] == dac[1];
  }

  /**
   * Decoding an image written by `Encoding` gives back its header: the serial (at most 19
   * non-NUL byte-sized characters), a version "a.b" of two digits, and the transitions when
   * they are float32 numbers once scaled.
   */
  lemma EncodingHeaderRoundTrip(fmt: FloatFormat, n: nat, serial: string, version: string, transitions: seq<real>,
                                wavelengths: seq<real>, dac: seq<seq<real>>)
    requires |transitions| == 2 && |dac| == 2 && |wavelengths| == n && |dac[0]| == n && |dac[1]| == n
    requires |serial| <= 19 && forall k :: 0 <= k < |serial| ==> 0 < serial[k] as int < 256
    requires |version| == 3 && IsDigit(version[0]) && version[1] == '.' && IsDigit(version[2])
    requires Exact(fmt, transitions[0] * 1000.0) && Exact(fmt, transitions[1] * 1000.0)
    ensures Encoding(fmt, n, serial, version, transitions, wavelengths, dac).Ok?
    ensures var data := Encoding(fmt, n, serial, version, transitions, wavelengths, dac).value;
      && SerialOf(data) == serial
      && VersionOf(data) == version
      && TransitionsOf(fmt, data) == transitions
  {
    var digits := VersionDigits(version).value;
    var a, b := digits.0, digits.1;
    var ts, ws := Thousands(transitions), Thousands(wavelengths);
    EncodingImage(fmt, n, serial, version, transitions, wavelengths, dac);
    ImageSerialReadBack(fmt, serial, a, b, ts, ws, dac[0], dac[1]);
    ImageVersion(fmt, serial, version, a, b, ts, ws, dac[0], dac[1]);
    ImageTransitionsReadBack(fmt, serial, a, b, ts, ws, dac[0], dac[1]);
    ThousandthsOfThousands(transitions);
  }

  /**
   * Decoding an image written by `Encoding` gives back its tables: the wavelengths when they
   * are float32 numbers once scaled, and the DAC values when they are integral float32 numbers.
   */
  lemma EncodingTablesRoundTrip(fmt: FloatFormat, n: nat, serial: string, version: string, transitions: seq<real>,
                                wavelengths: seq<real>, dac: seq<seq<real>>)
    requires |transitions| == 2 && |dac| == 2 && |wavelengths| == n && |dac[0]| == n && |dac[1]| == n
    requires |version| == 3 && IsDigit(version[0]) && IsDigit(version[2])
    requires forall i :: 0 <= i < n ==> Exact(fmt, wavelengths[i] * 1000.0)
    requires forall k, i :: 0 <= k < 2 && 0 <= i < n ==> Exact(fmt, dac[k][i]) && Trunc(dac[k][i]) as real == dac[k][i]
    ensures Encoding(fmt, n, serial, version, transitions, wavelengths, dac).Ok?
    ensures var data := Encoding(fmt, n, serial, version, transitions, wavelengths, dac).value;
      && WavelengthsOf(fmt, data, n) == wavelengths
      && DacOf(fmt, data, n, 0) == dac[0]
      && DacOf(fmt, data, n, 1) == dac[1]
  {
    var digits := VersionDigits(version).value;
    var a, b := digits.0, digits.1;
    var ts, ws := Thousands(transitions), Thousands(wavelengths);
    EncodingImage(fmt, n, serial, version, transitions, wavelengths, dac);
    ImageWavelengthsReadBack(fmt, serial, a, b, ts, wavelengths, dac[0], dac[1]);
    assert forall i :: 0 <= i < n ==> Exact(fmt, dac[0][i]) && Trunc(dac[0][i]) as real == dac[0][i];
    assert forall i :: 0 <= i < n ==> Exact(fmt, dac[1][i]) && Trunc(dac[1][i]) as real == dac[1][i];
    ImageFirstDacReadBack(fmt, serial, a, b, ts, ws, dac[0], dac[1]);
    ImageSecondDacReadBack(fmt, serial, a, b, ts, ws, dac[0], dac[1]);
  }

  /** The serial of an image is read back as written. */
  lemma ImageSerialReadBack(fmt: FloatFormat, serial: string, a: int, b: int, ts: seq<real>,
      ws: seq<real>, d0: seq<real>, d1: seq<real>)
    requires 0 <= a <= 9 && 0 <= b <= 9 && |ts| == 2 && |ws| == |d0| == |d1|
    requires |serial| <= 19 && forall k :: 0 <= k < |serial| ==> 0 < serial[k] as int < 256
    ensures SerialOf(Image(fmt, serial, a, b, ts, ws, d0, d1)) == serial
  {
    ImageSegments(fmt, serial, a, b, ts, ws, d0, d1);
    SerialRoundTrip(serial);
    assert Image(fmt, serial, a, b, ts, ws, d0, d1)[..19] == SerialBytes(serial)[..19];
  }

  /** The transition slots of an image are read back as written. */
  lemma ImageTransitionsReadBack(fmt: FloatFormat, serial: string, a: int, b: int, ts: seq<real>,
      ws: seq<real>, d0: seq<real>, d1: seq<real>)
    requires 0 <= a <= 9 && 0 <= b <= 9 && |ts| == 2 && |ws| == |d0| == |d1|
    requires Exact(fmt, ts[0]) && Exact(fmt, ts[1])
    ensures Slots(fmt, Image(fmt, serial, a, b, ts, ws, d0, d1), 24, 2) == ts
  {
    ImageSegments(fmt, serial, a, b, ts, ws, d0, d1);
    assert forall i :: 0 <= i < 2 ==> Exact(fmt, ts[i]);
    SlotsReadBack(fmt, Image(fmt, serial, a, b, ts, ws, d0, d1), 24, ts);
  }

  /** The table wavelengths, stored in pm, are read back in nm when they are float32 numbers once scaled. */
  lemma ImageWavelengthsReadBack(fmt: FloatFormat, serial: string, a: int, b: int, ts: seq<real>,
      ws: seq<real>, d0: seq<real>, d1: seq<real>)
    requires 0 <= a <= 9 && 0 <= b <= 9 && |ts| == 2 && |ws| == |d0| == |d1|
    requires forall i :: 0 <= i < |ws| ==> Exact(fmt, ws[i] * 1000.0)
    ensures WavelengthsOf(fmt, Image(fmt, serial, a, b, ts, Thousands(ws), d0, d1), |ws|) == ws
  {
    var scaled := Thousands(ws);
    ImageSegments(fmt, serial, a, b, ts, scaled, d0, d1);
    assert forall i :: 0 <= i < |ws| ==> Exact(fmt, scaled[i]);
    SlotsReadBack(fmt, Image(fmt, serial, a, b, ts, scaled, d0, d1), 32, scaled);
    ThousandthsOfThousands(ws);
  }

  /** The first DAC table of an image is read back when its values are integral float32 numbers. */
  lemma ImageFirstDacReadBack(fmt: FloatFormat, serial: string, a: int, b: int, ts: seq<real>,
      ws: seq<real>, d0: seq<real>, d1: seq<real>)
    requires 0 <= a <= 9 && 0 <= b <= 9 && |ts| == 2 && |ws| == |d0| == |d1|
    requires forall i :: 0 <= i < |d0| ==> Exact(fmt, d0[i]) && Trunc(d0[i]) as real == d0[i]
    ensures DacOf(fmt, Image(fmt, serial, a, b, ts, ws, d0, d1), |ws|, 0) == d0
  {
    ImageSegments(fmt, serial, a, b, ts, ws, d0, d1);
    SlotsReadBack(fmt, Image(fmt, serial, a, b, ts, ws, d0, d1), 32 + 4 * |ws|, d0);
    TruncatedIntegers(d0);
  }

  /** The second DAC table of an image is read back when its values are integral float32 numbers. */
  lemma ImageSecondDacReadBack(fmt: FloatFormat, serial: string, a: int, b: int, ts: seq<real>,
      ws: seq<real>, d0: seq<real>, d1: seq<real>)
    requires 0 <= a <= 9 && 0 <= b <= 9 && |ts| == 2 && |ws| == |d0| == |d1|
    requires forall i :: 0 <= i < |d1| ==> Exact(fmt, d1[i]) && Trunc(d1[i]) as real == d1[i]
    ensures DacOf(fmt, Image(fmt, serial, a, b, ts, ws, d0, d1), |ws|, 1) == d1
  {
    ImageSegments(fmt, serial, a, b, ts, ws, d0, d1);
    SlotsReadBack(fmt, Image(fmt, serial, a, b, ts, ws, d0, d1), 32 + 8 * |ws|, d1);
    TruncatedIntegers(d1);
  }

  /** The version digits of an image are read back as "a.b". */
  lemma ImageVersion(fmt: FloatFormat, serial: string, version: string, a: int, b: int, ts: seq<real>,
                     ws: seq<real>, d0: seq<real>, d1: seq<real>)
    requires |ts| == 2 && |ws| == |d0| == |d1|
    requires |version| == 3 && version[1] == '.' && VersionDigits(version) == Ok((a, b))
    ensures VersionOf(Image(fmt, serial, a, b, ts, ws, d0, d1)) == version
  {
    var data := Image(fmt, serial, a, b, ts, ws, d0, d1);
    ImageSegments(fmt, serial, a, b, ts, ws, d0, d1);
    assert IntToString(a) == [DigitChar(a)];
    assert IntToString(b) == [DigitChar(b)];
    assert Int16Of(data[20], data[21]) == a && Int16Of(data[22], data[23]) == b;
  }

  /** The transition slots as `Parameters2EEPromData` writes them: in nm, where the rest of the image is in pm. */
  function TransitionSlotsAsWritten(transitions: seq<real>): (stored: seq<real>)
    requires |transitions| == 2
    ensures stored == transitions
  {
    transitions
  }

  /** Stored unscaled, the transitions are read back a thousand times too small: 1546 nm comes back as 1.546 nm. */
  lemma TransitionsAsWrittenReadBackScaledDown(fmt: FloatFormat, serial: string, transitions: seq<real>)
    requires |transitions| == 2 && Exact(fmt, transitions[0]) && Exact(fmt, transitions[1])
    ensures var data := Image(fmt, serial, 0, 0, TransitionSlotsAsWritten(transitions), [], [], []);
      TransitionsOf(fmt, data) == [transitions[0] / 1000.0, transitions[1] / 1000.0]
    ensures transitions == [1546.0, 1546.0] ==>
      TransitionsOf(fmt, Image(fmt, serial, 0, 0, TransitionSlotsAsWritten(transitions), [], [], [])) != transitions
  {
    var data := Image(fmt, serial, 0, 0, transitions, [], [], []);
    ImageTransitionsReadBack(fmt, serial, 0, 0, transitions, [], [], []);
  }

  /**
   * `Parameters2EEPromData` as written: the buffer is an immutable `bytes`, so the first
   * assignment outside the serial loop's `try` (the version at offset 20) raises; nothing
   * reaches the EEPROM.
   */
  function Parameters2EEPromDataAsWritten(version: string): (r: Result<bool, Failure>)
    ensures r.Err?
    ensures VersionDigits(version).Ok? ==> r.error == TypeError("'bytes' object does not support item assignment")
  {
    match VersionDigits(version)
    case Err(e) => Err(e)
    case Ok(_) => Err(TypeError("'bytes' object does not support item assignment"))
  }

  /** Every image the corrected encoder writes is one the code as written fails to write. */
  lemma AsWrittenNeverWrites(fmt: FloatFormat, n: nat, serial: string, version: string, transitions: seq<real>,
                             wavelengths: seq<real>, dac: seq<seq<real>>)
    requires |transitions| == 2 && |dac| == 2
    requires Encoding(fmt, n, serial, version, transitions, wavelengths, dac).Ok?
    ensures Parameters2EEPromDataAsWritten(version) == Err(TypeError("'bytes' object does not support item assignment"))
  {
  }

  // ---------------------------------------------------------------- the filter setting

  /** The vendor requests sent to the board. */
  datatype Request =
    | SetVoltage1(voltage: Value)
    | SetVoltage2(voltage: Value)
    | SetSwitch1(state: Value)
    | SetSwitch2(state: Value)
    | SetEEPromParameters(data: seq<Byte>)

  /** The `Filter` argument: a number equal to 1 or 2; the result says whether it is filter 2. */
  function FilterCheck(filter: Value): (r: Result<bool, Failure>)
    ensures r.Ok? <==> IsNumber(filter) && (EqualsInt(filter, 1) || EqualsInt(filter, 2))
    ensures r.Ok? ==> (r.value <==> EqualsInt(filter, 2))
    ensures r.Err? ==> r.error == Apex(if IsNumber(filter) then ARGUMENT_VALUE else ARGUMENT_TYPE, "Filter")
  {
    if !IsNumber(filter) then Err(Apex(ARGUMENT_TYPE, "Filter"))
    else if !(EqualsInt(filter, 1) || EqualsInt(filter, 2)) then Err(Apex(ARGUMENT_VALUE, "Filter"))
    else Ok(EqualsInt(filter, 2))
  }

  /** `SetVoltage`: a number in 0..65535 for filter 1 or 2, sent as the VOLTAGE2 request for filter 2 and VOLTAGE1 otherwise. */
  function VoltageRequest(voltage: Value, filter: Value): (r: Result<Request, Failure>)
    ensures r.Ok? <==> IsNumber(voltage) && 0.0 <= Number(voltage) <= 65535.0 && FilterCheck(filter).Ok?
    ensures !IsNumber(voltage) ==> r == Err(Apex(ARGUMENT_TYPE, "Voltage"))
    ensures IsNumber(voltage) && !(0.0 <= Number(voltage) <= 65535.0) ==> r == Err(Apex(ARGUMENT_VALUE, "Voltage"))
    ensures r.Ok? ==> r.value == if EqualsInt(filter, 2) then SetVoltage2(voltage) else SetVoltage1(voltage)
  {
    if !IsNumber(voltage) then Err(Apex(ARGUMENT_TYPE, "Voltage"))
    else if Number(voltage) < 0.0 || Number(voltage) > 65535.0 then Err(Apex(ARGUMENT_VALUE, "Voltage"))
    else
      match FilterCheck(filter)
      case Err(e) => Err(e)
      case Ok(second) => Ok(if second then SetVoltage2(voltage) else SetVoltage1(voltage))
  }

  /** `SetSwitch`: a number (or bool) whose `int()` is 0 or 1, for filter 1 or 2. */
  function SwitchRequest(state: Value, filter: Value): (r: Result<Request, Failure>)
    ensures r.Ok? <==> IsNumber(state) && Trunc(Number(state)) in {0, 1} && FilterCheck(filter).Ok?
    ensures !IsNumber(state) ==> r == Err(Apex(ARGUMENT_TYPE, "State"))
    ensures IsNumber(state) && Trunc(Number(state)) !in {0, 1} ==> r == Err(Apex(ARGUMENT_VALUE, "State"))
    ensures r.Ok? ==> r.value == if EqualsInt(filter, 2) then SetSwitch2(state) else SetSwitch1(state)
  {
    if !IsNumber(state) then Err(Apex(ARGUMENT_TYPE, "State"))
    else if Trunc(Number(state)) !in {0, 1} then Err(Apex(ARGUMENT_VALUE, "State"))
    else
      match FilterCheck(filter)
      case Err(e) => Err(e)
      case Ok(second) => Ok(if second then SetSwitch2(state) else SetSwitch1(state))
  }

  function Sq(x: real): real { x * x }

  /** `i` is the first index whose squared distance to `x` is the smallest (`Error.index(min(Error))`). */
  predicate FirstNearest(table: seq<real>, x: real, i: int)
  {
    && 0 <= i < |table|
    && (forall j :: 0 <= j < |table| ==> Sq(table[i] - x) <= Sq(table[j] - x))
    && (forall j :: 0 <= j < i ==> Sq(table[j] - x) > Sq(table[i] - x))
  }

  /** The first nearest table point. */
  function Nearest(table: seq<real>, x: real): (i: nat)
    requires |table| > 0
    ensures FirstNearest(table, x, i)
  {
    if |table| == 1 then 0
    else
      var init := table[..|table| - 1];
      var b := Nearest(init, x);
      assert forall j :: 0 <= j < |init| ==> init[j] == table[j];
      if Sq(table[|table| - 1] - x) < Sq(table[b] - x) then |table| - 1 else b
  }

  /** The nearest point, moved one up when it lies below the order. */
  function Bracket(table: seq<real>, x: real): (index: nat)
    requires |table| > 0
    ensures index <= |table|
    ensures index == if table[Nearest(table, x)] < x then Nearest(table, x) + 1 else Nearest(table, x)
  {
    var i := Nearest(table, x);
    if table[i] < x then i + 1 else i
  }

  predicate Increasing(table: seq<real>)
  {
    forall i, j :: 0 <= i < j < |table| ==> table[i] < table[j]
  }

  /** For `a < b`, `a` is no farther from 0 than `b` exactly when `a + b` is not negative. */
  lemma SquaresOrder(a: real, b: real)
    requires a < b
    ensures Sq(a) <= Sq(b) <==> a + b >= 0.0
  {
    assert Sq(b) - Sq(a) == (b - a) * (b + a);
  }

  /** On an increasing table, an order inside the table lies between the points `index − 1` and `index`. */
  lemma BracketEnclosesOrder(table: seq<real>, x: real)
    requires |table| > 0 && Increasing(table)
    ensures var index := Bracket(table, x);
      0 < index < |table| ==> table[index - 1] < x <= table[index]
  {
    var i := Nearest(table, x);
    var index := Bracket(table, x);
    if 0 < index < |table| {
      if table[i] < x {
        // The next point is at least as far, so it lies on the other side of x.
        SquaresOrder(table[i] - x, table[i + 1] - x);
      } else {
        // The previous point is strictly farther, so it lies on the other side of x.
        SquaresOrder(table[i - 1] - x, table[i] - x);
      }
    }
  }

  /** The line through (w0, d0) and (w1, d1) at `x`, computed as `x·C1 + C0`. */
  function Line(w0: real, d0: real, w1: real, d1: real, x: real): real
    requires w1 != w0
  {
    var c1 := (d1 - d0) / (w1 - w0);
    var c0 := d1 - w1 * c1;
    x * c1 + c0
  }

  /** The line passes through both table points, and between them stays between their values. */
  lemma LineInterpolates(w0: real, d0: real, w1: real, d1: real, x: real)
    requires w0 < w1
    ensures Line(w0, d0, w1, d1, w0) == d0 && Line(w0, d0, w1, d1, w1) == d1
    ensures w0 <= x <= w1 && d0 <= d1 ==> d0 <= Line(w0, d0, w1, d1, x) <= d1
    ensures w0 <= x <= w1 && d1 <= d0 ==> d1 <= Line(w0, d0, w1, d1, x) <= d0
  {
    var c1 := (d1 - d0) / (w1 - w0);
    assert c1 * (w1 - w0) == d1 - d0;
    QuotientSign(d1 - d0, w1 - w0);
    assert Line(w0, d0, w1, d1, x) == d1 - (w1 - x) * c1;
    assert Line(w0, d0, w1, d1, w0) == d1 - (w1 - w0) * c1;
    if w0 <= x <= w1 {
      if d0 <= d1 {
        ScaleOrder(0.0, w1 - x, c1);
        ScaleOrder(w1 - x, w1 - w0, c1);
      } else {
        ScaleOrder(0.0, w1 - x, -c1);
        ScaleOrder(w1 - x, w1 - w0, -c1);
      }
    }
  }

  /** Dividing by a positive number keeps the sign. */
  lemma QuotientSign(p: real, q: real)
    requires 0.0 < q
    ensures 0.0 <= p ==> 0.0 <= p / q
    ensures p <= 0.0 ==> p / q <= 0.0
  {
  }

  /** Multiplying by a non-negative factor keeps the order. */
  lemma ScaleOrder(a: real, b: real, c: real)
    requires a <= b && 0.0 <= c
    ensures a * c <= b * c
  {
    assert b * c - a * c == (b - a) * c;
  }

  /**
   * The voltage for order `x` from the points `index − 1` and `index` of the tables, truncated
   * by `int()`. Index −1 is Python's last element; an index past the end is an IndexError and
   * two equal wavelengths divide by zero.
   */
  function InterpolatedVoltage(table: seq<real>, dacs: seq<real>, index: int, x: real): (r: Result<int, Failure>)
    ensures r.Err? ==> r.error in {IndexError, ZeroDivisionError}
    ensures 0 < index < |table| && index < |dacs| && table[index - 1] != table[index] ==>
      r == Ok(Trunc(Line(table[index - 1], dacs[index - 1], table[index], dacs[index], x)))
  {
    if At(table, index).None? || At(table, index - 1).None? || At(dacs, index).None? || At(dacs, index - 1).None? then
      Err(IndexError)
    else if At(table, index).value == At(table, index - 1).value then Err(ZeroDivisionError)
    else
      Ok(Trunc(Line(At(table, index - 1).value, At(dacs, index - 1).value,
                    At(table, index).value, At(dacs, index).value, x)))
  }

  /** On an increasing table, the nearest point to a table wavelength is that point. */
  lemma NearestTablePoint(table: seq<real>, i: nat)
    requires Increasing(table) && i < |table|
    ensures Nearest(table, table[i]) == i
  {
    var j := Nearest(table, table[i]);
    assert Sq(table[j] - table[i]) <= Sq(table[i] - table[i]);
    SquarePositive(table[j] - table[i]);
  }

  /** A non-zero number has a positive square. */
  lemma SquarePositive(d: real)
    ensures d == 0.0 || Sq(d) > 0.0
  {
    if d < 0.0 {
      SquaresOrder(d, 0.0);
    } else if d > 0.0 {
      SquaresOrder(-d, 0.0);
      assert Sq(-d) == Sq(d);
    }
  }

  /**
   * An order equal to a table wavelength other than the first is driven with that point's
   * DAC value, truncated: the interpolation reproduces the calibration table.
   */
  lemma VoltageAtTablePoint(table: seq<real>, dacs: seq<real>, i: nat)
    requires Increasing(table) && 0 < i < |table| && |dacs| == |table|
    ensures InterpolatedVoltage(table, dacs, Bracket(table, table[i]), table[i]) == Ok(Trunc(dacs[i]))
  {
    NearestTablePoint(table, i);
    LineInterpolates(table[i - 1], dacs[i - 1], table[i], dacs[i], table[i]);
  }

  /** What `SetWavelength` decides: the switch state, and the voltage or why there is none. */
  datatype Plan = Plan(switchOn: bool, voltage: Result<int, Failure>)

  /** `Filter − 1` for an accepted integer or `True` filter. */
  function FilterIndex(filter: Value): (k: nat)
    requires FilterCheck(filter).Ok? && !filter.Float?
    ensures k < 2 && (k == 1 <==> EqualsInt(filter, 2))
  {
    if filter.Int? then filter.i - 1 else 0
  }

  /**
   * The body of `SetWavelength` once its checks pass: an empty table has no minimum, a float
   * filter cannot index a list; otherwise the switch is on above the filter's transition and
   * the voltage is interpolated around the bracketing point.
   */
  function WavelengthPlan(table: seq<real>, dac: seq<seq<real>>, transitions: seq<real>, x: real, filter: Value)
    : (r: Result<Plan, Failure>)
    requires |dac| == 2 && |transitions| == 2 && FilterCheck(filter).Ok?
    ensures r.Err? <==> |table| == 0 || filter.Float?
    ensures |table| == 0 ==> r == Err(ValueError("min() arg is an empty sequence"))
    ensures |table| > 0 && filter.Float? ==> r == Err(TypeError("list indices must be integers or slices, not float"))
    ensures r.Ok? ==> r.value.switchOn == (x > transitions[FilterIndex(filter)])
    ensures r.Ok? ==> r.value.voltage == InterpolatedVoltage(table, dac[FilterIndex(filter)], Bracket(table, x), x)
  {
    if |table| == 0 then Err(ValueError("min() arg is an empty sequence"))
    else if filter.Float? then Err(TypeError("list indices must be integers or slices, not float"))
    else
      var k := FilterIndex(filter);
      Ok(Plan(x > transitions[k], InterpolatedVoltage(table, dac[k], Bracket(table, x), x)))
  }

  /** The search loop of `SetWavelength`: the index of the first nearest table point. */
  method NearestIndex(table: seq<real>, x: real) returns (index: nat)
    requires |table| > 0
    ensures index == Nearest(table, x)
    ensures FirstNearest(table, x, index)
  {
    index := 0;
    var k := 1;
    assert table[..1] == [table[0]];
    while k < |table|
      invariant 1 <= k <= |table|
      invariant index < k && index == Nearest(table[..k], x)
    {
      assert table[..k + 1][..k] == table[..k];
      assert table[..k + 1][index] == table[index] && table[..k + 1][k] == table[k];
      if Sq(table[k] - x) < Sq(table[index] - x) {
        index := k;
      }
      k := k + 1;
    }
    assert table[..|table|] == table;
  }


  class AB3380 {
    const simulation: bool
    const n: nat            // AB3380_PTS_NB, the number of table points
    const fmt: FloatFormat

    var eepromOK: bool
    var serialNumber: string
    var eepromVersion: string
    var wlTransition: seq<real>
    var wavelength: seq<real>
    var dac: seq<seq<real>>
    var transfers: seq<Request>   // the vendor requests sent over USB, in order

    /** The two lists indexed by `Filter − 1` always have two entries. */
    predicate Valid()
      reads this
    {
      n > 0 && |wlTransition| == 2 && |dac| == 2
    }

    /**
     * The constructor: an unchecked EEPROM, the placeholder serial, version "0.0", both
     * transitions at 1546 nm, table points evenly spread from 1530 nm over 30 nm, and the
     * default DAC values `root(|w − 1546|)·15000` (`root` is the square root).
     */
    constructor (simulation: bool, n: nat, fmt: FloatFormat, root: real -> real)
      requires n > 0
      ensures this.simulation == simulation && this.n == n && this.fmt == fmt && Valid()
      ensures !eepromOK && serialNumber == "XX-3380-A-XXXXXX" && eepromVersion == "0.0"
      ensures wlTransition == [1546.0, 1546.0] && transfers == []
      ensures |wavelength| == n && |dac[0]| == n && |dac[1]| == n
      ensures forall i :: 0 <= i < n ==> wavelength[i] == 1530.0 + 30.0 * i as real / n as real
      ensures forall k, i :: 0 <= k < 2 && 0 <= i < n ==>
        dac[k][i] == root(if wavelength[i] >= 1546.0 then wavelength[i] - 1546.0 else 1546.0 - wavelength[i]) * 15000.0
    {
      var ws: seq<real> := [];
      var d: seq<real> := [];
      var i := 0;
      while i < n
        invariant 0 <= i <= n && |ws| == i && |d| == i
        invariant forall j :: 0 <= j < i ==> ws[j] == 1530.0 + 30.0 * j as real / n as real
        invariant forall j :: 0 <= j < i ==>
          d[j] == root(if ws[j] >= 1546.0 then ws[j] - 1546.0 else 1546.0 - ws[j]) * 15000.0
      {
        var w := 1530.0 + 30.0 * i as real / n as real;
        ws := ws + [w];
        d := d + [root(if w >= 1546.0 then w - 1546.0 else 1546.0 - w) * 15000.0];
        i := i + 1;
      }
      this.simulation := simulation;
      this.n := n;
      this.fmt := fmt;
      eepromOK := false;
      serialNumber := "XX-3380-A-XXXXXX";
      eepromVersion := "0.0";
      wlTransition := [1546.0, 1546.0];
      wavelength := ws;
      dac := [d, d];
      transfers := [];
    }

    /** `SetVoltage`: the request of `VoltageRequest`, sent outside simulation. */
    method SetVoltage(voltage: Value, filter: Value) returns (r: Result<(), Failure>)
      modifies this`transfers
      ensures match VoltageRequest(voltage, filter)
        case Err(e) => r == Err(e) && transfers == old(transfers)
        case Ok(req) => r == Ok(()) && transfers == old(transfers) + (if simulation then [] else [req])
    {
      match VoltageRequest(voltage, filter) {
        case Err(e) => return Err(e);
        case Ok(req) =>
          if !simulation {
            transfers := transfers + [req];
          }
          return Ok(());
      }
    }

    /** `SetSwitch`: the request of `SwitchRequest`, sent outside simulation. */
    method SetSwitch(state: Value, filter: Value) returns (r: Result<(), Failure>)
      modifies this`transfers
      ensures match SwitchRequest(state, filter)
        case Err(e) => r == Err(e) && transfers == old(transfers)
        case Ok(req) => r == Ok(()) && transfers == old(transfers) + (if simulation then [] else [req])
    {
      match SwitchRequest(state, filter) {
        case Err(e) => return Err(e);
        case Ok(req) =>
          if !simulation {
            transfers := transfers + [req];
          }
          return Ok(());
      }
    }

    /** `SetEEPromData`: bytes are written outside simulation, and the call answers True. */
    method SetEEPromData(payload: Payload) returns (r: Result<bool, Failure>)
      modifies this`transfers
      ensures payload.NotBytes? ==> r == Err(Apex(ARGUMENT_TYPE, "Data")) && transfers == old(transfers)
      ensures payload.Bytes? ==>
        r == Ok(true) && transfers == old(transfers) + (if simulation then [] else [SetEEPromParameters(payload.data)])
    {
      if payload.NotBytes? {
        return Err(Apex(ARGUMENT_TYPE, "Data"));
      }
      if !simulation {
        transfers := transfers + [SetEEPromParameters(payload.data)];
      }
      return Ok(true);
    }

    /** `GetEEPromData`: an int count is required; simulation has no data (the -1 of the source). */
    function GetEEPromData(bytesNumber: Value, reply: seq<Byte>): (r: Result<Option<seq<Byte>>, Failure>)
      ensures r.Err? <==> !IsInt(bytesNumber)
      ensures r.Err? ==> r.error == Apex(ARGUMENT_TYPE, "BytesNumber")
      ensures r.Ok? ==> (r.value.None? <==> simulation)
      ensures r.Ok? && !simulation ==> r.value == Some(reply)
    {
      if !IsInt(bytesNumber) then Err(Apex(ARGUMENT_TYPE, "BytesNumber"))
      else if simulation then Ok(None)
      else Ok(Some(reply))
    }

    /** The fields `EEPromData2Parameters` assigns, as one value. */
    function Current(): (p: Parameters)
      reads this
      ensures p.transitions == wlTransition && p.wavelengths == wavelength && p.dac == dac
    {
      Parameters(serialNumber, eepromVersion, eepromOK, wlTransition, wavelength, dac)
    }

    /**
     * `EEPromData2Parameters`: the EEPROM image (`reply`, 1200 bytes asked) is decoded into the
     * serial, the version, the acceptance flag, the transitions and the tables. In simulation
     * there is no image and nothing changes. An image shorter than the layout fails to unpack
     * once the fields before the cut are assigned, which `Decode` states.
     */
    method EEPromData2Parameters(reply: seq<Byte>) returns (r: Result<bool, Failure>)
      requires Valid()
      modifies this`serialNumber, this`eepromVersion, this`eepromOK, this`wlTransition, this`wavelength, this`dac
      ensures Valid()
      ensures simulation ==> r == Ok(false) && Current() == old(Current())
      ensures !simulation ==> Current() == Decode(fmt, n, reply, old(Current()))
      ensures !simulation ==> (r.Err? <==> |reply| < Size(n))
      ensures !simulation && r.Err? ==> r.error == StructError
      ensures !simulation && r.Ok? ==> r == Ok(true)
    {
      var data := GetEEPromData(Int(1200), reply);
      if data.value.None? {
        return Ok(false);
      }
      r := DecodeImage(reply);
    }

    /**
     * The decoding part of `EEPromData2Parameters`, once there is an image: each field is
     * assigned as soon as its bytes are read, and the first slot the image cuts short raises.
     */
    method DecodeImage(reply: seq<Byte>) returns (r: Result<bool, Failure>)
      requires Valid()
      modifies this`serialNumber, this`eepromVersion, this`eepromOK, this`wlTransition, this`wavelength, this`dac
      ensures Valid()
      ensures Current() == Decode(fmt, n, reply, old(Current()))
      ensures r.Err? <==> |reply| < Size(n)
      ensures r.Err? ==> r.error == StructError
      ensures r.Ok? ==> r == Ok(true)
    {
      ghost var p := Current();
      DecodeHeader(reply);
      HeaderFields(fmt, reply, p, Current());
      if |reply| < 32 {
        r := Err(StructError);
      } else {
        r := DecodeTables(reply);
      }
    }

    /**
     * The header stage of `EEPromData2Parameters`: the serial, then the version and acceptance
     * once 24 bytes are there, then each transition once its slot is there.
     */
    method DecodeHeader(reply: seq<Byte>)
      requires |wlTransition| == 2
      modifies this`serialNumber, this`eepromVersion, this`eepromOK, this`wlTransition
      ensures serialNumber == SerialOf(reply)
      ensures |reply| < 24 ==> eepromVersion == old(eepromVersion) && eepromOK == old(eepromOK)
      ensures |reply| >= 24 ==> eepromVersion == VersionOf(reply) && eepromOK == Accepted(SerialOf(reply), VersionOf(reply))
      ensures wlTransition == if |reply| < 28 then old(wlTransition)
                              else if |reply| < 32 then old(wlTransition)[0 := fmt.unpack(reply[24..28]) / 1000.0]
                              else TransitionsOf(fmt, reply)
    {
      serialNumber := SerialNumberOf(reply);
      if |reply| >= 24 {
        eepromVersion := VersionOf(reply);
        eepromOK := Accepted(serialNumber, eepromVersion);
      }
      if |reply| >= 28 {
        wlTransition := wlTransition[0 := fmt.unpack(reply[24..28]) / 1000.0];
      }
      if |reply| >= 32 {
        wlTransition := wlTransition[1 := fmt.unpack(reply[28..32]) / 1000.0];
        assert wlTransition == TransitionsOf(fmt, reply);
      }
    }

    /**
     * The table stage of `EEPromData2Parameters`: the wavelength table, then each DAC table
     * once the one before it is complete; each holds the entries read before a cut slot.
     */
    method DecodeTables(reply: seq<Byte>) returns (r: Result<bool, Failure>)
      requires Valid() && |reply| >= 32
      modifies this`wavelength, this`dac
      ensures Current() == TablesDecoded(fmt, n, reply, old(Current()))
      ensures r.Err? <==> |reply| < Size(n)
      ensures r.Err? ==> r.error == StructError
      ensures r.Ok? ==> r == Ok(true)
    {
      r := Err(StructError);
      var ws, whole := UnpackSlots(reply, 32, n);
      wavelength := Thousandths(ws);
      if whole {
        var d0, whole0 := UnpackSlots(reply, 32 + 4 * n, n);
        dac := dac[0 := Truncated(d0)];
        if whole0 {
          var d1, whole1 := UnpackSlots(reply, 32 + 8 * n, n);
          dac := dac[1 := Truncated(d1)];
          if whole1 {
            r := Ok(true);
          }
        }
      }
    }

    /**
     * The unpacking loops of `EEPromData2Parameters`: up to `count` float32 slots from offset
     * `at`, stopping at the first one the data cuts short; `whole` tells whether all were read.
     */
    method UnpackSlots(data: seq<Byte>, at: nat, count: nat) returns (xs: seq<real>, whole: bool)
      requires count > 0
      ensures xs == SlotsPrefix(fmt, data, at, count)
      ensures whole <==> at + 4 * count <= |data|
      ensures whole ==> xs == Slots(fmt, data, at, count)
    {
      xs := [];
      var i := 0;
      while i < count
        invariant 0 <= i <= count && |xs| == i
        invariant i > 0 ==> at + 4 * i <= |data|
        invariant forall j :: 0 <= j < i ==> xs[j] == fmt.unpack(data[at + 4 * j..at + 4 * j + 4])
      {
        var start := at + 4 * i;
        if |data| < start + 4 {
          assert Complete(data, at, count) == i;
          return xs, false;
        }
        xs := xs + [fmt.unpack(data[start..start + 4])];
        i := i + 1;
      }
      return xs, true;
    }

    /**
     * `Parameters2EEPromData`, writing into a mutable buffer: the image of `Encoding` is
     * built byte by byte and written to the EEPROM (nothing is sent in simulation).
     */
    method Parameters2EEPromData() returns (r: Result<bool, Failure>)
      requires Valid()
      modifies this`transfers
      ensures match Encoding(fmt, n, serialNumber, eepromVersion, wlTransition, wavelength, dac)
        case Err(e) => r == Err(e) && transfers == old(transfers)
        case Ok(data) => (r == Ok(true)
          && transfers == old(transfers) + (if simulation then [] else [SetEEPromParameters(data)]))
    {
      var digits := VersionDigits(eepromVersion);
      if digits.Err? {
        return Err(digits.error);
      }
      if |wavelength| < n || |dac[0]| < n || |dac[1]| < n {
        return Err(IndexError);
      }
      var (a, b) := digits.value;
      var data := WriteImage(fmt, serialNumber, a, b, Thousands(wlTransition),
                             Thousands(wavelength[..n]), dac[0][..n], dac[1][..n]);
      r := SetEEPromData(Bytes(data));
    }

    /**
     * `SetWavelength`: after the argument checks, and only with a checked EEPROM outside
     * simulation, the filter's switch is set by `WavelengthPlan`, then the interpolated voltage
     * goes through `SetVoltage`; a failure after the switch request leaves that request sent.
     */
    method SetWavelength(order: Value, filter: Value) returns (r: Result<(), Failure>)
      requires Valid()
      modifies this`transfers
      ensures !IsNumber(order) ==> r == Err(Apex(ARGUMENT_TYPE, "WavelengthOrder")) && transfers == old(transfers)
      ensures IsNumber(order) && FilterCheck(filter).Err? ==> r == Err(FilterCheck(filter).error) && transfers == old(transfers)
      ensures IsNumber(order) && FilterCheck(filter).Ok? && !(eepromOK && !simulation) ==>
        r == Ok(()) && transfers == old(transfers)
      ensures IsNumber(order) && FilterCheck(filter).Ok? && eepromOK && !simulation ==>
        match WavelengthPlan(wavelength, dac, wlTransition, Number(order), filter)
        case Err(e) => r == Err(e) && transfers == old(transfers)
        case Ok(plan) =>
          var switch := if EqualsInt(filter, 2) then SetSwitch2(Bool(plan.switchOn)) else SetSwitch1(Bool(plan.switchOn));
          match plan.voltage
          case Err(e) => r == Err(e) && transfers == old(transfers) + [switch]
          case Ok(v) =>
            match VoltageRequest(Int(v), filter)
            case Err(e) => r == Err(e) && transfers == old(transfers) + [switch]
            case Ok(req) => r == Ok(()) && transfers == old(transfers) + [switch, req]
    {
      if !IsNumber(order) {
        return Err(Apex(ARGUMENT_TYPE, "WavelengthOrder"));
      }
      var check := FilterCheck(filter);
      if check.Err? {
        return Err(check.error);
      }
      if !(eepromOK && !simulation) {
        return Ok(());
      }
      var plan := WavelengthPlan(wavelength, dac, wlTransition, Number(order), filter);
      if plan.Err? {
        return Err(plan.error);
      }
      var switched := SetSwitch(Bool(plan.value.switchOn), filter);
      if plan.value.voltage.Err? {
        return Err(plan.value.voltage.error);
      }
      r := SetVoltage(Int(plan.value.voltage.value), filter);
    }
  }

  /** The loop over `Data[:19]`: the serial number read from an image. */
  method SerialNumberOf(data: seq<Byte>) returns (serial: string)
    ensures serial == SerialOf(data)
  {
    var head := data[..if |data| < 19 then |data| else 19];
    serial := "";
    var k := 0;
    while k < |head|
      invariant 0 <= k <= |head| && serial == NonZeroChars(head[..k])
    {
      assert head[..k + 1][..k] == head[..k];
      if head[k] != 0 {
        serial := serial + [head[k] as char];
      }
      k := k + 1;
    }
    assert head[..|head|] == head;
  }

  /** Where each field of an image begins and ends. */
  lemma ImageSegments(fmt: FloatFormat, serial: string, a: int, b: int, transitions: seq<real>,
                      wavelengths: seq<real>, dac0: seq<real>, dac1: seq<real>)
    requires 0 <= a <= 9 && 0 <= b <= 9 && |transitions| == 2
    requires |wavelengths| == |dac0| == |dac1|
    ensures Fields(Image(fmt, serial, a, b, transitions, wavelengths, dac0, dac1), SerialBytes(serial),
                   Int16Bytes(a), Int16Bytes(b), Packed(fmt, transitions), Packed(fmt, wavelengths),
                   Packed(fmt, dac0), Packed(fmt, dac1), |wavelengths|)
  {
    var sb, va, vb := SerialBytes(serial), Int16Bytes(a), Int16Bytes(b);
    var pt, pw, p0, p1 := Packed(fmt, transitions), Packed(fmt, wavelengths), Packed(fmt, dac0), Packed(fmt, dac1);
    assert Image(fmt, serial, a, b, transitions, wavelengths, dac0, dac1) == sb + (va + (vb + (pt + (pw + (p0 + p1)))));
    Layout(sb, va, vb, pt, pw, p0, p1, |wavelengths|);
  }

  /** `data` holds the seven fields of an image at their offsets, with `n` table points. */
  predicate Fields(data: seq<Byte>, serial: seq<Byte>, va: seq<Byte>, vb: seq<Byte>, ts: seq<Byte>,
                   ws: seq<Byte>, d0: seq<Byte>, d1: seq<Byte>, n: nat)
  {
    && |data| == 32 + 12 * n
    && data[..20] == serial && data[20..22] == va && data[22..24] == vb && data[24..32] == ts
    && data[32..32 + 4 * n] == ws && data[32 + 4 * n..32 + 8 * n] == d0
    && data[32 + 8 * n..32 + 12 * n] == d1
  }

  /** The field boundaries of the concatenation that makes an image. */
  lemma Layout(serial: seq<Byte>, va: seq<Byte>, vb: seq<Byte>, ts: seq<Byte>, ws: seq<Byte>,
               d0: seq<Byte>, d1: seq<Byte>, n: nat)
    requires |serial| == 20 && |va| == |vb| == 2 && |ts| == 8 && |ws| == |d0| == |d1| == 4 * n
    ensures Fields(serial + (va + (vb + (ts + (ws + (d0 + d1))))), serial, va, vb, ts, ws, d0, d1, n)
  {
    var d := d0 + d1;
    var w := ws + d;
    var t := ts + w;
    var v := vb + t;
    var u := va + v;
    var data := serial + u;
    DropOfConcat(serial, u);
    DropOfConcat(va, v);
    DropOfConcat(vb, t);
    DropOfConcat(ts, w);
    DropOfConcat(ws, d);
    DropOfConcat(d0, d1);
    assert data[22..] == v by { assert data[22..] == data[20..][2..]; }
    assert data[24..] == t by { assert data[24..] == data[22..][2..]; }
    assert data[32..] == w by { assert data[32..] == data[24..][8..]; }
    var d0at, d1at := 32 + 4 * n, 32 + 8 * n;
    assert data[d0at..] == d by { assert data[d0at..] == data[32..][4 * n..]; }
    assert data[d1at..] == d1 by { assert data[d1at..] == data[d0at..][4 * n..]; }
    Segment(data, 20, u, 2);
    Segment(data, 22, v, 2);
    Segment(data, 24, t, 8);
    Segment(data, 32, w, 4 * n);
    Segment(data, d0at, d, 4 * n);
    Segment(data, d1at, d1, 4 * n);
  }

  /** Dropping the first part of a concatenation leaves the second. */
  lemma DropOfConcat<T>(p: seq<T>, q: seq<T>)
    ensures (p + q)[|p|..] == q && (p + q)[..|p|] == p
  {
  }

  /** The first `k` elements of the suffix at `at` are the slice `at .. at + k`. */
  lemma Segment<T>(data: seq<T>, at: nat, rest: seq<T>, k: nat)
    requires at <= |data| && data[at..] == rest && k <= |rest|
    ensures data[at..at + k] == rest[..k]
  {
  }

  /**
   * The writing loops of `Parameters2EEPromData` on a zeroed buffer: the serial characters,
   * the version digits, the transition slots and the three tables.
   */
  method WriteImage(fmt: FloatFormat, serial: string, a: int, b: int, transitions: seq<real>,
                    wavelengths: seq<real>, dac0: seq<real>, dac1: seq<real>) returns (data: seq<Byte>)
    requires 0 <= a <= 9 && 0 <= b <= 9 && |transitions| == 2
    requires |wavelengths| == |dac0| == |dac1|
    ensures data == Image(fmt, serial, a, b, transitions, wavelengths, dac0, dac1)
  {
    var n := |wavelengths|;
    ghost var image := Image(fmt, serial, a, b, transitions, wavelengths, dac0, dac1);
    ImageSegments(fmt, serial, a, b, transitions, wavelengths, dac0, dac1);
    var buf := new Byte[32 + 12 * n](_ => 0);
    PutSerial(buf, serial);
    assert buf[..20] == image[..20];
    Put(buf, 20, Int16Bytes(a), image);
    Put(buf, 22, Int16Bytes(b), image);
    PutSlots(fmt, buf, 24, transitions, image);
    PutTables(fmt, buf, wavelengths, dac0, dac1, image);
    data := buf[..];
  }

  /** The three table loops, after the 32 header bytes. */
  method PutTables(fmt: FloatFormat, buf: array<Byte>, wavelengths: seq<real>, dac0: seq<real>,
                   dac1: seq<real>, ghost image: seq<Byte>)
    requires |wavelengths| == |dac0| == |dac1|
    requires buf.Length == |image| == 32 + 12 * |wavelengths|
    requires buf[..32] == image[..32]
    requires image[32..32 + 4 * |wavelengths|] == Packed(fmt, wavelengths)
    requires image[32 + 4 * |wavelengths|..32 + 8 * |wavelengths|] == Packed(fmt, dac0)
    requires image[32 + 8 * |wavelengths|..32 + 12 * |wavelengths|] == Packed(fmt, dac1)
    modifies buf
    ensures buf[..] == image
  {
    var n := |wavelengths|;
    PutSlots(fmt, buf, 32, wavelengths, image);
    PutSlots(fmt, buf, 32 + 4 * n, dac0, image);
    PutSlots(fmt, buf, 32 + 8 * n, dac1, image);
    assert buf[..] == buf[..32 + 12 * n];
  }

  /** The serial-number loop: character `i` of the serial number, as a byte, goes to `buf[i]`. */
  method PutSerial(buf: array<Byte>, serial: string)
    requires 20 <= buf.Length
    modifies buf
    ensures buf[..20] == SerialBytes(serial)
  {
    var i := 0;
    while i < 20
      invariant 0 <= i <= 20
      invariant forall k :: 0 <= k < i ==> buf[k] == SerialByte(serial, k)
    {
      buf[i] := SerialByte(serial, i);
      i := i + 1;
    }
  }

  /** The `pack('f', …)` loops: the slots of `xs` are copied one after the other from `at`. */
  method PutSlots(fmt: FloatFormat, buf: array<Byte>, at: nat, xs: seq<real>, ghost image: seq<Byte>)
    requires at + 4 * |xs| <= buf.Length == |image|
    requires buf[..at] == image[..at] && image[at..at + 4 * |xs|] == Packed(fmt, xs)
    modifies buf
    ensures buf[..at + 4 * |xs|] == image[..at + 4 * |xs|]
  {
    var i := 0;
    while i < |xs|
      invariant 0 <= i <= |xs| && buf[..at + 4 * i] == image[..at + 4 * i]
    {
      SlotAt(fmt, image, at, xs, i);
      Put(buf, at + 4 * i, fmt.pack(xs[i]), image);
      i := i + 1;
    }
  }

  /**
   * One `for k in range(len(Temp)): Data[I0 + k] = Temp[k]` loop: the bytes of `slot` are
   * copied at `at`, extending a prefix of `buf` that already agrees with `image`.
   */
  method Put(buf: array<Byte>, at: nat, slot: seq<Byte>, ghost image: seq<Byte>)
    requires at + |slot| <= buf.Length == |image|
    requires buf[..at] == image[..at] && image[at..at + |slot|] == slot
    modifies buf
    ensures buf[..at + |slot|] == image[..at + |slot|]
  {
    var k := 0;
    while k < |slot|
      invariant 0 <= k <= |slot| && buf[..at + k] == image[..at + k]
    {
      buf[at + k] := slot[k];
      assert image[at + k] == slot[k];
      assert buf[..at + k + 1] == buf[..at + k] + [buf[at + k]];
      assert image[..at + k + 1] == image[..at + k] + [image[at + k]];
      k := k + 1;
    }
  }
}
