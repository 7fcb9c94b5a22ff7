/**
 * The pure part of the BMP280 driver: the register transfers as outcomes,
 * the calibration block (twelve little-endian 16-bit words read from register
 * 0x88 on) and the 20-bit raw pressure and temperature readings (six bytes
 * read from register 0xF7 on).  Bytes and
 * words are integers in the range of their C types.
 */
module Bmp280Codec {
  import opened Cfe

  /** uint8_t */
  type UInt8 = x: int | 0 <= x < 0x100

  /** uint16_t */
  type UInt16 = x: int | 0 <= x < 0x1_0000

  /** int16_t */
  type Int16 = x: int | -0x8000 <= x < 0x8000

  /** int32_t */
  type Int32 = x: int | -0x8000_0000 <= x < 0x8000_0000

  const CHIP_ID: UInt8 := 0x58
  const CALIBRATION_LENGTH: nat := 24
  const RAW_DATA_LENGTH: nat := 6
  /** The value written to the control register 0xF4: x1 oversampling of both readings, normal mode. */
  const CONTROL_SETTING: UInt8 := 0x27
  /** The value written to the config register 0xF5: 1000 ms standby, filter off. */
  const CONFIG_SETTING: UInt8 := 0xA0

  /**
   * The two's-complement reading of a 16-bit pattern, which is what storing
   * it in an int16_t does on the target: the same value modulo 2^16, negative
   * exactly when the sign bit is set.
   */
  function ToInt16(w: UInt16): (x: Int16)
    ensures (x - w) % 0x1_0000 == 0
    ensures (x < 0) == (w >= 0x8000)
  {
    if w < 0x8000 then w else w - 0x1_0000
  }

  /** The 16-bit pattern of an int16_t. */
  function FromInt16(x: Int16): (w: UInt16)
    ensures (w - x) % 0x1_0000 == 0
    ensures (x < 0) == (w >= 0x8000)
  {
    if x >= 0 then x else x + 0x1_0000
  }

  /** Reading a pattern back as a signed value and re-encoding it is exact, both ways round. */
  lemma Int16RoundTrip(w: UInt16, x: Int16)
    ensures FromInt16(ToInt16(w)) == w
    ensures ToInt16(FromInt16(x)) == x
  {
  }

  /**
   * (hi << 8) | lo: the little-endian pairing of two register bytes.  The
   * two bytes occupy disjoint bits, so the shift and or are the arithmetic
   * hi * 256 + lo.
   */
  function Le16(lo: UInt8, hi: UInt8): (w: UInt16)
    ensures w / 0x100 == hi && w % 0x100 == lo
  {
    hi * 0x100 + lo
  }

  /** The low byte of a 16-bit word. */
  function Lo(w: UInt16): UInt8
  {
    w % 0x100
  }

  /** The high byte of a 16-bit word. */
  function Hi(w: UInt16): UInt8
  {
    w / 0x100
  }

  /** Splitting a word into bytes and pairing them again gives the word; pairing then splitting gives the bytes. */
  lemma Le16RoundTrip(w: UInt16, lo: UInt8, hi: UInt8)
    ensures Le16(Lo(w), Hi(w)) == w
    ensures Lo(Le16(lo, hi)) == lo && Hi(Le16(lo, hi)) == hi
  {
  }

  /** BMP280_CalibData_t: the factory trimming parameters and the shared t_fine term. */
  datatype CalibData = CalibData(
    DigT1: UInt16, DigT2: Int16, DigT3: Int16,
    DigP1: UInt16, DigP2: Int16, DigP3: Int16, DigP4: Int16, DigP5: Int16,
    DigP6: Int16, DigP7: Int16, DigP8: Int16, DigP9: Int16,
    TFine: Int32)

  /** The memset-to-zero calibration the application starts with. */
  const ZeroCalibration: CalibData := CalibData(0, 0, 0, 0, 0, 0, 0, 0, 0, 0, 0, 0, 0)

  /** The i-th calibration word as a 16-bit pattern, in register order. */
  function CalibWord(c: CalibData, i: nat): UInt16
    requires i < 12
  {
    match i
    case 0 => c.DigT1
    case 1 => FromInt16(c.DigT2)
    case 2 => FromInt16(c.DigT3)
    case 3 => c.DigP1
    case 4 => FromInt16(c.DigP2)
    case 5 => FromInt16(c.DigP3)
    case 6 => FromInt16(c.DigP4)
    case 7 => FromInt16(c.DigP5)
    case 8 => FromInt16(c.DigP6)
    case 9 => FromInt16(c.DigP7)
    case 10 => FromInt16(c.DigP8)
    case _ => FromInt16(c.DigP9)
  }

  /** The little-endian word at byte 2i of the calibration block. */
  function BlockWord(calib: seq<UInt8>, i: nat): UInt16
    requires 2 * i + 1 < |calib|
  {
    Le16(calib[2 * i], calib[2 * i + 1])
  }

  /**
   * The parse of the 24-byte calibration block into c: word i is
   * calib[2i+1]*256 + calib[2i], read as unsigned for dig_T1 and dig_P1 and
   * as two's complement for the others; t_fine is not touched.
   */
  function ParseCalibration(c: CalibData, calib: seq<UInt8>): (r: CalibData)
    requires |calib| == CALIBRATION_LENGTH
    ensures forall i :: 0 <= i < 12 ==> CalibWord(r, i) == BlockWord(calib, i)
    ensures r.DigT1 == BlockWord(calib, 0) && r.DigP1 == BlockWord(calib, 3)
    ensures r.DigT2 == ToInt16(BlockWord(calib, 1)) && r.DigP9 == ToInt16(BlockWord(calib, 11))
    ensures r.TFine == c.TFine
  {
    var r := c.(
      DigT1 := BlockWord(calib, 0), DigT2 := ToInt16(BlockWord(calib, 1)), DigT3 := ToInt16(BlockWord(calib, 2)),
      DigP1 := BlockWord(calib, 3), DigP2 := ToInt16(BlockWord(calib, 4)), DigP3 := ToInt16(BlockWord(calib, 5)),
      DigP4 := ToInt16(BlockWord(calib, 6)), DigP5 := ToInt16(BlockWord(calib, 7)), DigP6 := ToInt16(BlockWord(calib, 8)),
      DigP7 := ToInt16(BlockWord(calib, 9)), DigP8 := ToInt16(BlockWord(calib, 10)), DigP9 := ToInt16(BlockWord(calib, 11)));
    forall w: UInt16 ensures FromInt16(ToInt16(w)) == w {
      Int16RoundTrip(w, 0);
    }
    r
  }

  /** The calibration block the sensor would have to hold for the parse to give c. */
  function CalibrationBlock(c: CalibData): (b: seq<UInt8>)
    ensures |b| == CALIBRATION_LENGTH
  {
    seq(24, i requires 0 <= i < 24 => if i % 2 == 0 then Lo(CalibWord(c, i / 2)) else Hi(CalibWord(c, i / 2)))
  }

  /** Parsing the block of c gives c back, apart from t_fine, which the parse leaves alone. */
  lemma {:induction false} ParseCalibrationBlock(c0: CalibData, c: CalibData)
    ensures ParseCalibration(c0, CalibrationBlock(c)) == c.(TFine := c0.TFine)
  {
    var b := CalibrationBlock(c);
    var r := ParseCalibration(c0, b);
    forall i | 0 <= i < 12
      ensures CalibWord(r, i) == CalibWord(c, i)
    {
      Le16RoundTrip(CalibWord(c, i), 0, 0);
      assert BlockWord(b, i) == Le16(Lo(CalibWord(c, i)), Hi(CalibWord(c, i)));
    }
    forall x: Int16 ensures ToInt16(FromInt16(x)) == x {
      Int16RoundTrip(0, x);
    }
    assert CalibWord(r, 1) == CalibWord(c, 1);
    assert CalibWord(r, 2) == CalibWord(c, 2);
    assert CalibWord(r, 4) == CalibWord(c, 4);
    assert CalibWord(r, 5) == CalibWord(c, 5);
    assert CalibWord(r, 6) == CalibWord(c, 6);
    assert CalibWord(r, 7) == CalibWord(c, 7);
    assert CalibWord(r, 8) == CalibWord(c, 8);
    assert CalibWord(r, 9) == CalibWord(c, 9);
    assert CalibWord(r, 10) == CalibWord(c, 10);
    assert CalibWord(r, 11) == CalibWord(c, 11);
  }

  /** Every 24-byte block is the block of what it parses to: the parse loses nothing. */
  lemma {:induction false} CalibrationBlockOfParse(c0: CalibData, calib: seq<UInt8>)
    requires |calib| == CALIBRATION_LENGTH
    ensures CalibrationBlock(ParseCalibration(c0, calib)) == calib
  {
    var r := ParseCalibration(c0, calib);
    var b := CalibrationBlock(r);
    forall i | 0 <= i < 24
      ensures b[i] == calib[i]
    {
      var k := i / 2;
      assert CalibWord(r, k) == Le16(calib[2 * k], calib[2 * k + 1]);
      Le16RoundTrip(0, calib[2 * k], calib[2 * k + 1]);
    }
  }

  /**
   * BMP280_ReadRegisters: the register pointer write and a read of length
   * bytes.  reply is what the bus gave: None when the pointer write failed,
   * otherwise the bytes read, which may be fewer than asked for.
   */
  function ReadRegisters(reply: Option<seq<UInt8>>, length: nat): (r: Result<seq<UInt8>>)
    ensures r.Ok? <==> reply.Some? && |reply.value| == length
    ensures r.Ok? ==> |r.value| == length && r.value == reply.value
  {
    if reply.Some? && |reply.value| == length then Ok(reply.value) else Err
  }

  /** The status of a register transfer: only an exact transfer succeeds. */
  function TransferStatus<T>(r: Result<T>): (s: Status)
    ensures s == Success || s == ExternalResourceFail
    ensures s == Success <==> r.Ok?
  {
    if r.Ok? then Success else ExternalResourceFail
  }

  /** BMP280_WriteRegister: succeeds exactly when the two-byte write went through. */
  function WriteRegisterStatus(written: bool): (s: Status)
    ensures s == Success <==> written
    ensures s == Success || s == ExternalResourceFail
  {
    if written then Success else ExternalResourceFail
  }

  /** A 20-bit ADC reading. */
  type UInt20 = x: int | 0 <= x < 0x10_0000

  /**
   * (d0 << 12) | (d1 << 4) | (d2 >> 4): a 20-bit ADC reading from its three
   * register bytes, most significant first; the low nibble of d2 is dropped.
   * The three parts occupy disjoint bits, so the or is a sum.
   */
  function Raw20(d0: UInt8, d1: UInt8, d2: UInt8): (v: UInt20)
    ensures v / 0x1000 == d0
    ensures (v / 0x10) % 0x100 == d1
    ensures v % 0x10 == d2 / 0x10
  {
    d0 * 0x1000 + d1 * 0x10 + d2 / 0x10
  }

  /** Two readings are equal exactly when their bytes agree, except for the low nibble of the last byte. */
  lemma Raw20Injective(a0: UInt8, a1: UInt8, a2: UInt8, b0: UInt8, b1: UInt8, b2: UInt8)
    ensures Raw20(a0, a1, a2) == Raw20(b0, b1, b2) <==> a0 == b0 && a1 == b1 && a2 / 0x10 == b2 / 0x10
  {
  }

  /** The two raw readings of one conversion. */
  datatype RawSample = RawSample(AdcT: UInt20, AdcP: UInt20)

  /**
   * BMP280_ReadRawData: six bytes from register 0xF7 on, pressure first
   * (bytes 0-2) then temperature (bytes 3-5).  A failed transfer yields no
   * reading at all.
   */
  function ReadRawData(reply: Option<seq<UInt8>>): (r: Result<RawSample>)
    ensures r.Ok? <==> reply.Some? && |reply.value| == RAW_DATA_LENGTH
    ensures r.Ok? ==>
              var d := reply.value;
              r.value.AdcP == Raw20(d[0], d[1], d[2]) && r.value.AdcT == Raw20(d[3], d[4], d[5])
  {
    match ReadRegisters(reply, RAW_DATA_LENGTH)
    case Err => Err
    case Ok(d) => Ok(RawSample(Raw20(d[3], d[4], d[5]), Raw20(d[0], d[1], d[2])))
  }

  /** BMP280_ReadRegister for the chip id: the one byte read, if the transfer was exact. */
  function ReadChipId(reply: Option<seq<UInt8>>): (r: Result<UInt8>)
    ensures r.Ok? <==> reply.Some? && |reply.value| == 1
    ensures r.Ok? ==> r.value == reply.value[0]
  {
    match ReadRegisters(reply, 1)
    case Err => Err
    case Ok(d) => Ok(d[0])
  }
}
