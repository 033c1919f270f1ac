/**
 * The CJ Monitor advertisement parser: the mu-law light expansion, the model
 * allow-list, and the decoding of one manufacturer-data payload into the
 * sequence of calls the parser makes on its host object.
 *
 * Payload layout (little-endian):
 *   bytes 0-1 model (u16), 2-3 temperature in tenths of a degree C (i16),
 *   byte 4 humidity (u8), byte 5 light as a mu-law code (u8),
 *   and, only in a payload of exactly 10 bytes,
 *   byte 6 battery (u8), bytes 7-8 pressure (u16), byte 9 unused (u8).
 */
module Parser {
  import opened Bits
  import opened LittleEndian
  import Decimal

  /** The model numbers this parser accepts. */
  const Models: seq<nat> := [4350, 4351]

  /** The manufacturer reported for an accepted payload. */
  const Manufacturer: string := "Control-J"

  /** The bias subtracted at the end of the mu-law expansion. */
  const MulawBias: nat := 33

  /** The largest light level a code can express: the expansion of 0xFF. */
  const MaxLux: nat := 2064351

  // ---------------------------------------------------------------------
  // Mu-law light expansion
  // ---------------------------------------------------------------------

  /**
   * `(x & 0xF0) >> 4` is at most 15 for every x, and is the high nibble
   * x / 16 when x is a byte.
   */
  lemma HighNibbleMask(x: nat)
    ensures ShiftRight(BitAnd(x, 0xF0), 4) <= 15
    ensures x < 0x100 ==> ShiftRight(BitAnd(x, 0xF0), 4) == x / 16
  {
    var q := ShiftRight(x, 4);
    HighNibbleShifted(x);
    LowNibbleMask(q);
    ShiftRightFour(x);
    if x < 0x100 {
      assert q < 16;
      assert q % 16 == q;
    }
  }

  /** `(x & 0xF0) >> 4` is `(x >> 4) & 0xF`. */
  lemma HighNibbleShifted(x: nat)
    ensures ShiftRight(BitAnd(x, 0xF0), 4) == BitAnd(ShiftRight(x, 4), 0xF)
  {
    ShiftLeftFour(0xF);
    MaskShifted(x, 0xF, 4);
    ShiftRightOfShiftLeft(BitAnd(ShiftRight(x, 4), 0xF), 4);
  }

  /** `position`: the high nibble of the code plus 5. */
  function Position(mudata: nat): (p: nat)
    ensures 5 <= p <= 20
    ensures mudata < 0x100 ==> p == mudata / 16 + 5
  {
    HighNibbleMask(mudata);
    ShiftRight(BitAnd(mudata, 0xF0), 4) + 5
  }

  /** The low nibble of the code. */
  function Mantissa(mudata: nat): (m: nat)
    ensures m < 16
    ensures m == mudata % 16
  {
    LowNibbleMask(mudata);
    BitAnd(mudata, 0xF)
  }

  /**
   * Expands an 8-bit code into a light level in lux:
   * `(1 << p) | (m << (p - 4)) | (1 << (p - 5))` minus the bias 33, where p
   * is the high nibble plus 5 and m the low nibble.
   */
  function MulawToValue(mudata: nat): int
  {
    Expand(Position(mudata), Mantissa(mudata))
  }

  /** The OR of the three shifted terms, less the bias. */
  function Expand(position: nat, mantissa: nat): int
    requires position >= 5
  {
    BitOr(BitOr(ShiftLeft(1, position), ShiftLeft(mantissa, position - 4)),
          ShiftLeft(1, position - 5))
      - MulawBias
  }

  /**
   * For a 4-bit mantissa the three OR-ed terms occupy disjoint bits, so the
   * OR is their sum: `(16 + m) << (p - 4)` plus `1 << (p - 5)`.
   */
  lemma ExpandIsSum(p: nat, m: nat)
    requires p >= 5 && m < 16
    ensures Expand(p, m) == ShiftLeft(1, p) + ShiftLeft(m, p - 4) + ShiftLeft(1, p - 5) - MulawBias
    ensures Expand(p, m) == ShiftLeft(16 + m, p - 4) + ShiftLeft(1, p - 5) - MulawBias
  {
    UpperOrMiddle(p, m);
    UpperMiddleOrLower(p, m);
  }

  /** `(1 << p) | (m << (p - 4))` is their sum, `(16 + m) << (p - 4)`. */
  lemma UpperOrMiddle(p: nat, m: nat)
    requires p >= 5 && m < 16
    ensures BitOr(ShiftLeft(1, p), ShiftLeft(m, p - 4)) == ShiftLeft(1, p) + ShiftLeft(m, p - 4)
    ensures ShiftLeft(1, p) + ShiftLeft(m, p - 4) == ShiftLeft(16 + m, p - 4)
  {
    UpperTerm(p);
    ShiftLeftIncreasing(m, 16, p - 4);
    OrOfDisjointIsSum(1, ShiftLeft(m, p - 4), p);
    ShiftLeftAdd(16, m, p - 4);
  }

  /** OR-ing `1 << (p - 5)` onto `(16 + m) << (p - 4)` is adding it. */
  lemma UpperMiddleOrLower(p: nat, m: nat)
    requires p >= 5
    ensures BitOr(ShiftLeft(16 + m, p - 4), ShiftLeft(1, p - 5))
      == ShiftLeft(16 + m, p - 4) + ShiftLeft(1, p - 5)
  {
    var lower := ShiftLeft(1, p - 5);
    ShiftLeftIncreasing(0, 1, p - 5);
    ShiftLeftOfZero(p - 5);
    assert lower < ShiftLeft(1, p - 4);
    OrOfDisjointIsSum(16 + m, lower, p - 4);
  }

  /**
   * The three OR-ed terms of the expansion occupy disjoint bits, so the OR
   * is their sum. The position p lies in 5..20, so both shift distances,
   * p - 4 and p - 5, are non-negative.
   */
  lemma MulawTermsDisjoint(mudata: nat)
    requires mudata < 0x100
    ensures var p, m := mudata / 16 + 5, mudata % 16;
      5 <= p <= 20 &&
      MulawToValue(mudata) == ShiftLeft(1, p) + ShiftLeft(m, p - 4) + ShiftLeft(1, p - 5) - MulawBias
  {
    ExpandIsSum(mudata / 16 + 5, mudata % 16);
  }

  /** `1 << p` is `16 << (p - 4)`. */
  lemma UpperTerm(p: nat)
    requires p >= 4
    ensures ShiftLeft(1, p) == ShiftLeft(16, p - 4)
  {
    assert ShiftLeft(1, 4) == 16;
    ShiftLeftTwice(1, 4, p - 4);
  }

  /**
   * An independent statement of the expansion: the code with high nibble h
   * and low nibble m expands to `(33 + 2m) << h` minus 33.
   */
  function MulawReference(code: nat): int
    requires code < 0x100
  {
    ShiftLeft(MulawBias + 2 * (code % 16), code / 16) - MulawBias
  }

  lemma MulawMatchesReference(mudata: nat)
    requires mudata < 0x100
    ensures MulawToValue(mudata) == MulawReference(mudata)
  {
    var h, m := mudata / 16, mudata % 16;
    assert Position(mudata) == h + 5 && Mantissa(mudata) == m;
    ExpandClosedForm(h, m);
    assert MulawReference(mudata) == ShiftLeft(MulawBias + 2 * m, h) - MulawBias;
  }

  /** With position h + 5, the expansion is `((33 + 2m) << h) - 33`. */
  lemma ExpandClosedForm(h: nat, m: nat)
    requires m < 16
    ensures Expand(h + 5, m) == ShiftLeft(MulawBias + 2 * m, h) - MulawBias
  {
    ExpandIsSum(h + 5, m);
    assert h + 5 - 4 == 1 + h && h + 5 - 5 == h;
    ShiftLeftTwice(16 + m, 1, h);
    assert ShiftLeft(16 + m, 1) == 32 + 2 * m;
    ShiftLeftAdd(32 + 2 * m, 1, h);
  }

  /** The reference expansion of the lowest and highest codes. */
  lemma ReferenceEndpoints()
    ensures MulawReference(0x00) == 0
    ensures MulawReference(0xFF) == MaxLux
  {
    assert ShiftLeft(63, 4) == 1008 && ShiftLeft(1008, 4) == 16128;
    assert ShiftLeft(16128, 4) == 258048 && ShiftLeft(258048, 3) == 2064384;
    ShiftLeftTwice(63, 4, 4);
    ShiftLeftTwice(63, 8, 4);
    ShiftLeftTwice(63, 12, 3);
    assert 0xFF / 16 == 15 && 0xFF % 16 == 15;
  }

  /** Code 0x00 expands to no light, and code 0xFF to MaxLux. */
  lemma MulawEndpoints()
    ensures MulawToValue(0x00) == 0
    ensures MulawToValue(0xFF) == MaxLux
  {
    ReferenceEndpoints();
    MulawMatchesReference(0x00);
    MulawMatchesReference(0xFF);
  }

  /** One code step up always raises the light level. */
  lemma MulawStep(code: nat)
    requires code < 0xFF
    ensures MulawReference(code) < MulawReference(code + 1)
  {
    var h, m := code / 16, code % 16;
    if m < 15 {
      assert (code + 1) / 16 == h && (code + 1) % 16 == m + 1;
      ShiftLeftIncreasing(MulawBias + 2 * m, MulawBias + 2 * (m + 1), h);
    } else {
      assert (code + 1) / 16 == h + 1 && (code + 1) % 16 == 0;
      ShiftLeftAdd(33, 33, h);
      ShiftLeftIncreasing(63, 66, h);
    }
  }

  lemma {:induction false} MulawReferenceIncreasing(a: nat, b: nat)
    requires a < b < 0x100
    ensures MulawReference(a) < MulawReference(b)
    decreases b - a
  {
    MulawStep(a);
    if a + 1 < b {
      MulawReferenceIncreasing(a + 1, b);
    }
  }

  /** The expansion is strictly increasing over all 256 codes. */
  lemma MulawStrictlyIncreasing(a: nat, b: nat)
    requires a < b < 0x100
    ensures MulawToValue(a) < MulawToValue(b)
  {
    MulawMatchesReference(a);
    MulawMatchesReference(b);
    MulawReferenceIncreasing(a, b);
  }

  /** Every code expands to a level between 0 and MaxLux lux. */
  lemma MulawRange(mudata: nat)
    requires mudata < 0x100
    ensures 0 <= MulawToValue(mudata) <= MaxLux
  {
    ReferenceEndpoints();
    MulawMatchesReference(mudata);
    if mudata > 0 {
      MulawReferenceIncreasing(0, mudata);
    }
    if mudata < 0xFF {
      MulawReferenceIncreasing(mudata, 0xFF);
    }
  }

  // ---------------------------------------------------------------------
  // Payload decoding
  // ---------------------------------------------------------------------

  /** The predefined sensor kinds the parser reports. */
  datatype Sensor = Temperature | Humidity | Light | Pressure | Battery

  /**
   * One call the parser makes on its host. Sensor values are numbers:
   * Temperature in degrees Celsius (the raw field divided by 10), Humidity
   * and Battery in percent, Light in lux, Pressure in millibar.
   */
  datatype Update =
    | SetManufacturer(manufacturer: string)
    | SetName(name: string)
    | SetSensor(sensor: Sensor, value: real)
    | SetType(deviceType: string)

  /** What the host hands the parser: manufacturer data keyed by company identifier, and the local name. */
  datatype ServiceInfo = ServiceInfo(manufacturerData: map<int, seq<Byte>>, name: string)

  /** The mandatory fields, bytes 0-5 (`<HhBB`). */
  datatype Header = Header(model: nat, temp: int, hum: nat, light: nat)

  /** The extended fields, bytes 6-9 (`<BHB`). */
  datatype Extension = Extension(battery: nat, pressure: nat, bits: nat)

  /** Why a payload was ignored without any update. */
  datatype Rejection = NoManufacturerData | EmptyPayload | ShortPayload | UnknownModel

  /**
   * The result of one parse: ignored silently, aborted because the
   * manufacturer data lacks the expected key (a `KeyError` in the parser),
   * or accepted with the updates it makes, in order.
   */
  datatype Outcome =
    | Ignored(reason: Rejection)
    | MissingKey
    | Accepted(updates: seq<Update>)

  /** `struct.unpack("<HhBB", s)`: every field lies in the range of its format. */
  function UnpackHeader(s: seq<Byte>): (h: Header)
    requires |s| == 6
    ensures h.model < 0x1_0000 && -0x8000 <= h.temp < 0x8000
    ensures h.hum < 0x100 && h.light < 0x100
  {
    Header(U16(s[0], s[1]), I16(s[2], s[3]), s[4], s[5])
  }

  function PackHeader(h: Header): seq<Byte>
    requires h.model < 0x1_0000 && -0x8000 <= h.temp < 0x8000
    requires h.hum < 0x100 && h.light < 0x100
  {
    EncodeU16(h.model) + EncodeI16(h.temp) + [h.hum, h.light]
  }

  lemma UnpackPackHeader(h: Header)
    requires h.model < 0x1_0000 && -0x8000 <= h.temp < 0x8000
    requires h.hum < 0x100 && h.light < 0x100
    ensures |PackHeader(h)| == 6 && UnpackHeader(PackHeader(h)) == h
  {
    U16OfEncode(h.model);
    I16OfEncode(h.temp);
  }

  lemma PackUnpackHeader(s: seq<Byte>)
    requires |s| == 6
    ensures PackHeader(UnpackHeader(s)) == s
  {
    EncodeOfU16(s[0], s[1]);
    EncodeOfI16(s[2], s[3]);
  }

  /** `struct.unpack("<BHB", s)`: every field lies in the range of its format. */
  function UnpackExtension(s: seq<Byte>): (e: Extension)
    requires |s| == 4
    ensures e.battery < 0x100 && e.pressure < 0x1_0000 && e.bits < 0x100
  {
    Extension(s[0], U16(s[1], s[2]), s[3])
  }

  /** The device type tag `CJMon-{model}`. */
  function DeviceType(model: nat): (t: string)
    ensures |t| > 6 && t[..6] == "CJMon-"
  {
    "CJMon-" + Decimal.FromNat(model)
  }

  /** The tag names its model: the prefix is fixed and the rest reads back as the model number. */
  lemma DeviceTypeNamesModel(model: nat)
    ensures |DeviceType(model)| > 6 && DeviceType(model)[..6] == "CJMon-"
    ensures Decimal.AllDigits(DeviceType(model)[6..])
    ensures Decimal.ToNat(DeviceType(model)[6..]) == model
    ensures DeviceType(model)[6] == '0' <==> model == 0
  {
    assert DeviceType(model)[6..] == Decimal.FromNat(model);
    Decimal.FromNatIsNumeral(model);
    Decimal.ToNatOfFromNat(model);
  }

  /** A temperature field in tenths of a degree, as degrees Celsius (`temp / 10.0`). */
  function Celsius(tenths: int): real
  {
    tenths as real / 10.0
  }

  /** The six updates every accepted payload makes, in the parser's order. */
  function MandatoryUpdates(h: Header, name: string): (u: seq<Update>)
    ensures |u| == 6
  {
    [ SetManufacturer(Manufacturer),
      SetName(name),
      SetSensor(Temperature, Celsius(h.temp)),
      SetSensor(Humidity, h.hum as real),
      SetSensor(Light, MulawToValue(h.light) as real),
      SetType(DeviceType(h.model)) ]
  }

  /** Pressure first, then battery; the last extended byte is not reported. */
  function ExtensionUpdates(e: Extension): (u: seq<Update>)
    ensures |u| == 2
  {
    [SetSensor(Pressure, e.pressure as real), SetSensor(Battery, e.battery as real)]
  }

  /** Decoding of one payload once it has been found in the manufacturer data. */
  function DecodePayload(data: seq<Byte>, name: string): Outcome
  {
    if |data| == 0 then Ignored(EmptyPayload)
    else if |data| < 6 then Ignored(ShortPayload)
    else
      var header := UnpackHeader(data[0..6]);
      if header.model !in Models then Ignored(UnknownModel)
      else
        var extension := if |data| == 10 then ExtensionUpdates(UnpackExtension(data[6..10])) else [];
        Accepted(MandatoryUpdates(header, name) + extension)
  }

  /** The whole parse of one advertisement for the company identifier `manufId`. */
  function Decode(info: ServiceInfo, manufId: int): Outcome
  {
    if |info.manufacturerData| == 0 then Ignored(NoManufacturerData)
    else if manufId !in info.manufacturerData then MissingKey
    else DecodePayload(info.manufacturerData[manufId], info.name)
  }

  /** The updates an outcome makes on the host. */
  function Emitted(o: Outcome): seq<Update>
  {
    if o.Accepted? then o.updates else []
  }

  // ---------------------------------------------------------------------
  // Properties of the decoding
  // ---------------------------------------------------------------------

  /** A payload is accepted exactly when it is present, at least 6 bytes long and of a known model. */
  lemma AcceptedIff(info: ServiceInfo, manufId: int)
    ensures Decode(info, manufId).Accepted? <==>
      manufId in info.manufacturerData &&
      |info.manufacturerData[manufId]| >= 6 &&
      U16(info.manufacturerData[manufId][0], info.manufacturerData[manufId][1]) in Models
  {
    if manufId in info.manufacturerData {
      assert |info.manufacturerData| > 0 by {
        assert manufId in info.manufacturerData.Keys;
      }
    }
  }

  /** The key lookup fails only when there is manufacturer data but none under `manufId`. */
  lemma MissingKeyIff(info: ServiceInfo, manufId: int)
    ensures Decode(info, manufId) == MissingKey <==>
      |info.manufacturerData| > 0 && manufId !in info.manufacturerData
  {
  }

  /** Empty manufacturer data, an empty payload or a payload shorter than 6 bytes make no update. */
  lemma ShortInputsIgnored(info: ServiceInfo, manufId: int)
    requires |info.manufacturerData| == 0 ||
      (manufId in info.manufacturerData && |info.manufacturerData[manufId]| < 6)
    ensures Decode(info, manufId).Ignored?
    ensures Emitted(Decode(info, manufId)) == []
  {
  }

  /** A payload of an unknown model makes no update, whatever else it holds. */
  lemma UnknownModelIgnored(data: seq<Byte>, name: string)
    requires |data| >= 6 && U16(data[0], data[1]) !in Models
    ensures DecodePayload(data, name) == Ignored(UnknownModel)
  {
  }

  /**
   * What an accepted payload reports, field by field and in order: the six
   * mandatory updates, then pressure and battery exactly when the payload
   * is 10 bytes long.
   */
  lemma AcceptedUpdates(data: seq<Byte>, name: string)
    requires DecodePayload(data, name).Accepted?
    ensures |data| >= 6 && U16(data[0], data[1]) in Models
    ensures var u := DecodePayload(data, name).updates;
      |u| == (if |data| == 10 then 8 else 6) &&
      u[0] == SetManufacturer("Control-J") &&
      u[1] == SetName(name) &&
      u[2] == SetSensor(Temperature, I16(data[2], data[3]) as real / 10.0) &&
      u[3] == SetSensor(Humidity, data[4] as real) &&
      u[4] == SetSensor(Light, MulawToValue(data[5]) as real) &&
      u[5] == SetType("CJMon-" + Decimal.FromNat(U16(data[0], data[1]))) &&
      (|data| == 10 ==>
        u[6] == SetSensor(Pressure, U16(data[7], data[8]) as real) &&
        u[7] == SetSensor(Battery, data[6] as real))
  {
  }

  /**
   * A payload of at least 6 bytes with a known model is accepted; its
   * updates are the mandatory six, followed by the extension's two exactly
   * when it is 10 bytes long.
   */
  lemma KnownModelAccepted(data: seq<Byte>, name: string)
    requires |data| >= 6 && U16(data[0], data[1]) in Models
    ensures |data| != 10 ==>
      DecodePayload(data, name) == Accepted(MandatoryUpdates(UnpackHeader(data[0..6]), name))
    ensures |data| == 10 ==>
      DecodePayload(data, name) == Accepted(MandatoryUpdates(UnpackHeader(data[0..6]), name)
        + ExtensionUpdates(UnpackExtension(data[6..10])))
  {
    var updates := MandatoryUpdates(UnpackHeader(data[0..6]), name);
    assert updates + [] == updates;
  }

  /** Every value an accepted payload reports lies in its field's range. */
  lemma AcceptedValuesInRange(data: seq<Byte>, name: string)
    requires DecodePayload(data, name).Accepted?
    ensures forall u | u in DecodePayload(data, name).updates && u.SetSensor? ::
      match u.sensor
      case Temperature => -3276.8 <= u.value <= 3276.7
      case Humidity => 0.0 <= u.value <= 255.0
      case Light => 0.0 <= u.value <= MaxLux as real
      case Pressure => 0.0 <= u.value <= 65535.0
      case Battery => 0.0 <= u.value <= 255.0
  {
    MulawRange(data[5]);
  }

  /**
   * Only bytes 0-5, and bytes 6-8 of a 10-byte payload, influence the
   * outcome; beyond those only whether the length is 10 matters.
   */
  lemma UnreadBytesIgnored(d1: seq<Byte>, d2: seq<Byte>, name: string)
    requires |d1| >= 6 && |d2| >= 6
    requires (|d1| == 10) == (|d2| == 10)
    requires d1[..6] == d2[..6]
    requires |d1| == 10 ==> d1[6..9] == d2[6..9]
    ensures DecodePayload(d1, name) == DecodePayload(d2, name)
  {
    assert d1[0..6] == d2[0..6];
    if |d1| == 10 {
      assert d1[6] == d1[6..9][0] && d1[7] == d1[6..9][1] && d1[8] == d1[6..9][2];
      assert d2[6] == d2[6..9][0] && d2[7] == d2[6..9][1] && d2[8] == d2[6..9][2];
    }
  }

  /** Light code 0x8F: high nibble 8, low nibble 15, so (33 + 30) << 8 minus 33. */
  lemma ExampleLight()
    ensures MulawToValue(0x8F) == 16095
  {
    assert ShiftLeft(63, 4) == 1008 && ShiftLeft(1008, 4) == 16128;
    ShiftLeftTwice(63, 4, 4);
    assert 0x8F / 16 == 8 && 0x8F % 16 == 15;
    assert MulawReference(0x8F) == 16095;
    MulawMatchesReference(0x8F);
  }

  lemma ExampleDeviceType()
    ensures DeviceType(4350) == "CJMon-4350"
  {
    assert Decimal.FromNat(4) == "4";
    assert Decimal.FromNat(43) == "43";
    assert Decimal.FromNat(435) == "435";
    assert Decimal.FromNat(4350) == "4350";
  }

  /** The six updates for the header of the worked example below. */
  lemma ExampleMandatory(h: Header, name: string)
    requires h == Header(4350, 232, 50, 0x8F)
    ensures MandatoryUpdates(h, name)
      == [ SetManufacturer("Control-J"), SetName(name),
           SetSensor(Temperature, 23.2), SetSensor(Humidity, 50.0),
           SetSensor(Light, 16095.0), SetType("CJMon-4350") ]
  {
    ExampleLight();
    ExampleDeviceType();
  }

  lemma ExampleHeader(data: seq<Byte>)
    requires |data| >= 6 && data[0] == 0xFE && data[1] == 0x10 && data[2] == 0xE8
    requires data[3] == 0x00 && data[4] == 0x32 && data[5] == 0x8F
    ensures UnpackHeader(data[0..6]) == Header(4350, 232, 50, 0x8F)
  {
  }

  /** A worked example: model 4350, 23.2 degrees, 50 percent, light code 0x8F, no extension. */
  lemma ShortPayloadExample(data: seq<Byte>, name: string)
    requires |data| == 6 && data[0] == 0xFE && data[1] == 0x10 && data[2] == 0xE8
    requires data[3] == 0x00 && data[4] == 0x32 && data[5] == 0x8F
    ensures DecodePayload(data, name)
      == Accepted([ SetManufacturer("Control-J"), SetName(name),
                    SetSensor(Temperature, 23.2), SetSensor(Humidity, 50.0),
                    SetSensor(Light, 16095.0), SetType("CJMon-4350") ])
  {
    ExampleHeader(data);
    ExampleMandatory(UnpackHeader(data[0..6]), name);
    assert U16(data[0], data[1]) == 4350;
    KnownModelAccepted(data, name);
  }

  /** The extended bytes of the 10-byte example below: battery 100, pressure 1013, unused 0. */
  lemma ExampleExtension(data: seq<Byte>)
    requires |data| == 10 && data[6] == 0x64 && data[7] == 0xF5 && data[8] == 0x03 && data[9] == 0x00
    ensures UnpackExtension(data[6..10]) == Extension(100, 1013, 0)
    ensures ExtensionUpdates(UnpackExtension(data[6..10]))
      == [SetSensor(Pressure, 1013.0), SetSensor(Battery, 100.0)]
  {
  }

  /**
   * A worked example of the long form: the payload above followed by
   * battery 100 and pressure 1013; pressure is reported before battery.
   */
  lemma LongPayloadExample(data: seq<Byte>, name: string)
    requires |data| == 10 && data[0] == 0xFE && data[1] == 0x10 && data[2] == 0xE8
    requires data[3] == 0x00 && data[4] == 0x32 && data[5] == 0x8F
    requires data[6] == 0x64 && data[7] == 0xF5 && data[8] == 0x03 && data[9] == 0x00
    ensures DecodePayload(data, name)
      == Accepted([ SetManufacturer("Control-J"), SetName(name),
                    SetSensor(Temperature, 23.2), SetSensor(Humidity, 50.0),
                    SetSensor(Light, 16095.0), SetType("CJMon-4350"),
                    SetSensor(Pressure, 1013.0), SetSensor(Battery, 100.0) ])
  {
    var header := UnpackHeader(data[0..6]);
    var extension := UnpackExtension(data[6..10]);
    ExampleHeader(data);
    ExampleMandatory(header, name);
    ExampleExtension(data);
    assert U16(data[0], data[1]) == 4350;
    KnownModelAccepted(data, name);
    ExampleConcatenation(MandatoryUpdates(header, name), ExtensionUpdates(extension), name);
  }

  /**
   * Proof helper for LongPayloadExample, with no counterpart in the parser:
   * joins the two literal update lists in a context of their own, which
   * keeps that example cheap to verify.
   */
  lemma ExampleConcatenation(mandatory: seq<Update>, extension: seq<Update>, name: string)
    requires mandatory == [ SetManufacturer("Control-J"), SetName(name),
                            SetSensor(Temperature, 23.2), SetSensor(Humidity, 50.0),
                            SetSensor(Light, 16095.0), SetType("CJMon-4350") ]
    requires extension == [SetSensor(Pressure, 1013.0), SetSensor(Battery, 100.0)]
    ensures mandatory + extension
      == [ SetManufacturer("Control-J"), SetName(name),
           SetSensor(Temperature, 23.2), SetSensor(Humidity, 50.0),
           SetSensor(Light, 16095.0), SetType("CJMon-4350"),
           SetSensor(Pressure, 1013.0), SetSensor(Battery, 100.0) ]
  {
  }

  /** A negative temperature: bytes 9C FF are -100 tenths, reported as -10 degrees. */
  lemma NegativeTemperatureExample(data: seq<Byte>, name: string)
    requires |data| >= 6 && U16(data[0], data[1]) in Models
    requires data[2] == 0x9C && data[3] == 0xFF
    ensures DecodePayload(data, name).Accepted?
    ensures DecodePayload(data, name).updates[2] == SetSensor(Temperature, -10.0)
  {
    KnownModelAccepted(data, name);
    assert UnpackHeader(data[0..6]).temp == -100;
  }

  // ---------------------------------------------------------------------
  // The host object
  // ---------------------------------------------------------------------

  /**
   * The parser's host object. The calls the parser makes on it are recorded
   * in `updates`, oldest first.
   */
  class CJMonBLEData {
    var updates: seq<Update>

    constructor ()
      ensures updates == []
    {
      updates := [];
    }

    method SetDeviceManufacturer(manufacturer: string)
      modifies this
      ensures updates == old(updates) + [SetManufacturer(manufacturer)]
    {
      updates := updates + [SetManufacturer(manufacturer)];
    }

    method SetDeviceName(name: string)
      modifies this
      ensures updates == old(updates) + [SetName(name)]
    {
      updates := updates + [SetName(name)];
    }

    method UpdatePredefinedSensor(sensor: Sensor, value: real)
      modifies this
      ensures updates == old(updates) + [SetSensor(sensor, value)]
    {
      updates := updates + [SetSensor(sensor, value)];
    }

    method SetDeviceType(deviceType: string)
      modifies this
      ensures updates == old(updates) + [SetType(deviceType)]
    {
      updates := updates + [SetType(deviceType)];
    }

    /**
     * Parses one advertisement. `raised` is true when the parser would raise
     * `KeyError` (non-empty manufacturer data without `manufId`); in every
     * case the recorded updates grow by exactly what Decode emits.
     */
    method StartUpdate(serviceInfo: ServiceInfo, manufId: int) returns (raised: bool)
      modifies this
      ensures raised <==> Decode(serviceInfo, manufId) == MissingKey
      ensures updates == old(updates) + Emitted(Decode(serviceInfo, manufId))
    {
      raised := false;
      var manufacturerData := serviceInfo.manufacturerData;
      if |manufacturerData| == 0 {
        return;
      }
      if manufId !in manufacturerData {
        raised := true;
        return;
      }
      var data := manufacturerData[manufId];
      if |data| == 0 {
        return;
      }
      var msgLength := |data|;
      if msgLength < 6 {
        return;
      }
      var header := UnpackHeader(data[0..6]);
      if header.model !in Models {
        return;
      }
      KnownModelAccepted(data, serviceInfo.name);
      ghost var before := updates;
      SetDeviceManufacturer(Manufacturer);
      var localName := serviceInfo.name;
      SetDeviceName(localName);
      UpdatePredefinedSensor(Temperature, Celsius(header.temp));
      UpdatePredefinedSensor(Humidity, header.hum as real);
      UpdatePredefinedSensor(Light, MulawToValue(header.light) as real);
      SetDeviceType(DeviceType(header.model));
      assert updates == before + MandatoryUpdates(header, localName);
      if msgLength == 10 {
        ghost var afterMandatory := updates;
        var extension := UnpackExtension(data[6..10]);
        UpdatePredefinedSensor(Pressure, extension.pressure as real);
        UpdatePredefinedSensor(Battery, extension.battery as real);
        assert updates == afterMandatory + ExtensionUpdates(extension);
      }
    }
  }
}
