# CJ Monitor BLE advertisement parser, in Dafny

A model of the parser of the Home Assistant integration for the Control-J
"CJ Monitor" environmental sensor. The sensor broadcasts its readings in the
manufacturer-specific data of its Bluetooth Low Energy advertisements; the
parser turns one advertisement into a sequence of calls on its host object
(manufacturer, name, temperature, humidity, light, device type and, in the
long form of the message, pressure and battery).

The model has four modules:

- `Bits` (bits.dfy): Python's `<<`, `>>`, `|` and `&` on non-negative
  integers, written as repeated doubling and halving and bit-by-bit
  recursion, with the algebra the light expansion needs (shifts compose,
  masking with `0xF` is `% 16`, OR of disjoint bit ranges is addition).
- `LittleEndian` (little_endian.dfy): the `H` and `h` fields of Python's
  `struct` in little-endian order as byte arithmetic, with encoders and
  round trips in both directions; a `B` field is the byte itself.
- `Decimal` (decimal.dfy): the decimal numeral of a non-negative integer, as
  an f-string writes it, with its reading back.
- `Parser` (parser.dfy): the model allow-list `[4350, 4351]`, the mu-law
  light expansion `mulaw_to_value`, the pure decoding of one advertisement
  (`Decode`, `DecodePayload`) into an `Outcome` (ignored with a reason,
  missing key, or accepted with its updates), and the class `CJMonBLEData`
  whose method `StartUpdate` follows `_start_update` statement by statement
  and records each host call in its `updates` field. `StartUpdate` is
  proved to append exactly the updates `Decode` describes, and the
  properties of the parse are lemmas about `Decode`.

Payload layout (little-endian): bytes 0-1 model, 2-3 temperature in tenths
of a degree Celsius (signed), 4 humidity, 5 light as a mu-law code; only a
payload of exactly 10 bytes is read further: 6 battery, 7-8 pressure,
9 unused.

A payload is accepted when the manufacturer data is non-empty, holds the
company identifier, is at least 6 bytes long and names a known model. An
empty dictionary, an empty payload, a short payload or an unknown model
make no update. A non-empty dictionary without the company identifier is
a `KeyError` in the parser; the model keeps it as the separate outcome
`MissingKey`, and `StartUpdate` reports it through its `raised` result.

## Model

| member | source | states |
|---|---|---|
| Bits.ShiftLeft | custom_components/cjmonitor/parser.py:22-23 | Python's `x << k` on a non-negative x; no contract of its own: ShiftLeftAdd, ShiftLeftTwice and ShiftLeftFour state that it distributes over addition, composes, and is multiplication by 16 for k = 4 |
| Bits.ShiftRight | custom_components/cjmonitor/parser.py:22 | Python's `x >> k` on a non-negative x; no contract of its own: ShiftRightOfShiftLeft states it undoes `<<` and ShiftRightFour that `x >> 4` is `x / 16` |
| Bits.BitOr | custom_components/cjmonitor/parser.py:23 | Python's `a \| b`: never below either operand nor above their sum; BitOrIsBitwise states it bit by bit |
| Bits.BitAnd | custom_components/cjmonitor/parser.py:22-23 | Python's `a & b`: never above either operand; BitAndIsBitwise states it bit by bit |
| Bits.BitOrIsBitwise | custom_components/cjmonitor/parser.py:23 | every bit of `BitOr(a, b)` is the OR of the operands' bits, so `BitOr` is Python's `a \| b` |
| Bits.BitAndIsBitwise | custom_components/cjmonitor/parser.py:22-23 | every bit of `BitAnd(a, b)` is the product of the operands' bits, so `BitAnd` is Python's `a & b` |
| Bits.OrOfDisjointIsSum | custom_components/cjmonitor/parser.py:23 | OR-ing `hi << k` with a value below `1 << k` is adding them |
| Bits.LowBitsMask | custom_components/cjmonitor/parser.py:23 | masking with `(1 << k) - 1` leaves x with every bit from k up cleared |
| Bits.LowNibbleMask | custom_components/cjmonitor/parser.py:23 | `x & 0xF` is `x % 16` |
| Bits.MaskShifted | custom_components/cjmonitor/parser.py:22 | masking with `m << k` is masking `x >> k` with m and shifting back |
| Bits.ShiftRightOfShiftLeft | custom_components/cjmonitor/parser.py:22 | `(x << k) >> k == x` |
| Parser.Models | custom_components/cjmonitor/parser.py:17 | the allow-list 4350, 4351; no contract of its own: AcceptedIff and UnknownModelIgnored state which models are accepted |
| Parser.MulawToValue | custom_components/cjmonitor/parser.py:20-23 | the expansion `mulaw_to_value`; no contract of its own: MulawMatchesReference, MulawEndpoints, MulawRange and MulawStrictlyIncreasing state its meaning |
| Parser.Expand | custom_components/cjmonitor/parser.py:23 | the three-way OR less the bias; no contract of its own: ExpandIsSum states it is the sum of the three terms for a 4-bit mantissa |
| Parser.HighNibbleMask | custom_components/cjmonitor/parser.py:22 | `(x & 0xF0) >> 4` is at most 15, and is `x / 16` for a byte |
| Parser.Position | custom_components/cjmonitor/parser.py:22 | the position lies in 5..20 for every input, and is the high nibble plus 5 for a byte |
| Parser.Mantissa | custom_components/cjmonitor/parser.py:23 | the mantissa `mudata & 0xF` is the low nibble, below 16 |
| Parser.ExpandIsSum | custom_components/cjmonitor/parser.py:23 | for a 4-bit mantissa the OR of the three terms is their sum, `((16 + m) << (p - 4)) + (1 << (p - 5)) - 33` |
| Parser.UpperOrMiddle | custom_components/cjmonitor/parser.py:23 | `(1 << p) \| (m << (p - 4))` is their sum, `(16 + m) << (p - 4)`, for a 4-bit m |
| Parser.UpperMiddleOrLower | custom_components/cjmonitor/parser.py:23 | OR-ing `1 << (p - 5)` onto `(16 + m) << (p - 4)` is adding it |
| Parser.ExpandClosedForm | custom_components/cjmonitor/parser.py:23 | with position h + 5 and a 4-bit mantissa m the expansion is `((33 + 2m) << h) - 33` |
| Parser.MulawTermsDisjoint | custom_components/cjmonitor/parser.py:22-23 | for a byte code the three OR-ed terms occupy disjoint bits, the value is their sum less 33, and both shift distances are non-negative |
| Parser.MulawMatchesReference | custom_components/cjmonitor/parser.py:20-23 | the expansion equals the independent closed form `((33 + 2m) << h) - 33` for high nibble h and low nibble m |
| Parser.MulawEndpoints | custom_components/cjmonitor/parser.py:20-23 | code 0x00 expands to 0 lux and code 0xFF to 2064351 lux |
| Parser.MulawStrictlyIncreasing | custom_components/cjmonitor/parser.py:20-23 | a larger code always expands to a strictly larger light level |
| Parser.MulawRange | custom_components/cjmonitor/parser.py:20-23 | every byte code expands to a level between 0 and 2064351 |
| Parser.ExampleLight | custom_components/cjmonitor/parser.py:20-23 | code 0x8F expands to 16095 lux |
| LittleEndian.U16 | custom_components/cjmonitor/parser.py:43 | an unsigned 16-bit field stored low byte first lies in 0..65535; U16OfEncode and EncodeOfU16 make it the inverse of the low-first encoding |
| LittleEndian.U16OfEncode | custom_components/cjmonitor/parser.py:43 | reading the two bytes written for an unsigned 16-bit value gives it back |
| LittleEndian.EncodeOfU16 | custom_components/cjmonitor/parser.py:43 | writing the value read from two bytes gives the same two bytes |
| LittleEndian.I16 | custom_components/cjmonitor/parser.py:43 | a signed 16-bit field lies in -32768..32767 and is negative exactly when the high byte has its top bit set |
| LittleEndian.I16OfEncode | custom_components/cjmonitor/parser.py:43 | reading the two bytes written for a signed 16-bit value gives it back |
| LittleEndian.EncodeOfI16 | custom_components/cjmonitor/parser.py:43 | writing the signed value read from two bytes gives the same two bytes |
| Parser.UnpackHeader | custom_components/cjmonitor/parser.py:43 | `<HhBB` unpack of bytes 0-5: each field lies in its format's range; UnpackPackHeader and PackUnpackHeader make it the inverse of packing |
| Parser.UnpackExtension | custom_components/cjmonitor/parser.py:55 | `<BHB` unpack of bytes 6-9: battery and the unused byte below 256, pressure below 65536; AcceptedUpdates and ExampleExtension state which bytes feed which field |
| Parser.UnpackPackHeader | custom_components/cjmonitor/parser.py:43 | unpacking the 6 bytes packed from a header (`<HhBB`) gives the header back |
| Parser.PackUnpackHeader | custom_components/cjmonitor/parser.py:43 | packing an unpacked 6-byte header gives the same bytes |
| Decimal.FromNat | custom_components/cjmonitor/parser.py:53 | the numeral `{model}` writes; its length is at least 1, and FromNatIsNumeral and ToNatOfFromNat state it is a digit string without leading zero that reads back as the number |
| Decimal.FromNatIsNumeral | custom_components/cjmonitor/parser.py:53 | the numeral of n is made of digits and starts with `0` only when n is 0 |
| Decimal.ToNatOfFromNat | custom_components/cjmonitor/parser.py:53 | reading the numeral of n gives n |
| Decimal.FromNatInjective | custom_components/cjmonitor/parser.py:53 | distinct numbers have distinct numerals |
| Parser.DeviceType | custom_components/cjmonitor/parser.py:53 | the tag starts with `CJMon-`; DeviceTypeNamesModel states the rest reads back as the model number |
| Parser.DeviceTypeNamesModel | custom_components/cjmonitor/parser.py:53 | the device type is `CJMon-` followed by digits, with a leading `0` only for model 0, that read back as the model number |
| Parser.ExampleDeviceType | custom_components/cjmonitor/parser.py:53 | model 4350 gives the device type `CJMon-4350` |
| Parser.Celsius | custom_components/cjmonitor/parser.py:50 | the temperature `temp / 10.0`; no contract of its own: AcceptedUpdates, ExampleMandatory and NegativeTemperatureExample state the reported degrees |
| Parser.MandatoryUpdates | custom_components/cjmonitor/parser.py:47-53 | there are always six mandatory updates; AcceptedUpdates states each one from the payload bytes, in order |
| Parser.ExtensionUpdates | custom_components/cjmonitor/parser.py:56-57 | the long form adds exactly two updates; AcceptedUpdates and LongPayloadExample state pressure comes before battery |
| Parser.Decode | custom_components/cjmonitor/parser.py:34-37 | the whole parse; no contract of its own: AcceptedIff, MissingKeyIff and ShortInputsIgnored state when it accepts, raises and ignores |
| Parser.DecodePayload | custom_components/cjmonitor/parser.py:38-57 | the parse of one payload; no contract of its own: ShortInputsIgnored, UnknownModelIgnored, KnownModelAccepted, AcceptedUpdates and UnreadBytesIgnored state its outcome |
| Parser.AcceptedIff | custom_components/cjmonitor/parser.py:34-45 | an advertisement is accepted exactly when the company identifier is present, its payload has at least 6 bytes and bytes 0-1 name a known model |
| Parser.MissingKeyIff | custom_components/cjmonitor/parser.py:34-37 | the lookup fails exactly when the manufacturer data is non-empty and lacks the company identifier |
| Parser.ShortInputsIgnored | custom_components/cjmonitor/parser.py:34-42 | empty manufacturer data, an empty payload or one shorter than 6 bytes is ignored with no update |
| Parser.UnknownModelIgnored | custom_components/cjmonitor/parser.py:43-45 | a payload whose model is not 4350 or 4351 is ignored, whatever its other bytes |
| Parser.KnownModelAccepted | custom_components/cjmonitor/parser.py:43-57 | a payload of a known model yields the six mandatory updates, followed by pressure and battery exactly when it is 10 bytes long |
| Parser.AcceptedUpdates | custom_components/cjmonitor/parser.py:43-57 | an accepted payload makes 8 updates if it is 10 bytes long and 6 otherwise, each named field by field from its bytes and in the parser's order |
| Parser.AcceptedValuesInRange | custom_components/cjmonitor/parser.py:43-57 | every reported sensor value lies in its field's range (light in 0..2064351) |
| Parser.UnreadBytesIgnored | custom_components/cjmonitor/parser.py:43-57 | two payloads that agree on bytes 0-5, on bytes 6-8 when 10 bytes long, and on whether they are 10 bytes long decode alike: byte 9 and bytes beyond those read do not matter |
| Parser.ExampleHeader | custom_components/cjmonitor/parser.py:43 | a payload starting with bytes FE 10 E8 00 32 8F has a header that unpacks to model 4350, temperature 232, humidity 50, light code 0x8F |
| Parser.ExampleMandatory | custom_components/cjmonitor/parser.py:47-53 | that header gives manufacturer, name, 23.2 degrees, 50 percent, 16095 lux and `CJMon-4350` |
| Parser.ShortPayloadExample | custom_components/cjmonitor/parser.py:40-53 | the 6-byte payload FE 10 E8 00 32 8F decodes to exactly those six updates |
| Parser.ExampleExtension | custom_components/cjmonitor/parser.py:55-57 | bytes 64 F5 03 00 in positions 6-9 unpack to battery 100, pressure 1013, and report pressure 1013 then battery 100 |
| Parser.LongPayloadExample | custom_components/cjmonitor/parser.py:40-57 | the 10-byte payload FE 10 E8 00 32 8F 64 F5 03 00 decodes to the six mandatory updates followed by pressure 1013 and battery 100 |
| Parser.NegativeTemperatureExample | custom_components/cjmonitor/parser.py:43-50 | temperature bytes 9C FF (-100 tenths) of an accepted payload are reported as -10 degrees |
| Parser.CJMonBLEData.constructor | custom_components/cjmonitor/parser.py:26-27 | a new host object has recorded no update |
| Parser.CJMonBLEData.SetDeviceManufacturer | custom_components/cjmonitor/parser.py:47 | records the manufacturer call after the earlier ones |
| Parser.CJMonBLEData.SetDeviceName | custom_components/cjmonitor/parser.py:48-49 | records the name call after the earlier ones |
| Parser.CJMonBLEData.UpdatePredefinedSensor | custom_components/cjmonitor/parser.py:50-52 | records one sensor value after the earlier ones |
| Parser.CJMonBLEData.SetDeviceType | custom_components/cjmonitor/parser.py:53 | records the device type call after the earlier ones |
| Parser.CJMonBLEData.StartUpdate | custom_components/cjmonitor/parser.py:29-57 | raises exactly on a missing company identifier, and appends to the recorded updates exactly what `Decode` emits: nothing when ignored, the 6 or 8 updates when accepted |

## Left out

- Logging of the advertisement and the payload (parser.py lines 31 and 46) is not modelled; it has no effect on the updates.
- Parser.CJMonBLEData.StartUpdate: the temperature is the exact rational `temp / 10`; the rounding of Python's float division `temp / 10.0` is not modelled, and integer and float values share one `real` value type.
- The value of `CJ_MANUF_ID` is defined in const.py, which is not part of this model; the company identifier is a parameter `manufId`.
- The host classes `BluetoothData` and `SensorLibrary` are not part of this model: their methods are modelled only as the calls they receive, appended in order to `updates`, and the sensor descriptions as the five `Sensor` kinds.
- `BluetoothServiceInfo` is reduced to its manufacturer data (a map from company identifier to byte sequence) and its local name; a missing (`None`) manufacturer data is not modelled.
- Parser.MulawToValue: defined for non-negative integers only; Python's `&` on a negative integer is not modelled, and the parser only ever passes it a byte.
- The `struct` library is replaced by the byte arithmetic of `LittleEndian`; its errors cannot occur because both unpacks receive slices of exactly 6 and 4 bytes.
