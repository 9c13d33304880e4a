/** CRC-8, word framing and the fixed-point codecs. */
module Codec {
  import opened Types
  import opened Commands

  // ----- CRC-8: polynomial 0x31, initial value 0xFF -----

  function ShiftBit(crc: bv8): bv8 {
    if crc & 0x80 != 0 then (crc << 1) ^ 0x31 else crc << 1
  }

  function ShiftBits(crc: bv8, bits: nat): bv8 {
    if bits == 0 then crc else ShiftBit(ShiftBits(crc, bits - 1))
  }

  /** One byte of the CRC: eight shift steps. */
  function ShiftByte(crc: bv8): bv8 {
    ShiftBit(ShiftBit(ShiftBit(ShiftBit(ShiftBit(ShiftBit(ShiftBit(ShiftBit(crc))))))))
  }

  lemma ShiftByteBits(crc: bv8)
    ensures ShiftBits(crc, 8) == ShiftByte(crc)
  {
    assert ShiftBits(crc, 1) == ShiftBit(crc);
    assert ShiftBits(crc, 3) == ShiftBit(ShiftBit(ShiftBits(crc, 1)));
    assert ShiftBits(crc, 5) == ShiftBit(ShiftBit(ShiftBits(crc, 3)));
    assert ShiftBits(crc, 7) == ShiftBit(ShiftBit(ShiftBits(crc, 5)));
  }

  function CrcFrom(crc: bv8, data: seq<bv8>): bv8
    decreases |data|
  {
    if data == [] then crc else CrcFrom(ShiftByte(crc ^ data[0]), data[1..])
  }

  function Crc8(data: seq<bv8>): bv8 { CrcFrom(0xFF, data) }

  // ----- Words on the wire -----

  function HighByte(w: u16): bv8 { (w / 0x100) as bv8 }
  function LowByte(w: u16): bv8 { (w % 0x100) as bv8 }
  function Word(hi: bv8, lo: bv8): u16 { (hi as int) * 0x100 + (lo as int) }

  function WireLength(w: Wire): nat {
    match w
    case Write(_) => 2
    case WriteWord(_, _) => 5
    case Read(count) => 3 * count
  }

  /** The bytes handed to the transport. */
  function WriteBytes(w: Wire): seq<bv8> {
    match w
    case Write(c) => [HighByte(c), LowByte(c)]
    case WriteWord(c, d) =>
      [HighByte(c), LowByte(c), HighByte(d), LowByte(d), Crc8([HighByte(d), LowByte(d)])]
    case Read(_) => []
  }

  /** The zero-initialised receive buffer after the adapter wrote `data` into it. */
  function Buffer(data: seq<bv8>, length: nat): (b: seq<bv8>)
    ensures |b| == length
  {
    if |data| >= length then data[..length] else data + seq(length - |data|, _ => 0)
  }

  function WordAt(bytes: seq<bv8>, i: nat): u16
    requires 3 * i + 2 < |bytes|
  {
    Word(bytes[3 * i], bytes[3 * i + 1])
  }

  predicate WordOk(bytes: seq<bv8>, i: nat)
    requires 3 * i + 2 < |bytes|
  {
    Crc8([bytes[3 * i], bytes[3 * i + 1]]) == bytes[3 * i + 2]
  }

  /** Every word passes its CRC. */
  predicate AllWordsOk(bytes: seq<bv8>, count: nat)
    requires |bytes| == 3 * count
  {
    forall i | 0 <= i < count :: WordOk(bytes, i)
  }

  function Words(bytes: seq<bv8>, count: nat): (w: seq<u16>)
    requires |bytes| == 3 * count
    ensures |w| == count
  {
    seq(count, i requires 0 <= i < count => WordAt(bytes, i))
  }

  /** What a sensor puts on the wire for its response words. */
  function Frame(words: seq<u16>): (b: seq<bv8>)
    ensures |b| == 3 * |words|
  {
    if words == [] then []
    else [HighByte(words[0]), LowByte(words[0]), Crc8([HighByte(words[0]), LowByte(words[0])])]
         + Frame(words[1..])
  }

  // ----- Fixed-point codecs -----

  function TemperatureMilliC(raw: u16): int { (raw * 175000 + 32767) / 65535 - 45000 }

  function HumidityMilliPct(raw: u16): nat { (raw * 100000 + 32767) / 65535 }

  predicate OffsetInRange(milliC: int) { 0 <= milliC <= 175000 }

  function EncodeOffset(milliC: int): u16
    requires OffsetInRange(milliC)
  {
    (milliC * 65535 + 87500) / 175000
  }

  function DecodeOffset(raw: u16): int { (raw * 175000 + 32767) / 65535 }

  predicate PressureInRange(pa: nat) { PRESSURE_MIN_PA <= pa <= PRESSURE_MAX_PA }

  function EncodePressure(pa: nat): u16
    requires PressureInRange(pa)
  {
    pa / 100
  }

  function DecodePressure(raw: u16): nat { raw * 100 }

  /** The value cached for a register word. */
  function DecodeField(f: Field, raw: u16): int {
    match f
    case TemperatureOffset => DecodeOffset(raw)
    case AmbientPressure => DecodePressure(raw)
    case AscEnabled => if raw != 0 then 1 else 0
    case _ => raw
  }

  /** Explicit response domains. */
  predicate FieldWordValid(f: Field, raw: u16) {
    match f
    case SensorAltitude => raw <= ALTITUDE_MAX_M
    case AmbientPressure => PRESSURE_MIN_WORD <= raw <= PRESSURE_MAX_WORD
    case AscEnabled => raw <= 1
    case AscInitialPeriod => raw % PERIOD_STEP == 0
    case AscStandardPeriod => raw % PERIOD_STEP == 0
    case _ => true
  }

  function VariantOf(word: u16): Variant {
    var code := word / 0x1000;
    if code == 0 then Scd40 else if code == 1 then Scd41 else if code == 5 then Scd43 else UnknownVariant
  }

  function SerialOf(words: seq<u16>): nat
    requires |words| == 3
  {
    (words[0] as int) * 0x1_0000_0000 + (words[1] as int) * 0x10000 + (words[2] as int)
  }

  predicate DataReady(raw: u16) { raw % 0x800 != 0 }
}
