/** What the CRC catches, and what the codecs give back. */
module CodecProofs {
  import opened Types
  import opened Codec

  // ----- The CRC is linear and loses nothing -----

  lemma ShiftParts(x: bv8, y: bv8)
    ensures (x ^ y) & 0x80 == (x & 0x80) ^ (y & 0x80)
    ensures (x ^ y) << 1 == (x << 1) ^ (y << 1)
    ensures x & 0x80 == 0 || x & 0x80 == 0x80
  {
  }

  lemma XorMoves(p: bv8, q: bv8, k: bv8)
    ensures (p ^ k) ^ (q ^ k) == p ^ q
    ensures (p ^ k) ^ q == (p ^ q) ^ k
    ensures p ^ (q ^ k) == (p ^ q) ^ k
  {
  }

  /** The CRC step is linear over exclusive or. */
  lemma ShiftBitLinear(x: bv8, y: bv8)
    ensures ShiftBit(x ^ y) == ShiftBit(x) ^ ShiftBit(y)
  {
    ShiftParts(x, y);
    ShiftParts(y, x);
    XorMoves(x << 1, y << 1, 0x31);
    if x & 0x80 == 0 {
      if y & 0x80 == 0 {
        assert (x ^ y) & 0x80 == 0;
      } else {
        assert (x ^ y) & 0x80 != 0;
      }
    } else {
      if y & 0x80 == 0 {
        assert (x ^ y) & 0x80 != 0;
      } else {
        assert (x ^ y) & 0x80 == 0;
      }
    }
  }

  lemma ShiftBitInjective(x: bv8, y: bv8)
    requires ShiftBit(x) == ShiftBit(y)
    ensures x == y
  {
  }

  /** Exclusive or, by name: what follows needs only that the CRC step is linear over it. */
  function Plus(x: bv8, y: bv8): bv8 { x ^ y }

  lemma {:induction false} ShiftBitsLinear(x: bv8, y: bv8, n: nat)
    ensures ShiftBits(Plus(x, y), n) == Plus(ShiftBits(x, n), ShiftBits(y, n))
  {
    hide ShiftBit, Plus;
    if n > 0 {
      ShiftBitsLinear(x, y, n - 1);
      PlusShifts(ShiftBits(x, n - 1), ShiftBits(y, n - 1));
    }
  }

  lemma PlusShifts(x: bv8, y: bv8)
    ensures ShiftBit(Plus(x, y)) == Plus(ShiftBit(x), ShiftBit(y))
  {
    ShiftBitLinear(x, y);
  }

  lemma {:induction false} ShiftBitsInjective(x: bv8, y: bv8, n: nat)
    requires ShiftBits(x, n) == ShiftBits(y, n)
    ensures x == y
  {
    hide ShiftBit;
    if n > 0 {
      ShiftBitInjective(ShiftBits(x, n - 1), ShiftBits(y, n - 1));
      ShiftBitsInjective(x, y, n - 1);
    }
  }

  lemma ShiftByteLinear(x: bv8, y: bv8)
    ensures ShiftByte(Plus(x, y)) == Plus(ShiftByte(x), ShiftByte(y))
  {
    hide ShiftByte, ShiftBits, Plus;
    ShiftByteBits(x);
    ShiftByteBits(y);
    ShiftByteBits(Plus(x, y));
    ShiftBitsLinear(x, y, 8);
  }

  lemma ShiftByteDistinct(x: bv8, y: bv8)
    requires x != y
    ensures ShiftByte(x) != ShiftByte(y)
  {
    hide ShiftByte, ShiftBits;
    ShiftByteBits(x);
    ShiftByteBits(y);
    if ShiftBits(x, 8) == ShiftBits(y, 8) {
      ShiftBitsInjective(x, y, 8);
    }
  }

  // ----- One wrong byte -----

  /** Two different registers never meet again over the same bytes. */
  lemma {:induction false} NeverMeets(c: bv8, d: bv8, data: seq<bv8>)
    requires c != d
    ensures CrcFrom(c, data) != CrcFrom(d, data)
    decreases |data|
  {
    hide ShiftByte;
    if data != [] {
      ShiftByteDistinct(c ^ data[0], d ^ data[0]);
      NeverMeets(ShiftByte(c ^ data[0]), ShiftByte(d ^ data[0]), data[1..]);
    }
  }

  lemma {:induction false} OneByteFrom(crc: bv8, a: seq<bv8>, b: seq<bv8>, i: nat)
    requires |a| == |b| && i < |a| && a[i] != b[i] && forall j | 0 <= j < |a| && j != i :: a[j] == b[j]
    ensures CrcFrom(crc, a) != CrcFrom(crc, b)
    decreases |a|
  {
    hide ShiftByte;
    if i == 0 {
      assert a[1..] == b[1..];
      ShiftByteDistinct(crc ^ a[0], crc ^ b[0]);
      NeverMeets(ShiftByte(crc ^ a[0]), ShiftByte(crc ^ b[0]), a[1..]);
    } else {
      OneByteFrom(ShiftByte(crc ^ a[0]), a[1..], b[1..], i - 1);
    }
  }

  /** The CRC of byte strings of any length changes under any change of one byte. */
  lemma OneByteDetected(a: seq<bv8>, b: seq<bv8>, i: nat)
    requires |a| == |b| && i < |a| && a[i] != b[i] && forall j | 0 <= j < |a| && j != i :: a[j] == b[j]
    ensures Crc8(a) != Crc8(b)
  {
    OneByteFrom(0xFF, a, b, i);
  }

  // ----- Bursts -----

  /**
    The 24-bit error pattern e0, e1, e2 over a word and its CRC is `b` followed by zeros, placed s bits into byte 0
    or byte 1.
   */
  predicate BurstAt(b: bv8, s: nat, e0: bv8, e1: bv8, e2: bv8)
    requires s <= 8
  {
    (e0 == b >> s && e1 == b << (8 - s) && e2 == 0) || (e0 == 0 && e1 == b >> s && e2 == b << (8 - s))
  }

  /** All the wrong bits lie within eight consecutive bits, and there is at least one. */
  ghost predicate Burst(e0: bv8, e1: bv8, e2: bv8) {
    exists b: bv8, s: nat | s <= 8 && b != 0 :: BurstAt(b, s, e0, e1, e2)
  }

  lemma WordCrc(h: bv8, l: bv8)
    ensures Crc8([h, l]) == ShiftByte(Plus(ShiftByte(Plus(0xFF, h)), l))
  {
    hide ShiftByte;
    assert [h, l][1..] == [l];
    LastByteCrc(ShiftByte(0xFF ^ h), l);
  }

  lemma LastByteCrc(crc: bv8, l: bv8)
    ensures CrcFrom(crc, [l]) == ShiftByte(crc ^ l)
  {
    hide ShiftByte;
    assert CrcFrom(ShiftByte(crc ^ l), [l][1..]) == ShiftByte(crc ^ l);
  }

  lemma PlusMoves(x: bv8, y: bv8, z: bv8, w: bv8)
    ensures Plus(x, Plus(y, z)) == Plus(Plus(x, y), z)
    ensures Plus(Plus(x, y), Plus(z, w)) == Plus(Plus(x, z), Plus(y, w))
  {
  }

  /** An error adds its own contribution to the CRC of any word. */
  lemma ErrorAdds(h: bv8, l: bv8, e0: bv8, e1: bv8)
    ensures Crc8([Plus(h, e0), Plus(l, e1)]) == Plus(Crc8([h, l]), ShiftByte(Plus(ShiftByte(e0), e1)))
  {
    hide ShiftByte, Crc8, Plus;
    WordCrc(h, l);
    WordCrc(Plus(h, e0), Plus(l, e1));
    PlusMoves(0xFF, h, e0, 0);
    ShiftByteLinear(Plus(0xFF, h), e0);
    var p, q := ShiftByte(Plus(0xFF, h)), ShiftByte(e0);
    PlusMoves(p, q, l, e1);
    ShiftByteLinear(Plus(p, l), Plus(q, e1));
  }

  /** No pattern within eight bits is a code word: its CRC is never its own tail. */
  lemma BurstIsNoCodeword(b: bv8, s: nat)
    requires s <= 8 && b != 0
    ensures ShiftByte(b >> s) != b << (8 - s)
  {
  }

  lemma PlusFacts(x: bv8, y: bv8)
    ensures Plus(x, 0) == x && Plus(0, x) == x
    ensures Plus(x, y) == 0 <==> x == y
    ensures Plus(y, x) == y ==> x == 0
    ensures ShiftByte(0) == 0
  {
  }

  /** The CRC contribution of a burst in the first two bytes differs from the error in the CRC byte. */
  lemma BurstShows(e0: bv8, e1: bv8, e2: bv8)
    requires Burst(e0, e1, e2)
    ensures ShiftByte(Plus(ShiftByte(e0), e1)) != e2
  {
    hide ShiftByte, Plus;
    var b: bv8, s: nat :| s <= 8 && b != 0 && BurstAt(b, s, e0, e1, e2);
    BurstIsNoCodeword(b, s);
    PlusFacts(ShiftByte(e0), e1);
    PlusFacts(e1, 0);
    PlusFacts(0, 0);
    if e2 == 0 && e0 == b >> s && e1 == b << (8 - s) {
      ShiftByteDistinct(Plus(ShiftByte(e0), e1), 0);
    }
  }

  lemma PlusDistinct(c: bv8, x: bv8, y: bv8)
    requires x != y
    ensures Plus(c, x) != Plus(c, y)
  {
  }

  lemma BurstRejected(h: bv8, l: bv8, c: bv8, e0: bv8, e1: bv8, e2: bv8)
    requires Crc8([h, l]) == c && Burst(e0, e1, e2)
    ensures Crc8([Plus(h, e0), Plus(l, e1)]) != Plus(c, e2)
  {
    hide ShiftByte, Crc8, Burst, Plus;
    ErrorAdds(h, l, e0, e1);
    BurstShows(e0, e1, e2);
    PlusDistinct(c, ShiftByte(Plus(ShiftByte(e0), e1)), e2);
  }

  /** A received word with a burst of up to eight wrong bits anywhere in its data and CRC is rejected. */
  lemma BurstDetected(word: seq<bv8>, e0: bv8, e1: bv8, e2: bv8)
    requires |word| == 3 && WordOk(word, 0) && Burst(e0, e1, e2)
    ensures !WordOk([Plus(word[0], e0), Plus(word[1], e1), Plus(word[2], e2)], 0)
  {
    hide ShiftByte, Crc8, Burst, Plus;
    BurstRejected(word[0], word[1], word[2], e0, e1, e2);
  }

  // ----- Framing -----

  lemma ByteValue(x: nat)
    requires x < 0x100
    ensures (x as bv8) as int == x
  {
    if x < 0x80 {
      if x < 0x40 {} else {}
    } else {
      if x < 0xC0 {} else {}
    }
  }

  lemma BytesRejoin(w: u16)
    ensures Word(HighByte(w), LowByte(w)) == w
  {
    ByteValue(w / 0x100);
    ByteValue(w % 0x100);
    JoinedValue((w / 0x100) as bv8, (w % 0x100) as bv8, w / 0x100, w % 0x100);
  }

  lemma JoinedValue(hi: bv8, lo: bv8, a: nat, b: nat)
    requires hi as int == a && lo as int == b
    ensures Word(hi, lo) == a * 0x100 + b
  {
  }

  lemma {:induction false} FrameWordAt(words: seq<u16>, i: nat)
    requires i < |words|
    ensures WordAt(Frame(words), i) == words[i] && WordOk(Frame(words), i)
  {
    hide Crc8, HighByte, LowByte, Word;
    if i == 0 {
      BytesRejoin(words[0]);
    } else {
      FrameWordAt(words[1..], i - 1);
      var tail := Frame(words[1..]);
      assert Frame(words)[3 * i] == tail[3 * (i - 1)];
      assert Frame(words)[3 * i + 1] == tail[3 * (i - 1) + 1];
      assert Frame(words)[3 * i + 2] == tail[3 * (i - 1) + 2];
    }
  }

  /** What a sensor frames is accepted and unpacked to the same words. */
  lemma FrameRoundTrip(words: seq<u16>)
    ensures AllWordsOk(Frame(words), |words|)
    ensures Words(Frame(words), |words|) == words
  {
    hide WordOk, WordAt;
    forall i | 0 <= i < |words| ensures WordOk(Frame(words), i) && WordAt(Frame(words), i) == words[i] {
      FrameWordAt(words, i);
    }
  }

  /** The argument of a command is framed like a response word. */
  lemma ArgumentIsFramed(c: u16, d: u16)
    ensures WriteBytes(WriteWord(c, d)) == WriteBytes(Write(c)) + Frame([d])
  {
    hide Crc8, HighByte, LowByte;
  }

  // ----- Fixed-point codecs -----

  /** Every register word survives decoding and encoding. */
  lemma OffsetRoundTrip(raw: u16)
    ensures OffsetInRange(DecodeOffset(raw)) && EncodeOffset(DecodeOffset(raw)) == raw
  {
  }

  /** A requested offset is stored to within one thousandth of a degree. */
  lemma OffsetAccurate(milliC: int)
    requires OffsetInRange(milliC)
    ensures milliC - 1 <= DecodeOffset(EncodeOffset(milliC)) <= milliC + 1
  {
  }

  /** A requested pressure is stored rounded down to 100 Pa, and always as a word the driver accepts. */
  lemma PressureAccurate(pa: nat)
    requires PressureInRange(pa)
    ensures DecodePressure(EncodePressure(pa)) <= pa < DecodePressure(EncodePressure(pa)) + 100
    ensures FieldWordValid(AmbientPressure, EncodePressure(pa))
  {
  }
}
