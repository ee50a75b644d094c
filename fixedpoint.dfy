/**
 * The Q8.8 fixed-point codec (`_float_to_q88`, `_q88_to_float`) and the
 * 16-bit big-endian packing done with `struct.pack('>h', ...)` and
 * `struct.unpack('>h', ...)`. Values are exact reals: multiplying a binary
 * float by 256 is exact, so `int(value * 256)` is a truncation of an exact
 * product.
 */
module FixedPoint {
  import opened Wrappers

  const Low: real := -128.0
  const High: real := 127.996
  const Word: int := 0x10000
  const SignBit: int := 0x8000

  /** `max(-128.0, min(127.996, value))`. */
  function Clamp(v: real): (c: real)
    ensures Low <= c <= High
    ensures Low <= v <= High ==> c == v
    ensures v < Low ==> c == Low
    ensures High < v ==> c == High
  {
    var m := if v < High then v else High;
    if m < Low then Low else m
  }

  /** Python's `int(x)` on a float: truncation toward zero. */
  function Trunc(x: real): (t: int)
    ensures 0.0 <= x ==> 0 <= t && t as real <= x < t as real + 1.0
    ensures x < 0.0 ==> t <= 0 && t as real - 1.0 < x <= t as real
  {
    if x >= 0.0 then x.Floor else -((-x).Floor)
  }

  /** `value & 0xFFFF` on a Python int: the low 16 bits of its two's complement. */
  function Mask16(x: int): (w: int)
    ensures 0 <= w < Word
    ensures 0 <= x < Word ==> w == x
    ensures -SignBit <= x < 0 ==> w == x + Word
  {
    x % Word
  }

  /** `_float_to_q88`: clamp, scale by 256, truncate toward zero, keep 16 bits. */
  function Encode(v: real): (w: int)
    ensures 0 <= w < Word
  {
    Mask16(Trunc(Clamp(v) * 256.0))
  }

  /** `value & 0x8000 != 0` for any Python int. */
  predicate SignBitSet(x: int) {
    x % Word >= SignBit
  }

  /** `_q88_to_float`: reinterpret bit 15 as the sign, then divide by 256. */
  function Decode(x: int): (r: real)
    ensures 0 <= x < Word ==> Low <= r < 128.0
    ensures 0 <= x < SignBit ==> r == x as real / 256.0
    ensures SignBit <= x < Word ==> r == (x - Word) as real / 256.0
  {
    var signed := if SignBitSet(x) then x - Word else x;
    signed as real / 256.0
  }

  /** `encode` saturates: large values give 0x7FFE, very negative ones 0x8000. */
  lemma EncodeSaturates(v: real)
    ensures v >= High ==> Encode(v) == 0x7FFE
    ensures v <= Low ==> Encode(v) == 0x8000
  {
    if v >= High {
      assert Clamp(v) * 256.0 == 32766.976;
      assert Trunc(32766.976) == 32766;
    }
  }

  /** Worked values: `encode(-0.5) == 0xFF80` and `decode(0xFF80) == -0.5`. */
  lemma HalfBelowZero()
    ensures Encode(-0.5) == 0xFF80
    ensures Decode(0xFF80) == -0.5
  {
    assert Trunc(-128.0) == -128;
  }

  /** Clamping before encoding: `encode(v) == encode(clamp(v))`, so `encode(200.0) == encode(127.996)`. */
  lemma EncodeClamps(v: real)
    ensures Encode(v) == Encode(Clamp(v))
    ensures Encode(200.0) == Encode(High)
  {
  }

  /** The signed value carried by the Q8.8 word of `v`: `int(clamp(v) * 256)`. */
  lemma EncodeSigned(v: real)
    ensures -SignBit <= Trunc(Clamp(v) * 256.0) <= 0x7FFE
    ensures Decode(Encode(v)) == Trunc(Clamp(v) * 256.0) as real / 256.0
  {
    var x := Clamp(v) * 256.0;
    assert -32768.0 <= x <= 32766.976;
    var t := Trunc(x);
    assert t <= 32766;
  }

  /**
   * Every multiple of 1/256 from -128 up to 127.9921875 survives a round
   * trip through the codec.
   */
  lemma RoundTripGrid(k: int)
    requires -SignBit <= k <= 0x7FFE
    ensures Decode(Encode(k as real / 256.0)) == k as real / 256.0
  {
    var v := k as real / 256.0;
    assert v <= 32766.0 / 256.0 < High;
    assert Clamp(v) == v;
    assert v * 256.0 == k as real;
    assert Trunc(k as real) == k;
    if k < 0 {
      assert Encode(v) == k + Word;
    } else {
      assert Encode(v) == k;
    }
  }

  /** ... but 127.99609375 (k = 32767) does not: it is clamped to 127.996 first. */
  lemma RoundTripFailsAtTop()
    ensures Decode(Encode(32767.0 / 256.0)) == 32766.0 / 256.0
    ensures Decode(Encode(32767.0 / 256.0)) != 32767.0 / 256.0
  {
    EncodeSaturates(32767.0 / 256.0);
  }

  /**
   * Inside the clamp range a round trip truncates toward zero and loses
   * less than 1/256; up to 127.99609375 it loses at most 1/256.
   */
  lemma RoundTripError(v: real)
    requires Low <= v <= 32767.0 / 256.0
    ensures 0.0 <= v ==> 0.0 <= Decode(Encode(v)) <= v
    ensures v < 0.0 ==> v <= Decode(Encode(v)) <= 0.0
    ensures v - 1.0 / 256.0 <= Decode(Encode(v)) <= v + 1.0 / 256.0
    ensures v <= High ==> v - 1.0 / 256.0 < Decode(Encode(v)) < v + 1.0 / 256.0
  {
    EncodeSigned(v);
    if v > High {
      EncodeSaturates(v);
    }
  }

  // ---------------------------------------------------------------------
  // struct packing
  // ---------------------------------------------------------------------

  /** The two big-endian bytes of a 16-bit word. */
  function WordBytes(w: int): (b: seq<Byte>)
    requires 0 <= w < Word
    ensures |b| == 2
  {
    [w / 256, w % 256]
  }

  /** `struct.pack('>h', x)`: `None` stands for the `struct.error` it raises out of range. */
  function PackI16(x: int): (r: Option<seq<Byte>>)
    ensures r.Some? <==> -SignBit <= x < SignBit
    ensures r.Some? ==> |r.value| == 2
  {
    if -SignBit <= x < SignBit then Some(WordBytes(Mask16(x))) else None
  }

  /** `struct.pack('>H', w)`: the unsigned packing, defined on 0 .. 0xFFFF. */
  function PackU16(w: int): (r: Option<seq<Byte>>)
    ensures r.Some? <==> 0 <= w < Word
  {
    if 0 <= w < Word then Some(WordBytes(w)) else None
  }

  /** `struct.unpack('>H', b)[0]`. */
  function UnpackU16(b: seq<Byte>): (w: int)
    requires |b| == 2
    ensures 0 <= w < Word
  {
    (b[0] as int) * 256 + b[1] as int
  }

  /** `struct.unpack('>h', b)[0]`. */
  function UnpackI16(b: seq<Byte>): (x: int)
    requires |b| == 2
    ensures -SignBit <= x < SignBit
  {
    var u := UnpackU16(b);
    if u >= SignBit then u - Word else u
  }

  lemma UnpackWordBytes(w: int)
    requires 0 <= w < Word
    ensures UnpackU16(WordBytes(w)) == w
  {
  }

  /** Signed packing round-trips: `unpack('>h', pack('>h', x)) == x`. */
  lemma PackI16RoundTrip(x: int)
    requires -SignBit <= x < SignBit
    ensures UnpackI16(PackI16(x).value) == x
  {
    UnpackWordBytes(Mask16(x));
  }

  /**
   * `struct.pack('>h', _float_to_q88(v))` raises exactly when `v <= -1/256`:
   * the masked word of every such value is 0x8000 or more.
   */
  lemma PackEncodeRaises(v: real)
    ensures PackI16(Encode(v)).None? <==> v <= -1.0 / 256.0
  {
    var x := Clamp(v) * 256.0;
    EncodeSigned(v);
    if v <= -1.0 / 256.0 {
      assert x <= -1.0;
      assert Trunc(x) <= -1;
    } else {
      assert x > -1.0;
      assert Trunc(x) >= 0;
    }
  }

  /**
   * As the binary getters decode a reply: `struct.unpack('>h', ...)` already
   * yields a signed value, and `_q88_to_float` then subtracts 0x10000 a
   * second time from every negative one.
   */
  function DecodeSignedReply(b: seq<Byte>): real
    requires |b| == 2
  {
    Decode(UnpackI16(b))
  }

  /** The reply 0xFF 0x80, which carries -0.5, decodes to -256.5 as written. */
  lemma DecodeSignedReplyWrong()
    ensures Decode(0xFF80) == -0.5
    ensures DecodeSignedReply([0xFF, 0x80]) == -256.5
  {
    assert UnpackU16([0xFF, 0x80]) == 0xFF80;
    assert UnpackI16([0xFF, 0x80]) == -128;
    assert SignBitSet(-128);
  }

  /** The intended decoding of a two-byte Q8.8 reply: unsigned unpack, then `_q88_to_float`. */
  function DecodeReply(b: seq<Byte>): real
    requires |b| == 2
  {
    Decode(UnpackU16(b))
  }

  /**
   * The intended decoding reads back exactly the word the board packed:
   * the bytes of any 16-bit word decode to that word's Q8.8 value.
   */
  lemma DecodeReplyRoundTrip(w: int)
    requires 0 <= w < Word
    ensures DecodeReply(WordBytes(w)) == Decode(w)
  {
    UnpackWordBytes(w);
  }
}
