/** Byte-level vocabulary shared by the telemetry generator and the serial
    monitor: octets, the 16-bit integer ranges of the record fields, the
    little-endian layout of a 16-bit value, and two's complement. */
module Wire {

  /** One octet on the serial line (a C `uint8_t`, a Python `bytearray` item). */
  type byte = x: int | 0 <= x < 256

  /** A C `uint16_t`. */
  type uint16 = x: int | 0 <= x < 0x1_0000

  /** A C `int16_t`. */
  type int16 = x: int | -0x8000 <= x < 0x8000

  datatype Option<T> = None | Some(value: T)

  /** Narrowing of an `int` to `uint16_t`: C keeps the value modulo 2^16. */
  function Wrap16(x: int): (u: uint16)
    ensures (u - x) % 0x1_0000 == 0
    ensures 0 <= x < 0x1_0000 ==> u == x
  {
    x % 0x1_0000
  }

  /** Narrowing of an `int` to `uint8_t`: C keeps the value modulo 2^8. */
  function Wrap8(x: int): (b: byte)
    ensures (b - x) % 256 == 0
    ensures 0 <= x < 256 ==> b == x
  {
    x % 256
  }

  /** The two bytes of a 16-bit value, low byte first. */
  function LittleEndian16(u: uint16): (r: seq<byte>)
    ensures |r| == 2
  {
    [u % 256, u / 256]
  }

  /** The low byte counts once and the high byte 256 times. */
  lemma LittleEndian16Value(u: uint16)
    ensures LittleEndian16(u)[0] as int + 256 * LittleEndian16(u)[1] as int == u
  {
  }

  /** The 16-bit value a little-endian byte pair denotes; the inverse of
      LittleEndian16. */
  function FromLittleEndian16(lo: byte, hi: byte): (u: uint16)
    ensures LittleEndian16(u) == [lo, hi]
  {
    var u: int := lo as int + 256 * hi as int;
    assert u % 256 == lo && u / 256 == hi;
    u
  }

  /** The 16-bit pattern that stores a signed value in two's complement. */
  function ToTwos16(v: int16): (u: uint16)
    ensures (u - v) % 0x1_0000 == 0
    ensures u < 0x8000 <==> v >= 0
  {
    (v + 0x1_0000) % 0x1_0000
  }

  /** The signed value a 16-bit two's-complement pattern stores; the inverse
      of ToTwos16. */
  function FromTwos16(u: uint16): (v: int16)
    ensures ToTwos16(v) == u
  {
    if u < 0x8000 then u else u - 0x1_0000
  }

  /** Encoding then decoding a 16-bit value through its byte pair is the
      identity, in both directions. */
  lemma LittleEndian16RoundTrip(u: uint16, lo: byte, hi: byte)
    ensures FromLittleEndian16(LittleEndian16(u)[0], LittleEndian16(u)[1]) == u
    ensures LittleEndian16(u) == [lo, hi] <==> FromLittleEndian16(lo, hi) == u
  {
  }

  /** Two's complement is a bijection between int16 and uint16. */
  lemma Twos16RoundTrip(v: int16, u: uint16)
    ensures FromTwos16(ToTwos16(v)) == v
    ensures ToTwos16(v) == u <==> FromTwos16(u) == v
  {
  }
}
