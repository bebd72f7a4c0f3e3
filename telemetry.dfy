/**
 * The trainer's telemetry record and the integer arithmetic the dispatcher
 * uses to read it from frame bytes, with JavaScript's 32-bit shift semantics
 * written out.
 */
module Telemetry {

  /** `BushidoData`: the values last reported by the trainer, the commanded slope and the rider's weight. */
  datatype BushidoData = BushidoData(
    speed: real,
    cadence: int,
    power: int,
    distance: int,
    breakTemp: int,
    heartRate: int,
    slope: real,
    weight: int)

  const InitialData := BushidoData(0.0, 0, 0, 0, 0, 0, 0.0, 70)

  const TWO_31: int := 0x8000_0000
  const TWO_32: int := 0x1_0000_0000

  /** ECMAScript ToInt32: the integer modulo 2^32, read as a signed 32-bit value. */
  function ToInt32(x: int): (r: int)
    ensures -TWO_31 <= r < TWO_31
    ensures (x - r) % TWO_32 == 0
  {
    var u := x % TWO_32;
    ModOf(x - u, x / TWO_32, 0);
    ModOf(x - (u - TWO_32), x / TWO_32 + 1, 0);
    if u < TWO_31 then u else u - TWO_32
  }

  /**
   * JavaScript `a << n` for a shift count below 32: the signed 32-bit value
   * congruent to `a * 2^n` modulo 2^32 (after `a` itself is cut to 32 bits).
   */
  function ShiftLeft(a: int, n: nat): (r: int)
    requires n < 32
    ensures -TWO_31 <= r < TWO_31
    ensures (ToInt32(a) * Pow2(n) - r) % TWO_32 == 0
  {
    ToInt32(ToInt32(a) * Pow2(n))
  }

  function Pow2(n: nat): (p: nat)
    ensures p > 0
  {
    if n == 0 then 1 else 2 * Pow2(n - 1)
  }

  lemma Pow2Shifts()
    ensures Pow2(8) == 0x100 && Pow2(16) == 0x1_0000 && Pow2(24) == 0x100_0000
  {
    assert Pow2(4) == 16;
    assert Pow2(8) == 0x100;
    assert Pow2(12) == 0x1000;
    assert Pow2(16) == 0x1_0000;
    assert Pow2(20) == 0x10_0000;
  }

  lemma ToInt32InRange(x: int)
    requires -TWO_31 <= x < TWO_31
    ensures ToInt32(x) == x
  {
    if x < 0 {
      ModOf(x, -1, x + TWO_32);
    }
  }

  lemma ModOf(a: int, q: int, r: int)
    requires 0 <= r < TWO_32 && a == q * TWO_32 + r
    ensures a % TWO_32 == r
  {
  }

  /** Adding a multiple of 2^32 does not change the 32-bit value. */
  lemma ToInt32Wrap(x: int, k: int)
    ensures ToInt32(x + k * TWO_32) == ToInt32(x)
  {
    ModOf(x + k * TWO_32, x / TWO_32 + k, x % TWO_32);
  }

  /** `(hi << 8) + lo` for two bytes: an unsigned big-endian 16-bit value. */
  function U16(hi: int, lo: int): (v: int)
    requires 0 <= hi < 256 && 0 <= lo < 256
    ensures 0 <= v < 0x1_0000
    ensures v / 256 == hi && v % 256 == lo
  {
    hi * 256 + lo
  }

  /** What a big-endian 32-bit reading of four bytes would give. */
  function BigEndian32(d2: int, d3: int, d4: int, d5: int): int
  {
    d2 * 0x100_0000 + d3 * 0x1_0000 + d4 * 0x100 + d5
  }

  /**
   * The distance expression of the dispatcher, grouped as JavaScript groups
   * it: `+` binds tighter than `<<`, so the source's
   * `(((d2 << 24) + d3 << 16) + d4 << 8) + d5` is
   * `((((d2 << 24) + d3) << 16) + d4) << 8) + d5`.
   */
  function LiteralDistance(d2: int, d3: int, d4: int, d5: int): int
  {
    ShiftLeft(ShiftLeft(ShiftLeft(d2, 24) + d3, 16) + d4, 8) + d5
  }

  /**
   * Whatever the four values, the last byte is added to a signed 32-bit
   * value whose low byte is zero.
   */
  lemma LiteralDistanceLowByte(d2: int, d3: int, d4: int, d5: int)
    ensures -TWO_31 <= LiteralDistance(d2, d3, d4, d5) - d5 < TWO_31
    ensures (LiteralDistance(d2, d3, d4, d5) - d5) % 256 == 0
  {
    ShiftByteClearsLow(ShiftLeft(ShiftLeft(d2, 24) + d3, 16) + d4);
  }

  /** A shift by 8 leaves the low byte zero. */
  lemma ShiftByteClearsLow(z: int)
    ensures ShiftLeft(z, 8) % 256 == 0
  {
    Pow2Shifts();
    var x := ToInt32(z) * 0x100;
    var r := ShiftLeft(z, 8);
    var q := (x - r) / TWO_32;
    assert x - r == q * TWO_32;
    assert r == (ToInt32(z) - q * 0x100_0000) * 0x100;
  }

  /**
   * The value the distance expression takes: the first byte is shifted out
   * entirely, the second lands in the top byte (and turns the result
   * negative from 128 on), bits 16 to 23 are always zero.
   */
  lemma LiteralDistanceValue(d2: int, d3: int, d4: int, d5: int)
    requires 0 <= d2 < 256 && 0 <= d3 < 256 && 0 <= d4 < 256 && 0 <= d5 < 256
    ensures LiteralDistance(d2, d3, d4, d5) == ToInt32(d3 * 0x100_0000 + d4 * 0x100) + d5
  {
    ShiftOutTop(d2, d3);
    ShiftLow(d3, d4);
  }

  /** `d2 << 24`: the byte in the top position, negative from 128 on. */
  lemma ShiftTopByte(d2: int)
    requires 0 <= d2 < 256
    ensures ShiftLeft(d2, 24) == d2 * 0x100_0000 - (if d2 < 128 then 0 else 1) * TWO_32
  {
    Pow2Shifts();
    ToInt32InRange(d2);
    var c := if d2 < 128 then 0 else 1;
    ToInt32Wrap(d2 * 0x100_0000 - c * TWO_32, c);
    ToInt32InRange(d2 * 0x100_0000 - c * TWO_32);
  }

  /** Shifting by 16 pushes the top byte out: only the byte added below it survives. */
  lemma ShiftOutTop(d2: int, d3: int)
    requires 0 <= d2 < 256 && 0 <= d3 < 256
    ensures ShiftLeft(ShiftLeft(d2, 24) + d3, 16) == d3 * 0x1_0000
  {
    Pow2Shifts();
    ShiftTopByte(d2);
    var c := if d2 < 128 then 0 else 1;
    var a := d2 * 0x100_0000 - c * TWO_32;
    ToInt32InRange(a + d3);
    assert (a + d3) * 0x1_0000 == d3 * 0x1_0000 + (d2 * 0x100 - c * 0x1_0000) * TWO_32;
    ToInt32Wrap(d3 * 0x1_0000, d2 * 0x100 - c * 0x1_0000);
    ToInt32InRange(d3 * 0x1_0000);
  }

  lemma ShiftLow(d3: int, d4: int)
    requires 0 <= d3 < 256 && 0 <= d4 < 256
    ensures ShiftLeft(d3 * 0x1_0000 + d4, 8) == ToInt32(d3 * 0x100_0000 + d4 * 0x100)
  {
    Pow2Shifts();
    ToInt32InRange(d3 * 0x1_0000 + d4);
  }

  /**
   * The distance expression agrees with a big-endian reading of the four
   * bytes exactly when the first two bytes are zero, that is for distances
   * below 65536 m.
   */
  lemma LiteralDistanceIsBigEndianIff(d2: int, d3: int, d4: int, d5: int)
    requires 0 <= d2 < 256 && 0 <= d3 < 256 && 0 <= d4 < 256 && 0 <= d5 < 256
    ensures LiteralDistance(d2, d3, d4, d5) == BigEndian32(d2, d3, d4, d5) <==> d2 == 0 && d3 == 0
    ensures d2 == 0 && d3 == 0 ==> LiteralDistance(d2, d3, d4, d5) == U16(d4, d5)
  {
    LiteralDistanceValue(d2, d3, d4, d5);
    var x := d3 * 0x100_0000 + d4 * 0x100;
    var be := BigEndian32(d2, d3, d4, d5);
    if d3 >= 128 {
      // the top bit of the second byte is set: the result is negative
      ToInt32Wrap(x - TWO_32, 1);
      ToInt32InRange(x - TWO_32);
      assert LiteralDistance(d2, d3, d4, d5) < 0 <= be;
    } else {
      ToInt32InRange(x);
      var diff := LiteralDistance(d2, d3, d4, d5) - be;
      assert diff == (d3 - d2) * 0x100_0000 - d3 * 0x1_0000;
      if d3 > d2 {
        assert (d3 - d2) * 0x100_0000 >= 0x100_0000 > d3 * 0x1_0000;
      } else if d3 > 0 {
        assert (d3 - d2) * 0x100_0000 <= 0 < d3 * 0x1_0000;
      }
    }
  }

  /** With the first two bytes zero, the distance is the big-endian value of the last two. */
  lemma LiteralDistanceShort(d4: int, d5: int)
    requires 0 <= d4 < 256 && 0 <= d5 < 256
    ensures LiteralDistance(0, 0, d4, d5) == d4 * 256 + d5
  {
    LiteralDistanceIsBigEndianIff(0, 0, d4, d5);
  }

  /** 65536 m, sent big-endian as 00 01 00 00, is read as 2^24 m. */
  lemma LiteralDistanceMisreads65536()
    ensures BigEndian32(0, 1, 0, 0) == 65536
    ensures LiteralDistance(0, 1, 0, 0) == 0x100_0000
  {
    LiteralDistanceValue(0, 1, 0, 0);
    ToInt32InRange(0x100_0000);
  }
}
