/**
 * Integer vocabulary of the cc65 target: 8-bit and 16-bit casts, the
 * arithmetic right shift, C's truncating division, and the 256-entry
 * sine table `SIN_LUT` that the orbit and sprite code read.
 *
 * A signed `x >> n` shifts arithmetically on cc65, which rounds toward
 * minus infinity; Dafny's `x / 256` on `int` (Euclidean, divisor positive)
 * is the same floor, so `>> 8`, `>> 4`, `>> 2` are written `/ 256`, `/ 16`,
 * `/ 4` throughout.
 *
 * On this compiler `int` is 16 bits wide. Casts to `uint8_t`/`uint16_t`
 * keep the low bits, and a signed result that leaves [-32768, 32767]
 * keeps its low 16 bits (two's complement); `ToInt16` writes that out.
 */
module FixedPoint {

  /** An `uint8_t` value. */
  type Byte = x: int | 0 <= x < 0x100

  /** An `uint16_t` value. */
  type Word = x: int | 0 <= x < 0x1_0000

  predicate IsInt16(x: int) {
    -0x8000 <= x < 0x8000
  }

  /** `(uint8_t)x`: the low 8 bits. */
  function ToByte(x: int): (r: Byte)
    ensures (x - r) % 0x100 == 0
    ensures 0 <= x < 0x100 ==> r == x
  {
    x % 0x100
  }

  /** `(uint16_t)x`: the low 16 bits. */
  function ToWord(x: int): (r: Word)
    ensures (x - r) % 0x1_0000 == 0
    ensures 0 <= x < 0x1_0000 ==> r == x
  {
    x % 0x1_0000
  }

  /** `(int16_t)x`: the low 16 bits read as two's complement. */
  function ToInt16(x: int): (r: int)
    ensures IsInt16(r)
    ensures (x - r) % 0x1_0000 == 0
    ensures IsInt16(x) ==> r == x
  {
    (x + 0x8000) % 0x1_0000 - 0x8000
  }

  /** A 16-bit phase advanced by a step below 2^16 wraps back to the step on subtraction. */
  lemma WordAdvance(angle: Word, step: int)
    requires 0 <= step < 0x1_0000
    ensures ToWord(ToWord(angle + step) - angle) == step
  {
    if angle + step >= 0x1_0000 {
      assert ToWord(angle + step) == angle + step - 0x1_0000;
    }
  }

  /** A pixel coordinate scaled to 12.4 fits in 16 bits and shifts back exactly. */
  lemma ScaledCoordinate(v: int)
    requires -0x800 <= v < 0x800
    ensures IsInt16(v * 16) && ToInt16(v * 16) == v * 16
    ensures (v * 16) % 16 == 0 && (v * 16) / 16 == v
  {
  }

  /** Wrapping an intermediate result does not change the final 16-bit value. */
  lemma ToInt16Add(a: int, b: int)
    ensures ToInt16(ToInt16(a) + b) == ToInt16(a + b)
  {
    var q := (a + 0x8000) / 0x1_0000;
    assert ToInt16(a) == a - 0x1_0000 * q;
    ModMultiple(a + b + 0x8000, q);
  }

  /** The 8-bit cast of a value within one turn either side of [0, 256). */
  lemma ByteWrap(x: int)
    requires -0x100 <= x < 0x200
    ensures ToByte(x) == if x < 0 then x + 0x100 else if x < 0x100 then x else x - 0x100
  {
  }

  /** The same for the 8-bit cast. */
  lemma ToByteAdd(a: int, b: int)
    ensures ToByte(ToByte(a) + b) == ToByte(a + b)
  {
    var q := a / 0x100;
    assert ToByte(a) == a - 0x100 * q;
    var r := (a + b) % 0x100;
    assert a - 0x100 * q + b == 0x100 * ((a + b) / 0x100 - q) + r;
  }

  lemma ModMultiple(x: int, q: int)
    ensures (x - 0x1_0000 * q) % 0x1_0000 == x % 0x1_0000
  {
    var r := x % 0x1_0000;
    assert x - 0x1_0000 * q == 0x1_0000 * (x / 0x1_0000 - q) + r;
  }

  /** `(v >> 2) >> 2 == v >> 4`. */
  lemma ShiftTwice(v: int)
    ensures (v / 4) / 4 == v / 16
  {
    var q, r := v / 16, v % 16;
    assert v == 4 * (4 * q + r / 4) + r % 4;
  }

  function Abs(x: int): nat {
    if x < 0 then -x else x
  }

  function Max(a: int, b: int): int {
    if a < b then b else a
  }

  function Min(a: int, b: int): int {
    if a < b then a else b
  }

  /** Multiplying by a non-negative factor keeps an order. */
  lemma MulMono(k: int, a: int, b: int)
    requires k >= 0 && a <= b
    ensures k * a <= k * b
  {
    assert k * b - k * a == k * (b - a);
  }

  /** C's `n / d` for a positive divisor: the quotient is truncated toward zero. */
  function TruncDiv(n: int, d: int): (q: int)
    requires d > 0
    ensures Abs(q) == Abs(n) / d
    ensures n >= 0 ==> q >= 0
    ensures n <= 0 ==> q <= 0
  {
    if n >= 0 then n / d else -((-n) / d)
  }

  /**
   * What the code relies on about `SIN_LUT` (tables.h, generated by
   * tools/gen_tables.py as int(sin(2*pi*k/256) * 256)): 256 entries of
   * magnitude at most 256 (1.0 in 8.8), exact at the four axis angles.
   */
  ghost predicate IsSinLut(t: seq<int>) {
    && |t| == 256
    && (forall k | 0 <= k < 256 :: -256 <= t[k] <= 256)
    && t[0] == 0 && t[64] == 256 && t[128] == 0 && t[192] == -256
  }

  type SinLut = t: seq<int> | IsSinLut(t)
    witness seq(256, k => if k == 64 then 256 else if k == 192 then -256 else 0)

  /** `SIN_LUT[(uint8_t)(a + 64)]`, the cosine the code reads for angle byte `a`. */
  function CosOf(lut: SinLut, a: Byte): (c: int)
    ensures -256 <= c <= 256
  {
    lut[ToByte(a + 64)]
  }

  /** `SIN_LUT[a]`. */
  function SinOf(lut: SinLut, a: Byte): (s: int)
    ensures -256 <= s <= 256
  {
    lut[a]
  }
}
