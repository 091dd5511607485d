/**
 * Orbit physics of src/physics.c: the sign-tracking 8.8 multiply, the
 * octant-based angle estimator, and one step along a parametric ellipse
 * whose origin is moved to the focus.
 *
 * `update_geometric_orbit` writes through three pointers and keeps no
 * state, so it is a function returning the new position and angle.
 */
module Physics {
  import opened FixedPoint

  /** Floor on the per-step angle advance, so an orbit never stalls or reverses. */
  const MIN_SPEED := 20
  /** Screen anchor (centre of the 320x180 screen), in whole pixels. */
  const ANCHOR_X := 160
  const ANCHOR_Y := 90

  /** New position in 12.4 fixed point and the new 8.8 orbit phase. */
  datatype OrbitStep = OrbitStep(x: int, y: int, angle: Word)

  lemma AbsOfProduct(a: int, b: int)
    ensures Abs(a * b) == Abs(a) * Abs(b)
  {
    if a < 0 && b < 0 {
      assert a * b == (-a) * (-b);
    } else if a < 0 {
      assert -(a * b) == (-a) * b;
    } else if b < 0 {
      assert -(a * b) == a * (-b);
    }
  }

  /**
   * `safe_mul_shift(a, b)`: multiply the magnitudes as `uint16_t`, shift
   * right by 8, then put the sign back. (On cc65, negating -32768 wraps to
   * -32768, whose `uint16_t` reading is 32768, so the magnitude is |a| for
   * every 16-bit input.) Within the product budget of the comment it is the
   * 8.8 product rounded toward zero.
   */
  function SafeMulShift(a: int, b: int): (r: int)
    requires IsInt16(a) && IsInt16(b)
    ensures Abs(a) * Abs(b) < 0x1_0000 ==> r == TruncDiv(a * b, 256)
    ensures Abs(r) <= 255
    ensures (a < 0) == (b < 0) ==> r >= 0
    ensures (a < 0) != (b < 0) ==> r <= 0
  {
    var negative := (a < 0) != (b < 0);
    var prod := ToWord(Abs(a) * Abs(b)) / 256;
    AbsOfProduct(a, b);
    if negative then -prod else prod
  }

  /** The magnitude never grows when the other factor is at most 1.0 (256). */
  lemma SafeMulShiftBounded(a: int, b: int)
    requires IsInt16(a) && IsInt16(b) && Abs(b) <= 256 && Abs(a) < 256
    ensures Abs(SafeMulShift(a, b)) <= Abs(a)
    ensures b == 256 ==> SafeMulShift(a, b) == a
    ensures b == -256 ==> SafeMulShift(a, b) == -a
    ensures b == 0 ==> SafeMulShift(a, b) == 0
  {
    MulMono(Abs(a), Abs(b), 256);
    assert Abs(a) * 256 < 0x1_0000;
    assert Abs(a) * Abs(b) / 256 <= Abs(a) * 256 / 256;
  }

  /** Sign tracking makes the result odd in each argument. */
  lemma SafeMulShiftOdd(a: int, b: int)
    requires IsInt16(a) && IsInt16(b) && a != -0x8000 && b != -0x8000
    ensures SafeMulShift(-a, b) == -SafeMulShift(a, b)
    ensures SafeMulShift(a, -b) == -SafeMulShift(a, b)
  {
  }

  /**
   * Against a plain arithmetic `(a * b) >> 8` (what the draft in
   * src/backup/physics.c uses): equal for a non-negative product or an
   * exact multiple of 256, one more otherwise.
   */
  lemma SafeMulShiftVsFloor(a: int, b: int)
    requires IsInt16(a) && IsInt16(b) && Abs(a) * Abs(b) < 0x1_0000
    ensures a * b >= 0 || (a * b) % 256 == 0 ==> SafeMulShift(a, b) == (a * b) / 256
    ensures a * b < 0 && (a * b) % 256 != 0 ==> SafeMulShift(a, b) == (a * b) / 256 + 1
  {
    var p := a * b;
    if p < 0 {
      var q, m := (-p) / 256, (-p) % 256;
      assert -p == 256 * q + m;
      if m == 0 {
        assert p == 256 * (-q);
      } else {
        assert p == 256 * (-q - 1) + (256 - m);
      }
    }
  }

  /** `(uint8_t)(((int32_t)min * 32) / max)`: the angle within the octant. */
  function BaseAngle(minV: int, maxV: int): (r: int)
    requires 0 <= minV <= maxV && maxV > 0
    ensures 0 <= r <= 32
    ensures minV < maxV ==> r < 32
    ensures minV == 0 ==> r == 0
    ensures minV == maxV ==> r == 32
  {
    QuotientBounds(minV, maxV);
    (minV * 32) / maxV
  }

  /** The arithmetic behind `BaseAngle`'s bounds. */
  lemma QuotientBounds(minV: int, maxV: int)
    requires 0 <= minV <= maxV && maxV > 0
    ensures var q := (minV * 32) / maxV;
      && 0 <= q <= 32 && (minV < maxV ==> q < 32) && (minV == 0 ==> q == 0) && (minV == maxV ==> q == 32)
  {
    var p := minV * 32;
    var q := p / maxV;
    assert p == q * maxV + p % maxV;
    if q > 32 {
      MulMono(maxV, 33, q);
    }
    if minV < maxV && q >= 32 {
      MulMono(maxV, 32, q);
    }
    if minV == maxV && q < 32 {
      MulMono(maxV, q, 31);
    }
    if q < 0 {
      MulMono(maxV, q, -1);
    }
  }

  /**
   * `base_angle` as the code computes it from the `int16_t` extremes:
   * `(uint8_t)(((int32_t)min * 32) / max)` when `max > 0`, else 0. The
   * division truncates toward zero; a negative `min` (a wrapped -32768)
   * gives a negative quotient that the cast wraps into 0..255.
   */
  function WrappedBase(minV: int, maxV: int): (r: Byte)
    ensures 0 <= minV <= maxV && maxV > 0 ==> r == BaseAngle(minV, maxV)
    ensures maxV <= 0 ==> r == 0
  {
    if maxV > 0 then ToByte(TruncDiv(minV * 32, maxV)) else 0
  }

  /**
   * `vector_to_angle(x, y)`: the 8-bit direction (0 = +x, 64 = +y,
   * 128 = -x, 192 = -y) of a vector, from the octant and the linear
   * approximation `min * 32 / max`. `abs_x`/`abs_y` are `int16_t`, so the
   * magnitude of -32768 wraps back to -32768, and every `angle = ...` is
   * an assignment to a `uint8_t`.
   */
  function VectorToAngle(x: int, y: int): (r: Byte)
    requires IsInt16(x) && IsInt16(y)
    ensures x == 0 && y == 0 ==> r == 0
  {
    if x == 0 && y == 0 then 0
    else
      var absX := ToInt16(Abs(x));
      var absY := ToInt16(Abs(y));
      var maxV := if absX > absY then absX else absY;
      var minV := if absX > absY then absY else absX;
      var base := WrappedBase(minV, maxV);
      if absX >= absY then
        if x >= 0 then (if y >= 0 then base else ToByte(256 - base))
        else (if y >= 0 then ToByte(128 - base) else ToByte(128 + base))
      else
        if y >= 0 then (if x >= 0 then ToByte(64 - base) else ToByte(64 + base))
        else (if x >= 0 then ToByte(192 + base) else ToByte(192 - base))
  }

  /** The base angle of a vector with no -32768 component. */
  function Octant(x: int, y: int): (b: int)
    requires IsInt16(x) && IsInt16(y) && (x, y) != (0, 0)
    ensures 0 <= b <= 32
  {
    if Abs(x) >= Abs(y) then BaseAngle(Abs(y), Abs(x)) else BaseAngle(Abs(x), Abs(y))
  }

  /** Each octant maps into its own 32-unit band of the turn. */
  lemma VectorToAngleOctants(x: int, y: int)
    requires -0x8000 < x < 0x8000 && -0x8000 < y < 0x8000 && (x, y) != (0, 0)
    ensures var r, b := VectorToAngle(x, y), Octant(x, y);
      && (Abs(x) >= Abs(y) && x >= 0 && y >= 0 ==> r == b && r <= 32)
      && (Abs(x) >= Abs(y) && x >= 0 && y < 0 ==> r == ToByte(256 - b) && (r == 0 || 224 <= r))
      && (Abs(x) >= Abs(y) && x < 0 && y >= 0 ==> r == 128 - b && 96 <= r <= 128)
      && (Abs(x) >= Abs(y) && x < 0 && y < 0 ==> r == 128 + b && 128 <= r <= 160)
      && (Abs(x) < Abs(y) && y > 0 && x >= 0 ==> r == 64 - b && 32 < r <= 64)
      && (Abs(x) < Abs(y) && y > 0 && x < 0 ==> r == 64 + b && 64 <= r < 96)
      && (Abs(x) < Abs(y) && y < 0 && x >= 0 ==> r == 192 + b && 192 <= r < 224)
      && (Abs(x) < Abs(y) && y < 0 && x < 0 ==> r == 192 - b && 160 < r <= 192)
  {
  }

  /** The four axis directions come out exact. */
  lemma VectorToAngleAxes(v: int)
    requires 0 < v < 0x8000
    ensures VectorToAngle(v, 0) == 0
    ensures VectorToAngle(0, v) == 64
    ensures VectorToAngle(-v, 0) == 128
    ensures VectorToAngle(0, -v) == 192
  {
  }

  /** The base angle depends only on the magnitudes. */
  lemma OctantMirror(x: int, y: int)
    requires -0x8000 < x < 0x8000 && -0x8000 < y < 0x8000 && (x, y) != (0, 0)
    ensures Octant(-x, y) == Octant(x, y) && Octant(x, -y) == Octant(x, y)
    ensures Abs(-x) == Abs(x) && Abs(-y) == Abs(y)
    ensures x == 0 || y == 0 ==> Octant(x, y) == 0
  {
  }

  /** Mirroring in the x axis negates the angle (mod 256). */
  lemma VectorToAngleReflectY(x: int, y: int)
    requires -0x8000 < x < 0x8000 && -0x8000 < y < 0x8000 && (x, y) != (0, 0)
    ensures VectorToAngle(x, -y) == ToByte(256 - VectorToAngle(x, y))
  {
    OctantMirror(x, y);
    hide VectorToAngle, BaseAngle, Octant, ToByte;
    VectorToAngleOctants(x, y);
    VectorToAngleOctants(x, -y);
    ByteWrap(256 - Octant(x, y));
    ByteWrap(256 - VectorToAngle(x, y));
  }

  /** Mirroring in the y axis gives 128 minus the angle (mod 256). */
  lemma VectorToAngleReflectX(x: int, y: int)
    requires -0x8000 < x < 0x8000 && -0x8000 < y < 0x8000 && (x, y) != (0, 0)
    ensures VectorToAngle(-x, y) == ToByte(128 - VectorToAngle(x, y))
  {
    OctantMirror(x, y);
    hide VectorToAngle, BaseAngle, Octant, ToByte;
    VectorToAngleOctants(x, y);
    VectorToAngleOctants(-x, y);
    ByteWrap(256 - Octant(x, y));
    ByteWrap(128 - VectorToAngle(x, y));
  }

  /**
   * A coordinate of -32768 keeps its sign through `abs`: a leftward vector
   * of magnitude 32768 comes out as 64 (straight down), not 128, and off
   * the axes the negative `min_val` makes the base angle wrap, so
   * (-32768, 5) comes out as 13 and (5, -32768) as 51.
   */
  lemma VectorToAngleMinInt16()
    ensures VectorToAngle(-0x8000, 0) == 64
    ensures VectorToAngle(0, -0x8000) == 0
    ensures VectorToAngle(-0x8000, 5) == 13
    ensures VectorToAngle(5, -0x8000) == 51
  {
    assert ToInt16(0x8000) == -0x8000;
    assert TruncDiv(-0x8000 * 32, 5) == -209715;
    assert ToByte(-209715) == 205;
    assert ToByte(64 + 205) == 13;
  }

  /** The same estimator with the magnitudes held in a wider integer (`int32_t`). */
  function VectorToAngleWide(x: int, y: int): (r: Byte)
    requires IsInt16(x) && IsInt16(y)
    ensures x < 0 && y == 0 ==> r == 128
    ensures x == 0 && y < 0 ==> r == 192
    ensures x != -0x8000 && y != -0x8000 ==> r == VectorToAngle(x, y)
  {
    if x == 0 && y == 0 then 0
    else
      var base := Octant(x, y);
      if Abs(x) >= Abs(y) then
        if x >= 0 then (if y >= 0 then base else ToByte(256 - base))
        else (if y >= 0 then 128 - base else 128 + base)
      else
        if y >= 0 then (if x >= 0 then 64 - base else 64 + base)
        else (if x >= 0 then 192 + base else 192 - base)
  }

  /**
   * The wide estimator keeps every vector in its octant's band, -32768
   * components included: the property the `int16_t` code has only away
   * from -32768.
   */
  lemma VectorToAngleWideOctants(x: int, y: int)
    requires IsInt16(x) && IsInt16(y) && (x, y) != (0, 0)
    ensures var r, b := VectorToAngleWide(x, y), Octant(x, y);
      && (Abs(x) >= Abs(y) && x >= 0 && y >= 0 ==> r == b && r <= 32)
      && (Abs(x) >= Abs(y) && x >= 0 && y < 0 ==> r == ToByte(256 - b) && (r == 0 || 224 <= r))
      && (Abs(x) >= Abs(y) && x < 0 && y >= 0 ==> r == 128 - b && 96 <= r <= 128)
      && (Abs(x) >= Abs(y) && x < 0 && y < 0 ==> r == 128 + b && 128 <= r <= 160)
      && (Abs(x) < Abs(y) && y > 0 && x >= 0 ==> r == 64 - b && 32 < r <= 64)
      && (Abs(x) < Abs(y) && y > 0 && x < 0 ==> r == 64 + b && 64 <= r < 96)
      && (Abs(x) < Abs(y) && y < 0 && x >= 0 ==> r == 192 + b && 192 <= r < 224)
      && (Abs(x) < Abs(y) && y < 0 && x < 0 ==> r == 192 - b && 160 < r <= 192)
  {
  }

  /** `b = (radius * (256 - e)) >> 8`: the semi-minor axis a(1 - e). */
  function SemiMinor(radius: Byte, eccentricity: Byte): (b: int)
    ensures 0 <= b <= radius
    ensures b == radius <==> eccentricity == 0 || radius == 0
  {
    var p := radius * (256 - eccentricity);
    assert p == 256 * radius - radius * eccentricity;
    MulMono(radius, 0, eccentricity);
    MulMono(radius, eccentricity, 255);
    MulMono(radius, Min(1, eccentricity), eccentricity);
    p / 256
  }

  /** `(radius * e) >> 8`: the centre-to-focus distance a*e. */
  function FocusOffset(radius: Byte, eccentricity: Byte): (f: int)
    ensures 0 <= f <= radius
    ensures f + SemiMinor(radius, eccentricity) <= radius
    ensures eccentricity == 0 ==> f == 0
  {
    (radius * eccentricity) / 256
  }

  /** `(speed * e) >> 8`: the speed modulation depth, below 255 and zero for a circle. */
  function Modulation(speed: Byte, eccentricity: Byte): (m: int)
    ensures 0 <= m <= speed && m < 255
    ensures m == 0 <== eccentricity == 0
  {
    var p := speed * eccentricity;
    MulMono(speed, 0, eccentricity);
    MulMono(speed, eccentricity, 255);
    assert 0 <= p <= 255 * speed <= 255 * 255;
    p / 256
  }

  /**
   * "Kepler-lite": the angle advance `speed - ((speed * e >> 8) * c >> 8)`,
   * floored at MIN_SPEED. With cos >= 0 the body is slowed, with cos <= 0
   * it is sped up, and with e = 0 it runs at the base speed.
   */
  function KeplerSpeed(speed: Byte, eccentricity: Byte, c: int): (s: int)
    requires -256 <= c <= 256
    ensures MIN_SPEED <= s <= 509
    ensures eccentricity == 0 ==> s == Max(speed, MIN_SPEED)
    ensures c >= 0 ==> s <= Max(speed, MIN_SPEED)
    ensures c <= 0 ==> s >= speed
  {
    hide SafeMulShift, Modulation;
    var modFactor := Modulation(speed, eccentricity);
    var delta := SafeMulShift(modFactor, c);
    SafeMulShiftBounded(modFactor, c);
    Max(speed - delta, MIN_SPEED)
  }

  /**
   * `update_geometric_orbit`: position on the ellipse x = a cos, y = b sin
   * at the phase's upper byte, shifted by -a*e so the focus sits at the
   * anchor, in 12.4; then the phase advances by the Kepler-lite speed.
   */
  function UpdateGeometricOrbit(lut: SinLut, angle: Word, radius: Byte, eccentricity: Byte, speed: Byte): (r: OrbitStep)
    ensures r.x % 16 == 0 && r.y % 16 == 0
    ensures Abs(r.x / 16 - ANCHOR_X + FocusOffset(radius, eccentricity)) <= radius
    ensures Abs(r.y / 16 - ANCHOR_Y) <= SemiMinor(radius, eccentricity)
    ensures MIN_SPEED <= ToWord(r.angle - angle) <= 509
    ensures eccentricity == 0 ==> ToWord(r.angle - angle) == Max(speed, MIN_SPEED)
  {
    var phase := angle / 256;
    var b := SemiMinor(radius, eccentricity);
    var c := CosOf(lut, phase);
    var s := SinOf(lut, phase);
    SafeMulShiftBounded(radius, c);
    SafeMulShiftBounded(b, s);
    var relX := SafeMulShift(radius, c) - FocusOffset(radius, eccentricity);
    var relY := SafeMulShift(b, s);
    var step := KeplerSpeed(speed, eccentricity, c);
    var next := ToWord(angle + step);
    WordAdvance(angle, step);
    ScaledCoordinate(ANCHOR_X + relX);
    ScaledCoordinate(ANCHOR_Y + relY);
    OrbitStep(ToInt16((ANCHOR_X + relX) * 16), ToInt16((ANCHOR_Y + relY) * 16), next)
  }

  /** Only the upper byte of the phase selects the position. */
  lemma OrbitPositionFollowsPhase(lut: SinLut, a1: Word, a2: Word, radius: Byte, eccentricity: Byte, speed: Byte)
    requires a1 / 256 == a2 / 256
    ensures UpdateGeometricOrbit(lut, a1, radius, eccentricity, speed).x == UpdateGeometricOrbit(lut, a2, radius, eccentricity, speed).x
    ensures UpdateGeometricOrbit(lut, a1, radius, eccentricity, speed).y == UpdateGeometricOrbit(lut, a2, radius, eccentricity, speed).y
  {
  }

  /**
   * The two apses lie on the x axis through the anchor: periapsis (phase 0)
   * at a - a*e to the right, apoapsis (phase 128) at a + a*e to the left.
   */
  lemma OrbitApses(lut: SinLut, angle: Word, radius: Byte, eccentricity: Byte, speed: Byte)
    ensures angle / 256 == 0 ==>
      var r := UpdateGeometricOrbit(lut, angle, radius, eccentricity, speed);
      r.x == (ANCHOR_X + radius - FocusOffset(radius, eccentricity)) * 16 && r.y == ANCHOR_Y * 16
    ensures angle / 256 == 128 ==>
      var r := UpdateGeometricOrbit(lut, angle, radius, eccentricity, speed);
      r.x == (ANCHOR_X - radius - FocusOffset(radius, eccentricity)) * 16 && r.y == ANCHOR_Y * 16
  {
    var phase := angle / 256;
    if phase == 0 || phase == 128 {
      var c := CosOf(lut, phase);
      assert c == (if phase == 0 then 256 else -256);
      assert SinOf(lut, phase) == 0;
      SafeMulShiftBounded(radius, c);
      SafeMulShiftBounded(SemiMinor(radius, eccentricity), 0);
    }
  }
}
