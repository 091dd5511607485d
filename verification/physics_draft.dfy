/**
 * The earlier orbit step of src/backup/physics.c: a parametric ellipse
 * centred on the anchor (no focus shift), computed with plain 16-bit
 * signed multiplies and arithmetic shifts instead of `safe_mul_shift`.
 *
 * Every `int * int` here is a cc65 16-bit multiply, so each product is
 * wrapped with `ToInt16` before the shift. The comments of the routine
 * budget the products (radius at most 85, speed * e at most 150 * 128);
 * inside that budget nothing wraps, and the lemmas below say what the step
 * computes there and what happens just outside it.
 */
module PhysicsDraft {
  import opened FixedPoint
  import Physics

  /** New position in 12.4 fixed point and the new 8.8 orbit phase. */
  datatype ParametricStep = ParametricStep(x: int, y: int, angle: Word)

  /** `(int16_t)(p) >> 8` for a 16-bit product `p`. */
  function MulShift16(a: int, b: int): (r: int)
    ensures IsInt16(a * b) ==> r == (a * b) / 256
    ensures -128 <= r <= 127
  {
    ToInt16(a * b) / 256
  }

  /** The semi-minor axis `((uint16_t)radius * (256 - e)) >> 8`, which never leaves 16 unsigned bits. */
  function DraftSemiMinor(radius: Byte, eccentricity: Byte): (b: int)
    ensures b == Physics.SemiMinor(radius, eccentricity)
  {
    MulMono(radius, 256 - eccentricity, 256);
    MulMono(256, radius, 255);
    ToWord(radius * (256 - eccentricity)) / 256
  }

  /** The advance `speed - ((speed * e >> 8) * c >> 8)`, floored at 20. */
  function DraftSpeed(speed: Byte, eccentricity: Byte, c: int): (s: int)
    requires -256 <= c <= 256
    ensures Physics.MIN_SPEED <= s <= 383
  {
    var modulation := MulShift16(speed, eccentricity);
    var deltaMod := MulShift16(modulation, c);
    Max(speed - deltaMod, Physics.MIN_SPEED)
  }

  /** `update_parametric_orbit`. */
  function UpdateParametricOrbit(lut: SinLut, angle: Word, radius: Byte, eccentricity: Byte, speed: Byte): (r: ParametricStep)
    ensures r.x % 16 == 0 && r.y % 16 == 0
    ensures Abs(r.x / 16 - Physics.ANCHOR_X) <= 128 && Abs(r.y / 16 - Physics.ANCHOR_Y) <= 128
    ensures Physics.MIN_SPEED <= ToWord(r.angle - angle) <= 383
  {
    var phase := angle / 256;
    var b := DraftSemiMinor(radius, eccentricity);
    var c := CosOf(lut, phase);
    var s := SinOf(lut, phase);
    var relX := MulShift16(radius, c);
    var relY := MulShift16(b, s);
    var step := DraftSpeed(speed, eccentricity, c);
    var next := ToWord(angle + step);
    WordAdvance(angle, step);
    ScaledCoordinate(Physics.ANCHOR_X + relX);
    ScaledCoordinate(Physics.ANCHOR_Y + relY);
    var x, y := (Physics.ANCHOR_X + relX) * 16, (Physics.ANCHOR_Y + relY) * 16;
    ParametricStep(ToInt16(x), ToInt16(y), next)
  }

  /** Within the radius budget the position stays on the ellipse's bounding box. */
  lemma ParametricOrbitInBudget(lut: SinLut, angle: Word, radius: Byte, eccentricity: Byte, speed: Byte)
    requires radius < 128
    ensures var r := UpdateParametricOrbit(lut, angle, radius, eccentricity, speed);
      && Abs(r.x / 16 - Physics.ANCHOR_X) <= radius
      && Abs(r.y / 16 - Physics.ANCHOR_Y) <= Physics.SemiMinor(radius, eccentricity)
  {
    var phase := angle / 256;
    var b := DraftSemiMinor(radius, eccentricity);
    var c := CosOf(lut, phase);
    var s := SinOf(lut, phase);
    FloorProductBounded(radius, c);
    FloorProductBounded(b, s);
  }

  /** `|a * b| / 256 <= |a|` and no 16-bit wrap when |b| <= 256 and 0 <= a < 128. */
  lemma FloorProductBounded(a: int, b: int)
    requires 0 <= a < 128 && -256 <= b <= 256
    ensures IsInt16(a * b)
    ensures Abs(MulShift16(a, b)) <= a
  {
    MulMono(a, b, 256);
    MulMono(a, -256, b);
    assert a * 256 <= 127 * 256 by { MulMono(256, a, 127); }
    var q := (a * b) / 256;
    assert 256 * q <= a * b < 256 * q + 256;
    assert -a * 256 <= a * b <= a * 256 by { MulMono(a, -256, b); }
  }

  /** Periapsis: at phase 0 the body sits radius pixels right of the anchor. */
  lemma ParametricOrbitPhaseZero(lut: SinLut, angle: Word, radius: Byte, eccentricity: Byte, speed: Byte)
    requires angle / 256 == 0 && radius < 128
    ensures var r := UpdateParametricOrbit(lut, angle, radius, eccentricity, speed);
      r.x == (Physics.ANCHOR_X + radius) * 16 && r.y == Physics.ANCHOR_Y * 16
  {
    assert CosOf(lut, 0) == 256 && SinOf(lut, 0) == 0;
    assert radius * 256 < 0x8000;
  }

  /** Past the budget the multiply wraps: radius 128 at phase 0 lands left of the anchor. */
  lemma ParametricOrbitRadiusWraps(lut: SinLut, eccentricity: Byte, speed: Byte)
    ensures UpdateParametricOrbit(lut, 0, 128, eccentricity, speed).x == (Physics.ANCHOR_X - 128) * 16
  {
    assert CosOf(lut, 0) == 256;
    assert ToInt16(128 * 256) == -0x8000;
  }

  /** A circular orbit (e = 0) advances by exactly the base speed, floored at 20. */
  lemma ParametricOrbitCircularSpeed(lut: SinLut, angle: Word, radius: Byte, speed: Byte)
    ensures ToWord(UpdateParametricOrbit(lut, angle, radius, 0, speed).angle - angle) == Max(speed, Physics.MIN_SPEED)
  {
    hide MulShift16, DraftSemiMinor, CosOf, SinOf, ToWord;
    var c := CosOf(lut, angle / 256);
    assert MulShift16(speed, 0) == 0 && MulShift16(0, c) == 0;
    WordAdvance(angle, DraftSpeed(speed, 0, c));
  }

  /**
   * For a circular orbit inside the budget the draft and the current
   * `update_geometric_orbit` agree on the phase and differ by at most one
   * pixel per axis (floor against truncation toward zero).
   */
  lemma ParametricMatchesGeometricWhenCircular(lut: SinLut, angle: Word, radius: Byte, speed: Byte)
    requires radius < 128
    ensures var d := UpdateParametricOrbit(lut, angle, radius, 0, speed);
      var g := Physics.UpdateGeometricOrbit(lut, angle, radius, 0, speed);
      && d.angle == g.angle
      && Abs(d.x - g.x) <= 16 && Abs(d.y - g.y) <= 16
  {
    hide ToWord, CosOf, SinOf, Physics.KeplerSpeed;
    var phase := angle / 256;
    var c := CosOf(lut, phase);
    var s := SinOf(lut, phase);
    assert DraftSemiMinor(radius, 0) == radius;
    assert MulShift16(speed, 0) == 0 && MulShift16(0, c) == 0;
    FloorProductBounded(radius, c);
    FloorProductBounded(radius, s);
    Physics.SafeMulShiftVsFloor(radius, c);
    Physics.SafeMulShiftVsFloor(radius, s);
  }
}
