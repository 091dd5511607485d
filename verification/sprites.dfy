/**
 * The player reticle of src/sprites.c: an affine sprite whose position
 * follows the input deltas (clamped to the screen) and whose 8.8 matrix
 * rotates one table step and pulses in scale every frame, about the
 * centre of its 32x32 box.
 *
 * The `vga_mode4_asprite_t` record the code fills in XRAM at 0xFD00 is a
 * field of the sprite state; `xram0_struct_set` becomes an assignment to
 * one of its fields.
 */
module Sprites {
  import opened FixedPoint

  const SPRITE_DATA_ADDR := 0xF000
  /** log2 of the 32-pixel sprite edge. */
  const LOG_SIZE := 5
  const RETICLE_MIN := -16
  /** 320 - 16: the reticle keeps at least 16 columns on screen. */
  const RETICLE_MAX_X := 304
  /** 180 - 16. */
  const RETICLE_MAX_Y := 164
  /** `16 << 8`: the box centre (16, 16) in 8.8. */
  const PIVOT := 4096

  /** `transform[0..5]` of an affine sprite: SX, SHY, TX, SHX, SY, TY, all 8.8. */
  datatype Affine = Affine(a: int, b: int, tx: int, c: int, d: int, ty: int)

  /** Scale 1.0, no rotation, no translation: what `init_sprites` writes. */
  const IDENTITY := Affine(256, 0, 0, 0, 256, 0)

  /** The fields of `vga_mode4_asprite_t` the code writes. */
  datatype SpriteConfig = SpriteConfig(
    transform: Affine, xPos: int, yPos: int, spritePtr: int, logSize: int, hasOpacity: bool)

  predicate ReticleOk(x: int, y: int) {
    RETICLE_MIN <= x <= RETICLE_MAX_X && RETICLE_MIN <= y <= RETICLE_MAX_Y
  }

  /**
   * One axis of `update_reticle_position`: the 16-bit `+=` of an `int8_t`
   * delta, then the clamp to [-16, `hi`]. Without a wrap, the result is the
   * point of the range closest to `v + delta`.
   */
  function MoveAxis(v: int, delta: int, hi: int): (r: int)
    requires -128 <= delta < 128 && RETICLE_MIN <= hi <= RETICLE_MAX_X
    ensures RETICLE_MIN <= r <= hi
    ensures RETICLE_MIN <= v + delta <= hi ==> r == v + delta
    ensures IsInt16(v + delta) && v + delta < RETICLE_MIN ==> r == RETICLE_MIN
    ensures IsInt16(v + delta) && v + delta > hi ==> r == hi
  {
    var w := ToInt16(v + delta);
    if w < RETICLE_MIN then RETICLE_MIN else if w > hi then hi else w
  }

  /**
   * `scale = 256 + SIN_LUT[pulse_time & 0xFF] / 5`: 1.0 plus a fifth of the
   * sine, the division truncating toward zero, so the scale stays within
   * 1.0 +/- 0.2.
   */
  function PulseScale(lut: SinLut, pulse: Word): (s: int)
    ensures 205 <= s <= 307
    ensures var v := lut[pulse % 256];
      && 5 * Abs(s - 256) <= Abs(v) < 5 * Abs(s - 256) + 5
      && (s > 256 ==> v > 0) && (s < 256 ==> v < 0)
  {
    256 + TruncDiv(lut[pulse % 256], 5)
  }

  /** `((int32_t)k * v) >> 8`: the 8.8 product, rounded toward minus infinity. */
  function MulQ88(k: int, v: int): (r: int)
    ensures 256 * r <= k * v < 256 * r + 256
  {
    (k * v) / 256
  }

  /** A scale within the pulse times a sine entry stays within +/-307 after the shift. */
  lemma MulQ88Bounds(k: int, v: int)
    requires 205 <= k <= 307 && -256 <= v <= 256
    ensures -307 <= MulQ88(k, v) <= 307
  {
    MulMono(k, -256, v);
    MulMono(k, v, 256);
    MulMono(256, k, 307);
  }

  /** `>> 8` of a negated product is minus its ceiling: one less unless the product is a multiple of 256. */
  lemma MulQ88Negated(k: int, v: int)
    ensures MulQ88(k, -v) == if (k * v) % 256 == 0 then -MulQ88(k, v) else -MulQ88(k, v) - 1
  {
    var q, r := (k * v) / 256, (k * v) % 256;
    assert k * -v == -(k * v);
    if r == 0 {
      assert k * -v == 256 * -q;
    } else {
      assert k * -v == 256 * (-q - 1) + (256 - r);
    }
  }

  /**
   * The matrix `update_sprites` computes for angle byte `angle` and scale
   * `scale`: A = D = scale * cos, C = scale * sin and B = scale * (-sin),
   * each `>> 8`; TX and TY make the box centre (16, 16) map to the texture
   * centre (16, 16), so the sprite turns and pulses in place. Because the
   * shift rounds down, B is -C, or -C - 1 when scale * sin is not a
   * multiple of 256.
   */
  function Transform(lut: SinLut, angle: Byte, scale: int): (m: Affine)
    requires 205 <= scale <= 307
    ensures m.a == m.d
    ensures 16 * m.a + 16 * m.b + m.tx == PIVOT && 16 * m.c + 16 * m.d + m.ty == PIVOT
    ensures m.b + m.c == 0 <==> (scale * SinOf(lut, angle)) % 256 == 0
    ensures m.b + m.c == 0 || m.b + m.c == -1
    ensures IsInt16(m.a) && IsInt16(m.b) && IsInt16(m.tx) && IsInt16(m.c) && IsInt16(m.d) && IsInt16(m.ty)
  {
    var c := CosOf(lut, angle);
    var s := SinOf(lut, angle);
    MulQ88Bounds(scale, c);
    MulQ88Bounds(scale, s);
    MulQ88Bounds(scale, -s);
    MulQ88Negated(scale, s);
    var a := ToInt16(MulQ88(scale, c));
    var b := ToInt16(MulQ88(scale, -s));
    var cc := ToInt16(MulQ88(scale, s));
    var d := ToInt16(MulQ88(scale, c));
    Affine(a, b, ToInt16(PIVOT - a * 16 - b * 16), cc, d, ToInt16(PIVOT - cc * 16 - d * 16))
  }

  /**
   * At angle byte 0 and pulse phase 0 the sine is 0 and the cosine 1.0, so
   * the frame's matrix is the identity `init_sprites` starts from.
   */
  lemma TransformAtRest(lut: SinLut)
    ensures PulseScale(lut, 0) == 256
    ensures Transform(lut, 0, PulseScale(lut, 0)) == IDENTITY
  {
    assert lut[0] == 0 && lut[64] == 256;
    assert CosOf(lut, 0) == 256 && SinOf(lut, 0) == 0;
  }

  /** The sprite statics of src/sprites.c and the sprite record in XRAM. */
  class SpriteState {
    /** `SIN_LUT`. */
    const lut: SinLut
    /** `sprite_angle`, a `uint16_t` whose low byte is the rotation. */
    var spriteAngle: int
    /** `pulse_time`, a `uint16_t` whose low byte is the pulse phase. */
    var pulseTime: int
    var reticleX: int
    var reticleY: int
    /** The `vga_mode4_asprite_t` at 0xFD00. */
    var config: SpriteConfig

    ghost predicate Valid()
      reads this
    {
      0 <= spriteAngle < 0x1_0000 && 0 <= pulseTime < 0x1_0000 && ReticleOk(reticleX, reticleY)
    }

    /** The statics at start-up: no rotation, phase 0, reticle at (144, 74); `config` is whatever XRAM held. */
    constructor(lut: SinLut, config: SpriteConfig)
      ensures Valid() && this.lut == lut && this.config == config
      ensures spriteAngle == 0 && pulseTime == 0 && reticleX == 144 && reticleY == 74
    {
      this.lut := lut;
      spriteAngle, pulseTime := 0, 0;
      reticleX, reticleY := 144, 74;
      this.config := config;
    }

    /** `init_sprites`: the identity matrix, the reticle position and the 32x32 bitmap at 0xF000. */
    method InitSprites()
      requires Valid()
      modifies this
      ensures Valid() && config == SpriteConfig(IDENTITY, reticleX, reticleY, SPRITE_DATA_ADDR, LOG_SIZE, false)
      ensures spriteAngle == old(spriteAngle) && pulseTime == old(pulseTime)
      ensures reticleX == old(reticleX) && reticleY == old(reticleY)
    {
      config := SpriteConfig(IDENTITY, reticleX, reticleY, SPRITE_DATA_ADDR, LOG_SIZE, false);
    }

    /** `update_reticle_position`: each axis moves by its delta, then clamps independently. */
    method UpdateReticlePosition(dx: int, dy: int)
      requires Valid() && -128 <= dx < 128 && -128 <= dy < 128
      modifies this
      ensures Valid()
      ensures reticleX == MoveAxis(old(reticleX), dx, RETICLE_MAX_X)
      ensures reticleY == MoveAxis(old(reticleY), dy, RETICLE_MAX_Y)
      ensures spriteAngle == old(spriteAngle) && pulseTime == old(pulseTime) && config == old(config)
    {
      reticleX := ToInt16(reticleX + dx);
      reticleY := ToInt16(reticleY + dy);
      if reticleX < RETICLE_MIN {
        reticleX := RETICLE_MIN;
      }
      if reticleX > RETICLE_MAX_X {
        reticleX := RETICLE_MAX_X;
      }
      if reticleY < RETICLE_MIN {
        reticleY := RETICLE_MIN;
      }
      if reticleY > RETICLE_MAX_Y {
        reticleY := RETICLE_MAX_Y;
      }
    }

    /**
     * `update_sprites`: one step of rotation, four of pulse phase (both
     * 16-bit counters wrap), then the new matrix and the reticle position
     * written to the sprite record.
     */
    method UpdateSprites()
      requires Valid()
      modifies this
      ensures Valid()
      ensures spriteAngle == ToWord(old(spriteAngle) + 1) && pulseTime == ToWord(old(pulseTime) + 4)
      ensures reticleX == old(reticleX) && reticleY == old(reticleY)
      ensures config == old(config).(
        transform := Transform(lut, spriteAngle % 256, PulseScale(lut, pulseTime)),
        xPos := reticleX, yPos := reticleY)
    {
      spriteAngle := ToWord(spriteAngle + 1);
      pulseTime := ToWord(pulseTime + 4);
      var sVal := lut[pulseTime % 256];
      var scale := 256 + TruncDiv(sVal, 5);
      var angle := spriteAngle % 256;
      var c := lut[ToByte(angle + 64)];
      var s := lut[angle];
      var a := ToInt16((scale * c) / 256);
      var b := ToInt16((scale * -s) / 256);
      var cc := ToInt16((scale * s) / 256);
      var d := ToInt16((scale * c) / 256);
      var tx := ToInt16(PIVOT - a * 16 - b * 16);
      var ty := ToInt16(PIVOT - cc * 16 - d * 16);
      config := config.(transform := Affine(a, b, tx, cc, d, ty));
      config := config.(xPos := reticleX, yPos := reticleY);
    }
  }
}
