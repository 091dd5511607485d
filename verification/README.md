# RPGalaxy core, modelled in Dafny

RPGalaxy is a small game and demo for the RP6502 (a 6502 computer with a
video co-processor that is reached through the RIA ports and its own 64 KiB
of extended memory, XRAM). It is compiled with cc65, where `int` is 16 bits
wide. This project models the integer and fixed-point core of the program
and proves what its routines compute.

- **FixedPoint** (`fixed_point.dfy`) holds the integer vocabulary of the
  target: `uint8_t`/`uint16_t` truncation, 16-bit two's-complement wrap,
  the arithmetic right shift (a floor division) and C's truncating `/`. It
  also holds the 256-entry sine table `SIN_LUT`. That table lives in a
  generated header that is not part of this model, so it is a parameter
  whose only known facts are its range [-256, 256] and its four cardinal
  entries.
- **Physics** (`physics.dfy`, `src/physics.c`) covers three routines:
  - the sign-tracking 8.8 multiply `safe_mul_shift`;
  - the octant angle estimator `vector_to_angle`;
  - one step of `update_geometric_orbit`. This is a parametric ellipse
    whose centre is shifted so the focus sits at the screen anchor. The
    angle advances by a "Kepler-lite" speed, floored at 20.
- **PhysicsDraft** (`physics_draft.dfy`, `src/backup/physics.c`) is the
  earlier orbit step `update_parametric_orbit`. It has no focus shift and
  uses plain 16-bit signed products, so every product wraps as cc65 wraps
  it. The lemmas say what the step computes inside the budget its comments
  state, and what happens just outside it. They also relate the draft to
  the current step for circular orbits.
- **GalaxyLut** (`galaxy_lut.dfy`, `src/galaxy.c`) contains the literal
  tables `sin_lut`/`cos_lut` (sine and cosine times 960) and `lut_sin`/`lut_cos`.
- **Galaxy** (`galaxy.dfy`, `src/galaxy.c`) is the batched particle
  renderer. It keeps a 125 x 125 grid of particles, a resumable row-major
  cursor, two 8.8 feedback accumulators and a time counter bumped once
  per sweep. An erase-before-redraw position cache marks "nothing lit"
  with 0xFFFF.
  - The statics become the fields of the class `Renderer`. The bitmap is
    an array that the RIA port writes go into.
  - `Renderer.Draw` is proved equal to `DrawSpec`, a pure description of
    one `galaxy_draw` call on a `Frame` snapshot. The lemmas are about
    `DrawSpec`.
- **GalaxyDraft** (`galaxy_draft.dfy`, `src/backup/galaxy.c`) is the older
  additive particle field. XRAM is modelled whole, as a 65536-byte array,
  so that what `decay_screen` does beyond the bitmap is visible. The class
  `Field` carries the statics. It has:
  - a palette builder with 5-bit channel clamps;
  - the screen clear;
  - the 50 x 50 warm-up;
  - the saturating `plot`;
  - the batched `decay_screen`, as written: its last batch of each cycle
    runs past the bitmap (see Findings). `DecayBatch` is the corrected
    batch, kept as a reference;
  - `galaxy_update`.

  Each method is proved against a pure function of the old state, and the
  lemmas are about those functions. Among them: the warm-up draws exactly
  what the first full sweep of `galaxy_update` would draw.
- **Sprites** (`sprites.dfy`, `src/sprites.c`) covers the player reticle.
  It has a clamped position, an 8.8 rotation-and-scale matrix with a
  pivot-preserving translation, and the identity matrix of `init_sprites`.
  The sprite record in XRAM is a field of the class `SpriteState`.
- **Playback** (`playback.dfy`, `src/backup/galaxy_precomputed.c`) is the
  replay of a precomputed delta file. It uses a 1024-record buffer fed by
  `fread`, a new frame every 6 calls, and at most 10 pixel writes per
  call.
  - The file is a byte sequence with a read position. The pixel writes of
    a call are returned as a list.
  - The class `Player` is proved equal to pure functions of its state,
    such as `Load`, `NextFrame` and `DrawStep`.
  - On a file produced by `Encode`, the lemmas show that frames are played
    in order, each record once, and that playback rewinds at the end of
    the file.

Signed `>>` is an arithmetic shift on cc65 and is written as a floor
division (`/ 256`, `/ 16`, `/ 4` on `int`). C's `/` on a negative operand
is `TruncDiv`. Wherever a 16-bit signed result can leave [-32768, 32767] it
is wrapped with `ToInt16`, the two's-complement behaviour of the target.

## Model

| member | source | states |
|---|---|---|
| FixedPoint.TruncDiv | src/sprites.c:68 | C's `/` truncates toward zero: the quotient's magnitude is the magnitude quotient, and it carries the dividend's sign |
| FixedPoint.WordAdvance | src/physics.c:147 | adding a step below 65536 to a `uint16_t` angle and subtracting the old angle mod 65536 gives back the step |
| Physics.SafeMulShift | src/physics.c:20-35 | within the product budget (the product of the magnitudes below 65536) the result is `a*b/256` truncated toward zero; for every 16-bit input the magnitude is at most 255 and the sign is that of `a*b` |
| Physics.SafeMulShiftBounded | src/physics.c:26-30 | with a radius below 256 and a table value within 1.0, the magnitude never exceeds the radius; a value of exactly +1.0, -1.0 or 0 gives the radius, its negation, or 0 |
| Physics.SafeMulShiftOdd | src/physics.c:22-33 | the multiply is odd in each argument (for inputs other than -32768) |
| Physics.SafeMulShiftVsFloor | src/physics.c:30-33 | it differs from a plain arithmetic-shift product by exactly one on negative products that are not multiples of 256 |
| Physics.BaseAngle | src/physics.c:52-60 | `(min*32)/max` lies in [0, 32]: 0 on an axis, 32 on a diagonal, below 32 otherwise |
| Physics.WrappedBase | src/physics.c:52-60 | the base angle `(uint8_t)((min * 32) / max)`: for 0 <= min <= max it is the octant base angle, and 0 when max is not positive |
| Physics.VectorToAngle | src/physics.c:39-99 | the zero vector has angle 0 |
| Physics.Octant | src/physics.c:43-60 | the base angle of any non-zero vector lies in [0, 32] |
| Physics.VectorToAngleOctants | src/physics.c:63-96 | for each of the eight octants the result is the octant's axis plus or minus the base angle, inside that octant's 32-unit band |
| Physics.VectorToAngleAxes | src/physics.c:63-96 | the four axis directions map to exactly 0, 64, 128 and 192 |
| Physics.OctantMirror | src/physics.c:43-60 | the base angle does not change when either coordinate is negated, and it is 0 on an axis |
| Physics.VectorToAngleReflectY | src/physics.c:63-96 | negating y gives `256 - angle` mod 256 for every non-zero vector without a -32768 coordinate |
| Physics.VectorToAngleReflectX | src/physics.c:63-96 | negating x gives `128 - angle` mod 256 for every non-zero vector without a -32768 coordinate |
| Physics.VectorToAngleMinInt16 | src/physics.c:43-44 | as written, `(-32768, 0)` gives 64, `(0, -32768)` gives 0, `(-32768, 5)` gives 13 and `(5, -32768)` gives 51, because the absolute value wraps and the base angle and the `uint8_t` angle wrap with it |
| Physics.VectorToAngleWide | src/physics.c:39-99 | the estimator with exact magnitudes puts every negative x axis at 128 and every negative y axis at 192, and agrees with the code wherever neither coordinate is -32768 |
| Physics.VectorToAngleWideOctants | src/physics.c:63-96 | with exact magnitudes, every non-zero 16-bit vector, those with a -32768 coordinate included, lands in its octant's 32-unit band |
| Physics.SemiMinor | src/physics.c:108-109 | `b = radius*(256-e)>>8` lies in [0, radius], and equals the radius exactly when e = 0 or the radius is 0 |
| Physics.FocusOffset | src/physics.c:131 | the focus offset `radius*e>>8` lies in [0, radius], is 0 for a circle, and together with b never exceeds the radius |
| Physics.Modulation | src/physics.c:139 | `speed*e>>8` lies in [0, speed], stays below 255, and is 0 for a circle |
| Physics.KeplerSpeed | src/physics.c:139-145 | the angle advance lies in [20, 509]. It is `max(speed, 20)` for a circle, is at most that when cos >= 0, and is at least the speed when cos <= 0 |
| Physics.UpdateGeometricOrbit | src/physics.c:101-148 | both outputs are multiples of 16. The x offset plus the focus offset is within the radius and the y offset is within b. The angle advances mod 65536 by 20..509, by exactly `max(speed, 20)` when e = 0 |
| Physics.OrbitPositionFollowsPhase | src/physics.c:102-135 | the position depends only on the angle's upper byte |
| Physics.OrbitApses | src/physics.c:112-135 | at phase 0 the body is at `anchor + radius - offset`, and at phase 128 at `anchor - radius - offset`, on the anchor's row |
| PhysicsDraft.MulShift16 | src/backup/physics.c:47-48 | a 16-bit product shifted right by 8 lies in [-128, 127], and is the floor of `a*b/256` when the product does not wrap |
| PhysicsDraft.DraftSemiMinor | src/backup/physics.c:26-28 | the draft's semi-minor axis is the same `b` as the current step's |
| PhysicsDraft.DraftSpeed | src/backup/physics.c:66-77 | the draft's angle advance lies in [20, 383] for every speed and eccentricity, wrapped products included |
| PhysicsDraft.UpdateParametricOrbit | src/backup/physics.c:18-80 | both outputs are multiples of 16 within 128 pixels of the anchor, and the angle advances mod 65536 by 20..383 |
| PhysicsDraft.ParametricOrbitInBudget | src/backup/physics.c:38-52 | with a radius below 128 no product wraps; the x offset is within the radius and the y offset within b |
| PhysicsDraft.FloorProductBounded | src/backup/physics.c:47-48 | a radius below 128 times a table value fits in 16 bits, and the shifted product is within the radius |
| PhysicsDraft.ParametricOrbitPhaseZero | src/backup/physics.c:47-52 | at phase 0 (within the budget) the output is `((160 + radius) << 4, 90 << 4)`, with no focus shift |
| PhysicsDraft.ParametricOrbitRadiusWraps | src/backup/physics.c:38-52 | just outside the budget, radius 128 at phase 0 wraps the product to -32768 and lands at `(160 - 128) << 4`, on the wrong side |
| PhysicsDraft.ParametricOrbitCircularSpeed | src/backup/physics.c:66-79 | with e = 0 the modulation vanishes and the angle advances by exactly `max(speed, 20)` |
| PhysicsDraft.ParametricMatchesGeometricWhenCircular | src/backup/physics.c:18-80 | for a circle within the budget, the draft and the current step produce the same new angle and positions at most one pixel (16 units) apart |
| GalaxyLut.GalaxyTablesOk | src/galaxy.c:25-30 | every `cos_lut[k]` equals `sin_lut[(k+64) mod 256]`, and every entry lies in [-960, 960] |
| GalaxyLut.LutSin | src/galaxy.c:41-43 | `lut_sin` returns a value in [-960, 960] |
| GalaxyLut.LutCos | src/galaxy.c:45-47 | `lut_cos(k)` is `lut_sin((uint8_t)(k + 64))` |
| GalaxyLut.GalaxySinShape | src/galaxy.c:25-27 | the sine table is non-negative on the first half turn and non-positive on the second, with 0, 960, 0, -960 at the cardinal indices |
| GalaxyLut.LutSinHalfTurn | src/galaxy.c:25-27 | `sin_lut[k + 128] == -sin_lut[k]` |
| Galaxy.ScaledAngle | src/galaxy.c:123-127 | the split computation `(g>>8)*41 + ((g&0xFF)*41>>8)` equals `floor(41*g/256) mod 256` |
| Galaxy.RowAngle | src/galaxy.c:105 | row i's angle lies in [2i, 253] |
| Galaxy.RowAnglesSpread | src/galaxy.c:105 | distinct rows get angles at least two apart, from 0 for row 0 to 253 for row 124 |
| Galaxy.ColorOf | src/galaxy.c:107-156 | a particle's colour is `(16 + 11*i + j) mod 256` |
| Galaxy.Waves | src/galaxy.c:123-136 | u and v, each the sum of two table reads, lie in [-1920, 1920] |
| Galaxy.Place | src/galaxy.c:143-151 | `gy = v>>2` lies in [-480, 480], `gx - t` is `u>>2`, `sx = 160 + (u>>4)` lies in [40, 280] and `sy` lies in [0, 180] |
| Galaxy.Trace | src/galaxy.c:117-151 | the new accumulators fit in 16 bits, and the pixel has x in [40, 280] and y in [0, 180] |
| Galaxy.PixelAddress | src/galaxy.c:113-158 | `x + 320*y` of an on-screen pixel is a bitmap address from which x and y can be read back |
| Galaxy.Advance | src/galaxy.c:169-185 | the cursor advances one cell row-major mod 125*125, and `t_fp` grows by one (16-bit) exactly when it leaves the last cell |
| Galaxy.Redraw | src/galaxy.c:153-165 | after the draw the cache still holds only "nothing lit" or on-screen positions |
| Galaxy.ProcessCell | src/galaxy.c:100-185 | one cell keeps the state consistent, leaves `first_frame` alone and moves the cursor one step |
| Galaxy.ClearIfFirst | src/galaxy.c:74-86 | on the first call every pixel is 0, every cache entry is 0xFFFF and `first_frame` is cleared; later calls change nothing |
| Galaxy.AdvanceIsOneStep | src/galaxy.c:169-185 | one step of the loop is the closed-form cursor walk of length 1 |
| Galaxy.CursorAfterAdd | src/galaxy.c:100-185 | walking a cells and then b cells is walking a + b cells |
| Galaxy.BatchFollowsCursor | src/galaxy.c:100-185 | n cells advance the cursor and `t_fp` by the closed-form walk of n steps |
| Galaxy.DrawSpecCursor | src/galaxy.c:73-187 | each `galaxy_draw` call advances the cursor exactly 25 cells row-major, with `t_fp` following the wraps |
| Galaxy.FullSweep | src/galaxy.c:170-184 | the cursor arithmetic of a sweep: 15625 particles from (0, 0) come back to (0, 0) with `t_fp` one higher, and that is 625 batches of 25 |
| Galaxy.Draws | src/galaxy.c:170-184 | n successive `galaxy_draw` calls keep the frame consistent |
| Galaxy.DrawsCursor | src/galaxy.c:170-184 | n calls of `galaxy_draw` move the cursor 25n particles on, `t_fp` counting the completed sweeps |
| Galaxy.DrawsFullSweep | src/galaxy.c:170-184 | from a fresh cursor, 625 calls of `galaxy_draw` come back to (0, 0) with `t_fp` one higher |
| Galaxy.ProcessCellEffect | src/galaxy.c:109-165 | after cell k: if the pixel is on screen, the cache holds it and the pixel holds the colour; if not, `last_x[k]` is 0xFFFF. No other cache entry changes, and the only pixels that change are the new one and the previously cached one, which is zeroed unless the new pixel lands on it |
| Galaxy.Renderer.constructor | src/galaxy.c:20-39 | the statics as the program starts: `first_frame` set, cache, cursor and accumulators zero, the screen as it was |
| Galaxy.Renderer.Init | src/galaxy.c:49-55 | `galaxy_init` zeroes `t_fp`, `gx_fp`, `gy_fp`, `cur_i` and `cur_j`, and leaves `first_frame`, the cache and the screen alone |
| Galaxy.Renderer.Draw | src/galaxy.c:73-187 | one call performs exactly `DrawSpec` on the renderer's state |
| Galaxy.Renderer.ClearScreen | src/galaxy.c:74-86 | every pixel becomes 0 and every `last_x` becomes 0xFFFF |
| Galaxy.Renderer.DrawParticle | src/galaxy.c:100-185 | one loop iteration performs `ProcessCell`, and the cache index follows the cursor |
| Galaxy.Renderer.ErasePixel | src/galaxy.c:109-115 | the previously cached pixel of the cell is zeroed, if there is one |
| Galaxy.Renderer.CalcDot | src/galaxy.c:117-151 | it computes the particle's `Trace` |
| Galaxy.Renderer.PlotPixel | src/galaxy.c:153-165 | it stores the pixel and the cache entries as `Redraw` describes |
| Galaxy.Renderer.NextParticle | src/galaxy.c:167-185 | the cursor and `t_fp` advance by `Advance`, and the cache index follows |
| GalaxyDraft.SinTableOk | src/backup/galaxy.c:31-33 | `sin_table` has 256 entries in [-127, 127], non-negative on the first half turn, with 0, 127, 0, -127 at the cardinal indices |
| GalaxyDraft.Q88Index | src/backup/galaxy.c:55-56 | the table index is `(uint8_t)((a*41)>>8)` whenever `a*41` fits in 16 bits; beyond that the product wraps first |
| GalaxyDraft.GetSinQ88 | src/backup/galaxy.c:47-62 | the result is even and lies in [-254, 254] for every 16-bit input |
| GalaxyDraft.GetCosQ88 | src/backup/galaxy.c:64-68 | the result is even and lies in [-254, 254] for every 16-bit input |
| GalaxyDraft.CosIsShiftedSin | src/backup/galaxy.c:64-68 | `get_cos_q88(a)` is twice the table entry 64 places after the sine's index |
| GalaxyDraft.Q88AtZero | src/backup/galaxy.c:47-68 | at 0 the sine is 0 and the cosine 254 |
| GalaxyDraft.Emit | src/backup/galaxy.c:189-199 | the wave sums lie in [-508, 508] and the pixel lands in [80, 240) x [10, 170), well inside the bitmap |
| GalaxyDraft.ScreenOffset | src/backup/galaxy.c:198-199 | `w*40` fits in 16 bits and `(w*40)>>8` lies in [-80, 79] |
| GalaxyDraft.Traced | src/backup/galaxy.c:189-201 | a particle keeps `t`, `cur_i` and `cur_j` and keeps the 16-bit state in range |
| GalaxyDraft.NextCursor | src/backup/galaxy.c:203-211 | the cursor advances one cell row-major mod 50*50, and `t` grows by 25 (16-bit) exactly when it leaves (49, 49) |
| GalaxyDraft.Step | src/backup/galaxy.c:188-211 | one loop iteration moves the cursor by `NextCursor` |
| GalaxyDraft.RunCursor | src/backup/galaxy.c:188-212 | n iterations move the cursor by the closed-form walk of n steps |
| GalaxyDraft.WalkClosedForm | src/backup/galaxy.c:203-211 | stepping n times is the closed-form walk |
| GalaxyDraft.RunSplit | src/backup/galaxy.c:188-212 | a + b iterations are a iterations followed by b |
| GalaxyDraft.FullSweep | src/backup/galaxy.c:203-211 | 2500 steps bring the cursor back with `t` 25 higher |
| GalaxyDraft.Warm | src/backup/galaxy.c:117-139 | after the warm-up, `t`, `cur_i` and `cur_j` are still 0 |
| GalaxyDraft.WarmUpIsFirstSweep | src/backup/galaxy.c:117-139 | the warm-up draws exactly what the first 2500 particles of `galaxy_update` draw from the same start, and leaves `x` and `y` where they leave them |
| GalaxyDraft.RunStaysInBitmap | src/backup/galaxy.c:188-212 | particle updates never write outside the bitmap |
| GalaxyDraft.WarmStaysInBitmap | src/backup/galaxy.c:117-139 | the warm-up never writes outside the bitmap |
| GalaxyDraft.PixelAt | src/backup/galaxy.c:149 | an on-screen pixel's address lies in the bitmap |
| GalaxyDraft.Plotted | src/backup/galaxy.c:145-160 | off screen nothing changes; on screen the pixel becomes `min(current + add, 255)` (a pixel at 255 stays 255) and no other address changes |
| GalaxyDraft.PlotBrightens | src/backup/galaxy.c:145-160 | plotting never darkens any address |
| GalaxyDraft.Faded | src/backup/galaxy.c:173-177 | a cell fades to `max(v - 1, 0)` |
| GalaxyDraft.DecayRange | src/backup/galaxy.c:172-178 | the visited cells fade by one, and every other address is unchanged |
| GalaxyDraft.NextDecayPtr | src/backup/galaxy.c:180-181 | `decay_ptr` stays a multiple of 2500 below 57600 and returns to 0 exactly after 57500 |
| GalaxyDraft.DecayBatchAsWritten | src/backup/galaxy.c:162-182 | as written, the batch fades 2500 cells from `decay_ptr`, whether or not they lie in the bitmap |
| GalaxyDraft.DecayOverrunsPalette | src/backup/galaxy.c:172-181 | the batch at 57500 fades the first palette byte at 0xE200 from 10 to 9 |
| GalaxyDraft.DecayBatch | src/backup/galaxy.c:162-182 | the corrected batch fades only cells below 57600 |
| GalaxyDraft.DecayCycleCoversBitmap | src/backup/galaxy.c:172-181 | every bitmap cell lies in exactly one decay batch of the cycle |
| GalaxyDraft.PaletteRgb | src/backup/galaxy.c:77-101 | every channel lies in [0, 31], and entries 170..255 are white |
| GalaxyDraft.Pack | src/backup/galaxy.c:87-98 | a packed colour has bit 15 clear |
| GalaxyDraft.UnpackPack | src/backup/galaxy.c:87-98 | the three 5-bit channels can be read back from the packed colour |
| GalaxyDraft.PaletteColor | src/backup/galaxy.c:77-101 | every colour is below 0x8000, and entries 170..255 are 0x7FFF |
| GalaxyDraft.PaletteBrightens | src/backup/galaxy.c:77-101 | no channel ever decreases along the ramp |
| GalaxyDraft.PaletteByte | src/backup/galaxy.c:82-100 | the even byte is the colour's low byte and the odd byte its high byte |
| GalaxyDraft.WithPalette | src/backup/galaxy.c:75-102 | the 256 little-endian colours land at 0xE200 onwards, and nothing else in XRAM changes |
| GalaxyDraft.Cleared | src/backup/galaxy.c:109-113 | the bitmap is zeroed and everything past it is unchanged |
| GalaxyDraft.InitKeepsPalette | src/backup/galaxy.c:73-142 | the palette written first survives the clear and the warm-up |
| GalaxyDraft.Field.constructor | src/backup/galaxy.c:21-23 | the statics as the program starts: all zero, not initialized |
| GalaxyDraft.Field.Init | src/backup/galaxy.c:73-142 | `galaxy_init` writes the palette, zeroes the state, clears the bitmap, runs the warm-up and sets `initialized` |
| GalaxyDraft.Field.WritePalette | src/backup/galaxy.c:75-102 | the palette loop performs `WithPalette` |
| GalaxyDraft.Field.ClearScreen | src/backup/galaxy.c:109-113 | the clear loop performs `Cleared` |
| GalaxyDraft.Field.WarmUp | src/backup/galaxy.c:117-139 | the nested warm-up loops perform `Warm` |
| GalaxyDraft.Field.WarmUpRow | src/backup/galaxy.c:118-138 | the inner loop performs one `WarmRow` |
| GalaxyDraft.Field.TraceParticle | src/backup/galaxy.c:189-201 | one particle performs `Traced` |
| GalaxyDraft.Field.Plot | src/backup/galaxy.c:145-160 | `plot` performs `Plotted` on XRAM |
| GalaxyDraft.Field.AdvanceCursor | src/backup/galaxy.c:203-211 | the cursor and `t` advance by `Advance` |
| GalaxyDraft.Field.Update | src/backup/galaxy.c:184-216 | before `initialized` nothing changes; after, 600 particles run and one decay batch follows, as written: 2500 cells from `decay_ptr` |
| GalaxyDraft.Field.DecayScreen | src/backup/galaxy.c:162-182 | one call fades the 2500 cells from `decay_ptr`, past the bitmap on the last batch, and advances `decay_ptr`, back to 0 after 57500 |
| GalaxyDraft.DecayBatchMatchesBelowLast | src/backup/galaxy.c:162-182 | the code's batch and the corrected one agree for every `decay_ptr` but 57500; there they differ exactly when a cell in 57600..59999 is non-zero |
| GalaxyDraft.Field.FadeCells | src/backup/galaxy.c:172-178 | the dual-port loop fades `count` consecutive cells in place |
| Sprites.MoveAxis | src/sprites.c:48-56 | the result lies in [-16, hi]. It is old + delta when that is in bounds, and otherwise clamps to the nearer bound |
| Sprites.PulseScale | src/sprites.c:66-68 | the scale lies in [205, 307], and is 256 plus the sine divided by 5, truncated toward zero |
| Sprites.MulQ88 | src/sprites.c:84-87 | the `>> 8` product rounds toward minus infinity |
| Sprites.MulQ88Bounds | src/sprites.c:84-87 | a pulse scale times a sine value stays within +/-307 after the shift |
| Sprites.MulQ88Negated | src/sprites.c:85-86 | the shift of a negated product is minus the shift, or minus it minus one when the product is not a multiple of 256 |
| Sprites.Transform | src/sprites.c:71-99 | A == D, the pivot is kept (`16A + 16B + TX == 4096`, `16C + 16D + TY == 4096`), B is -C or -C - 1 (-C exactly when `scale*sin` is a multiple of 256), and all six entries fit in 16 bits |
| Sprites.TransformAtRest | src/sprites.c:25-99 | at angle byte 0 and pulse phase 0 the matrix is the identity that `init_sprites` writes |
| Sprites.SpriteState.constructor | src/sprites.c:12-15 | the statics as the program starts: angle 0, phase 0, reticle at (144, 74) |
| Sprites.SpriteState.InitSprites | src/sprites.c:17-36 | the sprite record gets the identity matrix, the reticle position, the bitmap at 0xF000, size 2^5 and no opacity metadata |
| Sprites.SpriteState.UpdateReticlePosition | src/sprites.c:47-57 | each axis moves by its delta and clamps independently into [-16, 304] x [-16, 164] |
| Sprites.SpriteState.UpdateSprites | src/sprites.c:59-115 | the angle grows by 1 and the phase by 4 (16-bit), and the record gets the new `Transform` and the reticle position |
| Playback.PixelAddr | src/backup/galaxy_precomputed.c:120-127 | the address is `x + 320*y` when that fits in 16 bits |
| Playback.Available | src/backup/galaxy_precomputed.c:51 | the number of whole records left in the file from the read position |
| Playback.WordRoundTrip | src/backup/galaxy_precomputed.c:63-64 | a little-endian `uint16_t` reads back as written |
| Playback.ChangeRoundTrip | src/backup/galaxy_precomputed.c:11-17 | a 9-byte `PixelChange` record reads back as written |
| Playback.ChangesRoundTrip | src/backup/galaxy_precomputed.c:51 | a run of encoded records reads back as the same records |
| Playback.FrameAt | src/backup/galaxy_precomputed.c:59-77 | in an encoded file, frame k is its count at `Offset(k)` followed by its records, and frame k + 1 starts right after |
| Playback.OffsetZero | src/backup/galaxy_precomputed.c:66-67 | frame 0 starts at byte 0, and the last frame ends at the end of the file |
| Playback.Load | src/backup/galaxy_precomputed.c:39-57 | with no file or no records remaining nothing changes and the result is false. Otherwise the buffer restarts at 0 with at most `changes_remaining` records read, `changes_remaining` drops by the number read, and the result says whether any were read |
| Playback.NextFrame | src/backup/galaxy_precomputed.c:59-77 | the next count is read, rewinding to the start at the end of the file; the buffer is emptied and the result says whether the frame has records; a file shorter than one count fails |
| Playback.ChangeWrites | src/backup/galaxy_precomputed.c:116-130 | one record makes at most two writes, and never more than the budget left |
| Playback.ChangeWritesOrder | src/backup/galaxy_precomputed.c:119-130 | the erase is skipped for `old_x == 0xFFFF` and the draw for `new_x == 0xFFFF`; the erase (a 0) comes first; a draw is dropped when the erase used the last slot |
| Playback.Play | src/backup/galaxy_precomputed.c:106-131 | the writes of a call stay within the 10-write budget, and records are left over only when the budget is spent |
| Playback.Refill | src/backup/galaxy_precomputed.c:107-114 | after a refill that succeeds a record is buffered, and the records still pending never grow |
| Playback.Drain | src/backup/galaxy_precomputed.c:104-131 | the drawing loop makes at most the budget of writes and keeps the buffer invariant |
| Playback.DrawStep | src/backup/galaxy_precomputed.c:79-132 | one call makes at most 10 writes, none without a file, keeps `buffer_pos <= buffer_count <= 1024`, and clears `first_draw` |
| Playback.LoadKeepsPending | src/backup/galaxy_precomputed.c:39-57 | a load moves records from the file into the buffer without losing, repeating or reordering any, and succeeds exactly when records are pending |
| Playback.RefillKeepsPending | src/backup/galaxy_precomputed.c:107-114 | the same holds for the refill check in the drawing loop |
| Playback.DrainPlays | src/backup/galaxy_precomputed.c:106-131 | the drawing loop writes exactly what `Play` makes of the pending records, consuming them in order, each once |
| Playback.DrainKeepsPosition | src/backup/galaxy_precomputed.c:51-54 | the read position plus 9 times `changes_remaining` stays constant while a frame drains |
| Playback.NextFrameReadsFrame | src/backup/galaxy_precomputed.c:59-77 | at the start of frame k of an encoded file, the next frame's records (frame 0 again after the last) become pending |
| Playback.NextFrameReads | src/backup/galaxy_precomputed.c:63-76 | reading a count at the position, or at 0 after the end, sets up the frame header |
| Playback.DrainStaysInFrame | src/backup/galaxy_precomputed.c:106-131 | drawing stays within the current frame of the file and writes what `Play` makes of it |
| Playback.RestartReadsFrame | src/backup/galaxy_precomputed.c:97-99 | `start_next_frame(); load_buffer();` at the end of frame k makes frame k + 1 (or frame 0) pending |
| Playback.PlaysFramesInOrder | src/backup/galaxy_precomputed.c:94-131 | a call starts the next frame only when `frame_delay >= 6` and the current one is consumed; either way it writes what `Play` makes of the records now pending |
| Playback.FirstDrawPlaysFrame0 | src/backup/galaxy_precomputed.c:81-90 | the first call on a fresh file starts frame 0 and draws from its beginning |
| Playback.Player.constructor | src/backup/galaxy_precomputed.c:22-29 | the statics as the program starts: no file, empty buffer, `first_draw` set |
| Playback.Player.Init | src/backup/galaxy_precomputed.c:31-37 | `galaxy_precomputed_init` stores the outcome of `fopen` at position 0 |
| Playback.Player.ReadChanges | src/backup/galaxy_precomputed.c:51 | `fread` of up to n records stores the whole records available (at most n) at the front of the buffer, and moves the position forward by n records or to the end of the file |
| Playback.Player.ReadCount | src/backup/galaxy_precomputed.c:64-67 | `fread` of one `uint16_t` succeeds exactly when two bytes remain |
| Playback.Player.LoadBuffer | src/backup/galaxy_precomputed.c:39-57 | `load_buffer` performs `Load` |
| Playback.Player.StartNextFrame | src/backup/galaxy_precomputed.c:59-77 | `start_next_frame` performs `NextFrame` |
| Playback.Player.Draw | src/backup/galaxy_precomputed.c:79-132 | `galaxy_precomputed_draw` performs `DrawStep`, and reports the one-time screen clear |
| Playback.Player.DrawPixels | src/backup/galaxy_precomputed.c:103-131 | the drawing loop performs `Drain` from zero writes |

## Left out

- `update_geometric_orbit` is declared with a trailing `uint8_t omega` parameter (src/physics.h:15) that its definition (src/physics.c:101) does not have. The model follows the definition.
- `SIN_LUT` lives in `tables.h`, which is not part of this model. It is the parameter type `SinLut`, and the only facts known about it are its range [-256, 256] and its entries at 0, 64, 128 and 192.
- The RIA ports, `xram0_struct_set` and XRAM are not modelled as devices. Writes through `RIA.rw0`/`rw1` are stores into an array (the bitmap, or the whole of XRAM for the older field). The sprite record is a field holding a value.
- `xregn` (src/sprites.c:44): the hardware plane set-up is not modelled.
- The `fopen`/`fread`/`fseek` calls are modelled on a byte sequence with a position, and `fopen` is an `Option` passed in. A `fread` that meets a partial trailing record reads no part of it. The partial bytes the C library might copy into the buffer are not modelled.
- The screen clear on the first `galaxy_precomputed_draw` call (src/backup/galaxy_precomputed.c:82-86) is reported as a flag returned by `Player.Draw`. The bitmap it writes is not modelled in the playback module.
- The host loops of src/main.c and src/main_precomputed.c are not part of this model. This covers vsync, the music, input reads, spawning and the reticle deltas.
- The graphics wrappers of src/graphics.c and the generators under tools/ are not part of this model.
- `galaxy_tick`, `galaxy_randomize`, `galaxy_infect`, `galaxy_heal`, `spawn_enemy`, `spawn_worker`, `update_enemies` and `update_workers` are declared in headers, but their bodies are not part of this model.
- Physics.VectorToAngle: its own contract states only the zero vector. The octant bands, axes and reflections are stated in the lemmas after it.
- Playback.Drain: its own contract gives the budget and the invariant only. What it writes is stated by `DrainPlays`.
- Galaxy.Redraw: its own contract gives the cache invariant only. The pixel and cache contents are stated by `ProcessCellEffect`.

## Findings

| source | as written | input that shows it | evidently intended | confidence | as-written member | corrected member |
|---|---|---|---|---|---|---|
| src/backup/galaxy.c:172-181 | each decay batch fades 2500 cells from `decay_ptr`, and the pointer resets only once it reaches 57600, so the batch at 57500 runs to 59999 | `decay_ptr` = 57500: cells 57600..59999 fade, including the palette at 0xE200 (its first byte goes from 10 to 9) | fade only the bitmap: clamp the last batch at 57600 | not executed | GalaxyDraft.DecayOverrunsPalette | GalaxyDraft.DecayCycleCoversBitmap |
| src/physics.c:43-44 | the absolute values are taken in `int16_t`, so `-(-32768)` wraps back to -32768 | every vector with a -32768 coordinate: `vector_to_angle(-32768, 0)` returns 64 (straight down), `(0, -32768)` returns 0, `(-32768, 5)` returns 13 and `(5, -32768)` returns 51 | the exact magnitudes: 128 and 192 on the axes, and the octant band elsewhere | not executed | Physics.VectorToAngleMinInt16 | Physics.VectorToAngleWide |
