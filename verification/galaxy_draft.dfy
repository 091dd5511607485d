/**
 * The older particle field of src/backup/galaxy.c. It draws straight into
 * the 64 KiB of XRAM behind the RIA ports:
 *   - a 320x180 bitmap of 8-bit intensities at address 0;
 *   - a 256-entry RGB555 palette at 0xE200.
 *
 * Each particle adds to its pixel with saturation (`plot`), and a batch of
 * 2500 cells fades by one step per update (`decay_screen`). Angles are 8.8
 * fixed point, and sines come from a signed 8-bit table scaled by two.
 *
 * XRAM is an array of bytes. `RIA.addr0`/`RIA.rw0` become plain index
 * reads and writes, and the auto-incrementing ports become loops over
 * consecutive addresses.
 */
module GalaxyDraft {
  import opened FixedPoint
  import GalaxyLut

  const DRAFT_N := 50
  const PARTICLE_BATCH_SIZE := 600
  const DECAY_BATCH_SIZE := 2500
  const SCREEN_W := 320
  const SCREEN_H := 180
  const BITMAP_SIZE := 57600
  const PALETTE_ADDR := 0xE200
  const XRAM_SIZE := 0x1_0000
  /** The intensity each particle adds to its pixel. */
  const PLOT_ADD := 16
  /** The step of `t` after a full sweep: 0.1 in 8.8, rounded down. */
  const T_STEP := 25

  // `sin_table`: sin(2 pi k / 256) * 127, split in quarter turns.
  const TABLE_Q0: seq<int> :=
      [0, 3, 6, 9, 12, 15, 18, 21, 24, 27, 30, 33, 36, 39, 42, 45]
    + [48, 51, 54, 57, 59, 62, 65, 67, 70, 73, 75, 78, 80, 82, 85, 87]
    + [89, 91, 94, 96, 98, 100, 102, 103, 105, 107, 108, 110, 112, 113, 114, 116]
    + [117, 118, 119, 120, 121, 122, 123, 123, 124, 125, 125, 126, 126, 126, 126, 126]
  const TABLE_Q1: seq<int> :=
      [127, 126, 126, 126, 126, 126, 125, 125, 124, 123, 123, 122, 121, 120, 119, 118]
    + [117, 116, 114, 113, 112, 110, 108, 107, 105, 103, 102, 100, 98, 96, 94, 91]
    + [89, 87, 85, 82, 80, 78, 75, 73, 70, 67, 65, 62, 59, 57, 54, 51]
    + [48, 45, 42, 39, 36, 33, 30, 27, 24, 21, 18, 15, 12, 9, 6, 3]
  const TABLE_Q2: seq<int> :=
      [0, -3, -6, -9, -12, -15, -18, -21, -24, -27, -30, -33, -36, -39, -42, -45]
    + [-48, -51, -54, -57, -59, -62, -65, -67, -70, -73, -75, -78, -80, -82, -85, -87]
    + [-89, -91, -94, -96, -98, -100, -102, -103, -105, -107, -108, -110, -112, -113, -114, -116]
    + [-117, -118, -119, -120, -121, -122, -123, -123, -124, -125, -125, -126, -126, -126, -126, -126]
  const TABLE_Q3: seq<int> :=
      [-127, -126, -126, -126, -126, -126, -125, -125, -124, -123, -123, -122, -121, -120, -119, -118]
    + [-117, -116, -114, -113, -112, -110, -108, -107, -105, -103, -102, -100, -98, -96, -94, -91]
    + [-89, -87, -85, -82, -80, -78, -75, -73, -70, -67, -65, -62, -59, -57, -54, -51]
    + [-48, -45, -42, -39, -36, -33, -30, -27, -24, -21, -18, -15, -12, -9, -6, -3]

  const SIN_TABLE: seq<int> := TABLE_Q0 + TABLE_Q1 + TABLE_Q2 + TABLE_Q3

  /** What the field relies on about `sin_table`: 256 `int8_t` entries in [-127, 127]. */
  predicate TableOk(tb: seq<int>) {
    |tb| == 256 && forall k | 0 <= k < 256 :: -127 <= tb[k] <= 127
  }

  /** Every entry of `q` lies in [lo, hi]. */
  predicate Within(q: seq<int>, lo: int, hi: int) {
    forall k | 0 <= k < |q| :: lo <= q[k] <= hi
  }

  lemma Quarter0Low()
    ensures forall k | 0 <= k < 16 :: 0 <= TABLE_Q0[k] <= 127
    ensures forall k | 16 <= k < 32 :: 0 <= TABLE_Q0[k] <= 127
  {
  }

  lemma Quarter0High()
    ensures forall k | 32 <= k < 48 :: 0 <= TABLE_Q0[k] <= 127
    ensures forall k | 48 <= k < 64 :: 0 <= TABLE_Q0[k] <= 127
  {
  }

  lemma Quarter0Bounds()
    ensures |TABLE_Q0| == 64 && Within(TABLE_Q0, 0, 127) && TABLE_Q0[0] == 0
  {
    Quarter0Low();
    Quarter0High();
  }

  lemma Quarter1Low()
    ensures forall k | 0 <= k < 16 :: 0 <= TABLE_Q1[k] <= 127
    ensures forall k | 16 <= k < 32 :: 0 <= TABLE_Q1[k] <= 127
  {
  }

  lemma Quarter1High()
    ensures forall k | 32 <= k < 48 :: 0 <= TABLE_Q1[k] <= 127
    ensures forall k | 48 <= k < 64 :: 0 <= TABLE_Q1[k] <= 127
  {
  }

  lemma Quarter1Bounds()
    ensures |TABLE_Q1| == 64 && Within(TABLE_Q1, 0, 127) && TABLE_Q1[0] == 127
  {
    Quarter1Low();
    Quarter1High();
  }

  lemma Quarter2Low()
    ensures forall k | 0 <= k < 16 :: -127 <= TABLE_Q2[k] <= 0
    ensures forall k | 16 <= k < 32 :: -127 <= TABLE_Q2[k] <= 0
  {
  }

  lemma Quarter2High()
    ensures forall k | 32 <= k < 48 :: -127 <= TABLE_Q2[k] <= 0
    ensures forall k | 48 <= k < 64 :: -127 <= TABLE_Q2[k] <= 0
  {
  }

  lemma Quarter2Bounds()
    ensures |TABLE_Q2| == 64 && Within(TABLE_Q2, -127, 0) && TABLE_Q2[0] == 0
  {
    Quarter2Low();
    Quarter2High();
  }

  lemma Quarter3Low()
    ensures forall k | 0 <= k < 16 :: -127 <= TABLE_Q3[k] <= 0
    ensures forall k | 16 <= k < 32 :: -127 <= TABLE_Q3[k] <= 0
  {
  }

  lemma Quarter3High()
    ensures forall k | 32 <= k < 48 :: -127 <= TABLE_Q3[k] <= 0
    ensures forall k | 48 <= k < 64 :: -127 <= TABLE_Q3[k] <= 0
  {
  }

  lemma Quarter3Bounds()
    ensures |TABLE_Q3| == 64 && Within(TABLE_Q3, -127, 0) && TABLE_Q3[0] == -127
  {
    Quarter3Low();
    Quarter3High();
  }

  /**
   * Four quarter turns, two non-negative and two non-positive, make a
   * table that meets `TableOk` and reads each quarter's first entry on
   * its axis.
   */
  lemma QuartersMakeTable(a: seq<int>, b: seq<int>, c: seq<int>, d: seq<int>)
    requires |a| == |b| == |c| == |d| == 64
    requires Within(a, 0, 127) && Within(b, 0, 127) && Within(c, -127, 0) && Within(d, -127, 0)
    ensures var tb := a + b + c + d;
      && TableOk(tb)
      && tb[0] == a[0] && tb[64] == b[0] && tb[128] == c[0] && tb[192] == d[0]
      && forall k | 0 <= k < 128 :: tb[k] >= 0
  {
    var tb := a + b + c + d;
    forall k | 0 <= k < 256
      ensures -127 <= tb[k] <= 127 && (k < 128 ==> tb[k] >= 0)
    {
      if k < 64 {
        assert tb[k] == a[k];
      } else if k < 128 {
        assert tb[k] == b[k - 64];
      } else if k < 192 {
        assert tb[k] == c[k - 128];
      } else {
        assert tb[k] == d[k - 192];
      }
    }
  }

  /** The literal table meets `TableOk`, is exact on the axes and is non-negative on the first half turn. */
  lemma SinTableOk()
    ensures TableOk(SIN_TABLE)
    ensures SIN_TABLE[0] == 0 && SIN_TABLE[64] == 127 && SIN_TABLE[128] == 0 && SIN_TABLE[192] == -127
    ensures forall k | 0 <= k < 128 :: SIN_TABLE[k] >= 0
  {
    Quarter0Bounds();
    Quarter1Bounds();
    Quarter2Bounds();
    Quarter3Bounds();
    QuartersMakeTable(TABLE_Q0, TABLE_Q1, TABLE_Q2, TABLE_Q3);
  }

  /**
   * The table index of an 8.8 angle: `(uint8_t)((int16_t)(a * 41) >> 8)`,
   * 41 being one radian in table steps. The multiply is 16-bit.
   */
  function Q88Index(a: int): (idx: Byte)
    ensures Abs(a) <= 799 ==> idx == ToByte((a * 41) / 256)
  {
    ToByte(ToInt16(a * 41) / 256)
  }

  /** `get_sin_q88`: the table entry doubled, as an 8.8 value in [-254, 254]. */
  function GetSinQ88(tb: seq<int>, a: int): (r: int)
    requires TableOk(tb)
    ensures r % 2 == 0 && -254 <= r <= 254
  {
    tb[Q88Index(a)] * 2
  }

  /** `get_cos_q88`: the entry a quarter turn (64 steps) after the sine's. */
  function GetCosQ88(tb: seq<int>, a: int): (r: int)
    requires TableOk(tb)
    ensures r % 2 == 0 && -254 <= r <= 254
  {
    tb[ToByte(ToInt16(a * 41) / 256 + 64)] * 2
  }

  /** At angle 0 the sine reads 0 and the cosine 254, just under 1.0. */
  lemma Q88AtZero()
    ensures TableOk(SIN_TABLE)
    ensures GetSinQ88(SIN_TABLE, 0) == 0 && GetCosQ88(SIN_TABLE, 0) == 254
  {
    SinTableOk();
  }

  /** The cosine is the sine a quarter turn on, for every 16-bit angle. */
  lemma CosIsShiftedSin(tb: seq<int>, a: int)
    requires TableOk(tb)
    ensures GetCosQ88(tb, a) == 2 * tb[ToByte(Q88Index(a) + 64)]
  {
    hide ToInt16, ToByte;
    ToByteAdd(ToInt16(a * 41) / 256, 64);
  }

  /**
   * The simulation statics `t`, `x`, `y` (8.8 values in `int16_t`) and the
   * particle cursor `cur_i`, `cur_j`.
   */
  datatype Sim = Sim(t: int, x: int, y: int, i: int, j: int)

  predicate SimOk(s: Sim) {
    IsInt16(s.t) && IsInt16(s.x) && IsInt16(s.y) && 0 <= s.i < DRAFT_N && 0 <= s.j < DRAFT_N
  }

  /** The state `galaxy_init` leaves before the warm-up, and the zeroed statics. */
  const START := Sim(0, 0, 0, 0, 0)

  /** A particle's two wave sums and the pixel it lands on. */
  datatype Dot = Dot(u: int, v: int, px: int, py: int)

  /**
   * The particle of row `row` for the current `x` and `y`. Row offset
   * `i << 8` and phase `i * 32` feed the four table reads, and the sums
   * map to the screen by `(w * 40) >> 8` around (160, 90). Every dot
   * lands well inside the 320x180 bitmap.
   */
  function Emit(tb: seq<int>, row: int, x: int, y: int): (d: Dot)
    requires TableOk(tb)
    ensures -508 <= d.u <= 508 && -508 <= d.v <= 508
    ensures 80 <= d.px < 240 && 10 <= d.py < 170
  {
    var iFp := row * 256;
    var riFp := row * 32;
    var u := GetSinQ88(tb, ToInt16(iFp + y)) + GetSinQ88(tb, ToInt16(riFp + x));
    var v := GetCosQ88(tb, ToInt16(iFp + y)) + GetCosQ88(tb, ToInt16(riFp + x));
    ScreenOffset(u);
    ScreenOffset(v);
    Dot(u, v, (u * 40) / 256 + 160, (v * 40) / 256 + 90)
  }

  /**
   * A particle formula: the dot of row `row` for the current `x` and `y`.
   * The loops below are stated for any formula; `Emitter` is the one the
   * field draws with.
   */
  type DotFn = (int, int, int) -> Dot

  function Emitter(tb: seq<int>): DotFn
    requires TableOk(tb)
  {
    (row, x, y) => Emit(tb, row, x, y)
  }

  /** `(w * 40) >> 8` stays in [-80, 79] for |w| <= 508, with no 16-bit wrap. */
  lemma ScreenOffset(w: int)
    requires -508 <= w <= 508
    ensures IsInt16(w * 40) && -80 <= (w * 40) / 256 <= 79
  {
    MulMono(40, -508, w);
    MulMono(40, w, 508);
  }

  /**
   * One trace of the particle at `row`: the new `x = u + t` and `y = v`,
   * and its dot plotted with `PLOT_ADD`. The cursor and `t` stay.
   */
  function Traced(f: DotFn, row: int, s: Sim, mem: seq<Byte>): (r: (Sim, seq<Byte>))
    requires SimOk(s) && 0 <= row < DRAFT_N && |mem| == XRAM_SIZE
    ensures SimOk(r.0) && |r.1| == XRAM_SIZE
    ensures (r.0.t, r.0.i, r.0.j) == (s.t, s.i, s.j)
  {
    var d := f(row, s.x, s.y);
    (s.(x := ToInt16(d.u + s.t), y := ToInt16(d.v)), Plotted(mem, d.px, d.py, PLOT_ADD))
  }

  /**
   * The cursor step of `galaxy_update` on (`cur_i`, `cur_j`, `t`):
   * `cur_j++`, carrying into `cur_i`, and after (49, 49) back to (0, 0)
   * with `t += 25`. `t` changes exactly on that wrap.
   */
  function NextCursor(i: int, j: int, t: int): (c: (int, int, int))
    requires 0 <= i < DRAFT_N && 0 <= j < DRAFT_N && IsInt16(t)
    ensures 0 <= c.0 < DRAFT_N && 0 <= c.1 < DRAFT_N && IsInt16(c.2)
    ensures c.0 * 50 + c.1 == (i * 50 + j + 1) % 2500
    ensures c.2 != t <==> (i, j) == (DRAFT_N - 1, DRAFT_N - 1)
    ensures c.2 != t ==> c.2 == ToInt16(t + T_STEP)
  {
    if j + 1 < DRAFT_N then (i, j + 1, t)
    else if i + 1 < DRAFT_N then (i + 1, 0, t)
    else (0, 0, ToInt16(t + T_STEP))
  }

  function Advance(s: Sim): (r: Sim)
    requires SimOk(s)
    ensures SimOk(r) && (r.x, r.y) == (s.x, s.y)
    ensures (r.i, r.j, r.t) == NextCursor(s.i, s.j, s.t)
  {
    var c := NextCursor(s.i, s.j, s.t);
    s.(i := c.0, j := c.1, t := c.2)
  }

  /** One iteration of the particle loop of `galaxy_update`. */
  function Step(f: DotFn, s: Sim, mem: seq<Byte>): (r: (Sim, seq<Byte>))
    requires SimOk(s) && |mem| == XRAM_SIZE
    ensures SimOk(r.0) && |r.1| == XRAM_SIZE
    ensures (r.0.i, r.0.j, r.0.t) == NextCursor(s.i, s.j, s.t)
  {
    var p := Traced(f, s.i, s, mem);
    (Advance(p.0), p.1)
  }

  /**
   * `n` iterations of the particle loop. (`mem` in the decreases clause,
   * here and in the warm-up functions, keeps the verifier from unrolling
   * a call whose count is a literal such as 2500.)
   */
  function Run(f: DotFn, s: Sim, mem: seq<Byte>, n: nat): (r: (Sim, seq<Byte>))
    requires SimOk(s) && |mem| == XRAM_SIZE
    ensures SimOk(r.0) && |r.1| == XRAM_SIZE
    decreases n, mem
  {
    if n == 0 then (s, mem)
    else
      var p := Run(f, s, mem, n - 1);
      Step(f, p.0, p.1)
  }

  /**
   * Where `n` particles put the cursor that starts at (`i`, `j`) with time
   * `t`: `n` places on in row-major order (mod 2500), with 25 added to `t`
   * for every wrap past (49, 49).
   */
  function CursorAfter(i: int, j: int, t: int, n: nat): (c: (int, int, int))
    requires 0 <= i < DRAFT_N && 0 <= j < DRAFT_N
    ensures 0 <= c.0 < DRAFT_N && 0 <= c.1 < DRAFT_N && IsInt16(c.2)
  {
    var p := i * 50 + j + n;
    var r := p % 2500;
    (r / 50, r % 50, ToInt16(t + 25 * (p / 2500)))
  }

  /** One more particle moves the closed-form cursor one place on. */
  lemma NextCursorAfter(i: int, j: int, t: int, n: nat)
    requires 0 <= i < DRAFT_N && 0 <= j < DRAFT_N
    ensures var c := CursorAfter(i, j, t, n); NextCursor(c.0, c.1, c.2) == CursorAfter(i, j, t, n + 1)
  {
    var p := i * 50 + j + n;
    var q, m := p / 2500, p % 2500;
    var c := CursorAfter(i, j, t, n);
    assert c.0 * 50 + c.1 == m;
    assert p + 1 == 2500 * q + m + 1;
    if m == 2499 {
      assert p + 1 == 2500 * (q + 1);
      assert (p + 1) / 2500 == q + 1 && (p + 1) % 2500 == 0;
      ToInt16Add(t + 25 * q, 25);
    } else {
      assert (p + 1) / 2500 == q && (p + 1) % 2500 == m + 1;
      assert c.1 + 1 < DRAFT_N ==> (m + 1) / 50 == c.0 && (m + 1) % 50 == c.1 + 1;
      assert c.1 + 1 == DRAFT_N ==> (m + 1) / 50 == c.0 + 1 && (m + 1) % 50 == 0;
    }
  }

  /** The cursor walk itself: `n` applications of `NextCursor`. */
  function Walk(i: int, j: int, t: int, n: nat): (c: (int, int, int))
    requires 0 <= i < DRAFT_N && 0 <= j < DRAFT_N && IsInt16(t)
    ensures 0 <= c.0 < DRAFT_N && 0 <= c.1 < DRAFT_N && IsInt16(c.2)
    decreases n
  {
    if n == 0 then (i, j, t)
    else
      var c := Walk(i, j, t, n - 1);
      NextCursor(c.0, c.1, c.2)
  }

  /** The walk has the closed form `CursorAfter`. */
  lemma {:induction false} WalkClosedForm(i: int, j: int, t: int, n: nat)
    requires 0 <= i < DRAFT_N && 0 <= j < DRAFT_N && IsInt16(t)
    ensures Walk(i, j, t, n) == CursorAfter(i, j, t, n)
  {
    if n == 0 {
      var p := i * 50 + j;
      assert p % 2500 == p && p / 2500 == 0;
      return;
    }
    var m := n - 1;
    WalkClosedForm(i, j, t, m);
    NextCursorAfter(i, j, t, m);
    WalkUnfold(i, j, t, m, n);
  }

  lemma WalkUnfold(i: int, j: int, t: int, m: nat, n: nat)
    requires 0 <= i < DRAFT_N && 0 <= j < DRAFT_N && IsInt16(t) && n == m + 1
    ensures var c := Walk(i, j, t, m); Walk(i, j, t, n) == NextCursor(c.0, c.1, c.2)
  {
  }

  lemma {:induction false} RunWalks(f: DotFn, s: Sim, mem: seq<Byte>, n: nat)
    requires SimOk(s) && |mem| == XRAM_SIZE
    ensures var r := Run(f, s, mem, n).0; (r.i, r.j, r.t) == Walk(s.i, s.j, s.t, n)
  {
    if n > 0 {
      RunWalks(f, s, mem, n - 1);
      var p := Run(f, s, mem, n - 1);
      assert Run(f, s, mem, n) == Step(f, p.0, p.1);
    }
  }

  /** After `n` particles the update loop's cursor and `t` are `CursorAfter(.., n)`. */
  lemma RunCursor(f: DotFn, s: Sim, mem: seq<Byte>, n: nat)
    requires SimOk(s) && |mem| == XRAM_SIZE
    ensures var r := Run(f, s, mem, n).0; (r.i, r.j, r.t) == CursorAfter(s.i, s.j, s.t, n)
  {
    RunWalks(f, s, mem, n);
    WalkClosedForm(s.i, s.j, s.t, n);
  }

  /** 2500 particles, a full sweep, bring the cursor home and add 25 to `t`. */
  lemma FullSweep(i: int, j: int, t: int)
    requires 0 <= i < DRAFT_N && 0 <= j < DRAFT_N
    ensures CursorAfter(i, j, t, 2500) == (i, j, ToInt16(t + T_STEP))
  {
    var p := i * 50 + j;
    assert (p + 2500) % 2500 == p && (p + 2500) / 2500 == 1;
  }

  /**
   * The inner loop of the warm-up in `galaxy_init`: the first `j`
   * particles of row `row`, traced from `s`. The cursor and `t` stay.
   */
  function WarmRow(f: DotFn, row: int, s: Sim, mem: seq<Byte>, j: nat): (r: (Sim, seq<Byte>))
    requires 0 <= row < DRAFT_N && SimOk(s) && |mem| == XRAM_SIZE
    ensures SimOk(r.0) && |r.1| == XRAM_SIZE
    ensures (r.0.t, r.0.i, r.0.j) == (s.t, s.i, s.j)
    decreases j, mem
  {
    if j == 0 then (s, mem)
    else
      var p := WarmRow(f, row, s, mem, j - 1);
      Traced(f, row, p.0, p.1)
  }

  /**
   * The warm-up's outer loop: the first `rows` rows, 50 particles each,
   * from the zeroed statics, with `t` held at 0 and the cursor at (0, 0).
   */
  function Warm(f: DotFn, mem: seq<Byte>, rows: nat): (r: (Sim, seq<Byte>))
    requires |mem| == XRAM_SIZE && rows <= DRAFT_N
    ensures SimOk(r.0) && |r.1| == XRAM_SIZE
    ensures (r.0.t, r.0.i, r.0.j) == (0, 0, 0)
    decreases rows, mem
  {
    if rows == 0 then (START, mem)
    else
      var p := Warm(f, mem, rows - 1);
      WarmRow(f, rows - 1, p.0, p.1, 50)
  }

  /** A trace reads `x`, `y` and `t` only: the cursor passes through untouched. */
  lemma TracedIgnoresCursor(f: DotFn, row: int, s: Sim, mem: seq<Byte>, i: int, j: int)
    requires SimOk(s) && 0 <= row < DRAFT_N && |mem| == XRAM_SIZE
    requires 0 <= i < DRAFT_N && 0 <= j < DRAFT_N
    ensures var p, q := Traced(f, row, s, mem), Traced(f, row, s.(i := i, j := j), mem);
      q == (p.0.(i := i, j := j), p.1)
  {
  }

  /** So does a row of the warm-up. */
  lemma {:induction false} WarmRowIgnoresCursor(f: DotFn, row: int, s: Sim, mem: seq<Byte>, n: nat, i: int, j: int)
    requires 0 <= row < DRAFT_N && SimOk(s) && |mem| == XRAM_SIZE
    requires 0 <= i < DRAFT_N && 0 <= j < DRAFT_N
    ensures var p, q := WarmRow(f, row, s, mem, n), WarmRow(f, row, s.(i := i, j := j), mem, n);
      q == (p.0.(i := i, j := j), p.1)
  {
    if n > 0 {
      var m := n - 1;
      WarmRowIgnoresCursor(f, row, s, mem, m, i, j);
      WarmRowUnfold(f, row, s, mem, m, n);
      WarmRowUnfold(f, row, s.(i := i, j := j), mem, m, n);
      var p := WarmRow(f, row, s, mem, m);
      TracedIgnoresCursor(f, row, p.0, p.1, i, j);
    }
  }

  /** One more particle of a warm-up row is one more trace. */
  lemma WarmRowUnfold(f: DotFn, row: int, s: Sim, mem: seq<Byte>, m: nat, n: nat)
    requires 0 <= row < DRAFT_N && SimOk(s) && |mem| == XRAM_SIZE && n == m + 1
    ensures var p := WarmRow(f, row, s, mem, m); WarmRow(f, row, s, mem, n) == Traced(f, row, p.0, p.1)
  {
  }

  /** One more warm-up row is one more `WarmRow`. */
  lemma WarmUnfold(f: DotFn, mem: seq<Byte>, m: nat, n: nat)
    requires |mem| == XRAM_SIZE && n == m + 1 && n <= DRAFT_N
    ensures var p := Warm(f, mem, m); Warm(f, mem, n) == WarmRow(f, m, p.0, p.1, 50)
  {
  }

  /**
   * Within a row the update loop does what the warm-up's inner loop
   * does, with its cursor walking along the row: `j < 50` particles from
   * (`row`, 0) leave the cursor at (`row`, `j`).
   */
  lemma {:induction false} RowIsRun(f: DotFn, row: int, s: Sim, mem: seq<Byte>, j: nat)
    requires SimOk(s) && |mem| == XRAM_SIZE
    requires s.i == row && s.j == 0 && j < DRAFT_N
    ensures var w := WarmRow(f, row, s, mem, j); Run(f, s, mem, j) == (w.0.(j := j), w.1)
  {
    if j == 0 {
      assert s.(j := j) == s;
      assert Run(f, s, mem, j) == (s, mem);
      assert WarmRow(f, row, s, mem, j) == (s, mem);
      return;
    }
    var m := j - 1;
    RowIsRun(f, row, s, mem, m);
    RowStep(f, row, s, mem, m, j);
    var w := WarmRow(f, row, s, mem, j);
    assert NextCursor(row, m, s.t) == (w.0.i, j, w.0.t);
  }

  /** The step of `RowIsRun`, and with `j == 50` the particle that leaves the row. */
  lemma RowStep(f: DotFn, row: int, s: Sim, mem: seq<Byte>, m: nat, j: nat)
    requires SimOk(s) && |mem| == XRAM_SIZE
    requires s.i == row && s.j == 0 && j == m + 1 && j <= DRAFT_N
    requires var w := WarmRow(f, row, s, mem, m); Run(f, s, mem, m) == (w.0.(j := m), w.1)
    ensures var w, c := WarmRow(f, row, s, mem, j), NextCursor(row, m, s.t);
      Run(f, s, mem, j) == (w.0.(i := c.0, j := c.1, t := c.2), w.1)
  {
    WarmRowUnfold(f, row, s, mem, m, j);
    RunUnfold(f, s, mem, m, j);
    var w := WarmRow(f, row, s, mem, m);
    TracedIgnoresCursor(f, row, w.0, w.1, row, m);
  }

  /** Running `a` then `b` particles is running `a + b`. */
  lemma {:induction false} RunSplit(f: DotFn, s: Sim, mem: seq<Byte>, a: nat, b: nat, n: nat)
    requires SimOk(s) && |mem| == XRAM_SIZE && a + b == n
    ensures Run(f, s, mem, n) == Run(f, Run(f, s, mem, a).0, Run(f, s, mem, a).1, b)
  {
    if b > 0 {
      var m, c := n - 1, b - 1;
      RunSplit(f, s, mem, a, c, m);
      RunUnfold(f, s, mem, m, n);
      RunUnfold(f, Run(f, s, mem, a).0, Run(f, s, mem, a).1, c, b);
    } else {
      assert n == a;
    }
  }

  /** One more particle is one more step. */
  lemma RunUnfold(f: DotFn, s: Sim, mem: seq<Byte>, m: nat, n: nat)
    requires SimOk(s) && |mem| == XRAM_SIZE && n == m + 1
    ensures Run(f, s, mem, n) == Step(f, Run(f, s, mem, m).0, Run(f, s, mem, m).1)
  {
  }

  /**
   * The warm-up is the first sweep of the update loop, except for where
   * it leaves the cursor and `t`: run from the zeroed statics, the update
   * loop draws the same pixels and reaches the same `x` and `y` row by
   * row, with its cursor at the start of the next row.
   */
  lemma {:induction false} WarmRowsAreRun(f: DotFn, mem: seq<Byte>, rows: nat)
    requires |mem| == XRAM_SIZE && rows < DRAFT_N
    ensures var w := Warm(f, mem, rows);
      Run(f, START, mem, rows * 50) == (w.0.(i := rows), w.1)
  {
    if rows == 0 {
      assert rows * 50 == 0;
      return;
    }
    var m, n := rows - 1, rows * 50;
    var a := m * 50;
    assert n == a + 50;
    WarmRowsAreRun(f, mem, m);
    LastRowIsRun(f, mem, m, a, n);
    WarmUnfold(f, mem, m, rows);
    assert NextCursor(m, DRAFT_N - 1, 0) == (rows, 0, 0);
  }

  /** The step of `WarmRowsAreRun`: one more row of the warm-up is 50 more particles. */
  lemma LastRowIsRun(f: DotFn, mem: seq<Byte>, row: nat, a: nat, n: nat)
    requires |mem| == XRAM_SIZE && row < DRAFT_N && a == row * 50 && n == a + 50
    requires var w := Warm(f, mem, row); Run(f, START, mem, a) == (w.0.(i := row), w.1)
    ensures var w, c := Warm(f, mem, row + 1), NextCursor(row, DRAFT_N - 1, 0);
      Run(f, START, mem, n) == (w.0.(i := c.0, j := c.1, t := c.2), w.1)
  {
    var w := Warm(f, mem, row);
    var s := w.0.(i := row, j := 0);
    var b, m := 50, 49;
    RunSplit(f, START, mem, a, b, n);
    RowIsRun(f, row, s, w.1, m);
    RowStep(f, row, s, w.1, m, b);
    WarmRowIgnoresCursor(f, row, w.0, w.1, b, row, 0);
    WarmUnfold(f, mem, row, row + 1);
  }

  /**
   * The whole warm-up is exactly the first full sweep of the update loop,
   * which in addition adds 25 to `t`.
   */
  lemma WarmUpIsFirstSweep(f: DotFn, mem: seq<Byte>)
    requires |mem| == XRAM_SIZE
    ensures var w := Warm(f, mem, DRAFT_N);
      Run(f, START, mem, 2500) == (w.0.(t := T_STEP), w.1)
  {
    var row, a, n := DRAFT_N - 1, 2450, 2500;
    WarmRowsAreRun(f, mem, row);
    assert row * 50 == a;
    LastRowIsRun(f, mem, row, a, n);
  }

  /** Neither the warm-up nor the update loop writes outside the bitmap. */
  lemma {:induction false} RunStaysInBitmap(f: DotFn, s: Sim, mem: seq<Byte>, n: nat)
    requires SimOk(s) && |mem| == XRAM_SIZE
    ensures forall a | BITMAP_SIZE <= a < XRAM_SIZE :: Run(f, s, mem, n).1[a] == mem[a]
  {
    if n > 0 {
      var m := n - 1;
      RunStaysInBitmap(f, s, mem, m);
      RunUnfold(f, s, mem, m, n);
      var p := Run(f, s, mem, m);
      var d := f(p.0.i, p.0.x, p.0.y);
      assert Run(f, s, mem, n).1 == Plotted(p.1, d.px, d.py, PLOT_ADD);
    }
  }

  lemma {:induction false} WarmRowStaysInBitmap(f: DotFn, row: int, s: Sim, mem: seq<Byte>, j: nat)
    requires 0 <= row < DRAFT_N && SimOk(s) && |mem| == XRAM_SIZE
    ensures forall a | BITMAP_SIZE <= a < XRAM_SIZE :: WarmRow(f, row, s, mem, j).1[a] == mem[a]
  {
    if j > 0 {
      var m := j - 1;
      WarmRowStaysInBitmap(f, row, s, mem, m);
      WarmRowUnfold(f, row, s, mem, m, j);
      var p := WarmRow(f, row, s, mem, m);
      var d := f(row, p.0.x, p.0.y);
      assert WarmRow(f, row, s, mem, j).1 == Plotted(p.1, d.px, d.py, PLOT_ADD);
    }
  }

  lemma {:induction false} WarmStaysInBitmap(f: DotFn, mem: seq<Byte>, rows: nat)
    requires |mem| == XRAM_SIZE && rows <= DRAFT_N
    ensures forall a | BITMAP_SIZE <= a < XRAM_SIZE :: Warm(f, mem, rows).1[a] == mem[a]
  {
    if rows > 0 {
      var m := rows - 1;
      WarmStaysInBitmap(f, mem, m);
      WarmUnfold(f, mem, m, rows);
      var p := Warm(f, mem, m);
      WarmRowStaysInBitmap(f, m, p.0, p.1, 50);
    }
  }

  predicate OnScreen(px: int, py: int) {
    0 <= px < SCREEN_W && 0 <= py < SCREEN_H
  }

  /** The bitmap address of an on-screen pixel, row-major from address 0. */
  function PixelAt(px: int, py: int): (a: int)
    requires OnScreen(px, py)
    ensures 0 <= a < BITMAP_SIZE
  {
    MulMono(SCREEN_W, py, SCREEN_H - 1);
    py * SCREEN_W + px
  }

  /**
   * `plot`: an off-screen pixel (the unsigned compare also rejects negative
   * coordinates) leaves memory alone; an on-screen one becomes
   * `min(current + add, 255)`, so 255 stays 255. No other byte changes.
   */
  function Plotted(mem: seq<Byte>, px: int, py: int, add: Byte): (r: seq<Byte>)
    requires |mem| == XRAM_SIZE
    ensures |r| == XRAM_SIZE
    ensures !OnScreen(px, py) ==> r == mem
    ensures OnScreen(px, py) ==>
      && r[PixelAt(px, py)] == Min(mem[PixelAt(px, py)] + add, 255)
      && forall a | 0 <= a < XRAM_SIZE && a != PixelAt(px, py) :: r[a] == mem[a]
  {
    if !OnScreen(px, py) then mem
    else
      var a := PixelAt(px, py);
      if mem[a] < 255 then mem[a := Min(mem[a] + add, 255)] else mem
  }

  /** Plotting never darkens a pixel. */
  lemma PlotBrightens(mem: seq<Byte>, px: int, py: int, add: Byte, a: int)
    requires |mem| == XRAM_SIZE && 0 <= a < XRAM_SIZE
    ensures mem[a] <= Plotted(mem, px, py, add)[a]
  {
  }

  /** One fade step of `decay_screen`: a non-zero intensity drops by one. */
  function Faded(v: Byte): (r: Byte)
    ensures r == Max(v - 1, 0)
  {
    if v > 0 then v - 1 else 0
  }

  /** The cells in [lo, hi) faded by one step, everything else kept. */
  function DecayRange(mem: seq<Byte>, lo: int, hi: int): (r: seq<Byte>)
    requires 0 <= lo <= hi <= |mem|
    ensures |r| == |mem|
    ensures forall a | 0 <= a < |mem| :: r[a] == if lo <= a < hi then Faded(mem[a]) else mem[a]
  {
    var faded := seq<Byte>(hi - lo, k requires 0 <= k < hi - lo => Faded(mem[lo + k]));
    mem[..lo] + faded + mem[hi..]
  }

  /** The values `decay_ptr` takes: multiples of 2500 below the bitmap size. */
  predicate DecayPtrOk(p: int) {
    0 <= p < BITMAP_SIZE && p % DECAY_BATCH_SIZE == 0
  }

  /** `decay_ptr += 2500`, back to 0 once it reaches the bitmap size. */
  function NextDecayPtr(p: int): (q: int)
    requires DecayPtrOk(p)
    ensures DecayPtrOk(q)
    ensures q == 0 <==> p == 57500
  {
    if p + DECAY_BATCH_SIZE >= BITMAP_SIZE then 0 else p + DECAY_BATCH_SIZE
  }

  /** `decay_screen` as written: 2500 cells from `decay_ptr`, however close to the end. */
  function DecayBatchAsWritten(mem: seq<Byte>, p: int): (r: seq<Byte>)
    requires |mem| == XRAM_SIZE && DecayPtrOk(p)
    ensures |r| == XRAM_SIZE
    ensures forall a | 0 <= a < XRAM_SIZE :: r[a] == if p <= a < p + DECAY_BATCH_SIZE then Faded(mem[a]) else mem[a]
  {
    DecayRange(mem, p, p + DECAY_BATCH_SIZE)
  }

  /**
   * The last batch, from 57500, runs 2400 cells past the bitmap: it fades
   * the palette too. Right after `galaxy_init` palette entry 0 reads 10
   * (blue), and that batch turns it into 9.
   */
  lemma DecayOverrunsPalette(mem: seq<Byte>)
    requires |mem| == XRAM_SIZE
    ensures DecayPtrOk(57500)
    ensures WithPalette(mem)[PALETTE_ADDR] == 10
    ensures DecayBatchAsWritten(WithPalette(mem), 57500)[PALETTE_ADDR] == 9
  {
    assert PaletteByte(0) == 10;
  }

  /** `decay_screen` clamped to the bitmap: the batch stops at its end. */
  function DecayBatch(mem: seq<Byte>, p: int): (r: seq<Byte>)
    requires |mem| == XRAM_SIZE && DecayPtrOk(p)
    ensures |r| == XRAM_SIZE
    ensures forall a | 0 <= a < XRAM_SIZE :: r[a] == if p <= a < Min(p + DECAY_BATCH_SIZE, BITMAP_SIZE) then Faded(mem[a]) else mem[a]
  {
    DecayRange(mem, p, Min(p + DECAY_BATCH_SIZE, BITMAP_SIZE))
  }

  /**
   * The code and the clamped batch differ only on the last batch of the
   * cycle, and there exactly when one of the 2400 cells past the bitmap
   * holds a non-zero byte.
   */
  lemma DecayBatchMatchesBelowLast(mem: seq<Byte>, p: int)
    requires |mem| == XRAM_SIZE && DecayPtrOk(p)
    ensures p != 57500 ==> DecayBatchAsWritten(mem, p) == DecayBatch(mem, p)
    ensures p == 57500 ==>
      (DecayBatchAsWritten(mem, p) == DecayBatch(mem, p) <==>
       forall a | BITMAP_SIZE <= a < p + DECAY_BATCH_SIZE :: mem[a] == 0)
  {
    var w, c := DecayBatchAsWritten(mem, p), DecayBatch(mem, p);
    if p != 57500 {
      assert p + DECAY_BATCH_SIZE <= BITMAP_SIZE by {
        var m := p / DECAY_BATCH_SIZE;
        assert p == m * DECAY_BATCH_SIZE;
      }
      assert forall a | 0 <= a < XRAM_SIZE :: w[a] == c[a];
    } else {
      if forall a | BITMAP_SIZE <= a < p + DECAY_BATCH_SIZE :: mem[a] == 0 {
        assert forall a | 0 <= a < XRAM_SIZE :: w[a] == c[a];
        assert w == c;
      }
      if w == c {
        forall a | BITMAP_SIZE <= a < p + DECAY_BATCH_SIZE
          ensures mem[a] == 0
        {
          assert w[a] == Faded(mem[a]) && c[a] == mem[a];
        }
      }
    }
  }

  /**
   * With the clamp, the batches of one cycle of `decay_ptr` (0, 2500, ...,
   * 57500) split the bitmap exactly: every cell belongs to exactly one
   * batch, and no batch reaches past the bitmap.
   */
  lemma DecayCycleCoversBitmap(a: int)
    requires 0 <= a < BITMAP_SIZE
    ensures var p := (a / 2500) * 2500;
      && DecayPtrOk(p) && p <= a < Min(p + DECAY_BATCH_SIZE, BITMAP_SIZE)
      && forall q | DecayPtrOk(q) && q <= a < q + DECAY_BATCH_SIZE :: q == p
  {
    var k := a / 2500;
    var p := k * 2500;
    assert a == p + a % 2500;
    assert 0 <= k < 24;
    forall q | DecayPtrOk(q) && q <= a < q + DECAY_BATCH_SIZE
      ensures q == p
    {
      var m := q / 2500;
      assert q == m * 2500;
      assert m == k;
    }
  }

  /** The three 5-bit channels of an RGB555 palette entry. */
  datatype Rgb = Rgb(r: int, g: int, b: int)

  predicate Channels5(c: Rgb) {
    0 <= c.r <= 31 && 0 <= c.g <= 31 && 0 <= c.b <= 31
  }

  /**
   * The colour ramp of `galaxy_init`. Entries 0-63 fade in blue, 64-84
   * add green, 85-169 add red over full green and blue, and 170-255 are
   * white. Each channel is clamped at 31.
   */
  function PaletteRgb(i: Byte): (c: Rgb)
    ensures Channels5(c)
    ensures i >= 170 ==> c == Rgb(31, 31, 31)
  {
    if i < 64 then Rgb(0, 0, Min(i / 2 + 10, 31))
    else if i < 85 then Rgb(0, Min(i / 3, 31), Min(i / 2 + 10, 31))
    else if i < 170 then Rgb(Min((i - 85) / 2, 31), 31, 31)
    else Rgb(31, 31, 31)
  }

  /** `(r << 10) | (g << 5) | b`; the fields do not overlap, so the or is a sum. */
  function Pack(c: Rgb): (w: Word)
    requires Channels5(c)
    ensures w < 0x8000
  {
    c.r * 1024 + c.g * 32 + c.b
  }

  /** A packed entry gives its three channels back. */
  lemma UnpackPack(c: Rgb)
    requires Channels5(c)
    ensures Pack(c) / 1024 == c.r && (Pack(c) / 32) % 32 == c.g && Pack(c) % 32 == c.b
  {
    var w := Pack(c);
    assert w == 32 * (c.r * 32 + c.g) + c.b;
    assert w / 32 == c.r * 32 + c.g;
  }

  /** Palette entry `i`: bit 15 is clear, and entries 170-255 are white (0x7FFF). */
  function PaletteColor(i: Byte): (w: Word)
    ensures w < 0x8000
    ensures i >= 170 ==> w == 0x7FFF
  {
    Pack(PaletteRgb(i))
  }

  /** The ramp only brightens: no channel decreases along the palette. */
  lemma PaletteBrightens(i: Byte, k: Byte)
    requires i <= k
    ensures var c, d := PaletteRgb(i), PaletteRgb(k);
      c.r <= d.r && c.g <= d.g && c.b <= d.b
  {
  }

  /** Byte `k` of the palette block, entries little-endian: low byte, then high byte. */
  function PaletteByte(k: int): (v: Byte)
    requires 0 <= k < 512
    ensures k % 2 == 0 ==> v == PaletteColor(k / 2) % 256
    ensures k % 2 == 1 ==> v == PaletteColor(k / 2) / 256
  {
    var w := PaletteColor(k / 2);
    if k % 2 == 0 then w % 256 else w / 256
  }

  /** Byte `a` of XRAM once the palette block is written over `mem`. */
  function PaletteOver(mem: seq<Byte>, a: int): Byte
    requires |mem| == XRAM_SIZE && 0 <= a < XRAM_SIZE
  {
    if PALETTE_ADDR <= a < PALETTE_ADDR + 512 then PaletteByte(a - PALETTE_ADDR) else mem[a]
  }

  /** XRAM with the 512-byte palette written at `PALETTE_ADDR`. */
  function WithPalette(mem: seq<Byte>): (r: seq<Byte>)
    requires |mem| == XRAM_SIZE
    ensures |r| == XRAM_SIZE
    ensures forall i: Byte :: r[PALETTE_ADDR + 2 * i] as int + 256 * (r[PALETTE_ADDR + 2 * i + 1] as int) == PaletteColor(i)
    ensures forall a | 0 <= a < XRAM_SIZE && !(PALETTE_ADDR <= a < PALETTE_ADDR + 512) :: r[a] == mem[a]
    ensures forall a | PALETTE_ADDR <= a < PALETTE_ADDR + 512 :: r[a] == PaletteByte(a - PALETTE_ADDR)
  {
    hide PaletteColor;
    var r := seq(XRAM_SIZE, a requires 0 <= a < XRAM_SIZE => PaletteOver(mem, a));
    forall i: Byte
      ensures r[PALETTE_ADDR + 2 * i] as int + 256 * (r[PALETTE_ADDR + 2 * i + 1] as int) == PaletteColor(i)
    {
      PaletteBytePair(i);
    }
    r
  }

  /** The two bytes of entry `i` put back together give its colour. */
  lemma PaletteBytePair(i: Byte)
    ensures PaletteByte(2 * i) as int + 256 * (PaletteByte(2 * i + 1) as int) == PaletteColor(i)
  {
    hide PaletteColor;
    assert (2 * i) / 2 == i && (2 * i) % 2 == 0 && (2 * i + 1) / 2 == i && (2 * i + 1) % 2 == 1;
  }

  /** XRAM with the bitmap cleared to 0. */
  function Cleared(mem: seq<Byte>): (r: seq<Byte>)
    requires |mem| == XRAM_SIZE
    ensures |r| == XRAM_SIZE
    ensures forall a | 0 <= a < XRAM_SIZE :: r[a] == if a < BITMAP_SIZE then 0 else mem[a]
  {
    seq(BITMAP_SIZE, _ => 0) + mem[BITMAP_SIZE..]
  }

  /**
   * `galaxy_init` from memory `mem`: the palette, then a black bitmap, then
   * the warm-up sweep. The palette survives the clear and the warm-up.
   */
  lemma InitKeepsPalette(f: DotFn, mem: seq<Byte>)
    requires |mem| == XRAM_SIZE
    ensures var r := Warm(f, Cleared(WithPalette(mem)), DRAFT_N).1;
      forall i: Byte :: r[PALETTE_ADDR + 2 * i] as int + 256 * (r[PALETTE_ADDR + 2 * i + 1] as int) == PaletteColor(i)
  {
    var m := Cleared(WithPalette(mem));
    WarmStaysInBitmap(f, m, DRAFT_N);
  }

  /** The state of src/backup/galaxy.c: its statics and the XRAM it draws into. */
  class Field {
    /** `sin_table`. */
    const table: seq<int>
    const xram: array<Byte>
    var t: int
    var x: int
    var y: int
    var curI: int
    var curJ: int
    var decayPtr: int
    var initialized: bool

    ghost function State(): Sim
      reads this
    {
      Sim(t, x, y, curI, curJ)
    }

    ghost predicate Valid()
      reads this
    {
      TableOk(table) && xram.Length == XRAM_SIZE && SimOk(State()) && DecayPtrOk(decayPtr)
    }

    /** The zero-initialised statics, not yet initialised, over XRAM `xram`. */
    constructor(xram: array<Byte>)
      requires xram.Length == XRAM_SIZE
      ensures Valid() && this.xram == xram && table == SIN_TABLE
      ensures State() == START && decayPtr == 0 && !initialized
    {
      SinTableOk();
      table := SIN_TABLE;
      this.xram := xram;
      t, x, y, curI, curJ := 0, 0, 0, 0, 0;
      decayPtr := 0;
      initialized := false;
    }

    /**
     * `galaxy_init`: write the palette, zero the simulation, clear the
     * bitmap, run the warm-up sweep and mark the field initialised.
     * `decay_ptr` is left where it was.
     */
    method Init()
      requires Valid()
      modifies this, xram
      ensures Valid() && initialized && decayPtr == old(decayPtr)
      ensures (State(), xram[..]) == Warm(Emitter(table), Cleared(WithPalette(old(xram[..]))), DRAFT_N)
    {
      WritePalette();
      t, x, y := 0, 0, 0;
      curI, curJ := 0, 0;
      ClearScreen();
      WarmUp();
      initialized := true;
    }

    /** The palette loop of `galaxy_init`, two bytes per entry through the auto-incrementing port. */
    method WritePalette()
      requires xram.Length == XRAM_SIZE
      modifies xram
      ensures xram[..] == WithPalette(old(xram[..]))
    {
      ghost var mem := xram[..];
      for i := 0 to 256
        invariant forall a | 0 <= a < XRAM_SIZE && !(PALETTE_ADDR <= a < PALETTE_ADDR + 2 * i) :: xram[a] == mem[a]
        invariant forall a | PALETTE_ADDR <= a < PALETTE_ADDR + 2 * i :: xram[a] == PaletteByte(a - PALETTE_ADDR)
      {
        var color := PaletteColor(i);
        assert PaletteByte(2 * i) == color % 256 && PaletteByte(2 * i + 1) == color / 256 by {
          assert (2 * i) / 2 == i && (2 * i) % 2 == 0 && (2 * i + 1) / 2 == i && (2 * i + 1) % 2 == 1;
        }
        xram[PALETTE_ADDR + 2 * i] := color % 256;
        xram[PALETTE_ADDR + 2 * i + 1] := color / 256;
      }
      ghost var r := WithPalette(mem);
      assert forall a | 0 <= a < XRAM_SIZE :: xram[a] == r[a];
      assert xram[..] == r;
    }

    /** The clear loop of `galaxy_init`. */
    method ClearScreen()
      requires xram.Length == XRAM_SIZE
      modifies xram
      ensures xram[..] == Cleared(old(xram[..]))
    {
      for k := 0 to BITMAP_SIZE
        invariant forall a | 0 <= a < XRAM_SIZE :: xram[a] == if a < k then 0 else old(xram[a])
      {
        xram[k] := 0;
      }
    }

    /** The warm-up of `galaxy_init`: every particle once, row by row, with `t` at 0. */
    method WarmUp()
      requires Valid() && State() == START
      modifies this, xram
      ensures Valid() && initialized == old(initialized) && decayPtr == old(decayPtr)
      ensures (State(), xram[..]) == Warm(Emitter(table), old(xram[..]), DRAFT_N)
    {
      ghost var mem := xram[..];
      for i := 0 to DRAFT_N
        invariant Valid() && initialized == old(initialized) && decayPtr == old(decayPtr)
        invariant (State(), xram[..]) == Warm(Emitter(table), mem, i)
      {
        WarmUpRow(i);
        WarmUnfold(Emitter(table), mem, i, i + 1);
      }
    }

    /** The inner loop of the warm-up: the 50 particles of row `i`. */
    method WarmUpRow(i: int)
      requires Valid() && 0 <= i < DRAFT_N
      modifies this, xram
      ensures Valid() && initialized == old(initialized) && decayPtr == old(decayPtr)
      ensures (State(), xram[..]) == WarmRow(Emitter(table), i, old(State()), old(xram[..]), DRAFT_N)
    {
      ghost var s0, m0 := State(), xram[..];
      for j := 0 to DRAFT_N
        invariant Valid() && initialized == old(initialized) && decayPtr == old(decayPtr)
        invariant (State(), xram[..]) == WarmRow(Emitter(table), i, s0, m0, j)
      {
        TraceParticle(i);
        WarmRowUnfold(Emitter(table), i, s0, m0, j, j + 1);
      }
    }

    /**
     * The body shared by the warm-up and `galaxy_update`: trace the
     * particle of row `row`, update `x` and `y`, and plot its dot.
     */
    method TraceParticle(row: int)
      requires Valid() && 0 <= row < DRAFT_N
      modifies this, xram
      ensures Valid() && initialized == old(initialized) && decayPtr == old(decayPtr)
      ensures (State(), xram[..]) == Traced(Emitter(table), row, old(State()), old(xram[..]))
    {
      hide GetSinQ88, GetCosQ88, Plotted;
      ghost var d := Emitter(table)(row, x, y);
      var iFp := row * 256;
      var riFp := row * 32;
      var u := GetSinQ88(table, ToInt16(iFp + y)) + GetSinQ88(table, ToInt16(riFp + x));
      var v := GetCosQ88(table, ToInt16(iFp + y)) + GetCosQ88(table, ToInt16(riFp + x));
      assert d.u == u && d.v == v;
      x := ToInt16(u + t);
      y := v;
      var px := (u * 40) / 256 + 160;
      var py := (y * 40) / 256 + 90;
      Plot(px, py, PLOT_ADD);
    }

    /** `plot`: a read-modify-write of one pixel with additive, saturating blending. */
    method Plot(px: int, py: int, add: Byte)
      requires xram.Length == XRAM_SIZE
      modifies xram
      ensures xram[..] == Plotted(old(xram[..]), px, py, add)
    {
      if !(0 <= px < SCREEN_W && 0 <= py < SCREEN_H) {
        return;
      }
      var addr := py * SCREEN_W + px;
      var current := xram[addr];
      if current < 255 {
        var v := current + add;
        if v > 255 {
          v := 255;
        }
        xram[addr] := v;
      }
    }

    /** The cursor step at the end of each particle in `galaxy_update`. */
    method AdvanceCursor()
      requires Valid()
      modifies this
      ensures Valid() && initialized == old(initialized) && decayPtr == old(decayPtr)
      ensures State() == Advance(old(State()))
    {
      curJ := curJ + 1;
      if curJ >= DRAFT_N {
        curJ := 0;
        curI := curI + 1;
        if curI >= DRAFT_N {
          curI := 0;
          t := ToInt16(t + T_STEP);
        }
      }
    }

    /**
     * `galaxy_update`: nothing before `galaxy_init`; afterwards 600
     * particles, then one decay batch, as written (unclamped).
     */
    method Update()
      requires Valid()
      modifies this, xram
      ensures Valid() && initialized == old(initialized)
      ensures !initialized ==> State() == old(State()) && xram[..] == old(xram[..]) && decayPtr == old(decayPtr)
      ensures initialized ==>
        var r := Run(Emitter(table), old(State()), old(xram[..]), PARTICLE_BATCH_SIZE);
        && State() == r.0
        && xram[..] == DecayBatchAsWritten(r.1, old(decayPtr))
        && decayPtr == NextDecayPtr(old(decayPtr))
    {
      hide Traced, Advance, Emit, Plotted, NextCursor, DecayBatchAsWritten, DecayRange, NextDecayPtr;
      if !initialized {
        return;
      }
      ghost var s0, mem := State(), xram[..];
      for k := 0 to PARTICLE_BATCH_SIZE
        invariant Valid() && initialized && decayPtr == old(decayPtr)
        invariant (State(), xram[..]) == Run(Emitter(table), s0, mem, k)
      {
        TraceParticle(curI);
        AdvanceCursor();
      }
      DecayScreen();
    }

    /**
     * `decay_screen`: fade the 2500 cells from `decay_ptr`, whether or not
     * they lie in the bitmap, then advance `decay_ptr`.
     */
    method DecayScreen()
      requires Valid()
      modifies this, xram
      ensures Valid() && State() == old(State()) && initialized == old(initialized)
      ensures xram[..] == DecayBatchAsWritten(old(xram[..]), old(decayPtr))
      ensures decayPtr == NextDecayPtr(old(decayPtr))
    {
      FadeCells(decayPtr, DECAY_BATCH_SIZE);
      decayPtr := decayPtr + DECAY_BATCH_SIZE;
      if decayPtr >= BITMAP_SIZE {
        decayPtr := 0;
      }
    }

    /** The dual-port loop of `decay_screen`: read a cell, fade it, write it back, `count` times from `addr`. */
    method FadeCells(addr: int, count: int)
      requires xram.Length == XRAM_SIZE && 0 <= addr && 0 <= count && addr + count <= XRAM_SIZE
      modifies xram
      ensures xram[..] == DecayRange(old(xram[..]), addr, addr + count)
    {
      for k := 0 to count
        invariant forall a | 0 <= a < XRAM_SIZE ::
          xram[a] == if addr <= a < addr + k then Faded(old(xram[a])) else old(xram[a])
      {
        var v := xram[addr + k];
        if v > 0 {
          v := v - 1;
        }
        xram[addr + k] := v;
      }
    }
  }
}
