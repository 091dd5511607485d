/**
 * The "galaxy" particle renderer of src/galaxy.c: 125 x 125 = 15625
 * particles traced by a coupled sine/cosine recurrence, drawn 25 per call
 * into the 320x180 8-bit bitmap at XRAM address 0. Each particle remembers
 * the pixel it last lit (`last_x`/`last_y`, 0xFFFF = nothing lit) so that it
 * can be erased the next time round.
 *
 * The file-level statics become the fields of `Renderer`; the bitmap is
 * the `screen` array that the RIA data port writes through. `Draw` is
 * proved against `DrawSpec`, a pure description of one call on a `Frame`
 * snapshot of that state, and the lemmas below are about `DrawSpec`.
 */
module Galaxy {
  import opened FixedPoint
  import opened GalaxyLut

  // Named constants are spelled as literals inside arithmetic, where the solver needs the number.
  const GALAXY_N := 125
  const CELLS := 15625  // GALAXY_N * GALAXY_N
  const BATCH_SIZE := 25
  const SCREEN_WIDTH := 320
  const SCREEN_HEIGHT := 180
  const BITMAP_SIZE := 57600  // SCREEN_WIDTH * SCREEN_HEIGHT
  /** `last_x` value of a particle that has nothing on screen. */
  const NOT_DRAWN := 0xFFFF

  /**
   * `(uint8_t)(((g >> 8) * 41) + ((g & 0xFF) * 41 >> 8))`: an 8.8 value
   * times 41/256, i.e. radians (41 is about 256 / 2 pi) turned into angle
   * bytes, with the integer and fraction parts scaled separately.
   */
  function ScaledAngle(g: int): (r: Byte)
    ensures r == ToByte((41 * g) / 256)
  {
    var q, m := g / 256, g % 256;
    assert 41 * g == 256 * (41 * q) + 41 * m;
    ToByte(q * 41 + (m * 41) / 256)
  }

  /** `angle_ri = (uint8_t)(((uint16_t)cur_i * 256) / 125)`: row i's share of the turn. */
  function RowAngle(i: int): (r: Byte)
    requires 0 <= i < GALAXY_N
    ensures 2 * i <= r <= 253
  {
    ToWord(i * 256) / 125
  }

  /** Distinct rows get distinct angles at least two units apart, spread over 0..253. */
  lemma RowAnglesSpread(i: int, i': int)
    requires 0 <= i < i' < GALAXY_N
    ensures RowAngle(i) + 2 <= RowAngle(i')
    ensures RowAngle(0) == 0 && RowAngle(GALAXY_N - 1) == 253
  {
    var a, b := i * 256, i' * 256;
    assert b - a >= 256;
    assert (a / 125) * 125 <= a;
    assert b < (b / 125 + 1) * 125;
  }

  /** `(uint8_t)(i_col_base + cur_j)` with `i_col_base = 16 + cur_i * 11`: one 8-bit truncation is enough. */
  function ColorOf(i: int, j: int): (c: Byte)
    ensures c == ToByte(16 + 11 * i + j)
  {
    hide ToByte;
    ToByteAdd(16 + i * 11, j);
    ToByte(ToByte(16 + i * 11) + j)
  }

  /** One particle's feedback step: the new accumulators and its screen position. */
  datatype Dot = Dot(gx: int, gy: int, sx: int, sy: int)

  /**
   * The two angle sums of one particle (row i) and their sines and
   * cosines added up: `u = s1 + s2`, `v = c1 + c2`, each within 2 * 960.
   */
  function Waves(tb: Tables, i: int, gx: int, gy: int): (w: (int, int))
    requires TablesOk(tb) && 0 <= i < GALAXY_N
    ensures -1920 <= w.0 <= 1920 && -1920 <= w.1 <= 1920
  {
    var angle1 := ToByte(ToByte(i * 41) as int + ScaledAngle(gy));
    var angle2 := ToByte(RowAngle(i) as int + ScaledAngle(gx));
    (LutSin(tb, angle1) + LutSin(tb, angle2), LutCos(tb, angle1) + LutCos(tb, angle2))
  }

  /**
   * From u and v: the x feedback is u/4 plus the time drift, the y
   * feedback v/4, and the pixel sits u/16, v/16 from the centre with y
   * squashed by a quarter.
   */
  function Place(u: int, v: int, t: int): (d: Dot)
    requires -1920 <= u <= 1920 && -1920 <= v <= 1920
    ensures IsInt16(d.gx) && -480 <= d.gy <= 480
    ensures -480 <= ToInt16(d.gx - t) <= 480
    ensures d.sx == 160 + ToInt16(d.gx - t) / 4
    ensures d.sy == 90 + d.gy / 4 - (d.gy / 4) / 4
    ensures 40 <= d.sx <= 280 && 0 <= d.sy <= 180
  {
    var syRaw := v / 16;
    ToInt16Add(u / 4 + t, -t);
    ShiftTwice(u);
    ShiftTwice(v);
    Dot(ToInt16(u / 4 + t), v / 4, 160 + u / 16, 90 + syRaw - syRaw / 4)
  }

  /** The CALC part of one particle: its new accumulators and pixel. */
  function Trace(tb: Tables, i: int, gx: int, gy: int, t: int): (d: Dot)
    requires TablesOk(tb) && 0 <= i < GALAXY_N
    ensures IsInt16(d.gx) && -480 <= d.gy <= 480
    ensures 40 <= d.sx <= 280 && 0 <= d.sy <= 180
  {
    var w := Waves(tb, i, gx, gy);
    Place(w.0, w.1, t)
  }

  /** The renderer's whole state at one moment, as values. */
  datatype Frame = Frame(screen: seq<Byte>, lastX: seq<Word>, lastY: seq<Byte>, firstFrame: bool,
                         t: int, gx: int, gy: int, i: int, j: int)

  /** Every cached position is either the "nothing lit" marker or a pixel of the bitmap. */
  predicate CacheOnScreen(lastX: seq<Word>, lastY: seq<Byte>)
    requires |lastX| == |lastY|
  {
    forall k | 0 <= k < |lastX| :: lastX[k] == NOT_DRAWN || (lastX[k] < SCREEN_WIDTH && lastY[k] < SCREEN_HEIGHT)
  }

  predicate Consistent(f: Frame) {
    && |f.screen| == BITMAP_SIZE && |f.lastX| == CELLS && |f.lastY| == CELLS
    && CacheOnScreen(f.lastX, f.lastY)
    && IsInt16(f.t) && IsInt16(f.gx) && IsInt16(f.gy)
    && 0 <= f.i < GALAXY_N && 0 <= f.j < GALAXY_N
  }

  /** The particle the cursor points at (`cur_i * 125 + cur_j`). */
  function CellIndex(f: Frame): int {
    f.i * 125 + f.j
  }

  /** `(uint16_t)(x + 320 * y)`. */
  function PixelAddress(x: int, y: int): (a: int)
    requires 0 <= x < SCREEN_WIDTH && 0 <= y < SCREEN_HEIGHT
    ensures 0 <= a < BITMAP_SIZE
    ensures a % 320 == x && a / 320 == y
  {
    ToWord(x + 320 * y)
  }

  /** Step 1: black out the pixel the current particle lit last time, if any. */
  function EraseOld(f: Frame): (s: seq<Byte>)
    requires Consistent(f)
    ensures |s| == BITMAP_SIZE
  {
    var k := CellIndex(f);
    if f.lastX[k] != NOT_DRAWN then f.screen[PixelAddress(f.lastX[k], f.lastY[k]) := 0] else f.screen
  }

  /**
   * The end of an iteration: `cur_j++`, carrying into `cur_i` and, after
   * the last particle, back to (0, 0) with `t_fp += 1`.
   */
  function Advance(i: int, j: int, t: int): (c: (int, int, int))
    requires 0 <= i < GALAXY_N && 0 <= j < GALAXY_N
    ensures 0 <= c.0 < GALAXY_N && 0 <= c.1 < GALAXY_N
    ensures c.0 * 125 + c.1 == (i * 125 + j + 1) % 15625
    ensures c.2 == if i * 125 + j == CELLS - 1 then ToInt16(t + 1) else t
  {
    if j + 1 < GALAXY_N then (i, j + 1, t)
    else if i + 1 < GALAXY_N then (i + 1, 0, t)
    else (0, 0, ToInt16(t + 1))
  }

  /**
   * Steps 1 to 3 for the particle under the cursor, given its new dot:
   * erase its old pixel, then either light and cache the new one or mark
   * it as not drawn. Returns the bitmap and the two caches.
   */
  function Redraw(f: Frame, d: Dot): (r: (seq<Byte>, seq<Word>, seq<Byte>))
    requires Consistent(f) && 40 <= d.sx <= 280 && 0 <= d.sy <= 180
    ensures |r.0| == BITMAP_SIZE && |r.1| == CELLS && |r.2| == CELLS
    ensures CacheOnScreen(r.1, r.2)
  {
    var k := CellIndex(f);
    var erased := EraseOld(f);
    var visible := 0 <= d.sx < SCREEN_WIDTH && 0 <= d.sy < SCREEN_HEIGHT;
    var screen := if visible then erased[PixelAddress(d.sx, d.sy) := ColorOf(f.i, f.j)] else erased;
    var lastX := f.lastX[k := if visible then d.sx else NOT_DRAWN];
    var lastY := if visible then f.lastY[k := d.sy] else f.lastY;
    (screen, lastX, lastY)
  }

  /** One iteration of the batch loop: erase, trace, draw and cache, advance the cursor. */
  function ProcessCell(tb: Tables, f: Frame): (g: Frame)
    requires TablesOk(tb) && Consistent(f)
    ensures Consistent(g)
    ensures g.firstFrame == f.firstFrame
    ensures (g.i, g.j, g.t) == Advance(f.i, f.j, f.t)
  {
    var d := Trace(tb, f.i, f.gx, f.gy, f.t);
    var r := Redraw(f, d);
    var c := Advance(f.i, f.j, f.t);
    Frame(r.0, r.1, r.2, f.firstFrame, c.2, d.gx, d.gy, c.0, c.1)
  }

  /** `n` iterations of the batch loop. */
  function Batch(tb: Tables, f: Frame, n: nat): (g: Frame)
    requires TablesOk(tb) && Consistent(f)
    ensures Consistent(g)
    ensures g.firstFrame == f.firstFrame
    decreases n
  {
    if n == 0 then f else ProcessCell(tb, Batch(tb, f, n - 1))
  }

  /** The one-off clear on the first call: black bitmap, nothing cached. */
  function ClearIfFirst(f: Frame): (g: Frame)
    requires Consistent(f)
    ensures Consistent(g) && !g.firstFrame
    ensures f.firstFrame ==> (forall a | 0 <= a < BITMAP_SIZE :: g.screen[a] == 0)
    ensures f.firstFrame ==> (forall k | 0 <= k < CELLS :: g.lastX[k] == NOT_DRAWN)
    ensures !f.firstFrame ==> g == f
    ensures g.lastY == f.lastY && g.t == f.t && g.gx == f.gx && g.gy == f.gy && g.i == f.i && g.j == f.j
  {
    if f.firstFrame then
      f.(screen := seq(BITMAP_SIZE, _ => 0), lastX := seq(CELLS, _ => NOT_DRAWN), firstFrame := false)
    else f
  }

  /** `galaxy_draw`: the first-call clear, then one batch of particles. */
  function DrawSpec(tb: Tables, f: Frame): (g: Frame)
    requires TablesOk(tb) && Consistent(f)
    ensures Consistent(g) && !g.firstFrame
  {
    Batch(tb, ClearIfFirst(f), BATCH_SIZE)
  }

  /**
   * Where the cursor stands `n` particles after (i, j) with clock t: the
   * n-th particle on in row-major order, with `t_fp` advanced (in 16 bits)
   * once for every completed sweep of all 15625.
   */
  function CursorAfter(i: int, j: int, t: int, n: nat): (c: (int, int, int))
    requires 0 <= i < GALAXY_N && 0 <= j < GALAXY_N
    ensures 0 <= c.0 < GALAXY_N && 0 <= c.1 < GALAXY_N
  {
    var p := i * 125 + j + n;
    var r := p % 15625;
    (r / 125, r % 125, ToInt16(t + p / 15625))
  }

  /** `Advance`, the end of one loop iteration, moves the cursor exactly one particle on. */
  lemma AdvanceIsOneStep(i: int, j: int, t: int)
    requires 0 <= i < GALAXY_N && 0 <= j < GALAXY_N && IsInt16(t)
    ensures Advance(i, j, t) == CursorAfter(i, j, t, 1)
  {
    var p := i * 125 + j + 1;
    if j + 1 < GALAXY_N {
      assert p % 15625 == p && p / 15625 == 0;
      assert p / 125 == i && p % 125 == j + 1;
    } else if i + 1 < GALAXY_N {
      assert p % 15625 == p && p / 15625 == 0;
      assert p / 125 == i + 1 && p % 125 == 0;
    } else {
      assert p == 15625;
    }
  }

  /** Carrying a count `s` of further particles into the sweep count. */
  lemma CounterStep(c: nat, s: nat)
    ensures (c % 15625 + s) % 15625 == (c + s) % 15625
    ensures (c + s) / 15625 == c / 15625 + (c % 15625 + s) / 15625
  {
    var q, r := c / 15625, c % 15625;
    var q', r' := (r + s) / 15625, (r + s) % 15625;
    assert c + s == 15625 * (q + q') + r';
  }

  /** Zero particles on, the cursor has not moved. */
  lemma CursorAfterZero(i: int, j: int, t: int)
    requires 0 <= i < GALAXY_N && 0 <= j < GALAXY_N && IsInt16(t)
    ensures CursorAfter(i, j, t, 0) == (i, j, t)
  {
    var p := i * 125 + j;
    assert 0 <= p < 15625;
    assert p % 15625 == p && p / 15625 == 0;
    assert p / 125 == i && p % 125 == j;
  }

  /** Walking a particles and then b more is walking a + b. */
  lemma CursorAfterAdd(i: int, j: int, t: int, a: nat, b: nat)
    requires 0 <= i < GALAXY_N && 0 <= j < GALAXY_N
    ensures var p := CursorAfter(i, j, t, a); CursorAfter(p.0, p.1, p.2, b) == CursorAfter(i, j, t, a + b)
  {
    var c := i * 125 + j + a;
    var p := CursorAfter(i, j, t, a);
    var r := c % 15625;
    assert p.0 * 125 + p.1 == r by {
      assert r == 125 * (r / 125) + r % 125;
    }
    CounterStep(c, b);
    ToInt16Add(t + c / 15625, (r + b) / 15625);
  }

  /** One more `Advance` after n particles is n + 1 particles. */
  lemma AdvanceAfter(i: int, j: int, t: int, n: nat)
    requires 0 <= i < GALAXY_N && 0 <= j < GALAXY_N && IsInt16(t)
    ensures var p := CursorAfter(i, j, t, n); Advance(p.0, p.1, p.2) == CursorAfter(i, j, t, n + 1)
  {
    var p := CursorAfter(i, j, t, n);
    AdvanceIsOneStep(p.0, p.1, p.2);
    CursorAfterAdd(i, j, t, n, 1);
  }

  /** The batch loop moves the cursor n particles on. */
  lemma {:induction false} BatchFollowsCursor(tb: Tables, f: Frame, n: nat)
    requires TablesOk(tb) && Consistent(f)
    ensures var g := Batch(tb, f, n); (g.i, g.j, g.t) == CursorAfter(f.i, f.j, f.t, n)
  {
    hide ProcessCell, CursorAfter, Advance;
    if n == 0 {
      CursorAfterZero(f.i, f.j, f.t);
    } else {
      BatchFollowsCursor(tb, f, n - 1);
      var h := Batch(tb, f, n - 1);
      var p := CursorAfter(f.i, f.j, f.t, n - 1);
      assert (h.i, h.j, h.t) == p;
      var g := ProcessCell(tb, h);
      assert Batch(tb, f, n) == g;
      assert (g.i, g.j, g.t) == Advance(p.0, p.1, p.2);
      AdvanceAfter(f.i, f.j, f.t, n - 1);
    }
  }

  /** One call of `galaxy_draw` moves the cursor BATCH_SIZE particles on. */
  lemma DrawSpecCursor(tb: Tables, f: Frame)
    requires TablesOk(tb) && Consistent(f)
    ensures var g := DrawSpec(tb, f); (g.i, g.j, g.t) == CursorAfter(f.i, f.j, f.t, BATCH_SIZE)
  {
    BatchFollowsCursor(tb, ClearIfFirst(f), BATCH_SIZE);
  }

  /**
   * 625 calls of 25 particles visit all 15625 exactly once: from the first
   * particle, the cursor is back at (0, 0) and `t_fp` has gone up by one.
   */
  lemma FullSweep(t: int, m: nat)
    requires m * BATCH_SIZE == CELLS
    ensures CursorAfter(0, 0, t, m * BATCH_SIZE) == (0, 0, ToInt16(t + 1))
    ensures m == 625
  {
  }

  /** `n` successive calls of `galaxy_draw`. */
  function Draws(tb: Tables, f: Frame, n: nat): (g: Frame)
    requires TablesOk(tb) && Consistent(f)
    ensures Consistent(g)
    decreases n, f
  {
    if n == 0 then f else DrawSpec(tb, Draws(tb, f, n - 1))
  }

  /** n calls of `galaxy_draw` move the cursor n batches of particles on. */
  lemma {:induction false} DrawsCursor(tb: Tables, f: Frame, n: nat)
    requires TablesOk(tb) && Consistent(f)
    ensures var g := Draws(tb, f, n); (g.i, g.j, g.t) == CursorAfter(f.i, f.j, f.t, n * BATCH_SIZE)
  {
    hide DrawSpec, CursorAfter;
    if n == 0 {
      CursorAfterZero(f.i, f.j, f.t);
      return;
    }
    DrawsCursor(tb, f, n - 1);
    var h := Draws(tb, f, n - 1);
    DrawSpecCursor(tb, h);
    var a := (n - 1) * BATCH_SIZE;
    CursorAfterAdd(f.i, f.j, f.t, a, BATCH_SIZE);
    assert a + BATCH_SIZE == n * BATCH_SIZE;
  }

  /**
   * From the first particle, the calls of one full sweep bring the cursor
   * back to (0, 0) with `t_fp` one step on: every particle is traced once
   * per sweep and `t_fp` advances once per sweep.
   */
  lemma DrawsFullSweep(tb: Tables, f: Frame, m: nat)
    requires TablesOk(tb) && Consistent(f) && f.i == 0 && f.j == 0
    requires m * BATCH_SIZE == CELLS
    ensures m == 625
    ensures var g := Draws(tb, f, m); g.i == 0 && g.j == 0 && g.t == ToInt16(f.t + 1)
  {
    DrawsCursor(tb, f, m);
    FullSweep(f.t, m);
  }

  /**
   * What one iteration does to the particle under the cursor: its old
   * pixel is blacked out, its new pixel (always inside the columns, on
   * screen unless it falls on row 180) gets its rainbow colour and is
   * cached; no other particle's cache and no other pixel changes.
   */
  lemma ProcessCellEffect(tb: Tables, f: Frame)
    requires TablesOk(tb) && Consistent(f)
    ensures var g, k, d := ProcessCell(tb, f), CellIndex(f), Trace(tb, f.i, f.gx, f.gy, f.t);
      && (d.sy < SCREEN_HEIGHT ==>
            && g.lastX[k] == d.sx && g.lastY[k] == d.sy
            && g.screen[PixelAddress(d.sx, d.sy)] == ColorOf(f.i, f.j))
      && (d.sy == SCREEN_HEIGHT ==> g.lastX[k] == NOT_DRAWN && g.lastY[k] == f.lastY[k])
      && (forall k' | 0 <= k' < CELLS && k' != k :: g.lastX[k'] == f.lastX[k'] && g.lastY[k'] == f.lastY[k'])
      && (forall a | 0 <= a < BITMAP_SIZE && g.screen[a] != f.screen[a] ::
            || (d.sy < SCREEN_HEIGHT && a == PixelAddress(d.sx, d.sy))
            || (f.lastX[k] != NOT_DRAWN && a == PixelAddress(f.lastX[k], f.lastY[k]) && g.screen[a] == 0))
      && (f.lastX[k] != NOT_DRAWN
          && !(d.sy < SCREEN_HEIGHT && PixelAddress(f.lastX[k], f.lastY[k]) == PixelAddress(d.sx, d.sy))
          ==> g.screen[PixelAddress(f.lastX[k], f.lastY[k])] == 0)
  {
  }

  /**
   * The static state of src/galaxy.c. `screen` is the 320x180 bitmap in
   * XRAM, written through the RIA data port.
   */
  class Renderer {
    /** `sin_lut` and `cos_lut`. */
    const tables: Tables
    const screen: array<Byte>
    const lastX: array<Word>
    const lastY: array<Byte>
    var firstFrame: bool
    var t: int
    var gx: int
    var gy: int
    var curI: int
    var curJ: int

    ghost function Snapshot(): Frame
      reads this, screen, lastX, lastY
    {
      Frame(screen[..], lastX[..], lastY[..], firstFrame, t, gx, gy, curI, curJ)
    }

    ghost predicate Valid()
      reads this, screen, lastX, lastY
    {
      TablesOk(tables) && screen != lastY && Consistent(Snapshot())
    }

    /** The zero-initialised statics, `first_frame = true`, drawing into `screen`. */
    constructor(screen: array<Byte>)
      requires screen.Length == BITMAP_SIZE
      ensures Valid() && this.screen == screen && tables == GALAXY_TABLES && fresh(lastX) && fresh(lastY)
      ensures Snapshot() == Frame(old(screen[..]), seq(CELLS, _ => 0), seq(CELLS, _ => 0), true, 0, 0, 0, 0, 0)
    {
      GalaxyTablesOk();
      tables := GALAXY_TABLES;
      this.screen := screen;
      lastX := new Word[CELLS](_ => 0);
      lastY := new Byte[CELLS](_ => 0);
      firstFrame := true;
      t, gx, gy, curI, curJ := 0, 0, 0, 0, 0;
    }

    /** `galaxy_init`: restart time and the cursor; the bitmap and the cache are kept. */
    method Init()
      requires Valid()
      modifies this
      ensures Valid()
      ensures Snapshot() == old(Snapshot()).(t := 0, gx := 0, gy := 0, i := 0, j := 0)
    {
      t, gx, gy, curI, curJ := 0, 0, 0, 0, 0;
    }

    /** `galaxy_draw`. */
    method Draw()
      requires Valid()
      modifies this, screen, lastX, lastY
      ensures Valid()
      ensures Snapshot() == DrawSpec(tables, old(Snapshot()))
    {
      ghost var start := ClearIfFirst(Snapshot());
      if firstFrame {
        ClearScreen();
        firstFrame := false;
      }
      assert Snapshot() == start;

      var k := curI * 125 + curJ;
      for b := 0 to BATCH_SIZE
        invariant Valid()
        invariant Snapshot() == Batch(tables, start, b)
        invariant k == curI * 125 + curJ
      {
        k := DrawParticle(k);
      }
    }

    /** The first-call clear: every byte of the bitmap black, every cache entry "not drawn". */
    method ClearScreen()
      requires screen.Length == BITMAP_SIZE && lastX.Length == CELLS
      modifies screen, lastX
      ensures screen[..] == seq(BITMAP_SIZE, _ => 0)
      ensures lastX[..] == seq(CELLS, _ => NOT_DRAWN)
    {
      for n := 0 to BITMAP_SIZE
        invariant forall a | 0 <= a < n :: screen[a] == 0
      {
        screen[n] := 0;
      }
      for k := 0 to CELLS
        invariant forall a | 0 <= a < k :: lastX[a] == NOT_DRAWN
        invariant forall a | 0 <= a < BITMAP_SIZE :: screen[a] == 0
      {
        lastX[k] := NOT_DRAWN;
      }
    }

    /**
     * One pass of the batch loop: erase, calculate, draw and store for the
     * particle under the cursor (`k` is the offset of `lx`/`ly`), then
     * advance the cursor.
     */
    method DrawParticle(k: int) returns (next: int)
      requires Valid() && k == curI * 125 + curJ
      modifies this, screen, lastX, lastY
      ensures Valid() && next == curI * 125 + curJ
      ensures Snapshot() == ProcessCell(tables, old(Snapshot()))
    {
      ghost var before := Snapshot();
      ErasePixel(k);
      var d := CalcDot();
      gx, gy := d.gx, d.gy;
      PlotPixel(k, d, before);
      next := NextParticle(k);
    }

    /** Step 1: black out the pixel cached at offset `k`, if any. */
    method ErasePixel(k: int)
      requires Valid() && k == curI * 125 + curJ
      modifies screen
      ensures Valid() && screen[..] == EraseOld(old(Snapshot()))
    {
      var oldX := lastX[k];
      if oldX != NOT_DRAWN {
        var oldY := lastY[k];
        screen[PixelAddress(oldX, oldY)] := 0;
      }
    }

    /** Step 2: the particle's new accumulators and screen position, from the row, `gx_fp`, `gy_fp` and `t_fp`. */
    method CalcDot() returns (d: Dot)
      requires Valid()
      ensures d == Trace(tables, curI, gx, gy, t)
    {
      var angleRi := RowAngle(curI);
      var iAng := ToByte(curI * 41);
      var yAng := ScaledAngle(gy);
      var angle1 := ToByte(iAng as int + yAng);
      var xAng := ScaledAngle(gx);
      var angle2 := ToByte(angleRi as int + xAng);
      var s1, s2 := LutSin(tables, angle1), LutSin(tables, angle2);
      var c1, c2 := LutCos(tables, angle1), LutCos(tables, angle2);
      var u, v := s1 + s2, c1 + c2;
      assert (u, v) == Waves(tables, curI, gx, gy);
      var sx := 160 + u / 16;
      var syRaw := v / 16;
      var sy := 90 + syRaw - syRaw / 4;
      d := Dot(ToInt16(u / 4 + t), v / 4, sx, sy);
    }

    /** Step 3: light and cache the new pixel when it is on screen, else mark the particle as not drawn. */
    method PlotPixel(k: int, d: Dot, ghost before: Frame)
      requires TablesOk(tables) && screen != lastY && Consistent(before)
      requires k == CellIndex(before) && curI == before.i && curJ == before.j
      requires 40 <= d.sx <= 280 && 0 <= d.sy <= 180
      requires screen[..] == EraseOld(before) && lastX[..] == before.lastX && lastY[..] == before.lastY
      modifies screen, lastX, lastY
      ensures (screen[..], lastX[..], lastY[..]) == Redraw(before, d)
    {
      if 0 <= d.sx < SCREEN_WIDTH && 0 <= d.sy < SCREEN_HEIGHT {
        var iColBase := ToByte(16 + curI * 11);
        var col := ToByte(iColBase as int + curJ);
        screen[PixelAddress(d.sx, d.sy)] := col;
        lastX[k] := d.sx;
        lastY[k] := d.sy;
      } else {
        lastX[k] := NOT_DRAWN;
      }
    }

    /** The end of the loop body: `lx++`, `ly++`, `cur_j++` with the carries into `cur_i` and `t_fp`. */
    method NextParticle(k: int) returns (next: int)
      requires 0 <= curI < GALAXY_N && 0 <= curJ < GALAXY_N && k == curI * 125 + curJ
      modifies this
      ensures (curI, curJ, t) == Advance(old(curI), old(curJ), old(t))
      ensures next == curI * 125 + curJ
      ensures firstFrame == old(firstFrame) && gx == old(gx) && gy == old(gy)
    {
      next := k + 1;
      curJ := curJ + 1;
      if curJ >= GALAXY_N {
        curJ := 0;
        curI := curI + 1;
        if curI >= GALAXY_N {
          curI := 0;
          t := ToInt16(t + 1);
          next := 0;
        }
      }
    }
  }
}
