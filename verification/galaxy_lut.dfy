/**
 * The two pre-scaled tables of src/galaxy.c, `sin_lut` and `cos_lut`
 * (sin and cos of 2 pi k / 256, times 960), and their accessors. The
 * tables are written as four quarter turns of 64 entries each so that
 * facts about them can be established a quarter at a time.
 */
module GalaxyLut {
  import opened FixedPoint

  // `sin_lut`: sin(2 pi k / 256) * 960, split in quarter turns.
  const SIN_Q0: seq<int> :=
      [0, 23, 47, 70, 94, 117, 140, 164, 187, 210, 233, 256, 278, 301, 323, 345]
    + [367, 389, 410, 431, 452, 473, 493, 513, 533, 552, 571, 590, 609, 627, 644, 661]
    + [678, 695, 711, 726, 742, 756, 771, 784, 798, 811, 823, 835, 846, 857, 867, 877]
    + [886, 895, 903, 911, 918, 925, 931, 936, 941, 945, 949, 952, 955, 957, 958, 959]
  const SIN_Q1: seq<int> :=
      [960, 959, 958, 957, 955, 952, 949, 945, 941, 936, 931, 925, 918, 911, 903, 895]
    + [886, 877, 867, 857, 846, 835, 823, 811, 798, 784, 771, 756, 742, 726, 711, 695]
    + [678, 661, 644, 627, 609, 590, 571, 552, 533, 513, 493, 473, 452, 431, 410, 389]
    + [367, 345, 323, 301, 278, 256, 233, 210, 187, 164, 140, 117, 94, 70, 47, 23]
  const SIN_Q2: seq<int> :=
      [0, -23, -47, -70, -94, -117, -140, -164, -187, -210, -233, -256, -278, -301, -323, -345]
    + [-367, -389, -410, -431, -452, -473, -493, -513, -533, -552, -571, -590, -609, -627, -644, -661]
    + [-678, -695, -711, -726, -742, -756, -771, -784, -798, -811, -823, -835, -846, -857, -867, -877]
    + [-886, -895, -903, -911, -918, -925, -931, -936, -941, -945, -949, -952, -955, -957, -958, -959]
  const SIN_Q3: seq<int> :=
      [-960, -959, -958, -957, -955, -952, -949, -945, -941, -936, -931, -925, -918, -911, -903, -895]
    + [-886, -877, -867, -857, -846, -835, -823, -811, -798, -784, -771, -756, -742, -726, -711, -695]
    + [-678, -661, -644, -627, -609, -590, -571, -552, -533, -513, -493, -473, -452, -431, -410, -389]
    + [-367, -345, -323, -301, -278, -256, -233, -210, -187, -164, -140, -117, -94, -70, -47, -23]
  const COS_Q0: seq<int> :=
      [960, 959, 958, 957, 955, 952, 949, 945, 941, 936, 931, 925, 918, 911, 903, 895]
    + [886, 877, 867, 857, 846, 835, 823, 811, 798, 784, 771, 756, 742, 726, 711, 695]
    + [678, 661, 644, 627, 609, 590, 571, 552, 533, 513, 493, 473, 452, 431, 410, 389]
    + [367, 345, 323, 301, 278, 256, 233, 210, 187, 164, 140, 117, 94, 70, 47, 23]
  const COS_Q1: seq<int> :=
      [0, -23, -47, -70, -94, -117, -140, -164, -187, -210, -233, -256, -278, -301, -323, -345]
    + [-367, -389, -410, -431, -452, -473, -493, -513, -533, -552, -571, -590, -609, -627, -644, -661]
    + [-678, -695, -711, -726, -742, -756, -771, -784, -798, -811, -823, -835, -846, -857, -867, -877]
    + [-886, -895, -903, -911, -918, -925, -931, -936, -941, -945, -949, -952, -955, -957, -958, -959]
  const COS_Q2: seq<int> :=
      [-960, -959, -958, -957, -955, -952, -949, -945, -941, -936, -931, -925, -918, -911, -903, -895]
    + [-886, -877, -867, -857, -846, -835, -823, -811, -798, -784, -771, -756, -742, -726, -711, -695]
    + [-678, -661, -644, -627, -609, -590, -571, -552, -533, -513, -493, -473, -452, -431, -410, -389]
    + [-367, -345, -323, -301, -278, -256, -233, -210, -187, -164, -140, -117, -94, -70, -47, -23]
  const COS_Q3: seq<int> :=
      [0, 23, 47, 70, 94, 117, 140, 164, 187, 210, 233, 256, 278, 301, 323, 345]
    + [367, 389, 410, 431, 452, 473, 493, 513, 533, 552, 571, 590, 609, 627, 644, 661]
    + [678, 695, 711, 726, 742, 756, 771, 784, 798, 811, 823, 835, 846, 857, 867, 877]
    + [886, 895, 903, 911, 918, 925, 931, 936, 941, 945, 949, 952, 955, 957, 958, 959]

  const SIN_LUT: seq<int> := SIN_Q0 + SIN_Q1 + SIN_Q2 + SIN_Q3
  // `cos_lut`, a separate table in the source.
  const COS_LUT: seq<int> := COS_Q0 + COS_Q1 + COS_Q2 + COS_Q3

  lemma FirstQuarterBounds()
    ensures forall k | 0 <= k < 16 :: 0 <= SIN_Q0[k] <= 960
    ensures forall k | 16 <= k < 32 :: 0 <= SIN_Q0[k] <= 960
    ensures forall k | 32 <= k < 48 :: 0 <= SIN_Q0[k] <= 960
    ensures forall k | 48 <= k < 64 :: 0 <= SIN_Q0[k] <= 960
  {
  }

  lemma SecondQuarterBounds()
    ensures forall k | 0 <= k < 16 :: 0 <= SIN_Q1[k] <= 960
    ensures forall k | 16 <= k < 32 :: 0 <= SIN_Q1[k] <= 960
    ensures forall k | 32 <= k < 48 :: 0 <= SIN_Q1[k] <= 960
    ensures forall k | 48 <= k < 64 :: 0 <= SIN_Q1[k] <= 960
  {
  }

  lemma QuarterBounds()
    ensures forall k | 0 <= k < 64 :: 0 <= SIN_Q0[k] <= 960
    ensures forall k | 0 <= k < 64 :: 0 <= SIN_Q1[k] <= 960
    ensures forall k | 0 <= k < 64 :: -960 <= SIN_Q2[k] <= 0
    ensures forall k | 0 <= k < 64 :: -960 <= SIN_Q3[k] <= 0
  {
    FirstQuarterBounds();
    SecondQuarterBounds();
    ThirdQuarterNegated();
    FourthQuarterNegated();
  }

  lemma ThirdQuarterNegatedLow()
    ensures forall k | 0 <= k < 16 :: SIN_Q2[k] == -SIN_Q0[k]
    ensures forall k | 16 <= k < 32 :: SIN_Q2[k] == -SIN_Q0[k]
  {
  }

  lemma ThirdQuarterNegatedHigh()
    ensures forall k | 32 <= k < 48 :: SIN_Q2[k] == -SIN_Q0[k]
    ensures forall k | 48 <= k < 64 :: SIN_Q2[k] == -SIN_Q0[k]
  {
  }

  lemma ThirdQuarterNegated()
    ensures forall k | 0 <= k < 64 :: SIN_Q2[k] == -SIN_Q0[k]
  {
    ThirdQuarterNegatedLow();
    ThirdQuarterNegatedHigh();
  }

  lemma FourthQuarterNegatedLow()
    ensures forall k | 0 <= k < 16 :: SIN_Q3[k] == -SIN_Q1[k]
    ensures forall k | 16 <= k < 32 :: SIN_Q3[k] == -SIN_Q1[k]
  {
  }

  lemma FourthQuarterNegatedHigh()
    ensures forall k | 32 <= k < 48 :: SIN_Q3[k] == -SIN_Q1[k]
    ensures forall k | 48 <= k < 64 :: SIN_Q3[k] == -SIN_Q1[k]
  {
  }

  lemma FourthQuarterNegated()
    ensures forall k | 0 <= k < 64 :: SIN_Q3[k] == -SIN_Q1[k]
  {
    FourthQuarterNegatedLow();
    FourthQuarterNegatedHigh();
  }

  lemma RotateQuarters(a: seq<int>, b: seq<int>, c: seq<int>, d: seq<int>)
    requires |a| == |b| == |c| == |d| == 64
    ensures forall k | 0 <= k < 256 :: (b + c + d + a)[k] == (a + b + c + d)[(k + 64) % 256]
  {
  }

  lemma QuarterAt(a: seq<int>, b: seq<int>, c: seq<int>, d: seq<int>, k: int)
    requires |a| == |b| == |c| == |d| == 64 && 0 <= k < 256
    ensures (a + b + c + d)[k] == [a, b, c, d][k / 64][k % 64]
  {
  }

  /** The two tables as the renderer reads them. */
  datatype Tables = Tables(sin: seq<int>, cos: seq<int>)

  const GALAXY_TABLES := Tables(SIN_LUT, COS_LUT)

  /**
   * What the renderer relies on: 256 entries each, magnitude at most 960
   * (1.0 at scale 960), and `cos_lut` is `sin_lut` a quarter turn on.
   */
  predicate TablesOk(tb: Tables) {
    && |tb.sin| == 256 && |tb.cos| == 256
    && (forall k | 0 <= k < 256 :: -960 <= tb.sin[k] <= 960)
    && (forall k | 0 <= k < 256 :: tb.cos[k] == tb.sin[(k + 64) % 256])
  }

  /** The two literal tables of src/galaxy.c meet `TablesOk`. */
  lemma GalaxyTablesOk()
    ensures TablesOk(GALAXY_TABLES)
  {
    QuarterBounds();
    forall k | 0 <= k < 256
      ensures -960 <= SIN_LUT[k] <= 960
    {
      QuarterAt(SIN_Q0, SIN_Q1, SIN_Q2, SIN_Q3, k);
    }
    assert COS_Q0 == SIN_Q1 && COS_Q1 == SIN_Q2 && COS_Q2 == SIN_Q3 && COS_Q3 == SIN_Q0;
    RotateQuarters(SIN_Q0, SIN_Q1, SIN_Q2, SIN_Q3);
  }

  /** `lut_sin(idx)`: `sin_lut[idx]`. */
  function LutSin(tb: Tables, idx: Byte): (r: int)
    requires TablesOk(tb)
    ensures -960 <= r <= 960
  {
    tb.sin[idx]
  }

  /** `lut_cos(idx)`: `cos_lut[idx]`, which is the sine a quarter turn on. */
  function LutCos(tb: Tables, idx: Byte): (r: int)
    requires TablesOk(tb)
    ensures r == LutSin(tb, ToByte(idx + 64))
  {
    tb.cos[idx]
  }

  /** The sine table is exact on the axes and non-negative on the first half turn. */
  lemma GalaxySinShape(idx: Byte)
    ensures TablesOk(GALAXY_TABLES)
    ensures idx <= 128 ==> LutSin(GALAXY_TABLES, idx) >= 0
    ensures 128 <= idx ==> LutSin(GALAXY_TABLES, idx) <= 0
    ensures LutSin(GALAXY_TABLES, 0) == 0 && LutSin(GALAXY_TABLES, 64) == 960
    ensures LutSin(GALAXY_TABLES, 128) == 0 && LutSin(GALAXY_TABLES, 192) == -960
  {
    GalaxyTablesOk();
    QuarterBounds();
    QuarterAt(SIN_Q0, SIN_Q1, SIN_Q2, SIN_Q3, idx);
    QuarterAt(SIN_Q0, SIN_Q1, SIN_Q2, SIN_Q3, 64);
    QuarterAt(SIN_Q0, SIN_Q1, SIN_Q2, SIN_Q3, 128);
    QuarterAt(SIN_Q0, SIN_Q1, SIN_Q2, SIN_Q3, 192);
  }

  lemma SinLutHalfTurn(k: int)
    requires 0 <= k < 128
    ensures SIN_LUT[k + 128] == -SIN_LUT[k]
  {
    ThirdQuarterNegated();
    FourthQuarterNegated();
    QuarterAt(SIN_Q0, SIN_Q1, SIN_Q2, SIN_Q3, k);
    QuarterAt(SIN_Q0, SIN_Q1, SIN_Q2, SIN_Q3, k + 128);
  }

  /** The sine table is odd: half a turn on negates it. */
  lemma LutSinHalfTurn(idx: Byte)
    requires idx < 128
    ensures TablesOk(GALAXY_TABLES)
    ensures LutSin(GALAXY_TABLES, idx + 128) == -LutSin(GALAXY_TABLES, idx)
  {
    GalaxyTablesOk();
    SinLutHalfTurn(idx);
  }
}
