// Inter prediction of the blocks of a macroblock: fixed-size block copies,
// the whole-pixel / sub-pixel dispatch of one block, and the choice between
// 8x8, 8x4 and 4x4 predictions when a macroblock is split.

module ReconInter {
  import opened PixelBlocks
  import opened SubpelFilters
  import opened MotionVectors
  import opened MbPitch

  // ---------------------------------------------------------------------
  // Block copies

  /** vp8_copy_mem16x16_cl: 16 rows of 16 samples. */
  method CopyMem16x16(src: array<byte>, srcBase: int, srcStride: int, dst: array<byte>, dstBase: int, dstStride: int)
    requires src != dst && 16 <= srcStride && 16 <= dstStride
    requires BlockInside(src.Length, srcBase, srcStride, 16, 16)
    requires BlockInside(dst.Length, dstBase, dstStride, 16, 16)
    modifies dst
    ensures forall r, c :: 0 <= r < 16 && 0 <= c < 16 ==>
              Pel(dst[..], dstBase, dstStride, r, c) == Pel(src[..], srcBase, srcStride, r, c)
    ensures forall j :: 0 <= j < dst.Length && !InBlock(j, dstBase, dstStride, 16, 16) ==> dst[j] == old(dst[j])
  {
    CopyBlock(src, srcBase, srcStride, dst, dstBase, dstStride, 16, 16);
  }

  /** vp8_copy_mem8x8_cl: 8 rows of 8 samples. */
  method CopyMem8x8(src: array<byte>, srcBase: int, srcStride: int, dst: array<byte>, dstBase: int, dstStride: int)
    requires src != dst && 8 <= srcStride && 8 <= dstStride
    requires BlockInside(src.Length, srcBase, srcStride, 8, 8)
    requires BlockInside(dst.Length, dstBase, dstStride, 8, 8)
    modifies dst
    ensures forall r, c :: 0 <= r < 8 && 0 <= c < 8 ==>
              Pel(dst[..], dstBase, dstStride, r, c) == Pel(src[..], srcBase, srcStride, r, c)
    ensures forall j :: 0 <= j < dst.Length && !InBlock(j, dstBase, dstStride, 8, 8) ==> dst[j] == old(dst[j])
  {
    CopyBlock(src, srcBase, srcStride, dst, dstBase, dstStride, 8, 8);
  }

  /** vp8_copy_mem8x4_cl: 4 rows of 8 samples. */
  method CopyMem8x4(src: array<byte>, srcBase: int, srcStride: int, dst: array<byte>, dstBase: int, dstStride: int)
    requires src != dst && 8 <= srcStride && 8 <= dstStride
    requires BlockInside(src.Length, srcBase, srcStride, 4, 8)
    requires BlockInside(dst.Length, dstBase, dstStride, 4, 8)
    modifies dst
    ensures forall r, c :: 0 <= r < 4 && 0 <= c < 8 ==>
              Pel(dst[..], dstBase, dstStride, r, c) == Pel(src[..], srcBase, srcStride, r, c)
    ensures forall j :: 0 <= j < dst.Length && !InBlock(j, dstBase, dstStride, 4, 8) ==> dst[j] == old(dst[j])
  {
    CopyBlock(src, srcBase, srcStride, dst, dstBase, dstStride, 4, 8);
  }

  // ---------------------------------------------------------------------
  // The sub-pixel predictors a decoder installs

  /** Which family of predictors `x->subpixel_predict*` point to. */
  datatype FilterKind = SixTapKind | BilinearKind

  /** Sample (r, c) of the prediction of a block at `base` in `src` with
      horizontal phase `xoff` and vertical phase `yoff` (in eighths). */
  function Predicted(kind: FilterKind, src: seq<byte>, base: int, spl: int, xoff: int, yoff: int, r: int, c: int): int
    requires 0 <= xoff < 8 && 0 <= yoff < 8
  {
    match kind
    case SixTapKind => Sixtap2D(src, base, spl, SixTapFilters[xoff], SixTapFilters[yoff], r, c)
    case BilinearKind => Bilinear2D(src, base, spl, BilinearFilters[xoff], BilinearFilters[yoff], r, c)
  }

  /** The reference samples a `rows` x `cols` sub-pixel prediction reads:
      two rows and columns before and three after for the six-tap filter,
      one row and column after for the bilinear filter. */
  predicate FilterReadable(kind: FilterKind, len: int, base: int, spl: int, rows: int, cols: int)
  {
    match kind
    case SixTapKind => BlockInside(len, base - 2 * spl - 2, spl, rows + 5, cols + 5)
    case BilinearKind => BlockInside(len, base, spl, rows + 1, cols + 1)
  }

  /** Every predicted sample is a pixel value, and at phase (0, 0) both
      families reproduce the reference sample. */
  lemma PredictedProperties(kind: FilterKind, src: seq<byte>, base: int, spl: int, xoff: int, yoff: int, r: int, c: int)
    requires 0 <= xoff < 8 && 0 <= yoff < 8
    ensures 0 <= Predicted(kind, src, base, spl, xoff, yoff, r, c) <= 255
    ensures xoff == 0 && yoff == 0 ==> Predicted(kind, src, base, spl, xoff, yoff, r, c) == Pel(src, base, spl, r, c)
  {
    match kind
    case SixTapKind =>
      Sixtap2DProperties(src, base, spl, SixTapFilters[xoff], SixTapFilters[yoff], r, c);
    case BilinearKind =>
      BilinearTableRows(xoff);
      BilinearTableRows(yoff);
      Bilinear2DProperties(src, base, spl, BilinearFilters[xoff], BilinearFilters[yoff], r, c);
  }

  /** The installed `rows` x `cols` predictor (4x4, 8x4, 8x8 or 16x16) of
      the given family. */
  method SubpixelPredict(kind: FilterKind, rows: int, cols: int, src: array<byte>, base: int, spl: int,
                         xoff: int, yoff: int, dst: array<byte>, dBase: int, pitch: int)
    requires (rows, cols) in {(4, 4), (4, 8), (8, 8), (16, 16)}
    requires 0 <= xoff < 8 && 0 <= yoff < 8
    requires src != dst && cols <= spl && cols <= pitch
    requires FilterReadable(kind, src.Length, base, spl, rows, cols)
    requires BlockInside(dst.Length, dBase, pitch, rows, cols)
    modifies dst
    ensures forall r, c :: 0 <= r < rows && 0 <= c < cols ==>
              Pel(dst[..], dBase, pitch, r, c) == Predicted(kind, src[..], base, spl, xoff, yoff, r, c)
    ensures forall j :: 0 <= j < dst.Length && !InBlock(j, dBase, pitch, rows, cols) ==> dst[j] == old(dst[j])
  {
    match kind {
      case SixTapKind =>
        if rows == 4 && cols == 4 {
          SixtapPredict4x4(src, base, spl, xoff, yoff, dst, dBase, pitch);
        } else if rows == 4 {
          SixtapPredict8x4(src, base, spl, xoff, yoff, dst, dBase, pitch);
        } else if rows == 8 {
          SixtapPredict8x8(src, base, spl, xoff, yoff, dst, dBase, pitch);
        } else {
          SixtapPredict16x16(src, base, spl, xoff, yoff, dst, dBase, pitch);
        }
      case BilinearKind =>
        if rows == 4 && cols == 4 {
          BilinearPredict4x4(src, base, spl, xoff, yoff, dst, dBase, pitch);
        } else if rows == 4 {
          BilinearPredict8x4(src, base, spl, xoff, yoff, dst, dBase, pitch);
        } else if rows == 8 {
          BilinearPredict8x8(src, base, spl, xoff, yoff, dst, dBase, pitch);
        } else {
          BilinearPredict16x16(src, base, spl, xoff, yoff, dst, dBase, pitch);
        }
    }
  }

  // ---------------------------------------------------------------------
  // One block

  /** The motion vector points at a whole pixel: `(mv.row & 7) == 0` and
      `(mv.col & 7) == 0`. */
  predicate WholePel(mv: MV)
  {
    mv.row % 8 == 0 && mv.col % 8 == 0
  }

  /** Index in the reference plane of the whole pixel the block's motion
      vector lands on: `pre + (mv.row >> 3) * pre_stride + (mv.col >> 3)`
      (arithmetic shifts, so the floor of the division). */
  function SourcePos(f: BlockdFields): int
  {
    f.pre + (f.mv.row / 8) * f.preStride + f.mv.col / 8
  }

  /** What a `rows` x `cols` prediction of the block reads: the block
      itself when the vector is whole-pixel, the filter's support otherwise. */
  predicate SourceReadable(kind: FilterKind, len: int, f: BlockdFields, rows: int, cols: int)
  {
    if WholePel(f.mv) then BlockInside(len, SourcePos(f), f.preStride, rows, cols)
    else FilterReadable(kind, len, SourcePos(f), f.preStride, rows, cols)
  }

  /** Sample (r, c) of the block's prediction from `ref`: the filter at the
      vector's fractional phases, `(mv.col & 7, mv.row & 7)`. */
  function BlockPrediction(kind: FilterKind, ref: seq<byte>, f: BlockdFields, r: int, c: int): int
  {
    Predicted(kind, ref, SourcePos(f), f.preStride, f.mv.col % 8, f.mv.row % 8, r, c)
  }

  /** The whole-pixel branch: copying `rows` x `cols` reference samples
      gives the same block as running the filter at phase (0, 0), so
      skipping the filter for whole-pixel vectors changes no sample. */
  lemma CopyIsPhaseZeroPrediction(kind: FilterKind, ref: seq<byte>, f: BlockdFields, r: int, c: int)
    requires WholePel(f.mv)
    ensures BlockPrediction(kind, ref, f, r, c) == Pel(ref, SourcePos(f), f.preStride, r, c)
  {
    PredictedProperties(kind, ref, SourcePos(f), f.preStride, 0, 0, r, c);
  }

  /** Predict a `rows` x `cols` block from `ref` (the plane `*(d->base_pre)`
      points to) into `dst` at `dBase` with `pitch`: copy when the vector is
      whole-pixel, filter at phases `(mv.col & 7, mv.row & 7)` otherwise. */
  method PredictBlock(kind: FilterKind, f: BlockdFields, ref: array<byte>, rows: int, cols: int,
                      dst: array<byte>, dBase: int, pitch: int)
    requires (rows, cols) in {(4, 4), (4, 8), (8, 8)}
    requires ref != dst && cols <= f.preStride && cols <= pitch
    requires SourceReadable(kind, ref.Length, f, rows, cols)
    requires BlockInside(dst.Length, dBase, pitch, rows, cols)
    modifies dst
    ensures forall r, c :: 0 <= r < rows && 0 <= c < cols ==>
              Pel(dst[..], dBase, pitch, r, c) == BlockPrediction(kind, ref[..], f, r, c)
    ensures WholePel(f.mv) ==> forall r, c :: 0 <= r < rows && 0 <= c < cols ==>
              Pel(dst[..], dBase, pitch, r, c) == Pel(ref[..], SourcePos(f), f.preStride, r, c)
    ensures forall j :: 0 <= j < dst.Length && !InBlock(j, dBase, pitch, rows, cols) ==> dst[j] == old(dst[j])
  {
    var pos := SourcePos(f);
    if f.mv.row % 8 != 0 || f.mv.col % 8 != 0 {
      SubpixelPredict(kind, rows, cols, ref, pos, f.preStride, f.mv.col % 8, f.mv.row % 8, dst, dBase, pitch);
    } else {
      CopyBlock(ref, pos, f.preStride, dst, dBase, pitch, rows, cols);
      forall r, c | 0 <= r < rows && 0 <= c < cols
        ensures Pel(dst[..], dBase, pitch, r, c) == BlockPrediction(kind, ref[..], f, r, c)
      {
        CopyIsPhaseZeroPrediction(kind, ref[..], f, r, c);
      }
    }
  }

  /** vp8_build_inter_predictors_b_cl: the 4x4 prediction of block d into
      the macroblock predictor, at d's predictor offset with `pitch`. */
  method BuildInterPredictorsB(d: Blockd, pitch: int, kind: FilterKind, ref: array<byte>)
    requires ref != d.predictorBase && 4 <= d.preStride && 4 <= pitch
    requires SourceReadable(kind, ref.Length, d.Fields(), 4, 4)
    requires BlockInside(d.predictorBase.Length, d.predictorOffset, pitch, 4, 4)
    modifies d.predictorBase
    ensures forall r, c :: 0 <= r < 4 && 0 <= c < 4 ==>
              Pel(d.predictorBase[..], d.predictorOffset, pitch, r, c) == BlockPrediction(kind, ref[..], d.Fields(), r, c)
    ensures WholePel(d.mv) ==> forall r, c :: 0 <= r < 4 && 0 <= c < 4 ==>
              Pel(d.predictorBase[..], d.predictorOffset, pitch, r, c) == Pel(ref[..], SourcePos(d.Fields()), d.preStride, r, c)
    ensures forall j :: 0 <= j < d.predictorBase.Length && !InBlock(j, d.predictorOffset, pitch, 4, 4) ==>
              d.predictorBase[j] == old(d.predictorBase[j])
  {
    PredictBlock(kind, d.Fields(), ref, 4, 4, d.predictorBase, d.predictorOffset, pitch);
  }

  /** vp8_build_inter_predictors4b_cl: the 8x8 prediction starting at block d. */
  method BuildInterPredictors4b(d: Blockd, pitch: int, kind: FilterKind, ref: array<byte>)
    requires ref != d.predictorBase && 8 <= d.preStride && 8 <= pitch
    requires SourceReadable(kind, ref.Length, d.Fields(), 8, 8)
    requires BlockInside(d.predictorBase.Length, d.predictorOffset, pitch, 8, 8)
    modifies d.predictorBase
    ensures forall r, c :: 0 <= r < 8 && 0 <= c < 8 ==>
              Pel(d.predictorBase[..], d.predictorOffset, pitch, r, c) == BlockPrediction(kind, ref[..], d.Fields(), r, c)
    ensures WholePel(d.mv) ==> forall r, c :: 0 <= r < 8 && 0 <= c < 8 ==>
              Pel(d.predictorBase[..], d.predictorOffset, pitch, r, c) == Pel(ref[..], SourcePos(d.Fields()), d.preStride, r, c)
    ensures forall j :: 0 <= j < d.predictorBase.Length && !InBlock(j, d.predictorOffset, pitch, 8, 8) ==>
              d.predictorBase[j] == old(d.predictorBase[j])
  {
    PredictBlock(kind, d.Fields(), ref, 8, 8, d.predictorBase, d.predictorOffset, pitch);
  }

  /** vp8_build_inter_predictors2b_cl: the 8x4 prediction of block d and
      its right-hand neighbour. */
  method BuildInterPredictors2b(d: Blockd, pitch: int, kind: FilterKind, ref: array<byte>)
    requires ref != d.predictorBase && 8 <= d.preStride && 8 <= pitch
    requires SourceReadable(kind, ref.Length, d.Fields(), 4, 8)
    requires BlockInside(d.predictorBase.Length, d.predictorOffset, pitch, 4, 8)
    modifies d.predictorBase
    ensures forall r, c :: 0 <= r < 4 && 0 <= c < 8 ==>
              Pel(d.predictorBase[..], d.predictorOffset, pitch, r, c) == BlockPrediction(kind, ref[..], d.Fields(), r, c)
    ensures WholePel(d.mv) ==> forall r, c :: 0 <= r < 4 && 0 <= c < 8 ==>
              Pel(d.predictorBase[..], d.predictorOffset, pitch, r, c) == Pel(ref[..], SourcePos(d.Fields()), d.preStride, r, c)
    ensures forall j :: 0 <= j < d.predictorBase.Length && !InBlock(j, d.predictorOffset, pitch, 4, 8) ==>
              d.predictorBase[j] == old(d.predictorBase[j])
  {
    PredictBlock(kind, d.Fields(), ref, 4, 8, d.predictorBase, d.predictorOffset, pitch);
  }

  /** vp8_build_inter_predictors_b_s_cl: the 4x4 prediction of block d
      written straight into a frame buffer `dst` at `dBase`, with d's
      destination stride. */
  method BuildInterPredictorsBS(d: Blockd, dst: array<byte>, dBase: int, kind: FilterKind, ref: array<byte>)
    requires ref != dst && 4 <= d.preStride && 4 <= d.dstStride
    requires SourceReadable(kind, ref.Length, d.Fields(), 4, 4)
    requires BlockInside(dst.Length, dBase, d.dstStride, 4, 4)
    modifies dst
    ensures forall r, c :: 0 <= r < 4 && 0 <= c < 4 ==>
              Pel(dst[..], dBase, d.dstStride, r, c) == BlockPrediction(kind, ref[..], d.Fields(), r, c)
    ensures WholePel(d.mv) ==> forall r, c :: 0 <= r < 4 && 0 <= c < 4 ==>
              Pel(dst[..], dBase, d.dstStride, r, c) == Pel(ref[..], SourcePos(d.Fields()), d.preStride, r, c)
    ensures forall j :: 0 <= j < dst.Length && !InBlock(j, dBase, d.dstStride, 4, 4) ==> dst[j] == old(dst[j])
  {
    PredictBlock(kind, d.Fields(), ref, 4, 4, dst, dBase, d.dstStride);
  }

  // ---------------------------------------------------------------------
  // Split macroblocks: which blocks are predicted together

  /** bbb: the first block of each 8x8 quadrant of the 4x4 grid of Y blocks. */
  const Bbb: seq<int> := [0, 2, 8, 10]

  /** Quadrant i's first block is at block row 2 * (i / 2) and block
      column 2 * (i % 2), and it covers that block, its right neighbour and
      the two blocks below them; every Y block is in exactly one quadrant. */
  lemma BbbQuadrants(b: int)
    requires 0 <= b < 16
    ensures forall i | 0 <= i < 4 :: Bbb[i] == 4 * (2 * (i / 2)) + 2 * (i % 2)
    ensures forall i | 0 <= i < 4 :: Bbb[i] + 5 < 16
    ensures QuadrantOf(b) in {0, 1, 2, 3}
    ensures b in {Bbb[QuadrantOf(b)], Bbb[QuadrantOf(b)] + 1, Bbb[QuadrantOf(b)] + 4, Bbb[QuadrantOf(b)] + 5}
    ensures forall i | 0 <= i < 4 && i != QuadrantOf(b) :: b !in {Bbb[i], Bbb[i] + 1, Bbb[i] + 4, Bbb[i] + 5}
  {
  }

  /** The quadrant Y block b lies in. */
  function QuadrantOf(b: int): int
  {
    2 * (b / 8) + (b % 4) / 2
  }

  /** One prediction of a split macroblock: an 8x8 block at a quadrant's
      first block, an 8x4 block for two horizontally adjacent blocks, or a
      single 4x4 block. */
  datatype Prediction = Whole8x8(first: int) | Pair8x4(first: int) | Single4x4(block: int)

  /** Blocks `lo`, `lo + 2`, ... (`pairs` pairs): a pair with equal motion
      vectors (`mv.as_int` equal, so both components equal) is predicted as
      one 8x4 block, otherwise each block on its own. */
  function PairPlan(mvs: seq<MV>, lo: int, pairs: nat): (plan: seq<Prediction>)
    requires 0 <= lo && lo + 2 * pairs <= |mvs|
    decreases pairs
  {
    if pairs == 0 then [] else PairStep(mvs, lo) + PairPlan(mvs, lo + 2, pairs - 1)
  }

  /** The predictions of blocks i and i + 1. */
  function PairStep(mvs: seq<MV>, i: int): seq<Prediction>
    requires 0 <= i && i + 1 < |mvs|
  {
    if mvs[i] == mvs[i + 1] then [Pair8x4(i)] else [Single4x4(i), Single4x4(i + 1)]
  }

  /** One step of the pair rule writes blocks i and i + 1 once each. */
  lemma PairStepCoversOnce(mvs: seq<MV>, i: int, b: int)
    requires 0 <= i && i + 1 < |mvs|
    ensures CoverCount(PairStep(mvs, i), b) == if b == i || b == i + 1 then 1 else 0
  {
    var step := PairStep(mvs, i);
    if mvs[i] != mvs[i + 1] {
      var tail := step[1..];
      assert tail == [Single4x4(i + 1)] && tail[1..] == [];
      assert CoverCount(tail, b) == if b == i + 1 then 1 else 0;
    } else {
      assert step[1..] == [];
    }
  }

  /** One 8x8 prediction per quadrant, at the blocks of `bbb`. */
  function QuadrantPlan(): seq<Prediction>
  {
    [Whole8x8(Bbb[0]), Whole8x8(Bbb[1]), Whole8x8(Bbb[2]), Whole8x8(Bbb[3])]
  }

  /** The predictions of a split macroblock's Y blocks (`partitioning < 3`:
      four 8x8 quadrants; otherwise the pair rule) and of its U and V blocks
      (always the pair rule). */
  function SplitPlan(partitioning: int, mvs: seq<MV>): seq<Prediction>
    requires |mvs| == 24
  {
    (if partitioning < 3 then QuadrantPlan() else PairPlan(mvs, 0, 8))
    + PairPlan(mvs, 16, 4)
  }

  /** The blocks one prediction writes. */
  predicate Covers(p: Prediction, b: int)
  {
    match p
    case Whole8x8(q) => b == q || b == q + 1 || b == q + 4 || b == q + 5
    case Pair8x4(q) => b == q || b == q + 1
    case Single4x4(q) => b == q
  }

  /** How many predictions of a plan write block b. */
  function CoverCount(plan: seq<Prediction>, b: int): nat
  {
    if plan == [] then 0 else (if Covers(plan[0], b) then 1 else 0) + CoverCount(plan[1..], b)
  }

  lemma CoverCountAppend(p1: seq<Prediction>, p2: seq<Prediction>, b: int)
    ensures CoverCount(p1 + p2, b) == CoverCount(p1, b) + CoverCount(p2, b)
  {
    if p1 == [] {
      assert p1 + p2 == p2;
    } else {
      assert (p1 + p2)[0] == p1[0];
      assert (p1 + p2)[1..] == p1[1..] + p2;
      CoverCountAppend(p1[1..], p2, b);
    }
  }

  /** The pair rule writes every block of its `2 * pairs` blocks exactly
      once and no other block. */
  lemma {:induction false} PairPlanCoversOnce(mvs: seq<MV>, lo: int, pairs: nat, b: int)
    requires 0 <= lo && lo + 2 * pairs <= |mvs|
    ensures CoverCount(PairPlan(mvs, lo, pairs), b) == if lo <= b < lo + 2 * pairs then 1 else 0
    decreases pairs
  {
    if pairs > 0 {
      CoverCountAppend(PairStep(mvs, lo), PairPlan(mvs, lo + 2, pairs - 1), b);
      PairStepCoversOnce(mvs, lo, b);
      PairPlanCoversOnce(mvs, lo + 2, pairs - 1, b);
    }
  }

  /** The pair rule predicts blocks i and i + 1 together exactly when i is
      the first block of one of its pairs and their motion vectors are
      equal. */
  lemma {:induction false} PairPlanPairIff(mvs: seq<MV>, lo: int, pairs: nat, i: int)
    requires 0 <= lo && lo + 2 * pairs <= |mvs|
    ensures Pair8x4(i) in PairPlan(mvs, lo, pairs)
            <==> lo <= i < lo + 2 * pairs && (i - lo) % 2 == 0 && mvs[i] == mvs[i + 1]
    decreases pairs
  {
    if pairs > 0 {
      var rest := PairPlan(mvs, lo + 2, pairs - 1);
      assert PairPlan(mvs, lo, pairs) == PairStep(mvs, lo) + rest;
      assert Pair8x4(i) in PairStep(mvs, lo) <==> i == lo && mvs[lo] == mvs[lo + 1];
      PairPlanPairIff(mvs, lo + 2, pairs - 1, i);
    }
  }

  /** The four quadrant predictions write every Y block exactly once. */
  lemma QuadrantPlanCoversOnce(b: int)
    ensures CoverCount(QuadrantPlan(), b) == if 0 <= b < 16 then 1 else 0
  {
    var plan := QuadrantPlan();
    var p3 := plan[3..];
    assert p3[1..] == [];
    assert CoverCount(p3, b) == if Covers(plan[3], b) then 1 else 0;
    assert plan[2..][1..] == p3 && plan[2..][0] == plan[2];
    assert CoverCount(plan[2..], b) == (if Covers(plan[2], b) then 1 else 0) + CoverCount(p3, b);
    assert plan[1..][1..] == plan[2..] && plan[1..][0] == plan[1];
    assert CoverCount(plan[1..], b) == (if Covers(plan[1], b) then 1 else 0) + CoverCount(plan[2..], b);
    assert CoverCount(plan, b) == (if Covers(plan[0], b) then 1 else 0) + (if Covers(plan[1], b) then 1 else 0)
                                  + (if Covers(plan[2], b) then 1 else 0) + (if Covers(plan[3], b) then 1 else 0);
    if 0 <= b < 16 {
      BbbQuadrants(b);
    }
  }

  /** A split macroblock's plan writes each of the 24 Y, U and V blocks
      exactly once (the Y2 block is not predicted). */
  lemma SplitPlanCoversOnce(partitioning: int, mvs: seq<MV>, b: int)
    requires |mvs| == 24
    ensures CoverCount(SplitPlan(partitioning, mvs), b) == if 0 <= b < 24 then 1 else 0
  {
    var luma := if partitioning < 3 then QuadrantPlan() else PairPlan(mvs, 0, 8);
    CoverCountAppend(luma, PairPlan(mvs, 16, 4), b);
    PairPlanCoversOnce(mvs, 16, 4, b);
    if partitioning < 3 {
      QuadrantPlanCoversOnce(b);
    } else {
      PairPlanCoversOnce(mvs, 0, 8, b);
    }
  }
}
