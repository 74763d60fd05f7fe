// Per-block addressing inside a macroblock: where each of the 25 blocks
// finds its predictor, coefficients and end-of-block count, and where its
// pixels lie in the reference (PRED) and reconstruction (DEST) frames.

module MbPitch {
  import opened PixelBlocks
  import opened MotionVectors

  /** BLOCKSET: the frame a block is being addressed in. */
  datatype BlockSet = Pred | Dest

  datatype Plane = YPlane | UPlane | VPlane

  /** The frame-buffer pointer a block keeps (`&x->pre.y_buffer`, ...). */
  datatype BufferRef = BufferRef(frame: BlockSet, plane: Plane)

  /** The fields of a BLOCKD that this model reads or writes. */
  datatype BlockdFields = BlockdFields(
    predictorBase: array<byte>, predictorOffset: int,
    qcoeffBase: array<int>, qcoeffOffset: int,
    dqcoeffBase: array<int>, dqcoeffOffset: int,
    eobsBase: array<int>, eobsOffset: int, eob: int,
    pre: int, preStride: int, basePre: BufferRef,
    dst: int, dstStride: int, baseDst: BufferRef,
    mv: MV)

  /** BLOCKD: one 4x4 block of a macroblock. `eob` is the index in the
      macroblock's `eobs` that the block's `eob` pointer designates. */
  class Blockd {
    var predictorBase: array<byte>
    var predictorOffset: int
    var qcoeffBase: array<int>
    var qcoeffOffset: int
    var dqcoeffBase: array<int>
    var dqcoeffOffset: int
    var eobsBase: array<int>
    var eobsOffset: int
    var eob: int
    var pre: int
    var preStride: int
    var basePre: BufferRef
    var dst: int
    var dstStride: int
    var baseDst: BufferRef
    var mv: MV

    function Fields(): BlockdFields
      reads this
    {
      BlockdFields(predictorBase, predictorOffset, qcoeffBase, qcoeffOffset, dqcoeffBase, dqcoeffOffset,
                   eobsBase, eobsOffset, eob, pre, preStride, basePre, dst, dstStride, baseDst, mv)
    }

    constructor (predictor: array<byte>, coeffs: array<int>, eobs: array<int>)
      ensures Fields() == BlockdFields(predictor, 0, coeffs, 0, coeffs, 0, eobs, 0, 0,
                                       0, 0, BufferRef(Pred, YPlane), 0, 0, BufferRef(Dest, YPlane), MV(0, 0))
    {
      predictorBase, predictorOffset := predictor, 0;
      qcoeffBase, qcoeffOffset := coeffs, 0;
      dqcoeffBase, dqcoeffOffset := coeffs, 0;
      eobsBase, eobsOffset, eob := eobs, 0, 0;
      pre, preStride, basePre := 0, 0, BufferRef(Pred, YPlane);
      dst, dstStride, baseDst := 0, 0, BufferRef(Dest, YPlane);
      mv := MV(0, 0);
    }
  }

  /** MACROBLOCKD: the 25 blocks (16 Y, 4 U, 4 V, Y2), the 384-sample
      predictor, the coefficient and eob buffers, and the strides of the
      reconstruction frame (`x->dst.y_stride`, `x->dst.uv_stride`). */
  class Macroblockd {
    var block: array<Blockd>
    var predictor: array<byte>
    var qcoeff: array<int>
    var dqcoeff: array<int>
    var eobs: array<int>
    var yStride: int
    var uvStride: int

    /** The 25 blocks are 25 distinct records, as in the embedded array. */
    ghost predicate Valid()
      reads this, block
    {
      block.Length == 25 && (forall i, j :: 0 <= i < j < 25 ==> block[i] != block[j])
    }

    constructor (yStride: int, uvStride: int)
      ensures Valid() && fresh(block) && this.yStride == yStride && this.uvStride == uvStride
      ensures predictor.Length == 384 && qcoeff.Length == 400 && dqcoeff.Length == 400 && eobs.Length == 25
    {
      var p := new byte[384];
      var q := new int[400];
      var dq := new int[400];
      var e := new int[25];
      var b0 := new Blockd(p, q, e);
      var bs := new Blockd[25](_ => b0);
      var k := 1;
      while k < 25
        invariant 1 <= k <= 25
        invariant forall i, j :: 0 <= i < j < k ==> bs[i] != bs[j]
      {
        bs[k] := new Blockd(p, q, e);
        k := k + 1;
      }
      block, predictor, qcoeff, dqcoeff, eobs := bs, p, q, dq, e;
      this.yStride, this.uvStride := yStride, uvStride;
    }
  }

  // ---------------------------------------------------------------------
  // Offsets inside the macroblock predictor

  /** Offset of block b in the predictor: the 16 Y blocks at pitch 16, then
      the 8x8 U area at 256 and the 8x8 V area at 320, both at pitch 8. */
  function PredictorOffset(b: int): int
    requires 0 <= b < 24
  {
    if b < 16 then (b / 4) * 4 * 16 + (b % 4) * 4
    else if b < 20 then 256 + ((b - 16) / 2) * 4 * 8 + ((b - 16) % 2) * 4
    else 320 + ((b - 20) / 2) * 4 * 8 + ((b - 20) % 2) * 4
  }

  /** Row pitch of block b's area of the predictor. */
  function PredictorPitch(b: int): int
  {
    if b < 16 then 16 else 8
  }

  /** Position of sample (r, c) of block b in the predictor. */
  function PredictorPos(b: int, r: int, c: int): int
    requires 0 <= b < 24
  {
    PredictorOffset(b) + (if b < 16 then 16 * r else 8 * r) + c
  }

  /** The Y offsets are r * 64 + c * 4, inside [0, 256); the U offsets are
      256 + r * 32 + c * 4, inside [256, 320); the V offsets are
      320 + r * 32 + c * 4, inside [320, 384). */
  lemma PredictorOffsetTable(b: int)
    requires 0 <= b < 24
    ensures b < 16 ==> PredictorOffset(b) == (b / 4) * 64 + (b % 4) * 4 && 0 <= PredictorOffset(b) < 256
    ensures 16 <= b < 20 ==> PredictorOffset(b) == 256 + ((b - 16) / 2) * 32 + (b % 2) * 4
                             && 256 <= PredictorOffset(b) < 320
    ensures 20 <= b ==> PredictorOffset(b) == 320 + ((b - 20) / 2) * 32 + (b % 2) * 4
                        && 320 <= PredictorOffset(b) < 384
  {
  }

  /** A Y-area position 64q + 16r + 4s + c determines its digits. */
  lemma YDigitsUnique(q: int, r: int, s: int, c: int, q2: int, r2: int, s2: int, c2: int)
    requires 0 <= q < 4 && 0 <= r < 4 && 0 <= s < 4 && 0 <= c < 4
    requires 0 <= q2 < 4 && 0 <= r2 < 4 && 0 <= s2 < 4 && 0 <= c2 < 4
    requires 64 * q + 16 * r + 4 * s + c == 64 * q2 + 16 * r2 + 4 * s2 + c2
    ensures q == q2 && r == r2 && s == s2 && c == c2
  {
  }

  /** A chroma-area position 32q + 8r + 4s + c determines its digits. */
  lemma UVDigitsUnique(q: int, r: int, s: int, c: int, q2: int, r2: int, s2: int, c2: int)
    requires 0 <= q < 2 && 0 <= r < 4 && 0 <= s < 2 && 0 <= c < 4
    requires 0 <= q2 < 2 && 0 <= r2 < 4 && 0 <= s2 < 2 && 0 <= c2 < 4
    requires 32 * q + 8 * r + 4 * s + c == 32 * q2 + 8 * r2 + 4 * s2 + c2
    ensures q == q2 && r == r2 && s == s2 && c == c2
  {
  }

  /** Block b's 4x4 area lies inside its plane's part of the predictor. */
  lemma PredictorPosRange(b: int, r: int, c: int)
    requires 0 <= b < 24 && 0 <= r < 4 && 0 <= c < 4
    ensures b < 16 ==> 0 <= PredictorPos(b, r, c) < 256
    ensures 16 <= b < 20 ==> 256 <= PredictorPos(b, r, c) < 320
    ensures 20 <= b ==> 320 <= PredictorPos(b, r, c) < 384
  {
  }

  lemma YPosInjective(a: int, r: int, c: int, b: int, r2: int, c2: int)
    requires 0 <= a < 16 && 0 <= r < 4 && 0 <= c < 4
    requires 0 <= b < 16 && 0 <= r2 < 4 && 0 <= c2 < 4
    requires PredictorPos(a, r, c) == PredictorPos(b, r2, c2)
    ensures a == b && r == r2 && c == c2
  {
    YDigitsUnique(a / 4, r, a % 4, c, b / 4, r2, b % 4, c2);
  }

  lemma UPosInjective(a: int, r: int, c: int, b: int, r2: int, c2: int)
    requires 16 <= a < 20 && 0 <= r < 4 && 0 <= c < 4
    requires 16 <= b < 20 && 0 <= r2 < 4 && 0 <= c2 < 4
    requires PredictorPos(a, r, c) == PredictorPos(b, r2, c2)
    ensures a == b && r == r2 && c == c2
  {
    UVDigitsUnique((a - 16) / 2, r, (a - 16) % 2, c, (b - 16) / 2, r2, (b - 16) % 2, c2);
  }

  lemma VPosInjective(a: int, r: int, c: int, b: int, r2: int, c2: int)
    requires 20 <= a < 24 && 0 <= r < 4 && 0 <= c < 4
    requires 20 <= b < 24 && 0 <= r2 < 4 && 0 <= c2 < 4
    requires PredictorPos(a, r, c) == PredictorPos(b, r2, c2)
    ensures a == b && r == r2 && c == c2
  {
    UVDigitsUnique((a - 20) / 2, r, (a - 20) % 2, c, (b - 20) / 2, r2, (b - 20) % 2, c2);
  }

  /** The 24 areas of 4x4 samples do not overlap: a predictor position
      names one block, one row and one column. */
  lemma PredictorPosInjective(a: int, r: int, c: int, b: int, r2: int, c2: int)
    requires 0 <= a < 24 && 0 <= r < 4 && 0 <= c < 4
    requires 0 <= b < 24 && 0 <= r2 < 4 && 0 <= c2 < 4
    requires PredictorPos(a, r, c) == PredictorPos(b, r2, c2)
    ensures a == b && r == r2 && c == c2
  {
    PredictorPosRange(a, r, c);
    PredictorPosRange(b, r2, c2);
    if a < 16 {
      YPosInjective(a, r, c, b, r2, c2);
    } else if a < 20 {
      UPosInjective(a, r, c, b, r2, c2);
    } else {
      VPosInjective(a, r, c, b, r2, c2);
    }
  }

  /** Distinct blocks have distinct predictor offsets. */
  lemma PredictorOffsetsDistinct(a: int, b: int)
    requires 0 <= a < 24 && 0 <= b < 24 && a != b
    ensures PredictorOffset(a) != PredictorOffset(b)
  {
    if PredictorOffset(a) == PredictorOffset(b) {
      PredictorPosInjective(a, 0, 0, b, 0, 0);
    }
  }

  // ---------------------------------------------------------------------
  // Frame addressing (setup_block, setup_macroblock, build_block_doffsets)

  /** The plane block b (0 <= b < 24) belongs to. */
  function PlaneOf(b: int): Plane
  {
    if b < 16 then YPlane else if b < 20 then UPlane else VPlane
  }

  /** setup_block: record `stride`, `offset` and `base` as the block's
      DEST or PRED address; the other set is left as it was. */
  function Addressed(f: BlockdFields, bs: BlockSet, base: BufferRef, stride: int, offset: int): BlockdFields
  {
    if bs == Dest then f.(dstStride := stride, dst := offset, baseDst := base)
    else f.(preStride := stride, pre := offset, basePre := base)
  }

  /** Offset of block b's top-left pixel from its plane's buffer pointer:
      4x4 Y blocks in a 4x4 grid at the luma stride, 4x4 U blocks (16..19)
      and V blocks (20..23) in 2x2 grids at the chroma stride. A V block
      takes the offset of the U block four before it. */
  function FrameOffset(b: int, yStride: int, uvStride: int): int
    requires 0 <= b < 24
  {
    if b < 16 then (b / 4) * 4 * yStride + (b % 4) * 4
    else if b < 20 then ((b - 16) / 2) * 4 * uvStride + (b % 2) * 4
    else ((b - 4 - 16) / 2) * 4 * uvStride + ((b - 4) % 2) * 4
  }

  /** What setup_macroblock leaves in block b: blocks 0..23 are addressed
      in their plane of `bs` at the plane's stride; block 24 (Y2) is not
      touched. */
  function MacroblockAddressed(f: BlockdFields, b: int, bs: BlockSet, yStride: int, uvStride: int): BlockdFields
    requires 0 <= b < 25
  {
    if b == 24 then f
    else Addressed(f, bs, BufferRef(bs, PlaneOf(b)), if b < 16 then yStride else uvStride,
                   FrameOffset(b, yStride, uvStride))
  }

  method SetupBlock(b: Blockd, mvStride: int, base: BufferRef, stride: int, offset: int, bs: BlockSet)
    modifies b
    ensures b.Fields() == Addressed(old(b.Fields()), bs, base, stride, offset)
  {
    if bs == Dest {
      b.dstStride := stride;
      b.dst := offset;
      b.baseDst := base;
    } else {
      b.preStride := stride;
      b.pre := offset;
      b.basePre := base;
    }
  }

  /** setup_block applied to `&x->block[k]`: block k is addressed and
      every other block of the macroblock keeps its fields. */
  method SetupBlockAt(x: Macroblockd, k: int, mvStride: int, base: BufferRef, stride: int, offset: int, bs: BlockSet)
    requires x.Valid() && 0 <= k < 25
    modifies x.block[k]
    ensures x.block[k].Fields() == Addressed(old(x.block[k].Fields()), bs, base, stride, offset)
    ensures forall i | 0 <= i < 25 && i != k :: x.block[i].Fields() == old(x.block[i].Fields())
  {
    SetupBlock(x.block[k], mvStride, base, stride, offset, bs);
  }

  /** The Y loop of setup_macroblock: blocks 0..15 at the luma stride. */
  method SetupLumaBlocks(x: Macroblockd, bs: BlockSet)
    requires x.Valid()
    modifies x.block[..]
    ensures forall i | 0 <= i < 16 ::
      x.block[i].Fields() == MacroblockAddressed(old(x.block[i].Fields()), i, bs, x.yStride, x.uvStride)
    ensures forall i | 16 <= i < 25 :: x.block[i].Fields() == old(x.block[i].Fields())
  {
    var y := BufferRef(bs, YPlane);
    var block := 0;
    while block < 16
      invariant 0 <= block <= 16
      invariant forall i | 0 <= i < block ::
        x.block[i].Fields() == MacroblockAddressed(old(x.block[i].Fields()), i, bs, x.yStride, x.uvStride)
      invariant forall i | block <= i < 25 :: x.block[i].Fields() == old(x.block[i].Fields())
    {
      var offset := (block / 4) * 4 * x.yStride + (block % 4) * 4;
      assert offset == FrameOffset(block, x.yStride, x.uvStride);
      SetupBlockAt(x, block, x.yStride, y, x.yStride, offset, bs);
      block := block + 1;
    }
  }

  /** The U and V loop of setup_macroblock: U block b (16..19) and V block
      b + 4 get the same offset at the chroma stride. */
  method SetupChromaBlocks(x: Macroblockd, bs: BlockSet)
    requires x.Valid()
    modifies x.block[..]
    ensures forall i | 16 <= i < 24 ::
      x.block[i].Fields() == MacroblockAddressed(old(x.block[i].Fields()), i, bs, x.yStride, x.uvStride)
    ensures forall i | 0 <= i < 16 || i == 24 :: x.block[i].Fields() == old(x.block[i].Fields())
  {
    var u, v := BufferRef(bs, UPlane), BufferRef(bs, VPlane);
    var block := 16;
    while block < 20
      invariant 16 <= block <= 20
      invariant forall i | 16 <= i < block || 20 <= i < block + 4 ::
        x.block[i].Fields() == MacroblockAddressed(old(x.block[i].Fields()), i, bs, x.yStride, x.uvStride)
      invariant forall i | 0 <= i < 16 || block <= i < 20 || block + 4 <= i < 25 ::
        x.block[i].Fields() == old(x.block[i].Fields())
    {
      var offset := ((block - 16) / 2) * 4 * x.uvStride + (block % 2) * 4;
      assert offset == FrameOffset(block, x.yStride, x.uvStride) == FrameOffset(block + 4, x.yStride, x.uvStride);
      SetupBlockAt(x, block, x.uvStride, u, x.uvStride, offset, bs);
      SetupBlockAt(x, block + 4, x.uvStride, v, x.uvStride, offset, bs);
      block := block + 1;
    }
  }

  /** setup_macroblock: address blocks 0..23 in the buffers of `bs`. */
  method SetupMacroblock(x: Macroblockd, bs: BlockSet)
    requires x.Valid()
    modifies x.block[..]
    ensures forall i | 0 <= i < 25 ::
      x.block[i].Fields() == MacroblockAddressed(old(x.block[i].Fields()), i, bs, x.yStride, x.uvStride)
  {
    SetupLumaBlocks(x, bs);
    SetupChromaBlocks(x, bs);
  }

  /** vp8_build_block_doffsets: address every block in DEST, then in PRED.
      Both use the reconstruction frame's strides, so a block's PRED and
      DEST addresses share offset and stride. */
  method BuildBlockDoffsets(x: Macroblockd)
    requires x.Valid()
    modifies x.block[..]
    ensures forall i | 0 <= i < 25 ::
      x.block[i].Fields()
        == MacroblockAddressed(MacroblockAddressed(old(x.block[i].Fields()), i, Dest, x.yStride, x.uvStride),
                               i, Pred, x.yStride, x.uvStride)
    ensures forall i | 0 <= i < 24 ::
      x.block[i].pre == x.block[i].dst == FrameOffset(i, x.yStride, x.uvStride)
      && x.block[i].preStride == x.block[i].dstStride
      && x.block[i].basePre.plane == x.block[i].baseDst.plane == PlaneOf(i)
  {
    SetupMacroblock(x, Dest);
    SetupMacroblock(x, Pred);
  }

  /** Row stride of block b's plane. */
  function FrameStride(b: int, yStride: int, uvStride: int): int
  {
    if b < 16 then yStride else uvStride
  }

  /** Pixel row and column of block b's top-left sample inside the
      macroblock's area of its plane: the Y blocks in raster order, four to
      a row; the U blocks and the V blocks in raster order, two to a row. */
  function BlockRow(b: int): int
    requires 0 <= b < 24
  {
    if b < 16 then 4 * (b / 4) else 4 * (((b - 16) % 4) / 2)
  }

  function BlockCol(b: int): int
    requires 0 <= b < 24
  {
    if b < 16 then 4 * (b % 4) else 4 * (((b - 16) % 4) % 2)
  }

  /** The offset setup_macroblock gives block b is the sample at
      (BlockRow(b), BlockCol(b)) of a 16x16 luma or 8x8 chroma area, and a
      V block lies where the U block four before it lies in its plane. */
  lemma FrameOffsetIsBlockCorner(b: int, yStride: int, uvStride: int)
    requires 0 <= b < 24
    ensures FrameOffset(b, yStride, uvStride) == Off(0, FrameStride(b, yStride, uvStride), BlockRow(b), BlockCol(b))
    ensures b < 16 ==> 0 <= BlockRow(b) <= 12 && 0 <= BlockCol(b) <= 12
    ensures 16 <= b ==> 0 <= BlockRow(b) <= 4 && 0 <= BlockCol(b) <= 4
    ensures 16 <= b < 20 ==> FrameOffset(b + 4, yStride, uvStride) == FrameOffset(b, yStride, uvStride)
  {
    if b < 16 {
      LumaCorner(b, yStride, uvStride);
    } else {
      ChromaCorner(b, yStride, uvStride);
      if b < 20 {
        ChromaCorner(b + 4, yStride, uvStride);
      }
    }
  }

  lemma LumaCorner(b: int, yStride: int, uvStride: int)
    requires 0 <= b < 16
    ensures FrameOffset(b, yStride, uvStride) == Off(0, yStride, BlockRow(b), BlockCol(b))
  {
    var q := b / 4;
    assert FrameOffset(b, yStride, uvStride) == q * 4 * yStride + (b % 4) * 4;
    assert BlockRow(b) * yStride == q * 4 * yStride;
  }

  lemma ChromaCorner(b: int, yStride: int, uvStride: int)
    requires 16 <= b < 24
    ensures FrameOffset(b, yStride, uvStride) == Off(0, uvStride, BlockRow(b), BlockCol(b))
    ensures FrameOffset(b, yStride, uvStride) == 4 * (((b - 16) % 4) / 2) * uvStride + 4 * (((b - 16) % 4) % 2)
  {
    var k := (b - 16) % 4;
    var q := k / 2;
    if b < 20 {
      assert FrameOffset(b, yStride, uvStride) == q * 4 * uvStride + (k % 2) * 4;
    } else {
      assert FrameOffset(b, yStride, uvStride) == q * 4 * uvStride + (k % 2) * 4;
    }
    assert BlockRow(b) * uvStride == q * 4 * uvStride;
  }

  /** Two blocks of one plane never share a frame sample, provided the
      stride is at least the macroblock's width in that plane. */
  lemma FrameAreasDisjoint(a: int, r: int, c: int, b: int, r2: int, c2: int, yStride: int, uvStride: int)
    requires 16 <= yStride && 8 <= uvStride
    requires 0 <= a < 24 && 0 <= b < 24 && PlaneOf(a) == PlaneOf(b)
    requires 0 <= r < 4 && 0 <= c < 4 && 0 <= r2 < 4 && 0 <= c2 < 4
    requires Off(FrameOffset(a, yStride, uvStride), FrameStride(a, yStride, uvStride), r, c)
          == Off(FrameOffset(b, yStride, uvStride), FrameStride(b, yStride, uvStride), r2, c2)
    ensures a == b && r == r2 && c == c2
  {
    var stride := FrameStride(a, yStride, uvStride);
    FrameOffsetIsBlockCorner(a, yStride, uvStride);
    FrameOffsetIsBlockCorner(b, yStride, uvStride);
    OffShift(stride, BlockRow(a), BlockCol(a), r, c);
    OffShift(stride, BlockRow(b), BlockCol(b), r2, c2);
    OffUnique(stride, BlockRow(a) + r, BlockCol(a) + c, BlockRow(b) + r2, BlockCol(b) + c2);
    BlockCornerUnique(a, r, c, b, r2, c2);
  }

  /** Within one plane, a block's corner plus an in-block displacement
      names the block and the displacement. */
  lemma BlockCornerUnique(a: int, r: int, c: int, b: int, r2: int, c2: int)
    requires 0 <= a < 24 && 0 <= b < 24 && PlaneOf(a) == PlaneOf(b)
    requires 0 <= r < 4 && 0 <= c < 4 && 0 <= r2 < 4 && 0 <= c2 < 4
    requires BlockRow(a) + r == BlockRow(b) + r2 && BlockCol(a) + c == BlockCol(b) + c2
    ensures a == b && r == r2 && c == c2
  {
    if a < 16 {
      YDigitsUnique(a / 4, r, a % 4, c, b / 4, r2, b % 4, c2);
    } else {
      var base := if a < 20 then 16 else 20;
      var ka, kb := a - base, b - base;
      assert (a - 16) % 4 == ka && (b - 16) % 4 == kb;
      UVDigitsUnique(ka / 2, r, ka % 2, c, kb / 2, r2, kb % 2, c2);
    }
  }

  // ---------------------------------------------------------------------
  // vp8_setup_block_dptrs

  /** Block b's predictor pointer after vp8_setup_block_dptrs: blocks
      0..23 point into the macroblock predictor at PredictorOffset(b); the
      Y2 block keeps its pointer. */
  function PredictorSet(f: BlockdFields, b: int, predictor: array<byte>): BlockdFields
    requires 0 <= b < 25
  {
    if b < 24 then f.(predictorBase := predictor, predictorOffset := PredictorOffset(b)) else f
  }

  /** Block b's coefficient and eob pointers after vp8_setup_block_dptrs:
      16 coefficients per block in block order, one eob per block. */
  function CoefficientsSet(f: BlockdFields, b: int, qcoeff: array<int>, dqcoeff: array<int>, eobs: array<int>): BlockdFields
  {
    f.(qcoeffBase := qcoeff, qcoeffOffset := b * 16, dqcoeffBase := dqcoeff, dqcoeffOffset := b * 16,
       eobsBase := eobs, eobsOffset := b, eob := b)
  }

  /** `x->block[k].predictor_base/offset = ...`; the other blocks keep their fields. */
  method SetPredictorAt(x: Macroblockd, k: int, offset: int)
    requires x.Valid() && 0 <= k < 25
    modifies x.block[k]
    ensures x.block[k].Fields() == old(x.block[k].Fields()).(predictorBase := x.predictor, predictorOffset := offset)
    ensures forall i | 0 <= i < 25 && i != k :: x.block[i].Fields() == old(x.block[i].Fields())
  {
    x.block[k].predictorBase := x.predictor;
    x.block[k].predictorOffset := offset;
  }

  /** The coefficient and eob assignments to `x->block[k]`. */
  method SetCoefficientsAt(x: Macroblockd, k: int)
    requires x.Valid() && 0 <= k < 25
    modifies x.block[k]
    ensures x.block[k].Fields() == CoefficientsSet(old(x.block[k].Fields()), k, x.qcoeff, x.dqcoeff, x.eobs)
    ensures forall i | 0 <= i < 25 && i != k :: x.block[i].Fields() == old(x.block[i].Fields())
  {
    var b := x.block[k];
    b.qcoeffBase := x.qcoeff;
    b.qcoeffOffset := k * 16;
    b.dqcoeffBase := x.dqcoeff;
    b.dqcoeffOffset := k * 16;
    b.eobsBase := x.eobs;
    b.eobsOffset := k;
    b.eob := k;
  }

  /** The Y loop: block r * 4 + c gets offset r * 4 * 16 + c * 4. */
  method SetupLumaPredictors(x: Macroblockd)
    requires x.Valid()
    modifies x.block[..]
    ensures forall i | 0 <= i < 16 :: x.block[i].Fields() == PredictorSet(old(x.block[i].Fields()), i, x.predictor)
    ensures forall i | 16 <= i < 25 :: x.block[i].Fields() == old(x.block[i].Fields())
  {
    var r := 0;
    while r < 4
      invariant 0 <= r <= 4
      invariant forall i | 0 <= i < r * 4 :: x.block[i].Fields() == PredictorSet(old(x.block[i].Fields()), i, x.predictor)
      invariant forall i | r * 4 <= i < 25 :: x.block[i].Fields() == old(x.block[i].Fields())
    {
      var c := 0;
      while c < 4
        invariant 0 <= c <= 4
        invariant forall i | 0 <= i < r * 4 + c :: x.block[i].Fields() == PredictorSet(old(x.block[i].Fields()), i, x.predictor)
        invariant forall i | r * 4 + c <= i < 25 :: x.block[i].Fields() == old(x.block[i].Fields())
      {
        LumaPredictorOffset(r, c);
        SetPredictorAt(x, r * 4 + c, r * 4 * 16 + c * 4);
        c := c + 1;
      }
      r := r + 1;
    }
  }

  /** The U loop (first == 16, area == 256) and the V loop (first == 20,
      area == 320): block first + r * 2 + c gets offset area + r * 4 * 8 + c * 4. */
  method SetupChromaPredictors(x: Macroblockd, first: int, area: int)
    requires x.Valid() && (first, area) in {(16, 256), (20, 320)}
    modifies x.block[..]
    ensures forall i | first <= i < first + 4 ::
      x.block[i].Fields() == PredictorSet(old(x.block[i].Fields()), i, x.predictor)
    ensures forall i | 0 <= i < first || first + 4 <= i < 25 :: x.block[i].Fields() == old(x.block[i].Fields())
  {
    var r := 0;
    while r < 2
      invariant 0 <= r <= 2
      invariant forall i | first <= i < first + r * 2 ::
        x.block[i].Fields() == PredictorSet(old(x.block[i].Fields()), i, x.predictor)
      invariant forall i | 0 <= i < first || first + r * 2 <= i < 25 :: x.block[i].Fields() == old(x.block[i].Fields())
    {
      var c := 0;
      while c < 2
        invariant 0 <= c <= 2
        invariant forall i | first <= i < first + r * 2 + c ::
          x.block[i].Fields() == PredictorSet(old(x.block[i].Fields()), i, x.predictor)
        invariant forall i | 0 <= i < first || first + r * 2 + c <= i < 25 :: x.block[i].Fields() == old(x.block[i].Fields())
      {
        ChromaPredictorOffset(first, area, r, c);
        SetPredictorAt(x, first + r * 2 + c, area + r * 4 * 8 + c * 4);
        c := c + 1;
      }
      r := r + 1;
    }
  }

  lemma LumaPredictorOffset(r: int, c: int)
    requires 0 <= r < 4 && 0 <= c < 4
    ensures PredictorOffset(r * 4 + c) == r * 4 * 16 + c * 4
  {
  }

  lemma ChromaPredictorOffset(first: int, area: int, r: int, c: int)
    requires (first, area) in {(16, 256), (20, 320)} && 0 <= r < 2 && 0 <= c < 2
    ensures PredictorOffset(first + r * 2 + c) == area + r * 4 * 8 + c * 4
  {
  }

  /** vp8_setup_block_dptrs: predictor pointers for blocks 0..23, then
      coefficient and eob pointers for all 25 blocks. */
  method SetupBlockDptrs(x: Macroblockd)
    requires x.Valid()
    modifies x.block[..]
    ensures forall i | 0 <= i < 25 ::
      x.block[i].Fields()
        == CoefficientsSet(PredictorSet(old(x.block[i].Fields()), i, x.predictor), i, x.qcoeff, x.dqcoeff, x.eobs)
  {
    SetupLumaPredictors(x);
    SetupChromaPredictors(x, 16, 256);
    SetupChromaPredictors(x, 20, 320);
    var r := 0;
    while r < 25
      invariant 0 <= r <= 25
      invariant forall i | 0 <= i < r ::
        x.block[i].Fields()
          == CoefficientsSet(PredictorSet(old(x.block[i].Fields()), i, x.predictor), i, x.qcoeff, x.dqcoeff, x.eobs)
      invariant forall i | r <= i < 25 :: x.block[i].Fields() == PredictorSet(old(x.block[i].Fields()), i, x.predictor)
    {
      SetCoefficientsAt(x, r);
      r := r + 1;
    }
  }
}
