// The sub-pixel interpolation filters: the six-tap and bilinear two-pass
// filters, their block drivers, and the block variation measure.

module SubpelFilters {
  import opened PixelBlocks

  const VP8_FILTER_WEIGHT: int := 128
  /** `>> VP8_FILTER_SHIFT` (7) on a C `int` is a floor division by 128. */
  const VP8_FILTER_SHIFT_DIVISOR: int := 128

  /** `sub_pel_filters`: the six taps for each eighth-pel phase. */
  const SixTapFilters: seq<seq<int>> := [
    [0,   0, 128,   0,   0, 0],
    [0,  -6, 123,  12,  -1, 0],
    [2, -11, 108,  36,  -8, 1],
    [0,  -9,  93,  50,  -6, 0],
    [3, -16,  77,  77, -16, 3],
    [0,  -6,  50,  93,  -9, 0],
    [1,  -8,  36, 108, -11, 2],
    [0,  -1,  12, 123,  -6, 0]
  ]

  /** `bilinear_filters`: the two taps for each eighth-pel phase. */
  const BilinearFilters: seq<seq<int>> := [
    [128,   0],
    [112,  16],
    [ 96,  32],
    [ 80,  48],
    [ 64,  64],
    [ 48,  80],
    [ 32,  96],
    [ 16, 112]
  ]

  function Sum(s: seq<int>): int
  {
    if |s| == 0 then 0 else s[0] + Sum(s[1..])
  }

  /** Every six-tap row sums to VP8_FILTER_WEIGHT. */
  lemma SixTapRowsSumToWeight()
    ensures |SixTapFilters| == 8
    ensures forall k :: 0 <= k < 8 ==> |SixTapFilters[k]| == 6 && Sum(SixTapFilters[k]) == VP8_FILTER_WEIGHT
  {
  }

  /** Every bilinear row sums to VP8_FILTER_WEIGHT and has no negative tap. */
  lemma BilinearRowsSumToWeight()
    ensures |BilinearFilters| == 8
    ensures forall k :: 0 <= k < 8 ==>
              |BilinearFilters[k]| == 2 && Sum(BilinearFilters[k]) == VP8_FILTER_WEIGHT
              && 0 <= BilinearFilters[k][0] && 0 <= BilinearFilters[k][1]
  {
  }

  /** CLAMP(x, 0, 255). */
  function Clamp255(x: int): (r: int)
    ensures 0 <= r <= 255
    ensures 0 <= x <= 255 ==> r == x
  {
    if x < 0 then 0 else if x > 255 then 255 else x
  }

  /** One sample of a six-tap pass: the weighted sum plus the rounding half,
      shifted down by VP8_FILTER_SHIFT and clamped to a pixel. */
  function SixTap(f: seq<int>, p0: int, p1: int, p2: int, p3: int, p4: int, p5: int): (r: int)
    requires |f| == 6
    ensures 0 <= r <= 255
  {
    Clamp255((p0 * f[0] + p1 * f[1] + p2 * f[2] + p3 * f[3] + p4 * f[4] + p5 * f[5]
              + VP8_FILTER_WEIGHT / 2) / VP8_FILTER_SHIFT_DIVISOR)
  }

  /** With phase 0 a six-tap pass reproduces its centre pixel. */
  lemma SixTapPhaseZero(p0: int, p1: int, p2: int, p3: int, p4: int, p5: int)
    requires 0 <= p2 <= 255
    ensures SixTap(SixTapFilters[0], p0, p1, p2, p3, p4, p5) == p2
  {
    assert (p2 * 128 + 64) / 128 == p2;
  }

  /** Sample `i` of an `int` buffer snapshot (the filters' scratch data). */
  function AtI(a: seq<int>, i: int): int
  {
    if 0 <= i < |a| then a[i] else 0
  }

  // ---------------------------------------------------------------------
  // The six-tap passes, over the flat output index `i` as the source loops

  /** `i + (i / w) * (src_pixels_per_line - w)`: the input position of
      output `i`, skipping the rest of each input row. */
  function SrcOffset(i: int, w: int, spl: int): int
    requires 0 < w
  {
    i + (i / w) * (spl - w)
  }

  /** The input position of output `i` is its row times the input stride
      plus its column. */
  lemma SrcOffsetIsRowCol(i: int, w: int, spl: int)
    requires 0 < w
    ensures SrcOffset(i, w, spl) == (i / w) * spl + i % w
  {
    assert (i / w) * (spl - w) == (i / w) * spl - (i / w) * w;
  }

  /** `(i - (i / w) * w) + (i / w) * pitch`: the output position of output
      `i` in the second pass. */
  function OutOffset(i: int, w: int, pitch: int): int
    requires 0 < w
  {
    (i - (i / w) * w) + (i / w) * pitch
  }

  /** Output `i` of the second pass lands at row i / w, column i % w of the
      destination block. */
  lemma OutOffsetIsRowCol(base: int, i: int, w: int, pitch: int)
    requires 0 < w
    ensures base + OutOffset(i, w, pitch) == Off(base, pitch, i / w, i % w)
  {
  }

  /** Output `i` of a first pass reading `ps` apart from `base`. */
  function FirstPassAt(src: seq<byte>, base: int, spl: int, ps: int, w: int, f: seq<int>, i: int): int
    requires 0 < w && |f| == 6
  {
    var a := base + SrcOffset(i, w, spl);
    SixTap(f, At(src, a - 2 * ps), At(src, a - ps), At(src, a), At(src, a + ps), At(src, a + 2 * ps), At(src, a + 3 * ps))
  }

  /** Output `i` of a second pass reading the scratch data `ps` apart. */
  function SecondPassAt(fd: seq<int>, base: int, spl: int, ps: int, w: int, f: seq<int>, i: int): int
    requires 0 < w && |f| == 6
  {
    var a := base + SrcOffset(i, w, spl);
    SixTap(f, AtI(fd, a - 2 * ps), AtI(fd, a - ps), AtI(fd, a), AtI(fd, a + ps), AtI(fd, a + 2 * ps), AtI(fd, a + 3 * ps))
  }

  /** Every tap of every output of a pass lies inside a buffer of `len`. */
  predicate PassReadable(len: int, base: int, spl: int, ps: int, h: int, w: int)
    requires 0 < w
  {
    forall i :: 0 <= i < h * w ==> 0 <= base + SrcOffset(i, w, spl) - 2 * ps && base + SrcOffset(i, w, spl) + 3 * ps < len
  }

  /** vp8_filter_block2d_first_pass_cl: `h` rows of `w` outputs, stored
      densely, each the six-tap filter of the input around its position. */
  method FirstPass(src: array<byte>, base: int, out: array<int>, spl: int, ps: int, h: int, w: int, f: seq<int>)
    requires 0 < w <= spl && 0 <= ps && 0 <= h && |f| == 6
    requires h * w <= out.Length
    requires PassReadable(src.Length, base, spl, ps, h, w)
    modifies out
    ensures forall i :: 0 <= i < h * w ==> out[i] == FirstPassAt(src[..], base, spl, ps, w, f, i)
    ensures forall j :: h * w <= j < out.Length ==> out[j] == old(out[j])
  {
    var i := 0;
    while i < h * w
      invariant 0 <= i <= h * w
      invariant forall k :: 0 <= k < i ==> out[k] == FirstPassAt(src[..], base, spl, ps, w, f, k)
      invariant forall j :: i <= j < out.Length ==> out[j] == old(out[j])
    {
      var row := i / w;
      var outOffset := (i - row * w) + row * w;
      var srcOffset := i + row * (spl - w);
      var a := base + srcOffset;
      assert srcOffset == SrcOffset(i, w, spl);
      var temp := src[a - 2 * ps] as int * f[0] + src[a - ps] as int * f[1] + src[a] as int * f[2]
                  + src[a + ps] as int * f[3] + src[a + 2 * ps] as int * f[4] + src[a + 3 * ps] as int * f[5]
                  + VP8_FILTER_WEIGHT / 2;
      temp := temp / VP8_FILTER_SHIFT_DIVISOR;
      if temp < 0 {
        temp := 0;
      } else if temp > 255 {
        temp := 255;
      }
      out[outOffset] := temp;
      i := i + 1;
    }
  }

  /** The six-tap sum of the scratch data around position `a`, taps `ps`
      apart, rounded, shifted and clamped as the second pass does it. */
  method SixTapScratch(fd: array<int>, a: int, ps: int, f: seq<int>) returns (temp: int)
    requires |f| == 6 && 0 <= ps && 0 <= a - 2 * ps && a + 3 * ps < fd.Length
    ensures temp == SixTap(f, AtI(fd[..], a - 2 * ps), AtI(fd[..], a - ps), AtI(fd[..], a),
                           AtI(fd[..], a + ps), AtI(fd[..], a + 2 * ps), AtI(fd[..], a + 3 * ps))
  {
    temp := fd[a - 2 * ps] * f[0] + fd[a - ps] * f[1] + fd[a] * f[2]
            + fd[a + ps] * f[3] + fd[a + 2 * ps] * f[4] + fd[a + 3 * ps] * f[5]
            + VP8_FILTER_WEIGHT / 2;
    temp := temp / VP8_FILTER_SHIFT_DIVISOR;
    if temp < 0 {
      temp := 0;
    } else if temp > 255 {
      temp := 255;
    }
  }

  /** The positions the second pass computes for output `i`: where it
      writes (`out_offset`) and where it reads (`src_offset`). */
  method SecondPassOffsets(i: int, w: int, spl: int, pitch: int) returns (outOffset: int, srcOffset: int)
    requires 0 < w
    ensures outOffset == OutOffset(i, w, pitch) && srcOffset == SrcOffset(i, w, spl)
  {
    var row := i / w;
    outOffset := (i - row * w) + row * pitch;
    srcOffset := i + row * (spl - w);
  }

  /** Output `i` of the second pass goes to row i / w, column i % w of the
      destination block, inside the buffer, past every earlier output. */
  lemma SecondPassSlot(len: int, dBase: int, pitch: int, h: int, w: int, i: int)
    requires 0 < w <= pitch && 0 <= i < h * w && BlockInside(len, dBase, pitch, h, w)
    ensures var o := dBase + OutOffset(i, w, pitch);
      && o == Off(dBase, pitch, i / w, i % w) && 0 <= o < len && InBlock(o, dBase, pitch, h, w)
      && forall k :: 0 <= k < i ==> Off(dBase, pitch, k / w, k % w) < o
  {
    FlatRowBelow(i, h, w);
    RowInside(len, dBase, pitch, h, w, i / w);
    OutOffsetIsRowCol(dBase, i, w, pitch);
    forall k | 0 <= k < i
      ensures Off(dBase, pitch, k / w, k % w) < dBase + OutOffset(i, w, pitch)
    {
      FlatOrder(dBase, pitch, w, k, i);
    }
  }

  /** vp8_filter_block2d_second_pass_cl: `h` rows of `w` outputs written at
      `output_pitch` spacing, each the six-tap filter of the scratch data. */
  method SecondPass(fd: array<int>, base: int, dst: array<byte>, dBase: int, pitch: int,
                    spl: int, ps: int, h: int, w: int, f: seq<int>)
    requires 0 < w <= spl && w <= pitch && 0 <= ps && 0 <= h && |f| == 6
    requires 0 < h ==> BlockInside(dst.Length, dBase, pitch, h, w)
    requires PassReadable(fd.Length, base, spl, ps, h, w)
    modifies dst
    ensures forall i :: 0 <= i < h * w ==>
              Pel(dst[..], dBase, pitch, i / w, i % w) == SecondPassAt(fd[..], base, spl, ps, w, f, i)
    ensures forall j :: 0 <= j < dst.Length && !InBlock(j, dBase, pitch, h, w) ==> dst[j] == old(dst[j])
  {
    var i := 0;
    while i < h * w
      invariant 0 <= i <= h * w
      invariant forall k :: 0 <= k < i ==>
                  0 <= Off(dBase, pitch, k / w, k % w) < dst.Length
                  && dst[Off(dBase, pitch, k / w, k % w)] as int == SecondPassAt(fd[..], base, spl, ps, w, f, k)
      invariant forall j :: 0 <= j < dst.Length && !InBlock(j, dBase, pitch, h, w) ==> dst[j] == old(dst[j])
    {
      var outOffset, srcOffset := SecondPassOffsets(i, w, spl, pitch);
      var temp := SixTapScratch(fd, base + srcOffset, ps, f);
      assert temp == SecondPassAt(fd[..], base, spl, ps, w, f, i);
      SecondPassSlot(dst.Length, dBase, pitch, h, w, i);
      dst[dBase + outOffset] := temp as byte;
      i := i + 1;
    }
    assert forall i :: 0 <= i < h * w ==>
             Pel(dst[..], dBase, pitch, i / w, i % w) == SecondPassAt(fd[..], base, spl, ps, w, f, i);
  }

  // ---------------------------------------------------------------------
  // The six-tap prediction of a block

  /** The horizontal six-tap of row q around column c. */
  function HTap(src: seq<byte>, base: int, spl: int, hf: seq<int>, q: int, c: int): int
    requires |hf| == 6
  {
    SixTap(hf, Pel(src, base, spl, q, c - 2), Pel(src, base, spl, q, c - 1), Pel(src, base, spl, q, c),
           Pel(src, base, spl, q, c + 1), Pel(src, base, spl, q, c + 2), Pel(src, base, spl, q, c + 3))
  }

  /** Sample (r, c) of a six-tap prediction: the vertical six-tap of the
      horizontal six-taps of rows r - 2 to r + 3 (section 18.3 of RFC 6386). */
  function Sixtap2D(src: seq<byte>, base: int, spl: int, hf: seq<int>, vf: seq<int>, r: int, c: int): int
    requires |hf| == 6 && |vf| == 6
  {
    SixTap(vf, HTap(src, base, spl, hf, r - 2, c), HTap(src, base, spl, hf, r - 1, c), HTap(src, base, spl, hf, r, c),
           HTap(src, base, spl, hf, r + 1, c), HTap(src, base, spl, hf, r + 2, c), HTap(src, base, spl, hf, r + 3, c))
  }

  /** A six-tap prediction is a pixel, and with both phases 0 it is the
      source pixel itself. */
  lemma Sixtap2DProperties(src: seq<byte>, base: int, spl: int, hf: seq<int>, vf: seq<int>, r: int, c: int)
    requires |hf| == 6 && |vf| == 6
    ensures 0 <= Sixtap2D(src, base, spl, hf, vf, r, c) <= 255
    ensures hf == vf == SixTapFilters[0] ==> Sixtap2D(src, base, spl, hf, vf, r, c) == Pel(src, base, spl, r, c)
    ensures vf == SixTapFilters[0] ==> Sixtap2D(src, base, spl, hf, vf, r, c) == HTap(src, base, spl, hf, r, c)
  {
    var p := Pel(src, base, spl, r, c);
    assert 0 <= p <= 255;
    if vf == SixTapFilters[0] {
      var t := HTap(src, base, spl, hf, r, c);
      SixTapPhaseZero(HTap(src, base, spl, hf, r - 2, c), HTap(src, base, spl, hf, r - 1, c), t,
                      HTap(src, base, spl, hf, r + 1, c), HTap(src, base, spl, hf, r + 2, c), HTap(src, base, spl, hf, r + 3, c));
      if hf == SixTapFilters[0] {
        SixTapPhaseZero(Pel(src, base, spl, r, c - 2), Pel(src, base, spl, r, c - 1), p,
                        Pel(src, base, spl, r, c + 1), Pel(src, base, spl, r, c + 2), Pel(src, base, spl, r, c + 3));
      }
    }
  }

  /** First-pass output q * w + c, started two rows above the block, is the
      horizontal six-tap of block row q - 2. */
  lemma FirstPassIsHTap(src: seq<byte>, srcBase: int, spl: int, w: int, hf: seq<int>, q: int, c: int)
    requires 0 <= c < w <= spl && |hf| == 6
    ensures FirstPassAt(src, srcBase - 2 * spl, spl, 1, w, hf, q * w + c) == HTap(src, srcBase, spl, hf, q - 2, c)
  {
    RowCol(q, c, w);
    SrcOffsetIsRowCol(q * w + c, w, spl);
    assert srcBase - 2 * spl + q * spl == RowStart(srcBase, q - 2, spl);
  }

  /** Second-pass output r * w + c, started two rows into dense scratch
      rows of width w, is the vertical six-tap of scratch rows r to r + 5. */
  lemma SecondPassIsVTap(fd: seq<int>, w: int, vf: seq<int>, r: int, c: int)
    requires 0 <= c < w && |vf| == 6
    ensures SecondPassAt(fd, 2 * w, w, w, w, vf, r * w + c)
            == SixTap(vf, AtI(fd, r * w + c), AtI(fd, (r + 1) * w + c), AtI(fd, (r + 2) * w + c),
                      AtI(fd, (r + 3) * w + c), AtI(fd, (r + 4) * w + c), AtI(fd, (r + 5) * w + c))
  {
    RowCol(r, c, w);
    assert SrcOffset(r * w + c, w, w) == r * w + c;
    assert (r + 1) * w == r * w + w && (r + 2) * w == r * w + 2 * w && (r + 3) * w == r * w + 3 * w;
    assert (r + 4) * w == r * w + 4 * w && (r + 5) * w == r * w + 5 * w;
  }

  /** The two passes compose to the six-tap prediction. */
  lemma TwoPassesAreSixtap2D(src: seq<byte>, srcBase: int, spl: int, fd: seq<int>, hf: seq<int>, vf: seq<int>,
                             w: int, h: int, r: int, c: int)
    requires 0 <= c < w <= spl && 0 <= r < h && |hf| == 6 && |vf| == 6
    requires (h + 5) * w <= |fd|
    requires forall i :: 0 <= i < (h + 5) * w ==> fd[i] == FirstPassAt(src, srcBase - 2 * spl, spl, 1, w, hf, i)
    ensures SecondPassAt(fd, 2 * w, w, w, w, vf, r * w + c) == Sixtap2D(src, srcBase, spl, hf, vf, r, c)
  {
    SecondPassIsVTap(fd, w, vf, r, c);
    ScratchRowIsHTap(src, srcBase, spl, fd, hf, w, h, r, c);
    ScratchRowIsHTap(src, srcBase, spl, fd, hf, w, h, r + 1, c);
    ScratchRowIsHTap(src, srcBase, spl, fd, hf, w, h, r + 2, c);
    ScratchRowIsHTap(src, srcBase, spl, fd, hf, w, h, r + 3, c);
    ScratchRowIsHTap(src, srcBase, spl, fd, hf, w, h, r + 4, c);
    ScratchRowIsHTap(src, srcBase, spl, fd, hf, w, h, r + 5, c);
  }

  /** Scratch row q holds the horizontal six-tap of block row q - 2. */
  lemma ScratchRowIsHTap(src: seq<byte>, srcBase: int, spl: int, fd: seq<int>, hf: seq<int>, w: int, h: int, q: int, c: int)
    requires 0 <= c < w <= spl && 0 <= q < h + 5 && |hf| == 6
    requires (h + 5) * w <= |fd|
    requires forall i :: 0 <= i < (h + 5) * w ==> fd[i] == FirstPassAt(src, srcBase - 2 * spl, spl, 1, w, hf, i)
    ensures AtI(fd, q * w + c) == HTap(src, srcBase, spl, hf, q - 2, c)
  {
    FlatBelow(q, c, h + 5, w);
    FirstPassIsHTap(src, srcBase, spl, w, hf, q, c);
  }

  /** The source context the first pass reads (two rows above to three below
      the block, two columns left to three right) lies inside the buffer. */
  lemma FirstPassReadableFromBlock(len: int, srcBase: int, spl: int, h: int, w: int)
    requires 0 < w <= spl && 0 <= h
    requires BlockInside(len, srcBase - 2 * spl - 2, spl, h + 5, w + 5)
    ensures PassReadable(len, srcBase - 2 * spl, spl, 1, h + 5, w)
  {
    forall i | 0 <= i < (h + 5) * w
      ensures 0 <= srcBase - 2 * spl + SrcOffset(i, w, spl) - 2 && srcBase - 2 * spl + SrcOffset(i, w, spl) + 3 < len
    {
      FlatRowBelow(i, h + 5, w);
      SrcOffsetIsRowCol(i, w, spl);
      RowInside(len, srcBase - 2 * spl - 2, spl, h + 5, w + 5, i / w);
    }
  }

  /** The second pass reads only the first (h + 5) * w scratch samples. */
  lemma SecondPassReadable(fdLen: int, h: int, w: int)
    requires 0 < w && 0 <= h && (h + 5) * w <= fdLen
    ensures PassReadable(fdLen, 2 * w, w, w, h, w)
  {
    assert (h + 5) * w == h * w + 5 * w;
    forall i | 0 <= i < h * w
      ensures 0 <= 2 * w + SrcOffset(i, w, w) - 2 * w && 2 * w + SrcOffset(i, w, w) + 3 * w < fdLen
    {
      assert SrcOffset(i, w, w) == i;
    }
  }

  /** Both six-tap passes over a w x h block, through a scratch buffer of
      `fdLen` samples: vp8_filter_block2d_cl, and the bodies of the 8x8, 8x4
      and 16x16 predictors with their own scratch sizes. */
  method FilterBlock2d(src: array<byte>, srcBase: int, spl: int, dst: array<byte>, dBase: int, pitch: int,
                       hf: seq<int>, vf: seq<int>, w: int, h: int, fdLen: int)
    requires src != dst
    requires 0 < w <= spl && w <= pitch && 0 < h && |hf| == 6 && |vf| == 6 && (h + 5) * w <= fdLen
    requires BlockInside(src.Length, srcBase - 2 * spl - 2, spl, h + 5, w + 5)
    requires BlockInside(dst.Length, dBase, pitch, h, w)
    modifies dst
    ensures forall r, c :: 0 <= r < h && 0 <= c < w ==>
              Pel(dst[..], dBase, pitch, r, c) == Sixtap2D(src[..], srcBase, spl, hf, vf, r, c)
    ensures forall j :: 0 <= j < dst.Length && !InBlock(j, dBase, pitch, h, w) ==> dst[j] == old(dst[j])
  {
    var fdata := new int[fdLen];
    FirstPassReadableFromBlock(src.Length, srcBase, spl, h, w);
    FirstPass(src, srcBase - 2 * spl, fdata, spl, 1, h + 5, w, hf);
    SecondPassReadable(fdLen, h, w);
    SecondPass(fdata, 2 * w, dst, dBase, pitch, w, w, h, w, vf);
    forall r, c | 0 <= r < h && 0 <= c < w
      ensures Pel(dst[..], dBase, pitch, r, c) == Sixtap2D(src[..], srcBase, spl, hf, vf, r, c)
    {
      FlatBelow(r, c, h, w);
      RowCol(r, c, w);
      TwoPassesAreSixtap2D(src[..], srcBase, spl, fdata[..], hf, vf, w, h, r, c);
    }
  }

  /** vp8_sixtap_predict_cl: the 4x4 six-tap prediction at eighth-pel phases
      (xoffset, yoffset), through a scratch buffer of 9 * 4 samples. */
  method SixtapPredict4x4(src: array<byte>, srcBase: int, spl: int, xoffset: int, yoffset: int,
                        dst: array<byte>, dBase: int, pitch: int)
    requires 0 <= xoffset < 8 && 0 <= yoffset < 8
    requires src != dst && 4 <= spl && 4 <= pitch
    requires BlockInside(src.Length, srcBase - 2 * spl - 2, spl, 9, 9)
    requires BlockInside(dst.Length, dBase, pitch, 4, 4)
    modifies dst
    ensures forall r, c :: 0 <= r < 4 && 0 <= c < 4 ==>
              Pel(dst[..], dBase, pitch, r, c)
              == Sixtap2D(src[..], srcBase, spl, SixTapFilters[xoffset], SixTapFilters[yoffset], r, c)
    ensures forall j :: 0 <= j < dst.Length && !InBlock(j, dBase, pitch, 4, 4) ==> dst[j] == old(dst[j])
  {
    FilterBlock2d(src, srcBase, spl, dst, dBase, pitch, SixTapFilters[xoffset], SixTapFilters[yoffset], 4, 4, 9 * 4);
  }

  /** vp8_sixtap_predict8x8_cl: the 8x8 six-tap prediction at eighth-pel phases
      (xoffset, yoffset), through a scratch buffer of 13 * 16 samples. */
  method SixtapPredict8x8(src: array<byte>, srcBase: int, spl: int, xoffset: int, yoffset: int,
                        dst: array<byte>, dBase: int, pitch: int)
    requires 0 <= xoffset < 8 && 0 <= yoffset < 8
    requires src != dst && 8 <= spl && 8 <= pitch
    requires BlockInside(src.Length, srcBase - 2 * spl - 2, spl, 13, 13)
    requires BlockInside(dst.Length, dBase, pitch, 8, 8)
    modifies dst
    ensures forall r, c :: 0 <= r < 8 && 0 <= c < 8 ==>
              Pel(dst[..], dBase, pitch, r, c)
              == Sixtap2D(src[..], srcBase, spl, SixTapFilters[xoffset], SixTapFilters[yoffset], r, c)
    ensures forall j :: 0 <= j < dst.Length && !InBlock(j, dBase, pitch, 8, 8) ==> dst[j] == old(dst[j])
  {
    FilterBlock2d(src, srcBase, spl, dst, dBase, pitch, SixTapFilters[xoffset], SixTapFilters[yoffset], 8, 8, 13 * 16);
  }

  /** vp8_sixtap_predict8x4_cl: the 8x4 six-tap prediction at eighth-pel phases
      (xoffset, yoffset), through a scratch buffer of 13 * 16 samples. */
  method SixtapPredict8x4(src: array<byte>, srcBase: int, spl: int, xoffset: int, yoffset: int,
                        dst: array<byte>, dBase: int, pitch: int)
    requires 0 <= xoffset < 8 && 0 <= yoffset < 8
    requires src != dst && 8 <= spl && 8 <= pitch
    requires BlockInside(src.Length, srcBase - 2 * spl - 2, spl, 9, 13)
    requires BlockInside(dst.Length, dBase, pitch, 4, 8)
    modifies dst
    ensures forall r, c :: 0 <= r < 4 && 0 <= c < 8 ==>
              Pel(dst[..], dBase, pitch, r, c)
              == Sixtap2D(src[..], srcBase, spl, SixTapFilters[xoffset], SixTapFilters[yoffset], r, c)
    ensures forall j :: 0 <= j < dst.Length && !InBlock(j, dBase, pitch, 4, 8) ==> dst[j] == old(dst[j])
  {
    FilterBlock2d(src, srcBase, spl, dst, dBase, pitch, SixTapFilters[xoffset], SixTapFilters[yoffset], 8, 4, 13 * 16);
  }

  /** vp8_sixtap_predict16x16_cl: the 16x16 six-tap prediction at eighth-pel phases
      (xoffset, yoffset), through a scratch buffer of 21 * 24 samples. */
  method SixtapPredict16x16(src: array<byte>, srcBase: int, spl: int, xoffset: int, yoffset: int,
                        dst: array<byte>, dBase: int, pitch: int)
    requires 0 <= xoffset < 8 && 0 <= yoffset < 8
    requires src != dst && 16 <= spl && 16 <= pitch
    requires BlockInside(src.Length, srcBase - 2 * spl - 2, spl, 21, 21)
    requires BlockInside(dst.Length, dBase, pitch, 16, 16)
    modifies dst
    ensures forall r, c :: 0 <= r < 16 && 0 <= c < 16 ==>
              Pel(dst[..], dBase, pitch, r, c)
              == Sixtap2D(src[..], srcBase, spl, SixTapFilters[xoffset], SixTapFilters[yoffset], r, c)
    ensures forall j :: 0 <= j < dst.Length && !InBlock(j, dBase, pitch, 16, 16) ==> dst[j] == old(dst[j])
  {
    FilterBlock2d(src, srcBase, spl, dst, dBase, pitch, SixTapFilters[xoffset], SixTapFilters[yoffset], 16, 16, 21 * 24);
  }

  // ---------------------------------------------------------------------
  // The bilinear passes, advancing the source and output positions per row

  /** A bilinear tap pair: non-negative taps summing to VP8_FILTER_WEIGHT. */
  predicate IsBilinearRow(f: seq<int>)
  {
    |f| == 2 && 0 <= f[0] && 0 <= f[1] && f[0] + f[1] == VP8_FILTER_WEIGHT
  }

  /** Every row of the bilinear table is a bilinear tap pair. */
  lemma BilinearTableRows(k: int)
    requires 0 <= k < 8
    ensures IsBilinearRow(BilinearFilters[k])
  {
  }

  /** One bilinear sample: the weighted sum plus the rounding half, shifted
      down by VP8_FILTER_SHIFT, with no clamp. */
  function BilTap(f: seq<int>, p0: int, p1: int): int
    requires |f| == 2
  {
    (p0 * f[0] + p1 * f[1] + VP8_FILTER_WEIGHT / 2) / VP8_FILTER_SHIFT_DIVISOR
  }

  /** A bilinear sample of two pixels is a pixel: the taps are non-negative
      and sum to the filter weight, so no clamp is needed. */
  lemma BilTapInRange(f: seq<int>, p0: int, p1: int)
    requires IsBilinearRow(f) && 0 <= p0 <= 255 && 0 <= p1 <= 255
    ensures 0 <= BilTap(f, p0, p1) <= 255
  {
    MulNonNeg(p0, f[0]);
    MulNonNeg(p1, f[1]);
    MulNonNeg(255 - p0, f[0]);
    MulNonNeg(255 - p1, f[1]);
    assert (255 - p0) * f[0] == 255 * f[0] - p0 * f[0];
    assert (255 - p1) * f[1] == 255 * f[1] - p1 * f[1];
  }

  /** With phase 0 a bilinear sample is its first pixel. */
  lemma BilTapPhaseZero(p0: int, p1: int)
    requires 0 <= p0 <= 255
    ensures BilTap(BilinearFilters[0], p0, p1) == p0
  {
    assert (p0 * 128 + 64) / 128 == p0;
  }

  /** First-pass output (r, c): the horizontal bilinear sample of block
      (r, c), stored in an `unsigned short`. */
  function BilFirstAt(src: seq<byte>, base: int, spl: int, ps: int, f: seq<int>, r: int, c: int): int
    requires |f| == 2
  {
    BilTap(f, Pel(src, base, spl, r, c), Pel(src, base, spl, r, c + ps)) % 0x1_0000
  }

  /** Second-pass output (r, c): the bilinear sample of the scratch data
      `ps` apart, stored in an `unsigned char`. */
  function BilSecondAt(fd: seq<int>, spl: int, ps: int, f: seq<int>, r: int, c: int): int
    requires |f| == 2
  {
    BilTap(f, AtI(fd, Off(0, spl, r, c)), AtI(fd, Off(0, spl, r, c) + ps)) % 0x100
  }

  /** One row of the bilinear first pass: `w` samples from `s` on, written
      densely from `o` on. */
  method BilFirstRow(src: array<byte>, s: int, ps: int, out: array<int>, o: int, w: int, f: seq<int>)
    requires 0 <= w && 0 <= ps && |f| == 2
    requires 0 <= s && s + w + ps <= src.Length && 0 <= o && o + w <= out.Length
    modifies out
    ensures forall j :: 0 <= j < out.Length ==>
              out[j] == if o <= j < o + w then BilTap(f, src[s + j - o] as int, src[s + j - o + ps] as int) % 0x1_0000
                        else old(out[j])
  {
    var p := s;
    var j := 0;
    while j < w
      invariant 0 <= j <= w && p == s + j
      invariant forall k :: 0 <= k < out.Length ==>
                  out[k] == if o <= k < o + j then BilTap(f, src[s + k - o] as int, src[s + k - o + ps] as int) % 0x1_0000
                            else old(out[k])
    {
      out[o + j] := ((src[p] as int * f[0] + src[p + ps] as int * f[1] + VP8_FILTER_WEIGHT / 2)
                     / VP8_FILTER_SHIFT_DIVISOR) % 0x1_0000;
      p := p + 1;
      j := j + 1;
    }
  }

  /** vp8_filter_block2d_bil_first_pass_cl: `h` rows of `w` horizontal
      bilinear samples, stored densely. */
  method BilFirstPass(src: array<byte>, base: int, out: array<int>, spl: int, ps: int, h: int, w: int, f: seq<int>)
    requires 0 < w <= spl && 0 <= ps && 0 <= h && |f| == 2
    requires h * w <= out.Length
    requires 0 < h ==> BlockInside(src.Length, base, spl, h, w + ps)
    modifies out
    ensures forall r, c :: 0 <= r < h && 0 <= c < w ==>
              0 <= Off(0, w, r, c) < out.Length && out[Off(0, w, r, c)] == BilFirstAt(src[..], base, spl, ps, f, r, c)
    ensures forall j :: 0 <= j < out.Length && !InBlock(j, 0, w, h, w) ==> out[j] == old(out[j])
  {
    var sp := base;
    var op := 0;
    var i := 0;
    while i < h
      invariant 0 <= i <= h
      invariant sp == RowStart(base, i, spl) && op == RowStart(0, i, w)
      invariant forall rr, c :: 0 <= rr < i && 0 <= c < w ==>
                  0 <= Off(0, w, rr, c) < op && Off(0, w, rr, c) < out.Length
                  && out[Off(0, w, rr, c)] == BilFirstAt(src[..], base, spl, ps, f, rr, c)
      invariant forall j :: 0 <= j < out.Length && !InBlock(j, 0, w, i, w) ==> out[j] == old(out[j])
    {
      RowInside(src.Length, base, spl, h, w + ps, i);
      assert RowStart(0, h - 1, w) + w == h * w;
      RowInside(out.Length, 0, w, h, w, i);
      RowStartMono(0, 0, i, w);
      BilFirstRow(src, sp, ps, out, op, w, f);
      RowStartNext(base, i, spl);
      RowStartNext(0, i, w);
      sp := sp + w;
      sp := sp + (spl - w);
      op := op + w;
      i := i + 1;
    }
  }

  /** One row of the bilinear second pass: `w` samples from the scratch
      data at `s` on, written from `d` on. */
  method BilSecondRow(fd: array<int>, s: int, ps: int, dst: array<byte>, d: int, w: int, f: seq<int>)
    requires 0 <= w && 0 <= ps && |f| == 2
    requires 0 <= s && s + w + ps <= fd.Length && 0 <= d && d + w <= dst.Length
    modifies dst
    ensures forall j :: 0 <= j < dst.Length ==>
              dst[j] as int == if d <= j < d + w then BilTap(f, fd[s + j - d], fd[s + j - d + ps]) % 0x100
                               else old(dst[j]) as int
  {
    var p := s;
    var j := 0;
    while j < w
      invariant 0 <= j <= w && p == s + j
      invariant forall k :: 0 <= k < dst.Length ==>
                  dst[k] as int == if d <= k < d + j then BilTap(f, fd[s + k - d], fd[s + k - d + ps]) % 0x100
                                   else old(dst[k]) as int
    {
      var temp := fd[p] * f[0] + fd[p + ps] * f[1] + VP8_FILTER_WEIGHT / 2;
      dst[d + j] := ((temp / VP8_FILTER_SHIFT_DIVISOR) % 0x100) as byte;
      p := p + 1;
      j := j + 1;
    }
  }

  /** vp8_filter_block2d_bil_second_pass_cl: `h` rows of `w` bilinear
      samples of the scratch data, written at `output_pitch` spacing. */
  method BilSecondPass(fd: array<int>, dst: array<byte>, dBase: int, pitch: int, spl: int, ps: int,
                       h: int, w: int, f: seq<int>)
    requires 0 < w <= spl && w <= pitch && 0 <= ps && 0 <= h && |f| == 2
    requires 0 < h ==> BlockInside(fd.Length, 0, spl, h, w + ps)
    requires 0 < h ==> BlockInside(dst.Length, dBase, pitch, h, w)
    modifies dst
    ensures forall r, c :: 0 <= r < h && 0 <= c < w ==>
              Pel(dst[..], dBase, pitch, r, c) == BilSecondAt(fd[..], spl, ps, f, r, c)
    ensures forall j :: 0 <= j < dst.Length && !InBlock(j, dBase, pitch, h, w) ==> dst[j] == old(dst[j])
  {
    var sp := 0;
    var op := dBase;
    var i := 0;
    while i < h
      invariant 0 <= i <= h
      invariant sp == RowStart(0, i, spl) && op == RowStart(dBase, i, pitch)
      invariant forall rr, c :: 0 <= rr < i && 0 <= c < w ==>
                  0 <= Off(dBase, pitch, rr, c) < op && Off(dBase, pitch, rr, c) < dst.Length
                  && dst[Off(dBase, pitch, rr, c)] as int == BilSecondAt(fd[..], spl, ps, f, rr, c)
      invariant forall j :: 0 <= j < dst.Length && !InBlock(j, dBase, pitch, i, w) ==> dst[j] == old(dst[j])
    {
      RowInside(fd.Length, 0, spl, h, w + ps, i);
      RowInside(dst.Length, dBase, pitch, h, w, i);
      RowStartMono(dBase, 0, i, pitch);
      BilSecondRow(fd, sp, ps, dst, op, w, f);
      RowStartNext(0, i, spl);
      RowStartNext(dBase, i, pitch);
      sp := sp + w;
      sp := sp + (spl - w);
      op := op + pitch;
      i := i + 1;
    }
    assert forall r, c :: 0 <= r < h && 0 <= c < w ==>
             Pel(dst[..], dBase, pitch, r, c) == BilSecondAt(fd[..], spl, ps, f, r, c);
  }

  // ---------------------------------------------------------------------
  // The bilinear prediction of a block

  /** Sample (r, c) of a bilinear prediction: the vertical bilinear sample
      of the horizontal bilinear samples of rows r and r + 1. */
  function Bilinear2D(src: seq<byte>, base: int, spl: int, hf: seq<int>, vf: seq<int>, r: int, c: int): int
    requires |hf| == 2 && |vf| == 2
  {
    BilTap(vf, BilTap(hf, Pel(src, base, spl, r, c), Pel(src, base, spl, r, c + 1)),
               BilTap(hf, Pel(src, base, spl, r + 1, c), Pel(src, base, spl, r + 1, c + 1)))
  }

  /** A bilinear prediction is a pixel, and with both phases 0 it is the
      source pixel itself. */
  lemma Bilinear2DProperties(src: seq<byte>, base: int, spl: int, hf: seq<int>, vf: seq<int>, r: int, c: int)
    requires IsBilinearRow(hf) && IsBilinearRow(vf)
    ensures 0 <= Bilinear2D(src, base, spl, hf, vf, r, c) <= 255
    ensures hf == vf == BilinearFilters[0] ==> Bilinear2D(src, base, spl, hf, vf, r, c) == Pel(src, base, spl, r, c)
  {
    var p00, p01 := Pel(src, base, spl, r, c), Pel(src, base, spl, r, c + 1);
    var p10, p11 := Pel(src, base, spl, r + 1, c), Pel(src, base, spl, r + 1, c + 1);
    BilTapInRange(hf, p00, p01);
    BilTapInRange(hf, p10, p11);
    BilTapInRange(vf, BilTap(hf, p00, p01), BilTap(hf, p10, p11));
    if hf == vf == BilinearFilters[0] {
      BilTapPhaseZero(p00, p01);
      BilTapPhaseZero(BilTap(hf, p00, p01), BilTap(hf, p10, p11));
    }
  }

  /** The two bilinear passes compose to the bilinear prediction: neither
      the `unsigned short` scratch data nor the `unsigned char` output
      truncates anything. */
  lemma BilPassesAreBilinear2D(src: seq<byte>, srcBase: int, spl: int, fd: seq<int>, hf: seq<int>, vf: seq<int>,
                               w: int, h: int, r: int, c: int)
    requires IsBilinearRow(hf) && IsBilinearRow(vf) && 0 <= c < w && 0 <= r < h
    requires forall q, k :: 0 <= q < h + 1 && 0 <= k < w ==>
               0 <= Off(0, w, q, k) < |fd| && fd[Off(0, w, q, k)] == BilFirstAt(src, srcBase, spl, 1, hf, q, k)
    ensures BilSecondAt(fd, w, w, vf, r, c) == Bilinear2D(src, srcBase, spl, hf, vf, r, c)
  {
    RowStartNext(0, r, w);
    var p00, p01 := Pel(src, srcBase, spl, r, c), Pel(src, srcBase, spl, r, c + 1);
    var p10, p11 := Pel(src, srcBase, spl, r + 1, c), Pel(src, srcBase, spl, r + 1, c + 1);
    BilTapInRange(hf, p00, p01);
    BilTapInRange(hf, p10, p11);
    BilTapInRange(vf, BilTap(hf, p00, p01), BilTap(hf, p10, p11));
    assert fd[Off(0, w, r, c)] == BilFirstAt(src, srcBase, spl, 1, hf, r, c);
    assert fd[Off(0, w, r + 1, c)] == BilFirstAt(src, srcBase, spl, 1, hf, r + 1, c);
  }

  /** vp8_filter_block2d_bil_cl: both bilinear passes over a w x h block
      through a scratch buffer of 17 * 16 samples. */
  method FilterBlock2dBil(src: array<byte>, srcBase: int, spl: int, dst: array<byte>, dBase: int, pitch: int,
                          hf: seq<int>, vf: seq<int>, w: int, h: int)
    requires src != dst && IsBilinearRow(hf) && IsBilinearRow(vf)
    requires 0 < w <= spl && w <= pitch && 0 < h && (h + 1) * w <= 17 * 16
    requires BlockInside(src.Length, srcBase, spl, h + 1, w + 1)
    requires BlockInside(dst.Length, dBase, pitch, h, w)
    modifies dst
    ensures forall r, c :: 0 <= r < h && 0 <= c < w ==>
              Pel(dst[..], dBase, pitch, r, c) == Bilinear2D(src[..], srcBase, spl, hf, vf, r, c)
    ensures forall j :: 0 <= j < dst.Length && !InBlock(j, dBase, pitch, h, w) ==> dst[j] == old(dst[j])
  {
    var fdata := new int[17 * 16];
    BilFirstPass(src, srcBase, fdata, spl, 1, h + 1, w, hf);
    assert RowStart(0, h - 1, w) + (w + w) == (h + 1) * w;
    BilSecondPass(fdata, dst, dBase, pitch, w, w, h, w, vf);
    forall r, c | 0 <= r < h && 0 <= c < w
      ensures Pel(dst[..], dBase, pitch, r, c) == Bilinear2D(src[..], srcBase, spl, hf, vf, r, c)
    {
      BilPassesAreBilinear2D(src[..], srcBase, spl, fdata[..], hf, vf, w, h, r, c);
    }
  }

  /** vp8_bilinear_predict4x4_cl: the 4x4 bilinear prediction at eighth-pel phases
      (xoffset, yoffset). */
  method BilinearPredict4x4(src: array<byte>, srcBase: int, spl: int, xoffset: int, yoffset: int,
                          dst: array<byte>, dBase: int, pitch: int)
    requires 0 <= xoffset < 8 && 0 <= yoffset < 8
    requires src != dst && 4 <= spl && 4 <= pitch
    requires BlockInside(src.Length, srcBase, spl, 5, 5)
    requires BlockInside(dst.Length, dBase, pitch, 4, 4)
    modifies dst
    ensures forall r, c :: 0 <= r < 4 && 0 <= c < 4 ==>
              Pel(dst[..], dBase, pitch, r, c)
              == Bilinear2D(src[..], srcBase, spl, BilinearFilters[xoffset], BilinearFilters[yoffset], r, c)
    ensures forall j :: 0 <= j < dst.Length && !InBlock(j, dBase, pitch, 4, 4) ==> dst[j] == old(dst[j])
  {
    BilinearTableRows(xoffset);
    BilinearTableRows(yoffset);
    FilterBlock2dBil(src, srcBase, spl, dst, dBase, pitch, BilinearFilters[xoffset], BilinearFilters[yoffset], 4, 4);
  }

  /** vp8_bilinear_predict8x8_cl: the 8x8 bilinear prediction at eighth-pel phases
      (xoffset, yoffset). */
  method BilinearPredict8x8(src: array<byte>, srcBase: int, spl: int, xoffset: int, yoffset: int,
                          dst: array<byte>, dBase: int, pitch: int)
    requires 0 <= xoffset < 8 && 0 <= yoffset < 8
    requires src != dst && 8 <= spl && 8 <= pitch
    requires BlockInside(src.Length, srcBase, spl, 9, 9)
    requires BlockInside(dst.Length, dBase, pitch, 8, 8)
    modifies dst
    ensures forall r, c :: 0 <= r < 8 && 0 <= c < 8 ==>
              Pel(dst[..], dBase, pitch, r, c)
              == Bilinear2D(src[..], srcBase, spl, BilinearFilters[xoffset], BilinearFilters[yoffset], r, c)
    ensures forall j :: 0 <= j < dst.Length && !InBlock(j, dBase, pitch, 8, 8) ==> dst[j] == old(dst[j])
  {
    BilinearTableRows(xoffset);
    BilinearTableRows(yoffset);
    FilterBlock2dBil(src, srcBase, spl, dst, dBase, pitch, BilinearFilters[xoffset], BilinearFilters[yoffset], 8, 8);
  }

  /** vp8_bilinear_predict8x4_cl: the 8x4 bilinear prediction at eighth-pel phases
      (xoffset, yoffset). */
  method BilinearPredict8x4(src: array<byte>, srcBase: int, spl: int, xoffset: int, yoffset: int,
                          dst: array<byte>, dBase: int, pitch: int)
    requires 0 <= xoffset < 8 && 0 <= yoffset < 8
    requires src != dst && 8 <= spl && 8 <= pitch
    requires BlockInside(src.Length, srcBase, spl, 5, 9)
    requires BlockInside(dst.Length, dBase, pitch, 4, 8)
    modifies dst
    ensures forall r, c :: 0 <= r < 4 && 0 <= c < 8 ==>
              Pel(dst[..], dBase, pitch, r, c)
              == Bilinear2D(src[..], srcBase, spl, BilinearFilters[xoffset], BilinearFilters[yoffset], r, c)
    ensures forall j :: 0 <= j < dst.Length && !InBlock(j, dBase, pitch, 4, 8) ==> dst[j] == old(dst[j])
  {
    BilinearTableRows(xoffset);
    BilinearTableRows(yoffset);
    FilterBlock2dBil(src, srcBase, spl, dst, dBase, pitch, BilinearFilters[xoffset], BilinearFilters[yoffset], 8, 4);
  }

  /** vp8_bilinear_predict16x16_cl: the 16x16 bilinear prediction at eighth-pel phases
      (xoffset, yoffset). */
  method BilinearPredict16x16(src: array<byte>, srcBase: int, spl: int, xoffset: int, yoffset: int,
                          dst: array<byte>, dBase: int, pitch: int)
    requires 0 <= xoffset < 8 && 0 <= yoffset < 8
    requires src != dst && 16 <= spl && 16 <= pitch
    requires BlockInside(src.Length, srcBase, spl, 17, 17)
    requires BlockInside(dst.Length, dBase, pitch, 16, 16)
    modifies dst
    ensures forall r, c :: 0 <= r < 16 && 0 <= c < 16 ==>
              Pel(dst[..], dBase, pitch, r, c)
              == Bilinear2D(src[..], srcBase, spl, BilinearFilters[xoffset], BilinearFilters[yoffset], r, c)
    ensures forall j :: 0 <= j < dst.Length && !InBlock(j, dBase, pitch, 16, 16) ==> dst[j] == old(dst[j])
  {
    BilinearTableRows(xoffset);
    BilinearTableRows(yoffset);
    FilterBlock2dBil(src, srcBase, spl, dst, dBase, pitch, BilinearFilters[xoffset], BilinearFilters[yoffset], 16, 16);
  }

  // ---------------------------------------------------------------------
  // The first pass's tap positions as the source computes them

  /** Position of tap t (0 to 5) around `srcOffset`, `pixel_step` apart. */
  function FirstPassTap(srcOffset: int, ps: int, t: int): int
  {
    srcOffset + (t - 2) * ps
  }

  /** The same position as vp8_filter_block2d_first_pass_cl computes it:
      `src_offset` is an `unsigned int`, so `src_offset - PS2` and
      `src_offset - (int)pixel_step` are reduced modulo 2^32 and the
      positions left of the start wrap to just below 2^32. */
  function FirstPassTapAsWritten(srcOffset: int, ps: int, t: int): int
  {
    FirstPassTap(srcOffset, ps, t) % 0x1_0000_0000
  }

  /** The first output of every six-tap first pass (i = 0, so src_offset = 0;
      the drivers pass pixel_step 1) reads its leftmost tap 2^32 - 2 samples
      past the start of its input, outside any buffer of fewer than 2^32 - 2
      samples, instead of 2 samples before it. */
  lemma FirstPassTapWraps(base: int, w: int, spl: int, len: int)
    requires 0 < w <= spl && 0 <= base && len <= 0xFFFF_FFFE
    ensures FirstPassTap(SrcOffset(0, w, spl), 1, 0) == -2
    ensures FirstPassTapAsWritten(SrcOffset(0, w, spl), 1, 0) == 0xFFFF_FFFE
    ensures len <= base + FirstPassTapAsWritten(SrcOffset(0, w, spl), 1, 0)
  {
  }

  /** Away from the start the wrapped and the signed positions agree, so the
      discrepancy is confined to the first two outputs' left taps. */
  lemma FirstPassTapAgrees(srcOffset: int, ps: int, t: int)
    requires 0 <= ps && 0 <= t < 6 && 2 * ps <= srcOffset && srcOffset + 3 * ps < 0x1_0000_0000
    ensures FirstPassTapAsWritten(srcOffset, ps, t) == FirstPassTap(srcOffset, ps, t)
  {
  }

  // ---------------------------------------------------------------------
  // Block variation

  function Abs(x: int): int
  {
    if x < 0 then -x else x
  }

  /** Sum of the absolute differences between each of the first n samples
      of the row at `a` and its right neighbour. */
  function RowHVar(src: seq<byte>, a: int, n: nat): int
  {
    if n == 0 then 0 else RowHVar(src, a, n - 1) + Abs(At(src, a + n - 1) - At(src, a + n))
  }

  /** Sum of the absolute differences between each of the first n samples
      of the row at `a` and the sample `spl` below it. */
  function RowVVar(src: seq<byte>, a: int, spl: int, n: nat): int
  {
    if n == 0 then 0 else RowVVar(src, a, spl, n - 1) + Abs(At(src, a + n - 1) - At(src, a + n - 1 + spl))
  }

  /** Horizontal variation of the first n rows of the 4x4 block at `base`. */
  function HVariation(src: seq<byte>, base: int, spl: int, n: nat): int
  {
    if n == 0 then 0 else HVariation(src, base, spl, n - 1) + RowHVar(src, RowStart(base, n - 1, spl), 4)
  }

  /** Vertical variation of the first n rows of the 4x4 block at `base`. */
  function VVariation(src: seq<byte>, base: int, spl: int, n: nat): int
  {
    if n == 0 then 0 else VVariation(src, base, spl, n - 1) + RowVVar(src, RowStart(base, n - 1, spl), spl, 4)
  }

  /** The samples block variation reads: columns 0 to 4 of rows 0 to 3, and
      columns 0 to 3 of row 4. */
  predicate VariationReadable(len: int, base: int, spl: int)
  {
    (forall r, c :: 0 <= r < 4 && 0 <= c <= 4 ==> 0 <= Off(base, spl, r, c) < len)
    && (forall c :: 0 <= c < 4 ==> 0 <= Off(base, spl, 4, c) < len)
  }

  /** vp8_block_variation_cl: adds the 16 horizontal and the 16 vertical
      absolute neighbour differences of the 4x4 block to the two totals. */
  method BlockVariation(src: array<byte>, base: int, spl: int, hVar0: int, vVar0: int) returns (hVar: int, vVar: int)
    requires VariationReadable(src.Length, base, spl)
    ensures hVar == hVar0 + HVariation(src[..], base, spl, 4)
    ensures vVar == vVar0 + VVariation(src[..], base, spl, 4)
    ensures hVar0 <= hVar && vVar0 <= vVar
  {
    hVar, vVar := hVar0, vVar0;
    var ptr := base;
    var i := 0;
    while i < 4
      invariant 0 <= i <= 4 && ptr == RowStart(base, i, spl)
      invariant hVar == hVar0 + HVariation(src[..], base, spl, i)
      invariant vVar == vVar0 + VVariation(src[..], base, spl, i)
    {
      var j := 0;
      while j < 4
        invariant 0 <= j <= 4
        invariant hVar == hVar0 + HVariation(src[..], base, spl, i) + RowHVar(src[..], ptr, j)
        invariant vVar == vVar0 + VVariation(src[..], base, spl, i) + RowVVar(src[..], ptr, spl, j)
      {
        assert 0 <= Off(base, spl, i, j) < src.Length && 0 <= Off(base, spl, i, j + 1) < src.Length;
        assert 0 <= Off(base, spl, i + 1, j) < src.Length;
        RowStartNext(base, i, spl);
        hVar := hVar + Abs(src[ptr + j] as int - src[ptr + j + 1] as int);
        vVar := vVar + Abs(src[ptr + j] as int - src[ptr + j + spl] as int);
        j := j + 1;
      }
      RowStartNext(base, i, spl);
      ptr := ptr + spl;
      i := i + 1;
    }
    VariationBounds(src[..], base, spl, 4);
  }

  /** Each total gains at least 0 and at most 255 per difference. */
  lemma {:induction false} VariationBounds(src: seq<byte>, base: int, spl: int, n: nat)
    ensures 0 <= HVariation(src, base, spl, n) <= 4 * 255 * n
    ensures 0 <= VVariation(src, base, spl, n) <= 4 * 255 * n
  {
    if n > 0 {
      VariationBounds(src, base, spl, n - 1);
      RowVariationBounds(src, RowStart(base, n - 1, spl), spl, 4);
    }
  }

  lemma {:induction false} RowVariationBounds(src: seq<byte>, a: int, spl: int, n: nat)
    ensures 0 <= RowHVar(src, a, n) <= 255 * n
    ensures 0 <= RowVVar(src, a, spl, n) <= 255 * n
  {
    if n > 0 {
      RowVariationBounds(src, a, spl, n - 1);
    }
  }

  /** A block whose samples (and right and lower neighbours) all equal one
      value has no variation. */
  lemma {:induction false} FlatBlockHasNoVariation(src: seq<byte>, base: int, spl: int, v: int, n: nat)
    requires n <= 4
    requires forall r, c :: 0 <= r <= n && 0 <= c <= 4 ==> Pel(src, base, spl, r, c) == v
    ensures HVariation(src, base, spl, n) == 0 && VVariation(src, base, spl, n) == 0
  {
    if n > 0 {
      FlatBlockHasNoVariation(src, base, spl, v, n - 1);
      FlatRowHasNoVariation(src, base, spl, v, n - 1, 4);
    }
  }

  /** Columns 0 to 4 of rows r and r + 1 all equal v. */
  predicate FlatAround(src: seq<byte>, base: int, spl: int, v: int, r: int)
  {
    forall c :: 0 <= c <= 4 ==> Pel(src, base, spl, r, c) == v && Pel(src, base, spl, r + 1, c) == v
  }

  lemma {:induction false} FlatRowHasNoVariation(src: seq<byte>, base: int, spl: int, v: int, r: int, n: nat)
    requires n <= 4 && FlatAround(src, base, spl, v, r)
    ensures RowHVar(src, RowStart(base, r, spl), n) == 0 && RowVVar(src, RowStart(base, r, spl), spl, n) == 0
  {
    if n > 0 {
      FlatRowHasNoVariation(src, base, spl, v, r, n - 1);
      RowStartNext(base, r, spl);
      assert Pel(src, base, spl, r, n - 1) == v && Pel(src, base, spl, r, n) == v && Pel(src, base, spl, r + 1, n - 1) == v;
    }
  }
}
