// Pixel buffers (frame planes, the macroblock predictor, filter scratch
// data) are arrays addressed by index; a block is given by the index of its
// first sample, a stride between rows, a row count and a width.

module PixelBlocks {

  /** One 8-bit sample (`unsigned char`). */
  newtype byte = x: int | 0 <= x < 256

  /** Index of the first sample of row `r` of a block starting at `base`. */
  function RowStart(base: int, r: int, stride: int): int
  {
    base + r * stride
  }

  /** Sample `i` of a buffer snapshot; never read outside the buffer by the
      methods below, whose preconditions keep every access inside. */
  function At(a: seq<byte>, i: int): int
  {
    if 0 <= i < |a| then a[i] as int else 0
  }

  /** Index of sample (r, c) of the block at `base` with `stride`. */
  function Off(base: int, stride: int, r: int, c: int): int
  {
    RowStart(base, r, stride) + c
  }

  /** Sample (r, c) of the block at `base` with `stride`. */
  function Pel(a: seq<byte>, base: int, stride: int, r: int, c: int): int
  {
    At(a, Off(base, stride, r, c))
  }

  /** `j` is one of the samples of the `rows` x `cols` block. */
  ghost predicate InBlock(j: int, base: int, stride: int, rows: int, cols: int)
  {
    exists r :: 0 <= r < rows && RowStart(base, r, stride) <= j < RowStart(base, r, stride) + cols
  }

  /** The whole `rows` x `cols` block lies inside a buffer of `len` samples. */
  predicate BlockInside(len: int, base: int, stride: int, rows: int, cols: int)
  {
    0 <= base && RowStart(base, rows - 1, stride) + cols <= len
  }

  lemma RowStartNext(base: int, r: int, stride: int)
    ensures RowStart(base, r + 1, stride) == RowStart(base, r, stride) + stride
  {
    assert (r + 1) * stride == r * stride + stride;
  }

  /** With a non-negative stride, later rows start no earlier. */
  lemma RowStartMono(base: int, r1: int, r2: int, stride: int)
    requires r1 <= r2 && 0 <= stride
    ensures RowStart(base, r1, stride) <= RowStart(base, r2, stride)
  {
    assert r2 * stride - r1 * stride == (r2 - r1) * stride;
  }

  /** Every row of a block that lies inside the buffer lies inside it. */
  lemma RowInside(len: int, base: int, stride: int, rows: int, cols: int, r: int)
    requires 0 <= stride && BlockInside(len, base, stride, rows, cols) && 0 <= r < rows
    ensures 0 <= RowStart(base, r, stride) && RowStart(base, r, stride) + cols <= len
  {
    RowStartMono(base, 0, r, stride);
    RowStartMono(base, r, rows - 1, stride);
  }

  lemma MulNonNeg(a: int, b: int)
    requires 0 <= a && 0 <= b
    ensures 0 <= a * b
  {
  }

  lemma MulAtLeast(a: int, b: int)
    requires 1 <= a && 0 <= b
    ensures b <= a * b
  {
    MulNonNeg(a - 1, b);
    assert a * b == (a - 1) * b + b;
  }

  /** The row of flat index q * w + c is q and its column is c. */
  lemma RowCol(q: int, c: int, w: int)
    requires 0 <= c < w
    ensures (q * w + c) / w == q && (q * w + c) % w == c
  {
    var x := q * w + c;
    var d := x / w - q;
    assert d * w == c - x % w by {
      assert x == (x / w) * w + x % w;
      assert (x / w) * w - q * w == d * w;
    }
    if d > 0 {
      MulAtLeast(d, w);
      assert false;
    }
    if d < 0 {
      MulAtLeast(-d, w);
      assert false;
    }
  }

  /** Within a stride wider than the columns used, a sample index names
      one row and one column. */
  lemma OffUnique(stride: int, r: int, c: int, r2: int, c2: int)
    requires 0 <= c < stride && 0 <= c2 < stride
    requires Off(0, stride, r, c) == Off(0, stride, r2, c2)
    ensures r == r2 && c == c2
  {
    RowCol(r, c, stride);
    RowCol(r2, c2, stride);
  }

  /** Sample (r, c) of the block at sample (r0, c0) is sample (r0 + r, c0 + c). */
  lemma OffShift(stride: int, r0: int, c0: int, r: int, c: int)
    ensures Off(Off(0, stride, r0, c0), stride, r, c) == Off(0, stride, r0 + r, c0 + c)
  {
    assert (r0 + r) * stride == r0 * stride + r * stride;
  }

  /** Flat indices below n * w have rows below n. */
  lemma FlatRowBelow(i: int, n: int, w: int)
    requires 0 < w && 0 <= i < n * w
    ensures 0 <= i / w < n
  {
    var q := i / w;
    assert i == q * w + i % w;
    if q >= n {
      MulNonNeg(q - n, w);
      assert false;
    }
  }

  /** Row q, column c < w of a dense block of rows below n lies below n * w. */
  lemma FlatBelow(q: int, c: int, n: int, w: int)
    requires 0 <= q < n && 0 <= c < w
    ensures 0 <= q * w + c < n * w
  {
    MulNonNeg(q, w);
    MulAtLeast(n - q, w);
    assert n * w - q * w == (n - q) * w;
  }

  /** Flat indices visited in order land at increasing positions of a
      block whose stride is at least its width. */
  lemma FlatOrder(base: int, pitch: int, w: int, k: int, i: int)
    requires 0 < w <= pitch && 0 <= k < i
    ensures Off(base, pitch, k / w, k % w) < Off(base, pitch, i / w, i % w)
  {
    var qk, qi := k / w, i / w;
    assert k == qk * w + k % w && i == qi * w + i % w;
    if qi < qk {
      MulAtLeast(qk - qi, w);
      assert false;
    }
    if qk < qi {
      MulAtLeast(qi - qk, pitch);
      assert qi * pitch - qk * pitch == (qi - qk) * pitch;
    }
  }

  /** Copies a `rows` x `cols` block row by row, advancing both positions by
      their strides: the copy loop of vp8_copy_mem16x16_cl and its 8x8 and
      8x4 variants, and of the whole-pixel branch of the 4x4 predictors. */
  method CopyBlock(src: array<byte>, srcBase: int, srcStride: int,
                   dst: array<byte>, dstBase: int, dstStride: int, rows: int, cols: int)
    requires src != dst
    requires 1 <= rows && 1 <= cols && cols <= srcStride && cols <= dstStride
    requires BlockInside(src.Length, srcBase, srcStride, rows, cols)
    requires BlockInside(dst.Length, dstBase, dstStride, rows, cols)
    modifies dst
    ensures forall r, c :: 0 <= r < rows && 0 <= c < cols ==>
              Pel(dst[..], dstBase, dstStride, r, c) == Pel(src[..], srcBase, srcStride, r, c)
    ensures forall j :: 0 <= j < dst.Length && !InBlock(j, dstBase, dstStride, rows, cols) ==> dst[j] == old(dst[j])
  {
    var s, d := srcBase, dstBase;
    var r := 0;
    while r < rows
      invariant 0 <= r <= rows
      invariant s == RowStart(srcBase, r, srcStride) && d == RowStart(dstBase, r, dstStride)
      invariant forall rr, c :: 0 <= rr < r && 0 <= c < cols ==>
                  0 <= Off(dstBase, dstStride, rr, c) < d && Off(dstBase, dstStride, rr, c) < dst.Length
                  && 0 <= Off(srcBase, srcStride, rr, c) < src.Length
                  && dst[Off(dstBase, dstStride, rr, c)] == src[Off(srcBase, srcStride, rr, c)]
      invariant forall j :: 0 <= j < dst.Length && !InBlock(j, dstBase, dstStride, r, cols) ==> dst[j] == old(dst[j])
    {
      RowInside(src.Length, srcBase, srcStride, rows, cols, r);
      RowInside(dst.Length, dstBase, dstStride, rows, cols, r);
      RowStartMono(dstBase, 0, r, dstStride);
      CopyRow(src, s, dst, d, cols);
      RowStartNext(srcBase, r, srcStride);
      RowStartNext(dstBase, r, dstStride);
      s, d := s + srcStride, d + dstStride;
      r := r + 1;
    }
    assert forall r, c :: 0 <= r < rows && 0 <= c < cols ==>
             Pel(dst[..], dstBase, dstStride, r, c) == Pel(src[..], srcBase, srcStride, r, c);
  }

  /** One row of a block copy: `cols` samples from `s` on to `d` on. */
  method CopyRow(src: array<byte>, s: int, dst: array<byte>, d: int, cols: int)
    requires src != dst && 0 <= cols
    requires 0 <= s && s + cols <= src.Length && 0 <= d && d + cols <= dst.Length
    modifies dst
    ensures forall j :: 0 <= j < dst.Length ==> dst[j] == if d <= j < d + cols then src[j - d + s] else old(dst[j])
  {
    var k := 0;
    while k < cols
      invariant 0 <= k <= cols
      invariant forall j :: 0 <= j < dst.Length ==> dst[j] == if d <= j < d + k then src[j - d + s] else old(dst[j])
    {
      dst[d + k] := src[s + k];
      k := k + 1;
    }
  }
}
