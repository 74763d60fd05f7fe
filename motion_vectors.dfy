/** Motion vectors, the legal-range box, the cost tables and the injected
    SAD / variance primitives shared by every search of the motion-estimation
    core (vp8/encoder/mcomp.c). */
module MotionVectors {

  /** A motion vector: whole pixels during integer search, eighths of a pixel
      once scaled by `<< 3`. */
  datatype MV = MV(row: int, col: int)

  function Add(a: MV, b: MV): MV { MV(a.row + b.row, a.col + b.col) }

  /** `mv << 3`: whole pixels to eighths of a pixel. */
  function ToEighths(mv: MV): MV { MV(mv.row * 8, mv.col * 8) }

  /** `mv >> 3`: an arithmetic shift, so it rounds towards minus infinity
      (Dafny's `/` by a positive divisor does the same). */
  function ToFullPel(mv: MV): MV { MV(mv.row / 8, mv.col / 8) }

  const INT_MAX: int := 0x7fff_ffff

  /** MAX_MVSEARCH_STEPS, MAX_FULL_PEL_VAL and MAX_FIRST_STEP come from the
      encoder's mcomp.h; mvlong_width from entropymv.h. */
  const MAX_MVSEARCH_STEPS: nat := 8
  const MAX_FULL_PEL_VAL: int := 255
  const MAX_FIRST_STEP: int := 128
  const MVLONG_WIDTH: nat := 10

  /** x->mv_row_min, x->mv_row_max, x->mv_col_min, x->mv_col_max: the
      usable-motion-vector border of the current macroblock. */
  datatype Bounds = Bounds(rowMin: int, rowMax: int, colMin: int, colMax: int)

  /** The test of the diamond and refining searches: strictly inside. */
  predicate StrictlyInside(mv: MV, b: Bounds)
  {
    b.rowMin < mv.row < b.rowMax && b.colMin < mv.col < b.colMax
  }

  /** The test of the hexagon search (CHECK_POINT): inside, bounds included. */
  predicate WithinBounds(mv: MV, b: Bounds)
  {
    b.rowMin <= mv.row <= b.rowMax && b.colMin <= mv.col <= b.colMax
  }

  /** The two centred cost tables `mvcost[0]` (rows) and `mvcost[1]` (columns),
      indexed by a signed component difference. */
  datatype CostTables = CostTables(row: int -> nat, col: int -> nat)

  /** The (variance, sse) pair a variance primitive returns. */
  datatype Variance = Variance(value: nat, sse: nat)

  /** The injected primitives of `vp8_variance_fn_ptr_t`, each curried over
      the fixed source block and strides of one call: they take the address
      of the reference block (and, for `svf`, the horizontal and vertical
      eighth-pel phases). The early-out argument of `sdf` is not modelled. */
  datatype VarianceFns = VarianceFns(
    sdf: int -> nat,
    vf: int -> Variance,
    svf: (int, int, int) -> Variance,
    halfpixH: int -> Variance,
    halfpixV: int -> Variance,
    halfpixHV: int -> Variance)

  /** The batched primitives `sdx3f` and `sdx4df` return, by their
      contract, what the scalar `sdf` returns at each address. */
  function Sdx3(fns: VarianceFns, addr: int): (r: seq<nat>)
    ensures |r| == 3 && forall t :: 0 <= t < 3 ==> r[t] == fns.sdf(addr + t)
  {
    [fns.sdf(addr), fns.sdf(addr + 1), fns.sdf(addr + 2)]
  }

  /** `sdx8f` stores its eight SADs in an `unsigned short` array, so each
      is kept modulo 2^16. */
  function Sdx8(fns: VarianceFns, addr: int): (r: seq<nat>)
    ensures |r| == 8 && forall t :: 0 <= t < 8 ==> r[t] == fns.sdf(addr + t) % 0x1_0000
  {
    [fns.sdf(addr) % 0x1_0000, fns.sdf(addr + 1) % 0x1_0000,
     fns.sdf(addr + 2) % 0x1_0000, fns.sdf(addr + 3) % 0x1_0000,
     fns.sdf(addr + 4) % 0x1_0000, fns.sdf(addr + 5) % 0x1_0000,
     fns.sdf(addr + 6) % 0x1_0000, fns.sdf(addr + 7) % 0x1_0000]
  }

  /** Every SAD fits in 16 bits: true of the primitives for blocks of at
      most 256 eight-bit pixels (256 * 255 < 2^16). */
  ghost predicate SadFitsShort(fns: VarianceFns)
  {
    forall a :: fns.sdf(a) < 0x1_0000
  }

  /** When every SAD fits in 16 bits, `sdx8f` loses nothing. */
  lemma Sdx8Exact(fns: VarianceFns, addr: int, t: int)
    requires SadFitsShort(fns) && 0 <= t < 8
    ensures Sdx8(fns, addr)[t] == fns.sdf(addr + t)
  {
    assert fns.sdf(addr + t) < 0x1_0000;
  }

  function Sdx4d(fns: VarianceFns, addrs: seq<int>): (r: seq<nat>)
    requires |addrs| == 4
    ensures |r| == 4 && forall t :: 0 <= t < 4 ==> r[t] == fns.sdf(addrs[t])
  {
    [fns.sdf(addrs[0]), fns.sdf(addrs[1]), fns.sdf(addrs[2]), fns.sdf(addrs[3])]
  }

  /** The half-pel primitives are the phase-4 specialisations of `svf`, and
      `vf` is `svf` at phase (0, 0). */
  ghost predicate PhaseConsistent(fns: VarianceFns)
  {
    && (forall a :: fns.halfpixH(a) == fns.svf(a, 4, 0))
    && (forall a :: fns.halfpixV(a) == fns.svf(a, 0, 4))
    && (forall a :: fns.halfpixHV(a) == fns.svf(a, 4, 4))
    && (forall a :: fns.vf(a) == fns.svf(a, 0, 0))
  }

  /** Everything a search reads besides its own arguments: the reference
      block view (`*(d->base_pre) + d->pre`, `d->pre_stride`), the legal
      range, the SAD and rate cost tables with their weights, and the
      predicted vector `center_mv` (eighth pel) that costs are measured from. */
  datatype SearchContext = SearchContext(
    fns: VarianceFns,
    pre: int,
    stride: int,
    bounds: Bounds,
    sadCost: CostTables,
    sadPerBit: nat,
    mvCost: CostTables,
    errorPerBit: nat,
    center: MV)

  /** `r * stride`, the offset of pixel row `r`, one row at a time: the
      recursion keeps the product a single term in proofs that only pass
      it along (RowOffsetIsProduct gives its value). */
  function RowOffset(r: int, stride: int): int
    decreases if r < 0 then -r else r
  {
    if r == 0 then 0
    else if r > 0 then RowOffset(r - 1, stride) + stride
    else RowOffset(r + 1, stride) - stride
  }

  lemma {:induction false} RowOffsetIsProduct(r: int, stride: int)
    ensures RowOffset(r, stride) == r * stride
    decreases if r < 0 then -r else r
  {
    if r > 0 {
      RowOffsetIsProduct(r - 1, stride);
      assert (r - 1) * stride + stride == r * stride;
    } else if r < 0 {
      RowOffsetIsProduct(r + 1, stride);
      assert (r + 1) * stride - stride == r * stride;
    }
  }

  /** Address of the whole-pixel reference block at vector `mv`:
      `base + mv.row * stride + mv.col`. */
  function Addr(ctx: SearchContext, mv: MV): int
  {
    ctx.pre + RowOffset(mv.row, ctx.stride) + mv.col
  }

  lemma AddrIsProduct(ctx: SearchContext, mv: MV)
    ensures Addr(ctx, mv) == ctx.pre + mv.row * ctx.stride + mv.col
  {
    RowOffsetIsProduct(mv.row, ctx.stride);
  }

  lemma {:induction false} AddrShift(ctx: SearchContext, mv: MV, d: MV)
    ensures Addr(ctx, Add(mv, d)) == Addr(ctx, mv) + d.row * ctx.stride + d.col
  {
    RowOffsetIsProduct(mv.row, ctx.stride);
    RowOffsetIsProduct(mv.row + d.row, ctx.stride);
    assert (mv.row + d.row) * ctx.stride == mv.row * ctx.stride + d.row * ctx.stride;
  }
}
