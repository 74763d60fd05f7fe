/** The scores the integer searches of vp8/encoder/mcomp.c compare and
    return: SAD plus rate cost while searching, variance plus rate cost for
    the vector finally chosen. */
module SearchCost {
  import opened MotionVectors
  import opened MvCost

  /** `center_mv >> 3`: the predicted vector in whole pixels
      (`fcenter_mv`), which SAD-time rate costs are measured from. */
  function FullPelCenter(ctx: SearchContext): MV
  {
    ToFullPel(ctx.center)
  }

  /** The score a search compares for whole-pixel vector `mv`:
      `sdf(...) + mvsad_err_cost(mv, fcenter_mv, mvsadcost, sad_per_bit)`. */
  function SadCost(ctx: SearchContext, mv: MV): (r: int)
    ensures r >= ctx.fns.sdf(Addr(ctx, mv))
  {
    ctx.fns.sdf(Addr(ctx, mv)) + MvSadErrCost(mv, FullPelCenter(ctx), ctx.sadCost, ctx.sadPerBit)
  }

  /** The value an integer search returns for its chosen vector `mv`:
      `vf(...) + mv_err_cost(mv << 3, center_mv, mvcost, x->errorperbit)`. */
  function FinalCost(ctx: SearchContext, mv: MV): (r: int)
    ensures r >= ctx.fns.vf(Addr(ctx, mv)).value
  {
    ctx.fns.vf(Addr(ctx, mv)).value + MvErrCost(ToEighths(mv), ctx.center, ctx.mvCost, ctx.errorPerBit)
  }

  /** The running best of a search: its score, vector and block address. */
  datatype Best = Best(sad: int, mv: MV, addr: int)

  /** A best whose address and score belong to its vector. */
  predicate Scored(ctx: SearchContext, b: Best)
  {
    b.addr == Addr(ctx, b.mv) && b.sad == SadCost(ctx, b.mv)
  }

  /** One probe with the usual rule: the candidate replaces the best only
      when its score is strictly lower, so the earliest of equal scores
      stays. */
  function Consider(ctx: SearchContext, b: Best, mv: MV): (r: Best)
    ensures r.sad <= b.sad
    ensures r == b || (r.mv == mv && Scored(ctx, r) && r.sad < b.sad)
    ensures r == b <==> b.sad <= SadCost(ctx, mv)
  {
    var s := SadCost(ctx, mv);
    if s < b.sad then Best(s, mv, Addr(ctx, mv)) else b
  }

  /** The start of the full, diamond and x4 searches: scored only when the
      vector is strictly inside the legal range, otherwise INT_MAX. */
  function GuardedStart(ctx: SearchContext, mv: MV): (r: Best)
    ensures r.mv == mv && r.addr == Addr(ctx, mv)
    ensures StrictlyInside(mv, ctx.bounds) ==> Scored(ctx, r)
    ensures !StrictlyInside(mv, ctx.bounds) ==> r.sad == INT_MAX
  {
    if StrictlyInside(mv, ctx.bounds) then Best(SadCost(ctx, mv), mv, Addr(ctx, mv))
    else Best(INT_MAX, mv, Addr(ctx, mv))
  }
}
