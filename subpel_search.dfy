/** The sub-pixel refiners of the motion search (vp8/encoder/mcomp.c:181-794):
    vp8_find_best_sub_pixel_step_iteratively, vp8_find_best_sub_pixel_step
    and vp8_find_best_half_pixel_step. Each starts from a whole-pixel vector,
    scores the centre with `vf`, and moves to a strictly better fractional
    vector among the points it probes. Vectors are in eighth pel except in
    the iterative refiner, which works in quarter pel. */
module SubpelSearch {
  import opened MotionVectors
  import opened MvCost

  // ---------------------------------------------------------------------
  // Two's-complement bit operations on vector components

  /** `x & 7`: on a two's-complement integer the low three bits are the
      residue modulo 8, which Dafny's `%` by a positive divisor gives. */
  function Low3(x: int): int { x % 8 }

  /** Bitwise OR of two naturals, bit by bit from the lowest. */
  function Or(a: nat, b: nat): nat
    decreases a + b
  {
    if a == 0 then b
    else if b == 0 then a
    else 2 * Or(a / 2, b / 2) + (if a % 2 == 1 || b % 2 == 1 then 1 else 0)
  }

  /** `x | k` for `0 <= k < 8` on a two's-complement integer: only the low
      three bits change. */
  function OrLow(x: int, k: nat): int
    requires k < 8
  {
    x - x % 8 + Or(x % 8, k)
  }

  /** The uses of `|` in the refiners: `(x - 8) | 4` and `(x - 8) | 6`
      step back by 4 or by 2 from a multiple of 8 ... */
  lemma OrStepsBack(x: int)
    requires x % 8 == 0
    ensures OrLow(x - 8, 4) == x - 4 && OrLow(x - 8, 6) == x - 2
  {
    assert (x - 8) % 8 == 0;
    assert Or(0, 4) == 4 && Or(0, 6) == 6;
  }

  /** ... and `(x - 8) | 4` steps back by 8 from a value that is 4 modulo 8. */
  lemma OrKeepsHalf(x: int)
    requires x % 8 == 4
    ensures OrLow(x - 8, 4) == x - 8
  {
    assert (x - 8) % 8 == 4;
    assert Or(4, 4) == 4;
  }

  // ---------------------------------------------------------------------
  // Scores

  /** The variance of the block at eighth-pel vector `mv`: the whole-pixel
      block at `mv >> 3` filtered with the phases `mv & 7`. Every probe of
      the refiners is meant to compute this. */
  function SubpelVariance(ctx: SearchContext, mv: MV): Variance
  {
    ctx.fns.svf(ctx.pre + RowOffset(mv.row / 8, ctx.stride) + mv.col / 8, Low3(mv.col), Low3(mv.row))
  }

  /** SubpelVariance reads the whole-pixel block at `mv >> 3`. */
  lemma SubpelBlock(ctx: SearchContext, mv: MV)
    ensures SubpelVariance(ctx, mv) == ctx.fns.svf(Addr(ctx, ToFullPel(mv)), Low3(mv.col), Low3(mv.row))
  {
    RowOffsetIsProduct(mv.row / 8, ctx.stride);
  }

  /** DIST(r, c) of the iterative refiner, at quarter-pel `(r, c)`:
      `svf(PRE(r, c), SP(c), SP(r))` with `PRE` at `(r >> 2, c >> 2)` and
      `SP(x) = (x & 3) << 1`. */
  function QuarterVariance(ctx: SearchContext, q: MV): Variance
  {
    ctx.fns.svf(ctx.pre + RowOffset(q.row / 4, ctx.stride) + q.col / 4, (q.col % 4) * 2, (q.row % 4) * 2)
  }

  /** MVC(r, c): the rate cost of quarter-pel `(r, c)` from `ref_mv >> 1`. */
  function Mvc(ctx: SearchContext, ref: MV, q: MV): int
  {
    (Weighted(ctx.mvCost.row(q.row - ref.row / 2) + ctx.mvCost.col(q.col - ref.col / 2), ctx.errorPerBit) + 128) / 256
  }

  /** The clamp of the iterative refiner, in quarter pel: the legal range
      scaled by 4, intersected with `(ref_mv >> 1) ± ((1 << mvlong_width) - 1)`. */
  function IterBox(ctx: SearchContext, ref: MV): Bounds
  {
    var reach := Pow2(MVLONG_WIDTH) - 1;
    Bounds(Max(ctx.bounds.rowMin * 4, ref.row / 2 - reach), Min(ctx.bounds.rowMax * 4, ref.row / 2 + reach),
           Max(ctx.bounds.colMin * 4, ref.col / 2 - reach), Min(ctx.bounds.colMax * 4, ref.col / 2 + reach))
  }

  function Pow2(n: nat): nat { if n == 0 then 1 else 2 * Pow2(n - 1) }
  function Max(a: int, b: int): int { if a > b then a else b }
  function Min(a: int, b: int): int { if a < b then a else b }
  function Abs(x: int): nat { if x < 0 then -x else x }

  /** One probe's outcome: out of the clamp (its value then counts as
      INT_MAX), or the error `v`, the distortion and the sse. */
  datatype Eval = Outside | Inside(err: int, dist: int, sse: int)

  function EvalValue(e: Eval): int
  {
    if e.Outside? then INT_MAX else e.err
  }

  /** How the eighth-pel refiners score a point: the variance there plus
      `mv_err_cost`, with no clamp. */
  function EighthEval(ctx: SearchContext, ref: MV, mv: MV): Eval
  {
    var v := SubpelVariance(ctx, mv);
    Inside(v.value + MvErrCost(mv, ref, ctx.mvCost, ctx.errorPerBit), v.value, v.sse)
  }

  function EighthScore(ctx: SearchContext, ref: MV): MV -> Eval
  {
    mv => EighthEval(ctx, ref, mv)
  }

  /** How the iterative refiner scores quarter-pel `(r, c)`: IFMVCV, then
      MVC(r, c) + DIST(r, c). */
  function QuarterEval(ctx: SearchContext, ref: MV, box: Bounds, q: MV): Eval
  {
    if WithinBounds(q, box) then
      var v := QuarterVariance(ctx, q);
      Inside(Mvc(ctx, ref, q) + v.value, v.value, v.sse)
    else Outside
  }

  function QuarterScore(ctx: SearchContext, ref: MV, box: Bounds): MV -> Eval
  {
    q => QuarterEval(ctx, ref, box, q)
  }

  /** `besterr` (or `bestmse`), the best vector, `*distortion` and `*sse1`. */
  datatype SubBest = SubBest(err: int, mv: MV, dist: int, sse: int)

  /** CHECK_BETTER: a probe inside the clamp replaces the best only when its
      error is strictly lower. */
  function Take(b: SubBest, mv: MV, e: Eval): (r: SubBest)
    ensures r.err <= b.err
    ensures r == b || (e.Inside? && r == SubBest(e.err, mv, e.dist, e.sse) && e.err < b.err)
  {
    if e.Inside? && e.err < b.err then SubBest(e.err, mv, e.dist, e.sse) else b
  }

  /** The diagonal picked by `whichdir = (left < right ? 0 : 1) + (up < down ? 0 : 2)`. */
  function Diagonal(s: MV, h: int, left: int, right: int, up: int, down: int): MV
  {
    MV(s.row + (if up < down then -h else h), s.col + (if left < right then -h else h))
  }

  /** One cross around `s` at distance `h`: left, right, up, down, then the
      diagonal on the side of the lower of left/right and of up/down. */
  function Cross(score: MV -> Eval, b: SubBest, s: MV, h: int): SubBest
  {
    var l := score(MV(s.row, s.col - h));
    var r := score(MV(s.row, s.col + h));
    var u := score(MV(s.row - h, s.col));
    var d := score(MV(s.row + h, s.col));
    var b4 := Take(Take(Take(Take(b, MV(s.row, s.col - h), l), MV(s.row, s.col + h), r),
                        MV(s.row - h, s.col), u), MV(s.row + h, s.col), d);
    var g := Diagonal(s, h, EvalValue(l), EvalValue(r), EvalValue(u), EvalValue(d));
    Take(b4, g, score(g))
  }

  /** Up to `n` crosses, each around the current best; a cross that does not
      move ends the phase (`if (tr == br && tc == bc) break;`). */
  function Phase(score: MV -> Eval, b: SubBest, h: int, n: nat): SubBest
    decreases n
  {
    if n == 0 then b
    else
      var b1 := Cross(score, b, b.mv, h);
      if b1.mv == b.mv then b1 else Phase(score, b1, h, n - 1)
  }

  // ---------------------------------------------------------------------
  // The three refiners as functions of their inputs

  /** The centre: `vf` at the whole-pixel vector, plus `mv_err_cost` of the
      vector scaled to eighth pel; `mv` is kept in the unit given. */
  function Centre(ctx: SearchContext, full: MV, ref: MV, mv: MV): SubBest
  {
    var v := ctx.fns.vf(Addr(ctx, full));
    SubBest(v.value + MvErrCost(ToEighths(full), ref, ctx.mvCost, ctx.errorPerBit), mv, v.value, v.sse)
  }

  /** The outputs: `*bestmv` (eighth pel), the value returned, `*distortion`
      and `*sse1`. */
  datatype SubResult = SubResult(mv: MV, cost: int, distortion: int, sse: int)

  /** More than MAX_FULL_PEL_VAL away from `ref_mv` along an axis. */
  predicate Uncodable(mv8: MV, ref: MV)
  {
    Abs(mv8.col - ref.col) > MAX_FULL_PEL_VAL || Abs(mv8.row - ref.row) > MAX_FULL_PEL_VAL
  }

  /** vp8_find_best_sub_pixel_step_iteratively: three half-pel crosses at
      most, then three quarter-pel crosses at most, in quarter pel; INT_MAX
      if the vector reached cannot be coded. */
  function Iterative(ctx: SearchContext, full: MV, ref: MV): SubResult
  {
    var score := QuarterScore(ctx, ref, IterBox(ctx, ref));
    var c := Centre(ctx, full, ref, MV(full.row * 4, full.col * 4));
    var b := Phase(score, Phase(score, c, 2, 3), 1, 3);
    var mv8 := MV(b.mv.row * 2, b.mv.col * 2);
    SubResult(mv8, if Uncodable(mv8, ref) then INT_MAX else b.err, b.dist, b.sse)
  }

  /** The trap shared by the two non-iterative refiners. */
  function Trapped(full: MV, ref: MV, sse0: int): SubResult
  {
    SubResult(ToEighths(full), INT_MAX, INT_MAX, sse0)
  }

  /** vp8_find_best_sub_pixel_step: one half-pel cross around the start,
      then one quarter-pel cross around the best so far. */
  function SubPixelStep(ctx: SearchContext, full: MV, ref: MV, sse0: int): SubResult
  {
    if Uncodable(ToEighths(full), ref) then Trapped(full, ref, sse0)
    else
      var score := EighthScore(ctx, ref);
      var b1 := Cross(score, Centre(ctx, full, ref, ToEighths(full)), ToEighths(full), 4);
      var b2 := Cross(score, b1, b1.mv, 2);
      SubResult(b2.mv, b2.err, b2.dist, b2.sse)
  }

  /** The eight half-pel points of vp8_find_best_half_pixel_step, in the
      order probed: left, right, up, down, then all four diagonals. */
  function HalfPoint(s: MV, i: int): MV
  {
    if i == 0 then MV(s.row, s.col - 4)
    else if i == 1 then MV(s.row, s.col + 4)
    else if i == 2 then MV(s.row - 4, s.col)
    else if i == 3 then MV(s.row + 4, s.col)
    else if i == 4 then MV(s.row - 4, s.col - 4)
    else if i == 5 then MV(s.row - 4, s.col + 4)
    else if i == 6 then MV(s.row + 4, s.col - 4)
    else MV(s.row + 4, s.col + 4)
  }

  /** Points `i .. 7` taken in order. */
  function TakeHalfPoints(score: MV -> Eval, b: SubBest, s: MV, i: nat): SubBest
    decreases 8 - i
  {
    if i >= 8 then b else TakeHalfPoints(score, Take(b, HalfPoint(s, i), score(HalfPoint(s, i))), s, i + 1)
  }

  /** vp8_find_best_half_pixel_step. */
  function HalfPixelStep(ctx: SearchContext, full: MV, ref: MV, sse0: int): SubResult
  {
    if Uncodable(ToEighths(full), ref) then Trapped(full, ref, sse0)
    else
      var b := TakeHalfPoints(EighthScore(ctx, ref), Centre(ctx, full, ref, ToEighths(full)), ToEighths(full), 0);
      SubResult(b.mv, b.err, b.dist, b.sse)
  }

  // ---------------------------------------------------------------------
  // What the probes compute

  /** The quarter-pel probe of the iterative refiner is the eighth-pel
      variance at twice the vector. */
  lemma QuarterIsCanonical(ctx: SearchContext, q: MV)
    ensures QuarterVariance(ctx, q) == SubpelVariance(ctx, MV(2 * q.row, 2 * q.col))
  {
    assert (2 * q.row) / 8 == q.row / 4 && (2 * q.col) / 8 == q.col / 4;
    assert (2 * q.row) % 8 == (q.row % 4) * 2 && (2 * q.col) % 8 == (q.col % 4) * 2;
  }

  /** With an even `ref_mv` (a quarter-pel vector, as the encoder keeps
      them), MVC is `mv_err_cost` of the vector scaled to eighth pel. */
  lemma MvcIsErrCost(ctx: SearchContext, ref: MV, q: MV)
    requires ref.row % 2 == 0 && ref.col % 2 == 0
    ensures Mvc(ctx, ref, q) == MvErrCost(MV(2 * q.row, 2 * q.col), ref, ctx.mvCost, ctx.errorPerBit)
  {
    assert (2 * q.row - ref.row) / 2 == q.row - ref.row / 2;
    assert (2 * q.col - ref.col) / 2 == q.col - ref.col / 2;
  }

  /** A whole-pixel vector scaled to eighth pel has phase zero. */
  lemma EighthsOfWhole(ctx: SearchContext, full: MV)
    ensures ToFullPel(ToEighths(full)) == full
    ensures SubpelVariance(ctx, ToEighths(full)) == ctx.fns.svf(Addr(ctx, full), 0, 0)
  {
    assert Low3(full.row * 8) == 0 && Low3(full.col * 8) == 0;
    SubpelBlock(ctx, ToEighths(full));
  }

  /** With consistent primitives the centre is the score of the start. */
  lemma CentreIsCanonical(ctx: SearchContext, full: MV, ref: MV)
    requires PhaseConsistent(ctx.fns)
    ensures var c := Centre(ctx, full, ref, ToEighths(full));
      EighthScore(ctx, ref)(ToEighths(full)) == Inside(c.err, c.dist, c.sse)
  {
    EighthsOfWhole(ctx, full);
    assert ctx.fns.vf(Addr(ctx, full)) == ctx.fns.svf(Addr(ctx, full), 0, 0);
  }

  // ---------------------------------------------------------------------
  // Properties of the crosses and phases

  /** The score a best carries is the score of its vector. */
  predicate Scored(score: MV -> Eval, b: SubBest)
  {
    score(b.mv) == Inside(b.err, b.dist, b.sse)
  }

  /** `q` is within `n` of `p` along each axis. */
  predicate Near(p: MV, q: MV, n: int)
  {
    -n <= q.row - p.row <= n && -n <= q.col - p.col <= n
  }

  /** A cross keeps its best or moves to one of its eight points, scored
      and strictly better. */
  lemma CrossMoves(score: MV -> Eval, b: SubBest, h: int)
    requires h > 0
    ensures var r := Cross(score, b, b.mv, h);
      && r.err <= b.err
      && (r == b || (Scored(score, r) && r.err < b.err && Near(b.mv, r.mv, h) && r.mv != b.mv))
  {
  }

  /** The result of a cross is no worse than any of its four axis points
      inside the clamp. */
  lemma CrossLowest(score: MV -> Eval, b: SubBest, h: int)
    ensures var r := Cross(score, b, b.mv, h);
      forall p :: p in {MV(b.mv.row, b.mv.col - h), MV(b.mv.row, b.mv.col + h),
                        MV(b.mv.row - h, b.mv.col), MV(b.mv.row + h, b.mv.col)} && score(p).Inside?
        ==> r.err <= score(p).err
  {
  }

  /** `h * n`, counted one cross at a time. */
  function Reach(h: nat, n: nat): nat
  {
    if n == 0 then 0 else h + Reach(h, n - 1)
  }

  /** A phase of `n` crosses at distance `h` ends no worse than it started,
      and at a scored vector unless it never moved. */
  lemma {:induction false} PhaseImproves(score: MV -> Eval, b: SubBest, h: int, n: nat)
    requires h > 0
    ensures var r := Phase(score, b, h, n);
      r.err <= b.err && (r == b || (Scored(score, r) && r.err < b.err))
    decreases n
  {
    if n > 0 {
      var b1 := Cross(score, b, b.mv, h);
      CrossMoves(score, b, h);
      if b1.mv != b.mv {
        PhaseImproves(score, b1, h, n - 1);
      }
    }
  }

  /** A phase of `n` crosses at distance `h` stays within `h * n` of its
      start along each axis. */
  lemma {:induction false} PhaseNear(score: MV -> Eval, b: SubBest, h: int, n: nat)
    requires h > 0
    ensures Near(b.mv, Phase(score, b, h, n).mv, Reach(h, n))
    decreases n
  {
    if n > 0 {
      var b1 := Cross(score, b, b.mv, h);
      CrossMoves(score, b, h);
      if b1.mv == b.mv {
        assert Phase(score, b, h, n).mv == b.mv;
      } else {
        assert Near(b.mv, b1.mv, h);
        PhaseNear(score, b1, h, n - 1);
        assert Phase(score, b, h, n) == Phase(score, b1, h, n - 1);
        assert Reach(h, n) == h + Reach(h, n - 1);
      }
    }
  }

  /** The iterative refiner leaves the start by at most 3 * 2 + 3 * 1
      quarter pels (18 eighth pels) along each axis. It returns INT_MAX for
      an uncodable result; otherwise an error no higher than the centre's,
      which is the score of the vector returned unless it stayed at the
      centre. */
  lemma IterativeFacts(ctx: SearchContext, full: MV, ref: MV)
    ensures var res := Iterative(ctx, full, ref);
      var c := Centre(ctx, full, ref, MV(full.row * 4, full.col * 4));
      var score := QuarterScore(ctx, ref, IterBox(ctx, ref));
      && Near(ToEighths(full), res.mv, 18)
      && (Uncodable(res.mv, ref) ==> res.cost == INT_MAX)
      && (!Uncodable(res.mv, ref) ==>
            && res.cost <= c.err
            && (SubResult(ToEighths(full), c.err, c.dist, c.sse) == res
                || Scored(score, SubBest(res.cost, MV(res.mv.row / 2, res.mv.col / 2), res.distortion, res.sse))))
  {
    var score := QuarterScore(ctx, ref, IterBox(ctx, ref));
    var c := Centre(ctx, full, ref, MV(full.row * 4, full.col * 4));
    var b1 := Phase(score, c, 2, 3);
    PhaseImproves(score, c, 2, 3);
    PhaseNear(score, c, 2, 3);
    PhaseImproves(score, b1, 1, 3);
    PhaseNear(score, b1, 1, 3);
    assert Reach(2, 3) == 6 && Reach(1, 3) == 3;
    var b := Phase(score, b1, 1, 3);
    assert MV(b.mv.row * 2, b.mv.col * 2).row / 2 == b.mv.row;
    assert MV(b.mv.row * 2, b.mv.col * 2).col / 2 == b.mv.col;
  }

  /** vp8_find_best_sub_pixel_step traps an uncodable start; otherwise it
      returns an error no higher than the centre's, the score of the vector
      it returns (the start's when it does not move), at most 4 + 2 eighth
      pels from the start along each axis. */
  lemma SubPixelStepFacts(ctx: SearchContext, full: MV, ref: MV, sse0: int)
    ensures var res := SubPixelStep(ctx, full, ref, sse0);
      var c := Centre(ctx, full, ref, ToEighths(full));
      && (Uncodable(ToEighths(full), ref) ==> res == Trapped(full, ref, sse0))
      && (!Uncodable(ToEighths(full), ref) ==>
            && res.cost <= c.err
            && Near(ToEighths(full), res.mv, 6)
            && (SubResult(c.mv, c.err, c.dist, c.sse) == res
                || Scored(EighthScore(ctx, ref), SubBest(res.cost, res.mv, res.distortion, res.sse))))
  {
    if !Uncodable(ToEighths(full), ref) {
      var score := EighthScore(ctx, ref);
      var c := Centre(ctx, full, ref, ToEighths(full));
      CrossMoves(score, c, 4);
      var b1 := Cross(score, c, c.mv, 4);
      CrossMoves(score, b1, 2);
    }
  }

  /** The half-pel points taken in order leave a best no higher than any
      of them. */
  lemma {:induction false} TakeHalfPointsLowest(score: MV -> Eval, b: SubBest, s: MV, i: nat)
    ensures var r := TakeHalfPoints(score, b, s, i);
      && r.err <= b.err
      && (r == b || (Scored(score, r) && r.err < b.err && Near(s, r.mv, 4)))
      && forall t :: i <= t < 8 && score(HalfPoint(s, t)).Inside? ==> r.err <= score(HalfPoint(s, t)).err
    decreases 8 - i
  {
    if i < 8 {
      TakeHalfPointsLowest(score, Take(b, HalfPoint(s, i), score(HalfPoint(s, i))), s, i + 1);
    }
  }

  /** vp8_find_best_half_pixel_step traps an uncodable start: `*bestmv`
      scaled to eighth pel, INT_MAX returned and in `*distortion`, `*sse1`
      untouched. */
  lemma HalfPixelStepTrap(ctx: SearchContext, full: MV, ref: MV, sse0: int)
    requires Uncodable(ToEighths(full), ref)
    ensures HalfPixelStep(ctx, full, ref, sse0) == SubResult(ToEighths(full), INT_MAX, INT_MAX, sse0)
  {
  }

  /** Otherwise its error is no higher than the centre's, and it stays
      within 4 eighth pels of the start. */
  lemma HalfPixelStepImproves(ctx: SearchContext, full: MV, ref: MV, sse0: int)
    requires !Uncodable(ToEighths(full), ref)
    ensures var res := HalfPixelStep(ctx, full, ref, sse0);
      res.cost <= Centre(ctx, full, ref, ToEighths(full)).err && Near(ToEighths(full), res.mv, 4)
  {
    TakeHalfPointsLowest(EighthScore(ctx, ref), Centre(ctx, full, ref, ToEighths(full)), ToEighths(full), 0);
  }

  /** ... its error is no higher than that of any of the eight half-pel
      neighbours ... */
  lemma HalfPixelStepLowest(ctx: SearchContext, full: MV, ref: MV, sse0: int, t: int)
    requires !Uncodable(ToEighths(full), ref) && 0 <= t < 8
    ensures HalfPixelStep(ctx, full, ref, sse0).cost <= EighthScore(ctx, ref)(HalfPoint(ToEighths(full), t)).err
  {
    var score := EighthScore(ctx, ref);
    var c := Centre(ctx, full, ref, ToEighths(full));
    var p := HalfPoint(ToEighths(full), t);
    TakeHalfPointsLowest(score, c, ToEighths(full), 0);
    assert score(p).Inside?;
    assert TakeHalfPoints(score, c, ToEighths(full), 0).err <= score(p).err;
  }

  /** ... and the error it returns is the score of the vector it returns,
      unless it stayed at the centre. */
  lemma HalfPixelStepScored(ctx: SearchContext, full: MV, ref: MV, sse0: int)
    requires !Uncodable(ToEighths(full), ref)
    ensures var res := HalfPixelStep(ctx, full, ref, sse0);
      var c := Centre(ctx, full, ref, ToEighths(full));
      SubResult(c.mv, c.err, c.dist, c.sse) == res
      || Scored(EighthScore(ctx, ref), SubBest(res.cost, res.mv, res.distortion, res.sse))
  {
    TakeHalfPointsLowest(EighthScore(ctx, ref), Centre(ctx, full, ref, ToEighths(full)), ToEighths(full), 0);
  }

  // ---------------------------------------------------------------------
  // The refiners as written

  /** Where a probe's block starts: `mv >> 3` moved by `(dr, dc)` whole
      pixels from the start's block. */
  lemma ProbeBlock(ctx: SearchContext, s: MV, mv: MV, dr: int, dc: int)
    requires mv.row / 8 == s.row / 8 + dr && mv.col / 8 == s.col / 8 + dc
    ensures SubpelVariance(ctx, mv)
            == ctx.fns.svf(Addr(ctx, ToFullPel(s)) + dr * ctx.stride + dc, Low3(mv.col), Low3(mv.row))
  {
    AddrShift(ctx, ToFullPel(s), MV(dr, dc));
    assert ToFullPel(mv) == Add(ToFullPel(s), MV(dr, dc));
    SubpelBlock(ctx, mv);
  }

  /** CHECK_BETTER(v, r, c) of the iterative refiner; `e` is the probe's
      outcome. */
  method CheckBetter(ctx: SearchContext, ref: MV, box: Bounds, b: SubBest, r: int, c: int)
    returns (v: int, e: Eval, b': SubBest)
    ensures e == QuarterEval(ctx, ref, box, MV(r, c))
    ensures v == EvalValue(e) && b' == Take(b, MV(r, c), e)
  {
    if c >= box.colMin && c <= box.colMax && r >= box.rowMin && r <= box.rowMax {
      RowOffsetIsProduct(r / 4, ctx.stride);
      var sse := ctx.fns.svf(ctx.pre + (r / 4) * ctx.stride + c / 4, (c % 4) * 2, (r % 4) * 2);
      var thismse := sse.value;
      v := Mvc(ctx, ref, MV(r, c)) + thismse;
      e := Inside(v, thismse, sse.sse);
      if v < b.err {
        b' := SubBest(v, MV(r, c), thismse, sse.sse);
      } else {
        b' := b;
      }
    } else {
      v := INT_MAX;
      e := Outside;
      b' := b;
    }
  }

  /** Cross, given the outcomes of its four axis probes and the best after
      each of them. */
  lemma CrossOf(score: MV -> Eval, b: SubBest, s: MV, h: int, l: Eval, r: Eval, u: Eval, d: Eval,
                b1: SubBest, b2: SubBest, b3: SubBest, b4: SubBest, g: MV)
    requires l == score(MV(s.row, s.col - h)) && r == score(MV(s.row, s.col + h))
    requires u == score(MV(s.row - h, s.col)) && d == score(MV(s.row + h, s.col))
    requires b1 == Take(b, MV(s.row, s.col - h), l) && b2 == Take(b1, MV(s.row, s.col + h), r)
    requires b3 == Take(b2, MV(s.row - h, s.col), u) && b4 == Take(b3, MV(s.row + h, s.col), d)
    requires g == Diagonal(s, h, EvalValue(l), EvalValue(r), EvalValue(u), EvalValue(d))
    ensures Cross(score, b, s, h) == Take(b4, g, score(g))
  {
  }

  /** CrossOf with the four axis points named. */
  lemma CrossOfPoints(score: MV -> Eval, b: SubBest, s: MV, h: int, p0: MV, p1: MV, p2: MV, p3: MV,
                      l: Eval, r: Eval, u: Eval, d: Eval, b1: SubBest, b2: SubBest, b3: SubBest, b4: SubBest,
                      g: MV, e: Eval, b5: SubBest)
    requires p0 == MV(s.row, s.col - h) && p1 == MV(s.row, s.col + h)
    requires p2 == MV(s.row - h, s.col) && p3 == MV(s.row + h, s.col)
    requires l == score(p0) && r == score(p1) && u == score(p2) && d == score(p3)
    requires b1 == Take(b, p0, l) && b2 == Take(b1, p1, r) && b3 == Take(b2, p2, u) && b4 == Take(b3, p3, d)
    requires g == Diagonal(s, h, EvalValue(l), EvalValue(r), EvalValue(u), EvalValue(d))
    requires e == score(g) && b5 == Take(b4, g, e)
    ensures Cross(score, b, s, h) == b5
  {
    CrossOf(score, b, s, h, l, r, u, d, b1, b2, b3, b4, g);
  }

  /** CrossOfPoints for the iterative refiner's score. */
  lemma QuarterCrossOf(ctx: SearchContext, ref: MV, box: Bounds, b: SubBest, h: int,
                       l: Eval, r: Eval, u: Eval, d: Eval, b1: SubBest, b2: SubBest, b3: SubBest, b4: SubBest,
                       g: MV, e: Eval, b5: SubBest)
    requires l == QuarterEval(ctx, ref, box, MV(b.mv.row, b.mv.col - h))
    requires r == QuarterEval(ctx, ref, box, MV(b.mv.row, b.mv.col + h))
    requires u == QuarterEval(ctx, ref, box, MV(b.mv.row - h, b.mv.col))
    requires d == QuarterEval(ctx, ref, box, MV(b.mv.row + h, b.mv.col))
    requires b1 == Take(b, MV(b.mv.row, b.mv.col - h), l) && b2 == Take(b1, MV(b.mv.row, b.mv.col + h), r)
    requires b3 == Take(b2, MV(b.mv.row - h, b.mv.col), u) && b4 == Take(b3, MV(b.mv.row + h, b.mv.col), d)
    requires g == Diagonal(b.mv, h, EvalValue(l), EvalValue(r), EvalValue(u), EvalValue(d))
    requires e == QuarterEval(ctx, ref, box, g) && b5 == Take(b4, g, e)
    ensures Cross(QuarterScore(ctx, ref, box), b, b.mv, h) == b5
  {
    var s := b.mv;
    CrossOfPoints(QuarterScore(ctx, ref, box), b, s, h, MV(s.row, s.col - h), MV(s.row, s.col + h),
                  MV(s.row - h, s.col), MV(s.row + h, s.col), l, r, u, d, b1, b2, b3, b4, g, e, b5);
  }

  /** One pass of the iterative refiner's loops around `(tr, tc)`. */
  method IterCross(ctx: SearchContext, ref: MV, box: Bounds, b0: SubBest, h: int) returns (b: SubBest)
    ensures b == Cross(QuarterScore(ctx, ref, box), b0, b0.mv, h)
  {
    var tr, tc := b0.mv.row, b0.mv.col;
    var left, right, up, down, diag;
    var l, r, u, d, g;
    var b1, b2, b3, b4;
    left, l, b1 := CheckBetter(ctx, ref, box, b0, tr, tc - h);
    right, r, b2 := CheckBetter(ctx, ref, box, b1, tr, tc + h);
    up, u, b3 := CheckBetter(ctx, ref, box, b2, tr - h, tc);
    down, d, b4 := CheckBetter(ctx, ref, box, b3, tr + h, tc);
    var whichdir := (if left < right then 0 else 1) + (if up < down then 0 else 2);
    var dr, dc;
    if whichdir == 0 {
      dr, dc := tr - h, tc - h;
    } else if whichdir == 1 {
      dr, dc := tr - h, tc + h;
    } else if whichdir == 2 {
      dr, dc := tr + h, tc - h;
    } else {
      dr, dc := tr + h, tc + h;
    }
    diag, g, b := CheckBetter(ctx, ref, box, b4, dr, dc);
    QuarterCrossOf(ctx, ref, box, b0, h, l, r, u, d, b1, b2, b3, b4, MV(dr, dc), g, b);
  }

  /** One round of Phase: it stops on the cross that keeps the centre, and
      otherwise goes on from the cross's best with one round fewer. */
  lemma PhaseStep(score: MV -> Eval, b: SubBest, h: int, n: nat, m: nat, b1: SubBest)
    requires n == m + 1 && b1 == Cross(score, b, b.mv, h)
    ensures b1.mv == b.mv ==> Phase(score, b, h, n) == b1
    ensures b1.mv != b.mv ==> Phase(score, b, h, n) == Phase(score, b1, h, m)
  {
  }

  /** One `while (--iters)` loop of the iterative refiner, at most three
      crosses at distance `h`, stopping when the centre stays best. */
  method IterPhase(ctx: SearchContext, ref: MV, box: Bounds, b0: SubBest, h: int) returns (b: SubBest)
    ensures b == Phase(QuarterScore(ctx, ref, box), b0, h, 3)
  {
    ghost var score := QuarterScore(ctx, ref, box);
    b := b0;
    var iters := 4;
    iters := iters - 1;
    while iters != 0
      invariant 0 <= iters <= 3
      invariant Phase(score, b, h, iters) == Phase(score, b0, h, 3)
    {
      var b1 := IterCross(ctx, ref, box, b, h);
      ghost var bPrev, n0 := b, iters;
      if b1.mv == b.mv {
        PhaseStep(score, bPrev, h, n0, n0 - 1, b1);
        b := b1;
        break;
      }
      b := b1;
      iters := iters - 1;
      PhaseStep(score, bPrev, h, n0, iters, b);
    }
  }

  /** Iterative, given the best after both phases. */
  lemma IterativeOf(ctx: SearchContext, full: MV, ref: MV, box: Bounds, b: SubBest, mv8: MV, cost: int)
    requires box == IterBox(ctx, ref)
    requires b == Phase(QuarterScore(ctx, ref, box),
                        Phase(QuarterScore(ctx, ref, box),
                              Centre(ctx, full, ref, MV(full.row * 4, full.col * 4)), 2, 3), 1, 3)
    requires mv8 == MV(b.mv.row * 2, b.mv.col * 2)
    requires cost == if Uncodable(mv8, ref) then INT_MAX else b.err
    ensures Iterative(ctx, full, ref) == SubResult(mv8, cost, b.dist, b.sse)
  {
  }

  /** vp8_find_best_sub_pixel_step_iteratively. */
  method FindBestSubPixelStepIteratively(ctx: SearchContext, full: MV, ref: MV)
    returns (bestmv: MV, besterr: int, distortion: int, sse1: int)
    ensures SubResult(bestmv, besterr, distortion, sse1) == Iterative(ctx, full, ref)
  {
    var y := Addr(ctx, full);
    var reach := 1023;
    assert reach == Pow2(MVLONG_WIDTH) - 1;
    var minc := Max(ctx.bounds.colMin * 4, ref.col / 2 - reach);
    var maxc := Min(ctx.bounds.colMax * 4, ref.col / 2 + reach);
    var minr := Max(ctx.bounds.rowMin * 4, ref.row / 2 - reach);
    var maxr := Min(ctx.bounds.rowMax * 4, ref.row / 2 + reach);
    var box := Bounds(minr, maxr, minc, maxc);
    assert box == IterBox(ctx, ref);

    var centre := ctx.fns.vf(y);
    var b := SubBest(centre.value + MvErrCost(MV(full.row * 8, full.col * 8), ref, ctx.mvCost, ctx.errorPerBit),
                     MV(full.row * 4, full.col * 4), centre.value, centre.sse);
    assert b == Centre(ctx, full, ref, MV(full.row * 4, full.col * 4));
    b := IterPhase(ctx, ref, box, b, 2);
    b := IterPhase(ctx, ref, box, b, 1);
    bestmv := MV(b.mv.row * 2, b.mv.col * 2);
    distortion, sse1 := b.dist, b.sse;
    if Uncodable(bestmv, ref) {
      besterr := INT_MAX;
    } else {
      besterr := b.err;
    }
    IterativeOf(ctx, full, ref, box, b, bestmv, besterr);
  }

  /** The half-pel primitive the refiners call for point `i` of HalfPoint,
      with `y` at the start's whole-pixel block. */
  function HalfProbe(ctx: SearchContext, y: int, i: int): Variance
  {
    if i == 0 then ctx.fns.halfpixH(y - 1)
    else if i == 1 then ctx.fns.halfpixH(y)
    else if i == 2 then ctx.fns.halfpixV(y - ctx.stride)
    else if i == 3 then ctx.fns.halfpixV(y)
    else if i == 4 then ctx.fns.halfpixHV(y - 1 - ctx.stride)
    else if i == 5 then ctx.fns.halfpixHV(y - ctx.stride)
    else if i == 6 then ctx.fns.halfpixHV(y - 1)
    else ctx.fns.halfpixHV(y)
  }

  /** With consistent primitives, each half-pel call measures the variance
      at its point: the blocks to the left of and above the start are one
      whole pixel back. */
  lemma HalfProbeIsSubpel(ctx: SearchContext, s: MV, i: int)
    requires PhaseConsistent(ctx.fns) && s.row % 8 == 0 && s.col % 8 == 0 && 0 <= i < 8
    ensures HalfProbe(ctx, Addr(ctx, ToFullPel(s)), i) == SubpelVariance(ctx, HalfPoint(s, i))
  {
    var p := HalfPoint(s, i);
    var dr := if p.row < s.row then -1 else 0;
    var dc := if p.col < s.col then -1 else 0;
    assert p.row / 8 == s.row / 8 + dr && p.col / 8 == s.col / 8 + dc;
    assert Low3(p.row) == (if p.row == s.row then 0 else 4);
    assert Low3(p.col) == (if p.col == s.col then 0 else 4);
    ProbeBlock(ctx, s, p, dr, dc);
  }

  /** A probe's outcome under EighthScore, given the variance measured. */
  lemma EighthAt(ctx: SearchContext, ref: MV, mv: MV, v: Variance)
    requires v == SubpelVariance(ctx, mv)
    ensures EighthScore(ctx, ref)(mv)
            == Inside(v.value + MvErrCost(mv, ref, ctx.mvCost, ctx.errorPerBit), v.value, v.sse)
  {
  }

  /** `thismse + mv_err_cost(&this_mv, ...)` and the `if (... < bestmse)`
      update after every probe of the two eighth-pel refiners. */
  method Probe(ctx: SearchContext, ref: MV, b: SubBest, mv: MV, v: Variance) returns (e: int, b': SubBest)
    ensures e == v.value + MvErrCost(mv, ref, ctx.mvCost, ctx.errorPerBit)
    ensures b' == Take(b, mv, Inside(e, v.value, v.sse))
  {
    e := v.value + MvErrCost(mv, ref, ctx.mvCost, ctx.errorPerBit);
    if e < b.err {
      b' := SubBest(e, mv, v.value, v.sse);
    } else {
      b' := b;
    }
  }

  /** The cross lands on the centre or one step `h` away along each axis. */
  lemma CrossLands(score: MV -> Eval, b: SubBest, h: int)
    ensures var r := Cross(score, b, b.mv, h);
      && (r.mv.row == b.mv.row - h || r.mv.row == b.mv.row || r.mv.row == b.mv.row + h)
      && (r.mv.col == b.mv.col - h || r.mv.col == b.mv.col || r.mv.col == b.mv.col + h)
  {
  }

  /** The outcome of the half-pel probe of point `i` around `s`, as the
      refiners compute it, with `y` at the block of `s`. */
  function HalfProbeEval(ctx: SearchContext, ref: MV, y: int, s: MV, i: int): Eval
  {
    var v := HalfProbe(ctx, y, i);
    Inside(v.value + MvErrCost(HalfPoint(s, i), ref, ctx.mvCost, ctx.errorPerBit), v.value, v.sse)
  }

  /** `whichdir` of the refiners' crosses. */
  function WhichDir(left: int, right: int, up: int, down: int): int
  {
    (if left < right then 0 else 1) + (if up < down then 0 else 2)
  }

  /** The half-pel cross, in terms of the primitives' outcomes, is the
      eighth-pel cross when the primitives are consistent. */
  lemma HalfCrossIs(ctx: SearchContext, ref: MV, s: MV, b0: SubBest, b1: SubBest, b2: SubBest, b3: SubBest,
                    b4: SubBest, k: int, b: SubBest)
    requires s.row % 8 == 0 && s.col % 8 == 0
    requires b1 == Take(b0, HalfPoint(s, 0), HalfProbeEval(ctx, ref, Addr(ctx, ToFullPel(s)), s, 0))
    requires b2 == Take(b1, HalfPoint(s, 1), HalfProbeEval(ctx, ref, Addr(ctx, ToFullPel(s)), s, 1))
    requires b3 == Take(b2, HalfPoint(s, 2), HalfProbeEval(ctx, ref, Addr(ctx, ToFullPel(s)), s, 2))
    requires b4 == Take(b3, HalfPoint(s, 3), HalfProbeEval(ctx, ref, Addr(ctx, ToFullPel(s)), s, 3))
    requires var y := Addr(ctx, ToFullPel(s));
      k == 4 + WhichDir(EvalValue(HalfProbeEval(ctx, ref, y, s, 0)), EvalValue(HalfProbeEval(ctx, ref, y, s, 1)),
                        EvalValue(HalfProbeEval(ctx, ref, y, s, 2)), EvalValue(HalfProbeEval(ctx, ref, y, s, 3)))
    requires b == Take(b4, HalfPoint(s, k), HalfProbeEval(ctx, ref, Addr(ctx, ToFullPel(s)), s, k))
    ensures PhaseConsistent(ctx.fns) ==> b == Cross(EighthScore(ctx, ref), b0, s, 4)
  {
    if PhaseConsistent(ctx.fns) {
      var y := Addr(ctx, ToFullPel(s));
      HalfPointScore(ctx, ref, s, 0);
      HalfPointScore(ctx, ref, s, 1);
      HalfPointScore(ctx, ref, s, 2);
      HalfPointScore(ctx, ref, s, 3);
      HalfPointScore(ctx, ref, s, k);
      CrossOfPoints(EighthScore(ctx, ref), b0, s, 4, HalfPoint(s, 0), HalfPoint(s, 1), HalfPoint(s, 2), HalfPoint(s, 3),
                    HalfProbeEval(ctx, ref, y, s, 0), HalfProbeEval(ctx, ref, y, s, 1),
                    HalfProbeEval(ctx, ref, y, s, 2), HalfProbeEval(ctx, ref, y, s, 3),
                    b1, b2, b3, b4, HalfPoint(s, k), HalfProbeEval(ctx, ref, y, s, k), b);
    }
  }

  /** The half-pel cross of vp8_find_best_sub_pixel_step around `s`, with
      `y` at the block of `s`: left, right, up, down, then one diagonal. */
  method HalfCross(ctx: SearchContext, ref: MV, y: int, s: MV, b0: SubBest) returns (b: SubBest)
    requires s.row % 8 == 0 && s.col % 8 == 0 && y == Addr(ctx, ToFullPel(s))
    ensures PhaseConsistent(ctx.fns) ==> b == Cross(EighthScore(ctx, ref), b0, s, 4)
  {
    OrStepsBack(s.row);
    OrStepsBack(s.col);
    var thisMv := MV(s.row, OrLow(s.col - 8, 4));
    var v := ctx.fns.halfpixH(y - 1);
    assert thisMv == HalfPoint(s, 0) && v == HalfProbe(ctx, y, 0);
    var left, b1 := Probe(ctx, ref, b0, thisMv, v);

    thisMv := MV(thisMv.row, thisMv.col + 8);
    v := ctx.fns.halfpixH(y);
    assert thisMv == HalfPoint(s, 1) && v == HalfProbe(ctx, y, 1);
    var right, b2 := Probe(ctx, ref, b1, thisMv, v);

    thisMv := MV(OrLow(s.row - 8, 4), s.col);
    v := ctx.fns.halfpixV(y - ctx.stride);
    assert thisMv == HalfPoint(s, 2) && v == HalfProbe(ctx, y, 2);
    var up, b3 := Probe(ctx, ref, b2, thisMv, v);

    thisMv := MV(thisMv.row + 8, thisMv.col);
    v := ctx.fns.halfpixV(y);
    assert thisMv == HalfPoint(s, 3) && v == HalfProbe(ctx, y, 3);
    var down, b4 := Probe(ctx, ref, b3, thisMv, v);

    var whichdir := (if left < right then 0 else 1) + (if up < down then 0 else 2);
    thisMv := s;
    if whichdir == 0 {
      thisMv := MV(OrLow(thisMv.row - 8, 4), OrLow(thisMv.col - 8, 4));
      v := ctx.fns.halfpixHV(y - 1 - ctx.stride);
    } else if whichdir == 1 {
      thisMv := MV(OrLow(thisMv.row - 8, 4), thisMv.col + 4);
      v := ctx.fns.halfpixHV(y - ctx.stride);
    } else if whichdir == 2 {
      thisMv := MV(thisMv.row + 4, OrLow(thisMv.col - 8, 4));
      v := ctx.fns.halfpixHV(y - 1);
    } else {
      thisMv := MV(thisMv.row + 4, thisMv.col + 4);
      v := ctx.fns.halfpixHV(y);
    }
    assert thisMv == HalfPoint(s, 4 + whichdir) && v == HalfProbe(ctx, y, 4 + whichdir);
    var diag;
    diag, b := Probe(ctx, ref, b4, thisMv, v);
    HalfCrossIs(ctx, ref, s, b0, b1, b2, b3, b4, 4 + whichdir, b);
  }

  /** With consistent primitives, the half-pel call for point `i` gives
      EighthScore's outcome at that point. */
  lemma HalfPointScore(ctx: SearchContext, ref: MV, s: MV, i: int)
    requires PhaseConsistent(ctx.fns) && s.row % 8 == 0 && s.col % 8 == 0 && 0 <= i < 8
    ensures HalfProbeEval(ctx, ref, Addr(ctx, ToFullPel(s)), s, i) == EighthScore(ctx, ref)(HalfPoint(s, i))
  {
    HalfProbeIsSubpel(ctx, s, i);
    EighthAt(ctx, ref, HalfPoint(s, i), HalfProbe(ctx, Addr(ctx, ToFullPel(s)), i));
  }

  /** The call the quarter-pel step makes for point `p` near `s`, with `y`
      at the block of `s`: the block one row up (one column left) when `p`
      is above (left of) a whole-pixel `s`, and the phases of `p`. */
  function QuarterProbe(ctx: SearchContext, y: int, s: MV, p: MV): Variance
  {
    var a := y - (if p.row < s.row && Low3(s.row) == 0 then ctx.stride else 0)
               - (if p.col < s.col && Low3(s.col) == 0 then 1 else 0);
    ctx.fns.svf(a, Low3(p.col), Low3(p.row))
  }

  /** The outcome of that probe as the step computes it. */
  function QuarterProbeEval(ctx: SearchContext, ref: MV, y: int, s: MV, p: MV): Eval
  {
    var v := QuarterProbe(ctx, y, s, p);
    Inside(v.value + MvErrCost(p, ref, ctx.mvCost, ctx.errorPerBit), v.value, v.sse)
  }

  /** From a quarter-pel `s`, every point within two eighths along each
      axis is measured where EighthScore measures it. */
  lemma QuarterProbeScore(ctx: SearchContext, ref: MV, s: MV, p: MV)
    requires s.row % 4 == 0 && s.col % 4 == 0
    requires p.row == s.row - 2 || p.row == s.row || p.row == s.row + 2
    requires p.col == s.col - 2 || p.col == s.col || p.col == s.col + 2
    ensures QuarterProbeEval(ctx, ref, Addr(ctx, ToFullPel(s)), s, p) == EighthEval(ctx, ref, p)
  {
    var dr := if p.row < s.row && Low3(s.row) == 0 then -1 else 0;
    var dc := if p.col < s.col && Low3(s.col) == 0 then -1 else 0;
    assert p.row / 8 == s.row / 8 + dr && p.col / 8 == s.col / 8 + dc;
    ProbeBlock(ctx, s, p, dr, dc);
  }

  /** The quarter-pel cross, in terms of the probes' outcomes, is the
      eighth-pel cross when `s` is a quarter-pel vector and `y` its block. */
  lemma QuarterCrossIs(ctx: SearchContext, ref: MV, y: int, s: MV, b0: SubBest, b1: SubBest, b2: SubBest,
                       b3: SubBest, b4: SubBest, g: MV, b: SubBest)
    requires b1 == Take(b0, MV(s.row, s.col - 2), QuarterProbeEval(ctx, ref, y, s, MV(s.row, s.col - 2)))
    requires b2 == Take(b1, MV(s.row, s.col + 2), QuarterProbeEval(ctx, ref, y, s, MV(s.row, s.col + 2)))
    requires b3 == Take(b2, MV(s.row - 2, s.col), QuarterProbeEval(ctx, ref, y, s, MV(s.row - 2, s.col)))
    requires b4 == Take(b3, MV(s.row + 2, s.col), QuarterProbeEval(ctx, ref, y, s, MV(s.row + 2, s.col)))
    requires g == Diagonal(s, 2, EvalValue(QuarterProbeEval(ctx, ref, y, s, MV(s.row, s.col - 2))),
                           EvalValue(QuarterProbeEval(ctx, ref, y, s, MV(s.row, s.col + 2))),
                           EvalValue(QuarterProbeEval(ctx, ref, y, s, MV(s.row - 2, s.col))),
                           EvalValue(QuarterProbeEval(ctx, ref, y, s, MV(s.row + 2, s.col))))
    requires b == Take(b4, g, QuarterProbeEval(ctx, ref, y, s, g))
    ensures s.row % 4 == 0 && s.col % 4 == 0 && y == Addr(ctx, ToFullPel(s))
            ==> b == Cross(EighthScore(ctx, ref), b0, s, 2)
  {
    if s.row % 4 == 0 && s.col % 4 == 0 && y == Addr(ctx, ToFullPel(s)) {
      QuarterProbeScore(ctx, ref, s, MV(s.row, s.col - 2));
      QuarterProbeScore(ctx, ref, s, MV(s.row, s.col + 2));
      QuarterProbeScore(ctx, ref, s, MV(s.row - 2, s.col));
      QuarterProbeScore(ctx, ref, s, MV(s.row + 2, s.col));
      QuarterProbeScore(ctx, ref, s, g);
      CrossOfPoints(EighthScore(ctx, ref), b0, s, 2, MV(s.row, s.col - 2), MV(s.row, s.col + 2),
                    MV(s.row - 2, s.col), MV(s.row + 2, s.col),
                    QuarterProbeEval(ctx, ref, y, s, MV(s.row, s.col - 2)),
                    QuarterProbeEval(ctx, ref, y, s, MV(s.row, s.col + 2)),
                    QuarterProbeEval(ctx, ref, y, s, MV(s.row - 2, s.col)),
                    QuarterProbeEval(ctx, ref, y, s, MV(s.row + 2, s.col)),
                    b1, b2, b3, b4, g, QuarterProbeEval(ctx, ref, y, s, g), b);
    }
  }

  /** The diagonal probe of the quarter-pel cross for `whichdir` (bit 0:
      right rather than left, bit 1: down rather than up). */
  method QuarterDiagonal(ctx: SearchContext, y: int, s: MV, whichdir: int) returns (thisMv: MV, v: Variance)
    requires 0 <= whichdir < 4
    ensures thisMv == MV(s.row + (if whichdir < 2 then -2 else 2), s.col + (if whichdir % 2 == 0 then -2 else 2))
    ensures v == QuarterProbe(ctx, y, s, thisMv)
  {
    if Low3(s.row) == 0 {
      OrStepsBack(s.row);
    }
    if Low3(s.col) == 0 {
      OrStepsBack(s.col);
    }
    thisMv := s;
    if whichdir == 0 {
      if Low3(s.row) != 0 {
        thisMv := MV(thisMv.row - 2, thisMv.col);
        if Low3(s.col) != 0 {
          thisMv := MV(thisMv.row, thisMv.col - 2);
          v := ctx.fns.svf(y, Low3(thisMv.col), Low3(thisMv.row));
          assert v == QuarterProbe(ctx, y, s, thisMv);
        } else {
          thisMv := MV(thisMv.row, OrLow(s.col - 8, 6));
          v := ctx.fns.svf(y - 1, 6, Low3(thisMv.row));
          assert v == QuarterProbe(ctx, y, s, thisMv);
        }
      } else {
        thisMv := MV(OrLow(s.row - 8, 6), thisMv.col);
        if Low3(s.col) != 0 {
          thisMv := MV(thisMv.row, thisMv.col - 2);
          v := ctx.fns.svf(y - ctx.stride, Low3(thisMv.col), 6);
          assert v == QuarterProbe(ctx, y, s, thisMv);
        } else {
          thisMv := MV(thisMv.row, OrLow(s.col - 8, 6));
          v := ctx.fns.svf(y - ctx.stride - 1, 6, 6);
          assert v == QuarterProbe(ctx, y, s, thisMv);
        }
      }
    } else if whichdir == 1 {
      thisMv := MV(thisMv.row, thisMv.col + 2);
      if Low3(s.row) != 0 {
        thisMv := MV(thisMv.row - 2, thisMv.col);
        v := ctx.fns.svf(y, Low3(thisMv.col), Low3(thisMv.row));
        assert v == QuarterProbe(ctx, y, s, thisMv);
      } else {
        thisMv := MV(OrLow(s.row - 8, 6), thisMv.col);
        v := ctx.fns.svf(y - ctx.stride, Low3(thisMv.col), 6);
        assert v == QuarterProbe(ctx, y, s, thisMv);
      }
    } else if whichdir == 2 {
      thisMv := MV(thisMv.row + 2, thisMv.col);
      if Low3(s.col) != 0 {
        thisMv := MV(thisMv.row, thisMv.col - 2);
        v := ctx.fns.svf(y, Low3(thisMv.col), Low3(thisMv.row));
        assert v == QuarterProbe(ctx, y, s, thisMv);
      } else {
        thisMv := MV(thisMv.row, OrLow(s.col - 8, 6));
        v := ctx.fns.svf(y - 1, 6, Low3(thisMv.row));
        assert v == QuarterProbe(ctx, y, s, thisMv);
      }
    } else {
      thisMv := MV(thisMv.row + 2, thisMv.col + 2);
      v := ctx.fns.svf(y, Low3(thisMv.col), Low3(thisMv.row));
      assert v == QuarterProbe(ctx, y, s, thisMv);
    }
  }

  /** The left probe of the quarter-pel cross: from a whole-pixel column
      it reads the block one column left at phase 6. */
  method QuarterLeft(ctx: SearchContext, y: int, s: MV) returns (thisMv: MV, v: Variance)
    ensures thisMv == MV(s.row, s.col - 2) && v == QuarterProbe(ctx, y, s, thisMv)
  {
    if Low3(s.col) != 0 {
      thisMv := MV(s.row, s.col - 2);
      v := ctx.fns.svf(y, Low3(thisMv.col), Low3(thisMv.row));
    } else {
      OrStepsBack(s.col);
      thisMv := MV(s.row, OrLow(s.col - 8, 6));
      v := ctx.fns.svf(y - 1, 6, Low3(thisMv.row));
    }
  }

  /** The up probe of the quarter-pel cross: from a whole-pixel row it
      reads the block one row up at phase 6. */
  method QuarterUp(ctx: SearchContext, y: int, s: MV) returns (thisMv: MV, v: Variance)
    ensures thisMv == MV(s.row - 2, s.col) && v == QuarterProbe(ctx, y, s, thisMv)
  {
    if Low3(s.row) != 0 {
      thisMv := MV(s.row - 2, s.col);
      v := ctx.fns.svf(y, Low3(thisMv.col), Low3(thisMv.row));
    } else {
      OrStepsBack(s.row);
      thisMv := MV(OrLow(s.row - 8, 6), s.col);
      v := ctx.fns.svf(y - ctx.stride, Low3(thisMv.col), 6);
    }
  }

  /** Probe with the outcome named as the quarter-pel step computes it. */
  method QuarterTake(ctx: SearchContext, ref: MV, y: int, s: MV, b: SubBest, p: MV, v: Variance)
    returns (e: int, b': SubBest)
    requires v == QuarterProbe(ctx, y, s, p)
    ensures e == EvalValue(QuarterProbeEval(ctx, ref, y, s, p))
    ensures b' == Take(b, p, QuarterProbeEval(ctx, ref, y, s, p))
  {
    e, b' := Probe(ctx, ref, b, p, v);
  }

  /** The quarter-pel cross of vp8_find_best_sub_pixel_step around `s`,
      with `y` at the block of `s`. A probe left of (above) a whole-pixel
      `s` reads the block one column left (one row up) with phase 6. */
  method QuarterCross(ctx: SearchContext, ref: MV, y: int, s: MV, b0: SubBest) returns (b: SubBest)
    ensures s.row % 4 == 0 && s.col % 4 == 0 && y == Addr(ctx, ToFullPel(s))
            ==> b == Cross(EighthScore(ctx, ref), b0, s, 2)
  {
    var thisMv, v := QuarterLeft(ctx, y, s);
    var left, b1 := QuarterTake(ctx, ref, y, s, b0, thisMv, v);

    thisMv := MV(thisMv.row, thisMv.col + 4);
    v := ctx.fns.svf(y, Low3(thisMv.col), Low3(thisMv.row));
    var right, b2 := QuarterTake(ctx, ref, y, s, b1, thisMv, v);

    thisMv, v := QuarterUp(ctx, y, s);
    var up, b3 := QuarterTake(ctx, ref, y, s, b2, thisMv, v);

    thisMv := MV(thisMv.row + 4, thisMv.col);
    v := ctx.fns.svf(y, Low3(thisMv.col), Low3(thisMv.row));
    var down, b4 := QuarterTake(ctx, ref, y, s, b3, thisMv, v);

    var whichdir := (if left < right then 0 else 1) + (if up < down then 0 else 2);
    thisMv, v := QuarterDiagonal(ctx, y, s, whichdir);
    ghost var g := Diagonal(s, 2, left, right, up, down);
    assert thisMv == g;
    var diag;
    diag, b := QuarterTake(ctx, ref, y, s, b4, thisMv, v);
    QuarterCrossIs(ctx, ref, y, s, b0, b1, b2, b3, b4, g, b);
  }

  /** After the half-pel cross, stepping `y` back one row (one column) when
      the best moved up (left) lands it on the block of the best. */
  lemma HalfToQuarterBlock(ctx: SearchContext, s: MV, m: MV, y: int, y': int)
    requires s.row % 8 == 0 && s.col % 8 == 0 && y == Addr(ctx, ToFullPel(s))
    requires m.row == s.row - 4 || m.row == s.row || m.row == s.row + 4
    requires m.col == s.col - 4 || m.col == s.col || m.col == s.col + 4
    requires y' == y - (if m.row < s.row then ctx.stride else 0) - (if m.col < s.col then 1 else 0)
    ensures m.row % 4 == 0 && m.col % 4 == 0 && y' == Addr(ctx, ToFullPel(m))
  {
    var dr := if m.row < s.row then -1 else 0;
    var dc := if m.col < s.col then -1 else 0;
    assert ToFullPel(m) == Add(ToFullPel(s), MV(dr, dc));
    AddrShift(ctx, ToFullPel(s), MV(dr, dc));
  }

  /** vp8_find_best_sub_pixel_step: `full` is the full-pel vector found by
      the integer search; the outputs are the eighth-pel vector, its cost,
      its distortion and its sse (`sse0` is what `*sse1` held on entry). */
  method FindBestSubPixelStep(ctx: SearchContext, full: MV, ref: MV, sse0: int)
    returns (bestmv: MV, besterr: int, distortion: int, sse1: int)
    ensures Uncodable(ToEighths(full), ref) ==> SubResult(bestmv, besterr, distortion, sse1) == Trapped(full, ref, sse0)
    ensures PhaseConsistent(ctx.fns)
            ==> SubResult(bestmv, besterr, distortion, sse1) == SubPixelStep(ctx, full, ref, sse0)
  {
    var y := Addr(ctx, full);
    if Abs(full.col * 8 - ref.col) > MAX_FULL_PEL_VAL || Abs(full.row * 8 - ref.row) > MAX_FULL_PEL_VAL {
      return ToEighths(full), INT_MAX, INT_MAX, sse0;
    }
    var startmv := ToEighths(full);
    assert ToFullPel(startmv) == full;
    var v := ctx.fns.vf(y);
    var b0 := SubBest(v.value + MvErrCost(startmv, ref, ctx.mvCost, ctx.errorPerBit), startmv, v.value, v.sse);
    assert b0 == Centre(ctx, full, ref, startmv);
    var b := HalfCross(ctx, ref, y, startmv, b0);
    ghost var y0 := y;
    if b.mv.row < startmv.row {
      y := y - ctx.stride;
    }
    if b.mv.col < startmv.col {
      y := y - 1;
    }
    if PhaseConsistent(ctx.fns) {
      CrossLands(EighthScore(ctx, ref), b0, 4);
      HalfToQuarterBlock(ctx, startmv, b.mv, y0, y);
    }
    b := QuarterCross(ctx, ref, y, b.mv, b);
    return b.mv, b.err, b.dist, b.sse;
  }

  /** The eight half-pel probes, in terms of their outcomes, are
      TakeHalfPoints over EighthScore when the primitives are consistent. */
  lemma HalfPointsIs(ctx: SearchContext, ref: MV, s: MV, b0: SubBest, b1: SubBest, b2: SubBest, b3: SubBest,
                     b4: SubBest, b5: SubBest, b6: SubBest, b7: SubBest, b8: SubBest)
    requires s.row % 8 == 0 && s.col % 8 == 0
    requires b1 == Take(b0, HalfPoint(s, 0), HalfProbeEval(ctx, ref, Addr(ctx, ToFullPel(s)), s, 0))
    requires b2 == Take(b1, HalfPoint(s, 1), HalfProbeEval(ctx, ref, Addr(ctx, ToFullPel(s)), s, 1))
    requires b3 == Take(b2, HalfPoint(s, 2), HalfProbeEval(ctx, ref, Addr(ctx, ToFullPel(s)), s, 2))
    requires b4 == Take(b3, HalfPoint(s, 3), HalfProbeEval(ctx, ref, Addr(ctx, ToFullPel(s)), s, 3))
    requires b5 == Take(b4, HalfPoint(s, 4), HalfProbeEval(ctx, ref, Addr(ctx, ToFullPel(s)), s, 4))
    requires b6 == Take(b5, HalfPoint(s, 5), HalfProbeEval(ctx, ref, Addr(ctx, ToFullPel(s)), s, 5))
    requires b7 == Take(b6, HalfPoint(s, 6), HalfProbeEval(ctx, ref, Addr(ctx, ToFullPel(s)), s, 6))
    requires b8 == Take(b7, HalfPoint(s, 7), HalfProbeEval(ctx, ref, Addr(ctx, ToFullPel(s)), s, 7))
    ensures PhaseConsistent(ctx.fns) ==> b8 == TakeHalfPoints(EighthScore(ctx, ref), b0, s, 0)
  {
    if PhaseConsistent(ctx.fns) {
      var score := EighthScore(ctx, ref);
      HalfPointScore(ctx, ref, s, 7);
      assert TakeHalfPoints(score, b7, s, 7) == b8;
      HalfPointScore(ctx, ref, s, 6);
      assert TakeHalfPoints(score, b6, s, 6) == b8;
      HalfPointScore(ctx, ref, s, 5);
      assert TakeHalfPoints(score, b5, s, 5) == b8;
      HalfPointScore(ctx, ref, s, 4);
      assert TakeHalfPoints(score, b4, s, 4) == b8;
      HalfPointScore(ctx, ref, s, 3);
      assert TakeHalfPoints(score, b3, s, 3) == b8;
      HalfPointScore(ctx, ref, s, 2);
      assert TakeHalfPoints(score, b2, s, 2) == b8;
      HalfPointScore(ctx, ref, s, 1);
      assert TakeHalfPoints(score, b1, s, 1) == b8;
      HalfPointScore(ctx, ref, s, 0);
    }
  }

  /** Probe with the outcome named as the half-pel probe `i` computes it. */
  method HalfTake(ctx: SearchContext, ref: MV, y: int, s: MV, b: SubBest, i: int, mv: MV, v: Variance)
    returns (e: int, b': SubBest)
    requires mv == HalfPoint(s, i) && v == HalfProbe(ctx, y, i)
    ensures e == EvalValue(HalfProbeEval(ctx, ref, y, s, i))
    ensures b' == Take(b, HalfPoint(s, i), HalfProbeEval(ctx, ref, y, s, i))
  {
    e, b' := Probe(ctx, ref, b, mv, v);
  }

  /** vp8_find_best_half_pixel_step: the centre, then all eight half-pel
      neighbours (the four diagonals of the compiled branch included). */
  method FindBestHalfPixelStep(ctx: SearchContext, full: MV, ref: MV, sse0: int)
    returns (bestmv: MV, besterr: int, distortion: int, sse1: int)
    ensures Uncodable(ToEighths(full), ref) ==> SubResult(bestmv, besterr, distortion, sse1) == Trapped(full, ref, sse0)
    ensures PhaseConsistent(ctx.fns)
            ==> SubResult(bestmv, besterr, distortion, sse1) == HalfPixelStep(ctx, full, ref, sse0)
  {
    var y := Addr(ctx, full);
    if Abs(full.col * 8 - ref.col) > MAX_FULL_PEL_VAL || Abs(full.row * 8 - ref.row) > MAX_FULL_PEL_VAL {
      return ToEighths(full), INT_MAX, INT_MAX, sse0;
    }
    var s := ToEighths(full);
    assert ToFullPel(s) == full;
    var v := ctx.fns.vf(y);
    var b0 := SubBest(v.value + MvErrCost(s, ref, ctx.mvCost, ctx.errorPerBit), s, v.value, v.sse);
    assert b0 == Centre(ctx, full, ref, s);
    OrStepsBack(s.row);
    OrStepsBack(s.col);
    OrKeepsHalf(s.row + 4);
    OrKeepsHalf(s.col + 4);

    var thisMv := MV(s.row, OrLow(s.col - 8, 4));
    v := ctx.fns.halfpixH(y - 1);
    var e, b1 := HalfTake(ctx, ref, y, s, b0, 0, thisMv, v);

    thisMv := MV(thisMv.row, thisMv.col + 8);
    v := ctx.fns.halfpixH(y);
    var e2, b2 := HalfTake(ctx, ref, y, s, b1, 1, thisMv, v);

    thisMv := MV(OrLow(s.row - 8, 4), s.col);
    v := ctx.fns.halfpixV(y - ctx.stride);
    var e3, b3 := HalfTake(ctx, ref, y, s, b2, 2, thisMv, v);

    thisMv := MV(thisMv.row + 8, thisMv.col);
    v := ctx.fns.halfpixV(y);
    var e4, b4 := HalfTake(ctx, ref, y, s, b3, 3, thisMv, v);

    thisMv := MV(OrLow(thisMv.row - 8, 4), OrLow(thisMv.col - 8, 4));
    v := ctx.fns.halfpixHV(y - 1 - ctx.stride);
    var e5, b5 := HalfTake(ctx, ref, y, s, b4, 4, thisMv, v);

    thisMv := MV(thisMv.row, thisMv.col + 8);
    v := ctx.fns.halfpixHV(y - ctx.stride);
    var e6, b6 := HalfTake(ctx, ref, y, s, b5, 5, thisMv, v);

    thisMv := MV(s.row + 4, OrLow(thisMv.col - 8, 4));
    v := ctx.fns.halfpixHV(y - 1);
    var e7, b7 := HalfTake(ctx, ref, y, s, b6, 6, thisMv, v);

    thisMv := MV(thisMv.row, thisMv.col + 8);
    v := ctx.fns.halfpixHV(y);
    var e8, b8 := HalfTake(ctx, ref, y, s, b7, 7, thisMv, v);

    HalfPointsIs(ctx, ref, s, b0, b1, b2, b3, b4, b5, b6, b7, b8);
    return b8.mv, b8.err, b8.dist, b8.sse;
  }
}
