/** The refining search (vp8_refining_search_sad and its x4 variant,
    vp8/encoder/mcomp.c:1675-1863): from `ref_mv`, up to `search_range`
    rounds over the four one-pixel neighbours (up, left, right, down); each
    round moves to the best neighbour strictly inside the legal range whose
    score is strictly lower, and a round that finds none ends the search.
    The vector reached is written back into `ref_mv`. */
module RefiningSearch {
  import opened MotionVectors
  import opened MvCost
  import opened SearchCost

  /** `neighbors[j]`: up, left, right, down, as (row, col). */
  function RefineNeighbor(j: int): MV
  {
    if j == 0 then MV(-1, 0)
    else if j == 1 then MV(0, -1)
    else if j == 2 then MV(0, 1)
    else MV(1, 0)
  }

  /** The running best of a round with `best_site`; site -1 means none. */
  datatype Pick = Pick(best: Best, site: int)

  /** Neighbour `j` of `center`: probed only when strictly inside the
      range, taken only on a strictly lower score. */
  function ProbeNeighbor(ctx: SearchContext, center: MV, p: Pick, j: int): Pick
  {
    var cand := Add(center, RefineNeighbor(j));
    if StrictlyInside(cand, ctx.bounds) && SadCost(ctx, cand) < p.best.sad
    then Pick(Best(SadCost(ctx, cand), cand, Addr(ctx, cand)), j)
    else p
  }

  /** Neighbours `j .. 3` of one round. The round keeps its pick or takes a
      neighbour of index at least `j`, strictly inside, scored and strictly
      better. */
  function ProbeNeighbors(ctx: SearchContext, center: MV, p: Pick, j: nat): (r: Pick)
    ensures r.best.sad <= p.best.sad
    ensures r == p || (j <= r.site < 4 && r.best.mv == Add(center, RefineNeighbor(r.site))
                       && StrictlyInside(r.best.mv, ctx.bounds) && Scored(ctx, r.best)
                       && r.best.sad < p.best.sad)
    decreases 4 - j
  {
    if j >= 4 then p
    else ProbeNeighbors(ctx, center, ProbeNeighbor(ctx, center, p, j), j + 1)
  }

  /** One round from `b`: stay (site -1) or move to the picked neighbour. */
  function RefineRound(ctx: SearchContext, b: Best): Pick
  {
    ProbeNeighbors(ctx, b.mv, Pick(b, -1), 0)
  }

  /** Rounds `i .. search_range - 1` from `b`. */
  function Refine(ctx: SearchContext, b: Best, i: int, range: int): Best
    decreases range - i
  {
    if i >= range then b
    else
      var p := RefineRound(ctx, b);
      if p.site == -1 then b else Refine(ctx, p.best, i + 1, range)
  }

  /** The start: `ref_mv` scored without a range test, at its address. */
  function RefineStart(ctx: SearchContext, ref: MV): Best
  {
    Best(SadCost(ctx, ref), ref, Addr(ctx, ref))
  }

  function RefineFinal(ctx: SearchContext, ref: MV, range: int): Best
  {
    Refine(ctx, RefineStart(ctx, ref), 0, range)
  }

  /** The vector written back into `ref_mv` and the value returned:
      INT_MAX unless the final score is below INT_MAX, otherwise the
      variance plus rate cost at the final vector. */
  function Refining(ctx: SearchContext, ref: MV, range: int): (MV, int)
  {
    var f := RefineFinal(ctx, ref, range);
    (f.mv, if f.sad < INT_MAX then FinalCost(ctx, f.mv) else INT_MAX)
  }

  // ---------------------------------------------------------------------
  // One round

  /** Every neighbour is one unit away along exactly one axis. */
  function Manhattan(a: MV, b: MV): nat
  {
    (if a.row <= b.row then b.row - a.row else a.row - b.row)
    + (if a.col <= b.col then b.col - a.col else a.col - b.col)
  }

  lemma NeighborsAreUnitSteps(j: int)
    requires 0 <= j < 4
    ensures Manhattan(MV(0, 0), RefineNeighbor(j)) == 1
    ensures RefineNeighbor(j).row == 0 || RefineNeighbor(j).col == 0
  {
  }

  /** The pick scores no more than any neighbour probed from `j` on that is
      strictly inside the range. */
  lemma {:induction false} ProbeNeighborsLowest(ctx: SearchContext, center: MV, p: Pick, j: nat)
    ensures var r := ProbeNeighbors(ctx, center, p, j);
      forall t :: j <= t < 4 ==>
        (StrictlyInside(Add(center, RefineNeighbor(t)), ctx.bounds)
         ==> r.best.sad <= SadCost(ctx, Add(center, RefineNeighbor(t))))
    decreases 4 - j
  {
    if j < 4 {
      ProbeNeighborsLowest(ctx, center, ProbeNeighbor(ctx, center, p, j), j + 1);
    }
  }

  /** A round moves to a neighbour strictly inside the range whose score is
      the lowest of all neighbours strictly inside, and strictly below the
      start's; a round that stays leaves no such neighbour scoring below it. */
  lemma RoundPicksLowest(ctx: SearchContext, b: Best)
    requires Scored(ctx, b)
    ensures var p := RefineRound(ctx, b);
      && (p.site == -1 ==> p.best == b)
      && (p.site != -1 ==>
            && 0 <= p.site < 4 && p.best.mv == Add(b.mv, RefineNeighbor(p.site))
            && StrictlyInside(p.best.mv, ctx.bounds) && Scored(ctx, p.best) && p.best.sad < b.sad)
      && (forall t :: 0 <= t < 4 ==>
            (StrictlyInside(Add(b.mv, RefineNeighbor(t)), ctx.bounds)
             ==> p.best.sad <= SadCost(ctx, Add(b.mv, RefineNeighbor(t)))))
  {
    ProbeNeighborsLowest(ctx, b.mv, Pick(b, -1), 0);
  }

  // ---------------------------------------------------------------------
  // The whole search

  /** The number of rounds that moved. */
  function Moves(ctx: SearchContext, b: Best, i: int, range: int): nat
    decreases range - i
  {
    if i >= range then 0
    else
      var p := RefineRound(ctx, b);
      if p.site == -1 then 0 else 1 + Moves(ctx, p.best, i + 1, range)
  }

  function Max0(n: int): nat { if n < 0 then 0 else n }

  /** The search ends at the start or at a vector strictly inside the range
      with a strictly lower score; the score it carries is its own. */
  lemma {:induction false} RefineFinds(ctx: SearchContext, b: Best, i: int, range: int)
    requires Scored(ctx, b)
    ensures var f := Refine(ctx, b, i, range);
      && Scored(ctx, f) && f.sad <= b.sad
      && (f == b || (StrictlyInside(f.mv, ctx.bounds) && f.sad < b.sad))
    decreases range - i
  {
    if i < range {
      var p := RefineRound(ctx, b);
      RoundPicksLowest(ctx, b);
      if p.site != -1 {
        RefineFinds(ctx, p.best, i + 1, range);
      }
    }
  }

  /** At most `search_range` rounds move, each by one unit along one axis
      and each lowering the score by at least one. */
  lemma {:induction false} RefineWalk(ctx: SearchContext, b: Best, i: int, range: int)
    requires Scored(ctx, b)
    ensures var f := Refine(ctx, b, i, range);
      var m := Moves(ctx, b, i, range);
      && m <= Max0(range - i)
      && Manhattan(b.mv, f.mv) <= m
      && f.sad + m <= b.sad
    decreases range - i
  {
    if i < range {
      var p := RefineRound(ctx, b);
      RoundPicksLowest(ctx, b);
      if p.site != -1 {
        NeighborsAreUnitSteps(p.site);
        RefineWalk(ctx, p.best, i + 1, range);
      }
    }
  }

  /** No neighbour strictly inside the range scores below `b`. */
  predicate RefineLocalMinimum(ctx: SearchContext, b: Best)
  {
    forall t :: 0 <= t < 4 && StrictlyInside(Add(b.mv, RefineNeighbor(t)), ctx.bounds)
      ==> SadCost(ctx, Add(b.mv, RefineNeighbor(t))) >= b.sad
  }

  /** The search stops at a local minimum over the four neighbours, or
      after moving in every one of its rounds. */
  lemma {:induction false} RefineStops(ctx: SearchContext, b: Best, i: int, range: int)
    requires Scored(ctx, b)
    ensures RefineLocalMinimum(ctx, Refine(ctx, b, i, range)) || Moves(ctx, b, i, range) == Max0(range - i)
    decreases range - i
  {
    if i < range {
      var p := RefineRound(ctx, b);
      RoundPicksLowest(ctx, b);
      if p.site != -1 {
        RefineStops(ctx, p.best, i + 1, range);
      }
    }
  }

  /** What the search promises its caller: `ref_mv` is moved by at most
      `search_range` unit steps to a vector that is the start or strictly
      inside the range with a lower score; the value is INT_MAX when the
      final score is not below INT_MAX and at least the variance there
      otherwise. */
  lemma RefiningResult(ctx: SearchContext, ref: MV, range: int)
    ensures var f := RefineFinal(ctx, ref, range);
      && Scored(ctx, f) && f.sad <= SadCost(ctx, ref)
      && (f.mv == ref || (StrictlyInside(f.mv, ctx.bounds) && f.sad < SadCost(ctx, ref)))
      && Manhattan(ref, f.mv) <= Max0(range)
      && Refining(ctx, ref, range).0 == f.mv
      && (f.sad >= INT_MAX ==> Refining(ctx, ref, range).1 == INT_MAX)
      && (f.sad < INT_MAX ==> Refining(ctx, ref, range).1 >= ctx.fns.vf(Addr(ctx, f.mv)).value)
  {
    RefineFinds(ctx, RefineStart(ctx, ref), 0, range);
    RefineWalk(ctx, RefineStart(ctx, ref), 0, range);
  }

  // ---------------------------------------------------------------------
  // The searches

  /** The inner loop over the four neighbours, with the SAD compared first
      and the rate cost added only when it might still win. */
  method ProbeRound(ctx: SearchContext, b: Best) returns (p: Pick)
    requires Scored(ctx, b)
    ensures p == RefineRound(ctx, b)
  {
    var fcenter := ToFullPel(ctx.center);
    p := Pick(b, -1);
    var j := 0;
    while j < 4
      invariant 0 <= j <= 4
      invariant ProbeNeighbors(ctx, b.mv, p, j) == RefineRound(ctx, b)
    {
      var thisMv := Add(b.mv, RefineNeighbor(j));
      if StrictlyInside(thisMv, ctx.bounds) {
        var checkHere := RefineNeighbor(j).row * ctx.stride + RefineNeighbor(j).col + b.addr;
        AddrShift(ctx, b.mv, RefineNeighbor(j));
        var thisSad := ctx.fns.sdf(checkHere);
        if thisSad < p.best.sad {
          thisSad := thisSad + MvSadErrCost(thisMv, fcenter, ctx.sadCost, ctx.sadPerBit);
          if thisSad < p.best.sad {
            p := Pick(Best(thisSad, thisMv, checkHere), j);
          }
        }
      }
      j := j + 1;
    }
  }

  /** The four addresses handed to `sdx4df` are those of the neighbours. */
  lemma X4Addresses(ctx: SearchContext, b: Best, j: int)
    requires b.addr == Addr(ctx, b.mv) && 0 <= j < 4
    ensures [b.addr - ctx.stride, b.addr - 1, b.addr + 1, b.addr + ctx.stride][j]
            == Addr(ctx, Add(b.mv, RefineNeighbor(j)))
  {
    AddrShift(ctx, b.mv, RefineNeighbor(j));
  }

  /** The x4 inner loop: when all four neighbours are strictly inside, one
      `sdx4df` call scores them at `best_address - stride`, `- 1`, `+ 1`
      and `+ stride`; otherwise the scalar loop. */
  method ProbeRoundX4(ctx: SearchContext, b: Best) returns (p: Pick)
    requires Scored(ctx, b)
    ensures p == RefineRound(ctx, b)
  {
    var allIn := b.mv.row - 1 > ctx.bounds.rowMin && b.mv.row + 1 < ctx.bounds.rowMax
      && b.mv.col - 1 > ctx.bounds.colMin && b.mv.col + 1 < ctx.bounds.colMax;
    if !allIn {
      p := ProbeRound(ctx, b);
      return;
    }
    var fcenter := ToFullPel(ctx.center);
    var blockOffset := [b.addr - ctx.stride, b.addr - 1, b.addr + 1, b.addr + ctx.stride];
    var sadArray := Sdx4d(ctx.fns, blockOffset);
    ghost var target := RefineRound(ctx, b);
    p := Pick(b, -1);
    var j := 0;
    while j < 4
      invariant 0 <= j <= 4
      invariant ProbeNeighbors(ctx, b.mv, p, j) == target
    {
      var thisMv := Add(b.mv, RefineNeighbor(j));
      X4Addresses(ctx, b, j);
      assert StrictlyInside(thisMv, ctx.bounds);
      assert sadArray[j] == ctx.fns.sdf(Addr(ctx, thisMv));
      ghost var next := ProbeNeighbor(ctx, b.mv, p, j);
      if sadArray[j] < p.best.sad {
        var thisSad := sadArray[j] + MvSadErrCost(thisMv, fcenter, ctx.sadCost, ctx.sadPerBit);
        if thisSad < p.best.sad {
          p := Pick(Best(thisSad, thisMv, blockOffset[j]), j);
        }
      }
      assert p == next;
      j := j + 1;
    }
  }

  /** vp8_refining_search_sad: returns the new `ref_mv` and the value. */
  method RefiningSearchSad(ctx: SearchContext, ref: MV, searchRange: int) returns (refOut: MV, cost: int)
    ensures (refOut, cost) == Refining(ctx, ref, searchRange)
  {
    var fcenter := ToFullPel(ctx.center);
    var best := Best(ctx.fns.sdf(Addr(ctx, ref))
                       + MvSadErrCost(ref, fcenter, ctx.sadCost, ctx.sadPerBit),
                     ref, Addr(ctx, ref));
    assert best == RefineStart(ctx, ref);
    ghost var target := RefineFinal(ctx, ref, searchRange);
    var i := 0;
    while i < searchRange
      invariant Scored(ctx, best)
      invariant Refine(ctx, best, i, searchRange) == target
      decreases searchRange - i
    {
      var p := ProbeRound(ctx, best);
      if p.site == -1 {
        break;
      }
      RoundPicksLowest(ctx, best);
      best := p.best;
      i := i + 1;
    }
    refOut := best.mv;
    if best.sad < INT_MAX {
      cost := ctx.fns.vf(best.addr).value + MvErrCost(ToEighths(best.mv), ctx.center, ctx.mvCost, ctx.errorPerBit);
    } else {
      cost := INT_MAX;
    }
  }

  /** vp8_refining_search_sadx4: the same search with the batched round. */
  method RefiningSearchSadx4(ctx: SearchContext, ref: MV, searchRange: int) returns (refOut: MV, cost: int)
    ensures (refOut, cost) == Refining(ctx, ref, searchRange)
  {
    var fcenter := ToFullPel(ctx.center);
    var best := Best(ctx.fns.sdf(Addr(ctx, ref))
                       + MvSadErrCost(ref, fcenter, ctx.sadCost, ctx.sadPerBit),
                     ref, Addr(ctx, ref));
    assert best == RefineStart(ctx, ref);
    ghost var target := RefineFinal(ctx, ref, searchRange);
    var i := 0;
    while i < searchRange
      invariant Scored(ctx, best)
      invariant Refine(ctx, best, i, searchRange) == target
      decreases searchRange - i
    {
      var p := ProbeRoundX4(ctx, best);
      if p.site == -1 {
        break;
      }
      RoundPicksLowest(ctx, best);
      best := p.best;
      i := i + 1;
    }
    refOut := best.mv;
    if best.sad < INT_MAX {
      cost := ctx.fns.vf(best.addr).value + MvErrCost(ToEighths(best.mv), ctx.center, ctx.mvCost, ctx.errorPerBit);
    } else {
      cost := INT_MAX;
    }
  }
}
