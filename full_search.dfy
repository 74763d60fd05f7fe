/** The exhaustive search (vp8_full_search_sad and its batched variants
    vp8_full_search_sadx3 and vp8_full_search_sadx8,
    vp8/encoder/mcomp.c:1288-1673): every whole-pixel vector of a window
    around the reference, clipped to the legal range, is scored in raster
    order and the first lowest score wins. */
module FullSearch {
  import opened MotionVectors
  import opened MvCost
  import opened SearchCost

  /** A half-open window of vectors: rows `rowLo <= r < rowHi`, columns
      `colLo <= c < colHi`. */
  datatype Window = Window(rowLo: int, rowHi: int, colLo: int, colHi: int)

  predicate InWindow(p: MV, w: Window)
  {
    w.rowLo <= p.row < w.rowHi && w.colLo <= p.col < w.colHi
  }

  /** `p` is scanned before `q`: an earlier row, or the same row and an
      earlier column. */
  predicate RasterBefore(p: MV, q: MV)
  {
    p.row < q.row || (p.row == q.row && p.col < q.col)
  }

  function Max(a: int, b: int): int { if a < b then b else a }
  function Min(a: int, b: int): int { if a < b then a else b }

  /** The window `ref +- distance`, each side clipped to the legal range:
      the lower limits are raised to the range's, the upper limits lowered
      to it; the upper limits are exclusive. */
  function SearchWindow(ref: MV, distance: int, b: Bounds): Window
  {
    Window(Max(ref.row - distance, b.rowMin), Min(ref.row + distance, b.rowMax),
           Max(ref.col - distance, b.colMin), Min(ref.col + distance, b.colMax))
  }

  /** The window holds exactly the vectors within `distance` of the
      reference (upper side exclusive) that also lie in the legal range with
      its upper side excluded: the search never looks past `mv_row_max` or
      `mv_col_max`, but does look at `mv_row_min` and `mv_col_min`. */
  lemma SearchWindowIsClippedBox(ref: MV, distance: int, b: Bounds, p: MV)
    ensures InWindow(p, SearchWindow(ref, distance, b)) <==>
      && b.rowMin <= p.row < b.rowMax && b.colMin <= p.col < b.colMax
      && ref.row - distance <= p.row < ref.row + distance
      && ref.col - distance <= p.col < ref.col + distance
  {
  }

  /** Probing columns `c .. colHi - 1` of row `row`, left to right. */
  function ScanRow(ctx: SearchContext, b: Best, row: int, c: int, colHi: int): Best
    decreases colHi - c
  {
    if c >= colHi then b else ScanRow(ctx, Consider(ctx, b, MV(row, c)), row, c + 1, colHi)
  }

  /** Probing rows `row .. w.rowHi - 1` of the window, top to bottom. */
  function ScanRows(ctx: SearchContext, b: Best, row: int, w: Window): Best
    decreases w.rowHi - row
  {
    if row >= w.rowHi then b else ScanRows(ctx, ScanRow(ctx, b, row, w.colLo, w.colHi), row + 1, w)
  }

  /** One probe of a row scan, with the probe's score computed outside. */
  lemma ScanRowStep(ctx: SearchContext, b: Best, row: int, c: int, colHi: int, score: int)
    requires c < colHi && score == SadCost(ctx, MV(row, c))
    ensures ScanRow(ctx, b, row, c, colHi)
         == ScanRow(ctx, if score < b.sad then Best(score, MV(row, c), Addr(ctx, MV(row, c))) else b, row, c + 1, colHi)
  {
  }

  /** The clipping the search performs yields `SearchWindow`, and its
      guarded start is `GuardedStart`. */
  lemma WindowClip(ref: MV, distance: int, b: Bounds, rowMin: int, rowMax: int, colMin: int, colMax: int)
    requires rowMin == (if ref.row - distance < b.rowMin then b.rowMin else ref.row - distance)
    requires rowMax == (if ref.row + distance > b.rowMax then b.rowMax else ref.row + distance)
    requires colMin == (if ref.col - distance < b.colMin then b.colMin else ref.col - distance)
    requires colMax == (if ref.col + distance > b.colMax then b.colMax else ref.col + distance)
    ensures SearchWindow(ref, distance, b) == Window(rowMin, rowMax, colMin, colMax)
  {
  }

  /** The best the full search ends with (`bestsad`, `best_mv`,
      `bestaddress`). */
  function FullSearchBest(ctx: SearchContext, ref: MV, distance: int): Best
  {
    ScanRows(ctx, GuardedStart(ctx, ref), SearchWindow(ref, distance, ctx.bounds).rowLo,
             SearchWindow(ref, distance, ctx.bounds))
  }

  /** The vector left in `d->bmi.mv` and the value returned: the variance
      plus rate cost of that vector, or INT_MAX when no score fell below
      INT_MAX. */
  function FullSearch(ctx: SearchContext, ref: MV, distance: int): (MV, int)
  {
    var b := FullSearchBest(ctx, ref, distance);
    (b.mv, if b.sad < INT_MAX then FinalCost(ctx, b.mv) else INT_MAX)
  }

  /** What one row scan achieves: the best can only improve, to a scored
      vector of the row; no probed vector scores below the result; and every
      vector probed before the winner scores strictly above it. */
  lemma {:induction false} ScanRowFacts(ctx: SearchContext, b: Best, row: int, c: int, colHi: int)
    ensures var res := ScanRow(ctx, b, row, c, colHi);
      && res.sad <= b.sad
      && (res == b || (res.mv.row == row && c <= res.mv.col < colHi && Scored(ctx, res) && res.sad < b.sad))
      && (forall k :: c <= k < colHi ==> SadCost(ctx, MV(row, k)) >= res.sad)
      && (res != b ==> forall k :: c <= k < res.mv.col ==> SadCost(ctx, MV(row, k)) > res.sad)
    decreases colHi - c
  {
    if c < colHi {
      var b1 := Consider(ctx, b, MV(row, c));
      ScanRowFacts(ctx, b1, row, c + 1, colHi);
    }
  }

  /** The rows of a window can only improve the best, and only to a scored
      vector of the rows scanned. */
  lemma {:induction false} ScanRowsImproves(ctx: SearchContext, b: Best, row: int, w: Window)
    requires w.rowLo <= row
    ensures var res := ScanRows(ctx, b, row, w);
      && res.sad <= b.sad
      && (res == b || (row <= res.mv.row && InWindow(res.mv, w) && Scored(ctx, res) && res.sad < b.sad))
    decreases w.rowHi - row
  {
    if row < w.rowHi {
      ScanRowFacts(ctx, b, row, w.colLo, w.colHi);
      ScanRowsImproves(ctx, ScanRow(ctx, b, row, w.colLo, w.colHi), row + 1, w);
    }
  }

  /** No vector of the rows scanned scores below the result. */
  lemma {:induction false} ScanRowsLowest(ctx: SearchContext, b: Best, row: int, w: Window)
    requires w.rowLo <= row
    ensures var res := ScanRows(ctx, b, row, w);
      forall p: MV :: InWindow(p, w) && row <= p.row ==> SadCost(ctx, p) >= res.sad
    decreases w.rowHi - row
  {
    if row < w.rowHi {
      var b1 := ScanRow(ctx, b, row, w.colLo, w.colHi);
      ScanRowFacts(ctx, b, row, w.colLo, w.colHi);
      ScanRowsImproves(ctx, b1, row + 1, w);
      ScanRowsLowest(ctx, b1, row + 1, w);
      var res := ScanRows(ctx, b1, row + 1, w);
      forall p: MV | InWindow(p, w) && row <= p.row
        ensures SadCost(ctx, p) >= res.sad
      {
        if p.row == row {
          assert SadCost(ctx, MV(row, p.col)) >= b1.sad;
        }
      }
    }
  }

  /** Every vector scanned before the winner scores strictly above it. */
  lemma {:induction false} ScanRowsFirst(ctx: SearchContext, b: Best, row: int, w: Window)
    requires w.rowLo <= row
    ensures var res := ScanRows(ctx, b, row, w);
      res != b ==> forall p: MV :: InWindow(p, w) && row <= p.row && RasterBefore(p, res.mv) ==> SadCost(ctx, p) > res.sad
    decreases w.rowHi - row
  {
    if row < w.rowHi {
      var b1 := ScanRow(ctx, b, row, w.colLo, w.colHi);
      ScanRowFacts(ctx, b, row, w.colLo, w.colHi);
      ScanRowsImproves(ctx, b1, row + 1, w);
      ScanRowsFirst(ctx, b1, row + 1, w);
      var res := ScanRows(ctx, b1, row + 1, w);
      if res != b {
        forall p: MV | InWindow(p, w) && row <= p.row && RasterBefore(p, res.mv)
          ensures SadCost(ctx, p) > res.sad
        {
          if p.row == row {
            assert SadCost(ctx, MV(row, p.col)) >= b1.sad;
          }
        }
      }
    }
  }

  /** The full search, stated without the scan: the chosen vector is the
      reference with its guarded start score, or a scored vector of the
      window strictly better than that start; no vector of the window scores
      below it; and of equal scores the first in raster order wins. */
  lemma FullSearchFinds(ctx: SearchContext, ref: MV, distance: int)
    ensures var w := SearchWindow(ref, distance, ctx.bounds);
      var start := GuardedStart(ctx, ref);
      var res := FullSearchBest(ctx, ref, distance);
      && (res == start || (InWindow(res.mv, w) && Scored(ctx, res) && res.sad < start.sad))
      && (forall p: MV :: InWindow(p, w) ==> SadCost(ctx, p) >= res.sad)
      && (res != start ==> forall p: MV :: InWindow(p, w) && RasterBefore(p, res.mv) ==> SadCost(ctx, p) > res.sad)
      && res.addr == Addr(ctx, res.mv)
      && (StrictlyInside(ref, ctx.bounds) ==> Scored(ctx, res))
  {
    var w := SearchWindow(ref, distance, ctx.bounds);
    ScanRowsImproves(ctx, GuardedStart(ctx, ref), w.rowLo, w);
    ScanRowsLowest(ctx, GuardedStart(ctx, ref), w.rowLo, w);
    ScanRowsFirst(ctx, GuardedStart(ctx, ref), w.rowLo, w);
  }

  /** A vector of the window that scores strictly below every other vector
      of the window and below the guarded start is the one found. */
  lemma FullSearchFindsUniqueMinimum(ctx: SearchContext, ref: MV, distance: int, p: MV)
    requires InWindow(p, SearchWindow(ref, distance, ctx.bounds))
    requires SadCost(ctx, p) < GuardedStart(ctx, ref).sad
    requires forall q: MV :: InWindow(q, SearchWindow(ref, distance, ctx.bounds)) && q != p ==> SadCost(ctx, q) > SadCost(ctx, p)
    ensures FullSearch(ctx, ref, distance).0 == p
  {
    FullSearchFinds(ctx, ref, distance);
  }

  /** The scan runs over the window alone: when the clipped window is empty
      the search returns the reference and, if it was not scored, INT_MAX. */
  lemma FullSearchEmptyWindow(ctx: SearchContext, ref: MV, distance: int)
    requires !StrictlyInside(ref, ctx.bounds)
    requires forall p: MV :: !InWindow(p, SearchWindow(ref, distance, ctx.bounds))
    ensures FullSearch(ctx, ref, distance) == (ref, INT_MAX)
  {
    FullSearchFinds(ctx, ref, distance);
  }

  /** The inner loop of vp8_full_search_sad over one row: every column
      scored with its rate cost and compared with the best. */
  method ScanRowScalar(ctx: SearchContext, row: int, colMin: int, colMax: int, best0: Best)
    returns (best: Best)
    requires best0.addr == Addr(ctx, best0.mv)
    ensures best == ScanRow(ctx, best0, row, colMin, colMax)
    ensures best.addr == Addr(ctx, best.mv)
  {
    var fcenter := ToFullPel(ctx.center);
    best := best0;
    var checkHere := Addr(ctx, MV(row, colMin));
    var col := colMin;
    while col < colMax
      invariant ScanRow(ctx, best, row, col, colMax) == ScanRow(ctx, best0, row, colMin, colMax)
      invariant checkHere == Addr(ctx, MV(row, col))
      invariant best.addr == Addr(ctx, best.mv)
      decreases colMax - col
    {
      var thisSad := ctx.fns.sdf(checkHere);
      var thisMv := MV(row, col);
      thisSad := thisSad + MvSadErrCost(thisMv, fcenter, ctx.sadCost, ctx.sadPerBit);
      ScanRowStep(ctx, best, row, col, colMax, thisSad);
      if thisSad < best.sad {
        best := Best(thisSad, MV(row, col), checkHere);
      }
      checkHere := checkHere + 1;
      col := col + 1;
    }
  }

  /** vp8_full_search_sad. `ref` is in whole pixels; the window and every
      probe are as `FullSearch` states. */
  method FullSearchSad(ctx: SearchContext, ref: MV, distance: int) returns (bestMv: MV, cost: int)
    ensures (bestMv, cost) == FullSearch(ctx, ref, distance)
  {
    var fcenter := ToFullPel(ctx.center);
    var inWhat := ctx.pre;
    var bestAddress := Addr(ctx, ref);
    var bestSad := INT_MAX;
    bestMv := ref;
    if ref.col > ctx.bounds.colMin && ref.col < ctx.bounds.colMax
      && ref.row > ctx.bounds.rowMin && ref.row < ctx.bounds.rowMax
    {
      bestSad := ctx.fns.sdf(bestAddress) + MvSadErrCost(bestMv, fcenter, ctx.sadCost, ctx.sadPerBit);
    }
    assert Best(bestSad, bestMv, bestAddress) == GuardedStart(ctx, ref);
    var rowMin, rowMax := ref.row - distance, ref.row + distance;
    var colMin, colMax := ref.col - distance, ref.col + distance;
    if colMin < ctx.bounds.colMin { colMin := ctx.bounds.colMin; }
    if colMax > ctx.bounds.colMax { colMax := ctx.bounds.colMax; }
    if rowMin < ctx.bounds.rowMin { rowMin := ctx.bounds.rowMin; }
    if rowMax > ctx.bounds.rowMax { rowMax := ctx.bounds.rowMax; }
    WindowClip(ref, distance, ctx.bounds, rowMin, rowMax, colMin, colMax);

    ghost var w := SearchWindow(ref, distance, ctx.bounds);
    ghost var final := FullSearchBest(ctx, ref, distance);
    var row := rowMin;
    while row < rowMax
      invariant ScanRows(ctx, Best(bestSad, bestMv, bestAddress), row, w) == final
      invariant bestAddress == Addr(ctx, bestMv)
      decreases rowMax - row
    {
      var best := ScanRowScalar(ctx, row, colMin, colMax, Best(bestSad, bestMv, bestAddress));
      bestSad, bestMv, bestAddress := best.sad, best.mv, best.addr;
      row := row + 1;
    }
    if bestSad < INT_MAX {
      cost := ctx.fns.vf(bestAddress).value + MvErrCost(ToEighths(bestMv), ctx.center, ctx.mvCost, ctx.errorPerBit);
    } else {
      cost := INT_MAX;
    }
  }

  /** The probe of the batched loops: the SAD alone is compared first and
      the rate cost is added only to a SAD already below the best. Since the
      rate cost is never negative this takes the same step as the scalar
      probe. */
  lemma PrecheckStep(ctx: SearchContext, b: Best, row: int, c: int, colHi: int, sad: int)
    requires c < colHi && sad == ctx.fns.sdf(Addr(ctx, MV(row, c)))
    ensures var withCost := sad + MvSadErrCost(MV(row, c), FullPelCenter(ctx), ctx.sadCost, ctx.sadPerBit);
      ScanRow(ctx, b, row, c, colHi)
      == ScanRow(ctx, if sad < b.sad && withCost < b.sad then Best(withCost, MV(row, c), Addr(ctx, MV(row, c))) else b,
                 row, c + 1, colHi)
  {
  }

  /** One pre-checked probe of the batched loops, given the SAD the
      batched primitive reported for column `col`: when that SAD is the
      column's, the scan moves on by one column. */
  method PrecheckedProbe(ctx: SearchContext, best0: Best, row: int, col: int, colMax: int, sad: int, checkHere: int)
    returns (best: Best)
    requires col < colMax && checkHere == Addr(ctx, MV(row, col)) && best0.addr == Addr(ctx, best0.mv)
    ensures sad == ctx.fns.sdf(checkHere) ==>
      ScanRow(ctx, best, row, col + 1, colMax) == ScanRow(ctx, best0, row, col, colMax)
    ensures best.addr == Addr(ctx, best.mv)
  {
    best := best0;
    if sad == ctx.fns.sdf(checkHere) {
      PrecheckStep(ctx, best0, row, col, colMax, sad);
    }
    if sad < best.sad {
      var thisMv := MV(row, col);
      var thisSad := sad + MvSadErrCost(thisMv, ToFullPel(ctx.center), ctx.sadCost, ctx.sadPerBit);
      if thisSad < best.sad {
        best := Best(thisSad, MV(row, col), checkHere);
      }
    }
  }

  /** The inner loop of the batched searches over one batch of SADs
      reported for consecutive columns from `col0`, each probe
      pre-checked: when the batch holds those columns' SADs, the scan moves
      past the batch. */
  method ProbeBatch(ctx: SearchContext, row: int, col0: int, colMax: int, best0: Best, sads: seq<int>)
    returns (best: Best)
    requires col0 + |sads| <= colMax && best0.addr == Addr(ctx, best0.mv)
    ensures (forall t :: 0 <= t < |sads| ==> sads[t] == ctx.fns.sdf(Addr(ctx, MV(row, col0)) + t)) ==>
      ScanRow(ctx, best, row, col0 + |sads|, colMax) == ScanRow(ctx, best0, row, col0, colMax)
    ensures best.addr == Addr(ctx, best.mv)
  {
    ghost var exact := forall t :: 0 <= t < |sads| ==> sads[t] == ctx.fns.sdf(Addr(ctx, MV(row, col0)) + t);
    best := best0;
    var checkHere := Addr(ctx, MV(row, col0));
    var i := 0;
    while i < |sads|
      invariant 0 <= i <= |sads| && checkHere == Addr(ctx, MV(row, col0)) + i == Addr(ctx, MV(row, col0 + i))
      invariant exact ==> ScanRow(ctx, best, row, col0 + i, colMax) == ScanRow(ctx, best0, row, col0, colMax)
      invariant best.addr == Addr(ctx, best.mv)
    {
      best := PrecheckedProbe(ctx, best, row, col0 + i, colMax, sads[i], checkHere);
      checkHere := checkHere + 1;
      i := i + 1;
    }
  }

  /** The batched loop of vp8_full_search_sadx3 over one row: groups of
      three columns through `sdx3f` while three remain, each probe
      pre-checked. It takes the scan as far as it goes. */
  method ProbeRowBy3(ctx: SearchContext, row: int, col0: int, colMax: int, best0: Best)
    returns (best: Best, col: int, checkHere: int)
    requires best0.addr == Addr(ctx, best0.mv)
    ensures ScanRow(ctx, best, row, col, colMax) == ScanRow(ctx, best0, row, col0, colMax)
    ensures best.addr == Addr(ctx, best.mv) && checkHere == Addr(ctx, MV(row, col))
    ensures col0 <= col && (col == col0 || col <= colMax) && col + 2 >= colMax
  {
    best := best0;
    col := col0;
    checkHere := Addr(ctx, MV(row, col0));
    while col + 2 < colMax
      invariant ScanRow(ctx, best, row, col, colMax) == ScanRow(ctx, best0, row, col0, colMax)
      invariant checkHere == Addr(ctx, MV(row, col))
      invariant best.addr == Addr(ctx, best.mv)
      invariant col0 <= col && (col == col0 || col <= colMax)
      decreases colMax - col
    {
      var sadArray := Sdx3(ctx.fns, checkHere);
      best := ProbeBatch(ctx, row, col, colMax, best, sadArray);
      checkHere := checkHere + 3;
      col := col + 3;
    }
  }

  /** The batched loop of vp8_full_search_sadx8 over one row: groups of
      eight columns through `sdx8f` while eight remain. Its SADs are 16-bit,
      so it follows the scan when they fit. */
  method ProbeRowBy8(ctx: SearchContext, row: int, col0: int, colMax: int, best0: Best)
    returns (best: Best, col: int, checkHere: int)
    requires best0.addr == Addr(ctx, best0.mv)
    ensures SadFitsShort(ctx.fns) ==>
      ScanRow(ctx, best, row, col, colMax) == ScanRow(ctx, best0, row, col0, colMax)
    ensures best.addr == Addr(ctx, best.mv) && checkHere == Addr(ctx, MV(row, col))
    ensures col0 <= col && (col == col0 || col <= colMax) && col + 7 >= colMax
  {
    ghost var fits := SadFitsShort(ctx.fns);
    best := best0;
    col := col0;
    checkHere := Addr(ctx, MV(row, col0));
    while col + 7 < colMax
      invariant fits ==> ScanRow(ctx, best, row, col, colMax) == ScanRow(ctx, best0, row, col0, colMax)
      invariant checkHere == Addr(ctx, MV(row, col))
      invariant best.addr == Addr(ctx, best.mv)
      invariant col0 <= col && (col == col0 || col <= colMax)
      decreases colMax - col
    {
      var sadArray8 := Sdx8(ctx.fns, checkHere);
      if fits {
        forall t | 0 <= t < 8
          ensures sadArray8[t] == ctx.fns.sdf(checkHere + t)
        {
          Sdx8Exact(ctx.fns, checkHere, t);
        }
      }
      best := ProbeBatch(ctx, row, col, colMax, best, sadArray8);
      checkHere := checkHere + 8;
      col := col + 8;
    }
  }

  /** The one-column tail loop of the batched searches, each probe
      pre-checked: it finishes the row scan. */
  method ProbeRowTail(ctx: SearchContext, row: int, col0: int, colMax: int, best0: Best, addr0: int)
    returns (best: Best)
    requires best0.addr == Addr(ctx, best0.mv) && addr0 == Addr(ctx, MV(row, col0))
    ensures best == ScanRow(ctx, best0, row, col0, colMax)
    ensures best.addr == Addr(ctx, best.mv)
  {
    best := best0;
    var col := col0;
    var checkHere := addr0;
    while col < colMax
      invariant ScanRow(ctx, best, row, col, colMax) == ScanRow(ctx, best0, row, col0, colMax)
      invariant checkHere == Addr(ctx, MV(row, col))
      invariant best.addr == Addr(ctx, best.mv)
      decreases colMax - col
    {
      var thisSad := ctx.fns.sdf(checkHere);
      best := PrecheckedProbe(ctx, best, row, col, colMax, thisSad, checkHere);
      checkHere := checkHere + 1;
      col := col + 1;
    }
  }

  /** vp8_full_search_sadx3: three columns at a time through `sdx3f`, then
      one at a time; the same result as the scalar search. */
  method FullSearchSadx3(ctx: SearchContext, ref: MV, distance: int) returns (bestMv: MV, cost: int)
    ensures (bestMv, cost) == FullSearch(ctx, ref, distance)
  {
    var fcenter := ToFullPel(ctx.center);
    var inWhat := ctx.pre;
    var best := Best(INT_MAX, ref, Addr(ctx, ref));
    if ref.col > ctx.bounds.colMin && ref.col < ctx.bounds.colMax
      && ref.row > ctx.bounds.rowMin && ref.row < ctx.bounds.rowMax
    {
      best := best.(sad := ctx.fns.sdf(best.addr) + MvSadErrCost(best.mv, fcenter, ctx.sadCost, ctx.sadPerBit));
    }
    assert best == GuardedStart(ctx, ref);
    var rowMin, rowMax := ref.row - distance, ref.row + distance;
    var colMin, colMax := ref.col - distance, ref.col + distance;
    if colMin < ctx.bounds.colMin { colMin := ctx.bounds.colMin; }
    if colMax > ctx.bounds.colMax { colMax := ctx.bounds.colMax; }
    if rowMin < ctx.bounds.rowMin { rowMin := ctx.bounds.rowMin; }
    if rowMax > ctx.bounds.rowMax { rowMax := ctx.bounds.rowMax; }
    WindowClip(ref, distance, ctx.bounds, rowMin, rowMax, colMin, colMax);

    ghost var w := SearchWindow(ref, distance, ctx.bounds);
    ghost var final := FullSearchBest(ctx, ref, distance);
    var row := rowMin;
    while row < rowMax
      invariant ScanRows(ctx, best, row, w) == final
      invariant best.addr == Addr(ctx, best.mv)
      decreases rowMax - row
    {
      ghost var rowStart := best;
      var col, checkHere;
      best, col, checkHere := ProbeRowBy3(ctx, row, colMin, colMax, best);
      best := ProbeRowTail(ctx, row, col, colMax, best, checkHere);
      row := row + 1;
    }
    bestMv := best.mv;
    if best.sad < INT_MAX {
      cost := ctx.fns.vf(best.addr).value + MvErrCost(ToEighths(best.mv), ctx.center, ctx.mvCost, ctx.errorPerBit);
    } else {
      cost := INT_MAX;
    }
  }

  /** vp8_full_search_sadx8: eight columns at a time through `sdx8f`, then
      three, then one. The eight-wide SADs are kept in 16 bits, so the
      result is the scalar search's whenever every SAD fits in 16 bits. */
  method FullSearchSadx8(ctx: SearchContext, ref: MV, distance: int) returns (bestMv: MV, cost: int)
    ensures SadFitsShort(ctx.fns) ==> (bestMv, cost) == FullSearch(ctx, ref, distance)
  {
    var fcenter := ToFullPel(ctx.center);
    var inWhat := ctx.pre;
    var best := Best(INT_MAX, ref, Addr(ctx, ref));
    if ref.col > ctx.bounds.colMin && ref.col < ctx.bounds.colMax
      && ref.row > ctx.bounds.rowMin && ref.row < ctx.bounds.rowMax
    {
      best := best.(sad := ctx.fns.sdf(best.addr) + MvSadErrCost(best.mv, fcenter, ctx.sadCost, ctx.sadPerBit));
    }
    assert best == GuardedStart(ctx, ref);
    var rowMin, rowMax := ref.row - distance, ref.row + distance;
    var colMin, colMax := ref.col - distance, ref.col + distance;
    if colMin < ctx.bounds.colMin { colMin := ctx.bounds.colMin; }
    if colMax > ctx.bounds.colMax { colMax := ctx.bounds.colMax; }
    if rowMin < ctx.bounds.rowMin { rowMin := ctx.bounds.rowMin; }
    if rowMax > ctx.bounds.rowMax { rowMax := ctx.bounds.rowMax; }
    WindowClip(ref, distance, ctx.bounds, rowMin, rowMax, colMin, colMax);

    ghost var fits := SadFitsShort(ctx.fns);
    ghost var w := SearchWindow(ref, distance, ctx.bounds);
    ghost var final := FullSearchBest(ctx, ref, distance);
    var row := rowMin;
    while row < rowMax
      invariant fits ==> ScanRows(ctx, best, row, w) == final
      invariant best.addr == Addr(ctx, best.mv)
      decreases rowMax - row
    {
      var col, checkHere;
      best, col, checkHere := ProbeRowBy8(ctx, row, colMin, colMax, best);
      best, col, checkHere := ProbeRowBy3(ctx, row, col, colMax, best);
      best := ProbeRowTail(ctx, row, col, colMax, best, checkHere);
      row := row + 1;
    }
    bestMv := best.mv;
    if best.sad < INT_MAX {
      cost := ctx.fns.vf(best.addr).value + MvErrCost(ToEighths(best.mv), ctx.center, ctx.mvCost, ctx.errorPerBit);
    } else {
      cost := INT_MAX;
    }
  }
}
