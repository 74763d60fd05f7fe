/** The hexagon search (vp8_hex_search, vp8/encoder/mcomp.c:795-1002):
    six points at distance two around the reference, then repeatedly the
    three new points of the hexagon around the last move, then the four
    one-pixel neighbours; every phase moves only on a strictly lower score.
    Points are tested against the legal range with its limits included. */
module HexSearch {
  import opened MotionVectors
  import opened MvCost
  import opened SearchCost

  /** `hex`: the hexagon around the current best, as (row, col). */
  function HexTable(): (r: seq<MV>)
    ensures |r| == 6
  {
    [MV(-1, -2), MV(1, -2), MV(2, 0), MV(1, 2), MV(-1, 2), MV(-2, 0)]
  }

  /** `neighbors`: left, up, down, right, as (row, col). */
  function NeighborTable(): (r: seq<MV>)
    ensures |r| == 4
  {
    [MV(0, -1), MV(-1, 0), MV(1, 0), MV(0, 1)]
  }

  /** `next_chkpts[k]`: after a move in hexagon direction `k`, the three
      points of the new hexagon not already probed. */
  function NextChkpts(k: int): (r: seq<MV>)
    ensures |r| == 3
  {
    if k == 0 then [MV(-2, 0), MV(-1, -2), MV(1, -2)]
    else if k == 1 then [MV(-1, -2), MV(1, -2), MV(2, 0)]
    else if k == 2 then [MV(1, -2), MV(2, 0), MV(1, 2)]
    else if k == 3 then [MV(2, 0), MV(1, 2), MV(-1, 2)]
    else if k == 4 then [MV(1, 2), MV(-1, 2), MV(-2, 0)]
    else [MV(-1, 2), MV(-2, 0), MV(-1, -2)]
  }

  /** The number of hexagon rounds after the first (`j` from 1 to 126) and
      of neighbour rounds. */
  const PATTERN_ROUNDS: nat := 126
  const NEIGHBOR_ROUNDS: nat := 32

  /** `bestsad` and `best_site` of one round; site -1 means none. */
  datatype RoundBest = RoundBest(sad: int, site: int)

  /** A position of the search and its score (`br`, `bc`, `bestsad`). */
  datatype HexPos = HexPos(pos: MV, sad: int)

  /** CHECK_POINT then CHECK_BETTER for point `i`, `center + d`. */
  function ProbeAt(ctx: SearchContext, center: MV, d: MV, b: RoundBest, i: int): RoundBest
  {
    var cand := Add(center, d);
    if WithinBounds(cand, ctx.bounds) && SadCost(ctx, cand) < b.sad then RoundBest(SadCost(ctx, cand), i)
    else b
  }

  /** One round over points `i ..` of `pat` around `center`. The round keeps
      its best or picks a point inside the range, scored and strictly
      better; the picked point scores no more than any point probed after
      it. */
  function ProbePattern(ctx: SearchContext, center: MV, pat: seq<MV>, b: RoundBest, i: nat): (r: RoundBest)
    ensures r.sad <= b.sad
    ensures r == b || (i <= r.site < |pat| && r.sad < b.sad
                       && WithinBounds(Add(center, pat[r.site]), ctx.bounds)
                       && r.sad == SadCost(ctx, Add(center, pat[r.site])))
    decreases |pat| - i
  {
    if i >= |pat| then b
    else ProbePattern(ctx, center, pat, ProbeAt(ctx, center, pat[i], b, i), i + 1)
  }

  /** `k += 5 + best_site; if (k >= 12) k -= 12; else if (k >= 6) k -= 6;` */
  function NextDirection(k: int, bestSite: int): (r: int)
    requires 0 <= k < 6 && 0 <= bestSite < 3
    ensures 0 <= r < 6
  {
    var k1 := k + 5 + bestSite;
    if k1 >= 12 then k1 - 12 else if k1 >= 6 then k1 - 6 else k1
  }

  /** The outcome of one round from a position: stay, or move to the picked
      point of the pattern with its score. */
  datatype Round = Stay | Move(next: HexPos, site: int)

  /** One round around `p` with `bestsad` as the bar: a move goes to a point
      of the pattern inside the range, scored, strictly below `p`'s score. */
  function RoundOf(ctx: SearchContext, p: HexPos, pat: seq<MV>): (res: Round)
    ensures res.Move? ==>
      && 0 <= res.site < |pat| && res.next.pos == Add(p.pos, pat[res.site])
      && WithinBounds(res.next.pos, ctx.bounds) && res.next.sad == SadCost(ctx, res.next.pos)
      && res.next.sad < p.sad
  {
    var r := ProbePattern(ctx, p.pos, pat, RoundBest(p.sad, -1), 0);
    if r.site == -1 then Stay else Move(HexPos(Add(p.pos, pat[r.site]), r.sad), r.site)
  }

  /** At most `n` more hexagon rounds from `p`, last moved in direction
      `k`; a round that finds nothing better ends the phase. */
  function PatternPhase(ctx: SearchContext, p: HexPos, k: int, n: nat): HexPos
    requires 0 <= k < 6
    decreases n
  {
    if n == 0 then p
    else match RoundOf(ctx, p, NextChkpts(k))
      case Stay => p
      case Move(next, site) => PatternPhase(ctx, next, NextDirection(k, site), n - 1)
  }

  /** At most `n` rounds of `round` from `p`; the first round that stays
      ends them. */
  function Rounds(round: HexPos -> Round, p: HexPos, n: nat): HexPos
    decreases n
  {
    if n == 0 then p
    else match round(p)
      case Stay => p
      case Move(next, _) => Rounds(round, next, n - 1)
  }

  /** One neighbour round, as a step from position to outcome. */
  function NeighborRound(ctx: SearchContext): HexPos -> Round
  {
    q => RoundOf(ctx, q, NeighborTable())
  }

  /** At most `n` more neighbour rounds from `p`. */
  function NeighborPhase(ctx: SearchContext, p: HexPos, n: nat): HexPos
  {
    Rounds(NeighborRound(ctx), p, n)
  }

  /** The start, `ref_mv >> 3`, scored without a range test. */
  function HexStart(ctx: SearchContext, ref8: MV): HexPos
  {
    HexPos(ToFullPel(ref8), SadCost(ctx, ToFullPel(ref8)))
  }

  /** Where the hexagon phases leave the search: after the first round of six,
      the pattern phase if it moved, otherwise straight to the neighbours. */
  function HexPatternEnd(ctx: SearchContext, ref8: MV): HexPos
  {
    var s := HexStart(ctx, ref8);
    match RoundOf(ctx, s, HexTable())
    case Stay => s
    case Move(next, site) => PatternPhase(ctx, next, site, PATTERN_ROUNDS)
  }

  function HexFinal(ctx: SearchContext, ref8: MV): HexPos
  {
    NeighborPhase(ctx, HexPatternEnd(ctx, ref8), NEIGHBOR_ROUNDS)
  }

  /** The vector left in `best_mv` and the value returned: the variance plus
      rate cost there (with no INT_MAX case). */
  function Hex(ctx: SearchContext, ref8: MV): (MV, int)
  {
    var f := HexFinal(ctx, ref8);
    (f.pos, FinalCost(ctx, f.pos))
  }

  // ---------------------------------------------------------------------
  // The tables

  /** Each row of `next_chkpts` lists the hexagon points `k + 5`, `k + 6`
      and `k + 7` (mod 6): after a move in direction `k`, the three points
      of the new hexagon that the old one did not cover. */
  lemma NextChkptsFollowHex(k: int, i: int)
    requires 0 <= k < 6 && 0 <= i < 3
    ensures NextChkpts(k)[i] == HexTable()[(k + 5 + i) % 6]
  {
  }

  /** The update of `k` is `(k + 5 + best_site) mod 6`: the new direction is
      the hexagon index of the point just moved to. */
  lemma {:induction false} NextDirectionIsMove(k: int, bestSite: int)
    requires 0 <= k < 6 && 0 <= bestSite < 3
    ensures NextDirection(k, bestSite) == (k + 5 + bestSite) % 6
    ensures NextChkpts(k)[bestSite] == HexTable()[NextDirection(k, bestSite)]
  {
    NextChkptsFollowHex(k, bestSite);
  }

  /** Points within `range` of `center` along each axis. */
  predicate WithinReach(pat: seq<MV>, range: int)
  {
    forall i :: 0 <= i < |pat| ==> -range <= pat[i].row <= range && -range <= pat[i].col <= range
  }

  /** The hexagon and its rows `next_chkpts[k]` stay within two pixels,
      the neighbours within one. */
  lemma HexTableWithinReach()
    ensures WithinReach(HexTable(), 2)
  {
  }

  lemma NextChkptsWithinReach(k: int)
    requires 0 <= k < 6
    ensures WithinReach(NextChkpts(k), 2)
  {
  }

  lemma NeighborTableWithinReach()
    ensures WithinReach(NeighborTable(), 1)
  {
  }

  /** CHECK_BOUNDS(range): the whole square of `range` around the centre is
      inside the legal range, limits included. */
  predicate CheckBounds(ctx: SearchContext, center: MV, range: int)
  {
    && center.row - range >= ctx.bounds.rowMin && center.row + range <= ctx.bounds.rowMax
    && center.col - range >= ctx.bounds.colMin && center.col + range <= ctx.bounds.colMax
  }

  /** When CHECK_BOUNDS holds every point of a pattern within that reach
      passes CHECK_POINT, so the unchecked loops compute the checked ones. */
  lemma CheckBoundsCoversPattern(ctx: SearchContext, center: MV, pat: seq<MV>, range: int)
    requires WithinReach(pat, range) && CheckBounds(ctx, center, range)
    ensures forall i :: 0 <= i < |pat| ==> WithinBounds(Add(center, pat[i]), ctx.bounds)
  {
  }

  // ---------------------------------------------------------------------
  // What the search achieves

  /** A position that is the start with its score, or a vector inside the
      range with its own score, strictly below the start's. */
  predicate Reached(ctx: SearchContext, p: HexPos, start: HexPos)
  {
    (p == start) || (WithinBounds(p.pos, ctx.bounds) && p.sad == SadCost(ctx, p.pos) && p.sad < start.sad)
  }

  lemma {:induction false} PatternPhaseReached(ctx: SearchContext, p: HexPos, k: int, n: nat, start: HexPos)
    requires 0 <= k < 6 && Reached(ctx, p, start)
    ensures Reached(ctx, PatternPhase(ctx, p, k, n), start)
    decreases n
  {
    if n > 0 {
      match RoundOf(ctx, p, NextChkpts(k))
      case Stay =>
      case Move(next, site) => PatternPhaseReached(ctx, next, NextDirection(k, site), n - 1, start);
    }
  }

  /** A property every move keeps holds after any number of rounds. */
  lemma {:induction false} RoundsKeep(round: HexPos -> Round, inv: HexPos -> bool, p: HexPos, n: nat)
    requires inv(p)
    requires forall q :: inv(q) && round(q).Move? ==> inv(round(q).next)
    ensures inv(Rounds(round, p, n))
    decreases n
  {
    if n > 0 && round(p).Move? {
      RoundsKeep(round, inv, round(p).next, n - 1);
    }
  }

  /** When every move lowers the score, the rounds end at a position whose
      round stays, or each of the `n` rounds moved and lowered the score by
      at least one. */
  lemma {:induction false} RoundsStop(round: HexPos -> Round, p: HexPos, n: nat)
    requires forall q :: round(q).Move? ==> round(q).next.sad < q.sad
    ensures var f := Rounds(round, p, n); round(f).Stay? || f.sad + n <= p.sad
    decreases n
  {
    if n > 0 && round(p).Move? {
      RoundsStop(round, round(p).next, n - 1);
    }
  }

  /** When every move goes at most `d` along each axis, `n` rounds go at most
      `n * d`. */
  lemma {:induction false} RoundsReach(round: HexPos -> Round, d: nat, p: HexPos, n: nat)
    requires forall q :: round(q).Move? ==> Near(q.pos, round(q).next.pos, d)
    ensures Near(p.pos, Rounds(round, p, n).pos, n * d)
    decreases n
  {
    if n > 0 && round(p).Move? {
      RoundsReach(round, d, round(p).next, n - 1);
      assert (n - 1) * d + d == n * d;
    }
  }

  lemma NeighborPhaseReached(ctx: SearchContext, p: HexPos, n: nat, start: HexPos)
    requires Reached(ctx, p, start)
    ensures Reached(ctx, NeighborPhase(ctx, p, n), start)
  {
    RoundsKeep(NeighborRound(ctx), q => Reached(ctx, q, start), p, n);
  }

  /** The hexagon search ends at the start, `ref_mv >> 3`, or at a vector
      inside the legal range (limits included) whose score is strictly
      lower; either way the score it carries is the score of its vector. */
  lemma HexFinds(ctx: SearchContext, ref8: MV)
    ensures var s := HexStart(ctx, ref8);
      var f := HexFinal(ctx, ref8);
      && f.sad == SadCost(ctx, f.pos) && f.sad <= s.sad
      && (f.pos == s.pos || (WithinBounds(f.pos, ctx.bounds) && f.sad < s.sad))
      && Hex(ctx, ref8) == (f.pos, FinalCost(ctx, f.pos))
  {
    var s := HexStart(ctx, ref8);
    match RoundOf(ctx, s, HexTable()) {
      case Stay =>
      case Move(next, site) => PatternPhaseReached(ctx, next, site, PATTERN_ROUNDS, s);
    }
    NeighborPhaseReached(ctx, HexPatternEnd(ctx, ref8), NEIGHBOR_ROUNDS, s);
  }

  /** Neighbour `i` of `p` is outside the range or scores no lower. */
  predicate NeighborNotBelow(ctx: SearchContext, p: HexPos, i: int)
    requires 0 <= i < 4
  {
    WithinBounds(Add(p.pos, NeighborTable()[i]), ctx.bounds) ==>
      SadCost(ctx, Add(p.pos, NeighborTable()[i])) >= p.sad
  }

  /** None of the four neighbours inside the range scores below `p`. */
  predicate NeighborMinimum(ctx: SearchContext, p: HexPos)
  {
    forall i :: 0 <= i < 4 ==> NeighborNotBelow(ctx, p, i)
  }

  /** A round that picks nothing leaves every probed point at or above the
      best. */
  lemma {:induction false} ProbePatternNone(ctx: SearchContext, center: MV, pat: seq<MV>, b: RoundBest, i: nat)
    requires b.site < i
    requires ProbePattern(ctx, center, pat, b, i) == b
    ensures forall t :: i <= t < |pat| ==>
      (WithinBounds(Add(center, pat[t]), ctx.bounds) ==> SadCost(ctx, Add(center, pat[t])) >= b.sad)
    decreases |pat| - i
  {
    if i < |pat| {
      var b1 := ProbeAt(ctx, center, pat[i], b, i);
      if b1 != b {
        assert false;
      } else {
        ProbePatternNone(ctx, center, pat, b, i + 1);
      }
    }
  }

  /** A round that stays leaves no point of its pattern inside the range
      scoring below the position. */
  lemma RoundStays(ctx: SearchContext, p: HexPos, pat: seq<MV>)
    requires RoundOf(ctx, p, pat) == Stay
    ensures forall t :: 0 <= t < |pat| ==>
      (WithinBounds(Add(p.pos, pat[t]), ctx.bounds) ==> SadCost(ctx, Add(p.pos, pat[t])) >= p.sad)
  {
    ProbePatternNone(ctx, p.pos, pat, RoundBest(p.sad, -1), 0);
  }

  /** A neighbour round that stays is at a neighbour minimum. */
  lemma StayIsNeighborMinimum(ctx: SearchContext, p: HexPos)
    requires RoundOf(ctx, p, NeighborTable()).Stay?
    ensures NeighborMinimum(ctx, p)
  {
    RoundStays(ctx, p, NeighborTable());
  }

  /** The neighbour phase stops at a position none of whose neighbours
      inside the range scores lower, unless each of its remaining rounds
      moved, lowering the score by at least one each time. */
  lemma NeighborPhaseStops(ctx: SearchContext, p: HexPos, n: nat)
    ensures var f := NeighborPhase(ctx, p, n);
      NeighborMinimum(ctx, f) || f.sad + n <= p.sad
  {
    RoundsStop(NeighborRound(ctx), p, n);
    var f := NeighborPhase(ctx, p, n);
    if NeighborRound(ctx)(f).Stay? {
      StayIsNeighborMinimum(ctx, f);
    }
  }

  /** The hexagon search ends at a local minimum over the four neighbours
      inside the range, or its score fell by at least 32 in the neighbour
      phase alone. */
  lemma HexLocalMinimum(ctx: SearchContext, ref8: MV)
    ensures var f := HexFinal(ctx, ref8);
      NeighborMinimum(ctx, f) || f.sad + NEIGHBOR_ROUNDS <= HexPatternEnd(ctx, ref8).sad
  {
    NeighborPhaseStops(ctx, HexPatternEnd(ctx, ref8), NEIGHBOR_ROUNDS);
  }

  /** `q` is within `n` of `p` along each axis. */
  predicate Near(p: MV, q: MV, n: int)
  {
    -n <= q.row - p.row <= n && -n <= q.col - p.col <= n
  }

  lemma {:induction false} PatternPhaseReach(ctx: SearchContext, p: HexPos, k: int, n: nat)
    requires 0 <= k < 6
    ensures Near(p.pos, PatternPhase(ctx, p, k, n).pos, 2 * n)
    decreases n
  {
    if n > 0 {
      match RoundOf(ctx, p, NextChkpts(k))
      case Stay =>
      case Move(next, site) =>
        NextChkptsWithinReach(k);
        PatternPhaseReach(ctx, next, NextDirection(k, site), n - 1);
    }
  }

  /** Each neighbour is one pixel away along one axis. */
  lemma NeighborWithinOne(i: int)
    requires 0 <= i < 4
    ensures Near(MV(0, 0), NeighborTable()[i], 1)
  {
  }

  lemma NeighborPhaseReach(ctx: SearchContext, p: HexPos, n: nat)
    ensures Near(p.pos, NeighborPhase(ctx, p, n).pos, n)
  {
    forall q | NeighborRound(ctx)(q).Move?
      ensures Near(q.pos, NeighborRound(ctx)(q).next.pos, 1)
    {
      NeighborWithinOne(NeighborRound(ctx)(q).site);
    }
    RoundsReach(NeighborRound(ctx), 1, p, n);
  }

  /** The round limits bound how far the search can go: two pixels for the
      first round and for each of at most 126 hexagon rounds, one for each
      of at most 32 neighbour rounds, so at most 286 along each axis. */
  lemma HexReach(ctx: SearchContext, ref8: MV)
    ensures Near(ToFullPel(ref8), HexFinal(ctx, ref8).pos, 2 + 2 * PATTERN_ROUNDS + NEIGHBOR_ROUNDS)
  {
    var s := HexStart(ctx, ref8);
    match RoundOf(ctx, s, HexTable()) {
      case Stay =>
      case Move(next, site) =>
        HexTableWithinReach();
        PatternPhaseReach(ctx, next, site, PATTERN_ROUNDS);
    }
    NeighborPhaseReach(ctx, HexPatternEnd(ctx, ref8), NEIGHBOR_ROUNDS);
  }

  // ---------------------------------------------------------------------
  // The search

  /** One round as the search writes it: CHECK_BOUNDS(range) once, then the
      points without CHECK_POINT when it holds and with it otherwise;
      CHECK_BETTER compares the SAD alone before adding the rate cost. */
  method ProbeRound(ctx: SearchContext, center: MV, pat: seq<MV>, range: int, bestSad: int)
    returns (r: RoundBest)
    requires WithinReach(pat, range)
    ensures r == ProbePattern(ctx, center, pat, RoundBest(bestSad, -1), 0)
  {
    var fcenter := ToFullPel(ctx.center);
    var allIn := center.row - range >= ctx.bounds.rowMin && center.row + range <= ctx.bounds.rowMax
      && center.col - range >= ctx.bounds.colMin && center.col + range <= ctx.bounds.colMax;
    if allIn {
      CheckBoundsCoversPattern(ctx, center, pat, range);
    }
    r := RoundBest(bestSad, -1);
    var i := 0;
    while i < |pat|
      invariant 0 <= i <= |pat|
      invariant ProbePattern(ctx, center, pat, r, i) == ProbePattern(ctx, center, pat, RoundBest(bestSad, -1), 0)
    {
      var thisMv := Add(center, pat[i]);
      if allIn || WithinBounds(thisMv, ctx.bounds) {
        var thisOffset := Addr(ctx, thisMv);
        var thisSad := ctx.fns.sdf(thisOffset);
        if thisSad < r.sad {
          thisSad := thisSad + MvSadErrCost(thisMv, fcenter, ctx.sadCost, ctx.sadPerBit);
          if thisSad < r.sad {
            r := RoundBest(thisSad, i);
          }
        }
      }
      i := i + 1;
    }
  }

  /** One hexagon round of the search as a step of `PatternPhase`. */
  lemma PatternStep(ctx: SearchContext, p: HexPos, k: int, n: nat, r: RoundBest)
    requires 0 <= k < 6 && n > 0
    requires r == ProbePattern(ctx, p.pos, NextChkpts(k), RoundBest(p.sad, -1), 0)
    ensures r.site == -1 ==> PatternPhase(ctx, p, k, n) == p
    ensures r.site != -1 ==> 0 <= r.site < 3
    ensures r.site != -1 ==>
      PatternPhase(ctx, p, k, n)
      == PatternPhase(ctx, HexPos(Add(p.pos, NextChkpts(k)[r.site]), r.sad), NextDirection(k, r.site), n - 1)
  {
  }

  /** The first round of six as the step into `HexPatternEnd`. */
  lemma FirstRoundStep(ctx: SearchContext, ref8: MV, r: RoundBest)
    requires var s := HexStart(ctx, ref8);
      r == ProbePattern(ctx, s.pos, HexTable(), RoundBest(s.sad, -1), 0)
    ensures r.site == -1 ==> HexPatternEnd(ctx, ref8) == HexStart(ctx, ref8)
    ensures r.site != -1 ==> 0 <= r.site < 6
    ensures r.site != -1 ==>
      var s := HexStart(ctx, ref8);
      HexPatternEnd(ctx, ref8) == PatternPhase(ctx, HexPos(Add(s.pos, HexTable()[r.site]), r.sad), r.site, PATTERN_ROUNDS)
  {
  }

  /** The hexagon rounds `j = 1 .. 126` from `(br, bc)`, last moved in
      direction `k`. */
  method PatternRounds(ctx: SearchContext, br0: int, bc0: int, sad0: int, k0: int)
    returns (br: int, bc: int, bestSad: int)
    requires 0 <= k0 < 6
    ensures HexPos(MV(br, bc), bestSad) == PatternPhase(ctx, HexPos(MV(br0, bc0), sad0), k0, PATTERN_ROUNDS)
  {
    br, bc, bestSad := br0, bc0, sad0;
    var k := k0;
    ghost var target := PatternPhase(ctx, HexPos(MV(br0, bc0), sad0), k0, PATTERN_ROUNDS);
    ghost var n: nat := PATTERN_ROUNDS;
    var j := 1;
    while j < 127
      invariant 0 <= k < 6 && 1 <= j <= 127 && n == 127 - j
      invariant PatternPhase(ctx, HexPos(MV(br, bc), bestSad), k, n) == target
    {
      NextChkptsWithinReach(k);
      var r := ProbeRound(ctx, MV(br, bc), NextChkpts(k), 2, bestSad);
      PatternStep(ctx, HexPos(MV(br, bc), bestSad), k, n, r);
      if r.site == -1 {
        break;
      }
      ghost var next := HexPos(Add(MV(br, bc), NextChkpts(k)[r.site]), r.sad);
      assert PatternPhase(ctx, next, NextDirection(k, r.site), n - 1) == target;
      br, bc, bestSad := br + NextChkpts(k)[r.site].row, bc + NextChkpts(k)[r.site].col, r.sad;
      assert HexPos(MV(br, bc), bestSad) == next;
      k := k + 5 + r.site;
      k := if k >= 12 then k - 12 else if k >= 6 then k - 6 else k;
      j, n := j + 1, n - 1;
    }
  }

  /** One neighbour round of the search as a step of `NeighborPhase`. */
  lemma NeighborStep(ctx: SearchContext, p: HexPos, n: nat, r: RoundBest)
    requires n > 0
    requires r == ProbePattern(ctx, p.pos, NeighborTable(), RoundBest(p.sad, -1), 0)
    ensures r.site == -1 ==> NeighborPhase(ctx, p, n) == p
    ensures r.site != -1 ==> 0 <= r.site < 4
    ensures r.site != -1 ==>
      NeighborPhase(ctx, p, n) == NeighborPhase(ctx, HexPos(Add(p.pos, NeighborTable()[r.site]), r.sad), n - 1)
  {
  }

  /** The neighbour rounds `j = 0 .. 31` from `(br, bc)`. */
  method NeighborRounds(ctx: SearchContext, br0: int, bc0: int, sad0: int)
    returns (br: int, bc: int, bestSad: int)
    ensures HexPos(MV(br, bc), bestSad) == NeighborPhase(ctx, HexPos(MV(br0, bc0), sad0), NEIGHBOR_ROUNDS)
  {
    br, bc, bestSad := br0, bc0, sad0;
    NeighborTableWithinReach();
    ghost var target := NeighborPhase(ctx, HexPos(MV(br0, bc0), sad0), NEIGHBOR_ROUNDS);
    ghost var n: nat := NEIGHBOR_ROUNDS;
    var j := 0;
    while j < 32
      invariant 0 <= j <= 32 && n == NEIGHBOR_ROUNDS - j
      invariant NeighborPhase(ctx, HexPos(MV(br, bc), bestSad), n) == target
    {
      var r := ProbeRound(ctx, MV(br, bc), NeighborTable(), 1, bestSad);
      NeighborStep(ctx, HexPos(MV(br, bc), bestSad), n, r);
      if r.site == -1 {
        break;
      }
      ghost var next := HexPos(Add(MV(br, bc), NeighborTable()[r.site]), r.sad);
      br, bc, bestSad := br + NeighborTable()[r.site].row, bc + NeighborTable()[r.site].col, r.sad;
      assert HexPos(MV(br, bc), bestSad) == next;
      j, n := j + 1, n - 1;
    }
  }

  /** vp8_hex_search: the start, the first round of six, the hexagon rounds
      when it moved, the neighbour rounds, then the variance plus rate cost
      of the vector reached. */
  method HexSearchSad(ctx: SearchContext, ref8: MV) returns (bestMv: MV, cost: int)
    ensures (bestMv, cost) == Hex(ctx, ref8)
  {
    var fcenter := ToFullPel(ctx.center);
    var br, bc := ref8.row / 8, ref8.col / 8;
    var bestSad := ctx.fns.sdf(Addr(ctx, MV(br, bc))) + MvSadErrCost(MV(br, bc), fcenter, ctx.sadCost, ctx.sadPerBit);
    ghost var s := HexStart(ctx, ref8);
    assert HexPos(MV(br, bc), bestSad) == s;
    HexTableWithinReach();

    var r := ProbeRound(ctx, MV(br, bc), HexTable(), 2, bestSad);
    FirstRoundStep(ctx, ref8, r);
    if r.site != -1 {
      ghost var next := HexPos(Add(s.pos, HexTable()[r.site]), r.sad);
      br, bc, bestSad := br + HexTable()[r.site].row, bc + HexTable()[r.site].col, r.sad;
      assert HexPos(MV(br, bc), bestSad) == next;
      br, bc, bestSad := PatternRounds(ctx, br, bc, bestSad, r.site);
    }
    assert HexPos(MV(br, bc), bestSad) == HexPatternEnd(ctx, ref8);
    br, bc, bestSad := NeighborRounds(ctx, br, bc, bestSad);
    assert HexPos(MV(br, bc), bestSad) == HexFinal(ctx, ref8);

    bestMv := MV(br, bc);
    var thisOffset := Addr(ctx, MV(br, bc));
    assert thisOffset == Addr(ctx, bestMv);
    assert MV(br * 8, bc * 8) == ToEighths(bestMv);
    cost := ctx.fns.vf(thisOffset).value + MvErrCost(MV(br * 8, bc * 8), ctx.center, ctx.mvCost, ctx.errorPerBit);
    assert cost == FinalCost(ctx, bestMv);
  }
}
