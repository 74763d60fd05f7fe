/** The diamond searches (vp8_diamond_search_sad and
    vp8_diamond_search_sadx4, vp8/encoder/mcomp.c:1007-1286): from the
    reference, each step probes one ring of the search-site table around
    the current best and moves to the ring's best site if it improved the
    score; the step length halves from ring to ring. */
module DiamondSearch {
  import opened MotionVectors
  import opened MvCost
  import opened SearchCost
  import opened SearchLattice

  /** The locals the search carries from probe to probe: `best_mv`,
      `best_address`, `bestsad`, `best_site`, `last_site` and `*num00`.
      Sites are numbered from the start of the rings the search uses. */
  datatype DiamondState = DiamondState(
    best: MV, addr: int, sad: int, bestSite: int, lastSite: int, num00: nat)

  /** Probe site number `i`, `site`, around the best of the current step:
      only a vector strictly inside the legal range is scored; it becomes the
      step's best site when its SAD plus rate cost is below `bestsad`. */
  function ProbeSite(ctx: SearchContext, site: SearchSite, st: DiamondState, i: int): (r: DiamondState)
    ensures r.best == st.best && r.addr == st.addr && r.lastSite == st.lastSite && r.num00 == st.num00
    ensures r.sad <= st.sad && (r.bestSite == st.bestSite || r.bestSite == i)
  {
    var cand := Add(st.best, site.mv);
    if StrictlyInside(cand, ctx.bounds) then
      var score := ctx.fns.sdf(site.offset + st.addr)
                   + MvSadErrCost(cand, FullPelCenter(ctx), ctx.sadCost, ctx.sadPerBit);
      if score < st.sad then st.(sad := score, bestSite := i) else st
    else st
  }

  /** The probe of site number `i` of the rings starting at `base`. */
  function SiteProbe(ctx: SearchContext, sites: seq<SearchSite>, base: int): (DiamondState, int) -> DiamondState
  {
    (st, i) => if 0 <= base + i < |sites| then ProbeSite(ctx, sites[base + i], st, i) else st
  }

  /** `n` probes numbered from `i`, in order. */
  function Probes(probe: (DiamondState, int) -> DiamondState, st: DiamondState, i: int, n: nat): DiamondState
    decreases n
  {
    if n == 0 then st else Probes(probe, probe(st, i), i + 1, n - 1)
  }

  /** `n + m` probes are `n` probes and then `m`. */
  lemma {:induction false} ProbesSplit(probe: (DiamondState, int) -> DiamondState, st: DiamondState,
                                       i: int, n: nat, m: nat)
    ensures Probes(probe, st, i, n + m) == Probes(probe, Probes(probe, st, i, n), i + n, m)
    decreases n
  {
    if n > 0 {
      ProbesSplit(probe, probe(st, i), i + 1, n - 1, m);
    }
  }

  /** Site probes change only `bestsad` and `best_site`, can only lower
      `bestsad`, and `best_site` becomes one of the probed sites if it
      changes. */
  lemma {:induction false} SiteProbesKeep(ctx: SearchContext, sites: seq<SearchSite>, base: int, st: DiamondState,
                                          i: int, n: nat)
    ensures var r := Probes(SiteProbe(ctx, sites, base), st, i, n);
      && r.best == st.best && r.addr == st.addr && r.lastSite == st.lastSite && r.num00 == st.num00
      && r.sad <= st.sad
      && (r.bestSite == st.bestSite || i <= r.bestSite < i + n)
    decreases n
  {
    if n > 0 {
      var st1 := SiteProbe(ctx, sites, base)(st, i);
      assert st1 == st || st1 == ProbeSite(ctx, sites[base + i], st, i);
      SiteProbesKeep(ctx, sites, base, st1, i + 1, n - 1);
    }
  }

  /** Probing sites `i .. i + n - 1` of the rings starting at `base`, in
      order. Only `bestsad` and `best_site` change, and `best_site` becomes
      one of the probed sites if it changes. */
  function ProbeRing(ctx: SearchContext, sites: seq<SearchSite>, base: int, st: DiamondState, i: int, n: nat)
    : (r: DiamondState)
    requires 0 <= base && 0 <= i && base + i + n <= |sites|
    ensures r.best == st.best && r.addr == st.addr && r.lastSite == st.lastSite && r.num00 == st.num00
    ensures r.sad <= st.sad
    ensures r.bestSite == st.bestSite || i <= r.bestSite < i + n
  {
    SiteProbesKeep(ctx, sites, base, st, i, n);
    Probes(SiteProbe(ctx, sites, base), st, i, n)
  }

  /** Probing `n` sites is probing the first and then the other `n - 1`. */
  lemma ProbeRingStep(ctx: SearchContext, sites: seq<SearchSite>, base: int, st: DiamondState, i: int, n: nat)
    requires 0 <= base && 0 <= i && base + i + n <= |sites| && n > 0
    ensures ProbeRing(ctx, sites, base, st, i, n)
         == ProbeRing(ctx, sites, base, ProbeSite(ctx, sites[base + i], st, i), i + 1, n - 1)
  {
  }

  /** Probing `n + m` sites is probing `n` and then `m`. */
  lemma ProbeRingSplit(ctx: SearchContext, sites: seq<SearchSite>, base: int, st: DiamondState,
                       i: int, n: nat, m: nat)
    requires 0 <= base && 0 <= i && base + i + n + m <= |sites|
    ensures ProbeRing(ctx, sites, base, st, i, n + m)
         == ProbeRing(ctx, sites, base, ProbeRing(ctx, sites, base, st, i, n), i + n, m)
  {
    ProbesSplit(SiteProbe(ctx, sites, base), st, i, n, m);
  }

  /** The end of a step: move to the best site if it changed, otherwise
      count the step in `*num00` when the best is still the start. */
  function EndStep(sites: seq<SearchSite>, base: int, st: DiamondState, inWhat: int): (r: DiamondState)
    requires 0 <= base + st.bestSite < |sites|
    ensures r.bestSite == st.bestSite == r.lastSite || (r == st && st.bestSite != st.lastSite)
      || (st.bestSite == st.lastSite && r.lastSite == st.lastSite)
    ensures r.num00 == st.num00 + 1 <==> st.bestSite == st.lastSite && st.addr == inWhat
    ensures r.num00 == st.num00 || r.num00 == st.num00 + 1
    ensures r.num00 == st.num00 + 1 ==> r.best == st.best
    ensures st.bestSite == st.lastSite ==> r.best == st.best && r.addr == st.addr && r.sad == st.sad
  {
    if st.bestSite != st.lastSite then
      var site := sites[base + st.bestSite];
      st.(best := Add(st.best, site.mv), addr := st.addr + site.offset, lastSite := st.bestSite)
    else if st.addr == inWhat then st.(num00 := st.num00 + 1)
    else st
  }

  lemma RingWithin(step: int, totSteps: int, sps: int)
    requires 0 <= step < totSteps && sps > 0
    ensures 0 <= step * sps && step * sps + sps <= totSteps * sps
  {
    MulMonotone(sps, 0, step);
    MulMonotone(sps, step + 1, totSteps);
    assert (step + 1) * sps == step * sps + sps;
  }

  /** Steps `step .. totSteps - 1`: probe the step's ring, then end the
      step. Site `1 + step * sps` is the first of the step's ring. */
  function Steps(ctx: SearchContext, sites: seq<SearchSite>, base: int, sps: int, st: DiamondState,
                 step: int, totSteps: int, inWhat: int): DiamondState
    requires sps > 0 && 0 <= base && 0 <= step
    requires 0 <= st.bestSite < 1 + step * sps
    requires step < totSteps ==> base + 1 + totSteps * sps <= |sites|
    decreases totSteps - step
  {
    if step >= totSteps then st
    else
      RingWithin(step, totSteps, sps);
      var probed := ProbeRing(ctx, sites, base, st, 1 + step * sps, sps);
      Steps(ctx, sites, base, sps, EndStep(sites, base, probed, inWhat), step + 1, totSteps, inWhat)
  }

  /** The table holds every ring a search can reach. A table of a centre
      site followed by whole rings of `sps` sites (33 = 1 + 8 * 4 for the
      diamond, 65 = 1 + 8 * 8 for the three-step table) is not a whole
      number of rings, and that keeps the last site the search reads, at
      index (search_param + tot_steps) * sps, inside the table. */
  predicate Searchable(sites: seq<SearchSite>, sps: int, searchParam: int)
  {
    sps > 0 && searchParam >= 0 && |sites| % sps != 0
  }

  /** `tot_steps`: the number of rings from ring `search_param` on. */
  function TotSteps(sites: seq<SearchSite>, sps: int, searchParam: int): int
    requires sps > 0
  {
    |sites| / sps - searchParam
  }

  lemma TableCoversSteps(sites: seq<SearchSite>, sps: int, searchParam: int)
    requires Searchable(sites, sps, searchParam)
    ensures 0 <= searchParam * sps
    ensures var tot := TotSteps(sites, sps, searchParam);
      0 < tot ==> searchParam * sps + 1 + tot * sps <= |sites|
  {
    var tot := TotSteps(sites, sps, searchParam);
    assert searchParam * sps + tot * sps == (|sites| / sps) * sps;
  }

  /** The start of the search: `ref_mv >> 3`, its address `in_what`, and its
      guarded score. */
  function StartState(ctx: SearchContext, ref8: MV): DiamondState
  {
    var ref := ToFullPel(ref8);
    DiamondState(ref, Addr(ctx, ref), GuardedStart(ctx, ref).sad, 0, 0, 0)
  }

  /** The state the search ends in. */
  function DiamondFinal(ctx: SearchContext, sites: seq<SearchSite>, sps: int, ref8: MV, searchParam: int): DiamondState
    requires Searchable(sites, sps, searchParam)
  {
    TableCoversSteps(sites, sps, searchParam);
    Steps(ctx, sites, searchParam * sps, sps, StartState(ctx, ref8), 0,
          TotSteps(sites, sps, searchParam), Addr(ctx, ToFullPel(ref8)))
  }

  /** The vector left in `best_mv`, the value returned (INT_MAX when
      `bestsad` is still INT_MAX, otherwise the variance at the best address
      plus the rate cost of the vector), and `*num00`. */
  function Diamond(ctx: SearchContext, sites: seq<SearchSite>, sps: int, ref8: MV, searchParam: int): (MV, int, nat)
    requires Searchable(sites, sps, searchParam)
  {
    var fin := DiamondFinal(ctx, sites, sps, ref8, searchParam);
    (fin.best,
     if fin.sad == INT_MAX then INT_MAX
     else ctx.fns.vf(fin.addr).value + MvErrCost(ToEighths(fin.best), ctx.center, ctx.mvCost, ctx.errorPerBit),
     fin.num00)
  }

  // ---------------------------------------------------------------------
  // What the search achieves

  /** With offsets that match their vectors, a probed site's score is the
      usual SAD-plus-rate score of the vector it reaches. */
  lemma SiteScore(ctx: SearchContext, site: SearchSite, best: MV, addr: int)
    requires OffsetConsistent(site, ctx.stride) && addr == Addr(ctx, best)
    ensures site.offset + addr == Addr(ctx, Add(best, site.mv))
    ensures ctx.fns.sdf(site.offset + addr)
            + MvSadErrCost(Add(best, site.mv), FullPelCenter(ctx), ctx.sadCost, ctx.sadPerBit)
         == SadCost(ctx, Add(best, site.mv))
  {
    AddrShift(ctx, best, site.mv);
  }

  /** A ring either leaves the state alone or picks a site whose vector is
      strictly inside the legal range, scored, and strictly better. */
  lemma {:induction false} ProbeRingFacts(ctx: SearchContext, sites: seq<SearchSite>, base: int,
                                          st: DiamondState, i: int, n: nat)
    requires 0 <= base && 0 <= i && base + i + n <= |sites|
    requires AllOffsetsConsistent(sites, ctx.stride) && st.addr == Addr(ctx, st.best)
    requires st.bestSite < i
    ensures var r := ProbeRing(ctx, sites, base, st, i, n);
      r == st || (i <= r.bestSite < i + n && r.sad < st.sad
                  && StrictlyInside(Add(st.best, sites[base + r.bestSite].mv), ctx.bounds)
                  && r.sad == SadCost(ctx, Add(st.best, sites[base + r.bestSite].mv)))
    decreases n
  {
    if n > 0 {
      var site := sites[base + i];
      assert OffsetConsistent(site, ctx.stride);
      SiteScore(ctx, site, st.best, st.addr);
      var st1 := ProbeSite(ctx, site, st, i);
      ProbeRingFacts(ctx, sites, base, st1, i + 1, n - 1);
    }
  }

  /** The state between steps: the address is the best vector's, no site is
      pending, and the best is either the untouched start or a scored vector
      strictly inside the range that beats the start. */
  predicate Settled(ctx: SearchContext, st: DiamondState, ref: MV, startSad: int)
  {
    && st.addr == Addr(ctx, st.best)
    && st.bestSite == st.lastSite
    && ((st.best == ref && st.sad == startSad)
        || (StrictlyInside(st.best, ctx.bounds) && st.sad == SadCost(ctx, st.best) && st.sad < startSad))
  }

  lemma {:induction false} StepsSettled(ctx: SearchContext, sites: seq<SearchSite>, base: int, sps: int,
                                        st: DiamondState, step: int, totSteps: int, inWhat: int,
                                        ref: MV, startSad: int)
    requires sps > 0 && 0 <= base && 0 <= step
    requires 0 <= st.bestSite < 1 + step * sps
    requires step < totSteps ==> base + 1 + totSteps * sps <= |sites|
    requires AllOffsetsConsistent(sites, ctx.stride) && Settled(ctx, st, ref, startSad)
    ensures Settled(ctx, Steps(ctx, sites, base, sps, st, step, totSteps, inWhat), ref, startSad)
    decreases totSteps - step
  {
    if step < totSteps {
      RingWithin(step, totSteps, sps);
      var probed := ProbeRing(ctx, sites, base, st, 1 + step * sps, sps);
      ProbeRingFacts(ctx, sites, base, st, 1 + step * sps, sps);
      var next := EndStep(sites, base, probed, inWhat);
      if probed != st {
        var site := sites[base + probed.bestSite];
        assert OffsetConsistent(site, ctx.stride);
        SiteScore(ctx, site, st.best, st.addr);
      }
      StepsSettled(ctx, sites, base, sps, next, step + 1, totSteps, inWhat, ref, startSad);
    }
  }

  /** `*num00` grows by at most one a step, and only on a step that did not
      move; so when every step counted, the best never moved. */
  lemma {:induction false} StepsNum00(ctx: SearchContext, sites: seq<SearchSite>, base: int, sps: int,
                                      st: DiamondState, step: int, totSteps: int, inWhat: int)
    requires sps > 0 && 0 <= base && 0 <= step
    requires 0 <= st.bestSite < 1 + step * sps
    requires step < totSteps ==> base + 1 + totSteps * sps <= |sites|
    ensures var fin := Steps(ctx, sites, base, sps, st, step, totSteps, inWhat);
      && st.num00 <= fin.num00 <= st.num00 + Max0(totSteps - step)
      && (fin.num00 == st.num00 + Max0(totSteps - step) ==> fin.best == st.best)
    decreases totSteps - step
  {
    if step < totSteps {
      RingWithin(step, totSteps, sps);
      var probed := ProbeRing(ctx, sites, base, st, 1 + step * sps, sps);
      StepsNum00(ctx, sites, base, sps, EndStep(sites, base, probed, inWhat), step + 1, totSteps, inWhat);
    }
  }

  function Max0(n: int): nat { if n < 0 then 0 else n }

  /** The diamond search, stated without the steps: with a table whose
      offsets match their vectors, the result is the start (`ref_mv >> 3`)
      with its guarded score, or a vector strictly inside the legal range,
      scored, and strictly better than the start; the value returned is
      INT_MAX exactly when the score stayed INT_MAX, and otherwise the
      variance plus rate cost at the vector found. */
  lemma DiamondFinds(ctx: SearchContext, sites: seq<SearchSite>, sps: int, ref8: MV, searchParam: int)
    requires Searchable(sites, sps, searchParam) && AllOffsetsConsistent(sites, ctx.stride)
    ensures var ref := ToFullPel(ref8);
      var start := GuardedStart(ctx, ref);
      var fin := DiamondFinal(ctx, sites, sps, ref8, searchParam);
      var (mv, cost, _) := Diamond(ctx, sites, sps, ref8, searchParam);
      && mv == fin.best && fin.addr == Addr(ctx, mv)
      && ((mv == ref && fin.sad == start.sad)
          || (StrictlyInside(mv, ctx.bounds) && fin.sad == SadCost(ctx, mv) && fin.sad < start.sad))
      && (cost == INT_MAX <==> fin.sad == INT_MAX || FinalCost(ctx, mv) == INT_MAX)
      && (fin.sad != INT_MAX ==> cost == FinalCost(ctx, mv))
  {
    TableCoversSteps(sites, sps, searchParam);
    var ref := ToFullPel(ref8);
    StepsSettled(ctx, sites, searchParam * sps, sps, StartState(ctx, ref8), 0,
                 TotSteps(sites, sps, searchParam), Addr(ctx, ref), ref, GuardedStart(ctx, ref).sad);
  }

  /** `*num00` counts at most `tot_steps` steps, and when it counts them all
      the search returns the start. */
  lemma DiamondNum00(ctx: SearchContext, sites: seq<SearchSite>, sps: int, ref8: MV, searchParam: int)
    requires Searchable(sites, sps, searchParam)
    ensures var tot := TotSteps(sites, sps, searchParam);
      var (mv, _, num00) := Diamond(ctx, sites, sps, ref8, searchParam);
      && num00 <= Max0(tot)
      && (num00 == Max0(tot) ==> mv == ToFullPel(ref8))
  {
    TableCoversSteps(sites, sps, searchParam);
    StepsNum00(ctx, sites, searchParam * sps, sps, StartState(ctx, ref8), 0,
               TotSteps(sites, sps, searchParam), Addr(ctx, ToFullPel(ref8)));
  }

  /** On the tables the two builders make, the search runs
      MAX_MVSEARCH_STEPS - search_param steps. */
  lemma DiamondStepCount(sites: seq<SearchSite>, sps: nat, stride: int, searchParam: int)
    requires WellFormedLattice(sites, sps, stride)
    ensures TotSteps(sites, sps, searchParam) == MAX_MVSEARCH_STEPS - searchParam
    ensures searchParam >= 0 ==> Searchable(sites, sps, searchParam)
  {
    assert |sites| == 1 + 8 * sps;
  }

  // ---------------------------------------------------------------------
  // The searches

  /** One probe as the search writes it: the SAD alone is compared first,
      and the rate cost is added only when it could still win. */
  lemma PrecheckProbe(ctx: SearchContext, site: SearchSite, st: DiamondState, i: int, sad: int)
    requires sad == ctx.fns.sdf(site.offset + st.addr)
    ensures var cand := Add(st.best, site.mv);
      var score := sad + MvSadErrCost(cand, FullPelCenter(ctx), ctx.sadCost, ctx.sadPerBit);
      ProbeSite(ctx, site, st, i)
        == if StrictlyInside(cand, ctx.bounds) && sad < st.sad && score < st.sad
           then st.(sad := score, bestSite := i) else st
  {
  }

  /** The start of both diamond searches: `ref_mv >> 3`, `in_what`, and
      the start scored only when strictly inside the range. */
  method StartSearch(ctx: SearchContext, ref8: MV) returns (st: DiamondState, inWhat: int)
    ensures st == StartState(ctx, ref8) && inWhat == Addr(ctx, ToFullPel(ref8))
  {
    var fcenter := ToFullPel(ctx.center);
    var refRow, refCol := ref8.row / 8, ref8.col / 8;
    inWhat := Addr(ctx, MV(refRow, refCol));
    st := DiamondState(MV(refRow, refCol), inWhat, INT_MAX, 0, 0, 0);
    if refCol > ctx.bounds.colMin && refCol < ctx.bounds.colMax
      && refRow > ctx.bounds.rowMin && refRow < ctx.bounds.rowMax
    {
      st := st.(sad := ctx.fns.sdf(inWhat) + MvSadErrCost(st.best, fcenter, ctx.sadCost, ctx.sadPerBit));
    }
  }

  /** The scalar probe of site number `i`: the range test, the SAD, and
      the rate cost added only when the SAD alone could still win. */
  method ProbeOneSite(ctx: SearchContext, site: SearchSite, st0: DiamondState, i: int) returns (st: DiamondState)
    ensures st == ProbeSite(ctx, site, st0, i)
  {
    st := st0;
    var thisRowOffset := st.best.row + site.mv.row;
    var thisColOffset := st.best.col + site.mv.col;
    if thisColOffset > ctx.bounds.colMin && thisColOffset < ctx.bounds.colMax
      && thisRowOffset > ctx.bounds.rowMin && thisRowOffset < ctx.bounds.rowMax
    {
      var checkHere := site.offset + st.addr;
      var thisSad := ctx.fns.sdf(checkHere);
      PrecheckProbe(ctx, site, st, i, thisSad);
      if thisSad < st.sad {
        var thisMv := MV(thisRowOffset, thisColOffset);
        thisSad := thisSad + MvSadErrCost(thisMv, ToFullPel(ctx.center), ctx.sadCost, ctx.sadPerBit);
        if thisSad < st.sad {
          st := st.(sad := thisSad, bestSite := i);
        }
      }
    }
  }

  /** The probe of the batched branch, given the SAD `sdx4df` reported for
      site number `i`: no range test, so it is the scalar probe when the
      site reaches a vector strictly inside. */
  method ProbeBatchedSite(ctx: SearchContext, site: SearchSite, st0: DiamondState, i: int, sad: int)
    returns (st: DiamondState)
    requires sad == ctx.fns.sdf(site.offset + st0.addr)
    ensures st.best == st0.best && st.addr == st0.addr && st.lastSite == st0.lastSite && st.num00 == st0.num00
    ensures st.bestSite == st0.bestSite || st.bestSite == i
    ensures StrictlyInside(Add(st0.best, site.mv), ctx.bounds) ==> st == ProbeSite(ctx, site, st0, i)
  {
    st := st0;
    PrecheckProbe(ctx, site, st, i, sad);
    if sad < st.sad {
      var thisMv := Add(st.best, site.mv);
      var thisSad := sad + MvSadErrCost(thisMv, ToFullPel(ctx.center), ctx.sadCost, ctx.sadPerBit);
      if thisSad < st.sad {
        st := st.(sad := thisSad, bestSite := i);
      }
    }
  }

  /** The scalar probe loop of one step: sites `i .. i + sps - 1`. */
  method ProbeStep(cfg: SearchSiteConfig, ctx: SearchContext, base: int, st0: DiamondState, i0: int, sps: int)
    returns (st: DiamondState)
    requires cfg.Valid() && 0 <= base && 0 <= i0 && sps >= 0 && base + i0 + sps <= cfg.ssCount
    ensures st == ProbeRing(ctx, cfg.Sites(), base, st0, i0, sps)
  {
    ghost var sites := cfg.Sites();
    st := st0;
    var i := i0;
    var j := 0;
    while j < sps
      invariant 0 <= j <= sps && i == i0 + j
      invariant ProbeRing(ctx, sites, base, st, i, sps - j) == ProbeRing(ctx, sites, base, st0, i0, sps)
    {
      var site := cfg.ss[base + i];
      assert site == sites[base + i];
      ProbeRingStep(ctx, sites, base, st, i, sps - j);
      st := ProbeOneSite(ctx, site, st, i);
      i := i + 1;
      j := j + 1;
    }
  }

  /** The end of a step, reading the moved-to site from the table. */
  method FinishStep(cfg: SearchSiteConfig, base: int, st0: DiamondState, inWhat: int) returns (st: DiamondState)
    requires cfg.Valid() && 0 <= base + st0.bestSite < cfg.ssCount
    ensures st == EndStep(cfg.Sites(), base, st0, inWhat)
  {
    st := st0;
    if st.bestSite != st.lastSite {
      var site := cfg.ss[base + st.bestSite];
      assert site == cfg.Sites()[base + st.bestSite];
      st := st.(best := Add(st.best, site.mv), addr := st.addr + site.offset, lastSite := st.bestSite);
    } else if st.addr == inWhat {
      st := st.(num00 := st.num00 + 1);
    }
  }

  /** The step loop of the diamond searches: `tot_steps` steps from the
      start state, probing one ring a step with the scalar loop. */
  method RunSteps(cfg: SearchSiteConfig, ctx: SearchContext, base: int, st0: DiamondState, totSteps: int, inWhat: int)
    returns (st: DiamondState)
    requires cfg.Valid() && cfg.searchesPerStep > 0 && 0 <= base && st0.bestSite == 0
    requires 0 < totSteps ==> base + 1 + totSteps * cfg.searchesPerStep <= cfg.ssCount
    ensures st == Steps(ctx, cfg.Sites(), base, cfg.searchesPerStep, st0, 0, totSteps, inWhat)
  {
    ghost var sites := cfg.Sites();
    var sps := cfg.searchesPerStep;
    st := st0;
    var i := 1;
    var step := 0;
    while step < totSteps
      invariant 0 <= step && i == RingStart(0, step, sps) && 0 <= st.bestSite < i
      invariant Steps(ctx, sites, base, sps, st, step, totSteps, inWhat)
             == Steps(ctx, sites, base, sps, st0, 0, totSteps, inWhat)
      decreases totSteps - step
    {
      RingWithin(step, totSteps, sps);
      st := ProbeStep(cfg, ctx, base, st, i, sps);
      RingStartNext(0, step, sps);
      i := i + sps;
      st := FinishStep(cfg, base, st, inWhat);
      step := step + 1;
    }
  }

  /** vp8_diamond_search_sad over the table `cfg` holds. */
  method DiamondSearchSad(cfg: SearchSiteConfig, ctx: SearchContext, ref8: MV, searchParam: int)
    returns (bestMv: MV, cost: int, num00: nat)
    requires cfg.Valid() && Searchable(cfg.Sites(), cfg.searchesPerStep, searchParam)
    ensures (bestMv, cost, num00) == Diamond(ctx, cfg.Sites(), cfg.searchesPerStep, ref8, searchParam)
  {
    ghost var sites := cfg.Sites();
    var sps := cfg.searchesPerStep;
    var st, inWhat := StartSearch(ctx, ref8);

    var base := searchParam * sps;
    var totSteps := cfg.ssCount / sps - searchParam;
    TableCoversSteps(sites, sps, searchParam);
    st := RunSteps(cfg, ctx, base, st, totSteps, inWhat);
    bestMv := st.best;
    num00 := st.num00;
    if st.sad == INT_MAX {
      cost := INT_MAX;
    } else {
      cost := ctx.fns.vf(st.addr).value + MvErrCost(ToEighths(st.best), ctx.center, ctx.mvCost, ctx.errorPerBit);
    }
  }

  /** The four tests of `all_in` on the ring starting at `start`: the first
      site's row, the second's row, the third's column and the fourth's
      column, each strictly inside the range. */
  predicate AllIn(sites: seq<SearchSite>, start: int, best: MV, b: Bounds)
    requires 0 <= start && start + 4 <= |sites|
  {
    && best.row + sites[start].mv.row > b.rowMin
    && best.row + sites[start + 1].mv.row < b.rowMax
    && best.col + sites[start + 2].mv.col > b.colMin
    && best.col + sites[start + 3].mv.col < b.colMax
  }

  /** On a ring whose first four sites bound the rest, passing the four
      `all_in` tests puts every site of the ring strictly inside. */
  lemma AllInRing(sites: seq<SearchSite>, start: int, sps: nat, best: MV, b: Bounds)
    requires RingBoundedByFirstFour(sites, start, sps) && AllIn(sites, start, best, b)
    ensures RingInside(sites, start, start + sps, best, b)
  {
  }

  /** Every site `lo .. hi - 1` of the table, around `best`, reaches a
      vector strictly inside the range. */
  predicate RingInside(sites: seq<SearchSite>, lo: int, hi: int, best: MV, b: Bounds)
  {
    0 <= lo && hi <= |sites| && forall k :: lo <= k < hi ==> StrictlyInside(Add(best, sites[k].mv), b)
  }

  lemma RingInsidePart(sites: seq<SearchSite>, lo: int, hi: int, lo2: int, hi2: int, best: MV, b: Bounds)
    requires RingInside(sites, lo, hi, best, b) && lo <= lo2 && hi2 <= hi
    ensures RingInside(sites, lo2, hi2, best, b)
  {
  }

  /** On a ring whose sites all reach vectors strictly inside, a group of
      four probed as the scalar loop would leaves the rest of the ring to
      probe. */
  lemma GroupThenRest(ctx: SearchContext, sites: seq<SearchSite>, base: int, before: DiamondState, after: DiamondState,
                      i: int, n: int)
    requires 0 <= base && 0 <= i && 4 <= n && base + i + n <= |sites|
    requires RingInside(sites, base + i, base + i + n, before.best, ctx.bounds)
    requires RingInside(sites, base + i, base + i + 4, before.best, ctx.bounds)
      ==> ProbeRing(ctx, sites, base, before, i, 4) == after
    ensures ProbeRing(ctx, sites, base, before, i, n) == ProbeRing(ctx, sites, base, after, i + 4, n - 4)
  {
    RingInsidePart(sites, base + i, base + i + n, base + i, base + i + 4, before.best, ctx.bounds);
    ProbeRingSplit(ctx, sites, base, before, i, 4, n - 4);
  }

  /** Each of the `totSteps` rings from `base` is bounded by its first four
      sites. */
  predicate RingsBounded(sites: seq<SearchSite>, base: int, sps: nat, totSteps: int)
  {
    forall step :: 0 <= step < totSteps ==> RingBoundedByFirstFour(sites, RingStart(base, step, sps), sps)
  }

  /** The table index of the first site of step `step`'s ring. */
  function RingStart(base: int, step: int, sps: int): int
  {
    base + 1 + step * sps
  }

  lemma RingStartNext(base: int, step: int, sps: int)
    ensures RingStart(base, step + 1, sps) == RingStart(base, step, sps) + sps
  {
    assert (step + 1) * sps == step * sps + sps;
  }

  /** Every ring a search from ring `search_param` reaches is bounded by its
      first four sites, on a table either builder makes. */
  lemma RingsBoundedFrom(sites: seq<SearchSite>, sps: nat, stride: int, searchParam: int, step: int)
    requires WellFormedLattice(sites, sps, stride) && searchParam >= 0
    requires 0 <= step < TotSteps(sites, sps, searchParam)
    ensures RingBoundedByFirstFour(sites, searchParam * sps + 1 + step * sps, sps)
  {
    DiamondStepCount(sites, sps, stride, searchParam);
    var s := searchParam + step;
    MulAddDistrib(searchParam, step, sps);
    LatticeRing(sites, sps, stride, s);
  }

  /** Ring `s` of a table either builder makes is bounded by its first four
      sites. */
  lemma LatticeRing(sites: seq<SearchSite>, sps: nat, stride: int, s: int)
    requires WellFormedLattice(sites, sps, stride) && 0 <= s < MAX_MVSEARCH_STEPS
    ensures RingBoundedByFirstFour(sites, 1 + s * sps, sps)
  {
  }

  lemma MulAddDistrib(a: int, b: int, c: int)
    ensures a * c + b * c == (a + b) * c
  {
  }

  /** One group of vp8_diamond_search_sadx4's `all_in` branch: sites
      `i0 .. i0 + 3` through `sdx4df`, with no range test; when the four
      sites reach vectors strictly inside, it is the scalar probe. */
  method ProbeGroup(cfg: SearchSiteConfig, ctx: SearchContext, base: int, st0: DiamondState, i0: int)
    returns (st: DiamondState)
    requires cfg.Valid() && 0 <= base && 0 <= i0 && base + i0 + 4 <= cfg.ssCount
    ensures st.best == st0.best && st.addr == st0.addr && st.lastSite == st0.lastSite && st.num00 == st0.num00
    ensures st.bestSite == st0.bestSite || i0 <= st.bestSite < i0 + 4
    ensures RingInside(cfg.Sites(), base + i0, base + i0 + 4, st0.best, ctx.bounds)
      ==> ProbeRing(ctx, cfg.Sites(), base, st0, i0, 4) == st
  {
    ghost var sites := cfg.Sites();
    ghost var inside := RingInside(sites, base + i0, base + i0 + 4, st0.best, ctx.bounds);
    var blockOffset := [cfg.ss[base + i0].offset + st0.addr, cfg.ss[base + i0 + 1].offset + st0.addr,
                        cfg.ss[base + i0 + 2].offset + st0.addr, cfg.ss[base + i0 + 3].offset + st0.addr];
    var sadArray := Sdx4d(ctx.fns, blockOffset);
    st := st0;
    var i := i0;
    var t := 0;
    while t < 4
      invariant 0 <= t <= 4 && i == i0 + t
      invariant st.best == st0.best && st.addr == st0.addr && st.lastSite == st0.lastSite && st.num00 == st0.num00
      invariant st.bestSite == st0.bestSite || i0 <= st.bestSite < i
      invariant inside ==> ProbeRing(ctx, sites, base, st0, i0, 4) == ProbeRing(ctx, sites, base, st, i, 4 - t)
    {
      var site := cfg.ss[base + i];
      assert site == sites[base + i];
      assert blockOffset[t] == site.offset + st.addr;
      if inside {
        assert StrictlyInside(Add(st.best, site.mv), ctx.bounds);
        ProbeRingStep(ctx, sites, base, st, i, 4 - t);
      }
      st := ProbeBatchedSite(ctx, site, st, i, sadArray[t]);
      t := t + 1;
      i := i + 1;
    }
  }

  /** All rings a search from ring `search_param` reaches are bounded by
      their first four sites, on a table either builder makes. */
  lemma LatticeRingsBounded(sites: seq<SearchSite>, sps: nat, stride: int, searchParam: int)
    requires WellFormedLattice(sites, sps, stride) && searchParam >= 0
    ensures RingsBounded(sites, searchParam * sps, sps, TotSteps(sites, sps, searchParam))
  {
    forall step | 0 <= step < TotSteps(sites, sps, searchParam)
      ensures RingBoundedByFirstFour(sites, RingStart(searchParam * sps, step, sps), sps)
    {
      RingsBoundedFrom(sites, sps, stride, searchParam, step);
    }
  }

  /** The `all_in` branch of vp8_diamond_search_sadx4: the step's sites in
      groups of four; when every site of the ring reaches a vector strictly
      inside, it is the scalar probe loop. */
  method ProbeStepAllIn(cfg: SearchSiteConfig, ctx: SearchContext, base: int, st0: DiamondState, i0: int, sps: int)
    returns (st: DiamondState)
    requires cfg.Valid() && 0 <= base && 0 <= i0 && sps >= 0 && sps % 4 == 0 && base + i0 + sps <= cfg.ssCount
    ensures st.best == st0.best && st.addr == st0.addr && st.lastSite == st0.lastSite && st.num00 == st0.num00
    ensures st.bestSite == st0.bestSite || i0 <= st.bestSite < i0 + sps
    ensures RingInside(cfg.Sites(), base + i0, base + i0 + sps, st0.best, ctx.bounds)
      ==> ProbeRing(ctx, cfg.Sites(), base, st0, i0, sps) == st
  {
    ghost var sites := cfg.Sites();
    ghost var inside := RingInside(sites, base + i0, base + i0 + sps, st0.best, ctx.bounds);
    ghost var groups := sps / 4;
    assert sps == 4 * groups;
    st := st0;
    var i := i0;
    var j := 0;
    ghost var g := 0;
    while j < sps
      invariant 0 <= g <= groups && j == 4 * g && i == i0 + j
      invariant st.best == st0.best && st.addr == st0.addr && st.lastSite == st0.lastSite && st.num00 == st0.num00
      invariant st.bestSite == st0.bestSite || i0 <= st.bestSite < i
      invariant inside ==> ProbeRing(ctx, sites, base, st0, i0, sps) == ProbeRing(ctx, sites, base, st, i, sps - j)
    {
      ghost var before := st;
      st := ProbeGroup(cfg, ctx, base, st, i);
      if inside {
        RingInsidePart(sites, base + i0, base + i0 + sps, base + i, base + i + (sps - j), st0.best, ctx.bounds);
        GroupThenRest(ctx, sites, base, before, st, i, sps - j);
      }
      i := i + 4;
      j := j + 4;
      g := g + 1;
    }
  }

  /** One step of vp8_diamond_search_sadx4: `all_in` from the ring's
      first four sites, then the batched or the scalar probe loop, then the
      end of the step. On a ring bounded by its first four sites it is the
      scalar step. */
  method StepX4(cfg: SearchSiteConfig, ctx: SearchContext, base: int, st0: DiamondState, i: int, inWhat: int)
    returns (st: DiamondState)
    requires cfg.Valid() && cfg.searchesPerStep > 0 && cfg.searchesPerStep % 4 == 0
    requires 0 <= base && 0 <= st0.bestSite < i && base + i + cfg.searchesPerStep <= cfg.ssCount
    ensures 0 <= st.bestSite < i + cfg.searchesPerStep
    ensures RingBoundedByFirstFour(cfg.Sites(), base + i, cfg.searchesPerStep)
      ==> st == EndStep(cfg.Sites(), base, ProbeRing(ctx, cfg.Sites(), base, st0, i, cfg.searchesPerStep), inWhat)
  {
    ghost var sites := cfg.Sites();
    var sps := cfg.searchesPerStep;
    var allIn := st0.best.row + cfg.ss[base + i].mv.row > ctx.bounds.rowMin
      && st0.best.row + cfg.ss[base + i + 1].mv.row < ctx.bounds.rowMax
      && st0.best.col + cfg.ss[base + i + 2].mv.col > ctx.bounds.colMin
      && st0.best.col + cfg.ss[base + i + 3].mv.col < ctx.bounds.colMax;
    if allIn {
      if RingBoundedByFirstFour(sites, base + i, sps) {
        assert AllIn(sites, base + i, st0.best, ctx.bounds);
        AllInRing(sites, base + i, sps, st0.best, ctx.bounds);
      }
      st := ProbeStepAllIn(cfg, ctx, base, st0, i, sps);
    } else {
      st := ProbeStep(cfg, ctx, base, st0, i, sps);
    }
    st := FinishStep(cfg, base, st, inWhat);
  }

  /** The step loop of vp8_diamond_search_sadx4. On rings bounded by their
      first four sites it is the scalar step loop. */
  method RunStepsX4(cfg: SearchSiteConfig, ctx: SearchContext, base: int, st0: DiamondState, totSteps: int, inWhat: int)
    returns (st: DiamondState)
    requires cfg.Valid() && cfg.searchesPerStep > 0 && cfg.searchesPerStep % 4 == 0 && 0 <= base && st0.bestSite == 0
    requires 0 < totSteps ==> base + 1 + totSteps * cfg.searchesPerStep <= cfg.ssCount
    ensures RingsBounded(cfg.Sites(), base, cfg.searchesPerStep, totSteps)
      ==> st == Steps(ctx, cfg.Sites(), base, cfg.searchesPerStep, st0, 0, totSteps, inWhat)
  {
    ghost var sites := cfg.Sites();
    var sps := cfg.searchesPerStep;
    ghost var bounded := RingsBounded(sites, base, sps, totSteps);
    st := st0;
    var i := 1;
    var step := 0;
    while step < totSteps
      invariant 0 <= step && i == RingStart(0, step, sps) && 0 <= st.bestSite < i
      invariant bounded ==>
        Steps(ctx, sites, base, sps, st, step, totSteps, inWhat) == Steps(ctx, sites, base, sps, st0, 0, totSteps, inWhat)
      decreases totSteps - step
    {
      RingWithin(step, totSteps, sps);
      if bounded {
        assert RingBoundedByFirstFour(sites, RingStart(base, step, sps), sps);
      }
      st := StepX4(cfg, ctx, base, st, i, inWhat);
      RingStartNext(0, step, sps);
      i := i + sps;
      step := step + 1;
    }
  }

  /** vp8_diamond_search_sadx4 over the table `cfg` holds: on a table either
      builder makes, the same result as vp8_diamond_search_sad. */
  method DiamondSearchSadx4(cfg: SearchSiteConfig, ctx: SearchContext, ref8: MV, searchParam: int)
    returns (bestMv: MV, cost: int, num00: nat)
    requires cfg.Valid() && Searchable(cfg.Sites(), cfg.searchesPerStep, searchParam)
    requires cfg.searchesPerStep % 4 == 0
    ensures WellFormedLattice(cfg.Sites(), cfg.searchesPerStep, ctx.stride)
      ==> (bestMv, cost, num00) == Diamond(ctx, cfg.Sites(), cfg.searchesPerStep, ref8, searchParam)
  {
    ghost var sites := cfg.Sites();
    var sps := cfg.searchesPerStep;
    var st, inWhat := StartSearch(ctx, ref8);

    var base := searchParam * sps;
    var totSteps := cfg.ssCount / sps - searchParam;
    TableCoversSteps(sites, sps, searchParam);
    if WellFormedLattice(sites, sps, ctx.stride) {
      LatticeRingsBounded(sites, sps, ctx.stride, searchParam);
    }
    st := RunStepsX4(cfg, ctx, base, st, totSteps, inWhat);
    bestMv := st.best;
    num00 := st.num00;
    if st.sad == INT_MAX {
      cost := INT_MAX;
    } else {
      cost := ctx.fns.vf(st.addr).value + MvErrCost(ToEighths(st.best), ctx.center, ctx.mvCost, ctx.errorPerBit);
    }
  }
}
