# VP8 motion search, sub-pixel prediction and block addressing

This project models the motion-estimation and inter-prediction core of a
VP8 video encoder, written in C with OpenCL offload hooks, and proves
properties of that model in Dafny:

- **Motion-vector rate costs.** `vp8_mv_bit_cost`, `mv_err_cost` and
  `mvsad_err_cost` look up the cost tables and scale by a weight.
- **Search-site lattices.** The diamond builder makes 4 sites per step;
  the three-step builder makes 8. Both halve the step from 128 over 8 steps.
- **Whole-pixel searches.** These are the exhaustive window search (and its
  x3/x8 batched variants), the diamond search (and x4), the hexagon search,
  and the refining search (and x4).
- **Sub-pixel refiners.** These are the iterative quarter-pel refiner, the
  half-then-quarter step refiner, and the half-pel-only refiner.
- **Sub-pixel interpolation filters.** These are the six-tap and bilinear
  tables, their two-pass implementations and the 4x4, 8x8, 8x4 and 16x16
  predictors. The block variation measure is included.
- **Inter-prediction builders.** These are the block copies, the 4x4, 8x8
  and 8x4 predictor builders, and the block plan of a split macroblock.
- **Macroblock block addressing.** This covers `setup_block`,
  `setup_macroblock`, `vp8_setup_block_dptrs` and `vp8_build_block_doffsets`.

How the model is stated:

- Pixels are bytes in Dafny arrays.
- Motion vectors are pairs of unbounded integers.
- Each SAD, variance and sub-pixel variance primitive is a function-valued
  field of `MotionVectors.VarianceFns`. It takes the address of the block it
  measures and returns an arbitrary value, so every search is proved for
  every possible metric.
- Each search is an imperative method proved equal to a specification
  function: a fold over the search's rounds. Lemmas then state what that
  function achieves: where the result can lie, that it is no worse than the
  start, local minimality, how far it can move, and the round counts.
- The filter and copy routines are methods over arrays. They are proved to
  write exactly the destination block, with each sample equal to a closed-form
  two-dimensional filter definition.
- The block-addressing routines are methods on `Blockd` and `Macroblockd`
  classes. They are proved to leave each block's fields equal to a function of
  the old fields and the block number.

Constants taken from headers that are not part of this model:

| name | value |
|---|---|
| MAX_FIRST_STEP | 128 |
| MAX_MVSEARCH_STEPS | 8 |
| MAX_FULL_PEL_VAL | 255 |
| mvlong_width | 10 |
| INT_MAX | 0x7fffffff |

Behaviour of the code that is easy to misread:

- **Iterative refiner, loop counts.** `while (--halfiters)` and
  `while (--quarteriters)` start from 4, so each phase runs at most three
  crosses (`SubpelSearch.IterPhase`).
- **Iterative refiner, range check.** The MAX_FULL_PEL_VAL check comes after
  the search and tests the result; the start is not tested
  (`SubpelSearch.Iterative`).
- **Iterative refiner, rate cost.** Its rate cost uses `ref_mv >> 1` as the
  origin. That equals `mv_err_cost` only for an even `ref_mv`
  (`SubpelSearch.MvcIsErrCost`).
- **Half-pel refiner.** It probes all four diagonals; the one-diagonal
  variant is disabled in the code.

## Model

| member | source | states |
|---|---|---|
| MvCost.MvBitCost | vp8/encoder/mcomp.c:24-31 | the weighted table cost of a vector difference (halved), shifted right by 7, is never negative |
| MvCost.MvErrCost | vp8/encoder/mcomp.c:33-38 | the rounded error cost of a vector difference (halved) is never negative |
| MvCost.MvSadErrCost | vp8/encoder/mcomp.c:40-46 | the rounded SAD cost of a whole-pel vector difference is never negative |
| MvCost.CostsTranslationInvariant | vp8/encoder/mcomp.c:24-46 | all three costs depend only on mv - ref: moving both by the same delta changes nothing |
| MvCost.ZeroWeightIsFree | vp8/encoder/mcomp.c:24-46 | with weight (error_per_bit) 0 every cost is 0 |
| MvCost.ErrCostMonotoneInWeight | vp8/encoder/mcomp.c:24-46 | every cost is monotone in its weight |
| MotionVectors.Sdx3 | vp8/encoder/mcomp.c:1452-1458 | the x3 batch yields the scalar SAD at three consecutive columns |
| MotionVectors.Sdx8 | vp8/encoder/mcomp.c:1584-1592 | the x8 batch yields the scalar SAD at eight consecutive columns, kept in 16 bits (`unsigned short sad_array8`) |
| MotionVectors.Sdx8Exact | vp8/encoder/mcomp.c:1584-1592 | when every SAD fits in 16 bits the x8 batch equals the scalar SAD |
| MotionVectors.Sdx4d | vp8/encoder/mcomp.c:1210-1219 | the x4 batch yields the scalar SAD at four arbitrary addresses |
| MotionVectors.AddrShift | vp8/encoder/mcomp.c:1077-1088 | moving a vector by d moves its block address by d.row * stride + d.col |
| SearchCost.SadCost | vp8/encoder/mcomp.c:1090-1096 | a vector's search score is its SAD plus the non-negative SAD rate cost from the full-pel centre, hence at least the SAD |
| SearchCost.FinalCost | vp8/encoder/mcomp.c:1124-1125 | the returned value is the variance plus a non-negative rate cost, hence at least the variance |
| SearchCost.Consider | vp8/encoder/mcomp.c:1090-1101 | a probe replaces the best exactly when its score is strictly lower (both directions), and the new best is that probe, scored |
| SearchCost.GuardedStart | vp8/encoder/mcomp.c:1061-1069 | the start is scored only when strictly inside the legal range, otherwise it carries INT_MAX |
| SearchLattice.SearchSiteConfig.InitDsMotionCompensation | vp8/encoder/mcomp.c:48-94 | the table holds 33 sites (centre then 8 rings of 4 axial points at 128, 64, ... 1), 4 per step, offsets row * stride + col |
| SearchLattice.SearchSiteConfig.Init3sMotionCompensation | vp8/encoder/mcomp.c:96-166 | the table holds 65 sites (centre then 8 square rings of 8 points), 8 per step |
| SearchLattice.DiamondLatticeShape | vp8/encoder/mcomp.c:48-94 | the diamond table has 33 sites, site 0 is the zero vector, and ring s is the axial ring of length 128 >> s |
| SearchLattice.ThreeStepLatticeShape | vp8/encoder/mcomp.c:96-166 | the three-step table has 65 sites, site 0 is the zero vector, and ring s is the square ring of length 128 >> s |
| SearchLattice.DiamondLatticeWellFormed | vp8/encoder/mcomp.c:48-94 | every diamond site's offset matches its vector and each ring is bounded by its first four sites |
| SearchLattice.ThreeStepLatticeWellFormed | vp8/encoder/mcomp.c:96-166 | the same for the three-step table, whose first four sites per ring are up, down, left, right |
| SearchLattice.FirstStepHalvings | vp8/encoder/mcomp.c:58-91 | halving 128 gives exactly MAX_MVSEARCH_STEPS positive step lengths |
| SearchLattice.NextAxialRing | vp8/encoder/mcomp.c:64-91 | one pass of the builder's loop appends the four axial sites of `Len` and leaves the rings of `Len / 2` to follow |
| SearchLattice.NextSquareRing | vp8/encoder/mcomp.c:106-163 | one pass of the three-step loop appends eight sites of `Len` and leaves the rings of `Len / 2` to follow |
| FullSearch.SearchWindowIsClippedBox | vp8/encoder/mcomp.c:1310-1356 | a vector is scanned exactly when it is within distance of the reference and inside the clipped legal range (both directions) |
| FullSearch.WindowClip | vp8/encoder/mcomp.c:1336-1348 | the clipping written in the search yields that window |
| FullSearch.FullSearchFinds | vp8/encoder/mcomp.c:1288-1382 | the result is the reference with its guarded score, or a window vector strictly better; no window vector scores lower; on ties the first in raster order wins |
| FullSearch.FullSearchFindsUniqueMinimum | vp8/encoder/mcomp.c:1350-1374 | a strict unique minimum of the window below the start is the vector found |
| FullSearch.FullSearchEmptyWindow | vp8/encoder/mcomp.c:1326-1381 | with an empty window and an unscored reference the search returns the reference and INT_MAX |
| FullSearch.FullSearchSad | vp8/encoder/mcomp.c:1288-1382 | the scan returns exactly the full-search specification |
| FullSearch.FullSearchSadx3 | vp8/encoder/mcomp.c:1384-1513 | the 3-column batched scan with its SAD precheck returns the same as the scalar search |
| FullSearch.FullSearchSadx8 | vp8/encoder/mcomp.c:1515-1673 | the 8-then-3-then-1-column scan returns the same as the scalar search when SADs fit in 16 bits |
| FullSearch.PrecheckStep | vp8/encoder/mcomp.c:1460-1472 | comparing the SAD alone first and adding the rate cost only when it could win yields the same best as comparing the full score |
| DiamondSearch.DiamondFinds | vp8/encoder/mcomp.c:1007-1126 | the result is `ref_mv >> 3` with its guarded score, or a scored vector strictly inside the range and strictly better; INT_MAX is returned exactly when the score stayed INT_MAX (or the final cost is INT_MAX) |
| DiamondSearch.DiamondNum00 | vp8/encoder/mcomp.c:1071-1118 | `*num00` is at most `tot_steps`, and when it reaches it the start is returned |
| DiamondSearch.DiamondStepCount | vp8/encoder/mcomp.c:1071 | on the builders' tables the search runs MAX_MVSEARCH_STEPS - search_param steps |
| DiamondSearch.EndStep | vp8/encoder/mcomp.c:1107-1115 | a step moves to its best site, or counts a `num00` exactly when no site improved and the address is the start's |
| DiamondSearch.PrecheckProbe | vp8/encoder/mcomp.c:1088-1101 | the SAD-first comparison with a late rate cost picks the same as comparing full scores |
| DiamondSearch.DiamondSearchSad | vp8/encoder/mcomp.c:1007-1126 | the step loop returns exactly the diamond specification (vector, value, num00) |
| DiamondSearch.AllInRing | vp8/encoder/mcomp.c:1197-1208 | when the first four sites of a ring pass the range test, every site of the ring is strictly inside |
| DiamondSearch.LatticeRingsBounded | vp8/encoder/mcomp.c:1195-1208 | on the builders' tables every ring the search reaches is bounded by its first four sites |
| DiamondSearch.DiamondSearchSadx4 | vp8/encoder/mcomp.c:1128-1286 | on a table whose rings are bounded by their first four sites the x4 search equals the scalar search |
| HexSearch.NextDirection | vp8/encoder/mcomp.c:950-952 | the updated direction k stays in 0..5 |
| HexSearch.NextDirectionIsMove | vp8/encoder/mcomp.c:948-952 | the update is (k + 5 + best_site) mod 6, and the point moved to is hexagon point k |
| HexSearch.NextChkptsFollowHex | vp8/encoder/mcomp.c:826-834 | row k of next_chkpts lists hexagon points k+5, k+6, k+7 (mod 6) |
| HexSearch.CheckBoundsCoversPattern | vp8/encoder/mcomp.c:795-811 | when CHECK_BOUNDS(range) holds, every pattern point within that reach passes CHECK_POINT |
| HexSearch.ProbePattern | vp8/encoder/mcomp.c:886-905 | a round keeps its best or picks a later point with a strictly lower score |
| HexSearch.HexFinds | vp8/encoder/mcomp.c:851-1002 | the result is the start or a legal vector strictly better; its score is its SAD cost; the value is variance plus rate cost there |
| HexSearch.HexLocalMinimum | vp8/encoder/mcomp.c:956-993 | the search stops where no legal neighbour scores lower, unless all 32 neighbour rounds moved |
| HexSearch.HexReach | vp8/encoder/mcomp.c:880-993 | the result lies within 2 + 2 * 126 + 32 pixels of the start along each axis |
| HexSearch.RoundsStop | vp8/encoder/mcomp.c:916-954 | rounds that only move downhill end at a round that stays, or each moved round lowered the score |
| HexSearch.StayIsNeighborMinimum | vp8/encoder/mcomp.c:986-987 | a neighbour round that breaks is at a neighbour minimum |
| HexSearch.ProbeRound | vp8/encoder/mcomp.c:919-942 | CHECK_BOUNDS once, then either branch, gives the round specification |
| HexSearch.PatternRounds | vp8/encoder/mcomp.c:916-954 | the rounds j = 1..126 compute the pattern phase |
| HexSearch.NeighborRounds | vp8/encoder/mcomp.c:956-993 | the rounds j = 0..31 compute the neighbour phase |
| HexSearch.HexSearchSad | vp8/encoder/mcomp.c:851-1002 | the search returns exactly the hexagon specification |
| RefiningSearch.NeighborsAreUnitSteps | vp8/encoder/mcomp.c:1680 | each neighbour is one unit along one axis |
| RefiningSearch.RoundPicksLowest | vp8/encoder/mcomp.c:1702-1740 | a round stays, or moves to a strictly-inside neighbour strictly better, scoring no more than any strictly-inside neighbour |
| RefiningSearch.RefineWalk | vp8/encoder/mcomp.c:1702-1740 | at most search_range rounds move, the result is within that many unit steps, and each move lowers the score by at least 1 |
| RefiningSearch.RefineStops | vp8/encoder/mcomp.c:1732-1739 | the search ends at a local minimum over its four neighbours unless every round moved |
| RefiningSearch.RefiningResult | vp8/encoder/mcomp.c:1675-1750 | the new ref_mv is the start or a strictly better legal vector within search_range; INT_MAX when the score is INT_MAX, else at least the variance |
| RefiningSearch.ProbeRound | vp8/encoder/mcomp.c:1706-1729 | the scalar neighbour loop computes one round |
| RefiningSearch.X4Addresses | vp8/encoder/mcomp.c:1789-1798 | the four addresses handed to sdx4df are those of the four neighbours |
| RefiningSearch.ProbeRoundX4 | vp8/encoder/mcomp.c:1779-1847 | the batched round (all-in or per-point) computes the same round |
| RefiningSearch.RefiningSearchSad | vp8/encoder/mcomp.c:1675-1750 | the search returns exactly the refining specification |
| RefiningSearch.RefiningSearchSadx4 | vp8/encoder/mcomp.c:1752-1863 | the x4 search returns exactly the same as the scalar refining search |
| SubpelSearch.OrStepsBack | vp8/encoder/mcomp.c:400-460 | on a whole-pel vector, (x - 8) \| 4 is x - 4 and (x - 8) \| 6 is x - 2 |
| SubpelSearch.OrKeepsHalf | vp8/encoder/mcomp.c:740-770 | on a vector 4 modulo 8, (x - 8) \| 4 is x - 8 |
| SubpelSearch.SubpelBlock | vp8/encoder/mcomp.c:170-172 | an eighth-pel vector reads the whole-pel block at mv >> 3 at phase mv & 7 |
| SubpelSearch.QuarterIsCanonical | vp8/encoder/mcomp.c:170-172 | DIST at quarter-pel (r, c) is the sub-pixel variance at eighth-pel (2r, 2c) |
| SubpelSearch.MvcIsErrCost | vp8/encoder/mcomp.c:169 | MVC equals mv_err_cost of the eighth-pel vector when ref_mv is even |
| SubpelSearch.Take | vp8/encoder/mcomp.c:175 | CHECK_BETTER replaces the best only with an in-clamp probe strictly lower |
| SubpelSearch.CrossLowest | vp8/encoder/mcomp.c:220-241 | a cross leaves a best no worse than any of its four axis points |
| SubpelSearch.PhaseImproves | vp8/encoder/mcomp.c:217-249 | a phase of crosses never raises the error, and ends at the start or at a scored vector strictly better |
| SubpelSearch.PhaseNear | vp8/encoder/mcomp.c:217-249 | n crosses at distance h stay within h * n |
| SubpelSearch.IterativeFacts | vp8/encoder/mcomp.c:181-294 | the result is within 18 eighth pels; INT_MAX if uncodable; otherwise an error no higher than the centre's, the score of the returned vector |
| SubpelSearch.IterCross | vp8/encoder/mcomp.c:220-241 | one loop body is one cross over the clamped quarter-pel scores |
| SubpelSearch.IterPhase | vp8/encoder/mcomp.c:217-249 | one while loop is a phase of at most three crosses |
| SubpelSearch.FindBestSubPixelStepIteratively | vp8/encoder/mcomp.c:181-294 | the method returns exactly the iterative specification (vector, error, distortion, sse) |
| SubpelSearch.SubPixelStepFacts | vp8/encoder/mcomp.c:303-613 | an uncodable start is trapped; otherwise an error no higher than the centre's, within 6 eighth pels, the score of the vector returned |
| SubpelSearch.FindBestSubPixelStep | vp8/encoder/mcomp.c:303-613 | the trap is exact; with phase-consistent primitives the method equals the step specification |
| SubpelSearch.HalfPixelStepTrap | vp8/encoder/mcomp.c:631-639 | an uncodable start returns it in eighth pel with INT_MAX |
| SubpelSearch.HalfPixelStepImproves | vp8/encoder/mcomp.c:641-794 | otherwise the error is no higher than the centre's and the vector is within 4 eighth pels of the start |
| SubpelSearch.HalfPixelStepLowest | vp8/encoder/mcomp.c:651-790 | the error is no higher than that of any of the eight half-pel points |
| SubpelSearch.FindBestHalfPixelStep | vp8/encoder/mcomp.c:615-794 | the trap is exact; with phase-consistent primitives the method equals the half-step specification |
| SubpelFilters.SixTapRowsSumToWeight | vp8/common/opencl/filter_cl.c:69-83 | every six-tap row sums to 128 |
| SubpelFilters.BilinearRowsSumToWeight | vp8/common/opencl/filter_cl.c:56-66 | every bilinear row sums to 128 with non-negative taps |
| SubpelFilters.SixTap | vp8/common/opencl/filter_cl.c:123-133 | a six-tap sample is clamped to 0..255 |
| SubpelFilters.SixTapPhaseZero | vp8/common/opencl/filter_cl.c:69-83 | phase 0 reproduces the centre pixel |
| SubpelFilters.SrcOffsetIsRowCol | vp8/common/opencl/filter_cl.c:119-122 | the input position of output i is row i / w times the stride plus column i % w |
| SubpelFilters.OutOffsetIsRowCol | vp8/common/opencl/filter_cl.c:172-176 | the output position of output i is row i / w, column i % w of the destination |
| SubpelFilters.FirstPass | vp8/common/opencl/filter_cl.c:87-137 | every output of the first pass is the six-tap of its input context; nothing else is written |
| SubpelFilters.SecondPass | vp8/common/opencl/filter_cl.c:139-192 | every output of the second pass lands at its row and column; nothing outside the block is written |
| SubpelFilters.TwoPassesAreSixtap2D | vp8/common/opencl/filter_cl.c:195-212 | the two passes through scratch rows compose to the separable six-tap prediction |
| SubpelFilters.Sixtap2DProperties | vp8/common/opencl/filter_cl.c:195-212 | the prediction is a pixel; with both phases 0 it is the source pixel |
| SubpelFilters.FilterBlock2d | vp8/common/opencl/filter_cl.c:195-212 | the destination block holds the six-tap prediction; nothing else changes |
| SubpelFilters.SixtapPredict4x4 | vp8/common/opencl/filter_cl.c:239-256 | the 4x4 block holds the six-tap prediction at (xoffset, yoffset) |
| SubpelFilters.SixtapPredict8x8 | vp8/common/opencl/filter_cl.c:258-282 | the 8x8 block holds the six-tap prediction |
| SubpelFilters.SixtapPredict8x4 | vp8/common/opencl/filter_cl.c:284-308 | the 8x4 block holds the six-tap prediction |
| SubpelFilters.SixtapPredict16x16 | vp8/common/opencl/filter_cl.c:310-334 | the 16x16 block holds the six-tap prediction |
| SubpelFilters.BilTapInRange | vp8/common/opencl/filter_cl.c:375-393 | a bilinear sample of two pixels is a pixel |
| SubpelFilters.BilTapPhaseZero | vp8/common/opencl/filter_cl.c:56-66 | phase 0 reproduces the first pixel |
| SubpelFilters.BilFirstPass | vp8/common/opencl/filter_cl.c:365-393 | every first-pass output is the bilinear sample of its two inputs |
| SubpelFilters.BilSecondPass | vp8/common/opencl/filter_cl.c:423-454 | every second-pass output is the bilinear sample of two scratch rows, at its position |
| SubpelFilters.BilPassesAreBilinear2D | vp8/common/opencl/filter_cl.c:477-497 | the two bilinear passes compose to the separable bilinear prediction |
| SubpelFilters.Bilinear2DProperties | vp8/common/opencl/filter_cl.c:477-497 | the prediction is a pixel; with both phases 0 it is the source pixel |
| SubpelFilters.FilterBlock2dBil | vp8/common/opencl/filter_cl.c:477-497 | the destination block holds the bilinear prediction; nothing else changes |
| SubpelFilters.BilinearPredict4x4 | vp8/common/opencl/filter_cl.c:500-518 | the 4x4 block holds the bilinear prediction |
| SubpelFilters.BilinearPredict8x8 | vp8/common/opencl/filter_cl.c:520-538 | the 8x8 block holds the bilinear prediction |
| SubpelFilters.BilinearPredict8x4 | vp8/common/opencl/filter_cl.c:540-558 | the 8x4 block holds the bilinear prediction |
| SubpelFilters.BilinearPredict16x16 | vp8/common/opencl/filter_cl.c:560-577 | the 16x16 block holds the bilinear prediction |
| SubpelFilters.FirstPassTapWraps | vp8/common/opencl/filter_cl.c:119-128 | at i = 0 the unsigned src_offset - PS2 is 0xFFFFFFFE, not -2, and lands outside any buffer shorter than 4 GiB |
| SubpelFilters.FirstPassTapAgrees | vp8/common/opencl/filter_cl.c:119-128 | once src_offset >= 2 * pixel_step the unsigned and signed positions agree |
| SubpelFilters.BlockVariation | vp8/common/opencl/filter_cl.c:215-236 | HVar and VVar grow by the sums of absolute horizontal and vertical neighbour differences of the 4x4 block |
| SubpelFilters.VariationBounds | vp8/common/opencl/filter_cl.c:215-236 | each total grows by between 0 and 255 per difference |
| SubpelFilters.FlatBlockHasNoVariation | vp8/common/opencl/filter_cl.c:215-236 | a flat block adds no variation |
| PixelBlocks.CopyBlock | vp8/common/opencl/reconinter_cl.c:45-150 | every sample of the block is copied and nothing outside it is written |
| ReconInter.CopyMem16x16 | vp8/common/opencl/reconinter_cl.c:45-89 | the 16x16 destination block equals the source block; nothing else changes |
| ReconInter.CopyMem8x8 | vp8/common/opencl/reconinter_cl.c:92-120 | the 8x8 destination block equals the source block |
| ReconInter.CopyMem8x4 | vp8/common/opencl/reconinter_cl.c:122-150 | the 8x4 destination block equals the source block |
| ReconInter.PredictedProperties | vp8/common/opencl/filter_cl.c:239-577 | every predicted sample of either filter is a pixel, and at phase (0, 0) it is the source pixel |
| ReconInter.SubpixelPredict | vp8/common/opencl/filter_cl.c:239-577 | the installed predictor fills its block with the filter's prediction |
| ReconInter.CopyIsPhaseZeroPrediction | vp8/common/opencl/reconinter_cl.c:167-190 | on a whole-pel vector the copy branch gives the same samples as the filter at phase 0 |
| ReconInter.BuildInterPredictorsB | vp8/common/opencl/reconinter_cl.c:154-193 | the 4x4 predictor holds the block's prediction from mv >> 3 at phase mv & 7, a plain copy on whole-pel vectors |
| ReconInter.BuildInterPredictors4b | vp8/common/opencl/reconinter_cl.c:195-220 | the same for the 8x8 prediction |
| ReconInter.BuildInterPredictors2b | vp8/common/opencl/reconinter_cl.c:222-242 | the same for the 8x4 prediction of a pair of blocks |
| ReconInter.BuildInterPredictorsBS | vp8/common/opencl/reconinter_cl.c:442-479 | the same written straight to the destination at dst_stride |
| ReconInter.BbbQuadrants | vp8/common/opencl/reconinter_cl.c:41 | bbb names the first block of each 8x8 quadrant, and each Y block lies in exactly one quadrant |
| ReconInter.PairPlanCoversOnce | vp8/common/opencl/reconinter_cl.c:396-426 | the pair rule writes each block of its range exactly once |
| ReconInter.PairPlanPairIff | vp8/common/opencl/reconinter_cl.c:298-304 | blocks i and i + 1 are predicted together as 8x4 exactly when their vectors are equal (both directions) |
| ReconInter.QuadrantPlanCoversOnce | vp8/common/opencl/reconinter_cl.c:386-393 | the four 8x8 predictions at bbb write each Y block exactly once |
| ReconInter.SplitPlanCoversOnce | vp8/common/opencl/reconinter_cl.c:382-428 | a split macroblock's plan writes each of the 24 Y, U and V blocks exactly once |
| MbPitch.SetupBlock | vp8/common/mbpitch.c:26-50 | DEST records stride, offset and base in the dst fields, PRED in the pre fields; nothing else changes |
| MbPitch.SetupMacroblock | vp8/common/mbpitch.c:53-86 | blocks 0..23 are addressed in their plane at its stride at their grid offset; block 24 is untouched |
| MbPitch.BuildBlockDoffsets | vp8/common/mbpitch.c:193-198 | every block is addressed in DEST then PRED, so pre and dst share offset, stride and plane |
| MbPitch.FrameOffsetIsBlockCorner | vp8/common/mbpitch.c:72-85 | a block's offset is the sample at its block-grid corner; V blocks take the offsets of the U blocks |
| MbPitch.FrameAreasDisjoint | vp8/common/mbpitch.c:72-85 | two blocks of one plane never share a frame sample when the strides are wide enough |
| MbPitch.SetupBlockDptrs | vp8/common/mbpitch.c:89-191 | blocks 0..23 point into the predictor at their offset; every block gets coefficients at 16 * r and eob r |
| MbPitch.PredictorOffsetTable | vp8/common/mbpitch.c:117-159 | Y offsets are r * 64 + c * 4 below 256, U from 256 and V from 320 at pitch 8 |
| MbPitch.LumaPredictorOffset | vp8/common/mbpitch.c:118-129 | the Y loop's offset r * 4 * 16 + c * 4 is block r * 4 + c's predictor offset |
| MbPitch.ChromaPredictorOffset | vp8/common/mbpitch.c:131-159 | the U and V loops' offsets are their blocks' predictor offsets |
| MbPitch.PredictorPosRange | vp8/common/mbpitch.c:117-159 | each block's 4x4 area lies within its plane's part of the 384-sample predictor |
| MbPitch.PredictorPosInjective | vp8/common/mbpitch.c:117-159 | the 24 predictor areas never overlap |
| MbPitch.PredictorOffsetsDistinct | vp8/common/mbpitch.c:117-159 | distinct blocks have distinct predictor offsets |

## Left out

- OpenCL command queues, `CL_FINISH` barriers, `cl_initialized` branches,
  offload buffers and the `sixtap_filter` switch are not modelled. They
  choose where the same arithmetic runs, not what it computes.
- vp8_opencl.h and idctllm_cl.h are not part of this model.
- `ENTROPY_STATS` counting and the mode-context printing in mcomp.c are not
  modelled; they only gather statistics.
- The SAD, variance and sub-pixel variance primitives are left abstract. The
  source calls them through function pointers whose bodies lie elsewhere.
- The early-out bound passed to `sdf` is ignored. A primitive that stops
  early returns some value above the bound, and the model treats it as the
  full SAD.
- The `MUST_BE_ALIGNED` copy variant and the 32-bit word copies are modelled
  as byte-by-byte copies with the same result.
- Costs and scores are unbounded integers. The model does not capture a
  32-bit overflow of a cost sum, nor the unsigned `bestsad` of the hexagon
  search, which starts at 0x7fffffff.
- `vp8_build_inter_predictors_mb_cl`, `_mbuv_cl` and `_mb_s_cl` are not
  modelled as whole routines. Only the plan of which blocks a split
  macroblock predicts, and with which builder, is modelled
  (`ReconInter.SplitPlan`). The whole-macroblock 16x16 path is the same
  predictor and copy calls shown for the smaller sizes.
- The OpenCL predictor variants that take an extra `MACROBLOCKD` argument are
  the same arithmetic and are not modelled separately.
- FullSearch.FullSearchSadx8: equals the scalar search only when every SAD
  fits in 16 bits. Above that the source keeps the batched SADs in
  `unsigned short` and its result differs.
- DiamondSearch.DiamondSearchSadx4: proved equal to the scalar search only on
  tables whose rings are bounded by their first four sites, as the two
  builders produce. On other tables its `all_in` shortcut may probe outside
  the range.
- SubpelSearch.FindBestSubPixelStep: outside the trap, equals its
  specification only when the half-pel and whole-pel primitives agree with
  the sub-pixel variance at the same phase (`PhaseConsistent`).
- SubpelSearch.FindBestHalfPixelStep: the same condition as
  `FindBestSubPixelStep`.

## Findings

| source | as written | input that shows it | evidently intended | confidence | as-written member | corrected member |
|---|---|---|---|---|---|---|
| vp8/common/opencl/filter_cl.c:119-128 | `src_offset` is `unsigned int`, so `src_offset - PS2` wraps for the first outputs of a row block | i = 0 with pixel_step 1: the first tap is read at `src_ptr[0xFFFFFFFE]`, about 4 GiB past the block on LP64, instead of `src_ptr[-2]` | a signed offset, so the first tap is two samples before the output's position | not executed | SubpelFilters.FirstPassTapWraps | SubpelFilters.FirstPass |
