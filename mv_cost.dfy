/** The fixed-point rate costs of a motion vector (vp8/encoder/mcomp.c:24-46). */
module MvCost {
  import opened MotionVectors

  /** `bits * weight`, the weighted table sum, one unit of weight at a
      time: the recursion keeps the product a single term in proofs that
      only pass it along (WeightedIsProduct gives its value). */
  function Weighted(bits: int, weight: nat): (r: int)
    ensures bits >= 0 ==> r >= 0
  {
    if weight == 0 then 0 else Weighted(bits, weight - 1) + bits
  }

  lemma {:induction false} WeightedIsProduct(bits: int, weight: nat)
    ensures Weighted(bits, weight) == bits * weight
  {
    if weight > 0 {
      WeightedIsProduct(bits, weight - 1);
      assert bits * (weight - 1) + bits == bits * weight;
    }
  }

  /** vp8_mv_bit_cost: `mv` and `ref` in eighth pel, the tables in quarter
      pel, hence `>> 1`; weighted and shifted by 7. */
  function MvBitCost(mv: MV, ref: MV, t: CostTables, weight: nat): (r: int)
    ensures r >= 0
  {
    Weighted(t.row((mv.row - ref.row) / 2) + t.col((mv.col - ref.col) / 2), weight) / 128
  }

  /** mv_err_cost: the same table sum, scaled by `error_per_bit`, rounded
      and shifted by 8. */
  function MvErrCost(mv: MV, ref: MV, t: CostTables, errorPerBit: nat): (r: int)
    ensures r >= 0
  {
    (Weighted(t.row((mv.row - ref.row) / 2) + t.col((mv.col - ref.col) / 2), errorPerBit) + 128) / 256
  }

  /** mvsad_err_cost: whole-pixel vectors, so the tables are indexed by the
      difference itself. */
  function MvSadErrCost(mv: MV, ref: MV, t: CostTables, errorPerBit: nat): (r: int)
    ensures r >= 0
  {
    (Weighted(t.row(mv.row - ref.row) + t.col(mv.col - ref.col), errorPerBit) + 128) / 256
  }

  /** Translating both the vector and its reference by the same amount
      leaves every cost unchanged. */
  lemma CostsTranslationInvariant(mv: MV, ref: MV, delta: MV, t: CostTables, w: nat)
    ensures MvBitCost(Add(mv, delta), Add(ref, delta), t, w) == MvBitCost(mv, ref, t, w)
    ensures MvErrCost(Add(mv, delta), Add(ref, delta), t, w) == MvErrCost(mv, ref, t, w)
    ensures MvSadErrCost(Add(mv, delta), Add(ref, delta), t, w) == MvSadErrCost(mv, ref, t, w)
  {
    assert MV(Add(mv, delta).row - Add(ref, delta).row, Add(mv, delta).col - Add(ref, delta).col)
        == MV(mv.row - ref.row, mv.col - ref.col);
  }

  /** With zero weight a vector costs nothing but the rounding, which the
      shift removes. */
  lemma ZeroWeightIsFree(mv: MV, ref: MV, t: CostTables)
    ensures MvBitCost(mv, ref, t, 0) == 0
    ensures MvErrCost(mv, ref, t, 0) == 0
    ensures MvSadErrCost(mv, ref, t, 0) == 0
  {
  }

  /** The rate cost grows with the weight. */
  lemma {:induction false} ErrCostMonotoneInWeight(mv: MV, ref: MV, t: CostTables, w1: nat, w2: nat)
    requires w1 <= w2
    ensures MvErrCost(mv, ref, t, w1) <= MvErrCost(mv, ref, t, w2)
    ensures MvSadErrCost(mv, ref, t, w1) <= MvSadErrCost(mv, ref, t, w2)
    ensures MvBitCost(mv, ref, t, w1) <= MvBitCost(mv, ref, t, w2)
  {
    var s := t.row((mv.row - ref.row) / 2) + t.col((mv.col - ref.col) / 2);
    var s' := t.row(mv.row - ref.row) + t.col(mv.col - ref.col);
    WeightedIsProduct(s, w1);
    WeightedIsProduct(s, w2);
    WeightedIsProduct(s', w1);
    WeightedIsProduct(s', w2);
    MulMonotone(s, w1, w2);
    MulMonotone(s', w1, w2);
    DivMonotone(s * w1 + 128, s * w2 + 128, 256);
    DivMonotone(s' * w1 + 128, s' * w2 + 128, 256);
    DivMonotone(s * w1, s * w2, 128);
  }

  lemma MulMonotone(s: nat, w1: int, w2: int)
    requires w1 <= w2
    ensures s * w1 <= s * w2
  {
  }

  lemma DivMonotone(a: int, b: int, d: int)
    requires a <= b && d > 0
    ensures a / d <= b / d
  {
    var qa, qb := a / d, b / d;
    assert a == qa * d + a % d && 0 <= a % d < d;
    assert b == qb * d + b % d && 0 <= b % d < d;
    assert (qa - qb - 1) * d == qa * d - qb * d - d;
    NegativeFactor(qa - qb - 1, d);
  }

  lemma NegativeFactor(x: int, d: int)
    requires 0 < d && x * d < 0
    ensures x < 0
  {
  }
}
