/** The search-site tables of the diamond searches
    (vp8_init_dsmotion_compensation and vp8_init3smotion_compensation,
    vp8/encoder/mcomp.c:48-166): a centre site followed by one ring of 4
    (or 8) sites per step, the step length halving from MAX_FIRST_STEP. */
module SearchLattice {
  import opened MotionVectors

  /** A search site: a whole-pixel displacement and the matching byte offset
      in a reference buffer of the stride the table was built for. */
  datatype SearchSite = SearchSite(mv: MV, offset: int)

  /** Room for the largest table, `x->ss[(MAX_MVSEARCH_STEPS * 8) + 1]`. */
  const SS_CAPACITY: nat := MAX_MVSEARCH_STEPS * 8 + 1

  function Site(row: int, col: int, stride: int): SearchSite
  {
    SearchSite(MV(row, col), row * stride + col)
  }

  /** Site `t` of a ring of step length `len`: the axial four first (up,
      down, left, right), then the diagonals (up-left, up-right, down-left,
      down-right). */
  function RingSite(len: int, t: int, stride: int): SearchSite
  {
    if t == 0 then Site(-len, 0, stride)
    else if t == 1 then Site(len, 0, stride)
    else if t == 2 then Site(0, -len, stride)
    else if t == 3 then Site(0, len, stride)
    else if t == 4 then Site(-len, -len, stride)
    else if t == 5 then Site(-len, len, stride)
    else if t == 6 then Site(len, -len, stride)
    else Site(len, len, stride)
  }

  /** The four axial sites of one diamond step. */
  function AxialRing(len: int, stride: int): seq<SearchSite>
  {
    seq(4, t => RingSite(len, t, stride))
  }

  /** The eight sites of one three-step ring. */
  function SquareRing(len: int, stride: int): seq<SearchSite>
  {
    seq(8, t => RingSite(len, t, stride))
  }

  /** The rings for step lengths `len`, `len / 2`, ... down to 1. */
  function DiamondRings(len: int, stride: int): seq<SearchSite>
    decreases len
  {
    if len <= 0 then [] else AxialRing(len, stride) + DiamondRings(len / 2, stride)
  }

  function SquareRings(len: int, stride: int): seq<SearchSite>
    decreases len
  {
    if len <= 0 then [] else SquareRing(len, stride) + SquareRings(len / 2, stride)
  }

  /** The table `vp8_init_dsmotion_compensation` writes. */
  function DiamondLattice(stride: int): seq<SearchSite>
  {
    [Site(0, 0, stride)] + DiamondRings(MAX_FIRST_STEP, stride)
  }

  /** The table `vp8_init3smotion_compensation` writes. */
  function ThreeStepLattice(stride: int): seq<SearchSite>
  {
    [Site(0, 0, stride)] + SquareRings(MAX_FIRST_STEP, stride)
  }

  /** The number of halvings before a positive length reaches 0. */
  function NumSteps(len: int): nat
    decreases len
  {
    if len <= 0 then 0 else 1 + NumSteps(len / 2)
  }

  /** The step length after `j` halvings of `len`. */
  function Halve(len: int, j: nat): int
    decreases j
  {
    if j == 0 then len else Halve(len / 2, j - 1)
  }

  /** A site's offset is the address difference of its displacement. */
  predicate OffsetConsistent(s: SearchSite, stride: int)
  {
    s.offset == s.mv.row * stride + s.mv.col
  }

  predicate AllOffsetsConsistent(sites: seq<SearchSite>, stride: int)
  {
    forall k :: 0 <= k < |sites| ==> OffsetConsistent(sites[k], stride)
  }

  /** The first four sites of a ring starting at `start` are its extremes:
      every site of the ring lies in the row span of the first two and the
      column span of the next two. This is what lets the batched diamond
      search test four bounds instead of each site. */
  predicate RingBoundedByFirstFour(sites: seq<SearchSite>, start: int, sps: nat)
  {
    && 0 <= start && start + 4 <= |sites| && start + sps <= |sites|
    && forall k :: start <= k < start + sps ==>
      && sites[start].mv.row <= sites[k].mv.row <= sites[start + 1].mv.row
      && sites[start + 2].mv.col <= sites[k].mv.col <= sites[start + 3].mv.col
  }

  /** A table the diamond searches accept: a centre followed by rings of
      `sps` sites (4 or 8) whose first four bound the rest, offsets matching
      the stride. */
  predicate WellFormedLattice(sites: seq<SearchSite>, sps: nat, stride: int)
  {
    && (sps == 4 || sps == 8)
    && |sites| == 1 + MAX_MVSEARCH_STEPS * sps
    && AllOffsetsConsistent(sites, stride)
    && forall s :: 0 <= s < MAX_MVSEARCH_STEPS ==> RingBoundedByFirstFour(sites, 1 + s * sps, sps)
  }

  lemma {:induction false} DiamondRingsShape(len: int, stride: int)
    ensures |DiamondRings(len, stride)| == 4 * NumSteps(len)
    ensures forall j, t :: 0 <= j < NumSteps(len) && 0 <= t < 4 ==>
      DiamondRings(len, stride)[4 * j + t] == AxialRing(Halve(len, j), stride)[t]
    decreases len
  {
    if len > 0 {
      DiamondRingsShape(len / 2, stride);
      var rest := DiamondRings(len / 2, stride);
      forall j, t | 0 <= j < NumSteps(len) && 0 <= t < 4
        ensures DiamondRings(len, stride)[4 * j + t] == AxialRing(Halve(len, j), stride)[t]
      {
        if j > 0 {
          assert DiamondRings(len, stride)[4 * j + t] == rest[4 * (j - 1) + t];
        }
      }
    }
  }

  lemma {:induction false} SquareRingsShape(len: int, stride: int)
    ensures |SquareRings(len, stride)| == 8 * NumSteps(len)
    ensures forall j, t :: 0 <= j < NumSteps(len) && 0 <= t < 8 ==>
      SquareRings(len, stride)[8 * j + t] == SquareRing(Halve(len, j), stride)[t]
    decreases len
  {
    if len > 0 {
      SquareRingsShape(len / 2, stride);
      var rest := SquareRings(len / 2, stride);
      forall j, t | 0 <= j < NumSteps(len) && 0 <= t < 8
        ensures SquareRings(len, stride)[8 * j + t] == SquareRing(Halve(len, j), stride)[t]
      {
        if j > 0 {
          assert SquareRings(len, stride)[8 * j + t] == rest[8 * (j - 1) + t];
        }
      }
    }
  }

  /** The tables have 32 and 64 sites after the centre. */
  lemma RingsLength(stride: int)
    ensures |DiamondRings(MAX_FIRST_STEP, stride)| == 32
    ensures |SquareRings(MAX_FIRST_STEP, stride)| == 64
  {
    var d1 := DiamondRings(1, stride);
    var d2 := DiamondRings(2, stride);
    var d4 := DiamondRings(4, stride);
    var d8 := DiamondRings(8, stride);
    var d16 := DiamondRings(16, stride);
    var d32 := DiamondRings(32, stride);
    var d64 := DiamondRings(64, stride);
    assert |d1| == 4 && |d2| == 8 && |d4| == 12 && |d8| == 16;
    assert |d16| == 20 && |d32| == 24 && |d64| == 28;
    var s1 := SquareRings(1, stride);
    var s2 := SquareRings(2, stride);
    var s4 := SquareRings(4, stride);
    var s8 := SquareRings(8, stride);
    var s16 := SquareRings(16, stride);
    var s32 := SquareRings(32, stride);
    var s64 := SquareRings(64, stride);
    assert |s1| == 8 && |s2| == 16 && |s4| == 24 && |s8| == 32;
    assert |s16| == 40 && |s32| == 48 && |s64| == 56;
  }

  /** MAX_FIRST_STEP halves eight times: 128, 64, ..., 1. */
  lemma FirstStepHalvings()
    ensures NumSteps(MAX_FIRST_STEP) == MAX_MVSEARCH_STEPS
    ensures forall j :: 0 <= j < MAX_MVSEARCH_STEPS ==> Halve(MAX_FIRST_STEP, j) > 0
  {
    assert NumSteps(1) == 1;
    assert NumSteps(2) == 2;
    assert NumSteps(4) == 3;
    assert NumSteps(8) == 4;
    assert NumSteps(16) == 5;
    assert NumSteps(32) == 6;
    assert NumSteps(64) == 7;
    forall j | 0 <= j < MAX_MVSEARCH_STEPS
      ensures Halve(MAX_FIRST_STEP, j) > 0
    {
      HalvePositive(MAX_FIRST_STEP, j);
    }
  }

  /** Step `j` of a length that halves at least `j + 1` times is positive. */
  lemma {:induction false} HalvePositive(len: int, j: nat)
    requires j < NumSteps(len)
    ensures Halve(len, j) > 0
    decreases j
  {
    if j > 0 {
      HalvePositive(len / 2, j - 1);
    }
  }

  /** Every site `Site` builds has a consistent offset, so every ring does. */
  lemma {:induction false} DiamondRingsConsistent(len: int, stride: int)
    ensures AllOffsetsConsistent(DiamondRings(len, stride), stride)
    decreases len
  {
    if len > 0 {
      DiamondRingsConsistent(len / 2, stride);
      var r := DiamondRings(len, stride);
      forall k | 0 <= k < |r|
        ensures OffsetConsistent(r[k], stride)
      {
        if k >= 4 {
          assert r[k] == DiamondRings(len / 2, stride)[k - 4];
        }
      }
    }
  }

  lemma {:induction false} SquareRingsConsistent(len: int, stride: int)
    ensures AllOffsetsConsistent(SquareRings(len, stride), stride)
    decreases len
  {
    if len > 0 {
      SquareRingsConsistent(len / 2, stride);
      var r := SquareRings(len, stride);
      forall k | 0 <= k < |r|
        ensures OffsetConsistent(r[k], stride)
      {
        if k >= 8 {
          assert r[k] == SquareRings(len / 2, stride)[k - 8];
        }
      }
    }
  }

  /** A ring of non-negative length placed at `start` is bounded by its
      first four sites. */
  lemma AxialRingBounded(l: seq<SearchSite>, start: int, len: int, stride: int)
    requires len >= 0 && 0 <= start && start + 4 <= |l|
    requires forall t :: 0 <= t < 4 ==> l[start + t] == AxialRing(len, stride)[t]
    ensures RingBoundedByFirstFour(l, start, 4)
  {
    forall k | start <= k < start + 4
      ensures l[start].mv.row <= l[k].mv.row <= l[start + 1].mv.row
      ensures l[start + 2].mv.col <= l[k].mv.col <= l[start + 3].mv.col
    {
      assert l[start + (k - start)] == AxialRing(len, stride)[k - start];
      assert l[start + 0] == AxialRing(len, stride)[0];
      assert l[start + 1] == AxialRing(len, stride)[1];
      assert l[start + 2] == AxialRing(len, stride)[2];
      assert l[start + 3] == AxialRing(len, stride)[3];
    }
  }

  lemma SquareRingBounded(l: seq<SearchSite>, start: int, len: int, stride: int)
    requires len >= 0 && 0 <= start && start + 8 <= |l|
    requires forall t :: 0 <= t < 8 ==> l[start + t] == SquareRing(len, stride)[t]
    ensures RingBoundedByFirstFour(l, start, 8)
  {
    forall k | start <= k < start + 8
      ensures l[start].mv.row <= l[k].mv.row <= l[start + 1].mv.row
      ensures l[start + 2].mv.col <= l[k].mv.col <= l[start + 3].mv.col
    {
      assert l[start + (k - start)] == SquareRing(len, stride)[k - start];
      assert l[start + 0] == SquareRing(len, stride)[0];
      assert l[start + 1] == SquareRing(len, stride)[1];
      assert l[start + 2] == SquareRing(len, stride)[2];
      assert l[start + 3] == SquareRing(len, stride)[3];
    }
  }

  /** The diamond table: 33 sites, the centre at index 0, ring `s` (0-based)
      at indices `1 + 4 * s ..` with step length `Halve(128, s)`. */
  lemma DiamondLatticeShape(stride: int)
    ensures |DiamondLattice(stride)| == 1 + MAX_MVSEARCH_STEPS * 4 == 33
    ensures DiamondLattice(stride)[0] == SearchSite(MV(0, 0), 0)
    ensures forall s, t :: 0 <= s < MAX_MVSEARCH_STEPS && 0 <= t < 4 ==>
      DiamondLattice(stride)[1 + 4 * s + t] == AxialRing(Halve(MAX_FIRST_STEP, s), stride)[t]
  {
    FirstStepHalvings();
    DiamondRingsShape(MAX_FIRST_STEP, stride);
    var l := DiamondLattice(stride);
    forall s, t | 0 <= s < MAX_MVSEARCH_STEPS && 0 <= t < 4
      ensures l[1 + 4 * s + t] == AxialRing(Halve(MAX_FIRST_STEP, s), stride)[t]
    {
      assert l[1 + 4 * s + t] == DiamondRings(MAX_FIRST_STEP, stride)[4 * s + t];
    }
  }

  /** ... and it is a well-formed table for 4 sites per step. */
  lemma DiamondLatticeWellFormed(stride: int)
    ensures WellFormedLattice(DiamondLattice(stride), 4, stride)
  {
    DiamondLatticeShape(stride);
    FirstStepHalvings();
    DiamondRingsConsistent(MAX_FIRST_STEP, stride);
    var l := DiamondLattice(stride);
    forall k | 0 <= k < |l|
      ensures OffsetConsistent(l[k], stride)
    {
      if k > 0 {
        assert l[k] == DiamondRings(MAX_FIRST_STEP, stride)[k - 1];
      }
    }
    forall s | 0 <= s < MAX_MVSEARCH_STEPS
      ensures RingBoundedByFirstFour(l, 1 + s * 4, 4)
    {
      var len := Halve(MAX_FIRST_STEP, s);
      forall t | 0 <= t < 4
        ensures l[1 + s * 4 + t] == AxialRing(len, stride)[t]
      {
        assert 1 + s * 4 + t == 1 + 4 * s + t;
      }
      AxialRingBounded(l, 1 + s * 4, len, stride);
    }
  }

  /** The three-step table: 65 sites, rings of 8 with the axial four first. */
  lemma ThreeStepLatticeShape(stride: int)
    ensures |ThreeStepLattice(stride)| == 1 + MAX_MVSEARCH_STEPS * 8 == SS_CAPACITY
    ensures ThreeStepLattice(stride)[0] == SearchSite(MV(0, 0), 0)
    ensures forall s, t :: 0 <= s < MAX_MVSEARCH_STEPS && 0 <= t < 8 ==>
      ThreeStepLattice(stride)[1 + 8 * s + t] == SquareRing(Halve(MAX_FIRST_STEP, s), stride)[t]
  {
    FirstStepHalvings();
    SquareRingsShape(MAX_FIRST_STEP, stride);
    var l := ThreeStepLattice(stride);
    forall s, t | 0 <= s < MAX_MVSEARCH_STEPS && 0 <= t < 8
      ensures l[1 + 8 * s + t] == SquareRing(Halve(MAX_FIRST_STEP, s), stride)[t]
    {
      assert l[1 + 8 * s + t] == SquareRings(MAX_FIRST_STEP, stride)[8 * s + t];
    }
  }

  lemma ThreeStepLatticeWellFormed(stride: int)
    ensures WellFormedLattice(ThreeStepLattice(stride), 8, stride)
  {
    ThreeStepLatticeShape(stride);
    FirstStepHalvings();
    SquareRingsConsistent(MAX_FIRST_STEP, stride);
    var l := ThreeStepLattice(stride);
    forall k | 0 <= k < |l|
      ensures OffsetConsistent(l[k], stride)
    {
      if k > 0 {
        assert l[k] == SquareRings(MAX_FIRST_STEP, stride)[k - 1];
      }
    }
    forall s | 0 <= s < MAX_MVSEARCH_STEPS
      ensures RingBoundedByFirstFour(l, 1 + s * 8, 8)
    {
      var len := Halve(MAX_FIRST_STEP, s);
      forall t | 0 <= t < 8
        ensures l[1 + s * 8 + t] == SquareRing(len, stride)[t]
      {
        assert 1 + s * 8 + t == 1 + 8 * s + t;
      }
      SquareRingBounded(l, 1 + s * 8, len, stride);
    }
  }

  /** Peeling the next ring off the rest of a table. */
  lemma NextAxialRing(table: seq<SearchSite>, count: int, len: int, stride: int)
    requires 0 <= count <= |table| && len > 0
    requires table[count..] == DiamondRings(len, stride)
    ensures count + 4 <= |table|
    ensures forall t :: 0 <= t < 4 ==> table[count + t] == RingSite(len, t, stride)
    ensures table[count + 4..] == DiamondRings(len / 2, stride)
  {
    assert table[count..] == AxialRing(len, stride) + DiamondRings(len / 2, stride);
    assert forall t :: 0 <= t < 4 ==> table[count + t] == table[count..][t];
  }

  lemma NextSquareRing(table: seq<SearchSite>, count: int, len: int, stride: int)
    requires 0 <= count <= |table| && len > 0
    requires table[count..] == SquareRings(len, stride)
    ensures count + 8 <= |table|
    ensures forall t :: 0 <= t < 8 ==> table[count + t] == RingSite(len, t, stride)
    ensures table[count + 8..] == SquareRings(len / 2, stride)
  {
    assert table[count..] == SquareRing(len, stride) + SquareRings(len / 2, stride);
    assert forall t :: 0 <= t < 8 ==> table[count + t] == table[count..][t];
  }

  /** The search-site part of the encoder's MACROBLOCK: the table `ss`, the
      number of sites written `ss_count`, and `searches_per_step`. */
  class SearchSiteConfig {
    var ss: array<SearchSite>
    var ssCount: nat
    var searchesPerStep: nat

    ghost predicate Valid()
      reads this
    {
      ss.Length == SS_CAPACITY && ssCount <= ss.Length
    }

    /** The table in the state a search reads. */
    function Sites(): seq<SearchSite>
      reads this, ss
      requires Valid()
    {
      ss[..ssCount]
    }

    constructor ()
      ensures Valid() && fresh(ss) && ssCount == 0 && searchesPerStep == 0
    {
      ss := new SearchSite[SS_CAPACITY](_ => SearchSite(MV(0, 0), 0));
      ssCount := 0;
      searchesPerStep := 0;
    }

    /** vp8_init_dsmotion_compensation: the 33-site diamond table, 4 sites
        per step; the unused tail of the array is left as it was. */
    method InitDsMotionCompensation(stride: int)
      requires Valid()
      modifies this, ss
      ensures Valid() && ss == old(ss)
      ensures ssCount == 33 && searchesPerStep == 4
      ensures Sites() == DiamondLattice(stride)
      ensures forall k :: ssCount <= k < ss.Length ==> ss[k] == old(ss[k])
    {
      RingsLength(stride);
      ghost var table := DiamondLattice(stride);
      var a := ss;
      var len := MAX_FIRST_STEP;
      var count := 0;
      a[count] := Site(0, 0, stride);
      count := count + 1;
      while len > 0
        invariant 0 <= len <= MAX_FIRST_STEP
        invariant a == ss == old(ss) && a.Length == SS_CAPACITY
        invariant 1 <= count <= 33
        invariant table[count..] == DiamondRings(len, stride)
        invariant forall k :: 0 <= k < count ==> a[k] == table[k]
        invariant forall k :: 33 <= k < a.Length ==> a[k] == old(a[k])
        decreases len
      {
        NextAxialRing(table, count, len, stride);
        // The four axial sites of this step, in the order they are written.
        forall t | 0 <= t < 4 {
          a[count + t] := RingSite(len, t, stride);
        }
        count := count + 4;
        len := len / 2;
      }
      assert a[..count] == table;
      ssCount := count;
      searchesPerStep := 4;
    }

    /** vp8_init3smotion_compensation: the 65-site three-step table, 8 sites
        per step. */
    method Init3sMotionCompensation(stride: int)
      requires Valid()
      modifies this, ss
      ensures Valid() && ss == old(ss)
      ensures ssCount == 65 && searchesPerStep == 8
      ensures Sites() == ThreeStepLattice(stride)
    {
      RingsLength(stride);
      ghost var table := ThreeStepLattice(stride);
      var a := ss;
      var len := MAX_FIRST_STEP;
      var count := 0;
      a[count] := Site(0, 0, stride);
      count := count + 1;
      while len > 0
        invariant 0 <= len <= MAX_FIRST_STEP
        invariant a == ss == old(ss) && a.Length == SS_CAPACITY
        invariant 1 <= count <= 65
        invariant table[count..] == SquareRings(len, stride)
        invariant forall k :: 0 <= k < count ==> a[k] == table[k]
        decreases len
      {
        NextSquareRing(table, count, len, stride);
        // The axial four, then the four diagonals, in the order they are written.
        forall t | 0 <= t < 8 {
          a[count + t] := RingSite(len, t, stride);
        }
        count := count + 8;
        len := len / 2;
      }
      assert a[..count] == table;
      ssCount := count;
      searchesPerStep := 8;
    }
  }
}
