/** Rank policy: which spectral rank each window is fitted with, and how many
    rank slots the result arrays reserve for every window. */
module Ranks {
  import opened Base

  datatype RankMode =
    | GlobalBasis   // one projection basis from the whole data set
    | FixedLocal    // an explicit positive svd_rank, local bases
    | Adaptive      // svd_rank <= 0: each window truncates its own rank

  /** What the policy settles before the first window: the mode, the svd_rank
      the object keeps, and the pre-allocation width `svd_rank_pre_allocate`. */
  datatype Sizing = Sizing(mode: RankMode, svdRank: int, preAllocate: int)

  /** The rank part of `fit`.  `dataRank` stands for `compute_rank` applied to
      the whole data set with the given svd_rank; it is not part of this model.
      The global branch asks it twice, the second time with its own answer, as
      `_build_proj_basis` and the line after it do. */
  function RankPolicy(svdRank: Option<int>, globalSvd: bool, forceEvenEigs: bool,
                      maxRank: Option<int>, nDataVars: nat,
                      dataRank: Option<int> -> nat): (r: Result<Sizing>)
    ensures globalSvd ==> && r.Ok? && r.value.mode == GlobalBasis
                          && r.value.preAllocate == r.value.svdRank
                          && r.value.svdRank == dataRank(Some(dataRank(svdRank)))
    ensures !globalSvd && svdRank.None? ==> r == Err(NoneOperand)
    ensures !globalSvd && svdRank.Some? ==> r.Ok? ==> r.value.svdRank == svdRank.value
    // an explicit rank is accepted exactly when it is even (if evenness is
    // forced) and no larger than the spatial dimension
    ensures !globalSvd && svdRank.Some? && svdRank.value > 0 ==>
              && (r.Ok? <==> !(forceEvenEigs && svdRank.value % 2 == 1)
                             && svdRank.value <= nDataVars)
              && (forceEvenEigs && svdRank.value % 2 == 1 ==> r == Err(OddRank))
              && (!(forceEvenEigs && svdRank.value % 2 == 1) && svdRank.value > nDataVars ==>
                    r == Err(RankTooLarge))
              && (r.Ok? ==> r.value.mode == FixedLocal
                            && r.value.preAllocate == dataRank(svdRank))
    ensures r.Ok? && r.value.mode == FixedLocal ==>
              && 0 < r.value.svdRank <= nDataVars
              && (forceEvenEigs ==> r.value.svdRank % 2 == 0)
    // without an explicit rank the width is the user's maximum, else the
    // spatial dimension
    ensures !globalSvd && svdRank.Some? && svdRank.value <= 0 ==>
              && r.Ok? && r.value.mode == Adaptive
              && r.value.preAllocate
                 == (if maxRank.Some? then maxRank.value else nDataVars)
  {
    if globalSvd then
      var basisRank := dataRank(svdRank);
      var rank := dataRank(Some(basisRank));
      Ok(Sizing(GlobalBasis, rank, rank))
    else if svdRank.None? then
      Err(NoneOperand)
    else if svdRank.value > 0 then
      if forceEvenEigs && svdRank.value % 2 == 1 then Err(OddRank)
      else if svdRank.value > nDataVars then Err(RankTooLarge)
      else Ok(Sizing(FixedLocal, svdRank.value, dataRank(svdRank)))
    else if maxRank.Some? then
      Ok(Sizing(Adaptive, svdRank.value, maxRank.value))
    else
      Ok(Sizing(Adaptive, svdRank.value, nDataVars))
  }

  /** The even round-up: the smallest rank not below `computed` that is even
      when evenness is forced. */
  function RoundUp(computed: nat, forceEvenEigs: bool): (r: nat)
    ensures computed <= r <= computed + 1
    ensures r == computed + 1 <==> forceEvenEigs && computed % 2 == 1
    ensures forceEvenEigs ==> r % 2 == 0
  {
    if forceEvenEigs && computed % 2 == 1 then computed + 1 else computed
  }

  /** The rank a window outside global mode is fitted with: the window's own
      truncation rank, rounded up to even when forced, then capped by `max_rank`:
      the round-up when it fits under the cap, the cap otherwise. */
  function WindowRank(computed: nat, forceEvenEigs: bool, maxRank: Option<int>): (r: int)
    ensures maxRank.None? ==> r == RoundUp(computed, forceEvenEigs)
    ensures maxRank.Some? && RoundUp(computed, forceEvenEigs) <= maxRank.value ==>
              r == RoundUp(computed, forceEvenEigs)
    ensures maxRank.Some? && maxRank.value < RoundUp(computed, forceEvenEigs) ==> r == maxRank.value
    ensures maxRank.Some? ==> r <= maxRank.value
    ensures maxRank.None? ==> computed <= r <= computed + 1
    ensures forceEvenEigs && (maxRank.None? || maxRank.value % 2 == 0) ==> r % 2 == 0
    ensures !forceEvenEigs && (maxRank.None? || computed <= maxRank.value) ==> r == computed
  {
    var rank := RoundUp(computed, forceEvenEigs);
    if maxRank.Some? then Min(rank, maxRank.value) else rank
  }

  /** With a `max_rank` the adaptive windows never outgrow the pre-allocation. */
  lemma {:induction false} AdaptiveRankFitsMaxRank(svdRank: int, forceEvenEigs: bool,
      maxRank: int, nDataVars: nat, dataRank: Option<int> -> nat, computed: nat)
    requires svdRank <= 0
    ensures var s := RankPolicy(Some(svdRank), false, forceEvenEigs, Some(maxRank), nDataVars, dataRank);
            s.Ok? && WindowRank(computed, forceEvenEigs, Some(maxRank)) <= s.value.preAllocate
  {
    var s := RankPolicy(Some(svdRank), false, forceEvenEigs, Some(maxRank), nDataVars, dataRank);
    assert s.value.preAllocate == maxRank;
  }

  /** Without a `max_rank`, rounding an odd window rank up to even can ask for one
      more slot than the `n_data_vars` slots reserved: when the spatial dimension
      is odd and a window truncates at full rank, the window rank is one too many. */
  lemma AdaptiveRoundUpExceedsPreAllocation(svdRank: int, nDataVars: nat,
      dataRank: Option<int> -> nat)
    requires svdRank <= 0 && nDataVars % 2 == 1
    ensures var s := RankPolicy(Some(svdRank), false, true, None, nDataVars, dataRank);
            s.Ok? && WindowRank(nDataVars, true, None) == s.value.preAllocate + 1
  {
  }
}
