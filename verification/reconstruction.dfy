/** Scale reconstruction: every window's fitted modes are grouped by band,
    weighted by the window's reconstruction kernel and added into the series
    at the steps the window read, and the sum is divided by the total weight
    each step received.  The scale separation and the global reconstruction
    are sums over the bands of the result. */
module Reconstruction {
  import opened Base
  import opened Windows
  import opened Kernels
  import opened Bands

  /** A quotient of reals, or the nan/inf numpy produces for a zero divisor. */
  datatype Ratio = Finite(value: real) | NonFinite

  function Divide(x: real, y: real): (r: Ratio)
    ensures r.Finite? <==> y != 0.0
    ensures r.Finite? ==> r.value * y == x
  {
    if y == 0.0 then NonFinite else Finite(x / y)
  }

  /** What the reconstruction reads from a fitted and clustered object: the
      window plan, the slot width of the result arrays, the band of every
      rank slot of every window, the band centroids, the window means and the
      Gaussian profile of one window. */
  datatype Layout = Layout(plan: WindowPlan, width: nat, nVars: nat, nComponents: nat,
                           classes: seq<seq<int>>, centroids: seq<real>,
                           means: seq<seq<real>>, gauss: seq<real>)

  predicate ValidLayout(a: Layout)
  {
    && ValidPlan(a.plan)
    && |a.gauss| == a.plan.windowLength
    && |a.classes| == a.plan.nSlides
    && ValidLabels(a.classes, a.width, a.nComponents)
    && |a.centroids| == a.nComponents
    && |a.means| == a.plan.nSlides
    && forall k :: 0 <= k < |a.means| ==> |a.means[k]| == a.nVars
  }

  /** The real part of one rank slot's mode at one variable and one local time
      step: `sig(k, i, v, tl)` is `Re(w[v, i] · b[i] · exp(omega[i] · t[tl]))`
      for window `k`.  Exponentials are floating point and stay abstract. */
  type Signal = (nat, nat, nat, nat) -> real

  /** Band `j` occurs somewhere in the class array (`np.unique`). */
  predicate Present(a: Layout, j: int)
  {
    exists k, i :: 0 <= k < |a.classes| && 0 <= i < |a.classes[k]| && a.classes[k][i] == j
  }

  /** `np.argmin`: the first position of the smallest value. */
  function ArgMin(cs: seq<real>): (r: nat)
    requires |cs| > 0
    ensures r < |cs|
    ensures forall i :: 0 <= i < |cs| ==> cs[r] <= cs[i]
    ensures forall i :: 0 <= i < r ==> cs[i] > cs[r]
  {
    if |cs| == 1 then 0
    else
      var m := ArgMin(cs[1..]);
      if cs[0] <= cs[1 + m] then 0 else 1 + m
  }

  /** Once the centroids are in ascending order the band that receives the
      window means is band 0, the one `scale_separation` calls the low band. */
  lemma MeansGoToBandZero(cs: seq<real>)
    requires |cs| > 0 && Sorted(cs)
    ensures ArgMin(cs) == 0
  {
    assert cs[0] <= cs[ArgMin(cs)];
  }

  /** The band that gets the window means added. */
  predicate Trend(a: Layout, includeMeans: bool, j: int)
  {
    includeMeans && |a.centroids| > 0 && j == ArgMin(a.centroids)
  }

  /** The sum of the modes of window `k` in band `j` over the first `m` slots. */
  function SlotSum(a: Layout, sig: Signal, k: nat, j: int, v: nat, tl: nat, m: nat): real
    requires ValidLayout(a) && k < a.plan.nSlides && m <= a.width
  {
    if m == 0 then 0.0
    else SlotSum(a, sig, k, j, v, tl, m - 1)
         + (if a.classes[k][m - 1] == j then sig(k, m - 1, v, tl) else 0.0)
  }

  /** Window `k`'s band-`j` signal before weighting, with the window mean added
      to the trend band. */
  function WinValue(a: Layout, sig: Signal, includeMeans: bool, k: nat, j: int, v: nat, tl: nat): real
    requires ValidLayout(a) && k < a.plan.nSlides && v < a.nVars
  {
    SlotSum(a, sig, k, j, v, tl, a.width)
    + (if Trend(a, includeMeans, j) then a.means[k][v] else 0.0)
  }

  /** A value weighted by a kernel entry. */
  function Scaled(x: real, w: real): real
  {
    x * w
  }

  /** The reconstruction weight of window `k`. */
  function Kern(a: Layout, k: nat): (w: seq<real>)
    requires ValidLayout(a)
    ensures |w| == a.plan.windowLength
  {
    EdgeKernel(a.gauss, k, a.plan.nSlides)
  }

  /** The weight window `k` gives step `t`: its kernel there, or nothing. */
  function Weight(a: Layout, k: nat, t: nat): real
    requires ValidLayout(a) && k < a.plan.nSlides
  {
    var w := Window(a.plan, k);
    if w.0 <= t < w.1 then Kern(a, k)[t - w.0] else 0.0
  }

  /** What window `k`'s weighted band-`j` block, laid down from step `lo`,
      puts at step `t`. */
  function Placed(a: Layout, sig: Signal, includeMeans: bool, k: nat, j: int, v: nat, t: nat,
                  lo: nat, kern: seq<real>): real
    requires ValidLayout(a) && k < a.plan.nSlides && v < a.nVars
  {
    if lo <= t < lo + |kern| then Scaled(WinValue(a, sig, includeMeans, k, j, v, t - lo), kern[t - lo]) else 0.0
  }

  /** What window `k` adds to band `j` at step `t`: its weighted block at the
      steps it read, for a band some slot was assigned to. */
  function Contribution(a: Layout, sig: Signal, includeMeans: bool, k: nat, j: int, v: nat, t: nat): real
    requires ValidLayout(a) && k < a.plan.nSlides && v < a.nVars
  {
    if Present(a, j) then Placed(a, sig, includeMeans, k, j, v, t, Window(a.plan, k).0, Kern(a, k)) else 0.0
  }

  /** The total weight step `t` receives from the first `m` windows. */
  function NormSum(a: Layout, t: nat, m: nat): real
    requires ValidLayout(a) && m <= a.plan.nSlides
  {
    if m == 0 then 0.0 else NormSum(a, t, m - 1) + Weight(a, m - 1, t)
  }

  /** The weighted band-`j` signal step `t` receives from the first `m` windows. */
  function BandSum(a: Layout, sig: Signal, includeMeans: bool, j: int, v: nat, t: nat, m: nat): real
    requires ValidLayout(a) && m <= a.plan.nSlides && v < a.nVars
  {
    if m == 0 then 0.0
    else BandSum(a, sig, includeMeans, j, v, t, m - 1) + Contribution(a, sig, includeMeans, m - 1, j, v, t)
  }

  /** `buf[lo:lo+|w|] += w`. */
  function AddAt(buf: seq<real>, lo: nat, w: seq<real>): (r: seq<real>)
    requires lo + |w| <= |buf|
    ensures |r| == |buf|
    ensures forall t :: 0 <= t < |buf| ==>
              r[t] == buf[t] + (if lo <= t < lo + |w| then w[t - lo] else 0.0)
  {
    seq(|buf|, t requires 0 <= t < |buf| =>
      if lo <= t < lo + |w| then buf[t] + w[t - lo] else buf[t])
  }

  /** One variable's row of window `k`'s weighted band-`j` block. */
  function Block(a: Layout, sig: Signal, includeMeans: bool, k: nat, j: int, v: nat,
                 kern: seq<real>): (r: seq<real>)
    requires ValidLayout(a) && k < a.plan.nSlides && v < a.nVars
    ensures |r| == |kern|
  {
    seq(|kern|, tl requires 0 <= tl < |kern| => Scaled(WinValue(a, sig, includeMeans, k, j, v, tl), kern[tl]))
  }

  predicate Shaped<V>(x: seq<seq<seq<V>>>, n: nat, rows: nat, cols: nat)
  {
    |x| == n && forall j :: 0 <= j < n ==>
      |x[j]| == rows && forall v :: 0 <= v < rows ==> |x[j][v]| == cols
  }

  /** Window `k`'s weighted band-`j` block added into that band's
      `nVars × nTimeSteps` accumulator at the steps from `lo` on. */
  function AddBlock(a: Layout, sig: Signal, includeMeans: bool, band: seq<seq<real>>,
                    k: nat, j: int, lo: nat, kern: seq<real>): (r: seq<seq<real>>)
    requires ValidLayout(a) && k < a.plan.nSlides
    requires |band| == a.nVars && forall v :: 0 <= v < a.nVars ==> |band[v]| == a.plan.nTimeSteps
    requires lo + |kern| <= a.plan.nTimeSteps
    ensures |r| == a.nVars && forall v :: 0 <= v < a.nVars ==> |r[v]| == a.plan.nTimeSteps
    ensures forall v, t :: 0 <= v < a.nVars && 0 <= t < a.plan.nTimeSteps ==>
              r[v][t] == band[v][t] + Placed(a, sig, includeMeans, k, j, v, t, lo, kern)
  {
    var r := seq(a.nVars, v requires 0 <= v < a.nVars => AddAt(band[v], lo, Block(a, sig, includeMeans, k, j, v, kern)));
    assert forall v :: 0 <= v < a.nVars ==> r[v] == AddAt(band[v], lo, Block(a, sig, includeMeans, k, j, v, kern));
    r
  }

  /** One pass of the window loop over the band accumulators: window `k`'s
      weighted blocks are added at the steps it read, for the bands present. */
  function AddWindow(a: Layout, sig: Signal, includeMeans: bool, acc: seq<seq<seq<real>>>,
                     k: nat, lo: nat, kern: seq<real>): (next: seq<seq<seq<real>>>)
    requires ValidLayout(a) && k < a.plan.nSlides
    requires kern == Kern(a, k) && lo == Window(a.plan, k).0
    requires Shaped(acc, a.nComponents, a.nVars, a.plan.nTimeSteps)
    ensures Shaped(next, a.nComponents, a.nVars, a.plan.nTimeSteps)
    ensures forall j, v, t :: 0 <= j < a.nComponents && 0 <= v < a.nVars && 0 <= t < a.plan.nTimeSteps ==>
              next[j][v][t] == acc[j][v][t] + Contribution(a, sig, includeMeans, k, j, v, t)
  {
    var nC := a.nComponents;
    var next := seq(nC, j requires 0 <= j < nC =>
      if Present(a, j) then AddBlock(a, sig, includeMeans, acc[j], k, j, lo, kern) else acc[j]);
    forall j, v, t | 0 <= j < nC && 0 <= v < a.nVars && 0 <= t < a.plan.nTimeSteps
      ensures next[j][v][t] == acc[j][v][t] + Contribution(a, sig, includeMeans, k, j, v, t)
    {
      if Present(a, j) {
        assert next[j] == AddBlock(a, sig, includeMeans, acc[j], k, j, lo, kern);
      } else {
        assert next[j] == acc[j];
      }
    }
    next
  }

  /** The same pass over the weight accumulator `xn`. */
  function AddWeights(a: Layout, xn: seq<real>, k: nat, lo: nat, kern: seq<real>): (next: seq<real>)
    requires ValidLayout(a) && k < a.plan.nSlides
    requires kern == Kern(a, k) && lo == Window(a.plan, k).0
    requires |xn| == a.plan.nTimeSteps
    ensures |next| == |xn|
    ensures forall t :: 0 <= t < |xn| ==> next[t] == xn[t] + Weight(a, k, t)
  {
    AddAt(xn, lo, kern)
  }

  /** The band and weight accumulators after the first `m` windows. */
  function Sweep(a: Layout, sig: Signal, includeMeans: bool, m: nat): (r: (seq<seq<seq<real>>>, seq<real>))
    requires ValidLayout(a) && m <= a.plan.nSlides
    ensures Shaped(r.0, a.nComponents, a.nVars, a.plan.nTimeSteps) && |r.1| == a.plan.nTimeSteps
  {
    if m == 0 then (Fill(a.nComponents, Fill(a.nVars, Fill(a.plan.nTimeSteps, 0.0))), Fill(a.plan.nTimeSteps, 0.0))
    else
      var prev := Sweep(a, sig, includeMeans, m - 1);
      var lo, kern := Window(a.plan, m - 1).0, Kern(a, m - 1);
      (AddWindow(a, sig, includeMeans, prev.0, m - 1, lo, kern), AddWeights(a, prev.1, m - 1, lo, kern))
  }

  /** After `m` windows the accumulators hold the weighted band sums and the
      weight sums of those windows. */
  lemma {:induction false} SweepSums(a: Layout, sig: Signal, includeMeans: bool, m: nat)
    requires ValidLayout(a) && m <= a.plan.nSlides
    ensures forall t :: 0 <= t < a.plan.nTimeSteps ==> Sweep(a, sig, includeMeans, m).1[t] == NormSum(a, t, m)
    ensures forall j, v, t :: 0 <= j < a.nComponents && 0 <= v < a.nVars && 0 <= t < a.plan.nTimeSteps ==>
              Sweep(a, sig, includeMeans, m).0[j][v][t] == BandSum(a, sig, includeMeans, j, v, t, m)
  {
    if m > 0 {
      SweepSums(a, sig, includeMeans, m - 1);
    }
  }

  /** `xr_sep / xn`: every band, variable and step divided by the step's weight. */
  function Normalise(acc: seq<seq<seq<real>>>, xn: seq<real>, n: nat, rows: nat): (xr: seq<seq<seq<Ratio>>>)
    requires Shaped(acc, n, rows, |xn|)
    ensures Shaped(xr, n, rows, |xn|)
    ensures forall j, v, t :: 0 <= j < n && 0 <= v < rows && 0 <= t < |xn| ==>
              xr[j][v][t] == Divide(acc[j][v][t], xn[t])
  {
    seq(n, j requires 0 <= j < n =>
      seq(rows, v requires 0 <= v < rows =>
        seq(|xn|, t requires 0 <= t < |xn| => Divide(acc[j][v][t], xn[t]))))
  }

  /** The start of the first step window `k` read and the kernel it is
      weighted with: `build_kern` for the window's direction, and the slice
      `get_window_indices` gives, resolved against the series. */
  method WindowKernel(a: Layout, k: nat) returns (kern: seq<real>, lo: nat)
    requires ValidLayout(a) && k < a.plan.nSlides
    ensures kern == Kern(a, k) && lo == Window(a.plan, k).0
  {
    var built := BuildKern(a.gauss, Direction(k, a.plan.nSlides));
    EdgeKernelIsBuildKern(a.gauss, k, a.plan.nSlides);
    kern := built.value;
    lo := Resolve(WindowIndices(a.plan, k), a.plan.nTimeSteps).0;
  }

  /** `scale_reconstruction`: an `nComponents × nVars × nTimeSteps` array whose
      entry for band `j` at step `t` is the kernel-weighted sum of what the
      windows reading `t` put in band `j`, divided by the sum of their weights. */
  method ScaleReconstruction(a: Layout, sig: Signal, includeMeans: bool)
      returns (xr: seq<seq<seq<Ratio>>>)
    requires ValidLayout(a)
    ensures Shaped(xr, a.nComponents, a.nVars, a.plan.nTimeSteps)
    ensures forall j, v, t :: 0 <= j < a.nComponents && 0 <= v < a.nVars && 0 <= t < a.plan.nTimeSteps ==>
              xr[j][v][t] == Divide(BandSum(a, sig, includeMeans, j, v, t, a.plan.nSlides),
                                    NormSum(a, t, a.plan.nSlides))
  {
    var n, nC, nV := a.plan.nSlides, a.nComponents, a.nVars;
    var acc := Fill(nC, Fill(nV, Fill(a.plan.nTimeSteps, 0.0)));
    var xn := Fill(a.plan.nTimeSteps, 0.0);
    var k := 0;
    while k < n
      invariant 0 <= k <= n
      invariant (acc, xn) == Sweep(a, sig, includeMeans, k)
    {
      var kern, lo := WindowKernel(a, k);
      acc := AddWindow(a, sig, includeMeans, acc, k, lo, kern);
      xn := AddWeights(a, xn, k, lo, kern);
      k := k + 1;
    }
    SweepSums(a, sig, includeMeans, n);
    xr := Normalise(acc, xn, nC, nV);
  }

  /** Partial weight sums are never negative, and are positive once a covering
      window has been added. */
  lemma {:induction false} NormGrows(a: Layout, t: nat, m: nat)
    requires ValidLayout(a) && m <= a.plan.nSlides
    requires forall i :: 0 <= i < |a.gauss| ==> a.gauss[i] > 0.0
    ensures NormSum(a, t, m) >= 0.0
    ensures forall k :: 0 <= k < m && Covers(a.plan, k, t) ==> NormSum(a, t, m) > 0.0
  {
    if m > 0 {
      NormGrows(a, t, m - 1);
      EdgeKernelPositive(a.gauss, m - 1, a.plan.nSlides);
      assert Weight(a, m - 1, t) >= 0.0;
      assert Covers(a.plan, m - 1, t) ==> Weight(a, m - 1, t) > 0.0;
    }
  }

  /** With a positive Gaussian and windows no further apart than their length,
      every step receives positive total weight, so the division never produces
      nan or inf. */
  lemma NormPositive(a: Layout, t: nat)
    requires ValidLayout(a) && a.plan.stepSize <= a.plan.windowLength && t < a.plan.nTimeSteps
    requires forall i :: 0 <= i < |a.gauss| ==> a.gauss[i] > 0.0
    ensures NormSum(a, t, a.plan.nSlides) > 0.0
  {
    EveryStepCovered(a.plan, t);
    NormGrows(a, t, a.plan.nSlides);
  }

  lemma Distributes(c: real, x: real, y: real)
    ensures Scaled(c, x + y) == Scaled(c, x) + Scaled(c, y)
  {
  }

  lemma Cancels(c: real, y: real)
    requires y != 0.0
    ensures Scaled(c, y) / y == c
  {
  }

  /** A window whose band-`j` value at `t` is `c` adds `c` times its weight. */
  lemma ContributionOfConstant(a: Layout, sig: Signal, includeMeans: bool,
                               j: int, v: nat, t: nat, c: real, k: nat)
    requires ValidLayout(a) && k < a.plan.nSlides && v < a.nVars && Present(a, j)
    requires Covers(a.plan, k, t) ==>
               WinValue(a, sig, includeMeans, k, j, v, t - Window(a.plan, k).0) == c
    ensures Contribution(a, sig, includeMeans, k, j, v, t) == Scaled(c, Weight(a, k, t))
  {
    var w := Window(a.plan, k);
    if w.0 <= t < w.1 {
      assert Covers(a.plan, k, t);
    }
  }

  /** One more window keeps a band sum at `c` times the weight collected. */
  lemma ConstantStep(a: Layout, sig: Signal, includeMeans: bool,
                     j: int, v: nat, t: nat, c: real, m: nat)
    requires ValidLayout(a) && 0 < m <= a.plan.nSlides && v < a.nVars && Present(a, j)
    requires Covers(a.plan, m - 1, t) ==>
               WinValue(a, sig, includeMeans, m - 1, j, v, t - Window(a.plan, m - 1).0) == c
    requires BandSum(a, sig, includeMeans, j, v, t, m - 1) == Scaled(c, NormSum(a, t, m - 1))
    ensures BandSum(a, sig, includeMeans, j, v, t, m) == Scaled(c, NormSum(a, t, m))
  {
    ContributionOfConstant(a, sig, includeMeans, j, v, t, c, m - 1);
    Distributes(c, NormSum(a, t, m - 1), Weight(a, m - 1, t));
  }

  /** The overlap-add is a weighted average: if every window reading step `t`
      puts the same value `c` in band `j` there, the partial sums are `c` times
      the partial weights. */
  lemma {:induction false} ConstantBandSum(a: Layout, sig: Signal, includeMeans: bool,
                                           j: int, v: nat, t: nat, c: real, m: nat)
    requires ValidLayout(a) && m <= a.plan.nSlides && v < a.nVars && Present(a, j)
    requires forall k :: 0 <= k < a.plan.nSlides && Covers(a.plan, k, t) ==>
               WinValue(a, sig, includeMeans, k, j, v, t - Window(a.plan, k).0) == c
    ensures BandSum(a, sig, includeMeans, j, v, t, m) == Scaled(c, NormSum(a, t, m))
  {
    if m > 0 {
      ConstantBandSum(a, sig, includeMeans, j, v, t, c, m - 1);
      ConstantStep(a, sig, includeMeans, j, v, t, c, m);
    }
  }

  /** A band whose windows agree on a value reproduces that value exactly
      wherever the step received any weight. */
  lemma ConstantBandReproduced(a: Layout, sig: Signal, includeMeans: bool,
                               j: int, v: nat, t: nat, c: real)
    requires ValidLayout(a) && v < a.nVars && Present(a, j)
    requires forall k :: 0 <= k < a.plan.nSlides && Covers(a.plan, k, t) ==>
               WinValue(a, sig, includeMeans, k, j, v, t - Window(a.plan, k).0) == c
    requires NormSum(a, t, a.plan.nSlides) != 0.0
    ensures Divide(BandSum(a, sig, includeMeans, j, v, t, a.plan.nSlides), NormSum(a, t, a.plan.nSlides))
            == Finite(c)
  {
    ConstantBandSum(a, sig, includeMeans, j, v, t, c, a.plan.nSlides);
    Cancels(c, NormSum(a, t, a.plan.nSlides));
  }

  /** A band no slot was assigned to collects nothing. */
  lemma {:induction false} AbsentBandIsZero(a: Layout, sig: Signal, includeMeans: bool,
                                            j: int, v: nat, t: nat, m: nat)
    requires ValidLayout(a) && m <= a.plan.nSlides && v < a.nVars && !Present(a, j)
    ensures BandSum(a, sig, includeMeans, j, v, t, m) == 0.0
  {
    if m > 0 {
      AbsentBandIsZero(a, sig, includeMeans, j, v, t, m - 1);
    }
  }

  /** The sum of the modes of window `k` over its first `m` slots, bands ignored. */
  function TotalSlots(sig: Signal, k: nat, v: nat, tl: nat, m: nat): real
  {
    if m == 0 then 0.0 else TotalSlots(sig, k, v, tl, m - 1) + sig(k, m - 1, v, tl)
  }

  /** Bands `0 .. J-1` of window `k` over its first `m` slots. */
  function BandsUpTo(a: Layout, sig: Signal, k: nat, v: nat, tl: nat, bands: nat, m: nat): real
    requires ValidLayout(a) && k < a.plan.nSlides && m <= a.width
  {
    if bands == 0 then 0.0
    else BandsUpTo(a, sig, k, v, tl, bands - 1, m) + SlotSum(a, sig, k, bands - 1, v, tl, m)
  }

  lemma {:induction false} BandsOfNoSlots(a: Layout, sig: Signal, k: nat, v: nat, tl: nat, bands: nat)
    requires ValidLayout(a) && k < a.plan.nSlides
    ensures BandsUpTo(a, sig, k, v, tl, bands, 0) == 0.0
  {
    if bands > 0 {
      BandsOfNoSlots(a, sig, k, v, tl, bands - 1);
    }
  }

  /** Adding slot `m` adds its mode to exactly the band it is labelled with. */
  lemma {:induction false} BandsStep(a: Layout, sig: Signal, k: nat, v: nat, tl: nat, bands: nat, m: nat)
    requires ValidLayout(a) && k < a.plan.nSlides && m < a.width
    ensures BandsUpTo(a, sig, k, v, tl, bands, m + 1)
            == BandsUpTo(a, sig, k, v, tl, bands, m)
               + (if a.classes[k][m] < bands then sig(k, m, v, tl) else 0.0)
  {
    if bands > 0 {
      BandsStep(a, sig, k, v, tl, bands - 1, m);
    }
  }

  /** The bands partition the rank slots: summed over all bands, a window's
      band signals give back the whole of its fitted modes, each once. */
  lemma {:induction false} BandsPartitionSlots(a: Layout, sig: Signal, k: nat, v: nat, tl: nat, m: nat)
    requires ValidLayout(a) && k < a.plan.nSlides && m <= a.width
    ensures BandsUpTo(a, sig, k, v, tl, a.nComponents, m) == TotalSlots(sig, k, v, tl, m)
  {
    if m == 0 {
      BandsOfNoSlots(a, sig, k, v, tl, a.nComponents);
    } else {
      BandsPartitionSlots(a, sig, k, v, tl, m - 1);
      BandsStep(a, sig, k, v, tl, a.nComponents, m - 1);
    }
  }

  /** numpy addition with nan/inf absorbing. */
  function AddRatio(x: Ratio, y: Ratio): (r: Ratio)
    ensures r.Finite? <==> x.Finite? && y.Finite?
    ensures r.Finite? ==> r.value == x.value + y.value
  {
    if x.Finite? && y.Finite? then Finite(x.value + y.value) else NonFinite
  }

  /** `xr[from:].sum(axis=0)` at one variable and step. */
  function BandTotal(xr: seq<seq<seq<Ratio>>>, from: nat, v: nat, t: nat, nVars: nat, nTimeSteps: nat): Ratio
    requires Shaped(xr, |xr|, nVars, nTimeSteps) && v < nVars && t < nTimeSteps
    decreases |xr| - from
  {
    if from >= |xr| then Finite(0.0)
    else AddRatio(xr[from][v][t], BandTotal(xr, from + 1, v, t, nVars, nTimeSteps))
  }

  /** A band sum is finite exactly when every band it adds is. */
  lemma {:induction false} BandTotalFinite(xr: seq<seq<seq<Ratio>>>, from: nat, v: nat, t: nat,
                                           nVars: nat, nTimeSteps: nat)
    requires Shaped(xr, |xr|, nVars, nTimeSteps) && v < nVars && t < nTimeSteps
    ensures BandTotal(xr, from, v, t, nVars, nTimeSteps).Finite?
            <==> forall j :: from <= j < |xr| ==> xr[j][v][t].Finite?
    decreases |xr| - from
  {
    if from < |xr| {
      BandTotalFinite(xr, from + 1, v, t, nVars, nTimeSteps);
    }
  }

  /** The value of a finite entry; a non-finite one never reaches a finite sum. */
  function Val(x: Ratio): real
  {
    if x.Finite? then x.value else 0.0
  }

  /** Bands `from ..` of `xr` at one variable and step, as plain values. */
  function Column(xr: seq<seq<seq<Ratio>>>, from: nat, v: nat, t: nat, nVars: nat, nTimeSteps: nat)
      : (c: seq<real>)
    requires Shaped(xr, |xr|, nVars, nTimeSteps) && v < nVars && t < nTimeSteps && from <= |xr|
    ensures |c| == |xr| - from
    ensures forall i :: 0 <= i < |c| ==> c[i] == Val(xr[from + i][v][t])
  {
    seq(|xr| - from, i requires 0 <= i < |xr| - from => Val(xr[from + i][v][t]))
  }

  /** A finite band total is the sum of the bands it adds. */
  lemma {:induction false} BandTotalIsSum(xr: seq<seq<seq<Ratio>>>, from: nat, v: nat, t: nat,
                                          nVars: nat, nTimeSteps: nat)
    requires Shaped(xr, |xr|, nVars, nTimeSteps) && v < nVars && t < nTimeSteps && from <= |xr|
    ensures BandTotal(xr, from, v, t, nVars, nTimeSteps).Finite? ==>
              BandTotal(xr, from, v, t, nVars, nTimeSteps).value == Sum(Column(xr, from, v, t, nVars, nTimeSteps))
    decreases |xr| - from
  {
    if from < |xr| {
      BandTotalIsSum(xr, from + 1, v, t, nVars, nTimeSteps);
      var c := Column(xr, from, v, t, nVars, nTimeSteps);
      assert c[1..] == Column(xr, from + 1, v, t, nVars, nTimeSteps);
    }
  }

  /** `global_reconstruction`: the sum of all bands. */
  function GlobalReconstruction(xr: seq<seq<seq<Ratio>>>, nVars: nat, nTimeSteps: nat): (g: seq<seq<Ratio>>)
    requires Shaped(xr, |xr|, nVars, nTimeSteps)
    ensures |g| == nVars && forall v :: 0 <= v < nVars ==> |g[v]| == nTimeSteps
    ensures forall v, t :: 0 <= v < nVars && 0 <= t < nTimeSteps ==>
              (g[v][t].Finite? <==> forall j :: 0 <= j < |xr| ==> xr[j][v][t].Finite?)
    ensures forall v, t :: 0 <= v < nVars && 0 <= t < nTimeSteps && g[v][t].Finite? ==>
              g[v][t].value == Sum(Column(xr, 0, v, t, nVars, nTimeSteps))
  {
    var g := seq(nVars, v requires 0 <= v < nVars =>
               seq(nTimeSteps, t requires 0 <= t < nTimeSteps => BandTotal(xr, 0, v, t, nVars, nTimeSteps)));
    forall v, t | 0 <= v < nVars && 0 <= t < nTimeSteps
      ensures (g[v][t].Finite? <==> forall j :: 0 <= j < |xr| ==> xr[j][v][t].Finite?)
      ensures g[v][t].Finite? ==> g[v][t].value == Sum(Column(xr, 0, v, t, nVars, nTimeSteps))
    {
      BandTotalFinite(xr, 0, v, t, nVars, nTimeSteps);
      BandTotalIsSum(xr, 0, v, t, nVars, nTimeSteps);
    }
    g
  }

  /** `scale_separation`: band 0 is the low band and the remaining bands summed
      are the high band; with no bands at all there is no band 0 to take.
      Low plus high is the global reconstruction. */
  function ScaleSeparation(xr: seq<seq<seq<Ratio>>>, nVars: nat, nTimeSteps: nat)
      : (r: Result<(seq<seq<Ratio>>, seq<seq<Ratio>>)>)
    requires Shaped(xr, |xr|, nVars, nTimeSteps)
    ensures r.Ok? <==> |xr| > 0
    ensures r.Err? ==> r.error == IndexOutOfRange
    ensures r.Ok? ==>
              && r.value.0 == xr[0]
              && |r.value.1| == nVars
              && (forall v :: 0 <= v < nVars ==> |r.value.1[v]| == nTimeSteps)
              && forall v, t :: 0 <= v < nVars && 0 <= t < nTimeSteps ==>
                   AddRatio(r.value.0[v][t], r.value.1[v][t])
                   == GlobalReconstruction(xr, nVars, nTimeSteps)[v][t]
    ensures r.Ok? ==>
              forall v, t :: 0 <= v < nVars && 0 <= t < nTimeSteps ==>
                (r.value.1[v][t].Finite? <==> forall j :: 1 <= j < |xr| ==> xr[j][v][t].Finite?)
    ensures r.Ok? ==>
              forall v, t :: 0 <= v < nVars && 0 <= t < nTimeSteps && r.value.1[v][t].Finite? ==>
                r.value.1[v][t].value == Sum(Column(xr, 1, v, t, nVars, nTimeSteps))
    ensures |xr| == 1 ==>
              forall v, t :: 0 <= v < nVars && 0 <= t < nTimeSteps ==> r.value.1[v][t] == Finite(0.0)
  {
    if |xr| == 0 then Err(IndexOutOfRange)
    else
      var high := seq(nVars, v requires 0 <= v < nVars =>
                    seq(nTimeSteps, t requires 0 <= t < nTimeSteps => BandTotal(xr, 1, v, t, nVars, nTimeSteps)));
      forall v, t | 0 <= v < nVars && 0 <= t < nTimeSteps
        ensures (high[v][t].Finite? <==> forall j :: 1 <= j < |xr| ==> xr[j][v][t].Finite?)
        ensures high[v][t].Finite? ==> high[v][t].value == Sum(Column(xr, 1, v, t, nVars, nTimeSteps))
      {
        BandTotalFinite(xr, 1, v, t, nVars, nTimeSteps);
        BandTotalIsSum(xr, 1, v, t, nVars, nTimeSteps);
      }
      Ok((xr[0], high))
  }
}
