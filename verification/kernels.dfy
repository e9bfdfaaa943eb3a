/** The two weight vectors of a window: the taper applied to the data before
    fitting (`calculate_lv_kern`) and the reconstruction weight with its edge
    variants (`build_kern`).  The hyperbolic-tangent and Gaussian values are
    floating point and are not computed here; their structure is. */
module Kernels {
  import opened Base

  /** A fitting taper: the tanh rounding with its corner sharpness, or explicit weights. */
  datatype LvKern = TanhRounding(cornerSharpness: real) | Weights(w: seq<real>)

  const DefaultCornerSharpness: real := 16.0

  /** `calculate_lv_kern`: "kern" is the tanh rounding (sharpness 16 unless
      given), "flat" is all ones, and any other name is rejected. */
  function CalculateLvKern(windowLength: nat, cornerSharpness: Option<real>,
                           kernMethod: string): (r: Result<LvKern>)
    ensures r.Ok? <==> kernMethod == "kern" || kernMethod == "flat"
    ensures kernMethod == "kern" && cornerSharpness.None? ==>
              r == Ok(TanhRounding(DefaultCornerSharpness))
    ensures kernMethod == "kern" && cornerSharpness.Some? ==>
              r == Ok(TanhRounding(cornerSharpness.value))
    ensures kernMethod == "flat" ==>
              && r.Ok? && r.value.Weights? && |r.value.w| == windowLength
              && forall t :: 0 <= t < windowLength ==> r.value.w[t] == 1.0
    ensures r.Err? ==> r.error == UnknownKernMethod(kernMethod)
  {
    var sharpness := if cornerSharpness.None? then DefaultCornerSharpness
                     else cornerSharpness.value;
    if kernMethod == "kern" then Ok(TanhRounding(sharpness))
    else if kernMethod == "flat" then Ok(Weights(Fill(windowLength, 1.0)))
    else Err(UnknownKernMethod(kernMethod))
  }

  /** Elementwise product of a window row with explicit taper weights. */
  function Taper(row: seq<real>, w: seq<real>): (r: seq<real>)
    requires |row| == |w|
    ensures |r| == |row|
  {
    seq(|row|, t requires 0 <= t < |row| => row[t] * w[t])
  }

  /** The "flat" taper leaves every window untouched. */
  lemma FlatTaperIsIdentity(windowLength: nat, cornerSharpness: Option<real>, row: seq<real>)
    requires |row| == windowLength
    ensures var k := CalculateLvKern(windowLength, cornerSharpness, "flat");
            k.Ok? && Taper(row, k.value.w) == row
  {
    var k := CalculateLvKern(windowLength, cornerSharpness, "flat");
    assert forall t :: 0 <= t < |row| ==> Taper(row, k.value.w)[t] == row[t];
  }

  /** `build_kern`: the Gaussian profile `gauss` of the window, with its
      second half forced to one for "forward", its first half forced to one
      for "backward", unchanged for no direction, and any other direction
      rejected. */
  function BuildKern(gauss: seq<real>, direction: Option<string>): (r: Result<seq<real>>)
    ensures r.Ok? <==> direction.None? || direction == Some("forward") || direction == Some("backward")
    ensures r.Ok? ==> |r.value| == |gauss|
    ensures direction == Some("forward") ==>
              forall t :: 0 <= t < |gauss| ==>
                r.value[t] == (if t >= |gauss| / 2 then 1.0 else gauss[t])
    ensures direction == Some("backward") ==>
              forall t :: 0 <= t < |gauss| ==>
                r.value[t] == (if t < |gauss| / 2 then 1.0 else gauss[t])
    ensures direction.None? ==> r == Ok(gauss)
    ensures r.Err? ==> r.error == UnknownDirection(direction.value)
  {
    var half := |gauss| / 2;
    if direction == Some("forward") then
      Ok(gauss[..half] + Fill(|gauss| - half, 1.0))
    else if direction == Some("backward") then
      Ok(Fill(half, 1.0) + gauss[half..])
    else if direction.Some? then
      Err(UnknownDirection(direction.value))
    else
      Ok(gauss)
  }

  /** The direction `scale_reconstruction` asks for window `k` of `n`: the first
      window is "backward" (checked first, so a lone window is "backward" too),
      the last "forward", the rest plain. */
  function Direction(k: nat, n: nat): Option<string>
  {
    if k == 0 then Some("backward")
    else if k == n - 1 then Some("forward")
    else None
  }

  /** The reconstruction weight of window `k` of `n`.  The edges of the series
      are never tapered: the first window is all ones on its leading half and
      the last on its trailing half; interior windows keep the Gaussian.  A
      lone window keeps the Gaussian on its trailing half. */
  function EdgeKernel(gauss: seq<real>, k: nat, n: nat): (w: seq<real>)
    ensures |w| == |gauss|
    ensures k == 0 ==> forall t :: 0 <= t < |gauss| / 2 ==> w[t] == 1.0
    ensures 0 < k && k == n - 1 ==> forall t :: |gauss| / 2 <= t < |gauss| ==> w[t] == 1.0
    ensures 0 < k < n - 1 ==> w == gauss
    ensures n == 1 && k == 0 ==> forall t :: |gauss| / 2 <= t < |gauss| ==> w[t] == gauss[t]
  {
    var half := |gauss| / 2;
    if k == 0 then Fill(half, 1.0) + gauss[half..]
    else if k == n - 1 then gauss[..half] + Fill(|gauss| - half, 1.0)
    else gauss
  }

  /** The edge kernel is the kernel `build_kern` gives for the window's
      direction; it is written out by window position so that proofs about
      the reconstruction need not compare direction names. */
  lemma EdgeKernelIsBuildKern(gauss: seq<real>, k: nat, n: nat)
    ensures BuildKern(gauss, Direction(k, n)) == Ok(EdgeKernel(gauss, k, n))
  {
  }

  /** Edge kernels keep the Gaussian's positivity. */
  lemma EdgeKernelPositive(gauss: seq<real>, k: nat, n: nat)
    requires forall t :: 0 <= t < |gauss| ==> gauss[t] > 0.0
    ensures forall t :: 0 <= t < |gauss| ==> EdgeKernel(gauss, k, n)[t] > 0.0
  {
    var w := EdgeKernel(gauss, k, n);
    forall t | 0 <= t < |gauss| ensures w[t] > 0.0 {
      var half := |gauss| / 2;
      if k == 0 {
        assert w[t] == if t < half then 1.0 else gauss[t];
      } else if k == n - 1 {
        assert w[t] == if t < half then gauss[t] else 1.0;
      }
    }
  }
}
