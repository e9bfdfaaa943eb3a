/** Window planning: how many windows slide over the series and which
    half-open range of time steps each one reads. */
module Windows {
  import opened Base

  /** The geometry fixed at the start of a fit. */
  datatype WindowPlan = WindowPlan(
    nTimeSteps: nat,
    windowLength: nat,
    stepSize: nat,
    nSlides: nat,
    nonIntegerNSlide: bool)   // the last slide is pinned to the end of the series

  /** A plan as a successful fit leaves it: `nSlides` is the number of
      step-aligned windows that fit, plus one flagged window when they leave a
      tail of the series uncovered. */
  predicate ValidPlan(p: WindowPlan)
  {
    && p.windowLength > 0
    && p.stepSize > 0
    && p.windowLength <= p.nTimeSteps
    && var qr := Split(p.nTimeSteps - p.windowLength, p.stepSize);
       && (p.nonIntegerNSlide <==> qr.1 != 0)
       && p.nSlides == qr.0 + 1 + (if p.nonIntegerNSlide then 1 else 0)
  }

  /** Quotient and remainder of `span` by `step`, by repeated subtraction.  The
      plan is stated through this rather than through `/` and `%`, so that
      proofs about windows meet the division only where they ask for it. */
  function Split(span: nat, step: nat): (qr: (nat, nat))
    requires step > 0
    decreases span
  {
    if span < step then (0, span)
    else
      var qr := Split(span - step, step);
      (qr.0 + 1, qr.1)
  }

  /** One subtraction of the divisor lowers the floor quotient by one and
      keeps the remainder. */
  lemma DivStep(span: nat, step: nat)
    requires 0 < step <= span
    ensures span / step == (span - step) / step + 1
    ensures span % step == (span - step) % step
  {
    var q, r := (span - step) / step, (span - step) % step;
    assert span - step == step * q + r;
    assert span == step * (q + 1) + r;
    DivUnique(span, step, q + 1, r);
  }

  /** Euclidean division has one quotient and one remainder. */
  lemma DivUnique(n: nat, d: nat, q: nat, r: nat)
    requires d > 0 && r < d && n == d * q + r
    ensures n / d == q && n % d == r
  {
    DivBrackets(n, d);
    if n / d < q {
      MulMonotone(n / d + 1, q, d);
    } else if n / d > q {
      MulMonotone(q + 1, n / d, d);
    }
    assert n / d == q;
    assert n == d * (n / d) + n % d;
  }

  lemma {:induction false} SplitIsDivMod(span: nat, step: nat)
    requires step > 0
    ensures Split(span, step) == (span / step, span % step)
    decreases span
  {
    if span >= step {
      SplitIsDivMod(span - step, step);
      DivStep(span, step);
    } else {
      DivUnique(span, step, 0, span);
    }
  }

  /** The plan's count in terms of floor division and remainder. */
  lemma PlanDivides(p: WindowPlan)
    requires ValidPlan(p)
    ensures (p.nonIntegerNSlide <==> (p.nTimeSteps - p.windowLength) % p.stepSize != 0)
    ensures p.nSlides == (p.nTimeSteps - p.windowLength) / p.stepSize + 1
                         + (if p.nonIntegerNSlide then 1 else 0)
  {
    SplitIsDivMod(p.nTimeSteps - p.windowLength, p.stepSize);
  }

  /** `_build_windows`: the number of windows of length `windowLength`,
      `stepSize` apart, that fit in the spanned steps.  The spanned steps are the
      whole series, or whole multiples of the window when `integerWindows`.
      Dafny's division by a positive divisor is the floor the source takes. */
  function BuildWindows(nTimeSteps: nat, windowLength: nat, stepSize: nat,
                        integerWindows: bool): (r: int)
    requires windowLength > 0 && stepSize > 0
    ensures var nSteps := SpannedSteps(nTimeSteps, windowLength, integerWindows);
            windowLength <= nSteps ==>
              && r >= 1
              && stepSize * (r - 1) + windowLength <= nSteps
              && nSteps < stepSize * r + windowLength
    ensures var nSteps := SpannedSteps(nTimeSteps, windowLength, integerWindows);
            nSteps < windowLength ==> r <= 0
  {
    var nSteps := SpannedSteps(nTimeSteps, windowLength, integerWindows);
    (nSteps - windowLength) / stepSize + 1
  }

  /** `n_steps`: the steps covered by `n_split` whole or fractional windows. */
  function SpannedSteps(nTimeSteps: nat, windowLength: nat, integerWindows: bool): nat
    requires windowLength > 0
  {
    if integerWindows then windowLength * (nTimeSteps / windowLength) else nTimeSteps
  }

  /** The planning part of `fit`: check the time axis, count the step-aligned
      windows (dividing by the window length and the step), reject a window
      longer than the series, and append one flagged window when the
      step-aligned ones stop short of the end. */
  function PlanWindows(nTimeSteps: nat, timeSize: nat, windowLength: nat,
                       stepSize: nat): (r: Result<WindowPlan>)
    ensures r.Ok? <==> && nTimeSteps == timeSize && windowLength > 0 && stepSize > 0
                       && windowLength <= nTimeSteps
    ensures nTimeSteps != timeSize ==> r == Err(DataTimeMismatch)
    ensures nTimeSteps == timeSize && (windowLength == 0 || stepSize == 0) ==> r == Err(ZeroDivision)
    ensures nTimeSteps == timeSize && windowLength > 0 && stepSize > 0 && windowLength > nTimeSteps ==>
              r == Err(WindowTooLong)
    ensures r.Ok? ==> && ValidPlan(r.value)
                      && r.value.nTimeSteps == nTimeSteps
                      && r.value.windowLength == windowLength
                      && r.value.stepSize == stepSize
  {
    if nTimeSteps != timeSize then Err(DataTimeMismatch)
    else if windowLength == 0 || stepSize == 0 then Err(ZeroDivision)
    else
      var base := BuildWindows(nTimeSteps, windowLength, stepSize, false);
      if windowLength > nTimeSteps then Err(WindowTooLong)
      else
        var q := (nTimeSteps - windowLength) / stepSize;
        assert nTimeSteps - windowLength == stepSize * q + (nTimeSteps - windowLength) % stepSize;
        SplitIsDivMod(nTimeSteps - windowLength, stepSize);
        var lastShift := nTimeSteps - (stepSize * (base - 1) + windowLength);
        if lastShift > 0 then Ok(WindowPlan(nTimeSteps, windowLength, stepSize, base + 1, true))
        else Ok(WindowPlan(nTimeSteps, windowLength, stepSize, base, false))
  }

  /** A Python `slice(start, stop)` with step one. */
  datatype Slice = Slice(start: Option<int>, stop: Option<int>)

  /** `get_window_indices`: the step-aligned slice of slide `k`, except that the
      flagged last slide reads the final `windowLength` samples. */
  function WindowIndices(p: WindowPlan, k: nat): Slice
  {
    var sampleStart := p.stepSize * k;
    if k == p.nSlides - 1 && p.nonIntegerNSlide then
      Slice(Some(-(p.windowLength as int)), None)
    else
      Slice(Some(sampleStart), Some(sampleStart + p.windowLength))
  }

  /** Where a slice bound lands in a sequence of length `len`: negative bounds
      count from the end, and both kinds are clamped into [0, len]. */
  function ClampBound(b: int, len: nat): (r: nat)
    ensures r <= len
  {
    if b < 0 then (if b + len < 0 then 0 else b + len) else Min(b, len)
  }

  /** The half-open range `[lo, hi)` a slice selects from a sequence of length
      `len`: a missing start is 0 and a missing stop is `len`, a negative bound
      counts from the end, a bound beyond either end is clamped to it, and a
      stop before the start selects nothing. */
  function Resolve(s: Slice, len: nat): (r: (nat, nat))
    ensures r.0 <= r.1 <= len
    ensures s.start.None? ==> r.0 == 0
    ensures s.start.Some? && 0 <= s.start.value <= len ==> r.0 == s.start.value
    ensures s.start.Some? && len < s.start.value ==> r.0 == len
    ensures s.start.Some? && -(len as int) <= s.start.value < 0 ==> r.0 == len + s.start.value
    ensures s.start.Some? && s.start.value < -(len as int) ==> r.0 == 0
    ensures s.stop.None? ==> r.1 == len
    ensures s.stop.Some? && 0 <= s.stop.value <= len ==> r.1 == Max(r.0, s.stop.value)
    ensures s.stop.Some? && len < s.stop.value ==> r.1 == len
    ensures s.stop.Some? && -(len as int) <= s.stop.value < 0 ==> r.1 == Max(r.0, len + s.stop.value)
    ensures s.stop.Some? && s.stop.value < -(len as int) ==> r.1 == r.0
  {
    var lo := match s.start case None => 0 case Some(b) => ClampBound(b, len);
    var hi := match s.stop case None => len case Some(b) => ClampBound(b, len);
    (lo, if hi < lo then lo else hi)
  }

  lemma MulMonotone(a: nat, b: nat, c: nat)
    requires a <= b
    ensures c * a <= c * b
  {
  }

  /** The range window `k` reads: always exactly `windowLength` steps inside the
      series, starting at `stepSize * k` except for the flagged last window, which
      is the final `windowLength` steps; the last window always ends the series. */
  function Window(p: WindowPlan, k: nat): (w: (nat, nat))
    requires ValidPlan(p) && k < p.nSlides
    ensures w.1 == w.0 + p.windowLength && w.1 <= p.nTimeSteps
    ensures k == p.nSlides - 1 && p.nonIntegerNSlide ==> w.0 == p.nTimeSteps - p.windowLength
    ensures !(k == p.nSlides - 1 && p.nonIntegerNSlide) ==> w.0 == p.stepSize * k
    ensures k == p.nSlides - 1 ==> w.1 == p.nTimeSteps
  {
    PlanDivides(p);
    var q := (p.nTimeSteps - p.windowLength) / p.stepSize;
    assert p.nTimeSteps - p.windowLength
        == p.stepSize * q + (p.nTimeSteps - p.windowLength) % p.stepSize;
    if !(k == p.nSlides - 1 && p.nonIntegerNSlide) then
      MulMonotone(k, q, p.stepSize);
      (p.stepSize * k, p.stepSize * k + p.windowLength)
    else
      (p.nTimeSteps - p.windowLength, p.nTimeSteps)
  }

  /** The range of window `k` is what Python makes of the slice
      `get_window_indices` returns for it. */
  lemma WindowIsSlice(p: WindowPlan, k: nat)
    requires ValidPlan(p) && k < p.nSlides
    ensures Window(p, k) == Resolve(WindowIndices(p, k), p.nTimeSteps)
  {
    var w := Window(p, k);
    var r := Resolve(WindowIndices(p, k), p.nTimeSteps);
    assert r.0 == w.0;
    assert r.1 == w.1;
  }

  /** Window `k` reads time step `t`. */
  predicate Covers(p: WindowPlan, k: nat, t: nat)
    requires ValidPlan(p) && k < p.nSlides
  {
    Window(p, k).0 <= t < Window(p, k).1
  }

  /** Floor division brackets its dividend: `s * (t / s) <= t < s * (t / s) + s`. */
  lemma DivBrackets(t: nat, s: nat)
    requires s > 0
    ensures s * (t / s) <= t < s * (t / s) + s
  {
    assert t == s * (t / s) + t % s;
  }

  lemma DivMonotone(t: nat, u: nat, s: nat)
    requires s > 0 && t <= u
    ensures t / s <= u / s
  {
    DivBrackets(t, s);
    DivBrackets(u, s);
    if t / s > u / s {
      MulMonotone(u / s + 1, t / s, s);
    }
  }

  /** When the step does not exceed the window, the windows leave no gap: every
      time step of the series is read by some window. */
  lemma {:induction false} EveryStepCovered(p: WindowPlan, t: nat)
    requires ValidPlan(p) && p.stepSize <= p.windowLength && t < p.nTimeSteps
    ensures exists k :: 0 <= k < p.nSlides && Covers(p, k, t)
  {
    var span := p.nTimeSteps - p.windowLength;
    PlanDivides(p);
    if t >= span {
      assert Covers(p, p.nSlides - 1, t);
    } else {
      var k := t / p.stepSize;
      DivBrackets(t, p.stepSize);
      DivMonotone(t, span, p.stepSize);
      assert k < p.nSlides - 1 || !p.nonIntegerNSlide;
      assert Window(p, k).0 == p.stepSize * k;
      assert Covers(p, k, t);
    }
  }

  /** Two worked planning examples: 200 steps with windows of 40 every 10
      tile exactly with 17 slides; 95 steps with windows of 10 every 10 need a
      tenth, flagged slide pinned to steps 85..95. */
  lemma PlanExamples()
    ensures PlanWindows(200, 200, 40, 10) == Ok(WindowPlan(200, 40, 10, 17, false))
    ensures PlanWindows(95, 95, 10, 10) == Ok(WindowPlan(95, 10, 10, 10, true))
    ensures Window(WindowPlan(95, 10, 10, 10, true), 9) == (85, 95)
  {
  }
}
