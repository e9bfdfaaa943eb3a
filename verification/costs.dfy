/** The COSTS object: its configuration, the fit over sliding windows, the
    band clustering of the fitted eigenvalues and the band reconstruction.
    The spectral solver, the rank truncation and the clustering algorithm are
    parameters: the model fixes what they are asked and what is done with
    their answers. */
module Costs {
  import opened Base
  import opened Windows
  import opened Ranks
  import opened Seeds
  import opened Slots
  import opened Kernels
  import opened Bands
  import R = Reconstruction

  /** The constructor arguments the fit and the clustering read. */
  datatype Config = Config(
    svdRank: Option<int>,
    globalSvd: bool,
    initializeArtificially: bool,
    useLastFreq: bool,
    initAlpha: Option<Seed>,
    resetAlphaInit: bool,
    forceEvenEigs: bool,
    maxRank: Option<int>,
    nComponents: Option<int>,
    kernMethod: string)

  /** What the solver returns for one window: one row of modes per variable,
      the eigenvalues and their amplitudes. */
  datatype WindowFit = WindowFit(modes: seq<seq<Complex>>, eigs: seq<Complex>, amplitudes: seq<Complex>)

  /** What the solver is given for window `k`: the window's data with its mean
      removed (the taper is applied to it as `taper` says), its time axis
      shifted to start at zero, the rank and the eigenvalue seed. */
  datatype Request = Request(window: nat, data: seq<seq<real>>, time: seq<real>,
                             taper: LvKern, rank: int, seed: Option<Seed>)

  /** The spectral solver (`BOPDMD.fit`). */
  type Solver = Request -> Result<WindowFit>

  /** `compute_rank` on a tapered, mean-removed window with the given svd_rank. */
  type WindowRanker = (seq<seq<real>>, LvKern, int) -> nat

  /** `compute_rank` on the whole data set. */
  type DataRanker = Option<int> -> nat

  /** One window of a fit: the rank and seed it was fitted with, and the fit. */
  datatype Step = Step(rank: int, seed: Option<Seed>, fit: WindowFit)

  /** The zero-initialised result arrays: the time samples, modes, eigenvalues,
      amplitudes and means of every window. */
  datatype Arrays = Arrays(
    times: seq<seq<real>>,
    modes: seq<seq<seq<Complex>>>,
    omega: seq<seq<Complex>>,
    amplitudes: seq<seq<Complex>>,
    means: seq<seq<real>>)

  /** Everything `fit` leaves on the object. */
  datatype Fitted = Fitted(plan: WindowPlan, nVars: nat, sizing: Sizing, trace: seq<Step>, arrays: Arrays)

  datatype Costs = Costs(
    cfg: Config,
    clusterCentroids: Option<seq<real>>,
    omegaClasses: Option<seq<seq<int>>>,
    transformMethod: Option<string>,
    fitted: Option<Fitted>)

  const DefaultKernMethod: string := "kern"

  /** The constructor.  It stores every modelled argument except
      `cluster_centroids`, which a later line overwrites with None, and
      defaults the kernel method to "kern".  `pydmd_kwargs` and
      `relative_filter_length` are not modelled. */
  function New(svdRank: Option<int>, globalSvd: bool, initializeArtificially: bool,
               useLastFreq: bool, initAlpha: Option<Seed>, clusterCentroids: Option<seq<real>>,
               resetAlphaInit: bool, forceEvenEigs: bool, maxRank: Option<int>,
               nComponents: Option<int>, kernMethod: Option<string>): (s: Costs)
    ensures s.clusterCentroids.None? && s.omegaClasses.None?
    ensures s.transformMethod.None? && s.fitted.None?
    ensures s.cfg.kernMethod == if kernMethod.None? then DefaultKernMethod else kernMethod.value
    ensures s.cfg.svdRank == svdRank && s.cfg.globalSvd == globalSvd
    ensures s.cfg.initializeArtificially == initializeArtificially && s.cfg.initAlpha == initAlpha
    ensures s.cfg.useLastFreq == useLastFreq && s.cfg.resetAlphaInit == resetAlphaInit
    ensures s.cfg.forceEvenEigs == forceEvenEigs && s.cfg.maxRank == maxRank
    ensures s.cfg.nComponents == nComponents
  {
    var kern := if kernMethod.None? then DefaultKernMethod else kernMethod.value;
    Costs(Config(svdRank, globalSvd, initializeArtificially, useLastFreq, initAlpha,
                 resetAlphaInit, forceEvenEigs, maxRank, nComponents, kern),
          None, None, None, None)
  }

  /** What `fit` settles before its first window. */
  datatype Setup = Setup(plan: WindowPlan, sizing: Sizing, init: Option<Seed>, taper: LvKern)

  /** The part of `fit` before the window loop, in the source's order: plan the
      windows, apply the rank policy, allocate the result arrays (a negative
      width is rejected), build the initial seed from the object's current
      centroids, and choose the taper. */
  function Prepare(s: Costs, nVars: nat, nTimeSteps: nat, timeSize: nat, windowLength: nat,
                   stepSize: nat, cornerSharpness: Option<real>, dataRank: DataRanker): (r: Result<Setup>)
    ensures PlanWindows(nTimeSteps, timeSize, windowLength, stepSize).Err? ==>
              r == Err(PlanWindows(nTimeSteps, timeSize, windowLength, stepSize).error)
    ensures PlanWindows(nTimeSteps, timeSize, windowLength, stepSize).Ok? ==>
              var p := RankPolicy(s.cfg.svdRank, s.cfg.globalSvd, s.cfg.forceEvenEigs,
                                  s.cfg.maxRank, nVars, dataRank);
              && (p.Err? ==> r == Err(p.error))
              && (p.Ok? && p.value.preAllocate < 0 ==> r == Err(NegativeDimension))
    ensures CalculateLvKern(windowLength, cornerSharpness, s.cfg.kernMethod).Err? ==> r.Err?
    ensures r.Ok? ==>
              && ValidPlan(r.value.plan)
              && r.value.plan.nTimeSteps == nTimeSteps == timeSize
              && r.value.plan.windowLength == windowLength
              && r.value.plan.stepSize == stepSize
              && r.value.sizing.preAllocate >= 0
              && r.value.sizing == RankPolicy(s.cfg.svdRank, s.cfg.globalSvd, s.cfg.forceEvenEigs,
                                               s.cfg.maxRank, nVars, dataRank).value
              && (!s.cfg.initializeArtificially ==> r.value.init.None?)
              && (s.cfg.initializeArtificially && s.cfg.initAlpha.Some? ==> r.value.init == s.cfg.initAlpha)
              && (s.clusterCentroids.None? ==> r.value.init == s.cfg.initAlpha || r.value.init.None?)
              && BuildInitialization(s.cfg.initializeArtificially, s.cfg.initAlpha, s.clusterCentroids,
                                     r.value.sizing.svdRank, s.cfg.nComponents) == Ok(r.value.init)
              && r.value.taper == CalculateLvKern(windowLength, cornerSharpness, s.cfg.kernMethod).value
  {
    match PlanWindows(nTimeSteps, timeSize, windowLength, stepSize)
    case Err(e) => Err(e)
    case Ok(plan) =>
      match RankPolicy(s.cfg.svdRank, s.cfg.globalSvd, s.cfg.forceEvenEigs, s.cfg.maxRank, nVars, dataRank)
      case Err(e) => Err(e)
      case Ok(sizing) =>
        if sizing.preAllocate < 0 then Err(NegativeDimension)
        else
          match BuildInitialization(s.cfg.initializeArtificially, s.cfg.initAlpha,
                                    s.clusterCentroids, sizing.svdRank, s.cfg.nComponents)
          case Err(e) => Err(e)
          case Ok(init) =>
            match CalculateLvKern(windowLength, cornerSharpness, s.cfg.kernMethod)
            case Err(e) => Err(e)
            case Ok(taper) => Ok(Setup(plan, sizing, init, taper))
  }

  /** The centroids handed to the constructor never seed a fit: a fresh object
      without `init_alpha` starts its first fit unseeded, whatever centroids it
      was given. */
  lemma ConstructorCentroidsIgnored(svdRank: Option<int>, globalSvd: bool, useLastFreq: bool,
      centroids: seq<real>, resetAlphaInit: bool, forceEvenEigs: bool, maxRank: Option<int>,
      nComponents: Option<int>, kernMethod: Option<string>, nVars: nat, nTimeSteps: nat,
      windowLength: nat, stepSize: nat, cornerSharpness: Option<real>, dataRank: DataRanker)
    ensures var s := New(svdRank, globalSvd, true, useLastFreq, None, Some(centroids),
                         resetAlphaInit, forceEvenEigs, maxRank, nComponents, kernMethod);
            var r := Prepare(s, nVars, nTimeSteps, nTimeSteps, windowLength, stepSize,
                             cornerSharpness, dataRank);
            r.Ok? ==> r.value.init.None?
  {
  }

  /** Everything the window loop reads. */
  datatype Job = Job(cfg: Config, plan: WindowPlan, sizing: Sizing, taper: LvKern,
                     init: Option<Seed>, data: seq<seq<real>>, time: seq<real>)

  predicate ValidJob(j: Job)
  {
    && ValidPlan(j.plan)
    && j.sizing.preAllocate >= 0
    && |j.time| == j.plan.nTimeSteps
    && forall v :: 0 <= v < |j.data| ==> |j.data[v]| == j.plan.nTimeSteps
  }

  function Width(j: Job): nat
    requires ValidJob(j)
  {
    j.sizing.preAllocate
  }

  /** The mean of every variable over window `k` (`np.mean(data_window, 1)`). */
  function WindowMeans(j: Job, k: nat): (c: seq<real>)
    requires ValidJob(j) && k < j.plan.nSlides
    ensures |c| == |j.data|
  {
    var w := Window(j.plan, k);
    seq(|j.data|, v requires 0 <= v < |j.data| =>
      Sum(j.data[v][w.0..w.1]) / (j.plan.windowLength as real))
  }

  /** Window `k`'s data with each variable's window mean removed. */
  function Centred(j: Job, k: nat): (d: seq<seq<real>>)
    requires ValidJob(j) && k < j.plan.nSlides
    ensures |d| == |j.data|
    ensures forall v :: 0 <= v < |d| ==> |d[v]| == j.plan.windowLength
  {
    var w := Window(j.plan, k);
    var c := WindowMeans(j, k);
    seq(|j.data|, v requires 0 <= v < |j.data| =>
      seq(j.plan.windowLength, tl requires 0 <= tl < j.plan.windowLength =>
        j.data[v][w.0 + tl] - c[v]))
  }

  /** Window `k`'s time samples as read from the series. */
  function TimeSlice(j: Job, k: nat): (t: seq<real>)
    requires ValidJob(j) && k < j.plan.nSlides
    ensures |t| == j.plan.windowLength
  {
    var w := Window(j.plan, k);
    j.time[w.0..w.1]
  }

  /** Window `k`'s time axis shifted to start at zero. */
  function ShiftedTime(j: Job, k: nat): (t: seq<real>)
    requires ValidJob(j) && k < j.plan.nSlides
    ensures |t| == j.plan.windowLength
    ensures |t| > 0 && t[0] == 0.0
    ensures forall p, q :: 0 <= p < q < |t| ==> t[q] - t[p] == TimeSlice(j, k)[q] - TimeSlice(j, k)[p]
  {
    var s := TimeSlice(j, k);
    seq(|s|, tl requires 0 <= tl < |s| => s[tl] - s[0])
  }

  /** The rank window `k` is fitted with: the global rank, or the window's own
      truncation rank passed through the even round-up and the `max_rank` cap. */
  function RankAt(j: Job, ranker: WindowRanker, k: nat): int
    requires ValidJob(j) && k < j.plan.nSlides
  {
    if j.cfg.globalSvd then j.sizing.svdRank
    else WindowRank(ranker(Centred(j, k), j.taper, j.sizing.svdRank), j.cfg.forceEvenEigs, j.cfg.maxRank)
  }

  /** For a job sized by the rank policy: a global fit uses exactly the reserved
      width; an adaptive window never outgrows a `max_rank` width; without a
      cap, a window truncated within the spatial dimension outgrows it by at
      most the one slot of the even round-up, and not at all unless evenness is
      forced; and a forced window rank is even under an even or absent cap. */
  lemma RankFitsWidth(j: Job, ranker: WindowRanker, k: nat, dataRank: DataRanker)
    requires ValidJob(j) && k < j.plan.nSlides
    requires RankPolicy(j.cfg.svdRank, j.cfg.globalSvd, j.cfg.forceEvenEigs, j.cfg.maxRank,
                        |j.data|, dataRank) == Ok(j.sizing)
    ensures j.cfg.globalSvd ==> RankAt(j, ranker, k) == Width(j)
    ensures j.sizing.mode == Adaptive && j.cfg.maxRank.Some? ==> RankAt(j, ranker, k) <= Width(j)
    ensures j.sizing.mode == Adaptive && j.cfg.maxRank.None?
            && ranker(Centred(j, k), j.taper, j.sizing.svdRank) <= |j.data| ==>
              && RankAt(j, ranker, k) <= Width(j) + 1
              && (!j.cfg.forceEvenEigs ==> RankAt(j, ranker, k) <= Width(j))
    ensures !j.cfg.globalSvd && j.cfg.forceEvenEigs && (j.cfg.maxRank.None? || j.cfg.maxRank.value % 2 == 0) ==>
              RankAt(j, ranker, k) % 2 == 0
  {
  }

  function RequestAt(j: Job, ranker: WindowRanker, k: nat, seed: Option<Seed>): Request
    requires ValidJob(j) && k < j.plan.nSlides
  {
    Request(k, Centred(j, k), ShiftedTime(j, k), j.taper, RankAt(j, ranker, k), seed)
  }

  /** The fit's arrays fit into the slots reserved for a window: one row of
      modes per variable, all rows and the eigenvalues no wider than the
      reserved width, and one amplitude per eigenvalue. */
  predicate Accepts(f: WindowFit, nVars: nat, width: nat)
  {
    && |f.modes| == nVars
    && (forall v :: 0 <= v < |f.modes| ==> |f.modes[v]| == |f.modes[0]| <= width)
    && |f.eigs| <= width
    && |f.amplitudes| == |f.eigs|
  }

  /** The seed the next window is given.  In global mode the solver object is
      never reset, so it keeps the seed it was built with. */
  function Carry(j: Job, seed: Option<Seed>, f: WindowFit): Option<Seed>
  {
    if j.cfg.globalSvd then seed else NextSeed(j.cfg.useLastFreq, j.cfg.resetAlphaInit, j.init, f.eigs)
  }

  function Prepend(done: seq<Step>, rest: Result<seq<Step>>): (r: Result<seq<Step>>)
    ensures r.Ok? <==> rest.Ok?
    ensures rest.Err? ==> r == rest
    ensures rest.Ok? ==> r.value == done + rest.value
  {
    match rest
    case Ok(s) => Ok(done + s)
    case Err(e) => Err(e)
  }

  lemma PrependNothing(rest: Result<seq<Step>>)
    ensures Prepend([], rest) == rest
  {
    if rest.Ok? {
      assert [] + rest.value == rest.value;
    }
  }

  lemma PrependTwice(done: seq<Step>, st: Step, rest: Result<seq<Step>>)
    ensures Prepend(done, Prepend([st], rest)) == Prepend(done + [st], rest)
  {
    if rest.Ok? {
      assert done + ([st] + rest.value) == (done + [st]) + rest.value;
    }
  }

  /** What fitting one window does, given the window and its seed: a step, or
      the error that ends the loop. */
  type Stepper = (nat, Option<Seed>) -> Result<Step>

  /** How the seed of one window follows from the seed and fit of the one
      before. */
  type Carrier = (Option<Seed>, WindowFit) -> Option<Seed>

  /** The reference semantics of the window loop from window `k` of `n` on,
      given the seed window `k` starts with: fit each window in turn, stop at
      the first error, and carry the seed forward. */
  function Run(att: Stepper, carry: Carrier, n: nat, k: nat, seed: Option<Seed>): Result<seq<Step>>
    requires k <= n
    decreases n - k
  {
    if k == n then Ok([])
    else
      match att(k, seed)
      case Err(e) => Err(e)
      case Ok(st) => Prepend([st], Run(att, carry, n, k + 1, carry(seed, st.fit)))
  }

  /** A trace of windows `k0 ..` that starts from `seed0`: each step is what
      fitting its window with its seed gives, and each seed is carried from
      the window before. */
  predicate Follows(att: Stepper, carry: Carrier, trace: seq<Step>, k0: nat, seed0: Option<Seed>)
  {
    && (|trace| > 0 ==> trace[0].seed == seed0)
    && (forall i :: 0 <= i < |trace| ==> att(k0 + i, trace[i].seed) == Ok(trace[i]))
    && (forall i :: 0 < i < |trace| ==> trace[i].seed == carry(trace[i - 1].seed, trace[i - 1].fit))
  }

  /** A step, put in front of a trace of the later windows seeded by what it
      carries, gives a trace. */
  lemma FollowsCons(att: Stepper, carry: Carrier, st: Step, rest: seq<Step>, k: nat)
    requires att(k, st.seed) == Ok(st)
    requires Follows(att, carry, rest, k + 1, carry(st.seed, st.fit))
    ensures Follows(att, carry, [st] + rest, k, st.seed)
  {
    var t := [st] + rest;
    forall i | 0 < i < |t|
      ensures att(k + i, t[i].seed) == Ok(t[i])
    {
      assert t[i] == rest[i - 1];
    }
    forall i | 0 < i < |t|
      ensures t[i].seed == carry(t[i - 1].seed, t[i - 1].fit)
    {
      assert t[i] == rest[i - 1];
      if i > 1 {
        assert t[i - 1] == rest[i - 2];
      }
    }
  }

  /** Every step records the seed it was fitted with. */
  ghost predicate KeepsSeed(att: Stepper)
  {
    forall k, seed :: att(k, seed).Ok? ==> att(k, seed).value.seed == seed
  }

  /** A successful run covers every remaining window and is a trace. */
  lemma {:induction false} RunFollows(att: Stepper, carry: Carrier, n: nat, k: nat, seed: Option<Seed>)
    requires KeepsSeed(att) && k <= n && Run(att, carry, n, k, seed).Ok?
    ensures var t := Run(att, carry, n, k, seed).value;
            |t| == n - k && Follows(att, carry, t, k, seed)
    decreases n - k
  {
    if k < n {
      var st := att(k, seed).value;
      var next := carry(seed, st.fit);
      RunFollows(att, carry, n, k + 1, next);
      FollowsCons(att, carry, st, Run(att, carry, n, k + 1, next).value, k);
    }
  }

  /** Dropping the first window of a trace leaves a trace of the later
      windows, seeded by what the first window carries. */
  lemma FollowsTail(att: Stepper, carry: Carrier, trace: seq<Step>, k: nat, seed: Option<Seed>)
    requires |trace| > 0 && Follows(att, carry, trace, k, seed)
    ensures Follows(att, carry, trace[1..], k + 1, carry(seed, trace[0].fit))
  {
    var rest := trace[1..];
    forall i | 0 <= i < |rest|
      ensures att(k + 1 + i, rest[i].seed) == Ok(rest[i])
    {
      assert rest[i] == trace[i + 1];
    }
    forall i | 0 < i < |rest|
      ensures rest[i].seed == carry(rest[i - 1].seed, rest[i - 1].fit)
    {
      assert rest[i] == trace[i + 1] && rest[i - 1] == trace[i];
    }
    if |rest| > 0 {
      assert rest[0] == trace[1];
    }
  }

  /** Conversely, a complete trace is the run: fitting leaves no freedom. */
  lemma {:induction false} FollowsIsRun(att: Stepper, carry: Carrier, n: nat,
                                        trace: seq<Step>, k: nat, seed: Option<Seed>)
    requires k + |trace| == n && Follows(att, carry, trace, k, seed)
    ensures Run(att, carry, n, k, seed) == Ok(trace)
    decreases |trace|
  {
    if |trace| > 0 {
      var st, rest := trace[0], trace[1..];
      FollowsTail(att, carry, trace, k, seed);
      FollowsIsRun(att, carry, n, rest, k + 1, carry(seed, st.fit));
      assert att(k, seed) == Ok(st);
      assert trace == [st] + rest;
    }
  }

  /** Window `k` of job `j`: build its request from the seed, fit it, and
      reject a fit that does not fit the slots reserved for it. */
  function Attempt(j: Job, ranker: WindowRanker, solve: Solver, k: nat, seed: Option<Seed>): Result<Step>
    requires ValidJob(j) && k < j.plan.nSlides
  {
    var req := RequestAt(j, ranker, k, seed);
    match solve(req)
    case Err(e) => Err(e)
    case Ok(f) => if !Accepts(f, |j.data|, Width(j)) then Err(ShapeMismatch) else Ok(Step(req.rank, seed, f))
  }

  /** The window loop of job `j` as a stepper: windows past the plan do not
      exist. */
  function Policy(j: Job, ranker: WindowRanker, solve: Solver): Stepper
  {
    (k: nat, seed: Option<Seed>) =>
      if ValidJob(j) && k < j.plan.nSlides then Attempt(j, ranker, solve, k, seed) else Err(IndexOutOfRange)
  }

  lemma PolicyKeepsSeed(j: Job, ranker: WindowRanker, solve: Solver)
    ensures KeepsSeed(Policy(j, ranker, solve))
  {
  }

  function CarryOf(j: Job): Carrier
  {
    (seed: Option<Seed>, f: WindowFit) => Carry(j, seed, f)
  }

  /** The run of the whole window loop of job `j`. */
  function JobRun(j: Job, ranker: WindowRanker, solve: Solver): Result<seq<Step>>
  {
    Run(Policy(j, ranker, solve), CarryOf(j), j.plan.nSlides, 0, j.init)
  }

  /** A trace of job `j`. */
  predicate JobTrace(j: Job, ranker: WindowRanker, solve: Solver, trace: seq<Step>)
  {
    Follows(Policy(j, ranker, solve), CarryOf(j), trace, 0, j.init)
  }

  /** Under the global basis, and under the default policy, every window is
      fitted with the seed the first one was given. */
  lemma {:induction false} SeedHeld(j: Job, ranker: WindowRanker, solve: Solver, trace: seq<Step>, i: nat)
    requires i < |trace| && JobTrace(j, ranker, solve, trace)
    requires j.cfg.globalSvd || (!j.cfg.useLastFreq && !j.cfg.resetAlphaInit)
    ensures trace[i].seed == j.init
  {
    if i > 0 {
      SeedHeld(j, ranker, solve, trace, i - 1);
      assert trace[i].seed == Carry(j, trace[i - 1].seed, trace[i - 1].fit);
    }
  }

  /** The seed policy over a whole trace: the global basis and the default keep
      the initial seed, `use_last_freq` seeds each window with the eigenvalues
      of the one before, and `reset_alpha_init` alone leaves every window after
      the first unseeded. */
  lemma SeedPolicy(j: Job, ranker: WindowRanker, solve: Solver, trace: seq<Step>)
    requires JobTrace(j, ranker, solve, trace)
    ensures j.cfg.globalSvd ==> forall i :: 0 <= i < |trace| ==> trace[i].seed == j.init
    ensures !j.cfg.globalSvd && !j.cfg.useLastFreq && !j.cfg.resetAlphaInit ==>
              forall i :: 0 <= i < |trace| ==> trace[i].seed == j.init
    ensures !j.cfg.globalSvd && j.cfg.useLastFreq ==>
              forall i :: 0 < i < |trace| ==> trace[i].seed == Some(Alpha(trace[i - 1].fit.eigs))
    ensures !j.cfg.globalSvd && !j.cfg.useLastFreq && j.cfg.resetAlphaInit ==>
              forall i :: 0 < i < |trace| ==> trace[i].seed.None?
  {
    if j.cfg.globalSvd || (!j.cfg.useLastFreq && !j.cfg.resetAlphaInit) {
      forall i | 0 <= i < |trace|
        ensures trace[i].seed == j.init
      {
        SeedHeld(j, ranker, solve, trace, i);
      }
    } else if j.cfg.useLastFreq {
      forall i | 0 < i < |trace|
        ensures trace[i].seed == Some(Alpha(trace[i - 1].fit.eigs))
      {
        assert trace[i].seed == Carry(j, trace[i - 1].seed, trace[i - 1].fit);
      }
    } else {
      forall i | 0 < i < |trace|
        ensures trace[i].seed.None?
      {
        assert trace[i].seed == Carry(j, trace[i - 1].seed, trace[i - 1].fit);
      }
    }
  }

  /** `np.zeros` for every result array: the right shapes, all rows zero. */
  function ZeroArrays(n: nat, nVars: nat, windowLength: nat, width: nat): (a: Arrays)
    ensures Shape(a, n, nVars, windowLength, width)
    ensures forall k :: 0 <= k < n ==> RowZero(a, k, nVars, windowLength, width)
  {
    Arrays(Grid(n, windowLength, 0.0), Fill(n, Grid(nVars, width, Zero)),
           Grid(n, width, Zero), Grid(n, width, Zero), Grid(n, nVars, 0.0))
  }

  predicate Shape(a: Arrays, n: nat, nVars: nat, windowLength: nat, width: nat)
  {
    && |a.times| == n && |a.modes| == n && |a.omega| == n && |a.amplitudes| == n && |a.means| == n
    && forall k :: 0 <= k < n ==>
         && |a.times[k]| == windowLength
         && |a.modes[k]| == nVars
         && (forall v :: 0 <= v < nVars ==> |a.modes[k][v]| == width)
         && |a.omega[k]| == width && |a.amplitudes[k]| == width
         && |a.means[k]| == nVars
  }

  /** Row `k` of every array still holds its zeros. */
  predicate RowZero(a: Arrays, k: nat, nVars: nat, windowLength: nat, width: nat)
    requires k < |a.times| && k < |a.modes| && k < |a.omega| && k < |a.amplitudes| && k < |a.means|
  {
    && a.times[k] == Fill(windowLength, 0.0)
    && a.modes[k] == Fill(nVars, Fill(width, Zero))
    && a.omega[k] == Fill(width, Zero)
    && a.amplitudes[k] == Fill(width, Zero)
    && a.means[k] == Fill(nVars, 0.0)
  }

  /** `x[:|p|] == p` and zeros after it. */
  predicate PaddedBy(x: seq<Complex>, p: seq<Complex>)
  {
    |p| <= |x|
    && (forall i :: 0 <= i < |p| ==> x[i] == p[i])
    && (forall i :: |p| <= i < |x| ==> x[i] == Zero)
  }

  /** Row `k` holds window `k`'s fit in its leading slots and zeros after them,
      its time samples and its means. */
  predicate RowHolds(j: Job, a: Arrays, k: nat, st: Step)
    requires ValidJob(j) && k < j.plan.nSlides
    requires Shape(a, j.plan.nSlides, |j.data|, j.plan.windowLength, Width(j))
  {
    && a.times[k] == TimeSlice(j, k)
    && |st.fit.modes| == |j.data|
    && (forall v :: 0 <= v < |j.data| ==> PaddedBy(a.modes[k][v], st.fit.modes[v]))
    && PaddedBy(a.omega[k], st.fit.eigs)
    && PaddedBy(a.amplitudes[k], st.fit.amplitudes)
    && a.means[k] == WindowMeans(j, k)
  }

  /** The prefix write into a zero row leaves a padded row. */
  lemma PrefixIntoZeros(width: nat, p: seq<Complex>)
    requires |p| <= width
    ensures PaddedBy(WritePrefix(Fill(width, Zero), p), p)
  {
  }

  /** The arrays after the windows of `trace`: their rows hold those windows
      and every later row is still zero. */
  predicate Filled(j: Job, a: Arrays, trace: seq<Step>)
    requires ValidJob(j) && |trace| <= j.plan.nSlides
  {
    && Shape(a, j.plan.nSlides, |j.data|, j.plan.windowLength, Width(j))
    && (forall i :: 0 <= i < |trace| ==> RowHolds(j, a, i, trace[i]))
    && (forall i :: |trace| <= i < j.plan.nSlides ==> RowZero(a, i, |j.data|, j.plan.windowLength, Width(j)))
  }

  /** Row `k` of every array after writing `st` into zeros. */
  function WriteRow(j: Job, a: Arrays, k: nat, st: Step): (r: Arrays)
    requires ValidJob(j) && k < j.plan.nSlides
    requires Shape(a, j.plan.nSlides, |j.data|, j.plan.windowLength, Width(j))
    requires RowZero(a, k, |j.data|, j.plan.windowLength, Width(j))
    requires Accepts(st.fit, |j.data|, Width(j))
    ensures Shape(r, j.plan.nSlides, |j.data|, j.plan.windowLength, Width(j))
    ensures RowHolds(j, r, k, st)
    ensures forall i :: 0 <= i < j.plan.nSlides && i != k ==>
              && r.times[i] == a.times[i] && r.modes[i] == a.modes[i] && r.omega[i] == a.omega[i]
              && r.amplitudes[i] == a.amplitudes[i] && r.means[i] == a.means[i]
  {
    var f := st.fit;
    var nVars := |j.data|;
    var modesRow := seq(nVars, v requires 0 <= v < nVars => WritePrefix(a.modes[k][v], f.modes[v]));
    forall v | 0 <= v < nVars
      ensures PaddedBy(modesRow[v], f.modes[v])
    {
      PrefixIntoZeros(Width(j), f.modes[v]);
    }
    PrefixIntoZeros(Width(j), f.eigs);
    PrefixIntoZeros(Width(j), f.amplitudes);
    Arrays(SetRow(a.times, k, TimeSlice(j, k)),
           SetRow(a.modes, k, modesRow),
           SetRow(a.omega, k, WritePrefix(a.omega[k], f.eigs)),
           SetRow(a.amplitudes, k, WritePrefix(a.amplitudes[k], f.amplitudes)),
           SetRow(a.means, k, WindowMeans(j, k)))
  }

  /** The writes of the next window: its rows are filled and no other row
      changes, so the arrays hold one more window of the trace. */
  function Record(j: Job, a: Arrays, trace: seq<Step>, st: Step): (r: Arrays)
    requires ValidJob(j) && |trace| < j.plan.nSlides
    requires Filled(j, a, trace)
    requires Accepts(st.fit, |j.data|, Width(j))
    ensures Filled(j, r, trace + [st])
  {
    var k, n := |trace|, j.plan.nSlides;
    var nVars, width := |j.data|, Width(j);
    var r := WriteRow(j, a, k, st);
    var t := trace + [st];
    forall i | 0 <= i < k + 1
      ensures RowHolds(j, r, i, t[i])
    {
      if i < k {
        assert t[i] == trace[i];
        assert RowHolds(j, a, i, trace[i]);
      }
    }
    forall i | k + 1 <= i < n
      ensures RowZero(r, i, nVars, j.plan.windowLength, width)
    {
      assert RowZero(a, i, nVars, j.plan.windowLength, width);
    }
    r
  }

  /** A fit left on the object for job `j`: the plan, the sizing, a complete
      trace that follows the policy, and arrays whose rows hold that trace. */
  predicate Recorded(j: Job, ranker: WindowRanker, solve: Solver, f: Fitted)
    requires ValidJob(j)
  {
    && f.plan == j.plan && f.nVars == |j.data| && f.sizing == j.sizing
    && |f.trace| == j.plan.nSlides
    && JobTrace(j, ranker, solve, f.trace)
    && Shape(f.arrays, j.plan.nSlides, |j.data|, j.plan.windowLength, Width(j))
    && forall k :: 0 <= k < j.plan.nSlides ==> RowHolds(j, f.arrays, k, f.trace[k])
  }

  /** The window loop of `fit`.  It succeeds exactly when the reference run
      does, with the same trace; every array row then holds its window's fit,
      padded with zeros, its time samples and its means. */
  method FitWindows(j: Job, ranker: WindowRanker, solve: Solver) returns (r: Result<Fitted>)
    requires ValidJob(j)
    ensures r.Ok? <==> JobRun(j, ranker, solve).Ok?
    ensures r.Err? ==> r.error == JobRun(j, ranker, solve).error
    ensures r.Ok? ==>
              && r.value.trace == JobRun(j, ranker, solve).value
              && Recorded(j, ranker, solve, r.value)
  {
    var n, nVars, width := j.plan.nSlides, |j.data|, Width(j);
    var att, carry := Policy(j, ranker, solve), CarryOf(j);
    var a := ZeroArrays(n, nVars, j.plan.windowLength, width);
    var trace: seq<Step> := [];
    var seed := j.init;
    var k := 0;
    PrependNothing(JobRun(j, ranker, solve));
    while k < n
      invariant 0 <= k <= n && |trace| == k
      invariant JobRun(j, ranker, solve) == Prepend(trace, Run(att, carry, n, k, seed))
      invariant Filled(j, a, trace)
    {
      var req := RequestAt(j, ranker, k, seed);
      var out := solve(req);
      if out.Err? {
        assert att(k, seed) == Err(out.error);
        return Err(out.error);
      }
      if !Accepts(out.value, nVars, width) {
        assert att(k, seed) == Err(ShapeMismatch);
        return Err(ShapeMismatch);
      }
      var st := Step(req.rank, seed, out.value);
      var next := Carry(j, seed, out.value);
      assert att(k, seed) == Ok(st) && carry(seed, st.fit) == next;
      PrependTwice(trace, st, Run(att, carry, n, k + 1, next));
      a := Record(j, a, trace, st);
      trace := trace + [st];
      seed := next;
      k := k + 1;
    }
    assert trace + [] == trace;
    PolicyKeepsSeed(j, ranker, solve);
    RunFollows(att, carry, n, 0, j.init);
    r := Ok(Fitted(j.plan, nVars, j.sizing, trace, a));
  }

  /** A fitted object whose arrays have the shapes the plan gives them. */
  predicate FittedShape(f: Fitted)
  {
    && ValidPlan(f.plan)
    && f.sizing.preAllocate >= 0
    && Shape(f.arrays, f.plan.nSlides, f.nVars, f.plan.windowLength, f.sizing.preAllocate)
  }

  /** `fit`: prepare, run the windows, and keep the results on the object.
      The global mode's computed rank replaces the stored svd_rank and the
      built seed replaces the stored `init_alpha`; the clustering state is
      left as it was. */
  method Fit(s: Costs, data: seq<seq<real>>, nTimeSteps: nat, time: seq<real>,
             windowLength: nat, stepSize: nat, cornerSharpness: Option<real>,
             dataRank: DataRanker, ranker: WindowRanker, solve: Solver) returns (r: Result<Costs>)
    requires forall v :: 0 <= v < |data| ==> |data[v]| == nTimeSteps
    ensures var p := Prepare(s, |data|, nTimeSteps, |time|, windowLength, stepSize, cornerSharpness, dataRank);
            && (p.Err? ==> r == Err(p.error))
            && (p.Ok? ==>
                  var j := Job(s.cfg, p.value.plan, p.value.sizing, p.value.taper, p.value.init, data, time);
                  && ValidJob(j)
                  && (r.Ok? <==> JobRun(j, ranker, solve).Ok?)
                  && (r.Err? ==> r.error == JobRun(j, ranker, solve).error)
                  && (r.Ok? ==>
                        && r.value.cfg == s.cfg.(svdRank := Some(p.value.sizing.svdRank), initAlpha := p.value.init)
                        && r.value.clusterCentroids == s.clusterCentroids
                        && r.value.omegaClasses == s.omegaClasses
                        && r.value.transformMethod == s.transformMethod
                        && r.value.fitted.Some?
                        && FittedShape(r.value.fitted.value)
                        && r.value.fitted.value.trace == JobRun(j, ranker, solve).value
                        && Recorded(j, ranker, solve, r.value.fitted.value)))
  {
    var p := Prepare(s, |data|, nTimeSteps, |time|, windowLength, stepSize, cornerSharpness, dataRank);
    if p.Err? {
      return Err(p.error);
    }
    var j := Job(s.cfg, p.value.plan, p.value.sizing, p.value.taper, p.value.init, data, time);
    var out := FitWindows(j, ranker, solve);
    if out.Err? {
      return Err(out.error);
    }
    r := Ok(s.(cfg := s.cfg.(svdRank := Some(p.value.sizing.svdRank), initAlpha := p.value.init),
               fitted := Some(out.value)));
  }

  /** `cluster_omega`: cluster the fitted eigenvalues into `nComponents` bands
      and keep the bands, the centroids, the transform and the band count.  A
      clustering class without `fit_predict` is rejected before anything else;
      an unfitted object has no eigenvalues to cluster; the estimator refuses
      a band count below one, more bands than slots, and infinite points.
      The clustering algorithm's own contract is that, once it accepts its
      input, it labels every point with a band below `nComponents` and
      returns one centre per band. */
  function ClusterOmega(s: Costs, nComponents: int, transform: Option<string>, c: Clustering): (r: Result<Costs>)
    requires s.fitted.Some? ==> FittedShape(s.fitted.value)
    requires s.fitted.Some? && c.hasFitPredict &&
             1 <= nComponents <= s.fitted.value.plan.nSlides * s.fitted.value.sizing.preAllocate ==>
               Honours(c, s.fitted.value.plan.nSlides * s.fitted.value.sizing.preAllocate, nComponents)
    ensures !c.hasFitPredict ==> r == Err(MissingFitPredict)
    ensures c.hasFitPredict && s.fitted.None? ==> r == Err(NotFitted)
    ensures transform.None? ==> r.Err?
    ensures r.Ok? <==> && c.hasFitPredict && s.fitted.Some? && TransformOf(transform).Ok?
                       && (TransformOf(transform).value == Log10 ==> HasFiniteLog(s.fitted.value.arrays.omega))
                       && ClusteringAccepts(s.fitted.value.arrays.omega, s.fitted.value.sizing.preAllocate as nat,
                                            nComponents, TransformOf(transform).value)
    ensures r.Ok? ==>
              var f := s.fitted.value;
              var width := f.sizing.preAllocate;
              && r.value.fitted == s.fitted
              && r.value.cfg == s.cfg.(nComponents := Some(nComponents))
              && r.value.transformMethod == transform
              && r.value.clusterCentroids.Some? && r.value.omegaClasses.Some?
              && Sorted(r.value.clusterCentroids.value)
              && |r.value.clusterCentroids.value| == nComponents
              && |r.value.omegaClasses.value| == f.plan.nSlides
              && ValidLabels(r.value.omegaClasses.value, width, nComponents as nat)
              && var labels := Reshape(c.labels, f.plan.nSlides, width);
                 forall k, i :: 0 <= k < f.plan.nSlides && 0 <= i < width ==>
                   r.value.clusterCentroids.value[r.value.omegaClasses.value[k][i]] == c.centers[labels[k][i]]
    ensures r.Ok? ==> Renumbers(r.value.clusterCentroids.value, c.centers)
  {
    if !c.hasFitPredict then Err(MissingFitPredict)
    else if s.fitted.None? then Err(NotFitted)
    else
      var f := s.fitted.value;
      var width := f.sizing.preAllocate;
      match Cluster(f.arrays.omega, width, nComponents, transform, c)
      case Err(e) => Err(e)
      case Ok(bands) =>
        assert IsRenumbering(bands.lut, bands.centroids, c.centers);
        Ok(s.(cfg := s.cfg.(nComponents := Some(nComponents)),
              clusterCentroids := Some(bands.centroids),
              omegaClasses := Some(bands.classes),
              transformMethod := transform))
  }

  /** The estimator's refusals on a fitted object, once the transform has
      been applied: a band count below one, more bands than eigenvalue slots,
      and, under "period", any eigenvalue with a zero imaginary part (its
      period `1 / |im|` is infinite). */
  lemma ClusteringRefusals(s: Costs, nComponents: int, transform: Option<string>, c: Clustering)
    requires s.fitted.Some? && FittedShape(s.fitted.value) && c.hasFitPredict
    requires 1 <= nComponents <= s.fitted.value.plan.nSlides * s.fitted.value.sizing.preAllocate ==>
               Honours(c, s.fitted.value.plan.nSlides * s.fitted.value.sizing.preAllocate, nComponents)
    requires TransformOf(transform).Ok?
    requires TransformOf(transform).value == Log10 ==> HasFiniteLog(s.fitted.value.arrays.omega)
    ensures nComponents < 1 ==> ClusterOmega(s, nComponents, transform, c) == Err(ClusteringRejected)
    ensures nComponents > s.fitted.value.plan.nSlides * s.fitted.value.sizing.preAllocate ==>
              ClusterOmega(s, nComponents, transform, c) == Err(ClusteringRejected)
    ensures transform == Some("period") &&
            (exists k, i :: 0 <= k < s.fitted.value.plan.nSlides && 0 <= i < s.fitted.value.sizing.preAllocate &&
                            s.fitted.value.arrays.omega[k][i].im == 0.0) ==>
              ClusterOmega(s, nComponents, transform, c) == Err(ClusteringRejected)
  {
  }

  /** The default `transform_method=None` of `cluster_omega` is not a transform
      `transform_omega` accepts, so clustering with the defaults always fails. */
  lemma DefaultTransformRejected(s: Costs, nComponents: int, c: Clustering)
    requires s.fitted.Some? ==> FittedShape(s.fitted.value)
    requires s.fitted.Some? && c.hasFitPredict &&
             1 <= nComponents <= s.fitted.value.plan.nSlides * s.fitted.value.sizing.preAllocate ==>
               Honours(c, s.fitted.value.plan.nSlides * s.fitted.value.sizing.preAllocate, nComponents)
    ensures c.hasFitPredict && s.fitted.Some? ==>
              ClusterOmega(s, nComponents, None, c) == Err(UnknownTransform(None))
  {
  }

  /** A fit in which some window returned fewer eigenvalues than the reserved
      width (adaptive mode below the width) keeps a zero in that row's padding,
      and the "period" transform makes that point infinite: clustering the fit
      with "period" is always refused. */
  lemma PeriodRejectsPadding(j: Job, ranker: WindowRanker, solve: Solver, s: Costs, nComponents: int,
                             c: Clustering, k: nat)
    requires ValidJob(j) && s.fitted.Some? && FittedShape(s.fitted.value)
    requires Recorded(j, ranker, solve, s.fitted.value)
    requires c.hasFitPredict &&
             1 <= nComponents <= s.fitted.value.plan.nSlides * s.fitted.value.sizing.preAllocate ==>
               Honours(c, s.fitted.value.plan.nSlides * s.fitted.value.sizing.preAllocate, nComponents)
    requires k < j.plan.nSlides && |s.fitted.value.trace[k].fit.eigs| < Width(j)
    ensures c.hasFitPredict ==> ClusterOmega(s, nComponents, Some("period"), c) == Err(ClusteringRejected)
  {
    var f := s.fitted.value;
    var i := |f.trace[k].fit.eigs|;
    assert RowHolds(j, f.arrays, k, f.trace[k]);
    assert f.arrays.omega[k][i] == Zero;
  }

  /** What the reconstruction reads from a fitted, clustered object. */
  function LayoutOf(f: Fitted, nComponents: nat, classes: seq<seq<int>>, centroids: seq<real>,
                    gauss: seq<real>): R.Layout
    requires f.sizing.preAllocate >= 0
  {
    R.Layout(f.plan, f.sizing.preAllocate as nat, f.nVars, nComponents, classes, centroids,
             f.arrays.means, gauss)
  }

  /** Bands freshly clustered from the current fit always match it: the
      layout the reconstruction reads from the clustered object is valid, so
      only bands left over from an earlier fit are a shape error. */
  lemma ClusteredLayoutValid(s: Costs, nComponents: int, transform: Option<string>, c: Clustering,
                             gauss: seq<real>)
    requires s.fitted.Some? && FittedShape(s.fitted.value)
    requires c.hasFitPredict &&
             1 <= nComponents <= s.fitted.value.plan.nSlides * s.fitted.value.sizing.preAllocate ==>
               Honours(c, s.fitted.value.plan.nSlides * s.fitted.value.sizing.preAllocate, nComponents)
    requires |gauss| == s.fitted.value.plan.windowLength
    ensures ClusterOmega(s, nComponents, transform, c).Ok? ==>
              var t := ClusterOmega(s, nComponents, transform, c).value;
              && nComponents >= 1 && t.fitted == s.fitted && t.cfg.nComponents == Some(nComponents)
              && R.ValidLayout(LayoutOf(s.fitted.value, nComponents as nat, t.omegaClasses.value,
                                        t.clusterCentroids.value, gauss))
  {
  }

  /** `scale_reconstruction` on the object.  It needs the fit, the bands and
      the band count; `gauss` is the Gaussian profile `build_kern` computes for
      the window length, and `sig` the real part of every rank slot's mode.
      Bands that do not match the fitted arrays (left over from clustering an
      earlier fit) are a shape error. */
  method ScaleReconstruction(s: Costs, gauss: seq<real>, sig: R.Signal, includeMeans: bool)
      returns (r: Result<seq<seq<seq<R.Ratio>>>>)
    requires s.fitted.Some? ==> FittedShape(s.fitted.value) && |gauss| == s.fitted.value.plan.windowLength
    ensures s.fitted.None? || s.cfg.nComponents.None? ==> r == Err(NoneOperand)
    ensures (&& s.fitted.Some? && s.cfg.nComponents.Some? && s.cfg.nComponents.value >= 0
             && (s.omegaClasses.None? || s.clusterCentroids.None?)) ==> r == Err(NoneOperand)
    ensures s.fitted.Some? && s.cfg.nComponents.Some? && s.cfg.nComponents.value < 0 ==>
            r == Err(NegativeDimension)
    ensures (&& s.fitted.Some? && s.cfg.nComponents.Some? && s.cfg.nComponents.value >= 0
             && s.omegaClasses.Some? && s.clusterCentroids.Some?) ==>
              (r.Ok? <==> R.ValidLayout(LayoutOf(s.fitted.value, s.cfg.nComponents.value, s.omegaClasses.value,
                                                 s.clusterCentroids.value, gauss)))
    ensures r.Err? ==> r.error in {NoneOperand, NegativeDimension, ShapeMismatch}
    ensures r.Ok? ==>
              && s.fitted.Some? && s.cfg.nComponents.Some? && s.cfg.nComponents.value >= 0
              && s.omegaClasses.Some? && s.clusterCentroids.Some?
              && var a := LayoutOf(s.fitted.value, s.cfg.nComponents.value, s.omegaClasses.value,
                                   s.clusterCentroids.value, gauss);
                 && R.ValidLayout(a)
                 && R.Shaped(r.value, a.nComponents, a.nVars, a.plan.nTimeSteps)
                 && forall j, v, t :: 0 <= j < a.nComponents && 0 <= v < a.nVars && 0 <= t < a.plan.nTimeSteps ==>
                      r.value[j][v][t] == R.Divide(R.BandSum(a, sig, includeMeans, j, v, t, a.plan.nSlides),
                                                   R.NormSum(a, t, a.plan.nSlides))
  {
    if s.fitted.None? || s.cfg.nComponents.None? {
      return Err(NoneOperand);
    }
    if s.cfg.nComponents.value < 0 {
      return Err(NegativeDimension);
    }
    if s.omegaClasses.None? || s.clusterCentroids.None? {
      return Err(NoneOperand);
    }
    var a := LayoutOf(s.fitted.value, s.cfg.nComponents.value, s.omegaClasses.value,
                      s.clusterCentroids.value, gauss);
    if !R.ValidLayout(a) {
      return Err(ShapeMismatch);
    }
    var xr := R.ScaleReconstruction(a, sig, includeMeans);
    r := Ok(xr);
  }
}
