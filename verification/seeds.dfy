/** Initialization policy: the eigenvalue seed handed to the solver for the
    first window, and how it is carried from one window to the next. */
module Seeds {
  import opened Base

  /** `±sqrt(centroid)·i`, the value the centroid seed puts in one rank slot;
      the square root itself is floating point and stays symbolic. */
  datatype SignedRoot = SignedRoot(centroid: real, negated: bool)

  /** An eigenvalue seed: explicit eigenvalues (given by the user or fitted on
      the previous window), or one built from earlier cluster centroids. */
  datatype Seed = Alpha(values: seq<Complex>) | Roots(roots: seq<SignedRoot>)

  function Abs(x: int): nat
  {
    if x < 0 then -x else x
  }

  /** Python's `int(a / b)`: the quotient rounded toward zero, so its magnitude
      is the floor of the magnitudes' quotient and its sign is the quotient's. */
  function TruncDiv(a: int, b: int): (r: int)
    requires b != 0
    ensures Abs(r) == Abs(a) / Abs(b)
    ensures (a >= 0) == (b > 0) ==> r >= 0
    ensures (a >= 0) != (b > 0) ==> r <= 0
  {
    var q := Abs(a) / Abs(b);
    if (a < 0) == (b < 0) || a == 0 then q else -q
  }

  /** The centroid branch of `_build_initialization`: each centroid's root is
      repeated `q = int(svd_rank / n_components)` times and multiplied slot by
      slot with `q` copies of `[1, -1]`.  numpy rejects a negative `q`, and the
      product only exists when both sides have the same length or the repeated
      side has a single entry, which it then broadcasts. */
  function CentroidSeed(centroids: seq<real>, svdRank: int, nComponents: Option<int>): (r: Result<Seed>)
    ensures nComponents.None? ==> r == Err(NoneOperand)
    ensures nComponents == Some(0) ==> r == Err(ZeroDivision)
    ensures r.Ok? <==>
              && nComponents.Some? && nComponents.value != 0
              && var q := TruncDiv(svdRank, nComponents.value);
                 q >= 0 && (|centroids| * q == 2 * q || |centroids| * q == 1)
    ensures r.Ok? ==>
              var q := TruncDiv(svdRank, nComponents.value);
              && r.value.Roots?
              && |r.value.roots| == 2 * q
              && forall i :: 0 <= i < 2 * q ==>
                   && r.value.roots[i].negated == (i % 2 == 1)
                   && r.value.roots[i].centroid in centroids
  {
    if nComponents.None? then Err(NoneOperand)
    else if nComponents.value == 0 then Err(ZeroDivision)
    else
      var q := TruncDiv(svdRank, nComponents.value);
      if q < 0 then Err(NegativeDimension)
      else
        var repeated := seq(|centroids| * q, i requires 0 <= i < |centroids| * q => centroids[i / q]);
        var signs := seq(2 * q, i => i % 2 == 1);
        if |repeated| == |signs| then
          Ok(Roots(seq(2 * q, i requires 0 <= i < 2 * q => SignedRoot(repeated[i], signs[i]))))
        else if |repeated| == 1 then
          Ok(Roots(seq(2 * q, i requires 0 <= i < 2 * q => SignedRoot(repeated[0], signs[i]))))
        else
          Err(ShapeMismatch)
  }

  /** `_build_initialization`.  A user seed wins whenever artificial
      initialization is on, so the error for "both seeds given" that follows
      the two returning branches is never reached (see `BothSeedsUnreachable`). */
  function BuildInitialization(initializeArtificially: bool, initAlpha: Option<Seed>,
                               centroids: Option<seq<real>>, svdRank: int,
                               nComponents: Option<int>): (r: Result<Option<Seed>>)
    ensures !initializeArtificially ==> r == Ok(None)
    ensures initializeArtificially && initAlpha.Some? ==> r == Ok(initAlpha)
    ensures initializeArtificially && initAlpha.None? && centroids.None? ==> r == Ok(None)
    ensures initializeArtificially && initAlpha.None? && centroids.Some? ==>
              match CentroidSeed(centroids.value, svdRank, nComponents)
              case Ok(s) => r == Ok(Some(s))
              case Err(e) => r == Err(e)
  {
    if initializeArtificially && initAlpha.Some? then
      Ok(initAlpha)
    else if initializeArtificially && initAlpha.None? && centroids.Some? then
      match CentroidSeed(centroids.value, svdRank, nComponents)
      case Ok(s) => Ok(Some(s))
      case Err(e) => Err(e)
    else if initializeArtificially && initAlpha.Some? && centroids.Some? then
      Err(BothSeeds)
    else
      Ok(None)
  }

  /** The "only one of `init_alpha` and `cluster_centroids`" error cannot occur:
      with both present the user seed is returned first. */
  lemma BothSeedsUnreachable(initializeArtificially: bool, initAlpha: Option<Seed>,
                             centroids: Option<seq<real>>, svdRank: int,
                             nComponents: Option<int>)
    ensures BuildInitialization(initializeArtificially, initAlpha, centroids, svdRank, nComponents)
            != Err(BothSeeds)
  {
    if initializeArtificially && initAlpha.None? && centroids.Some? {
      var c := CentroidSeed(centroids.value, svdRank, nComponents);
      if c.Err? {
        assert c.error != BothSeeds;
      }
    }
  }

  /** The carry rule applied after each window outside global mode: hold the
      initial seed unless asked otherwise; `use_last_freq` (which wins over
      `reset_alpha_init`) seeds the next window with the eigenvalues just
      fitted; `reset_alpha_init` alone clears the seed. */
  function NextSeed(useLastFreq: bool, resetAlphaInit: bool, initial: Option<Seed>,
                    fitted: seq<Complex>): (r: Option<Seed>)
    ensures useLastFreq ==> r == Some(Alpha(fitted))
    ensures !useLastFreq && resetAlphaInit ==> r.None?
    ensures !useLastFreq && !resetAlphaInit ==> r == initial
  {
    if !useLastFreq && !resetAlphaInit then initial
    else if useLastFreq then Some(Alpha(fitted))
    else None
  }
}
