/** Shared vocabulary of the COSTS model: optional values, results carrying the
    library's failure kinds, complex numbers and a few sequence helpers. */
module Base {

  datatype Option<+T> = None | Some(value: T)

  /** The ways a COSTS call can fail.  Python raises these as ValueError,
      TypeError, ZeroDivisionError or AttributeError; the model keeps the cause. */
  datatype Error =
    | DataTimeMismatch                  // data columns and time samples differ
    | WindowTooLong                     // window_length exceeds the series
    | OddRank                           // odd svd_rank while even ranks are forced
    | RankTooLarge                      // svd_rank exceeds the spatial dimension
    | BothSeeds                         // init_alpha and cluster_centroids together
    | NoneOperand                       // None used in a comparison or in arithmetic
    | ZeroDivision
    | NegativeDimension                 // an array built with a negative extent
    | ShapeMismatch                     // numpy cannot broadcast one array into another
    | UnknownKernMethod(kern: string)
    | UnknownDirection(direction: string)
    | UnknownTransform(requested: Option<string>)
    | MissingFitPredict                 // clustering class without `fit_predict`
    | ClusteringRejected                // the clustering estimator refuses its input
    | NotFitted                         // an operation that needs `fit` first
    | EmptyReduction                    // a minimum taken over no values
    | IndexOutOfRange
    | SolverFailure(window: nat)        // raised by the spectral solver on a window

  datatype Result<+T> = Ok(value: T) | Err(error: Error)

  /** A complex number; only its zero and equality matter to the model. */
  datatype Complex = Complex(re: real, im: real)

  const Zero: Complex := Complex(0.0, 0.0)

  /** `n` copies of `x` (numpy's `np.zeros`, `np.ones`, `np.full`). */
  function Fill<T>(n: nat, x: T): (r: seq<T>)
    ensures |r| == n
    ensures forall i :: 0 <= i < n ==> r[i] == x
  {
    seq(n, _ => x)
  }

  /** Sum of a sequence of reals, added from the front. */
  function Sum(s: seq<real>): real
  {
    if |s| == 0 then 0.0 else s[0] + Sum(s[1..])
  }

  function Min(a: int, b: int): int
  {
    if a <= b then a else b
  }

  function Max(a: int, b: int): int
  {
    if a >= b then a else b
  }

  /** Where row `k` of an array with rows of `width` entries starts in its
      flattened form; by recursion, so that the solver meets no products. */
  function Offset(k: nat, width: nat): nat
  {
    if k == 0 then 0 else Offset(k - 1, width) + width
  }

  lemma {:induction false} OffsetIsProduct(k: nat, width: nat)
    ensures Offset(k, width) == k * width
  {
    if k > 0 {
      OffsetIsProduct(k - 1, width);
    }
  }

  /** Every row before the last ends inside the array. */
  lemma {:induction false} RowFits(k: nat, rows: nat, width: nat)
    requires k < rows
    ensures Offset(k, width) + width <= Offset(rows, width)
  {
    if k + 1 < rows {
      RowFits(k, rows - 1, width);
    }
  }

  /** Row `k` of `flat.reshape(rows, width)`. */
  function Row<V>(flat: seq<V>, rows: nat, width: nat, k: nat): (r: seq<V>)
    requires |flat| == Offset(rows, width) && k < rows
    ensures Offset(k, width) + width <= |flat|
    ensures |r| == width
    ensures forall i :: 0 <= i < width ==> r[i] == flat[Offset(k, width) + i]
  {
    RowFits(k, rows, width);
    flat[Offset(k, width) .. Offset(k, width) + width]
  }

  /** `flat.reshape(rows, width)`: row `k` is the `k`-th run of `width`
      entries, the one starting at `Offset(k, width)`, which is `k * width`. */
  function Reshape<V>(flat: seq<V>, rows: nat, width: nat): (r: seq<seq<V>>)
    requires |flat| == rows * width
    ensures |r| == rows
    ensures forall k :: 0 <= k < rows ==> |r[k]| == width && Offset(k, width) + width <= |flat|
    ensures forall k, i :: 0 <= k < rows && 0 <= i < width ==> r[k][i] == flat[Offset(k, width) + i]
  {
    OffsetIsProduct(rows, width);
    seq(rows, k requires 0 <= k < rows => Row(flat, rows, width, k))
  }
}
