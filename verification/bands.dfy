/** Frequency-band classification: the transform dispatch, the reshaping of
    the clustering labels, and the canonical renumbering of the bands so that
    band 0 has the smallest centroid. */
module Bands {
  import opened Base

  /** Band values in non-decreasing order. */
  predicate Sorted(s: seq<real>)
  {
    forall p, q :: 0 <= p < q < |s| ==> s[p] <= s[q]
  }

  predicate Distinct(s: seq<int>)
  {
    forall p, q :: 0 <= p < q < |s| ==> s[p] != s[q]
  }

  predicate InRange(s: seq<int>, n: nat)
  {
    forall p :: 0 <= p < |s| ==> 0 <= s[p] < n
  }

  /** `s` lists the indices 0..n-1, each exactly once. */
  predicate IsPermutation(s: seq<int>, n: nat)
  {
    && |s| == n
    && InRange(s, n)
    && Distinct(s)
    && forall c :: 0 <= c < n ==> c in s
  }

  /** Indices into `cs` ordered by the values they point at. */
  predicate SortedIndices(s: seq<int>, cs: seq<real>)
    requires InRange(s, |cs|)
  {
    forall p, q :: 0 <= p < q < |s| ==> cs[s[p]] <= cs[s[q]]
  }

  /** What `np.argsort(cs)` returns: a permutation of the indices that sorts
      `cs`.  numpy does not fix the order among equal values. */
  predicate IsArgsort(idx: seq<int>, cs: seq<real>)
  {
    IsPermutation(idx, |cs|) && SortedIndices(idx, cs)
  }

  /** Inserts index `i` into the index list `l` after every leading index whose
      value does not exceed `cs[i]`. */
  function Insert(l: seq<int>, cs: seq<real>, i: int): (r: seq<int>)
    requires 0 <= i < |cs| && InRange(l, |cs|)
    ensures |r| == |l| + 1
    ensures multiset(r) == multiset(l) + multiset{i}
    ensures InRange(r, |cs|)
  {
    if |l| == 0 then [i]
    else if cs[i] < cs[l[0]] then [i] + l
    else
      assert l == [l[0]] + l[1..];
      [l[0]] + Insert(l[1..], cs, i)
  }

  /** Insertion keeps a sorted index list sorted. */
  lemma {:induction false} InsertSorted(l: seq<int>, cs: seq<real>, i: int)
    requires 0 <= i < |cs| && InRange(l, |cs|) && SortedIndices(l, cs)
    ensures SortedIndices(Insert(l, cs, i), cs)
  {
    if |l| > 0 && cs[i] >= cs[l[0]] {
      var rest := Insert(l[1..], cs, i);
      InsertSorted(l[1..], cs, i);
      forall q | 0 <= q < |rest| ensures cs[l[0]] <= cs[rest[q]] {
        assert rest[q] in multiset(rest);
        if rest[q] != i {
          assert rest[q] in multiset(l[1..]);
          var j :| 0 <= j < |l[1..]| && l[1..][j] == rest[q];
          assert l[1..][j] == l[j + 1];
        }
      }
    }
  }

  /** A sequence in which nothing occurs twice has no repeated entries. */
  lemma DistinctByCount(s: seq<int>)
    requires forall x :: multiset(s)[x] <= 1
    ensures Distinct(s)
  {
    forall p, q | 0 <= p < q < |s| ensures s[p] != s[q] {
      assert s == s[..q] + [s[q]] + s[q+1..];
      assert s[..q][p] == s[p];
      assert multiset(s)[s[q]] == multiset(s[..q])[s[q]] + 1 + multiset(s[q+1..])[s[q]];
    }
  }

  /** Adding index `m - 1` to a list holding each of `0 .. m - 2` once gives a
      list holding each of `0 .. m - 1` once. */
  lemma CountsGrow(prev: seq<int>, r: seq<int>, m: nat)
    requires m > 0 && multiset(r) == multiset(prev) + multiset{m - 1}
    requires forall x :: multiset(prev)[x] == (if 0 <= x < m - 1 then 1 else 0)
    ensures forall x :: multiset(r)[x] == (if 0 <= x < m then 1 else 0)
  {
    forall x ensures multiset(r)[x] == (if 0 <= x < m then 1 else 0) {
      assert multiset(r)[x] == multiset(prev)[x] + multiset{m - 1}[x];
    }
  }

  /** The first `m` indices of `cs`, sorted by value by insertion: each of
      them exactly once. */
  function ArgsortPrefix(cs: seq<real>, m: nat): (r: seq<int>)
    requires m <= |cs|
    ensures |r| == m && InRange(r, |cs|) && SortedIndices(r, cs)
    ensures forall x :: multiset(r)[x] == (if 0 <= x < m then 1 else 0)
  {
    if m == 0 then []
    else
      var prev := ArgsortPrefix(cs, m - 1);
      InsertSorted(prev, cs, m - 1);
      var r := Insert(prev, cs, m - 1);
      CountsGrow(prev, r, m);
      r
  }

  /** A stable argsort: one of the orders `np.argsort` may return. */
  function Argsort(cs: seq<real>): (idx: seq<int>)
    ensures IsArgsort(idx, cs)
  {
    var idx := ArgsortPrefix(cs, |cs|);
    DistinctByCount(idx);
    assert forall c :: 0 <= c < |cs| ==> c in idx by {
      forall c | 0 <= c < |cs| ensures c in idx {
        assert c in multiset(idx);
      }
    }
    idx
  }

  /** `lut[idx] = arange(n)` performed one index at a time: the table after the
      first `m` assignments, starting from zeros. */
  function Scatter(idx: seq<int>, m: nat): (lut: seq<int>)
    requires m <= |idx| && InRange(idx, |idx|)
    ensures |lut| == |idx|
    ensures Distinct(idx) ==> forall i :: 0 <= i < m ==> lut[idx[i]] == i
  {
    if m == 0 then Fill(|idx|, 0)
    else
      var prev := Scatter(idx, m - 1);
      assert idx[m - 1] in idx;
      prev[idx[m - 1] := m - 1]
  }

  /** The lookup table of a permutation is its inverse, and a permutation itself. */
  function Lookup(idx: seq<int>): (lut: seq<int>)
    requires IsPermutation(idx, |idx|)
    ensures IsPermutation(lut, |idx|)
    ensures forall i :: 0 <= i < |idx| ==> lut[idx[i]] == i
    ensures forall c :: 0 <= c < |idx| ==> idx[lut[c]] == c
  {
    var lut := Scatter(idx, |idx|);
    var n := |idx|;
    assert forall c :: 0 <= c < n ==> 0 <= lut[c] < n && idx[lut[c]] == c by {
      forall c | 0 <= c < n ensures 0 <= lut[c] < n && idx[lut[c]] == c {
        assert c in idx;
        var i :| 0 <= i < n && idx[i] == c;
        assert lut[c] == i;
      }
    }
    assert InRange(lut, n) by {
      forall x | x in lut ensures 0 <= x < n {
        var c :| 0 <= c < n && lut[c] == x;
      }
    }
    assert forall i :: 0 <= i < n ==> i in lut by {
      forall i | 0 <= i < n ensures i in lut {
        assert idx[i] in idx;
        assert lut[idx[i]] == i;
      }
    }
    lut
  }

  /** Every label of a `rows × width` class array is a band id below `n`. */
  predicate ValidLabels(classes: seq<seq<int>>, width: nat, n: nat)
  {
    forall k :: 0 <= k < |classes| ==>
      |classes[k]| == width && forall i :: 0 <= i < width ==> 0 <= classes[k][i] < n
  }

  /** `lut[classes]`: every label is replaced by its entry in the table. */
  function Relabel(classes: seq<seq<int>>, width: nat, lut: seq<int>): (r: seq<seq<int>>)
    requires ValidLabels(classes, width, |lut|)
    ensures |r| == |classes|
    ensures forall k :: 0 <= k < |r| ==> |r[k]| == width
    ensures forall k, i :: 0 <= k < |r| && 0 <= i < width ==> r[k][i] == lut[classes[k][i]]
  {
    seq(|classes|, k requires 0 <= k < |classes| =>
      seq(width, i requires 0 <= i < width => lut[classes[k][i]]))
  }

  /** The band assignment after canonicalisation. */
  datatype Canonical = Canonical(centroids: seq<real>, classes: seq<seq<int>>, lut: seq<int>)

  /** The tail of `_cluster`: with `idx` the argsort of the raw centroids,
      renumber the bands in centroid order.  The centroids come out sorted,
      the table is a bijection inverse to `idx`, every raw band keeps its
      centroid under its new id, and the class array keeps its shape. */
  function Canonicalise(classes: seq<seq<int>>, width: nat, cs: seq<real>, idx: seq<int>): (r: Canonical)
    requires IsArgsort(idx, cs) && ValidLabels(classes, width, |cs|)
    ensures |r.centroids| == |cs| && Sorted(r.centroids)
    ensures IsPermutation(r.lut, |cs|)
    ensures forall i :: 0 <= i < |cs| ==> r.lut[idx[i]] == i
    ensures forall c :: 0 <= c < |cs| ==> r.centroids[r.lut[c]] == cs[c]
    ensures |r.classes| == |classes| && ValidLabels(r.classes, width, |cs|)
    ensures forall k, i :: 0 <= k < |classes| && 0 <= i < width ==>
              && r.classes[k][i] == r.lut[classes[k][i]]
              && r.centroids[r.classes[k][i]] == cs[classes[k][i]]
  {
    var lut := Lookup(idx);
    var sorted := seq(|cs|, i requires 0 <= i < |cs| => cs[idx[i]]);
    assert forall i :: 0 <= i < |cs| ==> idx[i] in idx;
    Canonical(sorted, Relabel(classes, width, lut), lut)
  }

  /** `lut` renumbers the clustering centres `centers` into `sorted`: it is a
      bijection on the band ids, and centre `b` is stored at `lut[b]`. */
  predicate IsRenumbering(lut: seq<int>, sorted: seq<real>, centers: seq<real>)
  {
    && |sorted| == |centers|
    && IsPermutation(lut, |centers|)
    && forall b :: 0 <= b < |centers| ==> sorted[lut[b]] == centers[b]
  }

  /** `sorted` holds exactly the clustering centres, renumbered. */
  ghost predicate Renumbers(sorted: seq<real>, centers: seq<real>)
  {
    exists lut :: IsRenumbering(lut, sorted, centers)
  }

  /** The transforms `transform_omega` accepts, by name. */
  datatype Transform = Absolute | SquareFrequencies | Log10 | Period

  /** The dispatch of `transform_omega`; `None`, the default `cluster_omega`
      passes on, is not among the accepted names. */
  function TransformOf(name: Option<string>): (r: Result<Transform>)
    ensures r.Ok? <==> name in {Some("absolute"), Some("square_frequencies"),
                                  Some("log10"), Some("period")}
    ensures name.None? ==> r == Err(UnknownTransform(None))
    ensures name == Some("absolute") <==> r == Ok(Absolute)
    ensures name == Some("square_frequencies") <==> r == Ok(SquareFrequencies)
    ensures name == Some("log10") <==> r == Ok(Log10)
    ensures name == Some("period") <==> r == Ok(Period)
  {
    match name
    case Some("absolute") => Ok(Absolute)
    case Some("square_frequencies") => Ok(SquareFrequencies)
    case Some("log10") => Ok(Log10)
    case Some("period") => Ok(Period)
    case _ => Err(UnknownTransform(name))
  }

  /** The log10 transform imputes `log10(0)` with the smallest finite value, so
      it needs one eigenvalue with a non-zero imaginary part. */
  predicate HasFiniteLog(omega: seq<seq<Complex>>)
  {
    exists k, i :: 0 <= k < |omega| && 0 <= i < |omega[k]| && omega[k][i].im != 0.0
  }

  /** What the clustering capability hands back for the flattened, transformed
      eigenvalues: whether it has `fit_predict`, one label per point, and one
      centre per cluster. */
  datatype Clustering = Clustering(hasFitPredict: bool, labels: seq<int>, centers: seq<real>)

  /** The capability's own contract for `n` clusters over `points` points. */
  predicate Honours(c: Clustering, points: nat, n: int)
  {
    && |c.labels| == points
    && (forall x :: 0 <= x < |c.labels| ==> 0 <= c.labels[x] < n)
    && |c.centers| == n
  }

  /** Every transformed eigenvalue is a finite number.  "period" takes
      `1 / |im|`, which is infinite at a zero imaginary part; the other
      transforms are finite (log10 after its imputation). */
  predicate FinitePoints(t: Transform, omega: seq<seq<Complex>>)
  {
    t == Period ==> forall k, i :: 0 <= k < |omega| && 0 <= i < |omega[k]| ==> omega[k][i].im != 0.0
  }

  /** The input checks `MiniBatchKMeans.fit_predict` makes before clustering:
      at least one cluster, only finite points, and no more clusters than
      points.  Each failure is a `ValueError`. */
  predicate ClusteringAccepts(omega: seq<seq<Complex>>, width: nat, nComponents: int, t: Transform)
  {
    && 1 <= nComponents <= |omega| * width
    && FinitePoints(t, omega)
  }

  /** `_cluster`: reject a clustering class without `fit_predict`, transform the
      eigenvalues (the transform may be rejected), let the estimator label the
      points (it may refuse them), reshape the labels into the `nSlides × width`
      layout of the eigenvalue array and canonicalise them. */
  function Cluster(omega: seq<seq<Complex>>, width: nat, nComponents: int,
                   transform: Option<string>, c: Clustering): (r: Result<Canonical>)
    requires forall k :: 0 <= k < |omega| ==> |omega[k]| == width
    requires c.hasFitPredict && 1 <= nComponents <= |omega| * width ==> Honours(c, |omega| * width, nComponents)
    ensures r.Ok? <==> && c.hasFitPredict && TransformOf(transform).Ok?
                       && (TransformOf(transform).value == Log10 ==> HasFiniteLog(omega))
                       && ClusteringAccepts(omega, width, nComponents, TransformOf(transform).value)
    ensures r == Err(ClusteringRejected) <==>
              && c.hasFitPredict && TransformOf(transform).Ok?
              && (TransformOf(transform).value == Log10 ==> HasFiniteLog(omega))
              && !ClusteringAccepts(omega, width, nComponents, TransformOf(transform).value)
    ensures c.hasFitPredict && transform == Some("period") &&
            (exists k, i :: 0 <= k < |omega| && 0 <= i < width && omega[k][i].im == 0.0) ==>
              r == Err(ClusteringRejected)
    ensures !c.hasFitPredict ==> r == Err(MissingFitPredict)
    ensures r.Ok? ==>
              var labels := Reshape(c.labels, |omega|, width);
              && Sorted(r.value.centroids) && |r.value.centroids| == nComponents
              && IsPermutation(r.value.lut, nComponents as nat)
              && |r.value.classes| == |omega|
              && ValidLabels(r.value.classes, width, nComponents as nat)
              && forall k, i :: 0 <= k < |omega| && 0 <= i < width ==>
                   && r.value.classes[k][i] == r.value.lut[labels[k][i]]
                   && r.value.centroids[r.value.classes[k][i]] == c.centers[labels[k][i]]
    ensures r.Ok? ==> IsRenumbering(r.value.lut, r.value.centroids, c.centers)
  {
    if !c.hasFitPredict then Err(MissingFitPredict)
    else match TransformOf(transform)
      case Err(e) => Err(e)
      case Ok(t) =>
        if t == Log10 && !HasFiniteLog(omega) then Err(EmptyReduction)
        else if !ClusteringAccepts(omega, width, nComponents, t) then Err(ClusteringRejected)
        else
          var labels := Reshape(c.labels, |omega|, width);
          Ok(Canonicalise(labels, width, c.centers, Argsort(c.centers)))
  }
}
