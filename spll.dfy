/**
 * Semi-parametric log-likelihood (SPLL): a reference and a recent window of
 * `n_samples` vectors with a sliding delay between them. When both are full,
 * k-means on the reference window gives the mixture components, every
 * recent sample is assigned to its closest centre under the Mahalanobis
 * distance, and the mean squared Mahalanobis distance to those centres is
 * turned into a chi-squared quantile; a quantile below the threshold is a
 * drift, after which the recent window becomes the reference window.
 */
module Spll {
  import opened Common
  import opened Window
  import opened Detector

  /** The foreign numerical routines SPLL calls. */
  datatype SpllOracles = SpllOracles(
    kmeans: (seq<Vector>, nat) -> seq<Vector>,           // `KMeans(n_clusters=k, ...).fit(data).cluster_centers_`
    inverseCovariance: seq<Vector> -> seq<Vector>,      // `np.linalg.pinv(np.cov(data.T))`
    mahalanobis: (Vector, Vector, seq<Vector>) -> real,   // `cdist(..., metric="mahalanobis", VI=...)`
    exp: real -> real,
    chi2Ppf: (real, nat) -> real)                         // `chi2.ppf(q, degrees_of_freedom)`

  /** `n_samples`, `n_clusters`, `threshold`, and the dimension of the stream. */
  datatype SpllConfig = SpllConfig(nSamples: nat, nClusters: nat, threshold: real, dim: nat)

  datatype SpllState = SpllState(reference: seq<Vector>, recent: seq<Vector>)

  const Empty: SpllState := SpllState([], [])

  /** Both windows within capacity, every sample of the stream's dimension. */
  predicate Wellformed(c: SpllConfig, s: SpllState)
  {
    && |s.reference| <= c.nSamples && |s.recent| <= c.nSamples
    && Rows(s.reference, c.dim) && Rows(s.recent, c.dim)
  }

  // ---------------------------------------------------------------------
  // Closest centroids
  // ---------------------------------------------------------------------

  /** One row of the `cdist` matrix: the distances from `x` to every centre. */
  function Distances(x: Vector, centers: seq<Vector>, vi: seq<Vector>, mahalanobis: (Vector, Vector, seq<Vector>) -> real): (ds: seq<real>)
    ensures |ds| == |centers|
    ensures forall j :: 0 <= j < |centers| ==> ds[j] == mahalanobis(x, centers[j], vi)
  {
    seq(|centers|, j requires 0 <= j < |centers| => mahalanobis(x, centers[j], vi))
  }

  /**
   * `_calculate_closest_centroids`: for each recent sample, the centre at
   * the first minimum of its distance row.
   */
  function ClosestCentroids(
    recent: seq<Vector>, centers: seq<Vector>, vi: seq<Vector>, mahalanobis: (Vector, Vector, seq<Vector>) -> real): (r: seq<Vector>)
    requires |centers| > 0
    ensures |r| == |recent|
    ensures forall i :: 0 <= i < |recent| ==> r[i] in centers
    ensures forall d: nat :: Rows(centers, d) ==> Rows(r, d)
    // no centre is closer than the chosen one ...
    ensures forall i, j :: 0 <= i < |recent| && 0 <= j < |centers| ==>
      mahalanobis(recent[i], r[i], vi) <= mahalanobis(recent[i], centers[j], vi)
    // ... and every centre listed before it is strictly farther
    ensures forall i :: 0 <= i < |recent| ==>
      exists k :: 0 <= k < |centers| && r[i] == centers[k]
        && forall j :: 0 <= j < k ==> mahalanobis(recent[i], centers[j], vi) > mahalanobis(recent[i], r[i], vi)
  {
    var r := seq(|recent|, i requires 0 <= i < |recent| => centers[ArgMin(Distances(recent[i], centers, vi, mahalanobis))]);
    assert forall i :: 0 <= i < |recent| ==>
      var k := ArgMin(Distances(recent[i], centers, vi, mahalanobis));
      r[i] == centers[k] && 0 <= k < |centers|;
    r
  }

  // ---------------------------------------------------------------------
  // The log-likelihood
  // ---------------------------------------------------------------------

  /** The squared Mahalanobis length of each centred sample. */
  function Likelihoods(centered: seq<Vector>, vi: seq<Vector>): (r: seq<real>)
    requires Rows(centered, |vi|) && Rows(vi, |vi|)
    ensures |r| == |centered|
    ensures forall i :: 0 <= i < |centered| ==> r[i] == QuadForm(centered[i], vi)
  {
    seq(|centered|, i requires 0 <= i < |centered| => QuadForm(centered[i], vi))
  }

  /** `_calculate_spll`: the mean of the likelihoods. */
  function SpllValue(centered: seq<Vector>, vi: seq<Vector>): real
    requires |centered| > 0 && Rows(centered, |vi|) && Rows(vi, |vi|)
  {
    Sum(Likelihoods(centered, vi)) / (|centered| as real)
  }

  /** The loop of `_calculate_spll`, one likelihood per recent sample. */
  method CalculateSpll(centered: seq<Vector>, vi: seq<Vector>) returns (spll: real)
    requires |centered| > 0 && Rows(centered, |vi|) && Rows(vi, |vi|)
    ensures spll == SpllValue(centered, vi)
  {
    var likelihoods: seq<real> := [];
    for i := 0 to |centered|
      invariant likelihoods == Likelihoods(centered[..i], vi)
    {
      var normalized := VecMat(centered[i], vi);
      var likelihood := Dot(normalized, centered[i]);
      assert centered[..i + 1] == centered[..i] + [centered[i]];
      likelihoods := likelihoods + [likelihood];
    }
    assert centered[..|centered|] == centered;
    spll := Sum(likelihoods) / (|centered| as real);
  }

  /** A matrix that gives every vector a non-negative quadratic form. */
  ghost predicate PositiveSemidefinite(vi: seq<Vector>)
    requires Rows(vi, |vi|)
  {
    forall v: Vector :: |v| == |vi| ==> QuadForm(v, vi) >= 0.0
  }

  /** With a positive semidefinite inverse covariance (as `pinv` of a covariance is), the SPLL is non-negative. */
  lemma SpllNonNegative(centered: seq<Vector>, vi: seq<Vector>)
    requires |centered| > 0 && Rows(centered, |vi|) && Rows(vi, |vi|) && PositiveSemidefinite(vi)
    ensures SpllValue(centered, vi) >= 0.0
  {
    var l := Likelihoods(centered, vi);
    forall i | 0 <= i < |l|
      ensures l[i] >= 0.0
    {
      var v := centered[i];
      assert |v| == |vi|;
      assert QuadForm(v, vi) >= 0.0;
    }
    SumNonNegative(l);
    QuotientNonNegative(Sum(l), |centered| as real);
  }

  lemma QuotientNonNegative(a: real, b: real)
    requires a >= 0.0 && b > 0.0
    ensures a / b >= 0.0
  {
  }

  /** Recent samples sitting exactly on their centres have SPLL 0, whatever the matrix. */
  lemma SpllZeroOnCentroids(recent: seq<Vector>, closest: seq<Vector>, vi: seq<Vector>)
    requires |recent| > 0 && |closest| == |recent| && Rows(recent, |vi|) && Rows(vi, |vi|)
    requires forall i :: 0 <= i < |recent| ==> closest[i] == recent[i]
    ensures Rows(Centered(recent, closest, |vi|), |vi|)
    ensures SpllValue(Centered(recent, closest, |vi|), vi) == 0.0
  {
    var centered := Centered(recent, closest, |vi|);
    var l := Likelihoods(centered, vi);
    forall i | 0 <= i < |l|
      ensures l[i] == 0.0
    {
      assert IsZero(centered[i]);
      QuadFormZero(centered[i], vi);
    }
    SumZero(l);
  }

  /** `recent_data - closest_centroids`. */
  function Centered(recent: seq<Vector>, closest: seq<Vector>, d: nat): (r: seq<Vector>)
    requires |closest| == |recent| && Rows(recent, d) && Rows(closest, d)
    ensures |r| == |recent| && Rows(r, d)
    ensures forall i :: 0 <= i < |r| ==> r[i] == Sub(recent[i], closest[i])
  {
    seq(|recent|, i requires 0 <= i < |recent| => Sub(recent[i], closest[i]))
  }

  // ---------------------------------------------------------------------
  // Drift detection
  // ---------------------------------------------------------------------

  /**
   * `KMeans.fit` refuses fewer samples than clusters, zero clusters and
   * zero features.
   */
  predicate KMeansRefuses(c: SpllConfig)
  {
    c.nClusters == 0 || c.nClusters > c.nSamples || c.dim == 0
  }

  /**
   * Centres and matrix of the shapes `cdist` accepts for `d`-dimensional
   * samples (what k-means and `pinv` deliver); `cdist` raises ValueError on
   * any other shape and `argmin` on an empty row.
   */
  predicate Shaped(centers: seq<Vector>, vi: seq<Vector>, d: nat)
  {
    |centers| > 0 && Rows(centers, d) && |vi| == d && Rows(vi, d)
  }

  /** `_detect_drift` on two full windows. */
  function Detect(c: SpllConfig, o: SpllOracles, s: SpllState): (r: Result<bool, DetectorError>)
    requires Wellformed(c, s) && |s.reference| == |s.recent| == c.nSamples
    // k-means fails first; then `pinv` on the 0-d covariance of a univariate stream
    ensures KMeansRefuses(c) ==> r == Failure(ValueError)
    ensures !KMeansRefuses(c) && c.dim == 1 ==> r == Failure(LinAlgError)
    ensures r.Success? <==>
      !KMeansRefuses(c) && c.dim >= 2 && Shaped(o.kmeans(s.reference, c.nClusters), o.inverseCovariance(s.reference), c.dim)
    ensures r.Success? ==> r.value == (Quantile(c, o, s) < c.threshold)
  {
    if KMeansRefuses(c) then Failure(ValueError)
    else if c.dim == 1 then Failure(LinAlgError)
    else if !Shaped(o.kmeans(s.reference, c.nClusters), o.inverseCovariance(s.reference), c.dim) then Failure(ValueError)
    else Success(Quantile(c, o, s) < c.threshold)
  }

  /** `chi2.ppf(exp(-spll), d)` for two full windows and a successful fit. */
  function Quantile(c: SpllConfig, o: SpllOracles, s: SpllState): real
    requires Wellformed(c, s) && |s.recent| > 0
    requires Shaped(o.kmeans(s.reference, c.nClusters), o.inverseCovariance(s.reference), c.dim)
  {
    o.chi2Ppf(o.exp(-Spll(c, o, s)), c.dim)
  }

  /** The SPLL statistic of the recent window against the model fitted on the reference window. */
  function Spll(c: SpllConfig, o: SpllOracles, s: SpllState): real
    requires Wellformed(c, s) && |s.recent| > 0
    requires Shaped(o.kmeans(s.reference, c.nClusters), o.inverseCovariance(s.reference), c.dim)
  {
    var centers := o.kmeans(s.reference, c.nClusters);
    var vi := o.inverseCovariance(s.reference);
    var closest := ClosestCentroids(s.recent, centers, vi, o.mahalanobis);
    SpllValue(Centered(s.recent, closest, c.dim), vi)
  }

  /** `reset`: the recent window becomes the reference window. */
  function Reset(s: SpllState): (r: SpllState)
    ensures r.reference == s.recent && r.recent == []
  {
    SpllState(s.recent, [])
  }

  /** The first half of `update`: the sample enters the window pair. */
  function Moved(c: SpllConfig, s: SpllState, x: Vector): (m: SpllState)
    requires Wellformed(c, s) && |x| == c.dim && c.nSamples > 0
    ensures Wellformed(c, m)
    ensures (m.reference, m.recent) == Slide(s.reference, s.recent, x, c.nSamples)
  {
    SlideKeepsRows(s.reference, s.recent, x, c.nSamples, c.dim);
    var w := Slide(s.reference, s.recent, x, c.nSamples);
    SpllState(w.0, w.1)
  }

  /** The second half of `update`: test two full windows, and reset on a drift. */
  function TestAndReset(c: SpllConfig, o: SpllOracles, m: SpllState): (out: Outcome<SpllState>)
    requires Wellformed(c, m)
    ensures Wellformed(c, out.state)
    ensures out.state == m || (out.drift == Success(true) && out.state == Reset(m))
    ensures |m.reference| < c.nSamples || |m.recent| < c.nSamples ==> out == Outcome(m, Success(false))
  {
    if |m.reference| == c.nSamples && |m.recent| == c.nSamples then
      match Detect(c, o, m)
      case Failure(e) => Outcome(m, Failure(e))
      case Success(drift) => Outcome(if drift then Reset(m) else m, Success(drift))
    else Outcome(m, Success(false))
  }

  /** `update(features)`. */
  function Step(c: SpllConfig, o: SpllOracles, s: SpllState, x: Vector): (out: Outcome<SpllState>)
    requires Wellformed(c, s) && |x| == c.dim
    ensures c.nSamples == 0 ==> out == Outcome(s, Failure(IndexError))
    ensures Wellformed(c, out.state)
  {
    if c.nSamples == 0 then Outcome(s, Failure(IndexError))
    else TestAndReset(c, o, Moved(c, s, x))
  }

  // ---------------------------------------------------------------------
  // Properties
  // ---------------------------------------------------------------------

  /**
   * The decision rule: after the sample enters the windows, the test runs
   * exactly when both are full; a drift is a quantile below the threshold
   * and resets the detector, and anything else leaves the moved windows.
   */
  lemma StepDecision(c: SpllConfig, o: SpllOracles, s: SpllState, x: Vector)
    requires Wellformed(c, s) && |x| == c.dim && c.nSamples > 0
    ensures var w := Slide(s.reference, s.recent, x, c.nSamples);
      var out := Step(c, o, s, x);
      && (|w.0| < c.nSamples || |w.1| < c.nSamples ==> out == Outcome(SpllState(w.0, w.1), Success(false)))
      && (|w.0| == |w.1| == c.nSamples && Detect(c, o, SpllState(w.0, w.1)).Success? ==>
            var drift := Quantile(c, o, SpllState(w.0, w.1)) < c.threshold;
            out.drift == Success(drift)
            && out.state == (if drift then SpllState(w.1, []) else SpllState(w.0, w.1)))
  {
  }

  /**
   * After a drift the recent window restarts empty, so the next
   * `n_samples - 1` updates only fill it and cannot report a drift.
   */
  lemma WarmUpAfterDrift(c: SpllConfig, o: SpllOracles, s: SpllState, x: Vector)
    requires Wellformed(c, s) && |x| == c.dim && c.nSamples > 0 && |s.recent| + 1 < c.nSamples
    ensures Step(c, o, s, x) == Outcome(SpllState(s.reference, s.recent + [x]), Success(false))
  {
  }

  /**
   * With a positive semidefinite inverse covariance (as the pseudo-inverse
   * of a covariance matrix is) the statistic is non-negative, so the
   * probability handed to `chi2.ppf` is `exp` of a non-positive number.
   */
  lemma SpllStatisticNonNegative(c: SpllConfig, o: SpllOracles, s: SpllState)
    requires Wellformed(c, s) && |s.recent| > 0
    requires Shaped(o.kmeans(s.reference, c.nClusters), o.inverseCovariance(s.reference), c.dim)
    requires PositiveSemidefinite(o.inverseCovariance(s.reference))
    ensures Spll(c, o, s) >= 0.0
  {
    var centers := o.kmeans(s.reference, c.nClusters);
    var vi := o.inverseCovariance(s.reference);
    SpllNonNegative(Centered(s.recent, ClosestCentroids(s.recent, centers, vi, o.mahalanobis), c.dim), vi);
  }

  /** One update keeps reference ++ recent a contiguous run of the latest samples, drift or not. */
  lemma StepKeepsSuffix(c: SpllConfig, o: SpllOracles, s: SpllState, h: seq<Vector>, x: Vector)
    requires Wellformed(c, s) && |x| == c.dim && c.nSamples > 0 && IsSuffix(s.reference + s.recent, h)
    ensures var t := Step(c, o, s, x).state;
      IsSuffix(t.reference + t.recent, h + [x])
  {
    var m := Moved(c, s, x);
    var t := TestAndReset(c, o, m).state;
    assert t.reference + t.recent == m.reference + m.recent || t.reference + t.recent == m.recent;
    SlideOrResetIsSuffix(s.reference, s.recent, x, c.nSamples, h, t.reference + t.recent);
  }

  // ---------------------------------------------------------------------
  // The detector object
  // ---------------------------------------------------------------------

  class SpllDetector {
    const config: SpllConfig
    const oracles: SpllOracles
    var reference: seq<Vector>
    var recent: seq<Vector>

    ghost predicate Valid()
      reads this
    {
      Wellformed(config, State())
    }

    function State(): SpllState
      reads this
    {
      SpllState(reference, recent)
    }

    constructor (nSamples: nat, nClusters: nat, threshold: real, dim: nat, oracles: SpllOracles)
      ensures Valid() && State() == Empty
      ensures config == SpllConfig(nSamples, nClusters, threshold, dim) && this.oracles == oracles
    {
      config := SpllConfig(nSamples, nClusters, threshold, dim);
      this.oracles := oracles;
      reference, recent := [], [];
    }

    /** `update(features)`. */
    method Update(features: Vector) returns (drift: Result<bool, DetectorError>)
      requires Valid() && |features| == config.dim
      modifies this
      ensures Valid()
      ensures Outcome(State(), drift) == Step(config, oracles, old(State()), features)
    {
      if |recent| == config.nSamples {
        if config.nSamples == 0 {
          return Failure(IndexError);
        }
        reference := Append(reference, recent[0], config.nSamples);
      }
      recent := Append(recent, features, config.nSamples);
      assert (reference, recent) == Slide(old(reference), old(recent), features, config.nSamples);
      ghost var moved := Moved(config, old(State()), features);
      assert State() == moved;
      if |reference| == config.nSamples && |recent| == config.nSamples {
        var result := DetectDrift();
        if result.Failure? {
          return result;
        }
        if result.value {
          ResetWindows();
          return Success(true);
        }
      }
      return Success(false);
    }

    /** `_detect_drift`. */
    method DetectDrift() returns (drift: Result<bool, DetectorError>)
      requires Valid() && |reference| == |recent| == config.nSamples
      ensures drift == Detect(config, oracles, State())
    {
      if KMeansRefuses(config) {
        return Failure(ValueError);
      }
      var centers := oracles.kmeans(reference, config.nClusters);
      if config.dim == 1 {
        return Failure(LinAlgError);
      }
      var vi := oracles.inverseCovariance(reference);
      if !Shaped(centers, vi, config.dim) {
        return Failure(ValueError);
      }
      var closest := ClosestCentroids(recent, centers, vi, oracles.mahalanobis);
      var spll := CalculateSpll(Centered(recent, closest, config.dim), vi);
      var probability := oracles.exp(-spll);
      var quantile := oracles.chi2Ppf(probability, config.dim);
      return Success(quantile < config.threshold);
    }

    /** `reset`. */
    method ResetWindows()
      requires Valid()
      modifies this
      ensures Valid() && State() == Reset(old(State()))
    {
      reference := recent;
      recent := [];
    }
  }
}
