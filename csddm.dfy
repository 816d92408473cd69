/**
 * The Clustered Statistical Test Drift Detection Method (CSDDM): the first
 * `n_samples` points fit a PCA projection and a k-means clustering of the
 * projected reference; each later point is projected into a recent window
 * of `n_samples`, and a full recent window is compared with the reference
 * cluster by cluster and component by component with the Anderson-Darling
 * k-sample test. A drift makes the recent window the new reference.
 */
module Csddm {
  import opened Common
  import opened Window
  import opened Detector

  /** The significance levels `anderson_ksamp` reports critical values for, in its order. */
  const Confidences: seq<real> := [0.25, 0.1, 0.05, 0.025, 0.01, 0.005, 0.001]

  /**
   * `_get_confidence_index`: the position of the confidence among the
   * supported levels; any other confidence raises.
   */
  function ConfidenceIndex(confidence: real): (r: Result<nat, DetectorError>)
    ensures r.Success? <==> confidence in Confidences
    ensures r.Success? ==> r.value < |Confidences| && Confidences[r.value] == confidence
    ensures r.Success? ==> forall j :: 0 <= j < r.value ==> Confidences[j] != confidence
    ensures r.Failure? ==> r.error == ValueError
  {
    IndexOf(Confidences, confidence)
  }

  /** `list.index`: the first position holding `x`. */
  function IndexOf(s: seq<real>, x: real): (r: Result<nat, DetectorError>)
    ensures r.Success? <==> x in s
    ensures r.Success? ==> r.value < |s| && s[r.value] == x && forall j :: 0 <= j < r.value ==> s[j] != x
    ensures r.Failure? ==> r.error == ValueError
  {
    if |s| == 0 then Failure(ValueError)
    else if s[0] == x then Success(0)
    else
      var r := IndexOf(s[1..], x);
      if r.Failure? then r else Success(r.value + 1)
  }

  datatype CsddmConfig = CsddmConfig(nSamples: nat, nClusters: int, confidenceIndex: nat, featureProportion: real)

  function Width(k: int): nat
  {
    if k < 0 then 0 else k
  }

  /**
   * `pca.transform`: a PCA with `k` components fitted on `data` maps a
   * sample to `k` coordinates.
   */
  type Projection = f: (seq<Vector>, int, Vector) -> Vector | forall data, k, x :: |f(data, k, x)| == Width(k)
    witness (data: seq<Vector>, k: int, x: Vector) => seq(Width(k), _ => 0.0)

  /** `kmeans.predict`: the cluster that a k-means fitted on `data` assigns to a sample. */
  type Clustering = (seq<Vector>, Vector) -> int

  /** `anderson_ksamp` on two samples: the statistic and the critical values, or what it raises. */
  type Anderson = (seq<real>, seq<real>) -> Result<(real, seq<real>), DetectorError>

  datatype CsddmOracles = CsddmOracles(project: Projection, cluster: Clustering, anderson: Anderson)

  /** The fitted models: a PCA with `nComponents` components fitted on `pcaData`, and a k-means fitted on its projection. */
  datatype Model = Model(nComponents: int, pcaData: seq<Vector>)

  datatype CsddmState = CsddmState(
    reference: seq<Vector>,
    referenceClusters: seq<int>,
    recent: seq<Vector>,
    recentTransformed: seq<Vector>,
    model: Option<Model>)

  const Fresh: CsddmState := CsddmState([], [], [], [], None)

  function Project(o: CsddmOracles, m: Model, x: Vector): (y: Vector)
    ensures |y| == Width(m.nComponents)
  {
    o.project(m.pcaData, m.nComponents, x)
  }

  function ProjectAll(o: CsddmOracles, m: Model, xs: seq<Vector>): (ys: seq<Vector>)
    ensures |ys| == |xs| && forall i :: 0 <= i < |xs| ==> ys[i] == Project(o, m, xs[i])
  {
    seq(|xs|, i requires 0 <= i < |xs| => Project(o, m, xs[i]))
  }

  function ClusterAll(o: CsddmOracles, training: seq<Vector>, xs: seq<Vector>): (ls: seq<int>)
    ensures |ls| == |xs| && forall i :: 0 <= i < |xs| ==> ls[i] == o.cluster(training, xs[i])
  {
    seq(|xs|, i requires 0 <= i < |xs| => o.cluster(training, xs[i]))
  }

  /** `n_components = int(np.ceil(feature_proportion * n_features))`. */
  function Components(c: CsddmConfig, features: nat): int
  {
    Ceil(c.featureProportion * features as real)
  }

  /**
   * `setup`: the number of components comes from the first reference
   * sample (an empty reference raises); the reference is replaced by its
   * projection and clustered.
   */
  function Setup(c: CsddmConfig, o: CsddmOracles, s: CsddmState): (r: Result<CsddmState, DetectorError>)
    ensures r.Success? <==> |s.reference| > 0
    ensures r.Failure? ==> r.error == IndexError
    ensures r.Success? ==>
      var m := Model(Components(c, |s.reference[0]|), s.reference);
      && r.value.model == Some(m)
      && r.value.reference == ProjectAll(o, m, s.reference)
      && r.value.referenceClusters == ClusterAll(o, r.value.reference, r.value.reference)
      && r.value.recent == s.recent && r.value.recentTransformed == s.recentTransformed
  {
    if |s.reference| == 0 then Failure(IndexError)
    else
      var m := Model(Components(c, |s.reference[0]|), s.reference);
      var transformed := ProjectAll(o, m, s.reference);
      Success(s.(reference := transformed, referenceClusters := ClusterAll(o, transformed, transformed), model := Some(m)))
  }

  /** `reset`: the recent window becomes the reference and the models are refitted on it. */
  function Reset(c: CsddmConfig, o: CsddmOracles, s: CsddmState): (r: Outcome<CsddmState>)
  {
    var t := s.(reference := s.recent, recent := []);
    var fitted := Setup(c, o, t);
    if fitted.Failure? then Outcome(t, Failure(fitted.error)) else Outcome(fitted.value, Success(true))
  }

  // ---------------------------------------------------------------------
  // The test
  // ---------------------------------------------------------------------

  predicate Wide(rows: seq<Vector>, j: nat)
  {
    forall r :: 0 <= r < |rows| ==> j < |rows[r]|
  }

  /**
   * One (cluster, component) pair of `_detect_drift`: tested only if both
   * sides have members and not both hold a single one; a drift iff the
   * statistic reaches the critical value at the confidence index.
   */
  function TestPair(c: CsddmConfig, o: CsddmOracles, referenceIn: seq<Vector>, recentIn: seq<Vector>, f: nat): (r: Result<bool, DetectorError>)
  {
    if |referenceIn| > 0 && |recentIn| > 0 && (|referenceIn| > 1 || |recentIn| > 1) then
      if !Wide(referenceIn, f) || !Wide(recentIn, f) then Failure(IndexError)
      else
        var result := o.anderson(Col(referenceIn, f), Col(recentIn, f));
        if result.Failure? then Failure(result.error)
        else if c.confidenceIndex >= |result.value.1| then Failure(IndexError)
        else Success(result.value.0 >= result.value.1[c.confidenceIndex])
    else Success(false)
  }

  /** The inner loop: components `f, f + 1, ...` of one cluster, stopping at the first drift or error. */
  function ScanComponents(c: CsddmConfig, o: CsddmOracles, referenceIn: seq<Vector>, recentIn: seq<Vector>, k: int, f: nat): (r: Result<bool, DetectorError>)
    decreases k - f
  {
    if f >= k then Success(false)
    else
      var r := TestPair(c, o, referenceIn, recentIn, f);
      if r != Success(false) then r else ScanComponents(c, o, referenceIn, recentIn, k, f + 1)
  }

  /** The members of cluster `i` on both sides. */
  function Split(s: CsddmState, recentClusters: seq<int>, i: int): (seq<Vector>, seq<Vector>)
  {
    var referenceIn := if |s.referenceClusters| == |s.reference| then Members(s.reference, s.referenceClusters, i) else [];
    var recentIn := if |recentClusters| == |s.recentTransformed| then Members(s.recentTransformed, recentClusters, i) else [];
    (referenceIn, recentIn)
  }

  /** The outer loop: clusters `i, i + 1, ...`. */
  function ScanClusters(c: CsddmConfig, o: CsddmOracles, s: CsddmState, recentClusters: seq<int>, k: int, i: int): (r: Result<bool, DetectorError>)
    decreases c.nClusters - i
  {
    if i >= c.nClusters then Success(false)
    else
      var split := Split(s, recentClusters, i);
      var r := ScanComponents(c, o, split.0, split.1, k, 0);
      if r != Success(false) then r else ScanClusters(c, o, s, recentClusters, k, i + 1)
  }

  /** `_detect_drift`: the recent window is clustered by the reference k-means, then every pair is scanned. */
  function Detect(c: CsddmConfig, o: CsddmOracles, s: CsddmState): (r: Result<bool, DetectorError>)
    requires s.model.Some?
  {
    var recentClusters := ClusterAll(o, s.reference, s.recentTransformed);
    ScanClusters(c, o, s, recentClusters, s.model.value.nComponents, 0)
  }

  /** Before the models exist: the sample joins the reference, and the `n_samples`-th fits the models. */
  function Collect(c: CsddmConfig, o: CsddmOracles, s: CsddmState, x: Vector): (out: Outcome<CsddmState>)
  {
    var t := s.(reference := s.reference + [x]);
    if |t.reference| != c.nSamples then Outcome(t, Success(false))
    else
      var fitted := Setup(c, o, t);
      if fitted.Failure? then Outcome(t, Failure(fitted.error)) else Outcome(fitted.value, Success(false))
  }

  /** With the models fitted: the sample and its projection join the recent windows. */
  function Admit(c: CsddmConfig, o: CsddmOracles, s: CsddmState, m: Model, x: Vector): (t: CsddmState)
  {
    s.(recent := Append(s.recent, x, c.nSamples),
       recentTransformed := Append(s.recentTransformed, Project(o, m, x), c.nSamples))
  }

  /** A full recent window is tested, and a drift resets the detector. */
  function Monitor(c: CsddmConfig, o: CsddmOracles, t: CsddmState): (out: Outcome<CsddmState>)
    requires t.model.Some?
  {
    if |t.recent| != c.nSamples then Outcome(t, Success(false))
    else
      var drift := Detect(c, o, t);
      if drift == Success(true) then Reset(c, o, t) else Outcome(t, drift)
  }

  /**
   * `update(features)`: before the models exist the sample joins the
   * reference; afterwards it joins the recent window together with its
   * projection, and a full recent window is tested.
   */
  function Step(c: CsddmConfig, o: CsddmOracles, s: CsddmState, x: Vector): (out: Outcome<CsddmState>)
  {
    match s.model
    case None => Collect(c, o, s, x)
    case Some(m) => Monitor(c, o, Admit(c, o, s, m, x))
  }

  // ---------------------------------------------------------------------
  // Properties
  // ---------------------------------------------------------------------

  /** Every supported confidence is accepted, at its own position; any other is refused. */
  lemma SupportedConfidences()
    ensures forall j :: 0 <= j < |Confidences| ==> ConfidenceIndex(Confidences[j]) == Success(j)
    ensures ConfidenceIndex(0.2) == Failure(ValueError)
  {
    assert forall i, j :: 0 <= i < j < |Confidences| ==> Confidences[i] != Confidences[j];
    forall j | 0 <= j < |Confidences|
      ensures ConfidenceIndex(Confidences[j]) == Success(j)
    {
      assert Confidences[j] in Confidences;
    }
  }

  /**
   * The number of components: for a proportion in (0, 1] and at least one
   * feature, at least 1 and at most the number of features.
   */
  lemma ComponentsBounds(c: CsddmConfig, features: nat)
    requires 0.0 < c.featureProportion <= 1.0 && features > 0
    ensures 1 <= Components(c, features) <= features
  {
    var x := c.featureProportion * features as real;
    assert 0.0 < x <= features as real;
  }

  /** Before the models exist, no test runs: samples only join the reference, and the `n_samples`-th fits the models. */
  lemma NoTestBeforeSetup(c: CsddmConfig, o: CsddmOracles, s: CsddmState, x: Vector)
    requires s.model.None?
    ensures var out := Step(c, o, s, x);
      && out.drift.Success? && out.drift.value == false
      && (|s.reference| + 1 != c.nSamples ==> out.state == s.(reference := s.reference + [x]))
      && (|s.reference| + 1 == c.nSamples ==> Success(out.state) == Setup(c, o, s.(reference := s.reference + [x])))
  {
  }

  /**
   * With the models fitted, the test runs exactly when the recent window
   * is full; without a drift the state is the slid window, and a drift
   * is reported as such.
   */
  lemma TestOnlyWhenFull(c: CsddmConfig, o: CsddmOracles, s: CsddmState, x: Vector, m: Model)
    requires s.model == Some(m) && c.nSamples > 0
    ensures var out := Step(c, o, s, x);
      var t := Admit(c, o, s, m, x);
      && |t.recent| <= c.nSamples
      && (|t.recent| != c.nSamples ==> out == Outcome(t, Success(false)))
      && (|t.recent| == c.nSamples && Detect(c, o, t) != Success(true) ==> out == Outcome(t, Detect(c, o, t)))
      && (|t.recent| == c.nSamples && Detect(c, o, t) == Success(true) ==> out.drift == Success(true))
  {
    var t := Admit(c, o, s, m, x);
    if |t.recent| == c.nSamples && Detect(c, o, t) == Success(true) {
      assert |t.recent| > 0;
      assert Setup(c, o, t.(reference := t.recent, recent := [])).Success?;
    }
  }

  /**
   * A drift makes the recent window the reference, refitted (its
   * projection and clusters replace the old ones), and empties the recent
   * window; the projected recent window is left as it was.
   */
  lemma DriftResets(c: CsddmConfig, o: CsddmOracles, t: CsddmState)
    requires t.model.Some?
    requires Monitor(c, o, t).drift == Success(true)
    ensures var out := Monitor(c, o, t);
      var m := Model(Components(c, |t.recent[0]|), t.recent);
      && |t.recent| == c.nSamples > 0
      && out.state.model == Some(m)
      && out.state.reference == ProjectAll(o, m, t.recent)
      && out.state.referenceClusters == ClusterAll(o, out.state.reference, out.state.reference)
      && out.state.recent == []
      && out.state.recentTransformed == t.recentTransformed
  {
    assert |t.recent| == c.nSamples;
    var u := t.(reference := t.recent, recent := []);
    assert Monitor(c, o, t) == Reset(c, o, t);
    assert Setup(c, o, u).Success?;
  }

  /** A pair that fails the size guard is neither tested nor an error. */
  lemma GuardSkipsPair(c: CsddmConfig, o: CsddmOracles, referenceIn: seq<Vector>, recentIn: seq<Vector>, f: nat)
    requires |referenceIn| == 0 || |recentIn| == 0 || (|referenceIn| == 1 && |recentIn| == 1)
    ensures TestPair(c, o, referenceIn, recentIn, f) == Success(false)
  {
  }

  /** When no pair raises, the components of a cluster report a drift iff some component's test does. */
  lemma {:induction false} ScanComponentsExists(c: CsddmConfig, o: CsddmOracles, referenceIn: seq<Vector>, recentIn: seq<Vector>, k: int, f: nat)
    requires forall g: nat :: f <= g < k ==> TestPair(c, o, referenceIn, recentIn, g).Success?
    ensures ScanComponents(c, o, referenceIn, recentIn, k, f)
      == Success(exists g: nat :: f <= g < k && TestPair(c, o, referenceIn, recentIn, g) == Success(true))
    decreases k - f
  {
    if f < k {
      ScanComponentsExists(c, o, referenceIn, recentIn, k, f + 1);
      if TestPair(c, o, referenceIn, recentIn, f) != Success(true) {
        assert forall g: nat :: f <= g < k && TestPair(c, o, referenceIn, recentIn, g) == Success(true) ==> f + 1 <= g;
      }
    }
  }

  /** A (cluster, component) pair reports a drift. */
  predicate PairDrifts(c: CsddmConfig, o: CsddmOracles, s: CsddmState, recentClusters: seq<int>, i: int, g: nat)
  {
    var split := Split(s, recentClusters, i);
    TestPair(c, o, split.0, split.1, g) == Success(true)
  }

  /** A (cluster, component) pair is tested without raising, or skipped. */
  predicate PairSucceeds(c: CsddmConfig, o: CsddmOracles, s: CsddmState, recentClusters: seq<int>, i: int, g: nat)
  {
    var split := Split(s, recentClusters, i);
    TestPair(c, o, split.0, split.1, g).Success?
  }

  /** Some component of cluster `i` reports a drift. */
  predicate ClusterDrifts(c: CsddmConfig, o: CsddmOracles, s: CsddmState, recentClusters: seq<int>, k: int, i: int)
  {
    exists g: nat :: g < k && PairDrifts(c, o, s, recentClusters, i, g)
  }

  /** When no pair of cluster `i` raises, its components report a drift iff some component drifts. */
  lemma ClusterScan(c: CsddmConfig, o: CsddmOracles, s: CsddmState, recentClusters: seq<int>, k: int, i: int)
    requires forall g: nat :: g < k ==> PairSucceeds(c, o, s, recentClusters, i, g)
    ensures var split := Split(s, recentClusters, i);
      ScanComponents(c, o, split.0, split.1, k, 0) == Success(ClusterDrifts(c, o, s, recentClusters, k, i))
  {
    var split := Split(s, recentClusters, i);
    forall g: nat | g < k
      ensures TestPair(c, o, split.0, split.1, g).Success?
    {
      assert PairSucceeds(c, o, s, recentClusters, i, g);
    }
    ScanComponentsExists(c, o, split.0, split.1, k, 0);
    if ClusterDrifts(c, o, s, recentClusters, k, i) {
      var g: nat :| g < k && PairDrifts(c, o, s, recentClusters, i, g);
      assert TestPair(c, o, split.0, split.1, g) == Success(true);
    }
    if exists g: nat :: 0 <= g < k && TestPair(c, o, split.0, split.1, g) == Success(true) {
      var g: nat :| 0 <= g < k && TestPair(c, o, split.0, split.1, g) == Success(true);
      assert PairDrifts(c, o, s, recentClusters, i, g);
    }
  }

  /**
   * When no pair raises, the scan reports a drift iff some (cluster,
   * component) pair's statistic reaches its critical value.
   */
  lemma {:induction false} ScanClustersExists(c: CsddmConfig, o: CsddmOracles, s: CsddmState, recentClusters: seq<int>, k: int, i: int)
    requires forall j, g: nat :: i <= j < c.nClusters && g < k ==> PairSucceeds(c, o, s, recentClusters, j, g)
    ensures ScanClusters(c, o, s, recentClusters, k, i)
      == Success(exists j :: i <= j < c.nClusters && ClusterDrifts(c, o, s, recentClusters, k, j))
    decreases c.nClusters - i
  {
    if i < c.nClusters {
      ClusterScan(c, o, s, recentClusters, k, i);
      ScanClustersExists(c, o, s, recentClusters, k, i + 1);
      ghost var later := exists j :: i + 1 <= j < c.nClusters && ClusterDrifts(c, o, s, recentClusters, k, j);
      assert ScanClusters(c, o, s, recentClusters, k, i) == Success(ClusterDrifts(c, o, s, recentClusters, k, i) || later);
    }
  }

  /** The test of a full window: a drift iff some pair drifts, provided no pair raises. */
  lemma DetectExists(c: CsddmConfig, o: CsddmOracles, s: CsddmState)
    requires s.model.Some?
    requires var rc := ClusterAll(o, s.reference, s.recentTransformed);
      forall j, g: nat :: 0 <= j < c.nClusters && g < s.model.value.nComponents ==> PairSucceeds(c, o, s, rc, j, g)
    ensures var rc := ClusterAll(o, s.reference, s.recentTransformed);
      Detect(c, o, s) == Success(exists j :: 0 <= j < c.nClusters && ClusterDrifts(c, o, s, rc, s.model.value.nComponents, j))
  {
    var rc := ClusterAll(o, s.reference, s.recentTransformed);
    ScanClustersExists(c, o, s, rc, s.model.value.nComponents, 0);
  }

  /**
   * The invariant: with models fitted, the newest `|recent|` entries of
   * the projected window are the projections of the recent window by the
   * current PCA, and the reference is labelled row by row.
   */
  ghost predicate Aligned(c: CsddmConfig, o: CsddmOracles, s: CsddmState)
  {
    && |s.recent| <= c.nSamples && |s.recentTransformed| <= c.nSamples
    && (s.model.None? ==> s.recent == [] && s.recentTransformed == [])
    && (s.model.Some? ==>
        && c.nSamples > 0
        && |s.referenceClusters| == |s.reference|
        && IsSuffix(ProjectAll(o, s.model.value, s.recent), s.recentTransformed))
  }

  lemma FreshAligned(c: CsddmConfig, o: CsddmOracles)
    ensures Aligned(c, o, Fresh)
  {
  }

  lemma AdmitAligned(c: CsddmConfig, o: CsddmOracles, s: CsddmState, x: Vector, m: Model)
    requires Aligned(c, o, s) && s.model == Some(m)
    ensures Aligned(c, o, Admit(c, o, s, m, x))
  {
    var px := Project(o, m, x);
    ProjectAppend(o, m, s.recent, x, c.nSamples);
    AppendKeepsSuffix(ProjectAll(o, m, s.recent), s.recentTransformed, px, c.nSamples);
  }

  /** Projecting a window after an append is appending the projection. */
  lemma ProjectAppend(o: CsddmOracles, m: Model, xs: seq<Vector>, x: Vector, cap: nat)
    requires |xs| <= cap
    ensures ProjectAll(o, m, Append(xs, x, cap)) == Append(ProjectAll(o, m, xs), Project(o, m, x), cap)
  {
    var ps := ProjectAll(o, m, xs);
    if |xs| < cap {
      assert ProjectAll(o, m, xs + [x]) == ps + [Project(o, m, x)];
    }
  }

  lemma CollectAligned(c: CsddmConfig, o: CsddmOracles, s: CsddmState, x: Vector)
    requires Aligned(c, o, s) && s.model.None?
    ensures Aligned(c, o, Collect(c, o, s, x).state)
  {
    var t := s.(reference := s.reference + [x]);
    if |t.reference| == c.nSamples {
      assert Setup(c, o, t).Success?;
    }
  }

  lemma MonitorAligned(c: CsddmConfig, o: CsddmOracles, t: CsddmState)
    requires Aligned(c, o, t) && t.model.Some?
    ensures Aligned(c, o, Monitor(c, o, t).state)
  {
    if |t.recent| == c.nSamples && Detect(c, o, t) == Success(true) {
      var u := t.(reference := t.recent, recent := []);
      assert Setup(c, o, u).Success?;
      assert Monitor(c, o, t).state == Setup(c, o, u).value;
    }
  }

  /** Every update keeps the invariant. */
  lemma StepAligned(c: CsddmConfig, o: CsddmOracles, s: CsddmState, x: Vector)
    requires Aligned(c, o, s)
    ensures Aligned(c, o, Step(c, o, s, x).state)
  {
    match s.model
    case None =>
      CollectAligned(c, o, s, x);
    case Some(m) =>
      AdmitAligned(c, o, s, x, m);
      MonitorAligned(c, o, Admit(c, o, s, m, x));
  }

  /**
   * A test sees only current projections: when the recent window is full
   * the whole projected window is its projection by the current PCA, even
   * though a reset does not empty the projected window.
   */
  lemma FullWindowProjected(c: CsddmConfig, o: CsddmOracles, s: CsddmState)
    requires Aligned(c, o, s) && s.model.Some? && |s.recent| == c.nSamples
    ensures s.recentTransformed == ProjectAll(o, s.model.value, s.recent)
  {
  }

  // ---------------------------------------------------------------------
  // The detector object
  // ---------------------------------------------------------------------

  class CsddmDetector {
    const config: CsddmConfig
    const oracles: CsddmOracles
    var reference: seq<Vector>
    var referenceClusters: seq<int>
    var recent: seq<Vector>
    var recentTransformed: seq<Vector>
    var model: Option<Model>

    function State(): CsddmState
      reads this
    {
      CsddmState(reference, referenceClusters, recent, recentTransformed, model)
    }

    ghost predicate Valid()
      reads this
    {
      Aligned(config, oracles, State())
    }

    /** `__init__`: the confidence must be a supported level. */
    constructor (nSamples: nat, nClusters: int, confidence: real, featureProportion: real, oracles: CsddmOracles)
      requires ConfidenceIndex(confidence).Success?
      ensures Valid() && State() == Fresh
      ensures config == CsddmConfig(nSamples, nClusters, ConfidenceIndex(confidence).value, featureProportion)
      ensures this.oracles == oracles
    {
      config := CsddmConfig(nSamples, nClusters, ConfidenceIndex(confidence).value, featureProportion);
      this.oracles := oracles;
      reference, referenceClusters, recent, recentTransformed, model := [], [], [], [], None;
    }

    /** `update(features)`. */
    method Update(features: Vector) returns (drift: Result<bool, DetectorError>)
      requires Valid()
      modifies this
      ensures Valid()
      ensures Outcome(State(), drift) == Step(config, oracles, old(State()), features)
    {
      ghost var s0 := State();
      StepAligned(config, oracles, s0, features);
      if model.None? {
        drift := CollectSample(features);
      } else {
        var m := model.value;
        recent := Append(recent, features, config.nSamples);
        recentTransformed := Append(recentTransformed, Project(oracles, m, features), config.nSamples);
        assert State() == Admit(config, oracles, s0, m, features);
        drift := TestWindow();
      }
    }

    /** The branch of `update` taken before the models exist. */
    method CollectSample(features: Vector) returns (drift: Result<bool, DetectorError>)
      requires model.None?
      modifies this
      ensures Outcome(State(), drift) == Collect(config, oracles, old(State()), features)
    {
      reference := reference + [features];
      if |reference| == config.nSamples {
        // the reference has just grown, so fitting cannot fail here
        var error := SetUp();
        assert error.None?;
      }
      return Success(false);
    }

    /** The test of `update` once the sample has joined the recent windows. */
    method TestWindow() returns (drift: Result<bool, DetectorError>)
      requires model.Some?
      modifies this
      ensures Outcome(State(), drift) == Monitor(config, oracles, old(State()))
    {
      if |recent| == config.nSamples {
        drift := DetectDrift();
        if drift == Success(true) {
          drift := ResetDetector();
        }
        return drift;
      }
      return Success(false);
    }

    /** `_detect_drift`: the nested loop over clusters and components, returning at the first drift. */
    method DetectDrift() returns (drift: Result<bool, DetectorError>)
      requires model.Some?
      ensures drift == Detect(config, oracles, State())
    {
      var recentClusters := ClusterAll(oracles, reference, recentTransformed);
      var k := model.value.nComponents;
      var i := 0;
      while i < config.nClusters
        invariant Detect(config, oracles, State()) == ScanClusters(config, oracles, State(), recentClusters, k, i)
        decreases config.nClusters - i
      {
        var split := Split(State(), recentClusters, i);
        var f := 0;
        while f < k
          invariant ScanComponents(config, oracles, split.0, split.1, k, 0) == ScanComponents(config, oracles, split.0, split.1, k, f)
          decreases k - f
        {
          var r := TestPair(config, oracles, split.0, split.1, f);
          if r != Success(false) {
            return r;
          }
          f := f + 1;
        }
        i := i + 1;
      }
      return Success(false);
    }

    /** `reset`. */
    method ResetDetector() returns (drift: Result<bool, DetectorError>)
      modifies this
      ensures Outcome(State(), drift) == Reset(config, oracles, old(State()))
    {
      reference := recent;
      recent := [];
      var error := SetUp();
      return if error.Some? then Failure(error.value) else Success(true);
    }

    /** `setup`: reports what it raised, if anything. */
    method SetUp() returns (error: Option<DetectorError>)
      modifies this
      ensures error.None? ==> Setup(config, oracles, old(State())) == Success(State())
      ensures error.Some? ==> Setup(config, oracles, old(State())) == Failure(error.value) && State() == old(State())
    {
      if |reference| == 0 {
        return Some(IndexError);
      }
      var m := Model(Components(config, |reference[0]|), reference);
      reference := ProjectAll(oracles, m, reference);
      referenceClusters := ClusterAll(oracles, reference, reference);
      model := Some(m);
      return None;
    }
  }
}
