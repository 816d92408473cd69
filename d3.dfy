/**
 * The Discriminative Drift Detector (D3): one buffer of
 * `n_samples = int(n_reference_samples * (1 + recent_samples_proportion))`
 * points whose first `n_reference_samples` positions are labelled 0 and the
 * rest 1; a drift is signalled when a cross-validated classifier separates
 * the two labels with an AUC of at least the threshold.
 */
module D3 {
  import opened Common
  import opened Window
  import opened Detector

  datatype D3Config = D3Config(nReferenceSamples: nat, recentProportion: real, threshold: real)

  /**
   * The cross-validated AUC of a logistic-regression discriminator trained
   * on the buffer and its labels (`StratifiedKFold`, `LogisticRegression`
   * and `roc_auc_score`), or the error those routines raise.
   */
  type Discriminator = (seq<Vector>, seq<real>) -> Result<real, DetectorError>

  /** `n_samples`: Python's `int(...)` truncates toward zero. */
  function NSamples(c: D3Config): (n: int)
    ensures c.recentProportion >= 0.0 ==> n >= c.nReferenceSamples
    ensures c.recentProportion < -1.0 ==> n <= 0
  {
    var n := Trunc((c.nReferenceSamples as real) * (1.0 + c.recentProportion));
    assert c.recentProportion >= 0.0 ==> (c.nReferenceSamples as real) * (1.0 + c.recentProportion) >= c.nReferenceSamples as real;
    n
  }

  /** `int(np.ceil(n_reference_samples * recent_samples_proportion))`: how far the buffer moves on after a test without drift. */
  function StepSize(c: D3Config): (k: int)
    ensures c.recentProportion > 0.0 && c.nReferenceSamples > 0 ==> k >= 1
    ensures c.recentProportion <= 0.0 ==> k <= 0
  {
    Ceil((c.nReferenceSamples as real) * c.recentProportion)
  }

  /**
   * Python's `s[i:]`: a negative start counts from the end, and a start
   * beyond either end is clamped.
   */
  function SliceFrom<T>(s: seq<T>, i: int): (r: seq<T>)
    ensures 0 <= i <= |s| ==> r == s[i..]
    ensures i > |s| ==> r == []
    ensures -|s| <= i < 0 ==> r == s[|s| + i..]
    ensures i < -|s| ==> r == s
  {
    if i >= 0 then (if i <= |s| then s[i..] else [])
    else (if -i <= |s| then s[|s| + i..] else s)
  }

  /** The label of position `i`: 0 for the reference part, 1 for the recent part. */
  function Labels(nReference: nat, n: nat): (labels: seq<real>)
    ensures |labels| == n
    ensures forall i :: 0 <= i < n ==> labels[i] == if i < nReference then 0.0 else 1.0
  {
    seq(n, i requires 0 <= i < n => if i < nReference then 0.0 else 1.0)
  }

  /** `_get_labels`: a zero array whose positions from `n_reference_samples` on are set to 1. */
  method GetLabels(nReference: nat, n: nat) returns (labels: seq<real>)
    ensures labels == Labels(nReference, n)
  {
    var a := new real[n](_ => 0.0);
    var start := if nReference < n then nReference else n;
    for i := start to n
      invariant forall j :: 0 <= j < n ==> a[j] == if j < nReference || j >= i then 0.0 else 1.0
    {
      a[i] := 1.0;
    }
    labels := a[..];
  }

  /** `_detect_drift`: drift iff the discriminator's AUC reaches the threshold. */
  function Detect(c: D3Config, discriminate: Discriminator, data: seq<Vector>): (r: Result<bool, DetectorError>)
    ensures r.Success? <==> discriminate(data, Labels(c.nReferenceSamples, |data|)).Success?
    ensures r.Success? ==> (r.value <==> discriminate(data, Labels(c.nReferenceSamples, |data|)).value >= c.threshold)
  {
    var auc := discriminate(data, Labels(c.nReferenceSamples, |data|));
    if auc.Failure? then Failure(auc.error) else Success(auc.value >= c.threshold)
  }

  /**
   * `update(features)`: a buffer short of `n_samples` takes the sample;
   * a full buffer is tested instead and the sample is dropped. A drift
   * drops the reference part, otherwise the buffer moves on by the step.
   */
  function Step(c: D3Config, discriminate: Discriminator, data: seq<Vector>, x: Vector): (o: Outcome<seq<Vector>>)
  {
    if |data| != NSamples(c) then Outcome(data + [x], Success(false))
    else
      var drift := Detect(c, discriminate, data);
      if drift == Success(true) then Outcome(SliceFrom(data, c.nReferenceSamples), drift)
      else if drift.Failure? then Outcome(data, drift)
      else Outcome(SliceFrom(data, StepSize(c)), Success(false))
  }

  // ---------------------------------------------------------------------
  // Properties
  // ---------------------------------------------------------------------

  /** The labels hold `n_reference_samples` zeros (or all of them) and ones after. */
  lemma LabelCounts(nReference: nat, n: nat)
    ensures Count(Labels(nReference, n), 1.0) == if n <= nReference then 0 else n - nReference
    ensures Count(Labels(nReference, n), 0.0) == if n <= nReference then n else nReference
  {
    CountLabels(nReference, n);
  }

  lemma {:induction false} CountLabels(nReference: nat, n: nat)
    ensures Count(Labels(nReference, n), 1.0) == if n <= nReference then 0 else n - nReference
    ensures Count(Labels(nReference, n), 0.0) == if n <= nReference then n else nReference
  {
    if n > 0 {
      CountLabels(nReference, n - 1);
      var l := Labels(nReference, n);
      assert l == Labels(nReference, n - 1) + [l[n - 1]];
      CountAppend(Labels(nReference, n - 1), l[n - 1], 1.0);
      CountAppend(Labels(nReference, n - 1), l[n - 1], 0.0);
    }
  }

  lemma {:induction false} CountAppend<T>(s: seq<T>, y: T, x: T)
    ensures Count(s + [y], x) == Count(s, x) + (if y == x then 1 else 0)
  {
    if |s| > 0 {
      assert (s + [y])[1..] == s[1..] + [y];
      CountAppend(s[1..], y, x);
    } else {
      assert s + [y] == [y];
    }
  }

  /**
   * Below `n_samples` the sample is appended and no test runs; at
   * `n_samples` the sample is dropped and the outcome is the test's.
   */
  lemma StepDecision(c: D3Config, discriminate: Discriminator, data: seq<Vector>, x: Vector)
    ensures var o := Step(c, discriminate, data, x);
      && (|data| != NSamples(c) ==> o == Outcome(data + [x], Success(false)))
      && (|data| == NSamples(c) ==>
          && o.drift == Detect(c, discriminate, data)
          && IsSuffix(o.state, data)
          && (o.drift == Success(true) ==> o.state == SliceFrom(data, c.nReferenceSamples))
          && (o.drift == Success(false) ==> o.state == SliceFrom(data, StepSize(c)))
          && (o.drift.Failure? ==> o.state == data))
  {
  }

  /** The buffer never grows beyond `n_samples`. */
  lemma StepBounded(c: D3Config, discriminate: Discriminator, data: seq<Vector>, x: Vector)
    requires |data| <= NSamples(c)
    ensures |Step(c, discriminate, data, x).state| <= NSamples(c)
  {
  }

  /**
   * After a test the buffer is what remained of the full buffer: with a
   * non-negative proportion a drift keeps the `n_samples -
   * n_reference_samples` most recent points, and a test without drift
   * drops the `step` oldest ones.
   */
  lemma StepAfterTest(c: D3Config, discriminate: Discriminator, data: seq<Vector>, x: Vector)
    requires c.recentProportion >= 0.0 && |data| == NSamples(c)
    ensures var o := Step(c, discriminate, data, x);
      && (o.drift == Success(true) ==> o.state == data[c.nReferenceSamples..])
      && (o.drift == Success(false) && StepSize(c) <= |data| ==> o.state == data[StepSize(c)..])
  {
  }

  /**
   * With a zero step (a zero proportion or no reference samples) a test
   * without drift leaves the full buffer as it is, so every later update
   * tests it again and drops its sample.
   */
  lemma ZeroStepStaysFull(c: D3Config, discriminate: Discriminator, data: seq<Vector>, x: Vector)
    requires StepSize(c) == 0 && |data| == NSamples(c)
    requires Step(c, discriminate, data, x).drift == Success(false)
    ensures Step(c, discriminate, data, x).state == data
  {
  }

  // ---------------------------------------------------------------------
  // The detector object
  // ---------------------------------------------------------------------

  class D3Detector {
    const config: D3Config
    const discriminate: Discriminator
    var data: seq<Vector>

    ghost predicate Valid()
      reads this
    {
      NSamples(config) < 0 || |data| <= NSamples(config)
    }

    constructor (config: D3Config, discriminate: Discriminator)
      ensures Valid() && data == []
      ensures this.config == config && this.discriminate == discriminate
    {
      this.config := config;
      this.discriminate := discriminate;
      data := [];
    }

    /** `update(features)`. */
    method Update(features: Vector) returns (drift: Result<bool, DetectorError>)
      requires Valid()
      modifies this
      ensures Valid()
      ensures Outcome(data, drift) == Step(config, discriminate, old(data), features)
    {
      if |data| != NSamples(config) {
        data := data + [features];
        return Success(false);
      }
      drift := DetectDrift();
      if drift == Success(true) {
        data := SliceFrom(data, config.nReferenceSamples);
      } else if drift.Success? {
        data := SliceFrom(data, StepSize(config));
      }
    }

    /** `_detect_drift`. */
    method DetectDrift() returns (drift: Result<bool, DetectorError>)
      ensures drift == Detect(config, discriminate, data)
    {
      var labels := GetLabels(config.nReferenceSamples, |data|);
      var auc := discriminate(data, labels);
      if auc.Failure? {
        return Failure(auc.error);
      }
      return Success(auc.value >= config.threshold);
    }
  }
}
