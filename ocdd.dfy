/**
 * The One-Class Drift Detector (OCDD): a buffer of `n_samples` points on
 * which a one-class outlier detector is fitted, and a window of the last
 * `n_samples` outlier predictions. A drift is signalled when the share of
 * outliers reaches the threshold; the detector is then refitted on the
 * part of the buffer that survives the reset.
 */
module Ocdd {
  import opened Common
  import opened Window
  import opened Detector

  datatype OcddConfig = OcddConfig(nSamples: nat, threshold: real)

  /**
   * The outlier detector: one fitted on some data (identified by that
   * data), or one created by a fit that raised and so never fitted.
   */
  datatype Model = Fitted(trainingData: seq<Vector>) | Unfitted

  /** `predict([x])` of a detector fitted on the given data: -1 for an outlier, 1 otherwise. */
  type Predict = (seq<Vector>, Vector) -> int

  datatype OcddState = OcddState(data: seq<Vector>, outliers: seq<int>, model: Option<Model>)

  const Fresh: OcddState := OcddState([], [], None)

  predicate Bounded(c: OcddConfig, s: OcddState)
  {
    |s.data| <= c.nSamples && |s.outliers| <= c.nSamples
  }

  /** `setup`: a fresh detector is fitted on the buffer, which is then emptied; fitting no data raises. */
  function Setup(s: OcddState): (r: OcddState)
    ensures r.outliers == s.outliers
    ensures |s.data| > 0 ==> r.model == Some(Fitted(s.data)) && r.data == []
    ensures |s.data| == 0 ==> r.model == Some(Unfitted) && r.data == s.data
  {
    if |s.data| == 0 then s.(model := Some(Unfitted))
    else s.(model := Some(Fitted(s.data)), data := [])
  }

  /** `np.mean(outliers == -1)`: NaN (`None`) for an empty window. */
  function OutlierRate(outliers: seq<int>): (r: Option<real>)
    ensures r.Some? <==> |outliers| > 0
    ensures r.Some? ==> 0.0 <= r.value <= 1.0
  {
    if |outliers| == 0 then None
    else
      CountBound(outliers, -1);
      RatioBounds(Count(outliers, -1), |outliers|);
      Some((Count(outliers, -1) as real) / (|outliers| as real))
  }

  /** `_detect_drift`: the outlier rate reaches the threshold (NaN compares false). */
  predicate DriftRate(c: OcddConfig, outliers: seq<int>)
  {
    OutlierRate(outliers).Some? && OutlierRate(outliers).value >= c.threshold
  }

  /** `int(n_samples * (1 - threshold))`: how many samples a reset pops. */
  function Dropped(c: OcddConfig): int
  {
    Trunc((c.nSamples as real) * (1.0 - c.threshold))
  }

  /**
   * The pop loop of `reset`: `k` samples are popped from the right end,
   * the newest first; popping an empty buffer raises after emptying it.
   */
  function PopNewest(data: seq<Vector>, k: int): (r: (seq<Vector>, bool))
    ensures r.1 <==> k <= |data|
    ensures r.1 ==> r.0 == data[..|data| - (if k < 0 then 0 else k)]
    ensures !r.1 ==> r.0 == []
  {
    if k <= 0 then (data, true)
    else if k <= |data| then (data[..|data| - k], true)
    else ([], false)
  }

  /** `reset`: pop, then refit on what is left; either step may raise. */
  function Reset(c: OcddConfig, s: OcddState): (o: Outcome<OcddState>)
    ensures o.state.outliers == s.outliers
  {
    var popped := PopNewest(s.data, Dropped(c));
    if !popped.1 then Outcome(s.(data := popped.0), Failure(IndexError))
    else
      var t := Setup(s.(data := popped.0));
      Outcome(t, if |popped.0| == 0 then Failure(ValueError) else Success(true))
  }

  /** The monitoring half of `update`, once a detector may exist. */
  function Monitor(c: OcddConfig, predict: Predict, s: OcddState, x: Vector): (o: Outcome<OcddState>)
  {
    match s.model
    case None => Outcome(s, Success(false))
    case Some(Unfitted) => Outcome(s, Failure(ValueError))
    case Some(Fitted(training)) =>
      var t := s.(outliers := Append(s.outliers, predict(training, x), c.nSamples));
      if |t.data| == c.nSamples && DriftRate(c, t.outliers) then Reset(c, t)
      else Outcome(t, Success(false))
  }

  /**
   * `update(features)`: the sample enters the buffer; a full buffer with no
   * detector yet is used to fit one; with a detector the sample's
   * prediction enters the outlier window, and a full buffer is tested.
   */
  function Step(c: OcddConfig, predict: Predict, s: OcddState, x: Vector): (o: Outcome<OcddState>)
  {
    var t := s.(data := Append(s.data, x, c.nSamples));
    if |t.data| == c.nSamples && t.model.None? then
      if c.nSamples == 0 then Outcome(Setup(t), Failure(ValueError))
      else Monitor(c, predict, Setup(t), x)
    else Monitor(c, predict, t, x)
  }

  // ---------------------------------------------------------------------
  // Properties
  // ---------------------------------------------------------------------

  /**
   * A detector is fitted exactly when the buffer first fills, on that full
   * buffer, which is then emptied; the sample is then predicted by it.
   */
  lemma FirstSetup(c: OcddConfig, predict: Predict, s: OcddState, x: Vector)
    requires c.nSamples > 0 && s.model.None? && Bounded(c, s)
    ensures var data := Append(s.data, x, c.nSamples);
      var o := Step(c, predict, s, x);
      && (|data| < c.nSamples ==> o == Outcome(s.(data := data), Success(false)))
      && (|data| == c.nSamples ==>
          && o.state == OcddState([], Append(s.outliers, predict(data, x), c.nSamples), Some(Fitted(data)))
          && o.drift == Success(false))
  {
  }

  /**
   * With a fitted detector every sample enters both windows, and a drift
   * is reported exactly when the buffer is full and the outlier rate
   * reaches the threshold.
   */
  lemma FittedStep(c: OcddConfig, predict: Predict, s: OcddState, x: Vector, training: seq<Vector>)
    requires s.model == Some(Fitted(training))
    ensures var data := Append(s.data, x, c.nSamples);
      var outliers := Append(s.outliers, predict(training, x), c.nSamples);
      var o := Step(c, predict, s, x);
      && (o.drift == Success(true) <==>
          |data| == c.nSamples && DriftRate(c, outliers) && Reset(c, OcddState(data, outliers, s.model)).drift == Success(true))
      && (!(|data| == c.nSamples && DriftRate(c, outliers)) ==>
          o == Outcome(OcddState(data, outliers, s.model), Success(false)))
  {
  }

  /**
   * A reset pops the newest `int(n_samples * (1 - threshold))` samples
   * (not the oldest), refits on the oldest ones that remain and empties
   * the buffer; the outlier window is kept.
   */
  lemma ResetKeepsOldest(c: OcddConfig, s: OcddState)
    requires 0 <= Dropped(c) < |s.data|
    ensures var o := Reset(c, s);
      && o.drift == Success(true)
      && o.state == OcddState([], s.outliers, Some(Fitted(s.data[..|s.data| - Dropped(c)])))
  {
  }

  /**
   * For a threshold in (0, 1] a reset of a full buffer pops fewer samples
   * than it holds, so it always succeeds and keeps the oldest.
   */
  lemma ResetOfFullBuffer(c: OcddConfig, s: OcddState)
    requires c.nSamples > 0 && 0.0 < c.threshold <= 1.0 && |s.data| == c.nSamples
    ensures 0 <= Dropped(c) < |s.data|
    ensures Reset(c, s).drift == Success(true)
  {
    var x := (c.nSamples as real) * (1.0 - c.threshold);
    assert 0.0 <= x < c.nSamples as real;
    ResetKeepsOldest(c, s);
  }

  /** Both windows stay within `n_samples`. */
  lemma StepBounded(c: OcddConfig, predict: Predict, s: OcddState, x: Vector)
    requires Bounded(c, s)
    ensures Bounded(c, Step(c, predict, s, x).state)
  {
    var t := s.(data := Append(s.data, x, c.nSamples));
    assert Bounded(c, t);
    if |t.data| == c.nSamples && t.model.None? {
      if c.nSamples > 0 {
        MonitorBounded(c, predict, Setup(t), x);
      }
    } else {
      MonitorBounded(c, predict, t, x);
    }
  }

  /** `update` is `setup` on the first full buffer (which fails only on an empty one), then the monitoring half. */
  lemma StepCases(c: OcddConfig, predict: Predict, s: OcddState, x: Vector)
    ensures var t := s.(data := Append(s.data, x, c.nSamples));
      && (|t.data| == c.nSamples && t.model.None? && c.nSamples == 0 ==> Step(c, predict, s, x) == Outcome(Setup(t), Failure(ValueError)))
      && (|t.data| == c.nSamples && t.model.None? && c.nSamples > 0 ==> Step(c, predict, s, x) == Monitor(c, predict, Setup(t), x))
      && (!(|t.data| == c.nSamples && t.model.None?) ==> Step(c, predict, s, x) == Monitor(c, predict, t, x))
  {
  }

  lemma MonitorBounded(c: OcddConfig, predict: Predict, s: OcddState, x: Vector)
    requires Bounded(c, s)
    ensures Bounded(c, Monitor(c, predict, s, x).state)
  {
    if s.model.Some? && s.model.value.Fitted? {
      MonitorFitted(c, predict, s, x, s.model.value.trainingData);
    }
  }

  lemma MonitorFitted(c: OcddConfig, predict: Predict, s: OcddState, x: Vector, training: seq<Vector>)
    requires s.model == Some(Fitted(training))
    ensures var t := s.(outliers := Append(s.outliers, predict(training, x), c.nSamples));
      Monitor(c, predict, s, x) == Reset(c, t) || Monitor(c, predict, s, x) == Outcome(t, Success(false))
  {
  }

  lemma ResetBounded(c: OcddConfig, s: OcddState)
    requires Bounded(c, s)
    ensures Bounded(c, Reset(c, s).state)
  {
  }

  /** After a successful setup or reset the buffer is empty, so the next `n_samples - 1` updates cannot test. */
  lemma NoTestWhileRefilling(c: OcddConfig, predict: Predict, s: OcddState, x: Vector)
    requires |s.data| + 1 < c.nSamples && s.model.Some?
    ensures Step(c, predict, s, x).drift != Success(true)
    ensures Step(c, predict, s, x).drift.Success? ==> Step(c, predict, s, x).state.data == s.data + [x]
  {
  }

  // ---------------------------------------------------------------------
  // The detector object
  // ---------------------------------------------------------------------

  class OcddDetector {
    const config: OcddConfig
    const predict: Predict
    var data: seq<Vector>
    var outliers: seq<int>
    var model: Option<Model>

    ghost predicate Valid()
      reads this
    {
      Bounded(config, State())
    }

    function State(): OcddState
      reads this
    {
      OcddState(data, outliers, model)
    }

    constructor (config: OcddConfig, predict: Predict)
      ensures Valid() && State() == Fresh
      ensures this.config == config && this.predict == predict
    {
      this.config := config;
      this.predict := predict;
      data, outliers, model := [], [], None;
    }

    /** `update(features)`. */
    method Update(features: Vector) returns (drift: Result<bool, DetectorError>)
      requires Valid()
      modifies this
      ensures Outcome(State(), drift) == Step(config, predict, old(State()), features)
      ensures Valid()
    {
      StepBounded(config, predict, State(), features);
      StepCases(config, predict, State(), features);
      var ok := AdmitSample(features);
      if !ok {
        return Failure(ValueError);
      }
      drift := MonitorSample(features);
    }

    /** The sample enters the buffer, and the first full buffer is used to fit the detector. */
    method AdmitSample(features: Vector) returns (ok: bool)
      modifies this
      ensures var t := old(State()).(data := Append(old(data), features, config.nSamples));
        && (|t.data| == config.nSamples && t.model.None? ==> State() == Setup(t) && (ok <==> config.nSamples > 0))
        && (!(|t.data| == config.nSamples && t.model.None?) ==> State() == t && ok)
    {
      data := Append(data, features, config.nSamples);
      ghost var t := State();
      assert t == old(State()).(data := Append(old(data), features, config.nSamples));
      ok := true;
      if |data| == config.nSamples && model.None? {
        ok := SetUp();
        assert State() == Setup(t);
      }
    }

    /** The part of `update` after the buffer has taken the sample. */
    method MonitorSample(features: Vector) returns (drift: Result<bool, DetectorError>)
      modifies this
      ensures Outcome(State(), drift) == Monitor(config, predict, old(State()), features)
    {
      match model {
        case None =>
          return Success(false);
        case Some(Unfitted) =>
          return Failure(ValueError);
        case Some(Fitted(training)) =>
          var outlier := predict(training, features);
          outliers := Append(outliers, outlier, config.nSamples);
          if |data| == config.nSamples && DriftRate(config, outliers) {
            drift := ResetDetector();
            return drift;
          }
          return Success(false);
      }
    }

    /** `reset`: the pop loop, then `setup`. */
    method ResetDetector() returns (drift: Result<bool, DetectorError>)
      modifies this
      ensures Outcome(State(), drift) == Reset(config, old(State()))
    {
      var dropped := Dropped(config);
      for k := 0 to if dropped < 0 then 0 else dropped
        invariant outliers == old(outliers) && model == old(model)
        invariant k <= |old(data)| && data == old(data)[..|old(data)| - k]
      {
        if |data| == 0 {
          return Failure(IndexError);
        }
        data := data[..|data| - 1];
      }
      assert data == PopNewest(old(data), dropped).0;
      var ok := SetUp();
      return if ok then Success(true) else Failure(ValueError);
    }

    /** `setup`: reports whether fitting succeeded. */
    method SetUp() returns (ok: bool)
      modifies this
      ensures ok <==> |old(data)| > 0
      ensures State() == Setup(old(State()))
    {
      if |data| == 0 {
        model := Some(Unfitted);
        return false;
      }
      model := Some(Fitted(data));
      data := [];
      return true;
    }
  }
}
