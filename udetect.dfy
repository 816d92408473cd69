/**
 * UDetect: a window of `n_samples` points is summarised by one number;
 * the summaries of the first `n_windows` full windows set control limits
 * in the manner of statistical process control, and every later full
 * window whose summary falls outside those limits signals a drift.
 */
module UDetect {
  import opened Common
  import opened Window
  import opened Detector

  datatype UDetectConfig = UDetectConfig(nWindows: int, nSamples: nat, disjointTrainingWindows: bool)

  /**
   * The control limits. The individual limits are NaN (`None`) when they
   * were computed from no summaries (`np.mean([])`); the range limit never is.
   */
  datatype Limits = Limits(upperRange: real, upperIndividual: Option<real>, lowerIndividual: Option<real>)

  datatype UDetectState = UDetectState(data: seq<Vector>, summaries: seq<real>, limits: Option<Limits>)

  const Fresh: UDetectState := UDetectState([], [], None)

  // ---------------------------------------------------------------------
  // The window summary
  // ---------------------------------------------------------------------

  /** Squared distance of a row from the column-wise mean. */
  function SquaredDeviation(row: Vector, mean: Vector): (r: real)
    requires |row| == |mean|
    ensures r >= 0.0
  {
    DotSelfNonNegative(Sub(row, mean));
    Dot(Sub(row, mean), Sub(row, mean))
  }

  function Deviations(data: seq<Vector>, mean: Vector): (ds: seq<real>)
    requires Rows(data, |mean|)
    ensures |ds| == |data|
    ensures forall i :: 0 <= i < |data| ==> ds[i] == SquaredDeviation(data[i], mean)
  {
    seq(|data|, i requires 0 <= i < |data| => SquaredDeviation(data[i], mean))
  }

  /**
   * `_calculate_window_summary`: `np.sum((data - mean) ** 2) ** 1/2` parses
   * as `(np.sum(...) ** 1) / 2`, so the summary is half the total squared
   * deviation from the column-wise mean, not its square root. An empty
   * window sums to 0; a ragged one makes numpy raise.
   */
  function Summary(data: seq<Vector>): (r: Result<real, DetectorError>)
    ensures r.Success? <==> Uniform(data)
  {
    if |data| == 0 then Success(0.0)
    else if !Rows(data, |data[0]|) then Failure(ValueError)
    else
      var mean := ColumnMean(data, |data[0]|);
      Success(Sum(Deviations(data, mean)) / 2.0)
  }

  // ---------------------------------------------------------------------
  // The control limits and the test
  // ---------------------------------------------------------------------

  /** `summaries[1:] - summaries[:-1]`. */
  function Differences(s: seq<real>): (d: seq<real>)
    ensures |d| == if |s| == 0 then 0 else |s| - 1
    ensures forall i :: 0 <= i < |d| ==> d[i] == s[i + 1] - s[i]
  {
    if |s| <= 1 then [] else seq(|s| - 1, i requires 0 <= i < |s| - 1 => s[i + 1] - s[i])
  }

  function Squares(d: seq<real>): (q: seq<real>)
    ensures |q| == |d|
    ensures forall i :: 0 <= i < |d| ==> q[i] == d[i] * d[i] && q[i] >= 0.0
  {
    seq(|d|, i requires 0 <= i < |d| => d[i] * d[i])
  }

  /** `np.linalg.norm` of the successive differences, the moving range. */
  function MovingRange(sqrt: Sqrt, s: seq<real>): (mr: real)
    ensures mr >= 0.0
  {
    sqrt(Sum(Squares(Differences(s))))
  }

  /** `_calculate_thresholds`: 3.27 times the moving range, and the mean summary ± 2.66 times it. */
  function Thresholds(sqrt: Sqrt, s: seq<real>): (l: Limits)
    ensures l.upperIndividual.Some? <==> |s| > 0
    ensures l.lowerIndividual.Some? <==> |s| > 0
  {
    var mr := MovingRange(sqrt, s);
    if |s| == 0 then Limits(3.27 * mr, None, None)
    else Limits(3.27 * mr, Some(Mean(s) + 2.66 * mr), Some(Mean(s) - 2.66 * mr))
  }

  /**
   * The test of `_detect_drift`: `a or b and c` groups as `a or (b and c)`,
   * and any comparison with NaN is false.
   */
  predicate OutOfControl(summary: real, l: Limits)
  {
    || (l.lowerIndividual.Some? && summary < l.lowerIndividual.value)
    || (l.upperIndividual.Some? && summary > l.upperIndividual.value && summary > l.upperRange)
  }

  /** `_detect_drift`: the current window's summary against the limits. */
  function Detect(data: seq<Vector>, l: Limits): (r: Result<bool, DetectorError>)
    ensures r.Success? <==> Uniform(data)
    ensures r.Success? ==> (r.value <==> OutOfControl(Summary(data).value, l))
  {
    var summary := Summary(data);
    if summary.Failure? then Failure(summary.error) else Success(OutOfControl(summary.value, l))
  }

  /** `reset`: the limits are dropped and the window emptied; the summaries stay. */
  function Reset(s: UDetectState): (r: UDetectState)
    ensures r.data == [] && r.limits.None? && r.summaries == s.summaries
  {
    s.(data := [], limits := None)
  }

  /**
   * `update(features)`: the sample enters the window. A full window adds a
   * summary while fewer than `n_windows` exist (emptying the window in
   * disjoint mode), then sets the limits once, then is tested; a drift
   * resets the detector.
   */
  function Step(c: UDetectConfig, sqrt: Sqrt, s: UDetectState, x: Vector): (o: Outcome<UDetectState>)
  {
    var t := s.(data := Append(s.data, x, c.nSamples));
    if |t.data| != c.nSamples then Outcome(t, Success(false))
    else if |t.summaries| < c.nWindows then
      var summary := Summary(t.data);
      if summary.Failure? then Outcome(t, Failure(summary.error))
      else
        var u := t.(summaries := t.summaries + [summary.value]);
        Outcome(if c.disjointTrainingWindows then u.(data := []) else u, Success(false))
    else if t.limits.None? then Outcome(t.(limits := Some(Thresholds(sqrt, t.summaries))), Success(false))
    else
      var drift := Detect(t.data, t.limits.value);
      if drift == Success(true) then Outcome(Reset(t), drift) else Outcome(t, drift)
  }

  // ---------------------------------------------------------------------
  // Properties of the summary
  // ---------------------------------------------------------------------

  /** The summary is never negative. */
  lemma SummaryNonNegative(data: seq<Vector>)
    requires Uniform(data)
    ensures Summary(data).value >= 0.0
  {
    if |data| > 0 {
      var mean := ColumnMean(data, |data[0]|);
      SumNonNegative(Deviations(data, mean));
    }
  }

  /** A window of identical samples has summary 0. */
  lemma SummaryOfEqualRows(data: seq<Vector>)
    requires |data| > 0 && forall i :: 0 <= i < |data| ==> data[i] == data[0]
    ensures Summary(data) == Success(0.0)
  {
    var d := |data[0]|;
    var mean := ColumnMean(data, d);
    forall j | 0 <= j < d
      ensures mean[j] == data[0][j]
    {
      var col := Col(data, j);
      assert forall i :: 0 <= i < |col| ==> col[i] == data[0][j];
      MeanConstant(col, data[0][j]);
    }
    assert mean == data[0];
    forall i | 0 <= i < |data|
      ensures Deviations(data, mean)[i] == 0.0
    {
      var diff := Sub(data[i], mean);
      assert IsZero(diff);
      DotZero(diff, diff);
    }
    SumZero(Deviations(data, mean));
  }

  // ---------------------------------------------------------------------
  // Properties of the limits and the test
  // ---------------------------------------------------------------------

  /**
   * The range limit is never negative and the lower individual limit never
   * exceeds the upper one; both lie 2.66 moving ranges from the mean summary.
   */
  lemma ThresholdsOrdered(sqrt: Sqrt, s: seq<real>)
    ensures Thresholds(sqrt, s).upperRange >= 0.0
    ensures |s| > 0 ==>
      && Thresholds(sqrt, s).lowerIndividual.value <= Mean(s) <= Thresholds(sqrt, s).upperIndividual.value
      && Thresholds(sqrt, s).upperIndividual.value - Mean(s) == Mean(s) - Thresholds(sqrt, s).lowerIndividual.value
  {
  }

  /**
   * With identical summaries the moving range is 0: the range limit is 0
   * and both individual limits equal the summary.
   */
  lemma ConstantSummaries(sqrt: Sqrt, s: seq<real>, v: real)
    requires |s| > 0 && forall i :: 0 <= i < |s| ==> s[i] == v
    ensures Thresholds(sqrt, s) == Limits(0.0, Some(v), Some(v))
  {
    ConstantMovingRange(sqrt, s, v);
    MeanConstant(s, v);
    ThresholdsOfZeroRange(sqrt, s, v);
  }

  lemma ThresholdsOfZeroRange(sqrt: Sqrt, s: seq<real>, v: real)
    requires |s| > 0 && MovingRange(sqrt, s) == 0.0 && Mean(s) == v
    ensures Thresholds(sqrt, s) == Limits(0.0, Some(v), Some(v))
  {
    var mr, m := MovingRange(sqrt, s), Mean(s);
    assert Thresholds(sqrt, s) == Limits(3.27 * mr, Some(m + 2.66 * mr), Some(m - 2.66 * mr));
    ZeroRangeLimits(mr, m);
  }

  lemma ZeroRangeLimits(mr: real, m: real)
    requires mr == 0.0
    ensures Limits(3.27 * mr, Some(m + 2.66 * mr), Some(m - 2.66 * mr)) == Limits(0.0, Some(m), Some(m))
  {
  }

  /** Identical summaries have moving range 0. */
  lemma ConstantMovingRange(sqrt: Sqrt, s: seq<real>, v: real)
    requires forall i :: 0 <= i < |s| ==> s[i] == v
    ensures MovingRange(sqrt, s) == 0.0
  {
    var d := Differences(s);
    forall i | 0 <= i < |d|
      ensures d[i] == 0.0
    {
      assert d[i] == s[i + 1] - s[i];
    }
    var q := Squares(d);
    forall i | 0 <= i < |q|
      ensures q[i] == 0.0
    {
      assert q[i] == d[i] * d[i] && d[i] == 0.0;
    }
    SumZero(q);
    assert MovingRange(sqrt, s) == sqrt(Sum(q));
  }

  /**
   * Because `and` binds tighter than `or`, a window is out of control iff
   * its summary is below the lower limit or above both upper limits.
   */
  lemma OutOfControlCases(summary: real, l: Limits)
    requires l.upperIndividual.Some? && l.lowerIndividual.Some?
    ensures OutOfControl(summary, l) <==>
      || summary < l.lowerIndividual.value
      || summary > (if l.upperIndividual.value > l.upperRange then l.upperIndividual.value else l.upperRange)
  {
  }

  /** NaN individual limits (no training summaries) never signal a drift. */
  lemma NoSummariesNoDrift(summary: real, sqrt: Sqrt)
    ensures !OutOfControl(summary, Thresholds(sqrt, []))
  {
  }

  /**
   * A window of identical samples summarises to 0: against a lower limit
   * at or below 0 it drifts only when both upper limits are negative.
   */
  lemma EqualRowsWindow(data: seq<Vector>, l: Limits)
    requires |data| > 0 && forall i :: 0 <= i < |data| ==> data[i] == data[0]
    requires l.lowerIndividual.Some? && l.lowerIndividual.value <= 0.0
    ensures Detect(data, l) == Success(l.upperIndividual.Some? && 0.0 > l.upperIndividual.value && 0.0 > l.upperRange)
  {
    SummaryOfEqualRows(data);
  }

  // ---------------------------------------------------------------------
  // Properties of the update phases
  // ---------------------------------------------------------------------

  /** The invariant of the detector: the limits, once set, are those of the final summaries. */
  ghost predicate Consistent(c: UDetectConfig, sqrt: Sqrt, s: UDetectState)
  {
    && |s.data| <= c.nSamples
    && |s.summaries| <= (if c.nWindows < 0 then 0 else c.nWindows)
    && (s.limits.Some? ==> |s.summaries| >= c.nWindows && s.limits.value == Thresholds(sqrt, s.summaries))
  }

  lemma FreshConsistent(c: UDetectConfig, sqrt: Sqrt)
    ensures Consistent(c, sqrt, Fresh)
  {
  }

  /**
   * The three phases of a full-window update: a summary is added while
   * fewer than `n_windows` exist; then the limits are set with no test;
   * after that the window is tested and a drift resets the detector.
   */
  lemma StepPhases(c: UDetectConfig, sqrt: Sqrt, s: UDetectState, x: Vector)
    ensures var data := Append(s.data, x, c.nSamples);
      var o := Step(c, sqrt, s, x);
      && (|data| != c.nSamples ==> o == Outcome(s.(data := data), Success(false)))
      && (|data| == c.nSamples && |s.summaries| < c.nWindows && Uniform(data) ==>
          && o.drift == Success(false)
          && o.state.summaries == s.summaries + [Summary(data).value]
          && o.state.limits == s.limits
          && o.state.data == (if c.disjointTrainingWindows then [] else data))
      && (|data| == c.nSamples && |s.summaries| >= c.nWindows && s.limits.None? ==>
          o == Outcome(UDetectState(data, s.summaries, Some(Thresholds(sqrt, s.summaries))), Success(false)))
      && (|data| == c.nSamples && |s.summaries| >= c.nWindows && s.limits.Some? ==>
          && o.drift == Detect(data, s.limits.value)
          && o.state.summaries == s.summaries
          && (o.drift == Success(true) ==> o.state == UDetectState([], s.summaries, None))
          && (o.drift != Success(true) ==> o.state == s.(data := data)))
  {
  }

  /**
   * Every update keeps the invariant: the window stays within `n_samples`,
   * the summaries never exceed `n_windows`, and limits recomputed after a
   * reset are the limits that were dropped.
   */
  lemma StepConsistent(c: UDetectConfig, sqrt: Sqrt, s: UDetectState, x: Vector)
    requires Consistent(c, sqrt, s)
    ensures Consistent(c, sqrt, Step(c, sqrt, s, x).state)
  {
    var data := Append(s.data, x, c.nSamples);
    var t := Step(c, sqrt, s, x).state;
    StepPhases(c, sqrt, s, x);
    if |data| == c.nSamples && |s.summaries| < c.nWindows {
      if Uniform(data) {
        assert |t.summaries| == |s.summaries| + 1 && t.limits.None?;
      } else {
        assert t == s.(data := data);
      }
    }
  }

  /**
   * Once the limits are set the summaries are frozen: a later update keeps
   * them, and any limits it holds are the same ones.
   */
  lemma LimitsNeverChange(c: UDetectConfig, sqrt: Sqrt, s: UDetectState, x: Vector)
    requires Consistent(c, sqrt, s) && s.limits.Some?
    ensures var t := Step(c, sqrt, s, x).state;
      t.summaries == s.summaries && (t.limits.Some? ==> t.limits == s.limits)
  {
    StepPhases(c, sqrt, s, x);
  }

  /** Updates over a stream. */
  function Run(c: UDetectConfig, sqrt: Sqrt, s: UDetectState, xs: seq<Vector>): UDetectState
  {
    if |xs| == 0 then s else Step(c, sqrt, Run(c, sqrt, s, xs[..|xs| - 1]), xs[|xs| - 1]).state
  }

  /** The invariant holds after any stream of updates from a fresh detector. */
  lemma {:induction false} RunConsistent(c: UDetectConfig, sqrt: Sqrt, xs: seq<Vector>)
    ensures Consistent(c, sqrt, Run(c, sqrt, Fresh, xs))
  {
    if |xs| > 0 {
      RunConsistent(c, sqrt, xs[..|xs| - 1]);
      StepConsistent(c, sqrt, Run(c, sqrt, Fresh, xs[..|xs| - 1]), xs[|xs| - 1]);
    }
  }

  // ---------------------------------------------------------------------
  // The detector object
  // ---------------------------------------------------------------------

  class UDetector {
    const config: UDetectConfig
    const sqrt: Sqrt
    var data: seq<Vector>
    var summaries: seq<real>
    var limits: Option<Limits>

    function State(): UDetectState
      reads this
    {
      UDetectState(data, summaries, limits)
    }

    ghost predicate Valid()
      reads this
    {
      Consistent(config, sqrt, State())
    }

    constructor (config: UDetectConfig, sqrt: Sqrt)
      ensures Valid() && State() == Fresh
      ensures this.config == config && this.sqrt == sqrt
    {
      this.config := config;
      this.sqrt := sqrt;
      data, summaries, limits := [], [], None;
    }

    /** `update(features)`. */
    method Update(features: Vector) returns (drift: Result<bool, DetectorError>)
      requires Valid()
      modifies this
      ensures Valid()
      ensures Outcome(State(), drift) == Step(config, sqrt, old(State()), features)
    {
      StepConsistent(config, sqrt, State(), features);
      data := Append(data, features, config.nSamples);
      if |data| != config.nSamples {
        return Success(false);
      }
      if |summaries| < config.nWindows {
        var summary := Summary(data);
        if summary.Failure? {
          return Failure(summary.error);
        }
        summaries := summaries + [summary.value];
        if config.disjointTrainingWindows {
          data := [];
        }
        return Success(false);
      }
      if limits.None? {
        CalculateThresholds();
        return Success(false);
      }
      drift := DetectDrift();
      if drift == Success(true) {
        ResetDetector();
      }
    }

    /** `_detect_drift`. */
    method DetectDrift() returns (drift: Result<bool, DetectorError>)
      requires limits.Some?
      ensures drift == Detect(data, limits.value)
    {
      var summary := Summary(data);
      if summary.Failure? {
        return Failure(summary.error);
      }
      var s := summary.value;
      var l := limits.value;
      drift := Success(
        || (l.lowerIndividual.Some? && s < l.lowerIndividual.value)
        || (l.upperIndividual.Some? && s > l.upperIndividual.value && s > l.upperRange));
    }

    /** `_calculate_thresholds`. */
    method CalculateThresholds()
      modifies this
      ensures State() == old(State()).(limits := Some(Thresholds(sqrt, summaries)))
    {
      limits := Some(Thresholds(sqrt, summaries));
    }

    /** `reset`. */
    method ResetDetector()
      modifies this
      ensures State() == Reset(old(State()))
    {
      limits := None;
      data := [];
    }
  }
}
