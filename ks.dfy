/**
 * The univariate Kolmogorov-Smirnov detector: a reference and a recent
 * window of equal capacity with a sliding delay between them, and a
 * two-sample test once the reference window is full. EDFS runs one of these
 * per selected feature.
 */
module KolmogorovSmirnov {
  import opened Common
  import opened Window
  import opened Detector

  /** `ks_2samp(reference, recent)`: the statistic and the p-value. */
  type KsTest = (seq<real>, seq<real>) -> (real, real)

  datatype KsConfig = KsConfig(windowSize: nat, threshold: real, resetAfterDrift: bool)

  datatype KsState = KsState(reference: seq<real>, recent: seq<real>)

  const Empty: KsState := KsState([], [])

  /** Both windows within their capacity. */
  predicate Bounded(c: KsConfig, s: KsState)
  {
    |s.reference| <= c.windowSize && |s.recent| <= c.windowSize
  }

  /** A drift is signalled iff the p-value is below the threshold and the statistic exceeds 0.1. */
  predicate Rejects(result: (real, real), threshold: real)
  {
    result.1 < threshold && result.0 > 0.1
  }

  /** `reset`: the recent window becomes the reference window, and a fresh recent window starts. */
  function Reset(s: KsState): (r: KsState)
    ensures r.reference == s.recent && r.recent == []
  {
    KsState(s.recent, [])
  }

  /** `update(feature)`. */
  function Step(c: KsConfig, test: KsTest, s: KsState, x: real): (o: Outcome<KsState>)
    // a window of size 0 is "full" when empty: `recent_data[0]` raises before anything changes
    ensures c.windowSize == 0 ==> o == Outcome(s, Failure(IndexError))
    ensures c.windowSize > 0 ==> o.drift.Success?
    ensures Bounded(c, s) ==> Bounded(c, o.state)
  {
    if c.windowSize == 0 then Outcome(s, Failure(IndexError))
    else
      var w := Slide(s.reference, s.recent, x, c.windowSize);
      var moved := KsState(w.0, w.1);
      if |moved.reference| == c.windowSize && Rejects(test(moved.reference, moved.recent), c.threshold) then
        Outcome(if c.resetAfterDrift then Reset(moved) else moved, Success(true))
      else Outcome(moved, Success(false))
  }

  /** The state after a stream of features, from a fresh detector; an exception stops the stream. */
  function Run(c: KsConfig, test: KsTest, xs: seq<real>): KsState
  {
    if |xs| == 0 then Empty
    else Step(c, test, Run(c, test, xs[..|xs| - 1]), xs[|xs| - 1]).state
  }

  // ---------------------------------------------------------------------
  // Properties
  // ---------------------------------------------------------------------

  /**
   * The warm-up and the decision rule: the feature always enters the recent
   * window; a drift is reported exactly when, after the move, the reference
   * window is full and the test rejects; only then (and only with
   * `reset_after_drift`) does the detector reset.
   */
  lemma StepDecision(c: KsConfig, test: KsTest, s: KsState, x: real)
    requires c.windowSize > 0
    ensures var w := Slide(s.reference, s.recent, x, c.windowSize);
      var o := Step(c, test, s, x);
      && (o.drift == Success(true) <==> |w.0| == c.windowSize && Rejects(test(w.0, w.1), c.threshold))
      && (o.drift == Success(true) && c.resetAfterDrift ==> o.state == KsState(w.1, []))
      && (o.drift == Success(false) || !c.resetAfterDrift ==> o.state == KsState(w.0, w.1))
  {
  }

  /** Once the reference window is full it stays full until a reset, and every update runs the test. */
  lemma FullReferenceTests(c: KsConfig, test: KsTest, s: KsState, x: real)
    requires c.windowSize > 0 && Bounded(c, s) && |s.reference| == c.windowSize
    ensures var w := Slide(s.reference, s.recent, x, c.windowSize);
      && |w.0| == c.windowSize
      && Step(c, test, s, x).drift == Success(Rejects(test(w.0, w.1), c.threshold))
  {
  }

  /**
   * A reset while the recent window is full leaves a full reference window,
   * so the very next update runs the test on a single recent feature.
   */
  lemma NoWarmUpAfterReset(c: KsConfig, test: KsTest, s: KsState, x: real, y: real)
    requires c.windowSize > 0 && c.resetAfterDrift && Bounded(c, s) && |s.recent| == c.windowSize
    requires Step(c, test, s, x).drift == Success(true)
    ensures var t := Step(c, test, s, x).state;
      && |t.reference| == c.windowSize && t.recent == []
      && Step(c, test, t, y).drift == Success(Rejects(test(t.reference, [y]), c.threshold))
  {
    var t := Step(c, test, s, x).state;
    FullReferenceTests(c, test, t, y);
  }

  /** Without resets the detector's windows are exactly the sliding-delay pair over the stream. */
  lemma {:induction false} RunWithoutReset(c: KsConfig, test: KsTest, xs: seq<real>)
    requires c.windowSize > 0 && !c.resetAfterDrift
    ensures var w := SlideAll(xs, c.windowSize);
      Run(c, test, xs) == KsState(w.0, w.1)
  {
    if |xs| > 0 {
      RunWithoutReset(c, test, xs[..|xs| - 1]);
    }
  }

  /**
   * The sliding delay, for the detector: without resets, reference ++
   * recent is the last `2 * window_size` features in arrival order, and the
   * reference window is empty until the recent window has filled.
   */
  lemma SlidingDelayWithoutReset(c: KsConfig, test: KsTest, xs: seq<real>)
    requires c.windowSize > 0 && !c.resetAfterDrift
    ensures var s := Run(c, test, xs);
      && s.reference + s.recent == Last(xs, 2 * c.windowSize)
      && (|s.recent| < c.windowSize ==> s.reference == [])
  {
    RunWithoutReset(c, test, xs);
    SlidingDelay(xs, c.windowSize);
  }

  /** One update keeps reference ++ recent a contiguous run of the latest features, with or without a reset. */
  lemma StepKeepsSuffix(c: KsConfig, test: KsTest, s: KsState, h: seq<real>, x: real)
    requires c.windowSize > 0 && Bounded(c, s) && IsSuffix(s.reference + s.recent, h)
    ensures var t := Step(c, test, s, x).state;
      IsSuffix(t.reference + t.recent, h + [x])
  {
    var w := Slide(s.reference, s.recent, x, c.windowSize);
    var t := Step(c, test, s, x).state;
    assert t.reference + t.recent == w.0 + w.1 || t.reference + t.recent == w.1;
    SlideOrResetIsSuffix(s.reference, s.recent, x, c.windowSize, h, t.reference + t.recent);
  }

  /** With or without resets, the windows always hold a contiguous run of the most recent features. */
  lemma {:induction false} RunIsSuffix(c: KsConfig, test: KsTest, xs: seq<real>)
    requires c.windowSize > 0
    ensures var s := Run(c, test, xs);
      IsSuffix(s.reference + s.recent, xs) && Bounded(c, s)
  {
    if |xs| > 0 {
      var h := xs[..|xs| - 1];
      assert xs == h + [xs[|xs| - 1]];
      RunIsSuffix(c, test, h);
      StepKeepsSuffix(c, test, Run(c, test, h), h, xs[|xs| - 1]);
    }
  }

  // ---------------------------------------------------------------------
  // The detector object
  // ---------------------------------------------------------------------

  class KsDetector {
    const config: KsConfig
    const test: KsTest
    var reference: seq<real>
    var recent: seq<real>

    ghost predicate Valid()
      reads this
    {
      Bounded(config, State())
    }

    function State(): KsState
      reads this
    {
      KsState(reference, recent)
    }

    constructor (windowSize: nat, threshold: real, resetAfterDrift: bool, test: KsTest)
      ensures Valid() && State() == Empty
      ensures config == KsConfig(windowSize, threshold, resetAfterDrift) && this.test == test
    {
      config := KsConfig(windowSize, threshold, resetAfterDrift);
      this.test := test;
      reference, recent := [], [];
    }

    /** `update(feature)`. */
    method Update(feature: real) returns (drift: Result<bool, DetectorError>)
      requires Valid()
      modifies this
      ensures Valid()
      ensures Outcome(State(), drift) == Step(config, test, old(State()), feature)
    {
      if config.windowSize == 0 && |recent| == 0 {
        return Failure(IndexError);
      }
      StepDecision(config, test, State(), feature);
      Slides(feature);
      if |reference| == config.windowSize {
        var result := test(reference, recent);
        if result.1 < config.threshold && result.0 > 0.1 {
          if config.resetAfterDrift {
            ResetWindows();
          }
          return Success(true);
        }
      }
      return Success(false);
    }

    /** The sliding delay: a full recent window hands its oldest feature to the reference. */
    method Slides(feature: real)
      requires Valid() && config.windowSize > 0
      modifies this
      ensures Valid() && (reference, recent) == Slide(old(reference), old(recent), feature, config.windowSize)
    {
      if |recent| == config.windowSize {
        reference := Append(reference, recent[0], config.windowSize);
      }
      recent := Append(recent, feature, config.windowSize);
    }

    /** `reset`. */
    method ResetWindows()
      requires Valid()
      modifies this
      ensures Valid() && State() == Reset(old(State()))
    {
      reference := recent;
      recent := [];
    }
  }
}
