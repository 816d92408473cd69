/**
 * The Image-Based Drift Detector (IBDD): the first `n_samples` points are
 * kept for ever as the reference; once a window of `n_samples` recent
 * points is full, each update computes the mean squared deviation between
 * the two and signals a drift when the last few deviations all lie above
 * the upper threshold or all below the lower one. The thresholds start
 * from deviations of permuted copies of the reference and move with the
 * recent deviations.
 */
module Ibdd {
  import opened Common
  import opened Window
  import opened Detector

  datatype IbddConfig = IbddConfig(nSamples: nat, nConsecutive: int, nPermutations: nat, updateInterval: nat)

  // ---------------------------------------------------------------------
  // Floats that may be NaN
  // ---------------------------------------------------------------------

  /** A float that may be NaN (`None`): arithmetic with NaN gives NaN, and every comparison with it is false. */
  type Float = Option<real>

  function Plus(a: Float, b: Float): Float
  {
    if a.Some? && b.Some? then Some(a.value + b.value) else None
  }

  function Minus(a: Float, b: Float): Float
  {
    if a.Some? && b.Some? then Some(a.value - b.value) else None
  }

  function Twice(a: Float): Float
  {
    if a.Some? then Some(2.0 * a.value) else None
  }

  predicate Numbers(xs: seq<Float>)
  {
    forall i :: 0 <= i < |xs| ==> xs[i].Some?
  }

  function Values(xs: seq<Float>): (vs: seq<real>)
    requires Numbers(xs)
    ensures |vs| == |xs| && forall i :: 0 <= i < |xs| ==> vs[i] == xs[i].value
  {
    seq(|xs|, i requires 0 <= i < |xs| => xs[i].value)
  }

  /** `np.mean`: NaN for an empty array or one holding NaN. */
  function MeanOf(xs: seq<Float>): (m: Float)
    ensures m.Some? <==> |xs| > 0 && Numbers(xs)
  {
    if |xs| == 0 || !Numbers(xs) then None else Some(Mean(Values(xs)))
  }

  /** `np.std`: the square root of the mean squared distance from the mean. */
  function StdOf(sqrt: Sqrt, xs: seq<Float>): (r: Float)
    ensures r.Some? <==> |xs| > 0 && Numbers(xs)
    ensures r.Some? ==> r.value >= 0.0
  {
    if |xs| == 0 || !Numbers(xs) then None
    else
      var vs := Values(xs);
      var m := Mean(vs);
      Some(sqrt(Mean(seq(|vs|, i requires 0 <= i < |vs| => (vs[i] - m) * (vs[i] - m)))))
  }

  /** `np.all(values >= bound)`: true for no values, false against NaN. */
  predicate AllAtLeast(values: seq<Float>, bound: Float)
  {
    forall i :: 0 <= i < |values| ==> values[i].Some? && bound.Some? && values[i].value >= bound.value
  }

  /** `np.all(values <= bound)`. */
  predicate AllAtMost(values: seq<Float>, bound: Float)
  {
    forall i :: 0 <= i < |values| ==> values[i].Some? && bound.Some? && values[i].value <= bound.value
  }

  /** A mean of values that are never negative is never negative. */
  lemma MeanOfNonNegative(xs: seq<Float>)
    requires forall i :: 0 <= i < |xs| ==> xs[i].Some? ==> xs[i].value >= 0.0
    ensures MeanOf(xs).Some? ==> MeanOf(xs).value >= 0.0
  {
    if MeanOf(xs).Some? {
      MeanAtLeast(Values(xs), 0.0);
    }
  }

  // ---------------------------------------------------------------------
  // The mean squared deviation
  // ---------------------------------------------------------------------

  /** `np.array(a).shape == np.array(b).shape`, where building either array from ragged rows raises. */
  predicate SameShape(a: seq<Vector>, b: seq<Vector>)
  {
    Uniform(a) && Uniform(b) && |a| == |b| && (|a| == 0 || |a[0]| == |b[0]|)
  }

  function RowErrors(a: seq<Vector>, b: seq<Vector>): (es: seq<real>)
    requires SameShape(a, b)
    ensures |es| == |a|
    ensures forall i :: 0 <= i < |a| ==> es[i] == Dot(Sub(a[i], b[i]), Sub(a[i], b[i]))
  {
    seq(|a|, i requires 0 <= i < |a| => Dot(Sub(a[i], b[i]), Sub(a[i], b[i])))
  }

  /**
   * `_calculate_mean_squared_deviation`: the mean of the squared
   * elementwise differences; NaN for arrays with no entries, and a
   * `ValueError` for arrays of different shapes.
   */
  function Msd(a: seq<Vector>, b: seq<Vector>): (r: Result<Float, DetectorError>)
    ensures r.Success? <==> SameShape(a, b)
    ensures r.Success? ==> (r.value.Some? <==> |a| > 0 && |a[0]| > 0)
  {
    if !SameShape(a, b) then Failure(ValueError)
    else if |a| == 0 || |a[0]| == 0 then Success(None)
    else Success(Some(Sum(RowErrors(a, b)) / ((|a| * |a[0]|) as real)))
  }

  /** The deviation is never negative. */
  lemma MsdNonNegative(a: seq<Vector>, b: seq<Vector>)
    requires SameShape(a, b)
    ensures Msd(a, b).value.Some? ==> Msd(a, b).value.value >= 0.0
  {
    var es := RowErrors(a, b);
    forall i | 0 <= i < |es|
      ensures es[i] >= 0.0
    {
      DotSelfNonNegative(Sub(a[i], b[i]));
    }
    SumNonNegative(es);
  }

  /** A window deviates from itself by 0. */
  lemma MsdSelf(a: seq<Vector>)
    requires Uniform(a) && |a| > 0 && |a[0]| > 0
    ensures Msd(a, a) == Success(Some(0.0))
  {
    var es := RowErrors(a, a);
    forall i | 0 <= i < |a|
      ensures es[i] == 0.0
    {
      assert IsZero(Sub(a[i], a[i]));
      DotZero(Sub(a[i], a[i]), Sub(a[i], a[i]));
    }
    SumZero(es);
  }

  lemma {:induction false} DotSubSymmetric(x: Vector, y: Vector)
    requires |x| == |y|
    ensures Dot(Sub(x, y), Sub(x, y)) == Dot(Sub(y, x), Sub(y, x))
  {
    if |x| > 0 {
      DotSubSymmetric(x[1..], y[1..]);
      assert Sub(x, y)[1..] == Sub(x[1..], y[1..]);
      assert Sub(y, x)[1..] == Sub(y[1..], x[1..]);
    }
  }

  /** The deviation does not depend on the order of its arguments. */
  lemma MsdSymmetric(a: seq<Vector>, b: seq<Vector>)
    ensures Msd(a, b) == Msd(b, a)
  {
    if SameShape(a, b) {
      forall i | 0 <= i < |a|
        ensures RowErrors(a, b)[i] == RowErrors(b, a)[i]
      {
        DotSubSymmetric(a[i], b[i]);
      }
      assert RowErrors(a, b) == RowErrors(b, a);
    }
  }

  // ---------------------------------------------------------------------
  // Permutations of the reference
  // ---------------------------------------------------------------------

  /** The index array after `k` in-place shuffles, the `j`-th using draw `j`. */
  function PermutedIndices(shuffle: Shuffle, n: nat, k: nat): (r: seq<int>)
    ensures multiset(r) == multiset(Identity(n))
  {
    if k == 0 then Identity(n) else shuffle(PermutedIndices(shuffle, n, k - 1), k - 1)
  }

  predicate Indexes(idx: seq<int>, n: nat)
  {
    forall i :: 0 <= i < |idx| ==> 0 <= idx[i] < n
  }

  /** Every shuffled index array is a permutation of `0 .. n - 1`. */
  lemma PermutedIndicesInRange(shuffle: Shuffle, n: nat, k: nat)
    ensures |PermutedIndices(shuffle, n, k)| == n
    ensures Indexes(PermutedIndices(shuffle, n, k), n)
  {
    var r := PermutedIndices(shuffle, n, k);
    assert |r| == |multiset(r)| == |multiset(Identity(n))| == n;
    forall i | 0 <= i < |r|
      ensures 0 <= r[i] < n
    {
      assert r[i] in multiset(Identity(n));
      var j :| 0 <= j < n && Identity(n)[j] == r[i];
    }
  }

  /** `np.array(rows)[indices]`. */
  function Permute(rows: seq<Vector>, idx: seq<int>): (r: seq<Vector>)
    requires Indexes(idx, |rows|)
    ensures |r| == |idx| && forall i :: 0 <= i < |idx| ==> r[i] == rows[idx[i]]
  {
    seq(|idx|, i requires 0 <= i < |idx| => rows[idx[i]])
  }

  /** A permuted copy of a 2-D array has the array's shape. */
  lemma PermuteSameShape(rows: seq<Vector>, idx: seq<int>)
    requires Uniform(rows) && |idx| == |rows| && Indexes(idx, |rows|)
    ensures SameShape(rows, Permute(rows, idx))
  {
  }

  /** The deviation of the reference from its copy permuted by the `j`-th index array. */
  function PermutationDeviation(shuffle: Shuffle, reference: seq<Vector>, j: nat): (d: Float)
    requires Uniform(reference)
    ensures d.Some? ==> d.value >= 0.0
  {
    var idx := PermutedIndices(shuffle, |reference|, j);
    PermutedIndicesInRange(shuffle, |reference|, j);
    PermuteSameShape(reference, idx);
    MsdNonNegative(reference, Permute(reference, idx));
    Msd(reference, Permute(reference, idx)).value
  }

  /** The deviations of the first `k` permuted copies, in order. */
  function PermutationDeviations(shuffle: Shuffle, reference: seq<Vector>, k: nat): (ds: seq<Float>)
    requires Uniform(reference)
    ensures |ds| == k
    ensures forall i :: 0 <= i < k ==> ds[i] == PermutationDeviation(shuffle, reference, i + 1)
  {
    if k == 0 then []
    else PermutationDeviations(shuffle, reference, k - 1) + [PermutationDeviation(shuffle, reference, k)]
  }

  // ---------------------------------------------------------------------
  // Thresholds
  // ---------------------------------------------------------------------

  /** The two thresholds, always set together. */
  datatype Thresholds = Thresholds(upper: Float, lower: Float)

  /** `upper_threshold - lower_threshold`, the value recorded in `threshold_diffs`. */
  function Gap(t: Thresholds): Float
  {
    Minus(t.upper, t.lower)
  }

  predicate Ordered(t: Thresholds)
  {
    Gap(t).Some? ==> Gap(t).value >= 0.0
  }

  /** `mean ± 2·std` of a window of deviations. */
  function Spread(sqrt: Sqrt, xs: seq<Float>): (t: Thresholds)
    ensures Gap(t).Some? <==> StdOf(sqrt, xs).Some?
    ensures Gap(t).Some? ==> Gap(t).value == 4.0 * StdOf(sqrt, xs).value
    ensures Ordered(t)
  {
    var m := MeanOf(xs);
    var sd := StdOf(sqrt, xs);
    assert m.Some? <==> sd.Some?;
    Thresholds(Plus(m, Twice(sd)), Minus(m, Twice(sd)))
  }

  datatype IbddState = IbddState(
    reference: seq<Vector>,
    recent: seq<Vector>,
    deviations: seq<Float>,
    thresholds: Option<Thresholds>,
    diffs: seq<Float>,
    timeStep: int,
    lastUpdate: int)

  const Fresh: IbddState := IbddState([], [], [], None, [], 0, 0)

  /** New thresholds take effect: their gap is recorded and the update time noted. */
  function Record(s: IbddState, t: Thresholds): (r: IbddState)
    ensures r.thresholds == Some(t) && r.diffs == s.diffs + [Gap(t)] && r.lastUpdate == s.timeStep
    ensures r.reference == s.reference && r.recent == s.recent && r.deviations == s.deviations && r.timeStep == s.timeStep
  {
    s.(thresholds := Some(t), diffs := s.diffs + [Gap(t)], lastUpdate := s.timeStep)
  }

  /**
   * `_calculate_initial_thresholds`: the deviations of `n_permutations`
   * shuffled copies of the reference enter the deviation window, and the
   * thresholds are set `2·std` either side of their mean. Calling it with
   * thresholds set raises, as does a reference of ragged rows.
   */
  function InitialThresholds(c: IbddConfig, shuffle: Shuffle, sqrt: Sqrt, s: IbddState): (r: Result<IbddState, DetectorError>)
    ensures s.thresholds.Some? ==> r == Failure(ValueError)
    ensures r.Success? <==> s.thresholds.None? && (c.nPermutations == 0 || Uniform(s.reference))
    ensures r.Success? ==>
      && r.value.reference == s.reference && r.value.recent == s.recent
      && r.value.timeStep == s.timeStep && r.value.lastUpdate == s.lastUpdate
      && r.value.thresholds == Some(Spread(sqrt, r.value.deviations))
      && r.value.diffs == s.diffs + [Gap(Spread(sqrt, r.value.deviations))]
  {
    if s.thresholds.Some? then Failure(ValueError)
    else if c.nPermutations > 0 && !Uniform(s.reference) then Failure(ValueError)
    else
      var perms := if c.nPermutations == 0 then [] else PermutationDeviations(shuffle, s.reference, c.nPermutations);
      var devs := Last(s.deviations + perms, c.updateInterval);
      var t := Spread(sqrt, devs);
      Success(s.(deviations := devs, thresholds := Some(t), diffs := s.diffs + [Gap(t)]))
  }

  /** `_update_thresholds`: `mean ± 2·std` of the recent deviations. */
  function UpdateThresholds(sqrt: Sqrt, s: IbddState): (r: IbddState)
    ensures r.thresholds.Some? && Ordered(r.thresholds.value)
    ensures StdOf(sqrt, s.deviations).Some? ==> Gap(r.thresholds.value) == Some(4.0 * StdOf(sqrt, s.deviations).value)
    ensures r.diffs == s.diffs + [Gap(r.thresholds.value)] && r.lastUpdate == s.timeStep
    ensures r.reference == s.reference && r.recent == s.recent && r.deviations == s.deviations && r.timeStep == s.timeStep
  {
    Record(s, Spread(sqrt, s.deviations))
  }

  /** `itertools.islice(deviations, len - (n + 1), len)`: a negative start raises. */
  function Evaluated(c: IbddConfig, deviations: seq<Float>): (r: Result<seq<Float>, DetectorError>)
    ensures r.Success? <==> |deviations| >= c.nConsecutive + 1
    ensures r.Success? && c.nConsecutive >= 0 ==> |r.value| == c.nConsecutive + 1 && IsSuffix(r.value, deviations)
    ensures r.Success? && c.nConsecutive < -1 ==> r.value == []
  {
    var start := |deviations| - (c.nConsecutive + 1);
    if start < 0 then Failure(ValueError)
    else if start <= |deviations| then Success(deviations[start..])
    else Success([])
  }

  /**
   * `_detect_drift`: the evaluated deviations all at or above the upper
   * threshold (checked first) or all at or below the lower one signal a
   * drift and move both thresholds next to the current deviation.
   */
  function Detect(c: IbddConfig, sqrt: Sqrt, s: IbddState, deviation: Float): (o: Outcome<IbddState>)
    requires s.thresholds.Some?
    ensures o.state.reference == s.reference && o.state.recent == s.recent
    ensures o.state.deviations == s.deviations && o.state.timeStep == s.timeStep
  {
    var values := Evaluated(c, s.deviations);
    if values.Failure? then Outcome(s, Failure(values.error))
    else
      var th := s.thresholds.value;
      if AllAtLeast(values.value, th.upper) then
        Outcome(Record(s, Thresholds(Plus(deviation, StdOf(sqrt, s.deviations)), Minus(deviation, MeanOf(s.diffs)))), Success(true))
      else if AllAtMost(values.value, th.lower) then
        Outcome(Record(s, Thresholds(Plus(deviation, MeanOf(s.diffs)), Minus(deviation, StdOf(sqrt, s.deviations)))), Success(true))
      else Outcome(s, Success(false))
  }

  /**
   * The first half of `update`: while no thresholds exist the sample joins
   * the reference, and the reference reaching `n_samples` sets them.
   */
  function Collect(c: IbddConfig, shuffle: Shuffle, sqrt: Sqrt, s: IbddState, x: Vector): (o: Outcome<IbddState>)
  {
    if s.thresholds.Some? then Outcome(s, Success(false))
    else
      var t := s.(reference := s.reference + [x]);
      if |t.reference| != c.nSamples then Outcome(t, Success(false))
      else
        var init := InitialThresholds(c, shuffle, sqrt, t);
        if init.Failure? then Outcome(t, Failure(init.error)) else Outcome(init.value, Success(false))
  }

  /**
   * The second half of `update`: the sample joins the recent window; with
   * both windows full the deviation is recorded, overdue thresholds are
   * renewed and the test runs. The time step advances unless something raised.
   */
  function Test(c: IbddConfig, sqrt: Sqrt, s: IbddState, x: Vector): (o: Outcome<IbddState>)
  {
    var t := s.(recent := Append(s.recent, x, c.nSamples));
    if |t.reference| == c.nSamples && |t.recent| == c.nSamples && t.thresholds.Some? then
      var deviation := Msd(t.reference, t.recent);
      if deviation.Failure? then Outcome(t, Failure(deviation.error))
      else Measured(c, sqrt, t, deviation.value)
    else Outcome(t.(timeStep := t.timeStep + 1), Success(false))
  }

  /**
   * With a deviation in hand: it joins the deviation window, thresholds
   * older than `update_interval` steps are renewed, and the test runs.
   */
  function Measured(c: IbddConfig, sqrt: Sqrt, t: IbddState, deviation: Float): (o: Outcome<IbddState>)
    requires t.thresholds.Some?
  {
    Advanced(Detect(c, sqrt, Renewed(c, sqrt, t.(deviations := Append(t.deviations, deviation, c.updateInterval))), deviation))
  }

  /** Thresholds last set more than `update_interval` steps ago are renewed. */
  function Renewed(c: IbddConfig, sqrt: Sqrt, u: IbddState): (v: IbddState)
    ensures v.reference == u.reference && v.recent == u.recent && v.deviations == u.deviations && v.timeStep == u.timeStep
    ensures v.thresholds.Some? <==> u.thresholds.Some? || u.timeStep - u.lastUpdate > c.updateInterval
  {
    if u.timeStep - u.lastUpdate > c.updateInterval then UpdateThresholds(sqrt, u) else u
  }

  /** A test that did not raise advances the time step. */
  function Advanced(o: Outcome<IbddState>): (r: Outcome<IbddState>)
    ensures r.drift == o.drift && r.state.reference == o.state.reference
    ensures r.state.timeStep == if o.drift.Failure? then o.state.timeStep else o.state.timeStep + 1
  {
    if o.drift.Failure? then o else Outcome(o.state.(timeStep := o.state.timeStep + 1), o.drift)
  }

  /** `update(features)`. */
  function Step(c: IbddConfig, shuffle: Shuffle, sqrt: Sqrt, s: IbddState, x: Vector): (o: Outcome<IbddState>)
  {
    var collected := Collect(c, shuffle, sqrt, s, x);
    if collected.drift.Failure? then collected else Test(c, sqrt, collected.state, x)
  }

  // ---------------------------------------------------------------------
  // Properties
  // ---------------------------------------------------------------------

  /**
   * Once the reference holds `n_samples` after the first half of an
   * update, thresholds exist: the test never meets unset thresholds.
   */
  lemma CollectSetsThresholds(c: IbddConfig, shuffle: Shuffle, sqrt: Sqrt, s: IbddState, x: Vector)
    ensures var o := Collect(c, shuffle, sqrt, s, x);
      o.drift.Success? && |o.state.reference| == c.nSamples ==> o.state.thresholds.Some?
  {
  }

  /** The reference grows only while no thresholds exist, and is never changed after. */
  lemma ReferenceFrozen(c: IbddConfig, shuffle: Shuffle, sqrt: Sqrt, s: IbddState, x: Vector)
    ensures var o := Step(c, shuffle, sqrt, s, x);
      && (s.thresholds.Some? ==> o.state.reference == s.reference)
      && (s.thresholds.None? ==> o.state.reference == s.reference + [x])
  {
    CollectFrame(c, shuffle, sqrt, s, x);
    TestFrame(c, sqrt, Collect(c, shuffle, sqrt, s, x).state, x);
  }

  /** A successful update advances the time step by exactly 1. */
  lemma TimeStepAdvances(c: IbddConfig, shuffle: Shuffle, sqrt: Sqrt, s: IbddState, x: Vector)
    ensures var o := Step(c, shuffle, sqrt, s, x);
      o.drift.Success? ==> o.state.timeStep == s.timeStep + 1
  {
    CollectFrame(c, shuffle, sqrt, s, x);
    TestFrame(c, sqrt, Collect(c, shuffle, sqrt, s, x).state, x);
  }

  lemma CollectFrame(c: IbddConfig, shuffle: Shuffle, sqrt: Sqrt, s: IbddState, x: Vector)
    ensures var o := Collect(c, shuffle, sqrt, s, x);
      && o.drift != Success(true) && o.state.recent == s.recent && o.state.timeStep == s.timeStep
      && (s.thresholds.Some? ==> o.state == s)
      && (s.thresholds.None? ==> o.state.reference == s.reference + [x])
  {
  }

  lemma TestFrame(c: IbddConfig, sqrt: Sqrt, s: IbddState, x: Vector)
    ensures var o := Test(c, sqrt, s, x);
      && o.state.reference == s.reference
      && (o.drift.Success? ==> o.state.timeStep == s.timeStep + 1)
  {
    var t := s.(recent := Append(s.recent, x, c.nSamples));
    if |t.reference| == c.nSamples && |t.recent| == c.nSamples && t.thresholds.Some? {
      var deviation := Msd(t.reference, t.recent);
      if deviation.Success? {
        TestMeasured(c, sqrt, s, x);
        MeasuredFrame(c, sqrt, t, deviation.value);
      } else {
        assert Test(c, sqrt, s, x) == Outcome(t, Failure(deviation.error));
      }
    } else {
      assert Test(c, sqrt, s, x) == Outcome(t.(timeStep := t.timeStep + 1), Success(false));
    }
  }

  lemma TestMeasured(c: IbddConfig, sqrt: Sqrt, s: IbddState, x: Vector)
    requires var t := s.(recent := Append(s.recent, x, c.nSamples));
      |t.reference| == c.nSamples && |t.recent| == c.nSamples && t.thresholds.Some? && Msd(t.reference, t.recent).Success?
    ensures var t := s.(recent := Append(s.recent, x, c.nSamples));
      Test(c, sqrt, s, x) == Measured(c, sqrt, t, Msd(t.reference, t.recent).value)
  {
  }

  lemma MeasuredFrame(c: IbddConfig, sqrt: Sqrt, t: IbddState, deviation: Float)
    requires t.thresholds.Some?
    ensures var o := Measured(c, sqrt, t, deviation);
      && o.state.reference == t.reference
      && (o.drift.Success? ==> o.state.timeStep == t.timeStep + 1)
  {
  }


  /**
   * A deviation is recorded and the test run only when the reference and
   * the recent window both hold `n_samples`; otherwise the update reports
   * no drift and leaves the deviations and thresholds it found.
   */
  lemma TestOnlyWhenFull(c: IbddConfig, shuffle: Shuffle, sqrt: Sqrt, s: IbddState, x: Vector)
    requires s.thresholds.Some?
    requires !(|s.reference| == c.nSamples && |Append(s.recent, x, c.nSamples)| == c.nSamples)
    ensures Step(c, shuffle, sqrt, s, x) == Outcome(s.(recent := Append(s.recent, x, c.nSamples), timeStep := s.timeStep + 1), Success(false))
  {
  }

  /**
   * The decision: a drift iff the evaluated deviations all reach the upper
   * threshold or all reach the lower one; the upper test wins when both
   * hold, and either moves both thresholds and notes the update time.
   */
  lemma DetectCases(c: IbddConfig, sqrt: Sqrt, s: IbddState, deviation: Float)
    requires s.thresholds.Some?
    ensures var o := Detect(c, sqrt, s, deviation);
      && (o.drift.Failure? <==> |s.deviations| < c.nConsecutive + 1)
      && (o.drift.Success? ==>
          var values := Evaluated(c, s.deviations).value;
          var th := s.thresholds.value;
          && (o.drift.value <==> AllAtLeast(values, th.upper) || AllAtMost(values, th.lower))
          && (AllAtLeast(values, th.upper) ==>
              o.state.thresholds == Some(Thresholds(Plus(deviation, StdOf(sqrt, s.deviations)), Minus(deviation, MeanOf(s.diffs)))))
          && (o.drift.value ==> o.state.lastUpdate == s.timeStep)
          && (!o.drift.value ==> o.state == s))
  {
  }

  /** The invariant: every recorded gap, and so the current thresholds, are ordered. */
  ghost predicate Sound(c: IbddConfig, s: IbddState)
  {
    && |s.deviations| <= c.updateInterval
    && (forall i :: 0 <= i < |s.diffs| ==> s.diffs[i].Some? ==> s.diffs[i].value >= 0.0)
    && (s.thresholds.Some? ==> Ordered(s.thresholds.value))
  }

  /** New thresholds that lie a non-negative distance either side of a deviation are ordered. */
  lemma AroundOrdered(deviation: Float, above: Float, below: Float)
    requires above.Some? ==> above.value >= 0.0
    requires below.Some? ==> below.value >= 0.0
    ensures Ordered(Thresholds(Plus(deviation, above), Minus(deviation, below)))
  {
  }

  lemma RecordSound(c: IbddConfig, s: IbddState, t: Thresholds)
    requires Sound(c, s) && Ordered(t)
    ensures Sound(c, Record(s, t))
  {
    var r := Record(s, t);
    forall i | 0 <= i < |r.diffs| && r.diffs[i].Some?
      ensures r.diffs[i].value >= 0.0
    {
      if i < |s.diffs| {
        assert r.diffs[i] == s.diffs[i];
      }
    }
  }

  lemma DetectSound(c: IbddConfig, sqrt: Sqrt, s: IbddState, deviation: Float)
    requires s.thresholds.Some? && Sound(c, s)
    ensures Sound(c, Detect(c, sqrt, s, deviation).state)
  {
    MeanOfNonNegative(s.diffs);
    AroundOrdered(deviation, StdOf(sqrt, s.deviations), MeanOf(s.diffs));
    AroundOrdered(deviation, MeanOf(s.diffs), StdOf(sqrt, s.deviations));
    var values := Evaluated(c, s.deviations);
    if values.Success? {
      var th := s.thresholds.value;
      if AllAtLeast(values.value, th.upper) {
        RecordSound(c, s, Thresholds(Plus(deviation, StdOf(sqrt, s.deviations)), Minus(deviation, MeanOf(s.diffs))));
      } else if AllAtMost(values.value, th.lower) {
        RecordSound(c, s, Thresholds(Plus(deviation, MeanOf(s.diffs)), Minus(deviation, StdOf(sqrt, s.deviations))));
      }
    }
  }

  /**
   * Every update keeps the thresholds ordered: each gap recorded in
   * `threshold_diffs` is non-negative, so `lower <= upper` whenever both
   * are numbers.
   */
  lemma StepSound(c: IbddConfig, shuffle: Shuffle, sqrt: Sqrt, s: IbddState, x: Vector)
    requires Sound(c, s)
    ensures Sound(c, Step(c, shuffle, sqrt, s, x).state)
  {
    CollectSound(c, shuffle, sqrt, s, x);
    TestSound(c, sqrt, Collect(c, shuffle, sqrt, s, x).state, x);
  }

  lemma CollectSound(c: IbddConfig, shuffle: Shuffle, sqrt: Sqrt, s: IbddState, x: Vector)
    requires Sound(c, s)
    ensures Sound(c, Collect(c, shuffle, sqrt, s, x).state)
  {
    if s.thresholds.None? {
      var t := s.(reference := s.reference + [x]);
      if |t.reference| == c.nSamples {
        var init := InitialThresholds(c, shuffle, sqrt, t);
        if init.Success? {
          var u := init.value;
          RecordSound(c, t.(deviations := u.deviations), Spread(sqrt, u.deviations));
          assert u == Record(t.(deviations := u.deviations), Spread(sqrt, u.deviations)).(lastUpdate := t.lastUpdate);
        }
      }
    }
  }

  lemma TestSound(c: IbddConfig, sqrt: Sqrt, s: IbddState, x: Vector)
    requires Sound(c, s)
    ensures Sound(c, Test(c, sqrt, s, x).state)
  {
    var t := s.(recent := Append(s.recent, x, c.nSamples));
    assert Sound(c, t) && Sound(c, t.(timeStep := t.timeStep + 1));
    if |t.reference| == c.nSamples && |t.recent| == c.nSamples && t.thresholds.Some? {
      var deviation := Msd(t.reference, t.recent);
      if deviation.Success? {
        MeasuredSound(c, sqrt, t, deviation.value);
      }
    }
  }

  /** Soundness does not depend on the deviation window's contents, only on its bound. */
  lemma SoundDeviations(c: IbddConfig, s: IbddState, ds: seq<Float>)
    requires Sound(c, s) && |ds| <= c.updateInterval
    ensures Sound(c, s.(deviations := ds))
  {
    var u := s.(deviations := ds);
    assert u.diffs == s.diffs && u.thresholds == s.thresholds;
  }

  lemma MeasuredSound(c: IbddConfig, sqrt: Sqrt, t: IbddState, deviation: Float)
    requires Sound(c, t) && t.thresholds.Some?
    ensures Sound(c, Measured(c, sqrt, t, deviation).state)
  {
    var ds := Append(t.deviations, deviation, c.updateInterval);
    SoundDeviations(c, t, ds);
    var u := t.(deviations := ds);
    if u.timeStep - u.lastUpdate > c.updateInterval {
      RecordSound(c, u, Spread(sqrt, u.deviations));
    }
    var v := Renewed(c, sqrt, u);
    DetectSound(c, sqrt, v, deviation);
    var o := Detect(c, sqrt, v, deviation);
    assert Sound(c, o.state.(timeStep := o.state.timeStep + 1));
  }

  /** Updates over a stream; an update that raises leaves its partial changes. */
  function Run(c: IbddConfig, shuffle: Shuffle, sqrt: Sqrt, xs: seq<Vector>): IbddState
  {
    if |xs| == 0 then Fresh else Step(c, shuffle, sqrt, Run(c, shuffle, sqrt, xs[..|xs| - 1]), xs[|xs| - 1]).state
  }

  /** From a fresh detector the thresholds stay ordered over any stream. */
  lemma {:induction false} RunSound(c: IbddConfig, shuffle: Shuffle, sqrt: Sqrt, xs: seq<Vector>)
    ensures Sound(c, Run(c, shuffle, sqrt, xs))
  {
    if |xs| > 0 {
      RunSound(c, shuffle, sqrt, xs[..|xs| - 1]);
      StepSound(c, shuffle, sqrt, Run(c, shuffle, sqrt, xs[..|xs| - 1]), xs[|xs| - 1]);
    }
  }

  /** The deque of deviations after one more append keeps the last `cap` of everything appended. */
  lemma AppendDeviation(start: seq<Float>, ds: seq<Float>, d: Float, cap: nat)
    ensures Append(Last(start + ds, cap), d, cap) == Last(start + (ds + [d]), cap)
  {
    AppendKeepsLast(Last(start + ds, cap), start + ds, d, cap);
    assert (start + ds) + [d] == start + (ds + [d]);
  }

  // ---------------------------------------------------------------------
  // The detector object
  // ---------------------------------------------------------------------

  class IbddDetector {
    const config: IbddConfig
    const shuffle: Shuffle
    const sqrt: Sqrt
    var reference: seq<Vector>
    var recent: seq<Vector>
    var deviations: seq<Float>
    var thresholds: Option<Thresholds>
    var diffs: seq<Float>
    var timeStep: int
    var lastUpdate: int

    function State(): IbddState
      reads this
    {
      IbddState(reference, recent, deviations, thresholds, diffs, timeStep, lastUpdate)
    }

    ghost predicate Valid()
      reads this
    {
      Sound(config, State())
    }

    constructor (config: IbddConfig, shuffle: Shuffle, sqrt: Sqrt)
      ensures Valid() && State() == Fresh
      ensures this.config == config && this.shuffle == shuffle && this.sqrt == sqrt
    {
      this.config := config;
      this.shuffle := shuffle;
      this.sqrt := sqrt;
      reference, recent, deviations, thresholds, diffs := [], [], [], None, [];
      timeStep, lastUpdate := 0, 0;
    }

    /** `update(features)`. */
    method Update(features: Vector) returns (drift: Result<bool, DetectorError>)
      requires Valid()
      modifies this
      ensures Valid()
      ensures Outcome(State(), drift) == Step(config, shuffle, sqrt, old(State()), features)
    {
      StepSound(config, shuffle, sqrt, State(), features);
      var error := CollectSample(features);
      if error.Some? {
        return Failure(error.value);
      }
      drift := TestSample(features);
    }

    /** The first half of `update`: the reference and the initial thresholds. */
    method CollectSample(features: Vector) returns (error: Option<DetectorError>)
      modifies this
      ensures Outcome(State(), if error.Some? then Failure(error.value) else Success(false))
        == Collect(config, shuffle, sqrt, old(State()), features)
    {
      if thresholds.None? {
        reference := reference + [features];
        if |reference| == config.nSamples {
          error := CalculateInitialThresholds();
          return;
        }
      }
      return None;
    }

    /** The second half of `update`: the recent window, the deviation and the test. */
    method TestSample(features: Vector) returns (drift: Result<bool, DetectorError>)
      modifies this
      ensures Outcome(State(), drift) == Test(config, sqrt, old(State()), features)
    {
      recent := Append(recent, features, config.nSamples);
      if |reference| == config.nSamples && |recent| == config.nSamples && thresholds.Some? {
        var deviation := Msd(reference, recent);
        if deviation.Failure? {
          return Failure(deviation.error);
        }
        drift := Measure(deviation.value);
      } else {
        timeStep := timeStep + 1;
        drift := Success(false);
      }
    }

    /** Recording a deviation, renewing overdue thresholds and testing. */
    method Measure(deviation: Float) returns (drift: Result<bool, DetectorError>)
      requires thresholds.Some?
      modifies this
      ensures Outcome(State(), drift) == Measured(config, sqrt, old(State()), deviation)
    {
      deviations := Append(deviations, deviation, config.updateInterval);
      ghost var u := State();
      if timeStep - lastUpdate > config.updateInterval {
        RenewThresholds();
      }
      ghost var v := State();
      assert u == old(State()).(deviations := Append(old(deviations), deviation, config.updateInterval));
      assert v == Renewed(config, sqrt, u);
      drift := DetectDrift(deviation);
      ghost var w := State();
      assert Outcome(w, drift) == Detect(config, sqrt, v, deviation);
      Advance(drift);
    }

    /** The time step moves on after a test that did not raise. */
    method Advance(drift: Result<bool, DetectorError>)
      modifies this
      ensures Outcome(State(), drift) == Advanced(Outcome(old(State()), drift))
    {
      if drift.Success? {
        timeStep := timeStep + 1;
      }
    }

    /** `_detect_drift(deviation)`. */
    method DetectDrift(deviation: Float) returns (drift: Result<bool, DetectorError>)
      requires thresholds.Some?
      modifies this
      ensures Outcome(State(), drift) == Detect(config, sqrt, old(State()), deviation)
    {
      var values := Evaluated(config, deviations);
      if values.Failure? {
        return Failure(values.error);
      }
      var th := thresholds.value;
      if AllAtLeast(values.value, th.upper) {
        var upper := Plus(deviation, StdOf(sqrt, deviations));
        var lower := Minus(deviation, MeanOf(diffs));
        thresholds := Some(Thresholds(upper, lower));
        diffs := diffs + [Minus(upper, lower)];
        lastUpdate := timeStep;
        return Success(true);
      } else if AllAtMost(values.value, th.lower) {
        var lower := Minus(deviation, StdOf(sqrt, deviations));
        var upper := Plus(deviation, MeanOf(diffs));
        thresholds := Some(Thresholds(upper, lower));
        diffs := diffs + [Minus(upper, lower)];
        lastUpdate := timeStep;
        return Success(true);
      }
      return Success(false);
    }

    /** `_update_thresholds`. */
    method RenewThresholds()
      modifies this
      ensures State() == UpdateThresholds(sqrt, old(State()))
    {
      var t := Spread(sqrt, deviations);
      thresholds := Some(t);
      diffs := diffs + [Gap(t)];
      lastUpdate := timeStep;
    }

    /**
     * `_calculate_initial_thresholds`: the shuffle loop over the index
     * array; reports the error it raised, if any.
     */
    method CalculateInitialThresholds() returns (error: Option<DetectorError>)
      requires |reference| == config.nSamples
      modifies this
      ensures error.None? ==> InitialThresholds(config, shuffle, sqrt, old(State())) == Success(State())
      ensures error.Some? ==> InitialThresholds(config, shuffle, sqrt, old(State())) == Failure(error.value) && State() == old(State())
    {
      if thresholds.Some? {
        return Some(ValueError);
      }
      var devs := ShuffledDeviations(deviations);
      if devs.Failure? {
        return Some(devs.error);
      }
      deviations := devs.value;
      var t := Spread(sqrt, deviations);
      thresholds := Some(t);
      diffs := diffs + [Gap(t)];
      return None;
    }

    /**
     * The shuffle loop of `_calculate_initial_thresholds`: the index array
     * is shuffled in place `n_permutations` times, and the deviation of
     * each permuted copy of the reference enters the deviation deque.
     */
    method ShuffledDeviations(start: seq<Float>) returns (r: Result<seq<Float>, DetectorError>)
      requires |reference| == config.nSamples
      ensures r.Failure? <==> config.nPermutations > 0 && !Uniform(reference)
      ensures r.Failure? ==> r.error == ValueError
      ensures r.Success? ==> r.value == Last(start + (if config.nPermutations == 0 then [] else PermutationDeviations(shuffle, reference, config.nPermutations)), config.updateInterval)
    {
      var n := config.nSamples;
      var cap := config.updateInterval;
      var devs := Last(start, cap);
      var indices := Identity(n);
      for k := 0 to config.nPermutations
        invariant indices == PermutedIndices(shuffle, n, k)
        invariant k == 0 ==> devs == Last(start, cap)
        invariant k > 0 ==> Uniform(reference) && devs == Last(start + PermutationDeviations(shuffle, reference, k), cap)
      {
        indices := shuffle(indices, k);
        assert indices == PermutedIndices(shuffle, n, k + 1);
        PermutedIndicesInRange(shuffle, n, k + 1);
        if Uniform(reference) {
          PermuteSameShape(reference, indices);
        }
        var msd := Msd(reference, Permute(reference, indices));
        if msd.Failure? {
          return Failure(ValueError);
        }
        ghost var prior := if k == 0 then [] else PermutationDeviations(shuffle, reference, k);
        assert PermutationDeviations(shuffle, reference, k + 1) == prior + [msd.value];
        if k == 0 {
          assert start + prior == start;
        }
        AppendDeviation(start, prior, msd.value, cap);
        devs := Append(devs, msd.value, cap);
      }
      assert start + [] == start;
      return Success(devs);
    }
  }
}
