/**
 * Drift-quality metrics: how well the positions at which a detector
 * signalled drift line up with the positions of known drifts.
 *
 * The scan walks the de-duplicated, ascending union of both position lists
 * once. A known drift arms the scan and records its position; a detection
 * while armed is a true detection whose delay is measured from that
 * position, a detection while unarmed is a false detection; every
 * detection disarms. From the delays and the false detections come the
 * mean time between false alarms (MTFA), the mean time to detection (MTD),
 * the missed detection ratio (MDR) and the mean time ratio (MTR).
 */
module DriftMetrics {
  import opened Common

  /** A numpy float: a number, NaN, or one of the two infinities. */
  datatype Float = Finite(v: real) | NaN | PosInf | NegInf

  /** The four scores; `None` is NaN. */
  datatype DriftScores = DriftScores(mtr: Float, mtfa: Option<real>, mtd: Option<real>, mdr: real)

  /** `len(known_drifts) == 0` makes the MDR division raise ZeroDivisionError. */
  datatype MetricsError = ZeroDivision

  ghost predicate StrictlyIncreasing(s: seq<real>)
  {
    forall i, j :: 0 <= i < j < |s| ==> s[i] < s[j]
  }

  // ---------------------------------------------------------------------
  // `sorted(set(known_drifts + detections))`
  // ---------------------------------------------------------------------

  function Minimum(s: seq<real>): (m: real)
    requires |s| > 0
    ensures m in s
    ensures forall i :: 0 <= i < |s| ==> m <= s[i]
  {
    if |s| == 1 then s[0]
    else
      var m := Minimum(s[1..]);
      if s[0] <= m then s[0] else m
  }

  function RemoveAll(s: seq<real>, x: real): (r: seq<real>)
    ensures forall y :: y in r <==> y in s && y != x
    ensures |r| <= |s|
    ensures x in s ==> |r| < |s|
  {
    if |s| == 0 then []
    else (if s[0] == x then [] else [s[0]]) + RemoveAll(s[1..], x)
  }

  /** The positions of `s` without repetition, in ascending order. */
  function Timeline(s: seq<real>): (r: seq<real>)
    ensures StrictlyIncreasing(r)
    ensures forall y :: y in r <==> y in s
    decreases |s|
  {
    if |s| == 0 then []
    else
      var m := Minimum(s);
      var rest := Timeline(RemoveAll(s, m));
      assert forall y :: y in rest ==> m < y;
      [m] + rest
  }

  /** Sequences with the same elements are empty together. */
  lemma SameElementsEmpty(a: seq<real>, b: seq<real>)
    requires forall y :: y in a <==> y in b
    ensures |a| == 0 <==> |b| == 0
  {
    if |a| > 0 {
      var x := a[0];
      assert x in a;
    }
    if |b| > 0 {
      var x := b[0];
      assert x in b;
    }
  }

  /** Only one ascending sequence without repetition has a given set of elements. */
  lemma {:induction false} TimelineUnique(a: seq<real>, b: seq<real>)
    requires StrictlyIncreasing(a) && StrictlyIncreasing(b)
    requires forall y :: y in a <==> y in b
    ensures a == b
  {
    SameElementsEmpty(a, b);
    if |a| > 0 {
      assert a[0] in a && b[0] in b;
      assert a[0] == b[0];
      forall y
        ensures y in a[1..] <==> y in b[1..]
      {
        if y in a[1..] {
          assert y > a[0];
          assert y in b;
        }
        if y in b[1..] {
          assert y > b[0];
          assert y in a;
        }
      }
      TimelineUnique(a[1..], b[1..]);
      assert a == [a[0]] + a[1..];
      assert b == [b[0]] + b[1..];
    }
  }

  // ---------------------------------------------------------------------
  // The armed-flag scan, one timestep at a time
  // ---------------------------------------------------------------------

  datatype ScanState = ScanState(
    armed: bool,                 // `was_drift`
    previousDrift: real,         // `previous_drift`
    delays: seq<real>,           // `detection_times`
    falseDetections: seq<real>)  // `false_detections`

  const Initial := ScanState(false, 0.0, [], [])

  /** One iteration of the loop over the timeline, at timestep `t`. */
  function Step(st: ScanState, t: real, known: seq<real>, detections: seq<real>): (r: ScanState)
    // a detection always disarms; any other timestep never disarms
    ensures t in detections ==> !r.armed
    ensures t !in detections ==> r.armed == (st.armed || t in known)
    // a timestep in both lists arms the scan and is then a true detection with delay 0
    ensures t in known && t in detections ==>
      r.delays == st.delays + [0.0] && r.falseDetections == st.falseDetections
    // a detection with no unmatched known drift before it is false, at its own position
    ensures t in detections && t !in known && !st.armed ==>
      r.delays == st.delays && r.falseDetections == st.falseDetections + [t]
    ensures t in detections && t !in known && st.armed ==>
      r.delays == st.delays + [t - st.previousDrift] && r.falseDetections == st.falseDetections
    ensures t !in detections ==> r.delays == st.delays && r.falseDetections == st.falseDetections
  {
    var armedHere := if t in known then st.(armed := true, previousDrift := t) else st;
    if t in detections then
      if armedHere.armed then
        armedHere.(armed := false, delays := armedHere.delays + [t - armedHere.previousDrift])
      else
        armedHere.(armed := false, falseDetections := armedHere.falseDetections + [t])
    else armedHere
  }

  /** The state after visiting every timestep of `ts` in order. */
  function Scan(ts: seq<real>, known: seq<real>, detections: seq<real>): ScanState
  {
    if |ts| == 0 then Initial
    else Step(Scan(ts[..|ts| - 1], known, detections), ts[|ts| - 1], known, detections)
  }

  // ---------------------------------------------------------------------
  // The closing formulas
  // ---------------------------------------------------------------------

  /** `false_detections[1:] - false_detections[:-1]`. */
  function Gaps(fd: seq<real>): (g: seq<real>)
    requires |fd| > 0
    ensures |g| == |fd| - 1
  {
    seq(|fd| - 1, i requires 0 <= i < |fd| - 1 => fd[i + 1] - fd[i])
  }

  function Mtfa(fd: seq<real>): Option<real>
  {
    if |fd| > 1 then Some(Mean(Gaps(fd))) else None
  }

  function Mtd(delays: seq<real>): Option<real>
  {
    if |delays| > 0 then Some(Mean(delays)) else None
  }

  function Mdr(nTrue: nat, nKnown: nat): real
    requires nKnown > 0
  {
    1.0 - (nTrue as real) / (nKnown as real)
  }

  /** `mtfa / mtd * (1 - mdr)` under IEEE rules: NaN propagates, x/0 is ±inf or NaN. */
  function Mtr(mtfa: Option<real>, mtd: Option<real>, mdr: real): (r: Float)
    ensures mtfa.None? || mtd.None? ==> r == NaN
    ensures mtfa.Some? && mtd.Some? ==> (r.Finite? <==> mtd.value != 0.0)
    ensures mtfa.Some? && mtd.Some? && mtd.value == 0.0 && mtfa.value > 0.0 && mdr < 1.0 ==> r == PosInf
  {
    if mtfa.None? || mtd.None? then NaN
    else
      var a, d, f := mtfa.value, mtd.value, 1.0 - mdr;
      if d != 0.0 then Finite(a / d * f)
      else if a == 0.0 || f == 0.0 then NaN
      else if (a > 0.0) == (f > 0.0) then PosInf
      else NegInf
  }

  /** The four scores computed from the final scan state, given `len(known_drifts) > 0`. */
  function Scores(st: ScanState, nKnown: nat): DriftScores
    requires nKnown > 0
  {
    var mtfa := Mtfa(st.falseDetections);
    var mtd := Mtd(st.delays);
    var mdr := Mdr(|st.delays|, nKnown);
    DriftScores(Mtr(mtfa, mtd, mdr), mtfa, mtd, mdr)
  }

  /** What `calculate_drift_metrics(known, detections)` returns or raises. */
  function Metrics(known: seq<real>, detections: seq<real>): Result<DriftScores, MetricsError>
  {
    if |known| == 0 then Failure(ZeroDivision)
    else Success(Scores(Scan(Timeline(known + detections), known, detections), |known|))
  }

  /** `calculate_drift_metrics`: the armed-flag loop followed by the formulas. */
  method CalculateDriftMetrics(knownDrifts: seq<real>, detections: seq<real>)
    returns (r: Result<DriftScores, MetricsError>)
    ensures r == Metrics(knownDrifts, detections)
  {
    var detectionTimes: seq<real> := [];
    var falseDetections: seq<real> := [];
    var wasDrift := false;
    var previousDrift := 0.0;
    var timesteps := Timeline(knownDrifts + detections);
    for i := 0 to |timesteps|
      invariant ScanState(wasDrift, previousDrift, detectionTimes, falseDetections)
             == Scan(timesteps[..i], knownDrifts, detections)
    {
      var t := timesteps[i];
      wasDrift, previousDrift, detectionTimes, falseDetections :=
        Visit(wasDrift, previousDrift, detectionTimes, falseDetections, t, knownDrifts, detections);
      ScanPrefix(timesteps, i + 1, knownDrifts, detections);
    }
    assert timesteps[..|timesteps|] == timesteps;
    var mtfa := Mtfa(falseDetections);
    var mtd := Mtd(detectionTimes);
    if |knownDrifts| == 0 {
      return Failure(ZeroDivision);
    }
    var mdr := Mdr(|detectionTimes|, |knownDrifts|);
    r := Success(DriftScores(Mtr(mtfa, mtd, mdr), mtfa, mtd, mdr));
  }

  /** The body of the loop of `calculate_drift_metrics`, at timestep `t`. */
  method Visit(wasDrift0: bool, previousDrift0: real, detectionTimes0: seq<real>, falseDetections0: seq<real>,
               t: real, knownDrifts: seq<real>, detections: seq<real>)
    returns (wasDrift: bool, previousDrift: real, detectionTimes: seq<real>, falseDetections: seq<real>)
    ensures ScanState(wasDrift, previousDrift, detectionTimes, falseDetections)
         == Step(ScanState(wasDrift0, previousDrift0, detectionTimes0, falseDetections0), t, knownDrifts, detections)
  {
    wasDrift, previousDrift, detectionTimes, falseDetections := wasDrift0, previousDrift0, detectionTimes0, falseDetections0;
    if t in knownDrifts {
      wasDrift := true;
      previousDrift := t;
    }
    if t in detections {
      if wasDrift {
        detectionTimes := detectionTimes + [t - previousDrift];
      } else {
        falseDetections := falseDetections + [t];
      }
      wasDrift := false;
    }
  }

  // ---------------------------------------------------------------------
  // Properties of the scan
  // ---------------------------------------------------------------------

  /** Number of positions of `ts` that appear in `xs`. */
  function CountIn(ts: seq<real>, xs: seq<real>): nat
  {
    if |ts| == 0 then 0
    else CountIn(ts[..|ts| - 1], xs) + (if ts[|ts| - 1] in xs then 1 else 0)
  }

  /** The positions of `ts` that appear in `xs`, as a set. */
  function Hits(ts: seq<real>, xs: seq<real>): set<real>
  {
    set t | t in ts && t in xs
  }

  /** Visiting one more timestep is one more `Step`. */
  lemma ScanSnoc(ts: seq<real>, t: real, known: seq<real>, detections: seq<real>)
    ensures Scan(ts + [t], known, detections) == Step(Scan(ts, known, detections), t, known, detections)
  {
    assert (ts + [t])[..|ts|] == ts;
  }

  /** The scan of the first `n` timesteps extends that of the first `n - 1` by one step. */
  lemma ScanPrefix(ts: seq<real>, n: nat, known: seq<real>, detections: seq<real>)
    requires 0 < n <= |ts|
    ensures Scan(ts[..n], known, detections) == Step(Scan(ts[..n - 1], known, detections), ts[n - 1], known, detections)
  {
    assert ts[..n][..n - 1] == ts[..n - 1];
  }

  /**
   * What holds of the scan state `st` after visiting the ascending timeline
   * `ts`: delays are never negative and are measured from a known drift;
   * false detections are detections, ascending; every detection is exactly
   * one of true or false; and every true detection, together with a pending
   * armed drift, consumes its own known drift.
   */
  ghost predicate ScanInv(st: ScanState, ts: seq<real>, known: seq<real>, detections: seq<real>)
  {
    && (forall i :: 0 <= i < |st.delays| ==> st.delays[i] >= 0.0)
    && StrictlyIncreasing(st.falseDetections)
    && (forall x :: x in st.falseDetections ==> x in detections && x in ts)
    && |st.delays| + |st.falseDetections| == CountIn(ts, detections)
    && |st.delays| + (if st.armed then 1 else 0) <= CountIn(ts, known)
    && (st.armed ==> st.previousDrift in known && st.previousDrift in ts)
    && (|ts| > 0 && st.armed ==> st.previousDrift <= ts[|ts| - 1])
    && (|st.falseDetections| > 0 && |ts| > 0 ==>
          st.falseDetections[|st.falseDetections| - 1] <= ts[|ts| - 1])
  }

  /** The scan over an ascending timeline keeps `ScanInv`. */
  lemma {:induction false} ScanInvariant(ts: seq<real>, known: seq<real>, detections: seq<real>)
    requires StrictlyIncreasing(ts)
    ensures ScanInv(Scan(ts, known, detections), ts, known, detections)
  {
    if |ts| > 0 {
      var prefix := ts[..|ts| - 1];
      var t := ts[|ts| - 1];
      assert StrictlyIncreasing(prefix);
      ScanInvariant(prefix, known, detections);
      assert ts == prefix + [t];
      ScanSnoc(prefix, t, known, detections);
      StepInv(Scan(prefix, known, detections), t, known, detections, prefix);
    }
  }

  /** One step past the end of an ascending timeline keeps `ScanInv`. */
  lemma StepInv(st0: ScanState, t: real, known: seq<real>, detections: seq<real>, prefix: seq<real>)
    requires StrictlyIncreasing(prefix + [t])
    requires ScanInv(st0, prefix, known, detections)
    ensures ScanInv(Step(st0, t, known, detections), prefix + [t], known, detections)
  {
    if |prefix| > 0 {
      assert prefix[|prefix| - 1] == (prefix + [t])[|prefix| - 1] < (prefix + [t])[|prefix|] == t;
    }
    assert forall x :: x in prefix ==> x < t by {
      forall x | x in prefix
        ensures x < t
      {
        var k :| 0 <= k < |prefix| && prefix[k] == x;
        assert (prefix + [t])[k] < (prefix + [t])[|prefix|];
      }
    }
    assert st0.armed ==> st0.previousDrift < t;
    assert |st0.falseDetections| > 0 ==> st0.falseDetections[|st0.falseDetections| - 1] < t by {
      if |st0.falseDetections| > 0 {
        assert st0.falseDetections[|st0.falseDetections| - 1] in st0.falseDetections;
      }
    }
    StepDelays(st0, t, known, detections);
    StepFalseDetections(st0, t, known, detections, prefix);
    StepArmed(st0, t, known, detections, prefix);
  }

  /** A step keeps the delays non-negative when an armed drift lies at or before the timestep. */
  lemma StepDelays(st0: ScanState, t: real, known: seq<real>, detections: seq<real>)
    requires forall i :: 0 <= i < |st0.delays| ==> st0.delays[i] >= 0.0
    requires st0.armed ==> st0.previousDrift < t
    ensures var st := Step(st0, t, known, detections);
      forall i :: 0 <= i < |st.delays| ==> st.delays[i] >= 0.0
  {
  }

  /** A step keeps the false detections ascending detections of the timeline, the last one at most `t`. */
  lemma StepFalseDetections(st0: ScanState, t: real, known: seq<real>, detections: seq<real>, prefix: seq<real>)
    requires StrictlyIncreasing(st0.falseDetections)
    requires forall x :: x in st0.falseDetections ==> x in detections && x in prefix
    requires |st0.falseDetections| > 0 ==> st0.falseDetections[|st0.falseDetections| - 1] < t
    ensures var st := Step(st0, t, known, detections);
      && StrictlyIncreasing(st.falseDetections)
      && (forall x :: x in st.falseDetections ==> x in detections && x in prefix + [t])
      && (|st.falseDetections| > 0 ==> st.falseDetections[|st.falseDetections| - 1] <= t)
  {
    var st := Step(st0, t, known, detections);
    if st.falseDetections != st0.falseDetections {
      var fd := st0.falseDetections;
      assert st.falseDetections == fd + [t];
      forall i, j | 0 <= i < j < |fd| + 1
        ensures (fd + [t])[i] < (fd + [t])[j]
      {
        if j == |fd| {
          assert fd[i] <= fd[|fd| - 1];
        }
      }
    }
  }

  /** A step counts its detection once, and consumes a known drift for each true detection and armed drift. */
  lemma StepArmed(st0: ScanState, t: real, known: seq<real>, detections: seq<real>, prefix: seq<real>)
    requires |st0.delays| + |st0.falseDetections| == CountIn(prefix, detections)
    requires |st0.delays| + (if st0.armed then 1 else 0) <= CountIn(prefix, known)
    requires st0.armed ==> st0.previousDrift in known && st0.previousDrift in prefix && st0.previousDrift < t
    ensures var st := Step(st0, t, known, detections);
      && |st.delays| + |st.falseDetections| == CountIn(prefix + [t], detections)
      && |st.delays| + (if st.armed then 1 else 0) <= CountIn(prefix + [t], known)
      && (st.armed ==> st.previousDrift in known && st.previousDrift in prefix + [t] && st.previousDrift <= t)
  {
    assert (prefix + [t])[..|prefix|] == prefix;
  }

  /** Over distinct positions, `CountIn` is the number of distinct hits. */
  lemma {:induction false} CountInSet(ts: seq<real>, xs: seq<real>)
    requires StrictlyIncreasing(ts)
    ensures CountIn(ts, xs) == |Hits(ts, xs)|
  {
    if |ts| == 0 {
      assert Hits(ts, xs) == {};
    } else {
      var prefix := ts[..|ts| - 1];
      var last := ts[|ts| - 1];
      CountInSet(prefix, xs);
      forall k | 0 <= k < |prefix|
        ensures prefix[k] != last
      {
        assert ts[k] < ts[|ts| - 1];
      }
      assert ts == prefix + [last];
      if last in xs {
        assert Hits(ts, xs) == Hits(prefix, xs) + {last};
      } else {
        assert Hits(ts, xs) == Hits(prefix, xs);
      }
    }
  }

  /** Among distinct positions, those that lie in `xs` number at most |xs|. */
  lemma CountInBound(ts: seq<real>, xs: seq<real>)
    requires StrictlyIncreasing(ts)
    ensures CountIn(ts, xs) <= |Elements(xs)| <= |xs|
  {
    CountInSet(ts, xs);
    SubsetBound(Hits(ts, xs), Elements(xs));
    ElementsBound(xs);
  }

  /** A timeline that contains every position of `xs` hits all of them. */
  lemma CountInCovers(ts: seq<real>, xs: seq<real>)
    requires StrictlyIncreasing(ts)
    requires forall x :: x in xs ==> x in ts
    ensures CountIn(ts, xs) == |Elements(xs)|
  {
    CountInSet(ts, xs);
    forall x
      ensures x in Hits(ts, xs) <==> x in Elements(xs)
    {
    }
    assert Hits(ts, xs) == Elements(xs);
  }

  /** MTD is NaN exactly when MDR is 1, i.e. no detection was true; a NaN MTFA or MTD makes MTR NaN. */
  lemma ScoresNaN(st: ScanState, nKnown: nat)
    requires nKnown > 0
    ensures var m := Scores(st, nKnown);
      && (m.mtd.None? <==> m.mdr == 1.0)
      && (m.mtd.None? <==> |st.delays| == 0)
      && (m.mtfa.None? <==> |st.falseDetections| < 2)
      && (m.mtd.None? || m.mtfa.None? ==> m.mtr == NaN)
  {
    if |st.delays| > 0 {
      assert (|st.delays| as real) / (nKnown as real) > 0.0;
    }
  }

  /** Each known drift yields at most one true detection, so 0 <= MDR <= 1. */
  lemma MdrBounds(known: seq<real>, detections: seq<real>)
    requires |known| > 0
    ensures var st := Scan(Timeline(known + detections), known, detections);
      && |st.delays| <= |Elements(known)|
      && Metrics(known, detections) == Success(Scores(st, |known|))
      && 0.0 <= Scores(st, |known|).mdr <= 1.0
  {
    var ts := Timeline(known + detections);
    ScanInvariant(ts, known, detections);
    CountInBound(ts, known);
    RatioBounds(|Scan(ts, known, detections).delays|, |known|);
  }

  /** Every true-detection delay is non-negative. */
  lemma DelaysNonNegative(known: seq<real>, detections: seq<real>)
    ensures forall d :: d in Scan(Timeline(known + detections), known, detections).delays ==> d >= 0.0
  {
    ScanInvariant(Timeline(known + detections), known, detections);
  }

  /** Every distinct detection position is counted exactly once, either as true or as false. */
  lemma DetectionsPartitioned(known: seq<real>, detections: seq<real>)
    ensures var st := Scan(Timeline(known + detections), known, detections);
      |st.delays| + |st.falseDetections| == |Elements(detections)|
  {
    var ts := Timeline(known + detections);
    ScanInvariant(ts, known, detections);
    CountInCovers(ts, detections);
  }

  /** The mean gap between consecutive false detections telescopes. */
  lemma {:induction false} GapsTelescope(fd: seq<real>)
    requires |fd| > 0
    ensures Sum(Gaps(fd)) == fd[|fd| - 1] - fd[0]
  {
    if |fd| > 1 {
      var p := fd[..|fd| - 1];
      GapsTelescope(p);
      assert Gaps(fd)[..|fd| - 2] == Gaps(p);
      SumLast(Gaps(fd));
    }
  }

  /** MTFA is NaN iff there are fewer than two false detections; otherwise it is (last - first)/(count - 1). */
  lemma MtfaClosedForm(fd: seq<real>)
    ensures Mtfa(fd).None? <==> |fd| < 2
    ensures |fd| >= 2 ==> Mtfa(fd) == Some((fd[|fd| - 1] - fd[0]) / ((|fd| - 1) as real))
  {
    if |fd| >= 2 {
      GapsTelescope(fd);
    }
  }

  /** False detections are distinct ascending positions, so a defined MTFA is positive. */
  lemma MtfaPositiveOver(ts: seq<real>, known: seq<real>, detections: seq<real>)
    requires StrictlyIncreasing(ts)
    ensures var m := Mtfa(Scan(ts, known, detections).falseDetections);
      m.Some? ==> m.value > 0.0
  {
    ScanInvariant(ts, known, detections);
    var fd := Scan(ts, known, detections).falseDetections;
    MtfaClosedForm(fd);
    if |fd| >= 2 {
      assert fd[0] < fd[|fd| - 1];
      assert (fd[|fd| - 1] - fd[0]) / ((|fd| - 1) as real) > 0.0;
    }
  }

  lemma MtfaPositive(known: seq<real>, detections: seq<real>)
    requires |known| > 0
    ensures var st := Scan(Timeline(known + detections), known, detections);
      Scores(st, |known|).mtfa.Some? ==> Scores(st, |known|).mtfa.value > 0.0
  {
    MtfaPositiveOver(Timeline(known + detections), known, detections);
  }

  lemma {:induction false} NoneIn(ts: seq<real>)
    ensures CountIn(ts, []) == 0
  {
    if |ts| > 0 {
      NoneIn(ts[..|ts| - 1]);
    }
  }

  /** With no detections at all every known drift is missed: MDR = 1 and all else is NaN. */
  lemma NoDetections(known: seq<real>)
    requires |known| > 0
    ensures Metrics(known, []) == Success(DriftScores(NaN, None, None, 1.0))
  {
    var ts := Timeline(known + []);
    ScanInvariant(ts, known, []);
    NoneIn(ts);
    ScoresNaN(Scan(ts, known, []), |known|);
  }

  /** An empty list of known drifts raises instead of producing NaN. */
  lemma NoKnownDriftsRaises(detections: seq<real>)
    ensures Metrics([], detections) == Failure(ZeroDivision)
  {
  }

  /** A detection at a known drift's own position: MTD = 0, MDR = 0, MTFA and MTR NaN. */
  lemma InstantDetection()
    ensures Metrics([0.0], [0.0]) == Success(DriftScores(NaN, None, Some(0.0), 0.0))
  {
    var ts := Timeline([0.0] + [0.0]);
    TimelineUnique(ts, [0.0]);
    ScanSnoc([], 0.0, [0.0], [0.0]);
    assert [] + [0.0] == [0.0];
    assert Scan([0.0], [0.0], [0.0]) == ScanState(false, 0.0, [0.0], []);
  }

  const MixedKnown: seq<real> := [1.0, 11.0, 12.0, 14.0, 20.0, 25.0, 26.0]
  const MixedDetections: seq<real> := [4.0, 6.0, 10.0, 13.0, 16.0, 18.0, 24.0, 28.0]
  const MixedTimesteps: seq<real> :=
    [1.0, 4.0, 6.0, 10.0, 11.0, 12.0, 13.0, 14.0, 16.0, 18.0, 20.0, 24.0, 25.0, 26.0, 28.0]

  /** Increasing from each element to the next is increasing throughout. */
  lemma {:induction false} ConsecutiveIncreasing(s: seq<real>)
    requires forall i :: 0 < i < |s| ==> s[i - 1] < s[i]
    ensures StrictlyIncreasing(s)
  {
    if |s| > 1 {
      var t := s[1..];
      ConsecutiveIncreasing(t);
      forall i, j | 0 <= i < j < |s|
        ensures s[i] < s[j]
      {
        if i == 0 {
          if j > 1 {
            assert t[0] < t[j - 1];
          }
        } else {
          assert t[i - 1] < t[j - 1];
        }
      }
    }
  }

  /** The timeline of the mixed example: the fifteen distinct positions in order. */
  lemma MixedTimeline()
    ensures Timeline(MixedKnown + MixedDetections) == MixedTimesteps
  {
    var all := MixedKnown + MixedDetections;
    var e := MixedTimesteps;
    ConsecutiveIncreasing(e);
    assert forall i :: 0 <= i < |all| ==> all[i] in e;
    assert forall i :: 0 <= i < |e| ==> e[i] in all;
    forall y
      ensures y in e <==> y in all
    {
      if y in all {
        var i :| 0 <= i < |all| && all[i] == y;
      }
      if y in e {
        var i :| 0 <= i < |e| && e[i] == y;
      }
    }
    TimelineUnique(Timeline(all), e);
  }

  /** One more timestep of a scan whose prefix state is known. */
  lemma ScanExtend(ts: seq<real>, n: nat, known: seq<real>, detections: seq<real>, prev: ScanState, t: real, next: ScanState)
    requires 0 < n <= |ts| && ts[n - 1] == t
    requires Scan(ts[..n - 1], known, detections) == prev && Step(prev, t, known, detections) == next
    ensures Scan(ts[..n], known, detections) == next
  {
    ScanPrefix(ts, n, known, detections);
  }

  lemma MixedScan1()
    ensures Scan(MixedTimesteps[..1], MixedKnown, MixedDetections) == ScanState(true, 1.0, [], [])
  {
    assert 1.0 in MixedKnown && 1.0 !in MixedDetections;
    assert MixedTimesteps[..0] == [];
    ScanExtend(MixedTimesteps, 1, MixedKnown, MixedDetections,
      ScanState(false, 0.0, [], []), 1.0,
      ScanState(true, 1.0, [], []));
  }

  lemma MixedScan2()
    ensures Scan(MixedTimesteps[..2], MixedKnown, MixedDetections) == ScanState(false, 1.0, [3.0], [])
  {
    assert 4.0 !in MixedKnown && 4.0 in MixedDetections;
    MixedScan1();
    ScanExtend(MixedTimesteps, 2, MixedKnown, MixedDetections,
      ScanState(true, 1.0, [], []), 4.0,
      ScanState(false, 1.0, [3.0], []));
  }

  lemma MixedScan3()
    ensures Scan(MixedTimesteps[..3], MixedKnown, MixedDetections) == ScanState(false, 1.0, [3.0], [6.0])
  {
    assert 6.0 !in MixedKnown && 6.0 in MixedDetections;
    MixedScan2();
    ScanExtend(MixedTimesteps, 3, MixedKnown, MixedDetections,
      ScanState(false, 1.0, [3.0], []), 6.0,
      ScanState(false, 1.0, [3.0], [6.0]));
  }

  lemma MixedScan4()
    ensures Scan(MixedTimesteps[..4], MixedKnown, MixedDetections) == ScanState(false, 1.0, [3.0], [6.0, 10.0])
  {
    assert 10.0 !in MixedKnown && 10.0 in MixedDetections;
    MixedScan3();
    ScanExtend(MixedTimesteps, 4, MixedKnown, MixedDetections,
      ScanState(false, 1.0, [3.0], [6.0]), 10.0,
      ScanState(false, 1.0, [3.0], [6.0, 10.0]));
  }

  lemma MixedScan5()
    ensures Scan(MixedTimesteps[..5], MixedKnown, MixedDetections) == ScanState(true, 11.0, [3.0], [6.0, 10.0])
  {
    assert 11.0 in MixedKnown && 11.0 !in MixedDetections;
    MixedScan4();
    ScanExtend(MixedTimesteps, 5, MixedKnown, MixedDetections,
      ScanState(false, 1.0, [3.0], [6.0, 10.0]), 11.0,
      ScanState(true, 11.0, [3.0], [6.0, 10.0]));
  }

  lemma MixedScan6()
    ensures Scan(MixedTimesteps[..6], MixedKnown, MixedDetections) == ScanState(true, 12.0, [3.0], [6.0, 10.0])
  {
    assert 12.0 in MixedKnown && 12.0 !in MixedDetections;
    MixedScan5();
    ScanExtend(MixedTimesteps, 6, MixedKnown, MixedDetections,
      ScanState(true, 11.0, [3.0], [6.0, 10.0]), 12.0,
      ScanState(true, 12.0, [3.0], [6.0, 10.0]));
  }

  lemma MixedScan7()
    ensures Scan(MixedTimesteps[..7], MixedKnown, MixedDetections) == ScanState(false, 12.0, [3.0, 1.0], [6.0, 10.0])
  {
    assert 13.0 !in MixedKnown && 13.0 in MixedDetections;
    MixedScan6();
    ScanExtend(MixedTimesteps, 7, MixedKnown, MixedDetections,
      ScanState(true, 12.0, [3.0], [6.0, 10.0]), 13.0,
      ScanState(false, 12.0, [3.0, 1.0], [6.0, 10.0]));
  }

  lemma MixedScan8()
    ensures Scan(MixedTimesteps[..8], MixedKnown, MixedDetections) == ScanState(true, 14.0, [3.0, 1.0], [6.0, 10.0])
  {
    assert 14.0 in MixedKnown && 14.0 !in MixedDetections;
    MixedScan7();
    ScanExtend(MixedTimesteps, 8, MixedKnown, MixedDetections,
      ScanState(false, 12.0, [3.0, 1.0], [6.0, 10.0]), 14.0,
      ScanState(true, 14.0, [3.0, 1.0], [6.0, 10.0]));
  }

  lemma MixedScan9()
    ensures Scan(MixedTimesteps[..9], MixedKnown, MixedDetections) == ScanState(false, 14.0, [3.0, 1.0, 2.0], [6.0, 10.0])
  {
    assert 16.0 !in MixedKnown && 16.0 in MixedDetections;
    MixedScan8();
    ScanExtend(MixedTimesteps, 9, MixedKnown, MixedDetections,
      ScanState(true, 14.0, [3.0, 1.0], [6.0, 10.0]), 16.0,
      ScanState(false, 14.0, [3.0, 1.0, 2.0], [6.0, 10.0]));
  }

  lemma MixedScan10()
    ensures Scan(MixedTimesteps[..10], MixedKnown, MixedDetections) == ScanState(false, 14.0, [3.0, 1.0, 2.0], [6.0, 10.0, 18.0])
  {
    assert 18.0 !in MixedKnown && 18.0 in MixedDetections;
    MixedScan9();
    ScanExtend(MixedTimesteps, 10, MixedKnown, MixedDetections,
      ScanState(false, 14.0, [3.0, 1.0, 2.0], [6.0, 10.0]), 18.0,
      ScanState(false, 14.0, [3.0, 1.0, 2.0], [6.0, 10.0, 18.0]));
  }

  lemma MixedScan11()
    ensures Scan(MixedTimesteps[..11], MixedKnown, MixedDetections) == ScanState(true, 20.0, [3.0, 1.0, 2.0], [6.0, 10.0, 18.0])
  {
    assert 20.0 in MixedKnown && 20.0 !in MixedDetections;
    MixedScan10();
    ScanExtend(MixedTimesteps, 11, MixedKnown, MixedDetections,
      ScanState(false, 14.0, [3.0, 1.0, 2.0], [6.0, 10.0, 18.0]), 20.0,
      ScanState(true, 20.0, [3.0, 1.0, 2.0], [6.0, 10.0, 18.0]));
  }

  lemma MixedScan12()
    ensures Scan(MixedTimesteps[..12], MixedKnown, MixedDetections) == ScanState(false, 20.0, [3.0, 1.0, 2.0, 4.0], [6.0, 10.0, 18.0])
  {
    assert 24.0 !in MixedKnown && 24.0 in MixedDetections;
    MixedScan11();
    ScanExtend(MixedTimesteps, 12, MixedKnown, MixedDetections,
      ScanState(true, 20.0, [3.0, 1.0, 2.0], [6.0, 10.0, 18.0]), 24.0,
      ScanState(false, 20.0, [3.0, 1.0, 2.0, 4.0], [6.0, 10.0, 18.0]));
  }

  lemma MixedScan13()
    ensures Scan(MixedTimesteps[..13], MixedKnown, MixedDetections) == ScanState(true, 25.0, [3.0, 1.0, 2.0, 4.0], [6.0, 10.0, 18.0])
  {
    assert 25.0 in MixedKnown && 25.0 !in MixedDetections;
    MixedScan12();
    ScanExtend(MixedTimesteps, 13, MixedKnown, MixedDetections,
      ScanState(false, 20.0, [3.0, 1.0, 2.0, 4.0], [6.0, 10.0, 18.0]), 25.0,
      ScanState(true, 25.0, [3.0, 1.0, 2.0, 4.0], [6.0, 10.0, 18.0]));
  }

  lemma MixedScan14()
    ensures Scan(MixedTimesteps[..14], MixedKnown, MixedDetections) == ScanState(true, 26.0, [3.0, 1.0, 2.0, 4.0], [6.0, 10.0, 18.0])
  {
    assert 26.0 in MixedKnown && 26.0 !in MixedDetections;
    MixedScan13();
    ScanExtend(MixedTimesteps, 14, MixedKnown, MixedDetections,
      ScanState(true, 25.0, [3.0, 1.0, 2.0, 4.0], [6.0, 10.0, 18.0]), 26.0,
      ScanState(true, 26.0, [3.0, 1.0, 2.0, 4.0], [6.0, 10.0, 18.0]));
  }

  lemma MixedScan15()
    ensures Scan(MixedTimesteps[..15], MixedKnown, MixedDetections) == ScanState(false, 26.0, [3.0, 1.0, 2.0, 4.0, 2.0], [6.0, 10.0, 18.0])
  {
    assert 28.0 !in MixedKnown && 28.0 in MixedDetections;
    MixedScan14();
    ScanExtend(MixedTimesteps, 15, MixedKnown, MixedDetections,
      ScanState(true, 26.0, [3.0, 1.0, 2.0, 4.0], [6.0, 10.0, 18.0]), 28.0,
      ScanState(false, 26.0, [3.0, 1.0, 2.0, 4.0, 2.0], [6.0, 10.0, 18.0]));
  }

  /** The scores of the mixed example's final state. */
  lemma MixedScores()
    ensures Scores(ScanState(false, 26.0, [3.0, 1.0, 2.0, 4.0, 2.0], [6.0, 10.0, 18.0]), 7)
         == DriftScores(Finite(2.5 * 5.0 / 7.0), Some(6.0), Some(2.4), 2.0 / 7.0)
  {
    MtfaClosedForm([6.0, 10.0, 18.0]);
    var delays := [3.0, 1.0, 2.0, 4.0, 2.0];
    assert delays[1..] == [1.0, 2.0, 4.0, 2.0];
    assert delays[1..][1..] == [2.0, 4.0, 2.0];
    assert delays[1..][1..][1..] == [4.0, 2.0];
    assert delays[1..][1..][1..][1..] == [2.0];
    assert Sum(delays) == 12.0;
  }

  /** The mixed example: MTFA 6, MTD 2.4, MDR 2/7, MTR 2.5 * 5/7. */
  lemma MixedExample()
    ensures Metrics(MixedKnown, MixedDetections)
         == Success(DriftScores(Finite(2.5 * 5.0 / 7.0), Some(6.0), Some(2.4), 2.0 / 7.0))
  {
    MixedScores();
    assert MixedTimesteps[..15] == MixedTimesteps;
    MixedTimeline();
    MixedScan15();
    MetricsOfScan(MixedKnown, MixedDetections, MixedTimesteps,
      ScanState(false, 26.0, [3.0, 1.0, 2.0, 4.0, 2.0], [6.0, 10.0, 18.0]));
  }

  /** The metrics of known drifts are the scores of the final scan state over their timeline. */
  lemma MetricsOfScan(known: seq<real>, detections: seq<real>, ts: seq<real>, st: ScanState)
    requires |known| > 0 && Timeline(known + detections) == ts && Scan(ts, known, detections) == st
    ensures Metrics(known, detections) == Success(Scores(st, |known|))
  {
  }

}
