/**
 * Bayesian nonparametric detection method (BNDM): a window of `2 * n`
 * samples; once it is full, every feature is split into its first and
 * second half, both normalised together, and a Polya tree two-sample test
 * over the standard-normal quantile partitions gives a log-odds ratio. The
 * logistic of that ratio below the threshold for any feature is a drift,
 * and the window is emptied.
 */
module Bndm {
  import opened Common
  import opened Window
  import opened Detector

  // ---------------------------------------------------------------------
  // Extended reals: the normal quantile function is infinite at 0 and 1
  // ---------------------------------------------------------------------

  datatype Extended = NegInf | Finite(r: real) | PosInf

  /** `a < x` for an extended `a` and a real `x`. */
  predicate Below(a: Extended, x: real)
  {
    a.NegInf? || (a.Finite? && a.r < x)
  }

  /** `x <= b` for a real `x` and an extended `b`. */
  predicate AtMost(x: real, b: Extended)
  {
    b.PosInf? || (b.Finite? && x <= b.r)
  }

  /** `a <= b` on extended reals. */
  predicate Le(a: Extended, b: Extended)
  {
    a.NegInf? || b.PosInf? || (a.Finite? && b.Finite? && a.r <= b.r)
  }

  /** `stats.norm(loc=0, scale=1).ppf`. */
  type Ppf = real -> Extended

  /** A quantile function never decreases. */
  ghost predicate Monotone(ppf: Ppf)
  {
    forall p: real, q: real :: p <= q ==> Le(ppf(p), ppf(q))
  }

  /** The foreign routines BNDM calls. */
  datatype BndmOracles = BndmOracles(
    ppf: Ppf,
    betaln: (real, real) -> real,   // `scipy.special.betaln`
    exp: Exp,                       // `np.exp`
    iqr: seq<real> -> real)         // `stats.iqr`

  /** `n_samples`, `const`, `threshold`, `max_depth`, and the dimension of the stream. */
  datatype BndmConfig = BndmConfig(nSamples: nat, constant: real, threshold: real, maxDepth: int, dim: nat)

  datatype BndmState = BndmState(window: seq<Vector>)

  const Empty: BndmState := BndmState([])

  predicate Wellformed(c: BndmConfig, s: BndmState)
  {
    |s.window| <= 2 * c.nSamples && Rows(s.window, c.dim)
  }

  // ---------------------------------------------------------------------
  // Partitions and their intervals
  // ---------------------------------------------------------------------

  /** A partition is named by a binary string: the path from the root of the Polya tree. */
  predicate IsPartition(p: string)
  {
    forall i :: 0 <= i < |p| ==> p[i] == '0' || p[i] == '1'
  }

  function Pow2(n: nat): (r: nat)
    ensures r > 0
  {
    if n == 0 then 1 else 2 * Pow2(n - 1)
  }

  /** `int(partition, 2)`. */
  function BinaryValue(p: string): (v: nat)
    requires IsPartition(p)
    ensures v < Pow2(|p|)
  {
    if |p| == 0 then 0
    else 2 * BinaryValue(p[..|p| - 1]) + (if p[|p| - 1] == '1' then 1 else 0)
  }

  /** The quantile range `[k / 2^L, (k + 1) / 2^L]` of partition `p` with value `k` and length `L`. */
  function Quantiles(p: string): (q: (real, real))
    requires IsPartition(p)
    ensures 0.0 <= q.0 < q.1 <= 1.0
  {
    var k := BinaryValue(p) as real;
    var d := Pow2(|p|) as real;
    FractionBounds(k, d);
    (k / d, (k + 1.0) / d)
  }

  lemma FractionBounds(k: real, d: real)
    requires 0.0 <= k && k + 1.0 <= d
    ensures 0.0 <= k / d < (k + 1.0) / d <= 1.0
  {
    assert (k + 1.0) / d - k / d == 1.0 / d;
  }

  /** `_get_interval(partition)`. */
  function Interval(ppf: Ppf, p: string): (Extended, Extended)
    requires IsPartition(p)
  {
    var q := Quantiles(p);
    (ppf(q.0), ppf(q.1))
  }

  /** Splitting a partition halves its quantile range at the midpoint. */
  lemma ChildQuantiles(p: string)
    requires IsPartition(p)
    ensures IsPartition(p + "0") && IsPartition(p + "1")
    ensures Quantiles(p + "0").0 == Quantiles(p).0
    ensures Quantiles(p + "0").1 == Quantiles(p + "1").0
    ensures Quantiles(p + "1").1 == Quantiles(p).1
  {
    assert (p + "0")[..|p|] == p && (p + "1")[..|p|] == p;
    var k := BinaryValue(p) as real;
    var d := Pow2(|p|) as real;
    assert BinaryValue(p + "0") as real == 2.0 * k;
    assert BinaryValue(p + "1") as real == 2.0 * k + 1.0;
    assert Pow2(|p| + 1) as real == 2.0 * d;
    HalfScale(k, d);
    HalfScale(k + 1.0, d);
  }

  lemma HalfScale(a: real, d: real)
    requires d > 0.0
    ensures (2.0 * a) / (2.0 * d) == a / d
  {
  }

  /** The number of elements of `s` in the half-open interval `(lo, hi]`. */
  function CountIn(s: seq<real>, lo: Extended, hi: Extended): (n: nat)
    ensures n <= |s|
  {
    if |s| == 0 then 0
    else (if Below(lo, s[0]) && AtMost(s[0], hi) then 1 else 0) + CountIn(s[1..], lo, hi)
  }

  /** Half-open intervals that meet at `mid` count every element exactly once. */
  lemma {:induction false} CountSplit(s: seq<real>, lo: Extended, mid: Extended, hi: Extended)
    requires Le(lo, mid) && Le(mid, hi)
    ensures CountIn(s, lo, mid) + CountIn(s, mid, hi) == CountIn(s, lo, hi)
  {
    if |s| > 0 {
      CountSplit(s[1..], lo, mid, hi);
    }
  }

  /** The whole real line holds every element. */
  lemma {:induction false} CountAll(s: seq<real>)
    ensures CountIn(s, NegInf, PosInf) == |s|
  {
    if |s| > 0 {
      CountAll(s[1..]);
    }
  }

  /** `_get_interval_count`: how many elements of each sample fall into the partition. */
  function IntervalCount(ppf: Ppf, s1: seq<real>, s2: seq<real>, p: string): (r: (nat, nat))
    requires IsPartition(p)
    ensures r.0 <= |s1| && r.1 <= |s2|
  {
    var i := Interval(ppf, p);
    (CountIn(s1, i.0, i.1), CountIn(s2, i.0, i.1))
  }

  /** The two children of a partition split its elements between them (the Polya tree property). */
  lemma ChildCountsAdd(ppf: Ppf, s: seq<real>, p: string)
    requires Monotone(ppf) && IsPartition(p)
    ensures IsPartition(p + "0") && IsPartition(p + "1")
    ensures CountIn(s, Interval(ppf, p + "0").0, Interval(ppf, p + "0").1)
          + CountIn(s, Interval(ppf, p + "1").0, Interval(ppf, p + "1").1)
         == CountIn(s, Interval(ppf, p).0, Interval(ppf, p).1)
  {
    ChildQuantiles(p);
    var q := Quantiles(p);
    var mid := Quantiles(p + "0").1;
    assert q.0 <= mid <= q.1;
    assert Le(ppf(q.0), ppf(mid)) && Le(ppf(mid), ppf(q.1));
    CountSplit(s, ppf(q.0), ppf(mid), ppf(q.1));
  }

  // ---------------------------------------------------------------------
  // The Polya tree test
  // ---------------------------------------------------------------------

  /** `alpha = const * (level + 1) ** 2`. */
  function Alpha(constant: real, level: nat): real
  {
    constant * (((level + 1) * (level + 1)) as real)
  }

  /** The log-odds contribution of one split, from the four child counts. */
  function Contribution(betaln: (real, real) -> real, alpha: real, n1l: nat, n1r: nat, n2l: nat, n2r: nat): real
  {
    var nLeft := (n1l + n2l) as real;
    var nRight := (n1r + n2r) as real;
    var num := -betaln(alpha, alpha) + betaln(alpha + nLeft, alpha + nRight);
    var den := -2.0 * betaln(alpha, alpha)
      + betaln(alpha + n1l as real, alpha + n1r as real)
      + betaln(alpha + n2l as real, alpha + n2r as real);
    num - den
  }

  /** `polya_tree_test(sample_one, sample_two, level, partition)`. */
  function PolyaTreeTest(c: BndmConfig, o: BndmOracles, s1: seq<real>, s2: seq<real>, level: nat, p: string): real
    requires IsPartition(p)
    decreases if level > c.maxDepth then 0 else c.maxDepth + 1 - level
  {
    if level > c.maxDepth then 0.0
    else
      assert IsPartition(p + "0") && IsPartition(p + "1");
      var left := IntervalCount(o.ppf, s1, s2, p + "0");
      var right := IntervalCount(o.ppf, s1, s2, p + "1");
      if left.0 + right.0 == 0 || left.1 + right.1 == 0 then 0.0
      else
        Contribution(o.betaln, Alpha(c.constant, level), left.0, right.0, left.1, right.1)
        + PolyaTreeTest(c, o, s1, s2, level + 1, p + "0")
        + PolyaTreeTest(c, o, s1, s2, level + 1, p + "1")
  }

  /** The test does not depend on which sample comes first. */
  lemma {:induction false} PolyaTreeTestSymmetric(c: BndmConfig, o: BndmOracles, s1: seq<real>, s2: seq<real>, level: nat, p: string)
    requires IsPartition(p)
    ensures PolyaTreeTest(c, o, s1, s2, level, p) == PolyaTreeTest(c, o, s2, s1, level, p)
    decreases if level > c.maxDepth then 0 else c.maxDepth + 1 - level
  {
    if level <= c.maxDepth {
      ChildPartitions(p);
      PolyaTreeTestSymmetric(c, o, s1, s2, level + 1, p + "0");
      PolyaTreeTestSymmetric(c, o, s1, s2, level + 1, p + "1");
      PolyaTreeTestSwap(c, o, s1, s2, level, p);
    }
  }

  lemma ChildPartitions(p: string)
    requires IsPartition(p)
    ensures IsPartition(p + "0") && IsPartition(p + "1")
  {
  }

  /** One level of the test with the samples exchanged, given that the subtrees are symmetric. */
  lemma PolyaTreeTestSwap(c: BndmConfig, o: BndmOracles, s1: seq<real>, s2: seq<real>, level: nat, p: string)
    requires IsPartition(p) && level <= c.maxDepth
    requires IsPartition(p + "0") && IsPartition(p + "1")
    requires PolyaTreeTest(c, o, s1, s2, level + 1, p + "0") == PolyaTreeTest(c, o, s2, s1, level + 1, p + "0")
    requires PolyaTreeTest(c, o, s1, s2, level + 1, p + "1") == PolyaTreeTest(c, o, s2, s1, level + 1, p + "1")
    ensures PolyaTreeTest(c, o, s1, s2, level, p) == PolyaTreeTest(c, o, s2, s1, level, p)
  {
    var left := IntervalCount(o.ppf, s1, s2, p + "0");
    var right := IntervalCount(o.ppf, s1, s2, p + "1");
    assert IntervalCount(o.ppf, s2, s1, p + "0") == (left.1, left.0);
    assert IntervalCount(o.ppf, s2, s1, p + "1") == (right.1, right.0);
    if left.0 + right.0 != 0 && left.1 + right.1 != 0 {
      ContributionSymmetric(o.betaln, Alpha(c.constant, level), left.0, right.0, left.1, right.1);
    }
  }

  /** Exchanging the two samples' counts leaves a split's contribution unchanged. */
  lemma ContributionSymmetric(betaln: (real, real) -> real, alpha: real, n1l: nat, n1r: nat, n2l: nat, n2r: nat)
    ensures Contribution(betaln, alpha, n1l, n1r, n2l, n2r) == Contribution(betaln, alpha, n2l, n2r, n1l, n1r)
  {
    assert n1l + n2l == n2l + n1l && n1r + n2r == n2r + n1r;
  }

  /**
   * A partition that holds no element of one of the samples contributes
   * nothing: its children hold none either, so the recursion stops there.
   */
  lemma PolyaTreeTestStops(c: BndmConfig, o: BndmOracles, s1: seq<real>, s2: seq<real>, level: nat, p: string)
    requires IsPartition(p) && Monotone(o.ppf)
    requires IntervalCount(o.ppf, s1, s2, p).0 == 0 || IntervalCount(o.ppf, s1, s2, p).1 == 0
    ensures PolyaTreeTest(c, o, s1, s2, level, p) == 0.0
  {
    ChildCountsAdd(o.ppf, s1, p);
    ChildCountsAdd(o.ppf, s2, p);
  }

  /** At the root the two halves "0" and "1" hold every element, given a quantile function infinite at 0 and 1. */
  lemma RootCount(ppf: Ppf, s: seq<real>)
    requires Monotone(ppf) && ppf(0.0) == NegInf && ppf(1.0) == PosInf
    ensures IsPartition("0") && IsPartition("1")
    ensures CountIn(s, Interval(ppf, "0").0, Interval(ppf, "0").1) + CountIn(s, Interval(ppf, "1").0, Interval(ppf, "1").1) == |s|
  {
    assert Quantiles("") == (0.0, 1.0);
    assert "" + "0" == "0" && "" + "1" == "1";
    ChildCountsAdd(ppf, s, "");
    CountAll(s);
  }

  /**
   * At the root, with a quantile function that is infinite at 0 and 1, the
   * stopping rule fires exactly when one of the samples is empty.
   */
  lemma RootStopsIffEmptySample(c: BndmConfig, o: BndmOracles, s1: seq<real>, s2: seq<real>)
    requires Monotone(o.ppf) && o.ppf(0.0) == NegInf && o.ppf(1.0) == PosInf
    ensures IsPartition("0") && IsPartition("1")
    ensures (IntervalCount(o.ppf, s1, s2, "0").0 + IntervalCount(o.ppf, s1, s2, "1").0 == 0
             || IntervalCount(o.ppf, s1, s2, "0").1 + IntervalCount(o.ppf, s1, s2, "1").1 == 0)
        <==> (|s1| == 0 || |s2| == 0)
  {
    RootCount(o.ppf, s1);
    RootCount(o.ppf, s2);
  }

  /** The first partitions: "0" is the lower half, "01" the second quarter. */
  lemma PartitionExamples()
    ensures Quantiles("0") == (0.0, 0.5) && Quantiles("1") == (0.5, 1.0)
    ensures Quantiles("00") == (0.0, 0.25) && Quantiles("01") == (0.25, 0.5)
    ensures Quantiles("10") == (0.5, 0.75) && Quantiles("11") == (0.75, 1.0)
  {
    assert "0"[..0] == "" && "1"[..0] == "";
    assert "00"[..1] == "0" && "01"[..1] == "0" && "10"[..1] == "1" && "11"[..1] == "1";
  }

  /** `1 / (1 + exp(-log_odd_ratios))`: always strictly between 0 and 1. */
  function Statistic(exp: Exp, logOdds: real): (r: real)
    ensures 0.0 < r < 1.0
  {
    var e := exp(-logOdds);
    assert e > 0.0;
    1.0 / (1.0 + e)
  }

  // ---------------------------------------------------------------------
  // Samples
  // ---------------------------------------------------------------------

  /** `_normalize`: subtract the mean, and divide by the interquartile range unless it is 0. */
  function Normalize(data: seq<real>, iqr: real): (r: seq<real>)
    requires |data| > 0
    ensures |r| == |data|
    ensures iqr == 0.0 ==> forall i :: 0 <= i < |data| ==> r[i] == data[i] - Mean(data)
    ensures iqr != 0.0 ==> forall i :: 0 <= i < |data| ==> r[i] == (data[i] - Mean(data)) / iqr
  {
    var m := Mean(data);
    var centered := seq(|data|, i requires 0 <= i < |data| => data[i] - m);
    if iqr != 0.0 then seq(|data|, i requires 0 <= i < |data| => centered[i] / iqr) else centered
  }

  /** Normalised data is centred: its sum is 0, whatever the interquartile range. */
  lemma NormalizedSumZero(data: seq<real>, iqr: real)
    requires |data| > 0
    ensures Sum(Normalize(data, iqr)) == 0.0
  {
    var m := Mean(data);
    var centered := seq(|data|, i requires 0 <= i < |data| => data[i] - m);
    SumShift(data, m);
    assert Sum(centered) == 0.0;
    if iqr != 0.0 {
      SumScale(centered, iqr);
      assert Normalize(data, iqr) == seq(|centered|, i requires 0 <= i < |centered| => centered[i] / iqr);
    } else {
      assert Normalize(data, iqr) == centered;
    }
  }

  lemma {:induction false} SumScale(s: seq<real>, k: real)
    requires k != 0.0
    ensures Sum(seq(|s|, i requires 0 <= i < |s| => s[i] / k)) == Sum(s) / k
  {
    var t := seq(|s|, i requires 0 <= i < |s| => s[i] / k);
    if |s| > 0 {
      SumScale(s[1..], k);
      assert t[1..] == seq(|s[1..]|, i requires 0 <= i < |s[1..]| => s[1..][i] / k);
    }
  }

  /** `_get_samples(i)`: the normalised column `i`, split into the older and the newer half. */
  function Samples(c: BndmConfig, o: BndmOracles, w: seq<Vector>, i: nat): (r: (seq<real>, seq<real>))
    requires c.nSamples > 0 && |w| == 2 * c.nSamples && Rows(w, c.dim) && i < c.dim
    ensures |r.0| == |r.1| == c.nSamples
    ensures r.0 + r.1 == Normalize(Col(w, i), o.iqr(Col(w, i)))
  {
    var column := Col(w, i);
    var normalized := Normalize(column, o.iqr(column));
    assert normalized == normalized[..c.nSamples] + normalized[c.nSamples..];
    (normalized[..c.nSamples], normalized[c.nSamples..])
  }

  /** The test statistic of feature `i` on a full window. */
  function FeatureStatistic(c: BndmConfig, o: BndmOracles, w: seq<Vector>, i: nat): real
    requires c.nSamples > 0 && |w| == 2 * c.nSamples && Rows(w, c.dim) && i < c.dim
  {
    var samples := Samples(c, o, w, i);
    Statistic(o.exp, PolyaTreeTest(c, o, samples.0, samples.1, 0, ""))
  }

  /** The statistic of every feature, in feature order. */
  function Statistics(c: BndmConfig, o: BndmOracles, w: seq<Vector>): (r: seq<real>)
    requires c.nSamples > 0 && |w| == 2 * c.nSamples && Rows(w, c.dim)
    ensures |r| == c.dim
    ensures forall i :: 0 <= i < c.dim ==> r[i] == FeatureStatistic(c, o, w, i)
  {
    seq(c.dim, i requires 0 <= i < c.dim => FeatureStatistic(c, o, w, i))
  }

  /** Whether one of the first `k` values lies below `t`: the loop over features, stopping at the first drift. */
  function AnyBelow(xs: seq<real>, t: real, k: nat): bool
    requires k <= |xs|
  {
    k > 0 && (AnyBelow(xs, t, k - 1) || xs[k - 1] < t)
  }

  lemma {:induction false} AnyBelowExists(xs: seq<real>, t: real, k: nat)
    requires k <= |xs|
    ensures AnyBelow(xs, t, k) <==> exists i :: 0 <= i < k && xs[i] < t
  {
    if k > 0 {
      AnyBelowExists(xs, t, k - 1);
    }
  }

  // ---------------------------------------------------------------------
  // Update
  // ---------------------------------------------------------------------

  /** A window of rows of one width keeps that width after an append of a row of the width. */
  lemma AppendRows(w: seq<Vector>, x: Vector, cap: nat, d: nat)
    requires Rows(w, d) && |x| == d
    ensures Rows(Append(w, x, cap), d)
    ensures |w| <= cap ==> |Append(w, x, cap)| <= cap
  {
    var r := Append(w, x, cap);
    if |w| < cap {
      assert r == w + [x];
    } else if cap > 0 {
      forall i | 0 <= i < |r| ensures |r[i]| == d {
        if i < |r| - 1 {
          assert r[i] == r[..|r| - 1][i] == w[|w| - cap + 1 + i];
        }
      }
    }
  }

  /** The loop over the features of a full window: does any feature drift? */
  function FullWindowDrift(c: BndmConfig, o: BndmOracles, w: seq<Vector>): (r: Result<bool, DetectorError>)
    requires |w| == 2 * c.nSamples && Rows(w, c.dim)
    // `data[:, i]` on the empty array of a window of capacity 0
    ensures c.nSamples == 0 ==> r == (if c.dim > 0 then Failure(IndexError) else Success(false))
    ensures c.nSamples > 0 ==> r == Success(AnyBelow(Statistics(c, o, w), c.threshold, c.dim))
  {
    if c.nSamples == 0 then (if c.dim > 0 then Failure(IndexError) else Success(false))
    else Success(AnyBelow(Statistics(c, o, w), c.threshold, c.dim))
  }

  /** The rest of `update`: test every feature of a full window, and empty it on a drift. */
  function Decide(c: BndmConfig, o: BndmOracles, w: seq<Vector>): (out: Outcome<BndmState>)
    requires |w| <= 2 * c.nSamples && Rows(w, c.dim)
    ensures Wellformed(c, out.state)
    ensures out.drift == Success(true) ==> out.state == Empty
    ensures out.drift != Success(true) ==> out.state.window == w
    ensures |w| < 2 * c.nSamples ==> out == Outcome(BndmState(w), Success(false))
  {
    if |w| < 2 * c.nSamples then Outcome(BndmState(w), Success(false))
    else
      var r := FullWindowDrift(c, o, w);
      if r == Success(true) then Outcome(Empty, r) else Outcome(BndmState(w), r)
  }

  /** `update(features)`. */
  function Step(c: BndmConfig, o: BndmOracles, s: BndmState, x: Vector): (out: Outcome<BndmState>)
    requires Wellformed(c, s) && |x| == c.dim
    ensures Wellformed(c, out.state)
    ensures out.drift == Success(true) ==> out.state == Empty
    ensures out.drift != Success(true) ==> out.state.window == Append(s.window, x, 2 * c.nSamples)
  {
    AppendRows(s.window, x, 2 * c.nSamples, c.dim);
    Decide(c, o, Append(s.window, x, 2 * c.nSamples))
  }

  /** While the window fills, an update only appends. */
  lemma WarmUp(c: BndmConfig, o: BndmOracles, s: BndmState, x: Vector)
    requires Wellformed(c, s) && |x| == c.dim && |s.window| + 1 < 2 * c.nSamples
    ensures Step(c, o, s, x) == Outcome(BndmState(s.window + [x]), Success(false))
  {
    AppendRows(s.window, x, 2 * c.nSamples, c.dim);
    assert Append(s.window, x, 2 * c.nSamples) == s.window + [x];
  }

  /**
   * On a full window a drift is reported exactly when some feature's
   * statistic falls below the threshold, and the window is then emptied.
   */
  lemma StepDecision(c: BndmConfig, o: BndmOracles, s: BndmState, x: Vector)
    requires Wellformed(c, s) && |x| == c.dim && c.nSamples > 0 && |s.window| + 1 >= 2 * c.nSamples
    ensures var w := Append(s.window, x, 2 * c.nSamples);
      && |w| == 2 * c.nSamples && Rows(w, c.dim)
      && (Step(c, o, s, x).drift == Success(true) <==>
            exists i :: 0 <= i < c.dim && Statistics(c, o, w)[i] < c.threshold)
      && Step(c, o, s, x).drift.Success?
  {
    var w := Append(s.window, x, 2 * c.nSamples);
    AppendRows(s.window, x, 2 * c.nSamples, c.dim);
    AnyBelowExists(Statistics(c, o, w), c.threshold, c.dim);
  }

  /** A threshold of 0 or below can never be undercut: BNDM then never reports a drift. */
  lemma NonPositiveThresholdNeverDrifts(c: BndmConfig, o: BndmOracles, s: BndmState, x: Vector)
    requires Wellformed(c, s) && |x| == c.dim && c.threshold <= 0.0
    ensures Step(c, o, s, x).drift != Success(true)
  {
    var w := Append(s.window, x, 2 * c.nSamples);
    if c.nSamples > 0 && |w| == 2 * c.nSamples {
      StepDecision(c, o, s, x);
    }
  }

  /** A threshold of 1 or above is always undercut: BNDM then reports a drift whenever the window fills. */
  lemma ThresholdAboveOneAlwaysDrifts(c: BndmConfig, o: BndmOracles, s: BndmState, x: Vector)
    requires Wellformed(c, s) && |x| == c.dim && c.threshold >= 1.0 && c.dim > 0
    requires c.nSamples > 0 && |s.window| + 1 >= 2 * c.nSamples
    ensures Step(c, o, s, x) == Outcome(Empty, Success(true))
  {
    StepDecision(c, o, s, x);
    var w := Append(s.window, x, 2 * c.nSamples);
    assert Statistics(c, o, w)[0] < c.threshold;
  }

  // ---------------------------------------------------------------------
  // The detector object
  // ---------------------------------------------------------------------

  class BndmDetector {
    const config: BndmConfig
    const oracles: BndmOracles
    var window: seq<Vector>

    ghost predicate Valid()
      reads this
    {
      Wellformed(config, State())
    }

    function State(): BndmState
      reads this
    {
      BndmState(window)
    }

    constructor (nSamples: nat, constant: real, threshold: real, maxDepth: int, dim: nat, oracles: BndmOracles)
      ensures Valid() && State() == Empty
      ensures config == BndmConfig(nSamples, constant, threshold, maxDepth, dim) && this.oracles == oracles
    {
      config := BndmConfig(nSamples, constant, threshold, maxDepth, dim);
      this.oracles := oracles;
      window := [];
    }

    /** `update(features)`. */
    method Update(features: Vector) returns (drift: Result<bool, DetectorError>)
      requires Valid() && |features| == config.dim
      modifies this
      ensures Valid()
      ensures Outcome(State(), drift) == Step(config, oracles, old(State()), features)
    {
      ghost var w := Append(window, features, 2 * config.nSamples);
      AppendRows(window, features, 2 * config.nSamples, config.dim);
      assert Step(config, oracles, State(), features) == Decide(config, oracles, w);
      window := Append(window, features, 2 * config.nSamples);
      assert window == w;
      if |window| < 2 * config.nSamples {
        return Success(false);
      }
      drift := DetectDrift(window);
      if drift == Success(true) {
        ResetWindow();
      }
    }

    /** The loop over features, which stops at the first one that drifts. */
    method DetectDrift(w: seq<Vector>) returns (drift: Result<bool, DetectorError>)
      requires |w| == 2 * config.nSamples && Rows(w, config.dim)
      ensures drift == FullWindowDrift(config, oracles, w)
    {
      if config.nSamples == 0 {
        // the first iteration of the loop indexes the empty array
        return if config.dim > 0 then Failure(IndexError) else Success(false);
      }
      ghost var statistics := Statistics(config, oracles, w);
      for i := 0 to config.dim
        invariant !AnyBelow(statistics, config.threshold, i)
      {
        var statistic := FeatureStatistic(config, oracles, w, i);
        assert statistic == statistics[i];
        if statistic < config.threshold {
          AnyBelowExists(statistics, config.threshold, config.dim);
          return Success(true);
        }
      }
      return Success(false);
    }

    /** `reset`. */
    method ResetWindow()
      modifies this
      ensures State() == Empty
    {
      window := [];
    }
  }
}
