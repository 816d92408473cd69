/**
 * Unsupervised Concept Drift Detection (UCDD): one window of
 * `n_reference + n_recent` samples, its oldest `n_reference` the reference
 * and the rest recent. Once full, every update clusters the window into two
 * artificial classes and asks, for each class of the recent part, how many
 * distinct nearest neighbours it finds among the other recent class and
 * among the reference's other class; a Beta CDF of the two counts below the
 * threshold is a drift. There is no reset.
 */
module Ucdd {
  import opened Common
  import opened Window
  import opened Detector

  datatype UcddConfig = UcddConfig(nReference: nat, nRecent: nat, threshold: real, stabilityOffset: real)

  /** `deque(maxlen=n_recent_samples + n_reference_samples)`. */
  function Capacity(c: UcddConfig): nat
  {
    c.nReference + c.nRecent
  }

  /** `KMeans(n_clusters=2).fit(window).labels_`: one label, 0 or 1, per sample. */
  type Labelling = f: seq<Vector> -> seq<int> | forall w :: |f(w)| == |w| && forall i :: 0 <= i < |w| ==> 0 <= f(w)[i] <= 1
    witness (w: seq<Vector>) => seq(|w|, _ => 0)

  /** `minkowski(a, b)`. */
  type Distance = (Vector, Vector) -> real

  /** `beta.cdf(0.5, a, b)`. */
  type BetaCdf = (real, real) -> real

  datatype UcddOracles = UcddOracles(labels: Labelling, distance: Distance, betaCdf: BetaCdf)

  /** The four subsets of `_separate_data`, in its order. */
  datatype Partition = Partition(
    referencePositive: seq<Vector>,
    referenceNegative: seq<Vector>,
    recentPositive: seq<Vector>,
    recentNegative: seq<Vector>)

  /** Python's `data[:n]` and `data[n:]`: the split point clamped to the length. */
  function SplitPoint(c: UcddConfig, w: seq<Vector>): (k: nat)
    ensures k <= |w|
  {
    if c.nReference <= |w| then c.nReference else |w|
  }

  /**
   * `_separate_data`: the reference part and the recent part, each split by
   * label, 0 being the positive class and 1 the negative one.
   */
  function Separate(c: UcddConfig, w: seq<Vector>, labels: seq<int>): (p: Partition)
    requires |labels| == |w|
  {
    var k := SplitPoint(c, w);
    Partition(
      Members(w[..k], labels[..k], 0),
      Members(w[..k], labels[..k], 1),
      Members(w[k..], labels[k..], 0),
      Members(w[k..], labels[k..], 1))
  }

  /** `_find_closest_neighbor_index`: the first candidate at the least distance. */
  function Closest(o: UcddOracles, x: Vector, pool: seq<Vector>): (k: nat)
    requires |pool| > 0
    ensures k < |pool|
  {
    ArgMin(Distances(o, x, pool))
  }

  function Distances(o: UcddOracles, x: Vector, pool: seq<Vector>): (ds: seq<real>)
    ensures |ds| == |pool| && forall j :: 0 <= j < |pool| ==> ds[j] == o.distance(x, pool[j])
  {
    seq(|pool|, j requires 0 <= j < |pool| => o.distance(x, pool[j]))
  }

  /** The nearest neighbour is at the least distance, and every candidate before it is strictly farther. */
  lemma ClosestIsFirstMinimum(o: UcddOracles, x: Vector, pool: seq<Vector>)
    requires |pool| > 0
    ensures var k := Closest(o, x, pool);
      && (forall j :: 0 <= j < |pool| ==> o.distance(x, pool[k]) <= o.distance(x, pool[j]))
      && (forall j :: 0 <= j < k ==> o.distance(x, pool[j]) > o.distance(x, pool[k]))
  {
    var ds := Distances(o, x, pool);
    var k := ArgMin(ds);
    assert forall j :: 0 <= j < |pool| ==> ds[k] <= ds[j];
  }

  /**
   * The distinct nearest-neighbour indices in `pool` of the first `n`
   * evaluated samples; none for an empty pool.
   */
  function Neighbours(o: UcddOracles, evaluated: seq<Vector>, pool: seq<Vector>, n: nat): set<nat>
    requires n <= |evaluated|
  {
    if n == 0 || |pool| == 0 then {}
    else Neighbours(o, evaluated, pool, n - 1) + {Closest(o, evaluated[n - 1], pool)}
  }

  /** One more evaluated sample adds its nearest neighbour in a non-empty pool. */
  lemma NeighboursStep(o: UcddOracles, evaluated: seq<Vector>, pool: seq<Vector>, n: nat)
    requires n < |evaluated|
    ensures |pool| == 0 ==> Neighbours(o, evaluated, pool, n) == {} && Neighbours(o, evaluated, pool, n + 1) == {}
    ensures |pool| > 0 ==>
      Neighbours(o, evaluated, pool, n + 1) == Neighbours(o, evaluated, pool, n) + {Closest(o, evaluated[n], pool)}
  {
  }

  /** One iteration of `_compute_beta`'s loop for one pool: the nearest neighbour of `evaluated[i]` joins the set when the pool is non-empty. */
  method AddNeighbour(o: UcddOracles, evaluated: seq<Vector>, pool: seq<Vector>, i: nat, found: set<nat>) returns (grown: set<nat>)
    requires i < |evaluated|
    requires found == Neighbours(o, evaluated, pool, i)
    ensures grown == Neighbours(o, evaluated, pool, i + 1)
  {
    NeighboursStep(o, evaluated, pool, i);
    grown := found;
    if |pool| > 0 {
      grown := grown + {Closest(o, evaluated[i], pool)};
    }
  }

  /** `_compute_beta`: the Beta CDF of the two unique-neighbour counts, each shifted by the stability offset. */
  function Beta(c: UcddConfig, o: UcddOracles, evaluated: seq<Vector>, recent: seq<Vector>, reference: seq<Vector>): real
  {
    BetaOfCounts(c, o, |Neighbours(o, evaluated, recent, |evaluated|)|,
                 |Neighbours(o, evaluated, reference, |evaluated|)|)
  }

  /** `beta.cdf(0.5, a, b)` of two neighbour counts shifted by the stability offset. */
  function BetaOfCounts(c: UcddConfig, o: UcddOracles, recentCount: nat, referenceCount: nat): real
  {
    o.betaCdf(recentCount as real + c.stabilityOffset, referenceCount as real + c.stabilityOffset)
  }

  /**
   * The test of a full window. KMeans with two clusters rejects fewer than
   * two samples; otherwise a drift iff either class's Beta value is below
   * the threshold.
   */
  function Test(c: UcddConfig, o: UcddOracles, w: seq<Vector>): (r: Result<bool, DetectorError>)
    ensures r.Failure? <==> |w| < 2
    ensures r.Failure? ==> r.error == ValueError
    ensures r.Success? ==>
      var p := Separate(c, w, o.labels(w));
      (r.value <==> (Beta(c, o, p.recentPositive, p.recentNegative, p.referenceNegative) < c.threshold
                     || Beta(c, o, p.recentNegative, p.recentPositive, p.referencePositive) < c.threshold))
  {
    if |w| < 2 then Failure(ValueError)
    else
      var p := Separate(c, w, o.labels(w));
      var betaPositive := Beta(c, o, p.recentPositive, p.recentNegative, p.referenceNegative);
      var betaNegative := Beta(c, o, p.recentNegative, p.recentPositive, p.referencePositive);
      Success(betaPositive < c.threshold || betaNegative < c.threshold)
  }

  /** `update(features)`: the sample joins the window, and a full window is tested. */
  function Step(c: UcddConfig, o: UcddOracles, w: seq<Vector>, x: Vector): (out: Outcome<seq<Vector>>)
  {
    var window := Append(w, x, Capacity(c));
    if |window| == Capacity(c) then Outcome(window, Test(c, o, window)) else Outcome(window, Success(false))
  }

  /** The window after a stream of samples, from an empty one. */
  function Run(c: UcddConfig, o: UcddOracles, xs: seq<Vector>): seq<Vector>
  {
    if |xs| == 0 then [] else Step(c, o, Run(c, o, xs[..|xs| - 1]), xs[|xs| - 1]).state
  }

  // ---------------------------------------------------------------------
  // Properties
  // ---------------------------------------------------------------------

  /**
   * No reset: the window is always the newest `n_reference + n_recent`
   * samples of the stream, and an update tests exactly when the window
   * is full.
   */
  lemma {:induction false} RunIsLast(c: UcddConfig, o: UcddOracles, xs: seq<Vector>)
    ensures Run(c, o, xs) == Last(xs, Capacity(c))
  {
    if |xs| > 0 {
      var init := xs[..|xs| - 1];
      RunIsLast(c, o, init);
      AppendKeepsLast(Run(c, o, init), init, xs[|xs| - 1], Capacity(c));
      SplitLast(xs);
    }
  }

  lemma StepTestsWhenFull(c: UcddConfig, o: UcddOracles, w: seq<Vector>, x: Vector)
    requires |w| <= Capacity(c)
    ensures var out := Step(c, o, w, x);
      && |out.state| <= Capacity(c)
      && (|w| + 1 < Capacity(c) ==> out == Outcome(w + [x], Success(false)))
      && (|w| + 1 >= Capacity(c) ==> out.drift == Test(c, o, out.state) && |out.state| == Capacity(c))
  {
  }

  /**
   * The four subsets partition a full window: the first `n_reference`
   * samples are split between the two reference subsets and the rest
   * between the two recent subsets.
   */
  lemma SeparatePartitions(c: UcddConfig, o: UcddOracles, w: seq<Vector>)
    requires |w| == Capacity(c)
    ensures var p := Separate(c, w, o.labels(w));
      && multiset(p.referencePositive) + multiset(p.referenceNegative) == multiset(w[..c.nReference])
      && multiset(p.recentPositive) + multiset(p.recentNegative) == multiset(w[c.nReference..])
      && multiset(p.referencePositive) + multiset(p.referenceNegative) + multiset(p.recentPositive) + multiset(p.recentNegative) == multiset(w)
  {
    var labels := o.labels(w);
    var k := c.nReference;
    assert TwoClasses(labels);
    TwoClassesSlice(labels, 0, k);
    TwoClassesSlice(labels, k, |labels|);
    assert labels[..k] == labels[0..k] && labels[k..] == labels[k..|labels|];
    MembersPartition(w[..k], labels[..k]);
    MembersPartition(w[k..], labels[k..]);
    MultisetSplit(w, k);
  }

  /** The labels with the two classes exchanged. */
  function Swapped(labels: seq<int>): (r: seq<int>)
    ensures |r| == |labels|
  {
    seq(|labels|, j requires 0 <= j < |labels| => 1 - labels[j])
  }

  lemma {:induction false} MembersSwapped(rows: seq<Vector>, labels: seq<int>, i: int)
    requires |labels| == |rows|
    ensures Members(rows, Swapped(labels), i) == Members(rows, labels, 1 - i)
    decreases |rows|
  {
    if |rows| > 0 {
      MembersSwapped(rows[1..], labels[1..], i);
      assert Swapped(labels)[1..] == Swapped(labels[1..]);
    }
  }

  /**
   * The two classes play mirrored roles: exchanging the labels exchanges
   * the positive and negative subsets, and so the two Beta values.
   */
  lemma SeparateMirror(c: UcddConfig, w: seq<Vector>, labels: seq<int>)
    requires |labels| == |w|
    ensures var p := Separate(c, w, labels);
      var q := Separate(c, w, Swapped(labels));
      && q.referencePositive == p.referenceNegative && q.referenceNegative == p.referencePositive
      && q.recentPositive == p.recentNegative && q.recentNegative == p.recentPositive
  {
    var k := SplitPoint(c, w);
    assert Swapped(labels)[..k] == Swapped(labels[..k]);
    assert Swapped(labels)[k..] == Swapped(labels[k..]);
    MembersSwapped(w[..k], labels[..k], 0);
    MembersSwapped(w[..k], labels[..k], 1);
    MembersSwapped(w[k..], labels[k..], 0);
    MembersSwapped(w[k..], labels[k..], 1);
  }

  /**
   * Each unique-neighbour count is at most the number of evaluated samples
   * and at most the pool size; an empty pool contributes nothing.
   */
  lemma {:induction false} NeighboursBounds(o: UcddOracles, evaluated: seq<Vector>, pool: seq<Vector>, n: nat)
    requires n <= |evaluated|
    ensures |Neighbours(o, evaluated, pool, n)| <= n
    ensures |Neighbours(o, evaluated, pool, n)| <= |pool|
    ensures |pool| == 0 ==> Neighbours(o, evaluated, pool, n) == {}
    ensures forall k :: k in Neighbours(o, evaluated, pool, n) ==> k < |pool|
  {
    if n > 0 && |pool| > 0 {
      NeighboursBounds(o, evaluated, pool, n - 1);
    }
    IndexSetBound(Neighbours(o, evaluated, pool, n), |pool|);
  }

  // ---------------------------------------------------------------------
  // The detector object
  // ---------------------------------------------------------------------

  class UcddDetector {
    const config: UcddConfig
    const oracles: UcddOracles
    var window: seq<Vector>

    ghost predicate Valid()
      reads this
    {
      |window| <= Capacity(config)
    }

    constructor (nReference: nat, nRecent: nat, threshold: real, stabilityOffset: real, oracles: UcddOracles)
      ensures Valid() && window == []
      ensures config == UcddConfig(nReference, nRecent, threshold, stabilityOffset) && this.oracles == oracles
    {
      config := UcddConfig(nReference, nRecent, threshold, stabilityOffset);
      this.oracles := oracles;
      window := [];
    }

    /** `update(features)`. */
    method Update(features: Vector) returns (drift: Result<bool, DetectorError>)
      requires Valid()
      modifies this
      ensures Valid()
      ensures Outcome(window, drift) == Step(config, oracles, old(window), features)
    {
      window := Append(window, features, Capacity(config));
      if |window| == Capacity(config) {
        if |window| < 2 {
          return Failure(ValueError);
        }
        var p := Separate(config, window, oracles.labels(window));
        var betaPositive := ComputeBeta(p.recentPositive, p.recentNegative, p.referenceNegative);
        var betaNegative := ComputeBeta(p.recentNegative, p.recentPositive, p.referencePositive);
        return Success(betaPositive < config.threshold || betaNegative < config.threshold);
      }
      return Success(false);
    }

    /** `_compute_beta`: the loop collecting the two sets of nearest-neighbour indices. */
    method ComputeBeta(evaluated: seq<Vector>, recent: seq<Vector>, reference: seq<Vector>) returns (p: real)
      ensures p == Beta(config, oracles, evaluated, recent, reference)
    {
      var o := oracles;
      var recentNeighbours: set<nat> := {};
      var referenceNeighbours: set<nat> := {};
      var i := 0;
      while i < |evaluated|
        invariant 0 <= i <= |evaluated|
        invariant recentNeighbours == Neighbours(o, evaluated, recent, i)
        invariant referenceNeighbours == Neighbours(o, evaluated, reference, i)
      {
        recentNeighbours := AddNeighbour(o, evaluated, recent, i, recentNeighbours);
        referenceNeighbours := AddNeighbour(o, evaluated, reference, i, referenceNeighbours);
        i := i + 1;
      }
      assert recentNeighbours == Neighbours(o, evaluated, recent, |evaluated|);
      assert referenceNeighbours == Neighbours(o, evaluated, reference, |evaluated|);
      p := BetaOfCounts(config, o, |recentNeighbours|, |referenceNeighbours|);
    }
  }
}
