/**
 * Ensemble Drift Detection with Feature Subspaces (EDFS): a list of
 * feature subspaces, each a dictionary from feature name to a univariate
 * Kolmogorov-Smirnov detector. A subspace votes drift when more than
 * `len(features) * feature_percentage / 2` of its detectors drift on the
 * current sample; the ensemble signals drift as soon as one subspace votes
 * drift, and then rebuilds every subspace from the current sample.
 *
 * The nested KS detectors are held as values (`KsState`) and stepped by
 * the KS detector's own specification function.
 */
module Edfs {
  import opened Common
  import opened Detector
  import Ks = KolmogorovSmirnov

  /** No two entries of a sample share a feature name. */
  predicate DistinctKeys(s: seq<(string, real)>)
  {
    forall i, j :: 0 <= i < j < |s| ==> s[i].0 != s[j].0
  }

  /** A sample `features: dict`, in the dictionary's key order. */
  type Sample = s: seq<(string, real)> | DistinctKeys(s)

  /** `EDFSMode.RANDOM`, `EDFSMode.SUBSPACE_SELECTION`, or any other value passed as the mode. */
  datatype Mode = Random | SubspaceSelection | Unsupported

  datatype EdfsConfig = EdfsConfig(
    nSubspaces: int,
    featurePercentage: real,
    mode: Mode,
    alpha: real,
    windowSize: nat)

  /** `KolmogorovSmirnovDriftDetector(window_size, alpha)`: the threshold is `alpha`, no reset after drift. */
  function KsOf(c: EdfsConfig): (kc: Ks.KsConfig)
    ensures kc.windowSize == c.windowSize && kc.threshold == c.alpha && !kc.resetAfterDrift
  {
    Ks.KsConfig(c.windowSize, c.alpha, false)
  }

  /** One subspace: feature names, in insertion order, with their detectors. */
  type Subspace = seq<(string, Ks.KsState)>

  datatype EdfsState = EdfsState(
    nFeatures: nat,          // `n_features`
    perSpace: int,           // `n_features_per_space`
    subspaces: seq<Subspace>,
    draws: nat)              // how many `rng.choice` draws the generator has made

  const Fresh := EdfsState(0, 0, [], 0)

  /** `list(sample.keys())`. */
  function Keys(sample: Sample): (r: seq<string>)
    ensures |r| == |sample| && forall i :: 0 <= i < |sample| ==> r[i] == sample[i].0
  {
    seq(|sample|, i requires 0 <= i < |sample| => sample[i].0)
  }

  predicate Distinct<T(==)>(s: seq<T>)
  {
    forall i, j :: 0 <= i < j < |s| ==> s[i] != s[j]
  }

  /** `features[name]`: the value stored under `name`, or `None` where Python raises KeyError. */
  function Lookup(sample: seq<(string, real)>, name: string): (r: Option<real>)
    ensures r.None? <==> forall i :: 0 <= i < |sample| ==> sample[i].0 != name
    ensures r.Some? ==> (name, r.value) in sample
  {
    if |sample| == 0 then None
    else if sample[0].0 == name then Some(sample[0].1)
    else
      var r := Lookup(sample[1..], name);
      assert forall i :: 1 <= i < |sample| ==> sample[i] == sample[1..][i - 1];
      r
  }

  // ---------------------------------------------------------------------
  // `reset`: subspace sizing and the mode dispatch
  // ---------------------------------------------------------------------

  /** The length of `range(n)`. */
  function RangeLength(n: int): (r: nat)
    ensures n > 0 ==> r == n
    ensures n <= 0 ==> r == 0
  {
    if n > 0 then n else 0
  }

  /**
   * `rng.choice(keys, size=k, replace=False)` as the generator's `d`-th
   * draw: the first `k` positions of a shuffled `0 .. len(keys) - 1`.
   */
  function Choose(shuffle: Shuffle, keys: seq<string>, d: nat, k: nat): (r: seq<string>)
    requires k <= |keys|
    ensures |r| == k && forall i :: 0 <= i < k ==> r[i] in keys
  {
    var idx := shuffle(Identity(|keys|), d);
    ShuffledIdentity(shuffle, |keys|, d);
    seq(k, i requires 0 <= i < k => keys[idx[i]])
  }

  /** The dictionary comprehension: a fresh KS detector for each chosen feature. */
  function RandomSubspace(shuffle: Shuffle, keys: seq<string>, d: nat, k: nat): (r: Subspace)
    requires k <= |keys|
    ensures |r| == k
  {
    var chosen := Choose(shuffle, keys, d, k);
    seq(k, i requires 0 <= i < k => (chosen[i], Ks.Empty))
  }

  /** `__random_reset`: `n_subspaces` subspaces, the `i`-th from draw `d + i`. */
  function RandomSubspaces(n: int, shuffle: Shuffle, keys: seq<string>, d: nat, k: int): (r: seq<Subspace>)
    requires n > 0 ==> 0 <= k <= |keys|
    ensures |r| == RangeLength(n)
  {
    seq(RangeLength(n), i requires 0 <= i < RangeLength(n) => RandomSubspace(shuffle, keys, d + i, k as nat))
  }

  /** The state after `reset(sample)`, and the exception it raised, if any. */
  datatype Rebuilt = Rebuilt(state: EdfsState, raised: Option<DetectorError>)

  /** `reset(sample)`. */
  function Reset(c: EdfsConfig, shuffle: Shuffle, s: EdfsState, sample: Sample): (r: Rebuilt)
    // the sizes are recorded before the mode is looked at, whatever happens next
    ensures r.state.nFeatures == |sample|
    ensures r.state.perSpace == Ceil(|sample| as real * c.featurePercentage)
    ensures c.mode == SubspaceSelection ==> r.raised == Some(NotImplemented)
    ensures c.mode == Unsupported ==> r.raised == Some(ValueError)
    // `rng.choice` refuses a negative size, or more features than the sample has
    ensures c.mode == Random ==>
      (r.raised.Some? <==> c.nSubspaces > 0 && !(0 <= r.state.perSpace <= |sample|))
    ensures r.raised.Some? ==> r.state.subspaces == s.subspaces && r.state.draws == s.draws
  {
    var n := |sample|;
    var k := Ceil(n as real * c.featurePercentage);
    var sized := s.(nFeatures := n, perSpace := k);
    match c.mode
    case Random =>
      if c.nSubspaces > 0 && !(0 <= k <= n) then Rebuilt(sized, Some(ValueError))
      else
        Rebuilt(sized.(subspaces := RandomSubspaces(c.nSubspaces, shuffle, Keys(sample), s.draws, k),
                       draws := s.draws + RangeLength(c.nSubspaces)),
                None)
    case SubspaceSelection => Rebuilt(sized, Some(NotImplemented))
    case Unsupported => Rebuilt(sized, Some(ValueError))
  }

  // ---------------------------------------------------------------------
  // `_detect_drift`: the vote of each subspace
  // ---------------------------------------------------------------------

  /** The detectors of one subspace after the inner loop, and `sum(drifts)` or the exception raised. */
  datatype Tally = Tally(detectors: Subspace, drifts: Result<nat, DetectorError>)

  /** One detector's `update(feature)`: its new state and what it returned or raised. */
  type Feed = (Ks.KsState, real) -> Outcome<Ks.KsState>

  /** The update of the ensemble's KS detectors. */
  function Feeder(kc: Ks.KsConfig, test: Ks.KsTest): Feed
  {
    (s, x) => Ks.Step(kc, test, s, x)
  }

  /** With a positive window no KS detector update raises. */
  lemma FeederSucceeds(kc: Ks.KsConfig, test: Ks.KsTest)
    requires kc.windowSize > 0
    ensures forall s, x :: Feeder(kc, test)(s, x).drift.Success?
  {
  }

  /**
   * The inner loop over one subspace: each detector is updated with its
   * feature in turn; a missing feature (KeyError) or a failing detector
   * stops the loop, leaving the detectors before it updated.
   */
  function Vote(feed: Feed, sub: Subspace, sample: Sample): (r: Tally)
    ensures |r.detectors| == |sub|
    ensures r.drifts.Success? ==> r.drifts.value <= |sub|
    decreases |sub|
  {
    if |sub| == 0 then Tally([], Success(0))
    else
      match Lookup(sample, sub[0].0)
      case None => Tally(sub, Failure(KeyError))
      case Some(x) =>
        var o := feed(sub[0].1, x);
        var first := (sub[0].0, o.state);
        if o.drift.Failure? then Tally([first] + sub[1..], Failure(o.drift.error))
        else Joined([first], if o.drift.value then 1 else 0, Vote(feed, sub[1..], sample))
  }

  /** The first detector of a subspace decides how the inner loop goes on. */
  lemma VoteFirst(feed: Feed, sub: Subspace, sample: Sample)
    requires |sub| > 0
    ensures var r := Vote(feed, sub, sample);
      var x := Lookup(sample, sub[0].0);
      && (x.None? ==> r == Tally(sub, Failure(KeyError)))
      && (x.Some? && feed(sub[0].1, x.value).drift.Failure? ==>
            r == Tally([(sub[0].0, feed(sub[0].1, x.value).state)] + sub[1..], Failure(feed(sub[0].1, x.value).drift.error)))
      && (x.Some? && feed(sub[0].1, x.value).drift.Success? ==>
            r == Joined([(sub[0].0, feed(sub[0].1, x.value).state)],
                        if feed(sub[0].1, x.value).drift.value then 1 else 0,
                        Vote(feed, sub[1..], sample)))
  {
  }

  /** `sum(drifts) > len(features) * feature_percentage / 2`: the threshold uses the sample's size, not the subspace's. */
  predicate Majority(count: nat, nFeatures: nat, featurePercentage: real)
  {
    count as real > nFeatures as real * featurePercentage / 2.0
  }

  /** `_detect_drift(features)`: subspaces in order, returning at the first that votes drift. */
  function Detect(feed: Feed, fp: real, subs: seq<Subspace>, sample: Sample): (o: Outcome<seq<Subspace>>)
    ensures |o.state| == |subs|
    decreases |subs|
  {
    if |subs| == 0 then Outcome([], Success(false))
    else
      var t := Vote(feed, subs[0], sample);
      if t.drifts.Failure? then Outcome([t.detectors] + subs[1..], Failure(t.drifts.error))
      else if Majority(t.drifts.value, |sample|, fp) then
        Outcome([t.detectors] + subs[1..], Success(true))
      else
        var rest := Detect(feed, fp, subs[1..], sample);
        Outcome([t.detectors] + rest.state, rest.drift)
  }

  /** The first subspace's vote decides how the subspace loop goes on. */
  lemma DetectFirst(feed: Feed, fp: real, subs: seq<Subspace>, sample: Sample)
    requires |subs| > 0
    ensures var t := Vote(feed, subs[0], sample);
      var o := Detect(feed, fp, subs, sample);
      && (t.drifts.Failure? ==> o == Outcome([t.detectors] + subs[1..], Failure(t.drifts.error)))
      && (t.drifts.Success? && Majority(t.drifts.value, |sample|, fp) ==>
            o == Outcome([t.detectors] + subs[1..], Success(true)))
      && (t.drifts.Success? && !Majority(t.drifts.value, |sample|, fp) ==>
            o == Outcome([t.detectors] + Detect(feed, fp, subs[1..], sample).state,
                         Detect(feed, fp, subs[1..], sample).drift))
  {
  }

  /** `update(features)`. */
  function Step(c: EdfsConfig, shuffle: Shuffle, feed: Feed, s: EdfsState, sample: Sample): (o: Outcome<EdfsState>)
    // an exception raised by a reset is the exception of the update
    ensures |s.subspaces| == 0 && Reset(c, shuffle, s, sample).raised.Some? ==>
      o == Outcome(Reset(c, shuffle, s, sample).state, Failure(Reset(c, shuffle, s, sample).raised.value))
  {
    var built := if |s.subspaces| == 0 then Reset(c, shuffle, s, sample) else Rebuilt(s, None);
    if built.raised.Some? then Outcome(built.state, Failure(built.raised.value))
    else Voted(c, shuffle, built.state, Detect(feed, c.featurePercentage, built.state.subspaces, sample), sample)
  }

  /** After `_detect_drift` returned `d`: the detectors it updated are kept, and a drift resets. */
  function Voted(c: EdfsConfig, shuffle: Shuffle, s: EdfsState, d: Outcome<seq<Subspace>>, sample: Sample): (o: Outcome<EdfsState>)
    ensures d.drift != Success(true) ==> o == Outcome(s.(subspaces := d.state), d.drift)
  {
    var checked := s.(subspaces := d.state);
    if d.drift == Success(true) then
      var again := Reset(c, shuffle, checked, sample);
      Outcome(again.state, if again.raised.Some? then Failure(again.raised.value) else Success(true))
    else Outcome(checked, d.drift)
  }

  // ---------------------------------------------------------------------
  // Properties
  // ---------------------------------------------------------------------

  /** Every subspace holds `k` fresh detectors for `k` distinct features of the sample. */
  predicate WellFormed(sub: Subspace, keys: seq<string>, k: int)
  {
    && |sub| == k
    && (forall i :: 0 <= i < |sub| ==> sub[i].0 in keys && sub[i].1 == Ks.Empty)
    && (forall i, j :: 0 <= i < j < |sub| ==> sub[i].0 != sub[j].0)
  }

  /** The features drawn for one subspace are distinct. */
  lemma ChooseDistinct(shuffle: Shuffle, keys: seq<string>, d: nat, k: nat)
    requires k <= |keys| && Distinct(keys)
    ensures Distinct(Choose(shuffle, keys, d, k))
  {
    var idx := shuffle(Identity(|keys|), d);
    ShuffledIdentity(shuffle, |keys|, d);
    var r := Choose(shuffle, keys, d, k);
    forall i, j | 0 <= i < j < k
      ensures r[i] != r[j]
    {
      assert r[i] == keys[idx[i]] && r[j] == keys[idx[j]];
      assert idx[i] != idx[j];
    }
  }

  /**
   * A random reset that `rng.choice` accepts builds exactly `n_subspaces`
   * subspaces (none for a non-positive count), each holding
   * `ceil(n_features * feature_percentage)` distinct features of the
   * sample with fresh detectors, and advances the generator by one draw
   * per subspace.
   */
  lemma ResetShape(c: EdfsConfig, shuffle: Shuffle, s: EdfsState, sample: Sample)
    requires c.mode == Random
    requires var k := Ceil(|sample| as real * c.featurePercentage);
      c.nSubspaces <= 0 || 0 <= k <= |sample|
    ensures var r := Reset(c, shuffle, s, sample);
      && r.raised == None
      && |r.state.subspaces| == RangeLength(c.nSubspaces)
      && (forall i :: 0 <= i < |r.state.subspaces| ==>
            WellFormed(r.state.subspaces[i], Keys(sample), r.state.perSpace))
      && r.state.draws == s.draws + RangeLength(c.nSubspaces)
  {
    var r := Reset(c, shuffle, s, sample);
    var keys := Keys(sample);
    var k := r.state.perSpace;
    assert Distinct(keys);
    assert r.state.subspaces == RandomSubspaces(c.nSubspaces, shuffle, keys, s.draws, k);
    forall i | 0 <= i < |r.state.subspaces|
      ensures WellFormed(r.state.subspaces[i], keys, k)
    {
      var sub := r.state.subspaces[i];
      var chosen := Choose(shuffle, keys, s.draws + i, k as nat);
      assert sub == RandomSubspace(shuffle, keys, s.draws + i, k as nat);
      assert forall m :: 0 <= m < k ==> sub[m] == (chosen[m], Ks.Empty);
      ChooseDistinct(shuffle, keys, s.draws + i, k as nat);
    }
  }

  /** `EDFS(1, 1, RANDOM).reset({"a": 1})` builds one subspace holding the one feature. */
  lemma ResetOneFeature(shuffle: Shuffle, s: EdfsState)
    ensures var c := EdfsConfig(1, 1.0, Random, 0.005, 100);
      var r := Reset(c, shuffle, s, [("a", 1.0)]);
      r.raised == None && |r.state.subspaces| == 1 && r.state.subspaces[0] == [("a", Ks.Empty)]
  {
    var c := EdfsConfig(1, 1.0, Random, 0.005, 100);
    var sample: Sample := [("a", 1.0)];
    ResetShape(c, shuffle, s, sample);
  }

  /** With `feature_percentage = 0.5` and `2 * n` features, every subspace holds `n` features. */
  lemma HalfOfEvenFeatures(n: nat)
    ensures Ceil((2 * n) as real * 0.5) == n
  {
    assert (2 * n) as real * 0.5 == n as real;
  }

  /**
   * A strict majority of a subspace's detectors always outvotes the
   * threshold when the sample has as many features as at the reset: the
   * subspace size rounds `n_features * feature_percentage` up.
   */
  lemma SubspaceMajoritySuffices(n: nat, featurePercentage: real, count: nat)
    requires featurePercentage >= 0.0
    ensures 2 * count > Ceil(n as real * featurePercentage) ==> Majority(count, n, featurePercentage)
  {
  }

  /**
   * The threshold counts the current sample's features, not the
   * subspace's: after a reset on 2 features at percentage 0.5 a subspace
   * holds 1 detector, and once the samples carry 4 features that single
   * detector can no longer outvote `4 * 0.5 / 2`.
   */
  lemma ThresholdFollowsSample()
    ensures Ceil(2.0 * 0.5) == 1
    ensures Majority(1, 2, 0.5) && !Majority(1, 4, 0.5)
  {
  }

  /**
   * The detectors of `sub` when those before position `j` have each been
   * updated once with their own feature and the others are untouched.
   */
  function Fed(feed: Feed, sub: Subspace, sample: Sample, j: nat): (r: Subspace)
    requires j <= |sub| && forall i :: 0 <= i < j ==> Lookup(sample, sub[i].0).Some?
    ensures |r| == |sub|
  {
    seq(|sub|, i requires 0 <= i < |sub| =>
      if i < j then (sub[i].0, feed(sub[i].1, Lookup(sample, sub[i].0).value).state) else sub[i])
  }

  lemma FedCons(feed: Feed, sub: Subspace, sample: Sample, j: nat)
    requires 0 < j <= |sub| && forall i :: 0 <= i < j ==> Lookup(sample, sub[i].0).Some?
    ensures forall i :: 0 <= i < j - 1 ==> Lookup(sample, sub[1..][i].0).Some?
    ensures Fed(feed, sub, sample, j)
         == [(sub[0].0, feed(sub[0].1, Lookup(sample, sub[0].0).value).state)] + Fed(feed, sub[1..], sample, j - 1)
  {
    assert forall i :: 0 <= i < |sub| - 1 ==> sub[1..][i] == sub[i + 1];
  }

  /**
   * With every feature present and no detector raising, each detector of
   * the subspace is updated exactly once, with its own feature, and the
   * vote is a count.
   */
  lemma {:induction false} VoteUpdatesEach(feed: Feed, sub: Subspace, sample: Sample)
    requires forall s, x :: feed(s, x).drift.Success?
    requires forall i :: 0 <= i < |sub| ==> Lookup(sample, sub[i].0).Some?
    ensures var r := Vote(feed, sub, sample);
      r.drifts.Success? && r.detectors == Fed(feed, sub, sample, |sub|)
  {
    if |sub| > 0 {
      FedCons(feed, sub, sample, |sub|);
      VoteUpdatesEach(feed, sub[1..], sample);
      VoteFirst(feed, sub, sample);
    } else {
      assert Fed(feed, sub, sample, 0) == [];
    }
  }

  /**
   * A feature missing from the sample raises KeyError at its detector:
   * the detectors before it have been updated, it and those after it are
   * untouched.
   */
  lemma {:induction false} VoteStopsAtMissing(feed: Feed, sub: Subspace, sample: Sample, j: nat)
    requires (forall s, x :: feed(s, x).drift.Success?) && j < |sub|
    requires forall i :: 0 <= i < j ==> Lookup(sample, sub[i].0).Some?
    requires Lookup(sample, sub[j].0).None?
    ensures Vote(feed, sub, sample) == Tally(Fed(feed, sub, sample, j), Failure(KeyError))
  {
    VoteFirst(feed, sub, sample);
    if j > 0 {
      FedCons(feed, sub, sample, j);
      assert sub[1..][j - 1] == sub[j];
      VoteStopsAtMissing(feed, sub[1..], sample, j - 1);
    } else {
      assert Fed(feed, sub, sample, 0) == sub;
    }
  }

  /** Subspace `j` is the first to vote drift, every subspace before it voting no drift. */
  predicate FirstMajority(feed: Feed, fp: real, subs: seq<Subspace>, sample: Sample, j: nat)
    requires j < |subs|
  {
    && (forall i :: 0 <= i < j ==>
          var t := Vote(feed, subs[i], sample);
          t.drifts.Success? && !Majority(t.drifts.value, |sample|, fp))
    && var t := Vote(feed, subs[j], sample);
       t.drifts.Success? && Majority(t.drifts.value, |sample|, fp)
  }

  /** The subspaces when those up to position `j` have voted and the others are untouched. */
  function Polled(feed: Feed, subs: seq<Subspace>, sample: Sample, j: nat): (r: seq<Subspace>)
    requires j < |subs|
    ensures |r| == |subs|
  {
    seq(|subs|, i requires 0 <= i < |subs| => if i <= j then Vote(feed, subs[i], sample).detectors else subs[i])
  }

  lemma PolledCons(feed: Feed, subs: seq<Subspace>, sample: Sample, j: nat)
    requires j < |subs|
    ensures j > 0 ==> Polled(feed, subs, sample, j) == [Vote(feed, subs[0], sample).detectors] + Polled(feed, subs[1..], sample, j - 1)
    ensures j == 0 ==> Polled(feed, subs, sample, j) == [Vote(feed, subs[0], sample).detectors] + subs[1..]
  {
    assert forall i :: 0 <= i < |subs| - 1 ==> subs[1..][i] == subs[i + 1];
  }

  /**
   * The first subspace to vote drift makes the ensemble report drift:
   * it and the subspaces before it have voted, and the subspaces after it
   * are left untouched.
   */
  lemma {:induction false} DetectStopsAtFirstMajority(feed: Feed, fp: real, subs: seq<Subspace>, sample: Sample, j: nat)
    requires j < |subs| && FirstMajority(feed, fp, subs, sample, j)
    ensures Detect(feed, fp, subs, sample) == Outcome(Polled(feed, subs, sample, j), Success(true))
  {
    DetectFirst(feed, fp, subs, sample);
    PolledCons(feed, subs, sample, j);
    if j > 0 {
      assert FirstMajority(feed, fp, subs[1..], sample, j - 1) by {
        forall i | 0 <= i < j - 1
          ensures var t := Vote(feed, subs[1..][i], sample);
            t.drifts.Success? && !Majority(t.drifts.value, |sample|, fp)
        {
          assert subs[1..][i] == subs[i + 1];
        }
        assert subs[1..][j - 1] == subs[j];
      }
      DetectStopsAtFirstMajority(feed, fp, subs[1..], sample, j - 1);
    }
  }

  /** Conversely, the ensemble reports drift only when some subspace is the first to vote drift. */
  lemma {:induction false} DetectDriftHasFirstMajority(feed: Feed, fp: real, subs: seq<Subspace>, sample: Sample)
    requires Detect(feed, fp, subs, sample).drift == Success(true)
    ensures exists j :: 0 <= j < |subs| && FirstMajority(feed, fp, subs, sample, j)
  {
    var t := Vote(feed, subs[0], sample);
    if !Majority(t.drifts.value, |sample|, fp) {
      DetectDriftHasFirstMajority(feed, fp, subs[1..], sample);
      var j :| 0 <= j < |subs| - 1 && FirstMajority(feed, fp, subs[1..], sample, j);
      assert subs[1..][j] == subs[j + 1];
      forall i | 1 <= i < j + 1
        ensures var u := Vote(feed, subs[i], sample);
          u.drifts.Success? && !Majority(u.drifts.value, |sample|, fp)
      {
        assert subs[1..][i - 1] == subs[i];
      }
      assert FirstMajority(feed, fp, subs, sample, j + 1);
    } else {
      assert FirstMajority(feed, fp, subs, sample, 0);
    }
  }

  /**
   * A drift rebuilds the subspaces from the current sample: an update
   * that reports drift leaves `n_subspaces` subspaces of fresh detectors,
   * each over `ceil(n_features * feature_percentage)` distinct features
   * of that sample.
   */
  lemma DriftRebuilds(c: EdfsConfig, shuffle: Shuffle, feed: Feed, s: EdfsState, sample: Sample)
    requires Step(c, shuffle, feed, s, sample).drift == Success(true)
    ensures var t := Step(c, shuffle, feed, s, sample).state;
      && c.mode == Random
      && t.nFeatures == |sample|
      && |t.subspaces| == RangeLength(c.nSubspaces)
      && forall i :: 0 <= i < |t.subspaces| ==> WellFormed(t.subspaces[i], Keys(sample), t.perSpace)
  {
    var built := if |s.subspaces| == 0 then Reset(c, shuffle, s, sample) else Rebuilt(s, None);
    VotedRebuilds(c, shuffle, built.state, Detect(feed, c.featurePercentage, built.state.subspaces, sample), sample);
  }

  lemma VotedRebuilds(c: EdfsConfig, shuffle: Shuffle, s: EdfsState, d: Outcome<seq<Subspace>>, sample: Sample)
    requires Voted(c, shuffle, s, d, sample).drift == Success(true)
    ensures var t := Voted(c, shuffle, s, d, sample).state;
      && c.mode == Random
      && t.nFeatures == |sample|
      && |t.subspaces| == RangeLength(c.nSubspaces)
      && forall i :: 0 <= i < |t.subspaces| ==> WellFormed(t.subspaces[i], Keys(sample), t.perSpace)
  {
    ResetShape(c, shuffle, s.(subspaces := d.state), sample);
  }

  /**
   * The first update builds the subspaces: from a detector with no
   * subspaces, a random reset that `rng.choice` accepts is followed by the
   * vote over the subspaces it built.
   */
  lemma FirstUpdateBuilds(c: EdfsConfig, shuffle: Shuffle, feed: Feed, s: EdfsState, sample: Sample)
    requires |s.subspaces| == 0 && c.mode == Random
    requires var k := Ceil(|sample| as real * c.featurePercentage);
      c.nSubspaces <= 0 || 0 <= k <= |sample|
    ensures var built := Reset(c, shuffle, s, sample).state;
      var d := Detect(feed, c.featurePercentage, built.subspaces, sample);
      && (forall i :: 0 <= i < |built.subspaces| ==> WellFormed(built.subspaces[i], Keys(sample), built.perSpace))
      && Step(c, shuffle, feed, s, sample).drift == d.drift
  {
    ResetShape(c, shuffle, s, sample);
    var built := Reset(c, shuffle, s, sample).state;
    var d := Detect(feed, c.featurePercentage, built.subspaces, sample);
    ResetShape(c, shuffle, built.(subspaces := d.state), sample);
  }

  /**
   * Only random subspaces are ever built: in any other mode the detector
   * keeps no subspaces, so every update raises NotImplementedError or
   * ValueError.
   */
  lemma OtherModesRaise(c: EdfsConfig, shuffle: Shuffle, feed: Feed, s: EdfsState, sample: Sample)
    requires c.mode != Random && |s.subspaces| == 0
    ensures var o := Step(c, shuffle, feed, s, sample);
      && o.state.subspaces == []
      && o.drift == Failure(if c.mode == SubspaceSelection then NotImplemented else ValueError)
  {
  }

  // ---------------------------------------------------------------------
  // The detector object
  // ---------------------------------------------------------------------

  class EdfsDetector {
    const config: EdfsConfig
    const shuffle: Shuffle
    const feed: Feed
    var nFeatures: nat
    var perSpace: int
    var subspaces: seq<Subspace>
    var draws: nat

    function State(): EdfsState
      reads this
    {
      EdfsState(nFeatures, perSpace, subspaces, draws)
    }

    constructor (config: EdfsConfig, shuffle: Shuffle, test: Ks.KsTest)
      ensures State() == Fresh
      ensures this.config == config && this.shuffle == shuffle && feed == Feeder(KsOf(config), test)
    {
      this.config := config;
      this.shuffle := shuffle;
      feed := Feeder(KsOf(config), test);
      nFeatures, perSpace, subspaces, draws := 0, 0, [], 0;
    }

    /** `update(features)`. */
    method Update(features: Sample) returns (drift: Result<bool, DetectorError>)
      modifies this
      ensures Outcome(State(), drift) == Step(config, shuffle, feed, old(State()), features)
    {
      if |subspaces| == 0 {
        var raised := ResetSubspaces(features);
        if raised.Some? {
          return Failure(raised.value);
        }
      }
      ghost var built := State();
      drift := DetectDrift(features);
      assert State() == built.(subspaces := Detect(feed, config.featurePercentage, built.subspaces, features).state);
      if drift == Success(true) {
        var raised := ResetSubspaces(features);
        if raised.Some? {
          return Failure(raised.value);
        }
      }
    }

    /** `_detect_drift(features)`: the subspace loop, returning at the first majority. */
    method DetectDrift(features: Sample) returns (drift: Result<bool, DetectorError>)
      modifies this
      ensures State() == old(State()).(subspaces := subspaces)
      ensures Outcome(subspaces, drift) == Detect(feed, config.featurePercentage, old(subspaces), features)
    {
      var subs := subspaces;
      var j := 0;
      ghost var whole := Detect(feed, config.featurePercentage, subs, features);
      assert subs[j..] == subs;
      ResumedNone(whole);
      while j < |subs|
        invariant 0 <= j <= |subs|
        invariant unchanged(this)
        invariant whole == Resumed(subs[..j], Detect(feed, config.featurePercentage, subs[j..], features))
      {
        ghost var rest := subs[j..];
        ghost var done := subs[..j];
        assert rest[0] == subs[j] && rest[1..] == subs[j + 1..];
        ResumeStep(feed, config.featurePercentage, done, rest, features);
        var updated, votes := VoteSubspace(subs[j], features);
        subs := subs[j := updated];
        assert subs == done + [updated] + rest[1..];
        if votes.Failure? || Majority(votes.value, |features|, config.featurePercentage) {
          subspaces := subs;
          return if votes.Failure? then Failure(votes.error) else Success(true);
        }
        assert subs[..j + 1] == done + [updated] && subs[j + 1..] == rest[1..];
        j := j + 1;
      }
      assert subs[..j] == subs && subs[j..] == [] && subs + [] == subs;
      assert Detect(feed, config.featurePercentage, subs[j..], features) == Outcome([], Success(false));
      subspaces := subs;
      return Success(false);
    }

    /** The inner loop of `_detect_drift` over one subspace, on a copy of its detectors. */
    method VoteSubspace(sub: Subspace, features: Sample) returns (updated: Subspace, drifts: Result<nat, DetectorError>)
      ensures Tally(updated, drifts) == Vote(feed, sub, features)
    {
      var count := 0;
      updated := [];
      for i := 0 to |sub|
        invariant |updated| == i
        invariant Vote(feed, sub, features) == Joined(updated, count, Vote(feed, sub[i..], features))
      {
        assert sub[i..][0] == sub[i] && sub[i..][1..] == sub[i + 1..];
        TallyStep(feed, updated, count, sub[i..], features);
        var (name, detector) := sub[i];
        var x := Lookup(features, name);
        if x.None? {
          return updated + sub[i..], Failure(KeyError);
        }
        var o := feed(detector, x.value);
        if o.drift.Failure? {
          return updated + [(name, o.state)] + sub[i + 1..], Failure(o.drift.error);
        }
        updated := updated + [(name, o.state)];
        if o.drift.value {
          count := count + 1;
        }
      }
      assert sub[|sub|..] == [];
      drifts := Success(count);
    }

    /** `reset(sample)`; the exception, if any, is returned. */
    method ResetSubspaces(sample: Sample) returns (raised: Option<DetectorError>)
      modifies this
      ensures Rebuilt(State(), raised) == Reset(config, shuffle, old(State()), sample)
    {
      nFeatures := |sample|;
      perSpace := Ceil(|sample| as real * config.featurePercentage);
      match config.mode
      case Random =>
        if config.nSubspaces > 0 && !(0 <= perSpace <= |sample|) {
          return Some(ValueError);
        }
        subspaces := RandomSubspaces(config.nSubspaces, shuffle, Keys(sample), draws, perSpace);
        draws := draws + RangeLength(config.nSubspaces);
        return None;
      case SubspaceSelection =>
        return Some(NotImplemented);
      case Unsupported =>
        return Some(ValueError);
    }
  }

  /** The tally of a subspace whose first detectors `done` have been updated with `count` drifts. */
  function Joined(done: Subspace, count: nat, t: Tally): (r: Tally)
    ensures r.detectors == done + t.detectors
    ensures t.drifts.Failure? ==> r.drifts == t.drifts
    ensures t.drifts.Success? ==> r.drifts == Success(count + t.drifts.value)
  {
    Tally(done + t.detectors, if t.drifts.Failure? then t.drifts else Success(count + t.drifts.value))
  }

  /** One more detector of the inner loop, after the updated detectors `done` with `count` drifts. */
  lemma TallyStep(feed: Feed, done: Subspace, count: nat, rest: Subspace, sample: Sample)
    requires |rest| > 0
    ensures var r := Joined(done, count, Vote(feed, rest, sample));
      var x := Lookup(sample, rest[0].0);
      && (x.None? ==> r == Tally(done + rest, Failure(KeyError)))
      && (x.Some? && feed(rest[0].1, x.value).drift.Failure? ==>
            r == Tally(done + [(rest[0].0, feed(rest[0].1, x.value).state)] + rest[1..],
                       Failure(feed(rest[0].1, x.value).drift.error)))
      && (x.Some? && feed(rest[0].1, x.value).drift.Success? ==>
            r == Joined(done + [(rest[0].0, feed(rest[0].1, x.value).state)],
                        count + if feed(rest[0].1, x.value).drift.value then 1 else 0,
                        Vote(feed, rest[1..], sample)))
  {
    VoteFirst(feed, rest, sample);
    var x := Lookup(sample, rest[0].0);
    if x.Some? {
      var o := feed(rest[0].1, x.value);
      var first := [(rest[0].0, o.state)];
      if o.drift.Success? {
        JoinedTwice(done, count, first, if o.drift.value then 1 else 0, Vote(feed, rest[1..], sample));
      } else {
        assert done + (first + rest[1..]) == done + first + rest[1..];
      }
    }
  }

  /** Joining two updated stretches one after the other is joining their concatenation. */
  lemma JoinedTwice(a: Subspace, m: nat, b: Subspace, n: nat, t: Tally)
    ensures Joined(a, m, Joined(b, n, t)) == Joined(a + b, m + n, t)
  {
    assert a + (b + t.detectors) == (a + b) + t.detectors;
  }

  /** The outcome of a subspace loop whose first subspaces `done` have voted without a majority. */
  function Resumed(done: seq<Subspace>, o: Outcome<seq<Subspace>>): (r: Outcome<seq<Subspace>>)
    ensures r.state == done + o.state && r.drift == o.drift
  {
    Outcome(done + o.state, o.drift)
  }

  /** One more subspace's vote, resumed after the subspaces `done`. */
  lemma ResumeStep(feed: Feed, fp: real, done: seq<Subspace>, rest: seq<Subspace>, sample: Sample)
    requires |rest| > 0
    ensures var t := Vote(feed, rest[0], sample);
      var o := Resumed(done, Detect(feed, fp, rest, sample));
      && (t.drifts.Failure? ==> o == Outcome(done + [t.detectors] + rest[1..], Failure(t.drifts.error)))
      && (t.drifts.Success? && Majority(t.drifts.value, |sample|, fp) ==>
            o == Outcome(done + [t.detectors] + rest[1..], Success(true)))
      && (t.drifts.Success? && !Majority(t.drifts.value, |sample|, fp) ==>
            o == Resumed(done + [t.detectors], Detect(feed, fp, rest[1..], sample)))
  {
    var t := Vote(feed, rest[0], sample);
    DetectFirst(feed, fp, rest, sample);
    ResumedTwice(done, [t.detectors], Detect(feed, fp, rest[1..], sample));
    assert done + ([t.detectors] + rest[1..]) == done + [t.detectors] + rest[1..];
  }

  lemma ResumedNone(o: Outcome<seq<Subspace>>)
    ensures Resumed([], o) == o
  {
    assert [] + o.state == o.state;
  }

  lemma ResumedTwice(a: seq<Subspace>, b: seq<Subspace>, o: Outcome<seq<Subspace>>)
    ensures Resumed(a, Resumed(b, o)) == Resumed(a + b, o)
  {
    assert a + (b + o.state) == (a + b) + o.state;
  }
}
