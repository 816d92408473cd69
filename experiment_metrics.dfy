/**
 * The record of one experiment and the way it is filled: accuracy and
 * macro-F1 of four classifier runs (Hoeffding tree and naive Bayes, each
 * without and with drift detection), the lift-per-drift of each classifier,
 * and the four drift scores when the stream knows where its drifts are.
 */
module ExperimentMetrics {
  import opened Common
  import DriftMetrics
  import LiftPerDrift

  /** A dictionary value: Python's `None` or a float (possibly NaN or infinite). */
  datatype Cell = Null | Num(x: DriftMetrics.Float)

  /** `ExperimentResult`; the four drift fields default to `None`. */
  datatype ExperimentResult = ExperimentResult(
    accuracies: seq<real>,
    f1Scores: seq<real>,
    lpd: (real, real),
    mtfa: Cell,
    mtr: Cell,
    mtd: Cell,
    mdr: Cell)

  /** The exceptions the two functions can raise. */
  datatype MetricsFailure =
    | IndexError           // fewer than four accuracies or F1 scores
    | ZeroDivision         // the stream declares an empty list of drifts
    | InhomogeneousShape   // prediction rows of different lengths
    | LengthMismatch       // a scorer given a different number of true and predicted labels (ValueError)

  /** The ten keys `to_dict` always writes. */
  const ClassifierKeys: set<string> := {
    "lpd (ht)", "lpd (nb)",
    "acc (ht-no dd)", "acc (nb-no dd)", "acc (ht-dd)", "acc (nb-dd)",
    "f1 (ht-no dd)", "f1 (nb-no dd)", "f1 (ht-dd)", "f1 (nb-dd)"}

  /** The four keys written only on request. */
  const DriftKeys: set<string> := {"mtfa", "mtr", "mtd", "mdr"}

  function Number(x: real): Cell
  {
    Num(DriftMetrics.Finite(x))
  }

  /** The ten entries `to_dict` always writes; needs four accuracies and four F1 scores. */
  function ClassifierEntries(res: ExperimentResult): (m: map<string, Cell>)
    requires |res.accuracies| >= 4 && |res.f1Scores| >= 4
  {
    map[
      "lpd (ht)" := Number(res.lpd.0),
      "lpd (nb)" := Number(res.lpd.1),
      "acc (ht-no dd)" := Number(res.accuracies[0]),
      "acc (nb-no dd)" := Number(res.accuracies[1]),
      "acc (ht-dd)" := Number(res.accuracies[2]),
      "acc (nb-dd)" := Number(res.accuracies[3]),
      "f1 (ht-no dd)" := Number(res.f1Scores[0]),
      "f1 (nb-no dd)" := Number(res.f1Scores[1]),
      "f1 (ht-dd)" := Number(res.f1Scores[2]),
      "f1 (nb-dd)" := Number(res.f1Scores[3])]
  }

  /** The four entries written on request. */
  function DriftEntries(res: ExperimentResult): map<string, Cell>
  {
    map["mtfa" := res.mtfa, "mtr" := res.mtr, "mtd" := res.mtd, "mdr" := res.mdr]
  }

  /** `ExperimentResult.to_dict(include_drift_metrics)`. */
  function ToDict(res: ExperimentResult, includeDriftMetrics: bool): (r: Result<map<string, Cell>, MetricsFailure>)
    ensures r.Success? <==> |res.accuracies| >= 4 && |res.f1Scores| >= 4
    ensures r.Success? ==> r.value.Keys == ClassifierKeys + (if includeDriftMetrics then DriftKeys else {})
  {
    if |res.accuracies| < 4 || |res.f1Scores| < 4 then Failure(IndexError)
    else if includeDriftMetrics then Success(ClassifierEntries(res) + DriftEntries(res))
    else Success(ClassifierEntries(res))
  }

  /** The ten classifier entries hold lpd[0..1], accuracies[0..3] and f1_scores[0..3] in that order. */
  lemma ClassifierLookups(res: ExperimentResult)
    requires |res.accuracies| >= 4 && |res.f1Scores| >= 4
    ensures var c := ClassifierEntries(res);
      && c["lpd (ht)"] == Number(res.lpd.0) && c["lpd (nb)"] == Number(res.lpd.1)
      && c["acc (ht-no dd)"] == Number(res.accuracies[0])
      && c["acc (nb-no dd)"] == Number(res.accuracies[1])
      && c["acc (ht-dd)"] == Number(res.accuracies[2])
      && c["acc (nb-dd)"] == Number(res.accuracies[3])
      && c["f1 (ht-no dd)"] == Number(res.f1Scores[0])
      && c["f1 (nb-no dd)"] == Number(res.f1Scores[1])
      && c["f1 (ht-dd)"] == Number(res.f1Scores[2])
      && c["f1 (nb-dd)"] == Number(res.f1Scores[3])
  {
  }

  /**
   * The dictionary holds the classifier entries, and the drift entries
   * exactly when they are requested; the two key sets are disjoint, so
   * neither part overrides the other.
   */
  lemma ToDictEntries(res: ExperimentResult, includeDriftMetrics: bool)
    requires |res.accuracies| >= 4 && |res.f1Scores| >= 4
    ensures var d := ToDict(res, includeDriftMetrics).value;
      && (forall k :: k in ClassifierKeys ==> d[k] == ClassifierEntries(res)[k])
      && (includeDriftMetrics ==> forall k :: k in DriftKeys ==> d[k] == DriftEntries(res)[k])
  {
    assert ClassifierKeys !! DriftKeys;
  }

  /** The drift entries hold the record's four drift fields unchanged. */
  lemma DriftLookups(res: ExperimentResult)
    ensures var e := DriftEntries(res);
      e["mtfa"] == res.mtfa && e["mtr"] == res.mtr && e["mtd"] == res.mtd && e["mdr"] == res.mdr
  {
  }

  /** Including the drift keys only adds entries: the classifier entries agree. */
  lemma ToDictDriftKeysOnlyAdd(res: ExperimentResult)
    requires |res.accuracies| >= 4 && |res.f1Scores| >= 4
    ensures forall k :: k in ToDict(res, false).value ==>
      k in ToDict(res, true).value && ToDict(res, true).value[k] == ToDict(res, false).value[k]
  {
    assert ClassifierKeys !! DriftKeys;
  }

  // ---------------------------------------------------------------------
  // get_metrics
  // ---------------------------------------------------------------------

  /** Every prediction row has the same length (numpy refuses ragged rows). */
  predicate Rectangular(rows: seq<seq<int>>)
  {
    forall i :: 0 <= i < |rows| ==> |rows[i]| == |rows[0]|
  }

  /** Number of columns of the transposed prediction matrix. */
  function Width(rows: seq<seq<int>>): nat
  {
    if |rows| == 0 then 0 else |rows[0]|
  }

  /** Column `j` of the prediction matrix: one classifier run's predictions. */
  function Column(rows: seq<seq<int>>, j: nat): (c: seq<int>)
    requires Rectangular(rows) && j < Width(rows)
    ensures |c| == |rows|
    ensures forall i :: 0 <= i < |rows| ==> c[i] == rows[i][j]
  {
    seq(|rows|, i requires 0 <= i < |rows| => rows[i][j])
  }

  /** Python's None, or a NaN/float drift score, as stored in the record. */
  function FromOption(x: Option<real>): Cell
  {
    if x.Some? then Number(x.value) else Num(DriftMetrics.NaN)
  }

  /**
   * The loop over prediction columns: one accuracy and one macro-F1 score
   * per column, in column order. `accuracy` and `f1` are the scikit-learn
   * scorers; both first check that they were given as many predictions as
   * true labels, so the first column raises ValueError when the counts differ.
   */
  method ScoreColumns(
    rows: seq<seq<int>>, trueLabels: seq<int>,
    accuracy: (seq<int>, seq<int>) -> real, f1: (seq<int>, seq<int>) -> real)
    returns (r: Result<(seq<real>, seq<real>), MetricsFailure>)
    requires Rectangular(rows)
    ensures r.Failure? <==> Width(rows) > 0 && |trueLabels| != |rows|
    ensures r.Failure? ==> r.error == LengthMismatch
    ensures r.Success? ==>
      var (accuracies, f1Scores) := r.value;
      && |accuracies| == |f1Scores| == Width(rows)
      && forall j :: 0 <= j < Width(rows) ==>
           accuracies[j] == accuracy(trueLabels, Column(rows, j)) && f1Scores[j] == f1(trueLabels, Column(rows, j))
  {
    var accuracies := [];
    var f1Scores := [];
    for j := 0 to Width(rows)
      invariant |accuracies| == |f1Scores| == j
      invariant j > 0 ==> |trueLabels| == |rows|
      invariant forall k :: 0 <= k < j ==>
        accuracies[k] == accuracy(trueLabels, Column(rows, k)) && f1Scores[k] == f1(trueLabels, Column(rows, k))
    {
      var predictions := Column(rows, j);
      if |trueLabels| != |predictions| {
        return Failure(LengthMismatch);
      }
      f1Scores := f1Scores + [f1(trueLabels, predictions)];
      accuracies := accuracies + [accuracy(trueLabels, predictions)];
    }
    return Success((accuracies, f1Scores));
  }

  /** Lift-per-drift with the default cost ratio 1, which never divides by zero. */
  function LpdDefault(base: real, assisted: real, nDrifts: nat): (r: real)
    ensures nDrifts == 0 ==> r == 0.0
    ensures LiftPerDrift.Lpd(base, assisted, nDrifts, 1.0) == Success(r)
  {
    LiftPerDrift.Lpd(base, assisted, nDrifts, 1.0).value
  }

  /**
   * `get_metrics(stream, predicted_drifts, true_labels, predicted_labels)`.
   * `streamDrifts` is `Some(stream.drifts)` when the stream has that
   * attribute and `None` otherwise.
   */
  method GetMetrics(
    streamDrifts: Option<seq<real>>, predictedDrifts: seq<real>,
    trueLabels: seq<int>, predictedLabels: seq<seq<int>>,
    accuracy: (seq<int>, seq<int>) -> real, f1: (seq<int>, seq<int>) -> real)
    returns (r: Result<ExperimentResult, MetricsFailure>)
    // the drift metrics come first, so an empty drift list raises before anything else
    ensures streamDrifts.Some? && |streamDrifts.value| == 0 ==> r == Failure(ZeroDivision)
    // the first column's scorer rejects labels of another length before any accuracy is indexed
    ensures ((streamDrifts.None? || |streamDrifts.value| > 0) && Rectangular(predictedLabels)
             && Width(predictedLabels) > 0 && |trueLabels| != |predictedLabels|)
      ==> r == Failure(LengthMismatch)
    ensures r.Success? <==>
      (streamDrifts.None? || |streamDrifts.value| > 0) && Rectangular(predictedLabels) && Width(predictedLabels) >= 4
      && |trueLabels| == |predictedLabels|
    // one accuracy and one F1 score per prediction column
    ensures r.Success? ==>
      && |r.value.accuracies| == |r.value.f1Scores| == Width(predictedLabels)
      && forall j :: 0 <= j < Width(predictedLabels) ==>
           r.value.accuracies[j] == accuracy(trueLabels, Column(predictedLabels, j))
           && r.value.f1Scores[j] == f1(trueLabels, Column(predictedLabels, j))
    // Hoeffding tree: runs 0 and 2; naive Bayes: runs 1 and 3; both over all detections
    ensures r.Success? ==>
      r.value.lpd == (LpdDefault(r.value.accuracies[0], r.value.accuracies[2], |predictedDrifts|),
                      LpdDefault(r.value.accuracies[1], r.value.accuracies[3], |predictedDrifts|))
    // drift scores only for a stream that knows its drifts
    ensures r.Success? && streamDrifts.None? ==>
      r.value.mtfa == Null && r.value.mtr == Null && r.value.mtd == Null && r.value.mdr == Null
    ensures r.Success? && streamDrifts.Some? ==>
      var m := DriftMetrics.Metrics(streamDrifts.value, predictedDrifts).value;
      r.value.mtfa == FromOption(m.mtfa) && r.value.mtr == Num(m.mtr)
      && r.value.mtd == FromOption(m.mtd) && r.value.mdr == Number(m.mdr)
  {
    var mtfa, mtr, mtd, mdr := Null, Null, Null, Null;
    if streamDrifts.Some? {
      var driftMetrics := DriftMetrics.CalculateDriftMetrics(streamDrifts.value, predictedDrifts);
      if driftMetrics.Failure? {
        return Failure(ZeroDivision);
      }
      var m := driftMetrics.value;
      mtfa, mtr, mtd, mdr := FromOption(m.mtfa), Num(m.mtr), FromOption(m.mtd), Number(m.mdr);
    }
    if !Rectangular(predictedLabels) {
      return Failure(InhomogeneousShape);
    }
    var scores := ScoreColumns(predictedLabels, trueLabels, accuracy, f1);
    if scores.Failure? {
      return Failure(scores.error);
    }
    var (accuracies, f1Scores) := scores.value;
    if |accuracies| < 4 {
      return Failure(IndexError);
    }
    var lpdHoeffdingTree := LpdDefault(accuracies[0], accuracies[2], |predictedDrifts|);
    var lpdGaussianNb := LpdDefault(accuracies[1], accuracies[3], |predictedDrifts|);
    r := Success(ExperimentResult(accuracies, f1Scores, (lpdHoeffdingTree, lpdGaussianNb), mtfa, mtr, mtd, mdr));
  }
}
