/** The model comparison of `compare_models`: the Top-N% capture rate of a
    ranking, the per-model evaluation record, and the comparison of two
    candidates on one shared train/test split. */
module Capture {
  import opened Wrappers
  import opened Table
  import opened Ranking
  import Features
  import Inference

  /** One held-out record: its true label and its predicted probability. */
  datatype Scored = Scored(converted: bool, proba: real)

  function Proba(s: Scored): real {
    s.proba
  }

  /** How many records are positive. */
  function Positives(s: seq<Scored>): (r: nat)
    ensures r <= |s|
  {
    if |s| == 0 then 0 else (if s[0].converted then 1 else 0) + Positives(s[1..])
  }

  /** The percentiles the evaluation reports. */
  const Percentiles: seq<nat> := [1, 5, 10, 20]

  /** `int(n * (percentile / 100))`. Python takes `percentile / 100` as a
      float; for the percentiles used here (1, 5, 10, 20) and for 100 the
      float product truncates to this exact quotient, but not for every
      percentile (for n = 100 and 29 it gives 28). */
  function CutOff(n: nat, percentile: nat): nat {
    n * percentile / 100
  }

  /** `head(k)`: the first `k` records, or all of them when there are fewer. */
  function Head(ranked: seq<Scored>, k: nat): (top: seq<Scored>)
    ensures |top| == if k < |ranked| then k else |ranked|
    ensures top == ranked[..|top|]
  {
    if k < |ranked| then ranked[..k] else ranked
  }

  lemma {:induction false} PositivesAppend(a: seq<Scored>, b: seq<Scored>)
    ensures Positives(a + b) == Positives(a) + Positives(b)
  {
    if |a| > 0 {
      PositivesAppend(a[1..], b);
      assert (a + b)[0] == a[0];
      assert (a + b)[1..] == a[1..] + b;
    } else {
      assert a + b == b;
    }
  }

  /** A longer prefix holds at least as many positives, and no prefix more
      than the whole. */
  lemma PositivesOfPrefix(s: seq<Scored>, j: nat, k: nat)
    requires j <= k <= |s|
    ensures Positives(s[..j]) <= Positives(s[..k]) <= Positives(s)
  {
    assert s[..k] == s[..j] + s[j..k];
    PositivesAppend(s[..j], s[j..k]);
    assert s == s[..k] + s[k..];
    PositivesAppend(s[..k], s[k..]);
  }

  /** Rearranging records does not change how many are positive. */
  lemma {:induction false} PositivesPermutation(a: seq<Scored>, b: seq<Scored>)
    requires multiset(a) == multiset(b)
    ensures Positives(a) == Positives(b)
    decreases |a|
  {
    if |a| == 0 {
      assert |b| == |multiset(b)| == 0;
    } else {
      assert a[0] in multiset(b);
      var j :| 0 <= j < |b| && b[j] == a[0];
      var rest := b[..j] + b[j + 1..];
      assert b == b[..j] + ([b[j]] + b[j + 1..]);
      assert a == [a[0]] + a[1..];
      calc {
        multiset(a[1..]) + multiset{a[0]};
        multiset(a);
        multiset(b);
        multiset(b[..j]) + multiset([b[j]] + b[j + 1..]);
        multiset(b[..j]) + multiset{b[j]} + multiset(b[j + 1..]);
        multiset(rest) + multiset{a[0]};
      }
      assert multiset(a[1..]) == multiset(a[1..]) + multiset{a[0]} - multiset{a[0]};
      assert multiset(rest) == multiset(rest) + multiset{a[0]} - multiset{a[0]};
      PositivesPermutation(a[1..], rest);
      PositivesAppend(b[..j], b[j + 1..]);
      PositivesAppend(b[..j], [b[j]] + b[j + 1..]);
      PositivesAppend([b[j]], b[j + 1..]);
    }
  }

  /** `get_capture_rate` on the records as `sort_values` arranged them: the
      positives among the first ⌊n·percentile/100⌋ over all positives, or 0
      when there is no positive; so always between 0 and 1, and 1 when the
      whole list is taken. */
  function CaptureRate(ranked: seq<Scored>, percentile: nat): (r: real)
    ensures 0.0 <= r <= 1.0
    ensures Positives(ranked) == 0 ==> r == 0.0
    ensures percentile >= 100 && Positives(ranked) > 0 ==> r == 1.0
  {
    var top := Head(ranked, CutOff(|ranked|, percentile));
    var total := Positives(ranked);
    PositivesOfPrefix(ranked, |top|, |top|);
    CutOffAtLeast(|ranked|, percentile);
    Fraction(Positives(top), total);
    if total > 0 then Positives(top) as real / total as real else 0.0
  }

  /** From percentile 100 on, the cut-off takes every record. */
  lemma CutOffAtLeast(n: nat, percentile: nat)
    ensures percentile >= 100 ==> CutOff(n, percentile) >= n
  {
    if percentile >= 100 {
      assert n * percentile >= n * 100;
    }
  }

  /** A larger percentile never gives a smaller cut-off. */
  lemma CutOffMonotone(n: nat, p: nat, q: nat)
    requires p <= q
    ensures CutOff(n, p) <= CutOff(n, q)
  {
    assert n * p <= n * q;
  }

  /** A part over a positive whole lies between 0 and 1, and is 1 exactly
      when the part is the whole. */
  lemma Fraction(part: nat, whole: nat)
    requires part <= whole
    ensures whole > 0 ==> 0.0 <= part as real / whole as real <= 1.0
    ensures whole > 0 && part == whole ==> part as real / whole as real == 1.0
  {
  }

  /** Over the same positive whole, a larger part is a larger fraction. */
  lemma FractionMonotone(a: nat, b: nat, whole: nat)
    requires a <= b && whole > 0
    ensures a as real / whole as real <= b as real / whole as real
  {
  }

  /** For a fixed order, a larger percentile never captures less. */
  lemma CaptureRateMonotone(ranked: seq<Scored>, p: nat, q: nat)
    requires p <= q
    ensures CaptureRate(ranked, p) <= CaptureRate(ranked, q)
  {
    var n := |ranked|;
    CutOffMonotone(n, p, q);
    var kp := |Head(ranked, CutOff(n, p))|;
    var kq := |Head(ranked, CutOff(n, q))|;
    PositivesOfPrefix(ranked, kp, kq);
    var total := Positives(ranked);
    if total > 0 {
      FractionMonotone(Positives(ranked[..kp]), Positives(ranked[..kq]), total);
    }
  }

  /** Every positive record is ranked above every negative one. */
  predicate PositivesFirst(ranked: seq<Scored>) {
    forall i, j :: 0 <= i < j < |ranked| && ranked[j].converted ==> ranked[i].converted
  }

  /** When the ranking puts every positive above every negative and the
      cut-off is at least the number of positives, the rate is 1 (the
      scenario of 100 rows with all 20 positives ranked in the top 20). */
  lemma AllPositivesCaptured(ranked: seq<Scored>, percentile: nat)
    requires Positives(ranked) > 0
    requires PositivesFirst(ranked)
    requires CutOff(|ranked|, percentile) >= Positives(ranked)
    ensures CaptureRate(ranked, percentile) == 1.0
  {
    PrefixHoldsAllPositives(ranked, |Head(ranked, CutOff(|ranked|, percentile))|);
    Fraction(Positives(ranked), Positives(ranked));
  }

  /** With positives ranked first, any prefix at least as long as the
      number of positives holds all of them. */
  lemma PrefixHoldsAllPositives(ranked: seq<Scored>, k: nat)
    requires PositivesFirst(ranked)
    requires Positives(ranked) <= k <= |ranked|
    ensures Positives(ranked[..k]) == Positives(ranked)
  {
    forall j | k <= j < |ranked| ensures !ranked[j].converted {
      if ranked[j].converted {
        PositiveOutranks(ranked, j);
      }
    }
    PositivesNoneTrue(ranked[k..]);
    assert ranked == ranked[..k] + ranked[k..];
    PositivesAppend(ranked[..k], ranked[k..]);
  }

  /** With positives ranked first, a positive at index `j` has `j`
      positives above it. */
  lemma PositiveOutranks(ranked: seq<Scored>, j: nat)
    requires PositivesFirst(ranked) && j < |ranked| && ranked[j].converted
    ensures Positives(ranked) >= j + 1
  {
    PositivesAllTrue(ranked[..j + 1]);
    PositivesOfPrefix(ranked, j + 1, |ranked|);
  }

  /** A list of positives counts all its records. */
  lemma {:induction false} PositivesAllTrue(s: seq<Scored>)
    requires forall i :: 0 <= i < |s| ==> s[i].converted
    ensures Positives(s) == |s|
  {
    if |s| > 0 {
      PositivesAllTrue(s[1..]);
    }
  }

  /** A list of negatives counts none. */
  lemma {:induction false} PositivesNoneTrue(s: seq<Scored>)
    requires forall i :: 0 <= i < |s| ==> !s[i].converted
    ensures Positives(s) == 0
  {
    if |s| > 0 {
      PositivesNoneTrue(s[1..]);
    }
  }

  /** The table `get_capture_rate` builds: label and probability side by side. */
  function Records(yTrue: seq<bool>, probas: seq<real>): (r: seq<Scored>)
    requires |yTrue| == |probas|
    ensures |r| == |yTrue|
    ensures forall i :: 0 <= i < |r| ==> r[i] == Scored(yTrue[i], probas[i])
  {
    seq(|yTrue|, i requires 0 <= i < |yTrue| => Scored(yTrue[i], probas[i]))
  }

  /** pandas' `sort_values('proba', ascending=False)` is a quicksort, so it
      may return any non-increasing arrangement: `sortValues` stands for
      it and is required to return one for the table at hand. */
  predicate SortsDescending(sortValues: seq<Scored> -> seq<Scored>, table: seq<Scored>) {
    IsRanking(table, sortValues(table), Proba)
  }

  /** The records `get_capture_rate` counts: the first k of the sorted
      table. They are records of the table, and none has a lower
      probability than a record left out, whatever order ties were put in. */
  function TopRecords(yTrue: seq<bool>, probas: seq<real>, percentile: nat,
                      sortValues: seq<Scored> -> seq<Scored>): (top: seq<Scored>)
    requires |yTrue| == |probas|
    requires SortsDescending(sortValues, Records(yTrue, probas))
    ensures |top| == if CutOff(|yTrue|, percentile) < |yTrue| then CutOff(|yTrue|, percentile) else |yTrue|
    ensures multiset(top) <= multiset(Records(yTrue, probas))
    ensures forall x, y :: x in top && y in multiset(Records(yTrue, probas)) - multiset(top) ==>
                           x.proba >= y.proba
  {
    var table := Records(yTrue, probas);
    var ranked := sortValues(table);
    var top := Head(ranked, CutOff(|ranked|, percentile));
    TopOfRanking(table, ranked, |top|, Proba);
    forall x, y | x in top && y in multiset(table) - multiset(top) ensures x.proba >= y.proba {
      assert Proba(x) >= Proba(y);
    }
    top
  }

  /** `get_capture_rate(y_true, probas, percentile)`: between 0 and 1; 0
      whenever the held-out labels hold no positive; 1 at percentile 100
      when they hold one; the positives among `TopRecords` over all. */
  function GetCaptureRate(yTrue: seq<bool>, probas: seq<real>, percentile: nat,
                          sortValues: seq<Scored> -> seq<Scored>): (r: real)
    requires |yTrue| == |probas|
    requires SortsDescending(sortValues, Records(yTrue, probas))
    ensures 0.0 <= r <= 1.0
    ensures (forall i :: 0 <= i < |yTrue| ==> !yTrue[i]) ==> r == 0.0
    ensures percentile >= 100 && (exists i :: 0 <= i < |yTrue| && yTrue[i]) ==> r == 1.0
    ensures Positives(Records(yTrue, probas)) > 0 ==>
              r == Positives(TopRecords(yTrue, probas, percentile, sortValues)) as real
                   / Positives(Records(yTrue, probas)) as real
  {
    var table := Records(yTrue, probas);
    var ranked := sortValues(table);
    PositivesPermutation(ranked, table);
    LabelsCount(yTrue, probas);
    CaptureRate(ranked, percentile)
  }

  /** The positives of the table are the true labels. */
  lemma {:induction false} LabelsCount(yTrue: seq<bool>, probas: seq<real>)
    requires |yTrue| == |probas|
    ensures Positives(Records(yTrue, probas)) == 0 <==> forall i :: 0 <= i < |yTrue| ==> !yTrue[i]
  {
    if |yTrue| > 0 {
      LabelsCount(yTrue[1..], probas[1..]);
      assert Records(yTrue, probas)[1..] == Records(yTrue[1..], probas[1..]);
      if !yTrue[0] {
        forall i | 0 <= i < |yTrue| && i > 0 ensures yTrue[i] == yTrue[1..][i - 1] {}
      }
    }
  }

  /** The stable descending sort is one arrangement `sort_values` may
      return; with it, tied records are taken in table order. */
  lemma StableSortIsAllowed(table: seq<Scored>)
    ensures SortsDescending(s => SortDesc(s, Proba), table)
  {
    SortDescCorrect(table, Proba);
  }

  /** The classification metrics sklearn computes. */
  datatype Metrics = Metrics(accuracy: real, precision: real, recall: real, f1: real, rocAuc: real)

  /** A fitted candidate's held-out output: `predict` and the positive
      column of `predict_proba`. */
  datatype Prediction = Prediction(labels: seq<bool>, probas: seq<real>)

  /** The train/test split `train_test_split(X, y, test_size=0.2,
      random_state=42)` returns. */
  datatype Split = Split(xTrain: Frame, yTrain: seq<bool>, xTest: Frame, yTest: seq<bool>)

  /** The result dictionary of `evaluate_model`, timings left out. */
  datatype EvaluationRun = EvaluationRun(
    name: string, metrics: Metrics,
    capture1: real, capture5: real, capture10: real, capture20: real)

  /** A prediction that fits the held-out labels of the split. */
  predicate FitsSplit(p: Prediction, split: Split) {
    |p.probas| == |split.yTest| && |p.labels| == |split.yTest|
  }

  /** `roc_auc_score` raises a ValueError when the true labels hold one class
      only: whatever else `metrics` does, it fails then. */
  ghost predicate NeedsBothClasses(metrics: (seq<bool>, seq<bool>, seq<real>) -> Result<Metrics, string>) {
    forall yTrue, yPred, probas :: metrics(yTrue, yPred, probas).Success? ==> true in yTrue && false in yTrue
  }

  /** `evaluate_model`. `fitted` is what `fit` and then `predict` and
      `predict_proba` on the held-out features gave, or the exception one of
      them raised; `metrics` is the five sklearn scores, or the exception
      they raised. The time per held-out record divides by `len(X_test)`,
      and the capture rates are taken before the scores. */
  function EvaluateModel(name: string, fitted: Result<Prediction, string>, split: Split,
                         sortValues: seq<Scored> -> seq<Scored>,
                         metrics: (seq<bool>, seq<bool>, seq<real>) -> Result<Metrics, string>): (run: Result<EvaluationRun, string>)
    requires fitted.Success? ==> FitsSplit(fitted.value, split)
    requires fitted.Success? ==> SortsDescending(sortValues, Records(split.yTest, fitted.value.probas))
    ensures fitted.Failure? ==> run == Failure(fitted.error)
    ensures run.Success? <==>
              && fitted.Success?
              && |split.xTest.rows| > 0
              && metrics(split.yTest, fitted.value.labels, fitted.value.probas).Success?
    ensures NeedsBothClasses(metrics) && run.Success? ==> true in split.yTest && false in split.yTest
    ensures run.Success? ==>
              var p := fitted.value;
              && run.value.name == name
              && run.value.metrics == metrics(split.yTest, p.labels, p.probas).value
              && run.value.capture1 == GetCaptureRate(split.yTest, p.probas, 1, sortValues)
              && run.value.capture5 == GetCaptureRate(split.yTest, p.probas, 5, sortValues)
              && run.value.capture10 == GetCaptureRate(split.yTest, p.probas, 10, sortValues)
              && run.value.capture20 == GetCaptureRate(split.yTest, p.probas, 20, sortValues)
              && run.value.capture1 <= run.value.capture5 <= run.value.capture10 <= run.value.capture20
  {
    match fitted
    case Failure(e) => Failure(e)
    case Success(p) =>
      if |split.xTest.rows| == 0 then Failure("float division by zero")
      else
        var table := Records(split.yTest, p.probas);
        var ranked := sortValues(table);
        PositivesPermutation(ranked, table);
        CaptureRateMonotone(ranked, 1, 5);
        CaptureRateMonotone(ranked, 5, 10);
        CaptureRateMonotone(ranked, 10, 20);
        var capture1 := GetCaptureRate(split.yTest, p.probas, 1, sortValues);
        var capture5 := GetCaptureRate(split.yTest, p.probas, 5, sortValues);
        var capture10 := GetCaptureRate(split.yTest, p.probas, 10, sortValues);
        var capture20 := GetCaptureRate(split.yTest, p.probas, 20, sortValues);
        match metrics(split.yTest, p.labels, p.probas)
        case Failure(e) => Failure(e)
        case Success(m) => Success(EvaluationRun(name, m, capture1, capture5, capture10, capture20))
  }

  /** The columns `compare_models` selects, and its preprocessor's split of
      them into numeric and categorical. */
  const ComparisonFeatures: seq<string> := [
    Inference.LeadOriginColumn, Inference.LeadSourceColumn, Features.TotalTimeColumn,
    Features.LastActivityColumn, Features.TagsColumn
  ]
  const PreprocessorNumeric: seq<string> := [Features.TotalTimeColumn]
  const PreprocessorCategorical: seq<string> := [
    Inference.LeadOriginColumn, Inference.LeadSourceColumn, Features.LastActivityColumn, Features.TagsColumn
  ]

  /** `get_preprocessor`'s numeric and categorical lists cover the selected
      features exactly, each once. */
  lemma ComparisonPreprocessorCoversFeatures()
    ensures multiset(PreprocessorNumeric + PreprocessorCategorical) == multiset(ComparisonFeatures)
  {
    calc {
      multiset(ComparisonFeatures);
      multiset{Inference.LeadOriginColumn, Inference.LeadSourceColumn, Features.TotalTimeColumn,
               Features.LastActivityColumn, Features.TagsColumn};
      multiset(PreprocessorNumeric + PreprocessorCategorical);
    }
  }

  /** The start of `main` of `compare_models`: load, select the features
      (a missing one raises first), select the target, and split once. */
  function SplitOf(data: Result<Frame, string>,
                   splitter: (Frame, seq<Cell>) -> Result<Split, string>): (r: Result<Split, string>)
    requires data.Success? ==> WellFormed(data.value)
    ensures data.Failure? ==> r == Failure(data.error)
    ensures data.Success? && Inference.Select(data.value, ComparisonFeatures).Failure? ==>
              r == Failure(Inference.Select(data.value, ComparisonFeatures).error)
    ensures (&& data.Success?
             && Inference.Select(data.value, ComparisonFeatures).Success?
             && Inference.TargetColumn !in data.value.columns) ==> r == Failure(Inference.TargetColumn)
    ensures r.Success? ==>
              && data.Success?
              && Inference.TargetColumn in data.value.columns
              && Inference.Select(data.value, ComparisonFeatures).Success?
              && r == splitter(Inference.Select(data.value, ComparisonFeatures).value,
                               Column(data.value, Inference.TargetColumn))
  {
    match data
    case Failure(e) => Failure(e)
    case Success(df) =>
      match Inference.Select(df, ComparisonFeatures)
      case Failure(e) => Failure(e)
      case Success(x) =>
        if Inference.TargetColumn !in df.columns then Failure(Inference.TargetColumn)
        else splitter(x, Column(df, Inference.TargetColumn))
  }

  /** `main` of `compare_models`: split once, then evaluate the random forest
      and then LightGBM on that same split; the first exception ends it. */
  function CompareModels(data: Result<Frame, string>,
                         splitter: (Frame, seq<Cell>) -> Result<Split, string>,
                         randomForest: Split -> Result<Prediction, string>,
                         lightGbm: Split -> Result<Prediction, string>,
                         sortValues: seq<Scored> -> seq<Scored>,
                         metrics: (seq<bool>, seq<bool>, seq<real>) -> Result<Metrics, string>): (r: Result<seq<EvaluationRun>, string>)
    requires data.Success? ==> WellFormed(data.value)
    requires forall table :: SortsDescending(sortValues, table)
    requires forall s :: randomForest(s).Success? ==> FitsSplit(randomForest(s).value, s)
    requires forall s :: lightGbm(s).Success? ==> FitsSplit(lightGbm(s).value, s)
    ensures data.Failure? ==> r == Failure(data.error)
    ensures SplitOf(data, splitter).Failure? ==> r == Failure(SplitOf(data, splitter).error)
    ensures SplitOf(data, splitter).Success? ==>
              var split := SplitOf(data, splitter).value;
              var forest := EvaluateModel("Random Forest", randomForest(split), split, sortValues, metrics);
              var boosted := EvaluateModel("LightGBM", lightGbm(split), split, sortValues, metrics);
              && (forest.Failure? ==> r == Failure(forest.error))
              && (forest.Success? && boosted.Failure? ==> r == Failure(boosted.error))
              && (r.Success? <==> forest.Success? && boosted.Success?)
              && (r.Success? ==> r.value == [forest.value, boosted.value])
    ensures NeedsBothClasses(metrics) && r.Success? ==>
              var split := SplitOf(data, splitter).value;
              true in split.yTest && false in split.yTest
  {
    match SplitOf(data, splitter)
    case Failure(e) => Failure(e)
    case Success(split) =>
      match EvaluateModel("Random Forest", randomForest(split), split, sortValues, metrics)
      case Failure(e) => Failure(e)
      case Success(forest) =>
        match EvaluateModel("LightGBM", lightGbm(split), split, sortValues, metrics)
        case Failure(e) => Failure(e)
        case Success(boosted) => Success([forest, boosted])
  }

  /** `df[name]` for a column the frame has. */
  function Column(f: Frame, name: string): (r: seq<Cell>)
    requires WellFormed(f) && name in f.columns
    ensures |r| == |f.rows|
    ensures forall i :: 0 <= i < |f.rows| ==> r[i] == f.rows[i][name]
  {
    seq(|f.rows|, i requires 0 <= i < |f.rows| => f.rows[i][name])
  }
}
