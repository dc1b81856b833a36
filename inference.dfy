/** The inference service of `ml_service`: the process-wide fitted pipeline
    (`current_model`), training that replaces it, lazy training on first
    use, single-lead probabilities, and the scored lead sample. */
module Inference {
  import opened Wrappers
  import opened Table
  import Features
  import Importance

  /** What fitting the pipeline yields: the fitted pipeline, its held-out
      accuracy, the classifier's raw `feature_importances_` and the names of
      the encoder's one-hot columns. */
  datatype Fit<M> = Fit(model: M, accuracy: real, importances: seq<real>, onehotColumns: seq<string>)

  /** The dictionary `train_model` returns. */
  datatype TrainReport = TrainReport(accuracy: real, featureImportance: seq<Importance.Entry>)

  const LeadOriginColumn: string := "Lead Origin"
  const LeadSourceColumn: string := "Lead Source"
  const TargetColumn: string := "Converted"
  const ProbabilityColumn: string := "ConvertedProbability"

  /** The feature columns the pipeline is trained on, in declared order. */
  const TrainingFeatures: seq<string> := [
    LeadOriginColumn, LeadSourceColumn, Features.TotalTimeColumn,
    Features.LastActivityColumn, Features.TagsColumn,
    Features.HighIntentColumn, Features.ActivityScoreColumn, Features.InteractionColumn
  ]

  /** The columns `get_leads_data` passes to the model. */
  const ModelInputColumns: set<string> := {
    LeadOriginColumn, LeadSourceColumn, Features.TotalTimeColumn,
    Features.LastActivityColumn, Features.TagsColumn
  }

  const DefaultTestSize: real := 0.2
  const DefaultRandomState: int := 42

  /** How many leads `get_leads_data` samples. */
  const SampleSize: nat := 50

  /** The numeric and categorical columns of the training pipeline cover
      the selected features exactly, each once. */
  lemma PreprocessorCoversFeatures()
    ensures multiset(Importance.NumericFeatures + Importance.CategoricalFeatures) == multiset(TrainingFeatures)
  {
    var origin := [LeadOriginColumn, LeadSourceColumn];
    var time := [Features.TotalTimeColumn];
    var activity := [Features.LastActivityColumn, Features.TagsColumn];
    var engineered := [Features.HighIntentColumn, Features.ActivityScoreColumn, Features.InteractionColumn];
    assert TrainingFeatures == origin + time + activity + engineered;
    assert Importance.NumericFeatures + Importance.CategoricalFeatures == (time + engineered) + (origin + activity);
    Regrouped(origin, time, activity, engineered);
  }

  /** Regrouping four runs of items keeps the same items. */
  lemma Regrouped<T>(p: seq<T>, q: seq<T>, r: seq<T>, s: seq<T>)
    ensures multiset((q + s) + (p + r)) == multiset(p + q + r + s)
  {
    assert multiset((q + s) + (p + r)) == multiset(q) + multiset(s) + multiset(p) + multiset(r);
    assert multiset(p + q + r + s) == multiset(p) + multiset(q) + multiset(r) + multiset(s);
  }

  /** The first of `cols` that the frame lacks. */
  function FirstMissing(columns: set<string>, cols: seq<string>): (r: Option<string>)
    ensures r.None? <==> forall i :: 0 <= i < |cols| ==> cols[i] in columns
    ensures r.Some? ==> r.value in cols && r.value !in columns
  {
    if |cols| == 0 then None
    else if cols[0] !in columns then Some(cols[0])
    else FirstMissing(columns, cols[1..])
  }

  /** `df[cols]`: the frame restricted to `cols`, or `KeyError` naming a
      column it lacks. */
  function Select(f: Frame, cols: seq<string>): (r: Result<Frame, string>)
    requires WellFormed(f)
    ensures r.Failure? <==> exists i :: 0 <= i < |cols| && cols[i] !in f.columns
    ensures r.Success? ==> && WellFormed(r.value)
                           && r.value.columns == (set i | 0 <= i < |cols| :: cols[i])
                           && |r.value.rows| == |f.rows|
                           && forall i, k :: 0 <= i < |f.rows| && k in r.value.rows[i] ==>
                                               r.value.rows[i][k] == f.rows[i][k]
  {
    match FirstMissing(f.columns, cols)
    case Some(c) => Failure(c)
    case None =>
      var keep := set i | 0 <= i < |cols| :: cols[i];
      Success(Frame(keep, seq(|f.rows|, i requires 0 <= i < |f.rows| => map k | k in keep :: f.rows[i][k])))
  }

  /** `df.fillna('')` on one record. */
  function FillBlank(row: Row): (r: Row)
    ensures r.Keys == row.Keys
    ensures forall k :: k in row ==> r[k] == FillMissing(row[k], Text(""))
  {
    map k | k in row :: FillMissing(row[k], Text(""))
  }

  /** The `input_data` dictionary of `get_leads_data`: the five model
      columns read with `get` (None when absent), an empty time becoming 0. */
  function ModelInput(record: Row): (r: Row)
    ensures r.Keys == ModelInputColumns
    ensures forall k :: k in ModelInputColumns && k != Features.TotalTimeColumn ==> r[k] == Get(record, k, Null)
    ensures r[Features.TotalTimeColumn] ==
              if Get(record, Features.TotalTimeColumn, Null) == Text("") then Number(0.0)
              else Get(record, Features.TotalTimeColumn, Null)
  {
    var time := Get(record, Features.TotalTimeColumn, Null);
    map[LeadOriginColumn := Get(record, LeadOriginColumn, Null),
        LeadSourceColumn := Get(record, LeadSourceColumn, Null),
        Features.TotalTimeColumn := if time == Text("") then Number(0.0) else time,
        Features.LastActivityColumn := Get(record, Features.LastActivityColumn, Null),
        Features.TagsColumn := Get(record, Features.TagsColumn, Null)]
  }

  /** A lead whose total time is blank in the displayed frame reaches the
      model with time 0, so its interaction term is 0. */
  lemma BlankTimeScoredAsZero(record: Row, parse: string -> Option<real>)
    requires Get(record, Features.TotalTimeColumn, Null) == Text("")
    ensures Features.EngineerRow(ModelInput(record), parse)[Features.TotalTimeColumn] == Number(0.0)
    ensures Features.EngineerRow(ModelInput(record), parse)[Features.InteractionColumn] == Number(0.0)
  {
  }

  /** The record as `get_leads_data` returns it: the sampled record with
      `ConvertedProbability` set. */
  function WithProbability(record: Row, p: real): (r: Row)
    ensures r.Keys == record.Keys + {ProbabilityColumn}
    ensures r[ProbabilityColumn] == Number(p)
    ensures forall k :: k in record && k != ProbabilityColumn ==> r[k] == record[k]
  {
    record[ProbabilityColumn := Number(p)]
  }

  class LeadScorer<M> {
    /** What `load_data` yields: the lead table, or `FileNotFoundError`. */
    const data: Result<Frame, string>
    /** pandas' parser behind `pd.to_numeric`. */
    const parse: string -> Option<real>
    /** `train_test_split` followed by fitting the pipeline, its predictions
        on the held-out part and the importance and column read-out. */
    const fit: (Frame, seq<Cell>, real, int) -> Result<Fit<M>, string>
    /** `predict_proba(df)[0][1]` of a fitted pipeline on a one-row frame. */
    const predictProba: (M, Frame) -> Result<real, string>

    /** `current_model`: None until the first training. */
    var currentModel: Option<M>

    constructor (data: Result<Frame, string>, parse: string -> Option<real>,
                 fit: (Frame, seq<Cell>, real, int) -> Result<Fit<M>, string>,
                 predictProba: (M, Frame) -> Result<real, string>)
      requires data.Success? ==> WellFormed(data.value)
      ensures this.data == data && this.parse == parse
      ensures this.fit == fit && this.predictProba == predictProba
      ensures currentModel == None
    {
      this.data := data;
      this.parse := parse;
      this.fit := fit;
      this.predictProba := predictProba;
      currentModel := None;
    }

    predicate Valid() {
      data.Success? ==> WellFormed(data.value)
    }

    /** The training run of `train_model` up to the fitted pipeline: load,
        engineer features, select the features and the target, fit. */
    function Training(testSize: real, randomState: int): Result<Fit<M>, string>
      requires Valid()
    {
      match data
      case Failure(e) => Failure(e)
      case Success(raw) =>
        match Features.EngineerFeatures(raw, parse)
        case Failure(e) => Failure(e)
        case Success(engineered) =>
          match Select(engineered, TrainingFeatures)
          case Failure(e) => Failure(e)
          case Success(x) =>
            if TargetColumn !in engineered.columns then Failure(TargetColumn)
            else
              var y := seq(|engineered.rows|, i requires 0 <= i < |engineered.rows| =>
                             engineered.rows[i][TargetColumn]);
              fit(x, y, testSize, randomState)
    }

    /** The lead's probability under a fitted pipeline: the one-row frame
        of the lead, engineered, then `predict_proba`. */
    function Score(m: M, lead: Row): Result<real, string> {
      var frame := Frame(lead.Keys, [lead]);
      match Features.EngineerFeatures(frame, parse)
      case Failure(e) => Failure(e)
      case Success(engineered) => predictProba(m, engineered)
    }

    /** What the loop of `get_leads_data` asks of a drawn record: the
        `input_data` built from it, scored with the pipeline `m`. */
    function InputScorer(m: M): Row -> Result<real, string> {
      record => Score(m, ModelInput(record))
    }

    /** The model in use after lazy initialisation from `model`. */
    function Ensured(model: Option<M>): Result<M, string>
      requires Valid()
    {
      if model.Some? then Success(model.value)
      else match Training(DefaultTestSize, DefaultRandomState)
           case Failure(e) => Failure(e)
           case Success(ft) => Success(ft.model)
    }

    /** The result of `get_leads_data` when `df.sample` draws rows `picks`. */
    function LeadsData(model: Option<M>, picks: seq<nat>): Result<seq<Row>, string>
      requires Valid()
      requires data.Success? && |data.value.rows| >= SampleSize ==> ValidPicks(picks, |data.value.rows|)
    {
      match Ensured(model)
      case Failure(e) => Failure(e)
      case Success(m) =>
        match data
        case Failure(e) => Failure(e)
        case Success(raw) =>
          if |raw.rows| < SampleSize then Failure(SampleTooLarge)
          else ScoreAll(InputScorer(m), Sample(raw, picks), SampleSize)
    }

    /** `train_model(test_size, random_state)`: on success the fitted
        pipeline replaces `current_model` outright and the report holds the
        accuracy and the top-ten importances; a failure before fitting
        leaves `current_model` as it was. */
    method TrainModel(testSize: real, randomState: int) returns (r: Result<TrainReport, string>)
      requires Valid()
      modifies this
      ensures Training(testSize, randomState).Failure? ==>
                && r == Failure(Training(testSize, randomState).error)
                && currentModel == old(currentModel)
      ensures Training(testSize, randomState).Success? ==>
                var ft := Training(testSize, randomState).value;
                && currentModel == Some(ft.model)
                && r == Success(TrainReport(ft.accuracy, Importance.FeatureImportance(ft.importances, ft.onehotColumns)))
    {
      var t := Training(testSize, randomState);
      if t.Failure? {
        return Failure(t.error);
      }
      var ft := t.value;
      currentModel := Some(ft.model);
      var top := Importance.FeatureImportance(ft.importances, ft.onehotColumns);
      r := Success(TrainReport(ft.accuracy, top));
    }

    /** `predict_lead_proba(lead)`: trains with the defaults first when no
        model exists; afterwards the model is set and the lead is scored
        with it. An existing model is used and kept as it is. */
    method PredictLeadProba(lead: Row) returns (r: Result<real, string>)
      requires Valid()
      modifies this
      ensures old(currentModel).Some? ==> currentModel == old(currentModel)
      ensures Ensured(old(currentModel)).Success? ==> currentModel == Some(Ensured(old(currentModel)).value)
      ensures Ensured(old(currentModel)).Failure? ==> currentModel == old(currentModel)
      ensures Ensured(old(currentModel)).Failure? ==> r == Failure(Ensured(old(currentModel)).error)
      ensures Ensured(old(currentModel)).Success? ==> r == Score(Ensured(old(currentModel)).value, lead)
    {
      if currentModel.None? {
        var trained := TrainModel(DefaultTestSize, DefaultRandomState);
        if trained.Failure? {
          return Failure(trained.error);
        }
      }
      r := Score(currentModel.value, lead);
    }

    /** `get_leads_data()` with `picks` the rows `df.sample(50)` draws: one
        record per drawn row, the blank-filled record with its
        `ConvertedProbability` added, in drawing order. */
    method GetLeadsData(picks: seq<nat>) returns (r: Result<seq<Row>, string>)
      requires Valid()
      requires data.Success? && |data.value.rows| >= SampleSize ==> ValidPicks(picks, |data.value.rows|)
      modifies this
      ensures old(currentModel).Some? ==> currentModel == old(currentModel)
      ensures Ensured(old(currentModel)).Success? ==> currentModel == Some(Ensured(old(currentModel)).value)
      ensures Ensured(old(currentModel)).Failure? ==> currentModel == old(currentModel)
      ensures r == LeadsData(old(currentModel), picks)
    {
      if currentModel.None? {
        var trained := TrainModel(DefaultTestSize, DefaultRandomState);
        if trained.Failure? {
          return Failure(trained.error);
        }
      }
      var m := currentModel.value;
      assert Ensured(old(currentModel)) == Success(m);
      if data.Failure? {
        return Failure(data.error);
      }
      var raw := data.value;
      if |raw.rows| < SampleSize {
        return Failure(SampleTooLarge);
      }
      var sample := Sample(raw, picks);
      r := ScoreRecords(InputScorer(m), sample);
    }
  }

  /** The loop of `get_leads_data` over the drawn records: `score` gives a
      record's probability (its `input_data` predicted by the pipeline in
      use; the lazy training of `predict_lead_proba` cannot run here, as
      the pipeline is set), and the record gets that probability; the first
      failing prediction ends the loop. */
  method ScoreRecords(score: Row -> Result<real, string>, sample: seq<Row>) returns (r: Result<seq<Row>, string>)
    ensures r == ScoreAll(score, sample, |sample|)
  {
    var results: seq<Row> := [];
    for i := 0 to |sample|
      invariant ScoreAll(score, sample, i) == Success(results)
    {
      var p := score(sample[i]);
      if p.Failure? {
        ScoreAllFails(score, sample, i);
        FailurePersists(score, sample, i + 1, |sample|);
        return Failure(p.error);
      }
      results := results + [WithProbability(sample[i], p.value)];
    }
    r := Success(results);
  }

  /** The scoring loop of `get_leads_data` over the first `n` sampled
      records, each scored with `score`; the first failing prediction ends it. */
  function ScoreAll(score: Row -> Result<real, string>, sample: seq<Row>, n: nat): Result<seq<Row>, string>
    requires n <= |sample|
  {
    if n == 0 then Success([])
    else
      match ScoreAll(score, sample, n - 1)
      case Failure(e) => Failure(e)
      case Success(done) =>
        match score(sample[n - 1])
        case Failure(e) => Failure(e)
        case Success(p) => Success(done + [WithProbability(sample[n - 1], p)])
  }

  /** The scoring loop ends with the failure of the first lead that fails. */
  lemma ScoreAllFails(score: Row -> Result<real, string>, sample: seq<Row>, i: nat)
    requires i < |sample| && ScoreAll(score, sample, i).Success?
    requires score(sample[i]).Failure?
    ensures ScoreAll(score, sample, i + 1) == Failure(score(sample[i]).error)
  {
  }

  /** Once a prediction has failed the loop's outcome stays that failure. */
  lemma {:induction false} FailurePersists(score: Row -> Result<real, string>, sample: seq<Row>, i: nat, n: nat)
    requires i <= n <= |sample| && ScoreAll(score, sample, i).Failure?
    ensures ScoreAll(score, sample, n) == ScoreAll(score, sample, i)
    decreases n
  {
    if n > i {
      FailurePersists(score, sample, i, n - 1);
    }
  }

  /** Every returned record is its sampled row with the probability
      `score` gives that row. */
  lemma {:induction false} ScoreAllRecords(score: Row -> Result<real, string>, sample: seq<Row>, n: nat)
    requires n <= |sample|
    ensures ScoreAll(score, sample, n).Success? ==>
              var out := ScoreAll(score, sample, n).value;
              && |out| == n
              && forall j :: 0 <= j < n ==>
                   && score(sample[j]).Success?
                   && out[j] == WithProbability(sample[j], score(sample[j]).value)
  {
    if n > 0 {
      ScoreAllRecords(score, sample, n - 1);
      var prev := ScoreAll(score, sample, n - 1);
      var p := score(sample[n - 1]);
      if prev.Success? && p.Success? {
        var out := prev.value + [WithProbability(sample[n - 1], p.value)];
        assert ScoreAll(score, sample, n) == Success(out);
        forall j | 0 <= j < n
          ensures score(sample[j]).Success?
          ensures out[j] == WithProbability(sample[j], score(sample[j]).value)
        {
          if j < n - 1 {
            assert out[j] == prev.value[j];
          }
        }
      }
    }
  }

  /** The message of the `ValueError` `df.sample(50)` raises on a smaller
      frame. */
  const SampleTooLarge: string := "Cannot take a larger sample than population when 'replace=False'"

  /** The rows `df.sample(50)` may draw: fifty distinct row numbers. */
  predicate ValidPicks(picks: seq<nat>, rowCount: nat) {
    && |picks| == SampleSize
    && (forall j :: 0 <= j < |picks| ==> picks[j] < rowCount)
    && (forall i, j :: 0 <= i < j < |picks| ==> picks[i] != picks[j])
  }

  /** The drawn records of `df.fillna('')`, in drawing order. */
  function Sample(raw: Frame, picks: seq<nat>): (r: seq<Row>)
    requires forall j :: 0 <= j < |picks| ==> picks[j] < |raw.rows|
    ensures |r| == |picks|
    ensures forall j :: 0 <= j < |picks| ==> r[j] == FillBlank(raw.rows[picks[j]])
  {
    seq(|picks|, j requires 0 <= j < |picks| => FillBlank(raw.rows[picks[j]]))
  }
}
