# Lead scoring, model comparison, jury evaluation and product retrieval in Dafny

This project models the deterministic core of a lead-generation back end. The
back end scores sales leads with a gradient-boosted classifier, compares
candidate classifiers, recommends a storage product to each lead, and has an
LLM jury grade the generated sales emails. Each module below follows one
piece of the Python source.

- `Features` (`features.dfy`) models `engineer_features`. It fills missing
  tags and last activities with "Unknown" and coerces the time on the
  website to a number. It then derives the high-intent flag, the activity
  score and the interaction term. All of this happens on a copy of the frame.
- `Ranking` (`ranking.dfy`) models Python's stable `sorted(..., reverse=True)`
  as an insertion sort. It proves that the sort is a non-increasing
  permutation that keeps ties in input order. It also proves what any cut
  `[:k]` of a ranking keeps.
- `Importance` (`importance.dfy`) models the importance report of
  `train_model`:
  - normalisation, applied only when the sum is positive;
  - the feature-name list;
  - `dict(zip(...))` as an insertion-ordered dictionary;
  - the top-ten cut.
- `Inference` (`inference.dfy`) models the process-wide model
  (`current_model`) as the state of the class `LeadScorer`. Training
  replaces it. Prediction and the lead listing train lazily first.
  `get_leads_data` scores its sample in a loop, one record at a time.
- `Capture` (`capture.dfy`) models `get_capture_rate` on any non-increasing
  arrangement that pandas' `sort_values` may return. It also models
  `evaluate_model`, and `main`'s comparison of two candidates on one split.
- `Jury` (`jury.dfy`) models a jurist, the fixed three-member panel, and
  `Jurist.evaluate`. `evaluate` strips the answer, removes the code fences,
  then parses. Any failure becomes the "Evaluation Failed" verdict.
- `Rag` (`rag.dfy`) models:
  - the prioritised keyword rules of `retrieve_product`;
  - the details lookup of `get_product_details`;
  - the missing-key branch of `generate_email_content`;
  - `run_rag_pipeline`.
- `Evals` (`evals.dfy`) models `run_evaluation` imperatively:
  - a loop over the leads and, inside it, a loop over the jurists;
  - running totals of score, latency and count;
  - report lines appended in a fixed order;
  - a summary line put at the front;
  - a single write to the report file.

  Each method is proved equal to a functional specification (`RunSpec`,
  `Progress`, `LeadStep`, `ReadVerdicts`). Lemmas state the report's layout
  and averages in terms of those specifications.
- `Table`, `Text`, `Json` and `Wrappers` hold the values these share: cells,
  rows and frames; Python's string operations; parsed JSON; Option and
  Result.

Library calls are function-valued parameters, given as constructor arguments
or fields of a `Services` value:
- scikit-learn and LightGBM fitting, `predict_proba` and the metrics;
- the chat models and `json.loads`;
- pandas' numeric parser;
- number formatting.

An exception is a `Failure` carrying its message.

## Model

| member | source | states |
|---|---|---|
| Features.FillUnknown | backend/ml_service.py:29 | a missing cell becomes "Unknown", any other cell is kept, and the result is never missing |
| Features.HighIntentFlag | backend/ml_service.py:27-30 | the flag is 1 exactly when the tag is one of the four allow-listed strings, otherwise 0 |
| Features.ActivityScore | backend/ml_service.py:33-44 | the table's score for the seven listed activities, 0 for anything else; always between -2 and 10 |
| Features.CoerceNumber | backend/ml_service.py:48 | a number is kept, a text is parsed with 0 when it does not parse, and a missing value becomes 0 |
| Features.EngineerRow | backend/ml_service.py:23-51 | for one row: the three new columns are added; Tags and Last Activity are filled and the time coerced; the flag, score and time × score are computed from those cleaned values; every other column passes through |
| Features.EngineerFeatures | backend/ml_service.py:23-51 | fails with `KeyError` exactly when one of the three input columns is absent, naming the first read; otherwise the same number of rows, each engineered, with the three columns added |
| Features.MissingValuesScoreZero | backend/ml_service.py:27-44 | a missing tag gives flag 0; a missing activity gives score 0 and interaction 0 |
| Features.EngineerRowIdempotent | backend/ml_service.py:23-51 | engineering an engineered row leaves it unchanged |
| Ranking.SortDescCorrect | backend/ml_service.py:118 | the stable descending sort returns a non-increasing permutation of its input and keeps each group of equal keys in input order |
| Ranking.TopOfRanking | backend/evaluation/compare_models.py:63-67 | the first k of any non-increasing arrangement are in order, come from the input counting repeats, and none has a smaller key than an element left out |
| Ranking.Top | backend/ml_service.py:118 | `sorted(t, key, reverse=True)[:k]`: min(k, \|t\|) elements in non-increasing order, drawn from `t`, none ranking below an omitted element; tied elements keep their order in `t` |
| Importance.SumOfScale | backend/ml_service.py:108 | dividing every item by `d` divides the sum by `d` |
| Importance.Normalize | backend/ml_service.py:107-108 | with a positive sum, each item becomes its share and the result sums to 1; otherwise the importances are returned unchanged |
| Importance.FeatureNames | backend/ml_service.py:111-112 | the four numeric features in declared order, followed by the one-hot columns |
| Importance.Zip | backend/ml_service.py:115 | pairs names and weights index by index, up to the shorter list |
| Importance.Put | backend/ml_service.py:115 | a dictionary assignment adds the key, keeps names distinct and adds only the new entry; a new key goes last |
| Importance.DictOf | backend/ml_service.py:115 | `dict(pairs)` has distinct names, the same names as the pairs and only their entries; with distinct names it is the pairs themselves |
| Importance.FullDictionaryIsZip | backend/ml_service.py:115 | with distinct column names every column keeps its normalised importance in the full dictionary |
| Importance.FeatureImportance | backend/ml_service.py:115-118 | exactly min(10, n) entries of the n in the full dictionary; distinct names and non-increasing weights; none lighter than an omitted entry; ties kept in column order |
| Inference.PreprocessorCoversFeatures | backend/ml_service.py:62-74 | the numeric and categorical lists of the training pipeline hold exactly the eight selected features, each once |
| Inference.FirstMissing | backend/ml_service.py:69 | none exactly when every requested column is present; otherwise a requested column the frame lacks |
| Inference.Select | backend/ml_service.py:69 | `df[cols]` fails exactly when a column is absent; otherwise it keeps the rows, restricted to `cols`, with their values |
| Inference.FillBlank | backend/ml_service.py:147 | `fillna('')` keeps the keys, blanks missing cells and keeps the rest |
| Inference.ModelInput | backend/ml_service.py:156-162 | the five model columns read with `get`; an empty time becomes 0 |
| Inference.BlankTimeScoredAsZero | backend/ml_service.py:159 | a lead with a blank time reaches the model with time 0 and interaction 0 |
| Inference.WithProbability | backend/ml_service.py:169 | the record gains `ConvertedProbability`; its other fields are unchanged |
| Inference.Sample | backend/ml_service.py:147-150 | one blank-filled record per drawn row, in drawing order |
| Inference.LeadScorer.constructor | backend/ml_service.py:13 | the model reference starts empty |
| Inference.LeadScorer.TrainModel | backend/ml_service.py:53-123 | on success the fitted pipeline replaces the model outright and the report holds the accuracy and the top-ten importances; a failure leaves the model as it was |
| Inference.LeadScorer.PredictLeadProba | backend/ml_service.py:125-137 | with no model, trains with the defaults first; a model set before is kept; a failed training returns its error and leaves the model unset; on success the model is set and the lead is scored with it |
| Inference.LeadScorer.GetLeadsData | backend/ml_service.py:139-172 | trains lazily like prediction (a failed training returns its error and leaves the model unset), then returns the scored sample of the drawn rows, or the first error |
| Inference.ScoreRecords | backend/ml_service.py:153-171 | the loop over the sample returns the scored records in order, or the first failing prediction |
| Inference.ScoreAllFails | backend/ml_service.py:166 | a failing prediction ends the loop with its exception |
| Inference.FailurePersists | backend/ml_service.py:153-171 | once a prediction has failed, the outcome stays that failure |
| Inference.ScoreAllRecords | backend/ml_service.py:153-171 | a successful listing has one record per sampled row, each that row with the probability its input was given |
| Capture.Head | backend/evaluation/compare_models.py:67 | `head(k)` is the prefix of length min(k, n) |
| Capture.PositivesAppend | backend/evaluation/compare_models.py:70-71 | the positives of a concatenation add up |
| Capture.PositivesOfPrefix | backend/evaluation/compare_models.py:70-71 | a longer prefix holds at least as many positives, and no prefix more than the whole |
| Capture.PositivesPermutation | backend/evaluation/compare_models.py:63-71 | sorting does not change how many records are positive |
| Capture.CaptureRate | backend/evaluation/compare_models.py:66-73 | for a sorted table the rate is in [0, 1], 0 with no positives, and 1 at percentile 100 when there is a positive |
| Capture.CutOffAtLeast | backend/evaluation/compare_models.py:66 | from percentile 100 on, the cut-off takes every record |
| Capture.CutOffMonotone | backend/evaluation/compare_models.py:66 | a larger percentile never gives a smaller cut-off |
| Capture.CaptureRateMonotone | backend/evaluation/compare_models.py:66-73 | for a fixed order, a larger percentile never captures less |
| Capture.AllPositivesCaptured | backend/evaluation/compare_models.py:66-73 | when every positive is ranked above every negative and the cut-off is at least the number of positives, the rate is 1 |
| Capture.PrefixHoldsAllPositives | backend/evaluation/compare_models.py:70-71 | with positives ranked first, any prefix at least as long as the positive count holds all of them |
| Capture.Records | backend/evaluation/compare_models.py:62 | the table pairs each label with its probability, index by index |
| Capture.TopRecords | backend/evaluation/compare_models.py:62-67 | whatever order ties are sorted in, the ⌊n·p/100⌋ records taken come from the table, and none has a lower probability than a record left out |
| Capture.GetCaptureRate | backend/evaluation/compare_models.py:60-73 | in [0, 1]; 0 whenever no label is positive; 1 at percentile 100 with a positive label; otherwise the positives among `TopRecords` over all positives |
| Capture.LabelsCount | backend/evaluation/compare_models.py:71 | the table has no positive record exactly when no label is true |
| Capture.StableSortIsAllowed | backend/evaluation/compare_models.py:63 | the stable descending sort is one of the arrangements `sort_values` may return |
| Capture.EvaluateModel | backend/evaluation/compare_models.py:46-100 | an exception in fitting or predicting propagates; an empty held-out part fails on the division by its length; it succeeds exactly when fitting, that division and the metrics do, and then only on held-out labels of both classes when ROC-AUC needs them; the run holds the name, the metrics and the four capture rates, non-decreasing from 1% to 20% |
| Capture.ComparisonPreprocessorCoversFeatures | backend/evaluation/compare_models.py:28-44 | `get_preprocessor`'s lists hold exactly the five selected features, each once |
| Capture.SplitOf | backend/evaluation/compare_models.py:104-113 | a load failure propagates, then a missing feature, then a missing target; otherwise the split of the selected features and the target column |
| Capture.CompareModels | backend/evaluation/compare_models.py:102-127 | a failure to load or split propagates; otherwise the random forest and then LightGBM are evaluated on the one split, the first failing evaluation ends the comparison, and success holds both runs in that order, on held-out labels of both classes when ROC-AUC needs them |
| Capture.Column | backend/evaluation/compare_models.py:110 | `df[name]` holds each row's value for `name`, in row order |
| Jury.NewJurist | backend/evaluation/jury.py:7-12 | the fields are set from the arguments, the model defaults to "mistral", and the temperature is 0.1 |
| Jury.PanelMember | backend/evaluation/jury.py:61-77 | every panel member uses the default model at the judging temperature |
| Jury.JuryPanel | backend/evaluation/jury.py:79 | the panel has exactly three jurists, all on the default model at the judging temperature |
| Jury.JuryPanelOrder | backend/evaluation/jury.py:79 | the panel order is Sales Director, Brand Manager, Compliance Officer |
| Jury.Inputs | backend/evaluation/jury.py:45-52 | the prompt inputs use the lead's source and tags, or 'Unknown' and 'None' when the key is absent |
| Jury.JsonFenceHoldsFence | backend/evaluation/jury.py:55 | a json code-fence marker contains a plain code fence |
| Jury.Clean | backend/evaluation/jury.py:55 | the cleaned answer contains no fence, and an answer without fences is only stripped |
| Jury.Evaluate | backend/evaluation/jury.py:14-58 | a failing chat model or parse yields the failed verdict with that message; otherwise the parsed value, unchecked |
| Jury.ParserNeverSeesFence | backend/evaluation/jury.py:55-56 | the text given to `json.loads` contains no code fence, plain or json-marked |
| Jury.FailedVerdictShape | backend/evaluation/jury.py:57-58 | the failed verdict is an object with score 0 and a reasoning starting "Evaluation Failed: " |
| Text.ToLower | backend/rag_service.py:38-40 | lower-casing keeps the length, lowers each ASCII letter in place, and leaves no upper-case ASCII letter |
| Text.LowerIgnoresCase | backend/rag_service.py:38-40 | the upper- and lower-case spellings of a text lower to the same text |
| Text.ReplaceAll | backend/evaluation/jury.py:55 | `replace` changes nothing when the pattern does not occur, and removal never lengthens the text |
| Text.ReplaceAtFirst | backend/evaluation/jury.py:55 | at the first occurrence of the pattern, `replace` keeps the text before it, puts the replacement in its place, and goes on after it |
| Text.ReplaceFrom | backend/evaluation/jury.py:55 | from any point before the first occurrence, `replace` keeps the text up to it, then the replacement, then the rest replaced |
| Text.TrimLeft | backend/evaluation/jury.py:55 | `lstrip()` cuts only leading whitespace, and what is left does not start with whitespace |
| Text.TrimRight | backend/evaluation/jury.py:55 | `rstrip()` cuts only trailing whitespace, and what is left does not end with whitespace |
| Text.Strip | backend/evaluation/jury.py:55 | `strip()` leaves a slice of the text with only whitespace cut on either side, neither starting nor ending with whitespace |
| Text.NoFenceAfterRemoval | backend/evaluation/jury.py:55 | after every three-backtick fence is removed, none is left |
| Rag.Signal | backend/rag_service.py:38-40 | a missing field reads as the empty text; otherwise the field's text lowered letter by letter, of the same length, with no upper-case ASCII letter left |
| Rag.Choose | backend/rag_service.py:43-51 | one of the four products; WD_BLACK exactly when the first rule holds; Data Centers exactly when it fails and the second holds; SanDisk exactly when both fail and the third holds; otherwise the fallback |
| Rag.RetrieveProduct | backend/rag_service.py:31-51 | always one of the four products, chosen by the rules on the lower-cased tags, source and specialization |
| Rag.EmptyProfileGetsFallback | backend/rag_service.py:38-51 | a profile without the three fields gets the fallback product |
| Rag.RetrievalSeesOnlyLowerCase | backend/rag_service.py:38-40 | profiles that agree on the lower-cased fields get the same product |
| Rag.RetrievalIgnoresCase | backend/rag_service.py:38-47 | writing the text fields in capitals does not change the product |
| Rag.GetProductDetails | backend/rag_service.py:98-106 | "Ultrastar" is tested first, then "WD_BLACK", then "SanDisk"; the generic text exactly when none occurs |
| Rag.DetailsMatchProduct | backend/rag_service.py:98-106 | each retrievable product gets its own line's details, never the generic text |
| Rag.EmailPrompt | backend/rag_service.py:88-94 | time on site, source and tags default to 0, 'Website' and 'General Interest' |
| Rag.GenerateEmailContent | backend/rag_service.py:53-96 | with no key or an empty key the email is the fixed error text; otherwise it is Gemini's answer to the prompt |
| Rag.RunRagPipeline | backend/rag_service.py:108-115 | the recommended product is the retrieved one, and the email is generated for it with its details |
| Rag.PipelineWithoutKey | backend/rag_service.py:57-59 | with no API key the pipeline returns the retrieved product and the fixed error text |
| Rag.PipelinePromptUsesDetails | backend/rag_service.py:108-111 | Gemini is prompted with a catalogue product and its own details, never the generic text |
| Evals.Decimal | backend/evaluation/run_evals.py:70 | `str(n)` is a non-empty string of digits |
| Evals.DecimalRoundTrip | backend/evaluation/run_evals.py:70 | the lead number written in a header reads back as that number |
| Evals.LeadProfile | backend/evaluation/run_evals.py:50-55 | the profile has exactly four keys; time on site defaults to 0 and specialization to '' |
| Evals.JuryDefaultsUnused | backend/evaluation/run_evals.py:50-57 | the jurists see the lead's own source and tags, never their 'Unknown'/'None' defaults |
| Evals.Numeric | backend/evaluation/run_evals.py:82-94 | ints, floats and booleans are numbers a score can be; any other JSON value is not |
| Evals.ReadVerdict | backend/evaluation/run_evals.py:81-92 | a non-object verdict raises `AttributeError`; a missing score counts as 0, and a non-numeric one raises `TypeError`; a missing reasoning becomes 'No reasoning provided' |
| Evals.FailedEvaluationScoresZero | backend/evaluation/run_evals.py:81-83 | a failed evaluation scores 0, with the failure as its reasoning |
| Evals.Verdicts | backend/evaluation/run_evals.py:80-81 | one verdict per jurist, in panel order |
| Evals.ReadVerdicts | backend/evaluation/run_evals.py:80-92 | a successful read has one verdict read per jurist |
| Evals.ReadFailurePersists | backend/evaluation/run_evals.py:80-92 | once a verdict raises, later verdicts do not matter |
| Evals.ReadStops | backend/evaluation/run_evals.py:80-92 | a verdict that raises ends reading the panel with its exception |
| Evals.Scores | backend/evaluation/run_evals.py:85 | the scores in panel order |
| Evals.JurorLines | backend/evaluation/run_evals.py:92 | one bullet per jurist, in panel order |
| Evals.ReadOneMore | backend/evaluation/run_evals.py:85-92 | reading one more verdict appends its score and its bullet |
| Evals.LeadStep | backend/evaluation/run_evals.py:43-99 | a processed lead contributes a section of nine lines |
| Evals.LeadStepSection | backend/evaluation/run_evals.py:57-99 | a pipeline exception is the lead's outcome; otherwise the section is the opening lines, the panel's bullets and the average line; the average is the mean of the panel's scores |
| Evals.LeadStepSucceeds | backend/evaluation/run_evals.py:57-99 | a lead whose pipeline and verdicts succeed yields its section and its mean score |
| Evals.SectionBounds | backend/evaluation/run_evals.py:70-99 | a section opens with the lead's header and closes with its average line |
| Evals.LeadSteps | backend/evaluation/run_evals.py:43 | one outcome per lead, in order, each with nine lines |
| Evals.Progress | backend/evaluation/run_evals.py:36-99 | after k leads the report is the title plus 9k lines; there are k averages, and the latency is the total of the first k |
| Evals.ProgressFailurePersists | backend/evaluation/run_evals.py:43-99 | an exception in one lead ends the whole run with that exception |
| Evals.ProgressStep | backend/evaluation/run_evals.py:59-99 | a lead that succeeds extends the state by its section, its average and its latency |
| Evals.ProgressStops | backend/evaluation/run_evals.py:43-99 | a lead that raises ends the run with its exception |
| Evals.ProgressSections | backend/evaluation/run_evals.py:70-99 | after the title, lead i's section sits at lines 1+9i to 9+9i, and its average is the i-th |
| Evals.RunSpec | backend/evaluation/run_evals.py:17-114 | a load failure writes nothing; an exception writes nothing; `num_samples` 0 divides by zero; when loading and every lead succeed and `num_samples` > 0 the report is written: the summary, then the title, then the sections; the overall score is the mean of the lead averages, and the latency is the total over `num_samples` |
| Evals.WrittenCoversSample | backend/evaluation/run_evals.py:31-103 | with the sample holding `num_samples` leads, a written report covers at least one lead, and its latency is averaged over the leads evaluated |
| Evals.ReportOrder | backend/evaluation/run_evals.py:37-111 | in a written report, line 0 is the summary, line 1 the title, and lead i's section is lines 2+9i to 10+9i |
| Evals.OverallIsMeanOfLeads | backend/evaluation/run_evals.py:94-103 | in a written report, every lead succeeded and the overall score is the mean of the per-lead averages |
| Evals.SumBounds | backend/evaluation/run_evals.py:94-95 | a sum of values in [lo, hi] lies in [n·lo, n·hi] |
| Evals.MeanInRange | backend/evaluation/run_evals.py:94-103 | scores on the 0 to 10 scale give averages and an overall score on that scale |
| Evals.ReportFile.constructor | backend/evaluation/run_evals.py:113 | the report file starts empty and unwritten |
| Evals.ReportFile.WriteLines | backend/evaluation/run_evals.py:113-114 | writing replaces the file's lines and counts one write |
| Evals.ReadNext | backend/evaluation/run_evals.py:80-92 | reading one more verdict that does not raise appends it to those read |
| Evals.JudgeDraft | backend/evaluation/run_evals.py:78-92 | the loop over a panel (the jury panel, as called) reads the verdicts in panel order, collecting scores and bullets, and stops at the first verdict that raises |
| Evals.EvaluateLead | backend/evaluation/run_evals.py:43-99 | the body of the loop over the leads is exactly the lead's step |
| Evals.EvaluateLeadAt | backend/evaluation/run_evals.py:43-99 | processing lead i inside the loop gives step i |
| Evals.EvaluateLeads | backend/evaluation/run_evals.py:36-99 | the loop over the leads yields the report lines, total latency, score total and lead count of `Progress`, or its first exception |
| Evals.RunEvaluation | backend/evaluation/run_evals.py:17-114 | the outcome is `RunSpec`'s; the report is written exactly once when it is written, and the file is untouched otherwise |

## Left out

- Floating point: probabilities, scores, importances and latencies are exact reals. NaN is a separate cell value, `IsMissing`.
- `str.lower`, `str.upper` and `str.isspace` are modelled on ASCII letters and on Python's whitespace set; Unicode case mapping is not modelled.
- A frame's columns are a set, not an ordered list. Every consumer in the core selects columns by name.
- Reading the CSV files (`load_data`, `pd.read_csv`) is a `Result` parameter. The lead data of `run_evaluation` is the sampled list or the loading error.
- `df.sample` randomness is a parameter: the drawn row numbers (`picks`) of `get_leads_data`, and the sampled leads of `run_evaluation`.
- `time.time()` and `time.strftime` are inputs: the latency of each lead and the report date.
- Console output (`print`, colorama, tqdm) is not modelled, including the "best model" lines at the end of `main` in `compare_models.py`.
- scikit-learn and LightGBM are abstract functions: fitting, `train_test_split`, `predict_proba`, the preprocessing transformers and the metrics. So are the chat models, `json.loads`, pandas' numeric parser, and the `:.1f`/`:.2f` formats.
- `environ.get("GEMINI_API_KEY")` is an `Option` parameter.
- The per-sample inference time and the training time of `evaluate_model` are not modelled; the timings are wall-clock floats.
- Capture.TopRecords: ties in probability are not broken in original row order. pandas' `sort_values` defaults to quicksort, which is not stable, so the model accepts any non-increasing arrangement. The stable order is one such arrangement (`Capture.StableSortIsAllowed`).
- Capture.EvaluateModel: only the five metrics the code computes are kept: accuracy, precision, recall, F1 and ROC-AUC. The code computes no balanced accuracy, Matthews correlation or average precision.
- Capture.EvaluateModel: fitting, prediction and the metrics are `Result`-valued parameters, so which inputs make scikit-learn or LightGBM raise is theirs to say. The one case stated is `roc_auc_score`'s ValueError on held-out labels of one class (`Capture.NeedsBothClasses`), which the unstratified `train_test_split` can produce.
- Capture.CompareModels: `train_test_split` is a `Result`-valued parameter; the sizes of the two parts are not modelled.
- Evals.RunSpec: the number of loaded leads is a separate input from `num_samples`. `df.sample(num_samples)` gives exactly that many rows or raises into the load failure; `Evals.WrittenCoversSample` states what follows under that tie.
- Inference.LeadScorer.GetLeadsData: the loop scores each record with the pipeline already set, not by calling `predict_lead_proba`. The lazy training inside `predict_lead_proba` cannot fire there, because the model is set before the loop.
- Inference.LeadScorer.PredictLeadProba: raising an exception is modelled as returning a `Failure`. A failed `train_model` leaves `current_model` as it was, as it does in the source.
- Evals.RunEvaluation: the body of the lead loop is split into the methods `EvaluateLead` and `JudgeDraft`, and the loop itself into `EvaluateLeads`. A lead's latency is the input for its index.
- Evals.ReadVerdict: Python's `>=` between a score and 8 accepts ints, floats and booleans and raises `TypeError` for anything else; other JSON values are not compared further.
- Jury.Evaluate: the exception message of a failing chat model or parser is its `Failure` message. Python's `str(e)` text is not modelled.
- Features.CoerceNumber: `pd.to_numeric` is the parser parameter. It is applied to text cells only, and it returns a number or nothing.
- The prompt templates are not modelled. The prompt's inputs are passed to the chat models as values (`Jury.PromptInputs`, `Rag.EmailInputs`).
