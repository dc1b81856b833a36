/** `run_evaluation`: every sampled lead goes through the retrieval and
    email pipeline, the jury scores the draft, and a Markdown report with
    per-lead sections and an overall summary is written once. */
module Evals {
  import opened Wrappers
  import opened Table
  import opened Json
  import Jury
  import Rag

  /** What the evaluation depends on besides its own logic: how numbers
      and JSON values print, the API key and the two chat models, the JSON
      parser, the `:.1f` and `:.2f` formats, and the generation latency
      measured for the lead at each index. */
  datatype Services = Services(
    showNumber: real -> string,
    apiKey: Option<string>,
    gemini: (string, Rag.EmailInputs) -> Result<string, string>,
    llm: (string, real, Jury.PromptInputs) -> Result<string, string>,
    parse: string -> Result<Json, string>,
    showJson: Json -> string,
    fixed1: real -> string,
    fixed2: real -> string,
    latency: nat -> real)

  /** How a run ends: the data could not be loaded (nothing is written), an
      exception escaped (nothing is written), or the report was written. */
  datatype Outcome =
    | LoadFailed(message: string)
    | Crashed(error: string)
    | Written(report: seq<string>, overall: real, averageLatency: real)

  const AttributeError: string := "AttributeError"
  const TypeError: string := "TypeError"
  const ZeroDivisionError: string := "ZeroDivisionError"

  function Digit(d: nat): char
    requires d < 10
  {
    ('0' as int + d) as char
  }

  /** `str(n)` for a natural number. */
  function Decimal(n: nat): (r: string)
    ensures |r| > 0
    ensures forall k :: 0 <= k < |r| ==> '0' <= r[k] <= '9'
  {
    if n < 10 then [Digit(n)] else Decimal(n / 10) + [Digit(n % 10)]
  }

  /** The number a string of decimal digits denotes. */
  function DecimalValue(s: string): nat
    requires forall k :: 0 <= k < |s| ==> '0' <= s[k] <= '9'
  {
    if |s| == 0 then 0 else DecimalValue(s[..|s| - 1]) * 10 + (s[|s| - 1] as int - '0' as int)
  }

  /** The lead numbers in the report read back as the numbers written. */
  lemma {:induction false} DecimalRoundTrip(n: nat)
    ensures DecimalValue(Decimal(n)) == n
  {
    if n >= 10 {
      DecimalRoundTrip(n / 10);
      var r := Decimal(n);
      assert r[..|r| - 1] == Decimal(n / 10);
    }
  }

  /** The profile built from a sampled lead: source and tags as found
      (None when absent), the time on site defaulting to 0 and the
      specialization to ''. */
  function LeadProfile(lead: Row): (profile: Row)
    ensures profile.Keys == {"Lead Source", "Tags", "Total Time Spent on Website", "Specialization"}
    ensures profile["Lead Source"] == Get(lead, "Lead Source", Null)
    ensures profile["Tags"] == Get(lead, "Tags", Null)
    ensures profile["Total Time Spent on Website"] == Get(lead, "Total Time Spent on Website", Number(0.0))
    ensures profile["Specialization"] == Get(lead, "Specialization", Text(""))
  {
    map["Lead Source" := Get(lead, "Lead Source", Null),
        "Tags" := Get(lead, "Tags", Null),
        "Total Time Spent on Website" := Get(lead, "Total Time Spent on Website", Number(0.0)),
        "Specialization" := Get(lead, "Specialization", Text(""))]
  }

  /** The profile always holds the source and tags keys, so the jurists'
      'Unknown' and 'None' defaults never apply during an evaluation run. */
  lemma JuryDefaultsUnused(j: Jury.Jurist, draft: string, lead: Row, product: string)
    ensures Jury.Inputs(j, draft, LeadProfile(lead), product).leadSource == Get(lead, "Lead Source", Null)
    ensures Jury.Inputs(j, draft, LeadProfile(lead), product).leadTags == Get(lead, "Tags", Null)
  {
  }

  /** The number a score is, for the values Python can compare with 8 and
      add up: integers, floats and booleans. */
  function Numeric(score: Json): (r: Option<real>)
    ensures score.JInt? ==> r == Some(score.i as real)
    ensures score.JFloat? ==> r == Some(score.f)
    ensures score.JBool? ==> r == Some(if score.b then 1.0 else 0.0)
    ensures r.None? <==> !(score.JInt? || score.JFloat? || score.JBool?)
  {
    match score
    case JInt(i) => Some(i as real)
    case JFloat(f) => Some(f)
    case JBool(b) => Some(if b then 1.0 else 0.0)
    case _ => None
  }

  /** `str(value)` in an f-string: a string is itself. */
  function Show(value: Json, showJson: Json -> string): string {
    if value.JString? then value.s else showJson(value)
  }

  /** A jurist's verdict as the report uses it. */
  datatype Verdict = Verdict(score: real, scoreText: string, reasonText: string)

  const NoReasoning: string := "No reasoning provided"

  /** `eval_result.get('score', 0)` and `eval_result.get('reasoning', …)`:
      a verdict that is not an object has no `get` and raises; a missing
      score counts as 0 and a missing reasoning as 'No reasoning
      provided'; a score that is not a number fails the comparison with 8. */
  function ReadVerdict(verdict: Json, showJson: Json -> string): (r: Result<Verdict, string>)
    ensures !verdict.JObject? ==> r == Failure(AttributeError)
    ensures verdict.JObject? && "score" !in verdict.fields ==> r.Success? && r.value.score == 0.0
    ensures verdict.JObject? && "score" in verdict.fields ==>
              (r.Success? <==> Numeric(verdict.fields["score"]).Some?)
    ensures r.Success? && "score" in verdict.fields ==> r.value.score == Numeric(verdict.fields["score"]).value
    ensures r.Failure? && verdict.JObject? ==> r.error == TypeError
    ensures r.Success? ==>
              r.value.reasonText == if "reasoning" in verdict.fields then Show(verdict.fields["reasoning"], showJson)
                                    else NoReasoning
  {
    match verdict
    case JObject(fields) =>
      var score := if "score" in fields then fields["score"] else JInt(0);
      var reason := if "reasoning" in fields then fields["reasoning"] else JString(NoReasoning);
      (match Numeric(score)
       case None => Failure(TypeError)
       case Some(x) => Success(Verdict(x, Show(score, showJson), Show(reason, showJson))))
    case _ => Failure(AttributeError)
  }

  /** A jurist whose evaluation failed scores 0, with the failure as its
      reasoning. */
  lemma FailedEvaluationScoresZero(message: string, showJson: Json -> string)
    ensures ReadVerdict(Jury.FailedVerdict(message), showJson)
              == Success(Verdict(0.0, showJson(JInt(0)), "Evaluation Failed: " + message))
  {
  }

  /** The verdicts of the panel on one draft, in panel order. */
  function Verdicts(panel: seq<Jury.Jurist>, result: Rag.RagResult, profile: Row, env: Services): (vs: seq<Json>)
    ensures |vs| == |panel|
    ensures forall k :: 0 <= k < |panel| ==>
              vs[k] == Jury.Evaluate(panel[k], result.emailDraft, profile, result.recommendedProduct, env.llm, env.parse)
  {
    if |panel| == 0 then []
    else [Jury.Evaluate(panel[0], result.emailDraft, profile, result.recommendedProduct, env.llm, env.parse)]
         + Verdicts(panel[1..], result, profile, env)
  }

  /** Reading the first `n` verdicts one after another: the first that
      raises stops the run; otherwise each is read. */
  function ReadVerdicts(vs: seq<Json>, n: nat, showJson: Json -> string): (r: Result<seq<Verdict>, string>)
    requires n <= |vs|
    ensures r.Success? ==> |r.value| == n
    ensures r.Success? ==> forall k :: 0 <= k < n ==> ReadVerdict(vs[k], showJson) == Success(r.value[k])
  {
    if n == 0 then Success([])
    else
      match ReadVerdicts(vs, n - 1, showJson)
      case Failure(e) => Failure(e)
      case Success(read) =>
        match ReadVerdict(vs[n - 1], showJson)
        case Failure(e) => Failure(e)
        case Success(v) => Success(read + [v])
  }

  /** Once a verdict raises, later verdicts do not matter. */
  lemma {:induction false} ReadFailurePersists(vs: seq<Json>, j: nat, m: nat, showJson: Json -> string)
    requires j <= m <= |vs| && ReadVerdicts(vs, j, showJson).Failure?
    ensures ReadVerdicts(vs, m, showJson) == ReadVerdicts(vs, j, showJson)
    decreases m - j
  {
    if j < m {
      ReadFailurePersists(vs, j, m - 1, showJson);
    }
  }

  function Scores(read: seq<Verdict>): (r: seq<real>)
    ensures |r| == |read| && forall k :: 0 <= k < |read| ==> r[k] == read[k].score
  {
    seq(|read|, k requires 0 <= k < |read| => read[k].score)
  }

  /** `sum` from left to right. */
  function SumReal(xs: seq<real>): real {
    if |xs| == 0 then 0.0 else SumReal(xs[..|xs| - 1]) + xs[|xs| - 1]
  }

  /** The mean, or 0 for no values. */
  function Mean(xs: seq<real>): real {
    if |xs| > 0 then SumReal(xs) / |xs| as real else 0.0
  }

  /** The report lines. */
  function Title(date: string): string {
    "# Evaluation Report\nDate: " + date + "\n\n"
  }

  function Header(i: nat, lead: Row, env: Services): string {
    "## Lead #" + Decimal(i + 1) + ": " + Str(Get(lead, "Lead Source", Null), env.showNumber) + "\n"
  }

  function ProductLine(product: string): string {
    "**Recommended Product**: " + product + "\n"
  }

  function LatencyLine(latency: real, env: Services): string {
    "**Latency**: " + env.fixed2(latency) + "s\n"
  }

  function DraftBlock(draft: string): string {
    "### Email Draft:\n```\n" + draft + "\n```\n"
  }

  const ScoresHeading: string := "### Jury Scores:\n"

  function JurorLine(name: string, v: Verdict): string {
    "- **" + name + "** (" + v.scoreText + "/10): " + v.reasonText + "\n"
  }

  function AverageLine(average: real, env: Services): string {
    "\n**Average Score**: " + env.fixed1(average) + "/10\n\n---\n"
  }

  function Summary(overall: real, averageLatency: real, env: Services): string {
    "**Overall Quality Score**: " + env.fixed2(overall) + "/10\n**Average Latency**: "
      + env.fixed2(averageLatency) + "s\n\n"
  }

  /** One bullet per verdict read, in panel order. */
  function JurorLines(panel: seq<Jury.Jurist>, read: seq<Verdict>): (r: seq<string>)
    requires |read| <= |panel|
    ensures |r| == |read| && forall k :: 0 <= k < |read| ==> r[k] == JurorLine(panel[k].name, read[k])
  {
    seq(|read|, k requires 0 <= k < |read| => JurorLine(panel[k].name, read[k]))
  }

  /** The lines a lead opens its section with, before the jury speaks. */
  function Opening(i: nat, lead: Row, result: Rag.RagResult, env: Services): seq<string> {
    [Header(i, lead, env), ProductLine(result.recommendedProduct), LatencyLine(env.latency(i), env),
     DraftBlock(result.emailDraft), ScoresHeading]
  }

  /** What one lead contributes: its report section and its average score. */
  datatype LeadResult = LeadResult(lines: seq<string>, average: real)

  /** The processing of the lead at index `i`: the pipeline runs on its
      profile and the panel judges the draft. The section is the header,
      product, latency, draft and heading lines, one bullet per jurist in
      panel order, and the average line; the average is the panel's total
      score over the panel size. */
  function LeadStep(i: nat, lead: Row, env: Services): (r: Result<LeadResult, string>)
    ensures r.Success? ==> |r.value.lines| == 9
  {
    var profile := LeadProfile(lead);
    var panel := Jury.JuryPanel();
    match Rag.RunRagPipeline(profile, env.showNumber, env.apiKey, env.gemini)
    case Failure(e) => Failure(e)
    case Success(result) =>
      match ReadVerdicts(Verdicts(panel, result, profile, env), |panel|, env.showJson)
      case Failure(e) => Failure(e)
      case Success(read) =>
        var average := SumReal(Scores(read)) / |panel| as real;
        Success(LeadResult(Opening(i, lead, result, env) + JurorLines(panel, read) + [AverageLine(average, env)],
                           average))
  }

  /** What the processing of a lead yields: the pipeline's exception, or
      the section built from the recommendation and the verdicts. */
  lemma LeadStepSection(i: nat, lead: Row, env: Services)
    ensures var r := LeadStep(i, lead, env);
            var profile := LeadProfile(lead);
            var rag := Rag.RunRagPipeline(profile, env.showNumber, env.apiKey, env.gemini);
            rag.Failure? ==> r == Failure(rag.error)
    ensures var r := LeadStep(i, lead, env);
            r.Success? ==>
              var profile := LeadProfile(lead);
              var rag := Rag.RunRagPipeline(profile, env.showNumber, env.apiKey, env.gemini);
              && rag.Success?
              && var read := ReadVerdicts(Verdicts(Jury.JuryPanel(), rag.value, profile, env), |Jury.JuryPanel()|, env.showJson);
                 && read.Success?
                 && |read.value| == |Jury.JuryPanel()|
                 && r.value.average == Mean(Scores(read.value))
                 && r.value.lines == Opening(i, lead, rag.value, env)
                                     + JurorLines(Jury.JuryPanel(), read.value)
                                     + [AverageLine(r.value.average, env)]
  {
  }

  /** Every successful step yields a section of nine lines. */
  predicate NineLines(steps: seq<Result<LeadResult, string>>) {
    forall i :: 0 <= i < |steps| && steps[i].Success? ==> |steps[i].value.lines| == 9
  }

  /** The outcome of processing each lead, in order. */
  function LeadSteps(leads: seq<Row>, env: Services): (steps: seq<Result<LeadResult, string>>)
    ensures |steps| == |leads|
    ensures forall i :: 0 <= i < |leads| ==> steps[i] == LeadStep(i, leads[i], env)
    ensures NineLines(steps)
  {
    seq(|leads|, i requires 0 <= i < |leads| => LeadStep(i, leads[i], env))
  }

  /** `steps` holds the outcome of processing each lead of `leads`. */
  ghost predicate StepsOf(steps: seq<Result<LeadResult, string>>, leads: seq<Row>, env: Services) {
    && |steps| == |leads|
    && NineLines(steps)
    && forall k {:trigger LeadStep(k, leads[k], env)} :: 0 <= k < |leads| ==> steps[k] == LeadStep(k, leads[k], env)
  }

  /** The running state after some leads: the report lines so far, the
      per-lead averages and the total latency. */
  datatype Totals = Totals(lines: seq<string>, averages: seq<real>, latency: real)

  /** The latencies of the first `k` leads added up. */
  function TotalLatency(env: Services, k: nat): real {
    if k == 0 then 0.0 else TotalLatency(env, k - 1) + env.latency(k - 1)
  }

  /** The state after the first `k` leads, or the exception that stopped
      the run. The report starts with the title and grows by each lead's
      section, in the order the leads are processed. */
  function Progress(steps: seq<Result<LeadResult, string>>, k: nat, date: string, env: Services): (r: Result<Totals, string>)
    requires k <= |steps| && NineLines(steps)
    ensures r.Success? ==> |r.value.lines| == 1 + 9 * k && r.value.lines[0] == Title(date)
    ensures r.Success? ==> |r.value.averages| == k && r.value.latency == TotalLatency(env, k)
  {
    if k == 0 then Success(Totals([Title(date)], [], 0.0))
    else
      match Progress(steps, k - 1, date, env)
      case Failure(e) => Failure(e)
      case Success(t) =>
        match steps[k - 1]
        case Failure(e) => Failure(e)
        case Success(step) =>
          Success(Totals(t.lines + step.lines, t.averages + [step.average], t.latency + env.latency(k - 1)))
  }

  /** An exception in one lead ends the whole run with that exception. */
  lemma {:induction false} ProgressFailurePersists(steps: seq<Result<LeadResult, string>>, k: nat, m: nat,
                                                   date: string, env: Services)
    requires k <= m <= |steps| && NineLines(steps)
    requires Progress(steps, k, date, env).Failure?
    ensures Progress(steps, m, date, env) == Progress(steps, k, date, env)
    decreases m - k
  {
    if k < m {
      ProgressFailurePersists(steps, k, m - 1, date, env);
    }
  }

  /** `run_evaluation(num_samples)` on the sampled leads `load` (or the
      loading error): a load failure returns before anything is written; an
      exception stops the run; with `num_samples` 0 the average latency
      divides by zero. Otherwise the summary line comes first, then the
      title and the sections; the overall score is the mean of the per-lead
      averages (0 for no leads) and the average latency is the total over
      `num_samples`. How many leads were loaded is not tied to `num_samples`
      here; `WrittenCoversSample` adds that tie. */
  function RunSpec(load: Result<seq<Row>, string>, numSamples: nat, date: string, env: Services): (r: Outcome)
    ensures load.Failure? ==> r == LoadFailed(load.error)
    ensures load.Success? ==>
              var run := Progress(LeadSteps(load.value, env), |load.value|, date, env);
              && (run.Failure? ==> r == Crashed(run.error))
              && (run.Success? && numSamples == 0 ==> r == Crashed(ZeroDivisionError))
              && (run.Success? && numSamples > 0 ==> r.Written?)
              && (r.Written? ==>
                    && numSamples > 0
                    && r.overall == Mean(run.value.averages)
                    && r.averageLatency == TotalLatency(env, |load.value|) / numSamples as real
                    && r.report == [Summary(r.overall, r.averageLatency, env)] + run.value.lines
                    && |r.report| == 2 + 9 * |load.value|
                    && r.report[1] == Title(date))
  {
    match load
    case Failure(e) => LoadFailed(e)
    case Success(leads) =>
      match Progress(LeadSteps(leads, env), |leads|, date, env)
      case Failure(e) => Crashed(e)
      case Success(t) =>
        if numSamples == 0 then Crashed(ZeroDivisionError)
        else
          var overall := Mean(t.averages);
          var averageLatency := t.latency / numSamples as real;
          Written([Summary(overall, averageLatency, env)] + t.lines, overall, averageLatency)
  }

  /** `sample(num_samples)` returns exactly that many rows or raises inside
      the `try`. With the loaded leads tied to `num_samples` so, a written
      report covers at least one lead (the overall score's "0 for no leads"
      is never taken), and its average latency is the total over the leads
      evaluated. */
  lemma WrittenCoversSample(load: Result<seq<Row>, string>, numSamples: nat, date: string, env: Services)
    requires load.Success? ==> |load.value| == numSamples
    requires RunSpec(load, numSamples, date, env).Written?
    ensures load.Success? && |load.value| > 0
    ensures RunSpec(load, numSamples, date, env).averageLatency
              == TotalLatency(env, |load.value|) / |load.value| as real
  {
  }

  /** Section `i` of the state is step `i`'s section: after the title, the
      sections follow in the order the leads were processed. */
  lemma {:induction false} ProgressSections(steps: seq<Result<LeadResult, string>>, k: nat, date: string,
                                            env: Services, i: nat)
    requires i < k <= |steps| && NineLines(steps)
    requires Progress(steps, k, date, env).Success?
    ensures steps[i].Success?
    ensures Progress(steps, k, date, env).value.lines[1 + 9 * i .. 1 + 9 * (i + 1)] == steps[i].value.lines
    ensures Progress(steps, k, date, env).value.averages[i] == steps[i].value.average
  {
    var t := Progress(steps, k - 1, date, env).value;
    var all := Progress(steps, k, date, env).value;
    assert all.lines == t.lines + steps[k - 1].value.lines;
    if i < k - 1 {
      ProgressSections(steps, k - 1, date, env, i);
      assert all.lines[1 + 9 * i .. 1 + 9 * (i + 1)] == t.lines[1 + 9 * i .. 1 + 9 * (i + 1)];
    } else {
      assert all.lines[1 + 9 * i .. 1 + 9 * (i + 1)] == steps[k - 1].value.lines;
    }
  }

  /** In a written report, line 0 is the summary, line 1 the title, and
      lines 2 + 9i to 2 + 9i + 8 are the section of lead i. */
  lemma ReportOrder(load: Result<seq<Row>, string>, numSamples: nat, date: string, env: Services, i: nat)
    requires RunSpec(load, numSamples, date, env).Written?
    requires load.Success? && i < |load.value|
    ensures var r := RunSpec(load, numSamples, date, env);
            && LeadStep(i, load.value[i], env).Success?
            && r.report[2 + 9 * i .. 2 + 9 * (i + 1)] == LeadStep(i, load.value[i], env).value.lines
            && r.report[0] == Summary(r.overall, r.averageLatency, env)
            && r.report[1] == Title(date)
  {
    var leads := load.value;
    var steps := LeadSteps(leads, env);
    var r := RunSpec(load, numSamples, date, env);
    assert Progress(steps, |leads|, date, env).Success?;
    ProgressSections(steps, |leads|, date, env, i);
    var t := Progress(steps, |leads|, date, env).value;
    SectionAfterSummary(r.report, Summary(r.overall, r.averageLatency, env), t.lines, steps[i].value.lines, i);
  }

  /** A lead's section opens with its header and closes with its average. */
  lemma SectionBounds(i: nat, lead: Row, env: Services)
    requires LeadStep(i, lead, env).Success?
    ensures LeadStep(i, lead, env).value.lines[0] == Header(i, lead, env)
    ensures LeadStep(i, lead, env).value.lines[8] == AverageLine(LeadStep(i, lead, env).value.average, env)
  {
    LeadStepSection(i, lead, env);
  }

  lemma SectionAfterSummary<T>(report: seq<T>, summary: T, lines: seq<T>, section: seq<T>, i: nat)
    requires report == [summary] + lines
    requires 1 + 9 * (i + 1) <= |lines| && lines[1 + 9 * i .. 1 + 9 * (i + 1)] == section
    ensures report[2 + 9 * i .. 2 + 9 * (i + 1)] == section
  {
    assert report[2 + 9 * i .. 2 + 9 * (i + 1)] == lines[1 + 9 * i .. 1 + 9 * (i + 1)];
  }

  /** The overall score is the mean of the per-lead averages, lead by lead. */
  lemma OverallIsMeanOfLeads(load: Result<seq<Row>, string>, numSamples: nat, date: string, env: Services)
    requires RunSpec(load, numSamples, date, env).Written?
    ensures load.Success?
    ensures forall i :: 0 <= i < |load.value| ==> LeadStep(i, load.value[i], env).Success?
    ensures RunSpec(load, numSamples, date, env).overall
              == Mean(seq(|load.value|, i requires 0 <= i < |load.value| => LeadStep(i, load.value[i], env).value.average))
  {
    var leads := load.value;
    var steps := LeadSteps(leads, env);
    var t := Progress(steps, |leads|, date, env).value;
    forall i | 0 <= i < |leads| ensures LeadStep(i, leads[i], env).Success? && t.averages[i] == LeadStep(i, leads[i], env).value.average {
      ProgressSections(steps, |leads|, date, env, i);
    }
    assert t.averages == seq(|leads|, i requires 0 <= i < |leads| => LeadStep(i, leads[i], env).value.average);
  }

  /** Values all within [lo, hi] add up to within [n·lo, n·hi]. */
  lemma {:induction false} SumBounds(xs: seq<real>, lo: real, hi: real)
    requires forall k :: 0 <= k < |xs| ==> lo <= xs[k] <= hi
    ensures |xs| as real * lo <= SumReal(xs) <= |xs| as real * hi
  {
    if |xs| > 0 {
      SumBounds(xs[..|xs| - 1], lo, hi);
    }
  }

  /** A quotient of a total between n·lo and n·hi by n > 0 lies in [lo, hi]. */
  lemma QuotientBounds(total: real, n: real, lo: real, hi: real)
    requires n > 0.0 && n * lo <= total <= n * hi
    ensures lo <= total / n <= hi
  {
  }

  /** Values on the 0 to 10 scale have a mean on that scale: jurist scores
      in range give per-lead averages in range, and per-lead averages in
      range give an overall score in range. */
  lemma MeanInRange(xs: seq<real>)
    requires forall k :: 0 <= k < |xs| ==> 0.0 <= xs[k] <= 10.0
    ensures 0.0 <= Mean(xs) <= 10.0
  {
    SumBounds(xs, 0.0, 10.0);
    if |xs| > 0 {
      QuotientBounds(SumReal(xs), |xs| as real, 0.0, 10.0);
    }
  }

  /** The report file. Opening it for writing replaces its contents. */
  class ReportFile {
    var lines: seq<string>
    var writes: nat

    constructor ()
      ensures lines == [] && writes == 0
    {
      lines := [];
      writes := 0;
    }

    /** `f.writelines(lines)` on a freshly truncated file. */
    method WriteLines(report: seq<string>)
      modifies this
      ensures lines == report && writes == old(writes) + 1
    {
      lines := report;
      writes := writes + 1;
    }
  }

  /** A verdict that raises ends the reading of the whole panel. */
  lemma ReadStops(vs: seq<Json>, j: nat, showJson: Json -> string)
    requires j < |vs| && ReadVerdicts(vs, j, showJson).Success?
    requires ReadVerdict(vs[j], showJson).Failure?
    ensures ReadVerdicts(vs, |vs|, showJson) == Failure(ReadVerdict(vs[j], showJson).error)
  {
    ReadFailurePersists(vs, j + 1, |vs|, showJson);
  }

  /** A lead whose pipeline and verdicts succeed yields its section and
      its average. */
  lemma LeadStepSucceeds(i: nat, lead: Row, env: Services, result: Rag.RagResult, read: seq<Verdict>)
    requires Rag.RunRagPipeline(LeadProfile(lead), env.showNumber, env.apiKey, env.gemini) == Success(result)
    requires ReadVerdicts(Verdicts(Jury.JuryPanel(), result, LeadProfile(lead), env), |Jury.JuryPanel()|, env.showJson) == Success(read)
    ensures LeadStep(i, lead, env) == Success(LeadResult(
              Opening(i, lead, result, env) + JurorLines(Jury.JuryPanel(), read) + [AverageLine(Mean(Scores(read)), env)],
              Mean(Scores(read))))
  {
  }

  /** One more lead that succeeds extends the state by its section, its
      average and its latency. */
  lemma ProgressStep(steps: seq<Result<LeadResult, string>>, k: nat, date: string, env: Services,
                     lines: seq<string>, averages: seq<real>, latency: real, step: LeadResult)
    requires k < |steps| && NineLines(steps)
    requires Progress(steps, k, date, env) == Success(Totals(lines, averages, latency))
    requires steps[k] == Success(step)
    ensures Progress(steps, k + 1, date, env)
              == Success(Totals(lines + step.lines, averages + [step.average], latency + env.latency(k)))
  {
  }

  /** A lead that raises ends the run with its exception. */
  lemma ProgressStops(steps: seq<Result<LeadResult, string>>, k: nat, date: string, env: Services)
    requires k < |steps| && NineLines(steps)
    requires Progress(steps, k, date, env).Success? && steps[k].Failure?
    ensures Progress(steps, |steps|, date, env) == Failure(steps[k].error)
  {
    ProgressFailurePersists(steps, k + 1, |steps|, date, env);
  }

  /** One more verdict read adds its score and its bullet at the end. */
  lemma ReadOneMore(panel: seq<Jury.Jurist>, read: seq<Verdict>, v: Verdict)
    requires |read| < |panel|
    ensures Scores(read + [v]) == Scores(read) + [v.score]
    ensures JurorLines(panel, read + [v]) == JurorLines(panel, read) + [JurorLine(panel[|read|].name, v)]
  {
  }

  /** Reading one more verdict that does not raise appends it. */
  lemma ReadNext(vs: seq<Json>, j: nat, showJson: Json -> string, read: seq<Verdict>, v: Verdict)
    requires j < |vs| && ReadVerdicts(vs, j, showJson) == Success(read)
    requires ReadVerdict(vs[j], showJson) == Success(v)
    ensures ReadVerdicts(vs, j + 1, showJson) == Success(read + [v])
  {
  }

  /** The loop over the panel in `run_evaluation` (called with the jury
      panel): each jurist judges the draft, the verdict is read, and its
      score and its bullet are recorded, in panel order; a verdict that
      raises ends the loop. */
  method JudgeDraft(panel: seq<Jury.Jurist>, result: Rag.RagResult, profile: Row, env: Services)
    returns (r: Result<seq<Verdict>, string>, lines: seq<string>, scores: seq<real>)
    ensures r == ReadVerdicts(Verdicts(panel, result, profile, env), |panel|, env.showJson)
    ensures r.Success? ==> lines == JurorLines(panel, r.value) && scores == Scores(r.value)
  {
    ghost var vs := Verdicts(panel, result, profile, env);
    var read: seq<Verdict> := [];
    lines, scores := [], [];
    for j := 0 to |panel|
      invariant ReadVerdicts(vs, j, env.showJson) == Success(read)
      invariant scores == Scores(read)
      invariant lines == JurorLines(panel, read)
    {
      var verdict := Jury.Evaluate(panel[j], result.emailDraft, profile, result.recommendedProduct, env.llm, env.parse);
      assert verdict == vs[j];
      var v := ReadVerdict(verdict, env.showJson);
      if v.Failure? {
        ReadStops(vs, j, env.showJson);
        return Failure(v.error), lines, scores;
      }
      ReadOneMore(panel, read, v.value);
      ReadNext(vs, j, env.showJson, read, v.value);
      scores := scores + [v.value.score];
      lines := lines + [JurorLine(panel[j].name, v.value)];
      read := read + [v.value];
    }
    r := Success(read);
  }

  /** The body of the loop over the leads in `run_evaluation` for lead
      `i`: the RAG pipeline, the opening lines, the panel's bullets and the
      lead's average. */
  method EvaluateLead(i: nat, lead: Row, env: Services) returns (r: Result<LeadResult, string>)
    ensures r == LeadStep(i, lead, env)
  {
    var profile := LeadProfile(lead);
    var result := Rag.RunRagPipeline(profile, env.showNumber, env.apiKey, env.gemini);
    if result.Failure? {
      return Failure(result.error);
    }
    var opening := Opening(i, lead, result.value, env);
    var read, jurorLines, leadScores := JudgeDraft(Jury.JuryPanel(), result.value, profile, env);
    if read.Failure? {
      return Failure(read.error);
    }
    LeadStepSucceeds(i, lead, env, result.value, read.value);
    var average := SumReal(leadScores) / |leadScores| as real;
    return Success(LeadResult(opening + jurorLines + [AverageLine(average, env)], average));
  }

  /** The processing of lead `i` inside the loop over the leads: its
      outcome is step `i`. */
  method EvaluateLeadAt(leads: seq<Row>, i: nat, env: Services, ghost steps: seq<Result<LeadResult, string>>)
    returns (r: Result<LeadResult, string>)
    requires i < |leads| && StepsOf(steps, leads, env)
    ensures r == steps[i]
  {
    r := EvaluateLead(i, leads[i], env);
  }

  /** The loop over the leads in `run_evaluation`: each lead's section is
      appended to the report, its average to the total score and its
      latency to the total latency; the first exception ends the loop. */
  method EvaluateLeads(leads: seq<Row>, date: string, env: Services, ghost steps: seq<Result<LeadResult, string>>)
    returns (error: Option<string>, reportLines: seq<string>, totalLatency: real, grandTotal: real, totalEvals: nat)
    requires StepsOf(steps, leads, env)
    ensures var run := Progress(steps, |leads|, date, env);
            && (run.Failure? ==> error == Some(run.error))
            && (run.Success? ==> && error.None?
                                 && reportLines == run.value.lines
                                 && totalLatency == run.value.latency
                                 && grandTotal == SumReal(run.value.averages)
                                 && totalEvals == |leads|)
  {
    reportLines := [Title(date)];
    grandTotal := 0.0;
    totalLatency := 0.0;
    totalEvals := 0;
    ghost var averages: seq<real> := [];

    for i := 0 to |leads|
      invariant Progress(steps, i, date, env) == Success(Totals(reportLines, averages, totalLatency))
      invariant grandTotal == SumReal(averages) && totalEvals == |averages| == i
    {
      var step := EvaluateLeadAt(leads, i, env, steps);
      if step.Failure? {
        ProgressStops(steps, i, date, env);
        return Some(step.error), reportLines, totalLatency, grandTotal, totalEvals;
      }
      ProgressStep(steps, i, date, env, reportLines, averages, totalLatency, step.value);
      totalLatency := totalLatency + env.latency(i);
      reportLines := reportLines + step.value.lines;
      grandTotal := grandTotal + step.value.average;
      totalEvals := totalEvals + 1;
      averages := averages + [step.value.average];
    }
    error := None;
  }

  /** `run_evaluation`: the loop over the leads, then the summary put at
      the front of the report and the report written exactly once; nothing
      is written when the data does not load or the run raises. */
  method RunEvaluation(load: Result<seq<Row>, string>, numSamples: nat, date: string, env: Services,
                       file: ReportFile) returns (outcome: Outcome)
    modifies file
    ensures outcome == RunSpec(load, numSamples, date, env)
    ensures outcome.Written? ==> file.lines == outcome.report && file.writes == old(file.writes) + 1
    ensures !outcome.Written? ==> file.lines == old(file.lines) && file.writes == old(file.writes)
  {
    if load.Failure? {
      return LoadFailed(load.error);
    }
    var error, reportLines, totalLatency, grandTotal, totalEvals :=
      EvaluateLeads(load.value, date, env, LeadSteps(load.value, env));
    if error.Some? {
      return Crashed(error.value);
    }
    if numSamples == 0 {
      return Crashed(ZeroDivisionError);
    }
    var averageLatency := totalLatency / numSamples as real;
    var overall := if totalEvals > 0 then grandTotal / totalEvals as real else 0.0;
    reportLines := [Summary(overall, averageLatency, env)] + reportLines;
    file.WriteLines(reportLines);
    return Written(reportLines, overall, averageLatency);
  }
}
