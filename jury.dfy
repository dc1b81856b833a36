/** The corporate jury of the evaluation harness: a jurist and its verdict
    on an email draft, and the fixed three-member panel. */
module Jury {
  import opened Wrappers
  import opened Text
  import opened Table
  import opened Json

  /** A jurist. Its fields are set once, at construction. */
  datatype Jurist = Jurist(
    name: string,
    roleDescription: string,
    evaluationCriteria: string,
    model: string,
    temperature: real)

  const DefaultModel: string := "mistral"

  /** The low sampling temperature every jurist's chat model is built with. */
  const JudgingTemperature: real := 0.1

  /** `Jurist(name, role_description, evaluation_criteria, model="mistral")`:
      the given fields, the model named or "mistral" by default, and a
      chat model at temperature 0.1. */
  function NewJurist(name: string, roleDescription: string, evaluationCriteria: string,
                     model: string := DefaultModel): (j: Jurist)
    ensures j.name == name && j.roleDescription == roleDescription
    ensures j.evaluationCriteria == evaluationCriteria
    ensures j.model == model && j.temperature == JudgingTemperature
  {
    Jurist(name, roleDescription, evaluationCriteria, model, JudgingTemperature)
  }

  /** The members of `JURY_PANEL`, in panel order: the sales director, the
      brand manager and the compliance officer, each on the default model.
      The long texts are written as short literals joined together, which
      keeps the verifier's reasoning about them small. */
  function PanelMember(k: nat): (j: Jurist)
    requires k < 3
    ensures j.model == DefaultModel && j.temperature == JudgingTemperature
  {
    if k == 0 then
      NewJurist(
        "Sales Director",
        "You are the VP of Sales "
        + "at Western Digital. You "
        + "care about conversion, "
        + "persuasion, and clear "
        + "Call-to-Actions (CTA).",
        "Rate the email 1-10 "
        + "based on how likely it "
        + "is to get a meeting. "
        + "Does it show value? Is "
        + "the CTA clear? Is it "
        + "too long?")
    else if k == 1 then
      NewJurist(
        "Brand Manager",
        "You are the Brand "
        + "Manager. You care about "
        + "tone, professionalism, "
        + "and voice.",
        "Rate the email 1-10 "
        + "based on "
        + "professionalism. Is the "
        + "tone appropriate for a "
        + "premium B2B tech "
        + "company? Is it too "
        + "pushy or too casual?")
    else
      NewJurist(
        "Compliance Officer",
        "You are the Legal & "
        + "Compliance Officer. You "
        + "care strictly about "
        + "factual accuracy and "
        + "avoiding liability.",
        "Rate the email 1-10 "
        + "based on factual "
        + "accuracy. Does the "
        + "email invent features "
        + "not mentioned in the "
        + "product name? (e.g. "
        + "promising 'Cloud "
        + "features' for a simple "
        + "drive if not "
        + "applicable). 10 = "
        + "Safe/Accurate, 1 = "
        + "Hallucination.")
  }

  /** `JURY_PANEL`: three jurists, every one on the default model at the
      judging temperature. */
  function JuryPanel(): (panel: seq<Jurist>)
    ensures |panel| == 3
    ensures forall k :: 0 <= k < |panel| ==> panel[k].model == DefaultModel && panel[k].temperature == JudgingTemperature
  {
    seq(3, k requires 0 <= k < 3 => PanelMember(k))
  }

  /** The panel sits in the order sales director, brand manager,
      compliance officer. */
  lemma JuryPanelOrder()
    ensures JuryPanel()[0].name == "Sales Director"
    ensures JuryPanel()[1].name == "Brand Manager"
    ensures JuryPanel()[2].name == "Compliance Officer"
  {
  }

  /** The values the verdict prompt is filled with. */
  datatype PromptInputs = PromptInputs(
    roleDescription: string,
    leadSource: Cell,
    leadTags: Cell,
    product: string,
    emailDraft: string,
    evaluationCriteria: string)

  /** The prompt inputs of `evaluate`: the lead's source and tags, with
      'Unknown' and 'None' for a key the context lacks. */
  function Inputs(j: Jurist, draft: string, context: Row, product: string): (p: PromptInputs)
    ensures p.roleDescription == j.roleDescription && p.evaluationCriteria == j.evaluationCriteria
    ensures p.product == product && p.emailDraft == draft
    ensures p.leadSource == if "Lead Source" in context then context["Lead Source"] else Text("Unknown")
    ensures p.leadTags == if "Tags" in context then context["Tags"] else Text("None")
  {
    PromptInputs(j.roleDescription, Get(context, "Lead Source", Text("Unknown")),
                 Get(context, "Tags", Text("None")), product, draft, j.evaluationCriteria)
  }

  const JsonFence: string := "```json"

  /** A "```json" marker holds a fence. */
  lemma JsonFenceHoldsFence(s: string)
    requires Contains(s, JsonFence)
    ensures Contains(s, Fence)
  {
    var i :| 0 <= i <= |s| - |JsonFence| && OccursAt(s, JsonFence, i);
    assert s[i..i + |Fence|] == s[i..i + |JsonFence|][..|Fence|];
    assert OccursAt(s, Fence, i);
  }

  /** The response cleanup: surrounding whitespace stripped, then every
      "```json" and then every "```" removed. No fence survives, and a
      response without fences is only stripped. */
  function Clean(response: string): (r: string)
    ensures !Contains(r, Fence)
    ensures !Contains(Strip(response), Fence) ==> r == Strip(response)
  {
    var stripped := Strip(response);
    var unmarked := ReplaceAll(stripped, JsonFence, "");
    NoFenceAfterRemoval(unmarked);
    assert Contains(stripped, JsonFence) ==> Contains(stripped, Fence) by {
      if Contains(stripped, JsonFence) { JsonFenceHoldsFence(stripped); }
    }
    ReplaceAll(unmarked, Fence, "")
  }

  /** The sentinel verdict for an exception with message `message`. */
  function FailedVerdict(message: string): Json {
    JObject(map["score" := JInt(0), "reasoning" := JString("Evaluation Failed: " + message)])
  }

  /** `Jurist.evaluate`: the chat model (`llm`, given the jurist's model
      name and temperature) answers the prompt, and the cleaned answer is
      parsed (`parse` is `json.loads`). Either step failing yields the
      sentinel verdict with that step's message; otherwise the parsed
      value is returned whatever its shape or score. */
  function Evaluate(j: Jurist, draft: string, context: Row, product: string,
                    llm: (string, real, PromptInputs) -> Result<string, string>,
                    parse: string -> Result<Json, string>): (verdict: Json)
    ensures var answer := llm(j.model, j.temperature, Inputs(j, draft, context, product));
            && (answer.Failure? ==> verdict == FailedVerdict(answer.error))
            && (answer.Success? && parse(Clean(answer.value)).Failure? ==>
                  verdict == FailedVerdict(parse(Clean(answer.value)).error))
            && (answer.Success? && parse(Clean(answer.value)).Success? ==>
                  verdict == parse(Clean(answer.value)).value)
  {
    match llm(j.model, j.temperature, Inputs(j, draft, context, product))
    case Failure(e) => FailedVerdict(e)
    case Success(answer) =>
      match parse(Clean(answer))
      case Failure(e) => FailedVerdict(e)
      case Success(v) => v
  }

  /** What `json.loads` is given never holds a code fence, so a parse that
      succeeds only on fence-free text sees the cleaned answer. */
  lemma ParserNeverSeesFence(response: string)
    ensures !Contains(Clean(response), Fence)
    ensures !Contains(Clean(response), JsonFence)
  {
    if Contains(Clean(response), JsonFence) {
      JsonFenceHoldsFence(Clean(response));
    }
  }

  /** A failed evaluation is an object with score 0 and a reasoning that
      starts with "Evaluation Failed: ". */
  lemma FailedVerdictShape(message: string)
    ensures FailedVerdict(message).JObject?
    ensures FailedVerdict(message).fields["score"] == JInt(0)
    ensures var reason := FailedVerdict(message).fields["reasoning"];
            reason.JString? && reason.s[..19] == "Evaluation Failed: "
  {
  }
}
