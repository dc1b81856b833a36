/** The rule-based retrieval and email generation of `rag_service`: a lead
    profile picks one of four catalogue products, the product picks its
    details text, and the generator writes the email. */
module Rag {
  import opened Wrappers
  import opened Text
  import opened Table

  /** The three catalogue product lines. */
  const UltrastarLine: string := "Ultrastar DC HC550"
  const GamingLine: string := "WD_BLACK SN850X"
  const SanDiskLine: string := "SanDisk Professional G-DRIVE"

  /** The four products retrieval can recommend: a product line and the
      offering it is pitched as. */
  const GamingProduct: string := GamingLine + " (NVMe SSD for Gaming)"
  const DataCenterProduct: string := UltrastarLine + " (18TB HDD for Data Centers)"
  const CreativeProduct: string := SanDiskLine + " (External Storage)"
  const FallbackProduct: string := UltrastarLine + " (Standard B2B Offering)"

  const Products: set<string> := {GamingProduct, DataCenterProduct, CreativeProduct, FallbackProduct}

  const UltrastarDetails: string :=
    "18TB HDD for Data Centers/Hyperscale. High capacity, low TCO. Ideal for Cloud providers."
  const GamingDetails: string :=
    "NVMe SSD for Gaming/High-Performance. Blazing fast speeds. Ideal for Gamers and PC builders."
  const SanDiskDetails: string :=
    "External storage for Creative Professionals. Rugged, reliable. enterprise-class Ultrastar drive inside."
  const GenericDetails: string := "High quality storage solution from Western Digital."

  /** `str(lead_profile.get(key, '')).lower()`: an absent field reads as the
      empty text; how a number prints is left to `showNumber`. */
  function Signal(profile: Row, key: string, showNumber: real -> string): (r: string)
    ensures key !in profile ==> r == ""
    ensures var text := Str(Get(profile, key, Text("")), showNumber);
            && |r| == |text|
            && (forall i :: 0 <= i < |r| ==> r[i] == LowerChar(text[i]))
            && (forall i :: 0 <= i < |r| ==> !('A' <= r[i] <= 'Z'))
  {
    ToLower(Str(Get(profile, key, Text("")), showNumber))
  }

  /** The three rules, tested on the lower-cased signals. */
  predicate GamingRule(tags: string, specialization: string) {
    Contains(tags, "games") || Contains(specialization, "hardware")
  }

  predicate DataCenterRule(tags: string, source: string) {
    Contains(tags, "data") || Contains(tags, "business") || Contains(source, "logic")
  }

  predicate CreativeRule(tags: string, specialization: string) {
    Contains(tags, "media") || Contains(tags, "creative") || Contains(specialization, "design")
  }

  /** The product the rules choose from the three lower-cased signals: the
      first rule that holds wins, and the fallback is taken when none does. */
  function Choose(tags: string, source: string, specialization: string): (r: string)
    ensures r in Products
    ensures r == GamingProduct <==> GamingRule(tags, specialization)
    ensures r == DataCenterProduct <==> !GamingRule(tags, specialization) && DataCenterRule(tags, source)
    ensures r == CreativeProduct <==>
              !GamingRule(tags, specialization) && !DataCenterRule(tags, source) && CreativeRule(tags, specialization)
    ensures r == FallbackProduct <==>
              !GamingRule(tags, specialization) && !DataCenterRule(tags, source) && !CreativeRule(tags, specialization)
  {
    if GamingRule(tags, specialization) then GamingProduct
    else if DataCenterRule(tags, source) then DataCenterProduct
    else if CreativeRule(tags, specialization) then CreativeProduct
    else FallbackProduct
  }

  /** `retrieve_product`: the rules applied to the lower-cased tags, lead
      source and specialization of the profile. */
  function RetrieveProduct(profile: Row, showNumber: real -> string): (r: string)
    ensures r in Products
    ensures r == Choose(Signal(profile, "Tags", showNumber), Signal(profile, "Lead Source", showNumber),
                        Signal(profile, "Specialization", showNumber))
  {
    Choose(Signal(profile, "Tags", showNumber), Signal(profile, "Lead Source", showNumber),
           Signal(profile, "Specialization", showNumber))
  }

  /** A text too short for a pattern does not contain it. */
  lemma ShortMisses(s: string, sub: string)
    requires |s| < |sub|
    ensures !Contains(s, sub)
  {
  }

  /** A profile with none of the three fields gets the fallback product. */
  lemma EmptyProfileGetsFallback(showNumber: real -> string)
    ensures RetrieveProduct(map[], showNumber) == FallbackProduct
  {
    var none: Row := map[];
    assert Signal(none, "Tags", showNumber) == "";
    assert Signal(none, "Lead Source", showNumber) == "";
    assert Signal(none, "Specialization", showNumber) == "";
    ShortMisses("", "games");
    ShortMisses("", "hardware");
    ShortMisses("", "data");
    ShortMisses("", "business");
    ShortMisses("", "logic");
    ShortMisses("", "media");
    ShortMisses("", "creative");
    ShortMisses("", "design");
  }

  /** Retrieval looks at the three fields only through their lower-cased
      text: two profiles that agree on it get the same product. */
  lemma RetrievalSeesOnlyLowerCase(p: Row, q: Row, showNumber: real -> string)
    requires forall key :: key in ["Tags", "Lead Source", "Specialization"] ==>
               ToLower(Str(Get(p, key, Text("")), showNumber)) == ToLower(Str(Get(q, key, Text("")), showNumber))
    ensures RetrieveProduct(p, showNumber) == RetrieveProduct(q, showNumber)
  {
    assert Signal(p, "Tags", showNumber) == Signal(q, "Tags", showNumber);
    assert Signal(p, "Lead Source", showNumber) == Signal(q, "Lead Source", showNumber);
    assert Signal(p, "Specialization", showNumber) == Signal(q, "Specialization", showNumber);
  }

  /** Matching ignores case: writing a profile's text fields in capitals
      does not change the product. */
  lemma RetrievalIgnoresCase(tags: string, source: string, specialization: string, showNumber: real -> string)
    ensures var lower := map["Tags" := Text(tags), "Lead Source" := Text(source), "Specialization" := Text(specialization)];
            var upper := map["Tags" := Text(ToUpper(tags)), "Lead Source" := Text(ToUpper(source)),
                             "Specialization" := Text(ToUpper(specialization))];
            RetrieveProduct(upper, showNumber) == RetrieveProduct(lower, showNumber)
  {
    LowerIgnoresCase(tags);
    LowerIgnoresCase(source);
    LowerIgnoresCase(specialization);
    var lower := map["Tags" := Text(tags), "Lead Source" := Text(source), "Specialization" := Text(specialization)];
    var upper := map["Tags" := Text(ToUpper(tags)), "Lead Source" := Text(ToUpper(source)),
                     "Specialization" := Text(ToUpper(specialization))];
    RetrievalSeesOnlyLowerCase(upper, lower, showNumber);
  }

  /** `get_product_details`: "Ultrastar" is tested first, then "WD_BLACK",
      then "SanDisk", with the generic text as default. */
  function GetProductDetails(productName: string): (d: string)
    ensures Contains(productName, "Ultrastar") ==> d == UltrastarDetails
    ensures !Contains(productName, "Ultrastar") && Contains(productName, "WD_BLACK") ==> d == GamingDetails
    ensures (!Contains(productName, "Ultrastar") && !Contains(productName, "WD_BLACK")
             && Contains(productName, "SanDisk")) ==> d == SanDiskDetails
    ensures d == GenericDetails <==>
              !Contains(productName, "Ultrastar") && !Contains(productName, "WD_BLACK") && !Contains(productName, "SanDisk")
  {
    if Contains(productName, "Ultrastar") then UltrastarDetails
    else if Contains(productName, "WD_BLACK") then GamingDetails
    else if Contains(productName, "SanDisk") then SanDiskDetails
    else GenericDetails
  }

  /** The WD_BLACK product names WD_BLACK and not Ultrastar. */
  lemma GamingProductNames()
    ensures !Contains(GamingProduct, "Ultrastar") && Contains(GamingProduct, "WD_BLACK")
  {
    assert 'U' !in GamingLine && 'U' !in " (NVMe SSD for Gaming)";
    MissingCharRulesOut(GamingProduct, "Ultrastar", 'U');
    assert GamingLine[..8] == "WD_BLACK";
    PrefixContained(GamingProduct, "WD_BLACK");
  }

  /** The SanDisk product names SanDisk and neither Ultrastar nor WD_BLACK. */
  lemma CreativeProductNames()
    ensures !Contains(CreativeProduct, "Ultrastar") && !Contains(CreativeProduct, "WD_BLACK")
    ensures Contains(CreativeProduct, "SanDisk")
  {
    assert 'U' !in SanDiskLine && 'U' !in " (External Storage)";
    assert '_' !in SanDiskLine && '_' !in " (External Storage)";
    MissingCharRulesOut(CreativeProduct, "Ultrastar", 'U');
    MissingCharRulesOut(CreativeProduct, "WD_BLACK", '_');
    assert SanDiskLine[..7] == "SanDisk";
    PrefixContained(CreativeProduct, "SanDisk");
  }

  /** Both Ultrastar offerings name Ultrastar. */
  lemma UltrastarProductsName()
    ensures Contains(DataCenterProduct, "Ultrastar") && Contains(FallbackProduct, "Ultrastar")
  {
    assert UltrastarLine[..9] == "Ultrastar";
    PrefixContained(DataCenterProduct, "Ultrastar");
    PrefixContained(FallbackProduct, "Ultrastar");
  }

  /** Every product retrieval can return has its own details: the two
      Ultrastar offerings the Ultrastar text, WD_BLACK the gaming text,
      SanDisk the SanDisk text, and never the generic default. */
  lemma DetailsMatchProduct(product: string)
    requires product in Products
    ensures product == DataCenterProduct || product == FallbackProduct ==>
              GetProductDetails(product) == UltrastarDetails
    ensures product == GamingProduct ==> GetProductDetails(product) == GamingDetails
    ensures product == CreativeProduct ==> GetProductDetails(product) == SanDiskDetails
    ensures GetProductDetails(product) != GenericDetails
  {
    if product == GamingProduct {
      GamingProductNames();
    } else if product == CreativeProduct {
      CreativeProductNames();
    } else {
      UltrastarProductsName();
    }
  }

  /** The values the email prompt is filled with. */
  datatype EmailInputs = EmailInputs(
    timeOnSite: Cell, source: Cell, tags: Cell, productName: string, productDetails: string)

  /** The email prompt's inputs: time on site, source and tags from the
      profile, defaulting to 0, 'Website' and 'General Interest'. */
  function EmailPrompt(profile: Row, productName: string, productDetails: string): (p: EmailInputs)
    ensures p.timeOnSite == Get(profile, "Total Time Spent on Website", Number(0.0))
    ensures p.source == Get(profile, "Lead Source", Text("Website"))
    ensures p.tags == Get(profile, "Tags", Text("General Interest"))
    ensures p.productName == productName && p.productDetails == productDetails
  {
    EmailInputs(Get(profile, "Total Time Spent on Website", Number(0.0)),
                Get(profile, "Lead Source", Text("Website")),
                Get(profile, "Tags", Text("General Interest")),
                productName, productDetails)
  }

  const MissingKeyMessage: string :=
    "Error: GEMINI_API_KEY environment variable not set. Please set it to generate emails."

  /** `generate_email_content`: with no `GEMINI_API_KEY` (unset or empty)
      the email is the fixed error text; otherwise it is what the Gemini
      chat model writes for the prompt, and its failure propagates. */
  function GenerateEmailContent(profile: Row, productName: string, productDetails: string,
                                apiKey: Option<string>,
                                gemini: (string, EmailInputs) -> Result<string, string>): (email: Result<string, string>)
    ensures apiKey.None? || apiKey.value == "" ==> email == Success(MissingKeyMessage)
    ensures apiKey.Some? && apiKey.value != "" ==>
              email == gemini(apiKey.value, EmailPrompt(profile, productName, productDetails))
  {
    if apiKey.None? || apiKey.value == "" then Success(MissingKeyMessage)
    else gemini(apiKey.value, EmailPrompt(profile, productName, productDetails))
  }

  /** The dictionary `run_rag_pipeline` returns. */
  datatype RagResult = RagResult(recommendedProduct: string, emailDraft: string)

  /** `run_rag_pipeline`: the retrieved product, and the email generated
      for it with its details. */
  function RunRagPipeline(profile: Row, showNumber: real -> string, apiKey: Option<string>,
                          gemini: (string, EmailInputs) -> Result<string, string>): (r: Result<RagResult, string>)
    ensures var product := RetrieveProduct(profile, showNumber);
            var email := GenerateEmailContent(profile, product, GetProductDetails(product), apiKey, gemini);
            && (email.Failure? ==> r == Failure(email.error))
            && (email.Success? ==> r == Success(RagResult(product, email.value)))
    ensures r.Success? ==> r.value.recommendedProduct in Products
  {
    var product := RetrieveProduct(profile, showNumber);
    var details := GetProductDetails(product);
    match GenerateEmailContent(profile, product, details, apiKey, gemini)
    case Failure(e) => Failure(e)
    case Success(email) => Success(RagResult(product, email))
  }

  /** Without an API key the pipeline still recommends a product and
      returns the fixed error text as the email draft. */
  lemma PipelineWithoutKey(profile: Row, showNumber: real -> string,
                           gemini: (string, EmailInputs) -> Result<string, string>)
    ensures RunRagPipeline(profile, showNumber, None, gemini)
              == Success(RagResult(RetrieveProduct(profile, showNumber), MissingKeyMessage))
  {
  }

  /** With a key, Gemini is asked about the retrieved product with that
      product's own details, never the generic text. */
  lemma PipelinePromptUsesDetails(profile: Row, showNumber: real -> string, key: string)
    requires key != ""
    ensures var product := RetrieveProduct(profile, showNumber);
            var prompt := EmailPrompt(profile, product, GetProductDetails(product));
            prompt.productName in Products && prompt.productDetails != GenericDetails
  {
    DetailsMatchProduct(RetrieveProduct(profile, showNumber));
  }
}
