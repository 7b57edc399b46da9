/** The proposal calls: generating a proposal from RFP requirements and the
    company's assets (prompt with "None provided" defaults, the same reply
    cleaning as the deal analysis), and extracting requirements from an RFP
    (the reply only trimmed). */
module ProposalAi {
  import opened Wrappers
  import opened Text
  import opened Fences
  import opened Inference
  import opened Json

  const GenerateFailed: string := "Failed to generate proposal"
  const ExtractFailed: string := "Failed to extract RFP requirements"

  const GenerateMaxTokens: nat := 4000
  const ExtractMaxTokens: nat := 2000

  /** The shape a proposal reply is cast to, unchecked. */
  datatype ProposalContent = ProposalContent(
    executiveSummary: JsValue,
    understandingOfRequirements: JsValue,
    proposedApproach: JsValue,
    teamAndQualifications: JsValue,
    pricing: JsValue,
    termsAndConditions: JsValue)

  /** The optional asset texts; None is an absent (undefined) field. */
  datatype CompanyAssets = CompanyAssets(
    pastProposals: Option<string>,
    caseStudies: Option<string>,
    pricingModels: Option<string>)

  const NoneProvided: string := "None provided"

  /** `field || 'None provided'`: JavaScript's `||` treats both undefined and
      the empty string as false. The marker is never empty, and a field that
      already holds the marker's text cannot be told from an absent one. */
  function AssetText(field: Option<string>): (r: string)
    ensures r != ""
    ensures r == NoneProvided <==> field == None || field == Some("") || field == Some(NoneProvided)
    ensures field.Some? && field.value != "" ==> r == field.value
  {
    if field.None? || field.value == "" then NoneProvided else field.value
  }

  // As for the deal analysis, the templates are written as short
  // concatenated pieces; joined with the requirements, the asset lines and
  // the RFP text they spell the prompts of proposalai/lib/ai.ts character
  // for character.
  const ProposalHead: string :=
    "You are an expert proposal writer."
    + " Generate a professional consulting"
    + " proposal based on:\n"
    + "\n"
    + "RFP Requirements: "

  const AssetsHeading: string := "\n\nCompany Assets:\n"
  const PastProposalsLabel: string := "- Past Proposals: "

  const CaseStudiesLabel: string := "\n- Case Studies: "
  const PricingModelsLabel: string := "\n- Pricing Models: "

  const ProposalTail: string :=
    "\n"
    + "\n"
    + "Create a proposal with these sections"
    + " in JSON format:\n"
    + "{\n"
    + "  \"executiveSummary\": \"<2-3 paragraphs"
    + " summarizing the proposal>\",\n"
    + "  \"understandingOfRequirements\":"
    + " \"<restate their needs and show you"
    + " understand>\",\n"
    + "  \"proposedApproach\": \"<methodology,"
    + " timeline, deliverables>\",\n"
    + "  \"teamAndQualifications\": \"<reference"
    + " relevant past work and expertise>\",\n"
    + "  \"pricing\": \"<based on scope and"
    + " company's pricing model>\",\n"
    + "  \"termsAndConditions\": \"<standard"
    + " terms and conditions>\"\n"
    + "}\n"
    + "\n"
    + "Make it professional, persuasive, and"
    + " specific to this client's needs."
    + " Provide ONLY valid JSON, no markdown"
    + " formatting."

  function PastProposalsLine(assets: CompanyAssets): string
  {
    PastProposalsLabel + AssetText(assets.pastProposals)
  }

  function CaseStudiesLine(assets: CompanyAssets): string
  {
    CaseStudiesLabel + AssetText(assets.caseStudies)
  }

  function PricingModelsLine(assets: CompanyAssets): string
  {
    PricingModelsLabel + AssetText(assets.pricingModels)
  }

  /** Everything of the proposal prompt after the requirements. */
  function AssetsSection(assets: CompanyAssets): string
  {
    AssetsHeading + (PastProposalsLine(assets) + (CaseStudiesLine(assets)
      + (PricingModelsLine(assets) + ProposalTail)))
  }

  function ProposalPrompt(rfpRequirements: string, assets: CompanyAssets): string
  {
    ProposalHead + rfpRequirements + AssetsSection(assets)
  }

  function ProposalRequest(rfpRequirements: string, assets: CompanyAssets): Request
  {
    Request(Model, GenerateMaxTokens, ProposalPrompt(rfpRequirements, assets))
  }

  /** generateProposal's handling of the completion: as for the deal analysis,
      with its own failure message. */
  function GenerateProposal(c: Completion, decode: string -> Option<ProposalContent>): (r: Result<ProposalContent>)
    ensures r.Failure? ==> r.error == GenerateFailed
    ensures FirstText(c).None? ==> r.Failure?
    ensures r.Success? <==> FirstText(c).Some? && decode(Clean(FirstText(c).value)).Some?
    ensures r.Success? ==> FirstText(c).Some? && decode(Clean(FirstText(c).value)) == Some(r.value)
  {
    match FirstText(c)
    case None => Failure(GenerateFailed)
    case Some(text) =>
      match decode(Clean(text))
      case None => Failure(GenerateFailed)
      case Some(content) => Success(content)
  }

  /** The proposal decoder, too, is only ever shown fence-free text. */
  lemma GenerateProposalSeesOnlyCleanText(c: Completion, decode1: string -> Option<ProposalContent>,
                                          decode2: string -> Option<ProposalContent>)
    requires forall s :: !Contains(s, BareFence) ==> decode1(s) == decode2(s)
    ensures GenerateProposal(c, decode1) == GenerateProposal(c, decode2)
  {
    if FirstText(c).Some? {
      CleanLeavesNoFence(FirstText(c).value);
    }
  }

  /** The requirements text stands verbatim in the prompt, right after its
      heading, and with the same assets different requirements give different
      prompts. */
  lemma ProposalPromptEmbedsRequirements(rfpRequirements: string, assets: CompanyAssets)
    ensures StartsWith(ProposalPrompt(rfpRequirements, assets), ProposalHead + rfpRequirements)
    ensures Contains(ProposalPrompt(rfpRequirements, assets), rfpRequirements)
  {
    var p := ProposalPrompt(rfpRequirements, assets);
    assert p[..|ProposalHead + rfpRequirements|] == ProposalHead + rfpRequirements;
    ContainsSpliced(ProposalHead, rfpRequirements, AssetsSection(assets));
  }

  lemma ProposalPromptDeterminesRequirements(rfpRequirements1: string, rfpRequirements2: string,
                                             assets: CompanyAssets)
    requires ProposalPrompt(rfpRequirements1, assets) == ProposalPrompt(rfpRequirements2, assets)
    ensures rfpRequirements1 == rfpRequirements2
  {
    SplicedInjective(ProposalHead, rfpRequirements1, rfpRequirements2, AssetsSection(assets));
  }

  /** Each asset's text, or the marker, stands verbatim in the prompt after its label. */
  lemma ProposalPromptEmbedsAssets(rfpRequirements: string, assets: CompanyAssets)
    ensures Contains(ProposalPrompt(rfpRequirements, assets), PastProposalsLine(assets))
    ensures Contains(ProposalPrompt(rfpRequirements, assets), CaseStudiesLine(assets))
    ensures Contains(ProposalPrompt(rfpRequirements, assets), PricingModelsLine(assets))
  {
    var p := ProposalPrompt(rfpRequirements, assets);
    var pricingOn := PricingModelsLine(assets) + ProposalTail;
    var casesOn := CaseStudiesLine(assets) + pricingOn;
    var pastOn := PastProposalsLine(assets) + casesOn;
    ContainsParts(ProposalHead + rfpRequirements, AssetsSection(assets));
    ContainsParts(AssetsHeading, pastOn);
    ContainsTransitive(p, AssetsSection(assets), pastOn);
    ContainsParts(PastProposalsLine(assets), casesOn);
    ContainsTransitive(p, pastOn, PastProposalsLine(assets));
    ContainsTransitive(p, pastOn, casesOn);
    ContainsParts(CaseStudiesLine(assets), pricingOn);
    ContainsTransitive(p, casesOn, CaseStudiesLine(assets));
    ContainsTransitive(p, casesOn, pricingOn);
    ContainsParts(PricingModelsLine(assets), ProposalTail);
    ContainsTransitive(p, pricingOn, PricingModelsLine(assets));
  }

  /** The prompt sees each asset only through its `|| 'None provided'` text. */
  lemma PromptSeesAssetTexts(rfpRequirements: string, assets1: CompanyAssets, assets2: CompanyAssets)
    requires AssetText(assets1.pastProposals) == AssetText(assets2.pastProposals)
    requires AssetText(assets1.caseStudies) == AssetText(assets2.caseStudies)
    requires AssetText(assets1.pricingModels) == AssetText(assets2.pricingModels)
    ensures ProposalPrompt(rfpRequirements, assets1) == ProposalPrompt(rfpRequirements, assets2)
  {
    assert PastProposalsLine(assets1) == PastProposalsLine(assets2);
    assert CaseStudiesLine(assets1) == CaseStudiesLine(assets2);
    assert PricingModelsLine(assets1) == PricingModelsLine(assets2);
    assert AssetsSection(assets1) == AssetsSection(assets2);
  }

  /** An empty asset field gives exactly the prompt an absent one does. */
  lemma EmptyAssetIsAbsent(rfpRequirements: string, assets: CompanyAssets)
    ensures ProposalPrompt(rfpRequirements, assets.(pastProposals := Some("")))
            == ProposalPrompt(rfpRequirements, assets.(pastProposals := None))
    ensures ProposalPrompt(rfpRequirements, assets.(caseStudies := Some("")))
            == ProposalPrompt(rfpRequirements, assets.(caseStudies := None))
    ensures ProposalPrompt(rfpRequirements, assets.(pricingModels := Some("")))
            == ProposalPrompt(rfpRequirements, assets.(pricingModels := None))
  {
    PromptSeesAssetTexts(rfpRequirements, assets.(pastProposals := Some("")), assets.(pastProposals := None));
    PromptSeesAssetTexts(rfpRequirements, assets.(caseStudies := Some("")), assets.(caseStudies := None));
    PromptSeesAssetTexts(rfpRequirements, assets.(pricingModels := Some("")), assets.(pricingModels := None));
  }

  const ExtractHead: string :=
    "Extract key requirements, scope,"
    + " deadlines, budget indicators, and"
    + " evaluation criteria from this RFP:\n"
    + "\n"
  const ExtractTail: string := "\n\nProvide a structured summary of all requirements."

  function ExtractionPrompt(rfpText: string): string
  {
    ExtractHead + rfpText + ExtractTail
  }

  function ExtractionRequest(rfpText: string): Request
  {
    Request(Model, ExtractMaxTokens, ExtractionPrompt(rfpText))
  }

  /** The RFP text stands verbatim in the extraction prompt, and different
      texts give different prompts. */
  lemma ExtractionPromptEmbedsText(rfpText1: string, rfpText2: string)
    ensures Contains(ExtractionPrompt(rfpText1), rfpText1)
    ensures ExtractionPrompt(rfpText1) == ExtractionPrompt(rfpText2) ==> rfpText1 == rfpText2
  {
    ContainsSpliced(ExtractHead, rfpText1, ExtractTail);
    if ExtractionPrompt(rfpText1) == ExtractionPrompt(rfpText2) {
      SplicedInjective(ExtractHead, rfpText1, rfpText2, ExtractTail);
    }
  }

  /** Both proposal requests name the fixed model; generation may produce up
      to 4000 tokens, extraction up to 2000. */
  lemma RequestsFixed(rfpRequirements: string, assets: CompanyAssets, rfpText: string)
    ensures ProposalRequest(rfpRequirements, assets).model == "claude-sonnet-4-20250514"
    ensures ProposalRequest(rfpRequirements, assets).maxTokens == 4000
    ensures ExtractionRequest(rfpText).model == "claude-sonnet-4-20250514"
    ensures ExtractionRequest(rfpText).maxTokens == 2000
  {
  }

  /** extractRFPRequirements's handling of the completion: the first block's
      text, trimmed and nothing else (no fence removal, no decoding). The result
      has no whitespace at its ends, so trimming it again changes nothing. */
  function ExtractRfpRequirements(c: Completion): (r: Result<string>)
    ensures r.Failure? ==> r.error == ExtractFailed
    ensures r.Failure? <==> FirstText(c).None?
    ensures r.Success? ==> r.value == Trim(FirstText(c).value)
    ensures r.Success? ==> IsTrimmed(r.value) && Trim(r.value) == r.value
  {
    match FirstText(c)
    case None => Failure(ExtractFailed)
    case Some(text) =>
      TrimIdempotent(text);
      Success(Trim(text))
  }

  /** generateProposal as a whole: exactly one request, the generation request
      for these requirements and assets, goes through the client, and the
      result is the handling of the reply it gets back. */
  method GenerateProposalCall(client: InferenceClient, rfpRequirements: string, assets: CompanyAssets,
                              decode: string -> Option<ProposalContent>)
    returns (r: Result<ProposalContent>)
    modifies client
    ensures client.sent == old(client.sent) + [ProposalRequest(rfpRequirements, assets)]
    ensures r == GenerateProposal(client.respond(|old(client.sent)|, ProposalRequest(rfpRequirements, assets)), decode)
  {
    var completion := client.CreateMessage(ProposalRequest(rfpRequirements, assets));
    r := GenerateProposal(completion, decode);
  }

  /** extractRFPRequirements as a whole: exactly one request, the extraction
      request for this RFP text, goes through the client, and the result is
      the trimmed text of the reply it gets back. */
  method ExtractRfpRequirementsCall(client: InferenceClient, rfpText: string) returns (r: Result<string>)
    modifies client
    ensures client.sent == old(client.sent) + [ExtractionRequest(rfpText)]
    ensures r == ExtractRfpRequirements(client.respond(|old(client.sent)|, ExtractionRequest(rfpText)))
  {
    var completion := client.CreateMessage(ExtractionRequest(rfpText));
    r := ExtractRfpRequirements(completion);
  }
}
