/** The deal-analysis call: a fixed prompt around the caller's input, one
    request to the model, and the reply cleaned and decoded into a
    DealAnalysis. Every failure collapses into one message. */
module DealAi {
  import opened Wrappers
  import opened Text
  import opened Fences
  import opened Inference
  import opened Json

  /** The one message every failure of the analysis surfaces as. */
  const AnalyzeFailed: string := "Failed to analyze deal"

  const MaxTokens: nat := 2000

  /** The shape the reply is cast to; nothing checks it, so each field may be undefined. */
  datatype DealAnalysis = DealAnalysis(
    riskScore: JsValue,
    nextActions: JsValue,
    stakeholderMap: JsValue,
    followUpDraft: JsValue,
    executiveSummary: JsValue)

  /** The input kinds the function's signature names; the request handler
      passes on whatever string the request body held. */
  predicate IsDeclaredKind(inputType: string)
  {
    inputType == "meeting" || inputType == "email" || inputType == "notes"
  }

  // The template is written as short concatenated pieces, which keeps the
  // verifier's work on it small; joined, PromptHead, the input kind,
  // PromptMiddle, the input data and PromptTail spell the analysis prompt of
  // dealpulse/lib/ai.ts character for character.
  const PromptHead: string :=
    "You are an expert enterprise sales"
    + " analyst. Analyze this "

  const PromptMiddle: string :=
    " and provide a JSON response with the"
    + " following structure:\n"
    + "\n"
    + "{\n"
    + "  \"riskScore\": <number 0-100>,\n"
    + "  \"nextActions\": [<array of 3-5"
    + " specific, prioritized steps>],\n"
    + "  \"stakeholderMap\": [\n"
    + "    {\n"
    + "      \"name\": \"<person name>\",\n"
    + "      \"role\": \"<their role>\",\n"
    + "      \"influence\": \"<high|medium|low>\",\n"
    + "      \"concerns\": [<array of their"
    + " concerns>]\n"
    + "    }\n"
    + "  ],\n"
    + "  \"followUpDraft\": \"<personalized email"
    + " addressing key concerns>\",\n"
    + "  \"executiveSummary\": \"<3-4 sentence"
    + " deal status>\"\n"
    + "}\n"
    + "\n"
    + "Input data: "

  const PromptTail: string := "\n\nProvide ONLY valid JSON, no markdown formatting."

  /** The instruction text: the input kind at its slot after the opening
      sentence, the input data after "Input data: ". */
  function Prompt(inputType: string, inputData: string): string
  {
    PromptHead + inputType + PromptMiddle + inputData + PromptTail
  }

  /** The messages call analyzeDeal makes. */
  function AnalysisRequest(inputType: string, inputData: string): Request
  {
    Request(Model, MaxTokens, Prompt(inputType, inputData))
  }

  /** The analysis request names the fixed model and a 2000-token output bound. */
  lemma AnalysisRequestFixed(inputType: string, inputData: string)
    ensures AnalysisRequest(inputType, inputData).model == "claude-sonnet-4-20250514"
    ensures AnalysisRequest(inputType, inputData).maxTokens == 2000
    ensures AnalysisRequest(inputType, inputData).prompt == Prompt(inputType, inputData)
  {
  }

  /** What analyzeDeal makes of the backend's completion: the first content
      block must be text; its trimmed, fence-stripped text is decoded by
      `decode` (JSON.parse with an unchecked cast, None when it throws). A
      failed call, a non-text block, an empty reply and a decoding failure all
      give the same failure message. */
  function AnalyzeDeal(c: Completion, decode: string -> Option<DealAnalysis>): (r: Result<DealAnalysis>)
    ensures r.Failure? ==> r.error == AnalyzeFailed
    ensures FirstText(c).None? ==> r.Failure?
    ensures r.Success? <==> FirstText(c).Some? && decode(Clean(FirstText(c).value)).Some?
    ensures r.Success? ==> FirstText(c).Some? && decode(Clean(FirstText(c).value)) == Some(r.value)
  {
    match FirstText(c)
    case None => Failure(AnalyzeFailed)
    case Some(text) =>
      match decode(Clean(text))
      case None => Failure(AnalyzeFailed)
      case Some(analysis) => Success(analysis)
  }

  /** The decoder is only ever shown fence-free text: two decoders that agree
      on every text without "```" give the same analysis for every completion. */
  lemma AnalyzeDealSeesOnlyCleanText(c: Completion, decode1: string -> Option<DealAnalysis>,
                                     decode2: string -> Option<DealAnalysis>)
    requires forall s :: !Contains(s, BareFence) ==> decode1(s) == decode2(s)
    ensures AnalyzeDeal(c, decode1) == AnalyzeDeal(c, decode2)
  {
    if FirstText(c).Some? {
      CleanLeavesNoFence(FirstText(c).value);
    }
  }

  /** The prompt holds the input kind right after the opening sentence and
      the input data verbatim. */
  lemma PromptEmbedsInput(inputType: string, inputData: string)
    ensures StartsWith(Prompt(inputType, inputData), PromptHead + inputType)
    ensures Contains(Prompt(inputType, inputData), inputData)
  {
    var p := Prompt(inputType, inputData);
    assert p[..|PromptHead + inputType|] == PromptHead + inputType;
    assert p == (PromptHead + inputType + PromptMiddle) + inputData + PromptTail;
    ContainsSpliced(PromptHead + inputType + PromptMiddle, inputData, PromptTail);
  }

  /** For a given input kind, different input data give different prompts. */
  lemma PromptDeterminesData(inputType: string, inputData1: string, inputData2: string)
    requires Prompt(inputType, inputData1) == Prompt(inputType, inputData2)
    ensures inputData1 == inputData2
  {
    var pre := PromptHead + inputType + PromptMiddle;
    assert Prompt(inputType, inputData1) == pre + inputData1 + PromptTail;
    assert Prompt(inputType, inputData2) == pre + inputData2 + PromptTail;
    SplicedInjective(pre, inputData1, inputData2, PromptTail);
  }

  /** Over the declared input kinds the prompt is injective: equal prompts
      come from equal inputs, and equal inputs give equal prompts. */
  lemma PromptInjective(inputType1: string, inputData1: string, inputType2: string, inputData2: string)
    requires IsDeclaredKind(inputType1) && IsDeclaredKind(inputType2)
    ensures Prompt(inputType1, inputData1) == Prompt(inputType2, inputData2)
            <==> inputType1 == inputType2 && inputData1 == inputData2
  {
    var p1, p2 := Prompt(inputType1, inputData1), Prompt(inputType2, inputData2);
    if p1 == p2 {
      // the kinds' first letters differ, and each stands at index |PromptHead|
      assert p1[|PromptHead|] == inputType1[0];
      assert p2[|PromptHead|] == inputType2[0];
      assert inputType1 == inputType2;
      PromptDeterminesData(inputType1, inputData1, inputData2);
    }
  }
}
