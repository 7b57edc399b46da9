# Deal analysis and proposal generation: the AI boundary

This project models the core of two small web applications that share one
pattern: they ask a hosted language model for a JSON document and store what
it returns.

- **DealPulse** analyses a sales deal from meeting notes, an email or free
  notes. `analyzeDeal` builds a fixed prompt around the input and sends one
  messages call. It takes the first content block's text, trims it, removes
  Markdown code fences and decodes the rest as JSON. The `POST /api/analyze`
  handler does the following, in order:
  - authenticates the user;
  - checks the three body fields;
  - checks that the deal belongs to the user;
  - runs the analysis;
  - inserts one `analyses` row;
  - answers with the row's id and the analysis.
- **ProposalAI** has `generateProposal`, which uses the same reply cleaning on
  a prompt that lists the company's assets. An absent or empty asset becomes
  `None provided`. Its `extractRFPRequirements` returns the trimmed reply
  text as it is.

Modules:

- `Wrappers`: `Option` and `Result`.
- `Text`: the JavaScript whitespace set, `trim`, substring search.
- `Fences`: the two global regular-expression replacements, modelled as a
  left-to-right scan, and the whole cleaning step `Clean`.
- `Inference`: the messages request, the completion, the first-text rule,
  and the client.
- `Json`: `JSON.stringify` of a possibly undefined field.
- `DealAi`: the analysis prompt and `analyzeDeal`.
- `ProposalAi`: the proposal and extraction prompts, `generateProposal` and
  `extractRFPRequirements`.
- `AnalyzeRoute`: the store, the handler and an end-to-end scenario.

The handler changes state. The store is a class holding these fields:

- the deals table;
- the append-only analyses table;
- the next row id;
- a query count.

The model client is a class with a log of the requests sent to it. `Post`
is proved against the pure function `Handle`: the response, the rows, the
calls and the query count it states are exactly what `Handle` computes. The
lemmas and `Handle`'s own contract prove what the handler promises:

- each status code and its message;
- inference happens exactly when ownership is confirmed;
- a row is written exactly when the status is 200, and the 200 reports that
  row's id;
- a request that is turned away touches nothing.

Four behaviours of the code are worth noting; the model follows the code in
each:

- The reply is never checked against a schema. `JSON.parse(...) as T` is a
  cast, so any field may be missing.
- The catch-all 500 returns the thrown error's message. Internal detail is
  therefore not always hidden: a body that fails to decode surfaces its
  parser message.
- Cleaning as a whole is not idempotent, because trimming happens before the
  fences are removed. Only the two replacements together are idempotent
  (`Fences.StripFencesIdempotent` versus `Fences.CleanNotIdempotent`).
- A reply that does not decode surfaces as 500 `Failed to analyze deal`,
  never as a distinct parse error.

## Model

| member | source | states |
|---|---|---|
| Text.TrimStart | dealpulse/lib/ai.ts:59 | the result is a suffix of the input; everything dropped is whitespace; the result does not start with whitespace |
| Text.LeadingSpace | dealpulse/lib/ai.ts:59 | the count of leading characters trim removes: all of them are whitespace and the next character is not |
| Text.TrailingSpace | dealpulse/lib/ai.ts:59 | the count of trailing characters trim removes: all of them are whitespace and the character before them is not |
| Text.TrimEnd | dealpulse/lib/ai.ts:59 | the result is a prefix of the input; everything dropped is whitespace; the result does not end with whitespace |
| Text.Trim | dealpulse/lib/ai.ts:59 | `trim()` leaves no whitespace at either end |
| Text.TrimSlice | dealpulse/lib/ai.ts:59 | `trim()` returns a contiguous slice of the input, and everything on both sides of it is whitespace |
| Text.TrimFixedIff | proposalai/lib/ai.ts:92 | trimming leaves a string unchanged exactly when it has no whitespace at either end |
| Text.TrimIdempotent | proposalai/lib/ai.ts:92 | trimming twice is trimming once |
| Fences.StripFence | dealpulse/lib/ai.ts:61 | one global replacement of a fence and an optional line feed never lengthens the text |
| Fences.StripFenceOnlyDeletes | dealpulse/lib/ai.ts:61 | the replacement only deletes characters (multiset inclusion) |
| Fences.StripFenceAbsent | dealpulse/lib/ai.ts:61 | text without the fence goes through the replacement unchanged |
| Fences.StripBareLeavesNoFence | dealpulse/lib/ai.ts:61 | after the global "```" replacement no "```" remains anywhere, even where deletions bring backticks together |
| Fences.NoBareMeansNoJson | dealpulse/lib/ai.ts:61 | text without "```" has no "```json" either |
| Fences.StripFencesFenceFree | dealpulse/lib/ai.ts:61 | text without "```" passes both replacements unchanged |
| Fences.StripFencesIdempotent | dealpulse/lib/ai.ts:61 | applying both replacements again to their output changes nothing |
| Fences.LeadingJsonFenceRemovedWhole | dealpulse/lib/ai.ts:61 | a leading "```json" goes as one token with its line feed, leaving no "json" tag behind |
| Fences.ReversedOrderLeavesTag | dealpulse/lib/ai.ts:61 | the replacement order matters: bare fence first would leave "json\n{}", and line 61's order gives "{}" |
| Fences.CarriageReturnStays | dealpulse/lib/ai.ts:61 | only a line feed goes with a fence: after "```json\r\n" the CR and LF both stay |
| Fences.NoBacktickNoFence | dealpulse/lib/ai.ts:61 | text without a backtick holds no fence |
| Fences.StripFences | dealpulse/lib/ai.ts:61 | definition: the "```json" replacement, then the "```" replacement; its properties are StripFencesIdempotent, StripFencesFenceFree, ReversedOrderLeavesTag and StripFencesFencedBody |
| Fences.Clean | dealpulse/lib/ai.ts:59-61 | definition: trim, then StripFences; its properties are CleanLeavesNoFence, CleanFenceFree, CleanFencedBody and CleanNotIdempotent |
| Fences.CleanLeavesNoFence | dealpulse/lib/ai.ts:59-61 | the cleaned reply contains no "```" at all |
| Fences.CleanFenceFree | dealpulse/lib/ai.ts:59-61 | a reply whose trimmed text has no fence is cleaned to exactly that trimmed text |
| Fences.CleanFencedBody | dealpulse/lib/ai.ts:59-61 | a reply "```json\n" + body + "```" whose body has no fence cleans to exactly the body |
| Fences.CleanRiskScoreExample | dealpulse/lib/ai.ts:59-61 | a typical fenced reply cleans to its JSON with the line feed that stood before the closing fence |
| Fences.CleanOpeningFenceOnly | dealpulse/lib/ai.ts:59-61 | a reply with only an opening fence cleans to its body when the body ends in non-whitespace |
| Fences.CleanNotIdempotent | dealpulse/lib/ai.ts:59-61 | when text after a removed fence starts with whitespace, cleaning the result again trims that whitespace, so cleaning is not idempotent |
| Inference.InferenceClient.CreateMessage | dealpulse/lib/ai.ts:46-55 | each call is logged once, in order, and answered by the backend for that call's position and request |
| Inference.FirstText | dealpulse/lib/ai.ts:57-58 | there is a first text exactly when the call returned, the content is non-empty and its first block is a text block; the text is that block's text |
| DealAi.AnalysisRequestFixed | dealpulse/lib/ai.ts:46-55 | the analysis request names claude-sonnet-4-20250514, bounds output at 2000 tokens and carries the prompt |
| DealAi.Prompt | dealpulse/lib/ai.ts:24-43 | definition: the template around the input kind and the input data; its properties are PromptEmbedsInput, PromptDeterminesData and PromptInjective |
| DealAi.AnalysisRequest | dealpulse/lib/ai.ts:46-55 | definition: the messages request; its properties are AnalysisRequestFixed |
| DealAi.PromptEmbedsInput | dealpulse/lib/ai.ts:24-43 | the prompt hands the input kind over right after the opening sentence and contains the input data verbatim |
| DealAi.PromptDeterminesData | dealpulse/lib/ai.ts:24-43 | for one input kind, different input data give different prompts |
| DealAi.PromptInjective | dealpulse/lib/ai.ts:20-43 | over the three declared input kinds, equal prompts mean equal kind and equal data |
| DealAi.AnalyzeDeal | dealpulse/lib/ai.ts:57-69 | every failure is "Failed to analyze deal"; it succeeds exactly when there is a first text block whose cleaned text decodes, and then returns the decoded value |
| DealAi.AnalyzeDealSeesOnlyCleanText | dealpulse/lib/ai.ts:59-62 | the decoder only ever sees fence-free text: decoders that agree on such text give the same analysis |
| ProposalAi.AssetText | proposalai/lib/ai.ts:29-31 | the field or else 'None provided' is never empty; it is the marker exactly for an absent, empty or marker-valued field; otherwise it is the field |
| ProposalAi.PromptSeesAssetTexts | proposalai/lib/ai.ts:28-31 | the prompt depends on each asset only through its defaulted text |
| ProposalAi.EmptyAssetIsAbsent | proposalai/lib/ai.ts:29-31 | an empty asset gives exactly the prompt an absent one does |
| ProposalAi.ProposalPromptEmbedsRequirements | proposalai/lib/ai.ts:24-26 | the requirements stand right after their heading and occur verbatim in the prompt |
| ProposalAi.ProposalPrompt | proposalai/lib/ai.ts:24-43 | definition: the template around the requirements and the three asset lines; its properties are ProposalPromptEmbedsRequirements, ProposalPromptDeterminesRequirements, ProposalPromptEmbedsAssets, PromptSeesAssetTexts and EmptyAssetIsAbsent |
| ProposalAi.ProposalRequest | proposalai/lib/ai.ts:46-55 | definition: the generation request; its properties are RequestsFixed |
| ProposalAi.ExtractionPrompt | proposalai/lib/ai.ts:72-76 | definition: the extraction template around the RFP text; its properties are ExtractionPromptEmbedsText |
| ProposalAi.ExtractionRequest | proposalai/lib/ai.ts:79-88 | definition: the extraction request; its properties are RequestsFixed |
| ProposalAi.ProposalPromptDeterminesRequirements | proposalai/lib/ai.ts:24-26 | with the same assets, different requirements give different prompts |
| ProposalAi.ProposalPromptEmbedsAssets | proposalai/lib/ai.ts:28-31 | each labelled asset line, with its defaulted text, occurs in the prompt |
| ProposalAi.GenerateProposal | proposalai/lib/ai.ts:57-68 | every failure is "Failed to generate proposal"; it succeeds exactly when there is a first text block whose cleaned text decodes, and then returns the decoded value |
| ProposalAi.GenerateProposalCall | proposalai/lib/ai.ts:16-69 | exactly one request, the generation request for these requirements and assets, is sent through the client, and the result is GenerateProposal of the reply to it |
| ProposalAi.GenerateProposalSeesOnlyCleanText | proposalai/lib/ai.ts:59-61 | the proposal decoder only ever sees fence-free text |
| ProposalAi.ExtractionPromptEmbedsText | proposalai/lib/ai.ts:72-76 | the RFP text occurs verbatim in the extraction prompt, and different texts give different prompts |
| ProposalAi.RequestsFixed | proposalai/lib/ai.ts:46-81 | both requests name claude-sonnet-4-20250514; the proposal bounds output at 4000 tokens and the extraction at 2000 |
| ProposalAi.ExtractRfpRequirements | proposalai/lib/ai.ts:90-98 | it fails, with "Failed to extract RFP requirements", exactly when there is no first text block; a success is that text trimmed, with no whitespace at its ends and unchanged by trimming again |
| ProposalAi.ExtractRfpRequirementsCall | proposalai/lib/ai.ts:71-100 | exactly one request, the extraction request for this RFP text, is sent through the client, and the result is ExtractRfpRequirements of the reply to it |
| AnalyzeRoute.Store.FindDeal | dealpulse/app/api/analyze/route.ts:27-36 | one query; the deal is found exactly when there is no query error and a row has this id and this owner |
| AnalyzeRoute.Truthy | dealpulse/app/api/analyze/route.ts:19 | definition: JavaScript truthiness of a string field, present and non-empty |
| AnalyzeRoute.HasRequiredFields | dealpulse/app/api/analyze/route.ts:19 | definition: all three fields truthy; RejectionResponses states the 400 it guards |
| AnalyzeRoute.CaughtMessage | dealpulse/app/api/analyze/route.ts:73 | the catch-all's message is never empty: a non-empty thrown message is passed on unchanged, and an empty one becomes "Analysis failed" |
| AnalyzeRoute.RecordFor | dealpulse/app/api/analyze/route.ts:44-54 | definition: the inserted row; AnalyzedResponses states that a 200 stores exactly this row |
| Json.Stringify | dealpulse/app/api/analyze/route.ts:50-51 | definition: JSON.stringify of a field, undefined for an absent one; its properties are StringifyInjective |
| Json.StringifyInjective | dealpulse/app/api/analyze/route.ts:50-51 | the stored text of a field determines the field, and it is undefined exactly for an absent field |
| AnalyzeRoute.Store.InsertAnalysis | dealpulse/app/api/analyze/route.ts:42-64 | one query; a failed insert writes nothing; otherwise exactly one row is appended under the next id, and ids keep increasing |
| AnalyzeRoute.Handle | dealpulse/app/api/analyze/route.ts:5-77 | only statuses 200, 400, 401, 404 and 500 occur; a row is written exactly for a 200, which reports that row's id; the model is asked exactly once when ownership is confirmed and never otherwise; a rejected request makes no query |
| AnalyzeRoute.RejectionResponses | dealpulse/app/api/analyze/route.ts:12-75 | no user gives 401 Unauthorized; a body that does not decode gives the catch-all 500; a falsy field gives 400; a deal not found under the user gives 404 |
| AnalyzeRoute.AnalyzedResponses | dealpulse/app/api/analyze/route.ts:39-75 | after the model is asked: a failed analysis gives 500 "Failed to analyze deal", a failed insert gives 500 "Failed to save analysis", and otherwise a 200 carries the analysis and the id of the one row holding it with the request's provenance |
| AnalyzeRoute.Post | dealpulse/app/api/analyze/route.ts:5-77 | the handler's response and its changes to the store and the model client are exactly those Handle describes, and the store's invariant holds |
| AnalyzeRoute.ResubmissionDuplicates | dealpulse/app/api/analyze/route.ts:42-69 | submitting the same body twice stores two rows with the same provenance under different ids and asks the model twice: nothing is deduplicated |
| AnalyzeRoute.NotesScenario | dealpulse/app/api/analyze/route.ts:5-69 | an owner's notes, answered with fenced JSON, yield a 200 with row id 0, one stored row with risk score 55, and one model call |

## Left out

- The SDK client and its construction from an environment variable
  (`dealpulse/lib/ai.ts:3-5`) are left out. The network call becomes
  `InferenceClient`, whose answers are a function of the call's position and
  request.
- `JSON.parse` and the `as` casts become a decoder passed in as a parameter;
  `None` stands for a parse error. A decoded number, string or boolean reads
  every field as `undefined`, which `Json.JsValue` covers. Only a decoded
  `null` differs: `analyzeDeal` returns it, and the handler then throws a
  TypeError when it reads `analysis.riskScore`
  (`dealpulse/app/api/analyze/route.ts:49`), after the inference call, which
  the catch-all reports as a 500. The model does not have a `null` decode
  result.
- The 200's `analysis` is reduced to the five fields `DealAnalysis` holds.
  The handler returns the decoded value itself
  (`dealpulse/app/api/analyze/route.ts:66-69`), so extra keys the reply
  carries are returned too, and a bare number or string comes back as
  itself. The model returns five `undefined` fields for these.
- The JSON values inside the analysis are kept as their serialised text.
  JSON.stringify is modelled only as "undefined stays undefined" (`Json.Stringify`).
- The hosted database is reduced to these pieces:
  - Supabase authentication is the optional user id.
  - The deals query is membership in the deals table plus a fault flag.
  - `.single()` cardinality errors, row-level security, `created_at` and the
    columns the handler does not read are left out.
  - Row ids are sequential naturals, not database-generated UUIDs.
- `request.json()` becomes a `Result`: a body that does not parse is a
  `Failure` carrying the parser's message. Destructuring a `null` body (a
  TypeError) is folded into that failure. Non-string field values are not
  modelled (all fields are `Option<string>`), so truthiness is "present and
  non-empty".
- `createClient` or `getUser` throwing is not modelled. Neither are network
  errors raised by a query rather than reported in its result.
- console.error logging, `async`/`await` and concurrent requests are left out.
  Each request runs to completion on its own.
- Strings are sequences of Unicode scalar values, not UTF-16 code units. The
  whitespace set is the ECMAScript one over those values.
- The dashboard pages, other API routes and other UI of both applications are
  not part of this model.
- Fences.StripFence: the model does not state the multiset inclusion in the
  function's own contract. It is the separate lemma
  `Fences.StripFenceOnlyDeletes`.
