/** The analyze request handler: authenticate, validate the body, confirm
    that the deal belongs to the user, run the analysis, store one analyses
    row, respond. Each step can end the request early with its status code. */
module AnalyzeRoute {
  import opened Wrappers
  import opened Inference
  import opened Json
  import opened DealAi
  import Fences
  import Text

  /** A deals row, as far as the ownership check reads it. */
  datatype Deal = Deal(id: string, userId: string)

  /** The values an analyses row is inserted with: provenance copied from the
      request and the user, results copied from the analysis, the two arrays
      JSON-serialised. */
  datatype AnalysisRecord = AnalysisRecord(
    userId: string,
    dealId: string,
    inputType: string,
    inputData: string,
    riskScore: JsValue,
    nextActions: Option<string>,
    stakeholderMap: Option<string>,
    followUpDraft: JsValue,
    executiveSummary: JsValue)

  /** An analyses row with the id the store assigned to it. */
  datatype StoredAnalysis = StoredAnalysis(id: nat, record: AnalysisRecord)

  /** The three fields the handler reads from the decoded request body; None
      for a field the body lacks. */
  datatype AnalyzeBody = AnalyzeBody(dealId: Option<string>, inputType: Option<string>, inputData: Option<string>)

  datatype ResponseBody = ErrorBody(error: string) | Analyzed(analysisId: nat, analysis: DealAnalysis)

  datatype Response = Response(status: nat, body: ResponseBody)

  /** Errors the hosted store reports instead of answering; they are inputs
      of a request, not something the handler decides. */
  datatype StoreFaults = StoreFaults(dealQueryFails: bool, insertFails: bool)

  const Unauthorized: string := "Unauthorized"
  const MissingFields: string := "Missing required fields"
  const DealNotFound: string := "Deal not found"
  const SaveFailed: string := "Failed to save analysis"

  /** JavaScript truthiness of a string field: present and not empty. */
  predicate Truthy(field: Option<string>)
  {
    field.Some? && field.value != ""
  }

  predicate HasRequiredFields(body: AnalyzeBody)
  {
    Truthy(body.dealId) && Truthy(body.inputType) && Truthy(body.inputData)
  }

  /** The catch-all's message: the thrown error's message, or "Analysis failed" when it is empty. */
  function CaughtMessage(message: string): (r: string)
    ensures r != ""
    ensures message != "" ==> r == message
    ensures message == "" ==> r == "Analysis failed"
  {
    if message == "" then "Analysis failed" else message
  }

  /** The row the handler inserts for an analysis. */
  function RecordFor(userId: string, dealId: string, inputType: string, inputData: string,
                     analysis: DealAnalysis): AnalysisRecord
  {
    AnalysisRecord(userId, dealId, inputType, inputData, analysis.riskScore,
                   Stringify(analysis.nextActions), Stringify(analysis.stakeholderMap),
                   analysis.followUpDraft, analysis.executiveSummary)
  }

  /** The hosted store: the deals table, the append-only analyses table, the
      id it will give the next row, and a count of the queries made on it. */
  class Store {
    var deals: seq<Deal>
    var analyses: seq<StoredAnalysis>
    var nextId: nat
    var queries: nat

    /** Row ids increase along the table and stay below the next id. */
    ghost predicate Valid()
      reads this
    {
      && (forall i :: 0 <= i < |analyses| ==> analyses[i].id < nextId)
      && (forall i, j :: 0 <= i < j < |analyses| ==> analyses[i].id < analyses[j].id)
    }

    constructor (deals: seq<Deal>)
      ensures Valid()
      ensures this.deals == deals && analyses == [] && nextId == 0 && queries == 0
    {
      this.deals := deals;
      analyses := [];
      nextId := 0;
      queries := 0;
    }

    /** The query for a deal with this id and this owner; `fails` is a query
        error, which the handler reads like an absent row. */
    method FindDeal(dealId: string, userId: string, fails: bool) returns (found: bool)
      modifies this`queries
      ensures queries == old(queries) + 1
      ensures found <==> !fails && Deal(dealId, userId) in deals
    {
      queries := queries + 1;
      found := !fails && Deal(dealId, userId) in deals;
    }

    /** The insert of one analyses row, returning the row's id; `fails` is an
        insert error, after which nothing was written. */
    method InsertAnalysis(record: AnalysisRecord, fails: bool) returns (id: Option<nat>)
      requires Valid()
      modifies this`analyses, this`nextId, this`queries
      ensures Valid()
      ensures queries == old(queries) + 1
      ensures fails ==> id == None && analyses == old(analyses) && nextId == old(nextId)
      ensures !fails ==> id == Some(old(nextId)) && nextId == old(nextId) + 1
                         && analyses == old(analyses) + [StoredAnalysis(old(nextId), record)]
    {
      queries := queries + 1;
      if fails {
        id := None;
      } else {
        analyses := analyses + [StoredAnalysis(nextId, record)];
        id := Some(nextId);
        nextId := nextId + 1;
      }
    }
  }

  /** A signed-in user sent a body that decoded and holds all three fields. */
  predicate Admitted(user: Option<string>, body: Result<AnalyzeBody>)
  {
    user.Some? && body.Success? && HasRequiredFields(body.value)
  }

  /** Admitted, and the deal query found the deal under this user. */
  predicate OwnershipConfirmed(user: Option<string>, body: Result<AnalyzeBody>, faults: StoreFaults,
                               deals: seq<Deal>)
  {
    && Admitted(user, body)
    && !faults.dealQueryFails
    && Deal(body.value.dealId.value, user.value) in deals
  }

  /** The inference request an admitted body leads to. */
  function RequestOf(body: AnalyzeBody): Request
    requires HasRequiredFields(body)
  {
    AnalysisRequest(body.inputType.value, body.inputData.value)
  }

  /** What the handler finds when a request arrives: the deals table, the
      model's answers (by call number and request), the number of calls the
      model has answered so far, and the id the next analyses row gets. */
  datatype Env = Env(deals: seq<Deal>, respond: (nat, Request) -> Completion, calls: nat, nextId: nat)

  /** Everything one request does: the response, the analyses rows it adds,
      the inference requests it sends, and how many store queries it makes. */
  datatype Outcome = Outcome(response: Response, rows: seq<StoredAnalysis>, calls: seq<Request>, queries: nat)

  /** The handler's steps in order; the first step that fails decides the
      response, and nothing after it happens. */
  function Handle(user: Option<string>, body: Result<AnalyzeBody>, faults: StoreFaults,
                  decode: string -> Option<DealAnalysis>, env: Env): (o: Outcome)
    // only the five statuses the handler writes
    ensures o.response.status in {200, 400, 401, 404, 500}
    // a 200 and only a 200 stores a row: the one row, under the next id, that the 200 reports
    ensures o.response.status == 200 <==> o.rows != []
    ensures o.rows != [] ==> && |o.rows| == 1 && o.rows[0].id == env.nextId
                             && o.response.body.Analyzed? && o.response.body.analysisId == env.nextId
    // the model is asked exactly once when the deal is confirmed as the user's, and never otherwise
    ensures o.calls != [] <==> OwnershipConfirmed(user, body, faults, env.deals)
    ensures o.calls != [] ==> o.calls == [RequestOf(body.value)]
    // a rejected request makes no query; a row is written only after the model answered
    ensures !Admitted(user, body) ==> o.queries == 0 && o.calls == [] && o.rows == []
    ensures o.rows != [] ==> o.calls != [] && o.queries == 2
  {
    if !Admitted(user, body) then
      var response :=
        if user.None? then Response(401, ErrorBody(Unauthorized))
        else if body.Failure? then Response(500, ErrorBody(CaughtMessage(body.error)))
        else Response(400, ErrorBody(MissingFields));
      Outcome(response, [], [], 0)
    else if !OwnershipConfirmed(user, body, faults, env.deals) then
      Outcome(Response(404, ErrorBody(DealNotFound)), [], [], 1)
    else
      var b := body.value;
      var request := RequestOf(b);
      match AnalyzeDeal(env.respond(env.calls, request), decode)
      case Failure(e) =>
        Outcome(Response(500, ErrorBody(CaughtMessage(e))), [], [request], 1)
      case Success(analysis) =>
        if faults.insertFails then
          Outcome(Response(500, ErrorBody(SaveFailed)), [], [request], 2)
        else
          var record := RecordFor(user.value, b.dealId.value, b.inputType.value, b.inputData.value, analysis);
          Outcome(Response(200, Analyzed(env.nextId, analysis)), [StoredAnalysis(env.nextId, record)], [request], 2)
  }

  /** The response of each early exit, in the handler's order. */
  lemma RejectionResponses(user: Option<string>, body: Result<AnalyzeBody>, faults: StoreFaults,
                           decode: string -> Option<DealAnalysis>, env: Env)
    ensures var r := Handle(user, body, faults, decode, env).response;
            && (user.None? ==> r == Response(401, ErrorBody(Unauthorized)))
            && (user.Some? && body.Failure? ==> r == Response(500, ErrorBody(CaughtMessage(body.error))))
            && (user.Some? && body.Success? && !HasRequiredFields(body.value)
                ==> r == Response(400, ErrorBody(MissingFields)))
            && (Admitted(user, body) && !OwnershipConfirmed(user, body, faults, env.deals)
                ==> r == Response(404, ErrorBody(DealNotFound)))
  {
  }

  /** Once the model has been asked: a failed analysis is a 500 with analyzeDeal's
      message, a failed insert a 500 with the save error, and otherwise a 200
      carrying the analysis and the id of the row that holds it. */
  lemma AnalyzedResponses(user: Option<string>, body: Result<AnalyzeBody>, faults: StoreFaults,
                          decode: string -> Option<DealAnalysis>, env: Env)
    requires OwnershipConfirmed(user, body, faults, env.deals)
    ensures var o, b := Handle(user, body, faults, decode, env), body.value;
            var analysis := AnalyzeDeal(env.respond(env.calls, RequestOf(b)), decode);
            && (analysis.Failure? ==> o.response == Response(500, ErrorBody(AnalyzeFailed)) && o.rows == [])
            && (analysis.Success? && faults.insertFails ==> o.response == Response(500, ErrorBody(SaveFailed)) && o.rows == [])
            && (analysis.Success? && !faults.insertFails
                ==> && o.response == Response(200, Analyzed(env.nextId, analysis.value))
                    && o.rows == [StoredAnalysis(env.nextId, RecordFor(user.value, b.dealId.value, b.inputType.value,
                                                                       b.inputData.value, analysis.value))])
  {
    var b := body.value;
    var analysis := AnalyzeDeal(env.respond(env.calls, RequestOf(b)), decode);
    if analysis.Failure? {
      assert analysis.error == AnalyzeFailed;
    }
  }

  /** POST /api/analyze. `user` is the authenticated user's id, if any; `body`
      is the decoded request body, or the message of the error decoding it
      threw; `decode` is JSON.parse of the cleaned reply. The response and
      every change to the store and the client are those Handle describes. */
  method Post(store: Store, client: InferenceClient, user: Option<string>, body: Result<AnalyzeBody>,
              faults: StoreFaults, decode: string -> Option<DealAnalysis>) returns (response: Response)
    requires store.Valid()
    modifies store, client
    ensures store.Valid()
    ensures store.deals == old(store.deals)
    ensures var o := Handle(user, body, faults, decode,
                            Env(old(store.deals), client.respond, |old(client.sent)|, old(store.nextId)));
            && response == o.response
            && store.analyses == old(store.analyses) + o.rows
            && client.sent == old(client.sent) + o.calls
            && store.queries == old(store.queries) + o.queries
            && store.nextId == old(store.nextId) + |o.rows|
  {
    if user.None? {
      return Response(401, ErrorBody(Unauthorized));
    }
    var userId := user.value;
    if body.Failure? {
      return Response(500, ErrorBody(CaughtMessage(body.error)));
    }
    var fields := body.value;
    if !HasRequiredFields(fields) {
      return Response(400, ErrorBody(MissingFields));
    }
    var dealId, inputType, inputData := fields.dealId.value, fields.inputType.value, fields.inputData.value;
    var owned := store.FindDeal(dealId, userId, faults.dealQueryFails);
    if !owned {
      return Response(404, ErrorBody(DealNotFound));
    }
    var completion := client.CreateMessage(AnalysisRequest(inputType, inputData));
    var analysis := AnalyzeDeal(completion, decode);
    if analysis.Failure? {
      return Response(500, ErrorBody(CaughtMessage(analysis.error)));
    }
    var record := RecordFor(userId, dealId, inputType, inputData, analysis.value);
    var id := store.InsertAnalysis(record, faults.insertFails);
    if id.None? {
      return Response(500, ErrorBody(SaveFailed));
    }
    response := Response(200, Analyzed(id.value, analysis.value));
  }

  /** Submitting the same body twice, when both analyses succeed and nothing
      fails, stores two rows with the same provenance under two different ids:
      nothing is deduplicated. */
  lemma ResubmissionDuplicates(userId: string, body: AnalyzeBody, decode: string -> Option<DealAnalysis>, env: Env)
    requires HasRequiredFields(body) && Deal(body.dealId.value, userId) in env.deals
    requires AnalyzeDeal(env.respond(env.calls, RequestOf(body)), decode).Success?
    requires AnalyzeDeal(env.respond(env.calls + 1, RequestOf(body)), decode).Success?
    ensures var faults := StoreFaults(false, false);
            var o1 := Handle(Some(userId), Success(body), faults, decode, env);
            var o2 := Handle(Some(userId), Success(body), faults, decode,
                             Env(env.deals, env.respond, env.calls + 1, env.nextId + 1));
            && o1.response.status == 200 && o2.response.status == 200
            && o1.response.body.analysisId != o2.response.body.analysisId
            && |o1.rows| == 1 && |o2.rows| == 1
            && o1.rows[0].record.userId == o2.rows[0].record.userId == userId
            && o1.rows[0].record.dealId == o2.rows[0].record.dealId == body.dealId.value
            && o1.rows[0].record.inputType == o2.rows[0].record.inputType
            && o1.rows[0].record.inputData == o2.rows[0].record.inputData
            && o1.calls == o2.calls == [RequestOf(body)]
  {
    var faults := StoreFaults(false, false);
    AnalyzedResponses(Some(userId), Success(body), faults, decode, env);
    AnalyzedResponses(Some(userId), Success(body), faults, decode,
                      Env(env.deals, env.respond, env.calls + 1, env.nextId + 1));
  }

  /** The JSON the model answers with in the scenario below. */
  const ScenarioJson: string :=
    "{\"riskScore\":55," + "\"nextActions\":[\"Follow up\"]," + "\"stakeholderMap\":[],"
    + "\"followUpDraft\":\"Hi\"," + "\"executiveSummary\":\"Ok\"}"

  /** "```json\n", the JSON, "\n```". */
  const ScenarioReply: string := Fences.JsonFence + "\n" + (ScenarioJson + "\n") + Fences.BareFence

  /** The decoded object of ScenarioJson. */
  const ScenarioAnalysis: DealAnalysis :=
    DealAnalysis(Value("55"), Value("[\"Follow up\"]"), Value("[]"), Value("\"Hi\""), Value("\"Ok\""))

  /** A stand-in for JSON.parse that knows only the scenario's text. */
  function ScenarioDecode(s: string): Option<DealAnalysis>
  {
    if s == ScenarioJson + "\n" then Some(ScenarioAnalysis) else None
  }

  /** Helper: the scenario's JSON holds no fence. */
  lemma ScenarioJsonFenceFree()
    ensures !Text.Contains(ScenarioJson + "\n", Fences.BareFence)
  {
    assert '`' !in ScenarioJson + "\n";
    Fences.NoBacktickNoFence(ScenarioJson + "\n");
  }

  /** Helper: the scenario's reply cleans to its JSON and the line feed before the closing fence. */
  lemma ScenarioReplyCleans()
    ensures Fences.Clean(ScenarioReply) == ScenarioJson + "\n"
  {
    ScenarioJsonFenceFree();
    Fences.CleanFencedBody(ScenarioJson + "\n");
  }

  /** Helper: the scenario's completion analyses to the scenario's analysis. */
  lemma ScenarioAnalyzes()
    ensures AnalyzeDeal(Reply([Text(ScenarioReply)]), ScenarioDecode) == Success(ScenarioAnalysis)
  {
    ScenarioReplyCleans();
  }

  /** End to end: a signed-in owner submits notes for their deal, the model
      answers with fenced JSON, and the handler stores one row with risk score
      55 and answers 200 with that row's id. */
  method NotesScenario() returns (response: Response, rows: seq<StoredAnalysis>, calls: nat)
    ensures response == Response(200, Analyzed(0, ScenarioAnalysis))
    ensures rows == [StoredAnalysis(0, RecordFor("user-1", "deal-1", "notes", "Client wants lower price", ScenarioAnalysis))]
    ensures rows[0].record.riskScore == Value("55")
    ensures calls == 1
  {
    var store := new Store([Deal("deal-1", "user-1")]);
    var client := new InferenceClient((n: nat, r: Request) => Reply([Text(ScenarioReply)]));
    var body := AnalyzeBody(Some("deal-1"), Some("notes"), Some("Client wants lower price"));
    assert OwnershipConfirmed(Some("user-1"), Success(body), StoreFaults(false, false), store.deals);
    assert client.respond(0, RequestOf(body)) == Reply([Text(ScenarioReply)]);
    ScenarioAnalyzes();
    AnalyzedResponses(Some("user-1"), Success(body), StoreFaults(false, false), ScenarioDecode,
                      Env(store.deals, client.respond, 0, 0));
    response := Post(store, client, Some("user-1"), Success(body), StoreFaults(false, false), ScenarioDecode);
    rows := store.analyses;
    calls := |client.sent|;
  }
}
