/**
 * The search endpoint (backend/internal/handlers/search_handler.go):
 * decode, validate, load articles, ask the AI, record the interaction,
 * reply.
 */
module Handlers {
  import opened Wrappers
  import opened KnowledgeBase
  import opened AIClient
  import opened HistoryStore

  /** The request body `{"query": ...}`. */
  datatype SearchRequest = SearchRequest(query: string)

  /** The parts of `encoding/json` the endpoint relies on, as abstract functions. */
  datatype JsonCodec = JsonCodec(
    decodeRequest: string -> Result<SearchRequest>,   // json.NewDecoder(r.Body).Decode
    unmarshalAnswer: AnswerDecoder,                   // json.Unmarshal into an AIResponse
    marshalArticles: seq<Article> -> string)          // json.Marshal of the relevant articles

  /** The AI service as the process has it: the environment's API key and the real model factory. */
  datatype AIService = AIService(apiKey: string, factory: ModelFactory)

  const StatusOK: int := 200
  const StatusBadRequest: int := 400
  const StatusInternalServerError: int := 500

  const InvalidBodyMessage: string := "Invalid request body"
  const EmptyQueryMessage: string := "Query cannot be empty"
  const AIFailureMessage: string := "Failed to get response from AI service"

  /** A response body: an `http.Error` text, or the JSON encoding of the answer. */
  datatype Body = PlainText(message: string) | Json(answer: AIResponse)

  /**
   * What the client receives: a status and a body, or nothing at all when
   * the handler panics and the server drops the connection.
   */
  datatype Reply = Reply(status: int, body: Body) | Dropped(reason: PanicReason)

  /** The handler's course through one request, before any row is written. */
  datatype Plan =
    | Reject(status: int, message: string)
    | Crash(reason: PanicReason)
    | Respond(response: AIResponse, record: SearchHistory)

  /** The history record built from a question and its answer; `ID` and `CreatedAt` stay zero. */
  function RecordOf(query: string, response: AIResponse, codec: JsonCodec): SearchHistory
  {
    SearchHistory(0, query, response.summaryAnswer, codec.marshalArticles(response.relevantArticles), 0)
  }

  /** Steps 3-4 of the handler for a valid query: load articles, ask the AI. */
  function AnswerPlan(query: string, codec: JsonCodec, service: AIService): Plan
  {
    match AnswerOutcomeOf(service.apiKey, service.factory, codec.unmarshalAnswer, query, GetArticles())
    case Failed(_) => Reject(StatusInternalServerError, AIFailureMessage)
    case Panicked(reason) => Crash(reason)
    case Answered(response) => Respond(response, RecordOf(query, response, codec))
  }

  /** Steps 1-4 of the handler: decode, validate, load articles, ask the AI. */
  function PlanRequest(body: string, codec: JsonCodec, service: AIService): Plan
  {
    match codec.decodeRequest(body)
    case Failure(_) => Reject(StatusBadRequest, InvalidBodyMessage)
    case Success(req) =>
      if req.query == "" then Reject(StatusBadRequest, EmptyQueryMessage)
      else AnswerPlan(req.query, codec, service)
  }

  /** What the client sees for a plan; the outcome of the save plays no part in it. */
  function ReplyOf(plan: Plan): Reply
  {
    match plan
    case Reject(status, message) => Reply(status, PlainText(message))
    case Crash(reason) => Dropped(reason)
    case Respond(response, _) => Reply(StatusOK, Json(response))
  }

  /** The rows a request adds to the table: its record, when it got an answer and the table accepts writes. */
  function RowsWritten(plan: Plan, writable: bool, lastId: int, now: int): seq<SearchHistory>
  {
    if plan.Respond? && writable then [InsertedRow(plan.record, lastId + 1, now)] else []
  }

  /** The handler closure `SearchHandler(db)` returns. */
  class SearchHandler {
    const db: Database

    constructor (db: Database)
      ensures this.db == db
    {
      this.db := db;
    }

    /**
     * Serves one request. `service` stands for the API key in the
     * environment and the real model factory; `now` is the clock value the
     * store stamps on a new row.
     */
    method ServeHTTP(body: string, codec: JsonCodec, service: AIService, now: int) returns (reply: Reply)
      requires db.Valid()
      modifies db
      ensures db.Valid()
      ensures reply == ReplyOf(PlanRequest(body, codec, service))
      ensures db.open == old(db.open) && db.hasTable == old(db.hasTable) && db.columns == old(db.columns)
      ensures db.rows == old(db.rows) + RowsWritten(PlanRequest(body, codec, service), old(db.open && db.hasTable), old(db.lastId), now)
      ensures db.lastId == old(db.lastId) + |RowsWritten(PlanRequest(body, codec, service), old(db.open && db.hasTable), old(db.lastId), now)|
    {
      var decoded := codec.decodeRequest(body);
      if decoded.Failure? {
        return Reply(StatusBadRequest, PlainText(InvalidBodyMessage));
      }
      var req := decoded.value;
      if req.query == "" {
        return Reply(StatusBadRequest, PlainText(EmptyQueryMessage));
      }
      reply := AnswerQuery(req.query, codec, service, now);
    }

    /** The rest of the handler once the query is valid: ask the AI, record an answer, reply. */
    method AnswerQuery(query: string, codec: JsonCodec, service: AIService, now: int) returns (reply: Reply)
      requires db.Valid()
      modifies db
      ensures db.Valid()
      ensures reply == ReplyOf(AnswerPlan(query, codec, service))
      ensures db.open == old(db.open) && db.hasTable == old(db.hasTable) && db.columns == old(db.columns)
      ensures db.rows == old(db.rows) + RowsWritten(AnswerPlan(query, codec, service), old(db.open && db.hasTable), old(db.lastId), now)
      ensures db.lastId == old(db.lastId) + |RowsWritten(AnswerPlan(query, codec, service), old(db.open && db.hasTable), old(db.lastId), now)|
    {
      var articles := GetArticles();
      var outcome := GetAIAnswerWithFactory(service.apiKey, service.factory, codec.unmarshalAnswer, query, articles);
      if outcome.Failed? {
        return Reply(StatusInternalServerError, PlainText(AIFailureMessage));
      }
      if outcome.Panicked? {
        return Dropped(outcome.reason);
      }
      var aiResponse := outcome.response;
      var relevantArticlesJson := codec.marshalArticles(aiResponse.relevantArticles);
      var searchRecord := SearchHistory(0, query, aiResponse.summaryAnswer, relevantArticlesJson, 0);
      // A failed save is only logged; the reply is the same either way.
      var _ := SaveIgnoringError(db, searchRecord, now);
      return Reply(StatusOK, Json(aiResponse));
    }
  }

  /** A body that does not decode is a 400 and nothing is written. */
  lemma UndecodableBodyIsBadRequest(body: string, codec: JsonCodec, service: AIService, writable: bool, lastId: int, now: int)
    requires codec.decodeRequest(body).Failure?
    ensures ReplyOf(PlanRequest(body, codec, service)) == Reply(StatusBadRequest, PlainText(InvalidBodyMessage))
    ensures RowsWritten(PlanRequest(body, codec, service), writable, lastId, now) == []
  {
  }

  /**
   * The query check is exact: status 400 with the empty-query message comes
   * back exactly when the query is "", whatever the AI would have said.
   */
  lemma EmptyQueryCheckIsExact(body: string, codec: JsonCodec, service: AIService, query: string)
    requires codec.decodeRequest(body) == Success(SearchRequest(query))
    ensures PlanRequest(body, codec, service) == Reject(StatusBadRequest, EmptyQueryMessage) <==> query == ""
    ensures PlanRequest(body, codec, service).Reject? && PlanRequest(body, codec, service).status == StatusBadRequest
            <==> query == ""
  {
  }

  /** A query of one space is not rejected as empty. */
  lemma SpaceQueryIsNotRejected(body: string, codec: JsonCodec, service: AIService)
    requires codec.decodeRequest(body) == Success(SearchRequest(" "))
    ensures ReplyOf(PlanRequest(body, codec, service)) != Reply(StatusBadRequest, PlainText(EmptyQueryMessage))
  {
    EmptyQueryCheckIsExact(body, codec, service, " ");
  }

  /**
   * A valid query goes to the AI together with exactly the knowledge-base
   * articles, and the AI's outcome alone decides the reply: an answer is a
   * 200 with that answer and a record of it, an error a 500, a panic a
   * dropped connection.
   */
  lemma AIOutcomeDecidesReply(body: string, codec: JsonCodec, service: AIService, query: string)
    requires codec.decodeRequest(body) == Success(SearchRequest(query)) && query != ""
    ensures var outcome := AnswerOutcomeOf(service.apiKey, service.factory, codec.unmarshalAnswer, query, GetArticles());
      && (outcome.Answered? ==>
            PlanRequest(body, codec, service) == Respond(outcome.response, RecordOf(query, outcome.response, codec))
            && ReplyOf(PlanRequest(body, codec, service)) == Reply(StatusOK, Json(outcome.response)))
      && (outcome.Failed? ==>
            ReplyOf(PlanRequest(body, codec, service)) == Reply(StatusInternalServerError, PlainText(AIFailureMessage)))
      && (outcome.Panicked? ==> ReplyOf(PlanRequest(body, codec, service)) == Dropped(outcome.reason))
  {
  }

  /** The saved record carries the query, the summary and the encoded article list verbatim. */
  lemma RecordHoldsTheInteraction(body: string, codec: JsonCodec, service: AIService, query: string, response: AIResponse, lastId: int, now: int)
    requires codec.decodeRequest(body) == Success(SearchRequest(query))
    requires PlanRequest(body, codec, service).Respond?
    requires PlanRequest(body, codec, service).response == response
    ensures RowsWritten(PlanRequest(body, codec, service), true, lastId, now) ==
      [SearchHistory(lastId + 1, query, response.summaryAnswer, codec.marshalArticles(response.relevantArticles), now)]
  {
  }

  /**
   * Every request ends as a 400, a 500, a 200 or a dropped connection; at
   * most one row is written, and only on the 200 path.
   */
  lemma OutcomesAreExclusive(body: string, codec: JsonCodec, service: AIService, writable: bool, lastId: int, now: int)
    ensures var reply := ReplyOf(PlanRequest(body, codec, service));
      reply.Dropped? || reply.status in {StatusBadRequest, StatusInternalServerError, StatusOK}
    ensures |RowsWritten(PlanRequest(body, codec, service), writable, lastId, now)| <= 1
    ensures |RowsWritten(PlanRequest(body, codec, service), writable, lastId, now)| == 1 ==>
      ReplyOf(PlanRequest(body, codec, service)).Reply? && ReplyOf(PlanRequest(body, codec, service)).status == StatusOK
  {
  }

  /** Whether the table accepts the write has no effect on the reply, and a write happens exactly when it does. */
  lemma SaveFailureIsInvisible(plan: Plan, lastId: int, now: int)
    requires plan.Respond?
    ensures ReplyOf(plan) == Reply(StatusOK, Json(plan.response))
    ensures RowsWritten(plan, false, lastId, now) == []
    ensures |RowsWritten(plan, true, lastId, now)| == 1
  {
  }
}
