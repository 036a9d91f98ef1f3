# AI knowledge-base search backend, modelled in Dafny

This project models the request pipeline of a single-endpoint Go service.
`POST /api/search-query` takes a free-text support question and proceeds in order:

1. It loads a fixed list of three knowledge-base articles.
2. It builds a prompt from the question and the articles.
3. It asks a generative model (Gemini) for a JSON answer.
4. It cuts the JSON object out of the model's reply and decodes it.
5. It appends one row to an append-only SQLite history table.
6. It returns the answer to the caller.

Modules, one per Go file:

- `KnowledgeBase` (`knowledge_base.dfy`, from `backend/internal/kb/kb.go`): `Article` and the constant `GetArticles`.
- `AIClient` (`ai_client.dfy`, from `backend/internal/ai/ai_client.go`):
  - `CleanAIResponse`: keeps the text from the first `{` to the last `}`.
  - `BuildPrompt`: a loop that accumulates the articles section, specified by `Prompt`.
  - `GetAIAnswerWithFactory`: the early-return sequence, specified by `AnswerOutcomeOf`.
  - The model factory and the model are injected oracles: total functions that return a value or an `Error`.
  - `json.Unmarshal` into an `AIResponse` is an abstract partial function (`AnswerDecoder`).
  - The `GEMINI_API_KEY` environment read is an explicit `apiKey` parameter.
- `HistoryStore` (`database.dfy`, from `backend/internal/database/database.go`):
  - The class `Database` stands for the SQLite file and its connection.
  - It holds an open flag, a table-exists flag, the rows, and the AUTOINCREMENT counter.
  - `InitDB` opens the connection and creates the table only if it is absent.
  - `SaveSearch` appends one row with a store-assigned id, or fails with id 0 and changes nothing.
- `Handlers` (`search_handler.dfy`, from `backend/internal/handlers/search_handler.go`):
  - The closure returned by `SearchHandler(db)` is the class `SearchHandler` with method `ServeHTTP`.
  - `ServeHTTP` is specified by the pure `PlanRequest` (decode, validate, then `AnswerPlan`: load articles, ask the AI) and `ReplyOf`.
  - What it writes to the store is specified by `RowsWritten`.
  - `encoding/json` is a `JsonCodec` of abstract functions: request decoding, answer decoding, article encoding.
- `Wrappers` (`wrappers.dfy`): `Option`, `Result` and `Error`, the Go `(value, error)` convention.

Go strings are byte strings and `strings.Index` counts bytes; the model uses `seq<char>`.
`{` and `}` are ASCII and never occur inside a multi-byte UTF-8 sequence.
So the span between the first `{` and the last `}` is the same text either way.

A panic is modelled as an outcome, not excluded by a precondition:

- `cleanAIResponse` slices `rawResponse[start:end+1]`. When the last `}` lies more than one position before the first `{` (`"} x {"`), Go panics with a slice-bounds error.
- `resp.Candidates[0].Content.Parts` panics when the first candidate's `Content` pointer is nil.
- `CleanAIResponse` returns `None` for the first panic. `AnswerOutcome.Panicked` carries either panic up to the handler.
- In the handler, a panic becomes `Reply.Dropped`: `net/http` recovers the panic and closes the connection without a response, and nothing is written to the store.
- `"}{"` does not panic. The slice `[1:1]` is empty, so the result is `""`.

The empty-query check compares with `""` only. A query of one space passes and goes to the AI.
`backend/internal/handlers/search_handler_test.go:115-130` expects a 400 for `" "`; the model follows the code, not that test.

## Model

| member | source | states |
|---|---|---|
| `KnowledgeBase.GetArticles` | backend/internal/kb/kb.go:11-29 | Exactly three articles with ids `kb-001`, `kb-002`, `kb-003` in that order. The ids are pairwise distinct. Every id, title and content is non-empty. |
| `AIClient.IndexOf` | backend/internal/ai/ai_client.go:127 | Returns -1 exactly when the character is absent. Otherwise it returns a position holding the character with no earlier occurrence. |
| `AIClient.LastIndexOf` | backend/internal/ai/ai_client.go:128 | Returns -1 exactly when the character is absent. Otherwise it returns a position holding the character with no later occurrence. |
| `AIClient.CleanAIResponse` | backend/internal/ai/ai_client.go:126-133 | Input lacking `{` or `}` comes back unchanged, including `""`, `"{"` and `"}"`. It panics exactly when every `}` lies more than one position before every `{`. The result is never longer than the input. A changed, non-empty result starts with `{` and ends with `}`. |
| `AIClient.CleanKeepsOuterSpan` | backend/internal/ai/ai_client.go:127-132 | Given the first `{` at s and the last `}` at e, the result is exactly `raw[s..e+1]` when s <= e+1. It is the panic when s > e+1. |
| `AIClient.CleanStripsWrapping` | backend/internal/ai/ai_client_test.go:194-203 | Prose or a markdown fence before and after one object is removed. The condition is that the prefix holds no `{` and the suffix holds no `}`. |
| `AIClient.CleanIgnoresBalance` | backend/internal/ai/ai_client_test.go:205-207 | Two separate objects, with anything between them, come back as one span. |
| `AIClient.CleanAdjacentCrossedBraces` | backend/internal/ai/ai_client.go:132 | `"}{"` cleans to `""` without a panic. |
| `AIClient.CleanCrossedBracesPanics` | backend/internal/ai/ai_client.go:132 | `"} x {"` is the slice-bounds panic. |
| `AIClient.CleanIdempotent` | backend/internal/ai/ai_client.go:126-133 | Cleaning an already-cleaned reply gives the same text again. |
| `AIClient.ArticlesContextAppend` | backend/internal/ai/ai_client.go:94-97 | The articles section of a concatenation is the concatenation of the two sections, in order. |
| `AIClient.ArticleInContext` | backend/internal/ai/ai_client.go:94-97 | Article i's block `Article ID: …\nTitle: …\nContent: …\n\n` sits in the section right after the blocks of articles 0..i-1. |
| `AIClient.ArticlesInOrder` | backend/internal/ai/ai_client.go:95-96 | For i < j, article i's block ends at or before the point where article j's block starts. Blocks follow input order and do not overlap. |
| `AIClient.PromptContainsQuery` | backend/internal/ai/ai_client.go:99-122 | The question occurs verbatim in the prompt, with a double quote immediately before and after it. |
| `AIClient.PromptMarkers` | backend/internal/ai/ai_client.go:104-106 | The prompt holds `--- START OF ARTICLES ---` before the articles section and `--- END OF ARTICLES ---` right after it. |
| `AIClient.PromptContainsArticle` | backend/internal/ai/ai_client.go:94-106 | Every article's block occurs in the prompt after the start marker and before the end marker. |
| `AIClient.PromptWithoutArticles` | backend/internal/ai/ai_client.go:94-106 | With zero articles the section is empty. The end marker follows the start marker after two newlines. |
| `AIClient.PromptNamesAnswerKeys` | backend/internal/ai/ai_client.go:116-121 | The prompt always contains `ai_summary_answer` and `ai_relevant_articles`. These are the JSON names of `AIResponse`'s fields (lines 17-18). |
| `AIClient.BuildPrompt` | backend/internal/ai/ai_client.go:93-123 | The loop that accumulates the articles section yields exactly `Prompt(query, articles)`, the template with the section and the question filled in. |
| `AIClient.GetAIAnswerWithFactory` | backend/internal/ai/ai_client.go:35-80 | The early-return sequence yields exactly `AnswerOutcomeOf`. The lemmas below state that function's cases. |
| `AIClient.MissingKeyFailsFirst` | backend/internal/ai/ai_client.go:39-42 | An empty key gives the missing-key error for every factory and model. Neither is consulted. |
| `AIClient.FactoryErrorPassesThrough` | backend/internal/ai/ai_client.go:45-49 | A factory error is returned unchanged and no answer is produced. |
| `AIClient.ModelErrorPassesThrough` | backend/internal/ai/ai_client.go:51-57 | The model receives the built prompt. Its error is returned unchanged. |
| `AIClient.EmptyReplyFails` | backend/internal/ai/ai_client.go:61-63 | Zero candidates, or a first candidate with zero parts, give "received an empty response from AI". |
| `AIClient.UndecodableReplyFails` | backend/internal/ai/ai_client.go:69-77 | If the cleaned first part does not decode, the error is "failed to parse AI response: " followed by the decoder's message. |
| `AIClient.OnlyFirstPartMatters` | backend/internal/ai/ai_client.go:65-73 | Two replies with the same first part of the first candidate have the same outcome. |
| `AIClient.AnsweredExactlyWhenAllStepsSucceed` | backend/internal/ai/ai_client.go:35-80 | An answer is returned if and only if every step succeeds: a non-empty key, a model, a reply with a first part, a clean without panic, and a decode to that very answer. Every other path returns no answer. |
| `HistoryStore.SchemaHasFiveColumns` | backend/internal/database/database.go:39-45 | The table declares exactly five columns with distinct names. `InitDB` leaves the store with exactly these columns. |
| `HistoryStore.FindById` | backend/internal/database/database_test.go:102-103 | The lookup by id returns a row of the table that carries that id. It returns nothing exactly when no row carries it. |
| `HistoryStore.FindAfterAppend` | backend/internal/database/database.go:67-78 | After appending a row whose id is above every existing id, that id finds the new row. Every other id finds what it found before. |
| `HistoryStore.FindInAscending` | backend/internal/database/database_test.go:249-253 | In a table whose ids ascend, looking up any row's id finds exactly that row. |
| `HistoryStore.Database.InitDB` | backend/internal/database/database.go:23-54 | The connection is open and the table exists with the five declared columns. An existing table keeps its rows and id counter. A new one starts empty. |
| `HistoryStore.Database.Close` | backend/internal/database/database_test.go:268-269 | The connection is closed. The table, its rows and its id counter are untouched. |
| `HistoryStore.Database.SaveSearch` | backend/internal/database/database.go:58-79 | Success happens exactly when the store is open and the table exists. On success there is exactly one new row, holding the three input strings verbatim with a fresh positive id, and that id is returned. The input's `ID` and `CreatedAt` are ignored. On failure the result is `(0, error)` and the table is unchanged. A closed connection gives "sql: database is closed" and an open one without the table gives "no such table: search_history". Lookups of other ids are unaffected. |
| `HistoryStore.SaveIgnoringError` | backend/internal/handlers/search_handler.go:53-58 | A save whose error the caller only logs. On a writable store the search becomes the next row, with the counter's next id. Otherwise nothing changes and the id is 0. The connection, the table and its declared columns are untouched either way. |
| `HistoryStore.SaveAfterClose` | backend/internal/database/database_test.go:263-282 | `InitDB`, `Close`, then `SaveSearch` returns `(0, "sql: database is closed")`. The table keeps its rows and counter, and is empty when it was just created. It still has the five declared columns. |
| `HistoryStore.SaveAll` | backend/internal/database/database_test.go:231-260 | N saves into an open table add N rows after the rows already there, which are kept. The ids are the counter's next N values, in order, and the counter ends N higher. Each id finds its own search. The declared columns are unchanged. |
| `Handlers.SearchHandler.ServeHTTP` | backend/internal/handlers/search_handler.go:20-64 | The reply is `ReplyOf(PlanRequest(...))` whatever the store does. The table grows by exactly `RowsWritten`, and the id counter advances by the number of rows written. The open and table flags and the declared columns are unchanged. |
| `Handlers.SearchHandler.AnswerQuery` | backend/internal/handlers/search_handler.go:32-63 | For a query that passed validation, the reply is `ReplyOf(AnswerPlan(...))`. The table grows by exactly the rows that plan writes, and the counter advances by their number. The open and table flags and the declared columns are unchanged. |
| `Handlers.UndecodableBodyIsBadRequest` | backend/internal/handlers/search_handler.go:22-26 | A body that fails to decode gives 400 "Invalid request body" and no row. |
| `Handlers.EmptyQueryCheckIsExact` | backend/internal/handlers/search_handler.go:27-30 | A decoded request is rejected with 400 if and only if its query is exactly `""`. No AI outcome is consulted. |
| `Handlers.SpaceQueryIsNotRejected` | backend/internal/handlers/search_handler.go:27 | A query of one space does not get the empty-query 400. |
| `Handlers.AIOutcomeDecidesReply` | backend/internal/handlers/search_handler.go:33-40 | The AI is asked with the query and exactly `GetArticles()`. An answer gives 200 with that answer and its record. An AI error gives 500 "Failed to get response from AI service". A panic drops the connection. |
| `Handlers.RecordHoldsTheInteraction` | backend/internal/handlers/search_handler.go:44-53 | The saved row holds the query, the summary and the encoding of the relevant articles, with the store's next id. |
| `Handlers.OutcomesAreExclusive` | backend/internal/handlers/search_handler.go:21-63 | Every request ends in 400, 500, 200 or a dropped connection. At most one row is written, and only on the 200 path. |
| `Handlers.SaveFailureIsInvisible` | backend/internal/handlers/search_handler.go:53-63 | On the answer path the reply is 200 with the answer. An unwritable store writes nothing and a writable one writes one row. |

`GetArticles` is a function, so two calls return equal sequences by construction.

## Left out

- The frontend (React components and the fetch wrapper): UI and network code.
- CORS middleware and the server's `main`: header plumbing, environment-file loading, the HTTP listener and routing.
- `realModelFactory`, `GetAIAnswer` and the genai SDK: the model factory is an injected oracle. The handler receives it, with the API key, as `AIService`.
- The `context.Context` argument: there is no cancellation or timeout logic to model.
- `encoding/json`: decoding is an abstract partial function and encoding an abstract total function. The marshal error the handler ignores (search_handler.go:44) is not modelled. Response headers, the JSON encoding of the 200 body and the trailing newline `http.Error` appends are not modelled either.
- A `nil` reply returned with a `nil` error, and `nil` candidate pointers: the model's reply and candidates are always values. Only a nil `Content` pointer is modelled.
- Error wrapping with `%w` is reduced to message concatenation. `errors.Unwrap` chains are not modelled.
- HistoryStore.Database.SaveSearch: models only two failures, a closed connection and a missing table. Disk errors, constraint violations and a failing `LastInsertId` are not modelled, because they depend on SQLite internals outside this code.
- HistoryStore.Database.InitDB: the fatal exits on open, ping and create failures (`log.Fatalf`) are not modelled. A table that already exists is assumed to be one this code created.
- AIClient.IndexOf: counts characters, where `strings.Index` counts bytes. Positions differ for text with non-ASCII characters before the brace; the cleaned span is the same. `AIClient.LastIndexOf` differs in the same way.
- SQLite mechanics (prepared statements, `Ping`, connection pooling) and `int64` id overflow: ids are unbounded integers.
- `created_at`: the clock is a parameter `now`.
- Logging, and concurrency between requests: the store's own locking is not part of this code.
