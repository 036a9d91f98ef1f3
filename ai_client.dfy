/**
 * The AI client (backend/internal/ai/ai_client.go): prompt construction,
 * extraction of the JSON payload from the model's reply, and the checked
 * sequence of calls that turns a question into an `AIResponse`.
 *
 * The generative model and its factory are injected oracles; JSON decoding
 * is an abstract partial function passed in by the caller.
 */
module AIClient {
  import opened Wrappers
  import opened KnowledgeBase

  // ---------------------------------------------------------------------
  // Data model
  // ---------------------------------------------------------------------

  /** JSON name of the summary field of `AIResponse`. */
  const SummaryKey: string := "ai_summary_answer"
  /** JSON name of the relevant-articles field of `AIResponse`. */
  const ArticlesKey: string := "ai_relevant_articles"

  /** The structured answer decoded from the model's reply. */
  datatype AIResponse = AIResponse(summaryAnswer: string, relevantArticles: seq<Article>)

  /** One content part of a candidate, kept as the text `%v` formats it to. */
  datatype Part = Part(rendered: string)
  datatype Content = Content(parts: seq<Part>)
  /** A candidate's `Content` is a pointer in the SDK and may be nil. */
  datatype Candidate = Candidate(content: Option<Content>)
  datatype GenerateContentResponse = GenerateContentResponse(candidates: seq<Candidate>)

  /** A model: the prompt goes in, a reply or an error comes out. */
  type GenerativeModel = string -> Result<GenerateContentResponse>
  /** A model factory: the API key goes in, a model or an error comes out. */
  type ModelFactory = string -> Result<GenerativeModel>
  /** `json.Unmarshal` into an `AIResponse`: partial, so it may fail. */
  type AnswerDecoder = string -> Result<AIResponse>

  /** The run-time panics a reply can provoke. */
  datatype PanicReason =
    | NilContent             // the first candidate's Content pointer is nil
    | SliceBoundsOutOfRange  // cleaning slices raw[start:end+1] with start > end+1

  /** What `getAIAnswerWithFactory` does: return an answer, return an error, or panic. */
  datatype AnswerOutcome =
    | Answered(response: AIResponse)
    | Failed(error: Error)
    | Panicked(reason: PanicReason)

  const MissingApiKey: Error := Error("GEMINI_API_KEY environment variable not set")
  const EmptyResponse: Error := Error("received an empty response from AI")
  const ParseErrorPrefix: string := "failed to parse AI response: "

  // ---------------------------------------------------------------------
  // cleanAIResponse
  // ---------------------------------------------------------------------

  /** `strings.Index` for a single character: the first position of `c`, or -1. */
  function IndexOf(s: string, c: char): (r: int)
    ensures -1 <= r < |s|
    ensures r == -1 <==> c !in s
    ensures r >= 0 ==> s[r] == c && c !in s[..r]
  {
    if s == [] then -1
    else if s[0] == c then 0
    else
      var k := IndexOf(s[1..], c);
      assert s == [s[0]] + s[1..];
      if k == -1 then -1
      else
        assert s[..k + 1] == [s[0]] + s[1..][..k];
        k + 1
  }

  /** `strings.LastIndex` for a single character: the last position of `c`, or -1. */
  function LastIndexOf(s: string, c: char): (r: int)
    ensures -1 <= r < |s|
    ensures r == -1 <==> c !in s
    ensures r >= 0 ==> s[r] == c && c !in s[r + 1..]
  {
    if s == [] then -1
    else if s[|s| - 1] == c then |s| - 1
    else
      var k := LastIndexOf(s[..|s| - 1], c);
      assert s == s[..|s| - 1] + [s[|s| - 1]];
      assert k >= 0 ==> s[k + 1..] == s[..|s| - 1][k + 1..] + [s[|s| - 1]];
      k
  }

  /**
   * The slice panics exactly when every '}' lies more than one position
   * before every '{' (and both occur).
   */
  ghost predicate BracesCrossed(raw: string)
  {
    && '{' in raw && '}' in raw
    && forall i, j :: 0 <= i < |raw| && 0 <= j < |raw| && raw[i] == '{' && raw[j] == '}' ==> j + 1 < i
  }

  /**
   * Keeps the span from the first '{' to the last '}' inclusive; a reply
   * lacking either brace comes back unchanged. `None` is the slice-bounds
   * panic of the source.
   */
  function CleanAIResponse(raw: string): (cleaned: Option<string>)
    ensures '{' !in raw || '}' !in raw ==> cleaned == Some(raw)
    ensures cleaned.None? <==> BracesCrossed(raw)
    ensures cleaned.Some? ==> |cleaned.value| <= |raw|
    ensures cleaned.Some? && cleaned.value != raw && cleaned.value != "" ==>
      cleaned.value[0] == '{' && cleaned.value[|cleaned.value| - 1] == '}'
  {
    var start := IndexOf(raw, '{');
    var end := LastIndexOf(raw, '}');
    if start == -1 || end == -1 then Some(raw)
    else if start <= end + 1 then Some(raw[start..end + 1])
    else None
  }

  /** Given the first '{' at `s` and the last '}' at `e`, cleaning yields exactly raw[s..e+1], or panics when s > e + 1. */
  lemma CleanKeepsOuterSpan(raw: string, s: nat, e: nat)
    requires s < |raw| && raw[s] == '{' && '{' !in raw[..s]
    requires e < |raw| && raw[e] == '}' && '}' !in raw[e + 1..]
    ensures s <= e + 1 ==> CleanAIResponse(raw) == Some(raw[s..e + 1])
    ensures s > e + 1 ==> CleanAIResponse(raw) == None
  {
  }

  /**
   * Prose or fences around one JSON payload are stripped: whatever precedes
   * the object holds no '{' and whatever follows it holds no '}'.
   */
  lemma CleanStripsWrapping(prefix: string, payload: string, suffix: string)
    requires '{' !in prefix && '}' !in suffix
    requires |payload| >= 2 && payload[0] == '{' && payload[|payload| - 1] == '}'
    ensures CleanAIResponse(prefix + payload + suffix) == Some(payload)
  {
    var raw := prefix + payload + suffix;
    var s, e := |prefix|, |prefix| + |payload| - 1;
    assert raw[..s] == prefix;
    assert raw[e + 1..] == suffix;
    CleanKeepsOuterSpan(raw, s, e);
    assert raw[s..e + 1] == payload;
  }

  /** Braces are not balanced: two separate objects come back as one span. */
  lemma CleanIgnoresBalance(first: string, between: string, second: string)
    requires |first| >= 2 && first[0] == '{' && first[|first| - 1] == '}'
    requires |second| >= 2 && second[0] == '{' && second[|second| - 1] == '}'
    ensures CleanAIResponse(first + between + second) == Some(first + between + second)
  {
    var raw := first + between + second;
    CleanKeepsOuterSpan(raw, 0, |raw| - 1);
    assert raw[0..|raw|] == raw;
  }

  /** "}{" is not a panic: the slice raw[1:1] is empty. */
  lemma CleanAdjacentCrossedBraces()
    ensures CleanAIResponse("}{") == Some("")
  {
    CleanKeepsOuterSpan("}{", 1, 0);
  }

  /** "} x {" panics: the slice raw[4:1] is out of range. */
  lemma CleanCrossedBracesPanics()
    ensures CleanAIResponse("} x {") == None
  {
    CleanKeepsOuterSpan("} x {", 4, 0);
  }

  /** Cleaning an already-cleaned reply changes nothing. */
  lemma CleanIdempotent(raw: string)
    requires CleanAIResponse(raw).Some?
    ensures CleanAIResponse(CleanAIResponse(raw).value) == CleanAIResponse(raw)
  {
    var c := CleanAIResponse(raw).value;
    if c != raw && c != "" {
      CleanStripsWrapping("", c, "");
      assert "" + c + "" == c;
    } else if c == "" {
      assert '{' !in c;
    }
  }

  // ---------------------------------------------------------------------
  // buildPrompt
  // ---------------------------------------------------------------------

  const Preamble: string :=
    "\nYou are an expert IT support assistant for a corporate knowledge base.\nYour task is to answer a user's question based ONLY on the provided knowledge base articles.\n\nHere are the available articles:\n"
  const StartMarker: string := "--- START OF ARTICLES ---"
  const EndMarker: string := "--- END OF ARTICLES ---"
  /** Everything before the articles section. */
  const ArticlesIntro: string := Preamble + StartMarker + "\n"
  /** Everything between the articles section and the question, which opens a double quote. */
  const QuestionIntro: string := "\n" + EndMarker + "\n\nHere is the user's question: " + "\""
  const TaskText: string :=
    "\n\nBased on the articles, please perform the following two tasks:\n1.  Provide a concise, one or two-sentence summary answer to the user's question. If the articles do not contain an answer, state that you could not find an answer.\n2.  Identify the articles that are most relevant to the user's question.\n\nYour entire response MUST be a single, valid JSON object with NO other text or explanation before or after it.\nThe JSON object must have the following structure:\n{\n  \""
  const SchemaMiddle: string := "\": \"Your concise summary answer here.\",\n  \""
  const SchemaTail: string :=
    "\": [\n    { \"id\": \"The ID of the most relevant article\", \"title\": \"The title of the most relevant article\" }\n  ]\n}\n"
  /** Everything after the question: the closing quote, the task and the expected JSON shape. */
  const Instructions: string := "\"" + TaskText + SummaryKey + SchemaMiddle + ArticlesKey + SchemaTail

  /** `t` occurs in `s` starting at position `k`. */
  ghost predicate OccursAt(s: string, t: string, k: int)
  {
    0 <= k && k + |t| <= |s| && s[k..k + |t|] == t
  }

  /** The text one article contributes to the articles section. */
  function ArticleBlock(article: Article): string
  {
    "Article ID: " + article.id + "\nTitle: " + article.title + "\nContent: " + article.content + "\n\n"
  }

  /** The articles section: every article's block, in input order. */
  function ArticlesContext(articles: seq<Article>): string
  {
    if articles == [] then ""
    else ArticlesContext(articles[..|articles| - 1]) + ArticleBlock(articles[|articles| - 1])
  }

  /** The `fmt.Sprintf` template with its two `%s` holes filled. */
  function PromptTemplate(articlesContext: string, userQuery: string): string
  {
    ArticlesIntro + articlesContext + QuestionIntro + userQuery + Instructions
  }

  /** The prompt sent to the model for a question and an article list. */
  function Prompt(userQuery: string, articles: seq<Article>): string
  {
    PromptTemplate(ArticlesContext(articles), userQuery)
  }

  /** Where the article at index `i` starts in the prompt. */
  function ArticleOffset(articles: seq<Article>, i: nat): int
    requires i <= |articles|
  {
    |ArticlesIntro| + |ArticlesContext(articles[..i])|
  }

  /** Where the end marker starts in the prompt. */
  function EndMarkerOffset(articles: seq<Article>): int
  {
    |ArticlesIntro| + |ArticlesContext(articles)| + 1
  }

  /** Where the question starts in the prompt. */
  function QueryOffset(articles: seq<Article>): int
  {
    |ArticlesIntro| + |ArticlesContext(articles)| + |QuestionIntro|
  }

  lemma OccursAtEnd(before: string, t: string)
    ensures OccursAt(before + t, t, |before|)
  {
    assert (before + t)[|before|..|before| + |t|] == t;
  }

  lemma OccursExtendRight(s: string, t: string, k: int, after: string)
    requires OccursAt(s, t, k)
    ensures OccursAt(s + after, t, k)
  {
    assert (s + after)[k..k + |t|] == s[k..k + |t|];
  }

  lemma OccursExtendLeft(s: string, t: string, k: int, before: string)
    requires OccursAt(s, t, k)
    ensures OccursAt(before + s, t, |before| + k)
  {
    assert (before + s)[|before| + k..|before| + k + |t|] == s[k..k + |t|];
  }

  /** Building the section article by article is the same as joining the blocks of two halves. */
  lemma {:induction false} ArticlesContextAppend(xs: seq<Article>, ys: seq<Article>)
    ensures ArticlesContext(xs + ys) == ArticlesContext(xs) + ArticlesContext(ys)
    decreases |ys|
  {
    if ys == [] {
      assert xs + ys == xs;
    } else {
      var init, last := ys[..|ys| - 1], ys[|ys| - 1];
      assert ys == init + [last];
      assert (xs + ys)[..|xs + ys| - 1] == xs + init;
      assert (xs + ys)[|xs + ys| - 1] == last;
      calc {
        ArticlesContext(xs + ys);
        ArticlesContext(xs + init) + ArticleBlock(last);
        { ArticlesContextAppend(xs, init); }
        ArticlesContext(xs) + ArticlesContext(init) + ArticleBlock(last);
        ArticlesContext(xs) + (ArticlesContext(init) + ArticleBlock(last));
        ArticlesContext(xs) + ArticlesContext(ys);
      }
    }
  }

  /** The articles section holds the block of article `i` right after the blocks of the articles before it. */
  lemma ArticleInContext(articles: seq<Article>, i: nat)
    requires i < |articles|
    ensures |ArticlesContext(articles[..i])| + |ArticleBlock(articles[i])| <= |ArticlesContext(articles)|
    ensures OccursAt(ArticlesContext(articles), ArticleBlock(articles[i]), |ArticlesContext(articles[..i])|)
  {
    assert articles == articles[..i + 1] + articles[i + 1..];
    ArticlesContextAppend(articles[..i + 1], articles[i + 1..]);
    assert articles[..i + 1][..i] == articles[..i];
    OccursAtEnd(ArticlesContext(articles[..i]), ArticleBlock(articles[i]));
    OccursExtendRight(ArticlesContext(articles[..i + 1]), ArticleBlock(articles[i]),
                      |ArticlesContext(articles[..i])|, ArticlesContext(articles[i + 1..]));
  }

  /** Articles appear in the prompt in input order, without overlapping. */
  lemma ArticlesInOrder(articles: seq<Article>, i: nat, j: nat)
    requires i < j <= |articles|
    ensures ArticleOffset(articles, i) + |ArticleBlock(articles[i])| <= ArticleOffset(articles, j)
  {
    assert articles[..j] == articles[..i + 1] + articles[i + 1..j];
    ArticlesContextAppend(articles[..i + 1], articles[i + 1..j]);
    assert articles[..i + 1][..i] == articles[..i];
  }

  /** The question appears verbatim in the prompt, between double quotes. */
  lemma PromptContainsQuery(userQuery: string, articles: seq<Article>)
    ensures OccursAt(Prompt(userQuery, articles), userQuery, QueryOffset(articles))
    ensures Prompt(userQuery, articles)[QueryOffset(articles) - 1] == '"'
    ensures Prompt(userQuery, articles)[QueryOffset(articles) + |userQuery|] == '"'
  {
    var before := ArticlesIntro + ArticlesContext(articles) + QuestionIntro;
    OccursAtEnd(before, userQuery);
    OccursExtendRight(before + userQuery, userQuery, |before|, Instructions);
    assert QuestionIntro[|QuestionIntro| - 1] == '"';
    assert before[|before| - 1] == '"';
    assert Instructions[0] == '"';
  }

  /** The start and end markers frame the articles section. */
  lemma PromptMarkers(userQuery: string, articles: seq<Article>)
    ensures OccursAt(Prompt(userQuery, articles), StartMarker, |Preamble|)
    ensures OccursAt(Prompt(userQuery, articles), EndMarker, EndMarkerOffset(articles))
  {
    var ctx := ArticlesContext(articles);
    OccursAtEnd(Preamble, StartMarker);
    OccursExtendRight(Preamble + StartMarker, StartMarker, |Preamble|, "\n");
    OccursExtendRight(ArticlesIntro, StartMarker, |Preamble|, ctx);
    OccursExtendRight(ArticlesIntro + ctx, StartMarker, |Preamble|, QuestionIntro);
    OccursExtendRight(ArticlesIntro + ctx + QuestionIntro, StartMarker, |Preamble|, userQuery);
    OccursExtendRight(ArticlesIntro + ctx + QuestionIntro + userQuery, StartMarker, |Preamble|, Instructions);

    OccursAtEnd("\n", EndMarker);
    OccursExtendRight("\n" + EndMarker, EndMarker, 1, "\n\nHere is the user's question: ");
    OccursExtendRight("\n" + EndMarker + "\n\nHere is the user's question: ", EndMarker, 1, "\"");
    OccursExtendLeft(QuestionIntro, EndMarker, 1, ArticlesIntro + ctx);
    OccursExtendRight(ArticlesIntro + ctx + QuestionIntro, EndMarker, EndMarkerOffset(articles), userQuery);
    OccursExtendRight(ArticlesIntro + ctx + QuestionIntro + userQuery, EndMarker, EndMarkerOffset(articles), Instructions);
  }

  /** Every article's block appears in the prompt, after the start marker and before the end marker. */
  lemma PromptContainsArticle(userQuery: string, articles: seq<Article>, i: nat)
    requires i < |articles|
    ensures OccursAt(Prompt(userQuery, articles), ArticleBlock(articles[i]), ArticleOffset(articles, i))
    ensures |Preamble| + |StartMarker| < ArticleOffset(articles, i)
    ensures ArticleOffset(articles, i) + |ArticleBlock(articles[i])| < EndMarkerOffset(articles)
  {
    var ctx := ArticlesContext(articles);
    var block := ArticleBlock(articles[i]);
    ArticleInContext(articles, i);
    OccursExtendLeft(ctx, block, |ArticlesContext(articles[..i])|, ArticlesIntro);
    OccursExtendRight(ArticlesIntro + ctx, block, ArticleOffset(articles, i), QuestionIntro);
    OccursExtendRight(ArticlesIntro + ctx + QuestionIntro, block, ArticleOffset(articles, i), userQuery);
    OccursExtendRight(ArticlesIntro + ctx + QuestionIntro + userQuery, block, ArticleOffset(articles, i), Instructions);
  }

  /** With no articles the section between the markers is empty. */
  lemma PromptWithoutArticles(userQuery: string)
    ensures ArticlesContext([]) == ""
    ensures EndMarkerOffset([]) == |Preamble| + |StartMarker| + 2
  {
  }

  lemma InstructionsNameAnswerKeys()
    ensures OccursAt(Instructions, SummaryKey, 1 + |TaskText|)
    ensures OccursAt(Instructions, ArticlesKey, 1 + |TaskText| + |SummaryKey| + |SchemaMiddle|)
  {
    var lead := "\"" + TaskText;
    OccursAtEnd(lead, SummaryKey);
    OccursExtendRight(lead + SummaryKey, SummaryKey, |lead|, SchemaMiddle);
    OccursExtendRight(lead + SummaryKey + SchemaMiddle, SummaryKey, |lead|, ArticlesKey);
    OccursExtendRight(lead + SummaryKey + SchemaMiddle + ArticlesKey, SummaryKey, |lead|, SchemaTail);
    OccursAtEnd(lead + SummaryKey + SchemaMiddle, ArticlesKey);
    OccursExtendRight(lead + SummaryKey + SchemaMiddle + ArticlesKey, ArticlesKey,
                      |lead + SummaryKey + SchemaMiddle|, SchemaTail);
  }

  /** The prompt always names both JSON keys of the expected answer. */
  lemma PromptNamesAnswerKeys(userQuery: string, articles: seq<Article>)
    ensures OccursAt(Prompt(userQuery, articles), SummaryKey, QueryOffset(articles) + |userQuery| + 1 + |TaskText|)
    ensures OccursAt(Prompt(userQuery, articles), ArticlesKey,
                     QueryOffset(articles) + |userQuery| + 1 + |TaskText| + |SummaryKey| + |SchemaMiddle|)
  {
    var head := ArticlesIntro + ArticlesContext(articles) + QuestionIntro + userQuery;
    KeysFollowHead(head);
  }

  /** Whatever precedes the instructions, the keys keep their offsets inside them. */
  lemma KeysFollowHead(head: string)
    ensures OccursAt(head + Instructions, SummaryKey, |head| + 1 + |TaskText|)
    ensures OccursAt(head + Instructions, ArticlesKey, |head| + 1 + |TaskText| + |SummaryKey| + |SchemaMiddle|)
  {
    InstructionsNameAnswerKeys();
    OccursExtendLeft(Instructions, SummaryKey, 1 + |TaskText|, head);
    OccursExtendLeft(Instructions, ArticlesKey, 1 + |TaskText| + |SummaryKey| + |SchemaMiddle|, head);
  }

  /** `buildPrompt`: accumulates the articles section in a loop, then fills the template. */
  method BuildPrompt(userQuery: string, articles: seq<Article>) returns (prompt: string)
    ensures prompt == Prompt(userQuery, articles)
  {
    var articlesContext := "";
    for i := 0 to |articles|
      invariant articlesContext == ArticlesContext(articles[..i])
    {
      assert articles[..i + 1][..i] == articles[..i];
      articlesContext := articlesContext + ArticleBlock(articles[i]);
    }
    assert articles[..|articles|] == articles;
    prompt := PromptTemplate(articlesContext, userQuery);
  }

  // ---------------------------------------------------------------------
  // getAIAnswerWithFactory
  // ---------------------------------------------------------------------

  /** What becomes of a model reply: the emptiness checks, cleaning and decoding of its first part. */
  function ReplyOutcome(reply: GenerateContentResponse, unmarshal: AnswerDecoder): AnswerOutcome
  {
    if |reply.candidates| == 0 then Failed(EmptyResponse)
    else match reply.candidates[0].content
      case None => Panicked(NilContent)
      case Some(content) =>
        if |content.parts| == 0 then Failed(EmptyResponse)
        else match CleanAIResponse(content.parts[0].rendered)
          case None => Panicked(SliceBoundsOutOfRange)
          case Some(cleaned) =>
            match unmarshal(cleaned)
            case Failure(e) => Failed(Error(ParseErrorPrefix + e.message))
            case Success(response) => Answered(response)
  }

  /** The outcome of asking the model, one check after another, each returning early on failure. */
  function AnswerOutcomeOf(apiKey: string, factory: ModelFactory, unmarshal: AnswerDecoder,
                           userQuery: string, articles: seq<Article>): AnswerOutcome
  {
    if apiKey == "" then Failed(MissingApiKey)
    else match factory(apiKey)
      case Failure(e) => Failed(e)
      case Success(model) =>
        match model(Prompt(userQuery, articles))
        case Failure(e) => Failed(e)
        case Success(reply) => ReplyOutcome(reply, unmarshal)
  }

  /**
   * `getAIAnswerWithFactory`, with the API key read from the environment
   * passed in as `apiKey`.
   */
  method GetAIAnswerWithFactory(apiKey: string, factory: ModelFactory, unmarshal: AnswerDecoder,
                                userQuery: string, articles: seq<Article>)
    returns (outcome: AnswerOutcome)
    ensures outcome == AnswerOutcomeOf(apiKey, factory, unmarshal, userQuery, articles)
  {
    if apiKey == "" {
      return Failed(MissingApiKey);
    }
    var created := factory(apiKey);
    if created.Failure? {
      return Failed(created.error);
    }
    var model := created.value;
    var prompt := BuildPrompt(userQuery, articles);
    var generated := model(prompt);
    if generated.Failure? {
      return Failed(generated.error);
    }
    var reply := generated.value;
    if |reply.candidates| == 0 {
      return Failed(EmptyResponse);
    }
    if reply.candidates[0].content.None? {
      return Panicked(NilContent);
    }
    var parts := reply.candidates[0].content.value.parts;
    if |parts| == 0 {
      return Failed(EmptyResponse);
    }
    var aiContent := parts[0].rendered;
    var cleanedJson := CleanAIResponse(aiContent);
    if cleanedJson.None? {
      return Panicked(SliceBoundsOutOfRange);
    }
    var decoded := unmarshal(cleanedJson.value);
    if decoded.Failure? {
      return Failed(Error(ParseErrorPrefix + decoded.error.message));
    }
    return Answered(decoded.value);
  }

  /** An empty key fails before the factory or the model is consulted: any factory gives the same error. */
  lemma MissingKeyFailsFirst(factory: ModelFactory, unmarshal: AnswerDecoder,
                             userQuery: string, articles: seq<Article>)
    ensures AnswerOutcomeOf("", factory, unmarshal, userQuery, articles) == Failed(MissingApiKey)
  {
  }

  /** A factory error is returned unchanged, whatever the model would have said. */
  lemma FactoryErrorPassesThrough(apiKey: string, factory: ModelFactory, unmarshal: AnswerDecoder,
                                  userQuery: string, articles: seq<Article>, e: Error)
    requires apiKey != "" && factory(apiKey) == Failure(e)
    ensures AnswerOutcomeOf(apiKey, factory, unmarshal, userQuery, articles) == Failed(e)
  {
  }

  /** The model is called with exactly the built prompt, and its error is returned unchanged. */
  lemma ModelErrorPassesThrough(apiKey: string, factory: ModelFactory, unmarshal: AnswerDecoder,
                                userQuery: string, articles: seq<Article>, model: GenerativeModel, e: Error)
    requires apiKey != "" && factory(apiKey) == Success(model)
    requires model(Prompt(userQuery, articles)) == Failure(e)
    ensures AnswerOutcomeOf(apiKey, factory, unmarshal, userQuery, articles) == Failed(e)
  {
  }

  /** No candidate, or a first candidate without parts, is the empty-response error. */
  lemma EmptyReplyFails(reply: GenerateContentResponse, unmarshal: AnswerDecoder)
    requires |reply.candidates| == 0
          || (reply.candidates[0].content.Some? && |reply.candidates[0].content.value.parts| == 0)
    ensures ReplyOutcome(reply, unmarshal) == Failed(EmptyResponse)
  {
  }

  /** A decode failure is the parse error, wrapping the decoder's message. */
  lemma UndecodableReplyFails(reply: GenerateContentResponse, unmarshal: AnswerDecoder, cleaned: string, e: Error)
    requires |reply.candidates| > 0 && reply.candidates[0].content.Some?
    requires |reply.candidates[0].content.value.parts| > 0
    requires CleanAIResponse(reply.candidates[0].content.value.parts[0].rendered) == Some(cleaned)
    requires unmarshal(cleaned) == Failure(e)
    ensures ReplyOutcome(reply, unmarshal) == Failed(Error(ParseErrorPrefix + e.message))
  {
  }

  /** Only the first part of the first candidate is read: replies that agree on it end alike. */
  lemma OnlyFirstPartMatters(r1: GenerateContentResponse, r2: GenerateContentResponse, unmarshal: AnswerDecoder)
    requires |r1.candidates| > 0 && r1.candidates[0].content.Some? && |r1.candidates[0].content.value.parts| > 0
    requires |r2.candidates| > 0 && r2.candidates[0].content.Some? && |r2.candidates[0].content.value.parts| > 0
    requires r1.candidates[0].content.value.parts[0] == r2.candidates[0].content.value.parts[0]
    ensures ReplyOutcome(r1, unmarshal) == ReplyOutcome(r2, unmarshal)
  {
  }

  /**
   * An answer comes back exactly when every step succeeds: a key, a model,
   * a reply, and a first part whose cleaned text decodes to that answer.
   */
  lemma AnsweredExactlyWhenAllStepsSucceed(apiKey: string, factory: ModelFactory, unmarshal: AnswerDecoder,
                                           userQuery: string, articles: seq<Article>, response: AIResponse)
    ensures AnswerOutcomeOf(apiKey, factory, unmarshal, userQuery, articles) == Answered(response) <==>
      && apiKey != ""
      && factory(apiKey).Success?
      && var generated := factory(apiKey).value(Prompt(userQuery, articles));
      && generated.Success?
      && |generated.value.candidates| > 0
      && generated.value.candidates[0].content.Some?
      && |generated.value.candidates[0].content.value.parts| > 0
      && var cleaned := CleanAIResponse(generated.value.candidates[0].content.value.parts[0].rendered);
      && cleaned.Some?
      && unmarshal(cleaned.value) == Success(response)
  {
  }
}
