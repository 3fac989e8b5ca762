/**
 * The query pipeline (apps/server/services/rag_service.py): classify the question's language,
 * retrieve chunks, decide between answering from the retrieved context ("rag"), answering
 * from general knowledge ("fallback") and the fixed error answer ("error_fallback"), and
 * score the answer. The embedding model, the generator and the rendering of a similarity
 * with two decimals are collaborators passed in as functions.
 */
module RagService {
  import opened Text
  import opened Store
  import opened DocumentProcessor
  import opened VectorStore
  import MemoryService

  /** `self.similarity_threshold`: below it the retrieved chunks are not used. */
  const SimilarityThreshold: real := 0.3
  /** `self.high_confidence_threshold`; the pipeline never consults it. */
  const HighConfidenceThreshold: real := 0.7

  // ---------------------------------------------------------------------------
  // Pure decisions
  // ---------------------------------------------------------------------------

  /** `RAGService._detect_query_language`: the Bengali share compared with 0.7 and 0.3. */
  function DetectQueryLanguage(text: string): Language
  {
    var bengali := CountBengali(text);
    var total := bengali + CountAsciiLetters(text);
    if total == 0 then En
    else
      var ratio := (bengali as real) / (total as real);
      if ratio > 0.7 then Bn else if ratio < 0.3 then En else Mixed
  }

  /** The question is classified exactly as documents are. */
  lemma {:induction false} QueryLanguageIsDocumentLanguage(text: string)
    ensures DetectQueryLanguage(text) == DetectLanguage(text)
  {
  }

  /** The language filter of the search: the question's language, none when it is mixed. */
  function LanguageFilter(language: Language): (f: Option<string>)
    ensures f.None? <==> language == Mixed
    ensures f.Some? ==> f.value == language.Code() && f.value != ""
  {
    if language == Mixed then None else Some(language.Code())
  }

  /** `max(chunk["similarity"] for chunk in chunks)`. */
  function MaxSimilarity(chunks: seq<SearchResult>): (m: real)
    requires chunks != []
    ensures forall i :: 0 <= i < |chunks| ==> chunks[i].similarity <= m
    ensures exists i :: 0 <= i < |chunks| && chunks[i].similarity == m
  {
    if |chunks| == 1 then chunks[0].similarity
    else
      var rest := MaxSimilarity(chunks[1..]);
      assert forall i :: 1 <= i < |chunks| ==> chunks[i] == chunks[1..][i - 1];
      if chunks[0].similarity >= rest then chunks[0].similarity else rest
  }

  /** The `max_similarity` of the metadata: 0 without chunks. */
  function MaxSimilarityOrZero(chunks: seq<SearchResult>): real
  {
    if chunks == [] then 0.0 else MaxSimilarity(chunks)
  }

  /** `RAGService._should_use_rag_context`: some retrieved chunk reaches the threshold. */
  function ShouldUseRagContext(chunks: seq<SearchResult>): (b: bool)
    ensures b <==> exists i :: 0 <= i < |chunks| && chunks[i].similarity >= SimilarityThreshold
  {
    if chunks == [] then false
    else !(MaxSimilarity(chunks) < SimilarityThreshold)
  }

  function MinReal(a: real, b: real): real { if a < b then a else b }

  /** `min(len(chunks) * 0.1, 0.3)`. */
  function ChunkBonus(n: nat): real { MinReal((n as real) * 0.1, 0.3) }

  /** `min(len(answer.split()) / 20, 1.0) * 0.1`. */
  function AnswerQuality(answer: string): real { MinReal((|Words(answer)| as real) / 20.0, 1.0) * 0.1 }

  /**
   * `RAGService._calculate_confidence`: 0.3 without chunks; otherwise the best similarity
   * plus up to 0.3 for the number of chunks and up to 0.1 for the answer's length, capped at 1.
   */
  function CalculateConfidence(chunks: seq<SearchResult>, answer: string): (c: real)
    ensures chunks == [] ==> c == 0.3
    ensures c <= 1.0
    ensures chunks != [] ==> c >= MinReal(1.0, MaxSimilarity(chunks) + 0.1)
    ensures chunks != [] ==> c <= MaxSimilarity(chunks) + 0.4
  {
    if chunks == [] then 0.3
    else MinReal(MaxSimilarity(chunks) + ChunkBonus(|chunks|) + AnswerQuality(answer), 1.0)
  }

  /** Both bonuses are at their caps from three chunks and twenty answer words on. */
  lemma {:induction false} ConfidenceSaturates(chunks: seq<SearchResult>, answer: string)
    requires |chunks| >= 3 && |Words(answer)| >= 20
    ensures CalculateConfidence(chunks, answer) == MinReal(1.0, MaxSimilarity(chunks) + 0.4)
  {
  }

  /** An answer built from the context is never scored below 0.4. */
  lemma {:induction false} RagConfidenceAtLeast(chunks: seq<SearchResult>, answer: string)
    requires ShouldUseRagContext(chunks)
    ensures 0.4 <= CalculateConfidence(chunks, answer) <= 1.0
  {
    var i :| 0 <= i < |chunks| && chunks[i].similarity >= SimilarityThreshold;
    assert MaxSimilarity(chunks) >= chunks[i].similarity;
  }

  const BengaliApology: string := "দুঃখিত, আপনার প্রশ্নের উত্তর দিতে আমার কিছু সমস্যা হচ্ছে। অনুগ্রহ করে আবার চেষ্টা করুন।"
  const EnglishApology: string := "Sorry, I'm having trouble answering your question right now. Please try again."

  /** `RAGService._get_error_response`: the Bengali apology exactly for a Bengali question. */
  function ErrorResponse(question: string): (r: string)
    ensures r == BengaliApology <==> DetectQueryLanguage(question) == Bn
    ensures r == EnglishApology <==> DetectQueryLanguage(question) != Bn
  {
    assert |BengaliApology| != |EnglishApology|;
    if DetectQueryLanguage(question) == Bn then BengaliApology else EnglishApology
  }

  // ---------------------------------------------------------------------------
  // Formatting the prompt's context
  // ---------------------------------------------------------------------------

  /** One line of the conversation context: the upper-cased role, ": ", the content. */
  function ConversationLine(m: MemoryEntry): string
  {
    Upper(m.role) + ": " + m.content
  }

  /** The lines for the last three messages, oldest first. */
  function ConversationLines(recent: seq<MemoryEntry>): (lines: seq<string>)
    ensures |lines| == if |recent| < 3 then |recent| else 3
    ensures forall i :: 0 <= i < |lines| ==> lines[i] == ConversationLine(recent[|recent| - |lines| + i])
  {
    var last := LastN(recent, 3);
    seq(|last|, i requires 0 <= i < |last| => ConversationLine(last[i]))
  }

  /** What `_format_conversation_context` returns for the given recent messages. */
  function ConversationText(recent: seq<MemoryEntry>): string
  {
    if recent == [] then "" else Join("\n", ConversationLines(recent))
  }

  /** `RAGService._format_conversation_context`. */
  method FormatConversationContext(recent: seq<MemoryEntry>) returns (text: string)
    ensures text == ConversationText(recent)
  {
    if recent == [] {
      return "";
    }
    var last := LastN(recent, 3);
    var formattedMessages: seq<string> := [];
    var i := 0;
    while i < |last|
      invariant 0 <= i <= |last|
      invariant formattedMessages == ConversationLines(recent)[..i]
    {
      var role := Upper(last[i].role);
      formattedMessages := formattedMessages + [role + ": " + last[i].content];
      i := i + 1;
    }
    assert formattedMessages == ConversationLines(recent);
    text := Join("\n", formattedMessages);
  }

  /** When roles and contents are single lines, the context splits back into one line per message. */
  lemma {:induction false} ConversationTextLines(recent: seq<MemoryEntry>)
    requires recent != []
    requires forall i, k :: 0 <= i < |recent| && 0 <= k < |recent[i].content| ==> recent[i].content[k] != '\n'
    requires forall i, k :: 0 <= i < |recent| && 0 <= k < |recent[i].role| ==> recent[i].role[k] != '\n'
    ensures SplitOn(ConversationText(recent), '\n') == ConversationLines(recent)
    ensures |SplitOn(ConversationText(recent), '\n')| <= 3
  {
    var lines := ConversationLines(recent);
    forall i | 0 <= i < |lines| ensures forall k :: 0 <= k < |lines[i]| ==> lines[i][k] != '\n' {
      ConversationLineSingle(recent[|recent| - |lines| + i]);
    }
    assert "\n" == ['\n'];
    SplitOnJoin(lines, '\n');
  }

  /** A message whose role and content are single lines gives a single line. */
  lemma {:induction false} ConversationLineSingle(m: MemoryEntry)
    requires forall k :: 0 <= k < |m.content| ==> m.content[k] != '\n'
    requires forall k :: 0 <= k < |m.role| ==> m.role[k] != '\n'
    ensures forall k :: 0 <= k < |ConversationLine(m)| ==> ConversationLine(m)[k] != '\n'
  {
    var up := Upper(m.role);
    var line := ConversationLine(m);
    forall k | 0 <= k < |line| ensures line[k] != '\n' {
      if k < |up| {
        assert line[k] == UpperChar(m.role[k]);
      } else if k >= |up| + 2 {
        assert line[k] == m.content[k - |up| - 2];
      }
    }
  }

  const NoContext: string := "No relevant context found."

  /** How a missing document title is rendered: Python's `None`. */
  function TitleText(title: Option<string>): string
  {
    if title.Some? then title.value else "None"
  }

  /** The header of the `number`-th source block. */
  function SourceHeader(number: nat, chunk: SearchResult, render: real -> string): string
  {
    "Source " + NatToString(number) + " (Similarity: " + render(chunk.similarity)
    + ", Document: " + TitleText(chunk.documentTitle) + "):\n"
  }

  /** One source block, numbered from 1. */
  function ContextPart(number: nat, chunk: SearchResult, render: real -> string): string
  {
    SourceHeader(number, chunk, render) + chunk.content + "\n"
  }

  function ContextParts(chunks: seq<SearchResult>, render: real -> string): (parts: seq<string>)
    ensures |parts| == |chunks|
  {
    seq(|chunks|, i requires 0 <= i < |chunks| => ContextPart(i + 1, chunks[i], render))
  }

  /** What `_format_context` returns. */
  function ContextText(chunks: seq<SearchResult>, render: real -> string): string
  {
    if chunks == [] then NoContext else Join("\n", ContextParts(chunks, render))
  }

  /** `RAGService._format_context`. */
  method FormatContext(chunks: seq<SearchResult>, render: real -> string) returns (context: string)
    ensures context == ContextText(chunks, render)
  {
    if chunks == [] {
      return NoContext;
    }
    var contextParts: seq<string> := [];
    var i := 0;
    while i < |chunks|
      invariant 0 <= i <= |chunks|
      invariant contextParts == ContextParts(chunks, render)[..i]
    {
      var number := i + 1;
      var header := "Source " + NatToString(number) + " (Similarity: " + render(chunks[i].similarity)
                    + ", Document: " + TitleText(chunks[i].documentTitle) + "):\n";
      contextParts := contextParts + [header + chunks[i].content + "\n"];
      i := i + 1;
    }
    assert contextParts == ContextParts(chunks, render);
    context := Join("\n", contextParts);
  }

  /** Every retrieved chunk's numbered block, and so its content, is in the context. */
  lemma {:induction false} ContextHasEverySource(chunks: seq<SearchResult>, render: real -> string, i: nat)
    requires i < |chunks|
    ensures Contains(ContextText(chunks, render), ContextPart(i + 1, chunks[i], render))
    ensures Contains(ContextText(chunks, render), chunks[i].content)
  {
    var parts := ContextParts(chunks, render);
    JoinContains("\n", parts, i);
    assert parts[i] == ContextPart(i + 1, chunks[i], render);
    ContainsPiece(SourceHeader(i + 1, chunks[i], render), chunks[i].content, "\n");
    ContainsWithin(chunks[i].content, parts[i], ContextText(chunks, render));
  }

  // ---------------------------------------------------------------------------
  // generate_answer
  // ---------------------------------------------------------------------------

  datatype Approach = Rag | Fallback | ErrorFallback
  {
    function Code(): string
    {
      match this
      case Rag => "rag"
      case Fallback => "fallback"
      case ErrorFallback => "error_fallback"
    }
  }

  /** The two prompt templates, with what is filled into them. */
  datatype Prompt =
    | RagPrompt(context: string, conversationContext: string, question: string)
    | FallbackPrompt(question: string)

  /** The collaborators: the embedding model, the search's similarity and language filter, the generator and `:.2f`. */
  datatype RagEnv = RagEnv(
    embed: string -> Option<seq<real>>,
    search: SearchEnv,
    generate: Prompt -> Option<string>,
    render: real -> string)

  /** What `generate_answer` returns, together with the metadata it would store. */
  datatype RagAnswer = RagAnswer(
    answer: string,
    sources: seq<SearchResult>,
    confidence: real,
    responseTime: real,
    language: Language,
    chunksRetrieved: nat,
    approach: Approach,
    ragMetadata: Option<RagMetadata>)

  /** The answer of the exception handler. */
  function ErrorAnswer(question: string, elapsed: real): RagAnswer
  {
    RagAnswer(ErrorResponse(question), [], 0.1, elapsed, DetectQueryLanguage(question), 0, ErrorFallback, None)
  }

  /** The conversation context, or the error `get_relevant_context` raises when a chat id is given. */
  function ConversationFor(chats: seq<Chat>, messages: seq<Message>, chatId: Option<string>, question: string): Result<string>
  {
    if !TruthyText(chatId) then Ok("")
    else match MemoryService.GetRelevantContext(chats, messages, chatId.value, question)
         case Err(e) => Err(e)
         case Ok(c) => Ok(ConversationText(c.recentMessages))
  }

  /** The prompt of the chosen approach. */
  function ChosenPrompt(question: string, chunks: seq<SearchResult>, conversation: string, render: real -> string): Prompt
  {
    if ShouldUseRagContext(chunks) then RagPrompt(ContextText(chunks, render), conversation, question)
    else FallbackPrompt(question)
  }

  /** The answer once the chunks are retrieved and the conversation context is known. */
  function Decide(question: string, chunks: seq<SearchResult>, conversation: string, env: RagEnv, elapsed: real): RagAnswer
  {
    var language := DetectQueryLanguage(question);
    var maxSimilarity := MaxSimilarityOrZero(chunks);
    match env.generate(ChosenPrompt(question, chunks, conversation, env.render))
    case None => ErrorAnswer(question, elapsed)
    case Some(answer) =>
      if ShouldUseRagContext(chunks) then
        RagAnswer(answer, chunks, CalculateConfidence(chunks, answer), elapsed, language, |chunks|, Rag,
                  Some(RagMetadata("rag", |chunks|, maxSimilarity, None, language.Code())))
      else
        RagAnswer(answer, chunks, 0.5, elapsed, language, |chunks|, Fallback,
                  Some(RagMetadata("fallback", 0, maxSimilarity, Some("low_chunk_relevance"), language.Code())))
  }

  /** The chunks `generate_answer` retrieves for a question embedded as `query`. */
  function Retrieved(rows: seq<ChunkRow>, documents: seq<Document>, files: seq<FileRecord>, question: string,
                     query: seq<real>, documentIds: Option<seq<string>>, env: RagEnv): seq<SearchResult>
  {
    SearchResults(rows, documents, files, query, Some(TopKChunks), LanguageFilter(DetectQueryLanguage(question)), documentIds, env.search)
  }

  /** What `generate_answer` returns, over the tables it reads. */
  function AnswerOf(chats: seq<Chat>, messages: seq<Message>, rows: seq<ChunkRow>, documents: seq<Document>, files: seq<FileRecord>,
                    question: string, chatId: Option<string>, documentIds: Option<seq<string>>, env: RagEnv, elapsed: real): RagAnswer
  {
    match env.embed(question)
    case None => ErrorAnswer(question, elapsed)
    case Some(query) =>
      var chunks := Retrieved(rows, documents, files, question, query, documentIds, env);
      match ConversationFor(chats, messages, chatId, question)
      case Err(_) => ErrorAnswer(question, elapsed)
      case Ok(conversation) => Decide(question, chunks, conversation, env, elapsed)
  }

  /**
   * `RAGService.generate_answer`. Any failure (embedding, the conversation context, the
   * generator) lands in the exception handler. `elapsed` stands for the measured response time.
   * Storing the interaction follows only a successful `get_relevant_context`, which never
   * happens, so it is not part of the method.
   */
  method GenerateAnswer(db: Database, question: string, chatId: Option<string>, documentIds: Option<seq<string>>, env: RagEnv, elapsed: real)
    returns (a: RagAnswer)
    ensures a == AnswerOf(db.chats, db.messages, db.chunks, db.documents, db.files, question, chatId, documentIds, env, elapsed)
  {
    var queryLanguage := DetectQueryLanguage(question);
    var queryEmbedding := env.embed(question);
    if queryEmbedding.None? {
      return ErrorAnswer(question, elapsed);
    }
    var filter := if queryLanguage != Mixed then Some(queryLanguage.Code()) else None;
    var relevantChunks := SimilaritySearch(db, queryEmbedding.value, Some(TopKChunks), filter, documentIds, env.search);
    var conversationContext := "";
    if chatId.Some? && chatId.value != "" {
      var contextData := MemoryService.GetRelevantContext(db.chats, db.messages, chatId.value, question);
      match contextData {
        case Err(_) =>
          return ErrorAnswer(question, elapsed);
        case Ok(c) =>
          conversationContext := FormatConversationContext(c.recentMessages);
      }
    }
    a := Respond(question, queryLanguage, relevantChunks, conversationContext, env, elapsed);
  }

  /** The second half of `generate_answer`: choosing the approach and generating the answer. */
  method Respond(question: string, queryLanguage: Language, relevantChunks: seq<SearchResult>, conversationContext: string, env: RagEnv, elapsed: real)
    returns (a: RagAnswer)
    requires queryLanguage == DetectQueryLanguage(question)
    ensures a == Decide(question, relevantChunks, conversationContext, env, elapsed)
  {
    var useRag := ShouldUseRagContext(relevantChunks);
    var maxSimilarity := if relevantChunks == [] then 0.0 else MaxSimilarity(relevantChunks);
    if useRag {
      var context := FormatContext(relevantChunks, env.render);
      var answer := env.generate(RagPrompt(context, conversationContext, question));
      if answer.None? {
        return ErrorAnswer(question, elapsed);
      }
      var confidence := CalculateConfidence(relevantChunks, answer.value);
      var ragMetadata := RagMetadata("rag", |relevantChunks|, maxSimilarity, None, queryLanguage.Code());
      a := RagAnswer(answer.value, relevantChunks, confidence, elapsed, queryLanguage, |relevantChunks|, Rag, Some(ragMetadata));
    } else {
      var answer := env.generate(FallbackPrompt(question));
      if answer.None? {
        return ErrorAnswer(question, elapsed);
      }
      var ragMetadata := RagMetadata("fallback", 0, maxSimilarity, Some("low_chunk_relevance"), queryLanguage.Code());
      a := RagAnswer(answer.value, relevantChunks, 0.5, elapsed, queryLanguage, |relevantChunks|, Fallback, Some(ragMetadata));
    }
  }

  /** As written every question asked within a chat gets the error answer: the conversation context always raises. */
  lemma {:induction false} ChatQuestionsGetErrorAnswer(chats: seq<Chat>, messages: seq<Message>, rows: seq<ChunkRow>, documents: seq<Document>, files: seq<FileRecord>,
                                    question: string, chatId: Option<string>, documentIds: Option<seq<string>>, env: RagEnv, elapsed: real)
    requires TruthyText(chatId)
    ensures AnswerOf(chats, messages, rows, documents, files, question, chatId, documentIds, env, elapsed) == ErrorAnswer(question, elapsed)
  {
    MemoryService.RelevantContextAlwaysFails(chats, messages, chatId.value, question);
  }

  /** What each approach's answer looks like. */
  lemma {:induction false} AnswerShape(chats: seq<Chat>, messages: seq<Message>, rows: seq<ChunkRow>, documents: seq<Document>, files: seq<FileRecord>,
                    question: string, chatId: Option<string>, documentIds: Option<seq<string>>, env: RagEnv, elapsed: real)
    ensures var a := AnswerOf(chats, messages, rows, documents, files, question, chatId, documentIds, env, elapsed);
      a.language == DetectQueryLanguage(question)
      && 0.0 < a.confidence <= 1.0
      && (a.approach == ErrorFallback ==>
            a.answer == ErrorResponse(question) && a.sources == [] && a.confidence == 0.1 && a.chunksRetrieved == 0)
      && (a.approach != ErrorFallback ==>
            env.embed(question).Some?
            && a.sources == Retrieved(rows, documents, files, question, env.embed(question).value, documentIds, env)
            && a.chunksRetrieved == |a.sources|
            && a.ragMetadata.Some? && a.ragMetadata.value.approach == a.approach.Code())
      && (a.approach == Rag ==>
            ShouldUseRagContext(a.sources) && a.confidence == CalculateConfidence(a.sources, a.answer)
            && a.confidence >= 0.4 && a.ragMetadata.value.chunksUsed == |a.sources|)
      && (a.approach == Fallback ==>
            !ShouldUseRagContext(a.sources) && a.confidence == 0.5
            && a.ragMetadata.value.chunksUsed == 0 && a.ragMetadata.value.reason == Some("low_chunk_relevance"))
  {
    match env.embed(question)
    case None =>
    case Some(query) =>
      var chunks := Retrieved(rows, documents, files, question, query, documentIds, env);
      match ConversationFor(chats, messages, chatId, question)
      case Err(_) =>
      case Ok(conversation) => DecideShape(question, chunks, conversation, env, elapsed);
  }

  /** What `Decide` answers: an error answer, or the approach its chunks call for. */
  lemma {:induction false} DecideShape(question: string, chunks: seq<SearchResult>, conversation: string, env: RagEnv, elapsed: real)
    ensures var a := Decide(question, chunks, conversation, env, elapsed);
      a.language == DetectQueryLanguage(question)
      && 0.0 < a.confidence <= 1.0
      && (a.approach == ErrorFallback ==> a == ErrorAnswer(question, elapsed))
      && (a.approach != ErrorFallback ==>
            a.sources == chunks && a.chunksRetrieved == |chunks|
            && a.ragMetadata.Some? && a.ragMetadata.value.approach == a.approach.Code())
      && (a.approach == Rag ==>
            ShouldUseRagContext(chunks) && a.confidence == CalculateConfidence(chunks, a.answer)
            && a.confidence >= 0.4 && a.ragMetadata.value.chunksUsed == |chunks|)
      && (a.approach == Fallback ==>
            !ShouldUseRagContext(chunks) && a.confidence == 0.5
            && a.ragMetadata.value.chunksUsed == 0 && a.ragMetadata.value.reason == Some("low_chunk_relevance"))
  {
    var a := Decide(question, chunks, conversation, env, elapsed);
    if a.approach == Rag {
      RagConfidenceAtLeast(a.sources, a.answer);
    }
  }

  /** Outside a chat, the error answer comes exactly from a failed embedding or a failed generation. */
  lemma {:induction false} ErrorAnswerCauses(chats: seq<Chat>, messages: seq<Message>, rows: seq<ChunkRow>, documents: seq<Document>, files: seq<FileRecord>,
                          question: string, chatId: Option<string>, documentIds: Option<seq<string>>, env: RagEnv, elapsed: real)
    requires !TruthyText(chatId)
    ensures var a := AnswerOf(chats, messages, rows, documents, files, question, chatId, documentIds, env, elapsed);
      a.approach == ErrorFallback <==>
        (env.embed(question).None?
         || env.generate(ChosenPrompt(question, Retrieved(rows, documents, files, question, env.embed(question).value, documentIds, env), "", env.render)).None?)
  {
  }

  /** Outside a chat, with a working embedding and generator, the context is used exactly when some chunk reaches the threshold. */
  lemma {:induction false} RagIffRelevant(chats: seq<Chat>, messages: seq<Message>, rows: seq<ChunkRow>, documents: seq<Document>, files: seq<FileRecord>,
                       question: string, chatId: Option<string>, documentIds: Option<seq<string>>, env: RagEnv, elapsed: real)
    requires !TruthyText(chatId) && env.embed(question).Some?
    requires forall p :: env.generate(p).Some?
    ensures var a := AnswerOf(chats, messages, rows, documents, files, question, chatId, documentIds, env, elapsed);
      var chunks := Retrieved(rows, documents, files, question, env.embed(question).value, documentIds, env);
      (a.approach == Rag <==> exists i :: 0 <= i < |chunks| && chunks[i].similarity >= SimilarityThreshold)
      && (a.approach == Fallback <==> forall i :: 0 <= i < |chunks| ==> chunks[i].similarity < SimilarityThreshold)
  {
  }
}
