# Tukhor-AI server core in Dafny

Tukhor-AI is a question-answering service for a Bengali literature textbook (HSC26 Bangla 1st
Paper). Its FastAPI server cleans and chunks documents, stores the chunks with their embeddings,
answers questions with retrieval-augmented generation, keeps per-chat conversational memory,
scores answers, and exposes endpoints for chats, documents, question answering, feedback and
system status. This project models the server's deterministic decisions and bookkeeping and
proves properties of them:

- `Text`, `Sorting` and `Http`: string helpers with Python's semantics (`strip`, `split`,
  `join`, `rsplit`, ASCII `lower`/`upper`, `in`), a stable descending insertion sort standing in
  for `list.sort(reverse=True)`, and the status/detail pair of an `HTTPException`.
- `Store`: the persisted tables (Document, File, DocumentChunk, Chat, Message, QueryEvaluation)
  as `seq` fields of one `Database` class. Generated ids are minted from a counter, and the
  class invariant `Valid()` keeps every stored id shorter than the next one, so a new id is
  always fresh. Chats are kept least recently updated first, so "ordered by `updatedAt`
  descending" is the table reversed.
- `DocumentProcessor`: `extract_text_from_pdf` over the PDF library's page texts,
  `clean_bengali_text` as composed rewrites, the three-way language
  classifier with integer cross-multiplication for its thresholds, and `chunk_document` over an
  abstract splitter.
- `VectorStore`: chunk insertion with positional indices, the similarity search (filter, score,
  stable sort, top-k), listing and deleting a document's chunks, and the statistics.
- `RagService`: the query language, the language filter, the rag/fallback/error_fallback
  decision, the confidence formula, the two context formatters and `generate_answer`.
- `MemoryService`: the ten-entry short-term buffer, chat titles, paged history, the chat
  listing, `store_message` and `get_relevant_context`.
- `EvaluationService`: groundedness, relevance, completeness, language consistency, source
  utilisation, their mean, the feedback upsert and the statistics.
- `DocumentService`: knowledge-base initialisation, upload, details with previews, deletion
  with its ownership check, and knowledge-base deletion.
- `DocumentsApi`, `ChatApi`, `RagApi`, `SystemApi` and `Auth`: the endpoints' validation,
  partitioning, pagination, ownership and readiness decisions, and token selection in
  `verify_session`.

Every collaborator the server calls is a parameter: the embedding model, cosine similarity,
Gemini, PDF download, opening a PDF and reading its pages, UTF-8 decoding, the text splitter, Supabase storage, the
Supabase filter on an embedded row's language, the identity service, the rendering of a float
with `:.2f`, the random uuid of each upload and the elapsed time. A collaborator that can fail
returns an `Option` or `Result`. Scores are exact `real`s.

Properties that hold of the code as written and are worth knowing:

- `get_relevant_context` iterates over the keys of the dictionary that `get_chat_history`
  returns, so it always raises (`MemoryService.RelevantContextAlwaysFails`). Both
  `send_message` and `ask_question` always pass a chat id to `generate_answer`, because they
  create the chat first. Every answer they return is therefore the error apology with
  confidence 0.1 (`RagService.ChatQuestionsGetErrorAnswer`, `ChatApi.SendMessage`,
  `RagApi.AskQuestion`). The rag and fallback paths, and the storing of the interaction, are
  reached only through `generate_answer` without a chat id.
- `clean_bengali_text` is not idempotent. Removing '@' from "a @ b" leaves two spaces, and only
  a second pass collapses them (`DocumentProcessor.CleanIsNotIdempotent`). The system's design
  notes ask for an idempotent normaliser; the model follows the code.
- The design notes also ask for one retry of a failed embedding or generation call, and for a
  failed search at query time to fall back to context-free generation. The code does neither:
  any failure in `generate_answer` yields `error_fallback`. They also ask that a partial write
  never leave a document without its chunks. An upload or initialisation whose embedding fails
  leaves the document (and the upload's file record) stored without chunks; the model states
  this in `DocumentService.UploadDocument` and `DocumentService.InitializeKnowledgeBase`.
- `get_chat_messages` checks ownership against `get_user_chats` with its default limit. A chat
  outside the user's 20 most recently updated chats is reported as not found
  (`ChatApi.ListedIffRecent`).

## Model

| member | source | states |
|---|---|---|
| Auth.SelectToken | apps/server/middleware/auth.py:8-16 | A Bearer header supplies the token. Otherwise a token comes from the cookie exactly when the cookie starts with "Bearer ", and the cookie is then "Bearer " followed by the token. |
| Auth.BearerSpaceFirst | apps/server/middleware/auth.py:15-16 | In a cookie starting with "Bearer ", the first space is the one after "Bearer", so `split(" ", 1)[1]` is the rest of the cookie. |
| Auth.SessionOutcome | apps/server/middleware/auth.py:7-25 | The session succeeds iff a non-empty token is found and the identity lookup yields a user, and then returns that user. Every failure is a 401, and it is "Not authenticated" exactly when there is no token. |
| Auth.HeaderOverridesCookie | apps/server/middleware/auth.py:10-11 | With a Bearer header the cookie does not affect the outcome. |
| Auth.OtherSchemeFallsBack | apps/server/middleware/auth.py:10-16 | A header with another scheme is treated as no header. |
| Auth.NoTokenNoLookup | apps/server/middleware/auth.py:18-20 | Without a token the identity service plays no part in the outcome. |
| Auth.CookieTokenRoundTrip | apps/server/middleware/auth.py:13-16 | A cookie "Bearer " + t yields t, and a cookie without that prefix yields nothing. |
| DocumentProcessor.CollapseWhitespace | apps/server/services/document_processor.py:74 | After collapsing whitespace, the only whitespace character left is the space. |
| DocumentProcessor.RemoveDisallowed | apps/server/services/document_processor.py:77-79 | After removal, every character is in the allowed class. |
| DocumentProcessor.PadMarkSpacesAfter | apps/server/services/document_processor.py:82-83 | After padding a mark, every occurrence of it is followed by a space. |
| DocumentProcessor.CollapseNewlinesIdentity | apps/server/services/document_processor.py:86 | The newline rewrite changes nothing in a text without newlines, which is always the case once whitespace has been collapsed. |
| DocumentProcessor.CleanedTextShape | apps/server/services/document_processor.py:71-88 | The cleaned text has no leading or trailing whitespace, its only whitespace is U+0020, every character is in the allowed class, and every ',' other than the last character is followed by a space. |
| DocumentProcessor.CleanIsNotIdempotent | apps/server/services/document_processor.py:71-88 | Cleaning "a @ b" gives "a  b", and cleaning that again gives "a b", so cleaning twice differs from cleaning once. |
| DocumentProcessor.DetectLanguage | apps/server/services/document_processor.py:90-106 | "en" when the text has no Bengali character and no ASCII letter. Otherwise "bn" iff the Bengali share is above 0.7, "en" iff it is below 0.3, and "mixed" iff it lies in [0.3, 0.7]. |
| DocumentProcessor.NoLettersIsEnglish | apps/server/services/document_processor.py:92-97 | A text with neither Bengali characters nor ASCII letters is classified "en". |
| DocumentProcessor.ThresholdsAreMixed | apps/server/services/document_processor.py:99-106 | A share of exactly 0.3 or exactly 0.7 is "mixed". |
| DocumentProcessor.KeptChunksAreIndexedPieces | apps/server/services/document_processor.py:122-138 | Every kept chunk is the splitter piece at its `chunk_index` and passed the length test. There are at most as many kept chunks as pieces, and indices strictly increase. |
| DocumentProcessor.KeptChunksComplete | apps/server/services/document_processor.py:123-136 | Every piece whose stripped length is at least 50 is kept, with its own index. |
| DocumentProcessor.ExtractTextFromPdf | apps/server/services/document_processor.py:33-65 | The extraction loop yields the content and metadata of `PdfExtraction`: one page entry per page, numbered from 1, holding that page's text, with the page count equal to their number and the four document properties. |
| DocumentProcessor.PdfTextHasEveryPage | apps/server/services/document_processor.py:40-45 | Every page's text occurs in the extracted content. |
| DocumentProcessor.ChunksOfShape | apps/server/services/document_processor.py:108-136 | Every chunk carries the document title and the whole source metadata (for a PDF: page count, per-page texts, title, author, subject and creator), is at least 50 characters once stripped, and records its own length and whitespace word count. |
| DocumentProcessor.ChunkDocument | apps/server/services/document_processor.py:108-142 | The loop returns the chunks of the cleaned text's splitter pieces, all labelled with the language of the whole cleaned text. |
| DocumentProcessor.MakeChunks | apps/server/services/document_processor.py:122-138 | The loop appends exactly the kept pieces, in splitter order. |
| DocumentProcessor.ProcessKnowledgeBase | apps/server/services/document_processor.py:144-169 | Download, extraction and chunking under the knowledge-base title. A failed download is an error. |
| DocumentProcessor.ProcessUploadedDocument | apps/server/services/document_processor.py:171-200 | A "pdf" type (in any letter case) is extracted as PDF; any other type is decoded as UTF-8 with filename/type metadata. Either way the text is chunked under the file name. |
| VectorStore.StoreDocumentChunks | apps/server/services/vector_store.py:15-57 | Appends one row per input chunk, with `chunkIndex` equal to its position, the document id and the file id. It returns the rows' ids in input order and advances the id counter by their number. |
| VectorStore.NewChunkRowsFresh | apps/server/services/vector_store.py:27-46 | The new rows' ids differ from each other and from every existing row's id, and row i has index i. |
| VectorStore.CandidatesAreCandidates | apps/server/services/vector_store.py:77-80 | A row is a candidate iff it is in the table, matches the language filter when one is given, and belongs to one of the listed documents when a list is given. |
| VectorStore.ScoresAreSimilarities | apps/server/services/vector_store.py:94-115 | A candidate is scored iff its similarity is computed, and it is scored with that value. A failed computation skips the chunk. |
| VectorStore.ScoreChunks | apps/server/services/vector_store.py:94-115 | The scoring loop builds exactly that list. |
| VectorStore.FormatResults | apps/server/services/vector_store.py:119-139 | One result per kept entry, in order, with the document's title and language and the file's name joined in. |
| VectorStore.SimilaritySearch | apps/server/services/vector_store.py:59-145 | The search returns the candidates that could be scored, stably sorted by decreasing similarity and cut to top-k. No candidates gives []. |
| VectorStore.SearchAtMostTopK | apps/server/services/vector_store.py:68-118 | With a positive effective `top_k`, at most that many results. |
| VectorStore.SearchCount | apps/server/services/vector_store.py:68-118 | Exactly min(k, number of scored candidates) results for the effective `k` >= 0; a negative `k` slices as Python does and drops the last -k. |
| VectorStore.FalsyTopKUsesDefault | apps/server/services/vector_store.py:68 | A missing or zero `top_k` becomes 5, so at most five results come back. |
| VectorStore.SearchWithoutCandidates | apps/server/services/vector_store.py:84-87 | No candidate rows means no results. |
| VectorStore.SearchSorted | apps/server/services/vector_store.py:116-118 | Results come in non-increasing order of similarity. |
| VectorStore.SearchStable | apps/server/services/vector_store.py:116-118 | For any similarity value, the kept entries with that value are a prefix of the scored candidates with that value, in fetch order. |
| VectorStore.SearchResultsAreCandidates | apps/server/services/vector_store.py:77-139 | Result i comes from a candidate row, carries that row's computed similarity, and is the formatted ranked entry i. |
| VectorStore.ChunksInIndexOrderSpec | apps/server/services/vector_store.py:151-156 | The listing is a permutation of the document's chunks, all of that document, in ascending `chunkIndex`. |
| VectorStore.GetChunksByDocument | apps/server/services/vector_store.py:147-176 | One listing entry per chunk of the document. |
| VectorStore.DeleteDocumentChunks | apps/server/services/vector_store.py:178-195 | Removes exactly the document's chunks and returns their number, which is the drop in table size. |
| VectorStore.DeleteKeepsOtherDocuments | apps/server/services/vector_store.py:182-189 | Every other document keeps all its chunks, in order. |
| VectorStore.DeleteRemovesDocument | apps/server/services/vector_store.py:182-189 | The deleted document has no chunks left. |
| VectorStore.LanguageDistributionCounts | apps/server/services/vector_store.py:205-216 | A language is in the distribution iff some document has it, and is mapped to its number of documents. |
| VectorStore.GetVectorStoreStats | apps/server/services/vector_store.py:197-217 | The statistics count all chunks and all documents. |
| Sorting.SortDescPermutes | apps/server/services/vector_store.py:117 | The sort is a permutation of its input. |
| Sorting.SortDescSorted | apps/server/services/vector_store.py:117 | The sort's output is in non-increasing key order. |
| Sorting.SortDescStable | apps/server/services/vector_store.py:117 | Entries with equal keys keep their relative order, as in Python's stable sort. |
| RagService.QueryLanguageIsDocumentLanguage | apps/server/services/rag_service.py:225-241 | The query classifier is the document classifier: same counts, same thresholds, same default "en". |
| RagService.LanguageFilter | apps/server/services/rag_service.py:85-90 | The search is filtered by the query's language, and not filtered when that language is "mixed". |
| RagService.ShouldUseRagContext | apps/server/services/rag_service.py:186-203 | Context is used iff some chunk's similarity reaches 0.3, so never for an empty list. |
| RagService.CalculateConfidence | apps/server/services/rag_service.py:275-290 | 0.3 without chunks. Otherwise the result never exceeds 1, is at least min(1, best similarity + 0.1) and at most best similarity + 0.4. |
| RagService.ConfidenceSaturates | apps/server/services/rag_service.py:280-290 | With at least three chunks and a 20-word answer, the confidence is min(1, best similarity + 0.4). |
| RagService.RagConfidenceAtLeast | apps/server/services/rag_service.py:275-290 | Whenever the rag path is taken, the confidence lies in [0.4, 1]. |
| RagService.ErrorResponse | apps/server/services/rag_service.py:205-212 | The Bengali apology iff the question is classified "bn"; "en" and "mixed" get the English one. |
| RagService.ConversationLines | apps/server/services/rag_service.py:265-271 | At most the last three messages, in order, each rendered as the upper-cased role, ": " and the content. |
| RagService.FormatConversationContext | apps/server/services/rag_service.py:260-273 | The loop builds "" for no messages, and otherwise those lines joined by newlines. |
| RagService.ConversationTextLines | apps/server/services/rag_service.py:266-273 | When no role or content contains a newline, splitting the context on newlines gives back exactly those at most three lines. |
| RagService.FormatContext | apps/server/services/rag_service.py:243-258 | The loop builds the numbered "Source i" blocks joined by newlines, or the no-context sentence. |
| RagService.ContextHasEverySource | apps/server/services/rag_service.py:248-258 | Every chunk's numbered block, and so its content, occurs in the context. |
| RagService.GenerateAnswer | apps/server/services/rag_service.py:69-184 | The pipeline computes the answer that `AnswerOf` defines, the partner that the lemmas below describe. |
| RagService.Respond | apps/server/services/rag_service.py:100-171 | The decision step after retrieval computes `Decide`. |
| RagService.DecideShape | apps/server/services/rag_service.py:100-184 | The language is the query's and the confidence lies in (0, 1]. An error answer is the fixed fallback. Otherwise the sources are the retrieved chunks and metadata names the approach. Rag has the formula's confidence, at least 0.4, with every chunk used. Fallback has confidence 0.5, no chunk used and reason "low_chunk_relevance". |
| RagService.AnswerShape | apps/server/services/rag_service.py:69-184 | The same description of the whole pipeline, with the sources being the search results for the query's embedding. |
| RagService.ErrorAnswerCauses | apps/server/services/rag_service.py:79-184 | Without a chat id, the answer is `error_fallback` iff embedding the question fails or the generation call for the chosen prompt fails. |
| RagService.RagIffRelevant | apps/server/services/rag_service.py:100-145 | Without a chat id and with working models, the approach is rag iff some retrieved chunk reaches the 0.3 threshold, and fallback iff none does. |
| RagService.ChatQuestionsGetErrorAnswer | apps/server/services/rag_service.py:92-98 | With a chat id, the answer is always the error fallback of lines 173-184, because `get_relevant_context` raises. |
| MemoryService.GetShortTermMemory | apps/server/services/memory_service.py:79-80 | A missing chat has empty short-term memory. |
| MemoryService.ShortTermMemoryCases | apps/server/services/memory_service.py:79-95 | Null or unparseable JSON gives [], a JSON list is returned as is, and a single object is wrapped in a one-element list. |
| MemoryService.Remember | apps/server/services/memory_service.py:109-116 | The new buffer is the last min(10, n+1) entries of old buffer + [message], so it has at most 10 entries and ends with the message. |
| MemoryService.RememberEvictsOldest | apps/server/services/memory_service.py:112-116 | Below 10 entries nothing is evicted. Otherwise exactly the oldest entries are dropped and the survivors keep their order. |
| MemoryService.RememberAllIsWindow | apps/server/services/memory_service.py:105-126 | A run of updates leaves the last 10 of everything remembered. |
| MemoryService.UpdateThenGet | apps/server/services/memory_service.py:105-126 | Reading a chat's memory after an update gives the old memory with the message remembered. |
| MemoryService.UpdateShortTermMemory | apps/server/services/memory_service.py:105-131 | The returned buffer is the stored one with the message remembered, and an existing chat gets exactly that buffer as its memory. For a missing chat the client's update writes nothing and the result is `[message]`. |
| MemoryService.TitleCandidateWords | apps/server/services/memory_service.py:182-189 | A query of more than six words becomes its first six words and "..."; otherwise it becomes its words joined by single spaces. |
| MemoryService.ChatTitleTruncates | apps/server/services/memory_service.py:191-195 | A candidate over 50 characters becomes its first 47 characters and "...", exactly 50; otherwise it is kept. |
| MemoryService.ChatTitle | apps/server/services/memory_service.py:179-195 | A title is at most 50 characters. |
| MemoryService.CreateChatSession | apps/server/services/memory_service.py:149-177 | Appends a chat with a fresh id, the title of the first query, the user and no memory. |
| MemoryService.HistoryPageIsSlice | apps/server/services/memory_service.py:19-30 | The page is the limit newest messages after skipping offset, in chronological order, as one slice. |
| MemoryService.GetChatHistory | apps/server/services/memory_service.py:12-64 | The count is the chat's total number of messages, and the page holds at most `limit`. |
| MemoryService.GetUserChats | apps/server/services/memory_service.py:298-320 | At most `limit` chats. |
| MemoryService.UserChatsNewestFirst | apps/server/services/memory_service.py:304-310 | Entry i is the user's (offset+i)-th most recently updated chat. |
| MemoryService.NewMessage | apps/server/services/memory_service.py:212-226 | Retrieved chunks are stored only when non-empty, and scores, metadata and time exactly as supplied. |
| MemoryService.LinkDocumentsLinks | apps/server/services/memory_service.py:231-235 | Every listed document that exists points to the message afterwards, whatever other listed ids are missing. |
| MemoryService.LinkDocumentsKeepsRows | apps/server/services/memory_service.py:230-235 | Linking changes only the documents' message links. |
| MemoryService.LinkDocumentsLeavesOthers | apps/server/services/memory_service.py:231-235 | A document whose id is not listed is left exactly as it was. |
| MemoryService.LinkMessageDocuments | apps/server/services/memory_service.py:230-235 | The loop computes the linking, an unknown document id changing nothing. |
| MemoryService.StoreMessage | apps/server/services/memory_service.py:197-265 | For an existing chat: appends the message under a fresh id, links the listed documents that exist, records the message in short-term memory and returns it. An unknown chat is an error and changes nothing. |
| MemoryService.RelevantContextAlwaysFails | apps/server/services/memory_service.py:276-296 | As written, combining the two memories always raises. |
| EvaluationService.Groundedness | apps/server/services/evaluation_service.py:15-34 | 0 with no sources, no answer or a failed similarity. |
| EvaluationService.GroundednessIsBest | apps/server/services/evaluation_service.py:23-30 | Otherwise it is the largest similarity of the answer to a source. |
| EvaluationService.Relevance | apps/server/services/evaluation_service.py:36-55 | 0 with no chunks or no query. |
| EvaluationService.SimilarityMetricsBounded | apps/server/services/evaluation_service.py:15-55 | With similarities in [0,1], groundedness and relevance lie in [0,1]. |
| EvaluationService.Completeness | apps/server/services/evaluation_service.py:102-116 | 0 for an empty answer, and always in [0,1]. |
| EvaluationService.UndelimitedIsTwoSentences | apps/server/services/evaluation_service.py:112-113 | A non-blank text with neither '।' nor '.' counts as two sentences. |
| EvaluationService.CompletenessFull | apps/server/services/evaluation_service.py:107-116 | At least 20 words and three sentences give completeness 1. |
| EvaluationService.LanguageConsistency | apps/server/services/evaluation_service.py:118-143 | 0.5 when either text has no Bengali or ASCII letter, and always in [0,1]. |
| EvaluationService.LanguageConsistencySymmetric | apps/server/services/evaluation_service.py:136-143 | Swapping query and answer gives the same score. |
| EvaluationService.LanguageConsistencyExtremes | apps/server/services/evaluation_service.py:136-143 | Equal Bengali ratios score 1, and an all-Bengali query against an all-English answer scores 0. |
| EvaluationService.SourceUtilization | apps/server/services/evaluation_service.py:145-163 | The loop computes the mean overlap ratio. It is 0 with no sources and always in [0,1]. |
| EvaluationService.UtilizationScores | apps/server/services/evaluation_service.py:155-160 | The loop gives, per source, the share of the answer's words that appear in it. |
| EvaluationService.FullUtilization | apps/server/services/evaluation_service.py:149-163 | When every source contains all of a non-empty answer's words, utilisation is 1. |
| EvaluationService.NoUtilization | apps/server/services/evaluation_service.py:149-163 | When no source shares a word with the answer, utilisation is 0. |
| EvaluationService.AnswerQualityMetrics | apps/server/services/evaluation_service.py:57-89 | The five metrics are the individual functions, and the overall score is their arithmetic mean. |
| EvaluationService.QualityMetricsBounded | apps/server/services/evaluation_service.py:75-88 | With similarities in [0,1], the overall score lies in [0,1]. |
| EvaluationService.StoreUserFeedback | apps/server/services/evaluation_service.py:205-232 | An existing record for the message gets the feedback and nothing else changes; otherwise one record is created under a fresh id. |
| EvaluationService.UpsertLastWriteWins | apps/server/services/evaluation_service.py:209-222 | The upsert keeps at most one record per message, and the message's feedback reads back as the last one written. Other messages' feedback and the existing scores are untouched, and the table grows only on creation. |
| EvaluationService.GetEvaluationStats | apps/server/services/evaluation_service.py:234-276 | The loop's result is the statistics of the table: zeros and an empty distribution for no records. |
| EvaluationService.FeedbackCountsCorrect | apps/server/services/evaluation_service.py:257-263 | The distribution holds each label once, with its number of records. Its total is the number of records with a non-empty label, at most the table's size. |
| EvaluationService.AveragesSkipMissing | apps/server/services/evaluation_service.py:249-255 | A record without scores does not change the averaged lists. |
| DocumentService.EmbedChunksSpec | apps/server/services/document_service.py:163-177 | Embedding succeeds iff every chunk's embedding does, pairing each chunk with its embedding. Otherwise the error is the first failing chunk's. |
| DocumentService.EmbedAll | apps/server/services/document_service.py:163-177 | The embedding loop computes exactly that, stopping at the first failure. |
| DocumentService.SumWordCountsIsWordCount | apps/server/services/document_service.py:133-144 | When chunks record their own word counts, the sum of those counts is the word count of the space-joined content. |
| DocumentService.ChunksCountOwnWords | apps/server/services/document_processor.py:133 | Every chunk from the chunker records its own whitespace word count. |
| DocumentService.CreateKnowledgeBase | apps/server/services/document_service.py:48-96 | Takes the tables as `KnowledgeBaseCreated` says: appends the knowledge-base document under a fresh id. If embedding succeeds, its chunks are stored and "initialized" is reported with the chunk, word and page counts. Otherwise the document stays without chunks and the error is returned. No other table changes. |
| DocumentService.InitializeKnowledgeBase | apps/server/services/document_service.py:17-100 | Takes the tables as `KnowledgeBaseEffect` says: an existing "HSC26 Bangla 1st Paper" document gives "already_exists" with its id and chunk count, and nothing changes. A processing error changes nothing. Otherwise the document is created as above. |
| DocumentService.KbWordCountIsContentWords | apps/server/services/document_service.py:52-56 | The knowledge-base document's word count is the word count of its content. |
| DocumentService.KbFoundAfterInitialize | apps/server/services/document_service.py:23-28 | After creation, the title lookup finds the new document. |
| DocumentService.SecondInitializeReportsFirst | apps/server/services/document_service.py:23-42 | A second initialisation finds the first one's document and reports its chunk count. |
| DocumentService.AddUploadRecords | apps/server/services/document_service.py:139-160 | Appends the document and its file record under two fresh ids. |
| DocumentService.CreateUploadRecords | apps/server/services/document_service.py:137-198 | Takes the tables as `UploadRecorded` says: the records as above. A successful embedding stores the chunks with the file id and returns the upload's metadata; a failed one keeps the records without chunks. No other table changes. |
| DocumentService.UploadDocument | apps/server/services/document_service.py:102-204 | Takes the tables as `UploadEffect` says: a storage error, a processing error or an empty chunk list fails before any record is created, and an empty chunk list gives "No content could be extracted from the document". Otherwise the records are created as above, at the storage path of user, key and name. |
| DocumentService.UploadEffectAppends | apps/server/services/document_service.py:102-204 | Whatever the outcome, the existing documents are kept and at most one is appended. A success appends it under the next id, titled by the name without its extension, with its file record under the id after it. |
| DocumentService.UploadWordCountIsChunkSum | apps/server/services/document_service.py:144 | An upload's word count equals the sum of its chunks' word counts. |
| DocumentService.UploadTitleExamples | apps/server/services/document_service.py:141 | Illustration of the title rule: "a.b.txt" gives "a.b" (only the last extension is dropped), and "notes" stays "notes". |
| DocumentService.ChunkPreviews | apps/server/services/document_service.py:257-259 | At most 10 chunk previews. |
| DocumentService.ChunkPreviewsSpec | apps/server/services/document_service.py:291-303 | The previews are in `chunkIndex` order, each from one of the document's chunks, each at most 203 characters. |
| DocumentService.GetDocumentDetails | apps/server/services/document_service.py:248-310 | Fails iff the document is missing, with "Document <id> not found". The content preview is the content up to 500 characters, or its first 500 and "...". The file is present iff the document has one. |
| DocumentService.FilesWithout | apps/server/services/document_service.py:341-343 | Removes the document's file record if it has one, and nothing else. |
| DocumentService.DeletedFileGone | apps/server/services/document_service.py:341-343 | Afterwards the document has no file record. |
| DocumentService.RemoveDocumentData | apps/server/services/document_service.py:338-346 | Removes the document's chunks, its file record and the document, and counts the chunks. |
| DocumentService.DeleteDocument | apps/server/services/document_service.py:312-355 | A missing document is "not found". A document linked to a message in another user's chat is "Unauthorized", and nothing changes. Otherwise it deletes the chunks, file record and document. |
| DocumentService.DeletedDocumentGone | apps/server/services/document_service.py:346 | Afterwards the document is gone and the other documents keep their order. |
| DocumentService.DeleteKnowledgeBase | apps/server/services/document_service.py:367-418 | No knowledge base gives "not_found" and nothing changes. Otherwise it deletes the knowledge base as a document and reports "deleted" with the vector store's count. |
| DocumentService.DeleteThenInitializeRebuilds | apps/server/services/document_service.py:374-383 | After deleting the only knowledge-base document, the title lookup finds none, so the next initialisation rebuilds it. |
| DocumentsApi.FileType | apps/server/api/documents.py:57 | The file type is the lower-cased text after the last '.', or the whole name when there is none. It contains no '.' and no upper-case letter. |
| DocumentsApi.UploadAcceptedIff | apps/server/api/documents.py:47-59 | A file passes iff it has a name, is at most 10 MB, and its type is one of txt, jpg, jpeg, png, pdf. A named file over 10 MB is refused as too large whatever its type. |
| DocumentsApi.UpperCasePdfAccepted | apps/server/api/documents.py:53-59 | Illustration of `UploadAcceptedIff` and `CheckIgnoresCase`: "a.PDF" is a pdf, accepted at exactly 10 MB and refused one byte above. |
| DocumentsApi.BareNameIsExtension | apps/server/api/documents.py:57-59 | Illustration of `FileType`: a name without '.' is its own type, so "pdf" passes. |
| DocumentsApi.OtherExtensionRefused | apps/server/api/documents.py:57-59 | Illustration of `UploadAcceptedIff`: "a.gz" is refused as an unsupported type. |
| DocumentsApi.CheckIgnoresCase | apps/server/api/documents.py:57-59 | Names that differ only in letter case get the same type and the same verdict. |
| DocumentsApi.UploadDocumentEndpoint | apps/server/api/documents.py:43-86 | A refused file gets 400 "No file provided", 413 "File too large" or 400 "File type not supported", before anything is stored. Otherwise the service runs with type `FileType(name)` and leaves the tables as `UploadEffect` says; its error is a 500 "Error processing document: ..." and its success is the response without the file id. |
| DocumentsApi.UploadResponseMeans | apps/server/api/documents.py:62-86 | A 500 carries the service's error text. A success reports the document appended under the next id and titled by the name without its extension, with its file record typed `FileType(name)` and sized by the content. |
| DocumentsApi.EveryFileCountedOnce | apps/server/api/documents.py:219-224 | Every batch file lands in exactly one of the two lists. |
| DocumentsApi.PartitionKeepsOrder | apps/server/api/documents.py:173-217 | Both lists keep file order. |
| DocumentsApi.AllFitAt | apps/server/api/documents.py:175-217 | Each outcome belongs to the file at its position. |
| DocumentsApi.UploadOne | apps/server/api/documents.py:174-217 | A refused file becomes an error entry named after the file ("unknown" without a name) with the refusal text, and nothing is stored. An accepted file becomes a success or error entry for that same file, and a success carries the new document's id; the loop goes on either way. |
| DocumentsApi.BatchUpload | apps/server/api/documents.py:160-230 | More than 10 files gives 400 "Maximum 10 files per batch" and nothing changes. Otherwise results and errors partition the files in order, and the two counts add up to the number of files. |
| DocumentsApi.NotFoundErrorMentioned | apps/server/api/documents.py:112-116 | The service's not-found message mentions "not found" for every document id. |
| DocumentsApi.UnauthorizedErrorMentioned | apps/server/api/documents.py:133-141 | The ownership message mentions "unauthorized" and not "not found". |
| DocumentsApi.DocumentDetailsEndpoint | apps/server/api/documents.py:103-116 | A 404 "Document not found" iff the document is missing; otherwise the service's details. |
| DocumentsApi.DeleteDocumentEndpoint | apps/server/api/documents.py:119-141 | A missing document gives 404 and another user's document gives 403 "Not authorized to delete this document", both without change. Otherwise the service's deletion and "Document deleted successfully". |
| ChatApi.UploadChatFiles | apps/server/api/chat.py:70-85 | Existing documents are kept. On success there is one returned id per named file, in upload order, each the id of a new document titled by that file's name without its extension, and files without a name are skipped. |
| ChatApi.OpenChat | apps/server/api/chat.py:87-91 | A chat titled from the content is created iff no chat id is given; otherwise the given id is used and nothing changes. |
| ChatApi.ChatAnswer | apps/server/api/chat.py:93-112 | For the (always present) chat id, the reply is the error apology with approach "error_fallback", no sources and confidence 0.1. |
| ChatApi.SendMessage | apps/server/api/chat.py:50-121 | `created_new_chat` is true iff no chat id was given. Then the new chat is appended, titled from the content; otherwise the given id is echoed. A message with files gets the ids of the documents created for its named files, in order and titled after them. An upload failure is a 500 "Error processing message: ..." and no chat is created; nothing else fails. |
| ChatApi.HasMoreIff | apps/server/api/chat.py:191 | When the total is at most the number of chats, offset + page length < total iff offset + limit < total. |
| ChatApi.UserChatsLength | apps/server/api/chat.py:179 | The page has the length of the user's chats windowed by limit and offset. |
| ChatApi.UserChatsEndpoint | apps/server/api/chat.py:168-197 | The page is the service's listing. The total counts at most 1000 of the user's chats, and `hasMore` holds iff offset + limit < total. |
| ChatApi.ChatMessagesEndpoint | apps/server/api/chat.py:202-240 | 404 "Chat not found" iff the chat is not in the user's default listing. Otherwise the history page, the total message count, and `hasMore` iff offset + limit < total. |
| ChatApi.ListedIffRecent | apps/server/api/chat.py:215-220 | The chat is found iff it is among the user's 20 most recently updated chats. |
| ChatApi.DeleteChat | apps/server/api/chat.py:245-264 | 404 "Chat not found" unless the chat exists and belongs to the caller, and then nothing changes. Otherwise the chat and, by cascade, its messages are removed. |
| ChatApi.DeletedChatGone | apps/server/api/chat.py:256 | Afterwards the chat is gone and the other chats keep their order. |
| ChatApi.CascadeRemovesOnlyChat | apps/server/api/chat.py:255-256 | The cascade leaves the chat no messages and every other chat all of its own. |
| RagApi.AskQuestion | apps/server/api/rag.py:43-83 | `created_new_chat` is true iff no chat id was given, and then a chat titled from the question is created; otherwise the given id is returned unchanged. The answer fields are copied from `generate_answer`, which here is always the error apology with no sources and confidence 0.1. |
| RagApi.SubmitFeedback | apps/server/api/rag.py:87-104 | A value other than helpful, not_helpful or partial is a 400 "Invalid feedback value" before anything is stored. Otherwise the label is upserted for the message and reads back as written. |
| RagApi.UpsertRecordsFeedback | apps/server/services/evaluation_service.py:210-222 | After the upsert, the message's feedback is the one written. |
| RagApi.UpsertKeepsLabelsValid | apps/server/api/rag.py:90-96 | Accepted submissions keep every stored feedback among the three labels. |
| SystemApi.ReadyIffChunks | apps/server/api/system.py:37-40 | Both statuses the service reports pass the status test, so readiness after initialisation is exactly having chunks. |
| SystemApi.InitializeSystem | apps/server/api/system.py:21-55 | The service's initialisation leaves the tables as `KnowledgeBaseEffect` says. Its error is a 500 "System initialization failed: ...". Otherwise the result carries its status, the statistics afterwards, and `system_ready` iff the store holds a chunk. |
| SystemApi.GetSystemStatus | apps/server/api/system.py:59-83 | Ready iff the store holds a document and a chunk, with the embedding model and the settings 500, 50 and 5. |
| SystemApi.StatusReadyMeansInitializationReady | apps/server/api/system.py:66-68 | A store the status report calls ready is one initialisation calls ready, and conversely when some document is stored. |
| SystemApi.UnhealthyComponents | apps/server/api/system.py:133-137 | The scan is empty iff no entry contains "unhealthy" or equals "unknown". |
| SystemApi.ProbeComponents | apps/server/api/system.py:90-130 | The database entry is healthy iff `SELECT 1` succeeds. The vector store is healthy iff statistics come back, with the knowledge base "healthy" or "no_data" and otherwise "unavailable". The embedding service is healthy iff the embedding is non-empty. Failures read "unhealthy: " + the error. `overall` is still "unknown". |
| SystemApi.HealthCheck | apps/server/api/system.py:87-143 | As written, `overall` always starts with "unhealthy: " and is never "healthy". |
| SystemApi.AllHealthyStillUnhealthy | apps/server/api/system.py:132-141 | With every probe succeeding, the scan flags only "overall", and the verdict is "unhealthy: overall". |
| SystemApi.HealthCheckIntended | apps/server/api/system.py:132-141 | Scanning the four components only, `overall` is "healthy" iff the database answers, the statistics come back and the embedding is non-empty. |
| SystemApi.ComponentsHealthy | apps/server/api/system.py:98-130 | The four component entries scan clean iff those three probes succeed. |
| SystemApi.DeleteKnowledgeBaseEndpoint | apps/server/api/system.py:164-198 | No knowledge base gives 404 "Knowledge base not found" and nothing changes. Otherwise the service's message, "deleted", the document id and the number of chunks deleted. |

## Left out

- Embedding, cosine similarity, Gemini generation, PDF download, the PDF library's page texts and properties, UTF-8 decoding,
  the LangChain splitter, Supabase storage and its filter on an embedded row's language, and the
  identity service are function parameters. The model states nothing about their internals.
- The top-level `word_count` and `page_count` keys of `extract_text_from_pdf`'s result are not
  modelled: its callers read only `content` and `metadata`.
- A Prisma `update` whose record is missing returns `None` without raising, as the Python
  client documents; `store_message` and `update_short_term_memory` ignore that result, so the
  model treats such an update as writing nothing.
- The exception texts these collaborators raise are abstract strings. The knowledge-base
  download failure, for example, is the fixed text "PDF download failed".
- Prompt templates (`setup_prompts`) are not modelled as text. The chosen prompt is a datatype
  that records its inputs.
- Latency (`time.time()`) is the parameter `elapsed`. Floats are exact reals, so rounding
  behaviour and the `:.2f` rendering (a parameter) are not modelled.
- The random uuid of each upload's storage path is the parameter `fileKeys`/`fileKey`. Prisma's
  generated ids are counter-minted strings whose only property is freshness.
- `lower()` and `upper()` are ASCII-only, as the model has no Unicode case mapping. Bengali has
  no case, so the uploads, roles and labels the server compares are unaffected.
- `_store_interaction`, `_store_evaluation` and `evaluate_response` are not modelled. The first
  is reached only through `generate_answer` with a chat id, which always fails earlier. The other
  two are called from nowhere in the server.
- `clear_short_term_memory` and `handle_regular_chat` are not modelled: nothing calls them.
- `ensure_user_profile` and the Profile table are not modelled: profiles play no part in any
  modelled decision.
- The endpoint wrappers `get_user_documents`, `get_document_stats`, the documents module's
  `initialize_knowledge_base` and `get_evaluation_stats` only forward a service result or turn
  an exception into a 500. They are not modelled beyond the services they call.
- Every "any other exception becomes a 500" path of an endpoint, and the outer `except` of
  `health_check`, are not modelled; database failures are not modelled at all.
- `DatabaseManager` retries, connection handling, transactions and concurrent requests are not
  modelled. Every operation runs alone, in order.
- The removal of stored files from Supabase storage on deletion is not modelled (it only logs its
  failures). A file stored before a later failure stays in storage.
- The rate limiter, CORS and application wiring are not modelled.
- Of the foreign keys, only a message's `chatId` is modelled: `MemoryService.StoreMessage`
  fails with Prisma's foreign-key error when the chat does not exist. A chunk's `documentId` and
  an evaluation's `messageId` are not checked. Chunks are only stored for a document created
  in the same operation. `EvaluationService.StoreUserFeedback` creates an evaluation for any
  message id, where a database with that constraint would refuse an unknown message.
- A stored `shortTermMemory` is a list, a single object, or JSON text that parses to a list or
  fails. Other JSON shapes are not modelled.
- Limits and offsets are natural numbers. Prisma's refusal of negative `take`/`skip` is not
  modelled.
- The `except` of `calculate_answer_quality_metrics` is not modelled. Its callees catch their
  own failures, so it is unreachable.
- The `Ok(false)` branch of the delete endpoint, "Failed to delete document", is modelled but
  unreachable, because the service returns `True` or raises.
- `include_history` in `ask_question` is accepted and ignored, as in the code.
- DocumentsApi.BatchUpload: states each file's outcome and the report, but not the tables after
  the batch beyond `Valid()`; the per-file effect is stated by `DocumentsApi.UploadOne` and
  `DocumentService.UploadDocument`.
- ChatApi.UploadChatFiles: states the documents it appends; the file and chunk records are
  stated by `DocumentService.UploadDocument`, one call at a time. The error text of a failed upload is
  not tied to the failing file.
- ChatApi.SendMessage: states the chat, the answer and the documents created for the named
  files. It does not state their file and chunk records or the id counter, and it does not tie the 500's text to the failing
  upload. Those are stated by `DocumentService.UploadDocument` for each call.
- MemoryService.GetChatHistory: page entries are the stored messages. Each entry's
  `created_at` and its joined `documents` list (id, title, language and the file's
  `file_name`) are not modelled. The chat-messages endpoint only passes them on to the client,
  and the model has no creation times: table order stands for `createdAt` order.

## Findings

| source | as written | input that shows it | evidently intended | confidence | as-written member | corrected member |
|---|---|---|---|---|---|---|
| apps/server/api/system.py:132-141 | The scan for unhealthy entries runs over all five entries of `health_status`, including `overall`, which is still "unknown" at that point, so the verdict is never "healthy". | Every probe succeeds (the database answers, the statistics come back, the embedding is non-empty): the result is "unhealthy: overall". | Scan only the four component entries, so `overall` is "healthy" exactly when the three probes succeed. | not executed | SystemApi.AllHealthyStillUnhealthy | SystemApi.HealthCheckIntended |
