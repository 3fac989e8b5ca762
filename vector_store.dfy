/**
 * The vector store over the DocumentChunk table (apps/server/services/vector_store.py).
 * The cosine similarity of two embeddings is an uninterpreted function that may fail, and
 * how the PostgREST filter on the embedded document's language selects rows is an
 * uninterpreted predicate.
 */
module VectorStore {
  import opened Text
  import opened Store
  import DocumentProcessor
  import Sorting

  /** `settings.TOP_K_CHUNKS`. */
  const TopKChunks: nat := 5

  /** One entry of `chunks_data`. */
  datatype ChunkData = ChunkData(
    content: string,
    embedding: seq<real>,
    metadata: DocumentProcessor.ChunkMetadata,
    tokenCount: Option<nat>)

  // ---------------------------------------------------------------------------
  // store_document_chunks
  // ---------------------------------------------------------------------------

  /** The row inserted for the `i`-th entry of `chunks_data`. */
  function NewChunkRow(d: ChunkData, documentId: string, fileId: Option<string>, base: nat, i: nat): ChunkRow
  {
    ChunkRow(MintId(base + i), d.content, d.embedding, d.metadata, documentId, fileId, i, d.tokenCount)
  }

  /** The rows inserted for `chunks_data` when the id counter stands at `base`. */
  function NewChunkRows(data: seq<ChunkData>, documentId: string, fileId: Option<string>, base: nat): (rows: seq<ChunkRow>)
    ensures |rows| == |data|
  {
    seq(|data|, i requires 0 <= i < |data| => NewChunkRow(data[i], documentId, fileId, base, i))
  }

  /**
   * The inserted rows carry their position as `chunkIndex`, and their ids are pairwise
   * distinct and differ from every id already in the table.
   */
  lemma {:induction false} NewChunkRowsFresh(old_rows: seq<ChunkRow>, data: seq<ChunkData>, documentId: string, fileId: Option<string>, base: nat)
    requires ChunkIdsBelow(old_rows, base)
    ensures var rows := NewChunkRows(data, documentId, fileId, base);
      (forall i :: 0 <= i < |rows| ==> rows[i].chunkIndex == i && rows[i].documentId == documentId)
      && (forall i, j :: 0 <= i < |rows| && 0 <= j < |old_rows| ==> rows[i].id != old_rows[j].id)
      && (forall i, j :: 0 <= i < j < |rows| ==> rows[i].id != rows[j].id)
  {
    var rows := NewChunkRows(data, documentId, fileId, base);
    forall i, j | 0 <= i < j < |rows| ensures rows[i].id != rows[j].id {
      assert |rows[i].id| == base + i + 1;
    }
  }

  /** `VectorStore.store_document_chunks`: one row per entry, numbered by position; returns their ids in order. */
  method StoreDocumentChunks(db: Database, documentId: string, chunksData: seq<ChunkData>, fileId: Option<string>)
    returns (chunkIds: seq<string>)
    requires db.Valid()
    modifies db`chunks, db`nextId
    ensures db.Valid()
    ensures db.chunks == old(db.chunks) + NewChunkRows(chunksData, documentId, fileId, old(db.nextId))
    ensures db.nextId == old(db.nextId) + |chunksData|
    ensures |chunkIds| == |chunksData|
    ensures forall i :: 0 <= i < |chunkIds| ==> chunkIds[i] == NewChunkRows(chunksData, documentId, fileId, old(db.nextId))[i].id
  {
    ghost var rows := NewChunkRows(chunksData, documentId, fileId, db.nextId);
    chunkIds := [];
    var i := 0;
    while i < |chunksData|
      invariant 0 <= i <= |chunksData|
      invariant db.Valid()
      invariant db.nextId == old(db.nextId) + i
      invariant db.chunks == old(db.chunks) + rows[..i]
      invariant |chunkIds| == i && forall k :: 0 <= k < i ==> chunkIds[k] == rows[k].id
    {
      var chunkData := chunksData[i];
      var id := db.NewId();
      var row := ChunkRow(id, chunkData.content, chunkData.embedding, chunkData.metadata, documentId, fileId, i, chunkData.tokenCount);
      assert row == rows[i];
      assert rows[..i + 1] == rows[..i] + [row];
      db.chunks := db.chunks + [row];
      chunkIds := chunkIds + [id];
      i := i + 1;
    }
    assert rows[..i] == rows;
  }

  // ---------------------------------------------------------------------------
  // similarity_search
  // ---------------------------------------------------------------------------

  /** The collaborators of a search: cosine similarity (`None` when it raises) and the embedded-language filter. */
  datatype SearchEnv = SearchEnv(
    similarity: (seq<real>, seq<real>) -> Option<real>,
    matchesLanguage: (ChunkRow, string) -> bool)

  /** One result of a search. */
  datatype SearchResult = SearchResult(
    id: string,
    content: string,
    similarity: real,
    metadata: DocumentProcessor.ChunkMetadata,
    chunkIndex: nat,
    documentId: string,
    documentTitle: Option<string>,
    documentLanguage: Option<string>,
    fileName: Option<string>)

  /** An entry of `similarities`. */
  datatype Scored = Scored(chunk: ChunkRow, similarity: real)

  function SimilarityKey(s: Scored): real { s.similarity }

  /** `top_k or settings.TOP_K_CHUNKS`. */
  function EffectiveTopK(topK: Option<int>): int
  {
    if topK.None? || topK.value == 0 then TopKChunks else topK.value
  }

  predicate TruthyText(s: Option<string>) { s.Some? && s.value != "" }
  predicate TruthyList(s: Option<seq<string>>) { s.Some? && s.value != [] }

  /** A row the query returns: the language filter and the document subset apply only when given (truthy). */
  predicate IsCandidate(row: ChunkRow, languageFilter: Option<string>, documentIds: Option<seq<string>>, env: SearchEnv)
  {
    (TruthyText(languageFilter) ==> env.matchesLanguage(row, languageFilter.value))
    && (TruthyList(documentIds) ==> row.documentId in documentIds.value)
  }

  /** The rows the query returns, in table order. */
  function Candidates(rows: seq<ChunkRow>, languageFilter: Option<string>, documentIds: Option<seq<string>>, env: SearchEnv): (r: seq<ChunkRow>)
    ensures |r| <= |rows|
  {
    if rows == [] then []
    else
      var last := rows[|rows| - 1];
      Candidates(rows[..|rows| - 1], languageFilter, documentIds, env)
      + (if IsCandidate(last, languageFilter, documentIds, env) then [last] else [])
  }

  lemma {:induction false} CandidatesAreCandidates(rows: seq<ChunkRow>, languageFilter: Option<string>, documentIds: Option<seq<string>>, env: SearchEnv, c: ChunkRow)
    ensures c in Candidates(rows, languageFilter, documentIds, env) <==>
            c in rows && IsCandidate(c, languageFilter, documentIds, env)
  {
    if rows != [] {
      var init := rows[..|rows| - 1];
      CandidatesAreCandidates(init, languageFilter, documentIds, env, c);
      assert rows == init + [rows[|rows| - 1]];
    }
  }

  /** The `similarities` list: every candidate whose similarity is computed, in candidate order. */
  function Scores(chunks: seq<ChunkRow>, query: seq<real>, similarity: (seq<real>, seq<real>) -> Option<real>): (r: seq<Scored>)
    ensures |r| <= |chunks|
  {
    if chunks == [] then []
    else
      var last := chunks[|chunks| - 1];
      Scores(chunks[..|chunks| - 1], query, similarity)
      + (match similarity(query, last.embedding)
         case None => []
         case Some(v) => [Scored(last, v)])
  }

  /** A chunk whose similarity fails is skipped; every other chunk is scored with its similarity. */
  lemma {:induction false} ScoresAreSimilarities(chunks: seq<ChunkRow>, query: seq<real>, similarity: (seq<real>, seq<real>) -> Option<real>, s: Scored)
    ensures s in Scores(chunks, query, similarity) <==>
            s.chunk in chunks && similarity(query, s.chunk.embedding) == Some(s.similarity)
  {
    if chunks != [] {
      var init := chunks[..|chunks| - 1];
      ScoresAreSimilarities(init, query, similarity, s);
      assert chunks == init + [chunks[|chunks| - 1]];
    }
  }

  /** The entries `similarity_search` keeps: the scored candidates, stably sorted by decreasing similarity, cut to top-k. */
  function Ranked(rows: seq<ChunkRow>, query: seq<real>, topK: Option<int>, languageFilter: Option<string>, documentIds: Option<seq<string>>, env: SearchEnv): seq<Scored>
  {
    var chunks := Candidates(rows, languageFilter, documentIds, env);
    if chunks == [] then []
    else PyPrefix(Sorting.SortDesc(Scores(chunks, query, env.similarity), SimilarityKey), EffectiveTopK(topK))
  }

  /** The result dictionary of one entry, with the chunk's document and file joined in. */
  function ToResult(s: Scored, documents: seq<Document>, files: seq<FileRecord>): SearchResult
  {
    var c := s.chunk;
    var doc := FindDocument(documents, c.documentId);
    var file := if c.fileId.Some? then FindFile(files, c.fileId.value) else None;
    SearchResult(
      c.id, c.content, s.similarity, c.metadata, c.chunkIndex, c.documentId,
      if doc.Some? then Some(documents[doc.value].title) else None,
      if doc.Some? then Some(documents[doc.value].language) else None,
      if file.Some? then Some(files[file.value].fileName) else None)
  }

  /** What `similarity_search` returns. */
  function SearchResults(rows: seq<ChunkRow>, documents: seq<Document>, files: seq<FileRecord>, query: seq<real>, topK: Option<int>, languageFilter: Option<string>, documentIds: Option<seq<string>>, env: SearchEnv): (r: seq<SearchResult>)
  {
    var ranked := Ranked(rows, query, topK, languageFilter, documentIds, env);
    seq(|ranked|, i requires 0 <= i < |ranked| => ToResult(ranked[i], documents, files))
  }

  /** `VectorStore.similarity_search`. */
  method SimilaritySearch(db: Database, queryEmbedding: seq<real>, topK: Option<int>, languageFilter: Option<string>, documentIds: Option<seq<string>>, env: SearchEnv)
    returns (results: seq<SearchResult>)
    ensures results == SearchResults(db.chunks, db.documents, db.files, queryEmbedding, topK, languageFilter, documentIds, env)
  {
    var k := if topK.None? || topK.value == 0 then TopKChunks else topK.value;
    var chunks := Candidates(db.chunks, languageFilter, documentIds, env);
    if chunks == [] {
      return [];
    }
    var similarities := ScoreChunks(chunks, queryEmbedding, env.similarity);
    similarities := Sorting.SortDesc(similarities, SimilarityKey);
    var topChunks := PyPrefix(similarities, k);
    results := FormatResults(topChunks, db.documents, db.files);
  }

  /** The scoring loop of `similarity_search`. */
  method ScoreChunks(chunks: seq<ChunkRow>, query: seq<real>, similarity: (seq<real>, seq<real>) -> Option<real>)
    returns (similarities: seq<Scored>)
    ensures similarities == Scores(chunks, query, similarity)
  {
    similarities := [];
    var i := 0;
    while i < |chunks|
      invariant 0 <= i <= |chunks|
      invariant similarities == Scores(chunks[..i], query, similarity)
    {
      assert chunks[..i + 1][..i] == chunks[..i];
      var chunk := chunks[i];
      var v := similarity(query, chunk.embedding);
      if v.Some? {
        similarities := similarities + [Scored(chunk, v.value)];
      }
      i := i + 1;
    }
    assert chunks[..i] == chunks;
  }

  /** The formatting loop of `similarity_search`. */
  method FormatResults(top: seq<Scored>, documents: seq<Document>, files: seq<FileRecord>) returns (results: seq<SearchResult>)
    ensures |results| == |top|
    ensures forall i :: 0 <= i < |top| ==> results[i] == ToResult(top[i], documents, files)
  {
    results := [];
    var i := 0;
    while i < |top|
      invariant 0 <= i <= |top|
      invariant |results| == i
      invariant forall k :: 0 <= k < i ==> results[k] == ToResult(top[k], documents, files)
    {
      results := results + [ToResult(top[i], documents, files)];
      i := i + 1;
    }
  }

  /** With a positive `top_k` (or the default 5) at most that many results come back. */
  lemma {:induction false} SearchAtMostTopK(rows: seq<ChunkRow>, documents: seq<Document>, files: seq<FileRecord>, query: seq<real>, topK: Option<int>, languageFilter: Option<string>, documentIds: Option<seq<string>>, env: SearchEnv)
    requires EffectiveTopK(topK) > 0
    ensures |SearchResults(rows, documents, files, query, topK, languageFilter, documentIds, env)| <= EffectiveTopK(topK)
  {
  }

  /**
   * The exact number of results: the first `k` scored candidates, or all of them when there
   * are fewer; a negative `k` is a Python slice bound and drops the last `-k`.
   */
  lemma {:induction false} SearchCount(rows: seq<ChunkRow>, documents: seq<Document>, files: seq<FileRecord>, query: seq<real>, topK: Option<int>, languageFilter: Option<string>, documentIds: Option<seq<string>>, env: SearchEnv)
    ensures var scored := |Scores(Candidates(rows, languageFilter, documentIds, env), query, env.similarity)|;
      var k := EffectiveTopK(topK);
      |SearchResults(rows, documents, files, query, topK, languageFilter, documentIds, env)|
        == if k >= 0 then (if k < scored then k else scored) else (if scored + k > 0 then scored + k else 0)
  {
    var scores := Scores(Candidates(rows, languageFilter, documentIds, env), query, env.similarity);
    Sorting.SortDescPermutes(scores, SimilarityKey);
    assert |multiset(Sorting.SortDesc(scores, SimilarityKey))| == |multiset(scores)|;
  }

  /** A missing or zero `top_k` falls back to the default: at most five results. */
  lemma {:induction false} FalsyTopKUsesDefault(rows: seq<ChunkRow>, documents: seq<Document>, files: seq<FileRecord>, query: seq<real>, topK: Option<int>, languageFilter: Option<string>, documentIds: Option<seq<string>>, env: SearchEnv)
    requires topK.None? || topK == Some(0)
    ensures EffectiveTopK(topK) == TopKChunks == 5
    ensures |SearchResults(rows, documents, files, query, topK, languageFilter, documentIds, env)| <= TopKChunks
  {
    SearchAtMostTopK(rows, documents, files, query, topK, languageFilter, documentIds, env);
  }

  /** No candidate rows, no results. */
  lemma {:induction false} SearchWithoutCandidates(rows: seq<ChunkRow>, documents: seq<Document>, files: seq<FileRecord>, query: seq<real>, topK: Option<int>, languageFilter: Option<string>, documentIds: Option<seq<string>>, env: SearchEnv)
    requires Candidates(rows, languageFilter, documentIds, env) == []
    ensures SearchResults(rows, documents, files, query, topK, languageFilter, documentIds, env) == []
  {
  }

  /** Results come in non-increasing order of similarity. */
  lemma {:induction false} SearchSorted(rows: seq<ChunkRow>, documents: seq<Document>, files: seq<FileRecord>, query: seq<real>, topK: Option<int>, languageFilter: Option<string>, documentIds: Option<seq<string>>, env: SearchEnv)
    ensures var r := SearchResults(rows, documents, files, query, topK, languageFilter, documentIds, env);
      forall i, j :: 0 <= i < j < |r| ==> r[i].similarity >= r[j].similarity
  {
    var chunks := Candidates(rows, languageFilter, documentIds, env);
    if chunks != [] {
      var sorted := Sorting.SortDesc(Scores(chunks, query, env.similarity), SimilarityKey);
      Sorting.SortDescSorted(Scores(chunks, query, env.similarity), SimilarityKey);
      var ranked := Ranked(rows, query, topK, languageFilter, documentIds, env);
      assert ranked == sorted[..|ranked|];
      var r := SearchResults(rows, documents, files, query, topK, languageFilter, documentIds, env);
      forall i, j | 0 <= i < j < |r| ensures r[i].similarity >= r[j].similarity {
        assert r[i].similarity == SimilarityKey(sorted[i]);
        assert r[j].similarity == SimilarityKey(sorted[j]);
      }
    }
  }

  /**
   * Every result is a row that passes the filters (in particular, with `document_ids` given,
   * a chunk of one of those documents), reported with the similarity computed for it.
   */
  lemma {:induction false} SearchResultsAreCandidates(rows: seq<ChunkRow>, documents: seq<Document>, files: seq<FileRecord>, query: seq<real>, topK: Option<int>, languageFilter: Option<string>, documentIds: Option<seq<string>>, env: SearchEnv, i: nat)
    requires i < |Ranked(rows, query, topK, languageFilter, documentIds, env)|
    ensures var s := Ranked(rows, query, topK, languageFilter, documentIds, env)[i];
      s.chunk in rows && IsCandidate(s.chunk, languageFilter, documentIds, env)
      && env.similarity(query, s.chunk.embedding) == Some(s.similarity)
      && SearchResults(rows, documents, files, query, topK, languageFilter, documentIds, env)[i] == ToResult(s, documents, files)
  {
    RankedAreCandidates(rows, query, topK, languageFilter, documentIds, env, i);
  }

  /** Every kept entry is a filtered row scored with its own similarity. */
  lemma {:induction false} RankedAreCandidates(rows: seq<ChunkRow>, query: seq<real>, topK: Option<int>, languageFilter: Option<string>, documentIds: Option<seq<string>>, env: SearchEnv, i: nat)
    requires i < |Ranked(rows, query, topK, languageFilter, documentIds, env)|
    ensures var s := Ranked(rows, query, topK, languageFilter, documentIds, env)[i];
      s.chunk in rows && IsCandidate(s.chunk, languageFilter, documentIds, env)
      && env.similarity(query, s.chunk.embedding) == Some(s.similarity)
  {
    var chunks := Candidates(rows, languageFilter, documentIds, env);
    var scores := Scores(chunks, query, env.similarity);
    var sorted := Sorting.SortDesc(scores, SimilarityKey);
    var s := Ranked(rows, query, topK, languageFilter, documentIds, env)[i];
    assert s == sorted[i];
    Sorting.SortDescPermutes(scores, SimilarityKey);
    assert s in multiset(sorted);
    assert s in scores;
    ScoresAreSimilarities(chunks, query, env.similarity, s);
    CandidatesAreCandidates(rows, languageFilter, documentIds, env, s.chunk);
  }

  /** `WithKey` of a prefix is a prefix of `WithKey`. */
  lemma {:induction false} WithKeyOfPrefix<T>(s: seq<T>, n: nat, key: T -> real, v: real)
    requires n <= |s|
    ensures var w := Sorting.WithKey(s[..n], key, v);
      |w| <= |Sorting.WithKey(s, key, v)| && w == Sorting.WithKey(s, key, v)[..|w|]
    decreases |s|
  {
    if n < |s| {
      var init := s[..|s| - 1];
      assert s[..n] == init[..n];
      WithKeyOfPrefix(init, n, key, v);
    } else {
      assert s[..n] == s;
    }
  }

  /**
   * Ties keep their fetch order: the entries kept with similarity `v` are the first scored
   * candidates with similarity `v`, in candidate order.
   */
  lemma {:induction false} SearchStable(rows: seq<ChunkRow>, query: seq<real>, topK: Option<int>, languageFilter: Option<string>, documentIds: Option<seq<string>>, env: SearchEnv, v: real)
    ensures var chunks := Candidates(rows, languageFilter, documentIds, env);
      var scored := Sorting.WithKey(Scores(chunks, query, env.similarity), SimilarityKey, v);
      var kept := Sorting.WithKey(Ranked(rows, query, topK, languageFilter, documentIds, env), SimilarityKey, v);
      |kept| <= |scored| && kept == scored[..|kept|]
  {
    var chunks := Candidates(rows, languageFilter, documentIds, env);
    if chunks != [] {
      var scores := Scores(chunks, query, env.similarity);
      var sorted := Sorting.SortDesc(scores, SimilarityKey);
      Sorting.SortDescStable(scores, SimilarityKey, v);
      var ranked := Ranked(rows, query, topK, languageFilter, documentIds, env);
      assert ranked == sorted[..|ranked|];
      WithKeyOfPrefix(sorted, |ranked|, SimilarityKey, v);
    }
  }

  // ---------------------------------------------------------------------------
  // get_chunks_by_document
  // ---------------------------------------------------------------------------

  /** A chunk as `get_chunks_by_document` lists it. */
  datatype ChunkListing = ChunkListing(
    id: string,
    content: string,
    metadata: DocumentProcessor.ChunkMetadata,
    chunkIndex: nat,
    tokenCount: Option<nat>,
    documentTitle: Option<string>)

  /** Sorting by decreasing `-chunkIndex` is sorting by increasing `chunkIndex`. */
  function AscendingIndex(c: ChunkRow): real { -(c.chunkIndex as real) }

  /** A document's chunks ordered by `chunkIndex`, ascending (ties in table order). */
  function ChunksInIndexOrder(rows: seq<ChunkRow>, documentId: string): seq<ChunkRow>
  {
    Sorting.SortDesc(ChunksOfDocument(rows, documentId), AscendingIndex)
  }

  /** Exactly the document's chunks, ordered by increasing `chunkIndex`. */
  lemma {:induction false} ChunksInIndexOrderSpec(rows: seq<ChunkRow>, documentId: string)
    ensures var r := ChunksInIndexOrder(rows, documentId);
      multiset(r) == multiset(ChunksOfDocument(rows, documentId))
      && (forall i :: 0 <= i < |r| ==> r[i].documentId == documentId)
      && (forall i, j :: 0 <= i < j < |r| ==> r[i].chunkIndex <= r[j].chunkIndex)
  {
    var own := ChunksOfDocument(rows, documentId);
    var r := ChunksInIndexOrder(rows, documentId);
    Sorting.SortDescPermutes(own, AscendingIndex);
    Sorting.SortDescSorted(own, AscendingIndex);
    forall i | 0 <= i < |r| ensures r[i].documentId == documentId {
      assert r[i] in multiset(own);
    }
    forall i, j | 0 <= i < j < |r| ensures r[i].chunkIndex <= r[j].chunkIndex {
      assert AscendingIndex(r[i]) >= AscendingIndex(r[j]);
    }
  }

  function Listing(c: ChunkRow, title: Option<string>): ChunkListing
  {
    ChunkListing(c.id, c.content, c.metadata, c.chunkIndex, c.tokenCount, title)
  }

  /** `VectorStore.get_chunks_by_document`. */
  function GetChunksByDocument(db: Database, documentId: string): (r: seq<ChunkListing>)
    reads db
    ensures |r| == |ChunksOfDocument(db.chunks, documentId)|
  {
    var ordered := ChunksInIndexOrder(db.chunks, documentId);
    Sorting.SortDescPermutes(ChunksOfDocument(db.chunks, documentId), AscendingIndex);
    assert |multiset(ordered)| == |multiset(ChunksOfDocument(db.chunks, documentId))|;
    var title := DocumentTitle(db.documents, documentId);
    seq(|ordered|, i requires 0 <= i < |ordered| => Listing(ordered[i], title))
  }

  // ---------------------------------------------------------------------------
  // delete_document_chunks
  // ---------------------------------------------------------------------------

  /** `VectorStore.delete_document_chunks`: removes the document's chunks and returns how many there were. */
  method DeleteDocumentChunks(db: Database, documentId: string) returns (count: nat)
    requires db.Valid()
    modifies db`chunks
    ensures db.Valid()
    ensures db.chunks == ChunksNotOfDocument(old(db.chunks), documentId)
    ensures count == |ChunksOfDocument(old(db.chunks), documentId)|
    ensures count == |old(db.chunks)| - |db.chunks|
  {
    count := |ChunksOfDocument(db.chunks, documentId)|;
    ChunksSplitByDocument(db.chunks, documentId);
    ChunksNotOfDocumentKeepsIds(db.chunks, documentId, db.nextId);
    db.chunks := ChunksNotOfDocument(db.chunks, documentId);
  }

  /** Deleting one document's chunks leaves every other document's chunks as they were. */
  lemma {:induction false} DeleteKeepsOtherDocuments(rows: seq<ChunkRow>, documentId: string, other: string)
    requires other != documentId
    ensures ChunksOfDocument(ChunksNotOfDocument(rows, documentId), other) == ChunksOfDocument(rows, other)
  {
    if rows != [] {
      var init := rows[..|rows| - 1];
      var last := rows[|rows| - 1];
      DeleteKeepsOtherDocuments(init, documentId, other);
      var kept := ChunksNotOfDocument(init, documentId);
      if last.documentId != documentId {
        var next := kept + [last];
        assert ChunksNotOfDocument(rows, documentId) == next;
        assert next[..|next| - 1] == kept;
        assert ChunksOfDocument(next, other) == ChunksOfDocument(kept, other) + (if last.documentId == other then [last] else []);
      } else {
        assert ChunksNotOfDocument(rows, documentId) == kept;
        assert ChunksOfDocument(rows, other) == ChunksOfDocument(init, other);
      }
    }
  }

  /** After the deletion no chunk of the document remains. */
  lemma {:induction false} DeleteRemovesDocument(rows: seq<ChunkRow>, documentId: string)
    ensures ChunksOfDocument(ChunksNotOfDocument(rows, documentId), documentId) == []
  {
    var kept := ChunksNotOfDocument(rows, documentId);
    NoChunksOf(kept, documentId);
  }

  lemma {:induction false} NoChunksOf(rows: seq<ChunkRow>, documentId: string)
    requires forall i :: 0 <= i < |rows| ==> rows[i].documentId != documentId
    ensures ChunksOfDocument(rows, documentId) == []
  {
    if rows != [] {
      NoChunksOf(rows[..|rows| - 1], documentId);
    }
  }

  // ---------------------------------------------------------------------------
  // get_vector_store_stats
  // ---------------------------------------------------------------------------

  /** How many documents have language `language`. */
  function CountLanguage(documents: seq<Document>, language: string): (n: nat)
    ensures n <= |documents|
  {
    if documents == [] then 0
    else CountLanguage(documents[..|documents| - 1], language)
         + (if documents[|documents| - 1].language == language then 1 else 0)
  }

  /** The `group_by(["language"])` counts. */
  function LanguageDistribution(documents: seq<Document>): map<string, nat>
  {
    if documents == [] then map[]
    else
      var m := LanguageDistribution(documents[..|documents| - 1]);
      var l := documents[|documents| - 1].language;
      m[l := (if l in m then m[l] else 0) + 1]
  }

  /** The distribution has one key per language present, counting that language's documents. */
  lemma {:induction false} LanguageDistributionCounts(documents: seq<Document>, language: string)
    ensures language in LanguageDistribution(documents) <==> CountLanguage(documents, language) > 0
    ensures language in LanguageDistribution(documents) ==>
              LanguageDistribution(documents)[language] == CountLanguage(documents, language)
  {
    if documents != [] {
      LanguageDistributionCounts(documents[..|documents| - 1], language);
    }
  }

  datatype StoreStats = StoreStats(totalChunks: nat, totalDocuments: nat, languageDistribution: map<string, nat>)

  /** `VectorStore.get_vector_store_stats`. */
  function GetVectorStoreStats(db: Database): (s: StoreStats)
    reads db
    ensures s.totalChunks == |db.chunks| && s.totalDocuments == |db.documents|
  {
    StoreStats(|db.chunks|, |db.documents|, LanguageDistribution(db.documents))
  }
}
