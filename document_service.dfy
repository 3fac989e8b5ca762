/**
 * Document management (apps/server/services/document_service.py): building the knowledge
 * base from the predefined PDF, uploading a user's document, showing a document's details
 * and deleting a document or the knowledge base. The database writes go to the shared
 * `Database`; the embedding model, the object storage and the extraction libraries are
 * collaborators passed in as functions, and the random storage key is a parameter.
 */
module DocumentService {
  import opened Text
  import opened Store
  import opened DocumentProcessor
  import opened VectorStore

  // ---------------------------------------------------------------------------
  // What a document record is made of
  // ---------------------------------------------------------------------------

  /** `[chunk.page_content for chunk in chunks]`. */
  function PageContents(chunks: seq<Chunk>): (r: seq<string>)
    ensures |r| == |chunks| && forall k :: 0 <= k < |chunks| ==> r[k] == chunks[k].pageContent
  {
    seq(|chunks|, k requires 0 <= k < |chunks| => chunks[k].pageContent)
  }

  /** The stored content: the chunks' texts joined by single spaces. */
  function JoinedContent(chunks: seq<Chunk>): string
  {
    Join(" ", PageContents(chunks))
  }

  /** `sum(chunk.metadata.get("word_count", 0) for chunk in chunks)`. */
  function SumWordCounts(chunks: seq<Chunk>): nat
  {
    if chunks == [] then 0 else chunks[0].metadata.wordCount + SumWordCounts(chunks[1..])
  }

  /** Chunks whose recorded word count is the whitespace word count of their text. */
  predicate CountsOwnWords(chunks: seq<Chunk>)
  {
    forall k :: 0 <= k < |chunks| ==> chunks[k].metadata.wordCount == |Words(chunks[k].pageContent)|
  }

  lemma {:induction false} SumWordCountsPerPart(chunks: seq<Chunk>)
    requires CountsOwnWords(chunks)
    ensures SumWordCounts(chunks) == WordCountSum(PageContents(chunks))
  {
    if chunks != [] {
      assert PageContents(chunks)[1..] == PageContents(chunks[1..]);
      assert CountsOwnWords(chunks[1..]) by {
        forall k | 0 <= k < |chunks[1..]|
          ensures chunks[1..][k].metadata.wordCount == |Words(chunks[1..][k].pageContent)|
        {
          assert chunks[1..][k] == chunks[k + 1];
        }
      }
      SumWordCountsPerPart(chunks[1..]);
    }
  }

  /**
   * Summing the chunks' own word counts gives the number of whitespace words of the joined
   * content, so the knowledge base (which sums) and an upload (which splits the joined
   * content) count words alike.
   */
  lemma {:induction false} SumWordCountsIsWordCount(chunks: seq<Chunk>)
    requires CountsOwnWords(chunks)
    ensures SumWordCounts(chunks) == |Words(JoinedContent(chunks))|
  {
    SumWordCountsPerPart(chunks);
    WordsOfSpaceJoin(PageContents(chunks));
  }

  /** The chunks `chunk_document` returns count their own words. */
  lemma {:induction false} ChunksCountOwnWords(text: string, source: SourceMetadata, title: string, split: string -> seq<string>)
    ensures CountsOwnWords(ChunksOf(text, source, title, split))
  {
    ChunksOfShape(text, source, title, split);
  }

  // ---------------------------------------------------------------------------
  // Embedding the chunks
  // ---------------------------------------------------------------------------

  /** The embedding model: a vector, or the message of the exception it raises. */
  type Embedder = string -> Result<seq<real>>

  /** The `chunks_data` entry of a chunk, with its whitespace word count as token count. */
  function ChunkDataOf(c: Chunk, embedding: seq<real>): ChunkData
  {
    ChunkData(c.pageContent, embedding, c.metadata, Some(|Words(c.pageContent)|))
  }

  /** The embedding loop: the chunks' entries in order, or the error of the first failure. */
  function EmbedChunks(chunks: seq<Chunk>, embed: Embedder): (r: Result<seq<ChunkData>>)
    ensures r.Ok? ==> |r.value| == |chunks|
  {
    if chunks == [] then Ok([])
    else
      match EmbedChunks(chunks[..|chunks| - 1], embed)
      case Err(e) => Err(e)
      case Ok(prefix) =>
        match embed(chunks[|chunks| - 1].pageContent)
        case Err(e) => Err(e)
        case Ok(v) => Ok(prefix + [ChunkDataOf(chunks[|chunks| - 1], v)])
  }

  /**
   * The loop succeeds exactly when every chunk embeds, and then holds every chunk's entry;
   * otherwise it fails with the error of the first chunk that fails.
   */
  lemma {:induction false} EmbedChunksSpec(chunks: seq<Chunk>, embed: Embedder)
    ensures var r := EmbedChunks(chunks, embed);
      (r.Ok? <==> forall k :: 0 <= k < |chunks| ==> embed(chunks[k].pageContent).Ok?)
      && (r.Ok? ==> forall k :: 0 <= k < |chunks| ==> r.value[k] == ChunkDataOf(chunks[k], embed(chunks[k].pageContent).value))
      && (r.Err? ==> exists k :: 0 <= k < |chunks| && embed(chunks[k].pageContent) == Err(r.error)
                                 && forall j :: 0 <= j < k ==> embed(chunks[j].pageContent).Ok?)
  {
    if chunks != [] {
      var init := chunks[..|chunks| - 1];
      var last := chunks[|chunks| - 1];
      assert forall k :: 0 <= k < |init| ==> init[k] == chunks[k];
      EmbedChunksSpec(init, embed);
      var r := EmbedChunks(chunks, embed);
      match EmbedChunks(init, embed)
      case Err(e) => {
        var k :| 0 <= k < |init| && embed(init[k].pageContent) == Err(e)
                 && forall j :: 0 <= j < k ==> embed(init[j].pageContent).Ok?;
        assert embed(chunks[k].pageContent) == Err(r.error);
      }
      case Ok(prefix) => {
        if embed(last.pageContent).Err? {
          assert embed(chunks[|chunks| - 1].pageContent) == Err(r.error);
        }
      }
    }
  }

  /** The loop of `initialize_knowledge_base` and `upload_document` that builds `chunk_data`. */
  method EmbedAll(chunks: seq<Chunk>, embed: Embedder) returns (r: Result<seq<ChunkData>>)
    ensures r == EmbedChunks(chunks, embed)
  {
    var chunkData: seq<ChunkData> := [];
    var i := 0;
    while i < |chunks|
      invariant 0 <= i <= |chunks|
      invariant EmbedChunks(chunks[..i], embed) == Ok(chunkData)
    {
      var embedding := embed(chunks[i].pageContent);
      assert chunks[..i + 1][..i] == chunks[..i];
      if embedding.Err? {
        assert EmbedChunks(chunks[..i + 1], embed) == Err(embedding.error);
        EmbedPrefixFails(chunks, i + 1, embed);
        return Err(embedding.error);
      }
      chunkData := chunkData + [ChunkDataOf(chunks[i], embedding.value)];
      i := i + 1;
    }
    assert chunks[..i] == chunks;
    r := Ok(chunkData);
  }

  /** Once a prefix fails, the whole sequence fails with the same error. */
  lemma {:induction false} EmbedPrefixFails(chunks: seq<Chunk>, n: nat, embed: Embedder)
    requires n <= |chunks| && EmbedChunks(chunks[..n], embed).Err?
    ensures EmbedChunks(chunks, embed) == EmbedChunks(chunks[..n], embed)
    decreases |chunks| - n
  {
    if n < |chunks| {
      assert chunks[..n + 1][..n] == chunks[..n];
      assert EmbedChunks(chunks[..n + 1], embed) == EmbedChunks(chunks[..n], embed);
      EmbedPrefixFails(chunks, n + 1, embed);
    } else {
      assert chunks[..n] == chunks;
    }
  }

  // ---------------------------------------------------------------------------
  // initialize_knowledge_base
  // ---------------------------------------------------------------------------

  datatype KbStatus =
    | AlreadyExists(documentId: string, chunkCount: nat)
    | Initialized(documentId: string, chunkCount: nat, totalWords: nat, totalPages: nat)

  /** `chunks[0].metadata.get("page_count", 0) if chunks else 0`. */
  function KbPageCount(chunks: seq<Chunk>): nat
  {
    if chunks == [] then 0 else PageCountOr(chunks[0].metadata.source, 0)
  }

  /** The knowledge-base document record. */
  function KbDocument(id: string, chunks: seq<Chunk>): Document
  {
    Document(id, KnowledgeBaseTitle, JoinedContent(chunks), "bn", SumWordCounts(chunks), KbPageCount(chunks), None)
  }

  /**
   * The tables after the knowledge-base document is created from `chunks`: the document is
   * appended and its chunks follow, unless embedding fails, which leaves it without chunks.
   */
  predicate KnowledgeBaseCreated(before: Tables, after: Tables, chunks: seq<Chunk>, embed: Embedder, r: Result<KbStatus>)
  {
    var id := MintId(before.nextId);
    var recorded := before.(documents := before.documents + [KbDocument(id, chunks)]);
    match EmbedChunks(chunks, embed)
    case Err(e) =>
      r == Err(e) && after == recorded.(nextId := before.nextId + 1)
    case Ok(data) =>
      r == Ok(Initialized(id, |chunks|, SumWordCounts(chunks), KbPageCount(chunks)))
      && after == recorded.(chunks := before.chunks + NewChunkRows(data, id, None, before.nextId + 1),
                            nextId := before.nextId + 1 + |chunks|)
  }

  /**
   * `create_operation` of `initialize_knowledge_base`: the document record is created before
   * the first embedding, so an embedding failure leaves it behind without chunks.
   */
  method CreateKnowledgeBase(db: Database, chunks: seq<Chunk>, embed: Embedder) returns (r: Result<KbStatus>)
    requires db.Valid()
    modifies db`documents, db`chunks, db`nextId
    ensures db.Valid()
    ensures KnowledgeBaseCreated(old(db.State()), db.State(), chunks, embed, r)
  {
    ghost var before := db.State();
    var documentId := db.NewId();
    db.documents := db.documents + [KbDocument(documentId, chunks)];
    ghost var recorded := db.State();
    assert recorded == before.(documents := before.documents + [KbDocument(documentId, chunks)], nextId := before.nextId + 1);
    var chunkData := EmbedAll(chunks, embed);
    match chunkData {
      case Err(e) =>
        r := Err(e);
      case Ok(data) =>
        var chunkIds := StoreDocumentChunks(db, documentId, data, None);
        assert db.State() == recorded.(chunks := before.chunks + NewChunkRows(data, documentId, None, before.nextId + 1),
                                       nextId := before.nextId + 1 + |data|);
        r := Ok(Initialized(documentId, |chunkIds|, SumWordCounts(chunks), KbPageCount(chunks)));
    }
  }

  /**
   * What `initialize_knowledge_base` answers and how it takes the tables from `before` to
   * `after`. An existing knowledge-base document is reported with its chunk count and nothing
   * is written; a processing error is answered before anything is written; otherwise the
   * document is appended and its chunks follow, unless embedding fails.
   */
  predicate KnowledgeBaseEffect(before: Tables, after: Tables, downloaded: Option<seq<Byte>>, ex: Extractors,
                                embed: Embedder, r: Result<KbStatus>)
  {
    var existing := FindDocumentByTitle(before.documents, KnowledgeBaseTitle);
    var processed := KnowledgeBaseChunks(downloaded, ex);
    if existing.Some? then
      var doc := before.documents[existing.value];
      r == Ok(AlreadyExists(doc.id, |ChunksOfDocument(before.chunks, doc.id)|)) && after == before
    else if processed.Err? then
      r == Err(processed.error) && after == before
    else
      KnowledgeBaseCreated(before, after, processed.value, embed, r)
  }

  /**
   * `DocumentService.initialize_knowledge_base`. When a document with the knowledge-base
   * title exists nothing is written and its chunks are counted; otherwise the downloaded PDF
   * is processed, and a processing error is raised before anything is written.
   */
  method InitializeKnowledgeBase(db: Database, downloaded: Option<seq<Byte>>, ex: Extractors, embed: Embedder)
    returns (r: Result<KbStatus>)
    requires db.Valid()
    modifies db`documents, db`chunks, db`nextId
    ensures db.Valid()
    ensures KnowledgeBaseEffect(old(db.State()), db.State(), downloaded, ex, embed, r)
  {
    var existing := FindDocumentByTitle(db.documents, KnowledgeBaseTitle);
    if existing.Some? {
      var doc := db.documents[existing.value];
      var chunkCount := |GetChunksByDocument(db, doc.id)|;
      return Ok(AlreadyExists(doc.id, chunkCount));
    }
    var processed := ProcessKnowledgeBase(downloaded, ex);
    if processed.Err? {
      return Err(processed.error);
    }
    r := CreateKnowledgeBase(db, processed.value, embed);
  }

  /** The knowledge-base word count is the whitespace word count of its stored content. */
  lemma {:induction false} KbWordCountIsContentWords(downloaded: Option<seq<Byte>>, ex: Extractors, id: string)
    requires KnowledgeBaseChunks(downloaded, ex).Ok?
    ensures var doc := KbDocument(id, KnowledgeBaseChunks(downloaded, ex).value);
      doc.wordCount == |Words(doc.content)|
  {
    var e := PdfExtraction(ex.openPdf(downloaded.value).value);
    ChunksCountOwnWords(e.content, e.metadata, KnowledgeBaseTitle, ex.split);
    SumWordCountsIsWordCount(KnowledgeBaseChunks(downloaded, ex).value);
  }

  /** After the knowledge base was created, looking it up by title finds the new record. */
  lemma {:induction false} KbFoundAfterInitialize(documents: seq<Document>, id: string, chunks: seq<Chunk>)
    requires FindDocumentByTitle(documents, KnowledgeBaseTitle).None?
    ensures FindDocumentByTitle(documents + [KbDocument(id, chunks)], KnowledgeBaseTitle) == Some(|documents|)
  {
    var all := documents + [KbDocument(id, chunks)];
    var found := FindDocumentByTitle(all, KnowledgeBaseTitle);
    assert all[|documents|].title == KnowledgeBaseTitle;
  }

  lemma {:induction false} ChunksOfDocumentAppend(a: seq<ChunkRow>, b: seq<ChunkRow>, documentId: string)
    ensures ChunksOfDocument(a + b, documentId) == ChunksOfDocument(a, documentId) + ChunksOfDocument(b, documentId)
    decreases |b|
  {
    if b == [] {
      assert a + b == a;
    } else {
      var init := b[..|b| - 1];
      assert (a + b)[..|a + b| - 1] == a + init;
      assert (a + b)[|a + b| - 1] == b[|b| - 1];
      ChunksOfDocumentAppend(a, init, documentId);
    }
  }

  lemma {:induction false} ChunksOfDocumentAll(rows: seq<ChunkRow>, documentId: string)
    requires forall k :: 0 <= k < |rows| ==> rows[k].documentId == documentId
    ensures ChunksOfDocument(rows, documentId) == rows
  {
    if rows != [] {
      ChunksOfDocumentAll(rows[..|rows| - 1], documentId);
      assert rows[..|rows| - 1] + [rows[|rows| - 1]] == rows;
    }
  }

  /**
   * Initializing twice is harmless: once the knowledge base is stored (and no earlier chunk
   * names the new document), the second call finds it and reports the same document and
   * chunk count.
   */
  lemma {:induction false} SecondInitializeReportsFirst(documents: seq<Document>, rows: seq<ChunkRow>, id: string, chunks: seq<Chunk>, data: seq<ChunkData>, base: nat)
    requires FindDocumentByTitle(documents, KnowledgeBaseTitle).None?
    requires forall k :: 0 <= k < |rows| ==> rows[k].documentId != id
    requires |data| == |chunks|
    ensures var documents' := documents + [KbDocument(id, chunks)];
      var rows' := rows + NewChunkRows(data, id, None, base);
      var found := FindDocumentByTitle(documents', KnowledgeBaseTitle);
      found.Some? && documents'[found.value].id == id
      && |ChunksOfDocument(rows', id)| == |chunks|
  {
    KbFoundAfterInitialize(documents, id, chunks);
    var added := NewChunkRows(data, id, None, base);
    ChunksOfDocumentAppend(rows, added, id);
    NoChunksOf(rows, id);
    ChunksOfDocumentAll(added, id);
  }

  // ---------------------------------------------------------------------------
  // upload_document
  // ---------------------------------------------------------------------------

  /**
   * The object storage: `upload` yields the error it reports (`None` on success) and
   * `publicUrl` the public URL of a stored path.
   */
  datatype Storage = Storage(upload: (string, seq<Byte>) -> Option<string>, publicUrl: string -> string)

  datatype UploadResult = UploadResult(
    documentId: string,
    fileId: string,
    filename: string,
    language: string,
    chunkCount: nat,
    wordCount: nat,
    pageCount: nat,
    fileUrl: string)

  /** `f"documents/{user_id}/{file_id}_{filename}"`, `file_id` being the random storage key. */
  function StoragePath(userId: string, fileKey: string, filename: string): string
  {
    "documents/" + userId + "/" + fileKey + "_" + filename
  }

  /** `chunks[0].metadata.get("page_count", 1) if chunks else 1`. */
  function UploadPageCount(chunks: seq<Chunk>): nat
  {
    if chunks == [] then 1 else PageCountOr(chunks[0].metadata.source, 1)
  }

  /** The document record of an upload: titled by the file name without its last extension. */
  function UploadedDocument(id: string, filename: string, chunks: seq<Chunk>): Document
  {
    var content := JoinedContent(chunks);
    Document(id, BeforeLast(filename, '.'), content, DetectLanguage(content).Code(), |Words(content)|, UploadPageCount(chunks), None)
  }

  /** The document and file records of an upload, created in that order. */
  method AddUploadRecords(db: Database, chunks: seq<Chunk>, filename: string, fileType: string, size: nat, url: string)
    returns (documentId: string, fileId: string)
    requires db.Valid()
    modifies db`documents, db`files, db`nextId
    ensures db.Valid()
    ensures documentId == MintId(old(db.nextId)) && fileId == MintId(old(db.nextId) + 1)
    ensures db.nextId == old(db.nextId) + 2
    ensures db.documents == old(db.documents) + [UploadedDocument(documentId, filename, chunks)]
    ensures db.files == old(db.files) + [FileRecord(fileId, url, fileType, filename, size, documentId)]
  {
    documentId := db.NewId();
    db.documents := db.documents + [UploadedDocument(documentId, filename, chunks)];
    fileId := db.NewId();
    db.files := db.files + [FileRecord(fileId, url, fileType, filename, size, documentId)];
  }

  /**
   * The tables after an upload's records are created from `chunks`: the document and its file
   * record are appended and the chunks follow, unless embedding fails, which leaves them
   * without chunks.
   */
  predicate UploadRecorded(before: Tables, after: Tables, chunks: seq<Chunk>, filename: string, fileType: string,
                           size: nat, url: string, embed: Embedder, r: Result<UploadResult>)
  {
    var documentId := MintId(before.nextId);
    var fileId := MintId(before.nextId + 1);
    var doc := UploadedDocument(documentId, filename, chunks);
    var recorded := before.(documents := before.documents + [doc],
                            files := before.files + [FileRecord(fileId, url, fileType, filename, size, documentId)]);
    match EmbedChunks(chunks, embed)
    case Err(e) =>
      r == Err(e) && after == recorded.(nextId := before.nextId + 2)
    case Ok(data) =>
      r == Ok(UploadResult(documentId, fileId, filename, doc.language, |chunks|, doc.wordCount, doc.pageCount, url))
      && after == recorded.(chunks := before.chunks + NewChunkRows(data, documentId, Some(fileId), before.nextId + 2),
                            nextId := before.nextId + 2 + |chunks|)
  }

  /**
   * `upload_operation` of `upload_document`: the document and file records are created before
   * the first embedding, so an embedding failure leaves them behind without chunks.
   */
  method CreateUploadRecords(db: Database, chunks: seq<Chunk>, filename: string, fileType: string, size: nat,
                             url: string, embed: Embedder)
    returns (r: Result<UploadResult>)
    requires db.Valid()
    modifies db`documents, db`files, db`chunks, db`nextId
    ensures db.Valid()
    ensures UploadRecorded(old(db.State()), db.State(), chunks, filename, fileType, size, url, embed, r)
  {
    ghost var before := db.State();
    var documentId, fileId := AddUploadRecords(db, chunks, filename, fileType, size, url);
    var doc := UploadedDocument(documentId, filename, chunks);
    ghost var recorded := db.State();
    assert recorded == before.(documents := before.documents + [doc],
                               files := before.files + [FileRecord(fileId, url, fileType, filename, size, documentId)],
                               nextId := before.nextId + 2);
    var chunkData := EmbedAll(chunks, embed);
    match chunkData {
      case Err(e) =>
        r := Err(e);
      case Ok(data) =>
        var chunkIds := StoreDocumentChunks(db, documentId, data, Some(fileId));
        assert db.State() == recorded.(chunks := before.chunks + NewChunkRows(data, documentId, Some(fileId), before.nextId + 2),
                                       nextId := before.nextId + 2 + |data|);
        r := Ok(UploadResult(documentId, fileId, filename, doc.language, |chunkIds|, doc.wordCount, doc.pageCount, url));
    }
  }

  /**
   * What `upload_document` answers and how it takes the tables from `before` to `after`. A
   * storage error, a processing error or an upload that yields no chunk answers an error and
   * writes nothing. Otherwise the upload's records are created.
   */
  predicate UploadEffect(before: Tables, after: Tables, content: seq<Byte>, filename: string, fileType: string,
                         userId: string, fileKey: string, storage: Storage, ex: Extractors, embed: Embedder,
                         r: Result<UploadResult>)
  {
    var path := StoragePath(userId, fileKey, filename);
    var processed := UploadedChunks(content, filename, fileType, ex);
    if storage.upload(path, content).Some? then
      r == Err("Storage upload error: " + storage.upload(path, content).value) && after == before
    else if processed.Err? then
      r == Err(processed.error) && after == before
    else if processed.value == [] then
      r == Err("No content could be extracted from the document") && after == before
    else
      UploadRecorded(before, after, processed.value, filename, fileType, |content|, storage.publicUrl(path), embed, r)
  }

  /**
   * `DocumentService.upload_document`. The file goes to storage first; processing follows,
   * and a storage error, a processing error or an upload that yields no chunk fails before
   * any record is written.
   */
  method UploadDocument(db: Database, content: seq<Byte>, filename: string, fileType: string, userId: string,
                        fileKey: string, storage: Storage, ex: Extractors, embed: Embedder)
    returns (r: Result<UploadResult>)
    requires db.Valid()
    modifies db`documents, db`files, db`chunks, db`nextId
    ensures db.Valid()
    ensures UploadEffect(old(db.State()), db.State(), content, filename, fileType, userId, fileKey, storage, ex, embed, r)
  {
    var path := StoragePath(userId, fileKey, filename);
    var storageError := storage.upload(path, content);
    if storageError.Some? {
      return Err("Storage upload error: " + storageError.value);
    }
    var url := storage.publicUrl(path);
    var processed := ProcessUploadedDocument(content, filename, fileType, ex);
    if processed.Err? {
      return Err(processed.error);
    }
    var chunks := processed.value;
    if chunks == [] {
      return Err("No content could be extracted from the document");
    }
    r := CreateUploadRecords(db, chunks, filename, fileType, |content|, url, embed);
  }

  /**
   * Whatever its outcome, an upload keeps every existing document and appends at most one;
   * a success appends the document under the next id, titled by the name without its
   * extension, and its file record under the id after it.
   */
  lemma {:induction false} UploadEffectAppends(before: Tables, after: Tables, content: seq<Byte>, filename: string, fileType: string,
                                               userId: string, fileKey: string, storage: Storage, ex: Extractors, embed: Embedder,
                                               r: Result<UploadResult>)
    requires UploadEffect(before, after, content, filename, fileType, userId, fileKey, storage, ex, embed, r)
    ensures before.documents <= after.documents && |after.documents| <= |before.documents| + 1
    ensures r.Ok? ==>
              r.value.documentId == MintId(before.nextId) && r.value.fileId == MintId(before.nextId + 1)
              && r.value.filename == filename
              && |after.documents| == |before.documents| + 1
              && after.documents[|before.documents|].id == r.value.documentId
              && after.documents[|before.documents|].title == BeforeLast(filename, '.')
              && after.files == before.files + [FileRecord(r.value.fileId, r.value.fileUrl, fileType, filename, |content|, r.value.documentId)]
  {
    var path := StoragePath(userId, fileKey, filename);
    var processed := UploadedChunks(content, filename, fileType, ex);
    if storage.upload(path, content).None? && processed.Ok? && processed.value != [] {
      var chunks := processed.value;
      var doc := UploadedDocument(MintId(before.nextId), filename, chunks);
      assert after.documents == before.documents + [doc];
    }
  }

  /**
   * An upload's word count (the joined content split on whitespace) is the sum of its
   * chunks' own word counts, as the knowledge base computes it.
   */
  lemma {:induction false} UploadWordCountIsChunkSum(content: seq<Byte>, filename: string, fileType: string, ex: Extractors, id: string)
    requires UploadedChunks(content, filename, fileType, ex).Ok?
    ensures var chunks := UploadedChunks(content, filename, fileType, ex).value;
      UploadedDocument(id, filename, chunks).wordCount == SumWordCounts(chunks)
  {
    var chunks := UploadedChunks(content, filename, fileType, ex).value;
    if Lower(fileType) == "pdf" {
      var e := PdfExtraction(ex.openPdf(content).value);
      ChunksCountOwnWords(e.content, e.metadata, filename, ex.split);
    } else {
      var text := ex.decodeUtf8(content).value;
      ChunksCountOwnWords(text, TextMetadata(filename, fileType), filename, ex.split);
    }
    SumWordCountsIsWordCount(chunks);
  }

  /** The title drops exactly the last extension: `"a.b.txt"` becomes `"a.b"`, `"notes"` stays. */
  lemma {:induction false} UploadTitleExamples(id: string, chunks: seq<Chunk>)
    ensures UploadedDocument(id, "a.b.txt", chunks).title == "a.b"
    ensures UploadedDocument(id, "notes", chunks).title == "notes"
  {
    assert LastIndexOf("a.b.txt", '.') == Some(3) by {
      assert "a.b.txt"[3] == '.';
      assert "a.b.txt"[..|"a.b.txt"| - 1] == "a.b.tx";
    }
    assert "a.b.txt"[..3] == "a.b";
  }

  // ---------------------------------------------------------------------------
  // get_document_details
  // ---------------------------------------------------------------------------

  const ContentPreviewLength: nat := 500
  const ChunkPreviewLength: nat := 200
  /** `"take": 10` on the included chunks. */
  const DetailChunkLimit: nat := 10

  datatype FileInfo = FileInfo(id: string, filename: string, fileType: string, size: nat, url: string)

  datatype ChunkPreview = ChunkPreview(id: string, contentPreview: string, chunkIndex: nat, tokenCount: Option<nat>)

  datatype DocumentDetails = DocumentDetails(
    id: string,
    title: string,
    contentPreview: string,
    language: string,
    wordCount: nat,
    pageCount: nat,
    file: Option<FileInfo>,
    chunksPreview: seq<ChunkPreview>)

  function FileInfoOf(f: FileRecord): FileInfo
  {
    FileInfo(f.id, f.fileName, f.fileType, f.fileSize, f.url)
  }

  function ChunkPreviewOf(c: ChunkRow): ChunkPreview
  {
    ChunkPreview(c.id, Preview(c.content, ChunkPreviewLength), c.chunkIndex, c.tokenCount)
  }

  /** The previews of a document's first ten chunks in `chunkIndex` order (`"take": 10`). */
  function ChunkPreviews(rows: seq<ChunkRow>, documentId: string): (r: seq<ChunkPreview>)
    ensures var own := ChunksOfDocument(rows, documentId);
      |r| == if |own| < DetailChunkLimit then |own| else DetailChunkLimit
  {
    var ordered := ChunksInIndexOrder(rows, documentId);
    Sorting.SortDescPermutes(ChunksOfDocument(rows, documentId), AscendingIndex);
    assert |multiset(ordered)| == |multiset(ChunksOfDocument(rows, documentId))|;
    var taken := Take(ordered, DetailChunkLimit);
    seq(|taken|, k requires 0 <= k < |taken| => ChunkPreviewOf(taken[k]))
  }

  /** The previews come from the document's own chunks, in increasing `chunkIndex`, and are short. */
  lemma {:induction false} ChunkPreviewsSpec(rows: seq<ChunkRow>, documentId: string)
    ensures var own := ChunksOfDocument(rows, documentId);
      var r := ChunkPreviews(rows, documentId);
      (forall i, j :: 0 <= i < j < |r| ==> r[i].chunkIndex <= r[j].chunkIndex)
      && (forall i :: 0 <= i < |r| ==> exists c :: c in own && r[i] == ChunkPreviewOf(c))
      && (forall i :: 0 <= i < |r| ==> |r[i].contentPreview| <= ChunkPreviewLength + 3)
  {
    var own := ChunksOfDocument(rows, documentId);
    var ordered := ChunksInIndexOrder(rows, documentId);
    var r := ChunkPreviews(rows, documentId);
    ChunksInIndexOrderSpec(rows, documentId);
    forall i | 0 <= i < |r| ensures r[i] == ChunkPreviewOf(ordered[i]) && ordered[i] in own {
      assert ordered[i] in multiset(own);
    }
    forall i | 0 <= i < |r| ensures exists c :: c in own && r[i] == ChunkPreviewOf(c) {
      assert ordered[i] in own && r[i] == ChunkPreviewOf(ordered[i]);
    }
  }

  /**
   * `DocumentService.get_document_details`: an error for an unknown id; otherwise the
   * document with a 500-character content preview, its file and its chunk previews.
   */
  function GetDocumentDetails(db: Database, documentId: string): (r: Result<DocumentDetails>)
    reads db
    ensures r.Err? <==> FindDocument(db.documents, documentId).None?
    ensures r.Err? ==> r.error == "Document " + documentId + " not found"
    ensures r.Ok? ==>
      var doc := db.documents[FindDocument(db.documents, documentId).value];
      r.value.id == documentId && r.value.title == doc.title
      && |r.value.contentPreview| <= ContentPreviewLength + 3
      && (|doc.content| <= ContentPreviewLength ==> r.value.contentPreview == doc.content)
      && (|doc.content| > ContentPreviewLength ==>
            |r.value.contentPreview| == ContentPreviewLength + 3
            && r.value.contentPreview[..ContentPreviewLength] == doc.content[..ContentPreviewLength])
      && (r.value.file.Some? <==> FindFileOfDocument(db.files, documentId).Some?)
      && r.value.chunksPreview == ChunkPreviews(db.chunks, documentId)
  {
    match FindDocument(db.documents, documentId)
    case None => Err("Document " + documentId + " not found")
    case Some(i) =>
      var doc := db.documents[i];
      var file := match FindFileOfDocument(db.files, documentId)
                  case None => None
                  case Some(f) => Some(FileInfoOf(db.files[f]));
      Ok(DocumentDetails(doc.id, doc.title, Preview(doc.content, ContentPreviewLength), doc.language,
                         doc.wordCount, doc.pageCount, file, ChunkPreviews(db.chunks, documentId)))
  }

  // ---------------------------------------------------------------------------
  // delete_document / delete_knowledge_base
  // ---------------------------------------------------------------------------

  /**
   * The user owning a document: the user of the chat of the message the document is linked
   * to, when both rows are present.
   */
  function DocumentOwner(doc: Document, messages: seq<Message>, chats: seq<Chat>): Option<string>
  {
    match doc.messageId
    case None => None
    case Some(m) =>
      match FindMessage(messages, m)
      case None => None
      case Some(k) =>
        match FindChat(chats, messages[k].chatId)
        case None => None
        case Some(c) => Some(chats[c].userId)
  }

  /** A document may be deleted by its owner, and by anyone when it belongs to no chat. */
  predicate MayDelete(doc: Document, messages: seq<Message>, chats: seq<Chat>, userId: string)
  {
    var owner := DocumentOwner(doc, messages, chats);
    owner.None? || owner.value == userId
  }

  /** The file table without the document's file record, if it has one. */
  function FilesWithout(files: seq<FileRecord>, documentId: string): (r: seq<FileRecord>)
    ensures FindFileOfDocument(files, documentId).None? ==> r == files
    ensures FindFileOfDocument(files, documentId).Some? ==> |r| == |files| - 1
  {
    match FindFileOfDocument(files, documentId)
    case None => files
    case Some(f) => RemoveAt(files, f)
  }

  lemma {:induction false} DocumentsRemoveAtValid(rows: seq<Document>, i: nat, n: nat)
    requires i < |rows| && DocumentIdsBelow(rows, n)
    ensures DocumentIdsBelow(RemoveAt(rows, i), n)
  {
    var r := RemoveAt(rows, i);
    forall k | 0 <= k < |r| ensures |r[k].id| <= n {
      if k < i { assert r[k] == rows[k]; } else { assert r[k] == rows[k + 1]; }
    }
  }

  lemma {:induction false} FilesWithoutValid(rows: seq<FileRecord>, documentId: string, n: nat)
    requires FileIdsBelow(rows, n)
    ensures FileIdsBelow(FilesWithout(rows, documentId), n)
  {
    var found := FindFileOfDocument(rows, documentId);
    if found.Some? {
      var i := found.value;
      var r := RemoveAt(rows, i);
      forall k | 0 <= k < |r| ensures |r[k].id| <= n {
        if k < i { assert r[k] == rows[k]; } else { assert r[k] == rows[k + 1]; }
      }
    }
  }

  /** The three deletions that follow the ownership check. */
  method RemoveDocumentData(db: Database, i: nat) returns (chunksDeleted: nat)
    requires db.Valid() && i < |db.documents|
    modifies db`documents, db`files, db`chunks
    ensures db.Valid()
    ensures var documentId := old(db.documents)[i].id;
      db.chunks == ChunksNotOfDocument(old(db.chunks), documentId)
      && chunksDeleted == |ChunksOfDocument(old(db.chunks), documentId)|
      && db.files == FilesWithout(old(db.files), documentId)
      && db.documents == RemoveAt(old(db.documents), i)
  {
    var documentId := db.documents[i].id;
    chunksDeleted := DeleteDocumentChunks(db, documentId);
    FilesWithoutValid(db.files, documentId, db.nextId);
    var file := FindFileOfDocument(db.files, documentId);
    if file.Some? {
      db.files := RemoveAt(db.files, file.value);
    }
    DocumentsRemoveAtValid(db.documents, i, db.nextId);
    db.documents := RemoveAt(db.documents, i);
  }

  /**
   * `DocumentService.delete_document`: an unknown document and a document owned by another
   * user are refused without any change; otherwise its chunks, its file record and the
   * document itself are deleted.
   */
  method DeleteDocument(db: Database, documentId: string, userId: string) returns (r: Result<bool>)
    requires db.Valid()
    modifies db`documents, db`files, db`chunks
    ensures db.Valid()
    ensures FindDocument(old(db.documents), documentId).None? ==>
              r == Err("Document " + documentId + " not found") && unchanged(db)
    ensures FindDocument(old(db.documents), documentId).Some? ==>
              var i := FindDocument(old(db.documents), documentId).value;
              if MayDelete(old(db.documents)[i], db.messages, db.chats, userId) then
                r == Ok(true)
                && db.documents == RemoveAt(old(db.documents), i)
                && db.chunks == ChunksNotOfDocument(old(db.chunks), documentId)
                && db.files == FilesWithout(old(db.files), documentId)
              else
                r == Err("Unauthorized to delete this document") && unchanged(db)
  {
    var found := FindDocument(db.documents, documentId);
    if found.None? {
      return Err("Document " + documentId + " not found");
    }
    var i := found.value;
    if !MayDelete(db.documents[i], db.messages, db.chats, userId) {
      return Err("Unauthorized to delete this document");
    }
    var _ := RemoveDocumentData(db, i);
    r := Ok(true);
  }

  predicate UniqueDocumentIds(documents: seq<Document>)
  {
    forall i, j :: 0 <= i < j < |documents| ==> documents[i].id != documents[j].id
  }

  /** A deleted document can no longer be found, and every other document is kept in order. */
  lemma {:induction false} DeletedDocumentGone(documents: seq<Document>, documentId: string)
    requires UniqueDocumentIds(documents) && FindDocument(documents, documentId).Some?
    ensures var i := FindDocument(documents, documentId).value;
      var rest := RemoveAt(documents, i);
      FindDocument(rest, documentId).None?
      && (forall k :: 0 <= k < i ==> rest[k] == documents[k])
      && (forall k :: i < k < |documents| ==> rest[k - 1] == documents[k])
  {
    var i := FindDocument(documents, documentId).value;
    var rest := RemoveAt(documents, i);
    forall k | 0 <= k < |rest| ensures rest[k].id != documentId {
      if k < i { assert rest[k] == documents[k]; } else { assert rest[k] == documents[k + 1]; }
    }
  }

  /**
   * With at most one file record per document (the one-to-one relation), the deleted
   * document has no file record left.
   */
  lemma {:induction false} DeletedFileGone(files: seq<FileRecord>, documentId: string)
    requires forall i, j :: 0 <= i < j < |files| ==> files[i].documentId != files[j].documentId
    ensures FindFileOfDocument(FilesWithout(files, documentId), documentId).None?
  {
    var found := FindFileOfDocument(files, documentId);
    if found.Some? {
      var f := found.value;
      var rest := RemoveAt(files, f);
      forall k | 0 <= k < |rest| ensures rest[k].documentId != documentId {
        if k < f { assert rest[k] == files[k]; } else { assert rest[k] == files[k + 1]; }
      }
    }
  }

  datatype KbDeletion =
    | NotFound(message: string)
    | Deleted(documentId: string, chunksDeleted: nat, message: string)

  /**
   * `DocumentService.delete_knowledge_base`: removes the first document with the
   * knowledge-base title together with its chunks and file record.
   */
  method DeleteKnowledgeBase(db: Database) returns (r: KbDeletion)
    requires db.Valid()
    modifies db`documents, db`files, db`chunks
    ensures db.Valid()
    ensures FindDocumentByTitle(old(db.documents), KnowledgeBaseTitle).None? ==>
              r == NotFound("Knowledge base does not exist") && unchanged(db)
    ensures FindDocumentByTitle(old(db.documents), KnowledgeBaseTitle).Some? ==>
              var i := FindDocumentByTitle(old(db.documents), KnowledgeBaseTitle).value;
              var documentId := old(db.documents)[i].id;
              r == Deleted(documentId, |ChunksOfDocument(old(db.chunks), documentId)|, "Knowledge base deleted successfully")
              && db.documents == RemoveAt(old(db.documents), i)
              && db.chunks == ChunksNotOfDocument(old(db.chunks), documentId)
              && db.files == FilesWithout(old(db.files), documentId)
  {
    var found := FindDocumentByTitle(db.documents, KnowledgeBaseTitle);
    if found.None? {
      return NotFound("Knowledge base does not exist");
    }
    var documentId := db.documents[found.value].id;
    var chunksDeleted := RemoveDocumentData(db, found.value);
    r := Deleted(documentId, chunksDeleted, "Knowledge base deleted successfully");
  }

  /** Deleting the knowledge base and then initializing it again starts from scratch. */
  lemma {:induction false} DeleteThenInitializeRebuilds(documents: seq<Document>)
    requires forall i, j :: 0 <= i < j < |documents| && documents[i].title == KnowledgeBaseTitle ==> documents[j].title != KnowledgeBaseTitle
    requires FindDocumentByTitle(documents, KnowledgeBaseTitle).Some?
    ensures FindDocumentByTitle(RemoveAt(documents, FindDocumentByTitle(documents, KnowledgeBaseTitle).value), KnowledgeBaseTitle).None?
  {
    var i := FindDocumentByTitle(documents, KnowledgeBaseTitle).value;
    var rest := RemoveAt(documents, i);
    forall k | 0 <= k < |rest| ensures rest[k].title != KnowledgeBaseTitle {
      if k < i { assert rest[k] == documents[k]; } else { assert rest[k] == documents[k + 1]; }
    }
  }
}
