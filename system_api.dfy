/**
 * The system endpoints (apps/server/api/system.py): initialising the knowledge base, the
 * readiness report, the health check of the components, and deleting the knowledge base.
 */
module SystemApi {
  import opened Text
  import opened Http
  import opened Store
  import opened DocumentProcessor
  import opened DocumentService
  import opened VectorStore

  // ---------------------------------------------------------------------------
  // Settings (apps/server/config/settings.py)
  // ---------------------------------------------------------------------------

  const EmbeddingModel: string := "sentence-transformers/paraphrase-multilingual-MiniLM-L12-v2"
  const ChunkSize: nat := 500
  const ChunkOverlap: nat := 50

  // ---------------------------------------------------------------------------
  // initialize_system
  // ---------------------------------------------------------------------------

  /** The `status` a knowledge-base initialisation reports. */
  function StatusCode(s: KbStatus): string
  {
    match s
    case AlreadyExists(_, _) => "already_exists"
    case Initialized(_, _, _, _) => "initialized"
  }

  /** `kb_result["status"] in ["initialized", "already_exists"] and stats["total_chunks"] > 0`. */
  predicate InitializationReady(status: string, totalChunks: nat)
  {
    status in ["initialized", "already_exists"] && totalChunks > 0
  }

  /** Every status the service reports passes the first test: readiness is having chunks. */
  lemma {:induction false} ReadyIffChunks(s: KbStatus, totalChunks: nat)
    ensures InitializationReady(StatusCode(s), totalChunks) <==> totalChunks > 0
  {
    var codes := ["initialized", "already_exists"];
    match s
    case AlreadyExists(_, _) => assert StatusCode(s) == codes[1];
    case Initialized(_, _, _, _) => assert StatusCode(s) == codes[0];
  }

  datatype InitializationResponse = InitializationResponse(
    message: string,
    knowledgeBaseStatus: KbStatus,
    vectorStoreStats: StoreStats,
    systemReady: bool)

  /** The answer of `initialize_system` to the service's result and the statistics afterwards. */
  function InitializationAnswer(kb: Result<KbStatus>, stats: StoreStats): Response<InitializationResponse>
  {
    match kb
    case Err(e) => Failure(HttpError(500, "System initialization failed: " + e))
    case Ok(status) =>
      Success(InitializationResponse("System initialization completed successfully", status, stats,
                                     InitializationReady(StatusCode(status), stats.totalChunks)))
  }

  /**
   * `initialize_system`: `kb` is what the service's initialisation returns and how it leaves
   * the tables; the answer is a 500 for its error, or its status with the store's statistics
   * afterwards and whether the system is ready, which is exactly whether the store holds any
   * chunk.
   */
  method InitializeSystem(db: Database, downloaded: Option<seq<Byte>>, ex: Extractors, embed: Embedder)
    returns (r: Response<InitializationResponse>, ghost kb: Result<KbStatus>)
    requires db.Valid()
    modifies db`documents, db`chunks, db`nextId
    ensures db.Valid()
    ensures KnowledgeBaseEffect(old(db.State()), db.State(), downloaded, ex, embed, kb)
    ensures r == InitializationAnswer(kb, GetVectorStoreStats(db))
    ensures r.Failure? ==>
              r.error.status == 500 && StartsWith(r.error.detail, "System initialization failed: ")
              && FindDocumentByTitle(old(db.documents), KnowledgeBaseTitle).None?
    ensures r.Success? ==> (r.value.systemReady <==> |db.chunks| > 0)
    ensures FindDocumentByTitle(old(db.documents), KnowledgeBaseTitle).Some? ==>
              r.Success? && r.value.knowledgeBaseStatus.AlreadyExists? && unchanged(db)
  {
    var result := InitializeKnowledgeBase(db, downloaded, ex, embed);
    kb := result;
    if result.Err? {
      return Failure(HttpError(500, "System initialization failed: " + result.error)), kb;
    }
    var stats := GetVectorStoreStats(db);
    var ready := InitializationReady(StatusCode(result.value), stats.totalChunks);
    ReadyIffChunks(result.value, stats.totalChunks);
    r := Success(InitializationResponse("System initialization completed successfully", result.value, stats, ready));
  }

  // ---------------------------------------------------------------------------
  // get_system_status
  // ---------------------------------------------------------------------------

  datatype ChunkSettings = ChunkSettings(chunkSize: nat, chunkOverlap: nat, topKChunks: nat)

  datatype SystemStatus = SystemStatus(
    systemReady: bool,
    vectorStoreStats: StoreStats,
    embeddingModel: string,
    chunkSettings: ChunkSettings)

  /**
   * `get_system_status`: ready exactly when the store holds a document and a chunk, with the
   * configured model and chunking settings.
   */
  function GetSystemStatus(db: Database): (s: SystemStatus)
    reads db
    ensures s.systemReady <==> |db.documents| > 0 && |db.chunks| > 0
    ensures s.vectorStoreStats == GetVectorStoreStats(db)
    ensures s.embeddingModel == EmbeddingModel && s.chunkSettings == ChunkSettings(500, 50, 5)
  {
    var stats := GetVectorStoreStats(db);
    SystemStatus(stats.totalDocuments > 0 && stats.totalChunks > 0, stats, EmbeddingModel,
                 ChunkSettings(ChunkSize, ChunkOverlap, TopKChunks))
  }

  /**
   * The two readiness flags: a store the status report calls ready is one an initialisation
   * would call ready, whatever the knowledge base's status; the converse holds only when
   * some document is stored.
   */
  lemma {:induction false} StatusReadyMeansInitializationReady(db: Database, s: KbStatus)
    ensures GetSystemStatus(db).systemReady ==> InitializationReady(StatusCode(s), |db.chunks|)
    ensures InitializationReady(StatusCode(s), |db.chunks|) && |db.documents| > 0 ==> GetSystemStatus(db).systemReady
  {
    ReadyIffChunks(s, |db.chunks|);
  }

  // ---------------------------------------------------------------------------
  // health_check
  // ---------------------------------------------------------------------------

  /**
   * What the probes of `health_check` observe: the database's `SELECT 1` (the error text
   * when it fails), the store statistics call, and the length of the embedding of "test".
   */
  datatype Probes = Probes(database: Option<string>, stats: Result<StoreStats>, embedding: Result<nat>)

  /** The `health_status` dictionary, its entries in insertion order. */
  datatype HealthStatus = HealthStatus(
    database: string,
    vectorStore: string,
    embeddingService: string,
    knowledgeBase: string,
    overall: string)

  /** The dictionary's items, as `health_status.items()` yields them. */
  function Items(h: HealthStatus): seq<(string, string)>
  {
    [("database", h.database), ("vector_store", h.vectorStore), ("embedding_service", h.embeddingService),
     ("knowledge_base", h.knowledgeBase), ("overall", h.overall)]
  }

  /** `"unhealthy" in str(v) or v == "unknown"`. */
  predicate Unhealthy(v: string)
  {
    Contains(v, "unhealthy") || v == "unknown"
  }

  /** The keys of the unhealthy entries, in order. */
  function UnhealthyComponents(items: seq<(string, string)>): (r: seq<string>)
    ensures |r| <= |items|
    ensures r == [] <==> forall i :: 0 <= i < |items| ==> !Unhealthy(items[i].1)
  {
    if items == [] then []
    else
      var rest := UnhealthyComponents(items[..|items| - 1]);
      var last := items[|items| - 1];
      rest + (if Unhealthy(last.1) then [last.0] else [])
  }

  /** The `overall` entry for a list of unhealthy components. */
  function OverallOf(unhealthy: seq<string>): string
  {
    if unhealthy == [] then "healthy" else "unhealthy: " + Join(", ", unhealthy)
  }

  /** The components' entries once every probe has run. */
  method ProbeComponents(probes: Probes) returns (h: HealthStatus)
    ensures h.overall == "unknown"
    ensures h.database == "healthy" <==> probes.database.None?
    ensures probes.database.Some? ==> h.database == "unhealthy: " + probes.database.value
    ensures probes.stats.Ok? ==>
              h.vectorStore == "healthy" && h.knowledgeBase == (if probes.stats.value.totalChunks > 0 then "healthy" else "no_data")
    ensures probes.stats.Err? ==> h.vectorStore == "unhealthy: " + probes.stats.error && h.knowledgeBase == "unavailable"
    ensures probes.embedding.Ok? ==> h.embeddingService == (if probes.embedding.value > 0 then "healthy" else "unhealthy")
    ensures probes.embedding.Err? ==> h.embeddingService == "unhealthy: " + probes.embedding.error
  {
    h := HealthStatus("unknown", "unknown", "unknown", "unknown", "unknown");
    match probes.database {
      case None => h := h.(database := "healthy");
      case Some(e) => h := h.(database := "unhealthy: " + e);
    }
    match probes.stats {
      case Ok(stats) =>
        h := h.(vectorStore := "healthy");
        h := h.(knowledgeBase := if stats.totalChunks > 0 then "healthy" else "no_data");
      case Err(e) =>
        h := h.(vectorStore := "unhealthy: " + e);
        h := h.(knowledgeBase := "unavailable");
    }
    match probes.embedding {
      case Ok(n) => h := h.(embeddingService := if n > 0 then "healthy" else "unhealthy");
      case Err(e) => h := h.(embeddingService := "unhealthy: " + e);
    }
  }

  /**
   * `health_check` as written: the scan for unhealthy entries includes `overall` itself,
   * still "unknown" at that point, so the overall verdict is never "healthy".
   */
  method HealthCheck(probes: Probes) returns (h: HealthStatus)
    ensures h.database == "healthy" <==> probes.database.None?
    ensures probes.stats.Ok? ==> h.knowledgeBase == (if probes.stats.value.totalChunks > 0 then "healthy" else "no_data")
    ensures probes.stats.Err? ==> h.knowledgeBase == "unavailable"
    ensures StartsWith(h.overall, "unhealthy: ") && h.overall != "healthy"
  {
    h := ProbeComponents(probes);
    var unhealthy := UnhealthyComponents(Items(h));
    assert Unhealthy(Items(h)[4].1);
    h := h.(overall := OverallOf(unhealthy));
    assert h.overall[..11] == "unhealthy: ";
  }

  /** Even with every probe succeeding, the as-written check reports only `overall` itself as unhealthy. */
  lemma {:induction false} AllHealthyStillUnhealthy(stats: StoreStats)
    ensures var h := HealthStatus("healthy", "healthy", "healthy", (if stats.totalChunks > 0 then "healthy" else "no_data"), "unknown");
      UnhealthyComponents(Items(h)) == ["overall"]
      && OverallOf(UnhealthyComponents(Items(h))) == "unhealthy: overall"
  {
    HealthyIsNotUnhealthy();
    NoDataIsNotUnhealthy();
    OnlyOverallUnhealthy(HealthStatus("healthy", "healthy", "healthy", (if stats.totalChunks > 0 then "healthy" else "no_data"), "unknown"));
  }

  /** With four healthy components the scan still flags the pending `overall` entry. */
  lemma {:induction false} OnlyOverallUnhealthy(h: HealthStatus)
    requires !Unhealthy(h.database) && !Unhealthy(h.vectorStore) && !Unhealthy(h.embeddingService) && !Unhealthy(h.knowledgeBase)
    requires h.overall == "unknown"
    ensures UnhealthyComponents(Items(h)) == ["overall"]
  {
    var items := Items(h);
    assert UnhealthyComponents(items[..4]) == [] by {
      forall i | 0 <= i < 4 ensures !Unhealthy(items[..4][i].1) {
      }
    }
    assert items[..5] == items;
  }

  /** The components' entries of a status, as the corrected scan reads them. */
  function ComponentItems(h: HealthStatus): seq<(string, string)>
  {
    Items(h)[..4]
  }

  /**
   * `health_check` as evidently intended: the scan covers the four components only, and the
   * verdict is "healthy" exactly when the database answers, the statistics call succeeds and
   * the embedding is non-empty (an empty knowledge base is not a fault).
   */
  method HealthCheckIntended(probes: Probes) returns (h: HealthStatus)
    ensures h.database == "healthy" <==> probes.database.None?
    ensures probes.stats.Ok? ==> h.knowledgeBase == (if probes.stats.value.totalChunks > 0 then "healthy" else "no_data")
    ensures probes.stats.Err? ==> h.knowledgeBase == "unavailable"
    ensures h.overall == "healthy" <==>
              probes.database.None? && probes.stats.Ok? && probes.embedding.Ok? && probes.embedding.value > 0
  {
    h := ProbeComponents(probes);
    ComponentsHealthy(h, probes);
    var unhealthy := UnhealthyComponents(ComponentItems(h));
    h := h.(overall := OverallOf(unhealthy));
    UnhealthyPrefixNotHealthy(Join(", ", unhealthy));
  }

  /** Which component entries the scan flags. */
  lemma {:induction false} ComponentsHealthy(h: HealthStatus, probes: Probes)
    requires h.database == "healthy" <==> probes.database.None?
    requires probes.database.Some? ==> h.database == "unhealthy: " + probes.database.value
    requires probes.stats.Ok? ==>
               h.vectorStore == "healthy" && h.knowledgeBase == (if probes.stats.value.totalChunks > 0 then "healthy" else "no_data")
    requires probes.stats.Err? ==> h.vectorStore == "unhealthy: " + probes.stats.error && h.knowledgeBase == "unavailable"
    requires probes.embedding.Ok? ==> h.embeddingService == (if probes.embedding.value > 0 then "healthy" else "unhealthy")
    requires probes.embedding.Err? ==> h.embeddingService == "unhealthy: " + probes.embedding.error
    ensures UnhealthyComponents(ComponentItems(h)) == [] <==>
              probes.database.None? && probes.stats.Ok? && probes.embedding.Ok? && probes.embedding.value > 0
  {
    HealthyIsNotUnhealthy();
    NoDataIsNotUnhealthy();
    UnavailableIsNotUnhealthy();
    ContainsPrefix("unhealthy", "");
    assert "unhealthy" + "" == "unhealthy";
    if probes.database.Some? { ContainsPrefix("unhealthy", ": " + probes.database.value); UnhealthyPrefix(probes.database.value); }
    if probes.stats.Err? { ContainsPrefix("unhealthy", ": " + probes.stats.error); UnhealthyPrefix(probes.stats.error); }
    if probes.embedding.Err? { ContainsPrefix("unhealthy", ": " + probes.embedding.error); UnhealthyPrefix(probes.embedding.error); }
    var items := ComponentItems(h);
    assert items[0].1 == h.database && items[1].1 == h.vectorStore && items[2].1 == h.embeddingService && items[3].1 == h.knowledgeBase;
  }

  lemma {:induction false} UnhealthyPrefix(e: string)
    ensures "unhealthy: " + e == "unhealthy" + (": " + e)
  {
  }

  lemma {:induction false} HealthyIsNotUnhealthy()
    ensures !Unhealthy("healthy")
  {
  }

  lemma {:induction false} NoDataIsNotUnhealthy()
    ensures !Unhealthy("no_data")
  {
  }

  lemma {:induction false} UnavailableIsNotUnhealthy()
    ensures !Unhealthy("unavailable")
  {
    assert "unhealthy"[2] == 'h';
    MissingCharNotContained("unavailable", "unhealthy", 2);
  }

  /** A verdict that starts "unhealthy: " is not "healthy". */
  lemma {:induction false} UnhealthyPrefixNotHealthy(rest: string)
    ensures "unhealthy: " + rest != "healthy"
  {
  }

  // ---------------------------------------------------------------------------
  // delete_knowledge_base
  // ---------------------------------------------------------------------------

  datatype DeleteKnowledgeBaseResponse = DeleteKnowledgeBaseResponse(
    message: string,
    status: string,
    documentId: string,
    chunksDeleted: nat)

  /**
   * `delete_knowledge_base` (the endpoint): 404 "Knowledge base not found" without any change
   * when there is none; otherwise the service's report with status "deleted", after the
   * knowledge-base document, its chunks and its file record are removed.
   */
  method DeleteKnowledgeBaseEndpoint(db: Database) returns (r: Response<DeleteKnowledgeBaseResponse>)
    requires db.Valid()
    modifies db`documents, db`files, db`chunks
    ensures db.Valid()
    ensures FindDocumentByTitle(old(db.documents), KnowledgeBaseTitle).None? ==>
              r == Failure(HttpError(404, "Knowledge base not found")) && unchanged(db)
    ensures FindDocumentByTitle(old(db.documents), KnowledgeBaseTitle).Some? ==>
              var i := FindDocumentByTitle(old(db.documents), KnowledgeBaseTitle).value;
              var documentId := old(db.documents)[i].id;
              r == Success(DeleteKnowledgeBaseResponse("Knowledge base deleted successfully", "deleted", documentId,
                                                       |ChunksOfDocument(old(db.chunks), documentId)|))
              && db.documents == RemoveAt(old(db.documents), i)
              && db.chunks == ChunksNotOfDocument(old(db.chunks), documentId)
              && db.files == FilesWithout(old(db.files), documentId)
  {
    var kb := DeleteKnowledgeBase(db);
    match kb {
      case NotFound(_) =>
        r := Failure(HttpError(404, "Knowledge base not found"));
      case Deleted(documentId, chunksDeleted, message) =>
        r := Success(DeleteKnowledgeBaseResponse(message, "deleted", documentId, chunksDeleted));
    }
  }
}
