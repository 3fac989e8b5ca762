/**
 * The document endpoints (apps/server/api/documents.py): the checks an upload passes before
 * any processing, the batch upload that records every file as a success or an error, and
 * the mapping of the service's errors to status codes for the details and delete endpoints.
 * A missing file name and an empty one are both falsy in Python; both are the empty string here.
 */
module DocumentsApi {
  import opened Text
  import opened Http
  import opened Store
  import opened DocumentProcessor
  import opened DocumentService

  /** `settings.MAX_UPLOAD_SIZE`: 10 MB. */
  const MaxUploadSize: nat := 10 * 1024 * 1024

  /** `settings.ALLOWED_EXTENSIONS`. */
  const AllowedExtensions: seq<string> := [".txt", ".jpg", ".jpeg", ".png", ".pdf"]

  /** The allowed extensions without their dot. */
  const AllowedTypes: seq<string> := ["txt", "jpg", "jpeg", "png", "pdf"]

  /** The largest batch `batch_upload_documents` accepts. */
  const MaxBatchFiles: nat := 10

  // ---------------------------------------------------------------------------
  // Extensions and the upload checks
  // ---------------------------------------------------------------------------

  /**
   * `filename.split('.')[-1].lower()`: the file type the service is given. It is the
   * lower-cased text after the last '.', or the whole lower-cased name when there is none.
   */
  function FileType(filename: string): (t: string)
    ensures |t| <= |filename| && t == Lower(filename[|filename| - |t|..])
    ensures forall i :: 0 <= i < |t| ==> t[i] != '.' && !('A' <= t[i] <= 'Z')
    ensures |t| < |filename| ==> filename[|filename| - |t| - 1] == '.'
  {
    Lower(AfterLast(filename, '.'))
  }

  /** `f".{file.filename.split('.')[-1].lower()}"`: the extension checked against the allowed list. */
  function FileExtension(filename: string): string
  {
    "." + FileType(filename)
  }

  /** Why an upload is refused before processing. */
  datatype Rejection = NoFilename | TooLarge | UnsupportedType

  /** The checks both upload endpoints make, in their order: name, size, extension. */
  function CheckUpload(filename: string, size: nat): Option<Rejection>
  {
    if filename == "" then Some(NoFilename)
    else if size > MaxUploadSize then Some(TooLarge)
    else if FileExtension(filename) !in AllowedExtensions then Some(UnsupportedType)
    else None
  }

  /** The `HTTPException` of the single upload for each refusal. */
  function RejectionError(rejection: Rejection): HttpError
  {
    match rejection
    case NoFilename => HttpError(400, "No file provided")
    case TooLarge => HttpError(413, "File too large")
    case UnsupportedType => HttpError(400, "File type not supported")
  }

  /** The error text the batch records for each refusal. */
  function RejectionMessage(rejection: Rejection): string
  {
    match rejection
    case NoFilename => "No filename provided"
    case TooLarge => "File too large"
    case UnsupportedType => "File type not supported"
  }

  /**
   * An upload passes the checks exactly when it has a name, is at most 10 MB (a file of
   * exactly `MaxUploadSize` bytes passes) and its file type is one of the five allowed.
   * A larger named file is refused as too large whatever its type.
   */
  lemma {:induction false} UploadAcceptedIff(filename: string, size: nat)
    ensures CheckUpload(filename, size).None? <==>
              filename != "" && size <= MaxUploadSize && FileType(filename) in AllowedTypes
    ensures filename != "" && size > MaxUploadSize ==> CheckUpload(filename, size) == Some(TooLarge)
  {
    ExtensionAllowedIff(FileType(filename));
  }

  /** A dotted extension is allowed exactly when the type after the dot is. */
  lemma {:induction false} ExtensionAllowedIff(t: string)
    ensures "." + t in AllowedExtensions <==> t in AllowedTypes
  {
    assert ("." + t)[1..] == t;
    forall j | 0 <= j < |AllowedTypes| ensures AllowedExtensions[j] == "." + AllowedTypes[j] {
    }
    forall j | 0 <= j < |AllowedTypes| ensures AllowedExtensions[j][1..] == AllowedTypes[j] {
    }
  }

  /** Letter case does not matter: "a.PDF" is a pdf, accepted at exactly 10 MB and refused one byte above. */
  lemma {:induction false} UpperCasePdfAccepted()
    ensures FileType("a.PDF") == "pdf"
    ensures CheckUpload("a.PDF", MaxUploadSize) == None
    ensures CheckUpload("a.PDF", MaxUploadSize + 1) == Some(TooLarge)
  {
    DotAtOne("a.PDF");
    assert AfterLast("a.PDF", '.') == "PDF";
    assert Lower("PDF") == "pdf";
    assert FileExtension("a.PDF") == ".pdf" == AllowedExtensions[4];
  }

  /** A name without '.' is its own extension: a file called "pdf" passes as a pdf. */
  lemma {:induction false} BareNameIsExtension()
    ensures FileType("pdf") == "pdf"
    ensures CheckUpload("pdf", 1) == None
  {
    assert "pd"[..1] == "p" && "pdf"[..2] == "pd";
    assert LastIndexOf("pdf", '.') == None;
    assert Lower("pdf") == "pdf";
    assert FileExtension("pdf") == ".pdf" == AllowedExtensions[4];
  }

  /** Only the part after the last '.' counts: "a.gz" is refused. */
  lemma {:induction false} OtherExtensionRefused()
    ensures CheckUpload("a.gz", 1) == Some(UnsupportedType)
  {
    DotAtOne("a.gz");
    assert AfterLast("a.gz", '.') == "gz";
    assert Lower("gz") == "gz";
  }

  lemma {:induction false} DotAtOne(s: string)
    requires 2 <= |s| && s[1] == '.' && forall i :: 2 <= i < |s| ==> s[i] != '.'
    ensures LastIndexOf(s, '.') == Some(1)
  {
    if |s| > 2 {
      DotAtOne(s[..|s| - 1]);
    } else {
      assert s[..1][..0] == [];
    }
  }

  /** Lower-casing keeps every '.' where it was. */
  lemma {:induction false} LastDotOfLower(s: string)
    ensures LastIndexOf(Lower(s), '.') == LastIndexOf(s, '.')
  {
    if s != [] {
      var init := s[..|s| - 1];
      assert Lower(s)[..|s| - 1] == Lower(init);
      LastDotOfLower(init);
    }
  }

  /** Two names that differ only in letter case pass or fail the checks alike. */
  lemma {:induction false} CheckIgnoresCase(f1: string, f2: string, size: nat)
    requires Lower(f1) == Lower(f2)
    ensures FileType(f1) == FileType(f2)
    ensures CheckUpload(f1, size) == CheckUpload(f2, size)
  {
    FileTypeOfLower(f1);
    FileTypeOfLower(f2);
  }

  lemma {:induction false} FileTypeOfLower(f: string)
    ensures FileType(Lower(f)) == FileType(f)
  {
    AfterLastOfLower(f);
    var a := AfterLast(f, '.');
    LowerTwice(a);
    assert FileType(Lower(f)) == Lower(Lower(a));
  }

  /** The text after the last '.' of a lower-cased name is the lower-cased text after it. */
  lemma {:induction false} AfterLastOfLower(f: string)
    ensures AfterLast(Lower(f), '.') == Lower(AfterLast(f, '.'))
  {
    LastDotOfLower(f);
    var low := Lower(f);
    match LastIndexOf(f, '.')
    case None =>
    case Some(i) =>
      assert low[i + 1..] == Lower(f[i + 1..]);
  }

  lemma {:induction false} LowerTwice(s: string)
    ensures Lower(Lower(s)) == Lower(s)
  {
    var once := Lower(s);
    assert forall i :: 0 <= i < |s| ==> LowerChar(once[i]) == once[i];
  }

  // ---------------------------------------------------------------------------
  // The upload endpoint
  // ---------------------------------------------------------------------------

  /** What the upload endpoint returns: the service's result without the file id. */
  datatype DocumentResponse = DocumentResponse(
    documentId: string,
    filename: string,
    language: string,
    chunkCount: nat,
    wordCount: nat,
    pageCount: nat,
    fileUrl: string)

  /** The endpoint's answer to the service's result: a success without the file id, an error as a 500. */
  function UploadResponse(result: Result<UploadResult>): Response<DocumentResponse>
  {
    match result
    case Err(e) => Failure(HttpError(500, "Error processing document: " + e))
    case Ok(u) => Success(DocumentResponse(u.documentId, u.filename, u.language, u.chunkCount, u.wordCount, u.pageCount, u.fileUrl))
  }

  /**
   * `upload_document` (the endpoint): a refused file answers its status before anything is
   * stored; otherwise the service runs with the file's type, `service` is what it returns,
   * and the answer is `service` as the endpoint reports it.
   */
  method UploadDocumentEndpoint(db: Database, filename: string, content: seq<Byte>, userId: string,
                                fileKey: string, storage: Storage, ex: Extractors, embed: Embedder)
    returns (r: Response<DocumentResponse>, ghost service: Result<UploadResult>)
    requires db.Valid()
    modifies db`documents, db`files, db`chunks, db`nextId
    ensures db.Valid()
    ensures CheckUpload(filename, |content|).Some? ==>
              r == Failure(RejectionError(CheckUpload(filename, |content|).value)) && unchanged(db)
    ensures CheckUpload(filename, |content|).None? ==>
              UploadEffect(old(db.State()), db.State(), content, filename, FileType(filename), userId, fileKey, storage, ex, embed, service)
              && r == UploadResponse(service)
  {
    service := Err("");
    var rejection := CheckUpload(filename, |content|);
    if rejection.Some? {
      return Failure(RejectionError(rejection.value)), service;
    }
    var result := UploadDocument(db, content, filename, FileType(filename), userId, fileKey, storage, ex, embed);
    service := result;
    match result {
      case Err(e) =>
        r := Failure(HttpError(500, "Error processing document: " + e));
      case Ok(u) =>
        r := Success(DocumentResponse(u.documentId, u.filename, u.language, u.chunkCount, u.wordCount, u.pageCount, u.fileUrl));
    }
  }

  /**
   * What the endpoint's answer says about the tables: a success reports the document
   * appended under the next id and titled by the name without its extension, with its file
   * record typed by the name; a 500 carries the service's error text.
   */
  lemma {:induction false} UploadResponseMeans(before: Tables, after: Tables, filename: string, content: seq<Byte>, userId: string,
                                               fileKey: string, storage: Storage, ex: Extractors, embed: Embedder,
                                               service: Result<UploadResult>)
    requires UploadEffect(before, after, content, filename, FileType(filename), userId, fileKey, storage, ex, embed, service)
    ensures var r := UploadResponse(service);
      (r.Failure? ==> service.Err? && r.error == HttpError(500, "Error processing document: " + service.error))
      && (r.Success? ==>
            r.value.documentId == MintId(before.nextId) && r.value.filename == filename
            && |after.documents| == |before.documents| + 1
            && after.documents[|before.documents|].id == r.value.documentId
            && after.documents[|before.documents|].title == BeforeLast(filename, '.')
            && after.files == before.files + [FileRecord(MintId(before.nextId + 1), r.value.fileUrl, FileType(filename), filename, |content|, r.value.documentId)])
  {
    UploadEffectAppends(before, after, content, filename, FileType(filename), userId, fileKey, storage, ex, embed, service);
  }

  // ---------------------------------------------------------------------------
  // Batch upload
  // ---------------------------------------------------------------------------

  /** An uploaded file: its name ("" when it has none) and its bytes. */
  datatype UploadedFile = UploadedFile(filename: string, content: seq<Byte>)

  /** An entry of `results` (its `status` is always "success"). */
  datatype BatchEntry = BatchEntry(filename: string, documentId: string, language: string, chunkCount: nat)

  /** An entry of `errors`. */
  datatype BatchError = BatchError(filename: string, error: string)

  /** Where one file of the batch ended up. */
  datatype BatchOutcome = Uploaded(entry: BatchEntry) | Failed(failure: BatchError)

  /** What `batch_upload_documents` returns. */
  datatype BatchReport = BatchReport(successfulUploads: nat, failedUploads: nat, results: seq<BatchEntry>, errors: seq<BatchError>)

  /** The entries of the successful files, in file order. */
  function Successes(outcomes: seq<BatchOutcome>): seq<BatchEntry>
  {
    if outcomes == [] then []
    else
      var last := outcomes[|outcomes| - 1];
      Successes(outcomes[..|outcomes| - 1]) + (if last.Uploaded? then [last.entry] else [])
  }

  /** The entries of the failed files, in file order. */
  function Failures(outcomes: seq<BatchOutcome>): seq<BatchError>
  {
    if outcomes == [] then []
    else
      var last := outcomes[|outcomes| - 1];
      Failures(outcomes[..|outcomes| - 1]) + (if last.Failed? then [last.failure] else [])
  }

  /** Every file lands in exactly one of the two lists. */
  lemma {:induction false} EveryFileCountedOnce(outcomes: seq<BatchOutcome>)
    ensures |Successes(outcomes)| + |Failures(outcomes)| == |outcomes|
  {
    if outcomes != [] {
      EveryFileCountedOnce(outcomes[..|outcomes| - 1]);
    }
  }

  /** Both lists keep file order: the outcomes of a later run of files follow those of an earlier one. */
  lemma {:induction false} PartitionKeepsOrder(a: seq<BatchOutcome>, b: seq<BatchOutcome>)
    ensures Successes(a + b) == Successes(a) + Successes(b)
    ensures Failures(a + b) == Failures(a) + Failures(b)
  {
    if b != [] {
      var init := b[..|b| - 1];
      assert (a + b)[..|a + b| - 1] == a + init;
      PartitionKeepsOrder(a, init);
    } else {
      assert a + b == a;
    }
  }

  /**
   * What a file's outcome says about it: a refused file is an error with the refusal's
   * text (and "unknown" for a file without a name); any other file is recorded under its name.
   */
  predicate OutcomeFits(file: UploadedFile, o: BatchOutcome)
  {
    match CheckUpload(file.filename, |file.content|)
    case Some(rejection) =>
      o == Failed(BatchError(if file.filename == "" then "unknown" else file.filename, RejectionMessage(rejection)))
    case None =>
      (o.Uploaded? && o.entry.filename == file.filename) || (o.Failed? && o.failure.filename == file.filename)
  }

  /** The outcomes of the first files, each fitting its file. */
  predicate AllFit(files: seq<UploadedFile>, outcomes: seq<BatchOutcome>)
  {
    |outcomes| <= |files|
    && (outcomes == [] || (AllFit(files, outcomes[..|outcomes| - 1]) && OutcomeFits(files[|outcomes| - 1], outcomes[|outcomes| - 1])))
  }

  /** Each outcome fits the file at its own position. */
  lemma {:induction false} AllFitAt(files: seq<UploadedFile>, outcomes: seq<BatchOutcome>, i: nat)
    requires AllFit(files, outcomes) && i < |outcomes|
    ensures OutcomeFits(files[i], outcomes[i])
    decreases |outcomes|
  {
    if i < |outcomes| - 1 {
      var init := outcomes[..|outcomes| - 1];
      AllFitAt(files, init, i);
      assert init[i] == outcomes[i];
    }
  }

  /** The outcome of the next file extends both lists and the fitting prefix. */
  lemma {:induction false} BatchStep(files: seq<UploadedFile>, outcomes: seq<BatchOutcome>, o: BatchOutcome)
    requires AllFit(files, outcomes) && |outcomes| < |files| && OutcomeFits(files[|outcomes|], o)
    ensures AllFit(files, outcomes + [o])
    ensures Successes(outcomes + [o]) == Successes(outcomes) + (if o.Uploaded? then [o.entry] else [])
    ensures Failures(outcomes + [o]) == Failures(outcomes) + (if o.Failed? then [o.failure] else [])
  {
    assert (outcomes + [o])[..|outcomes|] == outcomes;
    PartitionStep(outcomes, o);
  }

  lemma {:induction false} PartitionStep(outcomes: seq<BatchOutcome>, o: BatchOutcome)
    ensures Successes(outcomes + [o]) == Successes(outcomes) + (if o.Uploaded? then [o.entry] else [])
    ensures Failures(outcomes + [o]) == Failures(outcomes) + (if o.Failed? then [o.failure] else [])
  {
    var next := outcomes + [o];
    assert next[..|outcomes|] == outcomes;
  }

  /** The entry of an accepted file for the service's result: a success entry, or an error entry with its text. */
  function ServiceOutcome(filename: string, result: Result<UploadResult>): BatchOutcome
  {
    match result
    case Ok(u) => Uploaded(BatchEntry(u.filename, u.documentId, u.language, u.chunkCount))
    case Err(e) => Failed(BatchError(filename, e))
  }

  /**
   * One iteration of the batch loop. A refused file stores nothing; for an accepted one,
   * `service` is what the service returns and how it leaves the tables, and the entry is
   * made from it.
   */
  method UploadOne(db: Database, file: UploadedFile, userId: string, fileKey: string, storage: Storage,
                   ex: Extractors, embed: Embedder)
    returns (o: BatchOutcome, ghost service: Result<UploadResult>)
    requires db.Valid()
    modifies db`documents, db`files, db`chunks, db`nextId
    ensures db.Valid()
    ensures OutcomeFits(file, o)
    ensures CheckUpload(file.filename, |file.content|).Some? ==> unchanged(db)
    ensures CheckUpload(file.filename, |file.content|).None? ==>
              UploadEffect(old(db.State()), db.State(), file.content, file.filename, FileType(file.filename), userId, fileKey,
                           storage, ex, embed, service)
              && o == ServiceOutcome(file.filename, service)
    ensures o.Uploaded? ==> o.entry.documentId == MintId(old(db.nextId))
  {
    service := Err("");
    var rejection := CheckUpload(file.filename, |file.content|);
    if rejection.Some? {
      var name := if file.filename == "" then "unknown" else file.filename;
      return Failed(BatchError(name, RejectionMessage(rejection.value))), service;
    }
    ghost var before := db.State();
    var result := UploadDocument(db, file.content, file.filename, FileType(file.filename), userId, fileKey, storage, ex, embed);
    UploadEffectAppends(before, db.State(), file.content, file.filename, FileType(file.filename), userId, fileKey, storage, ex, embed, result);
    service := result;
    match result {
      case Ok(u) => o := Uploaded(BatchEntry(u.filename, u.documentId, u.language, u.chunkCount));
      case Err(e) => o := Failed(BatchError(file.filename, e));
    }
  }

  /**
   * `batch_upload_documents`. More than ten files are refused before any is touched;
   * otherwise every file is processed in order and lands in exactly one of `results` and
   * `errors`, a failing file not stopping the loop. `fileKeys(i)` is the random storage key
   * drawn for the `i`-th file.
   */
  method BatchUpload(db: Database, files: seq<UploadedFile>, userId: string, fileKeys: nat -> string,
                     storage: Storage, ex: Extractors, embed: Embedder)
    returns (r: Response<BatchReport>, ghost outcomes: seq<BatchOutcome>)
    requires db.Valid()
    modifies db`documents, db`files, db`chunks, db`nextId
    ensures db.Valid()
    ensures |files| > MaxBatchFiles ==> r == Failure(HttpError(400, "Maximum 10 files per batch")) && unchanged(db)
    ensures |files| <= MaxBatchFiles ==>
              r.Success? && |outcomes| == |files|
              && r.value.results == Successes(outcomes) && r.value.errors == Failures(outcomes)
              && r.value.successfulUploads == |r.value.results| && r.value.failedUploads == |r.value.errors|
              && r.value.successfulUploads + r.value.failedUploads == |files|
              && AllFit(files, outcomes)
  {
    outcomes := [];
    if |files| > MaxBatchFiles {
      return Failure(HttpError(400, "Maximum 10 files per batch")), outcomes;
    }
    var results: seq<BatchEntry> := [];
    var errors: seq<BatchError> := [];
    var i := 0;
    while i < |files|
      invariant 0 <= i <= |files|
      invariant db.Valid()
      invariant |outcomes| == i
      invariant results == Successes(outcomes) && errors == Failures(outcomes)
      invariant AllFit(files, outcomes)
    {
      var o;
      ghost var service;
      o, service := UploadOne(db, files[i], userId, fileKeys(i), storage, ex, embed);
      BatchStep(files, outcomes, o);
      outcomes := outcomes + [o];
      match o {
        case Uploaded(entry) => results := results + [entry];
        case Failed(failure) => errors := errors + [failure];
      }
      i := i + 1;
    }
    EveryFileCountedOnce(outcomes);
    r := Success(BatchReport(|results|, |errors|, results, errors));
  }

  // ---------------------------------------------------------------------------
  // Details and deletion: mapping the service's errors
  // ---------------------------------------------------------------------------

  /** Python `phrase in str(e).lower()`. */
  predicate Mentions(error: string, phrase: string)
  {
    Contains(Lower(error), phrase)
  }

  /** The service's not-found error mentions "not found", whatever the document id. */
  lemma {:induction false} NotFoundErrorMentioned(documentId: string)
    ensures Mentions("Document " + documentId + " not found", "not found")
  {
    var head := "Document " + documentId;
    var s := head + " not found";
    var n := |s|;
    var low := Lower(s);
    forall k | 0 <= k < 9 ensures low[n - 9 + k] == "not found"[k] {
      assert s[n - 9 + k] == " not found"[k + 1];
    }
    assert low[n - 9..n] == "not found";
    assert OccursAt(low, "not found", n - 9);
  }

  const UnauthorizedError: string := "Unauthorized to delete this document"

  /** The service's ownership error mentions "unauthorized" and not "not found". */
  lemma {:induction false} UnauthorizedErrorMentioned()
    ensures Mentions(UnauthorizedError, "unauthorized")
    ensures !Mentions(UnauthorizedError, "not found")
  {
    UnauthorizedPrefix();
    assert OccursAt(Lower(UnauthorizedError), "unauthorized", 0);
    UnauthorizedHasNoF();
    MissingCharNotContained(Lower(UnauthorizedError), "not found", 4);
  }

  lemma {:induction false} UnauthorizedPrefix()
    ensures Lower(UnauthorizedError)[..12] == "unauthorized"
  {
    assert UnauthorizedError[..12] == "Unauthorized";
    LowerPrefix(UnauthorizedError, 12);
    LowerUnauthorized();
  }

  lemma {:induction false} LowerUnauthorized()
    ensures Lower("Unauthorized") == "unauthorized"
  {
    var low := Lower("Unauthorized");
    forall k | 0 <= k < 12 ensures low[k] == "unauthorized"[k] {
    }
  }

  /** Lower-casing commutes with taking a prefix. */
  lemma {:induction false} LowerPrefix(s: string, n: nat)
    requires n <= |s|
    ensures Lower(s)[..n] == Lower(s[..n])
  {
  }

  /** The ownership error has no 'f' in any letter case. */
  lemma {:induction false} UnauthorizedHasNoF()
    ensures forall i :: 0 <= i < |UnauthorizedError| ==> Lower(UnauthorizedError)[i] != 'f'
  {
    forall i | 0 <= i < |UnauthorizedError| ensures UnauthorizedError[i] != 'f' && UnauthorizedError[i] != 'F' {
    }
  }

  /**
   * `get_document_details` (the endpoint): the document's details, or 404 "Document not
   * found" for an unknown document (the service's error mentions "not found").
   */
  function DocumentDetailsEndpoint(db: Database, documentId: string): (r: Response<DocumentDetails>)
    reads db
    ensures r.Failure? <==> FindDocument(db.documents, documentId).None?
    ensures r.Failure? ==> r.error == HttpError(404, "Document not found")
    ensures r.Success? ==> GetDocumentDetails(db, documentId) == Ok(r.value)
  {
    match GetDocumentDetails(db, documentId)
    case Ok(details) => Success(details)
    case Err(e) =>
      NotFoundErrorMentioned(documentId);
      Failure(DetailsError(e))
  }

  /** The `except` of `get_document_details`. */
  function DetailsError(e: string): HttpError
  {
    if Mentions(e, "not found") then HttpError(404, "Document not found")
    else HttpError(500, "Error fetching document details")
  }

  /** The `except` of `delete_document`: "not found" is tested before "unauthorized". */
  function DeleteError(e: string): HttpError
  {
    if Mentions(e, "not found") then HttpError(404, "Document not found")
    else if Mentions(e, "unauthorized") then HttpError(403, "Not authorized to delete this document")
    else HttpError(500, "Error deleting document")
  }

  /**
   * `delete_document` (the endpoint): 404 for an unknown document, 403 for another user's
   * document, both without any change; otherwise the service's deletion and a message.
   */
  method DeleteDocumentEndpoint(db: Database, documentId: string, userId: string) returns (r: Response<string>)
    requires db.Valid()
    modifies db`documents, db`files, db`chunks
    ensures db.Valid()
    ensures FindDocument(old(db.documents), documentId).None? ==>
              r == Failure(HttpError(404, "Document not found")) && unchanged(db)
    ensures FindDocument(old(db.documents), documentId).Some? ==>
              var i := FindDocument(old(db.documents), documentId).value;
              if MayDelete(old(db.documents)[i], db.messages, db.chats, userId) then
                r == Success("Document deleted successfully")
                && db.documents == RemoveAt(old(db.documents), i)
                && db.chunks == ChunksNotOfDocument(old(db.chunks), documentId)
                && db.files == FilesWithout(old(db.files), documentId)
              else
                r == Failure(HttpError(403, "Not authorized to delete this document")) && unchanged(db)
  {
    var result := DeleteDocument(db, documentId, userId);
    match result {
      case Ok(success) =>
        if success {
          r := Success("Document deleted successfully");
        } else {
          r := Failure(HttpError(500, "Failed to delete document"));
        }
      case Err(e) =>
        NotFoundErrorMentioned(documentId);
        UnauthorizedErrorMentioned();
        r := Failure(DeleteError(e));
    }
  }
}
