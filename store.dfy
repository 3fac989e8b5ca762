/**
 * The persisted tables the server's services read and write through Prisma and Supabase
 * (Document, File, DocumentChunk, Chat, Message, QueryEvaluation), held in memory.
 * Rows are kept in creation order, except that a chat moves to the end when it is updated,
 * so that "ordered by updatedAt" is the table order. Generated ids (uuid, cuid) are minted
 * from a counter, and every stored id is shorter than the next one to be minted.
 */
module Store {
  import opened Text
  import DocumentProcessor

  datatype Document = Document(
    id: string,
    title: string,
    content: string,
    language: string,
    wordCount: nat,
    pageCount: nat,
    messageId: Option<string>)

  datatype FileRecord = FileRecord(
    id: string,
    url: string,
    fileType: string,
    fileName: string,
    fileSize: nat,
    documentId: string)

  datatype ChunkRow = ChunkRow(
    id: string,
    content: string,
    embedding: seq<real>,
    metadata: DocumentProcessor.ChunkMetadata,
    documentId: string,
    fileId: Option<string>,
    chunkIndex: nat,
    tokenCount: Option<nat>)

  /** The dictionary the query pipeline attaches to an answer (`rag_metadata`). */
  datatype RagMetadata = RagMetadata(
    approach: string,
    chunksUsed: nat,
    maxSimilarity: real,
    reason: Option<string>,
    language: string)

  /** One entry of a chat's short-term memory buffer. */
  datatype MemoryEntry = MemoryEntry(
    id: string,
    content: string,
    role: string,
    retrievedChunks: Option<string>,
    groundingScore: Option<real>,
    ragMetadata: Option<RagMetadata>,
    responseTime: Option<real>)

  /**
   * The JSON column `Chat.shortTermMemory`: null, a JSON text (represented by what parsing it
   * yields, `None` when it is not valid JSON), a JSON list, or a single JSON object.
   */
  datatype MemoryValue =
    | Null
    | JsonText(parsed: Option<seq<MemoryEntry>>)
    | JsonList(items: seq<MemoryEntry>)
    | JsonObject(entry: MemoryEntry)

  datatype Chat = Chat(id: string, name: string, userId: string, shortTermMemory: MemoryValue)

  datatype Message = Message(
    id: string,
    chatId: string,
    content: string,
    role: string,
    retrievedChunks: Option<string>,
    groundingScore: Option<real>,
    ragMetadata: Option<RagMetadata>,
    responseTime: Option<real>)

  datatype Evaluation = Evaluation(
    id: string,
    messageId: string,
    groundedness: Option<real>,
    relevance: Option<real>,
    userFeedback: Option<string>)

  /** The `n`-th generated id; ids of different counters differ in length. */
  function MintId(n: nat): (id: string)
    ensures |id| == n + 1
  {
    seq(n + 1, _ => '#')
  }

  lemma {:induction false} MintIdInjective(m: nat, n: nat)
    ensures MintId(m) == MintId(n) <==> m == n
  {
    if MintId(m) == MintId(n) {
      assert |MintId(m)| == |MintId(n)|;
    }
  }

  // Every id stored in a table is shorter than `n + 1`, the length of `MintId(n)`.

  predicate DocumentIdsBelow(rows: seq<Document>, n: nat) { forall i :: 0 <= i < |rows| ==> |rows[i].id| <= n }
  predicate FileIdsBelow(rows: seq<FileRecord>, n: nat) { forall i :: 0 <= i < |rows| ==> |rows[i].id| <= n }
  predicate ChunkIdsBelow(rows: seq<ChunkRow>, n: nat) { forall i :: 0 <= i < |rows| ==> |rows[i].id| <= n }
  predicate ChatIdsBelow(rows: seq<Chat>, n: nat) { forall i :: 0 <= i < |rows| ==> |rows[i].id| <= n }
  predicate MessageIdsBelow(rows: seq<Message>, n: nat) { forall i :: 0 <= i < |rows| ==> |rows[i].id| <= n }
  predicate EvaluationIdsBelow(rows: seq<Evaluation>, n: nat) { forall i :: 0 <= i < |rows| ==> |rows[i].id| <= n }

  // ---------------------------------------------------------------------------
  // Lookups (`find_unique` / `find_first`): the first matching row
  // ---------------------------------------------------------------------------

  function FindDocument(rows: seq<Document>, id: string): (r: Option<nat>)
    ensures r.None? ==> forall i :: 0 <= i < |rows| ==> rows[i].id != id
    ensures r.Some? ==> r.value < |rows| && rows[r.value].id == id
                        && forall i :: 0 <= i < r.value ==> rows[i].id != id
  {
    if rows == [] then None
    else if rows[0].id == id then Some(0)
    else match FindDocument(rows[1..], id)
         case None => None
         case Some(k) => Some(k + 1)
  }

  function FindDocumentByTitle(rows: seq<Document>, title: string): (r: Option<nat>)
    ensures r.None? ==> forall i :: 0 <= i < |rows| ==> rows[i].title != title
    ensures r.Some? ==> r.value < |rows| && rows[r.value].title == title
                        && forall i :: 0 <= i < r.value ==> rows[i].title != title
  {
    if rows == [] then None
    else if rows[0].title == title then Some(0)
    else match FindDocumentByTitle(rows[1..], title)
         case None => None
         case Some(k) => Some(k + 1)
  }

  /** The file record of a document (the one-to-one `Document.file` relation). */
  function FindFileOfDocument(rows: seq<FileRecord>, documentId: string): (r: Option<nat>)
    ensures r.None? ==> forall i :: 0 <= i < |rows| ==> rows[i].documentId != documentId
    ensures r.Some? ==> r.value < |rows| && rows[r.value].documentId == documentId
                        && forall i :: 0 <= i < r.value ==> rows[i].documentId != documentId
  {
    if rows == [] then None
    else if rows[0].documentId == documentId then Some(0)
    else match FindFileOfDocument(rows[1..], documentId)
         case None => None
         case Some(k) => Some(k + 1)
  }

  function FindFile(rows: seq<FileRecord>, id: string): (r: Option<nat>)
    ensures r.None? ==> forall i :: 0 <= i < |rows| ==> rows[i].id != id
    ensures r.Some? ==> r.value < |rows| && rows[r.value].id == id
  {
    if rows == [] then None
    else if rows[0].id == id then Some(0)
    else match FindFile(rows[1..], id)
         case None => None
         case Some(k) => Some(k + 1)
  }

  function FindChat(rows: seq<Chat>, id: string): (r: Option<nat>)
    ensures r.None? ==> forall i :: 0 <= i < |rows| ==> rows[i].id != id
    ensures r.Some? ==> r.value < |rows| && rows[r.value].id == id
  {
    if rows == [] then None
    else if rows[0].id == id then Some(0)
    else match FindChat(rows[1..], id)
         case None => None
         case Some(k) => Some(k + 1)
  }

  function FindMessage(rows: seq<Message>, id: string): (r: Option<nat>)
    ensures r.None? ==> forall i :: 0 <= i < |rows| ==> rows[i].id != id
    ensures r.Some? ==> r.value < |rows| && rows[r.value].id == id
  {
    if rows == [] then None
    else if rows[0].id == id then Some(0)
    else match FindMessage(rows[1..], id)
         case None => None
         case Some(k) => Some(k + 1)
  }

  function FindEvaluation(rows: seq<Evaluation>, messageId: string): (r: Option<nat>)
    ensures r.None? ==> forall i :: 0 <= i < |rows| ==> rows[i].messageId != messageId
    ensures r.Some? ==> r.value < |rows| && rows[r.value].messageId == messageId
  {
    if rows == [] then None
    else if rows[0].messageId == messageId then Some(0)
    else match FindEvaluation(rows[1..], messageId)
         case None => None
         case Some(k) => Some(k + 1)
  }

  /** The title of the document with id `documentId`, `None` when there is no such document. */
  function DocumentTitle(rows: seq<Document>, documentId: string): Option<string>
  {
    match FindDocument(rows, documentId)
    case None => None
    case Some(i) => Some(rows[i].title)
  }

  // ---------------------------------------------------------------------------
  // Filters over the tables, in table order
  // ---------------------------------------------------------------------------

  /** The chunks belonging to `documentId`. */
  function ChunksOfDocument(rows: seq<ChunkRow>, documentId: string): (r: seq<ChunkRow>)
    ensures |r| <= |rows|
    ensures forall i :: 0 <= i < |r| ==> r[i].documentId == documentId
  {
    if rows == [] then []
    else
      ChunksOfDocument(rows[..|rows| - 1], documentId)
      + (if rows[|rows| - 1].documentId == documentId then [rows[|rows| - 1]] else [])
  }

  /** The chunks of every other document. */
  function ChunksNotOfDocument(rows: seq<ChunkRow>, documentId: string): (r: seq<ChunkRow>)
    ensures |r| <= |rows|
    ensures forall i :: 0 <= i < |r| ==> r[i].documentId != documentId
  {
    if rows == [] then []
    else
      ChunksNotOfDocument(rows[..|rows| - 1], documentId)
      + (if rows[|rows| - 1].documentId != documentId then [rows[|rows| - 1]] else [])
  }

  /** Every chunk belongs to its document or to another one. */
  lemma {:induction false} ChunksSplitByDocument(rows: seq<ChunkRow>, documentId: string)
    ensures |ChunksOfDocument(rows, documentId)| + |ChunksNotOfDocument(rows, documentId)| == |rows|
  {
    if rows != [] {
      ChunksSplitByDocument(rows[..|rows| - 1], documentId);
    }
  }

  lemma {:induction false} ChunksNotOfDocumentKeepsIds(rows: seq<ChunkRow>, documentId: string, n: nat)
    requires ChunkIdsBelow(rows, n)
    ensures ChunkIdsBelow(ChunksNotOfDocument(rows, documentId), n)
  {
    if rows != [] {
      var init := rows[..|rows| - 1];
      assert ChunkIdsBelow(init, n) by {
        forall i | 0 <= i < |init| ensures |init[i].id| <= n {
          assert init[i] == rows[i];
        }
      }
      ChunksNotOfDocumentKeepsIds(init, documentId, n);
    }
  }

  /** The messages of chat `chatId`. */
  function MessagesOfChat(rows: seq<Message>, chatId: string): (r: seq<Message>)
    ensures |r| <= |rows|
    ensures forall i :: 0 <= i < |r| ==> r[i].chatId == chatId
  {
    if rows == [] then []
    else
      MessagesOfChat(rows[..|rows| - 1], chatId)
      + (if rows[|rows| - 1].chatId == chatId then [rows[|rows| - 1]] else [])
  }

  /** The messages of every other chat. */
  function MessagesNotOfChat(rows: seq<Message>, chatId: string): (r: seq<Message>)
    ensures |r| <= |rows|
    ensures forall i :: 0 <= i < |r| ==> r[i].chatId != chatId
  {
    if rows == [] then []
    else
      MessagesNotOfChat(rows[..|rows| - 1], chatId)
      + (if rows[|rows| - 1].chatId != chatId then [rows[|rows| - 1]] else [])
  }

  lemma {:induction false} MessagesNotOfChatKeepsIds(rows: seq<Message>, chatId: string, n: nat)
    requires MessageIdsBelow(rows, n)
    ensures MessageIdsBelow(MessagesNotOfChat(rows, chatId), n)
  {
    if rows != [] {
      var init := rows[..|rows| - 1];
      assert MessageIdsBelow(init, n) by {
        forall i | 0 <= i < |init| ensures |init[i].id| <= n {
          assert init[i] == rows[i];
        }
      }
      MessagesNotOfChatKeepsIds(init, chatId, n);
    }
  }

  /** The chats of user `userId`, least recently updated first. */
  function ChatsOfUser(rows: seq<Chat>, userId: string): (r: seq<Chat>)
    ensures |r| <= |rows|
    ensures forall i :: 0 <= i < |r| ==> r[i].userId == userId
  {
    if rows == [] then []
    else
      ChatsOfUser(rows[..|rows| - 1], userId)
      + (if rows[|rows| - 1].userId == userId then [rows[|rows| - 1]] else [])
  }

  /** `s` with the element at `i` removed. */
  function RemoveAt<T>(s: seq<T>, i: nat): (r: seq<T>)
    requires i < |s|
    ensures |r| == |s| - 1
  {
    s[..i] + s[i + 1..]
  }

  /** A row updated in place moves to the end of its table: it is now the most recently updated. */
  function Touch<T>(s: seq<T>, i: nat, row: T): (r: seq<T>)
    requires i < |s|
    ensures |r| == |s| && r[|s| - 1] == row
    ensures forall j :: 0 <= j < i ==> r[j] == s[j]
    ensures forall j :: i <= j < |s| - 1 ==> r[j] == s[j + 1]
  {
    RemoveAt(s, i) + [row]
  }

  /** The database the services share. */
  /** The contents of every table and the id counter, as one value. */
  datatype Tables = Tables(
    documents: seq<Document>,
    files: seq<FileRecord>,
    chunks: seq<ChunkRow>,
    chats: seq<Chat>,
    messages: seq<Message>,
    evaluations: seq<Evaluation>,
    nextId: nat)

  class Database {
    var documents: seq<Document>
    var files: seq<FileRecord>
    var chunks: seq<ChunkRow>
    var chats: seq<Chat>
    var messages: seq<Message>
    var evaluations: seq<Evaluation>
    var nextId: nat

    ghost predicate Valid()
      reads this
    {
      DocumentIdsBelow(documents, nextId) && FileIdsBelow(files, nextId) && ChunkIdsBelow(chunks, nextId)
      && ChatIdsBelow(chats, nextId) && MessageIdsBelow(messages, nextId)
      && EvaluationIdsBelow(evaluations, nextId)
    }

    /** The database's current contents. */
    function State(): Tables
      reads this
    {
      Tables(documents, files, chunks, chats, messages, evaluations, nextId)
    }

    constructor ()
      ensures Valid()
      ensures documents == [] && files == [] && chunks == [] && chats == [] && messages == []
      ensures evaluations == [] && nextId == 0
    {
      documents, files, chunks, chats, messages, evaluations := [], [], [], [], [], [];
      nextId := 0;
    }

    /** A new id, longer than every id stored so far. */
    method NewId() returns (id: string)
      requires Valid()
      modifies this`nextId
      ensures Valid()
      ensures id == MintId(old(nextId)) && nextId == old(nextId) + 1
    {
      id := MintId(nextId);
      nextId := nextId + 1;
    }
  }
}
