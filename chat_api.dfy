/**
 * The chat endpoints (apps/server/api/chat.py): sending a message (uploading its files and
 * creating the chat when none is given), listing a user's chats and a chat's messages with
 * their pagination flags, and deleting a chat.
 */
module ChatApi {
  import opened Text
  import opened Http
  import opened Store
  import opened DocumentProcessor
  import opened DocumentService
  import opened VectorStore
  import opened DocumentsApi
  import opened MemoryService
  import opened RagService

  // ---------------------------------------------------------------------------
  // send_message
  // ---------------------------------------------------------------------------

  /** The `message` part of the response. */
  datatype ChatMessage = ChatMessage(content: string, role: string, createdAt: string)

  /** The `rag_metadata` part of the response. */
  datatype ChatRagMetadata = ChatRagMetadata(
    approach: string,
    sourcesUsed: nat,
    confidence: real,
    language: string,
    responseTime: real,
    chunksRetrieved: nat)

  /** What `send_message` returns. */
  datatype ChatResponse = ChatResponse(message: ChatMessage, ragMetadata: ChatRagMetadata, chatId: string, createdNewChat: bool)

  /** The files of a message that have a name, in order; the others are skipped. */
  function Named(files: seq<UploadedFile>): (r: seq<UploadedFile>)
    ensures |r| <= |files|
  {
    if files == [] then []
    else
      var last := files[|files| - 1];
      Named(files[..|files| - 1]) + (if last.filename != "" then [last] else [])
  }

  /**
   * The documents at positions `at`, all at or past `base` and in increasing order, carry
   * the ids `ids` and are titled after the files `named`, one for one.
   */
  ghost predicate Placed(docs: seq<Document>, base: nat, named: seq<UploadedFile>, ids: seq<string>, at: seq<nat>)
  {
    |ids| == |named| && |at| == |ids|
    && (forall k :: 0 <= k < |at| ==>
          base <= at[k] < |docs| && docs[at[k]].id == ids[k] && docs[at[k]].title == BeforeLast(named[k].filename, '.'))
    && (forall k :: 0 <= k < |at| - 1 ==> at[k] < at[k + 1])
  }

  /** One more file of the message, unnamed or named. */
  lemma {:induction false} NamedStep(files: seq<UploadedFile>, i: nat)
    requires i < |files|
    ensures Named(files[..i + 1]) == Named(files[..i]) + (if files[i].filename != "" then [files[i]] else [])
  {
    assert files[..i + 1][..i] == files[..i];
  }

  /** Appending the document of one more named file keeps the earlier placements. */
  lemma {:induction false} PlacedExtend(before: seq<Document>, after: seq<Document>, base: nat, named: seq<UploadedFile>,
                                        ids: seq<string>, at: seq<nat>, file: UploadedFile)
    requires Placed(before, base, named, ids, at) && base <= |before|
    requires before <= after && |after| == |before| + 1 && after[|before|].title == BeforeLast(file.filename, '.')
    ensures Placed(after, base, named + [file], ids + [after[|before|].id], at + [|before|])
  {
    forall k | 0 <= k < |at| ensures after[at[k]] == before[at[k]] {
      assert before == after[..|before|];
    }
  }

  /**
   * The upload loop of `send_message`: every named file goes to the service, typed by its
   * lower-cased text after the last '.', without the size and extension checks of the upload
   * endpoint; the first failure ends the loop. On success the ids are those of the documents
   * created for the named files, in file order (`at[k]` is where the `k`-th one is stored).
   */
  method UploadChatFiles(db: Database, files: seq<UploadedFile>, userId: string, fileKeys: nat -> string,
                         storage: Storage, ex: Extractors, embed: Embedder)
    returns (r: Result<seq<string>>, ghost at: seq<nat>)
    requires db.Valid()
    modifies db`documents, db`files, db`chunks, db`nextId
    ensures db.Valid()
    ensures old(db.documents) <= db.documents
    ensures r.Ok? ==> Placed(db.documents, |old(db.documents)|, Named(files), r.value, at)
  {
    var ids: seq<string> := [];
    at := [];
    var i := 0;
    while i < |files|
      invariant 0 <= i <= |files|
      invariant db.Valid()
      invariant old(db.documents) <= db.documents
      invariant Placed(db.documents, |old(db.documents)|, Named(files[..i]), ids, at)
    {
      var file := files[i];
      NamedStep(files, i);
      if file.filename != "" {
        ghost var before := db.documents;
        ghost var state := db.State();
        var result := UploadDocument(db, file.content, file.filename, FileType(file.filename), userId, fileKeys(i), storage, ex, embed);
        UploadEffectAppends(state, db.State(), file.content, file.filename, FileType(file.filename), userId, fileKeys(i), storage, ex, embed, result);
        if result.Err? {
          return Err(result.error), at;
        }
        PlacedExtend(before, db.documents, |old(db.documents)|, Named(files[..i]), ids, at, file);
        at := at + [|before|];
        ids := ids + [result.value.documentId];
      }
      i := i + 1;
    }
    assert files[..|files|] == files;
    r := Ok(ids);
  }

  /**
   * `send_message`, after the user's profile is ensured. A failed upload answers 500 and no
   * chat is created. Otherwise a chat titled from `content` is created exactly when no chat
   * id is given, and the answer (generated for a chat, which always takes the error path of
   * `generate_answer`) is the apology in the question's language.
   */
  method SendMessage(db: Database, content: string, chatId: Option<string>, files: seq<UploadedFile>, userId: string,
                     fileKeys: nat -> string, storage: Storage, ex: Extractors, embed: Embedder, env: RagEnv, elapsed: real)
    returns (r: Response<ChatResponse>, ghost documentIds: Option<seq<string>>, ghost at: seq<nat>)
    requires db.Valid()
    modifies db`documents, db`files, db`chunks, db`chats, db`nextId
    ensures db.Valid()
    ensures old(db.documents) <= db.documents
    ensures r.Failure? ==>
              files != [] && r.error.status == 500 && StartsWith(r.error.detail, "Error processing message: ")
              && db.chats == old(db.chats)
    ensures r.Success? ==>
              (documentIds.Some? <==> files != [])
              && (documentIds.Some? ==> Placed(db.documents, |old(db.documents)|, Named(files), documentIds.value, at))
    ensures r.Success? ==>
              (r.value.createdNewChat <==> !TruthyText(chatId))
              && (r.value.createdNewChat ==>
                    db.nextId >= 1 && r.value.chatId == MintId(db.nextId - 1)
                    && db.chats == old(db.chats) + [Chat(r.value.chatId, ChatTitle(content), userId, Null)])
              && (!r.value.createdNewChat ==> r.value.chatId == chatId.value && db.chats == old(db.chats))
              && r.value.message == ChatMessage(ErrorResponse(content), "ai", "now")
              && r.value.ragMetadata == ChatRagMetadata("error_fallback", 0, 0.1, DetectQueryLanguage(content).Code(), elapsed, 0)
  {
    var ids: Option<seq<string>> := None;
    at := [];
    if files != [] {
      var uploaded;
      uploaded, at := UploadChatFiles(db, files, userId, fileKeys, storage, ex, embed);
      if uploaded.Err? {
        return Failure(HttpError(500, "Error processing message: " + uploaded.error)), None, at;
      }
      ids := Some(uploaded.value);
    }
    documentIds := ids;
    var id, created := OpenChat(db, chatId, userId, content);
    var message, metadata := ChatAnswer(db, content, id, ids, env, elapsed);
    r := Success(ChatResponse(message, metadata, id, created));
  }

  /** The chat a message goes to: the given one, or a new chat titled from the message when none is given. */
  method OpenChat(db: Database, chatId: Option<string>, userId: string, content: string) returns (id: string, created: bool)
    requires db.Valid()
    modifies db`chats, db`nextId
    ensures db.Valid() && id != ""
    ensures created <==> !TruthyText(chatId)
    ensures created ==> id == MintId(old(db.nextId)) && db.nextId == old(db.nextId) + 1
                        && db.chats == old(db.chats) + [Chat(id, ChatTitle(content), userId, Null)]
    ensures !created ==> id == chatId.value && unchanged(db)
  {
    if !TruthyText(chatId) {
      var session := CreateChatSession(db, userId, content);
      return session.id, true;
    }
    return chatId.value, false;
  }

  /**
   * The reply to a message of a chat, from the answer of `generate_answer`: always the
   * apology of its error path, in the question's language.
   */
  method ChatAnswer(db: Database, content: string, id: string, documentIds: Option<seq<string>>, env: RagEnv, elapsed: real)
    returns (message: ChatMessage, metadata: ChatRagMetadata)
    requires id != ""
    ensures message == ChatMessage(ErrorResponse(content), "ai", "now")
    ensures metadata == ChatRagMetadata("error_fallback", 0, 0.1, DetectQueryLanguage(content).Code(), elapsed, 0)
  {
    var answer := GenerateAnswer(db, content, Some(id), documentIds, env, elapsed);
    ChatQuestionsGetErrorAnswer(db.chats, db.messages, db.chunks, db.documents, db.files, content, Some(id), documentIds, env, elapsed);
    message := ChatMessage(answer.answer, "ai", "now");
    metadata := ChatRagMetadata(answer.approach.Code(), |answer.sources|, answer.confidence, answer.language.Code(),
                                answer.responseTime, answer.chunksRetrieved);
  }

  // ---------------------------------------------------------------------------
  // Pagination
  // ---------------------------------------------------------------------------

  /** The `pagination` part of a listing. */
  datatype Pagination = Pagination(total: nat, limit: nat, offset: nat, hasMore: bool)

  datatype ChatsPage = ChatsPage(chats: seq<ChatSummary>, pagination: Pagination)

  datatype MessagesPage = MessagesPage(messages: seq<Message>, pagination: Pagination)

  /** `get_user_chats` counts the user's chats by listing at most this many. */
  const CountingLimit: nat := 1000

  /** The default `limit` of `MemoryService.get_user_chats`. */
  const DefaultChatsLimit: nat := 20

  function Min(a: nat, b: nat): nat { if a < b then a else b }

  /** The length of the page that skips `offset` of `n` items and keeps at most `limit`. */
  function WindowLength(n: nat, limit: nat, offset: nat): nat
  {
    if offset < n then Min(limit, n - offset) else 0
  }

  /**
   * For such a page, `offset + len(page) < total` holds exactly when `offset + limit < total`,
   * as long as `total` counts no more than the `n` items.
   */
  lemma {:induction false} HasMoreIff(n: nat, total: nat, limit: nat, offset: nat)
    requires total <= n
    ensures offset + WindowLength(n, limit, offset) < total <==> offset + limit < total
  {
  }

  lemma {:induction false} UserChatsLength(chats: seq<Chat>, userId: string, limit: nat, offset: nat)
    ensures |GetUserChats(chats, userId, limit, offset)| == WindowLength(|ChatsOfUser(chats, userId)|, limit, offset)
  {
  }

  /**
   * `get_user_chats` (the endpoint): the page of chats, with the total counted over at most
   * 1000 chats; so `hasMore` says whether `offset + limit` is short of that capped total.
   */
  function UserChatsEndpoint(chats: seq<Chat>, userId: string, limit: nat, offset: nat): (p: ChatsPage)
    ensures p.chats == GetUserChats(chats, userId, limit, offset)
    ensures p.pagination.total == Min(|ChatsOfUser(chats, userId)|, CountingLimit)
    ensures p.pagination.hasMore <==> offset + limit < p.pagination.total
  {
    var page := GetUserChats(chats, userId, limit, offset);
    var total := |GetUserChats(chats, userId, CountingLimit, 0)|;
    UserChatsLength(chats, userId, limit, offset);
    UserChatsLength(chats, userId, CountingLimit, 0);
    HasMoreIff(|ChatsOfUser(chats, userId)|, total, limit, offset);
    ChatsPage(page, Pagination(total, limit, offset, offset + |page| < total))
  }

  /** Python `any(chat["id"] == chat_id for chat in chats)`. */
  predicate Listed(summaries: seq<ChatSummary>, chatId: string)
  {
    exists i :: 0 <= i < |summaries| && summaries[i].id == chatId
  }

  /**
   * `get_chat_messages` (the endpoint): 404 unless the chat is listed by `get_user_chats`
   * with its default limit; otherwise the history page, with `hasMore` exactly when
   * `offset + limit` is short of the chat's message count.
   */
  function ChatMessagesEndpoint(chats: seq<Chat>, messages: seq<Message>, userId: string, chatId: string,
                                limit: nat, offset: nat): (r: Response<MessagesPage>)
    ensures r.Failure? <==> !Listed(GetUserChats(chats, userId, DefaultChatsLimit, 0), chatId)
    ensures r.Failure? ==> r.error == HttpError(404, "Chat not found")
    ensures r.Success? ==>
              r.value.messages == GetChatHistory(messages, chatId, limit, offset).messages
              && r.value.pagination.total == |MessagesOfChat(messages, chatId)|
              && (r.value.pagination.hasMore <==> offset + limit < r.value.pagination.total)
  {
    if !Listed(GetUserChats(chats, userId, DefaultChatsLimit, 0), chatId) then
      Failure(HttpError(404, "Chat not found"))
    else
      var result := GetChatHistory(messages, chatId, limit, offset);
      var own := MessagesOfChat(messages, chatId);
      HistoryPageIsSlice(own, limit, offset);
      HasMoreIff(|own|, |own|, limit, offset);
      Success(MessagesPage(result.messages,
                           Pagination(result.count, limit, offset, offset + |result.messages| < result.count)))
  }

  /** The user's chats among the 20 most recently updated: positions from |own| - 20 on. */
  predicate Recent(own: seq<Chat>, chatId: string)
  {
    exists p :: |own| - DefaultChatsLimit <= p < |own| && 0 <= p && own[p].id == chatId
  }

  lemma {:induction false} ListedIsRecent(chats: seq<Chat>, userId: string, chatId: string)
    requires Listed(GetUserChats(chats, userId, DefaultChatsLimit, 0), chatId)
    ensures Recent(ChatsOfUser(chats, userId), chatId)
  {
    var own := ChatsOfUser(chats, userId);
    var listing := GetUserChats(chats, userId, DefaultChatsLimit, 0);
    var i :| 0 <= i < |listing| && listing[i].id == chatId;
    UserChatsNewestFirst(chats, userId, DefaultChatsLimit, 0, i);
    var p := |own| - 1 - i;
    assert own[p].id == chatId;
  }

  lemma {:induction false} RecentIsListed(chats: seq<Chat>, userId: string, chatId: string)
    requires Recent(ChatsOfUser(chats, userId), chatId)
    ensures Listed(GetUserChats(chats, userId, DefaultChatsLimit, 0), chatId)
  {
    var own := ChatsOfUser(chats, userId);
    var listing := GetUserChats(chats, userId, DefaultChatsLimit, 0);
    var p :| |own| - DefaultChatsLimit <= p < |own| && 0 <= p && own[p].id == chatId;
    var i := |own| - 1 - p;
    UserChatsLength(chats, userId, DefaultChatsLimit, 0);
    assert i < DefaultChatsLimit && i < |own|;
    assert i < |listing|;
    UserChatsNewestFirst(chats, userId, DefaultChatsLimit, 0, i);
    assert listing[i].id == chatId;
  }

  /**
   * The ownership check of `get_chat_messages` admits exactly the user's 20 most recently
   * updated chats: an older chat of the user is reported as not found.
   */
  lemma {:induction false} ListedIffRecent(chats: seq<Chat>, userId: string, chatId: string)
    ensures Listed(GetUserChats(chats, userId, DefaultChatsLimit, 0), chatId) <==> Recent(ChatsOfUser(chats, userId), chatId)
  {
    if Listed(GetUserChats(chats, userId, DefaultChatsLimit, 0), chatId) {
      ListedIsRecent(chats, userId, chatId);
    }
    if Recent(ChatsOfUser(chats, userId), chatId) {
      RecentIsListed(chats, userId, chatId);
    }
  }

  // ---------------------------------------------------------------------------
  // delete_chat
  // ---------------------------------------------------------------------------

  /** The chat exists and its `userId` is the caller's. */
  predicate OwnsChat(chats: seq<Chat>, chatId: string, userId: string)
  {
    FindChat(chats, chatId).Some? && chats[FindChat(chats, chatId).value].userId == userId
  }

  lemma {:induction false} ChatsRemoveAtValid(rows: seq<Chat>, i: nat, n: nat)
    requires i < |rows| && ChatIdsBelow(rows, n)
    ensures ChatIdsBelow(RemoveAt(rows, i), n)
  {
    var r := RemoveAt(rows, i);
    forall k | 0 <= k < |r| ensures |r[k].id| <= n {
      if k < i { assert r[k] == rows[k]; } else { assert r[k] == rows[k + 1]; }
    }
  }

  /**
   * `delete_chat`: 404 "Chat not found" without any change unless the caller owns the chat;
   * otherwise the chat is deleted together with its messages (the cascade).
   */
  method DeleteChat(db: Database, chatId: string, userId: string) returns (r: Response<string>)
    requires db.Valid()
    modifies db`chats, db`messages
    ensures db.Valid()
    ensures !OwnsChat(old(db.chats), chatId, userId) ==> r == Failure(HttpError(404, "Chat not found")) && unchanged(db)
    ensures OwnsChat(old(db.chats), chatId, userId) ==>
              r == Success("Chat deleted successfully")
              && db.chats == RemoveAt(old(db.chats), FindChat(old(db.chats), chatId).value)
              && db.messages == MessagesNotOfChat(old(db.messages), chatId)
  {
    var found := FindChat(db.chats, chatId);
    if found.None? || db.chats[found.value].userId != userId {
      return Failure(HttpError(404, "Chat not found"));
    }
    ChatsRemoveAtValid(db.chats, found.value, db.nextId);
    MessagesNotOfChatKeepsIds(db.messages, chatId, db.nextId);
    db.chats := RemoveAt(db.chats, found.value);
    db.messages := MessagesNotOfChat(db.messages, chatId);
    r := Success("Chat deleted successfully");
  }

  /** With unique chat ids the deleted chat can no longer be found, and the others keep their order. */
  lemma {:induction false} DeletedChatGone(chats: seq<Chat>, chatId: string)
    requires UniqueChatIds(chats) && FindChat(chats, chatId).Some?
    ensures var i := FindChat(chats, chatId).value;
      var rest := RemoveAt(chats, i);
      FindChat(rest, chatId).None?
      && (forall k :: 0 <= k < i ==> rest[k] == chats[k])
      && (forall k :: i < k < |chats| ==> rest[k - 1] == chats[k])
  {
    var i := FindChat(chats, chatId).value;
    var rest := RemoveAt(chats, i);
    forall k | 0 <= k < |rest| ensures rest[k].id != chatId {
      if k < i { assert rest[k] == chats[k]; } else { assert rest[k] == chats[k + 1]; }
    }
  }

  /** The cascade removes every message of the deleted chat and keeps every other chat's messages, in order. */
  lemma {:induction false} CascadeRemovesOnlyChat(messages: seq<Message>, chatId: string, other: string)
    requires other != chatId
    ensures MessagesOfChat(MessagesNotOfChat(messages, chatId), chatId) == []
    ensures MessagesOfChat(MessagesNotOfChat(messages, chatId), other) == MessagesOfChat(messages, other)
  {
    if messages != [] {
      var init := messages[..|messages| - 1];
      var last := messages[|messages| - 1];
      CascadeRemovesOnlyChat(init, chatId, other);
      var kept := MessagesNotOfChat(init, chatId);
      if last.chatId != chatId {
        assert MessagesNotOfChat(messages, chatId) == kept + [last];
        assert (kept + [last])[..|kept|] == kept;
      } else {
        assert MessagesNotOfChat(messages, chatId) == kept;
      }
    }
  }
}
