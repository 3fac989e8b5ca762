/**
 * Conversational memory (apps/server/services/memory_service.py): the short-term buffer kept
 * in `Chat.shortTermMemory`, the paged long-term history of a chat's messages, chat creation
 * with a title derived from the first query, and storing a message.
 */
module MemoryService {
  import opened Text
  import opened Store

  /** `self.max_short_term_messages`. */
  const MaxShortTermMessages: nat := 10

  // ---------------------------------------------------------------------------
  // Short-term memory
  // ---------------------------------------------------------------------------

  /** What `get_short_term_memory` makes of a stored value. */
  function ParseMemory(v: MemoryValue): seq<MemoryEntry>
  {
    match v
    case Null => []
    case JsonText(parsed) => if parsed.Some? then parsed.value else []
    case JsonList(items) => items
    case JsonObject(entry) => [entry]
  }

  /** `MemoryService.get_short_term_memory`: `[]` for a missing chat, an empty value or text that is not JSON. */
  function GetShortTermMemory(chats: seq<Chat>, chatId: string): (r: seq<MemoryEntry>)
    ensures FindChat(chats, chatId).None? ==> r == []
  {
    match FindChat(chats, chatId)
    case None => []
    case Some(i) => ParseMemory(chats[i].shortTermMemory)
  }

  /** The stored value cases of `get_short_term_memory`. */
  lemma {:induction false} ShortTermMemoryCases(chats: seq<Chat>, chatId: string, i: nat)
    requires FindChat(chats, chatId) == Some(i)
    ensures chats[i].shortTermMemory.Null? ==> GetShortTermMemory(chats, chatId) == []
    ensures chats[i].shortTermMemory == JsonText(None) ==> GetShortTermMemory(chats, chatId) == []
    ensures chats[i].shortTermMemory.JsonObject? ==>
              GetShortTermMemory(chats, chatId) == [chats[i].shortTermMemory.entry]
    ensures chats[i].shortTermMemory.JsonList? ==>
              GetShortTermMemory(chats, chatId) == chats[i].shortTermMemory.items
  {
  }

  /** The buffer after `message` is appended and only the newest ten are kept. */
  function Remember(buffer: seq<MemoryEntry>, message: MemoryEntry): (r: seq<MemoryEntry>)
    ensures |r| == if |buffer| + 1 > MaxShortTermMessages then MaxShortTermMessages else |buffer| + 1
    ensures r[|r| - 1] == message
    ensures r == (buffer + [message])[|buffer| + 1 - |r|..]
  {
    var current := buffer + [message];
    var keep := if |current| > MaxShortTermMessages then MaxShortTermMessages else |current|;
    current[|current| - keep..]
  }

  /** Below capacity nothing is evicted; at capacity exactly the oldest entries go, the rest keep their order. */
  lemma {:induction false} RememberEvictsOldest(buffer: seq<MemoryEntry>, message: MemoryEntry)
    ensures |buffer| < MaxShortTermMessages ==> Remember(buffer, message) == buffer + [message]
    ensures |buffer| >= MaxShortTermMessages ==>
              Remember(buffer, message) == buffer[|buffer| - (MaxShortTermMessages - 1)..] + [message]
  {
    var current := buffer + [message];
    if |buffer| >= MaxShortTermMessages {
      assert current[|current| - MaxShortTermMessages..] == buffer[|buffer| - (MaxShortTermMessages - 1)..] + [message];
    }
  }

  /** The buffer after remembering each of `messages` in turn. */
  function RememberAll(buffer: seq<MemoryEntry>, messages: seq<MemoryEntry>): seq<MemoryEntry>
  {
    if messages == [] then buffer
    else Remember(RememberAll(buffer, messages[..|messages| - 1]), messages[|messages| - 1])
  }

  /** One update moves the window of the newest ten entries by one. */
  lemma {:induction false} WindowStep(seen: seq<MemoryEntry>, m: MemoryEntry)
    ensures Remember(LastN(seen, MaxShortTermMessages), m) == LastN(seen + [m], MaxShortTermMessages)
  {
    var w := LastN(seen, MaxShortTermMessages);
    if |seen| >= MaxShortTermMessages {
      assert w + [m] == (seen + [m])[|seen| - MaxShortTermMessages..];
      assert (w + [m])[1..] == (seen + [m])[|seen| + 1 - MaxShortTermMessages..];
    }
  }

  /** The buffer is a sliding window: after any number of updates it holds the newest ten entries seen. */
  lemma {:induction false} RememberAllIsWindow(buffer: seq<MemoryEntry>, messages: seq<MemoryEntry>)
    requires |buffer| <= MaxShortTermMessages
    ensures RememberAll(buffer, messages) == LastN(buffer + messages, MaxShortTermMessages)
  {
    if messages == [] {
      assert buffer + messages == buffer;
    } else {
      var init := messages[..|messages| - 1];
      var m := messages[|messages| - 1];
      RememberAllIsWindow(buffer, init);
      assert buffer + messages == (buffer + init) + [m];
      WindowStep(buffer + init, m);
    }
  }

  /** The chats table after `update_short_term_memory(chat_id, message)`; a missing chat is left alone. */
  function RememberInChat(chats: seq<Chat>, chatId: string, message: MemoryEntry): seq<Chat>
  {
    match FindChat(chats, chatId)
    case None => chats
    case Some(i) =>
      Touch(chats, i, chats[i].(shortTermMemory := JsonText(Some(Remember(GetShortTermMemory(chats, chatId), message)))))
  }

  predicate UniqueChatIds(chats: seq<Chat>)
  {
    forall i, j :: 0 <= i < j < |chats| ==> chats[i].id != chats[j].id
  }

  /** Reading the buffer back after an update gives the remembered buffer. */
  lemma {:induction false} UpdateThenGet(chats: seq<Chat>, chatId: string, message: MemoryEntry)
    requires UniqueChatIds(chats) && FindChat(chats, chatId).Some?
    ensures GetShortTermMemory(RememberInChat(chats, chatId, message), chatId)
            == Remember(GetShortTermMemory(chats, chatId), message)
  {
    var i := FindChat(chats, chatId).value;
    var updated := RememberInChat(chats, chatId, message);
    var n := |chats| - 1;
    forall j | 0 <= j < n ensures updated[j].id != chatId {
      if j < i {
        assert updated[j] == chats[j];
      } else {
        assert updated[j] == chats[j + 1];
      }
    }
    FindChatAt(updated, chatId, n);
  }

  /** The first row carrying `id` is the one found. */
  lemma {:induction false} FindChatAt(rows: seq<Chat>, id: string, k: nat)
    requires k < |rows| && rows[k].id == id
    requires forall j :: 0 <= j < k ==> rows[j].id != id
    ensures FindChat(rows, id) == Some(k)
  {
    if k > 0 {
      var tail := rows[1..];
      forall j | 0 <= j < k - 1 ensures tail[j].id != id {
        assert tail[j] == rows[j + 1];
      }
      FindChatAt(tail, id, k - 1);
    }
  }

  lemma {:induction false} TouchKeepsChatIds(chats: seq<Chat>, i: nat, row: Chat, n: nat)
    requires i < |chats| && ChatIdsBelow(chats, n) && |row.id| <= n
    ensures ChatIdsBelow(Touch(chats, i, row), n)
  {
    var r := Touch(chats, i, row);
    forall j | 0 <= j < |r| ensures |r[j].id| <= n {
      if j < i {
        assert r[j] == chats[j];
      } else if j < |chats| - 1 {
        assert r[j] == chats[j + 1];
      }
    }
  }

  /**
   * `MemoryService.update_short_term_memory`: appends, keeps the newest ten and writes the
   * buffer back as JSON text, which moves the chat to the most recently updated place. For a
   * missing chat the client's `update` finds no record and returns `None` without raising, so
   * nothing is written and the buffer `[message]` still comes back.
   */
  method UpdateShortTermMemory(db: Database, chatId: string, message: MemoryEntry) returns (r: seq<MemoryEntry>)
    requires db.Valid()
    modifies db`chats
    ensures db.Valid()
    ensures db.chats == RememberInChat(old(db.chats), chatId, message)
    ensures r == Remember(GetShortTermMemory(old(db.chats), chatId), message)
    ensures FindChat(old(db.chats), chatId).None? ==> r == [message] && db.chats == old(db.chats)
  {
    var currentMemory := GetShortTermMemory(db.chats, chatId);
    currentMemory := currentMemory + [message];
    if |currentMemory| > MaxShortTermMessages {
      currentMemory := currentMemory[|currentMemory| - MaxShortTermMessages..];
    }
    var found := FindChat(db.chats, chatId);
    if found.Some? {
      var i := found.value;
      var chat := db.chats[i].(shortTermMemory := JsonText(Some(currentMemory)));
      TouchKeepsChatIds(db.chats, i, chat, db.nextId);
      db.chats := Touch(db.chats, i, chat);
    }
    r := currentMemory;
  }

  // ---------------------------------------------------------------------------
  // Chat sessions and titles
  // ---------------------------------------------------------------------------

  /** `" ".join(query.strip().split())`. */
  function CleanedQuery(query: string): string
  {
    Join(" ", Words(Strip(query)))
  }

  /** The title before the 50-character limit: the first six words and "..." for a longer query. */
  function TitleCandidate(query: string): string
  {
    var cleaned := CleanedQuery(query);
    var words := Words(cleaned);
    if |words| > 6 then Join(" ", words[..6]) + "..." else cleaned
  }

  /** `MemoryService._generate_chat_title`: never longer than 50 characters. */
  function ChatTitle(query: string): (title: string)
    ensures |title| <= 50
  {
    var candidate := TitleCandidate(query);
    if |candidate| > 50 then candidate[..47] + "..." else candidate
  }

  /** The candidate is the query's own words, single-spaced: all of them, or the first six and "...". */
  lemma {:induction false} TitleCandidateWords(query: string)
    ensures |Words(query)| > 6 ==> TitleCandidate(query) == Join(" ", Words(query)[..6]) + "..."
    ensures |Words(query)| <= 6 ==> TitleCandidate(query) == Join(" ", Words(query))
  {
    var ws := Words(query);
    WordsOfStrip(query);
    assert CleanedQuery(query) == Join(" ", ws);
    WordsAreWords(query);
    WordsOfJoin(ws);
    assert Words(CleanedQuery(query)) == ws;
  }

  /** A candidate over 50 characters becomes its first 47 and "..."; a shorter one is kept. */
  lemma {:induction false} ChatTitleTruncates(query: string)
    ensures |TitleCandidate(query)| > 50 ==>
              |ChatTitle(query)| == 50 && ChatTitle(query) == TitleCandidate(query)[..47] + "..."
    ensures |TitleCandidate(query)| <= 50 ==> ChatTitle(query) == TitleCandidate(query)
  {
  }

  /** What `create_chat_session` returns. */
  datatype ChatSession = ChatSession(id: string, name: string, userId: string)

  /** `MemoryService.create_chat_session`. */
  method CreateChatSession(db: Database, userId: string, firstQuery: string) returns (session: ChatSession)
    requires db.Valid()
    modifies db`chats, db`nextId
    ensures db.Valid()
    ensures session == ChatSession(MintId(old(db.nextId)), ChatTitle(firstQuery), userId)
    ensures db.chats == old(db.chats) + [Chat(session.id, session.name, userId, Null)]
    ensures db.nextId == old(db.nextId) + 1
  {
    var title := ChatTitle(firstQuery);
    var id := db.NewId();
    db.chats := db.chats + [Chat(id, title, userId, Null)];
    session := ChatSession(id, title, userId);
  }

  // ---------------------------------------------------------------------------
  // Long-term history and the user's chats
  // ---------------------------------------------------------------------------

  /** What `get_chat_history` returns: the page of messages and the chat's message count. */
  datatype History = History(messages: seq<Message>, count: nat)

  /** Newest first, skip `offset`, take `limit`, then reverse back to oldest first. */
  function HistoryPage(messages: seq<Message>, limit: nat, offset: nat): seq<Message>
  {
    Reverse(Take(Drop(Reverse(messages), offset), limit))
  }

  /** The page is the contiguous run of `limit` messages ending `offset` messages before the newest. */
  lemma {:induction false} HistoryPageIsSlice(messages: seq<Message>, limit: nat, offset: nat)
    ensures var hi := if offset < |messages| then |messages| - offset else 0;
      var lo := if limit < hi then hi - limit else 0;
      HistoryPage(messages, limit, offset) == messages[lo..hi]
  {
    ReversedWindow(messages, limit, offset);
  }

  /** `MemoryService.get_chat_history`. */
  function GetChatHistory(messages: seq<Message>, chatId: string, limit: nat, offset: nat): (h: History)
    ensures h.count == |MessagesOfChat(messages, chatId)| && |h.messages| <= limit
  {
    var own := MessagesOfChat(messages, chatId);
    HistoryPageIsSlice(own, limit, offset);
    History(HistoryPage(own, limit, offset), |own|)
  }

  /** A chat as `get_user_chats` lists it. */
  datatype ChatSummary = ChatSummary(id: string, name: string)

  /** `MemoryService.get_user_chats`: most recently updated first, skip `offset`, take `limit`. */
  function GetUserChats(chats: seq<Chat>, userId: string, limit: nat, offset: nat): (r: seq<ChatSummary>)
    ensures |r| <= limit
  {
    var page := Take(Drop(Reverse(ChatsOfUser(chats, userId)), offset), limit);
    seq(|page|, i requires 0 <= i < |page| => ChatSummary(page[i].id, page[i].name))
  }

  /** The `i`-th chat listed is the user's chat `offset + i` places from the most recently updated one. */
  lemma {:induction false} UserChatsNewestFirst(chats: seq<Chat>, userId: string, limit: nat, offset: nat, i: nat)
    requires i < |GetUserChats(chats, userId, limit, offset)|
    ensures var own := ChatsOfUser(chats, userId);
      offset + i < |own|
      && GetUserChats(chats, userId, limit, offset)[i] == ChatSummary(own[|own| - 1 - offset - i].id, own[|own| - 1 - offset - i].name)
  {
    var own := ChatsOfUser(chats, userId);
    var rev := Reverse(own);
    var dropped := Drop(rev, offset);
    var page := Take(dropped, limit);
    assert i < |page|;
    assert dropped == rev[offset..];
    assert page[i] == dropped[i] == rev[offset + i];
  }

  // ---------------------------------------------------------------------------
  // store_message
  // ---------------------------------------------------------------------------

  /** The row `store_message` creates: the retrieved chunks only when non-empty, the other optional fields when given. */
  function NewMessage(id: string, chatId: string, content: string, role: string, retrievedChunks: Option<string>,
                      groundingScore: Option<real>, ragMetadata: Option<RagMetadata>, responseTime: Option<real>): (m: Message)
    ensures m.retrievedChunks.Some? <==> retrievedChunks.Some? && retrievedChunks.value != ""
    ensures m.retrievedChunks.Some? ==> m.retrievedChunks == retrievedChunks
    ensures m.groundingScore == groundingScore && m.ragMetadata == ragMetadata && m.responseTime == responseTime
    ensures m.id == id && m.chatId == chatId && m.content == content && m.role == role
  {
    Message(id, chatId, content, role,
            if retrievedChunks.Some? && retrievedChunks.value != "" then retrievedChunks else None,
            groundingScore, ragMetadata, responseTime)
  }

  /**
   * The documents table after linking `ids` to message `messageId` one by one. The client's
   * `update` returns `None` for a missing document without raising, so an unknown id is skipped.
   */
  function LinkDocuments(documents: seq<Document>, ids: seq<string>, messageId: string): seq<Document>
    decreases |ids|
  {
    if ids == [] then documents
    else match FindDocument(documents, ids[0])
         case None => LinkDocuments(documents, ids[1..], messageId)
         case Some(i) => LinkDocuments(documents[i := documents[i].(messageId := Some(messageId))], ids[1..], messageId)
  }

  /** Linking only sets `messageId`: the other fields of every document, and their order, stay. */
  lemma {:induction false} LinkDocumentsKeepsRows(documents: seq<Document>, ids: seq<string>, messageId: string)
    ensures var linked := LinkDocuments(documents, ids, messageId);
      |linked| == |documents|
      && forall i :: 0 <= i < |documents| ==> linked[i] == documents[i].(messageId := linked[i].messageId)
    decreases |ids|
  {
    if ids != [] {
      match FindDocument(documents, ids[0])
      case None =>
        LinkDocumentsKeepsRows(documents, ids[1..], messageId);
      case Some(i) =>
        LinkDocumentsKeepsRows(documents[i := documents[i].(messageId := Some(messageId))], ids[1..], messageId);
    }
  }

  /** Every listed document that exists is linked to the message, whatever other ids are missing. */
  lemma {:induction false} LinkDocumentsLinks(documents: seq<Document>, ids: seq<string>, messageId: string, k: nat)
    requires k < |ids| && FindDocument(documents, ids[k]).Some?
    ensures FindDocument(LinkDocuments(documents, ids, messageId), ids[k]).Some?
    ensures var linked := LinkDocuments(documents, ids, messageId);
      linked[FindDocument(linked, ids[k]).value].messageId == Some(messageId)
    decreases |ids|
  {
    match FindDocument(documents, ids[0])
    case None =>
      LinkDocumentsLinks(documents, ids[1..], messageId, k - 1);
    case Some(i) =>
      var next := documents[i := documents[i].(messageId := Some(messageId))];
      if k > 0 {
        FindDocumentSameIds(documents, next, ids[k]);
        LinkDocumentsLinks(next, ids[1..], messageId, k - 1);
      } else {
        LinkedStaysLinked(next, ids[1..], messageId, i);
        LinkDocumentsKeepsRows(next, ids[1..], messageId);
        var linked := LinkDocuments(documents, ids, messageId);
        FindDocumentSameIds(next, linked, ids[0]);
      }
  }

  /** A document whose id is not listed keeps its link. */
  lemma {:induction false} LinkDocumentsLeavesOthers(documents: seq<Document>, ids: seq<string>, messageId: string, j: nat)
    requires j < |documents| && documents[j].id !in ids
    ensures j < |LinkDocuments(documents, ids, messageId)|
    ensures LinkDocuments(documents, ids, messageId)[j] == documents[j]
    decreases |ids|
  {
    if ids != [] {
      assert documents[j].id !in ids[1..];
      match FindDocument(documents, ids[0])
      case None =>
        LinkDocumentsLeavesOthers(documents, ids[1..], messageId, j);
      case Some(i) =>
        assert documents[i].id == ids[0];
        LinkDocumentsLeavesOthers(documents[i := documents[i].(messageId := Some(messageId))], ids[1..], messageId, j);
    }
  }

  /** A document linked to the message stays linked while the remaining ids are processed. */
  lemma {:induction false} LinkedStaysLinked(documents: seq<Document>, ids: seq<string>, messageId: string, j: nat)
    requires j < |documents| && documents[j].messageId == Some(messageId)
    ensures j < |LinkDocuments(documents, ids, messageId)|
    ensures LinkDocuments(documents, ids, messageId)[j].messageId == Some(messageId)
    decreases |ids|
  {
    if ids != [] {
      match FindDocument(documents, ids[0])
      case None =>
        LinkedStaysLinked(documents, ids[1..], messageId, j);
      case Some(i) =>
        LinkedStaysLinked(documents[i := documents[i].(messageId := Some(messageId))], ids[1..], messageId, j);
    }
  }

  /** Tables whose rows have the same ids give the same lookups. */
  lemma {:induction false} FindDocumentSameIds(a: seq<Document>, b: seq<Document>, id: string)
    requires |a| == |b| && forall i :: 0 <= i < |a| ==> a[i].id == b[i].id
    ensures FindDocument(a, id) == FindDocument(b, id)
  {
    if a != [] {
      FindDocumentSameIds(a[1..], b[1..], id);
    }
  }

  lemma {:induction false} LinkDocumentsKeepsIds(documents: seq<Document>, ids: seq<string>, messageId: string, n: nat)
    requires DocumentIdsBelow(documents, n)
    ensures DocumentIdsBelow(LinkDocuments(documents, ids, messageId), n)
  {
    LinkDocumentsKeepsRows(documents, ids, messageId);
  }

  /** The linking loop of `store_message`: one update per listed document, a missing one changing nothing. */
  method LinkMessageDocuments(db: Database, ids: seq<string>, messageId: string)
    requires db.Valid()
    modifies db`documents
    ensures db.Valid()
    ensures db.documents == LinkDocuments(old(db.documents), ids, messageId)
  {
    ghost var linked := LinkDocuments(db.documents, ids, messageId);
    var k := 0;
    while k < |ids|
      invariant 0 <= k <= |ids|
      invariant LinkDocuments(db.documents, ids[k..], messageId) == linked
      invariant db.Valid()
    {
      assert ids[k..][1..] == ids[k + 1..];
      var found := FindDocument(db.documents, ids[k]);
      if found.Some? {
        var i := found.value;
        db.documents := db.documents[i := db.documents[i].(messageId := Some(messageId))];
      }
      k := k + 1;
    }
    assert ids[k..] == [];
  }

  /** What `store_message` returns. */
  datatype StoredMessage = StoredMessage(id: string, content: string, role: string, chatId: string)

  /**
   * `MemoryService.store_message`: creates the message (which fails when the chat does not
   * exist), links the listed documents that exist to it, then appends the message to the
   * chat's short-term memory.
   */
  method StoreMessage(db: Database, chatId: string, content: string, role: string, retrievedChunks: Option<string>,
                      groundingScore: Option<real>, documentIds: Option<seq<string>>, ragMetadata: Option<RagMetadata>,
                      responseTime: Option<real>)
    returns (r: Result<StoredMessage>)
    requires db.Valid()
    modifies db`messages, db`documents, db`chats, db`nextId
    ensures db.Valid()
    ensures FindChat(old(db.chats), chatId).None? ==>
              r.Err? && db.messages == old(db.messages) && db.documents == old(db.documents)
              && db.chats == old(db.chats) && db.nextId == old(db.nextId)
    ensures FindChat(old(db.chats), chatId).Some? ==>
              var id := MintId(old(db.nextId));
              var ids := if documentIds.Some? then documentIds.value else [];
              var entry := MemoryEntry(id, content, role, retrievedChunks, groundingScore, ragMetadata, responseTime);
              db.nextId == old(db.nextId) + 1
              && db.messages == old(db.messages) + [NewMessage(id, chatId, content, role, retrievedChunks, groundingScore, ragMetadata, responseTime)]
              && db.documents == LinkDocuments(old(db.documents), ids, id)
              && r == Ok(StoredMessage(id, content, role, chatId))
              && db.chats == RememberInChat(old(db.chats), chatId, entry)
  {
    if FindChat(db.chats, chatId).None? {
      return Err("Foreign key constraint failed on the field: chatId");
    }
    var id := db.NewId();
    var message := NewMessage(id, chatId, content, role, retrievedChunks, groundingScore, ragMetadata, responseTime);
    db.messages := db.messages + [message];
    var ids := if documentIds.Some? then documentIds.value else [];
    LinkMessageDocuments(db, ids, id);
    var entry := MemoryEntry(id, content, role, retrievedChunks, groundingScore, ragMetadata, responseTime);
    var _ := UpdateShortTermMemory(db, chatId, entry);
    r := Ok(StoredMessage(id, content, role, chatId));
  }

  // ---------------------------------------------------------------------------
  // get_relevant_context
  // ---------------------------------------------------------------------------

  /** What `get_relevant_context` would return. */
  datatype RelevantContext = RelevantContext(recentMessages: seq<MemoryEntry>, currentQuery: string)

  /** Iterating a Python dictionary yields its keys: those of the dictionary `get_chat_history` returns. */
  function HistoryKeys(h: History): seq<string>
  {
    ["messages", "count"]
  }

  /**
   * The comprehension over `long_term`: it iterates keys, so its first step evaluates
   * `"messages"["id"]`, which raises a TypeError.
   */
  function LongTermEntries(keys: seq<string>): Result<seq<MemoryEntry>>
  {
    if keys == [] then Ok([])
    else Err("string indices must be integers, not 'str'")
  }

  /** `MemoryService.get_relevant_context`. */
  function GetRelevantContext(chats: seq<Chat>, messages: seq<Message>, chatId: string, currentQuery: string): (r: Result<RelevantContext>)
  {
    var shortTerm := GetShortTermMemory(chats, chatId);
    var longTerm := GetChatHistory(messages, chatId, 5, 0);
    match LongTermEntries(HistoryKeys(longTerm))
    case Err(e) => Err(e)
    case Ok(entries) => Ok(RelevantContext(LastN(shortTerm + entries, MaxShortTermMessages), currentQuery))
  }

  /** As written `get_relevant_context` raises for every chat, whatever its memory and history. */
  lemma {:induction false} RelevantContextAlwaysFails(chats: seq<Chat>, messages: seq<Message>, chatId: string, currentQuery: string)
    ensures GetRelevantContext(chats, messages, chatId, currentQuery).Err?
  {
  }
}
