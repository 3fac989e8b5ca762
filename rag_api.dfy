/**
 * The question-answering endpoints (apps/server/api/rag.py): asking a question, which opens a
 * chat when none is given, and recording a user's feedback on an answer.
 */
module RagApi {
  import opened Text
  import opened Http
  import opened Store
  import opened VectorStore
  import opened MemoryService
  import opened RagService
  import opened EvaluationService
  import ChatApi

  // ---------------------------------------------------------------------------
  // ask_question
  // ---------------------------------------------------------------------------

  /** What `ask_question` returns. */
  datatype QueryResponse = QueryResponse(
    answer: string,
    sources: seq<SearchResult>,
    confidence: real,
    responseTime: real,
    language: string,
    chunksRetrieved: nat,
    chatId: string,
    createdNewChat: bool)

  /**
   * `ask_question`: a chat titled from the question is created exactly when no chat id is
   * given; the answer is generated for that chat, so it is always the apology of
   * `generate_answer`'s error path, and `include_history` plays no part.
   */
  method AskQuestion(db: Database, question: string, chatId: Option<string>, documentIds: Option<seq<string>>,
                     includeHistory: bool, userId: string, env: RagEnv, elapsed: real)
    returns (r: QueryResponse)
    requires db.Valid()
    modifies db`chats, db`nextId
    ensures db.Valid()
    ensures r.createdNewChat <==> !TruthyText(chatId)
    ensures r.createdNewChat ==>
              r.chatId == MintId(old(db.nextId)) && db.chats == old(db.chats) + [Chat(r.chatId, ChatTitle(question), userId, Null)]
    ensures !r.createdNewChat ==> r.chatId == chatId.value && unchanged(db)
    ensures r.answer == ErrorResponse(question) && r.sources == [] && r.confidence == 0.1 && r.chunksRetrieved == 0
    ensures r.responseTime == elapsed && r.language == DetectQueryLanguage(question).Code()
  {
    var id, created := ChatApi.OpenChat(db, chatId, userId, question);
    var result := GenerateAnswer(db, question, Some(id), documentIds, env, elapsed);
    ChatQuestionsGetErrorAnswer(db.chats, db.messages, db.chunks, db.documents, db.files, question, Some(id), documentIds, env, elapsed);
    r := QueryResponse(result.answer, result.sources, result.confidence, result.responseTime, result.language.Code(),
                       result.chunksRetrieved, id, created);
  }

  // ---------------------------------------------------------------------------
  // submit_feedback
  // ---------------------------------------------------------------------------

  /** The feedback values `submit_feedback` accepts. */
  const FeedbackLabels: seq<string> := ["helpful", "not_helpful", "partial"]

  /**
   * `submit_feedback`: a value other than the three labels answers 400 before anything is
   * stored; otherwise the message's evaluation record gets the feedback, created if missing.
   */
  method SubmitFeedback(db: Database, messageId: string, feedback: string) returns (r: Response<string>)
    requires db.Valid()
    modifies db`evaluations, db`nextId
    ensures db.Valid()
    ensures feedback !in FeedbackLabels ==> r == Failure(HttpError(400, "Invalid feedback value")) && unchanged(db)
    ensures feedback in FeedbackLabels ==>
              r == Success("Feedback submitted successfully")
              && db.evaluations == Upsert(old(db.evaluations), messageId, feedback,
                                          if FindEvaluation(old(db.evaluations), messageId).Some? then "" else MintId(old(db.nextId)))
              && FeedbackOf(db.evaluations, messageId) == Some(Some(feedback))
  {
    if feedback !in FeedbackLabels {
      return Failure(HttpError(400, "Invalid feedback value"));
    }
    ghost var before := db.evaluations;
    ghost var newId := if FindEvaluation(before, messageId).Some? then "" else MintId(db.nextId);
    StoreUserFeedback(db, messageId, feedback);
    UpsertRecordsFeedback(before, messageId, feedback, newId);
    r := Success("Feedback submitted successfully");
  }

  /** After an upsert the message's feedback reads back as the one written. */
  lemma {:induction false} UpsertRecordsFeedback(evaluations: seq<Evaluation>, messageId: string, feedback: string, newId: string)
    ensures FeedbackOf(Upsert(evaluations, messageId, feedback, newId), messageId) == Some(Some(feedback))
  {
    match FindEvaluation(evaluations, messageId)
    case Some(i) =>
      var r := evaluations[i := evaluations[i].(userFeedback := Some(feedback))];
      FindEvaluationSameKeys(evaluations, r, messageId);
    case None =>
      var r := evaluations + [Evaluation(newId, messageId, None, None, Some(feedback))];
      FindEvaluationAt(r, messageId, |evaluations|);
  }

  /** Every recorded feedback is one of the accepted labels (or there is none). */
  predicate LabelsValid(evaluations: seq<Evaluation>)
  {
    forall i :: 0 <= i < |evaluations| ==> evaluations[i].userFeedback.None? || evaluations[i].userFeedback.value in FeedbackLabels
  }

  /**
   * Since `submit_feedback` refuses other values, the feedback column only ever holds the
   * three labels: every accepted submission keeps that so.
   */
  lemma {:induction false} UpsertKeepsLabelsValid(evaluations: seq<Evaluation>, messageId: string, feedback: string, newId: string)
    requires LabelsValid(evaluations) && feedback in FeedbackLabels
    ensures LabelsValid(Upsert(evaluations, messageId, feedback, newId))
  {
    var r := Upsert(evaluations, messageId, feedback, newId);
    forall k | 0 <= k < |r| ensures r[k].userFeedback.None? || r[k].userFeedback.value in FeedbackLabels {
      if k < |evaluations| && r[k] != evaluations[k] {
        assert r[k].userFeedback == Some(feedback);
      }
    }
  }
}
