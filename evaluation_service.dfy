/**
 * Answer evaluation (apps/server/services/evaluation_service.py): five quality metrics of an
 * answer and their mean, the per-message user feedback record and the statistics over all
 * records. Embeddings and their cosine similarity are one collaborator that may fail.
 */
module EvaluationService {
  import opened Text
  import opened Store
  import DocumentProcessor

  function MinReal(a: real, b: real): real { if a < b then a else b }

  function Sum(xs: seq<real>): real
  {
    if xs == [] then 0.0 else Sum(xs[..|xs| - 1]) + xs[|xs| - 1]
  }

  /** `statistics.mean`. */
  function Mean(xs: seq<real>): real
    requires xs != []
  {
    Sum(xs) / (|xs| as real)
  }

  lemma {:induction false} SumBounded(xs: seq<real>, lo: real, hi: real)
    requires forall i :: 0 <= i < |xs| ==> lo <= xs[i] <= hi
    ensures (|xs| as real) * lo <= Sum(xs) <= (|xs| as real) * hi
  {
    if xs != [] {
      SumBounded(xs[..|xs| - 1], lo, hi);
    }
  }

  /** A mean lies between any bounds of its values. */
  lemma {:induction false} MeanBounded(xs: seq<real>, lo: real, hi: real)
    requires xs != []
    requires forall i :: 0 <= i < |xs| ==> lo <= xs[i] <= hi
    ensures lo <= Mean(xs) <= hi
  {
    SumBounded(xs, lo, hi);
    var n := |xs| as real;
    assert Mean(xs) * n == Sum(xs);
  }

  lemma {:induction false} SumConstant(xs: seq<real>, v: real)
    requires forall i :: 0 <= i < |xs| ==> xs[i] == v
    ensures Sum(xs) == (|xs| as real) * v
  {
    if xs != [] {
      SumConstant(xs[..|xs| - 1], v);
    }
  }

  // ---------------------------------------------------------------------------
  // Similarity metrics
  // ---------------------------------------------------------------------------

  /** The similarity of `text` with each source, or `None` when encoding or comparing fails. */
  function Similarities(text: string, sources: seq<string>, similarity: (string, string) -> Option<real>): (r: Option<seq<real>>)
    ensures r.Some? ==> |r.value| == |sources|
  {
    if sources == [] then Some([])
    else match Similarities(text, sources[..|sources| - 1], similarity)
         case None => None
         case Some(init) =>
           match similarity(text, sources[|sources| - 1])
           case None => None
           case Some(v) => Some(init + [v])
  }

  function MaxOf(xs: seq<real>): (m: real)
    requires xs != []
    ensures forall i :: 0 <= i < |xs| ==> xs[i] <= m
    ensures exists i :: 0 <= i < |xs| && xs[i] == m
  {
    if |xs| == 1 then xs[0]
    else
      var rest := MaxOf(xs[..|xs| - 1]);
      if rest >= xs[|xs| - 1] then rest else xs[|xs| - 1]
  }

  /** `calculate_groundedness`: the best similarity of the answer with a source; 0 without sources, answer or on failure. */
  function Groundedness(answer: string, sources: seq<string>, similarity: (string, string) -> Option<real>): (g: real)
    ensures sources == [] || answer == "" || Similarities(answer, sources, similarity).None? ==> g == 0.0
  {
    var sims := Similarities(answer, sources, similarity);
    if sources == [] || answer == "" || sims.None? then 0.0
    else MaxOf(sims.value)
  }

  /** With an answer, sources and no failure, groundedness is the best of the similarities. */
  lemma {:induction false} GroundednessIsBest(answer: string, sources: seq<string>, similarity: (string, string) -> Option<real>)
    requires sources != [] && answer != "" && Similarities(answer, sources, similarity).Some?
    ensures var sims := Similarities(answer, sources, similarity).value;
      var g := Groundedness(answer, sources, similarity);
      (forall i :: 0 <= i < |sims| ==> sims[i] <= g) && exists i :: 0 <= i < |sims| && sims[i] == g
  {
    var sims := Similarities(answer, sources, similarity).value;
    var g := MaxOf(sims);
    assert Groundedness(answer, sources, similarity) == g;
    var i :| 0 <= i < |sims| && sims[i] == g;
  }

  /** `calculate_relevance`: the mean similarity of the query with the chunks; 0 without chunks, query or on failure. */
  function Relevance(query: string, chunks: seq<string>, similarity: (string, string) -> Option<real>): (r: real)
    ensures chunks == [] || query == "" ==> r == 0.0
  {
    if chunks == [] || query == "" then 0.0
    else match Similarities(query, chunks, similarity)
         case None => 0.0
         case Some(sims) => Mean(sims)
  }

  /** With similarities in [0, 1] both metrics stay in [0, 1]. */
  lemma {:induction false} SimilarityMetricsBounded(text: string, sources: seq<string>, similarity: (string, string) -> Option<real>)
    requires forall a, b :: similarity(a, b).Some? ==> 0.0 <= similarity(a, b).value <= 1.0
    ensures 0.0 <= Groundedness(text, sources, similarity) <= 1.0
    ensures 0.0 <= Relevance(text, sources, similarity) <= 1.0
  {
    var sims := Similarities(text, sources, similarity);
    if sources != [] && text != "" && sims.Some? {
      SimilaritiesBounded(text, sources, similarity);
      GroundednessIsBest(text, sources, similarity);
      MeanBounded(sims.value, 0.0, 1.0);
    }
  }

  lemma {:induction false} SimilaritiesBounded(text: string, sources: seq<string>, similarity: (string, string) -> Option<real>)
    requires forall a, b :: similarity(a, b).Some? ==> 0.0 <= similarity(a, b).value <= 1.0
    requires Similarities(text, sources, similarity).Some?
    ensures var sims := Similarities(text, sources, similarity).value;
      forall i :: 0 <= i < |sims| ==> 0.0 <= sims[i] <= 1.0
  {
    if sources != [] {
      SimilaritiesBounded(text, sources[..|sources| - 1], similarity);
    }
  }

  // ---------------------------------------------------------------------------
  // Text metrics
  // ---------------------------------------------------------------------------

  /** The stripped pieces that are not blank. */
  function NonBlank(pieces: seq<string>): (r: seq<string>)
    ensures |r| <= |pieces|
  {
    if pieces == [] then []
    else
      var s := Strip(pieces[|pieces| - 1]);
      NonBlank(pieces[..|pieces| - 1]) + (if s != "" then [s] else [])
  }

  /** The sentences `_calculate_completeness` counts: the pieces between '।' and the pieces between '.', together. */
  function Sentences(answer: string): seq<string>
  {
    NonBlank(SplitOn(answer, DocumentProcessor.Danda) + SplitOn(answer, '.'))
  }

  /** `EvaluationService._calculate_completeness`. */
  function Completeness(answer: string): (c: real)
    ensures answer == "" ==> c == 0.0
    ensures 0.0 <= c <= 1.0
  {
    if answer == "" then 0.0
    else
      var lengthScore := MinReal((|Words(answer)| as real) / 20.0, 1.0);
      var structureScore := MinReal((|Sentences(answer)| as real) / 3.0, 1.0);
      (lengthScore + structureScore) / 2.0
  }

  /** A non-blank answer with neither '।' nor '.' counts as two sentences: the whole text, once per split. */
  lemma {:induction false} UndelimitedIsTwoSentences(answer: string)
    requires forall i :: 0 <= i < |answer| ==> answer[i] != DocumentProcessor.Danda && answer[i] != '.'
    requires Strip(answer) != ""
    ensures Sentences(answer) == [Strip(answer), Strip(answer)]
  {
    SplitOnWithoutSeparator(answer, DocumentProcessor.Danda);
    SplitOnWithoutSeparator(answer, '.');
    var pieces := SplitOn(answer, DocumentProcessor.Danda) + SplitOn(answer, '.');
    assert pieces == [answer, answer];
    assert pieces[..1] == [answer];
    assert NonBlank([answer]) == [Strip(answer)] by {
      assert [answer][..0] == [];
    }
  }

  /** Twenty words and three sentences give full completeness. */
  lemma {:induction false} CompletenessFull(answer: string)
    requires |Words(answer)| >= 20 && |Sentences(answer)| >= 3
    ensures Completeness(answer) == 1.0
  {
  }

  /** The Bengali share of the letters of `text`. */
  function BengaliRatio(text: string): real
    requires DocumentProcessor.ClassifiedCount(text) > 0
  {
    (CountBengali(text) as real) / (DocumentProcessor.ClassifiedCount(text) as real)
  }

  lemma {:induction false} BengaliRatioBounded(text: string)
    requires DocumentProcessor.ClassifiedCount(text) > 0
    ensures 0.0 <= BengaliRatio(text) <= 1.0
  {
    FractionBounded(CountBengali(text), DocumentProcessor.ClassifiedCount(text));
  }

  lemma {:induction false} FractionBounded(a: nat, b: nat)
    requires 0 < b && a <= b
    ensures 0.0 <= (a as real) / (b as real) <= 1.0
  {
    var q := (a as real) / (b as real);
    assert q * (b as real) == a as real;
  }

  /** `EvaluationService._check_language_consistency`. */
  function LanguageConsistency(query: string, answer: string): (c: real)
    ensures DocumentProcessor.ClassifiedCount(query) == 0 || DocumentProcessor.ClassifiedCount(answer) == 0 ==> c == 0.5
    ensures 0.0 <= c <= 1.0
  {
    if DocumentProcessor.ClassifiedCount(query) == 0 || DocumentProcessor.ClassifiedCount(answer) == 0 then 0.5
    else
      BengaliRatioBounded(query);
      BengaliRatioBounded(answer);
      var difference := if BengaliRatio(query) >= BengaliRatio(answer) then BengaliRatio(query) - BengaliRatio(answer)
                        else BengaliRatio(answer) - BengaliRatio(query);
      var consistency := 1.0 - difference;
      if consistency >= 0.0 then consistency else 0.0
  }

  /** The metric does not care which text is the query. */
  lemma {:induction false} LanguageConsistencySymmetric(query: string, answer: string)
    ensures LanguageConsistency(query, answer) == LanguageConsistency(answer, query)
  {
  }

  /** Texts with the same Bengali share are fully consistent; an all-Bengali and an all-English text not at all. */
  lemma {:induction false} LanguageConsistencyExtremes(query: string, answer: string)
    requires DocumentProcessor.ClassifiedCount(query) > 0 && DocumentProcessor.ClassifiedCount(answer) > 0
    ensures BengaliRatio(query) == BengaliRatio(answer) ==> LanguageConsistency(query, answer) == 1.0
    ensures CountAsciiLetters(query) == 0 && CountBengali(answer) == 0 ==> LanguageConsistency(query, answer) == 0.0
  {
    if CountAsciiLetters(query) == 0 && CountBengali(answer) == 0 {
      assert DocumentProcessor.ClassifiedCount(query) == CountBengali(query);
      assert BengaliRatio(query) == 1.0;
      assert BengaliRatio(answer) == 0.0;
    }
  }

  /** The distinct elements of `ws`. */
  function SetOf(ws: seq<string>): set<string>
  {
    if ws == [] then {} else SetOf(ws[..|ws| - 1]) + {ws[|ws| - 1]}
  }

  lemma {:induction false} SetOfMembers(ws: seq<string>)
    ensures forall w :: w in SetOf(ws) <==> w in ws
  {
    if ws != [] {
      SetOfMembers(ws[..|ws| - 1]);
      assert ws == ws[..|ws| - 1] + [ws[|ws| - 1]];
    }
  }

  /** `set(text.lower().split())`. */
  function WordSet(text: string): set<string>
  {
    SetOf(Words(Lower(text)))
  }

  /** The share of the answer's distinct words that occur in one source's words. */
  function OverlapRatio(answerWords: set<string>, sourceWords: set<string>): real
  {
    var overlap := |answerWords * sourceWords|;
    (overlap as real) / (if |answerWords| > 1 then |answerWords| else 1) as real
  }

  lemma {:induction false} OverlapRatioBounded(answerWords: set<string>, sourceWords: set<string>)
    ensures 0.0 <= OverlapRatio(answerWords, sourceWords) <= 1.0
  {
    var common := answerWords * sourceWords;
    SubsetCardinality(common, answerWords);
    RatioAtMostOne(|common|, |answerWords|);
  }

  lemma {:induction false} RatioAtMostOne(a: nat, b: nat)
    requires a <= b
    ensures 0.0 <= (a as real) / (if b > 1 then b else 1) as real <= 1.0
  {
    var d := (if b > 1 then b else 1) as real;
    assert ((a as real) / d) * d == a as real;
  }

  lemma {:induction false} SubsetCardinality(a: set<string>, b: set<string>)
    requires a <= b
    ensures |a| <= |b|
    decreases |b|
  {
    if a != {} {
      var x :| x in a;
      SubsetCardinality(a - {x}, b - {x});
    }
  }

  /** The word set of each source. */
  function SourceWords(sources: seq<string>): (r: seq<set<string>>)
    ensures |r| == |sources|
  {
    seq(|sources|, i requires 0 <= i < |sources| => WordSet(sources[i]))
  }

  /** `utilization_scores`: one overlap ratio per source. */
  function Ratios(answerWords: set<string>, sourceWords: seq<set<string>>): (r: seq<real>)
    ensures |r| == |sourceWords|
  {
    seq(|sourceWords|, i requires 0 <= i < |sourceWords| => OverlapRatio(answerWords, sourceWords[i]))
  }

  /** What `_calculate_source_utilization` returns. */
  function Utilization(answer: string, sources: seq<string>): real
  {
    if sources == [] then 0.0 else Mean(Ratios(WordSet(answer), SourceWords(sources)))
  }

  /** One iteration of `_calculate_source_utilization`: the overlap ratio of one source. */
  method SourceRatio(answerWords: set<string>, source: string) returns (ratio: real)
    ensures ratio == OverlapRatio(answerWords, WordSet(source))
    ensures 0.0 <= ratio <= 1.0
  {
    var words := WordSet(source);
    ratio := OverlapRatio(answerWords, words);
    OverlapRatioBounded(answerWords, words);
  }

  /** `EvaluationService._calculate_source_utilization`. */
  method SourceUtilization(answer: string, sources: seq<string>) returns (u: real)
    ensures u == Utilization(answer, sources)
    ensures sources == [] ==> u == 0.0
    ensures 0.0 <= u <= 1.0
  {
    if sources == [] {
      return 0.0;
    }
    var answerWords := WordSet(answer);
    var utilizationScores := UtilizationScores(answerWords, sources);
    u := Mean(utilizationScores);
    UtilizationBounded(answer, sources);
  }

  /** The loop of `_calculate_source_utilization`: one overlap ratio per source, in order. */
  method UtilizationScores(answerWords: set<string>, sources: seq<string>) returns (scores: seq<real>)
    ensures scores == Ratios(answerWords, SourceWords(sources))
  {
    scores := [];
    var i := 0;
    while i < |sources|
      invariant 0 <= i <= |sources| && |scores| == i
      invariant forall j :: 0 <= j < i ==> scores[j] == OverlapRatio(answerWords, WordSet(sources[j]))
    {
      var ratio := SourceRatio(answerWords, sources[i]);
      scores := scores + [ratio];
      i := i + 1;
    }
    ScoresAreRatios(answerWords, sources, scores);
  }

  lemma {:induction false} ScoresAreRatios(answerWords: set<string>, sources: seq<string>, scores: seq<real>)
    requires |scores| == |sources|
    requires forall j :: 0 <= j < |sources| ==> scores[j] == OverlapRatio(answerWords, WordSet(sources[j]))
    ensures scores == Ratios(answerWords, SourceWords(sources))
  {
    var sourceWords := SourceWords(sources);
    assert forall j :: 0 <= j < |sources| ==> sourceWords[j] == WordSet(sources[j]);
  }

  lemma {:induction false} RatiosBounded(answerWords: set<string>, sourceWords: seq<set<string>>)
    ensures forall i :: 0 <= i < |sourceWords| ==> 0.0 <= Ratios(answerWords, sourceWords)[i] <= 1.0
  {
    var scores := Ratios(answerWords, sourceWords);
    forall i | 0 <= i < |scores| ensures 0.0 <= scores[i] <= 1.0 {
      OverlapRatioBounded(answerWords, sourceWords[i]);
    }
  }

  lemma {:induction false} UtilizationBounded(answer: string, sources: seq<string>)
    ensures 0.0 <= Utilization(answer, sources) <= 1.0
  {
    if sources != [] {
      RatiosBounded(WordSet(answer), SourceWords(sources));
      MeanBounded(Ratios(WordSet(answer), SourceWords(sources)), 0.0, 1.0);
    }
  }

  /** An answer whose every word occurs in every source uses them fully. */
  lemma {:induction false} FullUtilization(answer: string, sources: seq<string>)
    requires sources != [] && |WordSet(answer)| >= 1
    requires forall i :: 0 <= i < |sources| ==> WordSet(answer) <= WordSet(sources[i])
    ensures Utilization(answer, sources) == 1.0
  {
    var a := WordSet(answer);
    var words := SourceWords(sources);
    assert forall i :: 0 <= i < |words| ==> a <= words[i];
    RatiosAllOne(a, words);
  }

  lemma {:induction false} RatiosAllOne(a: set<string>, words: seq<set<string>>)
    requires words != [] && |a| >= 1
    requires forall i :: 0 <= i < |words| ==> a <= words[i]
    ensures Mean(Ratios(a, words)) == 1.0
  {
    var scores := Ratios(a, words);
    forall i | 0 <= i < |scores| ensures scores[i] == 1.0 {
      assert a * words[i] == a;
      RatioOne(|a|);
    }
    SumConstant(scores, 1.0);
  }

  lemma {:induction false} RatioOne(n: nat)
    requires n >= 1
    ensures (n as real) / (if n > 1 then n else 1) as real == 1.0
  {
  }

  /** An answer sharing no word with any source does not use them. */
  lemma {:induction false} NoUtilization(answer: string, sources: seq<string>)
    requires forall i :: 0 <= i < |sources| ==> WordSet(answer) !! WordSet(sources[i])
    ensures Utilization(answer, sources) == 0.0
  {
    if sources != [] {
      var a := WordSet(answer);
      var words := SourceWords(sources);
      assert forall i :: 0 <= i < |words| ==> a !! words[i];
      RatiosAllZero(a, words);
    }
  }

  lemma {:induction false} RatiosAllZero(a: set<string>, words: seq<set<string>>)
    requires words != []
    requires forall i :: 0 <= i < |words| ==> a !! words[i]
    ensures Mean(Ratios(a, words)) == 0.0
  {
    var scores := Ratios(a, words);
    forall i | 0 <= i < |scores| ensures scores[i] == 0.0 {
      assert a * words[i] == {};
    }
    SumConstant(scores, 0.0);
  }

  /** The dictionary `calculate_answer_quality_metrics` returns. */
  datatype QualityMetrics = QualityMetrics(
    groundedness: real,
    relevance: real,
    completeness: real,
    languageConsistency: real,
    sourceUtilization: real,
    overallScore: real)

  /** `EvaluationService.calculate_answer_quality_metrics`; `sources` are the sources' contents. */
  function AnswerQualityMetrics(query: string, answer: string, sources: seq<string>, similarity: (string, string) -> Option<real>): (m: QualityMetrics)
    ensures 5.0 * m.overallScore == m.groundedness + m.relevance + m.completeness + m.languageConsistency + m.sourceUtilization
    ensures m.groundedness == Groundedness(answer, sources, similarity) && m.relevance == Relevance(query, sources, similarity)
    ensures m.completeness == Completeness(answer) && m.languageConsistency == LanguageConsistency(query, answer)
    ensures m.sourceUtilization == Utilization(answer, sources)
  {
    var g := Groundedness(answer, sources, similarity);
    var r := Relevance(query, sources, similarity);
    var c := Completeness(answer);
    var l := LanguageConsistency(query, answer);
    var u := Utilization(answer, sources);
    QualityMetrics(g, r, c, l, u, (g + r + c + l + u) / 5.0)
  }

  /** With similarities in [0, 1] every metric, and so the overall score, is in [0, 1]. */
  lemma {:induction false} QualityMetricsBounded(query: string, answer: string, sources: seq<string>, similarity: (string, string) -> Option<real>)
    requires forall a, b :: similarity(a, b).Some? ==> 0.0 <= similarity(a, b).value <= 1.0
    ensures var m := AnswerQualityMetrics(query, answer, sources, similarity);
      0.0 <= m.overallScore <= 1.0
  {
    SimilarityMetricsBounded(answer, sources, similarity);
    SimilarityMetricsBounded(query, sources, similarity);
    UtilizationBounded(answer, sources);
  }

  // ---------------------------------------------------------------------------
  // Feedback and statistics
  // ---------------------------------------------------------------------------

  /** The evaluations table after recording `feedback` for `messageId`: update the record, or create one. */
  function Upsert(evaluations: seq<Evaluation>, messageId: string, feedback: string, newId: string): seq<Evaluation>
  {
    match FindEvaluation(evaluations, messageId)
    case Some(i) => evaluations[i := evaluations[i].(userFeedback := Some(feedback))]
    case None => evaluations + [Evaluation(newId, messageId, None, None, Some(feedback))]
  }

  /** The feedback recorded for a message, if it has a record. */
  function FeedbackOf(evaluations: seq<Evaluation>, messageId: string): Option<Option<string>>
  {
    match FindEvaluation(evaluations, messageId)
    case None => None
    case Some(i) => Some(evaluations[i].userFeedback)
  }

  predicate UniqueMessageIds(evaluations: seq<Evaluation>)
  {
    forall i, j :: 0 <= i < j < |evaluations| ==> evaluations[i].messageId != evaluations[j].messageId
  }

  lemma {:induction false} FindEvaluationAt(rows: seq<Evaluation>, messageId: string, k: nat)
    requires k < |rows| && rows[k].messageId == messageId
    requires forall j :: 0 <= j < k ==> rows[j].messageId != messageId
    ensures FindEvaluation(rows, messageId) == Some(k)
  {
    if k > 0 {
      var tail := rows[1..];
      forall j | 0 <= j < k - 1 ensures tail[j].messageId != messageId {
        assert tail[j] == rows[j + 1];
      }
      FindEvaluationAt(tail, messageId, k - 1);
    }
  }

  lemma {:induction false} FindEvaluationSameKeys(a: seq<Evaluation>, b: seq<Evaluation>, messageId: string)
    requires |a| == |b| && forall i :: 0 <= i < |a| ==> a[i].messageId == b[i].messageId
    ensures FindEvaluation(a, messageId) == FindEvaluation(b, messageId)
  {
    if a != [] {
      FindEvaluationSameKeys(a[1..], b[1..], messageId);
    }
  }

  /**
   * Last write wins: afterwards the message has exactly one record, carrying the new feedback;
   * an existing record keeps its scores; other messages' records are untouched.
   */
  lemma {:induction false} UpsertLastWriteWins(evaluations: seq<Evaluation>, messageId: string, feedback: string, newId: string, other: string)
    requires UniqueMessageIds(evaluations) && other != messageId
    ensures var r := Upsert(evaluations, messageId, feedback, newId);
      UniqueMessageIds(r)
      && FeedbackOf(r, messageId) == Some(Some(feedback))
      && FeedbackOf(r, other) == FeedbackOf(evaluations, other)
      && (FindEvaluation(evaluations, messageId).Some? ==>
            |r| == |evaluations|
            && var i := FindEvaluation(evaluations, messageId).value;
               r[i].groundedness == evaluations[i].groundedness && r[i].relevance == evaluations[i].relevance)
      && (FindEvaluation(evaluations, messageId).None? ==> |r| == |evaluations| + 1)
  {
    var r := Upsert(evaluations, messageId, feedback, newId);
    match FindEvaluation(evaluations, messageId)
    case Some(i) =>
      FindEvaluationSameKeys(evaluations, r, messageId);
      FindEvaluationSameKeys(evaluations, r, other);
    case None =>
      var n := |evaluations|;
      forall j | 0 <= j < n ensures r[j].messageId != messageId {
        assert r[j] == evaluations[j];
      }
      FindEvaluationAt(r, messageId, n);
      FindEvaluationPrefix(evaluations, r[n], other);
  }

  lemma {:induction false} FindEvaluationPrefix(rows: seq<Evaluation>, row: Evaluation, messageId: string)
    requires row.messageId != messageId
    ensures FindEvaluation(rows + [row], messageId) == FindEvaluation(rows, messageId)
  {
    if rows != [] {
      assert (rows + [row])[1..] == rows[1..] + [row];
      FindEvaluationPrefix(rows[1..], row, messageId);
    } else {
      assert FindEvaluation([row][1..], messageId) == None;
    }
  }

  /** `EvaluationService.store_user_feedback`. */
  method StoreUserFeedback(db: Database, messageId: string, feedback: string)
    requires db.Valid()
    modifies db`evaluations, db`nextId
    ensures db.Valid()
    ensures FindEvaluation(old(db.evaluations), messageId).Some? ==>
              db.nextId == old(db.nextId) && db.evaluations == Upsert(old(db.evaluations), messageId, feedback, "")
    ensures FindEvaluation(old(db.evaluations), messageId).None? ==>
              db.nextId == old(db.nextId) + 1
              && db.evaluations == Upsert(old(db.evaluations), messageId, feedback, MintId(old(db.nextId)))
  {
    var existing := FindEvaluation(db.evaluations, messageId);
    if existing.Some? {
      var i := existing.value;
      db.evaluations := db.evaluations[i := db.evaluations[i].(userFeedback := Some(feedback))];
    } else {
      var id := db.NewId();
      db.evaluations := db.evaluations + [Evaluation(id, messageId, None, None, Some(feedback))];
    }
  }

  /** What `get_evaluation_stats` returns; the distribution keeps the order in which labels first appear. */
  datatype EvaluationStats = EvaluationStats(
    totalEvaluations: nat,
    avgGroundedness: real,
    avgRelevance: real,
    feedbackDistribution: seq<(string, nat)>)

  predicate Labelled(e: Evaluation) { e.userFeedback.Some? && e.userFeedback.value != "" }

  /** `feedback_counts[label] = feedback_counts.get(label, 0) + 1` on an insertion-ordered dictionary. */
  function AddLabel(counts: seq<(string, nat)>, tag: string): (r: seq<(string, nat)>)
    ensures |r| == |counts| || |r| == |counts| + 1
  {
    if counts == [] then [(tag, 1)]
    else if counts[0].0 == tag then [(tag, counts[0].1 + 1)] + counts[1..]
    else [counts[0]] + AddLabel(counts[1..], tag)
  }

  /** The distribution after the loop over `evaluations`. */
  function FeedbackCounts(evaluations: seq<Evaluation>): seq<(string, nat)>
  {
    if evaluations == [] then []
    else
      var counts := FeedbackCounts(evaluations[..|evaluations| - 1]);
      var e := evaluations[|evaluations| - 1];
      if Labelled(e) then AddLabel(counts, e.userFeedback.value) else counts
  }

  /** The number of records carrying `label`. */
  function CountLabel(evaluations: seq<Evaluation>, tag: string): nat
  {
    if evaluations == [] then 0
    else CountLabel(evaluations[..|evaluations| - 1], tag)
         + (if evaluations[|evaluations| - 1].userFeedback == Some(tag) then 1 else 0)
  }

  function CountLabelled(evaluations: seq<Evaluation>): (n: nat)
    ensures n <= |evaluations|
  {
    if evaluations == [] then 0
    else CountLabelled(evaluations[..|evaluations| - 1]) + (if Labelled(evaluations[|evaluations| - 1]) then 1 else 0)
  }

  /** The count the distribution holds for `label` (0 when absent). */
  function CountIn(counts: seq<(string, nat)>, tag: string): nat
  {
    if counts == [] then 0 else (if counts[0].0 == tag then counts[0].1 else 0) + CountIn(counts[1..], tag)
  }

  function SumCounts(counts: seq<(string, nat)>): nat
  {
    if counts == [] then 0 else counts[0].1 + SumCounts(counts[1..])
  }

  predicate DistinctLabels(counts: seq<(string, nat)>)
  {
    forall i, j :: 0 <= i < j < |counts| ==> counts[i].0 != counts[j].0
  }

  lemma {:induction false} AddLabelCounts(counts: seq<(string, nat)>, tag: string, other: string)
    requires DistinctLabels(counts)
    ensures DistinctLabels(AddLabel(counts, tag))
    ensures CountIn(AddLabel(counts, tag), tag) == CountIn(counts, tag) + 1
    ensures other != tag ==> CountIn(AddLabel(counts, tag), other) == CountIn(counts, other)
    ensures SumCounts(AddLabel(counts, tag)) == SumCounts(counts) + 1
    ensures forall i :: 0 <= i < |AddLabel(counts, tag)| ==>
              AddLabel(counts, tag)[i].0 == tag || exists j :: 0 <= j < |counts| && counts[j].0 == AddLabel(counts, tag)[i].0
  {
    if counts != [] && counts[0].0 != tag {
      var tail := counts[1..];
      assert DistinctLabels(tail) by {
        forall i, j | 0 <= i < j < |tail| ensures tail[i].0 != tail[j].0 {
          assert tail[i] == counts[i + 1] && tail[j] == counts[j + 1];
        }
      }
      AddLabelCounts(tail, tag, other);
      var r := AddLabel(counts, tag);
      var t := AddLabel(tail, tag);
      assert r == [counts[0]] + t;
      forall i | 0 <= i < |t| ensures t[i].0 != counts[0].0 {
        if t[i].0 != tag {
          var j :| 0 <= j < |tail| && tail[j].0 == t[i].0;
          assert tail[j] == counts[j + 1];
        }
      }
      forall i, j | 0 <= i < j < |r| ensures r[i].0 != r[j].0 {
        if i > 0 {
          assert r[i] == t[i - 1] && r[j] == t[j - 1];
        } else {
          assert r[j] == t[j - 1];
        }
      }
      forall i | 0 <= i < |r| ensures r[i].0 == tag || exists j :: 0 <= j < |counts| && counts[j].0 == r[i].0 {
        if i == 0 {
          assert counts[0].0 == r[0].0;
        } else if t[i - 1].0 != tag {
          assert r[i] == t[i - 1];
          var j :| 0 <= j < |tail| && tail[j].0 == t[i - 1].0;
          assert counts[j + 1].0 == r[i].0;
        }
      }
    } else if counts != [] {
      var tail := counts[1..];
      assert DistinctLabels(tail) by {
        forall i, j | 0 <= i < j < |tail| ensures tail[i].0 != tail[j].0 {
          assert tail[i] == counts[i + 1] && tail[j] == counts[j + 1];
        }
      }
      NotInCounts(tail, tag);
      var r := AddLabel(counts, tag);
      assert r[1..] == tail;
      forall i | 0 <= i < |r| ensures r[i].0 == tag || exists j :: 0 <= j < |counts| && counts[j].0 == r[i].0 {
        assert counts[i].0 == r[i].0;
      }
    }
  }

  lemma {:induction false} NotInCounts(counts: seq<(string, nat)>, tag: string)
    requires forall i :: 0 <= i < |counts| ==> counts[i].0 != tag
    ensures CountIn(counts, tag) == 0
  {
    if counts != [] {
      NotInCounts(counts[1..], tag);
    }
  }

  /**
   * The distribution counts every non-empty label exactly, lists each label once, and its
   * counts add up to the labelled records, never more than the total.
   */
  lemma {:induction false} FeedbackCountsCorrect(evaluations: seq<Evaluation>, tag: string)
    requires tag != ""
    ensures DistinctLabels(FeedbackCounts(evaluations))
    ensures CountIn(FeedbackCounts(evaluations), tag) == CountLabel(evaluations, tag)
    ensures SumCounts(FeedbackCounts(evaluations)) == CountLabelled(evaluations) <= |evaluations|
  {
    if evaluations != [] {
      var init := evaluations[..|evaluations| - 1];
      var e := evaluations[|evaluations| - 1];
      FeedbackCountsCorrect(init, tag);
      if Labelled(e) {
        AddLabelCounts(FeedbackCounts(init), e.userFeedback.value, tag);
      }
    }
  }

  /** The scores present, in record order. */
  function GroundednessScores(evaluations: seq<Evaluation>): (r: seq<real>)
    ensures |r| <= |evaluations|
  {
    if evaluations == [] then []
    else
      var e := evaluations[|evaluations| - 1];
      GroundednessScores(evaluations[..|evaluations| - 1]) + (if e.groundedness.Some? then [e.groundedness.value] else [])
  }

  function RelevanceScores(evaluations: seq<Evaluation>): (r: seq<real>)
    ensures |r| <= |evaluations|
  {
    if evaluations == [] then []
    else
      var e := evaluations[|evaluations| - 1];
      RelevanceScores(evaluations[..|evaluations| - 1]) + (if e.relevance.Some? then [e.relevance.value] else [])
  }

  function MeanOrZero(xs: seq<real>): real
  {
    if xs == [] then 0.0 else Mean(xs)
  }

  /** What `get_evaluation_stats` returns for the table. */
  function StatsOf(evaluations: seq<Evaluation>): EvaluationStats
  {
    if evaluations == [] then EvaluationStats(0, 0.0, 0.0, [])
    else EvaluationStats(|evaluations|, MeanOrZero(GroundednessScores(evaluations)), MeanOrZero(RelevanceScores(evaluations)),
                         FeedbackCounts(evaluations))
  }

  /** `EvaluationService.get_evaluation_stats`. */
  method GetEvaluationStats(db: Database) returns (stats: EvaluationStats)
    ensures stats == StatsOf(db.evaluations)
  {
    var evaluations := db.evaluations;
    if evaluations == [] {
      return EvaluationStats(0, 0.0, 0.0, []);
    }
    var feedbackCounts: seq<(string, nat)> := [];
    var i := 0;
    while i < |evaluations|
      invariant 0 <= i <= |evaluations|
      invariant feedbackCounts == FeedbackCounts(evaluations[..i])
    {
      assert evaluations[..i + 1][..i] == evaluations[..i];
      var e := evaluations[i];
      if e.userFeedback.Some? && e.userFeedback.value != "" {
        feedbackCounts := AddLabel(feedbackCounts, e.userFeedback.value);
      }
      i := i + 1;
    }
    assert evaluations[..i] == evaluations;
    var groundednessScores := GroundednessScores(evaluations);
    var relevanceScores := RelevanceScores(evaluations);
    stats := EvaluationStats(
      |evaluations|,
      if groundednessScores != [] then Mean(groundednessScores) else 0.0,
      if relevanceScores != [] then Mean(relevanceScores) else 0.0,
      feedbackCounts);
  }

  /** A record without a score does not pull the average down: only present scores are averaged. */
  lemma {:induction false} AveragesSkipMissing(evaluations: seq<Evaluation>, e: Evaluation)
    requires e.groundedness.None? && e.relevance.None?
    ensures GroundednessScores(evaluations + [e]) == GroundednessScores(evaluations)
    ensures RelevanceScores(evaluations + [e]) == RelevanceScores(evaluations)
  {
    assert (evaluations + [e])[..|evaluations|] == evaluations;
  }
}
