/**
 * The session manager: the in-memory store of interview sessions, the start
 * of a session, one answer-and-next-question turn, the decision whether to
 * keep asking, and the removal of stale sessions.
 *
 * Every collaborator (calculator, generator, finalizer) is reached through a
 * `Component`: Unavailable when creating or calling it raised and the
 * manager's own fallback applies.  Clock readings and session ids are
 * parameters.
 */
module SessionService {
  import opened Wrappers
  import opened Text
  import opened Oracle
  import opened Distributions
  import opened Models
  import Calculator = ConfidenceCalculator
  import Generator = IterativeQuestionGenerator
  import Finalizer = SessionFinalizer
  import Tools = AgentTools

  // ---------------------------------------------------------------------------
  // The questioning parameters
  // ---------------------------------------------------------------------------

  /** The overall confidence at which the confidence stop is considered. */
  const MinConfidenceThreshold: real := 0.75
  /** The leading weight that, with enough overall confidence, ends the interview. */
  const HighConfidenceThreshold: real := 0.9
  /** The satisfaction score that, with a satisfied verdict, ends the interview. */
  const SatisfactionThreshold: real := 0.8
  /** The number of answered questions at which the interview always ends. */
  const MaxQuestions: nat := 8
  /** The number of answered questions below which the interview never ends. */
  const MinQuestions: nat := 3

  // ---------------------------------------------------------------------------
  // The leading doctor
  // ---------------------------------------------------------------------------

  /**
   * The position `max(d.items(), key=weight)` picks: a largest weight, the
   * first one when several tie.
   */
  function LeadingIndex(d: seq<(string, real)>): (i: nat)
    requires d != []
    ensures i < |d|
    ensures forall j | 0 <= j < |d| :: d[j].1 <= d[i].1
    ensures forall j | 0 <= j < i :: d[j].1 < d[i].1
  {
    if |d| == 1 then 0
    else
      var r := 1 + LeadingIndex(d[1..]);
      assert forall j | 1 <= j < |d| :: d[j] == d[1..][j - 1];
      if d[0].1 >= d[r].1 then 0 else r
  }

  /**
   * The doctor type with the highest weight, the earliest on a tie.  `max`
   * raises on an empty map; every map the manager passes here is non-empty
   * (see `Valid`).
   */
  function LeadingDoctor(d: Distribution): (k: string)
    requires d != []
    ensures IsLeading(k, d)
    ensures exists i | 0 <= i < |d| :: d[i].0 == k && forall j | 0 <= j < i :: d[j].1 < Get(d, k)
  {
    var i := LeadingIndex(d);
    GetAt(d, i);
    d[i].0
  }

  // ---------------------------------------------------------------------------
  // Whether to keep asking
  // ---------------------------------------------------------------------------

  /**
   * `_should_continue_questioning`: keep asking below the minimum, stop at
   * the maximum; in between, stop on a satisfied verdict scoring at least
   * 0.8, or on an overall confidence of at least 0.75 whose leading weight
   * reaches 0.9.  When the finalizer is unavailable, or `max` of an empty
   * map raises, the confidence-only rule applies: continue iff the overall
   * confidence is below 0.75.
   */
  function ShouldContinue(s: Session, assessment: Component<Reply<Finalizer.SatisfactionFields>>): (go: bool)
    ensures AnsweredCount(s.history) < MinQuestions ==> go
    ensures AnsweredCount(s.history) >= MaxQuestions ==> !go
  {
    var n := AnsweredCount(s.history);
    if n < MinQuestions then true
    else if n >= MaxQuestions then false
    else
      match assessment
      case Unavailable => s.confidence.overall < MinConfidenceThreshold
      case Available(reply) =>
        var verdict := Finalizer.AssessSatisfaction(reply);
        if verdict.isSatisfied && verdict.score >= SatisfactionThreshold then false
        else if s.confidence.overall >= MinConfidenceThreshold then
          if s.confidence.doctors == [] then s.confidence.overall < MinConfidenceThreshold
          else !(MaxValue(s.confidence.doctors) >= HighConfidenceThreshold)
        else true
  }

  /** Between the minimum and the maximum, the two stop conditions, in both directions. */
  lemma ShouldContinueBand(s: Session, assessment: Component<Reply<Finalizer.SatisfactionFields>>)
    requires MinQuestions <= AnsweredCount(s.history) < MaxQuestions
    ensures assessment.Unavailable? ==>
      (ShouldContinue(s, assessment) <==> s.confidence.overall < MinConfidenceThreshold)
    ensures assessment.Available? ==>
      var verdict := Finalizer.AssessSatisfaction(assessment.reply);
      (!ShouldContinue(s, assessment) <==>
        (verdict.isSatisfied && verdict.score >= SatisfactionThreshold)
        || (s.confidence.overall >= MinConfidenceThreshold
            && (s.confidence.doctors == [] || SomeAtLeast(s.confidence.doctors, HighConfidenceThreshold))))
  {
    if s.confidence.doctors != [] {
      SomeAtLeastIsMax(s.confidence.doctors, HighConfidenceThreshold);
    }
  }

  /**
   * Below 0.75 overall confidence the confidence stop cannot fire: between
   * the minimum and the maximum, the interview ends only on a parsed
   * verdict that says it is satisfied with a score of at least 0.8.
   */
  lemma ShouldContinueLowConfidence(s: Session, assessment: Component<Reply<Finalizer.SatisfactionFields>>)
    requires MinQuestions <= AnsweredCount(s.history) < MaxQuestions
    requires s.confidence.overall < MinConfidenceThreshold
    ensures !ShouldContinue(s, assessment) <==>
      assessment.Available? && assessment.reply.Parsed?
      && assessment.reply.fields.isSatisfied == Some(true)
      && Finalizer.AssessSatisfaction(assessment.reply).score >= SatisfactionThreshold
  {
    ShouldContinueBand(s, assessment);
  }

  // ---------------------------------------------------------------------------
  // The manager's own fallbacks and the collaborator calls
  // ---------------------------------------------------------------------------

  /** The question asked when the generator is unavailable. */
  const ManagerFallbackQuestion := WithOther(
    "Can you describe any additional symptoms you're experiencing?",
    "No additional symptoms", "Mild additional symptoms", "Significant additional symptoms")

  /**
   * `_calculate_initial_confidence`: the calculator's score, or the fixed
   * 0.3 score over the 0.4/0.3/0.2/0.1 split when it is unavailable.
   */
  function StartConfidence(condition: string, initial: Component<Reply<Calculator.ConfidenceFields>>): (c: ConfidenceScore)
    ensures InUnitRange(c.overall)
    ensures c.doctors != []
    ensures initial.Unavailable? ==> c.overall == 0.3
  {
    match initial
    case Unavailable =>
      ConfidenceScore(0.3, Calculator.FallbackDoctors, "Initial assessment based on condition keywords")
    case Available(reply) =>
      Calculator.InitialConfidenceShape(condition, reply);
      assert AllowedDoctors[0] in Keys(Calculator.InitialConfidence(condition, reply).doctors);
      Calculator.InitialConfidence(condition, reply)
  }

  /**
   * `_update_confidence_with_answer` on a session whose history already
   * holds the answer: the calculator's score, which never exceeds 0.7, or
   * the session's current score when the calculator is unavailable.
   */
  function UpdatedScore(s: Session, answer: string, update: Component<Reply<Calculator.ConfidenceFields>>): (c: ConfidenceScore)
    requires s.confidence.doctors != []
    ensures c.doctors != []
    ensures update.Unavailable? ==> c == s.confidence
    ensures update.Available? ==> 0.0 <= c.overall <= 0.7
  {
    match update
    case Unavailable => s.confidence
    case Available(reply) =>
      Calculator.UpdatedConfidenceShape(s.initialCondition, s.history, answer, reply);
      assert AllowedDoctors[0] in Keys(Calculator.UpdatedConfidence(s.initialCondition, s.history, answer, reply).doctors);
      Calculator.UpdatedConfidence(s.initialCondition, s.history, answer, reply)
  }

  /**
   * `_generate_next_question`: the generator's question and the history it
   * leaves behind, or the manager's fallback question with the history
   * untouched.
   */
  function NextQuestion(s: Session, question: Component<Reply<QuestionFields>>): (r: (FollowUpQuestion, seq<Entry>))
    ensures r.1 == s.history || r.1 == s.history + [Entry(r.0.question, "")]
    ensures question.Unavailable? ==> FourWithOtherLast(r.0)
  {
    match question
    case Unavailable => (ManagerFallbackQuestion, s.history)
    case Available(reply) => Generator.Generate(s.history, reply)
  }

  /**
   * A new entry, pending, is appended exactly when the generator ran and its
   * oracle step did not raise; every question that does not come from the
   * oracle has four options with "Other" last.
   */
  lemma NextQuestionShape(s: Session, question: Component<Reply<QuestionFields>>)
    ensures var r := NextQuestion(s, question);
      if question.Available? && !question.reply.Raised? then
        r.1 == s.history + [Entry(r.0.question, "")]
        && (question.reply.Malformed? ==> FourWithOtherLast(r.0))
      else
        r.1 == s.history && FourWithOtherLast(r.0)
  {
    if question.Available? && question.reply.Malformed? {
      assert Generator.OracleQuestion(question.reply) == Some(Generator.SeverityQuestion);
      assert Generator.SeverityQuestion == Generator.FallbackQuestion(0);
    }
  }

  /** The finalizer's two oracle replies: the summary text and the recommendation. */
  datatype FinalizeReplies = FinalizeReplies(summary: Option<string>, recommendation: Reply<Finalizer.RecommendationFields>)

  /**
   * `_finalize_session`: the finalizer's recommendation and summary, or the
   * leading doctor and a templated summary when it is unavailable.
   */
  function ManagerFinalize(s: Session, finalize: Component<FinalizeReplies>): (r: (DoctorRecommendation, string))
    ensures finalize.Unavailable? ==> r.0.doctorType == s.leadingDoctor
    ensures finalize.Unavailable? ==> Contains(r.1, s.initialCondition) && Contains(r.1, s.leadingDoctor)
  {
    match finalize
    case Unavailable =>
      var summary := "Patient presents with " + s.initialCondition + ". Requires evaluation by " + s.leadingDoctor + ".";
      assert summary == Tools.SummaryTool(s.initialCondition, s.leadingDoctor, None);
      (DoctorRecommendation(s.leadingDoctor, "Based on the conversation, " + s.leadingDoctor + " is recommended"), summary)
    case Available(replies) =>
      Finalizer.FinalizeSession(s, replies.summary, replies.recommendation)
  }

  /**
   * The manager's fallback summary is the summary tool's own fallback text
   * for the leading doctor, and when the finalizer runs the recommendation
   * is the leading doctor unless its oracle named another.
   */
  lemma ManagerFinalizeAgrees(s: Session, finalize: Component<FinalizeReplies>)
    ensures finalize.Unavailable? ==>
      ManagerFinalize(s, finalize).1 == Tools.SummaryTool(s.initialCondition, s.leadingDoctor, None)
    ensures finalize.Available? && !(finalize.reply.recommendation.Parsed? && finalize.reply.recommendation.fields.doctorType.Some?) ==>
      ManagerFinalize(s, finalize).0.doctorType == s.leadingDoctor
  {
  }

  // ---------------------------------------------------------------------------
  // Starting a session
  // ---------------------------------------------------------------------------

  /**
   * `start_session` once the initial score is known: the session stored
   * under `id` (its history as the first question left it) and the response.
   */
  function Start(id: string, condition: string, now: int, confidence: ConfidenceScore,
                 question: Component<Reply<QuestionFields>>): (t: (Session, SessionStartResponse))
    requires confidence.doctors != []
    ensures t.0.id == id == t.1.sessionId && t.0.initialCondition == condition
    ensures t.0.confidence == confidence == t.1.confidence && !t.0.isComplete
    ensures t.0.history == [] || t.0.history == [Entry(t.1.firstQuestion.question, "")]
  {
    var session := NewSession(id, condition, confidence, LeadingDoctor(confidence.doctors), now);
    var next := NextQuestion(session, question);
    (session.(history := next.1), SessionStartResponse(id, next.0, confidence))
  }

  /**
   * A new session is consistent, unfinished, stamped with the start time,
   * and has no answered entry: at most the first question, pending, and
   * only when the generator's oracle step did not raise.
   */
  lemma StartShape(id: string, condition: string, now: int, confidence: ConfidenceScore,
                   question: Component<Reply<QuestionFields>>)
    requires confidence.doctors != []
    ensures var t := Start(id, condition, now, confidence, question);
      t.0.id == id && t.0.initialCondition == condition && Consistent(t.0)
      && t.0.confidence == confidence && t.1.confidence == confidence && t.1.sessionId == id
      && !t.0.isComplete && t.0.createdAt == now && t.0.updatedAt == now
      && AnsweredCount(t.0.history) == 0 && PendingOnlyLast(t.0.history)
      && (t.0.history == [Entry(t.1.firstQuestion.question, "")] <==> question.Available? && !question.reply.Raised?)
      && (t.0.history == [] <==> !(question.Available? && !question.reply.Raised?))
  {
    var session := NewSession(id, condition, confidence, LeadingDoctor(confidence.doctors), now);
    NextQuestionShape(session, question);
  }

  // ---------------------------------------------------------------------------
  // One turn: the answer and what follows it
  // ---------------------------------------------------------------------------

  /** The collaborators' replies during one turn, in the order they are consulted. */
  datatype TurnReplies = TurnReplies(
    update: Component<Reply<Calculator.ConfidenceFields>>,
    assessment: Component<Reply<Finalizer.SatisfactionFields>>,
    finalize: Component<FinalizeReplies>,
    question: Component<Reply<QuestionFields>>)

  /** The session once the answer is written into its last entry (if any) and the time stamped. */
  function Recorded(s: Session, answer: string, now: int): (r: Session)
    ensures r == s.(history := r.history, updatedAt := now)
    ensures |r.history| == |s.history|
    ensures s.history != [] ==> r.history[|s.history| - 1].answer == answer
  {
    s.(history := WriteAnswer(s.history, answer), updatedAt := now)
  }

  /** The session with a new score and the leading doctor that score picks. */
  function Rescored(s: Session, confidence: ConfidenceScore): (r: Session)
    requires confidence.doctors != []
    ensures Consistent(r)
  {
    s.(confidence := confidence, leadingDoctor := LeadingDoctor(confidence.doctors))
  }

  /**
   * What follows the scoring: when the interview stops, the session is
   * marked complete and finalized; otherwise the next question is generated.
   * Only the history and the completion flag change.
   */
  function Conclude(scored: Session, replies: TurnReplies): (t: (Session, NextQuestionResponse))
    ensures t.0 == scored.(history := t.0.history, isComplete := t.0.isComplete)
    ensures t.1.sessionId == scored.id && t.1.confidence == scored.confidence && t.1.history == t.0.history
  {
    if !ShouldContinue(scored, replies.assessment) then
      var done := scored.(isComplete := true);
      var final := ManagerFinalize(done, replies.finalize);
      (done, NextQuestionResponse(scored.id, None, scored.confidence, true, Some(final.0), Some(final.1), done.history))
    else
      var next := NextQuestion(scored, replies.question);
      (scored.(history := next.1), NextQuestionResponse(scored.id, Some(next.0), scored.confidence, false, None, None, next.1))
  }

  /**
   * The response is complete exactly when the interview stops, and then it
   * carries no question but a recommendation and a summary and the session
   * keeps its history; otherwise it carries a question, no recommendation
   * and no summary, and the history is the one the next question leaves,
   * extended by at most one pending entry.  A session already
   * complete stays complete.
   */
  lemma ConcludeShape(scored: Session, replies: TurnReplies)
    ensures var t := Conclude(scored, replies);
      (t.1.isComplete <==> !ShouldContinue(scored, replies.assessment))
      && (t.1.isComplete <==> t.1.question.None?)
      && (t.1.isComplete <==> t.1.recommendation.Some?)
      && (t.1.isComplete <==> t.1.summary.Some?)
      && t.0.isComplete == (scored.isComplete || t.1.isComplete)
      && (t.1.isComplete ==> t.0.history == scored.history)
      && (!t.1.isComplete ==> t.0.history == NextQuestion(scored, replies.question).1)
      && (t.0.history == scored.history || t.0.history == scored.history + [Entry(t.1.question.value.question, "")])
  {
    if ShouldContinue(scored, replies.assessment) {
      NextQuestionShape(scored, replies.question);
    }
  }

  /**
   * `process_answer_and_get_next_question` on a stored session, once the
   * new score is known: the session as it is stored afterwards and the
   * response.
   */
  function Turn(s: Session, answer: string, now: int, score: ConfidenceScore, replies: TurnReplies): (t: (Session, NextQuestionResponse))
    requires score.doctors != []
    ensures t.0.id == s.id && Consistent(t.0)
  {
    Conclude(Rescored(Recorded(s, answer, now), score), replies)
  }

  /** The score a turn works with: the update of the session once the answer is recorded. */
  function TurnScore(s: Session, answer: string, now: int, update: Component<Reply<Calculator.ConfidenceFields>>): (c: ConfidenceScore)
    requires s.confidence.doctors != []
    ensures c.doctors != []
  {
    UpdatedScore(Recorded(s, answer, now), answer, update)
  }

  /** A pending entry, or nothing, after a written history. */
  lemma WrittenThenPending(h: seq<Entry>, answer: string, g: seq<Entry>, question: string)
    requires h != []
    requires g == WriteAnswer(h, answer) || g == WriteAnswer(h, answer) + [Entry(question, "")]
    ensures var n := |h|;
      (|g| == n || |g| == n + 1)
      && g[..n - 1] == h[..n - 1]
      && g[n - 1] == Entry(h[n - 1].question, answer)
      && (|g| == n + 1 ==> !Answered(g[n]))
  {
  }

  /**
   * The answer lands in the last entry of the history, whatever that entry
   * held; earlier entries are untouched, and at most one pending entry is
   * appended after it.
   */
  lemma TurnRecordsAnswer(s: Session, answer: string, now: int, score: ConfidenceScore, replies: TurnReplies)
    requires score.doctors != [] && s.history != []
    ensures var h := Turn(s, answer, now, score, replies).0.history;
      var n := |s.history|;
      (|h| == n || |h| == n + 1)
      && h[..n - 1] == s.history[..n - 1]
      && h[n - 1] == Entry(s.history[n - 1].question, answer)
      && (|h| == n + 1 ==> !Answered(h[n]))
  {
    var scored := Rescored(Recorded(s, answer, now), score);
    ConcludeShape(scored, replies);
    var t := Conclude(scored, replies);
    WrittenThenPending(s.history, answer, t.0.history, if t.1.question.Some? then t.1.question.value.question else "");
  }

  /** With an empty history the answer is recorded nowhere. */
  lemma TurnWithoutHistoryDropsAnswer(s: Session, answer: string, now: int, score: ConfidenceScore, replies: TurnReplies)
    requires score.doctors != [] && s.history == []
    ensures var h := Turn(s, answer, now, score, replies).0.history;
      |h| <= 1 && forall i | 0 <= i < |h| :: !Answered(h[i])
  {
    var scored := Rescored(Recorded(s, answer, now), score);
    ConcludeShape(scored, replies);
  }

  /**
   * Fewer than three answered entries always bring another question; eight
   * or more always end the interview with a recommendation and a summary.
   */
  lemma TurnBounds(s: Session, answer: string, now: int, score: ConfidenceScore, replies: TurnReplies)
    requires score.doctors != []
    ensures var n := AnsweredCount(WriteAnswer(s.history, answer));
      var t := Turn(s, answer, now, score, replies);
      (n < MinQuestions ==> !t.1.isComplete && t.1.question.Some?)
      && (n >= MaxQuestions ==> t.1.isComplete && t.0.isComplete && t.1.recommendation.Some? && t.1.summary.Some?)
  {
    ConcludeShape(Rescored(Recorded(s, answer, now), score), replies);
  }

  /**
   * After a successful score update the overall confidence is at most 0.7,
   * so between the minimum and the maximum the interview ends only on a
   * parsed, satisfied verdict scoring at least 0.8: the high-confidence
   * stop can fire only on a turn whose update fell back to the old score.
   */
  lemma TurnStopsOnlyWhenSatisfied(s: Session, answer: string, now: int, replies: TurnReplies)
    requires s.confidence.doctors != []
    requires replies.update.Available?
    requires MinQuestions <= AnsweredCount(WriteAnswer(s.history, answer)) < MaxQuestions
    ensures Turn(s, answer, now, TurnScore(s, answer, now, replies.update), replies).1.isComplete <==>
      replies.assessment.Available? && replies.assessment.reply.Parsed?
      && replies.assessment.reply.fields.isSatisfied == Some(true)
      && Finalizer.AssessSatisfaction(replies.assessment.reply).score >= SatisfactionThreshold
  {
    var scored := Rescored(Recorded(s, answer, now), TurnScore(s, answer, now, replies.update));
    ShouldContinueLowConfidence(scored, replies.assessment);
    ConcludeShape(scored, replies);
  }

  /**
   * A completed session is not rejected: the turn runs, the session stays
   * marked complete, and a turn that continues answers with a new question
   * and "not complete" while the stored session is still complete.
   */
  lemma TurnOnCompletedSession(s: Session, answer: string, now: int, score: ConfidenceScore, replies: TurnReplies)
    requires score.doctors != [] && s.isComplete
    ensures var t := Turn(s, answer, now, score, replies);
      t.0.isComplete && t.0.updatedAt == now
      && (!t.1.isComplete ==> t.1.question.Some?)
  {
    ConcludeShape(Rescored(Recorded(s, answer, now), score), replies);
  }

  /**
   * Recording an answer: over an answered last entry the number of answered
   * entries stays the same, over a pending one it grows by one.
   */
  lemma WriteAnswerCount(h: seq<Entry>, answer: string)
    requires h != [] && answer != ""
    ensures Answered(h[|h| - 1]) ==> AnsweredCount(WriteAnswer(h, answer)) == AnsweredCount(h)
    ensures !Answered(h[|h| - 1]) ==> AnsweredCount(WriteAnswer(h, answer)) == AnsweredCount(h) + 1
  {
    var w := WriteAnswer(h, answer);
    assert w[..|w| - 1] == h[..|h| - 1];
  }

  /**
   * When a turn's question comes from the manager's or the generator's
   * fallback, no pending entry is appended, so the next answer overwrites
   * the last answered entry and the answered count does not grow.
   */
  lemma FallbackTurnLosesNextAnswer(s: Session, a1: string, a2: string, now1: int, now2: int,
                                    score1: ConfidenceScore, score2: ConfidenceScore, r1: TurnReplies, r2: TurnReplies)
    requires score1.doctors != [] && score2.doctors != [] && s.history != [] && a1 != "" && a2 != ""
    requires r1.question.Unavailable? || r1.question.reply.Raised?
    requires !Turn(s, a1, now1, score1, r1).1.isComplete
    ensures var first := Turn(s, a1, now1, score1, r1).0;
      var second := Turn(first, a2, now2, score2, r2).0;
      first.history == WriteAnswer(s.history, a1)
      && AnsweredCount(WriteAnswer(first.history, a2)) == AnsweredCount(first.history)
      && |second.history| >= |s.history|
      && second.history[|s.history| - 1] == Entry(s.history[|s.history| - 1].question, a2)
  {
    var scored := Rescored(Recorded(s, a1, now1), score1);
    ConcludeShape(scored, r1);
    NextQuestionShape(scored, r1.question);
    var first := Turn(s, a1, now1, score1, r1).0;
    WriteAnswerCount(first.history, a2);
    TurnRecordsAnswer(first, a2, now2, score2, r2);
  }

  // ---------------------------------------------------------------------------
  // The store
  // ---------------------------------------------------------------------------

  /** A session's leading doctor is the one its score picks, and the score has a weight. */
  predicate Consistent(s: Session) {
    s.confidence.doctors != [] && s.leadingDoctor == LeadingDoctor(s.confidence.doctors)
  }

  /** Every stored session is filed under its own id and is consistent. */
  predicate Stored(m: map<string, Session>) {
    forall id | id in m :: m[id].id == id && Consistent(m[id])
  }

  lemma StoredUpdate(m: map<string, Session>, s: Session)
    requires Stored(m) && Consistent(s)
    ensures Stored(m[s.id := s])
  {
  }

  lemma StoredRemove(m: map<string, Session>, ids: set<string>)
    requires Stored(m)
    ensures Stored(m - ids)
  {
  }

  /** The message of the error raised for an unknown session. */
  function NotFound(id: string): string {
    "Session " + id + " not found"
  }

  // ---------------------------------------------------------------------------
  // Removing stale sessions
  // ---------------------------------------------------------------------------

  /** Untouched for longer than `maxAgeHours` hours at time `now` (seconds). */
  predicate Expired(s: Session, now: int, maxAgeHours: int) {
    now - s.updatedAt > maxAgeHours * 3600
  }

  /** The ids of the expired sessions, as the cleanup collects them. */
  function StaleIds(m: map<string, Session>, now: int, maxAgeHours: int): set<string> {
    set id | id in m && Expired(m[id], now, maxAgeHours)
  }

  /** The store without its expired sessions. */
  function Pruned(m: map<string, Session>, now: int, maxAgeHours: int): (r: map<string, Session>)
    ensures forall id | id in r :: id in m && r[id] == m[id] && !Expired(m[id], now, maxAgeHours)
    ensures forall id | id in m && !Expired(m[id], now, maxAgeHours) :: id in r
  {
    m - StaleIds(m, now, maxAgeHours)
  }

  /** Pruning twice at the same time removes nothing more. */
  lemma PrunedIdempotent(m: map<string, Session>, now: int, maxAgeHours: int)
    ensures Pruned(Pruned(m, now, maxAgeHours), now, maxAgeHours) == Pruned(m, now, maxAgeHours)
  {
    var p := Pruned(m, now, maxAgeHours);
    assert StaleIds(p, now, maxAgeHours) == {};
  }

  /** A later prune with the same window keeps no session an earlier one removed. */
  lemma PrunedMonotone(m: map<string, Session>, t1: int, t2: int, maxAgeHours: int)
    requires t1 <= t2
    ensures forall id | id in Pruned(m, t2, maxAgeHours) :: id in Pruned(m, t1, maxAgeHours)
  {
  }

  /** Storing twice under one key keeps the second value only. */
  lemma Overwrite<K, V>(m: map<K, V>, k: K, a: V, b: V)
    ensures m[k := a][k := b] == m[k := b]
  {
  }

  /** Removing the ids one at a time. */
  lemma RemoveOneMore<K, V>(m: map<K, V>, removed: set<K>, k: K)
    ensures (m - removed) - {k} == m - (removed + {k})
  {
  }

  // ---------------------------------------------------------------------------
  // The manager
  // ---------------------------------------------------------------------------

  class SessionManager {
    /** The in-memory store, by session id. */
    var sessions: map<string, Session>

    predicate Valid()
      reads this
    {
      Stored(sessions)
    }

    constructor()
      ensures sessions == map[] && Valid()
    {
      sessions := map[];
    }

    /** `get_session`. */
    function GetSession(id: string): (r: Option<Session>)
      reads this
      ensures r.Some? <==> id in sessions
      ensures r.Some? ==> r.value == sessions[id]
    {
      if id in sessions then Some(sessions[id]) else None
    }

    /** `start_session` with the new session's id and the current time. */
    method StartSession(id: string, condition: string, now: int,
                        initial: Component<Reply<Calculator.ConfidenceFields>>,
                        question: Component<Reply<QuestionFields>>)
      returns (response: SessionStartResponse)
      requires Valid()
      modifies this
      ensures Valid()
      ensures var t := Start(id, condition, now, StartConfidence(condition, initial), question);
        sessions == old(sessions)[id := t.0] && response == t.1
    {
      var confidence := CalculateInitialConfidence(condition, initial);
      var session := NewSession(id, condition, confidence, LeadingDoctor(confidence.doctors), now);
      sessions := sessions[id := session];
      var next := NextQuestion(session, question);
      session := session.(history := next.1);
      sessions := sessions[id := session];
      response := SessionStartResponse(id, next.0, confidence);
      assert (session, response) == Start(id, condition, now, confidence, question);
      Overwrite(old(sessions), id, NewSession(id, condition, confidence, LeadingDoctor(confidence.doctors), now), session);
      StartShape(id, condition, now, confidence, question);
      StoredUpdate(old(sessions), session);
    }

    /**
     * `process_answer_and_get_next_question`: an unknown id is an error that
     * changes nothing; otherwise the turn runs on the stored session.
     */
    method ProcessAnswer(id: string, answer: string, now: int, replies: TurnReplies)
      returns (r: Result<NextQuestionResponse, string>)
      requires Valid()
      modifies this
      ensures Valid()
      ensures id !in old(sessions) ==> r == Failure(NotFound(id)) && sessions == old(sessions)
      ensures id in old(sessions) ==>
        var t := Turn(old(sessions)[id], answer, now, TurnScore(old(sessions)[id], answer, now, replies.update), replies);
        r == Success(t.1) && sessions == old(sessions)[id := t.0]
    {
      if id !in sessions {
        return Failure(NotFound(id));
      }
      var session := sessions[id];
      if session.history != [] {
        var n := |session.history|;
        session := session.(history := session.history[..n - 1] + [Entry(session.history[n - 1].question, answer)]);
      }
      session := session.(updatedAt := now);
      assert session == Recorded(sessions[id], answer, now);
      var confidence := UpdateConfidenceWithAnswer(session, answer, replies.update);
      assert confidence == TurnScore(old(sessions)[id], answer, now, replies.update);
      session := Rescored(session, confidence);
      var t := Conclude(session, replies);
      assert t == Turn(old(sessions)[id], answer, now, confidence, replies);
      r := Success(t.1);
      sessions := sessions[id := t.0];
      StoredUpdate(old(sessions), t.0);
    }

    /** `_calculate_initial_confidence`: the calculator's score, or the fixed fallback score. */
    method CalculateInitialConfidence(condition: string, initial: Component<Reply<Calculator.ConfidenceFields>>)
      returns (confidence: ConfidenceScore)
      ensures confidence == StartConfidence(condition, initial)
    {
      if initial.Unavailable? {
        confidence := ConfidenceScore(0.3, Calculator.FallbackDoctors, "Initial assessment based on condition keywords");
      } else {
        confidence := Calculator.CalculateInitialConfidence(condition, initial.reply);
      }
    }

    /** `_update_confidence_with_answer`: the calculator's update, or the current score. */
    method UpdateConfidenceWithAnswer(session: Session, answer: string, update: Component<Reply<Calculator.ConfidenceFields>>)
      returns (confidence: ConfidenceScore)
      requires session.confidence.doctors != []
      ensures confidence == UpdatedScore(session, answer, update)
    {
      confidence := session.confidence;
      if update.Available? {
        confidence := Calculator.UpdateConfidence(session.initialCondition, session.history, answer, update.reply);
      }
    }

    /** `cleanup_old_sessions`: every session untouched for longer than the window is removed. */
    method CleanupOldSessions(now: int, maxAgeHours: int)
      requires Valid()
      modifies this
      ensures Valid()
      ensures sessions == Pruned(old(sessions), now, maxAgeHours)
    {
      var expired := StaleIds(sessions, now, maxAgeHours);
      RemoveAll(expired);
      StoredRemove(old(sessions), expired);
    }

    /** The deletion loop of the cleanup: the listed ids are removed one by one. */
    method RemoveAll(ids: set<string>)
      modifies this
      ensures sessions == old(sessions) - ids
    {
      ghost var removed: set<string> := {};
      var rest := ids;
      while rest != {}
        invariant rest <= ids && removed == ids - rest
        invariant sessions == old(sessions) - removed
        decreases |rest|
      {
        var id :| id in rest;
        RemoveOneMore(old(sessions), removed, id);
        sessions := sessions - {id};
        rest := rest - {id};
        removed := removed + {id};
      }
    }
  }
}
