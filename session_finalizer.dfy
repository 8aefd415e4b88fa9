/**
 * The session finalizer: the oracle's verdict on whether enough has been
 * asked, and the final recommendation and summary of a finished session.
 * Every oracle failure has a fallback, so none of these operations raises.
 */
module SessionFinalizer {
  import opened Wrappers
  import opened Text
  import opened Oracle
  import opened Distributions
  import opened Models

  // ---------------------------------------------------------------------------
  // The satisfaction verdict
  // ---------------------------------------------------------------------------

  /**
   * The fields read from the verdict's JSON object: `is_satisfied` as its
   * truth value, `satisfaction_score` after `float(...)`, and `reasoning`.
   */
  datatype SatisfactionFields = SatisfactionFields(isSatisfied: Option<bool>, score: Option<real>, reasoning: Option<string>)

  /** `(is_satisfied, reasoning, satisfaction_score)`. */
  datatype Verdict = Verdict(isSatisfied: bool, reasoning: string, score: real)

  /** The local handler's verdict when the reply is not valid JSON or the score is a string `float()` rejects. */
  const ParseFailureVerdict := Verdict(false, "Unable to properly assess satisfaction, continuing with questions for safety", 0.3)

  /** The verdict when any other exception escapes the assessment. */
  const ErrorVerdict := Verdict(false, "Unable to assess satisfaction, continuing with questions", 0.3)

  /**
   * `assess_agent_satisfaction`: the parsed verdict with its score clamped to
   * [0, 1] (0.5 when absent) and "not satisfied" when the flag is absent;
   * any failure gives an unsatisfied verdict scored 0.3.
   */
  function AssessSatisfaction(reply: Reply<SatisfactionFields>): (v: Verdict)
    ensures InUnitRange(v.score)
    ensures v.isSatisfied <==> reply.Parsed? && reply.fields.isSatisfied == Some(true)
    ensures !reply.Parsed? ==> v.score == 0.3
    ensures reply.Parsed? && reply.fields.score.None? ==> v.score == 0.5
    ensures reply.Parsed? && reply.fields.score.Some? ==>
      var x := reply.fields.score.value;
      (InUnitRange(x) ==> v.score == x) && (x > 1.0 ==> v.score == 1.0) && (x < 0.0 ==> v.score == 0.0)
  {
    match reply
    case Raised => ErrorVerdict
    case Malformed => ParseFailureVerdict
    case Parsed(f) =>
      Verdict(f.isSatisfied.GetOr(false), f.reasoning.GetOr("Unable to assess satisfaction"), Clamp01(f.score.GetOr(0.5)))
  }

  // ---------------------------------------------------------------------------
  // The assessment context
  // ---------------------------------------------------------------------------

  /** The first line of the assessment context, before the condition. */
  const AssessmentIntro := "\nMEDICAL CONSULTATION SESSION ASSESSMENT\n\nInitial Condition: "

  /** The opening of the assessment context, up to the distribution lines. */
  function AssessmentHead(s: Session): string {
    AssessmentIntro + s.initialCondition + ConfidenceLevels(s)
  }

  /** The overall confidence and the leading doctor, after the condition. */
  function ConfidenceLevels(s: Session): string {
    "\n\nCurrent Confidence Levels:\n- Overall Confidence: " + Fixed2(s.confidence.overall)
    + "\n- Leading Doctor: " + s.leadingDoctor + "\n\nDoctor Confidence Distribution:\n"
  }

  /** The header of the conversation part, with the number of entries of the history. */
  function HistoryHeader(n: nat): string {
    "\nConversation History (" + NatToString(n) + " exchanges):\n"
  }

  function ProposedLine(proposed: string): string {
    if proposed != "" then "Proposed Next Question: " + proposed + "\n" else ""
  }

  /** The part of the context after the distribution lines. */
  function AssessmentTail(h: seq<Entry>, proposed: string): string {
    HistoryHeader(|h|) + (Transcript(h) + ProposedLine(proposed))
  }

  /** The part of the context up to the conversation. */
  function AssessmentOpening(s: Session): string {
    AssessmentHead(s) + ScoreLines("- ", s.confidence.doctors)
  }

  /** The opening starts with the title and the condition. */
  lemma OpeningShowsCondition(s: Session)
    ensures StartsWith(AssessmentOpening(s), AssessmentIntro + s.initialCondition)
  {
    var p := AssessmentIntro + s.initialCondition;
    var head := AssessmentHead(s);
    assert head == p + ConfidenceLevels(s);
    assert StartsWith(head, p);
    assert StartsWith(AssessmentOpening(s), head);
    StartsWithTransitive(AssessmentOpening(s), head, p);
  }

  /** The tail ends with the proposed question's line. */
  lemma TailEndsWithProposed(h: seq<Entry>, proposed: string)
    ensures EndsWith(AssessmentTail(h, proposed), ProposedLine(proposed))
  {
    var t := Transcript(h) + ProposedLine(proposed);
    assert EndsWith(AssessmentTail(h, proposed), t) && EndsWith(t, ProposedLine(proposed));
    EndsWithTransitive(AssessmentTail(h, proposed), t, ProposedLine(proposed));
  }

  /** The context the verdict is asked about. */
  function AssessmentContext(s: Session, proposed: string): (r: string)
    ensures StartsWith(r, AssessmentIntro + s.initialCondition)
    ensures proposed != "" ==> EndsWith(r, "Proposed Next Question: " + proposed + "\n")
  {
    var opening := AssessmentOpening(s);
    var tail := AssessmentTail(s.history, proposed);
    OpeningShowsCondition(s);
    assert StartsWith(opening + tail, opening);
    StartsWithTransitive(opening + tail, opening, AssessmentIntro + s.initialCondition);
    TailEndsWithProposed(s.history, proposed);
    assert EndsWith(opening + tail, tail);
    EndsWithTransitive(opening + tail, tail, ProposedLine(proposed));
    AssessmentOpening(s) + AssessmentTail(s.history, proposed)
  }

  /** The loop-built context, as `_build_assessment_context` assembles it. */
  method BuildAssessmentContext(s: Session, proposed: string) returns (context: string)
    ensures context == AssessmentContext(s, proposed)
  {
    context := AppendScoreLines(AssessmentHead(s), "- ", s.confidence.doctors);
    var tail := AppendTranscript(HistoryHeader(|s.history|), s.history);
    var line := "";
    if proposed != "" {
      line := "Proposed Next Question: " + proposed + "\n";
    }
    assert line == ProposedLine(proposed);
    ConcatAssoc(HistoryHeader(|s.history|), Transcript(s.history), line);
    context := context + (tail + line);
  }

  /** The header counts every entry of the history, answered or not. */
  lemma AssessmentContextCountsAll(s: Session, proposed: string)
    ensures Contains(AssessmentContext(s, proposed), HistoryHeader(|s.history|))
  {
    var tail := AssessmentTail(s.history, proposed);
    ContainsLeft(HistoryHeader(|s.history|), Transcript(s.history) + ProposedLine(proposed));
    ContainsRight(AssessmentOpening(s), tail);
    ContainsTransitive(AssessmentContext(s, proposed), tail, HistoryHeader(|s.history|));
  }

  /** Every answered exchange is in the context, numbered by its original position. */
  lemma AssessmentContextShowsAnswered(s: Session, proposed: string, i: nat)
    requires i < |s.history| && Answered(s.history[i])
    ensures Contains(AssessmentContext(s, proposed), Block(i + 1, s.history[i]))
  {
    var h := s.history;
    var tail := AssessmentTail(h, proposed);
    var rest := Transcript(h) + ProposedLine(proposed);
    TranscriptShows(h, i);
    ContainsLeft(Transcript(h), ProposedLine(proposed));
    ContainsTransitive(rest, Transcript(h), Block(i + 1, h[i]));
    ContainsRight(HistoryHeader(|h|), rest);
    ContainsTransitive(tail, rest, Block(i + 1, h[i]));
    ContainsRight(AssessmentOpening(s), tail);
    ContainsTransitive(AssessmentContext(s, proposed), tail, Block(i + 1, h[i]));
  }

  /**
   * A pending entry changes the context only through the count in the
   * header: the rendered exchanges stay as they were.
   */
  lemma AssessmentContextPending(s: Session, proposed: string, question: string)
    ensures AssessmentTail(s.history + [Entry(question, "")], proposed)
         == HistoryHeader(|s.history| + 1) + (Transcript(s.history) + ProposedLine(proposed))
  {
    TranscriptIgnoresPending(s.history, question);
  }

  // ---------------------------------------------------------------------------
  // The summary and the recommendation
  // ---------------------------------------------------------------------------

  /**
   * The medical summary: the oracle's text, stripped; when the call raises,
   * a templated text naming the condition, the number of entries and the
   * leading doctor.  `reply` is None when the call raised.
   */
  function MedicalSummary(s: Session, reply: Option<string>): (summary: string)
    ensures reply.Some? ==> summary == Trim(reply.value)
    ensures reply.None? ==> Contains(summary, s.initialCondition) && Contains(summary, s.leadingDoctor)
  {
    match reply
    case Some(text) => Trim(text)
    case None =>
      var before := "Patient presents with ";
      var middle := ". Based on " + NatToString(|s.history|) + " consultation exchanges, recommend evaluation by ";
      ContainsMiddle(before, s.initialCondition, middle + s.leadingDoctor + ".");
      assert before + s.initialCondition + middle + s.leadingDoctor + "." == before + s.initialCondition + (middle + s.leadingDoctor + ".");
      ContainsMiddle(before + s.initialCondition + middle, s.leadingDoctor, ".");
      before + s.initialCondition + middle + s.leadingDoctor + "."
  }

  /** The fields read from the recommendation's JSON object. */
  datatype RecommendationFields = RecommendationFields(doctorType: Option<string>, reasoning: Option<string>)

  /**
   * The final recommendation: the oracle's doctor type as given, the leading
   * doctor when it gives none or its reply does not parse.  None when an
   * exception other than a parse error escapes (the call itself failed).
   */
  function FinalRecommendation(s: Session, reply: Reply<RecommendationFields>): (r: Option<DoctorRecommendation>)
    ensures r.None? <==> reply.Raised?
    ensures reply.Malformed? ==> r.value.doctorType == s.leadingDoctor
    ensures reply.Parsed? ==> r.value.doctorType == reply.fields.doctorType.GetOr(s.leadingDoctor)
  {
    match reply
    case Raised => None
    case Malformed =>
      Some(DoctorRecommendation(s.leadingDoctor, "Based on consultation analysis and confidence scores, " + s.leadingDoctor + " is the most appropriate specialist"))
    case Parsed(f) =>
      Some(DoctorRecommendation(f.doctorType.GetOr(s.leadingDoctor), f.reasoning.GetOr("Based on consultation analysis, " + s.leadingDoctor + " is recommended")))
  }

  /** The oracle's doctor type is not checked: a name outside the allowed list is recommended as given. */
  lemma FinalRecommendationUnvalidated(s: Session, name: string)
    requires !IsAllowed(name)
    ensures var r := FinalRecommendation(s, Parsed(RecommendationFields(Some(name), None)));
      r.Some? && r.value.doctorType == name && !IsAllowed(r.value.doctorType)
  {
  }

  /** The summary used when the recommendation step raises. */
  function FallbackSummary(s: Session): (summary: string)
    ensures Contains(summary, s.initialCondition)
    ensures Contains(summary, NatToString(|s.history|))
    ensures Contains(summary, s.leadingDoctor)
  {
    var a := "Patient presents with: ";
    var b := "\nConversation covered ";
    var c := " key areas.\nRecommendation: ";
    var n := NatToString(|s.history|);
    var summary := a + s.initialCondition + b + n + c + s.leadingDoctor;
    assert Contains(summary, s.initialCondition) by {
      ContainsMiddle(a, s.initialCondition, b + n + c + s.leadingDoctor);
      assert summary == a + s.initialCondition + (b + n + c + s.leadingDoctor);
    }
    assert Contains(summary, n) by {
      ContainsMiddle(a + s.initialCondition + b, n, c + s.leadingDoctor);
      assert summary == a + s.initialCondition + b + n + (c + s.leadingDoctor);
    }
    ContainsRight(a + s.initialCondition + b + n + c, s.leadingDoctor);
    summary
  }

  /**
   * `finalize_session`: the summary, then the recommendation.  It never
   * raises: when the recommendation step raises, the leading doctor is
   * recommended and the summary already produced is replaced by the
   * fallback one.
   */
  function FinalizeSession(s: Session, summaryReply: Option<string>, recommendationReply: Reply<RecommendationFields>)
    : (r: (DoctorRecommendation, string))
    ensures recommendationReply.Raised? ==> r.0.doctorType == s.leadingDoctor && r.1 == FallbackSummary(s)
    ensures !recommendationReply.Raised? ==>
      Some(r.0) == FinalRecommendation(s, recommendationReply) && r.1 == MedicalSummary(s, summaryReply)
  {
    var summary := MedicalSummary(s, summaryReply);
    match FinalRecommendation(s, recommendationReply)
    case Some(recommendation) => (recommendation, summary)
    case None =>
      (DoctorRecommendation(s.leadingDoctor, "Based on conversation analysis, " + s.leadingDoctor + " appears most appropriate for " + s.initialCondition),
       FallbackSummary(s))
  }

  /**
   * The recommended doctor is the leading doctor unless the oracle parsed
   * and named one; only then can it fall outside the allowed list.
   */
  lemma FinalizeRecommendsLeading(s: Session, summaryReply: Option<string>, recommendationReply: Reply<RecommendationFields>)
    requires IsAllowed(s.leadingDoctor)
    requires !IsAllowed(FinalizeSession(s, summaryReply, recommendationReply).0.doctorType)
    ensures recommendationReply.Parsed? && recommendationReply.fields.doctorType.Some?
    ensures FinalizeSession(s, summaryReply, recommendationReply).0.doctorType == recommendationReply.fields.doctorType.value
  {
  }
}
