/**
 * The follow-up question generator of the interview: one question per turn,
 * asked of the oracle with a context built from the session, appended to the
 * history as a pending entry, and a three-rung fallback ladder when the
 * oracle fails.
 *
 * The generator appends to the history list its caller passes in; here
 * `Generate` returns the history after the call, and the session manager
 * stores it back into the session it belongs to.
 */
module IterativeQuestionGenerator {
  import opened Wrappers
  import opened Text
  import opened Oracle
  import opened Models

  // ---------------------------------------------------------------------------
  // The fallback ladder
  // ---------------------------------------------------------------------------

  /** The first rung: asked when the history is empty. */
  const SeverityText: string := "How would you describe the severity of your symptoms?"
  const TimelineText: string := "How long have you been experiencing these symptoms?"
  const SymptomsText: string := "Are you experiencing any additional symptoms?"

  const SeverityQuestion := WithOther(
    SeverityText,
    "Mild - minimal impact on daily activities",
    "Moderate - some impact on daily activities",
    "Severe - significant impact on daily activities")

  /** The second rung: asked after one entry. */
  const TimelineQuestion := WithOther(
    TimelineText,
    "Less than 24 hours", "1-7 days", "More than a week")

  /** The last rung: asked after two entries or more. */
  const SymptomsQuestion := WithOther(
    SymptomsText,
    "No additional symptoms", "Pain or discomfort", "Vision changes")

  /** The fallback question for a history of the given length. */
  function FallbackQuestion(historyLength: nat): (q: FollowUpQuestion)
    ensures FourWithOtherLast(q)
    ensures historyLength == 0 ==> q == SeverityQuestion
    ensures historyLength == 1 ==> q == TimelineQuestion
    ensures historyLength >= 2 ==> q == SymptomsQuestion
  {
    if historyLength == 0 then SeverityQuestion
    else if historyLength == 1 then TimelineQuestion
    else SymptomsQuestion
  }

  /**
   * The ladder has exactly three rungs: two history lengths get the same
   * fallback question iff they are equal or both at least 2.
   */
  lemma FallbackLadder(m: nat, n: nat)
    ensures FallbackQuestion(m) == FallbackQuestion(n) <==> m == n || (m >= 2 && n >= 2)
  {
    assert |SeverityText| == 53 && |TimelineText| == 51 && |SymptomsText| == 45;
  }

  // ---------------------------------------------------------------------------
  // Building the question from the oracle's reply
  // ---------------------------------------------------------------------------

  /** The question text used when the reply has none. */
  const DefaultQuestion: string := "Can you provide more details about your symptoms?"

  /** An option as the reply gives it: missing text becomes "", a missing flag false. */
  function OptionFrom(f: OptionFields): QuestionOption {
    QuestionOption(f.text.GetOr(""), f.isOther.GetOr(false))
  }

  function OptionsFrom(raw: seq<OptionFields>): seq<QuestionOption> {
    seq(|raw|, i requires 0 <= i < |raw| => OptionFrom(raw[i]))
  }

  /**
   * The loop that turns the reply's options into question options: one per
   * reported option, in order, with the defaults for missing fields and no
   * check on how many there are or which is "Other".
   */
  method BuildOptions(raw: seq<OptionFields>) returns (options: seq<QuestionOption>)
    ensures |options| == |raw|
    ensures forall i | 0 <= i < |raw| :: options[i].text == raw[i].text.GetOr("")
    ensures forall i | 0 <= i < |raw| :: options[i].isOther <==> raw[i].isOther == Some(true)
    ensures options == OptionsFrom(raw)
  {
    options := [];
    for i := 0 to |raw|
      invariant |options| == i
      invariant forall j | 0 <= j < i :: options[j] == OptionFrom(raw[j])
    {
      options := options + [QuestionOption(raw[i].text.GetOr(""), raw[i].isOther.GetOr(false))];
    }
  }

  /** The question a parsed reply yields; a missing question text gets the default. */
  function QuestionFrom(f: QuestionFields): (q: FollowUpQuestion)
    ensures q.question == f.question.GetOr(DefaultQuestion)
    ensures |q.options| == |f.options.GetOr([])|
  {
    FollowUpQuestion(f.question.GetOr(DefaultQuestion), OptionsFrom(f.options.GetOr([])))
  }

  /** The option count is not checked: a reply without options yields a question without options. */
  lemma ParsedQuestionUnchecked(f: QuestionFields)
    requires f.options.GetOr([]) == []
    ensures !FourWithOtherLast(QuestionFrom(f))
  {
  }

  /**
   * What the oracle step returns: the parsed question; the severity rung
   * when the reply is not valid JSON (the local handler falls back without
   * the history, so always to the first rung); nothing when an exception
   * escapes it.
   */
  function OracleQuestion(reply: Reply<QuestionFields>): (r: Option<FollowUpQuestion>)
    ensures r.None? <==> reply.Raised?
    ensures reply.Malformed? ==> r == Some(SeverityQuestion)
    ensures reply.Parsed? ==> r == Some(QuestionFrom(reply.fields))
  {
    match reply
    case Raised => None
    case Malformed => Some(FallbackQuestion(0))
    case Parsed(f) => Some(QuestionFrom(f))
  }

  // ---------------------------------------------------------------------------
  // The next question and the history after it
  // ---------------------------------------------------------------------------

  /**
   * `generate_next_question`: on the normal return path the question is
   * appended to the history as a pending entry; when an exception escapes,
   * the ladder's question for the current length is returned and the
   * history is left alone.
   */
  function Generate(h: seq<Entry>, reply: Reply<QuestionFields>): (r: (FollowUpQuestion, seq<Entry>))
    ensures reply.Raised? ==> r.0 == FallbackQuestion(|h|) && r.1 == h
    ensures !reply.Raised? ==> r.0 == OracleQuestion(reply).value && r.1 == h + [Entry(r.0.question, "")]
  {
    match OracleQuestion(reply)
    case Some(q) => (q, h + [Entry(q.question, "")])
    case None => (FallbackQuestion(|h|), h)
  }

  /** The last entry of the history is a pending one. */
  predicate EndsPending(h: seq<Entry>) {
    h != [] && !Answered(h[|h| - 1])
  }

  /**
   * From a fully answered history, generation keeps "at most one pending
   * entry, and it is last", and leaves a pending entry exactly when the
   * oracle step did not raise.
   */
  lemma GenerateKeepsPendingOnlyLast(h: seq<Entry>, reply: Reply<QuestionFields>)
    requires forall i | 0 <= i < |h| :: Answered(h[i])
    ensures PendingOnlyLast(Generate(h, reply).1)
    ensures AnsweredCount(Generate(h, reply).1) == |h|
    ensures EndsPending(Generate(h, reply).1) <==> !reply.Raised?
  {
    var r := Generate(h, reply);
    AnsweredCountAllAnswered(h);
    if !reply.Raised? {
      AppendPendingKeepsInvariant(h, r.0.question);
    }
  }

  // ---------------------------------------------------------------------------
  // The context sent with the prompt
  // ---------------------------------------------------------------------------

  /** The conversation part of the context: present once the history has an entry. */
  function ConversationSection(h: seq<Entry>): string {
    if h != [] then "Previous conversation:\n" + Transcript(h) else ""
  }

  /** The confidence part of the context. */
  function ConfidenceSection(confidence: ConfidenceScore, leading: string): string {
    "Current leading doctor recommendation: " + leading + "\n"
    + "Current overall confidence: " + Fixed2(confidence.overall) + "\n"
    + "Doctor confidence scores:\n" + ScoreLines("  - ", confidence.doctors)
  }

  /** The context the question is generated from. */
  function QuestionContext(condition: string, h: seq<Entry>, confidence: ConfidenceScore, leading: string): (r: string)
    ensures StartsWith(r, "Initial condition: " + condition + "\n\n")
  {
    "Initial condition: " + condition + "\n\n" + ConversationSection(h) + ConfidenceSection(confidence, leading)
  }

  /** The loop-built context, as `_build_context_string` assembles it. */
  method BuildContextString(condition: string, h: seq<Entry>, confidence: ConfidenceScore, leading: string)
    returns (context: string)
    ensures context == QuestionContext(condition, h, confidence, leading)
  {
    var head := "Initial condition: " + condition + "\n\n";
    var conversation := "";
    if |h| > 0 {
      conversation := AppendTranscript("Previous conversation:\n", h);
    }
    var scores := AppendScoreLines("Current leading doctor recommendation: " + leading + "\n"
      + "Current overall confidence: " + Fixed2(confidence.overall) + "\n"
      + "Doctor confidence scores:\n", "  - ", confidence.doctors);
    context := head + conversation + scores;
  }

  /** Every answered exchange is in the context, numbered by its original position. */
  lemma QuestionContextShowsAnswered(condition: string, h: seq<Entry>, confidence: ConfidenceScore, leading: string, i: nat)
    requires i < |h| && Answered(h[i])
    ensures Contains(QuestionContext(condition, h, confidence, leading), Block(i + 1, h[i]))
  {
    var conversation := ConversationSection(h);
    assert Contains(conversation, Block(i + 1, h[i])) by {
      TranscriptShows(h, i);
      ContainsRight("Previous conversation:\n", Transcript(h));
      ContainsTransitive(conversation, Transcript(h), Block(i + 1, h[i]));
    }
    ContainsMiddle("Initial condition: " + condition + "\n\n", conversation, ConfidenceSection(confidence, leading));
    ContainsTransitive(QuestionContext(condition, h, confidence, leading), conversation, Block(i + 1, h[i]));
  }

  /** A pending entry adds nothing to the context of a non-empty history. */
  lemma QuestionContextIgnoresPending(condition: string, h: seq<Entry>, confidence: ConfidenceScore, leading: string, question: string)
    requires h != []
    ensures QuestionContext(condition, h + [Entry(question, "")], confidence, leading) == QuestionContext(condition, h, confidence, leading)
  {
    TranscriptIgnoresPending(h, question);
  }

  /** Every specialist's score has its line in the context. */
  lemma QuestionContextShowsScores(condition: string, h: seq<Entry>, confidence: ConfidenceScore, leading: string, i: nat)
    requires i < |confidence.doctors|
    ensures Contains(QuestionContext(condition, h, confidence, leading), ScoreLine("  - ", confidence.doctors[i]))
  {
    var tail := ConfidenceSection(confidence, leading);
    var line := ScoreLine("  - ", confidence.doctors[i]);
    assert Contains(tail, line) by {
      var lines := ScoreLines("  - ", confidence.doctors);
      ScoreLinesShow("  - ", confidence.doctors, i);
      ContainsRight(tail[..|tail| - |lines|], lines);
      assert tail == tail[..|tail| - |lines|] + lines;
      ContainsTransitive(tail, lines, line);
    }
    ContainsRight("Initial condition: " + condition + "\n\n" + ConversationSection(h), tail);
    ContainsTransitive(QuestionContext(condition, h, confidence, leading), tail, line);
  }
}
