/**
 * The batch pipeline: a fixed sequence of steps over one `AgentState`
 * object (questions; answers processed; knowledge-base query; doctor
 * identification; summary), each of which records its step name and has a
 * fallback of its own.
 */
module Agent {
  import opened Wrappers
  import opened Text
  import opened Oracle
  import opened Models
  import opened AgentTools

  // ---------------------------------------------------------------------------
  // Converting the question tool's result
  // ---------------------------------------------------------------------------

  /** `QuestionOption(text=opt["text"], is_other=opt["is_other"])`: a missing key raises. */
  function ConvertOption(f: OptionFields): (r: Option<QuestionOption>)
    ensures r.Some? <==> f.text.Some? && f.isOther.Some?
    ensures r.Some? ==> r.value.text == f.text.value && r.value.isOther == f.isOther.value
  {
    if f.text.Some? && f.isOther.Some? then Some(QuestionOption(f.text.value, f.isOther.value)) else None
  }

  predicate AllOptionsConvert(raw: seq<OptionFields>) {
    forall i | 0 <= i < |raw| :: ConvertOption(raw[i]).Some?
  }

  /** The options of one question, all converted, or None when one of them lacks a key. */
  function ConvertOptions(raw: seq<OptionFields>): Option<seq<QuestionOption>> {
    if AllOptionsConvert(raw)
    then Some(seq(|raw|, i requires 0 <= i < |raw| && AllOptionsConvert(raw) => ConvertOption(raw[i]).value))
    else None
  }

  /** One question: its options default to none, but its text is required. */
  function ConvertQuestion(f: QuestionFields): (r: Option<FollowUpQuestion>)
    ensures r.Some? <==> f.question.Some? && ConvertOptions(f.options.GetOr([])).Some?
  {
    match ConvertOptions(f.options.GetOr([]))
    case None => None
    case Some(options) =>
      if f.question.Some? then Some(FollowUpQuestion(f.question.value, options)) else None
  }

  predicate AllQuestionsConvert(raw: seq<QuestionFields>) {
    forall i | 0 <= i < |raw| :: ConvertQuestion(raw[i]).Some?
  }

  /** All questions converted, or None when one of them raises. */
  function ConvertQuestions(raw: seq<QuestionFields>): (r: Option<seq<FollowUpQuestion>>)
    ensures r.Some? <==> AllQuestionsConvert(raw)
    ensures r.Some? ==> |r.value| == |raw| && forall i | 0 <= i < |raw| :: ConvertQuestion(raw[i]) == Some(r.value[i])
  {
    if AllQuestionsConvert(raw)
    then Some(seq(|raw|, i requires 0 <= i < |raw| && AllQuestionsConvert(raw) => ConvertQuestion(raw[i]).value))
    else None
  }

  /** Converting a question written out with all of its keys gives the question back. */
  lemma ConvertRawQuestion(q: FollowUpQuestion)
    ensures ConvertQuestion(RawQuestion(q)) == Some(q)
  {
    var raw := RawQuestion(q).options.value;
    assert forall i | 0 <= i < |raw| :: raw[i] == RawOption(q.options[i]);
    assert AllOptionsConvert(raw);
    assert ConvertOptions(raw).value == q.options;
  }

  /** The round trip holds for a whole list of questions. */
  lemma ConvertRawQuestions(qs: seq<FollowUpQuestion>)
    ensures ConvertQuestions(RawQuestions(qs)) == Some(qs)
  {
    var raw := RawQuestions(qs);
    forall i | 0 <= i < |raw|
      ensures ConvertQuestion(raw[i]) == Some(qs[i])
    {
      ConvertRawQuestion(qs[i]);
    }
    assert AllQuestionsConvert(raw);
    var converted := ConvertQuestions(raw).value;
    assert forall i | 0 <= i < |qs| :: converted[i] == qs[i];
    assert converted == qs;
  }

  /**
   * The questions step's outcome: the converted questions of the tool's
   * result (none when it has no `questions` key), or the four fallback
   * questions when the tool raises or a conversion does.
   */
  function QuestionsFor(reply: Reply<Option<seq<QuestionFields>>>): (r: seq<FollowUpQuestion>)
    ensures reply.Raised? ==> r == FourQuestionFallback
    ensures reply.Parsed? && !AllQuestionsConvert(reply.fields.GetOr([])) ==> r == FourQuestionFallback
    ensures reply.Parsed? && reply.fields.None? ==> r == []
  {
    match QuestionTool(reply)
    case None => FourQuestionFallback
    case Some(raw) =>
      match ConvertQuestions(raw.GetOr([]))
      case None => FourQuestionFallback
      case Some(questions) => questions
  }

  /**
   * The tool's own fallback for a reply that is not JSON converts to
   * exactly the step's fallback: both paths give the same four questions.
   */
  lemma QuestionsForMalformed()
    ensures QuestionsFor(Malformed) == FourQuestionFallback
  {
    ConvertRawQuestions(FourQuestionFallback);
  }

  /** The step falls back exactly when the tool raises or some question cannot be converted. */
  lemma QuestionsForParsed(raw: Option<seq<QuestionFields>>)
    ensures AllQuestionsConvert(raw.GetOr([])) ==> QuestionsFor(Parsed(raw)) == ConvertQuestions(raw.GetOr([])).value
    ensures !AllQuestionsConvert(raw.GetOr([])) ==> QuestionsFor(Parsed(raw)) == FourQuestionFallback
    ensures raw.None? ==> QuestionsFor(Parsed(raw)) == []
  {
  }

  // ---------------------------------------------------------------------------
  // The steps
  // ---------------------------------------------------------------------------

  /** The questions step: the loop converts the tool's questions one by one. */
  method GenerateQuestionsNode(state: AgentState, reply: Reply<Option<seq<QuestionFields>>>)
    modifies state
    ensures state.questions == QuestionsFor(reply)
    ensures state.currentStep == "questions_generated"
    ensures state.initialCondition == old(state.initialCondition) && state.answers == old(state.answers)
    ensures state.ragContext == old(state.ragContext) && state.recommendation == old(state.recommendation)
    ensures state.summary == old(state.summary)
  {
    state.currentStep := "questions_generated";
    var result := QuestionTool(reply);
    if result.None? {
      state.questions := FourQuestionFallback;
      return;
    }
    var raw := result.value.GetOr([]);
    var questions: seq<FollowUpQuestion> := [];
    for i := 0 to |raw|
      invariant |questions| == i
      invariant forall j | 0 <= j < i :: ConvertQuestion(raw[j]) == Some(questions[j])
    {
      var q := ConvertQuestion(raw[i]);
      if q.None? {
        state.questions := FourQuestionFallback;
        return;
      }
      questions := questions + [q.value];
    }
    assert AllQuestionsConvert(raw);
    state.questions := questions;
  }

  /** The answers step only records its name. */
  method ProcessAnswersNode(state: AgentState)
    modifies state
    ensures state.currentStep == "answers_processed"
    ensures state.initialCondition == old(state.initialCondition) && state.answers == old(state.answers)
    ensures state.questions == old(state.questions) && state.ragContext == old(state.ragContext)
    ensures state.recommendation == old(state.recommendation) && state.summary == old(state.summary)
  {
    state.currentStep := "answers_processed";
  }

  /** The answer text of the query: `selected_option or custom_answer or ""`. */
  function QueryAnswerText(a: UserAnswer): string {
    ToolAnswer(a).GetOr("")
  }

  /**
   * The query renders an answer as the tools do, except that an answer with
   * neither an option nor a custom text is "" here and "None" in the tools.
   */
  lemma QueryAnswerTextVersusTools(a: UserAnswer)
    ensures ToolAnswer(a).Some? ==> QueryAnswerText(a) == Str(ToolAnswer(a))
    ensures ToolAnswer(a).None? ==> QueryAnswerText(a) == "" && Str(ToolAnswer(a)) == "None"
  {
  }

  /** The line of the answer numbered `n`. */
  function AnswerLine(a: UserAnswer, n: nat): string {
    "Answer " + NatToString(n) + ": " + QueryAnswerText(a) + "\n"
  }

  /** The knowledge-base query: the condition line, then one line per answer. */
  function RagQuery(condition: string, answers: seq<UserAnswer>): (r: string)
    ensures StartsWith(r, "Initial condition: " + condition + "\n")
  {
    "Initial condition: " + condition + "\n" + Joined(answers, AnswerLine)
  }

  lemma RagQueryAppend(condition: string, answers: seq<UserAnswer>, a: UserAnswer)
    ensures RagQuery(condition, answers + [a]) == RagQuery(condition, answers) + AnswerLine(a, |answers| + 1)
  {
    JoinedAppend(answers, a, AnswerLine);
  }

  /** The loop that builds the query. */
  method BuildRagQuery(condition: string, answers: seq<UserAnswer>) returns (query: string)
    ensures query == RagQuery(condition, answers)
  {
    query := "Initial condition: " + condition + "\n";
    for i := 0 to |answers|
      invariant query == RagQuery(condition, answers[..i])
    {
      assert answers[..i + 1] == answers[..i] + [answers[i]];
      RagQueryAppend(condition, answers[..i], answers[i]);
      query := query + AnswerLine(answers[i], i + 1);
    }
    assert answers[..|answers|] == answers;
  }

  /** Every answer has its numbered line in the query. */
  lemma RagQueryShowsAnswer(condition: string, answers: seq<UserAnswer>, i: nat)
    requires i < |answers|
    ensures Contains(RagQuery(condition, answers), "Answer " + NatToString(i + 1) + ": " + QueryAnswerText(answers[i]) + "\n")
  {
    JoinedShows(answers, AnswerLine, i);
    ContainsRight("Initial condition: " + condition + "\n", Joined(answers, AnswerLine));
    ContainsTransitive(RagQuery(condition, answers), Joined(answers, AnswerLine), AnswerLine(answers[i], i + 1));
  }

  /**
   * The knowledge-base step.  `search` stands for the retrieval tool, which
   * yields None whenever its own search fails; the step then keeps no
   * context.
   */
  method QueryRagNode(state: AgentState, search: string -> Option<seq<string>>)
    modifies state
    ensures state.ragContext == search(RagQuery(old(state.initialCondition), old(state.answers))).GetOr([])
    ensures state.currentStep == "rag_queried"
    ensures state.initialCondition == old(state.initialCondition) && state.answers == old(state.answers)
    ensures state.questions == old(state.questions)
    ensures state.recommendation == old(state.recommendation) && state.summary == old(state.summary)
  {
    var query := BuildRagQuery(state.initialCondition, state.answers);
    state.ragContext := search(query).GetOr([]);
    state.currentStep := "rag_queried";
  }

  /** The reasoning used when the tool gives none, and by the step's own fallback. */
  const GeneralReasoning: string := "General eye specialist for comprehensive evaluation"

  /**
   * The recommendation the identification step records: the tool's doctor
   * type with its reasoning (or the general one when it has none); when the
   * reasoning is not a string the record cannot be built and the step falls
   * back to the general specialist.
   */
  function Recommend(condition: string, answers: seq<UserAnswer>, reply: Reply<IdentificationFields>): (r: DoctorRecommendation)
    ensures IsAllowed(r.doctorType)
  {
    var id := IdentifyDoctor(condition, answers, reply);
    match id.reasoning
    case Absent => DoctorRecommendation(id.doctorType, GeneralReasoning)
    case Given(text) => DoctorRecommendation(id.doctorType, text)
    case Mistyped => DoctorRecommendation("Ophthalmologist", GeneralReasoning)
  }

  /**
   * The recommendation names the tool's doctor type unless the reasoning is
   * not a string; the reasoning defaults to the general one.
   */
  lemma RecommendKeepsToolChoice(condition: string, answers: seq<UserAnswer>, reply: Reply<IdentificationFields>)
    ensures var id := IdentifyDoctor(condition, answers, reply);
      var r := Recommend(condition, answers, reply);
      (id.reasoning.Mistyped? ==> r == DoctorRecommendation("Ophthalmologist", GeneralReasoning))
      && (id.reasoning.Absent? ==> r == DoctorRecommendation(id.doctorType, GeneralReasoning))
      && (id.reasoning.Given? ==> r == DoctorRecommendation(id.doctorType, id.reasoning.value))
  {
  }

  /** The identification step always leaves a recommendation of an allowed specialist. */
  method IdentifyDoctorNode(state: AgentState, reply: Reply<IdentificationFields>)
    modifies state
    ensures state.recommendation == Some(Recommend(old(state.initialCondition), old(state.answers), reply))
    ensures state.currentStep == "doctor_identified"
    ensures state.initialCondition == old(state.initialCondition) && state.answers == old(state.answers)
    ensures state.questions == old(state.questions) && state.ragContext == old(state.ragContext)
    ensures state.summary == old(state.summary)
  {
    var recommendation := Recommend(state.initialCondition, state.answers, reply);
    state.recommendation := Some(recommendation);
    state.currentStep := "doctor_identified";
  }

  /** The doctor type the summary is written for. */
  function SummaryDoctor(recommendation: Option<DoctorRecommendation>): string {
    match recommendation
    case Some(r) => r.doctorType
    case None => "Ophthalmologist"
  }

  /** The summary step: the summary tool's text for the recommended doctor type. */
  method GenerateSummaryNode(state: AgentState, reply: Option<string>)
    modifies state
    ensures state.summary == SummaryTool(old(state.initialCondition), SummaryDoctor(old(state.recommendation)), reply)
    ensures state.currentStep == "summary_generated"
    ensures state.initialCondition == old(state.initialCondition) && state.answers == old(state.answers)
    ensures state.questions == old(state.questions) && state.ragContext == old(state.ragContext)
    ensures state.recommendation == old(state.recommendation)
  {
    state.summary := SummaryTool(state.initialCondition, SummaryDoctor(state.recommendation), reply);
    state.currentStep := "summary_generated";
  }

  // ---------------------------------------------------------------------------
  // The entry points
  // ---------------------------------------------------------------------------

  /** `generate_questions`: the questions step alone, on a fresh state. */
  method GenerateQuestions(condition: string, reply: Reply<Option<seq<QuestionFields>>>) returns (questions: seq<FollowUpQuestion>)
    ensures questions == QuestionsFor(reply)
    ensures reply.Raised? || reply.Malformed? ==> questions == FourQuestionFallback
  {
    var state := new AgentState(condition, []);
    GenerateQuestionsNode(state, reply);
    questions := state.questions;
    if reply.Malformed? {
      QuestionsForMalformed();
    }
  }

  /**
   * `process_complete_flow`: from the answers, the query, identification and
   * summary steps in that order.  The summary is written for the doctor the
   * identification step chose, and the run ends at "summary_generated".
   */
  method ProcessCompleteFlow(condition: string, answers: seq<UserAnswer>,
                             search: string -> Option<seq<string>>,
                             identification: Reply<IdentificationFields>, summaryReply: Option<string>)
    returns (state: AgentState)
    ensures fresh(state)
    ensures state.currentStep == "summary_generated"
    ensures state.initialCondition == condition && state.answers == answers && state.questions == []
    ensures state.ragContext == search(RagQuery(condition, answers)).GetOr([])
    ensures state.recommendation == Some(Recommend(condition, answers, identification))
    ensures IsAllowed(state.recommendation.value.doctorType)
    ensures state.summary == SummaryTool(condition, state.recommendation.value.doctorType, summaryReply)
  {
    state := new AgentState(condition, answers);
    state.currentStep := "answers_processed";
    QueryRagNode(state, search);
    IdentifyDoctorNode(state, identification);
    GenerateSummaryNode(state, summaryReply);
  }
}
