/**
 * The batch pipeline's tools: the four-question generator's fallback, and
 * the doctor identification with its name normalisation and its keyword
 * fallback, which together always yield one of the four allowed specialists.
 */
module AgentTools {
  import opened Wrappers
  import opened Text
  import opened Oracle
  import opened Models

  // ---------------------------------------------------------------------------
  // Answers as the tools read them
  // ---------------------------------------------------------------------------

  /**
   * `selected_option or custom_answer`: the selected option when it is a
   * non-empty string, otherwise the custom answer, which may be missing.
   */
  function ToolAnswer(a: UserAnswer): (r: Option<string>)
    ensures r.None? <==> a.selectedOption.GetOr("") == "" && a.customAnswer.None?
    ensures a.selectedOption.GetOr("") != "" ==> r == a.selectedOption
    ensures a.selectedOption.GetOr("") == "" ==> r == a.customAnswer
  {
    if a.selectedOption.GetOr("") != "" then a.selectedOption else a.customAnswer
  }

  /** `str(...)` of an optional string: a missing one renders as "None". */
  function Str(o: Option<string>): string {
    match o
    case Some(s) => s
    case None => "None"
  }

  // ---------------------------------------------------------------------------
  // First matching rule
  // ---------------------------------------------------------------------------

  /** A rule: when one of the keywords occurs, the target is chosen. */
  datatype Rule = Rule(keywords: seq<string>, target: string)

  /** `any(keyword in text for keyword in keywords)`. */
  predicate Mentions(text: string, keywords: seq<string>) {
    exists i | 0 <= i < |keywords| :: Contains(text, keywords[i])
  }

  /**
   * The target of the first rule one of whose keywords occurs in `text`, or
   * `default` when no rule's keyword does: an `if`/`elif` chain of `any`
   * tests.
   */
  function FirstMatch(rules: seq<Rule>, text: string, default: string): (r: string)
    ensures r == default || exists k | 0 <= k < |rules| :: r == rules[k].target
  {
    if rules == [] then default
    else if Mentions(text, rules[0].keywords) then rules[0].target
    else
      var r := FirstMatch(rules[1..], text, default);
      assert r != default ==> exists k | 0 <= k < |rules[1..]| :: r == rules[1..][k].target;
      r
  }

  /** The first rule that fires decides. */
  lemma {:induction false} FirstMatchPicks(rules: seq<Rule>, text: string, default: string, k: nat)
    requires k < |rules| && Mentions(text, rules[k].keywords)
    requires forall j | 0 <= j < k :: !Mentions(text, rules[j].keywords)
    ensures FirstMatch(rules, text, default) == rules[k].target
    decreases k
  {
    if k > 0 {
      assert !Mentions(text, rules[0].keywords);
      assert forall j | 0 <= j < k - 1 :: rules[1..][j] == rules[j + 1];
      FirstMatchPicks(rules[1..], text, default, k - 1);
    }
  }

  /** When no rule fires, the default is chosen. */
  lemma {:induction false} FirstMatchDefault(rules: seq<Rule>, text: string, default: string)
    requires forall j | 0 <= j < |rules| :: !Mentions(text, rules[j].keywords)
    ensures FirstMatch(rules, text, default) == default
    decreases |rules|
  {
    if rules != [] {
      assert !Mentions(text, rules[0].keywords);
      assert forall j | 0 <= j < |rules| - 1 :: rules[1..][j] == rules[j + 1];
      FirstMatchDefault(rules[1..], text, default);
    }
  }

  /**
   * Conversely, with distinct targets none of which is the default, a rule's
   * target is chosen only when that rule fires and no earlier one does.
   */
  lemma {:induction false} FirstMatchChosen(rules: seq<Rule>, text: string, default: string, k: nat)
    requires k < |rules|
    requires forall i, j | 0 <= i < j < |rules| :: rules[i].target != rules[j].target
    requires forall j | 0 <= j < |rules| :: rules[j].target != default
    requires FirstMatch(rules, text, default) == rules[k].target
    ensures Mentions(text, rules[k].keywords)
    ensures forall j | 0 <= j < k :: !Mentions(text, rules[j].keywords)
    decreases k
  {
    var rest := rules[1..];
    if !Mentions(text, rules[0].keywords) {
      var r := FirstMatch(rest, text, default);
      if k == 0 {
        assert false;
      }
      assert forall j | 0 <= j < |rest| :: rest[j] == rules[j + 1];
      FirstMatchChosen(rest, text, default, k - 1);
    }
  }

  // ---------------------------------------------------------------------------
  // Doctor-type normalisation
  // ---------------------------------------------------------------------------

  /** The normalisation's tests, in priority order. */
  const NormalizationRules: seq<Rule> := [
    Rule(["ophthalmologist"], "Ophthalmologist"),
    Rule(["optometrist"], "Optometrist"),
    Rule(["optician"], "Optician"),
    Rule(["surgeon", "surgical"], "Ocular Surgeon")
  ]

  /** Every rule of a table leads to an allowed specialist. */
  predicate TargetsAllowed(rules: seq<Rule>) {
    forall k | 0 <= k < |rules| :: IsAllowed(rules[k].target)
  }

  lemma NormalizationTargetsAllowed()
    ensures TargetsAllowed(NormalizationRules)
  {
  }

  /**
   * `_normalize_doctor_type`: "" becomes "Ophthalmologist"; otherwise the
   * stripped, lower-cased text is searched for the specialists' names in
   * priority order, and a text that mentions none is returned unchanged.
   */
  function NormalizeDoctorType(doctorType: string): (r: string)
    ensures doctorType == "" ==> r == "Ophthalmologist"
    ensures IsAllowed(r) || r == doctorType
  {
    if doctorType == "" then "Ophthalmologist"
    else
      assert TargetsAllowed(NormalizationRules);
      FirstMatch(NormalizationRules, Lower(Trim(doctorType)), doctorType)
  }

  /** The first specialist named in the stripped, lower-cased text is the one chosen. */
  lemma NormalizePriority(doctorType: string, k: nat)
    requires doctorType != "" && k < |NormalizationRules|
    requires Mentions(Lower(Trim(doctorType)), NormalizationRules[k].keywords)
    requires forall j | 0 <= j < k :: !Mentions(Lower(Trim(doctorType)), NormalizationRules[j].keywords)
    ensures NormalizeDoctorType(doctorType) == NormalizationRules[k].target
  {
    FirstMatchPicks(NormalizationRules, Lower(Trim(doctorType)), doctorType, k);
  }

  /** A non-empty text that names no specialist is returned unchanged. */
  lemma NormalizeUnmatched(doctorType: string)
    requires doctorType != ""
    requires forall j | 0 <= j < |NormalizationRules| :: !Mentions(Lower(Trim(doctorType)), NormalizationRules[j].keywords)
    ensures NormalizeDoctorType(doctorType) == doctorType
  {
    FirstMatchDefault(NormalizationRules, Lower(Trim(doctorType)), doctorType);
  }

  /**
   * The outcome depends on the text only up to case and surrounding
   * whitespace, as long as some specialist is named.
   */
  lemma NormalizeIgnoresCase(s: string, t: string, k: nat)
    requires s != "" && t != "" && Lower(Trim(s)) == Lower(Trim(t))
    requires k < |NormalizationRules| && Mentions(Lower(Trim(s)), NormalizationRules[k].keywords)
    ensures NormalizeDoctorType(s) == NormalizeDoctorType(t)
    ensures IsAllowed(NormalizeDoctorType(s))
  {
    var text := Lower(Trim(s));
    FirstMatchFired(NormalizationRules, text, s, t, k);
    NormalizationTargetsAllowed();
    FirstMatchAllowedIff(NormalizationRules, text, s);
  }

  /** Once some rule fires, the default plays no part. */
  lemma FirstMatchFired(rules: seq<Rule>, text: string, d1: string, d2: string, k: nat)
    requires k < |rules| && Mentions(text, rules[k].keywords)
    ensures FirstMatch(rules, text, d1) == FirstMatch(rules, text, d2)
  {
    var first := FirstFiring(rules, text, k);
    FirstMatchPicks(rules, text, d1, first);
    FirstMatchPicks(rules, text, d2, first);
  }

  /** The index of the first rule that fires, given that rule `k` fires. */
  lemma {:induction false} FirstFiring(rules: seq<Rule>, text: string, k: nat) returns (first: nat)
    requires k < |rules| && Mentions(text, rules[k].keywords)
    ensures first <= k && Mentions(text, rules[first].keywords)
    ensures forall j | 0 <= j < first :: !Mentions(text, rules[j].keywords)
    decreases k
  {
    if k == 0 || forall j | 0 <= j < k :: !Mentions(text, rules[j].keywords) {
      first := k;
    } else {
      var j :| 0 <= j < k && Mentions(text, rules[j].keywords);
      first := FirstFiring(rules, text, j);
    }
  }

  /**
   * With a table of allowed targets, the outcome is allowed exactly when
   * the default is or some rule fires.
   */
  lemma FirstMatchAllowedIff(rules: seq<Rule>, text: string, default: string)
    requires TargetsAllowed(rules)
    ensures IsAllowed(FirstMatch(rules, text, default)) <==>
      IsAllowed(default) || exists k | 0 <= k < |rules| :: Mentions(text, rules[k].keywords)
  {
    if exists k | 0 <= k < |rules| :: Mentions(text, rules[k].keywords) {
      var k :| 0 <= k < |rules| && Mentions(text, rules[k].keywords);
      var first := FirstFiring(rules, text, k);
      FirstMatchPicks(rules, text, default, first);
    } else {
      FirstMatchDefault(rules, text, default);
    }
  }

  /**
   * The normalised name is an allowed specialist exactly when the text is
   * empty, names a specialist, or is already allowed.
   */
  lemma NormalizeAllowedIff(doctorType: string)
    ensures IsAllowed(NormalizeDoctorType(doctorType)) <==>
      doctorType == "" || IsAllowed(doctorType)
      || exists k | 0 <= k < |NormalizationRules| :: Mentions(Lower(Trim(doctorType)), NormalizationRules[k].keywords)
  {
    if doctorType != "" {
      assert TargetsAllowed(NormalizationRules);
      FirstMatchAllowedIff(NormalizationRules, Lower(Trim(doctorType)), doctorType);
    }
  }

  // ---------------------------------------------------------------------------
  // The keyword fallback
  // ---------------------------------------------------------------------------

  const SurgeryKeywords: seq<string> := ["surgery", "surgical", "operation", "cataract", "retinal", "severe", "tumor"]
  const VisionKeywords: seq<string> := ["blurry", "vision", "glasses", "contacts", "prescription", "reading", "distance"]
  const FittingKeywords: seq<string> := ["fitting", "adjustment", "frame", "lens"]

  /** The fallback's tests, in priority order; the default is "Ophthalmologist". */
  const FallbackRules: seq<Rule> := [
    Rule(SurgeryKeywords, "Ocular Surgeon"),
    Rule(VisionKeywords, "Optometrist"),
    Rule(FittingKeywords, "Optician")
  ]

  /** The piece an answer adds to the analysed text. */
  function AnswerPiece(a: UserAnswer, n: nat): string {
    " " + Lower(Str(ToolAnswer(a)))
  }

  /** The lower-cased condition followed by each answer's lower-cased text, each after a space. */
  function AnalysisText(condition: string, answers: seq<UserAnswer>): (r: string)
    ensures StartsWith(r, Lower(condition))
  {
    Lower(condition) + Joined(answers, AnswerPiece)
  }

  /** Each answer extends the analysed text by a space and its lower-cased text. */
  lemma AnalysisTextAppend(condition: string, answers: seq<UserAnswer>, a: UserAnswer)
    ensures AnalysisText(condition, answers + [a]) == AnalysisText(condition, answers) + " " + Lower(Str(ToolAnswer(a)))
  {
    JoinedAppend(answers, a, AnswerPiece);
  }

  /** The loop that builds the analysed text. */
  method BuildAnalysisText(condition: string, answers: seq<UserAnswer>) returns (text: string)
    ensures text == AnalysisText(condition, answers)
  {
    text := Lower(condition);
    for i := 0 to |answers|
      invariant text == AnalysisText(condition, answers[..i])
    {
      assert answers[..i + 1] == answers[..i] + [answers[i]];
      AnalysisTextAppend(condition, answers[..i], answers[i]);
      text := text + " " + Lower(Str(ToolAnswer(answers[i])));
    }
    assert answers[..|answers|] == answers;
  }

  /** A keyword in the condition or in any answer is seen by the analysis. */
  lemma AnalysisTextSees(condition: string, answers: seq<UserAnswer>, keyword: string)
    requires Contains(Lower(condition), keyword)
          || exists i | 0 <= i < |answers| :: Contains(Lower(Str(ToolAnswer(answers[i]))), keyword)
    ensures Contains(AnalysisText(condition, answers), keyword)
  {
    var text := AnalysisText(condition, answers);
    var rest := Joined(answers, AnswerPiece);
    if Contains(Lower(condition), keyword) {
      ContainsLeft(Lower(condition), rest);
      ContainsTransitive(text, Lower(condition), keyword);
    } else {
      var i :| 0 <= i < |answers| && Contains(Lower(Str(ToolAnswer(answers[i]))), keyword);
      var piece := AnswerPiece(answers[i], i + 1);
      ContainsRight(" ", Lower(Str(ToolAnswer(answers[i]))));
      ContainsTransitive(piece, Lower(Str(ToolAnswer(answers[i]))), keyword);
      JoinedShows(answers, AnswerPiece, i);
      ContainsTransitive(rest, piece, keyword);
      ContainsRight(Lower(condition), rest);
      ContainsTransitive(text, rest, keyword);
    }
  }

  /**
   * `_intelligent_fallback`: surgery keywords first, then vision keywords,
   * then fitting keywords, else "Ophthalmologist"; always an allowed
   * specialist.
   */
  function IntelligentFallback(condition: string, answers: seq<UserAnswer>): (r: string)
    ensures IsAllowed(r)
  {
    assert TargetsAllowed(FallbackRules) && IsAllowed("Ophthalmologist");
    FirstMatch(FallbackRules, AnalysisText(condition, answers), "Ophthalmologist")
  }

  /** The priority of the keyword groups. */
  lemma IntelligentFallbackPriority(condition: string, answers: seq<UserAnswer>)
    ensures var text := AnalysisText(condition, answers);
      var r := IntelligentFallback(condition, answers);
      (Mentions(text, SurgeryKeywords) ==> r == "Ocular Surgeon")
      && (!Mentions(text, SurgeryKeywords) && Mentions(text, VisionKeywords) ==> r == "Optometrist")
      && (!Mentions(text, SurgeryKeywords) && !Mentions(text, VisionKeywords) && Mentions(text, FittingKeywords) ==> r == "Optician")
      && (!Mentions(text, SurgeryKeywords) && !Mentions(text, VisionKeywords) && !Mentions(text, FittingKeywords) ==> r == "Ophthalmologist")
  {
    var text := AnalysisText(condition, answers);
    var rules := FallbackRules;
    assert rules[0].keywords == SurgeryKeywords && rules[1].keywords == VisionKeywords && rules[2].keywords == FittingKeywords;
    if Mentions(text, SurgeryKeywords) {
      FirstMatchPicks(rules, text, "Ophthalmologist", 0);
    } else if Mentions(text, VisionKeywords) {
      FirstMatchPicks(rules, text, "Ophthalmologist", 1);
    } else if Mentions(text, FittingKeywords) {
      FirstMatchPicks(rules, text, "Ophthalmologist", 2);
    } else {
      FirstMatchDefault(rules, text, "Ophthalmologist");
    }
  }

  // ---------------------------------------------------------------------------
  // Doctor identification
  // ---------------------------------------------------------------------------

  /** A field of a JSON object: missing, of the expected type, or of another type. */
  datatype Field<T> = Absent | Given(value: T) | Mistyped

  /**
   * The fields of the identification reply.  A `doctor_type` that is not a
   * string, or a reply that is not an object, makes the tool's own
   * attribute access raise, which is the `Raised` reply.
   */
  datatype IdentificationFields = IdentificationFields(doctorType: Option<string>, reasoning: Field<string>)

  /** The tool's result: the doctor type it settled on and the reply's reasoning as it was. */
  datatype Identification = Identification(doctorType: string, reasoning: Field<string>)

  const SystemErrorReasoning: string := "Selected based on symptom analysis due to system error"
  const ParsingErrorReasoning: string := "Selected based on symptom analysis due to parsing error"

  /**
   * `DoctorIdentificationTool._run`: the oracle's doctor type, stripped and
   * normalised, when that is allowed; the keyword fallback otherwise and on
   * every failure.  It never raises and always names an allowed specialist.
   */
  function IdentifyDoctor(condition: string, answers: seq<UserAnswer>, reply: Reply<IdentificationFields>): (r: Identification)
    ensures IsAllowed(r.doctorType)
    ensures reply.Raised? ==> r == Identification(IntelligentFallback(condition, answers), Given(SystemErrorReasoning))
    ensures reply.Malformed? ==> r == Identification(IntelligentFallback(condition, answers), Given(ParsingErrorReasoning))
    ensures reply.Parsed? ==> r.reasoning == reply.fields.reasoning
    ensures reply.Parsed? && IsAllowed(NormalizeDoctorType(Trim(reply.fields.doctorType.GetOr("")))) ==>
      r.doctorType == NormalizeDoctorType(Trim(reply.fields.doctorType.GetOr("")))
    ensures reply.Parsed? && !IsAllowed(NormalizeDoctorType(Trim(reply.fields.doctorType.GetOr("")))) ==>
      r.doctorType == IntelligentFallback(condition, answers)
  {
    match reply
    case Raised => Identification(IntelligentFallback(condition, answers), Given(SystemErrorReasoning))
    case Malformed => Identification(IntelligentFallback(condition, answers), Given(ParsingErrorReasoning))
    case Parsed(f) =>
      var normalized := NormalizeDoctorType(Trim(f.doctorType.GetOr("")));
      Identification(if IsAllowed(normalized) then normalized else IntelligentFallback(condition, answers), f.reasoning)
  }

  /** A reply whose doctor type is missing or blank recommends the general specialist. */
  lemma IdentifyBlankType(condition: string, answers: seq<UserAnswer>, f: IdentificationFields)
    requires Trim(f.doctorType.GetOr("")) == ""
    ensures IdentifyDoctor(condition, answers, Parsed(f)).doctorType == "Ophthalmologist"
  {
  }

  // ---------------------------------------------------------------------------
  // The question tool's fallback
  // ---------------------------------------------------------------------------

  /** The four questions used when the generated reply is not valid JSON. */
  const FourQuestionFallback: seq<FollowUpQuestion> := [
    WithOther("How long have you been experiencing these symptoms?",
      "Less than a week", "1-4 weeks", "More than a month"),
    WithOther("How would you describe the severity of your symptoms?",
      "Mild - doesn't interfere with daily activities", "Moderate - sometimes affects daily activities",
      "Severe - significantly impacts daily life"),
    WithOther("Are you experiencing any pain or discomfort?",
      "No pain", "Mild discomfort", "Significant pain"),
    WithOther("Have you had any previous eye problems or treatments?",
      "No previous eye problems", "Minor issues (glasses, contacts)", "Previous eye surgery or treatment")
  ]

  /** Four questions, each with four options of which exactly one, the last, is "Other". */
  lemma FourQuestionFallbackShape()
    ensures |FourQuestionFallback| == 4
    ensures forall i | 0 <= i < |FourQuestionFallback| :: FourWithOtherLast(FourQuestionFallback[i])
  {
  }

  /** An option as a JSON object with both of its keys. */
  function RawOption(o: QuestionOption): OptionFields {
    OptionFields(Some(o.text), Some(o.isOther))
  }

  /** A question as a JSON object with all of its keys. */
  function RawQuestion(q: FollowUpQuestion): QuestionFields {
    QuestionFields(Some(q.question), Some(seq(|q.options|, i requires 0 <= i < |q.options| => RawOption(q.options[i]))))
  }

  function RawQuestions(qs: seq<FollowUpQuestion>): seq<QuestionFields> {
    seq(|qs|, i requires 0 <= i < |qs| => RawQuestion(qs[i]))
  }

  /**
   * `QuestionGenerationTool._run`: the reply's `questions` value as given
   * (None when the key is missing); the four fallback questions when the
   * reply is not valid JSON; any other exception is raised again (None).
   */
  function QuestionTool(reply: Reply<Option<seq<QuestionFields>>>): (r: Option<Option<seq<QuestionFields>>>)
    ensures r.None? <==> reply.Raised?
    ensures reply.Malformed? ==> r == Some(Some(RawQuestions(FourQuestionFallback)))
    ensures reply.Parsed? ==> r == Some(reply.fields)
  {
    match reply
    case Raised => None
    case Malformed => Some(Some(RawQuestions(FourQuestionFallback)))
    case Parsed(questions) => Some(questions)
  }

  // ---------------------------------------------------------------------------
  // The summary tool
  // ---------------------------------------------------------------------------

  /**
   * `SummarizationTool._run`: the oracle's text as it is, or a templated
   * text naming the condition and the doctor type when the call raises.
   */
  function SummaryTool(condition: string, doctorType: string, reply: Option<string>): (summary: string)
    ensures reply.Some? ==> summary == reply.value
    ensures reply.None? ==> Contains(summary, condition) && Contains(summary, doctorType)
  {
    match reply
    case Some(text) => text
    case None =>
      var a := "Patient presents with ";
      var b := ". Requires evaluation by ";
      var summary := a + condition + b + doctorType + ".";
      assert Contains(summary, condition) by {
        ContainsMiddle(a, condition, b + doctorType + ".");
        assert summary == a + condition + (b + doctorType + ".");
      }
      ContainsMiddle(a + condition + b, doctorType, ".");
      summary
  }
}
