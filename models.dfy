/**
 * The records exchanged by the intake service: the four specialist types,
 * confidence scores, the question/answer history, questions, recommendations,
 * sessions, responses and the batch pipeline's state.
 */
module Models {
  import opened Wrappers
  import opened Text
  import opened Distributions

  /** The four eye specialists the service may recommend. */
  datatype Doctor = Ophthalmologist | Optometrist | Optician | OcularSurgeon {
    function Name(): string {
      match this
      case Ophthalmologist => "Ophthalmologist"
      case Optometrist => "Optometrist"
      case Optician => "Optician"
      case OcularSurgeon => "Ocular Surgeon"
    }
  }

  /** The configured list of allowed specialists, in configuration order. */
  const AllowedDoctors: seq<string> := ["Ophthalmologist", "Optometrist", "Optician", "Ocular Surgeon"]

  predicate IsAllowed(s: string) {
    s in AllowedDoctors
  }

  /** The specialist a name denotes, if it is one of the allowed names. */
  function DoctorNamed(s: string): (r: Option<Doctor>)
    ensures r.Some? <==> IsAllowed(s)
    ensures r.Some? ==> r.value.Name() == s
  {
    if s == "Ophthalmologist" then Some(Ophthalmologist)
    else if s == "Optometrist" then Some(Optometrist)
    else if s == "Optician" then Some(Optician)
    else if s == "Ocular Surgeon" then Some(OcularSurgeon)
    else None
  }

  /** The datatype and the configured list name the same four specialists. */
  lemma DoctorNameRoundTrip(d: Doctor)
    ensures IsAllowed(d.Name())
    ensures DoctorNamed(d.Name()) == Some(d)
  {
  }

  /** A map over specialist names has an entry for each of the four specialists. */
  predicate Covers(d: seq<(string, real)>) {
    forall i | 0 <= i < |AllowedDoctors| :: AllowedDoctors[i] in Keys(d)
  }

  /** A confidence assessment. Its `overall` must lie in [0, 1] when it is built. */
  datatype ConfidenceScore = ConfidenceScore(overall: real, doctors: Distribution, reasoning: string)

  predicate InUnitRange(x: real) {
    0.0 <= x <= 1.0
  }

  /** Building a score: the range check on `overall` rejects anything outside [0, 1]. */
  function MakeScore(overall: real, doctors: Distribution, reasoning: string): (r: Option<ConfidenceScore>)
    ensures r.Some? <==> InUnitRange(overall)
    ensures r.Some? ==> r.value.overall == overall && r.value.doctors == doctors && r.value.reasoning == reasoning
  {
    if InUnitRange(overall) then Some(ConfidenceScore(overall, doctors, reasoning)) else None
  }

  /** One question asked and its answer; "" while the answer is pending. */
  datatype Entry = Entry(question: string, answer: string)

  predicate Answered(e: Entry) {
    e.answer != ""
  }

  /** The number of entries whose answer is non-empty. */
  function AnsweredCount(h: seq<Entry>): (n: nat)
    ensures n <= |h|
  {
    if h == [] then 0 else (if Answered(h[|h| - 1]) then 1 else 0) + AnsweredCount(h[..|h| - 1])
  }

  lemma {:induction false} AnsweredCountAllAnswered(h: seq<Entry>)
    requires forall i | 0 <= i < |h| :: Answered(h[i])
    ensures AnsweredCount(h) == |h|
  {
    if h != [] {
      AnsweredCountAllAnswered(h[..|h| - 1]);
    }
  }

  /** The history holds at most one unanswered entry, and only as its last entry. */
  predicate PendingOnlyLast(h: seq<Entry>) {
    forall i | 0 <= i < |h| - 1 :: Answered(h[i])
  }

  /**
   * Recording an answer: it goes into the last entry, whatever that entry holds;
   * with no entry, nothing is recorded.
   */
  function WriteAnswer(h: seq<Entry>, answer: string): (r: seq<Entry>)
    ensures |r| == |h|
    ensures forall i | 0 <= i < |h| - 1 :: r[i] == h[i]
    ensures h != [] ==> r[|h| - 1] == Entry(h[|h| - 1].question, answer)
  {
    if h == [] then h else h[..|h| - 1] + [Entry(h[|h| - 1].question, answer)]
  }

  /**
   * A non-empty answer written over a pending last entry completes the
   * history: one more answered entry, none pending.
   */
  lemma WriteAnswerCompletes(h: seq<Entry>, answer: string)
    requires h != [] && PendingOnlyLast(h) && !Answered(h[|h| - 1]) && answer != ""
    ensures forall i | 0 <= i < |h| :: Answered(WriteAnswer(h, answer)[i])
    ensures AnsweredCount(WriteAnswer(h, answer)) == AnsweredCount(h) + 1 == |h|
  {
    var r := WriteAnswer(h, answer);
    AnsweredCountAllAnswered(r);
    AnsweredCountAllAnswered(h[..|h| - 1]);
    assert r[..|r| - 1] == h[..|h| - 1];
  }

  /** Appending a pending entry to a history with nothing pending keeps the invariant. */
  lemma AppendPendingKeepsInvariant(h: seq<Entry>, question: string)
    requires forall i | 0 <= i < |h| :: Answered(h[i])
    ensures PendingOnlyLast(h + [Entry(question, "")])
    ensures AnsweredCount(h + [Entry(question, "")]) == AnsweredCount(h)
  {
    assert (h + [Entry(question, "")])[..|h|] == h;
  }

  /** The exchange numbered `n` as the contexts render it. */
  function Block(n: nat, e: Entry): string {
    "Q" + NatToString(n) + ": " + e.question + "\n" + "A" + NatToString(n) + ": " + e.answer + "\n\n"
  }

  /** The block of an answered exchange numbered `n`; a pending one renders as nothing. */
  function Piece(e: Entry, n: nat): string {
    if Answered(e) then Block(n, e) else ""
  }

  /** The pieces of the elements of `h`, each given its position (from 1), concatenated in order. */
  function Joined<T>(h: seq<T>, piece: (T, nat) -> string): string {
    if h == [] then "" else Joined(h[..|h| - 1], piece) + piece(h[|h| - 1], |h|)
  }

  lemma JoinedAppend<T>(h: seq<T>, e: T, piece: (T, nat) -> string)
    ensures Joined(h + [e], piece) == Joined(h, piece) + piece(e, |h| + 1)
  {
    assert (h + [e])[..|h|] == h;
  }

  lemma {:induction false} JoinedShows<T>(h: seq<T>, piece: (T, nat) -> string, i: nat)
    requires i < |h|
    ensures Contains(Joined(h, piece), piece(h[i], i + 1))
    decreases |h|
  {
    var front := Joined(h[..|h| - 1], piece);
    if i == |h| - 1 {
      ContainsRight(front, piece(h[i], i + 1));
    } else {
      assert h[..|h| - 1][i] == h[i];
      JoinedShows(h[..|h| - 1], piece, i);
      ContainsLeft(front, piece(h[|h| - 1], |h|));
      ContainsTransitive(Joined(h, piece), front, piece(h[i], i + 1));
    }
  }

  lemma {:induction false} JoinedEmpty<T>(h: seq<T>, piece: (T, nat) -> string)
    requires forall i | 0 <= i < |h| :: piece(h[i], i + 1) == ""
    ensures Joined(h, piece) == ""
  {
    if h != [] {
      JoinedEmpty(h[..|h| - 1], piece);
    }
  }

  /**
   * The answered exchanges of a history, each numbered by its position
   * (from 1); a pending entry renders as nothing.
   */
  function Transcript(h: seq<Entry>): string {
    Joined(h, Piece)
  }

  lemma ConcatAssoc(a: string, b: string, c: string)
    ensures a + (b + c) == (a + b) + c
  {
  }

  /**
   * The transcript grows entry by entry: an answered entry at position i adds
   * its block numbered i + 1, a pending entry adds nothing.
   */
  lemma TranscriptAppend(h: seq<Entry>, e: Entry)
    ensures Transcript(h + [e]) == Transcript(h) + Piece(e, |h| + 1)
  {
    JoinedAppend(h, e, Piece);
  }

  /** Only answered exchanges appear: a history of pending entries renders as nothing. */
  lemma TranscriptOfPending(h: seq<Entry>)
    requires forall i | 0 <= i < |h| :: !Answered(h[i])
    ensures Transcript(h) == ""
  {
    JoinedEmpty(h, Piece);
  }

  /** Every answered exchange appears in the transcript, numbered by its position (from 1). */
  lemma TranscriptShows(h: seq<Entry>, i: nat)
    requires i < |h| && Answered(h[i])
    ensures Contains(Transcript(h), Block(i + 1, h[i]))
  {
    JoinedShows(h, Piece, i);
  }

  /** A pending entry added at the end leaves the transcript as it was. */
  lemma TranscriptIgnoresPending(h: seq<Entry>, question: string)
    ensures Transcript(h + [Entry(question, "")]) == Transcript(h)
  {
    TranscriptAppend(h, Entry(question, ""));
  }

  /**
   * The loop that renders the answered exchanges after `context`:
   * entry i, when answered, adds its block numbered i + 1.
   */
  method AppendTranscript(context: string, h: seq<Entry>) returns (r: string)
    ensures r == context + Transcript(h)
  {
    r := context;
    for i := 0 to |h|
      invariant r == context + Transcript(h[..i])
    {
      assert h[..i + 1] == h[..i] + [h[i]];
      TranscriptAppend(h[..i], h[i]);
      if h[i].answer != "" {
        r := r + Block(i + 1, h[i]);
      }
    }
    assert h[..|h|] == h;
  }

  /** The line of one specialist's confidence, as the contexts render it. */
  function ScoreLine(prefix: string, e: (string, real)): string {
    prefix + e.0 + ": " + Fixed2(e.1) + "\n"
  }

  /** One line per specialist, in the map's order. */
  function ScoreLines(prefix: string, d: seq<(string, real)>): string {
    if d == [] then "" else ScoreLines(prefix, d[..|d| - 1]) + ScoreLine(prefix, d[|d| - 1])
  }

  /** Every specialist of the map has its line among the rendered lines. */
  lemma {:induction false} ScoreLinesShow(prefix: string, d: seq<(string, real)>, i: nat)
    requires i < |d|
    ensures Contains(ScoreLines(prefix, d), ScoreLine(prefix, d[i]))
    decreases |d|
  {
    var front := ScoreLines(prefix, d[..|d| - 1]);
    if i == |d| - 1 {
      ContainsRight(front, ScoreLine(prefix, d[i]));
    } else {
      assert d[..|d| - 1][i] == d[i];
      ScoreLinesShow(prefix, d[..|d| - 1], i);
      ContainsLeft(front, ScoreLine(prefix, d[|d| - 1]));
      ContainsTransitive(ScoreLines(prefix, d), front, ScoreLine(prefix, d[i]));
    }
  }

  /** The loop that renders one line per specialist after `context`. */
  method AppendScoreLines(context: string, prefix: string, d: seq<(string, real)>) returns (r: string)
    ensures r == context + ScoreLines(prefix, d)
  {
    r := context;
    for i := 0 to |d|
      invariant r == context + ScoreLines(prefix, d[..i])
    {
      r := r + ScoreLine(prefix, d[i]);
      assert d[..i + 1][..i] == d[..i];
    }
    assert d[..|d|] == d;
  }

  /** One option of a multiple-choice question. */
  datatype QuestionOption = QuestionOption(text: string, isOther: bool)

  datatype FollowUpQuestion = FollowUpQuestion(question: string, options: seq<QuestionOption>)

  /** Exactly four options, of which exactly one, the last, is the free-text "Other". */
  predicate FourWithOtherLast(q: FollowUpQuestion) {
    |q.options| == 4
    && (forall i | 0 <= i < 3 :: !q.options[i].isOther)
    && q.options[3].isOther
  }

  /** An option object as the oracle's JSON reports it; each field may be missing. */
  datatype OptionFields = OptionFields(text: Option<string>, isOther: Option<bool>)

  /** A question object as the oracle's JSON reports it; each field may be missing. */
  datatype QuestionFields = QuestionFields(question: Option<string>, options: Option<seq<OptionFields>>)

  /** A question with three fixed choices followed by the free-text "Other". */
  function WithOther(question: string, a: string, b: string, c: string): (q: FollowUpQuestion)
    ensures FourWithOtherLast(q)
    ensures q.question == question && q.options[3].text == "Other"
  {
    FollowUpQuestion(question, [QuestionOption(a, false), QuestionOption(b, false), QuestionOption(c, false), QuestionOption("Other", true)])
  }

  datatype DoctorRecommendation = DoctorRecommendation(doctorType: string, reasoning: string)

  /** A submitted answer of the batch pipeline. */
  datatype UserAnswer = UserAnswer(questionIndex: int, selectedOption: Option<string>, customAnswer: Option<string>)

  /** One interview. Times are seconds on the caller's clock. */
  datatype Session = Session(
    id: string,
    initialCondition: string,
    history: seq<Entry>,
    confidence: ConfidenceScore,
    leadingDoctor: string,
    isComplete: bool,
    createdAt: int,
    updatedAt: int)

  /** A new session: empty history, not complete, created and updated now. */
  function NewSession(id: string, condition: string, confidence: ConfidenceScore, leadingDoctor: string, now: int): (s: Session)
    ensures s.id == id && s.initialCondition == condition
    ensures s.history == [] && !s.isComplete && s.createdAt == s.updatedAt == now
  {
    Session(id, condition, [], confidence, leadingDoctor, false, now, now)
  }

  datatype NextQuestionResponse = NextQuestionResponse(
    sessionId: string,
    question: Option<FollowUpQuestion>,
    confidence: ConfidenceScore,
    isComplete: bool,
    recommendation: Option<DoctorRecommendation>,
    summary: Option<string>,
    history: seq<Entry>)

  datatype SessionStartResponse = SessionStartResponse(
    sessionId: string,
    firstQuestion: FollowUpQuestion,
    confidence: ConfidenceScore)

  /** The batch pipeline's state, which each pipeline step updates in place. */
  class AgentState {
    var initialCondition: string
    var questions: seq<FollowUpQuestion>
    var answers: seq<UserAnswer>
    var ragContext: seq<string>
    var recommendation: Option<DoctorRecommendation>
    var summary: string
    var currentStep: string

    constructor (condition: string, answers: seq<UserAnswer>)
      ensures initialCondition == condition && this.answers == answers
      ensures questions == [] && ragContext == [] && recommendation == None
      ensures summary == "" && currentStep == "start"
    {
      initialCondition := condition;
      questions := [];
      this.answers := answers;
      ragContext := [];
      recommendation := None;
      summary := "";
      currentStep := "start";
    }
  }
}
