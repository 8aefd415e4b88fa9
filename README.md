# HealthVerse eye-care intake: a Dafny model

This project models the backend of the HealthVerse eye-care intake interview.
A patient reports an eye condition. The backend keeps a session, asks one
follow-up question at a time, rescores a confidence distribution over the four
allowed eye specialists (Ophthalmologist, Optometrist, Optician, Ocular
Surgeon) after every answer, and decides whether to ask again or to finish
with a recommendation and a summary for the doctor. A second, batch pipeline
(the "agent") takes a condition and a list of answers and produces a
recommendation and a summary in a fixed sequence of steps.

Every call to the language model is an input of the model, not a computation:

- `Oracle.Reply<T>` is what a parsing step sees: the call raised (`Raised`),
  the text did not parse (`Malformed`), or it parsed into optional fields
  (`Parsed`).
- `Oracle.Component<T>` is what a caller that wraps a whole collaborator in
  `try/except` sees: the collaborator raised (`Unavailable`, the caller's
  fallback applies) or it returned (`Available`).
- A plain-text reply is an `Option<string>`; `None` means the call raised.

Modules, one per source file:

| module | file | form |
|---|---|---|
| `Wrappers`, `Oracle` | (shared) | datatypes |
| `Text` | string helpers used throughout | functions and lemmas |
| `Distributions` | the `doctor_confidence` dictionaries | functions and lemmas |
| `Models` | `backend/src/models/models.py`, `ALLOWED_DOCTORS` of `backend/src/core/config.py` | datatypes, the `AgentState` class |
| `ConfidenceCalculator` | `backend/src/tools/confidence_calculator.py` | functions, loop methods |
| `IterativeQuestionGenerator` | `backend/src/tools/iterative_question_generator.py` | functions, loop methods |
| `SessionFinalizer` | `backend/src/tools/session_finalizer.py` | functions, one loop method |
| `AgentTools` | `backend/src/tools/agent_tools.py` | functions, one loop method |
| `Agent` | `backend/src/core/agent.py` | methods that update an `AgentState` |
| `SessionService` | `backend/src/services/session_manager.py` | the `SessionManager` class over a `map<string, Session>` |

A dictionary of confidences is a `Distribution`: a sequence of
(specialist, weight) pairs with distinct keys, in insertion order. Confidences,
weights and thresholds are `real`. `Text.IsSpace` is exactly the set of
characters Python's `str.isspace()` accepts, so `strip()` and `split()` are
modelled exactly. The session's conversation history is a
`seq<Entry>` of (question, answer) pairs; an entry whose answer is `""` is
pending.

Behaviour of the code worth knowing; each fact is proved by the lemma named
after it:

- A completed session is not rejected: answering it again runs a full turn
  (`SessionService.TurnOnCompletedSession`).
- With an empty history the answer is recorded nowhere
  (`SessionService.TurnWithoutHistoryDropsAnswer`).
- "At most one pending entry, and it is last" holds only while question
  generation succeeds. A fallback question from the session manager
  (`backend/src/services/session_manager.py:221-232`) or from the question
  generator's outer handler
  (`backend/src/tools/iterative_question_generator.py:92-95`) is not appended
  to the history, so the next answer overwrites an answered entry
  (`SessionService.FallbackTurnLosesNextAnswer`); the severity question
  returned for an unparsable reply is appended as a pending entry.
- The information-quality boost is computed after the answer is written into
  the history, so the newest answer is scored twice
  (`ConfidenceCalculator.NewestAnswerCountedTwice`).
- Oracle weights are not normalised when their total is not positive, and a
  negative weight is clamped after the division, so the distribution need not
  sum to 1 (`ConfidenceCalculator.LlmScoreAllZero`,
  `ConfidenceCalculator.LlmScoreNegativeWeight`).
- The final recommendation of the session finalizer is never checked against
  the allowed specialists (`SessionFinalizer.FinalRecommendationUnvalidated`),
  while the batch pipeline's identification always is
  (`AgentTools.IdentifyDoctor`).
- After a successful score update the overall confidence is at most 0.7, so
  the 0.75 confidence stop can fire only on a turn whose update fell back to
  the old score (`SessionService.TurnStopsOnlyWhenSatisfied`).

## Model

| member | source | states |
|---|---|---|
| Models.DoctorNamed | backend/src/core/config.py:39-44 | a name denotes a specialist exactly when it is one of the four allowed names, and that specialist carries the name |
| Models.DoctorNameRoundTrip | backend/src/core/config.py:39-44 | every specialist's name is allowed and maps back to that specialist |
| Models.MakeScore | backend/src/models/models.py:61-64 | a confidence score can be built exactly when `overall` lies in [0, 1], and it keeps the given fields |
| Models.AnsweredCount | backend/src/services/session_manager.py:171 | the number of entries with a non-empty answer never exceeds the history's length |
| Models.AnsweredCountAllAnswered | backend/src/services/session_manager.py:171 | when every entry is answered the count is the history's length |
| Models.WriteAnswer | backend/src/services/session_manager.py:75-78 | the answer replaces the last entry's answer and keeps its question; every other entry and the length are unchanged; an empty history is unchanged |
| Models.WriteAnswerCompletes | backend/src/services/session_manager.py:75-78 | answering the pending last entry of a history whose other entries are answered leaves every entry answered and raises the count by one |
| Models.AppendPendingKeepsInvariant | backend/src/tools/iterative_question_generator.py:83-87 | appending an unanswered question to a fully answered history leaves only the last entry pending and the answered count unchanged |
| Models.TranscriptAppend | backend/src/tools/session_finalizer.py:129-132 | rendering a history extended by one entry appends exactly that entry's rendering, numbered by its position |
| Models.TranscriptOfPending | backend/src/tools/session_finalizer.py:130 | a history with no answered entry renders as the empty text |
| Models.TranscriptShows | backend/src/tools/session_finalizer.py:129-132 | every answered entry appears as its "Q<i>/A<i>" block, numbered by its original position |
| Models.TranscriptIgnoresPending | backend/src/tools/session_finalizer.py:130 | a pending entry appended to the history changes nothing in the rendering |
| Models.AppendTranscript | backend/src/tools/session_finalizer.py:129-132 | the loop that renders the exchanges yields the context followed by the rendering of the answered entries |
| Models.ScoreLinesShow | backend/src/tools/session_finalizer.py:124-125 | every specialist's "name: score" line appears in the rendered distribution |
| Models.AppendScoreLines | backend/src/tools/session_finalizer.py:124-125 | the loop over the distribution yields the context followed by one line per specialist in map order |
| Models.WithOther | backend/src/tools/iterative_question_generator.py:204-234 | a question with three fixed choices and "Other" has four options and only the last is marked as "Other" |
| Models.NewSession | backend/src/models/models.py:66-74 | a new session has the given id and condition, an empty history, is not complete, and was created and updated now |
| Models.AgentState.constructor | backend/src/models/models.py:37-44 | a new agent state holds the condition and the answers, no questions, context, recommendation or summary, and step "start" |
| Text.Lower | backend/src/tools/confidence_calculator.py:133 | lowering keeps the length and lowers each ASCII letter in place |
| Text.LowerIdempotent | backend/src/tools/agent_tools.py:246 | lowering twice is lowering once |
| Text.Trim | backend/src/tools/agent_tools.py:210 | the stripped text neither starts nor ends with whitespace and is no longer than the input |
| Text.TrimRemovesPadding | backend/src/tools/agent_tools.py:210 | stripping removes exactly the whitespace around a text that has none at its ends |
| Text.TrimFixed | backend/src/tools/agent_tools.py:246 | stripping an already stripped text changes nothing |
| Text.StripFence | backend/src/tools/confidence_calculator.py:224-229 | the cleaned reply neither starts nor ends with whitespace |
| Text.StripFenceUnwraps | backend/src/tools/iterative_question_generator.py:167-172 | a reply that is a "```json" fence around a payload, with whitespace around it, cleans to the stripped payload |
| Text.StripFenceUnfenced | backend/src/tools/session_finalizer.py:196-201 | a reply with neither fence is only stripped |
| Text.StripFenceKeepsBareFence | backend/src/tools/agent_tools.py:202-207 | an opening fence without "json" is kept: only the closing fence is removed |
| Text.WordCount | backend/src/tools/confidence_calculator.py:298 | the number of whitespace-separated words never exceeds the length |
| Text.WordCountNoSpace | backend/src/tools/confidence_calculator.py:298 | a non-empty text without whitespace is one word |
| Text.WordCountSplit | backend/src/tools/confidence_calculator.py:298 | a separator splits the count: the words before it and after it add up, so with `WordCountNoSpace` the count is the number of separator-delimited runs |
| Text.NatToString | backend/src/tools/session_finalizer.py:127 | the decimal rendering of a count is never empty |
| Text.NatToStringDigits | backend/src/tools/session_finalizer.py:127 | the rendering consists of decimal digits only |
| Text.NatToStringInjective | backend/src/tools/session_finalizer.py:127 | two counts with the same rendering are equal |
| Text.RoundHalfEven | backend/src/tools/iterative_question_generator.py:115 | the integer nearest to a non-negative real, a tie going to the even neighbour |
| Text.Fixed2 | backend/src/tools/iterative_question_generator.py:118 | two-decimal formatting: a "-" exactly for a negative value, then digits, a point and two decimal digits |
| Text.Fixed2TiesToEven | backend/src/tools/confidence_calculator.py:354 | a tie rounds to the even cent: 0.125 formats as "0.12" and 0.135 as "0.14" |
| Distributions.Keys | backend/src/tools/confidence_calculator.py:346 | the keys of a distribution, one per entry, in order |
| Distributions.KeysDistinct | backend/src/models/models.py:63 | a dictionary's keys are pairwise distinct |
| Distributions.GetAt | backend/src/tools/confidence_calculator.py:349-350 | looking up a present key gives its weight |
| Distributions.GetAbsent | backend/src/tools/confidence_calculator.py:349-350 | looking up an absent key gives the default 0.0 |
| Distributions.GetAppend | backend/src/tools/confidence_calculator.py:241-242 | after adding a key, lookups of older keys are unchanged and the new key gives its value |
| Distributions.TotalAppend | backend/src/tools/confidence_calculator.py:148 | the sum of the values grows by the added value |
| Distributions.TotalNonNegative | backend/src/tools/confidence_calculator.py:148 | non-negative values have a non-negative sum that bounds each value |
| Distributions.TotalZero | backend/src/tools/confidence_calculator.py:149 | non-negative values sum to zero exactly when all are zero |
| Distributions.MaxValue | backend/src/tools/confidence_calculator.py:156 | the maximum bounds every value and is one of them |
| Distributions.SomeAtLeastIsMax | backend/src/services/session_manager.py:195-196 | some value reaches a threshold exactly when the maximum does |
| Distributions.Clamp01 | backend/src/tools/confidence_calculator.py:235 | clamping gives a value in [0, 1] and leaves values already there unchanged |
| Distributions.Scale | backend/src/tools/confidence_calculator.py:150 | dividing by the total keeps the keys and divides every value |
| Distributions.DivideClamped | backend/src/tools/confidence_calculator.py:247-250 | dividing by the total and clamping keeps the keys and maps each value v to clamp(v / total) |
| Distributions.ScaleTotal | backend/src/tools/confidence_calculator.py:147-150 | the divided values sum to the old sum divided by the divisor |
| Distributions.Normalized | backend/src/tools/confidence_calculator.py:147-150 | non-negative values with a positive sum, divided by that sum, sum to 1 and lie in [0, 1] |
| Distributions.DivideClampedIsScale | backend/src/tools/confidence_calculator.py:245-250 | for non-negative values with a positive sum the clamp never bites |
| ConfidenceCalculator.Hits | backend/src/tools/confidence_calculator.py:140-143 | the number of matched keywords is at most the number of keywords |
| ConfidenceCalculator.HitsCountsOccurring | backend/src/tools/confidence_calculator.py:140-143 | it is the number of keywords occurring as substrings of the text |
| ConfidenceCalculator.NoHits | backend/src/tools/confidence_calculator.py:140-143 | no match exactly when no keyword occurs |
| ConfidenceCalculator.AddPerHit | backend/src/tools/confidence_calculator.py:137-143 | the `+= 0.15` loop yields the start plus the step times the number of matches |
| ConfidenceCalculator.RawScore | backend/src/tools/confidence_calculator.py:137-145 | a specialist's raw score lies in [0, 1] |
| ConfidenceCalculator.RawScoreZero | backend/src/tools/confidence_calculator.py:137-145 | the raw score is zero exactly when none of the specialist's keywords occurs |
| ConfidenceCalculator.Names | backend/src/tools/confidence_calculator.py:136 | the specialists of the keyword table, in order |
| ConfidenceCalculator.RawScores | backend/src/tools/confidence_calculator.py:136-145 | one raw score per specialist of the table, keyed by that specialist |
| ConfidenceCalculator.RawScoresAt | backend/src/tools/confidence_calculator.py:136-145 | each specialist's entry is the raw score of its own keywords |
| ConfidenceCalculator.ScanTable | backend/src/tools/confidence_calculator.py:136-145 | the loop over the table yields the raw scores |
| ConfidenceCalculator.TableNames | backend/src/tools/confidence_calculator.py:28-45 | the keyword table lists exactly the four allowed specialists, in their configured order |
| ConfidenceCalculator.KeywordRaw | backend/src/tools/confidence_calculator.py:133-145 | the raw distribution has the four specialists as keys, values in [0, 1], each the raw score of the lowered text |
| ConfidenceCalculator.AnalyzeKeywords | backend/src/tools/confidence_calculator.py:131-162 | the keyword analysis method returns the keyword score of the text |
| ConfidenceCalculator.NormalizeShape | backend/src/tools/confidence_calculator.py:147-153 | the normalised distribution keeps the four specialists, sums to 1, has values in [0, 1] and a maximum of at least 0.25 |
| ConfidenceCalculator.ScoreShape | backend/src/tools/confidence_calculator.py:147-162 | a score built from non-negative raw scores of the four specialists keeps them as keys, sums to 1, has values in [0, 1], and its overall is their maximum, in [0.25, 1] |
| ConfidenceCalculator.KeywordScoreShape | backend/src/tools/confidence_calculator.py:131-162 | the same for the keyword score of any text |
| ConfidenceCalculator.KeywordScoreShares | backend/src/tools/confidence_calculator.py:148-153 | with no match every specialist gets 0.25, otherwise its raw score divided by the total |
| ConfidenceCalculator.KeywordScoreUniform | backend/src/tools/confidence_calculator.py:148-153 | the raw total is zero exactly when no keyword of any specialist occurs in the lowered text |
| ConfidenceCalculator.KeywordScoreShaped | backend/src/tools/confidence_calculator.py:131-162 | the keyword score has overall in [0, 1], covers the four specialists and sums to 1 |
| ConfidenceCalculator.NormalizeWeights | backend/src/tools/confidence_calculator.py:336-339 | the weights sum to 1, are proportional to the given ones when their total is positive, 0.5/0.5 otherwise, and stay non-negative |
| ConfidenceCalculator.UnionKeys | backend/src/tools/confidence_calculator.py:346 | the union holds exactly the keys of either distribution, each once |
| ConfidenceCalculator.Blend | backend/src/tools/confidence_calculator.py:348-351 | each key gets its weight in the first times w1 plus its weight in the second times w2, a missing key counting 0 |
| ConfidenceCalculator.BlendedDoctors | backend/src/tools/confidence_calculator.py:345-351 | the blended distribution's keys are the union of the two key sets |
| ConfidenceCalculator.Combine | backend/src/tools/confidence_calculator.py:334-360 | the combination is rejected exactly when the mix of the two overalls under the normalised weights leaves [0, 1]; otherwise its overall lies in [0, 1] and its keys are the union of both key sets |
| ConfidenceCalculator.CombineDefined | backend/src/tools/confidence_calculator.py:334-360 | with non-negative weights and both overalls in [0, 1] the combined score is valid and its overall lies between the two |
| ConfidenceCalculator.CombineEntries | backend/src/tools/confidence_calculator.py:345-351 | a key is in the combination exactly when it is in either input, with the blended weight |
| ConfidenceCalculator.BlendTotal | backend/src/tools/confidence_calculator.py:348-351 | the blend's sum is w1 times the first's sum plus w2 times the second's over the same keys |
| ConfidenceCalculator.BlendedTotal | backend/src/tools/confidence_calculator.py:345-351 | two distributions summing to 1, blended with weights summing to 1, sum to 1 |
| ConfidenceCalculator.CombineTotal | backend/src/tools/confidence_calculator.py:334-360 | combining two scores whose distributions sum to 1 gives one that sums to 1 |
| ConfidenceCalculator.CombineCovers | backend/src/tools/confidence_calculator.py:345-351 | if either input lists all four specialists so does the combination |
| ConfidenceCalculator.FillMissing | backend/src/tools/confidence_calculator.py:239-242 | filling keeps the reported entries as a prefix and keeps them non-negative |
| ConfidenceCalculator.FillMissingKeys | backend/src/tools/confidence_calculator.py:239-242 | afterwards the keys are the reported ones plus the listed specialists |
| ConfidenceCalculator.FillMissingValues | backend/src/tools/confidence_calculator.py:239-242 | a reported specialist keeps its weight, a missing listed one gets 0.25 |
| ConfidenceCalculator.FillMissingComplete | backend/src/tools/confidence_calculator.py:239-242 | a report that names every specialist is left unchanged |
| ConfidenceCalculator.Filled | backend/src/tools/confidence_calculator.py:237-242 | the filled oracle distribution lists all four specialists |
| ConfidenceCalculator.OracleDoctors | backend/src/tools/confidence_calculator.py:244-250 | normalisation keeps the filled distribution's keys |
| ConfidenceCalculator.LlmScore | backend/src/tools/confidence_calculator.py:164-277 | the oracle's score always has overall in [0, 1] and lists all four specialists |
| ConfidenceCalculator.LlmScoreNormalized | backend/src/tools/confidence_calculator.py:244-250 | non-negative reported weights with a positive filled total are normalised to sum 1, each in [0, 1] |
| ConfidenceCalculator.LlmScoreFailure | backend/src/tools/confidence_calculator.py:260-277 | a raised or unparsable reply gives overall 0.5 and a fixed distribution that sums to 1 |
| ConfidenceCalculator.CompleteReportDivided | backend/src/tools/confidence_calculator.py:245-250 | a report naming all four specialists with a positive total is divided by that total and clamped |
| ConfidenceCalculator.LlmScoreNegativeWeight | backend/src/tools/confidence_calculator.py:245-250 | a negative reported weight is clamped to 0 after the division, so the distribution sums to 1.5 and not 1 |
| ConfidenceCalculator.LlmScoreAllZero | backend/src/tools/confidence_calculator.py:246 | all-zero weights are left as reported and sum to 0 |
| ConfidenceCalculator.KeywordWeight | backend/src/tools/confidence_calculator.py:95 | max(0.1, 0.4 - 0.05 L) lies in [0.1, 0.4] |
| ConfidenceCalculator.KeywordWeightNonIncreasing | backend/src/tools/confidence_calculator.py:95 | a longer history never raises the keyword weight |
| ConfidenceCalculator.UpdateWeights | backend/src/tools/confidence_calculator.py:94-98 | the keyword and oracle weights of an update already sum to 1, so normalising leaves them unchanged |
| ConfidenceCalculator.LengthBoost | backend/src/tools/confidence_calculator.py:103-106 | the length boost lies in [0, 0.15] |
| ConfidenceCalculator.LengthBoostNonDecreasing | backend/src/tools/confidence_calculator.py:103-106 | a longer history never lowers the boost |
| ConfidenceCalculator.LastTwo | backend/src/tools/confidence_calculator.py:292 | at most the two last entries are consulted |
| ConfidenceCalculator.NonEmptyAnswers | backend/src/tools/confidence_calculator.py:292 | only non-empty answers of those entries are kept |
| ConfidenceCalculator.InformationQuality | backend/src/tools/confidence_calculator.py:279-312 | the quality boost lies in [0, 0.1] |
| ConfidenceCalculator.AssessInformationQuality | backend/src/tools/confidence_calculator.py:279-312 | the scanning loop returns the clamped points of the new answer and the last two non-empty answers |
| ConfidenceCalculator.ScoreAnswer | backend/src/tools/confidence_calculator.py:296-310 | one answer's points: +0.02 above three words, +0.01 per indicator present, -0.01 per vague marker |
| ConfidenceCalculator.QualityPointsAppend | backend/src/tools/confidence_calculator.py:294-310 | the points of a list of answers add up answer by answer |
| ConfidenceCalculator.QualityPointsIfAnswered | backend/src/tools/confidence_calculator.py:295 | skipping an empty answer changes no sum |
| ConfidenceCalculator.RecentAfterWrite | backend/src/tools/confidence_calculator.py:292 | once the answer is in the history's last entry, the answers scanned are the new answer, the one before it if any, and the new answer again |
| ConfidenceCalculator.NewestAnswerCountedTwice | backend/src/services/session_manager.py:75-86 | so the newest answer's points are counted twice in the quality boost |
| ConfidenceCalculator.HitsMonotone | backend/src/tools/confidence_calculator.py:140-143 | a text containing every keyword another text contains has at least as many matches |
| ConfidenceCalculator.RawScoreContained | backend/src/tools/confidence_calculator.py:137-145 | a text inside another never scores higher for any specialist |
| ConfidenceCalculator.KeywordRawContained | backend/src/tools/confidence_calculator.py:133-145 | the same for each specialist's entry of the raw distribution |
| ConfidenceCalculator.UpdateContextSeesCondition | backend/src/tools/confidence_calculator.py:318-332 | every keyword the condition mentions also counts in the update's context |
| ConfidenceCalculator.UpdateContextSeesAnswer | backend/src/tools/confidence_calculator.py:329-330 | every keyword a non-empty new answer mentions also counts in the update's context |
| ConfidenceCalculator.UpdateContext | backend/src/tools/confidence_calculator.py:318-332 | the text rescored after an answer opens with the condition line and, for a non-empty answer, ends with the "Latest answer" line |
| ConfidenceCalculator.UpdateConfidence | backend/src/tools/confidence_calculator.py:76-115 | the update method returns the update's score: keyword analysis of the context, oracle score, blend and boosts |
| ConfidenceCalculator.BlendAndBoost | backend/src/tools/confidence_calculator.py:98-112 | the in-place boosts return the blend boosted by length and quality |
| ConfidenceCalculator.BoostCaps | backend/src/tools/confidence_calculator.py:103-112 | for non-negative inputs the two capped boosts act as one: the boosted overall is min(0.7, overall + length boost + 0.6 x quality) |
| ConfidenceCalculator.BlendScoresShape | backend/src/tools/confidence_calculator.py:98 | the blend is valid, its overall lies between the two, it lists all four specialists and sums to 1 when the oracle's does |
| ConfidenceCalculator.RescoredShape | backend/src/tools/confidence_calculator.py:98-112 | after blend and boosts the overall lies in [0, 0.7] and the distribution is the blend's |
| ConfidenceCalculator.UpdatedConfidenceShape | backend/src/tools/confidence_calculator.py:76-129 | every update, whatever the oracle replies, has overall in [0, 0.7] and lists all four specialists |
| ConfidenceCalculator.CalculateInitialConfidence | backend/src/tools/confidence_calculator.py:47-74 | the method returns the initial score of the condition |
| ConfidenceCalculator.CombineInitial | backend/src/tools/confidence_calculator.py:57-74 | the 0.3/0.7 combination, or the 0.3 default when it is not a valid score |
| ConfidenceCalculator.InitialShape | backend/src/tools/confidence_calculator.py:57 | the initial score is the 0.3/0.7 blend of keyword and oracle scores, overall in [0, 1], listing all four specialists, summing to 1 when the oracle's does |
| ConfidenceCalculator.InitialConfidenceShape | backend/src/tools/confidence_calculator.py:47-74 | every initial score has overall in [0, 1] and lists all four specialists |
| IterativeQuestionGenerator.FallbackQuestion | backend/src/tools/iterative_question_generator.py:196-234 | history length 0 gives the severity question, 1 the timeline question, 2 or more the additional-symptoms question; each has four options with "Other" last |
| IterativeQuestionGenerator.FallbackLadder | backend/src/tools/iterative_question_generator.py:200-234 | two history lengths get the same fallback exactly when they are equal or both at least 2 |
| IterativeQuestionGenerator.BuildOptions | backend/src/tools/iterative_question_generator.py:177-182 | one option per reported option, text defaulting to "" and "Other" only when reported true |
| IterativeQuestionGenerator.QuestionFrom | backend/src/tools/iterative_question_generator.py:184-187 | the question text defaults to the fixed default and there are as many options as reported |
| IterativeQuestionGenerator.ParsedQuestionUnchecked | backend/src/tools/iterative_question_generator.py:176-187 | a parsed question with no options is accepted although it lacks the four-options shape |
| IterativeQuestionGenerator.OracleQuestion | backend/src/tools/iterative_question_generator.py:163-194 | no question exactly when the call raised; an unparsable reply gives the severity question whatever the history |
| IterativeQuestionGenerator.Generate | backend/src/tools/iterative_question_generator.py:62-95 | when the oracle step raises, the fallback for the history's length and the history unchanged; otherwise the oracle's question and the history with that question appended, pending |
| IterativeQuestionGenerator.GenerateKeepsPendingOnlyLast | backend/src/tools/iterative_question_generator.py:83-87 | on a fully answered history only the last entry can be pending afterwards, the answered count is unchanged, and a pending entry ends it exactly when the oracle step did not raise |
| IterativeQuestionGenerator.BuildContextString | backend/src/tools/iterative_question_generator.py:97-120 | the loop-built context is the condition, the answered exchanges, the leading doctor, the overall and one line per specialist |
| IterativeQuestionGenerator.QuestionContext | backend/src/tools/iterative_question_generator.py:97-120 | the question context opens with the condition line |
| IterativeQuestionGenerator.QuestionContextShowsAnswered | backend/src/tools/iterative_question_generator.py:109-112 | every answered exchange appears, numbered by its original position |
| IterativeQuestionGenerator.QuestionContextIgnoresPending | backend/src/tools/iterative_question_generator.py:107-112 | a pending entry at the end of a non-empty history changes nothing in the context |
| IterativeQuestionGenerator.QuestionContextShowsScores | backend/src/tools/iterative_question_generator.py:117-118 | every specialist's score line appears |
| SessionFinalizer.AssessSatisfaction | backend/src/tools/session_finalizer.py:44-225 | the verdict's score lies in [0, 1]; it is satisfied exactly when the reply parsed with `is_satisfied` true; failures score 0.3; a missing score is 0.5; a reported score is clamped |
| SessionFinalizer.BuildAssessmentContext | backend/src/tools/session_finalizer.py:111-137 | the loop-built context is the header, the distribution lines, the exchange count, the answered exchanges and the proposed question |
| SessionFinalizer.AssessmentContext | backend/src/tools/session_finalizer.py:111-137 | the assessment context opens with its title and the condition, and ends with the proposed question when there is one |
| SessionFinalizer.AssessmentContextCountsAll | backend/src/tools/session_finalizer.py:127 | the header counts every history entry, answered or not |
| SessionFinalizer.AssessmentContextShowsAnswered | backend/src/tools/session_finalizer.py:129-132 | every answered exchange appears, numbered by its original position |
| SessionFinalizer.AssessmentContextPending | backend/src/tools/session_finalizer.py:127-132 | a pending entry changes only the count in the header |
| SessionFinalizer.MedicalSummary | backend/src/tools/session_finalizer.py:227-268 | the stripped oracle text, or on error a text naming the condition and the leading doctor |
| SessionFinalizer.FinalRecommendation | backend/src/tools/session_finalizer.py:270-320 | no recommendation exactly when the call raised; an unparsable reply recommends the leading doctor; a parsed reply its doctor type, else the leading doctor |
| SessionFinalizer.FinalRecommendationUnvalidated | backend/src/tools/session_finalizer.py:310-313 | a doctor type outside the allowed list is recommended as given |
| SessionFinalizer.FallbackSummary | backend/src/tools/session_finalizer.py:103-107 | the fallback summary names the condition, the number of history entries and the leading doctor |
| SessionFinalizer.FinalizeSession | backend/src/tools/session_finalizer.py:78-109 | never fails: the recommendation and the summary, or the leading doctor and the fallback summary when the recommendation step raises |
| SessionFinalizer.FinalizeRecommendsLeading | backend/src/tools/session_finalizer.py:78-109 | when the leading doctor is allowed, a recommendation outside the allowed list can only be the doctor type the oracle named |
| AgentTools.ToolAnswer | backend/src/tools/agent_tools.py:164 | the answer text is the selected option when non-empty, otherwise the custom answer |
| AgentTools.FirstMatch | backend/src/tools/agent_tools.py:249-259 | the first rule whose keywords occur decides; the result is the default or some rule's target |
| AgentTools.FirstMatchPicks | backend/src/tools/agent_tools.py:249-256 | the first rule that fires gives the result |
| AgentTools.FirstMatchDefault | backend/src/tools/agent_tools.py:258-259 | when no rule fires the default is returned |
| AgentTools.FirstMatchChosen | backend/src/tools/agent_tools.py:249-256 | conversely, a rule's target is returned only when that rule fires and no earlier one does |
| AgentTools.FirstMatchAllowedIff | backend/src/tools/agent_tools.py:240-259 | with allowed targets, the result is allowed exactly when some rule fires or the default is allowed |
| AgentTools.NormalizationTargetsAllowed | backend/src/tools/agent_tools.py:249-256 | every normalisation target is an allowed specialist |
| AgentTools.NormalizeDoctorType | backend/src/tools/agent_tools.py:240-259 | "" gives "Ophthalmologist"; otherwise the result is an allowed specialist or the input unchanged |
| AgentTools.NormalizePriority | backend/src/tools/agent_tools.py:246-256 | matching is on the stripped, lowered text, with priority ophthalmologist > optometrist > optician > surgeon/surgical |
| AgentTools.NormalizeUnmatched | backend/src/tools/agent_tools.py:258-259 | an unmatched non-empty input is returned unchanged |
| AgentTools.NormalizeIgnoresCase | backend/src/tools/agent_tools.py:246 | two inputs equal up to case and padding normalise alike, to an allowed specialist, when they match |
| AgentTools.NormalizeAllowedIff | backend/src/tools/agent_tools.py:240-259 | the result is allowed exactly when the input is empty, matches a rule, or is already allowed |
| AgentTools.AnalysisTextAppend | backend/src/tools/agent_tools.py:266-268 | each answer appends a space and its lowered text |
| AgentTools.BuildAnalysisText | backend/src/tools/agent_tools.py:263-268 | the loop builds the lowered condition followed by the lowered answers |
| AgentTools.AnalysisText | backend/src/tools/agent_tools.py:263-268 | the analysed text opens with the lowered condition |
| AgentTools.AnalysisTextSees | backend/src/tools/agent_tools.py:263-268 | a keyword in the lowered condition, or in the lowered text of any answer, is in the analysed text |
| AgentTools.IntelligentFallback | backend/src/tools/agent_tools.py:261-286 | the keyword fallback always gives an allowed specialist |
| AgentTools.IntelligentFallbackPriority | backend/src/tools/agent_tools.py:270-286 | surgery keywords give "Ocular Surgeon", else vision keywords "Optometrist", else fitting keywords "Optician", else "Ophthalmologist" |
| AgentTools.IdentifyDoctor | backend/src/tools/agent_tools.py:159-238 | the identified specialist is always allowed: the normalised oracle answer when allowed, the keyword fallback otherwise and on every failure |
| AgentTools.IdentifyBlankType | backend/src/tools/agent_tools.py:210-243 | a missing or blank doctor type identifies "Ophthalmologist" |
| AgentTools.FourQuestionFallbackShape | backend/src/tools/agent_tools.py:103-145 | the fallback is four questions, each with four options and "Other" last |
| AgentTools.QuestionTool | backend/src/tools/agent_tools.py:27-149 | the tool raises exactly when the call raised; an unparsable reply gives the four fallback questions; a parsed reply is passed on |
| AgentTools.SummaryTool | backend/src/tools/agent_tools.py:352-402 | the oracle's text, or on error a text naming the condition and the doctor type |
| Agent.ConvertOption | backend/src/core/agent.py:80-83 | an option converts exactly when its text and flag are present, and keeps both |
| Agent.ConvertQuestion | backend/src/core/agent.py:79-88 | a question converts exactly when its text is present and all its options convert |
| Agent.ConvertQuestions | backend/src/core/agent.py:78-88 | the list converts exactly when every question converts, one converted question per raw one, in order |
| Agent.ConvertRawQuestion | backend/src/core/agent.py:79-88 | converting a question's JSON form gives the question back |
| Agent.ConvertRawQuestions | backend/src/core/agent.py:78-88 | converting a list of questions' JSON form gives the list back |
| Agent.QuestionsForMalformed | backend/src/core/agent.py:75-94 | an unparsable reply yields the tool's four fallback questions |
| Agent.QuestionsForParsed | backend/src/core/agent.py:77-138 | a parsed reply yields its converted questions, the node's fallback when one does not convert, none when the list is missing |
| Agent.QuestionsFor | backend/src/core/agent.py:69-138 | the tool raising or a question failing to convert gives the four fallback questions; a reply without a question list gives none |
| Agent.GenerateQuestionsNode | backend/src/core/agent.py:69-138 | the node sets the questions and the step "questions_generated" and changes nothing else |
| Agent.ProcessAnswersNode | backend/src/core/agent.py:140-145 | the node sets only the step "answers_processed" |
| Agent.QueryAnswerTextVersusTools | backend/src/core/agent.py:155 | the query uses the same answer text as the tools, except "" where the tools render a missing answer as "None" |
| Agent.RagQueryAppend | backend/src/core/agent.py:154-156 | each answer appends its numbered "Answer i" line |
| Agent.BuildRagQuery | backend/src/core/agent.py:153-156 | the loop builds the condition line followed by one line per answer |
| Agent.RagQuery | backend/src/core/agent.py:153-156 | the query opens with the condition line |
| Agent.RagQueryShowsAnswer | backend/src/core/agent.py:153-156 | every answer's line appears, numbered from 1 |
| Agent.QueryRagNode | backend/src/core/agent.py:147-171 | the node sets the retrieved context, or [] when the search fails, and the step "rag_queried", and changes nothing else |
| Agent.Recommend | backend/src/core/agent.py:187-205 | the node's recommended specialist is always allowed |
| Agent.RecommendKeepsToolChoice | backend/src/core/agent.py:187-205 | the node keeps the tool's specialist and reasoning; a missing reasoning gets the general-evaluation text; a reasoning that is not text makes the node fall back to "Ophthalmologist" |
| Agent.IdentifyDoctorNode | backend/src/core/agent.py:173-205 | the node sets the recommendation and the step "doctor_identified" and changes nothing else |
| Agent.GenerateSummaryNode | backend/src/core/agent.py:207-238 | the node sets the tool's summary for the recommended specialist and the step "summary_generated" and changes nothing else |
| Agent.GenerateQuestions | backend/src/core/agent.py:240-254 | the questions of the question node; the four fallback questions when the oracle raised or did not parse |
| Agent.ProcessCompleteFlow | backend/src/core/agent.py:256-282 | a fresh state that has run retrieval, identification and summary in that order: step "summary_generated", an allowed recommendation, and the summary for it |
| SessionService.LeadingIndex | backend/src/services/session_manager.py:252-254 | an index whose weight is maximal and strictly above every earlier weight |
| SessionService.LeadingDoctor | backend/src/services/session_manager.py:252-254 | the leading doctor is a key of maximal weight, the first such key in map order |
| SessionService.ShouldContinue | backend/src/services/session_manager.py:169-206 | fewer than 3 answered entries always continue; 8 or more always stop |
| SessionService.ShouldContinueBand | backend/src/services/session_manager.py:183-206 | in between: without the assessor, continue exactly when overall < 0.75; with it, stop exactly when it is satisfied with score >= 0.8, or overall >= 0.75 and some specialist reaches 0.9 |
| SessionService.ShouldContinueLowConfidence | backend/src/services/session_manager.py:183-206 | in between and below 0.75 overall, stop exactly on a parsed, satisfied verdict with score >= 0.8 |
| SessionService.StartConfidence | backend/src/services/session_manager.py:129-150 | the initial score has overall in [0, 1] and a non-empty distribution; the fallback's overall is 0.3 |
| SessionService.UpdatedScore | backend/src/services/session_manager.py:152-167 | when the calculator fails the old score is kept; otherwise the overall lies in [0, 0.7] |
| SessionService.NextQuestionShape | backend/src/services/session_manager.py:208-232 | a pending entry is appended exactly when the generator ran and its oracle step did not raise; otherwise the history is kept and the question has four options with "Other" last, as does the question for an unparsable reply |
| SessionService.NextQuestion | backend/src/services/session_manager.py:208-232 | the history is kept or gains exactly one pending entry holding the new question; the manager's own fallback has four options with "Other" last |
| SessionService.ManagerFinalize | backend/src/services/session_manager.py:234-250 | when the finalizer fails, the leading doctor is recommended with a summary naming the condition and that doctor |
| SessionService.ManagerFinalizeAgrees | backend/src/services/session_manager.py:234-250 | that summary is the summarisation tool's fallback text; otherwise the leading doctor is recommended unless the oracle named a doctor type |
| SessionService.StartShape | backend/src/services/session_manager.py:35-64 | a started session has the id, condition, score and a leading doctor of maximal weight, is not complete, has no answered entry, and holds the first question as a pending entry exactly when its generation did not fall back |
| SessionService.Start | backend/src/services/session_manager.py:35-64 | the new session and the response carry the id and the initial score; the session holds the condition, is not complete, and its history is empty or the first question, pending |
| SessionService.Rescored | backend/src/services/session_manager.py:84-86 | after storing the new score the leading doctor is recomputed from it |
| SessionService.Recorded | backend/src/services/session_manager.py:75-81 | recording an answer changes only the history and the update time: the length is kept and the last entry holds the answer |
| SessionService.Conclude | backend/src/services/session_manager.py:88-119 | concluding a turn changes only the history and the completion flag, and the response reports the session's id, score and history |
| SessionService.ConcludeShape | backend/src/services/session_manager.py:88-119 | complete exactly when the interview stops; then no question but a recommendation and a summary, and the history kept; otherwise a question, no recommendation, no summary, and the generator's history |
| SessionService.Turn | backend/src/services/session_manager.py:66-123 | the turn keeps the session's id and leaves it consistent |
| SessionService.TurnScore | backend/src/services/session_manager.py:84 | the score of a turn is never an empty distribution |
| SessionService.WrittenThenPending | backend/src/services/session_manager.py:75-78 | a written history, possibly followed by one pending entry, keeps all earlier entries and holds the answer in the old last entry |
| SessionService.TurnRecordsAnswer | backend/src/services/session_manager.py:75-78 | the answer lands in the last entry whatever it held; earlier entries are untouched; at most one pending entry follows |
| SessionService.TurnWithoutHistoryDropsAnswer | backend/src/services/session_manager.py:75-78 | with an empty history the answer is recorded nowhere |
| SessionService.TurnBounds | backend/src/services/session_manager.py:171-181 | once the answer is recorded, fewer than 3 answered entries give another question; 8 or more complete the session with a recommendation and a summary |
| SessionService.TurnStopsOnlyWhenSatisfied | backend/src/services/session_manager.py:189-198 | after a successful update, between the bounds, the session completes exactly on a parsed, satisfied verdict scoring at least 0.8 |
| SessionService.TurnOnCompletedSession | backend/src/services/session_manager.py:66-123 | a completed session is answered again and stays complete; a continuing turn returns a question |
| SessionService.WriteAnswerCount | backend/src/services/session_manager.py:75-78 | over an answered last entry the answered count stays, over a pending one it grows by one |
| SessionService.FallbackTurnLosesNextAnswer | backend/src/services/session_manager.py:221-232 | after a fallback question the next answer overwrites an answered entry and the answered count does not grow |
| SessionService.StoredUpdate | backend/src/services/session_manager.py:49 | storing a consistent session under its own id keeps the store consistent |
| SessionService.StoredRemove | backend/src/services/session_manager.py:264-265 | removing sessions keeps the store consistent |
| SessionService.Pruned | backend/src/services/session_manager.py:256-268 | exactly the sessions not older than the limit remain, unchanged |
| SessionService.PrunedIdempotent | backend/src/services/session_manager.py:256-268 | cleaning twice at the same time is cleaning once |
| SessionService.PrunedMonotone | backend/src/services/session_manager.py:256-268 | a later cleanup keeps no session that an earlier one removed |
| SessionService.SessionManager.constructor | backend/src/services/session_manager.py:24-26 | the store starts empty and consistent |
| SessionService.SessionManager.GetSession | backend/src/services/session_manager.py:125-127 | a session is found exactly when its id is stored, and it is the stored one |
| SessionService.SessionManager.StartSession | backend/src/services/session_manager.py:35-64 | the store gains the started session under its id, nothing else changes, and the response is the start response |
| SessionService.SessionManager.ProcessAnswer | backend/src/services/session_manager.py:66-123 | an unknown id fails with "Session <id> not found" and changes nothing; otherwise only that session is replaced by the turn's result and the turn's response is returned |
| SessionService.SessionManager.CalculateInitialConfidence | backend/src/services/session_manager.py:129-150 | the method returns the initial score, with the manager's fallback |
| SessionService.SessionManager.UpdateConfidenceWithAnswer | backend/src/services/session_manager.py:152-167 | the method returns the updated score, or the session's score when the calculator fails |
| SessionService.SessionManager.CleanupOldSessions | backend/src/services/session_manager.py:256-268 | the store becomes the pruned store and stays consistent |
| SessionService.SessionManager.RemoveAll | backend/src/services/session_manager.py:264-265 | the deletion loop removes exactly the given ids |

## Left out

- Calls to the language model, their prompts and `json.loads` are not modelled: each call is a `Reply` or `Component` parameter holding the already-parsed fields.
- Vector search (`backend/src/services/qdrant_service.py`) and the RAG tool's event-loop handling: the search is a function parameter of `Agent.QueryRagNode` that may fail.
- The graph construction and BindWithLLM in `backend/src/core/agent.py:14-67`, the HTTP layer, configuration loading, launch scripts and logging are not part of this model.
- async/await: every operation runs sequentially; concurrent requests on the same session are not modelled.
- Floating point: confidences, weights and thresholds are exact reals, so IEEE rounding (for example a sum of 0.9999999) is not modelled.
- Clock and ids: time is an integer number of seconds supplied by the caller, and the session id is supplied by the caller instead of a fresh uuid.
- The timestamp of each `ConversationHistory` entry is not modelled; nothing in the core reads it.
- The in-place append to the caller's history list is modelled by returning the extended history; aliasing between the list the generator appends to and the session's list is not modelled.
- The copying loops that turn `UserAnswer` objects into dictionaries in the identify and summary nodes (`backend/src/core/agent.py:179-184`, `213-218`) are not modelled: the answers are passed as they are, which carries the same two fields.
- The conversation loop that builds the medical-summary prompt (`backend/src/tools/session_finalizer.py:231-234`) is not modelled, since it only feeds the prompt.
- The `except` branches of the summary and RAG nodes that cannot be reached once the tools handle their own failures are not modelled.
- SessionService.LeadingDoctor: requires a non-empty distribution, where `max` raises on an empty one; every stored session's distribution is non-empty (`SessionService.SessionManager.Valid`), so this case never arises.
- ConfidenceCalculator.UnionKeys: orders the blended keys as the first score's keys followed by the second's new keys; the source iterates a set, whose order is unspecified, so ties between equal maximal weights may be broken differently there.
- SessionService.LeadingIndex: picks the first maximal weight in map order; Python's `max` does the same on its dictionary, but the map's order itself comes from the unspecified set order above.
- Text.Lower: lowers the ASCII letters only; Python's `str.lower()` also lowers other Unicode letters.
- SessionFinalizer.AssessSatisfaction: `bool(...)` of an arbitrary JSON value and `float(...)` of the score are modelled as already-converted optional fields; a score string that `float()` rejects is a `Malformed` reply; a null or non-scalar score, or a reply that is not a JSON object, raises past the local handler and is a `Raised` reply.
