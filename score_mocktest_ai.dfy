/**
 * The mock-test scorer edge function: a maximum score per question type,
 * AI-assisted scoring of speaking and writing answers from clamped trait
 * scores, and deterministic scoring of the objective reading and listening
 * types.
 */
module MocktestScorer {
  import opened Wrappers
  import opened JsMath
  import opened Text
  import opened Counting
  import opened AnswerCounting

  /**
   * The twenty question types the function names, and any other string the
   * request may carry (`Unknown`, holding a name outside the twenty). Requests
   * reach the model through `ParseType`, which builds `Unknown` only from a
   * name outside the twenty, so no known type is met in its `Unknown` form.
   */
  datatype QuestionType =
    | ReadAloud | RepeatSentence | DescribeImage | RetellLecture | AnswerShortQuestion
    | SummarizeWrittenText | WriteEssay
    | McSingle | McMultiple | ReorderParagraphs | FillBlanksDrag | FillBlanksDropdown
    | HighlightCorrectSummary | McSingleListening | McMultipleListening | FillBlanksListening
    | HighlightIncorrectWords | WriteFromDictation | SelectMissingWord | SummarizeSpokenText
    | Unknown(name: string)

  /** The type's name on the wire. */
  function TypeName(q: QuestionType): string {
    match q
    case ReadAloud => "read-aloud"
    case RepeatSentence => "repeat-sentence"
    case DescribeImage => "describe-image"
    case RetellLecture => "retell-lecture"
    case AnswerShortQuestion => "answer-short-question"
    case SummarizeWrittenText => "summarize-written-text"
    case WriteEssay => "write-essay"
    case McSingle => "mc-single"
    case McMultiple => "mc-multiple"
    case ReorderParagraphs => "reorder-paragraphs"
    case FillBlanksDrag => "fill-blanks-drag"
    case FillBlanksDropdown => "fill-blanks-dropdown"
    case HighlightCorrectSummary => "highlight-correct-summary"
    case McSingleListening => "mc-single-listening"
    case McMultipleListening => "mc-multiple-listening"
    case FillBlanksListening => "fill-blanks-listening"
    case HighlightIncorrectWords => "highlight-incorrect-words"
    case WriteFromDictation => "write-from-dictation"
    case SelectMissingWord => "select-missing-word"
    case SummarizeSpokenText => "summarize-spoken-text"
    case Unknown(name) => name
  }

  /** The type a request's `questionType` string names; every string is the name of what it parses to. */
  function ParseType(s: string): (q: QuestionType)
    ensures TypeName(q) == s
  {
    if s == "read-aloud" then ReadAloud
    else if s == "repeat-sentence" then RepeatSentence
    else if s == "describe-image" then DescribeImage
    else if s == "retell-lecture" then RetellLecture
    else if s == "answer-short-question" then AnswerShortQuestion
    else if s == "summarize-written-text" then SummarizeWrittenText
    else if s == "write-essay" then WriteEssay
    else if s == "mc-single" then McSingle
    else if s == "mc-multiple" then McMultiple
    else if s == "reorder-paragraphs" then ReorderParagraphs
    else if s == "fill-blanks-drag" then FillBlanksDrag
    else if s == "fill-blanks-dropdown" then FillBlanksDropdown
    else if s == "highlight-correct-summary" then HighlightCorrectSummary
    else if s == "mc-single-listening" then McSingleListening
    else if s == "mc-multiple-listening" then McMultipleListening
    else if s == "fill-blanks-listening" then FillBlanksListening
    else if s == "highlight-incorrect-words" then HighlightIncorrectWords
    else if s == "write-from-dictation" then WriteFromDictation
    else if s == "select-missing-word" then SelectMissingWord
    else if s == "summarize-spoken-text" then SummarizeSpokenText
    else Unknown(s)
  }

  /**
   * `MAX_SCORES[questionType] || 1`: the table's maximum for the twenty
   * types, and the default 1 for any other string.
   */
  function MaxScore(q: QuestionType): (m: int)
    ensures 1 <= m <= 26
    ensures m == 1 <==> q.Unknown? || q in {AnswerShortQuestion, McSingle, HighlightCorrectSummary,
                                            McSingleListening, SelectMissingWord}
  {
    match q
    case ReadAloud => 15
    case RepeatSentence => 13
    case DescribeImage => 15
    case RetellLecture => 16
    case AnswerShortQuestion => 1
    case SummarizeWrittenText => 12
    case WriteEssay => 26
    case McSingle => 1
    case McMultiple => 2
    case ReorderParagraphs => 5
    case FillBlanksDrag => 5
    case FillBlanksDropdown => 5
    case HighlightCorrectSummary => 1
    case McSingleListening => 1
    case McMultipleListening => 2
    case FillBlanksListening => 5
    case HighlightIncorrectWords => 4
    case WriteFromDictation => 12
    case SelectMissingWord => 1
    case SummarizeSpokenText => 10
    case Unknown(_) => 1
  }

  predicate IsSpeakingQuestion(q: QuestionType) {
    q in {ReadAloud, RepeatSentence, DescribeImage, RetellLecture, AnswerShortQuestion}
  }

  predicate IsWritingQuestion(q: QuestionType) {
    q in {SummarizeWrittenText, WriteEssay, SummarizeSpokenText, WriteFromDictation}
  }

  predicate IsSingleChoice(q: QuestionType) {
    q == McSingle || q == McSingleListening || q == HighlightCorrectSummary || q == SelectMissingWord
  }

  predicate IsMultiChoice(q: QuestionType) {
    q == McMultiple || q == McMultipleListening
  }

  /** The types whose name contains "fill-blanks": three of the twenty, and any other name containing it. */
  predicate IsFillBlanks(q: QuestionType) {
    q == FillBlanksDrag || q == FillBlanksDropdown || q == FillBlanksListening ||
    (q.Unknown? && Contains(q.name, "fill-blanks"))
  }

  /** Which scorer the handler sends a question type to. */
  datatype Strategy = SpeakingScorer | WritingScorer | ObjectiveScorer

  function Route(q: QuestionType): (s: Strategy)
    ensures s == SpeakingScorer <==> IsSpeakingQuestion(q)
    ensures s == WritingScorer <==> IsWritingQuestion(q)
  {
    if IsSpeakingQuestion(q) then SpeakingScorer
    else if IsWritingQuestion(q) then WritingScorer
    else ObjectiveScorer
  }

  /**
   * The objective scorer receives exactly the reading and listening types
   * that are neither spoken nor written.
   */
  lemma ObjectiveRouting(q: QuestionType)
    ensures Route(q) == ObjectiveScorer <==>
      IsSingleChoice(q) || IsMultiChoice(q) || IsFillBlanks(q) ||
      q == ReorderParagraphs || q == HighlightIncorrectWords || q.Unknown?
  {
  }

  /** The request body; absent optional fields are None. */
  datatype Request = Request(
    questionType: QuestionType,
    spokenText: Option<string>,
    writtenText: Option<string>,
    selectedOptions: Option<seq<string>>,
    correctAnswers: Option<seq<string>>,
    orderedItems: Option<seq<string>>,
    correctOrder: Option<seq<string>>,
    blankAnswers: Option<map<string, string>>,
    blanks: Option<seq<Blank>>)

  /** The detailed feedback returned to the client; trait scores are present only for the scorer that sets them. */
  datatype Feedback = Feedback(
    totalScore: int,
    maxScore: int,
    percentage: int,
    pronunciation: Option<int>,
    fluency: Option<int>,
    content: Option<int>,
    grammar: Option<int>,
    vocabulary: Option<int>,
    structure: Option<int>,
    strengths: seq<string>,
    improvements: seq<string>,
    tips: seq<string>,
    overallFeedback: string)

  /** `normalizeScore`: clamp a score into [0, max]. */
  function NormalizeScore(score: real, max: real): (r: real)
    requires 0.0 <= max
    ensures 0.0 <= r <= max
    ensures 0.0 <= score <= max ==> r == score
    ensures score > max ==> r == max
    ensures score < 0.0 ==> r == 0.0
  {
    MaxReal(0.0, MinReal(score, max))
  }

  /** `createEmptyFeedback`: zero marks, the message as the only improvement and as the summary. */
  function EmptyFeedback(maxScore: int, message: string): (fb: Feedback)
    ensures fb.totalScore == 0 && fb.percentage == 0 && fb.maxScore == maxScore
    ensures fb.strengths == [] && fb.improvements == [message] && fb.overallFeedback == message
    ensures fb.pronunciation.None? && fb.grammar.None?
  {
    Feedback(0, maxScore, 0, None, None, None, None, None, None,
             [], [message], ["Ensure your response is recorded properly"], message)
  }

  // ---------------------------------------------------------------------
  // Objective scoring
  // ---------------------------------------------------------------------

  /** The percentage, strengths, improvements and summary for an objective score. */
  function ObjectiveFeedback(score: int, totalPossible: int): (fb: Feedback)
    ensures fb.totalScore == score && fb.maxScore == totalPossible
    ensures 0 <= score <= totalPossible ==> 0 <= fb.percentage <= 100
    ensures 0 < score == totalPossible ==> fb.percentage == 100 && fb.improvements == []
    ensures totalPossible <= 0 ==> fb.percentage == 0
    ensures fb.improvements == [] <==> score >= totalPossible
  {
    Feedback(
      score, totalPossible, ObjectivePercentage(score, totalPossible), None, None, None, None, None, None,
      if score == totalPossible then ["Perfect answer!"] else if score > 0 then ["Some correct answers"] else [],
      if score < totalPossible then ["Review incorrect answers"] else [],
      ["Practice more questions of this type"],
      ObjectiveSummary(score, totalPossible))
  }

  /** `Math.round((score / totalPossible) * 100)`, or 0 with nothing to score. */
  function ObjectivePercentage(score: int, totalPossible: int): (percentage: int)
    ensures 0 <= score <= totalPossible ==> 0 <= percentage <= 100
    ensures 0 < score == totalPossible ==> percentage == 100
    ensures totalPossible <= 0 ==> percentage == 0
  {
    var percentage := if totalPossible > 0 then Round(score as real / totalPossible as real * 100.0) else 0;
    assert 0 <= score <= totalPossible && totalPossible > 0 ==>
      0 <= percentage <= 100 && (score == totalPossible ==> percentage == 100) by {
      if 0 <= score <= totalPossible && totalPossible > 0 {
        PercentageBetween(score, totalPossible);
      }
    }
    percentage
  }

  /** The summary line: praise for full marks, otherwise the score out of the total. */
  function ObjectiveSummary(score: int, totalPossible: int): string {
    if score == totalPossible then "Excellent work! You answered correctly."
    else "You scored " + IntToString(score) + " out of " + IntToString(totalPossible) +
         ". Review the correct answers and try again."
  }

  /**
   * The marks the answer key gives: single choice scores 1 exactly when the
   * first selected option is the first correct answer, out of 1; multiple
   * choice scores right picks minus wrong picks, at least 0, out of the
   * key's size; reorder scores adjacent pairs kept as the loop counts them
   * (`AdjacentPairs`), out of one less than the key's length;
   * fill-in-the-blanks scores the blanks answered
   * correctly or, with no blanks, positional matches; anything else (or a
   * missing field) scores 0 out of the type's maximum.
   */
  predicate KeyedMarks(request: Request, maxScore: int, score: int, totalPossible: int) {
    var q := request.questionType;
    if IsSingleChoice(q) then
      totalPossible == 1 &&
      score == (if First(request.selectedOptions) == First(request.correctAnswers) then 1 else 0)
    else if IsMultiChoice(q) then
      var selected := OrEmpty(request.selectedOptions);
      var correct := OrEmpty(request.correctAnswers);
      totalPossible == |correct| &&
      score == MaxInt(0, CountIn(selected, correct) - CountNotIn(selected, correct))
    else if q == ReorderParagraphs && request.orderedItems.Some? && request.correctOrder.Some? then
      totalPossible == |request.correctOrder.value| - 1 &&
      score == AdjacentPairs(request.orderedItems.value, request.correctOrder.value)
    else if IsFillBlanks(q) && request.blankAnswers.Some? && request.blanks.Some? then
      totalPossible == |request.blanks.value| &&
      score == BlanksCorrect(request.blanks.value, request.blankAnswers.value)
    else if IsFillBlanks(q) && request.selectedOptions.Some? && request.correctAnswers.Some? then
      totalPossible == |request.correctAnswers.value| &&
      score == PositionalMatches(request.selectedOptions.value, request.correctAnswers.value)
    else
      totalPossible == maxScore && score == 0
  }

  /** The answer key fixes the marks: two markings of one request agree. */
  lemma KeyedMarksUnique(request: Request, maxScore: int, score: int, totalPossible: int, score': int, totalPossible': int)
    requires KeyedMarks(request, maxScore, score, totalPossible)
    requires KeyedMarks(request, maxScore, score', totalPossible')
    ensures score == score' && totalPossible == totalPossible'
  {
  }

  /** The branches of `scoreObjective` that set `score` and `totalPossible`. */
  method MarkObjective(request: Request, maxScore: int) returns (score: int, totalPossible: int)
    ensures KeyedMarks(request, maxScore, score, totalPossible)
  {
    var q := request.questionType;
    score := 0;
    totalPossible := maxScore;
    if IsSingleChoice(q) {
      score := if First(request.selectedOptions) == First(request.correctAnswers) then 1 else 0;
      totalPossible := 1;
    } else if IsMultiChoice(q) {
      var correct := OrEmpty(request.correctAnswers);
      var selected := OrEmpty(request.selectedOptions);
      score := MaxInt(0, CountIn(selected, correct) - CountNotIn(selected, correct));
      totalPossible := |correct|;
    } else if q == ReorderParagraphs {
      if request.orderedItems.Some? && request.correctOrder.Some? {
        score := CountAdjacentPairs(request.orderedItems.value, request.correctOrder.value);
        totalPossible := |request.correctOrder.value| - 1;
      }
    } else if IsFillBlanks(q) {
      if request.blankAnswers.Some? && request.blanks.Some? {
        score := CountBlanksCorrect(request.blanks.value, request.blankAnswers.value);
        totalPossible := |request.blanks.value|;
      } else if request.selectedOptions.Some? && request.correctAnswers.Some? {
        score := CountPositionalMatches(request.selectedOptions.value, request.correctAnswers.value);
        totalPossible := |request.correctAnswers.value|;
      }
    }
  }

  /** `scoreObjective`: the keyed marks and the feedback built on them. */
  method ScoreObjective(request: Request, maxScore: int) returns (fb: Feedback)
    ensures fb == ObjectiveFeedback(fb.totalScore, fb.maxScore)
    ensures KeyedMarks(request, maxScore, fb.totalScore, fb.maxScore)
  {
    var score, totalPossible := MarkObjective(request, maxScore);
    fb := ObjectiveFeedback(score, totalPossible);
  }

  // ---------------------------------------------------------------------
  // Speaking and writing scoring
  // ---------------------------------------------------------------------

  /** The fields of the model's JSON reply that the scorers read; None when absent. */
  datatype AiReply = AiReply(
    pronunciationScore: Option<real>,
    fluencyScore: Option<real>,
    contentScore: Option<real>,
    grammarScore: Option<real>,
    vocabularyScore: Option<real>,
    structureScore: Option<real>,
    strengths: Option<seq<string>>,
    improvements: Option<seq<string>>,
    tips: Option<seq<string>>,
    overallFeedback: Option<string>)

  /** The empty object `{}`. */
  const NoReply := AiReply(None, None, None, None, None, None, None, None, None, None)

  /** The model call: a failure (an error status or an unreadable body) or the reply text, "" when it has none. */
  datatype ModelCall = CallFailed | ReplyText(text: string)

  /**
   * `parseJsonResponse`: the greedy brace span of the reply, decoded.
   * `decoded` is what the JSON parser yields for that span (None when it
   * throws); no span or a parse failure gives the empty object.
   */
  function ParseJsonResponse(content: string, decoded: Option<AiReply>): (r: AiReply)
    ensures !HasBracePair(content) ==> r == NoReply
    ensures decoded.None? ==> r == NoReply
    ensures HasBracePair(content) && decoded.Some? ==> r == decoded.value
  {
    match JsonSpan(content)
    case None => NoReply
    case Some(_) => if decoded.Some? then decoded.value else NoReply
  }

  /** `parsed.x || d` for an array field: an absent array falls back, an empty one is kept. */
  function ListOr(x: Option<seq<string>>, d: seq<string>): seq<string> {
    if x.Some? then x.value else d
  }

  /** `parsed.x || d` for a text field: absent or empty text falls back. */
  function TextOr(x: Option<string>, d: string): (r: string)
    ensures x.Some? && x.value != [] ==> r == x.value
    ensures x.None? || x.value == [] ==> r == d
  {
    if x.Some? && x.value != [] then x.value else d
  }

  /** A trait score: `normalizeScore(parsed.x || 50, 90)`. */
  function Trait(x: Option<real>): (r: real)
    ensures 0.0 <= r <= 90.0
    ensures x.None? || x.value == 0.0 ==> r == 50.0
    ensures x.Some? && x.value != 0.0 ==> r == NormalizeScore(x.value, 90.0)
  {
    NormalizeScore(NumberOr(x, 50.0), 90.0)
  }

  /** Scaling a weighted trait average in [0, 90] to [0, maxScore] and rounding stays in [0, maxScore]. */
  lemma ScaledWithin(w: real, maxScore: int)
    requires 0.0 <= w <= 90.0 && maxScore >= 0
    ensures 0 <= Round(w * maxScore as real / 90.0) <= maxScore
  {
    var m := maxScore as real;
    assert 0.0 <= w * m <= 90.0 * m by {
      assert (90.0 - w) * m >= 0.0;
    }
    RoundBetween(w * m / 90.0, 0, maxScore);
  }

  /** The speaking total: pronunciation 35%, fluency 30%, content 35%, scaled to the question's maximum. */
  function SpeakingTotal(p: real, f: real, c: real, maxScore: int): (t: int)
    requires 0.0 <= p <= 90.0 && 0.0 <= f <= 90.0 && 0.0 <= c <= 90.0 && maxScore >= 0
    ensures 0 <= t <= maxScore
    ensures p == f == c == 90.0 ==> t == maxScore
  {
    var w := p * 0.35 + f * 0.3 + c * 0.35;
    ScaledWithin(w, maxScore);
    if p == f == c == 90.0 then
      assert w * maxScore as real / 90.0 == maxScore as real;
      RoundInt(maxScore);
      Round(w * maxScore as real / 90.0)
    else
      Round(w * maxScore as real / 90.0)
  }

  /** The writing total: essays weigh content, grammar, vocabulary, structure 30/30/20/20, other types 40/30/15/15. */
  function WritingTotal(q: QuestionType, c: real, g: real, v: real, s: real, maxScore: int): (t: int)
    requires 0.0 <= c <= 90.0 && 0.0 <= g <= 90.0 && 0.0 <= v <= 90.0 && 0.0 <= s <= 90.0
    requires maxScore >= 0
    ensures 0 <= t <= maxScore
    ensures c == g == v == s == 90.0 ==> t == maxScore
  {
    var w := if q == WriteEssay then c * 0.3 + g * 0.3 + v * 0.2 + s * 0.2
             else c * 0.4 + g * 0.3 + v * 0.15 + s * 0.15;
    ScaledWithin(w, maxScore);
    if c == g == v == s == 90.0 then
      assert w * maxScore as real / 90.0 == maxScore as real;
      RoundInt(maxScore);
      Round(w * maxScore as real / 90.0)
    else
      Round(w * maxScore as real / 90.0)
  }

  /** `scoreSpeaking`: no transcript, or a failed model call, gives empty feedback. */
  function ScoreSpeaking(request: Request, maxScore: int, call: ModelCall, decoded: Option<AiReply>): (fb: Feedback)
    requires maxScore >= 1
    ensures fb.maxScore == maxScore
    ensures 0 <= fb.totalScore <= maxScore && 0 <= fb.percentage <= 100
    ensures (request.spokenText.None? || request.spokenText.value == []) ==>
      fb == EmptyFeedback(maxScore, "No spoken text provided")
    ensures request.spokenText.Some? && request.spokenText.value != [] && call.CallFailed? ==>
      fb == EmptyFeedback(maxScore, "Unable to analyze speech")
    ensures request.spokenText.Some? && request.spokenText.value != [] && call.ReplyText? ==>
      fb.pronunciation.Some? && 0 <= fb.pronunciation.value <= 90 &&
      fb.fluency.Some? && 0 <= fb.fluency.value <= 90 &&
      fb.content.Some? && 0 <= fb.content.value <= 90
    ensures request.spokenText.Some? && request.spokenText.value != [] && call.ReplyText? ==>
      var parsed := ParseJsonResponse(call.text, decoded);
      var p, f, c := Trait(parsed.pronunciationScore), Trait(parsed.fluencyScore), Trait(parsed.contentScore);
      fb.totalScore == SpeakingTotal(p, f, c, maxScore) &&
      fb.percentage == Round(fb.totalScore as real / maxScore as real * 100.0) &&
      fb.pronunciation == Some(Round(p)) && fb.fluency == Some(Round(f)) && fb.content == Some(Round(c)) &&
      fb.strengths == (if parsed.strengths.Some? then parsed.strengths.value else ["Good attempt"]) &&
      fb.improvements == (if parsed.improvements.Some? then parsed.improvements.value else ["Continue practicing"]) &&
      fb.tips == (if parsed.tips.Some? then parsed.tips.value else ["Practice regularly"]) &&
      fb.overallFeedback == TextOr(parsed.overallFeedback, "Keep practicing to improve your speaking skills.") &&
      fb.grammar.None? && fb.vocabulary.None? && fb.structure.None?
  {
    if request.spokenText.None? || request.spokenText.value == [] then
      EmptyFeedback(maxScore, "No spoken text provided")
    else if call.CallFailed? then
      EmptyFeedback(maxScore, "Unable to analyze speech")
    else
      var parsed := ParseJsonResponse(call.text, decoded);
      var p := Trait(parsed.pronunciationScore);
      var f := Trait(parsed.fluencyScore);
      var c := Trait(parsed.contentScore);
      var total := SpeakingTotal(p, f, c, maxScore);
      PercentageBetween(total, maxScore);
      RoundBetween(p, 0, 90);
      RoundBetween(f, 0, 90);
      RoundBetween(c, 0, 90);
      Feedback(
        MinInt(total, maxScore), maxScore, Round(total as real / maxScore as real * 100.0),
        Some(Round(p)), Some(Round(f)), Some(Round(c)), None, None, None,
        ListOr(parsed.strengths, ["Good attempt"]),
        ListOr(parsed.improvements, ["Continue practicing"]),
        ListOr(parsed.tips, ["Practice regularly"]),
        TextOr(parsed.overallFeedback, "Keep practicing to improve your speaking skills."))
  }

  /** `scoreWriting`: no text, or a failed model call, gives empty feedback. */
  function ScoreWriting(request: Request, maxScore: int, call: ModelCall, decoded: Option<AiReply>): (fb: Feedback)
    requires maxScore >= 1
    ensures fb.maxScore == maxScore
    ensures 0 <= fb.totalScore <= maxScore && 0 <= fb.percentage <= 100
    ensures (request.writtenText.None? || request.writtenText.value == []) ==>
      fb == EmptyFeedback(maxScore, "No written text provided")
    ensures request.writtenText.Some? && request.writtenText.value != [] && call.CallFailed? ==>
      fb == EmptyFeedback(maxScore, "Unable to analyze writing")
    ensures request.writtenText.Some? && request.writtenText.value != [] && call.ReplyText? ==>
      fb.content.Some? && 0 <= fb.content.value <= 90 &&
      fb.grammar.Some? && 0 <= fb.grammar.value <= 90 &&
      fb.vocabulary.Some? && 0 <= fb.vocabulary.value <= 90 &&
      fb.structure.Some? && 0 <= fb.structure.value <= 90
    ensures request.writtenText.Some? && request.writtenText.value != [] && call.ReplyText? ==>
      var parsed := ParseJsonResponse(call.text, decoded);
      var c, g := Trait(parsed.contentScore), Trait(parsed.grammarScore);
      var v, st := Trait(parsed.vocabularyScore), Trait(parsed.structureScore);
      fb.totalScore == WritingTotal(request.questionType, c, g, v, st, maxScore) &&
      fb.percentage == Round(fb.totalScore as real / maxScore as real * 100.0) &&
      fb.content == Some(Round(c)) && fb.grammar == Some(Round(g)) &&
      fb.vocabulary == Some(Round(v)) && fb.structure == Some(Round(st)) &&
      fb.strengths == (if parsed.strengths.Some? then parsed.strengths.value else ["Good attempt"]) &&
      fb.improvements == (if parsed.improvements.Some? then parsed.improvements.value else ["Continue practicing"]) &&
      fb.tips == (if parsed.tips.Some? then parsed.tips.value else ["Practice regularly"]) &&
      fb.overallFeedback == TextOr(parsed.overallFeedback, "Keep practicing to improve your writing skills.") &&
      fb.pronunciation.None? && fb.fluency.None?
  {
    if request.writtenText.None? || request.writtenText.value == [] then
      EmptyFeedback(maxScore, "No written text provided")
    else if call.CallFailed? then
      EmptyFeedback(maxScore, "Unable to analyze writing")
    else
      var parsed := ParseJsonResponse(call.text, decoded);
      var c := Trait(parsed.contentScore);
      var g := Trait(parsed.grammarScore);
      var v := Trait(parsed.vocabularyScore);
      var s := Trait(parsed.structureScore);
      var total := WritingTotal(request.questionType, c, g, v, s, maxScore);
      PercentageBetween(total, maxScore);
      RoundBetween(c, 0, 90);
      RoundBetween(g, 0, 90);
      RoundBetween(v, 0, 90);
      RoundBetween(s, 0, 90);
      Feedback(
        MinInt(total, maxScore), maxScore, Round(total as real / maxScore as real * 100.0),
        None, None, Some(Round(c)), Some(Round(g)), Some(Round(v)), Some(Round(s)),
        ListOr(parsed.strengths, ["Good attempt"]),
        ListOr(parsed.improvements, ["Continue practicing"]),
        ListOr(parsed.tips, ["Practice regularly"]),
        TextOr(parsed.overallFeedback, "Keep practicing to improve your writing skills."))
  }

  /**
   * An unreadable reply (no JSON object in it) scores every trait at the
   * default 50, i.e. 50/90 of the maximum, rounded.
   */
  lemma UnreadableReplyScoresDefault(request: Request, maxScore: int, text: string, decoded: Option<AiReply>)
    requires maxScore >= 1 && request.spokenText.Some? && request.spokenText.value != []
    requires !HasBracePair(text)
    ensures ScoreSpeaking(request, maxScore, ReplyText(text), decoded).totalScore ==
            Round(50.0 * maxScore as real / 90.0)
    ensures ScoreSpeaking(request, maxScore, ReplyText(text), decoded).pronunciation == Some(50)
  {
    RoundInt(50);
  }

  /** The response of the function: the status and the feedback, with an error message on failure. */
  datatype Response = Response(status: int, feedback: Feedback, error: Option<string>)

  /**
   * The handler: without a configured model key the request fails with
   * status 500 and a fixed error feedback; otherwise the question is routed
   * to its scorer with the type's maximum score.
   */
  method Handle(request: Request, keyConfigured: bool, call: ModelCall, decoded: Option<AiReply>)
    returns (r: Response)
    ensures !keyConfigured ==>
      r.status == 500 && r.error == Some("GOOGLE_API_KEY is not configured") &&
      r.feedback.totalScore == 0 && r.feedback.maxScore == 1 &&
      r.feedback.improvements == ["Unable to analyze response"]
    ensures keyConfigured ==> r.status == 200 && r.error.None?
    ensures keyConfigured && IsSpeakingQuestion(request.questionType) ==>
      r.feedback == ScoreSpeaking(request, MaxScore(request.questionType), call, decoded)
    ensures keyConfigured && IsWritingQuestion(request.questionType) ==>
      r.feedback == ScoreWriting(request, MaxScore(request.questionType), call, decoded)
    ensures keyConfigured && Route(request.questionType) != ObjectiveScorer ==>
      0 <= r.feedback.totalScore <= r.feedback.maxScore == MaxScore(request.questionType)
    ensures keyConfigured && Route(request.questionType) == ObjectiveScorer ==>
      r.feedback == ObjectiveFeedback(r.feedback.totalScore, r.feedback.maxScore) &&
      KeyedMarks(request, MaxScore(request.questionType), r.feedback.totalScore, r.feedback.maxScore)
  {
    if !keyConfigured {
      var fb := Feedback(0, 1, 0, None, None, None, None, None, None,
                         [], ["Unable to analyze response"], ["Please try again"],
                         "An error occurred during scoring.");
      return Response(500, fb, Some("GOOGLE_API_KEY is not configured"));
    }
    var maxScore := MaxScore(request.questionType);
    var fb;
    match Route(request.questionType) {
      case SpeakingScorer =>
        fb := ScoreSpeaking(request, maxScore, call, decoded);
      case WritingScorer =>
        fb := ScoreWriting(request, maxScore, call, decoded);
      case ObjectiveScorer =>
        fb := ScoreObjective(request, maxScore);
    }
    r := Response(200, fb, None);
  }
}
