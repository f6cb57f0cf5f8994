/**
 * The agentic scorer edge function: it spends one daily scoring credit,
 * routes the answer to a speaking, writing, reading or listening agent,
 * adds the per-type metadata (maximum, percentage, skill contributions,
 * human-review flag) and stores the score when a submission is named.
 */
module AgenticScorer {
  import opened Wrappers
  import opened JsMath
  import opened Text
  import opened AnswerCounting
  import opened Counting

  /** The twenty-one question types of the 2025 format. */
  datatype QuestionType =
    | ReadAloud | RepeatSentence | RetellLecture | AnswerShortQuestion
    | SummariseGroupDiscussion | RespondToSituation
    | SummarizeWrittenText | WriteEssay
    | McSingleReading | McMultipleReading | ReorderParagraphs | FillBlanksDropdown | FillBlanksDrag
    | SummarizeSpokenText | McMultipleListening | McSingleListening | FillBlanksListening
    | HighlightCorrectSummary | SelectMissingWord | HighlightIncorrectWords | WriteFromDictation

  function MaxScore(q: QuestionType): (m: int)
    ensures 1 <= m <= 26
  {
    match q
    case ReadAloud => 15
    case RepeatSentence => 13
    case RetellLecture => 16
    case AnswerShortQuestion => 1
    case SummariseGroupDiscussion => 16
    case RespondToSituation => 13
    case SummarizeWrittenText => 12
    case WriteEssay => 26
    case McSingleReading => 1
    case McMultipleReading => 2
    case ReorderParagraphs => 4
    case FillBlanksDropdown => 1
    case FillBlanksDrag => 1
    case SummarizeSpokenText => 12
    case McMultipleListening => 2
    case McSingleListening => 1
    case FillBlanksListening => 1
    case HighlightCorrectSummary => 1
    case SelectMissingWord => 1
    case HighlightIncorrectWords => 2
    case WriteFromDictation => 1
  }

  datatype Skill = Speaking | Writing | Reading | Listening

  /** The share of each communicative skill a type's score counts towards. */
  function SkillContributions(q: QuestionType): (c: seq<(Skill, real)>)
    ensures 1 <= |c| <= 2
    ensures forall i :: 0 <= i < |c| ==> 0.0 < c[i].1 <= 1.0
  {
    match q
    case ReadAloud => [(Speaking, 0.5), (Reading, 0.5)]
    case RepeatSentence => [(Speaking, 0.5), (Listening, 0.5)]
    case RetellLecture => [(Speaking, 0.5), (Listening, 0.5)]
    case AnswerShortQuestion => [(Speaking, 0.5), (Listening, 0.5)]
    case SummariseGroupDiscussion => [(Speaking, 0.55), (Listening, 0.45)]
    case RespondToSituation => [(Speaking, 1.0)]
    case SummarizeWrittenText => [(Writing, 0.8), (Reading, 0.2)]
    case WriteEssay => [(Writing, 1.0)]
    case McSingleReading => [(Reading, 1.0)]
    case McMultipleReading => [(Reading, 1.0)]
    case ReorderParagraphs => [(Reading, 1.0)]
    case FillBlanksDropdown => [(Reading, 1.0)]
    case FillBlanksDrag => [(Reading, 1.0)]
    case SummarizeSpokenText => [(Writing, 0.5), (Listening, 0.5)]
    case McMultipleListening => [(Listening, 1.0)]
    case McSingleListening => [(Listening, 1.0)]
    case FillBlanksListening => [(Writing, 0.5), (Listening, 0.5)]
    case HighlightCorrectSummary => [(Listening, 1.0)]
    case SelectMissingWord => [(Listening, 1.0)]
    case HighlightIncorrectWords => [(Listening, 1.0)]
    case WriteFromDictation => [(Writing, 0.5), (Listening, 0.5)]
  }

  function ShareSum(c: seq<(Skill, real)>): real {
    if c == [] then 0.0 else c[0].1 + ShareSum(c[1..])
  }

  /** Every type's contributions name distinct skills and add up to the whole score. */
  lemma ContributionsAreShares(q: QuestionType)
    ensures ShareSum(SkillContributions(q)) == 1.0
    ensures var c := SkillContributions(q); |c| == 2 ==> c[0].0 != c[1].0
  {
    var c := SkillContributions(q);
    ShareSumShort(c);
  }

  lemma ShareSumShort(c: seq<(Skill, real)>)
    requires 1 <= |c| <= 2
    ensures ShareSum(c) == c[0].1 + (if |c| == 2 then c[1].1 else 0.0)
  {
    if |c| == 2 {
      assert c[1..][1..] == [];
    } else {
      assert c[1..] == [];
    }
  }

  predicate NeedsHumanReviewType(q: QuestionType) {
    q in {WriteEssay, SummarizeWrittenText, SummarizeSpokenText, RetellLecture,
          SummariseGroupDiscussion, RespondToSituation, ReadAloud}
  }

  predicate IsSpeakingQuestion(q: QuestionType) {
    q in {ReadAloud, RepeatSentence, RetellLecture, AnswerShortQuestion,
          SummariseGroupDiscussion, RespondToSituation}
  }

  predicate IsWritingQuestion(q: QuestionType) {
    q in {SummarizeWrittenText, WriteEssay}
  }

  predicate IsReadingQuestion(q: QuestionType) {
    q in {McSingleReading, McMultipleReading, ReorderParagraphs, FillBlanksDropdown, FillBlanksDrag}
  }

  predicate IsListeningQuestion(q: QuestionType) {
    q in {SummarizeSpokenText, McMultipleListening, McSingleListening, FillBlanksListening,
          HighlightCorrectSummary, SelectMissingWord, HighlightIncorrectWords, WriteFromDictation}
  }

  /** The listening types the listening agent hands to the deterministic reading scorer. */
  predicate IsDeterministicListening(q: QuestionType) {
    q in {McMultipleListening, McSingleListening, HighlightCorrectSummary, SelectMissingWord}
  }

  /**
   * The four type guards split the twenty-one types: every one of them
   * satisfies exactly one guard, so only a string outside them reaches the
   * handler's "unknown question type" error.
   */
  lemma GuardsPartitionTypes(q: QuestionType)
    ensures IsSpeakingQuestion(q) || IsWritingQuestion(q) || IsReadingQuestion(q) || IsListeningQuestion(q)
    ensures !(IsSpeakingQuestion(q) && IsWritingQuestion(q))
    ensures !(IsSpeakingQuestion(q) && IsReadingQuestion(q))
    ensures !(IsSpeakingQuestion(q) && IsListeningQuestion(q))
    ensures !(IsWritingQuestion(q) && IsReadingQuestion(q))
    ensures !(IsWritingQuestion(q) && IsListeningQuestion(q))
    ensures !(IsReadingQuestion(q) && IsListeningQuestion(q))
  {
  }

  /** `correctAnswer`: absent, one string, or an array of strings. */
  datatype CorrectAnswer = NoAnswer | One(answer: string) | Many(answers: seq<string>)

  datatype Request = Request(
    questionType: QuestionType,
    userId: string,
    submissionId: Option<string>,
    selectedOptions: Option<seq<string>>,
    correctAnswer: CorrectAnswer,
    orderedItems: Option<seq<string>>)

  datatype FeedbackLists = FeedbackLists(strengths: seq<string>, improvements: seq<string>, tips: seq<string>)

  datatype ScoreResult = ScoreResult(
    totalScore: real,
    maxScore: int,
    percentage: int,
    traitScores: seq<(string, real)>,
    feedback: FeedbackLists,
    skillContributions: seq<(Skill, real)>,
    confidence: real,
    needsHumanReview: bool)

  /** `selectedOptions?.[0] === correctAnswer`: strict equality, which an array answer never meets. */
  predicate SingleChoiceCorrect(selected: Option<seq<string>>, key: CorrectAnswer) {
    match key
    case NoAnswer => First(selected).None?
    case One(a) => First(selected) == Some(a)
    case Many(_) => false
  }

  /**
   * The answer key of a multiple-choice item: an array as is, a single
   * answer wrapped. An absent answer wraps to `[undefined]`, which no
   * selected string equals, so it counts as an empty key.
   */
  function MultiKey(key: CorrectAnswer): seq<string> {
    match key
    case NoAnswer => []
    case One(a) => [a]
    case Many(xs) => xs
  }

  /** The raw score `scoreReading` computes for a type; types without a case score 0. */
  function ReadingScore(request: Request): (n: nat)
  {
    var q := request.questionType;
    if q in {McSingleReading, McSingleListening} then
      if SingleChoiceCorrect(request.selectedOptions, request.correctAnswer) then 1 else 0
    else if q in {McMultipleReading, McMultipleListening} then
      var selected := OrEmpty(request.selectedOptions);
      var key := MultiKey(request.correctAnswer);
      MaxInt(0, CountIn(selected, key) - CountNotIn(selected, key))
    else if q == ReorderParagraphs then
      if request.orderedItems.Some? && request.correctAnswer.Many? then
        AdjacentPairs(request.orderedItems.value, request.correctAnswer.answers)
      else 0
    else if q in {FillBlanksDropdown, FillBlanksDrag} then
      if request.selectedOptions.Some? && request.correctAnswer.Many? then
        PositionalMatches(request.selectedOptions.value, request.correctAnswer.answers)
      else 0
    else 0
  }

  /** The result `scoreReading` builds around a raw score: full confidence, never flagged for review. */
  function ReadingResult(q: QuestionType, score: nat): (r: ScoreResult)
    ensures r.totalScore == score as real && r.maxScore == MaxScore(q)
    ensures r.confidence == 1.0 && !r.needsHumanReview
    ensures score <= MaxScore(q) ==> 0 <= r.percentage <= 100
    ensures r.feedback.improvements == [] <==> score >= MaxScore(q)
  {
    var m := MaxScore(q);
    assert score <= m ==> 0 <= Round(score as real / m as real * 100.0) <= 100 by {
      if score <= m {
        PercentageBetween(score, m);
      }
    }
    ScoreResult(
      score as real, m, Round(score as real / m as real * 100.0),
      [("accuracy", score as real)],
      FeedbackLists(
        if score == m then ["Perfect answer!"] else ["Good attempt"],
        if score < m then ["Review the correct answers"] else [],
        ["Practice more questions of this type"]),
      SkillContributions(q), 1.0, false)
  }

  /**
   * `scoreReading` as written: its switch, with the reorder loop, computes
   * `ReadingScore`, so the two single-answer listening types it receives
   * score 0 (see `ReadingScoreCorrected` for the intended marks).
   */
  method ScoreReading(request: Request) returns (r: ScoreResult)
    ensures r == ReadingResult(request.questionType, ReadingScore(request))
  {
    var q := request.questionType;
    var totalScore := 0;
    if q in {McSingleReading, McSingleListening} {
      totalScore := if SingleChoiceCorrect(request.selectedOptions, request.correctAnswer) then 1 else 0;
    } else if q in {McMultipleReading, McMultipleListening} {
      var selected := OrEmpty(request.selectedOptions);
      var key := MultiKey(request.correctAnswer);
      totalScore := MaxInt(0, CountIn(selected, key) - CountNotIn(selected, key));
    } else if q == ReorderParagraphs {
      if request.orderedItems.Some? && request.correctAnswer.Many? {
        totalScore := CountAdjacentPairs(request.orderedItems.value, request.correctAnswer.answers);
      }
    } else if q in {FillBlanksDropdown, FillBlanksDrag} {
      if request.selectedOptions.Some? && request.correctAnswer.Many? {
        totalScore := PositionalMatches(request.selectedOptions.value, request.correctAnswer.answers);
      }
    }
    r := ReadingResult(q, totalScore);
  }

  /**
   * As written, the listening agent hands highlight-correct-summary and
   * select-missing-word answers to the reading scorer, which has no case for
   * them: a correct selection scores 0.
   */
  lemma SelectMissingWordNeverScores(request: Request)
    requires request.questionType in {HighlightCorrectSummary, SelectMissingWord}
    requires request.selectedOptions == Some(["a"]) && request.correctAnswer == One("a")
    ensures IsDeterministicListening(request.questionType)
    ensures ReadingScore(request) == 0 < MaxScore(request.questionType)
  {
  }

  /**
   * The reading score with the evident intent: the two single-answer
   * listening types score like single choice, and a paragraph missing from
   * the correct order starts no reorder pair.
   */
  function ReadingScoreCorrected(request: Request): (n: nat)
    ensures request.questionType in {HighlightCorrectSummary, SelectMissingWord} ==>
      (n == 1 <==> SingleChoiceCorrect(request.selectedOptions, request.correctAnswer))
    ensures request.questionType == ReorderParagraphs ==> n <= ReadingScore(request)
    ensures request.questionType == ReorderParagraphs && request.orderedItems.Some? &&
            (forall i :: 0 <= i < |request.orderedItems.value| ==> request.orderedItems.value[i] in MultiKey(request.correctAnswer)) ==>
      n == ReadingScore(request)
    ensures !(request.questionType in {HighlightCorrectSummary, SelectMissingWord, ReorderParagraphs}) ==>
      n == ReadingScore(request)
  {
    var q := request.questionType;
    if q in {HighlightCorrectSummary, SelectMissingWord} then
      if SingleChoiceCorrect(request.selectedOptions, request.correctAnswer) then 1 else 0
    else if q == ReorderParagraphs then
      if request.orderedItems.Some? && request.correctAnswer.Many? then
        var items, key := request.orderedItems.value, request.correctAnswer.answers;
        CorrectedAtMostAsWritten(items, key);
        CorrectedAgreesWhenAllFound(items, key);
        AdjacentPairsCorrected(items, key)
      else 0
    else ReadingScore(request)
  }

  /**
   * As written, a paragraph missing from the correct order, followed by the
   * first correct paragraph, earns a pair (-1 + 1 == 0); the correction
   * gives it nothing.
   */
  lemma ReorderCreditsMissingParagraph()
    ensures var request := Request(ReorderParagraphs, "u", None, None, Many(["a", "b"]), Some(["x", "a"]));
      ReadingScore(request) == 1 && ReadingScoreCorrected(request) == 0
  {
    assert IndexOf(["a", "b"], "x") == -1;
    assert IndexOf(["a", "b"], "a") == 0;
    assert ["x", "a"][..1] == ["x"];
  }

  /**
   * With the correction, a reorder answer without repeated paragraphs,
   * marked against the five-paragraph key, stays within the maximum of 4.
   */
  lemma CorrectedReorderWithinMaximum(request: Request)
    requires request.questionType == ReorderParagraphs
    requires request.orderedItems.Some? && Distinct(request.orderedItems.value)
    requires |MultiKey(request.correctAnswer)| <= 5
    ensures ReadingScoreCorrected(request) <= MaxScore(ReorderParagraphs)
  {
    if request.correctAnswer.Many? {
      ReorderCorrectedWithinMaximum(request.orderedItems.value, request.correctAnswer.answers);
    }
  }

  /** With the correction, every single-answer type scores at most its maximum of 1 and a right answer earns it. */
  lemma CorrectedSingleAnswerFullMarks(request: Request)
    requires request.questionType in {McSingleReading, McSingleListening, HighlightCorrectSummary, SelectMissingWord}
    ensures ReadingScoreCorrected(request) <= MaxScore(request.questionType) == 1
    ensures SingleChoiceCorrect(request.selectedOptions, request.correctAnswer) ==>
      ReadingScoreCorrected(request) == 1
  {
  }

  // ---------------------------------------------------------------------
  // AI agents
  // ---------------------------------------------------------------------

  /** The fields of the agent's JSON reply; a falsy number (absent, 0, NaN) is None or 0. */
  datatype AgentReply = AgentReply(
    totalScore: Option<real>,
    traitScores: Option<seq<(string, real)>>,
    feedback: Option<FeedbackLists>,
    confidence: Option<real>)

  /** The gateway call: an error status, or the reply's message text ("" when it has none). */
  datatype GatewayCall = GatewayError(status: int) | GatewayText(text: string)

  /** The error message `callAI` throws for a failed status. */
  function GatewayErrorMessage(status: int): (msg: string)
    ensures status == 429 ==> msg == "Rate limit exceeded. Please try again in a moment."
    ensures status == 402 ==> msg == "AI usage limit reached. Please add credits."
    ensures status != 429 && status != 402 ==> msg == "AI scoring failed: " + IntToString(status)
  {
    if status == 429 then "Rate limit exceeded. Please try again in a moment."
    else if status == 402 then "AI usage limit reached. Please add credits."
    else "AI scoring failed: " + IntToString(status)
  }

  function ValueSum(traits: seq<(string, real)>): real {
    if traits == [] then 0.0 else traits[0].1 + ValueSum(traits[1..])
  }

  /** The mean of the trait scores. */
  function TraitAverage(traits: seq<(string, real)>): real
    requires |traits| > 0
  {
    ValueSum(traits) / |traits| as real
  }

  /** A trait average on the 0-90 scale, scaled to a question's maximum and rounded. */
  function ScaledTotal(avg: real, maxScore: int): int {
    Round((avg / 90.0) * (maxScore as real))
  }

  /**
   * The total the agent's reply yields: its own total when truthy, else the
   * trait average scaled to the maximum (no traits give NaN, i.e. None).
   */
  function ReplyTotal(reply: AgentReply, maxScore: int): Option<real>
  {
    if reply.totalScore.Some? && reply.totalScore.value != 0.0 then reply.totalScore
    else if reply.traitScores.Some? && |reply.traitScores.value| > 0 then
      Some(ScaledTotal(TraitAverage(reply.traitScores.value), maxScore) as real)
    else None
  }

  /** Trait scores within [0, 90] average to a total within [0, maxScore]. */
  lemma {:induction false} TraitAverageWithinMax(traits: seq<(string, real)>, maxScore: int)
    requires |traits| > 0 && maxScore >= 0
    requires forall i :: 0 <= i < |traits| ==> 0.0 <= traits[i].1 <= 90.0
    ensures var t := ReplyTotal(AgentReply(None, Some(traits), None, None), maxScore);
      t.Some? && 0.0 <= t.value <= maxScore as real
  {
    ValueSumBounds(traits);
    DivBetween(ValueSum(traits), |traits| as real, 0.0, 90.0);
    ScaledWithin(TraitAverage(traits), maxScore);
  }

  lemma ScaledWithin(avg: real, maxScore: int)
    requires 0.0 <= avg <= 90.0 && maxScore >= 0
    ensures 0 <= ScaledTotal(avg, maxScore) <= maxScore
  {
    DivUnit(avg, 90.0);
    RoundShare(avg / 90.0, maxScore);
  }

  lemma {:induction false} ValueSumBounds(traits: seq<(string, real)>)
    requires forall i :: 0 <= i < |traits| ==> 0.0 <= traits[i].1 <= 90.0
    ensures 0.0 <= ValueSum(traits) <= 90.0 * |traits| as real
  {
    if traits != [] {
      ValueSumBounds(traits[1..]);
    }
  }

  /**
   * `parseAIResponse`: a reply without a JSON object, or whose object does
   * not parse (`decoded` None), fails; otherwise the reply's total (or its
   * scaled trait average, or 0) is capped at the maximum, and a missing
   * confidence defaults to 0.85.
   */
  function ParseAIResponse(content: string, decoded: Option<AgentReply>, q: QuestionType): (r: Result<ScoreResult, string>)
    ensures (!HasBracePair(content) || decoded.None?) <==> r == Err("Failed to parse AI response")
    ensures r.Ok? ==> r.value.totalScore <= MaxScore(q) as real && r.value.maxScore == MaxScore(q)
    ensures r.Ok? ==> !r.value.needsHumanReview
    ensures r.Ok? ==>
      var total := NumberOr(ReplyTotal(decoded.value, MaxScore(q)), 0.0);
      && r.value.totalScore == MinReal(total, MaxScore(q) as real)
      && r.value.percentage == Round(total / MaxScore(q) as real * 100.0)
      && r.value.confidence == NumberOr(decoded.value.confidence, 0.85)
      && r.value.skillContributions == SkillContributions(q)
    ensures r.Ok? && decoded.value.totalScore.Some? && 0.0 < decoded.value.totalScore.value <= MaxScore(q) as real ==>
      r.value.totalScore == decoded.value.totalScore.value
  {
    if JsonSpan(content).None? || decoded.None? then Err("Failed to parse AI response")
    else
      var parsed := decoded.value;
      var m := MaxScore(q);
      var total := NumberOr(ReplyTotal(parsed, m), 0.0);
      Ok(ScoreResult(
        MinReal(total, m as real), m, Round(total / m as real * 100.0),
        if parsed.traitScores.Some? then parsed.traitScores.value else [],
        if parsed.feedback.Some? then parsed.feedback.value else FeedbackLists([], [], []),
        SkillContributions(q),
        NumberOr(parsed.confidence, 0.85),
        false))
  }

  /** An agent: the gateway's failure message, or the parsed reply. */
  function ScoreWithAgent(call: GatewayCall, decoded: Option<AgentReply>, q: QuestionType): (r: Result<ScoreResult, string>)
    ensures call.GatewayError? ==> r == Err(GatewayErrorMessage(call.status))
    ensures call.GatewayText? ==> r == ParseAIResponse(call.text, decoded, q)
    ensures r.Ok? <==> call.GatewayText? && HasBracePair(call.text) && decoded.Some?
    ensures r.Ok? ==>
      && r.value.totalScore == MinReal(NumberOr(ReplyTotal(decoded.value, MaxScore(q)), 0.0), MaxScore(q) as real)
      && r.value.confidence == NumberOr(decoded.value.confidence, 0.85)
  {
    match call
    case GatewayError(status) => Err(GatewayErrorMessage(status))
    case GatewayText(text) => ParseAIResponse(text, decoded, q)
  }

  /** The row stored in the scores table. */
  datatype ScoreRow = ScoreRow(
    submissionId: string, userId: string, totalScore: real, maxScore: int,
    percentage: int, status: string, confidence: real)

  datatype Response = Response(status: int, result: Option<ScoreResult>, error: Option<string>, stored: Option<ScoreRow>)

  /** The metadata the handler adds to every result; the score, traits, feedback and confidence are kept. */
  function WithMetadata(r: ScoreResult, q: QuestionType): (out: ScoreResult)
    ensures out.maxScore == MaxScore(q) && out.skillContributions == SkillContributions(q)
    ensures out.needsHumanReview <==> NeedsHumanReviewType(q) && r.confidence < 0.8
    ensures out.percentage == Round(r.totalScore / MaxScore(q) as real * 100.0)
    ensures out.totalScore == r.totalScore && out.traitScores == r.traitScores
    ensures out.feedback == r.feedback && out.confidence == r.confidence
    ensures r.totalScore <= MaxScore(q) as real ==> out.percentage <= 100
  {
    var m := MaxScore(q);
    assert r.totalScore <= m as real ==> Round(r.totalScore / m as real * 100.0) <= 100 by {
      if r.totalScore <= m as real {
        RoundMonotone(r.totalScore / m as real * 100.0, 100.0);
        RoundInt(100);
      }
    }
    r.(maxScore := m,
       percentage := Round(r.totalScore / m as real * 100.0),
       skillContributions := SkillContributions(q),
       needsHumanReview := NeedsHumanReviewType(q) && r.confidence < 0.8)
  }

  /**
   * The handler. `keyConfigured` says whether the gateway key is set,
   * `creditGranted` is the answer of the credit procedure (false on error),
   * and `call`/`decoded` are the agent's gateway reply and its parsed JSON.
   */
  method Handle(request: Request, keyConfigured: bool, creditGranted: bool,
                call: GatewayCall, decoded: Option<AgentReply>) returns (resp: Response)
    ensures !keyConfigured ==>
      resp == Response(500, None, Some("LOVABLE_API_KEY is not configured"), None)
    ensures keyConfigured && !creditGranted ==>
      resp == Response(402, None,
        Some("Daily scoring limit reached. Please upgrade your plan or wait until tomorrow."), None)
    ensures resp.status == 200 <==> resp.result.Some?
    ensures resp.status != 200 ==> resp.stored.None? && resp.error.Some?
    ensures resp.result.Some? ==>
      var r := resp.result.value;
      r.maxScore == MaxScore(request.questionType) &&
      r.skillContributions == SkillContributions(request.questionType) &&
      (r.needsHumanReview ==> NeedsHumanReviewType(request.questionType))
    ensures keyConfigured && creditGranted &&
            (IsReadingQuestion(request.questionType) || IsDeterministicListening(request.questionType)) ==>
      resp.status == 200 &&
      resp.result == Some(WithMetadata(ReadingResult(request.questionType, ReadingScore(request)), request.questionType))
    ensures keyConfigured && creditGranted &&
            !(IsReadingQuestion(request.questionType) || IsDeterministicListening(request.questionType)) ==>
      var agent := ScoreWithAgent(call, decoded, request.questionType);
      && (agent.Err? ==> resp == Response(500, None, Some(agent.error), None))
      && (agent.Ok? ==> resp.status == 200 && resp.result == Some(WithMetadata(agent.value, request.questionType)))
    ensures resp.result.Some? && !(IsReadingQuestion(request.questionType) || IsDeterministicListening(request.questionType)) ==>
      resp.result.value.percentage <= 100
    ensures resp.stored.Some? <==> resp.result.Some? && request.submissionId.Some? && request.submissionId.value != []
    ensures resp.stored.Some? ==>
      var r := resp.result.value;
      resp.stored.value == ScoreRow(request.submissionId.value, request.userId, r.totalScore, r.maxScore,
                                    r.percentage, if r.needsHumanReview then "needs_review" else "completed",
                                    r.confidence)
  {
    if !keyConfigured {
      return Response(500, None, Some("LOVABLE_API_KEY is not configured"), None);
    }
    if !creditGranted {
      return Response(402, None,
        Some("Daily scoring limit reached. Please upgrade your plan or wait until tomorrow."), None);
    }
    var q := request.questionType;
    GuardsPartitionTypes(q);
    var result: Result<ScoreResult, string>;
    if IsReadingQuestion(q) || IsDeterministicListening(q) {
      var r := ScoreReading(request);
      result := Ok(r);
    } else {
      result := ScoreWithAgent(call, decoded, q);
    }
    if result.Err? {
      return Response(500, None, Some(result.error), None);
    }
    var r := WithMetadata(result.value, q);
    var stored := None;
    if request.submissionId.Some? && request.submissionId.value != [] {
      stored := Some(ScoreRow(
        request.submissionId.value, request.userId, r.totalScore, r.maxScore, r.percentage,
        if r.needsHumanReview then "needs_review" else "completed", r.confidence));
    }
    resp := Response(200, Some(r), None, stored);
  }
}
