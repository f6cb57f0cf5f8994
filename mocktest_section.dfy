/**
 * One question of the mock test as the question card handles it
 * (src/components/mocktest/MockTestSection.tsx): the answer state the card
 * keeps, the per-type maximum scores, the three type classifiers, the
 * drag-and-drop reordering, the countdown, and the submissions the card
 * reports to its parent through `onSubmit`.
 *
 * The question's `type` is an untyped string here, so it stays a string.
 * The random numbers drawn for speaking and writing answers are a
 * parameter `draw` in [0, 1).
 */
module MockSection {
  import opened Wrappers
  import opened JsMath
  import opened Text
  import opened AnswerCounting
  import MocktestScorer

  /** The `scoreMap` of `getMaxScore`. */
  const ScoreMap: map<string, nat> := map[
    "read-aloud" := 15, "repeat-sentence" := 13, "describe-image" := 15,
    "retell-lecture" := 16, "answer-short-question" := 1,
    "summarize-written-text" := 12, "write-essay" := 26,
    "mc-single" := 1, "mc-multiple" := 2, "reorder-paragraphs" := 5,
    "fill-blanks-drag" := 5, "fill-blanks-dropdown" := 5,
    "highlight-correct-summary" := 1, "mc-single-listening" := 1,
    "mc-multiple-listening" := 2, "fill-blanks-listening" := 5,
    "highlight-incorrect-words" := 4, "write-from-dictation" := 12,
    "select-missing-word" := 1, "summarize-spoken-text" := 10]

  /** `scoreMap[type] || 1`. */
  function GetMaxScore(questionType: string): (m: nat)
    ensures m >= 1
    ensures questionType !in ScoreMap ==> m == 1
  {
    if questionType in ScoreMap && ScoreMap[questionType] != 0 then ScoreMap[questionType] else 1
  }

  /**
   * The card's table agrees with the scoring function's table on every
   * question type, the `|| 1` defaults included for a name neither table has.
   */
  lemma GetMaxScoreAgrees(q: MocktestScorer.QuestionType)
    requires q.Unknown? ==> q.name !in ScoreMap
    ensures GetMaxScore(MocktestScorer.TypeName(q)) == MocktestScorer.MaxScore(q)
  {
    match q
    case Unknown(_) =>
    case ReadAloud | RepeatSentence | DescribeImage | RetellLecture | AnswerShortQuestion => SpeakingMaxAgrees(q);
    case SummarizeWrittenText | WriteEssay | WriteFromDictation | SummarizeSpokenText | HighlightIncorrectWords => WritingMaxAgrees(q);
    case McSingle | McMultiple | ReorderParagraphs | FillBlanksDrag | FillBlanksDropdown => ReadingMaxAgrees(q);
    case HighlightCorrectSummary | McSingleListening | McMultipleListening | FillBlanksListening | SelectMissingWord => ListeningMaxAgrees(q);
  }

  lemma SpeakingMaxAgrees(q: MocktestScorer.QuestionType)
    requires q.ReadAloud? || q.RepeatSentence? || q.DescribeImage? || q.RetellLecture? || q.AnswerShortQuestion?
    ensures GetMaxScore(MocktestScorer.TypeName(q)) == MocktestScorer.MaxScore(q)
  {
  }

  lemma WritingMaxAgrees(q: MocktestScorer.QuestionType)
    requires q.SummarizeWrittenText? || q.WriteEssay? || q.WriteFromDictation? || q.SummarizeSpokenText? || q.HighlightIncorrectWords?
    ensures GetMaxScore(MocktestScorer.TypeName(q)) == MocktestScorer.MaxScore(q)
  {
  }

  lemma ReadingMaxAgrees(q: MocktestScorer.QuestionType)
    requires q.McSingle? || q.McMultiple? || q.ReorderParagraphs? || q.FillBlanksDrag? || q.FillBlanksDropdown?
    ensures GetMaxScore(MocktestScorer.TypeName(q)) == MocktestScorer.MaxScore(q)
  {
  }

  lemma ListeningMaxAgrees(q: MocktestScorer.QuestionType)
    requires q.HighlightCorrectSummary? || q.McSingleListening? || q.McMultipleListening? || q.FillBlanksListening? || q.SelectMissingWord?
    ensures GetMaxScore(MocktestScorer.TypeName(q)) == MocktestScorer.MaxScore(q)
  {
  }

  predicate IsSpeakingType(questionType: string) {
    questionType in ["read-aloud", "repeat-sentence", "describe-image", "retell-lecture", "answer-short-question"]
  }

  predicate IsWritingType(questionType: string) {
    questionType in ["summarize-written-text", "write-essay", "summarize-spoken-text", "write-from-dictation"]
  }

  predicate IsReadingType(questionType: string) {
    questionType in ["mc-single", "mc-multiple", "reorder-paragraphs", "fill-blanks-drag", "fill-blanks-dropdown"]
  }

  predicate IsListeningSection(section: string) {
    section == "listening"
  }

  /** No question type is in two of the speaking, writing and reading lists. */
  lemma TypeListsDisjoint(questionType: string)
    ensures !(IsSpeakingType(questionType) && IsWritingType(questionType))
    ensures !(IsSpeakingType(questionType) && IsReadingType(questionType))
    ensures !(IsWritingType(questionType) && IsReadingType(questionType))
  {
  }

  /** `formatTime`: zero-padded minutes, a colon, zero-padded seconds. */
  function FormatTime(seconds: nat): (r: string)
    ensures var m := Pad2(seconds / 60);
      && |r| == |m| + 3 && r[|m|] == ':'
      && AllDigits(r[..|m|]) && AllDigits(r[|m| + 1..])
      && StringToNat(r[..|m|]) == seconds / 60
      && StringToNat(r[|m| + 1..]) == seconds % 60
    ensures seconds < 6000 ==> |r| == 5
  {
    var m := Pad2(seconds / 60);
    var s := Pad2(seconds % 60);
    var r := m + ":" + s;
    assert r[..|m|] == m && r[|m| + 1..] == s;
    r
  }

  /** A question as the card reads it; optional fields are the ones read with `?.` or `||`. */
  datatype Question = Question(
    id: string,
    questionType: string,
    section: string,
    correctAnswers: Option<seq<string>>,
    correctOrder: Option<seq<string>>,
    blanks: Option<seq<Blank>>,
    paragraphIds: Option<seq<string>>,
    minWords: Option<real>,
    maxWords: Option<real>)

  /** The answer object passed to `onSubmit` (`null` is NoAnswer). */
  datatype Answer =
    | NoAnswer
    | Recording
    | Written(text: string, wordCount: nat)
    | Order(order: seq<string>)
    | Filled(answers: map<string, string>)
    | Selected(selected: seq<string>)

  /** One call of `onSubmit(answer, score, maxScore)`. */
  datatype Submission = Submission(answer: Answer, score: int, maxScore: int)

  predicate WithinMax(s: Submission) {
    0 <= s.score <= s.maxScore
  }

  /** Reorder, fill-in-the-blanks and choice questions, scored on the card (`handleSubmitSelection`). */
  function SelectionSubmission(q: Question, selected: seq<string>, dragged: seq<string>, filled: map<string, string>): (s: Submission)
    ensures WithinMax(s)
    ensures q.questionType == "reorder-paragraphs" ==>
      s.answer == Order(dragged) && s.maxScore == |OrEmpty(q.correctOrder)| &&
      s.score == |MatchedPositions(dragged, OrEmpty(q.correctOrder))| &&
      (dragged == OrEmpty(q.correctOrder) ==> s.score == s.maxScore)
    ensures q.questionType != "reorder-paragraphs" && Contains(q.questionType, "fill-blanks") ==>
      var blanks := OrEmpty(q.blanks);
      s.answer == Filled(filled) && s.maxScore == |blanks| && s.score == BlanksCorrect(blanks, filled) &&
      (s.score == s.maxScore <==> forall i :: 0 <= i < |blanks| ==> BlankCorrect(blanks[i], filled))
    ensures q.questionType != "reorder-paragraphs" && !Contains(q.questionType, "fill-blanks") ==>
      var correct := OrEmpty(q.correctAnswers);
      && s.answer == Selected(selected)
      && s.maxScore == |correct|
      && s.score == (if |selected| == |correct| then CountIn(selected, correct) else 0)
      && (|selected| != |correct| ==> s.score == 0)
      && (|correct| > 0 ==>
            (s.score == s.maxScore <==> |selected| == |correct| && forall i :: 0 <= i < |selected| ==> selected[i] in correct))
  {
    var correctAnswers := OrEmpty(q.correctAnswers);
    var correctOrder := OrEmpty(q.correctOrder);
    if q.questionType == "reorder-paragraphs" then
      assert dragged == correctOrder ==> PositionalMatches(dragged, correctOrder) == |correctOrder| by {
        if dragged == correctOrder { PositionalMatchesSelf(dragged); }
      }
      Submission(Order(dragged), PositionalMatches(dragged, correctOrder), |correctOrder|)
    else if Contains(q.questionType, "fill-blanks") then
      var blanks := OrEmpty(q.blanks);
      Submission(Filled(filled), BlanksCorrect(blanks, filled), |blanks|)
    else
      var correct := if |selected| == |correctAnswers| then CountIn(selected, correctAnswers) else 0;
      Submission(Selected(selected), correct, |correctAnswers|)
  }

  /** `Math.round(Math.floor(r * max * 0.4) + max * 0.5)`: at least half the maximum, never above it. */
  function SpeakingScore(maxScore: nat, draw: real): (score: int)
    requires 0.0 <= draw < 1.0
    ensures 2 * score >= maxScore
    ensures score <= maxScore
  {
    var m := maxScore as real;
    ShareOf(draw, m);
    SpeakingRawRounds(maxScore, draw * m);
    Round(SpeakingRaw(m, draw * m))
  }

  /** The unrounded speaking score, `t` being the random share `r * max`. */
  function SpeakingRaw(m: real, t: real): real {
    (t * 0.4).Floor as real + m * 0.5
  }

  lemma SpeakingRawRounds(maxScore: nat, t: real)
    requires 0.0 <= t <= maxScore as real
    ensures var score := Round(SpeakingRaw(maxScore as real, t));
      2 * score >= maxScore && score <= maxScore
  {
    var m := maxScore as real;
    var raw := SpeakingRaw(m, t);
    assert m * 0.5 <= raw <= m * 0.9;
    RoundBetween(raw, 0, maxScore);
    RoundMonotone(m * 0.5, raw);
    HalfRounded(maxScore);
  }

  /** Rounding half of a natural gives at least half of it. */
  lemma HalfRounded(n: nat)
    ensures 2 * Round(n as real * 0.5) >= n
  {
  }

  /**
   * The word-count score of a written answer: 70-100% of the maximum inside
   * [minWords, maxWords], 30-50% outside it, rounded.
   */
  function WritingScore(wordCount: nat, minWords: real, maxWords: real, maxScore: nat, draw: real): (score: int)
    requires 0.0 <= draw < 1.0
    ensures 0 <= score <= maxScore
    ensures minWords <= wordCount as real <= maxWords ==> score >= Round(maxScore as real * 0.7)
    ensures !(minWords <= wordCount as real <= maxWords) && wordCount > 0 ==>
      Round(maxScore as real * 0.3) <= score <= Round(maxScore as real * 0.5)
    ensures !(minWords <= wordCount as real <= maxWords) && wordCount == 0 ==> score == 0
  {
    var m := maxScore as real;
    var inBand := minWords <= wordCount as real <= maxWords;
    ShareOf(draw, m);
    WritingRawRounds(inBand, wordCount, maxScore, draw * m);
    Round(WritingRaw(inBand, wordCount, m, draw * m))
  }

  /** The unrounded writing score, `t` being the random share `r * max`. */
  function WritingRaw(inBand: bool, wordCount: nat, m: real, t: real): real {
    if inBand then m * 0.7 + t * 0.3
    else if wordCount > 0 then m * 0.3 + t * 0.2
    else 0.0
  }

  lemma WritingRawRounds(inBand: bool, wordCount: nat, maxScore: nat, t: real)
    requires 0.0 <= t <= maxScore as real
    ensures var score := Round(WritingRaw(inBand, wordCount, maxScore as real, t));
      && 0 <= score <= maxScore
      && (inBand ==> score >= Round(maxScore as real * 0.7))
      && (!inBand && wordCount > 0 ==> Round(maxScore as real * 0.3) <= score <= Round(maxScore as real * 0.5))
      && (!inBand && wordCount == 0 ==> score == 0)
  {
    var m := maxScore as real;
    var raw := WritingRaw(inBand, wordCount, m, t);
    RoundBetween(raw, 0, maxScore);
    if inBand {
      RoundMonotone(m * 0.7, raw);
    } else if wordCount > 0 {
      RoundMonotone(m * 0.3, raw);
      RoundMonotone(raw, m * 0.5);
    } else {
      RoundInt(0);
    }
  }

  /** `handleSubmitWriting`. */
  function WritingSubmission(q: Question, text: string, draw: real): (s: Submission)
    requires 0.0 <= draw < 1.0
    ensures WithinMax(s)
    ensures s.maxScore == GetMaxScore(q.questionType)
    ensures Trim(text) == [] ==> s == Submission(NoAnswer, 0, GetMaxScore(q.questionType))
    ensures Trim(text) != [] ==> s.answer == Written(text, |Words(text)|)
    ensures Trim(text) != [] ==>
      s.score == WritingScore(|Words(text)|, NumberOr(q.minWords, 50.0), NumberOr(q.maxWords, 300.0), s.maxScore, draw)
  {
    var maxScore := GetMaxScore(q.questionType);
    if Trim(text) == [] then Submission(NoAnswer, 0, maxScore)
    else
      var wordCount := |Words(text)|;
      var score := WritingScore(wordCount, NumberOr(q.minWords, 50.0), NumberOr(q.maxWords, 300.0), maxScore, draw);
      Submission(Written(text, wordCount), score, maxScore)
  }

  /** `handleSubmitSpeaking`. */
  function SpeakingSubmission(q: Question, draw: real): (s: Submission)
    requires 0.0 <= draw < 1.0
    ensures WithinMax(s)
    ensures s.maxScore == GetMaxScore(q.questionType) && 2 * s.score >= s.maxScore
  {
    var maxScore := GetMaxScore(q.questionType);
    Submission(Recording, SpeakingScore(maxScore, draw), maxScore)
  }

  /** What `handleAutoSubmit` reports: nothing for a question outside the four classes. */
  function AutoSubmissions(q: Question, hasRecording: bool, selected: seq<string>, text: string,
                           dragged: seq<string>, filled: map<string, string>, draw: real): (r: seq<Submission>)
    requires 0.0 <= draw < 1.0
    ensures |r| <= 1
    ensures forall i :: 0 <= i < |r| ==> WithinMax(r[i])
    ensures |r| == 0 <==>
      !IsSpeakingType(q.questionType) && !IsWritingType(q.questionType)
      && !IsReadingType(q.questionType) && !IsListeningSection(q.section)
    ensures IsSpeakingType(q.questionType) && !hasRecording ==>
      r == [Submission(NoAnswer, 0, GetMaxScore(q.questionType))]
    ensures IsSpeakingType(q.questionType) && hasRecording ==> r == [SpeakingSubmission(q, draw)]
    ensures !IsSpeakingType(q.questionType) && IsWritingType(q.questionType) ==>
      r == [WritingSubmission(q, text, draw)]
    ensures (!IsSpeakingType(q.questionType) && !IsWritingType(q.questionType)
             && (IsReadingType(q.questionType) || IsListeningSection(q.section))) ==>
      r == [SelectionSubmission(q, selected, dragged, filled)]
  {
    if IsSpeakingType(q.questionType) then
      if hasRecording then [SpeakingSubmission(q, draw)]
      else [Submission(NoAnswer, 0, GetMaxScore(q.questionType))]
    else if IsWritingType(q.questionType) then [WritingSubmission(q, text, draw)]
    else if IsReadingType(q.questionType) || IsListeningSection(q.section) then
      [SelectionSubmission(q, selected, dragged, filled)]
    else []
  }

  /** `prev.filter(x => x !== key)`. */
  function Without(s: seq<string>, key: string): (r: seq<string>)
    ensures key !in r
    ensures forall x :: x != key ==> multiset(r)[x] == multiset(s)[x]
  {
    if s == [] then []
    else
      var k := |s| - 1;
      assert s == s[..k] + [s[k]];
      Without(s[..k], key) + (if s[k] == key then [] else [s[k]])
  }

  /**
   * The filter keeps the order of what it keeps: filtering a concatenation
   * filters each part and joins them, one option at a time.
   */
  lemma {:induction false} WithoutAppend(a: seq<string>, b: seq<string>, key: string)
    ensures Without(a + b, key) == Without(a, key) + Without(b, key)
    decreases |b|
  {
    if b == [] {
      assert a + b == a;
    } else {
      var k := |b| - 1;
      var init := b[..k];
      var last := if b[k] == key then [] else [b[k]];
      assert (a + b)[..|a + b| - 1] == a + init;
      assert (a + b)[|a + b| - 1] == b[k];
      assert Without(a + b, key) == Without(a + init, key) + last;
      assert Without(b, key) == Without(init, key) + last;
      WithoutAppend(a, init, key);
      AppendAssoc(Without(a, key), Without(init, key), last);
    }
  }

  /** A single option is dropped when it is the key and kept otherwise. */
  lemma WithoutOne(x: string, key: string)
    ensures Without([x], key) == if x == key then [] else [x]
  {
    assert [x][..0] == [];
  }

  lemma {:induction false} WithoutAbsent(s: seq<string>, key: string)
    requires key !in s
    ensures Without(s, key) == s
  {
    if s != [] {
      var k := |s| - 1;
      var init := s[..k];
      assert s == init + [s[k]];
      assert key !in init && s[k] != key;
      WithoutAbsent(init, key);
    }
  }

  /** Clicking an unselected word twice leaves the selection as it was. */
  lemma ToggleTwiceRestores(s: seq<string>, key: string)
    requires key !in s
    ensures Without(s + [key], key) == s
  {
    assert (s + [key])[..|s|] == s;
    WithoutAbsent(s, key);
  }

  /**
   * `handleDrop`: the dragged item is taken out of the list and put back
   * at `targetIdx` (at the end when `targetIdx` is past it); an item not
   * in the list changes nothing.
   */
  function Moved(items: seq<string>, id: string, targetIdx: nat): (r: seq<string>)
    ensures multiset(r) == multiset(items)
    ensures id !in items ==> r == items
    ensures id in items ==>
      var d := IndexOf(items, id);
      var p := MinInt(targetIdx, |items| - 1);
      && |r| == |items| && r[p] == id
      && r[..p] + r[p + 1..] == items[..d] + items[d + 1..]
  {
    var d := IndexOf(items, id);
    if d == -1 then items
    else
      var rest := items[..d] + items[d + 1..];
      var p := MinInt(targetIdx, |rest|);
      RemoveAt(items, d);
      InsertAt(rest, p, id);
      rest[..p] + [id] + rest[p..]
  }

  lemma RemoveAt(items: seq<string>, d: nat)
    requires d < |items|
    ensures multiset(items) == multiset(items[..d] + items[d + 1..]) + multiset{items[d]}
  {
    assert items == items[..d] + [items[d]] + items[d + 1..];
  }

  lemma InsertAt(rest: seq<string>, p: nat, id: string)
    requires p <= |rest|
    ensures var r := rest[..p] + [id] + rest[p..];
      && |r| == |rest| + 1 && r[p] == id
      && r[..p] + r[p + 1..] == rest
      && multiset(r) == multiset(rest) + multiset{id}
  {
    var r := rest[..p] + [id] + rest[p..];
    assert r[..p] == rest[..p] && r[p + 1..] == rest[p..];
    assert rest == rest[..p] + rest[p..];
  }

  /** Dropping an item onto the position it already holds leaves the list unchanged. */
  lemma MovedInPlace(items: seq<string>, d: nat)
    requires d < |items| && IndexOf(items, items[d]) == d
    ensures Moved(items, items[d], d) == items
  {
    var rest := items[..d] + items[d + 1..];
    SpliceBack(items, d);
    assert Moved(items, items[d], d) == rest[..d] + [items[d]] + rest[d..];
  }

  lemma SpliceBack(items: seq<string>, d: nat)
    requires d < |items|
    ensures var rest := items[..d] + items[d + 1..];
      rest[..d] + [items[d]] + rest[d..] == items
  {
    var rest := items[..d] + items[d + 1..];
    assert rest[..d] == items[..d] && rest[d..] == items[d + 1..];
    assert items == items[..d] + [items[d]] + items[d + 1..];
  }

  /** The question card's state between renders, and the log of its `onSubmit` calls. */
  class SectionState {
    var question: Question
    var timeLimit: int
    var selectedOptions: seq<string>
    var textAnswer: string
    var draggedItems: seq<string>
    var blankAnswers: map<string, string>
    var questionTime: int
    var hasRecording: bool
    var submitted: seq<Submission>

    /** Every score reported to the parent lies between 0 and its maximum. */
    predicate Valid()
      reads this
    {
      forall i :: 0 <= i < |submitted| ==> WithinMax(submitted[i])
    }

    /** First render: empty answers, the full time, and a shuffled paragraph order for reorder questions. */
    constructor(q: Question, timeLimit: int, shuffledIds: seq<string>)
      requires q.paragraphIds.Some? ==> multiset(shuffledIds) == multiset(q.paragraphIds.value)
      ensures question == q && this.timeLimit == timeLimit && questionTime == timeLimit
      ensures selectedOptions == [] && textAnswer == [] && blankAnswers == map[] && !hasRecording
      ensures draggedItems == if q.questionType == "reorder-paragraphs" && q.paragraphIds.Some? then shuffledIds else []
      ensures q.paragraphIds.Some? && q.questionType == "reorder-paragraphs" ==>
        multiset(draggedItems) == multiset(q.paragraphIds.value)
      ensures submitted == [] && Valid()
    {
      question := q;
      this.timeLimit := timeLimit;
      selectedOptions := [];
      textAnswer := [];
      questionTime := timeLimit;
      blankAnswers := map[];
      hasRecording := false;
      submitted := [];
      draggedItems := [];
      if q.questionType == "reorder-paragraphs" && q.paragraphIds.Some? {
        draggedItems := shuffledIds;
      }
    }

    /**
     * A new question: the reset effect clears the answers and restarts the
     * clock; the dragged order is replaced only for a reorder question.
     */
    method Load(q: Question, newTimeLimit: int, shuffledIds: seq<string>)
      requires q.paragraphIds.Some? ==> multiset(shuffledIds) == multiset(q.paragraphIds.value)
      requires Valid()
      modifies this
      ensures question == q && timeLimit == newTimeLimit && questionTime == newTimeLimit
      ensures selectedOptions == [] && textAnswer == [] && blankAnswers == map[] && !hasRecording
      ensures draggedItems ==
        if q.questionType == "reorder-paragraphs" && q.paragraphIds.Some? then shuffledIds else old(draggedItems)
      ensures submitted == old(submitted) && Valid()
    {
      question := q;
      timeLimit := newTimeLimit;
      selectedOptions := [];
      textAnswer := [];
      questionTime := newTimeLimit;
      hasRecording := false;
      blankAnswers := map[];
      if q.questionType == "reorder-paragraphs" && q.paragraphIds.Some? {
        draggedItems := shuffledIds;
      }
    }

    /** Picking a radio option replaces the selection. */
    method SelectSingle(optionId: string)
      modifies this`selectedOptions
      ensures selectedOptions == [optionId]
    {
      selectedOptions := [optionId];
    }

    /** Ticking a checkbox appends the option; unticking removes every copy of it. */
    method ToggleOption(optionId: string, checked: bool)
      modifies this`selectedOptions
      ensures checked ==> selectedOptions == old(selectedOptions) + [optionId]
      ensures !checked ==> selectedOptions == Without(old(selectedOptions), optionId)
    {
      if checked {
        selectedOptions := selectedOptions + [optionId];
      } else {
        selectedOptions := Without(selectedOptions, optionId);
      }
    }

    /** Clicking word `idx` of the transcript toggles the key `word-idx` in the selection. */
    method ToggleWord(idx: nat)
      modifies this`selectedOptions
      ensures var key := "word-" + NatToString(idx);
        && (key in old(selectedOptions) ==> selectedOptions == Without(old(selectedOptions), key))
        && (key !in old(selectedOptions) ==> selectedOptions == old(selectedOptions) + [key])
        && (key in selectedOptions <==> key !in old(selectedOptions))
    {
      var key := "word-" + NatToString(idx);
      if key in selectedOptions {
        selectedOptions := Without(selectedOptions, key);
      } else {
        selectedOptions := selectedOptions + [key];
      }
    }

    /** Typing into blank `blankId`. */
    method SetBlank(blankId: string, value: string)
      modifies this`blankAnswers
      ensures blankAnswers == old(blankAnswers)[blankId := value]
    {
      blankAnswers := blankAnswers[blankId := value];
    }

    method SetText(text: string)
      modifies this`textAnswer
      ensures textAnswer == text
    {
      textAnswer := text;
    }

    /** `handleDrop`. */
    method Drop(draggedId: string, targetIdx: nat)
      modifies this`draggedItems
      ensures draggedItems == Moved(old(draggedItems), draggedId, targetIdx)
    {
      var draggedIdx := IndexOf(draggedItems, draggedId);
      if draggedIdx == -1 {
        return;
      }
      var newItems := draggedItems[..draggedIdx] + draggedItems[draggedIdx + 1..];
      var at := MinInt(targetIdx, |newItems|);
      newItems := newItems[..at] + [draggedId] + newItems[at..];
      draggedItems := newItems;
    }

    /** `onSubmit(answer, score, maxScore)`: the submission is handed to the parent. */
    method Report(s: Submission)
      requires Valid() && WithinMax(s)
      modifies this`submitted
      ensures submitted == old(submitted) + [s]
      ensures Valid()
    {
      submitted := submitted + [s];
    }

    /** `handleSubmitSelection`. */
    method SubmitSelection()
      requires Valid()
      modifies this`submitted
      ensures submitted == old(submitted) + [SelectionSubmission(question, selectedOptions, draggedItems, blankAnswers)]
      ensures Valid()
    {
      var correctAnswers := OrEmpty(question.correctAnswers);
      var correctOrder := OrEmpty(question.correctOrder);
      var s;
      if question.questionType == "reorder-paragraphs" {
        var correct := CountPositionalMatches(draggedItems, correctOrder);
        s := Submission(Order(draggedItems), correct, |correctOrder|);
      } else if Contains(question.questionType, "fill-blanks") {
        var blanks := OrEmpty(question.blanks);
        var correct := CountBlanksCorrect(blanks, blankAnswers);
        s := Submission(Filled(blankAnswers), correct, |blanks|);
      } else {
        var correct := 0;
        if |selectedOptions| == |correctAnswers| {
          correct := CountSelectedCorrect(selectedOptions, correctAnswers);
        }
        s := Submission(Selected(selectedOptions), correct, |correctAnswers|);
      }
      Report(s);
    }

    /** `handleSubmitWriting`. */
    method SubmitWriting(draw: real)
      requires 0.0 <= draw < 1.0
      requires Valid()
      modifies this`submitted
      ensures submitted == old(submitted) + [WritingSubmission(question, textAnswer, draw)]
      ensures Valid()
    {
      var maxScore := GetMaxScore(question.questionType);
      if Trim(textAnswer) == [] {
        Report(Submission(NoAnswer, 0, maxScore));
        return;
      }
      var wordCount := |Words(textAnswer)|;
      var minWords := NumberOr(question.minWords, 50.0);
      var maxWords := NumberOr(question.maxWords, 300.0);
      var score := WritingScore(wordCount, minWords, maxWords, maxScore, draw);
      var s := Submission(Written(textAnswer, wordCount), score, maxScore);
      assert s == WritingSubmission(question, textAnswer, draw);
      Report(s);
    }

    /** `handleSubmitSpeaking`. */
    method SubmitSpeaking(draw: real)
      requires 0.0 <= draw < 1.0
      requires Valid()
      modifies this`submitted
      ensures submitted == old(submitted) + [SpeakingSubmission(question, draw)]
      ensures Valid()
    {
      var maxScore := GetMaxScore(question.questionType);
      Report(Submission(Recording, SpeakingScore(maxScore, draw), maxScore));
    }

    /** The recorder stops with a recording: the answer is submitted at once. */
    method FinishRecording(draw: real)
      requires 0.0 <= draw < 1.0
      requires Valid()
      modifies this`hasRecording, this`submitted
      ensures hasRecording
      ensures submitted == old(submitted) + [SpeakingSubmission(question, draw)]
      ensures Valid()
    {
      hasRecording := true;
      SubmitSpeaking(draw);
    }

    /** `handleAutoSubmit`. */
    method AutoSubmit(draw: real)
      requires 0.0 <= draw < 1.0
      requires Valid()
      modifies this`submitted
      ensures submitted == old(submitted) +
        AutoSubmissions(question, hasRecording, selectedOptions, textAnswer, draggedItems, blankAnswers, draw)
      ensures Valid()
    {
      if IsSpeakingType(question.questionType) {
        if hasRecording {
          SubmitSpeaking(draw);
        } else {
          Report(Submission(NoAnswer, 0, GetMaxScore(question.questionType)));
        }
      } else if IsWritingType(question.questionType) {
        SubmitWriting(draw);
      } else if IsReadingType(question.questionType) || IsListeningSection(question.section) {
        SubmitSelection();
      }
    }

    /** One second of the question clock: at zero or below it auto-submits and stays at zero. */
    method Tick(draw: real)
      requires 0.0 <= draw < 1.0
      requires Valid()
      modifies this`questionTime, this`submitted
      ensures old(questionTime) <= 0 ==>
        questionTime == 0 &&
        submitted == old(submitted) +
          AutoSubmissions(question, hasRecording, selectedOptions, textAnswer, draggedItems, blankAnswers, draw)
      ensures old(questionTime) > 0 ==> questionTime == old(questionTime) - 1 && submitted == old(submitted)
      ensures Valid()
    {
      if questionTime <= 0 {
        AutoSubmit(draw);
        questionTime := 0;
      } else {
        questionTime := questionTime - 1;
      }
    }
  }

  /** `selectedOptions.filter(o => correctAnswers.includes(o)).length`. */
  method CountSelectedCorrect(selected: seq<string>, correct: seq<string>) returns (n: nat)
    ensures n == CountIn(selected, correct)
  {
    n := 0;
    for i := 0 to |selected|
      invariant n == CountIn(selected[..i], correct)
    {
      assert selected[..i + 1][..i] == selected[..i];
      if selected[i] in correct {
        n := n + 1;
      }
    }
    assert selected[..|selected|] == selected;
  }
}
