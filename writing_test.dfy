/**
 * The writing question screen (src/components/writing/WritingTest.tsx): the word
 * count of the response, the word-limit check and colours, and the phase
 * machine writing -> processing -> results (or back to writing), driven by
 * submitting, the scorer's reply, retrying and the one-second timer.
 *
 * The scorer's reply arrives as a parameter of `ScoreArrived`; `onComplete`
 * calls are recorded in a list.
 */
module WritingTest {
  import opened Wrappers
  import opened Text

  datatype WritingQuestion = WritingQuestion(id: string, timeLimit: int, minWords: int, maxWords: int)

  datatype Analysis = Analysis(strengths: seq<string>, improvements: seq<string>, tips: seq<string>)

  datatype WritingScoreResult = WritingScoreResult(
    overallScore: real, content: real, grammar: real, vocabulary: real, form: real,
    feedback: seq<string>, detailedAnalysis: Analysis)

  datatype Phase = Writing | Processing | Results

  /** `writtenText.trim().split(/\s+/).filter(Boolean).length`. */
  function WordCount(text: string): nat {
    |Words(text)|
  }

  /** A blank response has no words, and a response starting with a word has at least one. */
  lemma WordCountBlank(text: string)
    ensures (forall i :: 0 <= i < |text| ==> IsSpace(text[i])) ==> WordCount(text) == 0
    ensures text != [] && !IsSpace(text[0]) ==> WordCount(text) >= 1
  {
  }

  /** Words written with single spaces between them count one each. */
  lemma WordCountOfJoined(ws: seq<string>)
    requires forall i :: 0 <= i < |ws| ==> IsWord(ws[i])
    ensures WordCount(JoinWords(ws)) == |ws|
  {
    WordsOfJoin(ws);
  }

  /** `isWithinWordLimit`. */
  predicate WithinWordLimit(q: WritingQuestion, text: string) {
    q.minWords <= WordCount(text) <= q.maxWords
  }

  /** `getWordCountColor`: below the minimum, above the maximum, or within the limits. */
  function WordCountColor(q: WritingQuestion, text: string): (color: string)
    ensures color == "text-destructive" <==> WordCount(text) < q.minWords
    ensures color == "text-warning" <==> q.minWords <= WordCount(text) && WordCount(text) > q.maxWords
    ensures color == "text-success" <==> WithinWordLimit(q, text)
  {
    var n := WordCount(text);
    if n < q.minWords then "text-destructive"
    else if n > q.maxWords then "text-warning"
    else "text-success"
  }

  /** `getScoreColor` of the results card. */
  function ScoreColor(s: real): (color: string)
    ensures color == "text-success" <==> s >= 65.0
    ensures color == "text-warning" <==> 50.0 <= s < 65.0
    ensures color == "text-destructive" <==> s < 50.0
  {
    if s >= 65.0 then "text-success"
    else if s >= 50.0 then "text-warning"
    else "text-destructive"
  }

  /** A call of `onComplete`: the score and the text it was given. */
  datatype Completion = Completion(score: WritingScoreResult, text: string)

  class WritingScreen {
    var question: WritingQuestion
    var phase: Phase
    var writtenText: string
    var timeRemaining: int
    var score: Option<WritingScoreResult>
    /** The text sent to the scorer by the submission in progress. */
    var submittedText: string
    var completions: seq<Completion>

    /** The results phase always has a score to show. */
    predicate Valid()
      reads this
    {
      phase == Results ==> score.Some?
    }

    constructor(question: WritingQuestion)
      ensures Valid()
      ensures this.question == question && phase == Writing && writtenText == []
      ensures timeRemaining == question.timeLimit && score == None && completions == []
    {
      this.question := question;
      phase := Writing;
      writtenText := [];
      timeRemaining := question.timeLimit;
      score := None;
      submittedText := [];
      completions := [];
    }

    /** The reset run when the question changes. */
    method Load(q: WritingQuestion)
      modifies this`question, this`phase, this`writtenText, this`timeRemaining, this`score
      ensures Valid()
      ensures question == q && phase == Writing && writtenText == [] && timeRemaining == q.timeLimit && score == None
    {
      question := q;
      phase := Writing;
      writtenText := [];
      timeRemaining := q.timeLimit;
      score := None;
    }

    /** Typing into the text area. */
    method SetText(text: string)
      modifies this`writtenText
      ensures writtenText == text
    {
      writtenText := text;
    }

    /**
     * `handleSubmit` up to the scorer call: with fewer words than the minimum
     * nothing changes and no call is made; otherwise the phase becomes
     * processing and the text goes to the scorer.
     */
    method HandleSubmit() returns (called: bool)
      requires Valid()
      modifies this`phase, this`submittedText
      ensures Valid()
      ensures called <==> WordCount(writtenText) >= question.minWords
      ensures !called ==> phase == old(phase) && submittedText == old(submittedText)
      ensures called ==> phase == Processing && submittedText == writtenText
    {
      if WordCount(writtenText) < question.minWords {
        return false;
      }
      phase := Processing;
      submittedText := writtenText;
      return true;
    }

    /**
     * The rest of `handleSubmit`: a score moves to results and is reported
     * with the submitted text; an error goes back to writing.
     */
    method ScoreArrived(reply: Option<WritingScoreResult>)
      requires Valid() && phase == Processing
      modifies this`phase, this`score, this`completions
      ensures Valid()
      ensures reply.Some? ==> phase == Results && score == reply && completions == old(completions) + [Completion(reply.value, submittedText)]
      ensures reply.None? ==> phase == Writing && score == old(score) && completions == old(completions)
    {
      if reply.None? {
        phase := Writing;
        return;
      }
      score := reply;
      phase := Results;
      completions := completions + [Completion(reply.value, submittedText)];
    }

    /** `handleRetry`: an empty text, a full clock, no score, writing again. */
    method HandleRetry()
      modifies this`writtenText, this`timeRemaining, this`score, this`phase
      ensures Valid()
      ensures writtenText == [] && timeRemaining == question.timeLimit && score == None && phase == Writing
    {
      writtenText := [];
      timeRemaining := question.timeLimit;
      score := None;
      phase := Writing;
    }

    /**
     * One second of the timer, which runs only while writing with time left:
     * at one second or less it submits and stops at 0, otherwise it counts
     * down. Returns whether the scorer was called.
     */
    method Tick() returns (called: bool)
      requires Valid()
      modifies this`timeRemaining, this`phase, this`submittedText
      ensures Valid()
      ensures old(phase) != Writing || old(timeRemaining) <= 0 ==>
        !called && phase == old(phase) && timeRemaining == old(timeRemaining) && submittedText == old(submittedText)
      ensures old(phase) == Writing && old(timeRemaining) > 1 ==>
        !called && phase == Writing && timeRemaining == old(timeRemaining) - 1
      ensures old(phase) == Writing && 0 < old(timeRemaining) <= 1 ==>
        timeRemaining == 0 && (called <==> WordCount(writtenText) >= question.minWords)
        && (called ==> phase == Processing && submittedText == writtenText)
        && (!called ==> phase == Writing)
    {
      called := false;
      if phase != Writing || timeRemaining <= 0 {
        return;
      }
      if timeRemaining <= 1 {
        called := HandleSubmit();
        timeRemaining := 0;
      } else {
        timeRemaining := timeRemaining - 1;
      }
    }
  }

  /**
   * When time runs out on too short a response, the screen stays in writing
   * at 0 and further ticks change nothing.
   */
  method TimeoutWithTooFewWords(s: WritingScreen)
    requires s.Valid() && s.phase == Writing && s.timeRemaining == 1
    requires WordCount(s.writtenText) < s.question.minWords
    modifies s
    ensures s.phase == Writing && s.timeRemaining == 0
  {
    var first := s.Tick();
    assert !first && s.phase == Writing && s.timeRemaining == 0;
    var second := s.Tick();
    assert !second;
  }
}
