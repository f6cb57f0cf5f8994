/**
 * The practice page (src/pages/Index.tsx): the selected section and
 * question type, the questions of that type, the current question, the set
 * of completed question ids, and the handlers that move between questions.
 *
 * The question banks are fixed when the page is made; each call of
 * `saveAttempt` is recorded as a request rather than performed.
 */
module PracticePage {
  import opened Wrappers
  import opened JsMath
  import UserHistory

  datatype Section = Speaking | Writing

  /** The fields of a bank question the page looks at. */
  datatype Question = Question(id: string, questionType: string)

  /**
   * The argument of one `saveAttempt` call, with the duration in the form
   * `UserHistory.History.SaveAttempt` takes it.
   */
  datatype SaveRequest = SaveRequest(
    questionId: string, testType: string, spokenText: string,
    score: UserHistory.ScoreResult, durationSeconds: Option<int>)

  /** `questions.filter((q) => q.type === selectedType)`. */
  function OfType(questions: seq<Question>, t: string): (r: seq<Question>)
    ensures |r| <= |questions|
    ensures forall q :: q in r <==> q in questions && q.questionType == t
  {
    if questions == [] then []
    else
      var rest := OfType(questions[1..], t);
      if questions[0].questionType == t then [questions[0]] + rest else rest
  }

  /** Filtering keeps the bank's order: the questions of a type in two banks are those of each, one after the other. */
  lemma {:induction false} OfTypeAppend(xs: seq<Question>, ys: seq<Question>, t: string)
    ensures OfType(xs + ys, t) == OfType(xs, t) + OfType(ys, t)
    decreases |xs|
  {
    if xs != [] {
      assert (xs + ys)[0] == xs[0];
      assert (xs + ys)[1..] == xs[1..] + ys;
      OfTypeAppend(xs[1..], ys, t);
      if xs[0].questionType == t {
        assert [xs[0]] + (OfType(xs[1..], t) + OfType(ys, t)) == ([xs[0]] + OfType(xs[1..], t)) + OfType(ys, t);
      }
    } else {
      assert xs + ys == ys;
    }
  }

  /** `currentQuestions`: none without a selected type, otherwise the section's questions of that type. */
  function QuestionsFor(section: Section, selectedType: Option<string>,
                        speaking: seq<Question>, writing: seq<Question>): (r: seq<Question>)
    ensures selectedType.None? ==> r == []
    ensures selectedType.Some? ==> forall q :: q in r <==>
      q in (if section == Speaking then speaking else writing) && q.questionType == selectedType.value
  {
    if selectedType.None? then []
    else if section == Speaking then OfType(speaking, selectedType.value)
    else OfType(writing, selectedType.value)
  }

  class Page {
    const speaking: seq<Question>
    const writing: seq<Question>
    var section: Section
    var selectedType: Option<string>
    var index: int
    var completed: set<string>
    var panelOpen: bool
    var saves: seq<SaveRequest>

    constructor(speaking: seq<Question>, writing: seq<Question>)
      ensures this.speaking == speaking && this.writing == writing
      ensures section == Speaking && selectedType == None && index == 0
      ensures completed == {} && !panelOpen && saves == []
      ensures OnAQuestion()
    {
      this.speaking := speaking;
      this.writing := writing;
      section := Speaking;
      selectedType := None;
      index := 0;
      completed := {};
      panelOpen := false;
      saves := [];
    }

    function Questions(): (r: seq<Question>)
      reads this
      ensures selectedType.None? ==> r == []
    {
      QuestionsFor(section, selectedType, speaking, writing)
    }

    /** `currentQuestion`: the question at the index, undefined outside the list. */
    function Current(): (q: Option<Question>)
      reads this
      ensures q.Some? <==> 0 <= index < |Questions()|
      ensures q.Some? ==> q.value in Questions() && q.value == Questions()[index]
    {
      var qs := Questions();
      if 0 <= index < |qs| then Some(qs[index]) else None
    }

    /**
     * The index points at a question of the list, or is 0 when the list is
     * empty: the state the type selector and the next button keep.
     */
    predicate OnAQuestion()
      reads this
    {
      var qs := Questions();
      if qs == [] then index == 0 else 0 <= index < |qs|
    }

    /** `setSelectedSection`: the type and the index are kept. */
    method SelectSection(s: Section)
      modifies this`section
      ensures section == s
    {
      section := s;
    }

    /** `handleSelectType`: the type is selected and the first question shown. */
    method SelectType(t: string)
      modifies this`selectedType, this`index
      ensures selectedType == Some(t) && index == 0
      ensures OnAQuestion()
    {
      selectedType := Some(t);
      index := 0;
    }

    /**
     * The Back button of the question view: the type is cleared, so the list
     * is empty and no question is shown; the index is left as it was.
     */
    method Back()
      modifies this`selectedType
      ensures selectedType == None && Questions() == [] && Current() == None
    {
      selectedType := None;
    }

    /** The question panel's `onOpenChange` and the side button that opens it. */
    method SetPanelOpen(open: bool)
      modifies this`panelOpen
      ensures panelOpen == open
    {
      panelOpen := open;
    }

    /** `handleSelectQuestion`: the chosen question is shown and the panel closes. */
    method SelectQuestion(i: int)
      modifies this`index, this`panelOpen
      ensures index == i && !panelOpen
      ensures 0 <= i < |Questions()| ==> OnAQuestion() && Current() == Some(Questions()[i])
    {
      index := i;
      panelOpen := false;
    }

    /**
     * `handleNext`: the next question when there is one; after the last
     * question (or with none) the type is cleared and the index reset.
     */
    method Next()
      modifies this`selectedType, this`index
      ensures old(index) < |old(Questions())| - 1 ==> selectedType == old(selectedType) && index == old(index) + 1
      ensures old(index) >= |old(Questions())| - 1 ==> selectedType == None && index == 0
      ensures old(OnAQuestion()) ==> OnAQuestion()
    {
      if index < |Questions()| - 1 {
        index := index + 1;
      } else {
        selectedType := None;
        index := 0;
      }
    }

    /** The previous button of the speaking screen: one question back, never below 0. */
    method Previous()
      modifies this`index
      ensures index == MaxInt(0, old(index) - 1)
      ensures old(OnAQuestion()) ==> OnAQuestion()
    {
      index := MaxInt(0, index - 1);
    }

    /**
     * `handleComplete`: with a current question its id joins the completed
     * set, and in the speaking section the attempt is saved with the
     * duration, a missing one counting as 0. Without a current question
     * nothing happens.
     */
    method Complete(score: UserHistory.ScoreResult, text: string, duration: Option<int>)
      modifies this`completed, this`saves
      ensures old(completed) <= completed
      ensures Current().None? ==> completed == old(completed) && saves == old(saves)
      ensures Current().Some? ==> completed == old(completed) + {Current().value.id}
      ensures Current().Some? && section == Speaking ==>
        saves == old(saves) + [SaveRequest(Current().value.id, Current().value.questionType, text, score,
                                           Some(if duration.Some? then duration.value else 0))]
      ensures section == Writing ==> saves == old(saves)
    {
      var current := Current();
      if current.None? {
        return;
      }
      completed := completed + {current.value.id};
      if section == Speaking {
        // `duration || 0`: a missing duration is sent as 0.
        var seconds := if duration.Some? then duration.value else 0;
        saves := saves + [SaveRequest(current.value.id, current.value.questionType, text, score, Some(seconds))];
      }
    }
  }

  /**
   * Pressing next from any question of a list walks to its end and then
   * clears the type: it takes as many presses as there are questions from
   * the current one on (one for an empty list), and no question is marked
   * completed on the way.
   */
  method NextUntilCleared(p: Page) returns (presses: nat)
    requires p.OnAQuestion() && p.selectedType.Some?
    modifies p
    ensures p.selectedType == None && p.index == 0
    ensures presses == MaxInt(1, |old(p.Questions())| - old(p.index))
    ensures p.completed == old(p.completed) && p.section == old(p.section)
  {
    presses := 0;
    ghost var qs := p.Questions();
    ghost var start := p.index;
    while p.selectedType.Some?
      invariant p.OnAQuestion() && p.section == old(p.section) && p.completed == old(p.completed)
      invariant p.selectedType.Some? ==> p.Questions() == qs && presses == p.index - start
      invariant p.selectedType.None? ==> p.index == 0 && presses == MaxInt(1, |qs| - start)
      decreases if p.selectedType.Some? then |qs| - p.index + 1 else 0
    {
      p.Next();
      presses := presses + 1;
    }
  }
}
