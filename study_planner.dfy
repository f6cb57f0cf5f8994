/**
 * The study planner of the dashboard (src/components/dashboard/StudyPlanner.tsx):
 * ranking the four skills weakest first, the seven-day plan built from that
 * ranking, the question types recommended per skill, the countdown to the
 * exam and the weak-skill flag.
 *
 * The current time, the number of days to the exam and the signed-in state
 * are parameters; a plan entry records its day as an offset from today.
 */
module StudyPlanner {
  import opened Wrappers
  import opened JsMath
  import MockSection

  /** A row of `user_progress`. */
  datatype Progress = Progress(skillType: string, averageScore: Option<real>, attemptCount: int)

  /** `userProgress.find(p => p.skill_type === skill)`. */
  function Find(progress: seq<Progress>, skill: string): (r: Option<Progress>)
    ensures r.Some? ==> r.value in progress && r.value.skillType == skill
    ensures r.None? <==> forall i :: 0 <= i < |progress| ==> progress[i].skillType != skill
  {
    if progress == [] then None
    else if progress[0].skillType == skill then Some(progress[0])
    else Find(progress[1..], skill)
  }

  /** `find(...)?.average_score || 0`: a skill without a row, or without a score, counts as 0. */
  function ScoreOf(progress: seq<Progress>, skill: string): (s: real)
    ensures Find(progress, skill).None? ==> s == 0.0
  {
    var p := Find(progress, skill);
    if p.Some? then NumberOr(p.value.averageScore, 0.0) else 0.0
  }

  /** The row found is the first row of the skill. */
  lemma {:induction false} FindIsFirst(progress: seq<Progress>, skill: string, i: int)
    requires 0 <= i < |progress| && progress[i].skillType == skill
    requires forall j :: 0 <= j < i ==> progress[j].skillType != skill
    ensures Find(progress, skill) == Some(progress[i])
  {
    if i > 0 {
      FindIsFirst(progress[1..], skill, i - 1);
    }
  }

  /** A skill scores its first row's average score, or 0 when that is missing or 0. */
  lemma ScoreOfFirstRow(progress: seq<Progress>, skill: string, i: int)
    requires 0 <= i < |progress| && progress[i].skillType == skill
    requires forall j :: 0 <= j < i ==> progress[j].skillType != skill
    ensures ScoreOf(progress, skill) == NumberOr(progress[i].averageScore, 0.0)
  {
    FindIsFirst(progress, skill, i);
  }

  /** The four skills in the order `getWeakAreas` lists them before sorting. */
  const Skills: seq<string> := ["speaking", "writing", "reading", "listening"]

  /** A skill, its score and its position in that initial order. */
  datatype SkillScore = SkillScore(skill: string, score: real, position: nat)

  /**
   * The order the stable sort leaves: by score, and entries of equal score in
   * their initial order.
   */
  predicate NotAfter(x: SkillScore, y: SkillScore) {
    x.score < y.score || (x.score == y.score && x.position <= y.position)
  }

  predicate SortedByScore(s: seq<SkillScore>) {
    forall p, q :: 0 <= p < q < |s| ==> NotAfter(s[p], s[q])
  }

  /**
   * `scores.sort((a, b) => a.score - b.score)`, in place. `Array.prototype.sort`
   * is stable, so a swap happens only when the later entry comes strictly
   * first by score, or by initial position on a tie.
   */
  method SortByScore(a: array<SkillScore>)
    modifies a
    ensures SortedByScore(a[..])
    ensures multiset(a[..]) == multiset(old(a[..]))
  {
    for i := 0 to a.Length
      invariant forall p, q :: 0 <= p < q < i ==> NotAfter(a[p], a[q])
      invariant multiset(a[..]) == multiset(old(a[..]))
    {
      var j := i;
      while j > 0 && !NotAfter(a[j - 1], a[j])
        invariant 0 <= j <= i
        invariant multiset(a[..]) == multiset(old(a[..]))
        invariant forall p, q :: 0 <= p < q <= i && p != j && q != j ==> NotAfter(a[p], a[q])
        invariant forall q :: j < q <= i ==> NotAfter(a[j], a[q])
      {
        SwapAdjacent(a, j);
        j := j - 1;
      }
    }
  }

  method SwapAdjacent(a: array<SkillScore>, j: int)
    requires 0 < j < a.Length
    modifies a
    ensures a[..] == old(a[..])[j - 1 := old(a[j])][j := old(a[j - 1])]
    ensures multiset(a[..]) == multiset(old(a[..]))
  {
    a[j - 1], a[j] := a[j], a[j - 1];
  }

  /** A skill's position in the initial order. */
  function Rank(skill: string): (k: nat)
    ensures k < 4 <==> skill in Skills
    ensures k < 4 ==> Skills[k] == skill
  {
    if skill == "speaking" then 0
    else if skill == "writing" then 1
    else if skill == "reading" then 2
    else if skill == "listening" then 3
    else 4
  }

  /** A skill with its score and initial position. */
  function Ranked(progress: seq<Progress>, skill: string): SkillScore {
    SkillScore(skill, ScoreOf(progress, skill), Rank(skill))
  }

  /** The scores `getWeakAreas` collects before sorting. */
  function Initial(progress: seq<Progress>): (s: seq<SkillScore>)
    ensures |s| == 4 && forall k :: 0 <= k < 4 ==> s[k] == Ranked(progress, Skills[k])
  {
    [Ranked(progress, "speaking"), Ranked(progress, "writing"), Ranked(progress, "reading"), Ranked(progress, "listening")]
  }

  /** `getWeakAreas`: the four skills, weakest first. */
  method GetWeakAreas(progress: seq<Progress>) returns (weakAreas: seq<string>)
    ensures |weakAreas| == 4
    ensures forall s :: s in weakAreas <==> s in Skills
    ensures forall p, q :: 0 <= p < q < 4 ==> NotAfter(Ranked(progress, weakAreas[p]), Ranked(progress, weakAreas[q]))
  {
    var initial := Initial(progress);
    var scores := new SkillScore[4](k requires 0 <= k < 4 => initial[k]);
    assert scores[..] == initial;
    SortByScore(scores);
    weakAreas := Names(scores[..]);
    NamesOfSorted(progress, scores[..]);
  }

  /** `scores.map((s) => s.skill)`. */
  function Names(scores: seq<SkillScore>): (names: seq<string>)
    ensures |names| == |scores| && forall k :: 0 <= k < |scores| ==> names[k] == scores[k].skill
  {
    seq(|scores|, k requires 0 <= k < |scores| => scores[k].skill)
  }

  /** The skills of the sorted scores are the four skills, in the sorted order. */
  lemma NamesOfSorted(progress: seq<Progress>, sorted: seq<SkillScore>)
    requires |sorted| == 4 && multiset(sorted) == multiset(Initial(progress)) && SortedByScore(sorted)
    ensures var w := Names(sorted);
      && (forall s :: s in w <==> s in Skills)
      && forall p, q :: 0 <= p < q < 4 ==> NotAfter(Ranked(progress, w[p]), Ranked(progress, w[q]))
  {
    var w := Names(sorted);
    forall k | 0 <= k < 4
      ensures sorted[k] == Ranked(progress, w[k]) && w[k] in Skills
    {
      SortedEntryRanked(progress, sorted, k);
    }
    forall s | s in Skills
      ensures s in w
    {
      SkillKept(progress, sorted, s);
    }
  }

  /** Each sorted entry is one of the initial four, so it is its skill's ranked score. */
  lemma SortedEntryRanked(progress: seq<Progress>, sorted: seq<SkillScore>, k: int)
    requires multiset(sorted) == multiset(Initial(progress)) && 0 <= k < |sorted|
    ensures sorted[k] == Ranked(progress, sorted[k].skill) && sorted[k].skill in Skills
  {
    var initial := Initial(progress);
    assert sorted[k] in multiset(initial);
    var j :| 0 <= j < 4 && initial[j] == sorted[k];
  }

  /** Each skill's initial score survives the sort. */
  lemma SkillKept(progress: seq<Progress>, sorted: seq<SkillScore>, s: string)
    requires multiset(sorted) == multiset(Initial(progress)) && s in Skills
    ensures exists k :: 0 <= k < |sorted| && sorted[k].skill == s
  {
    var initial := Initial(progress);
    assert initial[Rank(s)] in multiset(sorted);
    var k :| 0 <= k < |sorted| && sorted[k] == initial[Rank(s)];
    assert sorted[k].skill == s;
  }

  /** `getQuestionTypesForSkill`. */
  function QuestionTypesForSkill(skill: string): (types: seq<string>)
    ensures skill !in Skills ==> types == []
    ensures skill in Skills ==> |types| > 0
  {
    if skill == "speaking" then ["read-aloud", "repeat-sentence", "describe-image", "retell-lecture"]
    else if skill == "writing" then ["summarize-written-text", "write-essay"]
    else if skill == "reading" then ["mc-single", "mc-multiple", "reorder-paragraphs", "fill-blanks-drag"]
    else if skill == "listening" then ["highlight-correct-summary", "mc-single-listening", "fill-blanks-listening", "write-from-dictation"]
    else []
  }

  /** Every recommended type is one the mock test's question card can score. */
  lemma RecommendedTypesAreKnown(skill: string)
    ensures forall t :: t in QuestionTypesForSkill(skill) ==> t in MockSection.ScoreMap
  {
  }

  /** A row of `study_schedules` as the plan builds it; `dayOffset` days after today. */
  datatype ScheduleEntry = ScheduleEntry(
    dayOffset: nat, skillType: string, questionTypes: seq<string>,
    targetQuestions: int, completedQuestions: int, isCompleted: bool)

  /** `weakAreas[i % weakAreas.length] || 'speaking'`. */
  function SkillForDay(weakAreas: seq<string>, i: nat): (skill: string)
    ensures |weakAreas| > 0 && weakAreas[i % |weakAreas|] != "" ==> skill == weakAreas[i % |weakAreas|]
    ensures skill != ""
  {
    if |weakAreas| == 0 || weakAreas[i % |weakAreas|] == "" then "speaking" else weakAreas[i % |weakAreas|]
  }

  function Entry(i: nat, weakAreas: seq<string>, hoursPerDay: real): ScheduleEntry {
    var skill := SkillForDay(weakAreas, i);
    ScheduleEntry(i, skill, QuestionTypesForSkill(skill), Ceil(hoursPerDay * 5.0), 0, false)
  }

  /**
   * `generateStudyPlan`: nothing without a signed-in user, an exam date and
   * at least one day to go; otherwise one entry a day for up to seven days.
   */
  method GenerateStudyPlan(signedIn: bool, examDate: string, daysUntilExam: int,
                           weakAreas: seq<string>, hoursPerDay: real) returns (plan: Option<seq<ScheduleEntry>>)
    ensures !signedIn || examDate == "" || daysUntilExam <= 0 <==> plan.None?
    ensures plan.Some? ==>
      var s := plan.value;
      && |s| == MinInt(7, daysUntilExam)
      && forall i :: 0 <= i < |s| ==>
           && s[i].dayOffset == i
           && s[i].skillType == SkillForDay(weakAreas, i)
           && s[i].questionTypes == QuestionTypesForSkill(s[i].skillType)
           && s[i].targetQuestions == Ceil(hoursPerDay * 5.0)
           && s[i].completedQuestions == 0 && !s[i].isCompleted
  {
    if !signedIn || examDate == "" {
      return None;
    }
    if daysUntilExam <= 0 {
      return None;
    }
    var schedules: seq<ScheduleEntry> := [];
    var i := 0;
    while i < 7 && i < daysUntilExam
      invariant 0 <= i <= MinInt(7, daysUntilExam)
      invariant |schedules| == i
      invariant forall k :: 0 <= k < i ==> schedules[k] == Entry(k, weakAreas, hoursPerDay)
    {
      var skill := if |weakAreas| == 0 || weakAreas[i % |weakAreas|] == "" then "speaking" else weakAreas[i % |weakAreas|];
      schedules := schedules + [ScheduleEntry(i, skill, QuestionTypesForSkill(skill), Ceil(hoursPerDay * 5.0), 0, false)];
      i := i + 1;
    }
    return Some(schedules);
  }

  /** With the four ranked skills, the plan cycles through them: day i trains skill i mod 4. */
  lemma PlanCyclesWeakAreas(weakAreas: seq<string>, i: nat)
    requires |weakAreas| == 4 && forall s :: s in weakAreas <==> s in Skills
    ensures SkillForDay(weakAreas, i) == weakAreas[i % 4]
    ensures SkillForDay(weakAreas, i) == SkillForDay(weakAreas, i + 4)
  {
    assert weakAreas[i % 4] in Skills;
  }

  datatype Countdown = Countdown(days: int, hours: int, minutes: int)

  const MsPerDay: int := 1000 * 60 * 60 * 24
  const MsPerHour: int := 1000 * 60 * 60
  const MsPerMinute: int := 1000 * 60

  /** The countdown shown for `diff` milliseconds to the exam. */
  function CountdownOf(diff: int): (c: Countdown)
    ensures diff <= 0 ==> c == Countdown(0, 0, 0)
    ensures diff > 0 ==>
      && c.days >= 0 && 0 <= c.hours < 24 && 0 <= c.minutes < 60
      && c.days * MsPerDay + c.hours * MsPerHour + c.minutes * MsPerMinute <= diff
      < c.days * MsPerDay + c.hours * MsPerHour + c.minutes * MsPerMinute + MsPerMinute
  {
    if diff <= 0 then Countdown(0, 0, 0)
    else
      var days := diff / MsPerDay;
      var hours := (diff % MsPerDay) / MsPerHour;
      var minutes := (diff % MsPerHour) / MsPerMinute;
      CountdownParts(diff);
      Countdown(days, hours, minutes)
  }

  lemma CountdownParts(diff: nat)
    ensures var days := diff / MsPerDay;
      var hours := (diff % MsPerDay) / MsPerHour;
      var minutes := (diff % MsPerHour) / MsPerMinute;
      && hours < 24 && minutes < 60
      && days * MsPerDay + hours * MsPerHour + minutes * MsPerMinute <= diff
      < days * MsPerDay + hours * MsPerHour + minutes * MsPerMinute + MsPerMinute
  {
    var rd := diff % MsPerDay;
    var hours := rd / MsPerHour;
    var rh := rd % MsPerHour;
    assert diff == (diff / MsPerDay) * MsPerDay + rd;
    assert rd == hours * MsPerHour + rh;
    assert rh == diff % MsPerHour by {
      assert diff == ((diff / MsPerDay) * 24 + hours) * MsPerHour + rh;
    }
    assert rh == (rh / MsPerMinute) * MsPerMinute + rh % MsPerMinute;
  }

  /** The weak flag of the skill-progress grid. */
  predicate IsWeak(progress: seq<Progress>, skill: string) {
    ScoreOf(progress, skill) < 50.0
  }

  /**
   * When some skill is flagged weak, the first skill of the ranking is
   * flagged weak too.
   */
  lemma WeakestFirst(progress: seq<Progress>, weakAreas: seq<string>, skill: string)
    requires |weakAreas| == 4 && forall s :: s in weakAreas <==> s in Skills
    requires forall p, q :: 0 <= p < q < 4 ==>
      NotAfter(Ranked(progress, weakAreas[p]), Ranked(progress, weakAreas[q]))
    requires skill in Skills && IsWeak(progress, skill)
    ensures IsWeak(progress, weakAreas[0])
  {
    var q :| 0 <= q < 4 && weakAreas[q] == skill;
    if q > 0 {
      assert NotAfter(Ranked(progress, weakAreas[0]), Ranked(progress, weakAreas[q]));
    }
  }

  /** The goal form filled from a stored goal: target score, hours a day and days a week, with their defaults. */
  datatype GoalForm = GoalForm(targetScore: real, hoursPerDay: real, studyDaysPerWeek: real)

  function FormFromGoal(targetOverall: Option<real>, hoursPerDay: Option<real>, studyDaysPerWeek: Option<real>): (f: GoalForm)
    ensures targetOverall.None? || targetOverall == Some(0.0) ==> f.targetScore == 79.0
    ensures hoursPerDay.None? || hoursPerDay == Some(0.0) ==> f.hoursPerDay == 2.0
    ensures studyDaysPerWeek.None? || studyDaysPerWeek == Some(0.0) ==> f.studyDaysPerWeek == 5.0
    ensures targetOverall.Some? && targetOverall.value != 0.0 ==> f.targetScore == targetOverall.value
    ensures hoursPerDay.Some? && hoursPerDay.value != 0.0 ==> f.hoursPerDay == hoursPerDay.value
    ensures studyDaysPerWeek.Some? && studyDaysPerWeek.value != 0.0 ==> f.studyDaysPerWeek == studyDaysPerWeek.value
    ensures f.targetScore != 0.0 && f.hoursPerDay != 0.0 && f.studyDaysPerWeek != 0.0
  {
    GoalForm(NumberOr(targetOverall, 79.0), NumberOr(hoursPerDay, 2.0), NumberOr(studyDaysPerWeek, 5.0))
  }
}
