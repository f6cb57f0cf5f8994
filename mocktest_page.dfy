/**
 * The full mock test page (src/pages/MockTest.tsx): the test plan, the
 * question list drawn from the question banks, the answers collected from
 * the question card, the two clocks, and the final section scores on the
 * 10-90 scale.
 *
 * `Date.now()` is a parameter `now` (milliseconds). The random shuffle of
 * each question bank is taken as the identity.
 */
module MockTestPage {
  import opened Wrappers
  import opened JsMath
  import opened Text
  import MockSection

  /** One row of a section's `questionTypes`. */
  datatype Quota = Quota(questionType: string, count: nat, timePerQ: nat)

  /** One entry of `TEST_SECTIONS`; `duration` is in minutes. */
  datatype SectionPlan = SectionPlan(id: string, name: string, duration: nat, quotas: seq<Quota>)

  const TestSections: seq<SectionPlan> := [
    SectionPlan("speaking", "Speaking & Writing", 77, [
      Quota("read-aloud", 6, 40), Quota("repeat-sentence", 10, 15),
      Quota("describe-image", 3, 40), Quota("retell-lecture", 2, 40),
      Quota("answer-short-question", 5, 10), Quota("summarize-written-text", 1, 600),
      Quota("write-essay", 1, 1200)]),
    SectionPlan("reading", "Reading", 29, [
      Quota("mc-single", 2, 120), Quota("mc-multiple", 2, 150),
      Quota("reorder-paragraphs", 2, 180), Quota("fill-blanks-drag", 2, 180),
      Quota("fill-blanks-dropdown", 2, 180)]),
    SectionPlan("listening", "Listening", 33, [
      Quota("summarize-spoken-text", 1, 600), Quota("mc-multiple-listening", 2, 150),
      Quota("fill-blanks-listening", 2, 180), Quota("highlight-correct-summary", 2, 180),
      Quota("mc-single-listening", 2, 120), Quota("select-missing-word", 2, 120),
      Quota("highlight-incorrect-words", 2, 180), Quota("write-from-dictation", 3, 60)])
  ]

  /** Two hours and nineteen minutes, in seconds. */
  const TotalTestDuration: int := 8340

  /** The three section durations add up to the whole test's duration. */
  lemma SectionDurationsCoverTest()
    ensures (TestSections[0].duration + TestSections[1].duration + TestSections[2].duration) * 60 == TotalTestDuration
  {
  }

  // ---------------------------------------------------------------------------
  // Question generation

  /** A question of a bank, before the page tags it. */
  datatype BankQuestion = BankQuestion(id: string, questionType: string, maxScore: Option<real>)

  /** A question of the test: a bank question tagged with its section and its time limit. */
  datatype TestQuestion = TestQuestion(
    id: string, questionType: string, maxScore: Option<real>,
    section: string, sectionName: string, timeLimit: nat)

  /** The speaking, reading and listening banks. */
  datatype Banks = Banks(speaking: seq<BankQuestion>, reading: seq<BankQuestion>, listening: seq<BankQuestion>)

  function SourceBank(sectionId: string, banks: Banks): seq<BankQuestion> {
    if sectionId == "speaking" then banks.speaking
    else if sectionId == "reading" then banks.reading
    else if sectionId == "listening" then banks.listening
    else []
  }

  /** The bank filter: the speaking bank also matches a type ignoring case. */
  predicate Matches(sectionId: string, questionType: string, q: BankQuestion) {
    if sectionId == "speaking" then q.questionType == questionType || Lower(q.questionType) == Lower(questionType)
    else q.questionType == questionType
  }

  /** The bank questions the filter keeps, in bank order. */
  function Matching(sectionId: string, questionType: string, bank: seq<BankQuestion>): (r: seq<BankQuestion>)
    ensures |r| <= |bank|
    ensures forall i :: 0 <= i < |r| ==> Matches(sectionId, questionType, r[i]) && r[i] in bank
    ensures (forall i :: 0 <= i < |bank| ==> Matches(sectionId, questionType, bank[i])) ==> r == bank
  {
    if bank == [] then []
    else
      var k := |bank| - 1;
      var prefix := Matching(sectionId, questionType, bank[..k]);
      assert bank == bank[..k] + [bank[k]];
      prefix + (if Matches(sectionId, questionType, bank[k]) then [bank[k]] else [])
  }

  function Tag(q: BankQuestion, plan: SectionPlan, quota: Quota): TestQuestion {
    TestQuestion(q.id, q.questionType, q.maxScore, plan.id, plan.name, quota.timePerQ)
  }

  function Tagged(selected: seq<BankQuestion>, plan: SectionPlan, quota: Quota): (r: seq<TestQuestion>)
    ensures |r| == |selected|
    ensures forall i :: 0 <= i < |r| ==> r[i] == Tag(selected[i], plan, quota)
  {
    seq(|selected|, i requires 0 <= i < |selected| => Tag(selected[i], plan, quota))
  }

  /** The questions one quota contributes: the first `count` matching bank questions, tagged. */
  function QuotaBlock(plan: SectionPlan, quota: Quota, bank: seq<BankQuestion>): (r: seq<TestQuestion>)
    ensures |r| == MinInt(quota.count, |Matching(plan.id, quota.questionType, bank)|)
    ensures forall i :: 0 <= i < |r| ==>
      && r[i].section == plan.id && r[i].timeLimit == quota.timePerQ
      && r[i].questionType == Matching(plan.id, quota.questionType, bank)[i].questionType
  {
    var matching := Matching(plan.id, quota.questionType, bank);
    Tagged(matching[..MinInt(quota.count, |matching|)], plan, quota)
  }

  /** The questions of the first quotas of a section, in order. */
  function QuotaBlocks(plan: SectionPlan, quotas: seq<Quota>, bank: seq<BankQuestion>): (r: seq<TestQuestion>)
    ensures forall i :: 0 <= i < |r| ==> r[i].section == plan.id
  {
    if quotas == [] then []
    else
      var k := |quotas| - 1;
      QuotaBlocks(plan, quotas[..k], bank) + QuotaBlock(plan, quotas[k], bank)
  }

  /** The questions of the first sections of the plan, in order. */
  function SectionBlocks(plans: seq<SectionPlan>, banks: Banks): (r: seq<TestQuestion>)
    ensures forall i :: 0 <= i < |r| ==> exists j :: 0 <= j < |plans| && r[i].section == plans[j].id
  {
    if plans == [] then []
    else
      var k := |plans| - 1;
      var prefix := SectionBlocks(plans[..k], banks);
      var block := QuotaBlocks(plans[k], plans[k].quotas, SourceBank(plans[k].id, banks));
      assert forall i :: 0 <= i < |prefix| ==> exists j :: 0 <= j < |plans| && prefix[i].section == plans[j].id by {
        forall i | 0 <= i < |prefix|
          ensures exists j :: 0 <= j < |plans| && prefix[i].section == plans[j].id
        {
          var j :| 0 <= j < k && prefix[i].section == plans[..k][j].id;
          assert plans[..k][j] == plans[j];
        }
      }
      prefix + block
  }

  function QuotaTotal(quotas: seq<Quota>): nat {
    if quotas == [] then 0 else QuotaTotal(quotas[..|quotas| - 1]) + quotas[|quotas| - 1].count
  }

  function PlanTotal(plans: seq<SectionPlan>): nat {
    if plans == [] then 0 else PlanTotal(plans[..|plans| - 1]) + QuotaTotal(plans[|plans| - 1].quotas)
  }

  /** A section never contributes more questions than its quotas ask for. */
  lemma {:induction false} QuotaBlocksAtMost(plan: SectionPlan, quotas: seq<Quota>, bank: seq<BankQuestion>)
    ensures |QuotaBlocks(plan, quotas, bank)| <= QuotaTotal(quotas)
  {
    if quotas != [] {
      QuotaBlocksAtMost(plan, quotas[..|quotas| - 1], bank);
    }
  }

  lemma {:induction false} SectionBlocksAtMost(plans: seq<SectionPlan>, banks: Banks)
    ensures |SectionBlocks(plans, banks)| <= PlanTotal(plans)
  {
    if plans != [] {
      var k := |plans| - 1;
      SectionBlocksAtMost(plans[..k], banks);
      QuotaBlocksAtMost(plans[k], plans[k].quotas, SourceBank(plans[k].id, banks));
    }
  }

  /** The mount effect: every section, every quota, the first `count` matches, pushed in order. */
  method GenerateQuestions(banks: Banks) returns (questions: seq<TestQuestion>)
    ensures questions == SectionBlocks(TestSections, banks)
  {
    questions := [];
    for si := 0 to |TestSections|
      invariant questions == SectionBlocks(TestSections[..si], banks)
    {
      var plan := TestSections[si];
      SectionBlocksStep(TestSections, si, banks);
      AppendAssoc(SectionBlocks(TestSections[..si], banks), [], QuotaBlocks(plan, plan.quotas, SourceBank(plan.id, banks)));
      questions := PushSection(questions, plan, SourceBank(plan.id, banks));
    }
    assert TestSections[..|TestSections|] == TestSections;
  }

  /** `section.questionTypes.forEach`: the section's quotas in order. */
  method PushSection(questions: seq<TestQuestion>, plan: SectionPlan, bank: seq<BankQuestion>) returns (r: seq<TestQuestion>)
    ensures r == questions + QuotaBlocks(plan, plan.quotas, bank)
  {
    r := questions;
    for ti := 0 to |plan.quotas|
      invariant r == questions + QuotaBlocks(plan, plan.quotas[..ti], bank)
    {
      QuotaBlocksStep(plan, plan.quotas, ti, bank);
      AppendAssoc(questions, QuotaBlocks(plan, plan.quotas[..ti], bank), QuotaBlock(plan, plan.quotas[ti], bank));
      r := PushQuota(r, plan, plan.quotas[ti], bank);
    }
    assert plan.quotas[..|plan.quotas|] == plan.quotas;
  }

  lemma QuotaBlocksStep(plan: SectionPlan, quotas: seq<Quota>, ti: int, bank: seq<BankQuestion>)
    requires 0 <= ti < |quotas|
    ensures QuotaBlocks(plan, quotas[..ti + 1], bank) == QuotaBlocks(plan, quotas[..ti], bank) + QuotaBlock(plan, quotas[ti], bank)
  {
    assert quotas[..ti + 1][..ti] == quotas[..ti];
  }

  lemma SectionBlocksStep(plans: seq<SectionPlan>, si: int, banks: Banks)
    requires 0 <= si < |plans|
    ensures SectionBlocks(plans[..si + 1], banks) ==
      SectionBlocks(plans[..si], banks) + QuotaBlocks(plans[si], plans[si].quotas, SourceBank(plans[si].id, banks))
  {
    assert plans[..si + 1][..si] == plans[..si];
  }

  /** Filter the bank, keep the first `count`, and push each one tagged. */
  method PushQuota(questions: seq<TestQuestion>, plan: SectionPlan, quota: Quota, bank: seq<BankQuestion>) returns (r: seq<TestQuestion>)
    ensures r == questions + QuotaBlock(plan, quota, bank)
  {
    var matching := Matching(plan.id, quota.questionType, bank);
    var selected := matching[..MinInt(quota.count, |matching|)];
    r := questions;
    for k := 0 to |selected|
      invariant r == questions + Tagged(selected[..k], plan, quota)
    {
      assert Tagged(selected[..k + 1], plan, quota) == Tagged(selected[..k], plan, quota) + [Tag(selected[k], plan, quota)];
      r := r + [Tag(selected[k], plan, quota)];
    }
    assert selected[..|selected|] == selected;
  }

  // ---------------------------------------------------------------------------
  // Scoring

  /** One entry of `answers`. */
  datatype MockAnswer = MockAnswer(
    questionId: string, questionType: string, section: string,
    answer: MockSection.Answer, score: Option<real>, maxScore: Option<real>, timeSpent: int)

  /** An answer whose `score || 0` lies between 0 and its `maxScore || 1`. */
  predicate AnswerInRange(a: MockAnswer) {
    0.0 <= NumberOr(a.score, 0.0) <= NumberOr(a.maxScore, 1.0)
  }

  /** What the question card reports always gives an answer in range. */
  lemma SubmissionInRange(q: TestQuestion, s: MockSection.Submission, timeSpent: int)
    requires MockSection.WithinMax(s)
    ensures AnswerInRange(MockAnswer(q.id, q.questionType, q.section, s.answer,
                                     Some(s.score as real), Some(s.maxScore as real), timeSpent))
  {
  }

  /** Essays and written summaries taken in the speaking section are counted as writing. */
  function BucketName(a: MockAnswer): (r: string)
    ensures a.section == "speaking" && (a.questionType == "summarize-written-text" || a.questionType == "write-essay") ==> r == "writing"
    ensures r != a.section ==>
      a.section == "speaking" && r == "writing" && (a.questionType == "summarize-written-text" || a.questionType == "write-essay")
  {
    if a.section == "speaking" && (a.questionType == "summarize-written-text" || a.questionType == "write-essay")
    then "writing" else a.section
  }

  predicate IsBucket(name: string) {
    name == "speaking" || name == "reading" || name == "listening" || name == "writing"
  }

  datatype Bucket = Bucket(earned: real, max: real, count: nat)

  datatype Totals = Totals(speaking: Bucket, reading: Bucket, listening: Bucket, writing: Bucket)

  const NoBucket: Bucket := Bucket(0.0, 0.0, 0)

  const NoTotals: Totals := Totals(NoBucket, NoBucket, NoBucket, NoBucket)

  /** One answer added to a section record: `score || 0` earned, `maxScore || 1` possible, one more answer. */
  function AddTo(b: Bucket, a: MockAnswer): (r: Bucket)
    ensures r.count == b.count + 1
    ensures r.earned - b.earned == NumberOr(a.score, 0.0) && r.max - b.max == NumberOr(a.maxScore, 1.0)
    ensures BucketInRange(b) && AnswerInRange(a) ==> BucketInRange(r)
  {
    Bucket(b.earned + NumberOr(a.score, 0.0), b.max + NumberOr(a.maxScore, 1.0), b.count + 1)
  }

  /** The body of the `answers.forEach`: one bucket grows, or none for an unknown section. */
  function Count(t: Totals, a: MockAnswer): (r: Totals)
    ensures r.speaking == if BucketName(a) == "speaking" then AddTo(t.speaking, a) else t.speaking
    ensures r.reading == if BucketName(a) == "reading" then AddTo(t.reading, a) else t.reading
    ensures r.listening == if BucketName(a) == "listening" then AddTo(t.listening, a) else t.listening
    ensures r.writing == if BucketName(a) == "writing" then AddTo(t.writing, a) else t.writing
  {
    var name := BucketName(a);
    if name == "speaking" then t.(speaking := AddTo(t.speaking, a))
    else if name == "reading" then t.(reading := AddTo(t.reading, a))
    else if name == "listening" then t.(listening := AddTo(t.listening, a))
    else if name == "writing" then t.(writing := AddTo(t.writing, a))
    else t
  }

  function Counted(t: Totals): nat {
    t.speaking.count + t.reading.count + t.listening.count + t.writing.count
  }

  /** The answers that land in the named section, in order. */
  function InSection(answers: seq<MockAnswer>, name: string): (r: seq<MockAnswer>)
    ensures |r| <= |answers|
    ensures forall i :: 0 <= i < |r| ==> BucketName(r[i]) == name && r[i] in answers
    ensures (forall i :: 0 <= i < |answers| ==> BucketName(answers[i]) == name) ==> r == answers
  {
    if answers == [] then []
    else
      var k := |answers| - 1;
      assert answers == answers[..k] + [answers[k]];
      InSection(answers[..k], name) + (if BucketName(answers[k]) == name then [answers[k]] else [])
  }

  /** The points earned, the points possible and the number of a list of answers, added one by one. */
  function Sum(answers: seq<MockAnswer>): (b: Bucket)
    ensures b.count == |answers|
    ensures (forall i :: 0 <= i < |answers| ==> AnswerInRange(answers[i])) ==> BucketInRange(b)
  {
    if answers == [] then NoBucket
    else
      var k := |answers| - 1;
      assert forall i :: 0 <= i < k ==> answers[..k][i] == answers[i];
      AddTo(Sum(answers[..k]), answers[k])
  }

  lemma SumSnoc(answers: seq<MockAnswer>, a: MockAnswer)
    ensures Sum(answers + [a]) == AddTo(Sum(answers), a)
  {
    assert (answers + [a])[..|answers|] == answers;
  }

  /** The section totals of a list of answers, counted one answer at a time. */
  function Tally(answers: seq<MockAnswer>): Totals {
    if answers == [] then NoTotals
    else
      var k := |answers| - 1;
      Count(Tally(answers[..k]), answers[k])
  }

  /**
   * Each section of the totals holds the sum of exactly the answers that
   * land in it; answers of any other section are not counted.
   */
  lemma {:induction false} TallySections(answers: seq<MockAnswer>)
    ensures Tally(answers).speaking == Sum(InSection(answers, "speaking"))
    ensures Tally(answers).reading == Sum(InSection(answers, "reading"))
    ensures Tally(answers).listening == Sum(InSection(answers, "listening"))
    ensures Tally(answers).writing == Sum(InSection(answers, "writing"))
  {
    if answers != [] {
      var k := |answers| - 1;
      var prefix, last := answers[..k], answers[k];
      assert answers == prefix + [last];
      TallySections(prefix);
      TallyStep(prefix, last, Tally(prefix));
      assert Tally(answers) == Count(Tally(prefix), last);
    }
  }

  /** One more answer adds to the sum of its own section only. */
  lemma TallyStep(prefix: seq<MockAnswer>, a: MockAnswer, t: Totals)
    requires t.speaking == Sum(InSection(prefix, "speaking")) && t.reading == Sum(InSection(prefix, "reading"))
    requires t.listening == Sum(InSection(prefix, "listening")) && t.writing == Sum(InSection(prefix, "writing"))
    ensures var r := Count(t, a); var answers := prefix + [a];
      && r.speaking == Sum(InSection(answers, "speaking")) && r.reading == Sum(InSection(answers, "reading"))
      && r.listening == Sum(InSection(answers, "listening")) && r.writing == Sum(InSection(answers, "writing"))
  {
    SectionSnoc(prefix, a, "speaking");
    SectionSnoc(prefix, a, "reading");
    SectionSnoc(prefix, a, "listening");
    SectionSnoc(prefix, a, "writing");
  }

  /** The sum of one section after one more answer. */
  lemma SectionSnoc(prefix: seq<MockAnswer>, a: MockAnswer, name: string)
    ensures Sum(InSection(prefix + [a], name)) ==
      if BucketName(a) == name then AddTo(Sum(InSection(prefix, name)), a) else Sum(InSection(prefix, name))
  {
    var answers := prefix + [a];
    assert answers[..|prefix|] == prefix;
    assert InSection(answers, name) == InSection(prefix, name) + (if BucketName(a) == name then [a] else []);
    if BucketName(a) == name {
      SumSnoc(InSection(prefix, name), a);
    } else {
      assert InSection(prefix, name) + [] == InSection(prefix, name);
    }
  }

  /** Counting one answer adds one to exactly one bucket when its section is known, and nothing otherwise. */
  lemma CountStep(t: Totals, a: MockAnswer)
    ensures Counted(Count(t, a)) == Counted(t) + (if Known(a) then 1 else 0)
    ensures !Known(a) ==> Count(t, a) == t
    ensures TotalsInRange(t) && AnswerInRange(a) ==> TotalsInRange(Count(t, a))
  {
  }

  /** Every answer is counted once exactly when every answer belongs to one of the four sections. */
  lemma {:induction false} TallyCountsAll(answers: seq<MockAnswer>)
    ensures Counted(Tally(answers)) == |answers| <==> forall i :: 0 <= i < |answers| ==> Known(answers[i])
    ensures Counted(Tally(answers)) <= |answers|
  {
    if answers != [] {
      var k := |answers| - 1;
      var prefix := answers[..k];
      TallyCountsAll(prefix);
      assert Tally(answers) == Count(Tally(prefix), answers[k]);
      CountStep(Tally(prefix), answers[k]);
      AllKnownSnoc(answers);
    }
  }

  lemma AllKnownSnoc(answers: seq<MockAnswer>)
    requires answers != []
    ensures var k := |answers| - 1;
      (forall i :: 0 <= i < |answers| ==> Known(answers[i])) <==>
      (forall i :: 0 <= i < k ==> Known(answers[..k][i])) && Known(answers[k])
  {
    var k := |answers| - 1;
    assert forall i :: 0 <= i < k ==> answers[..k][i] == answers[i];
  }

  /** An answer that lands in one of the four sections. */
  predicate Known(a: MockAnswer) {
    IsBucket(BucketName(a))
  }

  predicate BucketInRange(b: Bucket) {
    0.0 <= b.earned <= b.max
  }

  predicate TotalsInRange(t: Totals) {
    BucketInRange(t.speaking) && BucketInRange(t.reading) && BucketInRange(t.listening) && BucketInRange(t.writing)
  }

  /** Answers in range add up to section totals in range. */
  lemma TallyInRange(answers: seq<MockAnswer>)
    requires forall i :: 0 <= i < |answers| ==> AnswerInRange(answers[i])
    ensures TotalsInRange(Tally(answers))
  {
    TallySections(answers);
    SectionInRange(answers, "speaking");
    SectionInRange(answers, "reading");
    SectionInRange(answers, "listening");
    SectionInRange(answers, "writing");
  }

  lemma SectionInRange(answers: seq<MockAnswer>, name: string)
    requires forall i :: 0 <= i < |answers| ==> AnswerInRange(answers[i])
    ensures BucketInRange(Sum(InSection(answers, name)))
  {
    var s := InSection(answers, name);
    forall i | 0 <= i < |s|
      ensures AnswerInRange(s[i])
    {
      var j :| 0 <= j < |answers| && answers[j] == s[i];
    }
  }

  /** `calculatePTEScore`: a section's earned fraction mapped onto 10-90, and 10 for an empty section. */
  function PteScore(earned: real, max: real): (r: int)
    ensures max == 0.0 ==> r == 10
    ensures 0.0 <= earned <= max && max > 0.0 ==> 10 <= r <= 90
    ensures earned == max && max != 0.0 ==> r == 90
    ensures earned == 0.0 ==> r == 10
  {
    if max == 0.0 then 10
    else
      var percentage := (earned / max) * 100.0;
      var raw := 10.0 + (percentage / 100.0) * 80.0;
      assert percentage / 100.0 == earned / max;
      assert 0.0 <= earned <= max && max > 0.0 ==> 10.0 <= raw <= 90.0 by {
        if 0.0 <= earned <= max && max > 0.0 { DivUnit(earned, max); }
      }
      assert 0.0 <= earned <= max && max > 0.0 ==> 10 <= Round(raw) <= 90 by {
        if 0.0 <= earned <= max && max > 0.0 { RoundBetween(raw, 10, 90); }
      }
      assert earned == max ==> Round(raw) == 90 by {
        if earned == max { assert earned / max == 1.0; RoundInt(90); }
      }
      assert earned == 0.0 ==> Round(raw) == 10 by {
        RoundInt(10);
      }
      Round(raw)
  }

  /** A non-empty section scores 10 plus its earned fraction of 80, rounded. */
  lemma PteScoreFormula(earned: real, max: real)
    requires max != 0.0
    ensures PteScore(earned, max) == Round(10.0 + earned / max * 80.0)
  {
    assert ((earned / max) * 100.0) / 100.0 == earned / max;
  }

  /** The `scores` object built when the test completes. */
  datatype FinalScores = FinalScores(
    speaking: int, writing: int, reading: int, listening: int, overall: int,
    totalAnswered: nat, totalQuestions: nat, timeUsed: int)

  function Min4(a: int, b: int, c: int, d: int): int { MinInt(MinInt(a, b), MinInt(c, d)) }

  function Max4(a: int, b: int, c: int, d: int): int { MaxInt(MaxInt(a, b), MaxInt(c, d)) }

  /**
   * `handleTestComplete`'s scores: each section is the 10-90 score of the
   * answers that land in it, and the overall score the rounded mean of the
   * four, so between the lowest and the highest section score.
   */
  function FinalScoresOf(answers: seq<MockAnswer>, totalQuestions: nat, totalTimeRemaining: int): (r: FinalScores)
    ensures r.totalAnswered == |answers| && r.totalQuestions == totalQuestions
    ensures r.timeUsed == TotalTestDuration - totalTimeRemaining
    ensures r.overall == Round((r.speaking + r.writing + r.reading + r.listening) as real / 4.0)
    ensures Min4(r.speaking, r.writing, r.reading, r.listening) <= r.overall <= Max4(r.speaking, r.writing, r.reading, r.listening)
    ensures (forall i :: 0 <= i < |answers| ==> AnswerInRange(answers[i])) ==>
      && 10 <= r.speaking <= 90 && 10 <= r.writing <= 90
      && 10 <= r.reading <= 90 && 10 <= r.listening <= 90
      && 10 <= r.overall <= 90
  {
    assert (forall i :: 0 <= i < |answers| ==> AnswerInRange(answers[i])) ==> TotalsInRange(Tally(answers)) by {
      if forall i :: 0 <= i < |answers| ==> AnswerInRange(answers[i]) { TallyInRange(answers); }
    }
    ScoresFromTotals(Tally(answers), |answers|, totalQuestions, totalTimeRemaining)
  }

  /** Each section score is the 10-90 score of the answers that land in that section. */
  lemma FinalScoresBySection(answers: seq<MockAnswer>, totalQuestions: nat, totalTimeRemaining: int)
    ensures var r := FinalScoresOf(answers, totalQuestions, totalTimeRemaining);
      && (var s := Sum(InSection(answers, "speaking")); r.speaking == PteScore(s.earned, s.max))
      && (var s := Sum(InSection(answers, "writing")); r.writing == PteScore(s.earned, s.max))
      && (var s := Sum(InSection(answers, "reading")); r.reading == PteScore(s.earned, s.max))
      && (var s := Sum(InSection(answers, "listening")); r.listening == PteScore(s.earned, s.max))
  {
    TallySections(answers);
  }

  /** The four section scores of the totals and their rounded mean. */
  function ScoresFromTotals(t: Totals, answered: nat, totalQuestions: nat, totalTimeRemaining: int): (r: FinalScores)
    ensures r.totalAnswered == answered && r.totalQuestions == totalQuestions
    ensures r.timeUsed == TotalTestDuration - totalTimeRemaining
    ensures r.speaking == PteScore(t.speaking.earned, t.speaking.max) && r.writing == PteScore(t.writing.earned, t.writing.max)
    ensures r.reading == PteScore(t.reading.earned, t.reading.max) && r.listening == PteScore(t.listening.earned, t.listening.max)
    ensures r.overall == Round((r.speaking + r.writing + r.reading + r.listening) as real / 4.0)
    ensures Min4(r.speaking, r.writing, r.reading, r.listening) <= r.overall <= Max4(r.speaking, r.writing, r.reading, r.listening)
    ensures TotalsInRange(t) ==>
      && 10 <= r.speaking <= 90 && 10 <= r.writing <= 90
      && 10 <= r.reading <= 90 && 10 <= r.listening <= 90
      && 10 <= r.overall <= 90
  {
    var speaking := PteScore(t.speaking.earned, t.speaking.max);
    var writing := PteScore(t.writing.earned, t.writing.max);
    var reading := PteScore(t.reading.earned, t.reading.max);
    var listening := PteScore(t.listening.earned, t.listening.max);
    var mean := (speaking + writing + reading + listening) as real / 4.0;
    MeanOfFour(speaking, writing, reading, listening);
    FinalScores(speaking, writing, reading, listening, Round(mean), answered, totalQuestions,
                TotalTestDuration - totalTimeRemaining)
  }

  /** The rounded mean of four integers lies between the least and the greatest of them. */
  lemma MeanOfFour(a: int, b: int, c: int, d: int)
    ensures var m := Round((a + b + c + d) as real / 4.0);
      Min4(a, b, c, d) <= m <= Max4(a, b, c, d)
  {
    RoundBetween((a + b + c + d) as real / 4.0, Min4(a, b, c, d), Max4(a, b, c, d));
  }

  /**
   * The completion the page evidently intends after the last question: the
   * scores of every answer, the one just given included in its section.
   */
  function ScoresWithLastAnswer(before: seq<MockAnswer>, last: MockAnswer, totalQuestions: nat, totalTimeRemaining: int): (r: FinalScores)
    ensures r.totalAnswered == |before| + 1
    ensures r == ScoresFromTotals(Count(Tally(before), last), |before| + 1, totalQuestions, totalTimeRemaining)
  {
    assert (before + [last])[..|before|] == before;
    FinalScoresOf(before + [last], totalQuestions, totalTimeRemaining)
  }

  /**
   * A one-question test answered with full marks. As written,
   * `HandleAnswerSubmit` completes with the answers of the render before the
   * answer was appended, so the result shows no answer and an overall of 10;
   * counting the answer gives 1 answer and 30.
   */
  lemma LastAnswerDroppedAsWritten()
    ensures var a := MockAnswer("q1", "read-aloud", "speaking", MockSection.Recording, Some(15.0), Some(15.0), 12);
      && FinalScoresOf([], 1, TotalTestDuration).overall == 10
      && FinalScoresOf([], 1, TotalTestDuration).totalAnswered == 0
      && ScoresWithLastAnswer([], a, 1, TotalTestDuration).overall == 30
      && ScoresWithLastAnswer([], a, 1, TotalTestDuration).totalAnswered == 1
  {
    var a := MockAnswer("q1", "read-aloud", "speaking", MockSection.Recording, Some(15.0), Some(15.0), 12);
    assert PteScore(15.0, 15.0) == 90;
    RoundInt(30);
    RoundInt(10);
    assert (90 + 10 + 10 + 10) as real / 4.0 == 30.0;
    assert (10 + 10 + 10 + 10) as real / 4.0 == 10.0;
  }

  /**
   * The interval started by `StartTest` completes the test with the view of
   * the intro screen: as written, a test whose clock runs out shows no answer,
   * 10 in every section and overall, and no time used.
   */
  lemma TimeoutScoresNoAnswerAsWritten(totalQuestions: nat)
    ensures var r := FinalScoresOf([], totalQuestions, TotalTestDuration);
      && r.totalAnswered == 0 && r.timeUsed == 0 && r.overall == 10
      && r.speaking == 10 && r.writing == 10 && r.reading == 10 && r.listening == 10
  {
    RoundInt(10);
    assert (10 + 10 + 10 + 10) as real / 4.0 == 10.0;
  }

  /** The `answers.forEach` loop that fills the four section records. */
  method TallyAnswers(answers: seq<MockAnswer>) returns (totals: Totals)
    ensures totals == Tally(answers)
  {
    totals := NoTotals;
    for i := 0 to |answers|
      invariant totals == Tally(answers[..i])
    {
      assert answers[..i + 1][..i] == answers[..i];
      var ans := answers[i];
      var section := if ans.section == "speaking" && (ans.questionType == "summarize-written-text" || ans.questionType == "write-essay")
        then "writing" else ans.section;
      if section == "speaking" {
        totals := totals.(speaking := AddTo(totals.speaking, ans));
      } else if section == "reading" {
        totals := totals.(reading := AddTo(totals.reading, ans));
      } else if section == "listening" {
        totals := totals.(listening := AddTo(totals.listening, ans));
      } else if section == "writing" {
        totals := totals.(writing := AddTo(totals.writing, ans));
      }
    }
    assert answers[..|answers|] == answers;
  }

  /** `formatTime`: "h:mm:ss" from one hour up, "mm:ss" below. */
  function FormatTime(seconds: nat): (r: string)
    ensures seconds < 3600 ==>
      |r| == 5 && r[2] == ':' && AllDigits(r[..2]) && AllDigits(r[3..]) && StringToNat(r[..2]) * 60 + StringToNat(r[3..]) == seconds
    ensures seconds >= 3600 ==>
      var h := NatToString(seconds / 3600);
      && |r| == |h| + 6 && r[|h|] == ':' && r[|h| + 3] == ':'
      && AllDigits(r[..|h|]) && AllDigits(r[|h| + 1..|h| + 3]) && AllDigits(r[|h| + 4..])
      && StringToNat(r[..|h|]) * 3600 + StringToNat(r[|h| + 1..|h| + 3]) * 60 + StringToNat(r[|h| + 4..]) == seconds
  {
    var hrs := seconds / 3600;
    var mins := (seconds % 3600) / 60;
    var secs := seconds % 60;
    ClockParts(seconds);
    if hrs > 0 then HoursClock(hrs, mins, secs) else MinutesClock(mins, secs)
  }

  /** Whole hours, minutes below 60 and seconds below 60 add back up to the seconds. */
  lemma ClockParts(seconds: nat)
    ensures (seconds % 3600) / 60 < 60 && seconds % 60 < 60
    ensures (seconds / 3600) * 3600 + ((seconds % 3600) / 60) * 60 + seconds % 60 == seconds
    ensures seconds < 3600 <==> seconds / 3600 == 0
  {
    var r := seconds % 3600;
    assert r == (r / 60) * 60 + r % 60;
    assert r % 60 == seconds % 60 by {
      assert seconds == (seconds / 3600) * 3600 + r;
      assert seconds == ((seconds / 3600) * 60 + r / 60) * 60 + r % 60;
    }
  }

  /** "mm:ss". */
  function MinutesClock(mins: nat, secs: nat): (r: string)
    requires mins < 60 && secs < 60
    ensures |r| == 5 && r[2] == ':' && AllDigits(r[..2]) && AllDigits(r[3..])
    ensures StringToNat(r[..2]) == mins && StringToNat(r[3..]) == secs
  {
    var mm := Pad2(mins);
    var ss := Pad2(secs);
    var r := mm + ":" + ss;
    assert r[..2] == mm && r[3..] == ss;
    r
  }

  /** "h:mm:ss". */
  function HoursClock(hrs: nat, mins: nat, secs: nat): (r: string)
    requires mins < 60 && secs < 60
    ensures var h := NatToString(hrs);
      && |r| == |h| + 6 && r[|h|] == ':' && r[|h| + 3] == ':'
      && AllDigits(r[..|h|]) && AllDigits(r[|h| + 1..|h| + 3]) && AllDigits(r[|h| + 4..])
      && StringToNat(r[..|h|]) == hrs && StringToNat(r[|h| + 1..|h| + 3]) == mins && StringToNat(r[|h| + 4..]) == secs
  {
    var h := NatToString(hrs);
    var mm := Pad2(mins);
    var ss := Pad2(secs);
    var r := h + ":" + mm + ":" + ss;
    NatToStringRoundTrip(hrs);
    assert r[..|h|] == h && r[|h| + 1..|h| + 3] == mm && r[|h| + 4..] == ss;
    r
  }

  /** The index of the section with this id, or -1 (`findIndex`). */
  function SectionIndexOf(id: string): (r: int)
    ensures -1 <= r < |TestSections|
    ensures r >= 0 ==> TestSections[r].id == id
    ensures r == -1 <==> forall j :: 0 <= j < |TestSections| ==> TestSections[j].id != id
  {
    if TestSections[0].id == id then 0
    else if TestSections[1].id == id then 1
    else if TestSections[2].id == id then 2
    else -1
  }

  datatype Phase = Intro | Testing | Break | Completed

  /** The answer `handleAnswerSubmit` records for the current question. */
  function NewAnswer(q: TestQuestion, answer: MockSection.Answer, score: Option<real>, maxScore: Option<real>, timeSpent: int): MockAnswer {
    MockAnswer(q.id, q.questionType, q.section, answer, score, maxScore, timeSpent)
  }

  /** The answer `handleSkipQuestion` records: nothing, 0 points, out of the question's maximum or 1. */
  function SkippedAnswer(q: TestQuestion, timeSpent: int): (a: MockAnswer)
    ensures a.answer == MockSection.NoAnswer && a.score == Some(0.0) && NumberOr(a.maxScore, 1.0) == NumberOr(q.maxScore, 1.0)
    ensures NumberOr(q.maxScore, 1.0) >= 0.0 ==> AnswerInRange(a)
  {
    MockAnswer(q.id, q.questionType, q.section, MockSection.NoAnswer, Some(0.0), Some(NumberOr(q.maxScore, 1.0)), timeSpent)
  }

  /**
   * What a callback of the page sees of the render that created it: the
   * answers and the test clock of that render.
   */
  datatype View = View(answers: seq<MockAnswer>, totalTimeRemaining: int)

  /**
   * The page's state. React hands each callback the state of the render
   * that created it: `handleAnswerSubmit` and `handleSkipQuestion` are made
   * again only when the question index changes, and the clock's interval
   * only when the phase changes, so the `handleTestComplete` each of them
   * calls scores the view of that render, kept here as `handlerView` and
   * `timerView`.
   */
  class MockTestSession {
    var phase: Phase
    var currentSectionIndex: nat
    var currentQuestionIndex: nat
    var totalTimeRemaining: int
    var sectionTimeRemaining: int
    /** Starts false and no handler of the page sets it; the clock still reads it. */
    var isPaused: bool
    var answers: seq<MockAnswer>
    var testQuestions: seq<TestQuestion>
    var finalScores: Option<FinalScores>
    var questionStartTime: int
    /** The render the answer and skip handlers were last created in. */
    var handlerView: View
    /** The render the clock's interval was last started in. */
    var timerView: View

    /**
     * The indices point into the plan and the question list, the clocks stay
     * within their ranges, the intro screen has no answers and a full clock,
     * and until the test completes the answer handlers see every answer given.
     */
    predicate Valid()
      reads this
    {
      && currentSectionIndex < |TestSections|
      && (currentQuestionIndex < |testQuestions| || currentQuestionIndex == 0)
      && 0 <= totalTimeRemaining <= TotalTestDuration
      && sectionTimeRemaining >= 0
      && (phase == Intro ==> answers == [] && totalTimeRemaining == TotalTestDuration)
      && (phase != Completed ==> handlerView.answers == answers)
    }

    constructor(questions: seq<TestQuestion>, now: int)
      ensures phase == Intro && currentSectionIndex == 0 && currentQuestionIndex == 0
      ensures totalTimeRemaining == TotalTestDuration && sectionTimeRemaining == 0 && !isPaused
      ensures answers == [] && testQuestions == questions && finalScores == None && questionStartTime == now
      ensures handlerView == View([], TotalTestDuration) && timerView == View([], TotalTestDuration)
      ensures Valid()
    {
      phase := Intro;
      currentSectionIndex := 0;
      currentQuestionIndex := 0;
      totalTimeRemaining := TotalTestDuration;
      sectionTimeRemaining := 0;
      isPaused := false;
      answers := [];
      testQuestions := questions;
      finalScores := None;
      questionStartTime := now;
      handlerView := View([], TotalTestDuration);
      timerView := View([], TotalTestDuration);
    }

    /**
     * `handleStartTest`, with the effects that set the section clock and
     * start the interval. Its button is on the intro screen only.
     */
    method StartTest(now: int)
      requires Valid() && phase == Intro
      modifies this`phase, this`questionStartTime, this`sectionTimeRemaining, this`timerView
      ensures phase == Testing && questionStartTime == now
      ensures sectionTimeRemaining == TestSections[currentSectionIndex].duration * 60
      ensures timerView == View(answers, totalTimeRemaining) == View([], TotalTestDuration)
      ensures Valid()
    {
      phase := Testing;
      questionStartTime := now;
      sectionTimeRemaining := TestSections[currentSectionIndex].duration * 60;
      timerView := View(answers, totalTimeRemaining);
    }

    /** `handleTestComplete` as the calling closure holds it: it scores the answers and the clock of `view`. */
    method HandleTestComplete(view: View)
      modifies this`phase, this`finalScores
      ensures phase == Completed
      ensures finalScores == Some(FinalScoresOf(view.answers, |testQuestions|, view.totalTimeRemaining))
    {
      phase := Completed;
      var totals := TallyAnswers(view.answers);
      finalScores := Some(ScoresFromTotals(totals, |view.answers|, |testQuestions|, view.totalTimeRemaining));
    }

    /** The "End Test" button, once confirmed: `handleTestComplete` of the current render. */
    method EndTest(confirmed: bool)
      requires Valid()
      modifies this`phase, this`finalScores
      ensures confirmed ==> phase == Completed && finalScores == Some(FinalScoresOf(answers, |testQuestions|, totalTimeRemaining))
      ensures !confirmed ==> phase == old(phase) && finalScores == old(finalScores)
      ensures Valid()
    {
      if confirmed {
        HandleTestComplete(View(answers, totalTimeRemaining));
      }
    }

    /**
     * Moving on from a question of section `current` to one of section
     * `next`: a different, known section becomes the current one, and the
     * effect on the section index restarts the section clock during the
     * test. That effect does not run again when the index is set to its own
     * value, so then the clock keeps running.
     */
    method EnterSection(current: string, next: string)
      modifies this`currentSectionIndex, this`sectionTimeRemaining
      ensures var target := SectionIndexOf(next);
        && (next != current && target != -1 ==>
              currentSectionIndex == target && sectionTimeRemaining ==
                (if phase == Testing && target != old(currentSectionIndex) then TestSections[target].duration * 60
                 else old(sectionTimeRemaining)))
        && (next == current || target == -1 ==>
              currentSectionIndex == old(currentSectionIndex) && sectionTimeRemaining == old(sectionTimeRemaining))
    {
      if next != current {
        var nextSectionIdx := SectionIndexOf(next);
        if nextSectionIdx != -1 {
          if phase == Testing && nextSectionIdx != currentSectionIndex {
            sectionTimeRemaining := TestSections[nextSectionIdx].duration * 60;
          }
          currentSectionIndex := nextSectionIdx;
        }
      }
    }

    /**
     * `handleAnswerSubmit`: one answer is appended; the index moves to the
     * next question, switching section when the next question's section
     * differs, or the test completes after the last question, scoring the
     * handler's own view, which the new answer is not part of. The question
     * card is on the testing screen only.
     */
    method HandleAnswerSubmit(answer: MockSection.Answer, score: Option<real>, maxScore: Option<real>, now: int)
      requires Valid() && phase != Intro
      modifies this`answers, this`currentQuestionIndex, this`questionStartTime, this`currentSectionIndex,
               this`sectionTimeRemaining, this`handlerView, this`phase, this`finalScores
      ensures Valid()
      ensures testQuestions == old(testQuestions) && isPaused == old(isPaused) && timerView == old(timerView)
      ensures totalTimeRemaining == old(totalTimeRemaining)
      ensures old(currentQuestionIndex) >= |testQuestions| ==>
        answers == old(answers) && phase == old(phase) && finalScores == old(finalScores)
        && currentQuestionIndex == old(currentQuestionIndex) && currentSectionIndex == old(currentSectionIndex)
        && sectionTimeRemaining == old(sectionTimeRemaining) && questionStartTime == old(questionStartTime)
        && handlerView == old(handlerView)
      ensures old(currentQuestionIndex) < |testQuestions| ==>
        answers == old(answers) + [NewAnswer(testQuestions[old(currentQuestionIndex)], answer, score, maxScore,
                                             (now - old(questionStartTime)) / 1000)]
      ensures old(currentQuestionIndex) + 1 < |testQuestions| ==>
        var current := testQuestions[old(currentQuestionIndex)];
        var next := testQuestions[old(currentQuestionIndex) + 1];
        var target := SectionIndexOf(next.section);
        && currentQuestionIndex == old(currentQuestionIndex) + 1 && questionStartTime == now
        && phase == old(phase) && finalScores == old(finalScores)
        && handlerView == View(answers, totalTimeRemaining)
        && (next.section != current.section && target != -1 ==>
              currentSectionIndex == target && sectionTimeRemaining ==
                (if phase == Testing && target != old(currentSectionIndex) then TestSections[target].duration * 60
                 else old(sectionTimeRemaining)))
        && (next.section == current.section || target == -1 ==>
              currentSectionIndex == old(currentSectionIndex) && sectionTimeRemaining == old(sectionTimeRemaining))
      ensures old(currentQuestionIndex) + 1 == |testQuestions| ==>
        && phase == Completed
        && finalScores == Some(FinalScoresOf(old(handlerView).answers, |testQuestions|, old(handlerView).totalTimeRemaining))
        && (old(phase) != Completed ==> finalScores == Some(FinalScoresOf(old(answers), |testQuestions|, old(handlerView).totalTimeRemaining)))
        && currentQuestionIndex == old(currentQuestionIndex) && currentSectionIndex == old(currentSectionIndex)
        && sectionTimeRemaining == old(sectionTimeRemaining) && questionStartTime == old(questionStartTime)
        && handlerView == old(handlerView)
    {
      if currentQuestionIndex >= |testQuestions| {
        return;
      }
      var currentQuestion := testQuestions[currentQuestionIndex];
      // Math.floor of a quotient by a positive divisor is Dafny's integer division.
      var timeSpent := (now - questionStartTime) / 1000;
      answers := answers + [NewAnswer(currentQuestion, answer, score, maxScore, timeSpent)];
      if currentQuestionIndex < |testQuestions| - 1 {
        var nextQuestion := testQuestions[currentQuestionIndex + 1];
        currentQuestionIndex := currentQuestionIndex + 1;
        questionStartTime := now;
        EnterSection(currentQuestion.section, nextQuestion.section);
        handlerView := View(answers, totalTimeRemaining);
      } else {
        HandleTestComplete(handlerView);
      }
    }

    /**
     * `handleSkipQuestion`: a null answer worth 0 is appended, then the index
     * moves on, or the test completes, scoring the handler's own view, which
     * the skip is not part of. The skip button is on the testing screen only.
     */
    method HandleSkipQuestion(now: int)
      requires Valid() && phase != Intro
      modifies this`answers, this`currentQuestionIndex, this`questionStartTime, this`phase, this`finalScores, this`handlerView
      ensures Valid()
      ensures old(currentQuestionIndex) >= |testQuestions| ==>
        answers == old(answers) && currentQuestionIndex == old(currentQuestionIndex) && handlerView == old(handlerView)
        && phase == old(phase) && finalScores == old(finalScores) && questionStartTime == old(questionStartTime)
      ensures old(currentQuestionIndex) < |testQuestions| ==>
        answers == old(answers) + [SkippedAnswer(testQuestions[old(currentQuestionIndex)], (now - old(questionStartTime)) / 1000)]
      ensures old(currentQuestionIndex) + 1 < |testQuestions| ==>
        currentQuestionIndex == old(currentQuestionIndex) + 1 && questionStartTime == now
        && phase == old(phase) && finalScores == old(finalScores)
        && handlerView == View(answers, totalTimeRemaining)
      ensures old(currentQuestionIndex) + 1 == |testQuestions| ==>
        && phase == Completed
        && finalScores == Some(FinalScoresOf(old(handlerView).answers, |testQuestions|, old(handlerView).totalTimeRemaining))
        && (old(phase) != Completed ==> finalScores == Some(FinalScoresOf(old(answers), |testQuestions|, old(handlerView).totalTimeRemaining)))
        && currentQuestionIndex == old(currentQuestionIndex) && questionStartTime == old(questionStartTime)
        && handlerView == old(handlerView)
    {
      if currentQuestionIndex >= |testQuestions| {
        return;
      }
      var currentQuestion := testQuestions[currentQuestionIndex];
      var timeSpent := (now - questionStartTime) / 1000;
      answers := answers + [SkippedAnswer(currentQuestion, timeSpent)];
      if currentQuestionIndex < |testQuestions| - 1 {
        currentQuestionIndex := currentQuestionIndex + 1;
        questionStartTime := now;
        handlerView := View(answers, totalTimeRemaining);
      } else {
        HandleTestComplete(handlerView);
      }
    }

    /** The "Previous" button; a new index gives the answer handlers a new view. */
    method Previous()
      requires Valid()
      modifies this`currentQuestionIndex, this`handlerView
      ensures currentQuestionIndex == MaxInt(0, old(currentQuestionIndex) - 1)
      ensures handlerView == if currentQuestionIndex != old(currentQuestionIndex) then View(answers, totalTimeRemaining) else old(handlerView)
      ensures Valid()
    {
      var previous := MaxInt(0, currentQuestionIndex - 1);
      if previous != currentQuestionIndex {
        currentQuestionIndex := previous;
        handlerView := View(answers, totalTimeRemaining);
      }
    }

    /**
     * One second of the test clock while testing and not paused: at zero the
     * test completes, scoring the interval's view; the section clock counts
     * down to zero and stops there.
     */
    method Tick()
      requires Valid()
      modifies this`totalTimeRemaining, this`sectionTimeRemaining, this`phase, this`finalScores
      ensures Valid()
      ensures old(phase) != Testing || isPaused ==>
        totalTimeRemaining == old(totalTimeRemaining) && sectionTimeRemaining == old(sectionTimeRemaining)
        && phase == old(phase) && finalScores == old(finalScores)
      ensures old(phase) == Testing && !isPaused ==>
        && sectionTimeRemaining == MaxInt(0, old(sectionTimeRemaining) - 1)
        && (old(totalTimeRemaining) <= 0 ==>
              totalTimeRemaining == 0 && phase == Completed
              && finalScores == Some(FinalScoresOf(timerView.answers, |testQuestions|, timerView.totalTimeRemaining)))
        && (old(totalTimeRemaining) > 0 ==>
              totalTimeRemaining == old(totalTimeRemaining) - 1 && phase == old(phase) && finalScores == old(finalScores))
    {
      if phase != Testing || isPaused {
        return;
      }
      if totalTimeRemaining <= 0 {
        HandleTestComplete(timerView);
        totalTimeRemaining := 0;
      } else {
        totalTimeRemaining := totalTimeRemaining - 1;
      }
      sectionTimeRemaining := MaxInt(0, sectionTimeRemaining - 1);
    }
  }
}
