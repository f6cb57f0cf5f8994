/**
 * The mock-test certificate (src/components/mocktest/MockTestCertificate.tsx):
 * the level and colour bands of a score, the time-used label, the summary
 * message and the strongest and weakest skills.
 */
module Certificate {
  import opened JsMath
  import opened Text

  /** The level names from the highest band to the lowest. */
  const Levels: seq<string> := ["Expert", "Advanced", "Proficient", "Intermediate", "Basic", "Beginner"]

  /** The lower bound of each level's band (the last band has none). */
  const LevelFloors: seq<int> := [85, 79, 65, 50, 35]

  /** `getScoreLevel`. */
  function ScoreLevel(score: int): (level: string)
    ensures level in Levels
    ensures level == "Expert" <==> score >= 85
    ensures level == "Advanced" <==> 79 <= score < 85
    ensures level == "Proficient" <==> 65 <= score < 79
    ensures level == "Intermediate" <==> 50 <= score < 65
    ensures level == "Basic" <==> 35 <= score < 50
    ensures level == "Beginner" <==> score < 35
  {
    if score >= 85 then "Expert"
    else if score >= 79 then "Advanced"
    else if score >= 65 then "Proficient"
    else if score >= 50 then "Intermediate"
    else if score >= 35 then "Basic"
    else "Beginner"
  }

  /** A level's place in `Levels`; 0 is the highest. */
  function LevelRank(level: string): (k: nat)
    ensures level in Levels ==> k < |Levels| && Levels[k] == level
  {
    if level == "Expert" then 0
    else if level == "Advanced" then 1
    else if level == "Proficient" then 2
    else if level == "Intermediate" then 3
    else if level == "Basic" then 4
    else 5
  }

  /** A higher score never gets a lower level. */
  lemma ScoreLevelMonotone(x: int, y: int)
    requires x <= y
    ensures LevelRank(ScoreLevel(y)) <= LevelRank(ScoreLevel(x))
  {
  }

  /** Each level is reached exactly from its floor upward to the next floor. */
  lemma ScoreLevelFloors(i: nat)
    requires i < |LevelFloors|
    ensures ScoreLevel(LevelFloors[i]) == Levels[i]
    ensures ScoreLevel(LevelFloors[i] - 1) == Levels[i + 1]
  {
  }

  /** `getScoreColor`. */
  function ScoreColor(score: int): (color: string)
    ensures color == "text-success" <==> score >= 79
    ensures color == "text-primary" <==> 65 <= score < 79
    ensures color == "text-warning" <==> 50 <= score < 65
    ensures color == "text-destructive" <==> score < 50
  {
    if score >= 79 then "text-success"
    else if score >= 65 then "text-primary"
    else if score >= 50 then "text-warning"
    else "text-destructive"
  }

  /** The success colour goes exactly with the two highest levels. */
  lemma SuccessColorMeansAdvanced(score: int)
    ensures ScoreColor(score) == "text-success" <==> ScoreLevel(score) in ["Expert", "Advanced"]
  {
  }

  /** `formatTime`: whole hours and the minutes left over, as "Hh Mm". */
  function FormatTime(seconds: int): (r: string)
    ensures seconds >= 0 ==>
      var h := seconds / 3600;
      var m := (seconds % 3600) / 60;
      && r == NatToString(h) + "h " + NatToString(m) + "m"
      && 0 <= m < 60
      && h * 3600 + m * 60 <= seconds < h * 3600 + m * 60 + 60
  {
    var hrs := seconds / 3600;
    var rem := if seconds >= 0 then seconds % 3600 else -((-seconds) % 3600);
    var mins := rem / 60;
    assert seconds >= 0 ==> seconds == hrs * 3600 + rem && rem == mins * 60 + rem % 60;
    IntToString(hrs) + "h " + IntToString(mins) + "m"
  }

  const ExcellentMessage: string := "Excellent! You've achieved a score suitable for most university admissions."
  const ProgressMessage: string := "Great progress! You're approaching the target score for many institutions."
  const PracticeMessage: string := "Keep practicing! Focus on your weaker areas to improve your overall score."

  /** The performance-summary messages shown for an overall score: the three guards are disjoint and cover every score. */
  function SummaryMessages(overall: int): (shown: seq<string>)
    ensures |shown| == 1
    ensures shown[0] == ExcellentMessage <==> overall >= 79
    ensures shown[0] == ProgressMessage <==> 65 <= overall < 79
    ensures shown[0] == PracticeMessage <==> overall < 65
  {
    (if overall >= 79 then [ExcellentMessage] else [])
    + (if overall >= 65 && overall < 79 then [ProgressMessage] else [])
    + (if overall < 65 then [PracticeMessage] else [])
  }

  /** An entry of `skillScores`, with its place in that list. */
  datatype SkillEntry = SkillEntry(name: string, score: int, position: nat)

  /** `skillScores`: Speaking, Writing, Reading, Listening in that order. */
  function SkillEntries(speaking: int, writing: int, reading: int, listening: int): (s: seq<SkillEntry>)
    ensures |s| == 4 && forall i :: 0 <= i < 4 ==> s[i].position == i
    ensures PositionsIncrease(s)
    ensures s[0].name == "Speaking" && s[0].score == speaking && s[1].name == "Writing" && s[1].score == writing
    ensures s[2].name == "Reading" && s[2].score == reading && s[3].name == "Listening" && s[3].score == listening
  {
    [SkillEntry("Speaking", speaking, 0), SkillEntry("Writing", writing, 1),
     SkillEntry("Reading", reading, 2), SkillEntry("Listening", listening, 3)]
  }

  /**
   * The order `sort((a, b) => b.score - a.score)` leaves: higher scores
   * first, and, the sort being stable, equal scores in list order.
   */
  predicate Precedes(x: SkillEntry, y: SkillEntry) {
    x.score > y.score || (x.score == y.score && x.position <= y.position)
  }

  predicate SortedDescending(s: seq<SkillEntry>) {
    forall p, q :: 0 <= p < q < |s| ==> Precedes(s[p], s[q])
  }

  predicate PositionsIncrease(s: seq<SkillEntry>) {
    forall p, q :: 0 <= p < q < |s| ==> s[p].position < s[q].position
  }

  /** Puts `x`, listed before every entry of `s`, ahead of the first entry it does not score below. */
  function Insert(x: SkillEntry, s: seq<SkillEntry>): (r: seq<SkillEntry>)
    requires SortedDescending(s)
    requires forall i :: 0 <= i < |s| ==> x.position < s[i].position
    ensures SortedDescending(r)
    ensures multiset(r) == multiset(s) + multiset{x}
    ensures |r| == |s| + 1
  {
    if s == [] || s[0].score <= x.score then
      assert forall i :: 0 <= i < |s| ==> Precedes(x, s[i]) by {
        forall i | 0 <= i < |s|
          ensures Precedes(x, s[i])
        {
          assert i == 0 || Precedes(s[0], s[i]);
        }
      }
      ConsSorted(x, s);
      [x] + s
    else
      var rest := Insert(x, s[1..]);
      HeadBeforeInserted(x, s, rest);
      ConsSorted(s[0], rest);
      [s[0]] + rest
  }

  /** The head of a sorted list that outscores `x` precedes everything of the tail with `x` inserted. */
  lemma HeadBeforeInserted(x: SkillEntry, s: seq<SkillEntry>, rest: seq<SkillEntry>)
    requires s != [] && SortedDescending(s) && s[0].score > x.score
    requires multiset(rest) == multiset(s[1..]) + multiset{x}
    ensures multiset([s[0]] + rest) == multiset(s) + multiset{x}
    ensures forall i :: 0 <= i < |rest| ==> Precedes(s[0], rest[i])
  {
    assert s == [s[0]] + s[1..];
    forall i | 0 <= i < |rest|
      ensures Precedes(s[0], rest[i])
    {
      assert rest[i] in multiset(rest);
      if rest[i] != x {
        assert rest[i] in multiset(s[1..]);
        var k :| 0 <= k < |s[1..]| && s[1..][k] == rest[i];
        assert s[k + 1] == rest[i];
      }
    }
  }

  /** An entry that precedes every entry of a sorted list can be put in front of it. */
  lemma ConsSorted(h: SkillEntry, s: seq<SkillEntry>)
    requires SortedDescending(s)
    requires forall i :: 0 <= i < |s| ==> Precedes(h, s[i])
    ensures SortedDescending([h] + s)
  {
    var r := [h] + s;
    forall p, q | 0 <= p < q < |r|
      ensures Precedes(r[p], r[q])
    {
      assert r[q] == s[q - 1];
      if p > 0 {
        assert r[p] == s[p - 1];
      }
    }
  }

  /** The copied list sorted by score, highest first. */
  function SortDescending(s: seq<SkillEntry>): (r: seq<SkillEntry>)
    requires PositionsIncrease(s)
    ensures SortedDescending(r)
    ensures multiset(r) == multiset(s)
    ensures |r| == |s|
  {
    if s == [] then []
    else
      var rest := SortDescending(s[1..]);
      assert s == [s[0]] + s[1..];
      assert forall i :: 0 <= i < |rest| ==> s[0].position < rest[i].position by {
        forall i | 0 <= i < |rest|
          ensures s[0].position < rest[i].position
        {
          assert rest[i] in multiset(s[1..]);
        }
      }
      Insert(s[0], rest)
  }

  /** In a list sorted highest first, the first entry precedes every entry and the last follows every entry. */
  lemma FirstAndLast(entries: seq<SkillEntry>, sorted: seq<SkillEntry>)
    requires sorted != [] && SortedDescending(sorted) && multiset(sorted) == multiset(entries)
    ensures sorted[0] in entries && sorted[|sorted| - 1] in entries
    ensures forall e :: e in entries ==> Precedes(sorted[0], e) && Precedes(e, sorted[|sorted| - 1])
  {
    forall e | e in entries
      ensures Precedes(sorted[0], e) && Precedes(e, sorted[|sorted| - 1])
    {
      assert e in multiset(sorted);
      var k :| 0 <= k < |sorted| && sorted[k] == e;
    }
    assert sorted[0] in multiset(entries);
    assert sorted[|sorted| - 1] in multiset(entries);
  }

  /**
   * The strongest skill is the first after sorting and the weakest the last:
   * the strongest has the highest score, the earliest listed on a tie; the
   * weakest has the lowest, the latest listed on a tie.
   */
  lemma StrongestAndWeakest(speaking: int, writing: int, reading: int, listening: int)
    ensures var entries := SkillEntries(speaking, writing, reading, listening);
      var sorted := SortDescending(entries);
      && sorted[0] in entries && sorted[3] in entries
      && (forall e :: e in entries ==> Precedes(sorted[0], e) && Precedes(e, sorted[3]))
      && sorted[0].score >= sorted[3].score
  {
    var entries := SkillEntries(speaking, writing, reading, listening);
    var sorted := SortDescending(entries);
    assert |sorted| == 4;
    FirstAndLast(entries, sorted);
  }
}
