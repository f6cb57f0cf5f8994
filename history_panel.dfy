/**
 * The speaking history panel (src/components/speaking/HistoryPanel.tsx):
 * the colour and label of a score, the practice time in minutes and the
 * list of recent attempts.
 */
module HistoryPanel {
  import opened Wrappers
  import opened JsMath
  import UserHistory

  /** The colour classes and the labels, from the highest band to the lowest. */
  const Colors: seq<string> := ["text-green-600 bg-green-100", "text-blue-600 bg-blue-100",
    "text-yellow-600 bg-yellow-100", "text-orange-600 bg-orange-100", "text-red-600 bg-red-100"]
  const Labels: seq<string> := ["Excellent", "Very Good", "Good", "Fair", "Needs Work"]

  /** `getScoreColor`. */
  function ScoreColor(score: int): (color: string)
    ensures color in Colors
    ensures color == Colors[0] <==> score >= 79
    ensures color == Colors[4] <==> score < 35
  {
    if score >= 79 then "text-green-600 bg-green-100"
    else if score >= 65 then "text-blue-600 bg-blue-100"
    else if score >= 50 then "text-yellow-600 bg-yellow-100"
    else if score >= 35 then "text-orange-600 bg-orange-100"
    else "text-red-600 bg-red-100"
  }

  /** `getScoreLabel`. */
  function ScoreLabel(score: int): (text: string)
    ensures text in Labels
    ensures text == "Excellent" <==> score >= 79
    ensures text == "Very Good" <==> 65 <= score < 79
    ensures text == "Good" <==> 50 <= score < 65
    ensures text == "Fair" <==> 35 <= score < 50
    ensures text == "Needs Work" <==> score < 35
  {
    if score >= 79 then "Excellent"
    else if score >= 65 then "Very Good"
    else if score >= 50 then "Good"
    else if score >= 35 then "Fair"
    else "Needs Work"
  }

  /** The band of a colour or label: its place in its list. */
  function BandOf(names: seq<string>, name: string): (k: int)
    ensures -1 <= k < |names|
    ensures 0 <= k ==> names[k] == name
    ensures k == -1 <==> name !in names
  {
    if name !in names then -1
    else if names[0] == name then 0
    else
      var k := BandOf(names[1..], name);
      assert names == [names[0]] + names[1..];
      1 + k
  }

  /** The colour and the label of a score always sit in the same band. */
  lemma ColorAndLabelAgree(score: int)
    ensures BandOf(Colors, ScoreColor(score)) == BandOf(Labels, ScoreLabel(score))
  {
    var k := if score >= 79 then 0 else if score >= 65 then 1 else if score >= 50 then 2 else if score >= 35 then 3 else 4;
    assert ScoreColor(score) == Colors[k] && ScoreLabel(score) == Labels[k];
    BandOfFirst(Colors, k);
    BandOfFirst(Labels, k);
  }

  /** A name that does not occur earlier in the list has its own place as its band. */
  lemma {:induction false} BandOfFirst(names: seq<string>, k: int)
    requires 0 <= k < |names| && forall i :: 0 <= i < k ==> names[i] != names[k]
    ensures BandOf(names, names[k]) == k
  {
    if k > 0 {
      assert names[1..][k - 1] == names[k];
      BandOfFirst(names[1..], k - 1);
    }
  }

  /** The seconds of the attempts, a missing (or zero) duration counting as 0. */
  function TotalSeconds(durations: seq<Option<int>>): int {
    if durations == [] then 0
    else TotalSeconds(durations[..|durations| - 1]) + NumberOrZero(durations[|durations| - 1])
  }

  /** `duration_seconds || 0`. */
  function NumberOrZero(d: Option<int>): (r: int)
    ensures d.None? ==> r == 0
    ensures d.Some? ==> r == d.value
  {
    if d.Some? then d.value else 0
  }

  function Durations(attempts: seq<UserHistory.SpeakingAttempt>): (ds: seq<Option<int>>)
    ensures |ds| == |attempts| && forall i :: 0 <= i < |ds| ==> ds[i] == attempts[i].durationSeconds
  {
    seq(|attempts|, i requires 0 <= i < |attempts| => attempts[i].durationSeconds)
  }

  /** The practice time shown: the total seconds over 60, rounded to whole minutes. */
  function PracticeMinutes(attempts: seq<UserHistory.SpeakingAttempt>): (m: int)
    ensures var total := TotalSeconds(Durations(attempts)) as real;
      m as real * 60.0 - 30.0 <= total < m as real * 60.0 + 30.0
  {
    Round(TotalSeconds(Durations(attempts)) as real / 60.0)
  }

  /** Attempts without a recorded duration add nothing to the total. */
  lemma {:induction false} MissingDurationsAddNothing(ds: seq<Option<int>>, more: nat)
    ensures TotalSeconds(ds + seq(more, _ => None)) == TotalSeconds(ds)
    decreases more
  {
    if more > 0 {
      var padded := ds + seq(more, _ => None);
      assert padded[..|padded| - 1] == ds + seq(more - 1, _ => None);
      MissingDurationsAddNothing(ds, more - 1);
    } else {
      assert ds + seq(0, _ => None) == ds;
    }
  }

  /** With every duration between 0 and `d` seconds, the total is between 0 and n times `d`. */
  lemma {:induction false} TotalSecondsBetween(ds: seq<Option<int>>, d: nat)
    requires forall i :: 0 <= i < |ds| ==> ds[i].None? || 0 <= ds[i].value <= d
    ensures 0 <= TotalSeconds(ds) <= |ds| * d
  {
    if ds != [] {
      TotalSecondsBetween(ds[..|ds| - 1], d);
    }
  }

  const RecentLimit: int := 20

  /** The attempts listed: the newest twenty at most, in order. */
  function RecentList(attempts: seq<UserHistory.SpeakingAttempt>): (r: seq<UserHistory.SpeakingAttempt>)
    ensures |r| == MinInt(RecentLimit, |attempts|)
    ensures r == attempts[..|r|]
  {
    UserHistory.RecentAttempts(attempts, Some(RecentLimit))
  }
}
