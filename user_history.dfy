/**
 * The speaking history hook (src/hooks/useUserHistory.ts): the attempts of
 * the signed-in user, newest first, the selectors over them, and saving a
 * scored attempt.
 *
 * The `speaking_attempts` table is a map from user id to that user's rows,
 * newest first; the signed-in user, the new row's id and timestamp and the
 * failure of a query are parameters.
 */
module UserHistory {
  import opened Wrappers
  import opened JsMath

  datatype Analysis = Analysis(strengths: seq<string>, improvements: seq<string>, tips: seq<string>)

  /** A stored row: `feedback` and `detailed_analysis` may be null. */
  datatype Row = Row(
    id: string, questionId: string, testType: string, spokenText: Option<string>,
    overallScore: int, contentScore: int, fluencyScore: int, pronunciationScore: int,
    feedback: Option<seq<string>>, detailedAnalysis: Option<Analysis>,
    durationSeconds: Option<int>, createdAt: string)

  /** `SpeakingAttempt`: a row with the missing lists filled in. */
  datatype SpeakingAttempt = SpeakingAttempt(
    id: string, questionId: string, testType: string, spokenText: Option<string>,
    overallScore: int, contentScore: int, fluencyScore: int, pronunciationScore: int,
    feedback: seq<string>, detailedAnalysis: Analysis,
    durationSeconds: Option<int>, createdAt: string)

  /** The transform `fetchAttempts` applies to each row. */
  function Transform(row: Row): (a: SpeakingAttempt)
    ensures a.feedback == (if row.feedback.Some? then row.feedback.value else [])
    ensures a.detailedAnalysis == (if row.detailedAnalysis.Some? then row.detailedAnalysis.value else Analysis([], [], []))
    ensures a.id == row.id && a.questionId == row.questionId && a.testType == row.testType
    ensures a.spokenText == row.spokenText && a.durationSeconds == row.durationSeconds && a.createdAt == row.createdAt
    ensures a.overallScore == row.overallScore && a.contentScore == row.contentScore
    ensures a.fluencyScore == row.fluencyScore && a.pronunciationScore == row.pronunciationScore
  {
    SpeakingAttempt(
      row.id, row.questionId, row.testType, row.spokenText,
      row.overallScore, row.contentScore, row.fluencyScore, row.pronunciationScore,
      if row.feedback.Some? then row.feedback.value else [],
      if row.detailedAnalysis.Some? then row.detailedAnalysis.value else Analysis([], [], []),
      row.durationSeconds, row.createdAt)
  }

  /** The scorer's result handed to `saveAttempt`. */
  datatype ScoreResult = ScoreResult(
    overallScore: real, content: real, fluency: real, pronunciation: real,
    feedback: seq<string>, detailedAnalysis: Analysis)

  /** The row `saveAttempt` inserts: the four scores rounded to integers. */
  function NewRow(id: string, createdAt: string, questionId: string, testType: string, spokenText: string,
                  score: ScoreResult, durationSeconds: Option<int>): (row: Row)
    ensures row.overallScore as real - 0.5 <= score.overallScore < row.overallScore as real + 0.5
    ensures row.contentScore as real - 0.5 <= score.content < row.contentScore as real + 0.5
    ensures row.fluencyScore as real - 0.5 <= score.fluency < row.fluencyScore as real + 0.5
    ensures row.pronunciationScore as real - 0.5 <= score.pronunciation < row.pronunciationScore as real + 0.5
    ensures row.questionId == questionId && row.testType == testType && row.spokenText == Some(spokenText)
    ensures row.feedback == Some(score.feedback) && row.detailedAnalysis == Some(score.detailedAnalysis)
  {
    Row(id, questionId, testType, Some(spokenText),
        Round(score.overallScore), Round(score.content), Round(score.fluency), Round(score.pronunciation),
        Some(score.feedback), Some(score.detailedAnalysis), durationSeconds, createdAt)
  }

  /** `getAttemptsByType`. */
  function AttemptsByType(attempts: seq<SpeakingAttempt>, testType: string): (r: seq<SpeakingAttempt>)
    ensures |r| <= |attempts|
    ensures forall a :: a in r <==> a in attempts && a.testType == testType
  {
    if attempts == [] then []
    else
      var rest := AttemptsByType(attempts[1..], testType);
      if attempts[0].testType == testType then [attempts[0]] + rest else rest
  }

  /** The filter keeps the order: filtering a concatenation concatenates the filtered parts. */
  lemma {:induction false} AttemptsByTypeAppend(xs: seq<SpeakingAttempt>, ys: seq<SpeakingAttempt>, testType: string)
    ensures AttemptsByType(xs + ys, testType) == AttemptsByType(xs, testType) + AttemptsByType(ys, testType)
    decreases |xs|
  {
    if xs != [] {
      assert (xs + ys)[0] == xs[0];
      assert (xs + ys)[1..] == xs[1..] + ys;
      AttemptsByTypeAppend(xs[1..], ys, testType);
      if xs[0].testType == testType {
        assert [xs[0]] + (AttemptsByType(xs[1..], testType) + AttemptsByType(ys, testType))
            == ([xs[0]] + AttemptsByType(xs[1..], testType)) + AttemptsByType(ys, testType);
      }
    } else {
      assert xs + ys == ys;
    }
  }

  function SumOverall(attempts: seq<SpeakingAttempt>): int {
    if attempts == [] then 0 else SumOverall(attempts[..|attempts| - 1]) + attempts[|attempts| - 1].overallScore
  }

  /** The sum of scores that all lie in [lo, hi] lies in [n * lo, n * hi]. */
  lemma {:induction false} SumOverallBetween(attempts: seq<SpeakingAttempt>, lo: int, hi: int)
    requires forall i :: 0 <= i < |attempts| ==> lo <= attempts[i].overallScore <= hi
    ensures |attempts| * lo <= SumOverall(attempts) <= |attempts| * hi
  {
    if attempts != [] {
      SumOverallBetween(attempts[..|attempts| - 1], lo, hi);
    }
  }

  /** `getAverageScore`: 0 without attempts, else the rounded mean overall score. */
  function AverageScore(attempts: seq<SpeakingAttempt>): (r: int)
    ensures attempts == [] ==> r == 0
    ensures attempts != [] ==> var mean := SumOverall(attempts) as real / |attempts| as real;
      r as real - 0.5 <= mean < r as real + 0.5
  {
    if |attempts| == 0 then 0
    else
      var n := |attempts| as real;
      var mean := SumOverall(attempts) as real / n;
      Round(mean)
  }

  /** The average lies between the lowest and the highest score. */
  lemma AverageBetween(attempts: seq<SpeakingAttempt>, lo: int, hi: int)
    requires forall i :: 0 <= i < |attempts| ==> lo <= attempts[i].overallScore <= hi
    requires attempts != []
    ensures lo <= AverageScore(attempts) <= hi
  {
    var n := |attempts|;
    SumOverallBetween(attempts, lo, hi);
    MeanBetween(SumOverall(attempts), n, lo, hi);
    RoundBetween(SumOverall(attempts) as real / n as real, lo, hi);
  }

  lemma MeanBetween(sum: int, n: nat, lo: int, hi: int)
    requires n > 0 && n * lo <= sum <= n * hi
    ensures lo as real <= sum as real / n as real <= hi as real
  {
    assert (n * lo) as real == lo as real * n as real;
    assert (n * hi) as real == hi as real * n as real;
    DivBetween(sum as real, n as real, lo as real, hi as real);
  }

  const DefaultRecentLimit: int := 10

  /** `getRecentAttempts(limit = 10)`: `slice(0, limit)`, a negative limit counting from the end. */
  function RecentAttempts(attempts: seq<SpeakingAttempt>, limit: Option<int>): (r: seq<SpeakingAttempt>)
    ensures var l := if limit.Some? then limit.value else DefaultRecentLimit;
      && (l >= 0 ==> |r| == MinInt(l, |attempts|))
      && (l < 0 ==> |r| == MaxInt(0, |attempts| + l))
    ensures r == attempts[..|r|]
  {
    var l := if limit.Some? then limit.value else DefaultRecentLimit;
    if l >= 0 then attempts[..MinInt(l, |attempts|)] else attempts[..MaxInt(0, |attempts| + l)]
  }

  /** The hook's state together with the table it reads and writes. */
  class History {
    var attempts: seq<SpeakingAttempt>
    var isLoading: bool
    var error: Option<string>
    var rows: map<string, seq<Row>>

    constructor(rows: map<string, seq<Row>>)
      ensures attempts == [] && isLoading && error == None && this.rows == rows
    {
      attempts := [];
      isLoading := true;
      error := None;
      this.rows := rows;
    }

    /** The rows of a user, newest first; none for a user without rows. */
    function RowsOf(user: string): (r: seq<Row>)
      reads this
      ensures user !in rows ==> r == []
    {
      if user in rows then rows[user] else []
    }

    /**
     * `fetchAttempts`: no user gives no attempts; a failed query keeps the
     * attempts and records its message; otherwise the user's rows, transformed.
     */
    method FetchAttempts(user: Option<string>, fetchError: Option<string>)
      modifies this`attempts, this`isLoading, this`error
      ensures !isLoading && rows == old(rows)
      ensures user.None? ==> attempts == [] && error == None
      ensures user.Some? && fetchError.Some? ==> attempts == old(attempts) && error == fetchError
      ensures user.Some? && fetchError.None? ==>
        && error == None
        && |attempts| == |RowsOf(user.value)|
        && forall i :: 0 <= i < |attempts| ==> attempts[i] == Transform(RowsOf(user.value)[i])
    {
      isLoading := true;
      error := None;
      if user.None? {
        attempts := [];
        isLoading := false;
        return;
      }
      if fetchError.Some? {
        error := fetchError;
        isLoading := false;
        return;
      }
      var data := RowsOf(user.value);
      attempts := seq(|data|, i requires 0 <= i < |data| => Transform(data[i]));
      isLoading := false;
    }

    /**
     * `saveAttempt`: without a user, or when the insert fails, nothing
     * changes; otherwise the rounded row becomes the user's newest and the
     * attempts are fetched again.
     */
    method SaveAttempt(user: Option<string>, id: string, createdAt: string, questionId: string, testType: string,
                       spokenText: string, score: ScoreResult, durationSeconds: Option<int>,
                       insertFails: bool, fetchError: Option<string>)
      modifies this`attempts, this`isLoading, this`error, this`rows
      ensures user.None? || insertFails ==>
        rows == old(rows) && attempts == old(attempts) && isLoading == old(isLoading) && error == old(error)
      ensures user.Some? && !insertFails ==>
        var row := NewRow(id, createdAt, questionId, testType, spokenText, score, durationSeconds);
        && rows == old(rows)[user.value := [row] + old(RowsOf(user.value))]
        && !isLoading
        && (fetchError.None? ==>
              && error == None && |attempts| == |old(RowsOf(user.value))| + 1 && attempts[0] == Transform(row)
              && forall i :: 1 <= i < |attempts| ==> attempts[i] == Transform(old(RowsOf(user.value))[i - 1]))
        && (fetchError.Some? ==> attempts == old(attempts) && error == fetchError)
    {
      if user.None? || insertFails {
        return;
      }
      var row := NewRow(id, createdAt, questionId, testType, spokenText, score, durationSeconds);
      rows := rows[user.value := [row] + RowsOf(user.value)];
      FetchAttempts(user, fetchError);
    }
  }
}
