/**
 * The daily scoring allowance (src/hooks/useScoringLimit.ts): five scored
 * attempts per calendar day, counted in the browser's local storage for a
 * visitor and in the `daily_scoring_limits` table for a signed-in user.
 *
 * The signed-in user, today's date, whether a database write fails and
 * whether something throws before the hook changes any state (the user
 * lookup, or `JSON.parse` of a stored entry that does not parse) are
 * parameters; local storage is a field holding the parsed record, and the
 * table is a map from (user id, date) to `attempt_count`.
 */
module ScoringLimit {
  import opened Wrappers
  import opened JsMath

  const DailyLimit: int := 5

  /** The `scoring_limit` entry of local storage. */
  datatype LocalRecord = LocalRecord(date: string, count: int)

  /** A stored record counts only on its own day; any other day starts from 0. */
  function CurrentCount(local: Option<LocalRecord>, today: string): (c: int)
    ensures local.None? || local.value.date != today ==> c == 0
    ensures local.Some? && local.value.date == today ==> c == local.value.count
  {
    if local.Some? && local.value.date == today then local.value.count else 0
  }

  /** The result of one increment: accepted or not, the new stored count, the new remaining attempts. */
  datatype Step = Step(accepted: bool, count: Option<int>, remaining: int)

  /**
   * A visitor's increment: refused at the limit with nothing stored;
   * otherwise today's count goes up by one and remaining follows it.
   */
  function VisitorStep(local: Option<LocalRecord>, today: string): (s: Step)
    ensures s.accepted <==> CurrentCount(local, today) < DailyLimit
    ensures s.accepted ==> s.count == Some(CurrentCount(local, today) + 1) && s.remaining == DailyLimit - s.count.value
  {
    var currentCount := CurrentCount(local, today);
    if currentCount >= DailyLimit then Step(false, None, 0)
    else Step(true, Some(currentCount + 1), DailyLimit - currentCount - 1)
  }

  /**
   * A signed-in user's increment given today's row: refused at the limit or
   * on a failed write; otherwise the row goes up by one, or a new row of 1 is
   * inserted.
   */
  function UserStep(existing: Option<int>, writeFails: bool): (s: Step)
    ensures existing.Some? && existing.value >= DailyLimit ==> !s.accepted
    ensures writeFails ==> !s.accepted
    ensures s.accepted <==> !writeFails && (existing.None? || existing.value < DailyLimit)
    ensures s.accepted && existing.Some? ==> s.count == Some(existing.value + 1) && s.remaining == MaxInt(0, DailyLimit - existing.value - 1)
    ensures s.accepted && existing.None? ==> s.count == Some(1) && s.remaining == DailyLimit - 1
  {
    if existing.Some? then
      if existing.value >= DailyLimit then Step(false, None, 0)
      else if writeFails then Step(false, None, 0)
      else Step(true, Some(existing.value + 1), MaxInt(0, DailyLimit - existing.value - 1))
    else if writeFails then Step(false, None, 0)
    else Step(true, Some(1), DailyLimit - 1)
  }

  /** The outcomes of `n` increments in a row by a visitor on the same day. */
  function VisitorRun(local: Option<LocalRecord>, today: string, n: nat): (r: seq<bool>)
    ensures |r| == n
    decreases n
  {
    if n == 0 then []
    else
      var s := VisitorStep(local, today);
      var next := if s.accepted then Some(LocalRecord(today, s.count.value)) else local;
      [s.accepted] + VisitorRun(next, today, n - 1)
  }

  /** The outcomes of `n` increments in a row by a signed-in user on the same day, all writes succeeding. */
  function UserRun(existing: Option<int>, n: nat): (r: seq<bool>)
    ensures |r| == n
    decreases n
  {
    if n == 0 then []
    else
      var s := UserStep(existing, false);
      [s.accepted] + UserRun(if s.accepted then s.count else existing, n - 1)
  }

  /** From a count `c` of today, the i-th further increment succeeds exactly while c + i is below the limit. */
  lemma {:induction false} VisitorRunFrom(c: int, today: string, n: nat)
    ensures forall i :: 0 <= i < n ==> VisitorRun(Some(LocalRecord(today, c)), today, n)[i] == (c + i < DailyLimit)
    decreases n
  {
    if n > 0 {
      var local := Some(LocalRecord(today, c));
      var s := VisitorStep(local, today);
      if s.accepted {
        VisitorRunFrom(c + 1, today, n - 1);
      } else {
        VisitorRunFrom(c, today, n - 1);
      }
    }
  }

  /** On a new day (no record, or a record of another day) exactly five increments succeed. */
  lemma VisitorDailyAllowance(local: Option<LocalRecord>, today: string, n: nat)
    requires local.None? || local.value.date != today
    ensures forall i :: 0 <= i < n ==> VisitorRun(local, today, n)[i] == (i < DailyLimit)
  {
    if n > 0 {
      VisitorRunFrom(1, today, n - 1);
      var r := VisitorRun(local, today, n);
      assert r == [true] + VisitorRun(Some(LocalRecord(today, 1)), today, n - 1);
    }
  }

  lemma {:induction false} UserRunFrom(c: int, n: nat)
    ensures forall i :: 0 <= i < n ==> UserRun(Some(c), n)[i] == (c + i < DailyLimit)
    decreases n
  {
    if n > 0 {
      var s := UserStep(Some(c), false);
      if s.accepted {
        UserRunFrom(c + 1, n - 1);
      } else {
        UserRunFrom(c, n - 1);
      }
    }
  }

  /** A signed-in user with no row for today gets exactly five successful increments. */
  lemma UserDailyAllowance(n: nat)
    ensures forall i :: 0 <= i < n ==> UserRun(None, n)[i] == (i < DailyLimit)
  {
    if n > 0 {
      UserRunFrom(1, n - 1);
      assert UserRun(None, n) == [true] + UserRun(Some(1), n - 1);
    }
  }

  /** `fetchUsage`'s remaining attempts for a signed-in user: never negative, at most the limit for a non-negative count. */
  function RemainingFromRow(row: Option<int>): (r: int)
    ensures r >= 0
    ensures row.None? ==> r == DailyLimit
    ensures row.Some? && row.value >= DailyLimit ==> r == 0
    ensures row.Some? && 0 <= row.value <= DailyLimit ==> r + row.value == DailyLimit
  {
    if row.Some? then MaxInt(0, DailyLimit - row.value) else DailyLimit
  }

  /** The hook's state together with the two stores it reads and writes. */
  class ScoringLimitState {
    var remainingAttempts: int
    var isLoading: bool
    var resetDate: Option<string>
    var local: Option<LocalRecord>
    var rows: map<(string, string), int>

    constructor(local: Option<LocalRecord>, rows: map<(string, string), int>)
      ensures remainingAttempts == DailyLimit && isLoading && resetDate == None
      ensures this.local == local && this.rows == rows
    {
      remainingAttempts := DailyLimit;
      isLoading := true;
      resetDate := None;
      this.local := local;
      this.rows := rows;
    }

    /** `canScore`. */
    function CanScore(): (b: bool)
      reads this
      ensures b <==> remainingAttempts > 0
    {
      remainingAttempts > 0
    }

    /**
     * `fetchUsage`. A visitor's record of another day is reset to 0; a
     * lookup error other than "no row" leaves the full allowance shown. An
     * error thrown before any state is set lands in the catch, which shows
     * the full allowance and leaves the reset date as it was.
     */
    method FetchUsage(user: Option<string>, today: string, lookupError: bool, unexpectedError: bool)
      modifies this`remainingAttempts, this`isLoading, this`resetDate, this`local
      ensures !isLoading && rows == old(rows)
      ensures unexpectedError ==>
        remainingAttempts == DailyLimit && resetDate == old(resetDate) && local == old(local)
      ensures !unexpectedError ==> resetDate == Some(today)
      ensures !unexpectedError && user.None? && old(local).Some? && old(local).value.date == today ==>
        remainingAttempts == DailyLimit - old(local).value.count && local == old(local)
      ensures !unexpectedError && user.None? && old(local).Some? && old(local).value.date != today ==>
        remainingAttempts == DailyLimit && local == Some(LocalRecord(today, 0))
      ensures !unexpectedError && user.None? && old(local).None? ==> remainingAttempts == DailyLimit && local == None
      ensures !unexpectedError && user.Some? && lookupError ==> remainingAttempts == DailyLimit && local == old(local)
      ensures !unexpectedError && user.Some? && !lookupError ==>
        local == old(local) &&
        remainingAttempts == RemainingFromRow(if (user.value, today) in rows then Some(rows[(user.value, today)]) else None)
    {
      isLoading := true;
      if unexpectedError {
        remainingAttempts := DailyLimit;
        isLoading := false;
        return;
      }
      if user.None? {
        if local.Some? {
          if local.value.date == today {
            remainingAttempts := DailyLimit - local.value.count;
          } else {
            local := Some(LocalRecord(today, 0));
            remainingAttempts := DailyLimit;
          }
        } else {
          remainingAttempts := DailyLimit;
        }
        resetDate := Some(today);
        isLoading := false;
        return;
      }
      resetDate := Some(today);
      if lookupError {
        remainingAttempts := DailyLimit;
        isLoading := false;
        return;
      }
      var key := (user.value, today);
      if key in rows {
        remainingAttempts := MaxInt(0, DailyLimit - rows[key]);
      } else {
        remainingAttempts := DailyLimit;
      }
      isLoading := false;
    }

    /**
     * `incrementUsage`: true when an attempt was counted. A refusal, a
     * failed write or an error thrown on the way (caught, returning false)
     * changes nothing.
     */
    method IncrementUsage(user: Option<string>, today: string, writeFails: bool, unexpectedError: bool) returns (ok: bool)
      modifies this`remainingAttempts, this`local, this`rows
      ensures unexpectedError ==>
        !ok && local == old(local) && rows == old(rows) && remainingAttempts == old(remainingAttempts)
      ensures !unexpectedError && user.None? ==>
        var s := VisitorStep(old(local), today);
        && ok == s.accepted && rows == old(rows)
        && (ok ==> local == Some(LocalRecord(today, s.count.value)) && remainingAttempts == s.remaining)
        && (!ok ==> local == old(local) && remainingAttempts == old(remainingAttempts))
      ensures !unexpectedError && user.Some? ==>
        var key := (user.value, today);
        var s := UserStep(if key in old(rows) then Some(old(rows)[key]) else None, writeFails);
        && ok == s.accepted && local == old(local)
        && (ok ==> rows == old(rows)[key := s.count.value] && remainingAttempts == s.remaining)
        && (!ok ==> rows == old(rows) && remainingAttempts == old(remainingAttempts))
    {
      if unexpectedError {
        return false;
      }
      if user.None? {
        var currentCount := 0;
        if local.Some? && local.value.date == today {
          currentCount := local.value.count;
        }
        if currentCount >= DailyLimit {
          return false;
        }
        local := Some(LocalRecord(today, currentCount + 1));
        remainingAttempts := DailyLimit - currentCount - 1;
        return true;
      }
      var key := (user.value, today);
      if key in rows {
        var attemptCount := rows[key];
        if attemptCount >= DailyLimit {
          return false;
        }
        if writeFails {
          return false;
        }
        rows := rows[key := attemptCount + 1];
        remainingAttempts := MaxInt(0, DailyLimit - attemptCount - 1);
      } else {
        if writeFails {
          return false;
        }
        rows := rows[key := 1];
        remainingAttempts := DailyLimit - 1;
      }
      return true;
    }
  }
}
