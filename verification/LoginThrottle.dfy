/** The login throttle of one identifier: a failure count over a window, and a lock that outlasts it. */
module LoginThrottle {
  import opened Rows

  const LOCK_AFTER_FAILURES: nat := 5
  const LOCK_MS: nat := 15 * 60 * 1000

  datatype Throttle = Throttle(failedCount: nat, firstFailedAt: Time, lockedUntil: Option<Time>)

  datatype Answer = Locked | InvalidLogin | LoggedIn

  predicate IsLocked(row: Option<Throttle>, now: Time) {
    row.Some? && row.value.lockedUntil.Some? && row.value.lockedUntil.value > now
  }

  function AfterFailure(row: Option<Throttle>, now: Time): Throttle {
    var count :=
      if row.Some? && now - row.value.firstFailedAt < LOCK_MS then row.value.failedCount + 1 else 1;
    var first := if row.Some? && count != 1 then row.value.firstFailedAt else now;
    Throttle(count, first, if count >= LOCK_AFTER_FAILURES then Some(now + LOCK_MS) else None)
  }

  function AfterAttempt(row: Option<Throttle>, now: Time, verified: bool): (Option<Throttle>, Answer) {
    if IsLocked(row, now) then (row, Locked)
    else if verified then (None, LoggedIn)
    else (Some(AfterFailure(row, now)), InvalidLogin)
  }

  class LoginService {
    var throttle: Option<Throttle>

    constructor ()
      ensures throttle == None
    {
      throttle := None;
    }

    // verified: the account exists, is active and the password is right.
    method Login(now: Time, verified: bool) returns (answer: Answer)
      modifies this
      ensures (throttle, answer) == AfterAttempt(old(throttle), now, verified)
      ensures answer.Locked? <==> old(throttle).Some? && old(throttle).value.lockedUntil.Some?
                                  && now < old(throttle).value.lockedUntil.value
      ensures answer.LoggedIn? <==> verified && !answer.Locked?
      ensures answer.Locked? ==> throttle == old(throttle)
      ensures answer.LoggedIn? ==> throttle == None
    {
      if throttle.Some? && throttle.value.lockedUntil.Some? && throttle.value.lockedUntil.value > now {
        return Locked;
      }
      if !verified {
        RecordFailure(now);
        return InvalidLogin;
      }
      throttle := None;
      answer := LoggedIn;
    }

    method RecordFailure(now: Time)
      modifies this
      ensures throttle == Some(AfterFailure(old(throttle), now))
    {
      var count := 1;
      if throttle.Some? && now - throttle.value.firstFailedAt < LOCK_MS {
        count := throttle.value.failedCount + 1;
      }
      var lockedUntil := if count >= LOCK_AFTER_FAILURES then Some(now + LOCK_MS) else None;
      if throttle.None? {
        throttle := Some(Throttle(count, now, lockedUntil));
      } else {
        throttle := Some(throttle.value.(failedCount := count, lockedUntil := lockedUntil));
        if count == 1 {
          throttle := Some(throttle.value.(firstFailedAt := now));
        }
      }
    }
  }

  // ---------- Runs of failing attempts ----------

  // Times of attempts that do not succeed; a locked attempt is not recorded.
  ghost predicate Ordered(times: seq<Time>, since: Time) {
    && (forall i :: 0 <= i < |times| ==> since <= times[i])
    && (forall i, j :: 0 <= i < j < |times| ==> times[i] <= times[j])
  }

  function RowAfter(row: Option<Throttle>, now: Time): Option<Throttle> {
    AfterAttempt(row, now, false).0
  }

  function Recorded(row: Option<Throttle>, now: Time): nat {
    if IsLocked(row, now) then 0 else 1
  }

  // How many of the attempts are recorded as failures at a time in [from, from + 15 minutes).
  function RecordedIn(row: Option<Throttle>, times: seq<Time>, from: Time): nat
    decreases |times|
  {
    if times == [] then 0
    else
      (if from <= times[0] < from + LOCK_MS then Recorded(row, times[0]) else 0)
      + RecordedIn(RowAfter(row, times[0]), times[1..], from)
  }

  // What the row of an identifier without a successful login looks like at a time.
  ghost predicate RowOk(row: Option<Throttle>, now: Time) {
    row.Some? ==>
      && 1 <= row.value.failedCount <= LOCK_AFTER_FAILURES && row.value.firstFailedAt <= now
      && (row.value.failedCount == LOCK_AFTER_FAILURES <==> row.value.lockedUntil.Some?)
      && (row.value.lockedUntil.Some? ==> row.value.firstFailedAt + LOCK_MS <= row.value.lockedUntil.value)
  }

  // The lock outlasts the window, so the count never passes five, whatever attempts are made.
  lemma CountNeverPassesFive(row: Option<Throttle>, now: Time, later: Time, verified: bool)
    requires RowOk(row, now) && now <= later
    ensures RowOk(AfterAttempt(row, later, verified).0, later)
  {
  }

  function After(row: Option<Throttle>, attempts: seq<(Time, bool)>): Option<Throttle>
    decreases |attempts|
  {
    if attempts == [] then row else After(AfterAttempt(row, attempts[0].0, attempts[0].1).0, attempts[1..])
  }

  lemma {:induction false} FailedCountIsBounded(row: Option<Throttle>, attempts: seq<(Time, bool)>, now: Time)
    requires RowOk(row, now)
    requires forall i :: 0 <= i < |attempts| ==> now <= attempts[i].0
    requires forall i, j :: 0 <= i < j < |attempts| ==> attempts[i].0 <= attempts[j].0
    ensures After(row, attempts).Some? ==> 1 <= After(row, attempts).value.failedCount <= LOCK_AFTER_FAILURES
    decreases |attempts|
  {
    if attempts != [] {
      CountNeverPassesFive(row, now, attempts[0].0, attempts[0].1);
      FailedCountIsBounded(AfterAttempt(row, attempts[0].0, attempts[0].1).0, attempts[1..], attempts[0].0);
    }
  }

  // How many more failures the interval can record from a row, once it has begun.
  function Budget(row: Option<Throttle>, from: Time): nat {
    if row.None? then 5
    else if row.value.firstFailedAt >= from then 5 - (if row.value.failedCount <= 5 then row.value.failedCount else 5)
    else if row.value.failedCount >= 5 then
      (if row.value.lockedUntil.Some? && row.value.lockedUntil.value >= from + LOCK_MS then 0 else 5)
    else 9 - row.value.failedCount
  }

  lemma {:induction false} BeyondInterval(row: Option<Throttle>, times: seq<Time>, from: Time)
    requires Ordered(times, from + LOCK_MS)
    ensures RecordedIn(row, times, from) == 0
    decreases |times|
  {
    if times != [] {
      BeyondInterval(RowAfter(row, times[0]), times[1..], from);
    }
  }

  lemma {:induction false} InsideInterval(row: Option<Throttle>, times: seq<Time>, from: Time, now: Time)
    requires RowOk(row, now) && from <= now && Ordered(times, now)
    ensures RecordedIn(row, times, from) <= Budget(row, from)
    decreases |times|
  {
    if times != [] {
      if times[0] >= from + LOCK_MS {
        BeyondInterval(row, times, from);
      } else {
        CountNeverPassesFive(row, now, times[0], false);
        InsideInterval(RowAfter(row, times[0]), times[1..], from, times[0]);
      }
    }
  }

  // At most eight failures are recorded in any quarter of an hour without a successful login.
  lemma {:induction false} AtMostEightFailures(row: Option<Throttle>, times: seq<Time>, from: Time, now: Time)
    requires RowOk(row, now) && Ordered(times, now)
    ensures RecordedIn(row, times, from) <= 8
    decreases |times|
  {
    if times != [] {
      if times[0] < from {
        CountNeverPassesFive(row, now, times[0], false);
        AtMostEightFailures(RowAfter(row, times[0]), times[1..], from, times[0]);
      } else {
        LaterRowOk(row, now, times[0]);
        InsideInterval(row, times, from, times[0]);
      }
    }
  }

  lemma LaterRowOk(row: Option<Throttle>, now: Time, later: Time)
    requires RowOk(row, now) && now <= later
    ensures RowOk(row, later)
  {
  }

  lemma OneAttempt(row: Option<Throttle>, now: Time, rest: seq<Time>, from: Time)
    ensures RecordedIn(row, [now] + rest, from)
         == (if from <= now < from + LOCK_MS then Recorded(row, now) else 0) + RecordedIn(RowAfter(row, now), rest, from)
  {
    assert ([now] + rest)[1..] == rest;
  }

  // An attempt while the window is open and the lock not reached.
  lemma OneMoreFailure(n: nat, first: Time, now: Time)
    requires 1 <= n < 4 && first <= now < first + LOCK_MS
    ensures RowAfter(Some(Throttle(n, first, None)), now) == Some(Throttle(n + 1, first, None))
    ensures Recorded(Some(Throttle(n, first, None)), now) == 1
  {
  }

  lemma FirstStreak(rest: seq<Time>)
    ensures RecordedIn(None, [0] + ([1] + ([1] + ([1] + rest))), 1) == 3 + RecordedIn(Some(Throttle(4, 0, None)), rest, 1)
  {
    hide RecordedIn, Recorded, RowAfter;
    OneAttempt(None, 0, [1] + ([1] + ([1] + rest)), 1);
    FromNothing();
    OneAttempt(Some(Throttle(1, 0, None)), 1, [1] + ([1] + rest), 1);
    OneMoreFailure(1, 0, 1);
    OneAttempt(Some(Throttle(2, 0, None)), 1, [1] + rest, 1);
    OneMoreFailure(2, 0, 1);
    OneAttempt(Some(Throttle(3, 0, None)), 1, rest, 1);
    OneMoreFailure(3, 0, 1);
  }

  lemma FromNothing()
    ensures RowAfter(None, 0) == Some(Throttle(1, 0, None))
  {
  }

  // The window is over: the count starts again, and the fifth failure locks.
  lemma SecondStreak()
    ensures RecordedIn(Some(Throttle(4, 0, None)), [LOCK_MS] + ([LOCK_MS] + ([LOCK_MS] + ([LOCK_MS] + ([LOCK_MS] + [])))), 1)
         == 5
  {
    hide Recorded, RowAfter, RecordedIn;
    var n := LOCK_MS;
    StartsAgain();
    OneAttempt(Some(Throttle(4, 0, None)), n, [n] + ([n] + ([n] + ([n] + []))), 1);
    OneAttempt(Some(Throttle(1, n, None)), n, [n] + ([n] + ([n] + [])), 1);
    OneMoreFailure(1, n, n);
    OneAttempt(Some(Throttle(2, n, None)), n, [n] + ([n] + []), 1);
    OneMoreFailure(2, n, n);
    OneAttempt(Some(Throttle(3, n, None)), n, [n] + [], 1);
    OneMoreFailure(3, n, n);
    OneAttempt(Some(Throttle(4, n, None)), n, [], 1);
    Unlocked(n);
    NothingRecorded(RowAfter(Some(Throttle(4, n, None)), n));
  }

  lemma StartsAgain()
    ensures RowAfter(Some(Throttle(4, 0, None)), LOCK_MS) == Some(Throttle(1, LOCK_MS, None))
    ensures Recorded(Some(Throttle(4, 0, None)), LOCK_MS) == 1
  {
  }

  lemma Unlocked(now: Time)
    ensures Recorded(Some(Throttle(4, now, None)), now) == 1
  {
  }

  lemma NothingRecorded(row: Option<Throttle>)
    ensures RecordedIn(row, [], 1) == 0
  {
  }

  // The bound is reached: one failure just before the interval, three in it, then five after the window.
  lemma EightFailuresReached()
    ensures RecordedIn(None, [0, 1, 1, 1, LOCK_MS, LOCK_MS, LOCK_MS, LOCK_MS, LOCK_MS], 1) == 8
  {
    hide RecordedIn;
    var n := LOCK_MS;
    var rest := [n] + ([n] + ([n] + ([n] + ([n] + []))));
    SecondStreak();
    FirstStreak(rest);
    assert [0] + ([1] + ([1] + ([1] + rest))) == [0, 1, 1, 1, n, n, n, n, n];
  }

  // ---------- When an attempt is answered how ----------

  const QUARTER_HOUR: nat := 15 * 60 * 1000

  function Answers(row: Option<Throttle>, attempts: seq<(Time, bool)>): seq<Answer>
    decreases |attempts|
  {
    if attempts == [] then []
    else
      var (next, answer) := AfterAttempt(row, attempts[0].0, attempts[0].1);
      [answer] + Answers(next, attempts[1..])
  }

  // The rule without a row: all one remembers is when the failures of the present streak came. A streak
  // begins with a failure, takes up those that come less than a quarter of an hour after its first, and
  // ends with a login. Five of them lock for a quarter of an hour after the fifth.
  function Expected(streak: seq<Time>, now: Time, verified: bool): Answer {
    if |streak| >= 5 && now < streak[4] + QUARTER_HOUR then Locked else if verified then LoggedIn else InvalidLogin
  }

  function StreakAfter(streak: seq<Time>, now: Time, verified: bool): seq<Time> {
    match Expected(streak, now, verified)
    case Locked => streak
    case LoggedIn => []
    case InvalidLogin => if streak != [] && now < streak[0] + QUARTER_HOUR then streak + [now] else [now]
  }

  function ExpectedAnswers(streak: seq<Time>, attempts: seq<(Time, bool)>): seq<Answer>
    decreases |attempts|
  {
    if attempts == [] then []
    else
      var (now, verified) := attempts[0];
      [Expected(streak, now, verified)] + ExpectedAnswers(StreakAfter(streak, now, verified), attempts[1..])
  }

  ghost predicate InOrder(attempts: seq<(Time, bool)>, since: Time) {
    && (forall i :: 0 <= i < |attempts| ==> since <= attempts[i].0)
    && (forall i, j :: 0 <= i < j < |attempts| ==> attempts[i].0 <= attempts[j].0)
  }

  // The row says no more than the streak does.
  ghost predicate Tells(row: Option<Throttle>, streak: seq<Time>, now: Time) {
    && (row.None? <==> streak == []) && |streak| <= 5
    && (forall i :: 0 <= i < |streak| ==> streak[i] <= now)
    && (|streak| == 5 ==> streak[0] <= streak[4])
    && (row.Some? ==>
          && row.value.failedCount == |streak| && row.value.firstFailedAt == streak[0]
          && row.value.lockedUntil == if |streak| == 5 then Some(streak[4] + QUARTER_HOUR) else None)
  }

  lemma StillTells(row: Option<Throttle>, streak: seq<Time>, since: Time, now: Time, verified: bool)
    requires Tells(row, streak, since) && since <= now
    ensures var (next, answer) := AfterAttempt(row, now, verified);
            answer == Expected(streak, now, verified) && Tells(next, StreakAfter(streak, now, verified), now)
  {
  }

  lemma {:induction false} AnswersFrom(row: Option<Throttle>, streak: seq<Time>, since: Time, attempts: seq<(Time, bool)>)
    requires Tells(row, streak, since) && InOrder(attempts, since)
    ensures Answers(row, attempts) == ExpectedAnswers(streak, attempts)
    decreases |attempts|
  {
    hide Tells, AfterAttempt, Expected, StreakAfter;
    if attempts != [] {
      var (now, verified) := attempts[0];
      StillTells(row, streak, since, now, verified);
      AnswersFrom(AfterAttempt(row, now, verified).0, StreakAfter(streak, now, verified), now, attempts[1..]);
    }
  }

  // Over any attempts with right and wrong passwords, every answer is the one the rule gives.
  lemma AnswersAreExpected(attempts: seq<(Time, bool)>)
    requires InOrder(attempts, 0)
    ensures Answers(None, attempts) == ExpectedAnswers([], attempts)
  {
    assert Tells(None, [], 0);
    AnswersFrom(None, [], 0, attempts);
  }

  // Five failures at these times, none of them too late for the window the first one opens.
  ghost predicate FiveInWindow(times: seq<Time>) {
    && |times| == 5 && (forall i, j :: 0 <= i < j < 5 ==> times[i] <= times[j])
    && times[4] < times[0] + QUARTER_HOUR
  }

  // Neither an open window nor a lock at this time.
  predicate Unhindered(row: Option<Throttle>, now: Time) {
    row.Some? ==>
      && row.value.firstFailedAt + QUARTER_HOUR <= now
      && (row.value.lockedUntil.Some? ==> row.value.lockedUntil.value <= now)
  }

  function Failing(times: seq<Time>): seq<(Time, bool)> {
    if times == [] then [] else [(times[0], false)] + Failing(times[1..])
  }

  function Repeated(answer: Answer, n: nat): seq<Answer> {
    if n == 0 then [] else [answer] + Repeated(answer, n - 1)
  }

  lemma AnswersOf(row: Option<Throttle>, now: Time, verified: bool, rest: seq<(Time, bool)>)
    ensures var (next, answer) := AfterAttempt(row, now, verified);
            && After(row, [(now, verified)] + rest) == After(next, rest)
            && Answers(row, [(now, verified)] + rest) == [answer] + Answers(next, rest)
  {
    hide AfterAttempt;
    assert ([(now, verified)] + rest)[1..] == rest;
  }

  lemma CountsOn(n: nat, first: Time, now: Time)
    requires 1 <= n < 5 && first <= now < first + QUARTER_HOUR
    ensures AfterAttempt(Some(Throttle(n, first, None)), now, false)
         == (Some(Throttle(n + 1, first, if n == 4 then Some(now + QUARTER_HOUR) else None)), InvalidLogin)
  {
  }

  lemma FirstOf(times: seq<Time>, n: nat, more: seq<(Time, bool)>)
    requires n < |times|
    ensures Failing(times[n..]) + more == [(times[n], false)] + (Failing(times[n + 1..]) + more)
  {
    assert times[n..][1..] == times[n + 1..];
  }

  lemma NoneLeft(times: seq<Time>, more: seq<(Time, bool)>)
    ensures Failing(times[|times|..]) + more == more
  {
  }

  // The n-th failure of the window and those after it.
  lemma {:induction false} RestOfFive(n: nat, times: seq<Time>, more: seq<(Time, bool)>)
    requires FiveInWindow(times) && 1 <= n < 5
    ensures After(Some(Throttle(n, times[0], None)), Failing(times[n..]) + more)
         == After(Some(Throttle(5, times[0], Some(times[4] + QUARTER_HOUR))), more)
    ensures Answers(Some(Throttle(n, times[0], None)), Failing(times[n..]) + more)
         == Repeated(InvalidLogin, 5 - n) + Answers(Some(Throttle(5, times[0], Some(times[4] + QUARTER_HOUR))), more)
    decreases 5 - n
  {
    hide After, Answers, AfterAttempt, Repeated, Failing;
    FirstOf(times, n, more);
    assert times[0] <= times[n] <= times[4];
    CountsOn(n, times[0], times[n]);
    AnswersOf(Some(Throttle(n, times[0], None)), times[n], false, Failing(times[n + 1..]) + more);
    var locked := Some(Throttle(5, times[0], Some(times[4] + QUARTER_HOUR)));
    OneMoreRepeated(InvalidLogin, 4 - n, Answers(locked, more));
    if n == 4 {
      NoneLeft(times, more);
      NoneRepeated(InvalidLogin, Answers(locked, more));
    } else {
      RestOfFive(n + 1, times, more);
    }
  }

  lemma OneMoreRepeated(answer: Answer, n: nat, rest: seq<Answer>)
    ensures Repeated(answer, n + 1) + rest == [answer] + (Repeated(answer, n) + rest)
  {
  }

  lemma NoneRepeated(answer: Answer, rest: seq<Answer>)
    ensures Repeated(answer, 0) + rest == rest
  {
  }

  lemma {:induction false} AllLocked(first: Time, last: Time, more: seq<(Time, bool)>)
    requires forall i :: 0 <= i < |more| ==> more[i].0 < last + QUARTER_HOUR
    ensures var row := Some(Throttle(5, first, Some(last + QUARTER_HOUR)));
            After(row, more) == row && Answers(row, more) == Repeated(Locked, |more|)
    decreases |more|
  {
    if more != [] {
      AllLocked(first, last, more[1..]);
    }
  }

  lemma FirstOfFive(row: Option<Throttle>, now: Time)
    requires Unhindered(row, now)
    ensures AfterAttempt(row, now, false) == (Some(Throttle(1, now, None)), InvalidLogin)
  {
  }

  // Once five failures have fallen into one window, every attempt before a quarter of an hour after the
  // fifth is answered Locked, with the right password or not, and leaves the row as it is.
  lemma LockHolds(row: Option<Throttle>, times: seq<Time>, more: seq<(Time, bool)>)
    requires FiveInWindow(times) && Unhindered(row, times[0])
    requires forall i :: 0 <= i < |more| ==> more[i].0 < times[4] + QUARTER_HOUR
    ensures Answers(row, Failing(times) + more) == Repeated(InvalidLogin, 5) + Repeated(Locked, |more|)
    ensures After(row, Failing(times) + more) == Some(Throttle(5, times[0], Some(times[4] + QUARTER_HOUR)))
  {
    hide After, Answers, Repeated, AfterAttempt, Failing;
    FirstOf(times, 0, more);
    assert times[0..] == times;
    FirstOfFive(row, times[0]);
    AnswersOf(row, times[0], false, Failing(times[1..]) + more);
    OneMoreRepeated(InvalidLogin, 4, Repeated(Locked, |more|));
    RestOfFive(1, times, more);
    AllLocked(times[0], times[4], more);
  }

  // From that moment on the right password is accepted again, and after a login the next failure is a first one.
  lemma LockEndsAndLoginStartsOver(first: Time, last: Time, now: Time, next: Time)
    requires first <= last && last + QUARTER_HOUR <= now
    ensures Answers(Some(Throttle(5, first, Some(last + QUARTER_HOUR))), [(now, true), (next, false)]) == [LoggedIn, InvalidLogin]
    ensures After(Some(Throttle(5, first, Some(last + QUARTER_HOUR))), [(now, true), (next, false)])
         == Some(Throttle(1, next, None))
  {
    var row := Some(Throttle(5, first, Some(last + QUARTER_HOUR)));
    assert [(now, true), (next, false)] == [(now, true)] + ([(next, false)] + []);
    AnswersOf(row, now, true, [(next, false)] + []);
    AnswersOf(None, next, false, []);
  }

  // A login succeeds if and only if the password is right and no lock is running; the next failure counts
  // as the first.
  lemma LoginStartsOver(row: Option<Throttle>, now: Time, verified: bool, next: Time)
    ensures var (after, answer) := AfterAttempt(row, now, verified);
            && (answer.LoggedIn? <==>
                  verified && (row.None? || row.value.lockedUntil.None? || row.value.lockedUntil.value <= now))
            && (answer.LoggedIn? ==> AfterAttempt(after, next, false) == (Some(Throttle(1, next, None)), InvalidLogin))
            && (answer.Locked? ==> after == row)
  {
  }
}
