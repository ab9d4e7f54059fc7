/** The login lockout (src/auth/auth.service.ts:13-14, 44-74). Time is in
    milliseconds and never goes back; an attempt is one step. */
module Lockout {
  import opened Text

  const LOCK_THRESHOLD: nat := 5
  const LOCK: nat := 15 * 60_000

  datatype Account = Account(failedCount: nat, lockedUntil: Option<int>)

  datatype Attempt = Attempt(at: int, passwordMatches: bool, accountActive: bool)

  datatype Reply = LoggedIn | InvalidCredentials | AccountLocked

  const CLEAR := Account(0, None)

  predicate Locked(a: Account, now: int) { a.lockedUntil.Some? && a.lockedUntil.value > now }

  function Answer(a: Account, t: Attempt): Reply {
    if Locked(a, t.at) then AccountLocked
    else if t.passwordMatches && t.accountActive then LoggedIn
    else InvalidCredentials
  }

  /** A refused attempt counts unless the account is locked; a login clears the count. */
  function After(a: Account, t: Attempt): Account {
    match Answer(a, t)
    case AccountLocked => a
    case LoggedIn => CLEAR
    case InvalidCredentials =>
      Account(a.failedCount + 1, if a.failedCount + 1 >= LOCK_THRESHOLD then Some(t.at + LOCK) else None)
  }

  class LoginGuard {
    var failedCount: nat
    var lockedUntil: Option<int>

    constructor ()
      ensures View() == CLEAR
    {
      failedCount, lockedUntil := 0, None;
    }

    function View(): Account
      reads this
    {
      Account(failedCount, lockedUntil)
    }

    method Login(now: int, passwordMatches: bool, accountActive: bool) returns (reply: Reply)
      modifies this
      ensures reply == Answer(old(View()), Attempt(now, passwordMatches, accountActive))
      ensures View() == After(old(View()), Attempt(now, passwordMatches, accountActive))
    {
      var locked := lockedUntil.Some? && lockedUntil.value > now;
      var valid := passwordMatches && accountActive && !locked;
      if !valid {
        if !locked {
          failedCount := failedCount + 1;
          lockedUntil := if failedCount >= LOCK_THRESHOLD then Some(now + LOCK) else None;
        }
        return if locked then AccountLocked else InvalidCredentials;
      }
      failedCount, lockedUntil := 0, None;
      return LoggedIn;
    }
  }

  // ---------------------------------------------------------------------
  // How fast failures can be counted

  function Run(attempts: seq<Attempt>): Account {
    if attempts == [] then CLEAR else After(Run(attempts[..|attempts| - 1]), attempts[|attempts| - 1])
  }

  /** The times of the failures counted since the last login. */
  function Failures(attempts: seq<Attempt>): seq<int> {
    if attempts == [] then []
    else
      var front, t := attempts[..|attempts| - 1], attempts[|attempts| - 1];
      match Answer(Run(front), t)
      case AccountLocked => Failures(front)
      case LoggedIn => []
      case InvalidCredentials => Failures(front) + [t.at]
  }

  predicate Ordered(attempts: seq<Attempt>) { forall i, j :: 0 <= i < j < |attempts| ==> attempts[i].at <= attempts[j].at }

  /** From the fifth on, each counted failure comes a full lock after the one before. */
  ghost predicate Spaced(f: seq<int>) {
    && (forall i, j :: 0 <= i < j < |f| ==> f[i] <= f[j])
    && (forall i :: LOCK_THRESHOLD <= i < |f| ==> f[i] >= f[i - 1] + LOCK)
  }

  /** The count is the number of failures since the last login, the lock runs from
      the latest of them, and they are spaced. */
  lemma {:induction false} CountIsFailures(attempts: seq<Attempt>)
    requires Ordered(attempts)
    ensures var a, f := Run(attempts), Failures(attempts);
      && a.failedCount == |f| && Spaced(f)
      && (|f| > 0 ==> attempts != [] && f[|f| - 1] <= attempts[|attempts| - 1].at)
      && a.lockedUntil == if |f| >= LOCK_THRESHOLD then Some(f[|f| - 1] + LOCK) else None
  {
    if attempts != [] {
      CountIsFailures(attempts[..|attempts| - 1]);
    }
  }

  lemma {:induction false} SpacedFrom(f: seq<int>, i: nat, j: nat)
    requires Spaced(f) && LOCK_THRESHOLD - 1 <= i <= j < |f|
    ensures f[j] >= f[i] + (j - i) * LOCK
    decreases j
  {
    if i < j {
      SpacedFrom(f, i, j - 1);
      assert (j - i) * LOCK == (j - 1 - i) * LOCK + LOCK;
    }
  }

  /** Between logins, the k-th counted failure, for k from 5 on, comes no earlier than
      k - 5 locks after the fifth. */
  lemma LaterFailures(attempts: seq<Attempt>, k: nat)
    requires Ordered(attempts) && LOCK_THRESHOLD <= k <= |Failures(attempts)|
    ensures var f := Failures(attempts); f[k - 1] >= f[LOCK_THRESHOLD - 1] + (k - LOCK_THRESHOLD) * LOCK
  {
    CountIsFailures(attempts);
    SpacedFrom(Failures(attempts), LOCK_THRESHOLD - 1, k - 1);
  }

  /** So any `span` of time holds at most five counted failures and one more for each
      full lock in it, whatever was attempted. */
  lemma FailuresInSpan(attempts: seq<Attempt>, i: nat, j: nat, span: nat)
    requires Ordered(attempts) && i <= j < |Failures(attempts)| && Failures(attempts)[j] - Failures(attempts)[i] <= span
    ensures j - i + 1 <= LOCK_THRESHOLD + span / LOCK
  {
    hide Failures, Run, Ordered;
    CountIsFailures(attempts);
    SpanOfSpaced(Failures(attempts), i, j, span);
  }

  lemma SpanOfSpaced(f: seq<int>, i: nat, j: nat, span: nat)
    requires Spaced(f) && i <= j < |f| && f[j] - f[i] <= span
    ensures j - i + 1 <= LOCK_THRESHOLD + span / LOCK
  {
    var from := if i < LOCK_THRESHOLD - 1 then LOCK_THRESHOLD - 1 else i;
    if from <= j {
      SpacedFrom(f, from, j);
      assert f[i] <= f[from];
      hide Spaced;
      Whole(j - from, span);
    }
  }

  lemma Whole(n: nat, span: nat)
    requires n * LOCK <= span
    ensures n <= span / LOCK
  {
    assert (span / LOCK) * LOCK + span % LOCK == span;
  }

  /** A login needs the latest failure, if it was the fifth or a later one, to lie a
      full lock back. */
  lemma NoLoginWhileLocked(attempts: seq<Attempt>, t: Attempt)
    requires Ordered(attempts + [t]) && Answer(Run(attempts), t) == LoggedIn
    ensures var f := Failures(attempts); |f| >= LOCK_THRESHOLD ==> t.at >= f[|f| - 1] + LOCK
  {
    assert Ordered(attempts) by {
      assert forall i :: 0 <= i < |attempts| ==> attempts[i] == (attempts + [t])[i];
    }
    CountIsFailures(attempts);
  }
}
