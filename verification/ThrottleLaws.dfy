/** Bounds over whole timed runs of the throttles. */
module ThrottleLaws {
  import opened Results
  import opened Throttles

  // ----- runs of the request quota

  /** A clock that never goes back. */
  ghost predicate Clocked(times: seq<int>) {
    forall i, j :: 0 <= i < j < |times| ==> times[i] <= times[j]
  }

  ghost predicate UpTo(times: seq<int>, last: int) {
    forall i :: 0 <= i < |times| ==> times[i] <= last
  }

  ghost predicate From(times: seq<int>, first: int) {
    forall i :: 0 <= i < |times| ==> first <= times[i]
  }

  function After(l: Limits, e: Option<Record>, times: seq<int>): Option<Record>
    decreases |times|
  {
    if times == [] then e else After(l, Some(AllowStep(l, e, times[0]).0), times[1..])
  }

  function Grants(l: Limits, e: Option<Record>, times: seq<int>): nat
    decreases |times|
  {
    if times == [] then 0
    else (if AllowStep(l, e, times[0]).1 then 1 else 0) + Grants(l, Some(AllowStep(l, e, times[0]).0), times[1..])
  }

  /** The call starts a new window. */
  predicate Resets(l: Limits, e: Option<Record>, now: int) {
    e.None? || (!LockedAt(e, now) && WindowOver(l, e.value, now))
  }

  predicate NoResets(l: Limits, e: Option<Record>, times: seq<int>)
    decreases |times|
  {
    times == [] || (!Resets(l, e, times[0]) && NoResets(l, Some(AllowStep(l, e, times[0]).0), times[1..]))
  }

  function Room(l: Limits, r: Record): nat { if r.count < l.max then l.max - r.count else 0 }

  lemma {:induction false} GrantsFillRoom(l: Limits, r: Record, times: seq<int>)
    requires NoResets(l, Some(r), times)
    ensures Grants(l, Some(r), times) <= Room(l, r)
    decreases |times|
  {
    if times != [] { GrantsFillRoom(l, AllowStep(l, Some(r), times[0]).0, times[1..]); }
  }

  /** From the call that starts a window to the last call before the next start, at most `max` calls
      are granted, the first one included. */
  lemma {:induction false} GrantsBetweenResets(l: Limits, e: Option<Record>, start: int, times: seq<int>)
    requires ValidLimits(l) && Resets(l, e, start) && NoResets(l, Some(AllowStep(l, e, start).0), times)
    ensures Grants(l, e, [start] + times) <= l.max
  {
    var r := AllowStep(l, e, start).0;
    assert ([start] + times)[1..] == times;
    GrantsFillRoom(l, r, times);
  }

  lemma {:induction false} NoResetWithinWindow(l: Limits, r: Record, times: seq<int>)
    requires UpTo(times, r.first + l.window)
    ensures NoResets(l, Some(r), times)
    decreases |times|
  {
    if times != [] {
      NoResetWithinWindow(l, AllowStep(l, Some(r), times[0]).0, times[1..]);
    }
  }

  lemma {:induction false} GrantsAcrossOneReset(l: Limits, r: Record, times: seq<int>, from: int)
    requires ValidLimits(l) && Clocked(times) && From(times, from) && UpTo(times, from + l.window)
    ensures Grants(l, Some(r), times) <= Room(l, r) + l.max
    decreases |times|
  {
    if times != [] {
      var r' := AllowStep(l, Some(r), times[0]).0;
      if Resets(l, Some(r), times[0]) {
        NoResetWithinWindow(l, r', times[1..]);
        GrantsFillRoom(l, r', times[1..]);
      } else {
        GrantsAcrossOneReset(l, r', times[1..], from);
      }
    }
  }

  /** In any interval no longer than the window a subject gets at most 2 * max - 1 calls through,
      whatever happened before: every stored row counts at least one call. */
  lemma WindowGrants(l: Limits, e: Option<Record>, times: seq<int>, from: int)
    requires ValidLimits(l) && Clocked(times) && From(times, from) && UpTo(times, from + l.window)
    requires e.Some? ==> e.value.count >= 1
    ensures Grants(l, e, times) <= 2 * l.max - 1
  {
    if e.Some? {
      GrantsAcrossOneReset(l, e.value, times, from);
    } else if times != [] {
      var r := AllowStep(l, e, times[0]).0;
      NoResetWithinWindow(l, r, times[1..]);
      GrantsFillRoom(l, r, times[1..]);
    }
  }

  lemma {:induction false} RowsCount(l: Limits, e: Option<Record>, times: seq<int>)
    requires e.Some? ==> e.value.count >= 1
    ensures After(l, e, times).Some? ==> After(l, e, times).value.count >= 1
    decreases |times|
  {
    if times != [] { RowsCount(l, Some(AllowStep(l, e, times[0]).0), times[1..]); }
  }

  lemma {:induction false} GrantsAppend(l: Limits, e: Option<Record>, xs: seq<int>, ys: seq<int>)
    ensures Grants(l, e, xs + ys) == Grants(l, e, xs) + Grants(l, After(l, e, xs), ys)
    ensures After(l, e, xs + ys) == After(l, After(l, e, xs), ys)
    decreases |xs|
  {
    if xs == [] {
      assert xs + ys == ys;
    } else {
      assert (xs + ys)[0] == xs[0] && (xs + ys)[1..] == xs[1..] + ys;
      GrantsAppend(l, Some(AllowStep(l, e, xs[0]).0), xs[1..], ys);
    }
  }

  /** The same over runs: whatever calls came before, an interval no longer than the window lets at
      most 2 * max - 1 calls through. */
  lemma {:induction false} AnyWindowGrants(l: Limits, before: seq<int>, times: seq<int>, from: int)
    requires ValidLimits(l) && Clocked(times) && From(times, from) && UpTo(times, from + l.window)
    ensures Grants(l, None, before + times) <= Grants(l, None, before) + 2 * l.max - 1
  {
    GrantsAppend(l, None, before, times);
    RowsCount(l, None, before);
    WindowGrants(l, After(l, None, before), times, from);
  }

  // ----- the bound is reached

  function Repeat(t: int, n: nat): seq<int> { seq(n, _ => t) }

  lemma {:induction false} BurstGranted(l: Limits, r: Record, t: int, n: nat)
    requires r.lockedUntil.None? && !WindowOver(l, r, t) && r.count + n <= l.max
    ensures Grants(l, Some(r), Repeat(t, n)) == n
    ensures After(l, Some(r), Repeat(t, n)) == Some(r.(count := r.count + n))
    decreases n
  {
    if n > 0 {
      assert Repeat(t, n)[0] == t && Repeat(t, n)[1..] == Repeat(t, n - 1);
      BurstGranted(l, r.(count := r.count + 1), t, n - 1);
    }
  }

  /** A subject that spends its quota at the very end of one window and again right after gets
      2 * max - 1 calls through in one time unit. */
  lemma {:induction false} WindowBoundIsTight(l: Limits)
    requires ValidLimits(l)
    ensures var times := Repeat(l.window, l.max - 1) + Repeat(l.window + 1, l.max);
      && Clocked(times) && From(times, l.window) && UpTo(times, l.window + 1)
      && Grants(l, After(l, None, [0]), times) == 2 * l.max - 1
  {
    var r := Record(1, 0, None);
    assert [0][1..] == [];
    assert After(l, None, [0]) == Some(r);
    BurstGranted(l, r, l.window, l.max - 1);
    var full := r.(count := l.max);
    var t := l.window + 1;
    var second := Repeat(t, l.max);
    assert second[0] == t && second[1..] == Repeat(t, l.max - 1);
    BurstGranted(l, Record(1, t, None), t, l.max - 1);
    GrantsAppend(l, Some(r), Repeat(l.window, l.max - 1), second);
    assert Grants(l, Some(full), second) == l.max;
  }

  // ----- locks

  /** Until a lock ends every call is denied and the row stays as it is. */
  lemma {:induction false} LockDenies(l: Limits, r: Record, times: seq<int>)
    requires r.lockedUntil.Some? && UpTo(times, r.lockedUntil.value - 1)
    ensures Grants(l, Some(r), times) == 0 && After(l, Some(r), times) == Some(r)
    decreases |times|
  {
    if times != [] {
      LockDenies(l, r, times[1..]);
    }
  }

  /** A call that is denied while no lock is active finds the quota spent, and from then on a whole
      lock period passes without a grant. */
  lemma {:induction false} DenialLocks(l: Limits, e: Option<Record>, now: int, times: seq<int>)
    requires !LockedAt(e, now) && !AllowStep(l, e, now).1
    requires UpTo(times, now + l.lock - 1)
    ensures e.Some? && e.value.count >= l.max && !WindowOver(l, e.value, now)
    ensures Grants(l, e, [now] + times) == 0
  {
    assert ([now] + times)[1..] == times;
    LockDenies(l, AllowStep(l, e, now).0, times);
  }

  /** Rows know no time later than the last call, locks none later than its lock period. */
  ghost predicate Timely(l: Limits, e: Option<Record>, last: int) {
    e.Some? ==> e.value.first <= last && (e.value.lockedUntil.Some? ==> e.value.lockedUntil.value <= last + l.lock)
  }

  lemma {:induction false} RunIsTimely(l: Limits, e: Option<Record>, times: seq<int>, last: int)
    requires ValidLimits(l) && Timely(l, e, last) && UpTo(times, last)
    ensures Timely(l, After(l, e, times), last)
    decreases |times|
  {
    if times != [] {
      RunIsTimely(l, Some(AllowStep(l, e, times[0]).0), times[1..], last);
    }
  }

  /** No subject is shut out for good: after a pause longer than the window and as long as a lock
      its next call is granted. */
  lemma {:induction false} PauseRestores(l: Limits, times: seq<int>, last: int, now: int)
    requires ValidLimits(l) && UpTo(times, last)
    requires now > last + l.window && now >= last + l.lock
    ensures AllowStep(l, After(l, None, times), now).1
  {
    RunIsTimely(l, None, times, last);
  }

  // ----- the two failure recorders

  datatype Attempt = Failure(now: int) | Success

  function LoginRun(l: Limits, e: Option<Record>, attempts: seq<Attempt>): Option<Record> {
    if attempts == [] then e
    else match attempts[|attempts| - 1]
      case Failure(now) => Some(LoginFailure(l, LoginRun(l, e, attempts[..|attempts| - 1]), now))
      case Success => None
  }

  function StepUpRun(l: Limits, e: Option<Record>, attempts: seq<Attempt>): Option<Record> {
    if attempts == [] then e
    else match attempts[|attempts| - 1]
      case Failure(now) => Some(StepUpFailure(l, StepUpRun(l, e, attempts[..|attempts| - 1]), now))
      case Success => None
  }

  /** A lock stands only on a count that the next failure locks again. */
  ghost predicate Earned(l: Limits, e: Option<Record>) {
    e.Some? && e.value.lockedUntil.Some? ==> e.value.count + 1 >= l.max
  }

  lemma {:induction false} EarnedAgree(l: Limits, e: Option<Record>, attempts: seq<Attempt>)
    requires Earned(l, e)
    ensures LoginRun(l, e, attempts) == StepUpRun(l, e, attempts) && Earned(l, LoginRun(l, e, attempts))
    decreases |attempts|
  {
    if attempts != [] { EarnedAgree(l, e, attempts[..|attempts| - 1]); }
  }

  lemma UnearnedDiffers(l: Limits, r: Record)
    requires ValidLimits(l) && !Earned(l, Some(r))
    ensures LoginRun(l, Some(r), [Failure(r.first)]) != StepUpRun(l, Some(r), [Failure(r.first)])
  {
    assert [Failure(r.first)][..0] == [];
  }

  /** With equal limits the single CASE update and the branching read-modify-write keep the same row
      through every run of failures and successes exactly from the rows whose lock, if any, was
      earned; in particular from no row at all. */
  lemma {:induction false} RecordersAgreeIff(l: Limits, e: Option<Record>)
    requires ValidLimits(l)
    ensures (forall attempts :: LoginRun(l, e, attempts) == StepUpRun(l, e, attempts)) <==> Earned(l, e)
    ensures Earned(l, None)
  {
    if Earned(l, e) {
      forall attempts
        ensures LoginRun(l, e, attempts) == StepUpRun(l, e, attempts)
      {
        EarnedAgree(l, e, attempts);
      }
    } else {
      UnearnedDiffers(l, e.value);
    }
  }

  function Failures(times: seq<int>): seq<Attempt> { seq(|times|, i requires 0 <= i < |times| => Failure(times[i])) }

  lemma {:induction false} RowAfterFailures(l: Limits, times: seq<int>)
    requires ValidLimits(l) && times != [] && Clocked(times) && times[|times| - 1] <= times[0] + l.window
    ensures LoginRun(l, None, Failures(times)) == Some(Record(|times|, times[0],
      if |times| >= l.max && |times| >= 2 then Some(times[|times| - 1] + l.lock) else None))
    decreases |times|
  {
    var n := |times| - 1;
    var before := times[..n];
    assert Failures(times)[..n] == Failures(before);
    assert Failures(times)[n] == Failure(times[n]);
    if n > 0 {
      assert before[|before| - 1] <= times[n];
      RowAfterFailures(l, before);
    } else {
      assert Failures(before) == [];
    }
  }

  /** After failures within one window a subject is shut out exactly if they reached the maximum and
      the lock period after the last one is not over.  A single failure never locks, not even with a
      maximum of one: the first row is inserted without a lock. */
  lemma {:induction false} ShutOutIff(l: Limits, times: seq<int>, now: int)
    requires ValidLimits(l) && times != [] && Clocked(times) && times[|times| - 1] <= times[0] + l.window
    ensures LockedAt(LoginRun(l, None, Failures(times)), now) <==>
      |times| >= l.max && |times| >= 2 && now < times[|times| - 1] + l.lock
    ensures LockedAt(StepUpRun(l, None, Failures(times)), now) <==> LockedAt(LoginRun(l, None, Failures(times)), now)
  {
    RowAfterFailures(l, times);
    EarnedAgree(l, None, Failures(times));
  }

  lemma {:induction false} FailuresSinceSuccess(l: Limits, attempts: seq<Attempt>)
    ensures var e := LoginRun(l, None, attempts);
      && (e.Some? ==> e.value.count <= Streak(attempts))
      && (e.Some? && e.value.lockedUntil.Some? ==> e.value.count >= l.max)
    decreases |attempts|
  {
    if attempts != [] { FailuresSinceSuccess(l, attempts[..|attempts| - 1]); }
  }

  /** Failures since the last success. */
  function Streak(attempts: seq<Attempt>): nat {
    if attempts == [] || attempts[|attempts| - 1].Success? then 0 else 1 + Streak(attempts[..|attempts| - 1])
  }

  /** Nobody is shut out with fewer than the maximum of failures since the last success. */
  lemma {:induction false} ShutOutNeedsFailures(l: Limits, attempts: seq<Attempt>, now: int)
    requires LockedAt(LoginRun(l, None, attempts), now) || LockedAt(StepUpRun(l, None, attempts), now)
    ensures Streak(attempts) >= l.max
  {
    FailuresSinceSuccess(l, attempts);
    EarnedAgree(l, None, attempts);
  }

  /** The second-factor recorder locks for a quarter of an hour from the fifth failure within a quarter
      of an hour on, and not before; a failure later than that starts over. */
  lemma {:induction false} StepUpLocks(times: seq<int>, now: int)
    requires times != [] && Clocked(times) && times[|times| - 1] <= times[0] + 900
    ensures LockedAt(StepUpRun(STEP_UP_LIMITS, None, Failures(times)), now) <==>
      |times| >= 5 && now < times[|times| - 1] + 900
    ensures forall r: Record :: r.first + 900 < now ==> StepUpFailure(STEP_UP_LIMITS, Some(r), now) == Record(1, now, None)
  {
    ShutOutIff(STEP_UP_LIMITS, times, now);
  }
}
