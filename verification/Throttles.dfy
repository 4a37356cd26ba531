/** Throttle rows and the three rules that update them: the request quota, the login recorder and
    the second-factor recorder.  Times are integers; a subject is its digest. */
module Throttles {
  import opened Results

  /** One row of login_throttles. */
  datatype Record = Record(count: nat, first: int, lockedUntil: Option<int>)

  datatype Limits = Limits(max: int, window: int, lock: int)

  predicate ValidLimits(l: Limits) { l.max >= 1 && l.window > 0 && l.lock > 0 }

  type Table = map<string, Record>

  function Find(t: Table, subject: string): (e: Option<Record>)
    ensures e.Some? <==> subject in t
    ensures e.Some? ==> e.value == t[subject]
  {
    if subject in t then Some(t[subject]) else None
  }

  predicate LockedAt(e: Option<Record>, now: int) {
    e.Some? && e.value.lockedUntil.Some? && e.value.lockedUntil.value > now
  }

  predicate WindowOver(l: Limits, r: Record, now: int) { r.first < now - l.window }

  // ----- request quota

  function AllowStep(l: Limits, e: Option<Record>, now: int): (Record, bool) {
    match e
    case None => (Record(1, now, None), true)
    case Some(r) =>
      if LockedAt(e, now) then (r, false)
      else if WindowOver(l, r, now) then (Record(1, now, None), true)
      else if r.count >= l.max then (r.(lockedUntil := Some(now + l.lock)), false)
      else (r.(count := r.count + 1), true)
  }

  class RequestThrottle {
    const limits: Limits
    var table: Table

    constructor (limits: Limits)
      requires ValidLimits(limits)
      ensures this.limits == limits && table == map[]
    {
      this.limits := limits;
      table := map[];
    }

    method Allow(subject: string, now: int) returns (ok: bool)
      modifies this
      ensures table == old(table)[subject := AllowStep(limits, Find(old(table), subject), now).0]
      ensures ok == AllowStep(limits, Find(old(table), subject), now).1
    {
      if subject !in table {
        table := table[subject := Record(1, now, None)];
        return true;
      }
      var r := table[subject];
      assert table[subject := r] == table;
      if r.lockedUntil.Some? && r.lockedUntil.value > now { return false; }
      if r.first < now - limits.window {
        table := table[subject := Record(1, now, None)];
        return true;
      }
      if r.count >= limits.max {
        table := table[subject := r.(lockedUntil := Some(now + limits.lock))];
        return false;
      }
      table := table[subject := r.(count := r.count + 1)];
      return true;
    }
  }

  method NewRequestThrottle(limits: Limits) returns (r: Result<RequestThrottle>)
    ensures r.Ok? <==> limits.max >= 1 && limits.window > 0 && limits.lock > 0
    ensures r.Ok? ==> fresh(r.value) && r.value.limits == limits && r.value.table == map[]
  {
    if limits.max < 1 || limits.window <= 0 || limits.lock <= 0 { return Err(InvalidRequest); }
    var throttle := new RequestThrottle(limits);
    return Ok(throttle);
  }

  // ----- failure recorders

  /** The login recorder's row after a failure: three CASE columns over the old row. */
  function LoginFailure(l: Limits, e: Option<Record>, now: int): Record {
    match e
    case None => Record(1, now, None)
    case Some(r) =>
      Record(if WindowOver(l, r, now) then 1 else r.count + 1,
             if WindowOver(l, r, now) then now else r.first,
             if WindowOver(l, r, now) then None
             else if r.count + 1 >= l.max then Some(now + l.lock)
             else r.lockedUntil)
  }

  /** The second-factor recorder's row: it never carries an old lock over. */
  function StepUpFailure(l: Limits, e: Option<Record>, now: int): Record {
    match e
    case None => Record(1, now, None)
    case Some(r) =>
      if WindowOver(l, r, now) then Record(1, now, None)
      else Record(r.count + 1, r.first, if r.count + 1 >= l.max then Some(now + l.lock) else None)
  }

  class LoginThrottle {
    const limits: Limits
    var table: Table

    constructor (limits: Limits)
      requires ValidLimits(limits)
      ensures this.limits == limits && table == map[]
    {
      this.limits := limits;
      table := map[];
    }

    method IsThrottled(subject: string, now: int) returns (throttled: bool)
      ensures throttled == LockedAt(Find(table, subject), now)
    {
      if subject !in table { return false; }
      var lockedUntil := table[subject].lockedUntil;
      return lockedUntil.Some? && lockedUntil.value > now;
    }

    /** One upsert; every column reads the row as it was. */
    method RecordFailure(subject: string, now: int)
      modifies this
      ensures table == old(table)[subject := LoginFailure(limits, Find(old(table), subject), now)]
    {
      var windowStart, lockUntil := now - limits.window, now + limits.lock;
      if subject !in table {
        table := table[subject := Record(1, now, None)];
      } else {
        var r := table[subject];
        table := table[subject := r.(
          count := if r.first < windowStart then 1 else r.count + 1,
          first := if r.first < windowStart then now else r.first,
          lockedUntil := if r.first < windowStart then None
                         else if r.count + 1 >= limits.max then Some(lockUntil)
                         else r.lockedUntil)];
      }
    }

    method Clear(subject: string)
      modifies this
      ensures table == old(table) - {subject}
    {
      table := table - {subject};
    }
  }

  method NewLoginThrottle(limits: Limits) returns (r: Result<LoginThrottle>)
    ensures r.Ok? <==> limits.max >= 1 && limits.window > 0 && limits.lock > 0
    ensures r.Ok? ==> fresh(r.value) && r.value.limits == limits && r.value.table == map[]
  {
    if limits.max < 1 || limits.window <= 0 || limits.lock <= 0 { return Err(InvalidRequest); }
    var throttle := new LoginThrottle(limits);
    return Ok(throttle);
  }

  const STEP_UP_LIMITS := Limits(5, 900, 900)

  class StepUpThrottle {
    var table: Table

    constructor ()
      ensures table == map[]
    {
      table := map[];
    }

    method StepUpThrottled(subject: string, now: int) returns (throttled: bool)
      ensures throttled == LockedAt(Find(table, subject), now)
    {
      if subject !in table { return false; }
      var lockedUntil := table[subject].lockedUntil;
      return lockedUntil.Some? && lockedUntil.value > now;
    }

    /** Reads the row under its lock, then writes one of three updates. */
    method RecordStepUpFailure(subject: string, now: int)
      modifies this
      ensures table == old(table)[subject := StepUpFailure(STEP_UP_LIMITS, Find(old(table), subject), now)]
    {
      if subject !in table {
        table := table[subject := Record(1, now, None)];
        return;
      }
      var count, first := table[subject].count, table[subject].first;
      if first < now - STEP_UP_LIMITS.window {
        table := table[subject := Record(1, now, None)];
      } else {
        var lockedUntil := None;
        if count + 1 >= STEP_UP_LIMITS.max {
          lockedUntil := Some(now + STEP_UP_LIMITS.lock);
        }
        table := table[subject := table[subject].(count := table[subject].count + 1, lockedUntil := lockedUntil)];
      }
    }

    method ClearStepUpFailures(subject: string)
      modifies this
      ensures table == old(table) - {subject}
    {
      table := table - {subject};
    }
  }
}
