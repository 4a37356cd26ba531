/** The reaper reads due holds first and releases them one by one later: whatever happens in
    between, a hold is refunded at most once and only while it is still held. */
module ReaperLaws {
  import opened Results
  import opened Tiers
  import opened Charging
  import opened Intake
  import opened Quotes
  import opened Ledger
  import opened LedgerBooks
  import opened LedgerRuns

  predicate Refunded(r: Row) { r.status == Released || r.status == Expired }

  predicate Releases(e: Event, id: string) {
    match e
    case FailEvent(i) => i == id
    case ReapEvent(i) => i == id
    case _ => false
  }

  /** What one step pays back for a reservation: the change of its account's balance, if the step
      is a release that took effect. */
  ghost function RefundAt(s: Store, e: Event, id: string): seq<real> {
    var t := Apply(s, e).store;
    if Releases(e, id) && id in s.rows && t != s
    then [Balance(t, s.rows[id].account) - Balance(s, s.rows[id].account)] else []
  }

  ghost function Refunds(s: Store, events: seq<Event>, id: string): seq<real>
    decreases |events|
  {
    if events == [] then []
    else RefundAt(s, events[0], id) + Refunds(Apply(s, events[0]).store, events[1..], id)
  }

  // ----- one release

  /** A release takes effect exactly on a held row; then it pays back the whole current hold and
      touches no other account, row, token or line. */
  lemma {:induction false} ReleaseRefundsHeldOnly(s: Store, id: string, target: Status)
    requires Inv(s) && (target == Released || target == Expired)
    ensures var t := ReleaseStep(s, id, target).store;
      && (t != s <==> id in s.rows && s.rows[id].status == Held)
      && (t != s ==>
            && t.rows.Keys == s.rows.Keys && t.rows[id].status == target && t.rows[id].released == s.rows[id].reserved
            && Balance(t, s.rows[id].account) == Balance(s, s.rows[id].account) + s.rows[id].reserved
            && (forall a :: a != s.rows[id].account ==> Balance(t, a) == Balance(s, a))
            && (forall i :: i in s.rows && i != id ==> t.rows[i] == s.rows[i])
            && t.tokens == s.tokens && t.lines == s.lines && t.transactions == s.transactions)
  {
    hide Inv;
    if id in s.rows {
      RowIsSound(s, id);
      var t := ReleaseStep(s, id, target).store;
      if s.rows[id].status == Held { assert t.rows[id].status == target; }
    }
  }

  lemma StartsHeld(s: Store, e: Event, id: string)
    requires id !in s.rows && id in Apply(s, e).store.rows
    ensures Apply(s, e).store.rows[id].status == Held
  {
    hide Quote, QuoteAgain, OverLimit, SettleAmount, SettlementMetrics, DecimalAccepted;
  }

  /** No step but a release turns an open row into a refunded one. */
  lemma OnlyReleasesRefund(s: Store, e: Event, id: string)
    requires id in s.rows && Open(s.rows[id]) && !Releases(e, id)
    ensures id in Apply(s, e).store.rows && !Refunded(Apply(s, e).store.rows[id])
  {
    hide Quote, QuoteAgain, OverLimit, SettleAmount, SettlementMetrics, DecimalAccepted, Balance, ChargeKey, Max, Taken;
    match e
    case CreditEvent(c) =>
    case ReserveEvent(q) =>
    case PendingEvent(i) =>
    case SettleEvent(i, q) =>
    case ReconcileEvent(i, request, q) =>
    case RebindEvent(i, q) =>
    case ExtendEvent(i, now, seconds) =>
    case FailEvent(i) =>
    case ReapEvent(i) =>
  }

  lemma StepRefund(s: Store, e: Event, id: string)
    requires Inv(s)
    ensures var t := Apply(s, e).store;
      if id in s.rows && Open(s.rows[id]) && id in t.rows && Refunded(t.rows[id])
      then s.rows[id].status == Held && RefundAt(s, e, id) == [t.rows[id].released]
      else RefundAt(s, e, id) == []
  {
    hide Inv, CreditStep, ReserveStep, MarkPendingStep, SettleStep, RebindStep, ExtendStep, ReleaseStep;
    if Releases(e, id) {
      ReleaseRefundsHeldOnly(s, id, if e.FailEvent? then Released else Expired);
    } else if id in s.rows && Open(s.rows[id]) {
      OnlyReleasesRefund(s, e, id);
    }
  }

  /** Over every run, retries and races included: a reservation that ends released or expired was
      paid back exactly once, with the amount its row records; one that ends held, pending or
      settled was never paid back. */
  lemma {:induction false} RefundedOnce(s: Store, events: seq<Event>, id: string)
    requires Inv(s)
    ensures var t := Run(s, events);
      if (id in s.rows ==> Open(s.rows[id])) && id in t.rows && Refunded(t.rows[id])
      then Refunds(s, events, id) == [t.rows[id].released]
      else Refunds(s, events, id) == []
    decreases |events|
  {
    hide Inv, Apply, RefundAt;
    if events != [] {
      var t := Apply(s, events[0]).store;
      StepRefund(s, events[0], id);
      ApplyKeeps(s, events[0]);
      RefundedOnce(t, events[1..], id);
      if id in s.rows {
        StepFollows(s, events[0], id);
      } else if id in t.rows {
        StartsHeld(s, events[0], id);
      }
      if id in t.rows { RunFollows(t, events[1..], id); }
    }
  }

  // ----- the two phases

  /** The releases of one pass, with arbitrary steps of others before each. */
  function Schedule(listed: seq<string>, between: seq<seq<Event>>): seq<Event>
    requires |between| == |listed|
  {
    if listed == [] then [] else between[0] + [ReapEvent(listed[0])] + Schedule(listed[1..], between[1..])
  }

  lemma {:induction false} RunAppend(s: Store, xs: seq<Event>, ys: seq<Event>)
    ensures Run(s, xs + ys) == Run(Run(s, xs), ys)
    decreases |xs|
  {
    hide Apply;
    if xs == [] {
      assert xs + ys == ys;
    } else {
      assert (xs + ys)[0] == xs[0] && (xs + ys)[1..] == xs[1..] + ys;
      RunAppend(Apply(s, xs[0]).store, xs[1..], ys);
    }
  }

  /** After its turn no listed hold is held any more: it was paid back, is being settled, or the
      pass found it closed already. */
  lemma {:induction false} PassLeavesNoHold(s: Store, listed: seq<string>, between: seq<seq<Event>>, id: string)
    requires |between| == |listed| && Inv(s) && id in s.rows && (id in listed || s.rows[id].status != Held)
    ensures var t := Run(s, Schedule(listed, between));
      id in t.rows && t.rows[id].status != Held
    decreases |listed|
  {
    hide Inv, Apply, Run;
    if listed == [] {
      assert Run(s, []) == s by { NoEvents(s); }
    } else {
      var before := Run(s, between[0]);
      BooksBalance(s, between[0]);
      RunFollows(s, between[0], id);
      if s.rows[id].status != Held { StaysUnheld(s, between[0], id); }
      var after := Apply(before, ReapEvent(listed[0])).store;
      ApplyKeeps(before, ReapEvent(listed[0]));
      StepFollows(before, ReapEvent(listed[0]), id);
      if id == listed[0] || before.rows[id].status != Held { ReapedIsUnheld(before, listed[0], id); }
      PassLeavesNoHold(after, listed[1..], between[1..], id);
      RunAppend(s, between[0] + [ReapEvent(listed[0])], Schedule(listed[1..], between[1..]));
      RunAppend(s, between[0], [ReapEvent(listed[0])]);
      OneEvent(before, ReapEvent(listed[0]));
    }
  }

  lemma NoEvents(s: Store)
    ensures Run(s, []) == s
  {
  }

  lemma OneEvent(s: Store, e: Event)
    ensures Run(s, [e]) == Apply(s, e).store
  {
    hide Apply;
    assert [e][1..] == [];
    NoEvents(Apply(s, e).store);
  }

  /** Nothing becomes held again. */
  lemma StaysUnheld(s: Store, events: seq<Event>, id: string)
    requires id in s.rows && s.rows[id].status != Held
    ensures id in Run(s, events).rows && Run(s, events).rows[id].status != Held
  {
    hide Run;
    RunFollows(s, events, id);
  }

  lemma ReapedIsUnheld(s: Store, listed: string, id: string)
    requires Inv(s) && id in s.rows && (id == listed || s.rows[id].status != Held)
    ensures var t := Apply(s, ReapEvent(listed)).store;
      id in t.rows && t.rows[id].status != Held
  {
    hide Inv, ReleaseStep;
    StepFollows(s, ReapEvent(listed), id);
    ReleaseRefundsHeldOnly(s, listed, Expired);
  }

  // ----- a pass that nobody interrupts

  function Reaps(ids: seq<string>): seq<Event> {
    if ids == [] then [] else [ReapEvent(ids[0])] + Reaps(ids[1..])
  }

  /** On sound books a pass never stops early: it is a run of one release for each id. */
  lemma {:induction false} PassIsRun(s: Store, ids: seq<string>)
    requires Inv(s)
    ensures Pass(s, ids).2 == Ok(()) && Pass(s, ids).0 == Run(s, Reaps(ids))
    decreases |ids|
  {
    hide Inv, ReleaseStep, Apply;
    if ids != [] {
      ReleaseNeverBreaks(s, ids[0]);
      ApplyKeeps(s, ReapEvent(ids[0]));
      ApplyReap(s, ids[0]);
      PassIsRun(ReleaseStep(s, ids[0], Expired).store, ids[1..]);
      assert Reaps(ids)[1..] == Reaps(ids[1..]);
    }
  }

  lemma ApplyReap(s: Store, id: string)
    ensures Apply(s, ReapEvent(id)) == ReleaseStep(s, id, Expired)
  {
    hide ReleaseStep;
  }

  lemma ReleaseNeverBreaks(s: Store, id: string)
    requires Inv(s)
    ensures var o := ReleaseStep(s, id, Expired).outcome;
      o.Ok? || o.error == ReservationClosed || o.error == ReservationNotFound
  {
    hide Inv;
    if id in s.rows { RowIsSound(s, id); }
  }

  lemma ReleaseOfHeld(s: Store, id: string)
    requires Inv(s) && id in s.rows && s.rows[id].status == Held
    ensures ReleaseStep(s, id, Expired).outcome.Ok?
    ensures ReleaseStep(s, id, Expired).store.rows == s.rows[id := ReleasedRow(s.rows[id], Expired)]
  {
    hide Inv;
    RowIsSound(s, id);
  }

  lemma {:induction false} PassExpires(s: Store, ids: seq<string>)
    requires Inv(s) && (forall id :: id in ids ==> id in s.rows && s.rows[id].status == Held)
    requires forall i, j :: 0 <= i < j < |ids| ==> ids[i] != ids[j]
    ensures var (t, n, r) := Pass(s, ids);
      && n == |ids| && t.rows.Keys == s.rows.Keys
      && forall id :: id in s.rows ==> t.rows[id] == if id in ids then ReleasedRow(s.rows[id], Expired) else s.rows[id]
    decreases |ids|
  {
    hide Inv, ReleaseStep;
    if ids != [] {
      var t := ReleaseStep(s, ids[0], Expired).store;
      ReleaseOfHeld(s, ids[0]);
      ApplyReap(s, ids[0]);
      ApplyKeeps(s, ReapEvent(ids[0]));
      PassExpires(t, ids[1..]);
      assert forall id :: id in ids <==> id == ids[0] || id in ids[1..];
    }
  }

  /** An uninterrupted pass expires every hold it listed and no other, and unless the batch was
      full nothing that was due is left. */
  lemma {:induction false} PassClearsDue(s: Store, now: int, ids: seq<string>)
    requires Inv(s) && Listing(s, now, REAPER_BATCH, ids)
    ensures var (t, n, r) := Pass(s, ids);
      && r == Ok(()) && n == |ids| <= 100
      && t.rows.Keys == s.rows.Keys
      && (forall id :: id in s.rows ==> t.rows[id] == if id in ids then ReleasedRow(s.rows[id], Expired) else s.rows[id])
      && (|ids| < 100 ==> forall id :: !Due(t, now, id))
  {
    hide Inv, Pass;
    forall id | id in ids
      ensures Due(s, now, id)
    {
    }
    PassExpires(s, ids);
    PassIsRun(s, ids);
  }

  /** How many of the listed ids are there and not pending. */
  function Reapable(s: Store, ids: seq<string>): nat {
    if ids == [] then 0
    else (if ids[0] in s.rows && s.rows[ids[0]].status != Pending then 1 else 0) + Reapable(s, ids[1..])
  }

  lemma {:induction false} SameReapable(s: Store, t: Store, ids: seq<string>)
    requires s.rows.Keys == t.rows.Keys
    requires forall id :: id in s.rows ==> (s.rows[id].status == Pending <==> t.rows[id].status == Pending)
    ensures Reapable(s, ids) == Reapable(t, ids)
  {
    if ids != [] { SameReapable(s, t, ids[1..]); }
  }

  /** The number a pass reports, whatever was listed: every id that is there and not pending, closed ones
      included; missing and pending ones are skipped. */
  lemma {:induction false} PassCounts(s: Store, ids: seq<string>)
    requires Inv(s)
    ensures Pass(s, ids).1 == Reapable(s, ids)
    decreases |ids|
  {
    hide Inv, ReleaseStep, Apply;
    if ids != [] {
      var t := ReleaseStep(s, ids[0], Expired).store;
      ReleaseNeverBreaks(s, ids[0]);
      ApplyKeeps(s, ReapEvent(ids[0]));
      ApplyReap(s, ids[0]);
      ReleaseKeepsPending(s, ids[0]);
      SameReapable(s, t, ids[1..]);
      PassCounts(t, ids[1..]);
    }
  }

  lemma ReleaseKeepsPending(s: Store, id: string)
    requires Inv(s)
    ensures var t := ReleaseStep(s, id, Expired).store;
      && s.rows.Keys == t.rows.Keys
      && forall i :: i in s.rows ==> (s.rows[i].status == Pending <==> t.rows[i].status == Pending)
    ensures ReleaseStep(s, id, Expired).outcome.Ok? <==> id in s.rows && s.rows[id].status != Pending
  {
    hide Inv;
    if id in s.rows { RowIsSound(s, id); }
  }

  // ----- what the read no longer guarantees

  /** A hold that was due when the reaper read it expires at its turn exactly if it is still held,
      and then the account has got back the amount the row holds by then. */
  lemma {:induction false} ListedExpiresIffHeld(s: Store, now: int, id: string, events: seq<Event>)
    requires Inv(s) && Due(s, now, id)
    ensures var t := Run(s, events);
      var u := Apply(t, ReapEvent(id)).store;
      && id in t.rows && id in u.rows
      && (t.rows[id].status == Held <==> u.rows[id].status == Expired && t.rows[id].status != Expired)
      && (t.rows[id].status == Held ==>
            Balance(u, t.rows[id].account) == Balance(t, t.rows[id].account) + t.rows[id].reserved)
      && (t.rows[id].status != Held ==> u == t)
  {
    hide Inv, Run, ReleaseStep;
    RunFollows(s, events, id);
    BooksBalance(s, events);
    ReleaseRefundsHeldOnly(Run(s, events), id, Expired);
  }

  /** The release looks at the status only: it expires a hold that is not due exactly when that
      hold is still held and its expiry lies in the future. */
  lemma {:induction false} ExpiresEarlyIff(s: Store, now: int, id: string)
    requires Inv(s)
    ensures Apply(s, ReapEvent(id)).store != s && !Due(s, now, id) <==>
      id in s.rows && s.rows[id].status == Held && s.rows[id].expiresAt > now
  {
    hide Inv, ReleaseStep;
    ReleaseRefundsHeldOnly(s, id, Expired);
  }

  /** So extending a due hold between the read and the release does not save it. */
  lemma {:induction false} ExtendedHoldStillExpires(s: Store, now: int, seconds: int, id: string)
    requires Inv(s) && Due(s, now, id) && 0 < seconds <= DAY
    ensures var t := Apply(s, ExtendEvent(id, now, seconds)).store;
      var u := Apply(t, ReapEvent(id)).store;
      && !Due(t, now, id) && id in t.rows && t.rows[id].expiresAt == now + seconds
      && id in u.rows && u.rows[id].status == Expired
      && Balance(u, s.rows[id].account) == Balance(s, s.rows[id].account) + s.rows[id].reserved
  {
    hide Inv, ReleaseStep;
    var t := Apply(s, ExtendEvent(id, now, seconds)).store;
    ApplyKeeps(s, ExtendEvent(id, now, seconds));
    ReleaseRefundsHeldOnly(t, id, Expired);
  }

  // ----- reconciliation reads before it settles, too

  /** Between reconciliation's read of a pending row and its settlement others may act; settling
      then is the same as finding the row and settling it in one step. */
  lemma {:induction false} ReconcileReadIsStable(s: Store, events: seq<Event>, id: string, q: SettleRequest)
    requires id in s.rows && s.rows[id].status == Pending
    ensures var t := Run(s, events);
      && id in t.rows && t.rows[id].request == s.rows[id].request
      && SettleStep(t, id, q).store == SettleByRequestStep(t, id, s.rows[id].request, q).store
      && (t.rows[id].status == Pending ==> SettleStep(t, id, q) == SettleByRequestStep(t, id, s.rows[id].request, q))
  {
    hide Run, SettledStore, SettleAmount, SettlementMetrics;
    RunFollows(s, events, id);
  }
}
