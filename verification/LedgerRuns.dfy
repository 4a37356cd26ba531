/** Safety over whole runs: one closing, one charge, keys that work once, spend limits, balance floors. */
module LedgerRuns {
  import opened Rounding
  import opened Sums
  import opened Tiers
  import opened Charging
  import opened Intake
  import opened Quotes
  import opened Ledger
  import opened LedgerBooks

  // ----- what a step does to one row

  predicate Closed(r: Row) { !Open(r) }

  /** Identity is fixed, closed rows are final, and what is pending can only become settled. */
  ghost predicate Follows(r: Row, r': Row) {
    && r'.request == r.request && r'.token == r.token && r'.account == r.account
    && (Closed(r) ==> r' == r)
    && (r.status == Pending ==> r'.status == Pending || r'.status == Settled)
  }

  lemma SettleFollows(s: Store, i: string, q: SettleRequest, id: string)
    requires id in s.rows
    ensures var t := SettleStep(s, i, q).store; id in t.rows && Follows(s.rows[id], t.rows[id])
  {
    hide SettleAmount, SettlementMetrics, Balance, ChargeKey, Max;
  }

  lemma RebindFollows(s: Store, i: string, q: RebindRequest, id: string)
    requires id in s.rows
    ensures var t := RebindStep(s, i, q).store; id in t.rows && Follows(s.rows[id], t.rows[id])
  {
    hide QuoteAgain, Balance;
  }

  lemma StepFollows(s: Store, e: Event, id: string)
    requires id in s.rows
    ensures id in Apply(s, e).store.rows && Follows(s.rows[id], Apply(s, e).store.rows[id])
  {
    hide Quote, OverLimit, DecimalAccepted, SettleStep, RebindStep;
    match e
    case CreditEvent(c) =>
    case ReserveEvent(q) =>
    case PendingEvent(i) =>
    case SettleEvent(i, q) => SettleFollows(s, i, q, id);
    case ReconcileEvent(i, request, q) => SettleFollows(s, i, q, id);
    case RebindEvent(i, q) => RebindFollows(s, i, q, id);
    case ExtendEvent(i, now, seconds) =>
    case FailEvent(i) =>
    case ReapEvent(i) =>
  }

  /** Settled, released and expired are absorbing; pending never turns into a refund. */
  lemma {:induction false} RunFollows(s: Store, events: seq<Event>, id: string)
    requires id in s.rows
    ensures id in Run(s, events).rows && Follows(s.rows[id], Run(s, events).rows[id])
    decreases |events|
  {
    hide Apply;
    if events != [] {
      StepFollows(s, events[0], id);
      RunFollows(Apply(s, events[0]).store, events[1..], id);
    }
  }

  // ----- closing once

  predicate ClosesAt(s: Store, t: Store, id: string) {
    id in s.rows && Open(s.rows[id]) && id in t.rows && Closed(t.rows[id])
  }

  ghost function Closings(s: Store, events: seq<Event>, id: string): nat
    decreases |events|
  {
    if events == [] then 0
    else
      var t := Apply(s, events[0]).store;
      (if ClosesAt(s, t, id) then 1 else 0) + Closings(t, events[1..], id)
  }

  /** However often it is retried, a reservation closes at most once. */
  lemma {:induction false} ClosesOnce(s: Store, events: seq<Event>, id: string)
    ensures Closings(s, events, id) <= 1
    ensures id in s.rows && Closed(s.rows[id]) ==> Closings(s, events, id) == 0
    decreases |events|
  {
    hide Apply;
    if events != [] {
      if id in s.rows { StepFollows(s, events[0], id); }
      ClosesOnce(Apply(s, events[0]).store, events[1..], id);
    }
  }

  lemma ChargesHaveKeys(s: Store, key: string)
    requires Journal(s) && key in s.transactions && s.transactions[key].ModelUsage?
    ensures key == ChargeKey(s.transactions[key].request)
    ensures exists id :: ChargeOf(s, key, id) && s.rows[id].request == s.transactions[key].request
  {
    hide LinesOf, Balanced, ChargeKey;
  }

  /** In every run a model request is charged by at most one transaction, only by settling its
      reservation, and that transaction's two lines carry exactly the settled amount. */
  lemma {:induction false} ChargedOnce(s: Store, events: seq<Event>, request: string, key: string)
    requires Fresh(s)
    requires var t := Run(s, events); key in t.transactions && t.transactions[key] == ModelUsage(request)
    ensures var t := Run(s, events);
      && key == ChargeKey(request)
      && (exists id :: ChargeOf(t, key, id) && t.rows[id].request == request)
      && forall k :: k in t.transactions && t.transactions[k] == ModelUsage(request) ==> k == key
  {
    hide Run, Fresh, Books, Income, Rows, Journal, ChargeKey, ChargeOf;
    FreshIsSound(s);
    BooksBalance(s, events);
    var t := Run(s, events);
    ChargesHaveKeys(t, key);
    forall k | k in t.transactions && t.transactions[k] == ModelUsage(request)
      ensures k == key
    {
      ChargesHaveKeys(t, k);
    }
  }

  // ----- idempotency keys

  predicate Uses(e: Event, key: string) {
    match e
    case CreditEvent(c) => c.key == key
    case ReserveEvent(q) => q.key == key
    case _ => false
  }

  /** Keys are never forgotten, and a step that takes effect under a key finds it new. */
  lemma StepUsesNewKey(s: Store, e: Event, key: string)
    ensures var t := Apply(s, e).store;
      && s.transactions.Keys <= t.transactions.Keys && s.requestKeys <= t.requestKeys
      && (e.CreditEvent? && Uses(e, key) && t != s ==> key !in s.transactions && key in t.transactions)
      && (e.ReserveEvent? && Uses(e, key) && t != s ==> key !in s.requestKeys && key in t.requestKeys)
  {
    hide Quote, QuoteAgain, OverLimit, SettleAmount, DecimalAccepted, SettlementMetrics, Balance, ChargeKey, Taken, Max;
  }

  ghost function Credits(s: Store, events: seq<Event>, key: string): nat
    decreases |events|
  {
    if events == [] then 0
    else
      var t := Apply(s, events[0]).store;
      (if events[0].CreditEvent? && Uses(events[0], key) && t != s then 1 else 0) + Credits(t, events[1..], key)
  }

  ghost function Reserves(s: Store, events: seq<Event>, key: string): nat
    decreases |events|
  {
    if events == [] then 0
    else
      var t := Apply(s, events[0]).store;
      (if events[0].ReserveEvent? && Uses(events[0], key) && t != s then 1 else 0) + Reserves(t, events[1..], key)
  }

  /** Under one idempotency key at most one credit and at most one reservation take effect, however
      often they are repeated. */
  lemma {:induction false} KeysWorkOnce(s: Store, events: seq<Event>, key: string)
    ensures Credits(s, events, key) <= (if key in s.transactions then 0 else 1)
    ensures Reserves(s, events, key) <= (if key in s.requestKeys then 0 else 1)
    decreases |events|
  {
    hide Apply, Uses;
    if events != [] {
      StepUsesNewKey(s, events[0], key);
      KeysWorkOnce(Apply(s, events[0]).store, events[1..], key);
    }
  }

  // ----- spend limits

  ghost function Exposure(s: Store, token: string): real
    requires token in s.tokens
  {
    s.tokens[token].spent + Total(s.rows, OpenOf(token))
  }

  /** How far a settlement exceeds its hold, or a rebind raises it. */
  ghost function Overrun(s: Store, e: Event): real {
    var t := Apply(s, e).store;
    match e
    case SettleEvent(id, _) => if ClosesAt(s, t, id) then Positive(t.rows[id].settled - s.rows[id].reserved) else 0.0
    case ReconcileEvent(id, _, _) => if ClosesAt(s, t, id) then Positive(t.rows[id].settled - s.rows[id].reserved) else 0.0
    case RebindEvent(id, _) =>
      if id in s.rows && id in t.rows then Positive(t.rows[id].reserved - s.rows[id].reserved) else 0.0
    case _ => 0.0
  }

  predicate Concerns(e: Event, id: string) {
    match e
    case SettleEvent(i, _) => i == id
    case ReconcileEvent(i, _, _) => i == id
    case RebindEvent(i, _) => i == id
    case _ => false
  }

  ghost function TokenOverrun(s: Store, e: Event, token: string): real {
    if exists id :: id in s.rows && Concerns(e, id) && s.rows[id].token == token then Overrun(s, e) else 0.0
  }

  ghost function TokenOverruns(s: Store, events: seq<Event>, token: string): real
    decreases |events|
  {
    if events == [] then 0.0
    else TokenOverrun(s, events[0], token) + TokenOverruns(Apply(s, events[0]).store, events[1..], token)
  }

  lemma TotalAfter(s: Store, id: string, r: Row, token: string)
    ensures Total(s.rows[id := r], OpenOf(token)) ==
      Total(s.rows, OpenOf(token)) - (if id in s.rows then OpenOf(token)(s.rows[id]) else 0.0) + OpenOf(token)(r)
  {
    hide Total;
    TotalUpdate(s.rows, id, r, OpenOf(token));
  }

  lemma ReserveExposure(s: Store, q: ReserveRequest, token: string)
    requires Inv(s) && token in s.tokens && s.tokens[token].limit != 0.0
    ensures var t := ReserveStep(s, q).store;
      && token in t.tokens && t.tokens[token].limit == s.tokens[token].limit
      && (Exposure(t, token) == Exposure(s, token) || Exposure(t, token) <= s.tokens[token].limit)
  {
    hide Inv, Quote, Total, Taken;
    var t := ReserveStep(s, q).store;
    if ReserveStep(s, q).outcome.Ok? {
      assert q.id !in s.rows by { TakenId(s, q.id, q.request); }
      TotalAfter(s, q.id, t.rows[q.id], token);
    }
  }

  lemma SettleExposure(s: Store, id: string, q: SettleRequest, token: string)
    requires Inv(s) && token in s.tokens
    ensures var t, d := SettleStep(s, id, q).store, TokenOverrun(s, SettleEvent(id, q), token);
      && token in t.tokens && t.tokens[token].limit == s.tokens[token].limit
      && Exposure(t, token) <= Exposure(s, token) + d && 0.0 <= d
  {
    hide Inv, Total, SettleAmount, SettlementMetrics, Balance, ChargeKey, Max;
    var t := SettleStep(s, id, q).store;
    if t != s {
      TotalAfter(s, id, t.rows[id], token);
      assert Concerns(SettleEvent(id, q), id);
    }
  }

  lemma RebindExposure(s: Store, id: string, q: RebindRequest, token: string)
    requires Inv(s) && token in s.tokens
    ensures var t, d := RebindStep(s, id, q).store, TokenOverrun(s, RebindEvent(id, q), token);
      && token in t.tokens && t.tokens[token].limit == s.tokens[token].limit
      && Exposure(t, token) <= Exposure(s, token) + d && 0.0 <= d
  {
    hide Inv, Total, QuoteAgain;
    var t := RebindStep(s, id, q).store;
    if t != s {
      TotalAfter(s, id, t.rows[id], token);
      assert Concerns(RebindEvent(id, q), id);
    }
  }

  lemma ReleaseExposure(s: Store, id: string, target: Status, token: string)
    requires Inv(s) && token in s.tokens
    ensures var t := ReleaseStep(s, id, target).store;
      t.tokens == s.tokens && Exposure(t, token) <= Exposure(s, token)
  {
    hide Inv, Total;
    var t := ReleaseStep(s, id, target).store;
    if t != s {
      RowIsSound(s, id);
      TotalAfter(s, id, t.rows[id], token);
    }
  }

  lemma QuietExposure(s: Store, e: Event, token: string)
    requires token in s.tokens && (e.CreditEvent? || e.PendingEvent? || e.ExtendEvent?)
    ensures var t := Apply(s, e).store;
      t.tokens == s.tokens && Exposure(t, token) == Exposure(s, token)
  {
    hide Total, DecimalAccepted;
    var t := Apply(s, e).store;
    if (e.PendingEvent? || e.ExtendEvent?) && t != s {
      TotalAfter(s, e.id, t.rows[e.id], token);
    }
  }

  lemma StepExposure(s: Store, e: Event, token: string)
    requires Inv(s) && token in s.tokens && s.tokens[token].limit != 0.0
    ensures var t, d := Apply(s, e).store, TokenOverrun(s, e, token);
      && token in t.tokens && t.tokens[token].limit == s.tokens[token].limit && 0.0 <= d
      && (Exposure(t, token) <= Exposure(s, token) + d || Exposure(t, token) <= s.tokens[token].limit)
  {
    hide Inv, Exposure, CreditStep, ReserveStep, MarkPendingStep, RebindStep, ExtendStep, ReleaseStep, SettleStep;
    match e
    case ReserveEvent(q) => ReserveExposure(s, q, token);
    case SettleEvent(id, q) => SettleExposure(s, id, q, token);
    case ReconcileEvent(id, request, q) =>
      SettleExposure(s, id, q, token);
      ReconcileOverrun(s, id, request, q, token);
    case RebindEvent(id, q) => RebindExposure(s, id, q, token);
    case FailEvent(id) => ReleaseExposure(s, id, Released, token);
    case ReapEvent(id) => ReleaseExposure(s, id, Expired, token);
    case CreditEvent(_) => QuietExposure(s, e, token);
    case PendingEvent(_) => QuietExposure(s, e, token);
    case ExtendEvent(_, _, _) => QuietExposure(s, e, token);
  }

  lemma ReconcileOverrun(s: Store, id: string, request: string, q: SettleRequest, token: string)
    ensures var e := ReconcileEvent(id, request, q);
      if Apply(s, e).store == s then TokenOverrun(s, e, token) == 0.0
      else Apply(s, e) == SettleStep(s, id, q) && TokenOverrun(s, e, token) == TokenOverrun(s, SettleEvent(id, q), token)
  {
    hide SettleStep;
    var e := ReconcileEvent(id, request, q);
    if Apply(s, e).store != s {
      assert Concerns(e, id) && Concerns(SettleEvent(id, q), id);
    }
  }

  /** With a fixed limit, spending plus open holds stays within the limit plus the accumulated
      overruns, under every order of concurrent requests: reserving alone never exceeds it. */
  lemma {:induction false} SpendLimitHolds(s: Store, events: seq<Event>, token: string, slack: real)
    requires Inv(s) && token in s.tokens && s.tokens[token].limit != 0.0 && 0.0 <= slack
    requires Exposure(s, token) <= s.tokens[token].limit + slack
    ensures var t := Run(s, events);
      && token in t.tokens && t.tokens[token].limit == s.tokens[token].limit
      && Exposure(t, token) <= s.tokens[token].limit + slack + TokenOverruns(s, events, token)
    decreases |events|
  {
    hide Inv, Exposure, Apply, TokenOverrun;
    if events != [] {
      StepExposure(s, events[0], token);
      ApplyKeeps(s, events[0]);
      SpendLimitHolds(Apply(s, events[0]).store, events[1..], token, slack + TokenOverrun(s, events[0], token));
    }
  }

  // ----- balance floor

  /** What can push an account below zero: settlements above their hold and administrator debits. */
  ghost function Debt(s: Store, e: Event, a: Account): real {
    var t := Apply(s, e).store;
    match e
    case SettleEvent(id, _) =>
      if ClosesAt(s, t, id) && s.rows[id].account == a then Positive(t.rows[id].settled - s.rows[id].reserved) else 0.0
    case ReconcileEvent(id, _, _) =>
      if ClosesAt(s, t, id) && s.rows[id].account == a then Positive(t.rows[id].settled - s.rows[id].reserved) else 0.0
    case CreditEvent(c) =>
      if c.direction == DebitSide && t != s && a == Prepaid(c.tenant, s.currencies[c.tenant]) then Positive(c.amount) else 0.0
    case _ => 0.0
  }

  ghost function Debts(s: Store, events: seq<Event>, a: Account): real
    decreases |events|
  {
    if events == [] then 0.0 else Debt(s, events[0], a) + Debts(Apply(s, events[0]).store, events[1..], a)
  }

  lemma CreditFloor(s: Store, c: CreditRequest, a: Account)
    requires a.Prepaid?
    ensures Balance(CreditStep(s, c).store, a) >= Balance(s, a) - Debt(s, CreditEvent(c), a)
    ensures 0.0 <= Debt(s, CreditEvent(c), a)
  {
    hide Round30;
    var t := CreditStep(s, c).store;
    if CreditStep(s, c).outcome.Ok? {
      assert |t.lines| != |s.lines|;
    }
  }

  lemma SettleFloor(s: Store, id: string, q: SettleRequest, a: Account)
    requires Inv(s) && a.Prepaid?
    ensures Balance(SettleStep(s, id, q).store, a) >= Balance(s, a) - Debt(s, SettleEvent(id, q), a)
    ensures 0.0 <= Debt(s, SettleEvent(id, q), a)
  {
    hide Inv, SettleAmount, SettlementMetrics;
    if id in s.rows { RowIsSound(s, id); }
  }

  lemma ReconcileDebt(s: Store, id: string, request: string, q: SettleRequest, a: Account)
    ensures var e := ReconcileEvent(id, request, q);
      if Apply(s, e).store == s then Debt(s, e, a) == 0.0
      else Apply(s, e) == SettleStep(s, id, q) && Debt(s, e, a) == Debt(s, SettleEvent(id, q), a)
  {
    hide SettleStep;
  }

  /** A successful Reserve and a rebind to another model leave no account they charge negative. */
  lemma ChargeNeedsFunds(s: Store, e: Event, a: Account)
    requires a.Prepaid? && (e.ReserveEvent? || e.RebindEvent?)
    ensures var t := Apply(s, e).store;
      Balance(t, a) == Balance(s, a) || Balance(t, a) >= 0.0
  {
    hide Quote, QuoteAgain, OverLimit, Taken;
  }

  lemma ReleaseFloor(s: Store, id: string, target: Status, a: Account)
    requires Inv(s)
    ensures Balance(ReleaseStep(s, id, target).store, a) >= Balance(s, a)
  {
    hide Inv;
    if id in s.rows { RowIsSound(s, id); }
  }

  lemma StepFloor(s: Store, e: Event, a: Account)
    requires Inv(s) && a.Prepaid?
    ensures 0.0 <= Debt(s, e, a)
    ensures Balance(Apply(s, e).store, a) >= Balance(s, a) - Debt(s, e, a) || Balance(Apply(s, e).store, a) >= 0.0
  {
    hide Inv, CreditStep, ReserveStep, MarkPendingStep, RebindStep, ExtendStep, ReleaseStep, SettleStep;
    match e
    case CreditEvent(c) => CreditFloor(s, c, a);
    case SettleEvent(id, q) => SettleFloor(s, id, q, a);
    case ReconcileEvent(id, request, q) =>
      SettleFloor(s, id, q, a);
      ReconcileDebt(s, id, request, q, a);
    case ReserveEvent(_) => ChargeNeedsFunds(s, e, a);
    case RebindEvent(_, _) => ChargeNeedsFunds(s, e, a);
    case FailEvent(id) => ReleaseFloor(s, id, Released, a);
    case ReapEvent(id) => ReleaseFloor(s, id, Expired, a);
    case PendingEvent(id) => QuietBalance(s, e, a);
    case ExtendEvent(_, _, _) => QuietBalance(s, e, a);
  }

  lemma QuietBalance(s: Store, e: Event, a: Account)
    requires e.PendingEvent? || e.ExtendEvent?
    ensures Balance(Apply(s, e).store, a) == Balance(s, a)
  {
  }

  /** A prepaid balance falls below zero by no more than the settlement overshoots and the
      administrator debits of the run. */
  lemma {:induction false} BalanceFloor(s: Store, events: seq<Event>, a: Account, debt: real)
    requires Inv(s) && a.Prepaid? && 0.0 <= debt && Balance(s, a) >= -debt
    ensures Balance(Run(s, events), a) >= -(debt + Debts(s, events, a))
    decreases |events|
  {
    hide Inv, Apply, Balance, Debt;
    if events != [] {
      StepFloor(s, events[0], a);
      ApplyKeeps(s, events[0]);
      BalanceFloor(Apply(s, events[0]).store, events[1..], a, debt + Debt(s, events[0], a));
    }
  }

  /** While a balance is negative nothing can be reserved from it, and a rebind that moves its
      money has to bring it back to zero or above. */
  lemma {:induction false} NegativeBlocks(s: Store, e: Event, a: Account)
    requires Inv(s) && a.Prepaid? && Balance(s, a) < 0.0
    ensures e.ReserveEvent? && e.reserve.tenant in s.currencies && a == Prepaid(e.reserve.tenant, s.currencies[e.reserve.tenant]) ==>
      Apply(s, e).outcome.Err? && Apply(s, e).store == s
    ensures e.RebindEvent? && Apply(s, e).store != s && s.rows[e.id].account == a ==> Balance(Apply(s, e).store, a) >= 0.0
  {
    hide Inv, QuoteAgain, OverLimit, Taken, Quote;
    if e.ReserveEvent? && e.reserve.terms.Some? && 0.0 <= e.reserve.terms.value.multiplier {
      QuotesNonNegative(e.reserve.terms.value, e.reserve.estimate);
    }
  }
}
