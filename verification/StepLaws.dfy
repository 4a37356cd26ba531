/** What a single step does to balances, rows and journal, which steps succeed, and what
    reconciliation may touch. */
module StepLaws {
  import opened Results
  import opened Rounding
  import opened Tiers
  import opened Charging
  import opened Intake
  import opened Quotes
  import opened Ledger
  import opened LedgerBooks
  import opened LedgerRuns

  // ----- every step

  /** A step that fails changes nothing. */
  lemma {:induction false} FailureChangesNothing(s: Store, e: Event)
    ensures Apply(s, e).outcome.Err? ==> Apply(s, e).store == s
  {
    hide Quote, QuoteAgain, SettleAmount, SettlementMetrics, OverLimit, Taken, DecimalAccepted, Round30, SettledStore;
  }

  /** All balances but those of the named accounts stay. */
  ghost predicate OnlyBalances(s: Store, t: Store, a: Account, b: Account) {
    forall x: Account :: x != a && x != b ==> Balance(t, x) == Balance(s, x)
  }

  // ----- Credit

  /** An adjustment succeeds exactly with a key of 1 to 256 characters that is new, a positive amount of
      at most thirty digits on either side of the point, a known tenant and its currency. */
  lemma {:induction false} CreditSucceedsIff(s: Store, c: CreditRequest)
    ensures Apply(s, CreditEvent(c)).outcome.Ok? <==>
      && 1 <= |c.key| <= 256 && c.key !in s.transactions
      && 0.0 < c.amount < SCALE && OnGrid(c.amount)
      && c.tenant in s.currencies && (c.currency == "" || c.currency == s.currencies[c.tenant])
  {
    PrintsExactlyIff(c.amount);
    hide OnGrid, Round30;
  }

  /** A refused adjustment names what is wrong with it. */
  lemma {:induction false} CreditRefusals(s: Store, c: CreditRequest, e: Error)
    requires Apply(s, CreditEvent(c)).outcome == Err(e)
    ensures match e
      case InvalidRequest =>
        || |c.key| < 1 || |c.key| > 256 || c.amount <= 0.0 || c.amount >= SCALE || !OnGrid(c.amount)
        || (c.tenant in s.currencies && c.currency != "" && c.currency != s.currencies[c.tenant])
      case DuplicateTransaction => c.key in s.transactions
      case AccountNotFound => c.tenant !in s.currencies
      case _ => false
  {
    PrintsExactlyIff(c.amount);
    hide OnGrid, Round30;
  }

  /** A credit raises the tenant's prepaid balance by the amount and a debit lowers it; the top-up
      account rises either way, and the transaction has these two lines. */
  lemma {:induction false} CreditEffect(s: Store, c: CreditRequest)
    requires Apply(s, CreditEvent(c)).outcome.Ok?
    ensures c.tenant in s.currencies
    ensures var t := Apply(s, CreditEvent(c)).store;
      var user, system := Prepaid(c.tenant, s.currencies[c.tenant]), Topup(s.currencies[c.tenant]);
      && Balance(t, user) == (if c.direction == CreditSide then Balance(s, user) + c.amount else Balance(s, user) - c.amount)
      && Balance(t, system) == Balance(s, system) + c.amount && OnlyBalances(s, t, user, system)
      && t.transactions == s.transactions[c.key :=
           if c.direction == CreditSide then AccountCredit(c.tenant) else AccountDebit(c.tenant)]
      && t.lines == s.lines + (if c.direction == CreditSide
           then [Line(c.key, user, CreditSide, c.amount), Line(c.key, system, DebitSide, c.amount)]
           else [Line(c.key, user, DebitSide, c.amount), Line(c.key, system, CreditSide, c.amount)])
      && t.rows == s.rows && t.tokens == s.tokens && t.requestKeys == s.requestKeys && t.currencies == s.currencies
  {
    hide Round30, DecimalAccepted;
  }

  // ----- Reserve

  function Millionths(n: int): real { n as real / 1000000.0 }

  lemma InMillionths(m: real, n: int)
    ensures m == Millionths(n) <==> m * 1000000.0 == n as real
    ensures m == Millionths(n) ==> (0.0 < m <= 1000.0 <==> 1 <= n <= 1000000000)
  {
  }

  lemma WholeIsFloor(n: int)
    ensures (n as real).Floor == n
  {
  }

  /** A multiplier is admissible exactly as a positive number of millionths up to a thousand. */
  lemma {:induction false} MultiplierIff(m: real)
    ensures MultiplierAccepted(m) <==> exists n :: m == Millionths(n) && 1 <= n <= 1000000000
  {
    hide Millionths;
    var k := (m * 1000000.0).Floor;
    InMillionths(m, k);
    if n :| m == Millionths(n) && 1 <= n <= 1000000000 {
      InMillionths(m, n);
      WholeIsFloor(n);
    }
  }

  /** What a successful reservation needs: an admissible multiplier, a new key and identity, a usable
      token, a price, an upstream estimate, room below the spend limit and the money. */
  lemma {:induction false} ReserveSucceedsIff(s: Store, q: ReserveRequest)
    ensures Apply(s, ReserveEvent(q)).outcome.Ok? <==>
      && q.terms.Some? && MultiplierAccepted(q.terms.value.multiplier)
      && q.key !in s.requestKeys && q.id !in s.rows && (forall k :: k in s.rows ==> s.rows[k].request != q.request)
      && q.usable && q.token in s.tokens && q.upstream
      && q.tenant in s.currencies && Prepaid(q.tenant, s.currencies[q.tenant]) in s.accounts
      && Quote(q.terms.value, q.estimate).Ok?
      && var hold := Quote(q.terms.value, q.estimate).value.0;
         && hold <= Balance(s, Prepaid(q.tenant, s.currencies[q.tenant]))
         && (s.tokens[q.token].limit == 0.0
             || s.tokens[q.token].spent + Total(s.rows, OpenOf(q.token)) + hold <= s.tokens[q.token].limit)
  {
    hide Quote, Total, MultiplierAccepted;
  }

  /** It takes the quoted hold out of the tenant's balance and opens one row for ten minutes that
      remembers terms, stored estimate and hold; its key is used up and nothing else changes. */
  lemma {:induction false} ReserveEffect(s: Store, q: ReserveRequest)
    requires Apply(s, ReserveEvent(q)).outcome.Ok?
    ensures q.terms.Some? && q.tenant in s.currencies && Quote(q.terms.value, q.estimate).Ok?
    ensures var t := Apply(s, ReserveEvent(q)).store;
      var (hold, stored) := Quote(q.terms.value, q.estimate).value;
      var account := Prepaid(q.tenant, s.currencies[q.tenant]);
      && Balance(t, account) == Balance(s, account) - hold && OnlyBalances(s, t, account, account)
      && q.id in t.rows && t.rows == s.rows[q.id := t.rows[q.id]]
      && t.rows[q.id] == Row(q.request, q.token, account, q.terms.value, stored, hold, 0.0, 0.0, Held, Started, q.now + 600)
      && t.requestKeys == s.requestKeys + {q.key}
      && t.lines == s.lines && t.transactions == s.transactions && t.tokens == s.tokens && t.currencies == s.currencies
  {
    hide Quote, OverLimit, Taken, MultiplierAccepted;
  }

  /** A refused reservation names what it lacks, beside the errors that quoting can raise. */
  lemma {:induction false} ReserveRefusals(s: Store, q: ReserveRequest, e: Error)
    requires Apply(s, ReserveEvent(q)).outcome == Err(e)
    requires q.terms.Some? ==> Quote(q.terms.value, q.estimate) != Err(e)
    ensures match e
      case InvalidRequest =>
        (q.terms.Some? && !MultiplierAccepted(q.terms.value.multiplier)) || q.token !in s.tokens || !q.usable
      case DuplicateRequest =>
        q.key in s.requestKeys || q.id in s.rows || exists k :: k in s.rows && s.rows[k].request == q.request
      case AccountNotFound => q.tenant !in s.currencies || Prepaid(q.tenant, s.currencies[q.tenant]) !in s.accounts
      case PriceNotConfigured => q.terms.None?
      case UpstreamCostUnavailable => !q.upstream
      case TokenSpendLimitReached =>
        && q.token in s.tokens && q.terms.Some? && Quote(q.terms.value, q.estimate).Ok? && s.tokens[q.token].limit != 0.0
        && s.tokens[q.token].spent + Total(s.rows, OpenOf(q.token)) + Quote(q.terms.value, q.estimate).value.0
           > s.tokens[q.token].limit
      case InsufficientBalance =>
        && q.tenant in s.currencies && q.terms.Some? && Quote(q.terms.value, q.estimate).Ok?
        && Balance(s, Prepaid(q.tenant, s.currencies[q.tenant])) < Quote(q.terms.value, q.estimate).value.0
      case _ => false
  {
    hide Quote, Total, MultiplierAccepted;
  }

  // ----- mark pending

  /** Marking a held or pending row keeps its hold and its money and makes it wait for settlement;
      a settled row is left alone, a refunded or unknown one is refused. */
  lemma {:induction false} MarkPendingOutcome(s: Store, id: string)
    ensures var step := Apply(s, PendingEvent(id));
      && (id !in s.rows ==> step == Step(s, Err(ReservationNotFound)))
      && (id in s.rows && s.rows[id].status == Settled ==> step == Step(s, Ok(())))
      && (id in s.rows && s.rows[id].status in {Released, Expired} ==> step == Step(s, Err(ReservationClosed)))
      && (id in s.rows && s.rows[id].status in {Held, Pending} ==>
            && step.outcome.Ok? && id in step.store.rows
            && step.store == s.(rows := s.rows[id := step.store.rows[id]])
            && var r, r' := s.rows[id], step.store.rows[id];
               && r'.status == Pending
               && r'.requestStatus == (if r.requestStatus in {Started, AwaitingSettlement} then AwaitingSettlement else r.requestStatus)
               && r' == r.(status := Pending, requestStatus := r'.requestStatus))
  {
  }

  // ----- Settle

  /** Settling an open row needs its token and account, an upstream estimate, an amount, and for a
      positive amount a request that has not been charged; on a settled row it does nothing. */
  lemma {:induction false} SettleSucceedsIff(s: Store, id: string, q: SettleRequest)
    ensures Apply(s, SettleEvent(id, q)).outcome.Ok? <==>
      && SettlementMetrics(q.usage).Ok? && id in s.rows
      && (s.rows[id].status == Settled
          || (&& s.rows[id].status in {Held, Pending} && s.rows[id].token in s.tokens && s.rows[id].account in s.accounts
              && q.upstream && SettleAmount(s.rows[id], q).Ok?
              && (SettleAmount(s.rows[id], q).value == 0.0 || ChargeKey(s.rows[id].request) !in s.transactions)))
    ensures id in s.rows && s.rows[id].status == Settled ==> Apply(s, SettleEvent(id, q)).store == s
  {
    hide SettleAmount, SettlementMetrics, ChargeKey, SettledStore;
  }

  /** It charges the settlement amount for the reported usage: the account gets back the hold and pays
      the amount, the token has spent it, the currency's revenue grows by it, the row records amount
      and remainder, and unless it is zero one transaction debits the account and credits revenue. */
  lemma {:induction false} SettleEffect(s: Store, id: string, q: SettleRequest)
    requires Apply(s, SettleEvent(id, q)).outcome.Ok? && id in s.rows && s.rows[id].status != Settled
    requires s.rows[id].account.Prepaid?
    ensures SettlementMetrics(q.usage).Ok?
    ensures var r := s.rows[id];
      var settlement := Settlement(r.terms, r.stored, SettlementMetrics(q.usage).value, q.tier);
      settlement.Ok? && SettledBy(s, Apply(s, SettleEvent(id, q)).store, id, settlement.value)
  {
    hide Settlement, SettlementMetrics, SettledStore;
    var r := s.rows[id];
    StoreSettled(s, id, Settlement(r.terms, r.stored, SettlementMetrics(q.usage).value, q.tier).value);
  }

  lemma StoreSettled(s: Store, id: string, amount: real)
    requires id in s.rows && s.rows[id].token in s.tokens && s.rows[id].account.Prepaid?
    ensures SettledBy(s, SettledStore(s, id, amount), id, amount)
  {
    var r, t := s.rows[id], SettledStore(s, id, amount);
    assert s.lines + [] == s.lines;
    assert SettledRow(r, amount) == r.(settled := amount, released := if r.reserved < amount then 0.0 else r.reserved - amount,
                                       status := Settled, requestStatus := Finished);
  }

  ghost predicate SettledBy(s: Store, t: Store, id: string, amount: real)
    requires id in s.rows
  {
    var r, key := s.rows[id], "billing:charge:" + s.rows[id].request;
    var revenue := Revenue(r.account.currency);
    && Balance(t, r.account) == Balance(s, r.account) + r.reserved - amount
    && Balance(t, revenue) == Balance(s, revenue) + amount && OnlyBalances(s, t, r.account, revenue)
    && r.token in s.tokens && t.tokens == s.tokens[r.token := Token(s.tokens[r.token].limit, s.tokens[r.token].spent + amount)]
    && t.rows == s.rows[id := r.(settled := amount, released := if r.reserved < amount then 0.0 else r.reserved - amount,
                                 status := Settled, requestStatus := Finished)]
    && t.transactions == (if amount == 0.0 then s.transactions else s.transactions[key := ModelUsage(r.request)])
    && t.lines == s.lines + (if amount == 0.0 then []
                             else [Line(key, r.account, DebitSide, amount), Line(key, revenue, CreditSide, amount)])
    && t.requestKeys == s.requestKeys && t.currencies == s.currencies
  }

  /** A refused settlement names what it lacks, beside the errors that pricing can raise. */
  lemma {:induction false} SettleRefusals(s: Store, id: string, q: SettleRequest, e: Error)
    requires Apply(s, SettleEvent(id, q)).outcome == Err(e)
    requires id in s.rows ==> SettleAmount(s.rows[id], q) != Err(e)
    ensures match e
      case InvalidRequest => SettlementMetrics(q.usage).Err? || (id in s.rows && s.rows[id].token !in s.tokens)
      case ReservationNotFound => id !in s.rows
      case ReservationClosed => id in s.rows && s.rows[id].status in {Released, Expired}
      case UpstreamCostUnavailable => !q.upstream
      case AccountNotFound => id in s.rows && s.rows[id].account !in s.accounts
      case DuplicateTransaction => id in s.rows && ChargeKey(s.rows[id].request) in s.transactions
      case _ => false
  {
    hide SettleAmount, SettlementMetrics, ChargeKey, SettledStore;
  }

  // ----- Rebind

  /** A rebind to another model needs an open row, a reachable channel, a price, an upstream estimate
      and the money for a larger hold. */
  lemma {:induction false} RebindSucceedsIff(s: Store, id: string, q: RebindRequest)
    ensures Apply(s, RebindEvent(id, q)).outcome.Ok? <==>
      && id in s.rows && q.reachable
      && var r := s.rows[id];
         (r.status == Settled
          || (&& r.status in {Held, Pending} && q.upstream
              && if q.sameModel then r.requestStatus in {Started, AwaitingSettlement}
                 else
                   && q.price.Some? && QuoteAgain(r.terms.(price := q.price.value), r.stored).Ok? && r.account in s.accounts
                   && QuoteAgain(r.terms.(price := q.price.value), r.stored).value.0 <= Balance(s, r.account) + r.reserved))
  {
    hide QuoteAgain;
  }

  /** It replaces the hold by the quote of the stored estimate at the new price and moves just the
      difference; within one model, or on a settled row, nothing moves. */
  lemma {:induction false} RebindEffect(s: Store, id: string, q: RebindRequest)
    requires Apply(s, RebindEvent(id, q)).outcome.Ok? && id in s.rows
    ensures q.sameModel || s.rows[id].status == Settled ==> Apply(s, RebindEvent(id, q)).store == s
    ensures !q.sameModel && s.rows[id].status != Settled ==>
      && q.price.Some? && QuoteAgain(s.rows[id].terms.(price := q.price.value), s.rows[id].stored).Ok?
      && var t, r := Apply(s, RebindEvent(id, q)).store, s.rows[id];
         var (hold, stored) := QuoteAgain(r.terms.(price := q.price.value), r.stored).value;
         var terms := if r.requestStatus in {Started, AwaitingSettlement} then r.terms.(price := q.price.value) else r.terms;
         && Balance(t, r.account) == Balance(s, r.account) + r.reserved - hold && OnlyBalances(s, t, r.account, r.account)
         && t == s.(accounts := t.accounts, rows := s.rows[id := r.(reserved := hold, stored := stored, terms := terms)])
  {
    hide QuoteAgain;
  }

  lemma {:induction false} RebindRefusals(s: Store, id: string, q: RebindRequest, e: Error)
    requires Apply(s, RebindEvent(id, q)).outcome == Err(e)
    requires id in s.rows && q.price.Some? ==> QuoteAgain(s.rows[id].terms.(price := q.price.value), s.rows[id].stored) != Err(e)
    ensures match e
      case ReservationNotFound => id !in s.rows || !q.reachable
      case ReservationClosed => id in s.rows && (s.rows[id].status in {Released, Expired}
                                                 || (q.sameModel && s.rows[id].requestStatus in {Finished, Failed}))
      case PriceNotConfigured => !q.sameModel && q.price.None?
      case UpstreamCostUnavailable => !q.upstream
      case InsufficientBalance =>
        id in s.rows && !q.sameModel && q.price.Some?
        && var r := s.rows[id];
           var quote := QuoteAgain(r.terms.(price := q.price.value), r.stored);
           quote.Ok? && (r.account !in s.accounts || Balance(s, r.account) + r.reserved < quote.value.0)
      case _ => false
  {
    hide QuoteAgain;
  }

  // ----- Extend

  /** An extension by at most a day moves the expiry of an open row forward and never back. */
  lemma {:induction false} ExtendOutcome(s: Store, id: string, now: int, seconds: int)
    ensures var step := Apply(s, ExtendEvent(id, now, seconds));
      && (step.outcome.Ok? <==> 1 <= seconds <= 86400 && id in s.rows && s.rows[id].status in {Held, Pending})
      && (step.outcome.Ok? ==>
            && id in step.store.rows && var later := step.store.rows[id].expiresAt;
               && s.rows[id].expiresAt <= later && now + seconds <= later
               && (later == s.rows[id].expiresAt || later == now + seconds)
               && step.store == s.(rows := s.rows[id := s.rows[id].(expiresAt := later)]))
      && (step.outcome.Err? ==> step == Step(s, Err(if 1 <= seconds <= 86400 then ReservationClosed else InvalidRequest)))
  {
  }

  // ----- release

  /** A release pays a held row's whole hold back, records it and fails the request; closed rows stay
      as they are, and a pending row is refused. */
  lemma {:induction false} ReleaseOutcome(s: Store, id: string, e: Event)
    requires e == FailEvent(id) || e == ReapEvent(id)
    ensures var step := Apply(s, e);
      && (id !in s.rows ==> step == Step(s, Err(ReservationNotFound)))
      && (id in s.rows && s.rows[id].status in {Settled, Released, Expired} ==> step == Step(s, Ok(())))
      && (id in s.rows && s.rows[id].status == Pending ==> step == Step(s, Err(ReservationClosed)))
      && (id in s.rows && s.rows[id].status == Held && s.rows[id].account !in s.accounts ==>
            step == Step(s, Err(AccountNotFound)))
      && (id in s.rows && s.rows[id].status == Held && s.rows[id].account in s.accounts ==>
            var r := s.rows[id];
            && step.outcome.Ok? && OnlyBalances(s, step.store, r.account, r.account)
            && Balance(step.store, r.account) == Balance(s, r.account) + r.reserved
            && step.store == s.(accounts := step.store.accounts, rows := s.rows[id := r.(
                 released := r.reserved, requestStatus := Failed, status := if e == FailEvent(id) then Released else Expired)]))
  {
  }

  // ----- reconciliation

  /** Reconciliation settles only what is pending: any change it makes is the settlement of a pending
      row with the given request, and everything else is answered without one. */
  lemma {:induction false} ReconcileSettlesPending(s: Store, id: string, request: string, q: SettleRequest)
    ensures var step := Apply(s, ReconcileEvent(id, request, q));
      && (step.store != s ==>
            && id in s.rows && s.rows[id].request == request && s.rows[id].status == Pending
            && id in step.store.rows && step.store.rows[id].status == Settled)
      && (id !in s.rows || s.rows[id].request != request ==> step == Step(s, Err(ReservationNotFound)))
      && (id in s.rows && s.rows[id].request == request ==>
            match s.rows[id].status
            case Pending => step == Apply(s, SettleEvent(id, q))
            case Settled => step == Step(s, Ok(()))
            case Held | Released | Expired => step == Step(s, Err(SettlementPending)))
  {
    hide SettleAmount, SettlementMetrics, ChargeKey;
  }

  /** Steps that touch row id only by reserving it, extending it or reconciling it. */
  ghost predicate LeftToReconcile(e: Event, id: string) {
    match e
    case PendingEvent(i) => i != id
    case SettleEvent(i, _) => i != id
    case RebindEvent(i, _) => i != id
    case FailEvent(i) => i != id
    case ReapEvent(i) => i != id
    case _ => true
  }

  lemma HeldStaysHeld(s: Store, e: Event, id: string)
    requires LeftToReconcile(e, id) && (id in s.rows ==> s.rows[id].status == Held)
    ensures var t := Apply(s, e).store;
      && (id in t.rows ==> t.rows[id].status == Held)
      && (id in s.rows ==> id in t.rows && t.rows[id] == s.rows[id].(expiresAt := t.rows[id].expiresAt))
  {
    hide Quote, QuoteAgain, SettleAmount, SettlementMetrics, OverLimit, DecimalAccepted, ChargeKey, Max;
  }

  /** So a row that no one marks pending, settles, rebinds or releases stays held with its hold, however
      often it is reconciled, ... */
  lemma {:induction false} ReconcileLeavesHeld(s: Store, events: seq<Event>, id: string)
    requires (id in s.rows ==> s.rows[id].status == Held) && forall e :: e in events ==> LeftToReconcile(e, id)
    ensures var t := Run(s, events);
      && (id in t.rows ==> t.rows[id].status == Held)
      && (id in s.rows ==> id in t.rows && t.rows[id] == s.rows[id].(expiresAt := t.rows[id].expiresAt))
    decreases |events|
  {
    hide Apply, LeftToReconcile;
    if events != [] {
      HeldStaysHeld(s, events[0], id);
      ReconcileLeavesHeld(Apply(s, events[0]).store, events[1..], id);
    }
  }

  /** ...and in a run from a fresh store its request is not charged. */
  lemma {:induction false} ReconcileNeverCharges(s: Store, events: seq<Event>, id: string)
    requires Fresh(s) && forall e :: e in events ==> LeftToReconcile(e, id)
    ensures var t := Run(s, events);
      id in t.rows ==>
        forall key :: key in t.transactions && t.transactions[key].ModelUsage? ==>
          t.transactions[key].request != t.rows[id].request
  {
    hide Run, LeftToReconcile, Books, Income, Journal, ChargeOf, Lockstep, HoldAccountedFor;
    FreshIsSound(s);
    BooksBalance(s, events);
    NoFreshRow(s);
    ReconcileLeavesHeld(s, events, id);
    var t := Run(s, events);
    forall key | id in t.rows && key in t.transactions && t.transactions[key].ModelUsage?
      ensures t.transactions[key].request != t.rows[id].request
    {
      ChargesHaveKeys(t, key);
      ChargeHasRow(t, key);
      var k :| ChargeOf(t, key, k) && k in t.rows && t.rows[k].request == t.transactions[key].request;
      ChargedIsSettled(t, key, k);
    }
  }

  lemma NoFreshRow(s: Store)
    requires Fresh(s)
    ensures s.rows == map[]
  {
  }

  lemma ChargeHasRow(s: Store, key: string)
    ensures forall id :: ChargeOf(s, key, id) ==> id in s.rows
  {
  }

  lemma ChargedIsSettled(s: Store, key: string, id: string)
    requires ChargeOf(s, key, id)
    ensures id in s.rows && s.rows[id].status == Settled
  {
  }
}
