/** The billing service over its tables: every method is one database transaction and does exactly
    what the ledger's step function says, or, when it fails, nothing. */
module LedgerService {
  import opened Results
  import opened Rounding
  import opened Sums
  import opened Tiers
  import opened Charging
  import opened Intake
  import opened Quotes
  import opened Ledger

  /** Taking one row out of a sum. */
  lemma TotalTake(rows: map<string, Row>, id: string, weight: Row -> real)
    requires id in rows
    ensures Total(rows, weight) == weight(rows[id]) + Total(rows - {id}, weight)
  {
    assert Weigh(rows - {id}, weight) == Weigh(rows, weight) - {id};
    TakeKey(Weigh(rows, weight), id);
  }

  /** No due hold expires before this one, the listed ones and the `unseen` ones aside. */
  ghost predicate Earliest(s: Store, now: int, listed: seq<string>, unseen: set<string>, id: string) {
    && Due(s, now, id) && id !in listed
    && forall k :: Due(s, now, k) && k !in listed && k !in unseen ==> s.rows[id].expiresAt <= s.rows[k].expiresAt
  }

  class Service {
    var currencies: map<string, string>
    var accounts: map<Account, real>
    var transactions: map<string, Kind>
    var lines: seq<Line>
    var rows: map<string, Row>
    var requestKeys: set<string>
    var tokens: map<string, Token>

    ghost function Snapshot(): Store
      reads this
    {
      Store(currencies, accounts, transactions, lines, rows, requestKeys, tokens)
    }

    constructor (s: Store)
      ensures Snapshot() == s
    {
      currencies, accounts, transactions, lines := s.currencies, s.accounts, s.transactions, s.lines;
      rows, requestKeys, tokens := s.rows, s.requestKeys, s.tokens;
    }

    // ----- table updates

    method AddToBalance(a: Account, delta: real)
      modifies this`accounts
      ensures Snapshot() == Moved(old(Snapshot()), a, delta)
    {
      if a in accounts {
        accounts := accounts[a := accounts[a] + delta];
      } else {
        accounts := accounts[a := 0.0 + delta];
      }
    }

    method InsertTransaction(key: string, kind: Kind, user: Account, direction: Direction, system: Account, amount: real)
      modifies this`transactions, this`lines
      ensures Snapshot() == Posted(old(Snapshot()), key, kind, user, direction, system, amount)
    {
      transactions := transactions[key := kind];
      lines := lines + [Line(key, user, direction, amount), Line(key, system, Opposite(direction), amount)];
    }

    // ----- Credit

    method Credit(c: CreditRequest) returns (r: Result<()>)
      modifies this
      ensures Step(Snapshot(), r) == CreditStep(old(Snapshot()), c)
    {
      hide DecimalAccepted;
      if c.key == "" || |c.key| > 256 || !DecimalAccepted(c.amount, SCALE) || c.amount == 0.0 { return Err(InvalidRequest); }
      if c.key in transactions { return Err(DuplicateTransaction); }
      if c.tenant !in currencies { return Err(AccountNotFound); }
      var currency := currencies[c.tenant];
      if c.currency != "" && c.currency != currency { return Err(InvalidRequest); }
      var delta, kind := c.amount, AccountCredit(c.tenant);
      if c.direction == DebitSide {
        delta, kind := -c.amount, AccountDebit(c.tenant);
      }
      AddToBalance(Prepaid(c.tenant, currency), delta);
      AddToBalance(Topup(currency), c.amount);
      InsertTransaction(c.key, kind, Prepaid(c.tenant, currency), c.direction, Topup(currency), c.amount);
      return Ok(());
    }

    // ----- Reserve

    method OpenAmount(token: string) returns (sum: real)
      ensures sum == Total(rows, OpenOf(token))
    {
      hide Total;
      sum := 0.0;
      var rest := rows;
      while rest != map[]
        invariant sum + Total(rest, OpenOf(token)) == Total(rows, OpenOf(token))
        decreases rest.Keys
      {
        var id :| id in rest;
        TotalTake(rest, id, OpenOf(token));
        if Open(rest[id]) && rest[id].token == token {
          sum := sum + rest[id].reserved;
        }
        assert id !in (rest - {id}).Keys;
        rest := rest - {id};
      }
      assert Total(map[], OpenOf(token)) == 0.0 by { assert Weigh(map[], OpenOf(token)) == map[]; EmptyTotal(OpenOf(token)); }
    }

    method CheckTokenSpendLimit(token: string, hold: real) returns (ok: bool)
      requires token in tokens
      ensures ok <==> !OverLimit(Snapshot(), token, hold)
    {
      hide Total;
      if tokens[token].limit == 0.0 { return true; }
      var pending := OpenAmount(token);
      return tokens[token].spent + pending + hold <= tokens[token].limit;
    }

    method Reserve(q: ReserveRequest) returns (r: Result<()>)
      modifies this
      ensures Step(Snapshot(), r) == ReserveStep(old(Snapshot()), q)
    {
      hide Quote, OverLimit;
      if q.terms.Some? && !MultiplierAccepted(q.terms.value.multiplier) { return Err(InvalidRequest); }
      if q.key in requestKeys { return Err(DuplicateRequest); }
      if q.token !in tokens || !q.usable { return Err(InvalidRequest); }
      if q.tenant !in currencies { return Err(AccountNotFound); }
      if q.terms.None? { return Err(PriceNotConfigured); }
      var quote := CalculateQuote(q.terms.value, q.estimate);
      if quote.Err? { return Err(quote.error); }
      var (hold, stored) := quote.value;
      var allowed := CheckTokenSpendLimit(q.token, hold);
      if !allowed { return Err(TokenSpendLimitReached); }
      if !q.upstream { return Err(UpstreamCostUnavailable); }
      var account := Prepaid(q.tenant, currencies[q.tenant]);
      if account !in accounts { return Err(AccountNotFound); }
      if accounts[account] < hold { return Err(InsufficientBalance); }
      if q.id in rows || exists k :: k in rows && rows[k].request == q.request { return Err(DuplicateRequest); }
      AddToBalance(account, -hold);
      rows := rows[q.id := Row(q.request, q.token, account, q.terms.value, stored, hold, 0.0, 0.0, Held, Started,
                               q.now + RESERVATION_TTL)];
      requestKeys := requestKeys + {q.key};
      return Ok(());
    }

    // ----- mark pending

    method MarkSettlementPending(id: string) returns (r: Result<()>)
      modifies this`rows
      ensures Step(Snapshot(), r) == MarkPendingStep(old(Snapshot()), id)
    {
      if id !in rows { return Err(ReservationNotFound); }
      if rows[id].status == Settled { return Ok(()); }
      if rows[id].status != Held && rows[id].status != Pending { return Err(ReservationClosed); }
      if rows[id].status == Held {
        rows := rows[id := rows[id].(status := Pending)];
      }
      if rows[id].requestStatus == Started || rows[id].requestStatus == AwaitingSettlement {
        rows := rows[id := rows[id].(requestStatus := AwaitingSettlement)];
      }
      return Ok(());
    }

    // ----- Settle

    method Settle(id: string, q: SettleRequest) returns (r: Result<()>)
      modifies this
      ensures Step(Snapshot(), r) == SettleStep(old(Snapshot()), id, q)
    {
      hide Settlement, SettlementMetrics, Posted, Moved;
      var metrics := SettlementMetrics(q.usage);
      if metrics.Err? { return Err(InvalidRequest); }
      if id !in rows { return Err(ReservationNotFound); }
      var row := rows[id];
      if row.status == Settled { return Ok(()); }
      if row.status != Held && row.status != Pending { return Err(ReservationClosed); }
      if row.token !in tokens { return Err(InvalidRequest); }
      var settlement := CalculateSettlement(row.terms, row.stored, metrics.value, q.tier);
      if settlement.Err? { return Err(settlement.error); }
      var amount := settlement.value;
      if !q.upstream { return Err(UpstreamCostUnavailable); }
      if row.account !in accounts { return Err(AccountNotFound); }
      if amount != 0.0 && ChargeKey(row.request) in transactions { return Err(DuplicateTransaction); }
      WriteSettlement(id, amount);
      return Ok(());
    }

    method PostCharge(request: string, account: Account, amount: real)
      modifies this`accounts, this`transactions, this`lines
      ensures Snapshot() == Posted(Moved(old(Snapshot()), Revenue(account.currency), amount),
                                   ChargeKey(request), ModelUsage(request), account, DebitSide, Revenue(account.currency), amount)
    {
      hide Moved, Posted, ChargeKey;
      AddToBalance(Revenue(account.currency), amount);
      InsertTransaction(ChargeKey(request), ModelUsage(request), account, DebitSide, Revenue(account.currency), amount);
    }

    method WriteSettlement(id: string, amount: real)
      requires id in rows && rows[id].token in tokens
      modifies this
      ensures Snapshot() == SettledStore(old(Snapshot()), id, amount)
    {
      hide ChargeKey;
      var row := rows[id];
      ghost var s := Snapshot();
      tokens := tokens[row.token := tokens[row.token].(spent := tokens[row.token].spent + amount)];
      AddToBalance(row.account, row.reserved - amount);
      assert Snapshot() == Moved(s, row.account, row.reserved - amount).(tokens := tokens);
      if amount != 0.0 {
        PostCharge(row.request, row.account, amount);
      }
      rows := rows[id := row.(settled := amount, released := Max(row.reserved - amount, 0.0), status := Settled,
                              requestStatus := Finished)];
    }

    method SettleByModelRequest(id: string, request: string, q: SettleRequest) returns (r: Result<()>)
      modifies this
      ensures Step(Snapshot(), r) == SettleByRequestStep(old(Snapshot()), id, request, q)
    {
      hide SettleStep;
      if id !in rows || rows[id].request != request { return Err(ReservationNotFound); }
      if rows[id].status == Settled { return Ok(()); }
      if rows[id].status != Pending { return Err(SettlementPending); }
      r := Settle(id, q);
    }

    // ----- Rebind

    method RebindReservationChannel(id: string, q: RebindRequest) returns (r: Result<()>)
      modifies this
      ensures Step(Snapshot(), r) == RebindStep(old(Snapshot()), id, q)
    {
      hide QuoteAgain;
      if id !in rows || !q.reachable { return Err(ReservationNotFound); }
      var row := rows[id];
      if row.status == Settled { return Ok(()); }
      if row.status != Held && row.status != Pending { return Err(ReservationClosed); }
      if q.sameModel {
        if !q.upstream { return Err(UpstreamCostUnavailable); }
        if row.requestStatus != Started && row.requestStatus != AwaitingSettlement { return Err(ReservationClosed); }
        return Ok(());
      }
      if q.price.None? { return Err(PriceNotConfigured); }
      var terms := row.terms.(price := q.price.value);
      var quote := CalculateQuoteAgain(terms, row.stored);
      if quote.Err? { return Err(quote.error); }
      var (reserved, stored) := quote.value;
      if !q.upstream { return Err(UpstreamCostUnavailable); }
      if row.account !in accounts || accounts[row.account] + row.reserved < reserved { return Err(InsufficientBalance); }
      AddToBalance(row.account, row.reserved - reserved);
      rows := rows[id := row.(reserved := reserved, stored := stored)];
      if row.requestStatus == Started || row.requestStatus == AwaitingSettlement {
        rows := rows[id := rows[id].(terms := terms)];
      }
      return Ok(());
    }

    // ----- Extend

    method ExtendReservation(id: string, now: int, seconds: int) returns (r: Result<()>)
      modifies this`rows
      ensures Step(Snapshot(), r) == ExtendStep(old(Snapshot()), id, now, seconds)
    {
      if seconds <= 0 || seconds > DAY { return Err(InvalidRequest); }
      if id !in rows || (rows[id].status != Held && rows[id].status != Pending) { return Err(ReservationClosed); }
      if rows[id].expiresAt < now + seconds {
        rows := rows[id := rows[id].(expiresAt := now + seconds)];
      }
      assert rows[id := rows[id]] == rows;
      return Ok(());
    }

    // ----- release and reaper

    method ReleaseReservation(id: string, target: Status) returns (r: Result<()>)
      modifies this
      ensures Step(Snapshot(), r) == ReleaseStep(old(Snapshot()), id, target)
    {
      if target != Released && target != Expired { return Err(InvalidRequest); }
      if id !in rows { return Err(ReservationNotFound); }
      var row := rows[id];
      if row.status == Released || row.status == Expired || row.status == Settled { return Ok(()); }
      if row.status != Held { return Err(ReservationClosed); }
      if row.account !in accounts { return Err(AccountNotFound); }
      AddToBalance(row.account, row.reserved);
      rows := rows[id := row.(released := row.reserved, status := target, requestStatus := Failed)];
      return Ok(());
    }

    method EarliestDue(now: int, listed: seq<string>) returns (id: Option<string>)
      ensures id.None? <==> forall k :: Due(Snapshot(), now, k) ==> k in listed
      ensures id.Some? ==> Earliest(Snapshot(), now, listed, {}, id.value)
    {
      id := None;
      var todo := rows.Keys;
      while todo != {}
        invariant todo <= rows.Keys
        invariant id.None? ==> forall k :: Due(Snapshot(), now, k) && k !in listed ==> k in todo
        invariant id.Some? ==> Earliest(Snapshot(), now, listed, todo, id.value)
      {
        var k :| k in todo;
        todo := todo - {k};
        if rows[k].status == Held && rows[k].expiresAt <= now && k !in listed {
          if id.None? || rows[k].expiresAt < rows[id.value].expiresAt {
            id := Some(k);
          }
        }
      }
    }

    /** The reaper's read. */
    method DueReservations(now: int, limit: nat) returns (ids: seq<string>)
      ensures Listing(Snapshot(), now, limit, ids)
    {
      ids := [];
      while |ids| < limit
        invariant |ids| <= limit
        invariant forall i :: 0 <= i < |ids| ==> Due(Snapshot(), now, ids[i])
        invariant forall i, j :: 0 <= i < j < |ids| ==> ids[i] != ids[j] && rows[ids[i]].expiresAt <= rows[ids[j]].expiresAt
        invariant forall id, i :: Due(Snapshot(), now, id) && id !in ids && 0 <= i < |ids| ==>
          rows[ids[i]].expiresAt <= rows[id].expiresAt
      {
        var next := EarliestDue(now, ids);
        if next.None? { return; }
        ids := ids + [next.value];
      }
    }

    method ReleaseListed(ids: seq<string>) returns (released: nat, r: Result<()>)
      modifies this
      ensures (Snapshot(), released, r) == Pass(old(Snapshot()), ids)
    {
      hide ReleaseStep;
      released := 0;
      for i := 0 to |ids|
        invariant var (t, n, o) := Pass(Snapshot(), ids[i..]);
          (t, released + n, o) == Pass(old(Snapshot()), ids)
      {
        var step := ReleaseReservation(ids[i], Expired);
        assert ids[i..][1..] == ids[i + 1..];
        if step.Err? {
          if step.error == ReservationClosed || step.error == ReservationNotFound { continue; }
          return released, step;
        }
        released := released + 1;
      }
      return released, Ok(());
    }

    /** One pass of the reaper that nobody interrupts. */
    method ExpireReservations(now: int) returns (released: nat, r: Result<()>)
      modifies this
      ensures exists ids ::
        Listing(old(Snapshot()), now, REAPER_BATCH, ids) && (Snapshot(), released, r) == Pass(old(Snapshot()), ids)
    {
      hide Pass, Listing;
      var ids := DueReservations(now, REAPER_BATCH);
      released, r := ReleaseListed(ids);
    }
  }

  lemma EmptyTotal(weight: Row -> real)
    ensures Total(map[], weight) == 0.0
  {
    assert Weigh(map[], weight) == map[];
  }
}
