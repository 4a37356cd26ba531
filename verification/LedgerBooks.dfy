/** The books balance in every run: cached balances, open holds and ledger lines agree. */
module LedgerBooks {
  import opened Results
  import opened Rounding
  import opened Sums
  import opened Metering
  import opened Tiers
  import opened Charging
  import opened Intake
  import opened Quotes
  import opened Ledger

  // ----- sums over rows and lines

  lemma TotalUpdate(rows: map<string, Row>, id: string, r: Row, weight: Row -> real)
    ensures Total(rows[id := r], weight) ==
            Total(rows, weight) - (if id in rows then weight(rows[id]) else 0.0) + weight(r)
  {
    assert Weigh(rows[id := r], weight) == Weigh(rows, weight)[id := weight(r)];
    Update(Weigh(rows, weight), id, weight(r));
  }

  function Signed(l: Line): real { if l.direction == CreditSide then l.amount else -l.amount }

  /** Credits less debits of one account. */
  function Net(lines: seq<Line>, a: Account): real {
    if lines == [] then 0.0
    else Net(lines[..|lines| - 1], a) + (if lines[|lines| - 1].account == a then Signed(lines[|lines| - 1]) else 0.0)
  }

  /** All amounts booked on one account, whatever their direction. */
  function Gross(lines: seq<Line>, a: Account): real {
    if lines == [] then 0.0
    else Gross(lines[..|lines| - 1], a) + (if lines[|lines| - 1].account == a then lines[|lines| - 1].amount else 0.0)
  }

  /** The lines of one transaction. */
  function LinesOf(lines: seq<Line>, key: string): seq<Line> {
    if lines == [] then []
    else LinesOf(lines[..|lines| - 1], key) + if lines[|lines| - 1].key == key then [lines[|lines| - 1]] else []
  }

  lemma NetAfterLine(lines: seq<Line>, x: Line, a: Account, key: string)
    ensures Net(lines + [x], a) == Net(lines, a) + (if x.account == a then Signed(x) else 0.0)
    ensures Gross(lines + [x], a) == Gross(lines, a) + (if x.account == a then x.amount else 0.0)
    ensures LinesOf(lines + [x], key) == LinesOf(lines, key) + (if x.key == key then [x] else [])
  {
    assert (lines + [x])[..|lines + [x]| - 1] == lines;
  }

  lemma AppendTwo(lines: seq<Line>, x: Line, y: Line, a: Account, key: string)
    ensures Net(lines + [x, y], a) ==
      Net(lines, a) + (if x.account == a then Signed(x) else 0.0) + (if y.account == a then Signed(y) else 0.0)
    ensures Gross(lines + [x, y], a) ==
      Gross(lines, a) + (if x.account == a then x.amount else 0.0) + (if y.account == a then y.amount else 0.0)
    ensures LinesOf(lines + [x, y], key) ==
      LinesOf(lines, key) + (if x.key == key then [x] else []) + (if y.key == key then [y] else [])
  {
    assert lines + [x, y] == (lines + [x]) + [y];
    NetAfterLine(lines, x, a, key);
    NetAfterLine(lines + [x], y, a, key);
  }

  // ----- the invariants

  /** What the lines say an account holds.  The top-up account counts both directions up. */
  function Booked(lines: seq<Line>, a: Account): real {
    if a.Topup? then Gross(lines, a) else Net(lines, a)
  }

  /** Every balance plus the holds taken out of it is what the lines say. */
  ghost predicate Books(s: Store) {
    forall a: Account :: Balance(s, a) + Total(s.rows, OpenIn(a)) == Booked(s.lines, a)
  }

  function SettledIn(currency: string): Row -> real {
    (r: Row) => if r.status == Settled && r.account.currency == currency then r.settled else 0.0
  }

  function SettledOf(token: string): Row -> real {
    (r: Row) => if r.status == Settled && r.token == token then r.settled else 0.0
  }

  /** Revenue is the sum of settled charges, and so is what a token has spent. */
  ghost predicate Income(s: Store) {
    && (forall currency: string :: Balance(s, Revenue(currency)) == Total(s.rows, SettledIn(currency)))
    && (forall token :: token in s.tokens ==> s.tokens[token].spent == Total(s.rows, SettledOf(token)))
  }

  /** Reservation and request move together. */
  predicate Lockstep(r: Row) {
    match r.status
    case Held => r.requestStatus == Started
    case Pending => r.requestStatus == AwaitingSettlement
    case Settled => r.requestStatus == Finished
    case Released | Expired => r.requestStatus == Failed
  }

  /** Where a hold has gone: nowhere while it is open, back to the account when it was released,
      and into the charge and what is left over, if anything, when it was settled. */
  predicate HoldAccountedFor(r: Row) {
    match r.status
    case Held | Pending => r.settled == 0.0 && r.released == 0.0
    case Settled => r.released == Max(r.reserved - r.settled, 0.0)
    case Released | Expired => r.settled == 0.0 && r.released == r.reserved
  }

  predicate RowSound(s: Store, r: Row) {
    && r.account.Prepaid? && r.account in s.accounts && r.token in s.tokens
    && r.reserved >= 0.0 && r.settled >= 0.0 && r.terms.multiplier >= 0.0 && Lockstep(r) && HoldAccountedFor(r)
  }

  ghost predicate Rows(s: Store) {
    && (forall id :: id in s.rows ==> RowSound(s, s.rows[id]))
    && (forall i, j :: i in s.rows && j in s.rows && s.rows[i].request == s.rows[j].request ==> i == j)
  }

  lemma OpenElsewhere(rows: map<string, Row>, a: Account)
    requires forall id :: id in rows ==> rows[id].account.Prepaid?
    requires !a.Prepaid?
    ensures Total(rows, OpenIn(a)) == 0.0
  {
    AllZeroMap(Weigh(rows, OpenIn(a)));
  }

  // ----- amounts are never negative

  lemma {:induction false} ChargeNonNegative(components: seq<Component>, u: Usage, minimum: real, tier: Option<Meters.Tier>)
    ensures Charge(components, u, minimum, tier).Ok? ==> Charge(components, u, minimum, tier).value >= 0.0
  {
    hide NormalizedUsage, IndexComponents, AddImplicitRequestMetric, Unpriced, LineFor, BillableCodes, LineAmounts, Nearest, Units;
    if Charge(components, u, minimum, tier).Ok? {
      var n := NormalizedUsage(AddImplicitRequestMetric(components, u, tier)).value;
      var total := Max(MapSum(LineAmounts(IndexComponents(components).value, tier, n)), minimum);
      RoundNonNegative(total);
    }
  }

  lemma RequoteNonNegative(components: seq<Component>, minimum: real, terms: Terms, metrics: Usage)
    requires terms.multiplier >= 0.0
    ensures Requote(components, minimum, terms, metrics).Ok? ==> Requote(components, minimum, terms, metrics).value.0 >= 0.0
  {
    hide Charge, Prepared, AddImplicitRequestMetric, Cost;
    if Requote(components, minimum, terms, metrics).Ok? {
      var p := Prepared(components, AddImplicitRequestMetric(components, metrics, terms.tier), terms.tier).value;
      ChargeNonNegative(components, p, minimum, terms.tier);
      CostMonotone(terms.multiplier, 0.0, Charge(components, p, minimum, terms.tier).value);
      CostSum(terms.multiplier, 0.0, 0.0);
    }
  }

  lemma QuotesNonNegative(terms: Terms, metrics: Usage)
    requires terms.multiplier >= 0.0
    ensures Quote(terms, metrics).Ok? ==> Quote(terms, metrics).value.0 >= 0.0
    ensures QuoteAgain(terms, metrics).Ok? ==> QuoteAgain(terms, metrics).value.0 >= 0.0
  {
    hide Requote, PriceComponentsFor, CustomerUsage, DecimalAccepted;
    if Quote(terms, metrics).Ok? {
      var price := ApplyMeteringPrice(terms.price, terms.mode, terms.unitPrice).value;
      RequoteNonNegative(PriceComponentsFor(price), price.minimum, terms, CustomerUsage(metrics, terms.mode).value);
    }
    if QuoteAgain(terms, metrics).Ok? {
      var price := SettledPrice(terms).value;
      RequoteNonNegative(PriceComponentsFor(price), price.minimum, terms, metrics);
    }
  }

  lemma SettlementNonNegative(terms: Terms, stored: Usage, usage: Usage, reported: Option<Meters.Tier>)
    ensures Settlement(terms, stored, usage, reported).Ok? ==> Settlement(terms, stored, usage, reported).value >= 0.0
  {
    hide Charge, PriceComponentsFor, CustomerUsageWithEstimate, AddImplicitRequestMetric, HasPositive, AllowsZeroUsage, Cost,
         SettledPrice, Round30;
    if Settlement(terms, stored, usage, reported).Ok? {
      var tier := SettlementTier(terms.tier, reported);
      var price := SettledPrice(terms).value;
      var components := PriceComponentsFor(price);
      var metrics := AddImplicitRequestMetric(components, CustomerUsageWithEstimate(usage, stored, terms.mode).value, tier);
      ChargeNonNegative(components, metrics, price.minimum, tier);
      CostMonotone(terms.multiplier, 0.0, Charge(components, metrics, price.minimum, tier).value);
      CostSum(terms.multiplier, 0.0, 0.0);
      RoundNonNegative(Cost(terms.multiplier, Charge(components, metrics, price.minimum, tier).value));
    }
  }

  // ----- steps that only move holds: Reserve, mark pending, Rebind, Extend, release

  /** One row is written and the difference of its hold is moved into or out of its account. */
  ghost predicate HoldMoved(s: Store, t: Store, id: string, r: Row) {
    && t.rows == s.rows[id := r] && t.lines == s.lines && t.transactions == s.transactions
    && t.currencies == s.currencies && t.tokens == s.tokens
    && (id in s.rows ==> s.rows[id].account == r.account && s.rows[id].status != Settled)
    && r.status != Settled
    && t.accounts == s.accounts[r.account :=
         Balance(s, r.account) + (if id in s.rows then OpenIn(r.account)(s.rows[id]) else 0.0) - OpenIn(r.account)(r)]
  }

  lemma HoldMovedBooks(s: Store, t: Store, id: string, r: Row)
    requires Books(s) && HoldMoved(s, t, id, r)
    ensures Books(t)
  {
    hide Total, Booked;
    forall a: Account
      ensures Balance(t, a) + Total(t.rows, OpenIn(a)) == Booked(t.lines, a)
    {
      TotalUpdate(s.rows, id, r, OpenIn(a));
      assert Balance(s, a) + Total(s.rows, OpenIn(a)) == Booked(s.lines, a);
    }
  }

  lemma HoldMovedIncome(s: Store, t: Store, id: string, r: Row)
    requires Income(s) && HoldMoved(s, t, id, r) && r.account.Prepaid?
    ensures Income(t)
  {
    hide Total;
    forall currency: string
      ensures Balance(t, Revenue(currency)) == Total(t.rows, SettledIn(currency))
    {
      TotalUpdate(s.rows, id, r, SettledIn(currency));
      assert Balance(s, Revenue(currency)) == Total(s.rows, SettledIn(currency));
    }
    forall token | token in t.tokens
      ensures t.tokens[token].spent == Total(t.rows, SettledOf(token))
    {
      TotalUpdate(s.rows, id, r, SettledOf(token));
    }
  }

  lemma HoldMovedRows(s: Store, t: Store, id: string, r: Row)
    requires Rows(s) && HoldMoved(s, t, id, r) && RowSound(t, r)
    requires if id in s.rows then s.rows[id].request == r.request else !Taken(s, id, r.request)
    ensures Rows(t)
  {
  }

  // ----- the journal

  /** A posted transaction: the same positive amount once on each side of two accounts. */
  ghost predicate Balanced(ls: seq<Line>) {
    && |ls| == 2 && ls[0].amount == ls[1].amount && ls[0].amount > 0.0
    && ls[1].direction == Opposite(ls[0].direction) && ls[0].account.Prepaid? && !ls[1].account.Prepaid?
  }

  /** The transaction that charged row id. */
  ghost predicate ChargeOf(s: Store, key: string, id: string) {
    && id in s.rows && s.rows[id].status == Settled && key == ChargeKey(s.rows[id].request)
    && LinesOf(s.lines, key) == [
         Line(key, s.rows[id].account, DebitSide, s.rows[id].settled),
         Line(key, Revenue(s.rows[id].account.currency), CreditSide, s.rows[id].settled)]
  }

  /** Every transaction has exactly its two cancelling lines, no line stands alone, and usage is
      charged only by the transaction of a settled reservation. */
  ghost predicate Journal(s: Store) {
    && (forall key :: key !in s.transactions ==> LinesOf(s.lines, key) == [])
    && (forall key :: key in s.transactions ==> Balanced(LinesOf(s.lines, key)))
    && (forall key :: key in s.transactions && s.transactions[key].ModelUsage? ==>
          exists id :: ChargeOf(s, key, id) && s.transactions[key].request == s.rows[id].request)
    && (forall id :: id in s.rows && s.rows[id].status == Settled && s.rows[id].settled != 0.0 ==>
          ChargeKey(s.rows[id].request) in s.transactions
          && s.transactions[ChargeKey(s.rows[id].request)] == ModelUsage(s.rows[id].request))
  }

  lemma HoldMovedJournal(s: Store, t: Store, id: string, r: Row)
    requires Journal(s) && HoldMoved(s, t, id, r)
    ensures Journal(t)
  {
    hide Balanced;
    forall key | key in t.transactions && t.transactions[key].ModelUsage?
      ensures exists k :: ChargeOf(t, key, k) && t.transactions[key].request == t.rows[k].request
    {
      var k :| ChargeOf(s, key, k) && s.transactions[key].request == s.rows[k].request;
      assert ChargeOf(t, key, k);
    }
  }

  ghost predicate Inv(s: Store) {
    Books(s) && Income(s) && Rows(s) && Journal(s)
  }

  lemma HoldMovedKeeps(s: Store, t: Store, id: string, r: Row)
    requires Inv(s) && HoldMoved(s, t, id, r) && RowSound(t, r)
    requires if id in s.rows then s.rows[id].request == r.request else !Taken(s, id, r.request)
    ensures Inv(t)
  {
    hide Books, Income, Rows, Journal, HoldMoved;
    HoldMovedBooks(s, t, id, r);
    HoldMovedIncome(s, t, id, r);
    HoldMovedRows(s, t, id, r);
    HoldMovedJournal(s, t, id, r);
  }

  lemma ReserveKeeps(s: Store, q: ReserveRequest)
    requires Inv(s)
    ensures Inv(ReserveStep(s, q).store)
  {
    hide Inv, Quote, OverLimit, Taken;
    var t := ReserveStep(s, q).store;
    if ReserveStep(s, q).outcome.Ok? {
      var (hold, stored) := Quote(q.terms.value, q.estimate).value;
      QuotesNonNegative(q.terms.value, q.estimate);
      var account := Prepaid(q.tenant, s.currencies[q.tenant]);
      var r := NewRow(s, q, account, hold, stored);
      assert q.id !in s.rows by { assert !Taken(s, q.id, q.request); TakenId(s, q.id, q.request); }
      assert HoldMoved(s, t.(requestKeys := s.requestKeys), q.id, r);
      HoldMovedKeeps(s, t.(requestKeys := s.requestKeys), q.id, r);
      KeysDoNotMatter(t, s.requestKeys);
    }
  }

  lemma TakenId(s: Store, id: string, request: string)
    requires !Taken(s, id, request)
    ensures id !in s.rows
  {
  }

  lemma KeysDoNotMatter(t: Store, keys: set<string>)
    requires Inv(t.(requestKeys := keys))
    ensures Inv(t)
  {
    var u := t.(requestKeys := keys);
    hide Total, Booked, LinesOf, Balanced;
    forall a: Account
      ensures Balance(t, a) + Total(t.rows, OpenIn(a)) == Booked(t.lines, a)
    {
      assert Balance(u, a) + Total(u.rows, OpenIn(a)) == Booked(u.lines, a);
    }
    forall currency: string
      ensures Balance(t, Revenue(currency)) == Total(t.rows, SettledIn(currency))
    {
      assert Balance(u, Revenue(currency)) == Total(u.rows, SettledIn(currency));
    }
    forall key | key in t.transactions && t.transactions[key].ModelUsage?
      ensures exists k :: ChargeOf(t, key, k) && t.transactions[key].request == t.rows[k].request
    {
      var k :| ChargeOf(u, key, k) && u.transactions[key].request == u.rows[k].request;
      assert ChargeOf(t, key, k);
    }
  }

  lemma RowIsSound(s: Store, id: string)
    requires Inv(s) && id in s.rows
    ensures RowSound(s, s.rows[id])
  {
  }

  lemma PendingKeeps(s: Store, id: string)
    requires Inv(s)
    ensures Inv(MarkPendingStep(s, id).store)
  {
    hide Inv;
    if id in s.rows && Open(s.rows[id]) {
      RowIsSound(s, id);
      var t, r := MarkPendingStep(s, id).store, MarkedPending(s.rows[id]);
      assert HoldMoved(s, t, id, r);
      HoldMovedKeeps(s, t, id, r);
    }
  }

  lemma ExtendKeeps(s: Store, id: string, now: int, seconds: int)
    requires Inv(s)
    ensures Inv(ExtendStep(s, id, now, seconds).store)
  {
    hide Inv;
    if ExtendStep(s, id, now, seconds).outcome.Ok? {
      RowIsSound(s, id);
      var t := ExtendStep(s, id, now, seconds).store;
      var r := t.rows[id];
      assert HoldMoved(s, t, id, r);
      HoldMovedKeeps(s, t, id, r);
    }
  }

  lemma ReleaseKeeps(s: Store, id: string, target: Status)
    requires Inv(s)
    ensures Inv(ReleaseStep(s, id, target).store)
  {
    hide Inv;
    if id in s.rows && s.rows[id].status == Held && ReleaseStep(s, id, target).outcome.Ok? {
      RowIsSound(s, id);
      var t, r := ReleaseStep(s, id, target).store, ReleasedRow(s.rows[id], target);
      assert HoldMoved(s, t, id, r);
      HoldMovedKeeps(s, t, id, r);
    }
  }

  lemma RebindKeeps(s: Store, id: string, q: RebindRequest)
    requires Inv(s)
    ensures Inv(RebindStep(s, id, q).store)
  {
    hide QuoteAgain, Inv;
    var t := RebindStep(s, id, q).store;
    if t != s {
      var r := s.rows[id];
      RowIsSound(s, id);
      var terms := r.terms.(price := q.price.value);
      var (reserved, stored) := QuoteAgain(terms, r.stored).value;
      QuotesNonNegative(terms, r.stored);
      var r' := ReboundRow(r, terms, reserved, stored);
      assert HoldMoved(s, t, id, r');
      HoldMovedKeeps(s, t, id, r');
    }
  }

  // ----- Credit

  lemma PostedEntries(s: Store, key: string, kind: Kind, user: Account, direction: Direction, system: Account, amount: real, k: string)
    requires key !in s.transactions && LinesOf(s.lines, key) == []
    ensures var t := Posted(s, key, kind, user, direction, system, amount);
      LinesOf(t.lines, k) ==
        if k == key then [Line(key, user, direction, amount), Line(key, system, Opposite(direction), amount)]
        else LinesOf(s.lines, k)
  {
    AppendTwo(s.lines, Line(key, user, direction, amount), Line(key, system, Opposite(direction), amount), user, k);
  }

  lemma CreditBooks(s: Store, c: CreditRequest)
    requires Inv(s) && CreditStep(s, c).outcome.Ok?
    ensures Books(CreditStep(s, c).store)
  {
    hide Total, Income, Rows, Journal, DecimalAccepted;
    var t := CreditStep(s, c).store;
    var n := |s.lines|;
    forall a: Account
      ensures Balance(t, a) + Total(t.rows, OpenIn(a)) == Booked(t.lines, a)
    {
      AppendTwo(s.lines, t.lines[n], t.lines[n + 1], a, c.key);
      assert t.lines == s.lines + [t.lines[n], t.lines[n + 1]];
      assert Balance(s, a) + Total(s.rows, OpenIn(a)) == Booked(s.lines, a);
      hide Net, Gross;
    }
  }

  lemma CreditIncome(s: Store, c: CreditRequest)
    requires Income(s) && CreditStep(s, c).outcome.Ok?
    ensures Income(CreditStep(s, c).store)
  {
    hide Total, DecimalAccepted;
    var t := CreditStep(s, c).store;
    forall currency: string
      ensures Balance(t, Revenue(currency)) == Total(t.rows, SettledIn(currency))
    {
      assert Balance(s, Revenue(currency)) == Total(s.rows, SettledIn(currency));
    }
  }

  lemma CreditJournal(s: Store, c: CreditRequest)
    requires Journal(s) && CreditStep(s, c).outcome.Ok?
    ensures Journal(CreditStep(s, c).store)
  {
    hide DecimalAccepted, LinesOf;
    var t := CreditStep(s, c).store;
    var account := Prepaid(c.tenant, s.currencies[c.tenant]);
    var kind := if c.direction == CreditSide then AccountCredit(c.tenant) else AccountDebit(c.tenant);
    forall k
      ensures LinesOf(t.lines, k) ==
        if k == c.key then [Line(c.key, account, c.direction, c.amount),
                            Line(c.key, Topup(account.currency), Opposite(c.direction), c.amount)]
        else LinesOf(s.lines, k)
    {
      PostedEntries(s, c.key, kind, account, c.direction, Topup(account.currency), c.amount, k);
    }
    assert c.amount > 0.0 by { AmountPositive(c.amount); }
    JournalGrows(s, t, c.key);
  }

  lemma AmountPositive(x: real)
    requires DecimalAccepted(x, SCALE) && x != 0.0
    ensures x > 0.0
  {
  }

  /** A new transaction that is not a usage charge leaves the journal sound. */
  lemma JournalGrows(s: Store, t: Store, key: string)
    requires Journal(s) && key !in s.transactions && t.rows == s.rows
    requires key in t.transactions && !t.transactions[key].ModelUsage? && t.transactions == s.transactions[key := t.transactions[key]]
    requires Balanced(LinesOf(t.lines, key)) && forall k :: k != key ==> LinesOf(t.lines, k) == LinesOf(s.lines, k)
    ensures Journal(t)
  {
    hide LinesOf, Balanced;
    forall k | k in t.transactions && t.transactions[k].ModelUsage?
      ensures exists id :: ChargeOf(t, k, id) && t.transactions[k].request == t.rows[id].request
    {
      var id :| ChargeOf(s, k, id) && s.transactions[k].request == s.rows[id].request;
      assert ChargeOf(t, k, id);
    }
  }

  lemma CreditKeeps(s: Store, c: CreditRequest)
    requires Inv(s)
    ensures Inv(CreditStep(s, c).store)
  {
    hide Books, Income, Journal, DecimalAccepted;
    if CreditStep(s, c).outcome.Ok? {
      CreditBooks(s, c);
      CreditIncome(s, c);
      CreditJournal(s, c);
    }
  }

  // ----- Settle

  /** The parts of a settlement: the row, the token, the user account and, for a charge, revenue. */
  lemma SettleBooks(s: Store, id: string, amount: real)
    requires Books(s) && Rows(s) && id in s.rows && Open(s.rows[id])
    ensures RowSound(s, s.rows[id])
    ensures Books(SettledStore(s, id, amount))
  {
    hide Total, DecimalAccepted;
    var t, r, r' := SettledStore(s, id, amount), s.rows[id], SettledRow(s.rows[id], amount);
    var revenue, key, n := Revenue(r.account.currency), ChargeKey(r.request), |s.lines|;
    forall a: Account
      ensures Balance(t, a) + Total(t.rows, OpenIn(a)) == Booked(t.lines, a)
    {
      TotalUpdate(s.rows, id, r', OpenIn(a));
      assert Balance(s, a) + Total(s.rows, OpenIn(a)) == Booked(s.lines, a);
      AppendTwo(s.lines, Line(key, r.account, DebitSide, amount), Line(key, revenue, CreditSide, amount), a, key);
      hide Net, Gross;
    }
  }

  lemma SettleIncome(s: Store, id: string, amount: real)
    requires Income(s) && Rows(s) && id in s.rows && Open(s.rows[id])
    ensures RowSound(s, s.rows[id])
    ensures Income(SettledStore(s, id, amount))
  {
    hide Total;
    var t, r, r' := SettledStore(s, id, amount), s.rows[id], SettledRow(s.rows[id], amount);
    forall currency: string
      ensures Balance(t, Revenue(currency)) == Total(t.rows, SettledIn(currency))
    {
      TotalUpdate(s.rows, id, r', SettledIn(currency));
      assert Balance(s, Revenue(currency)) == Total(s.rows, SettledIn(currency));
    }
    forall token | token in t.tokens
      ensures t.tokens[token].spent == Total(t.rows, SettledOf(token))
    {
      TotalUpdate(s.rows, id, r', SettledOf(token));
    }
  }

  /** A settled row that was charged nothing needs no transaction. */
  lemma FreeSettlementJournal(s: Store, t: Store, id: string)
    requires Journal(s) && id in s.rows && Open(s.rows[id]) && id in t.rows && t.rows[id].settled == 0.0
    requires t.rows == s.rows[id := t.rows[id]] && t.transactions == s.transactions && t.lines == s.lines
    ensures Journal(t)
  {
    hide LinesOf, Balanced, ChargeKey;
    forall k | k in t.transactions && t.transactions[k].ModelUsage?
      ensures exists i :: ChargeOf(t, k, i) && t.transactions[k].request == t.rows[i].request
    {
      var i :| ChargeOf(s, k, i) && s.transactions[k].request == s.rows[i].request;
      assert ChargeOf(t, k, i);
    }
  }

  /** The charge of a settled row becomes the only transaction of its request. */
  lemma ChargeJournal(s: Store, t: Store, id: string, key: string)
    requires Journal(s) && id in s.rows && Open(s.rows[id]) && id in t.rows
    requires t.rows == s.rows[id := t.rows[id]] && t.rows[id].request == s.rows[id].request
    requires key !in s.transactions && t.transactions == s.transactions[key := ModelUsage(t.rows[id].request)]
    requires ChargeOf(t, key, id) && Balanced(LinesOf(t.lines, key))
    requires forall k :: k != key ==> LinesOf(t.lines, k) == LinesOf(s.lines, k)
    ensures Journal(t)
  {
    hide LinesOf, Balanced;
    forall k | k in t.transactions && t.transactions[k].ModelUsage?
      ensures exists i :: ChargeOf(t, k, i) && t.transactions[k].request == t.rows[i].request
    {
      if k != key {
        var i :| ChargeOf(s, k, i) && s.transactions[k].request == s.rows[i].request;
        assert ChargeOf(t, k, i);
      }
    }
  }

  lemma SettleJournal(s: Store, id: string, amount: real)
    requires Journal(s) && Rows(s) && id in s.rows && Open(s.rows[id]) && amount >= 0.0
    requires amount != 0.0 ==> ChargeKey(s.rows[id].request) !in s.transactions
    ensures RowSound(s, s.rows[id])
    ensures Journal(SettledStore(s, id, amount))
  {
    assert RowSound(s, s.rows[id]);
    hide LinesOf, HoldAccountedFor, Lockstep, Journal, Rows, ChargeKey;
    var t, r := SettledStore(s, id, amount), s.rows[id];
    var key, revenue := ChargeKey(r.request), Revenue(r.account.currency);
    if amount == 0.0 {
      FreeSettlementJournal(s, t, id);
    } else {
      forall k
        ensures LinesOf(t.lines, k) ==
          if k == key then [Line(key, r.account, DebitSide, amount), Line(key, revenue, CreditSide, amount)]
          else LinesOf(s.lines, k)
      {
        NoLinesYet(s, key);
        PostedEntries(s, key, ModelUsage(r.request), r.account, DebitSide, revenue, amount, k);
      }
      ChargeJournal(s, t, id, key);
    }
  }

  lemma NoLinesYet(s: Store, key: string)
    requires Journal(s) && key !in s.transactions
    ensures LinesOf(s.lines, key) == []
  {
    hide LinesOf, Balanced, ChargeKey;
  }

  lemma RowReplaced(s: Store, t: Store, id: string, r: Row)
    requires Rows(s) && id in s.rows && s.rows[id].request == r.request && RowSound(t, r)
    requires t.rows == s.rows[id := r] && s.accounts.Keys <= t.accounts.Keys && s.tokens.Keys <= t.tokens.Keys
    ensures Rows(t)
  {
    hide Lockstep, HoldAccountedFor;
    forall i | i in t.rows
      ensures RowSound(t, t.rows[i])
    {
      assert i != id ==> RowSound(s, s.rows[i]);
    }
  }

  lemma SettleRows(s: Store, id: string, amount: real)
    requires Rows(s) && id in s.rows && Open(s.rows[id]) && amount >= 0.0
    ensures RowSound(s, s.rows[id])
    ensures Rows(SettledStore(s, id, amount))
  {
    hide ChargeKey, Balance;
    assert RowSound(s, s.rows[id]);
    hide Rows;
    RowReplaced(s, SettledStore(s, id, amount), id, SettledRow(s.rows[id], amount));
  }

  lemma SettleKeeps(s: Store, id: string, q: SettleRequest)
    requires Inv(s)
    ensures Inv(SettleStep(s, id, q).store)
  {
    hide Books, Income, Journal, Rows, SettledStore, Settlement, SettlementMetrics;
    var t := SettleStep(s, id, q).store;
    if t != s {
      var r := s.rows[id];
      var amount := SettleAmount(r, q).value;
      SettlementNonNegative(r.terms, r.stored, SettlementMetrics(q.usage).value, q.tier);
      SettleBooks(s, id, amount);
      SettleIncome(s, id, amount);
      SettleRows(s, id, amount);
      SettleJournal(s, id, amount);
    }
  }

  // ----- every run

  lemma ApplyKeeps(s: Store, e: Event)
    requires Inv(s)
    ensures Inv(Apply(s, e).store)
  {
    hide Inv, CreditStep, ReserveStep, MarkPendingStep, SettleStep, RebindStep, ExtendStep, ReleaseStep;
    match e
    case CreditEvent(c) => CreditKeeps(s, c);
    case ReserveEvent(q) => ReserveKeeps(s, q);
    case PendingEvent(id) => PendingKeeps(s, id);
    case SettleEvent(id, q) => SettleKeeps(s, id, q);
    case ReconcileEvent(id, request, q) => SettleKeeps(s, id, q);
    case RebindEvent(id, q) => RebindKeeps(s, id, q);
    case ExtendEvent(id, now, seconds) => ExtendKeeps(s, id, now, seconds);
    case FailEvent(id) => ReleaseKeeps(s, id, Released);
    case ReapEvent(id) => ReleaseKeeps(s, id, Expired);
  }

  /** Nothing booked yet: tenants and tokens exist, accounts are empty. */
  ghost predicate Fresh(s: Store) {
    && s.lines == [] && s.transactions == map[] && s.rows == map[]
    && (forall a :: a in s.accounts ==> s.accounts[a] == 0.0)
    && (forall t :: t in s.tokens ==> s.tokens[t].spent == 0.0)
  }

  lemma FreshIsSound(s: Store)
    requires Fresh(s)
    ensures Inv(s)
  {
    forall weight: Row -> real
      ensures Total(s.rows, weight) == 0.0
    {
      AllZeroMap(Weigh(s.rows, weight));
    }
  }

  /** The books balance after every run, whatever interleaving of steps it is and whichever fail. */
  lemma {:induction false} BooksBalance(s: Store, events: seq<Event>)
    requires Inv(s)
    ensures Inv(Run(s, events))
    decreases |events|
  {
    hide Inv, Apply;
    if events != [] {
      ApplyKeeps(s, events[0]);
      BooksBalance(Apply(s, events[0]).store, events[1..]);
    }
  }
}
