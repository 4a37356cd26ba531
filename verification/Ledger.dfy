/** The prepaid ledger as a state machine: each database transaction is one step.  A step that
    fails returns its error and the store it started from. */
module Ledger {
  import opened Results
  import opened Rounding
  import opened Sums
  import opened Meters
  import opened Metering
  import opened Tiers
  import opened Charging
  import opened Intake
  import opened Quotes

  datatype Account = Prepaid(tenant: string, currency: string) | Topup(currency: string) | Revenue(currency: string)

  datatype Direction = CreditSide | DebitSide

  datatype Line = Line(key: string, account: Account, direction: Direction, amount: real)

  datatype Kind = AccountCredit(tenant: string) | AccountDebit(tenant: string) | ModelUsage(request: string)

  datatype Status = Held | Pending | Settled | Released | Expired

  datatype RequestStatus = Started | AwaitingSettlement | Finished | Failed

  /** A reservation joined with its model request: request ids are unique among reservations and
      both rows are inserted together. */
  datatype Row = Row(
    request: string, token: string, account: Account, terms: Terms, stored: Usage,
    reserved: real, settled: real, released: real,
    status: Status, requestStatus: RequestStatus, expiresAt: int)

  /** A zero limit means no limit. */
  datatype Token = Token(limit: real, spent: real)

  datatype Store = Store(
    currencies: map<string, string>, accounts: map<Account, real>,
    transactions: map<string, Kind>, lines: seq<Line>,
    rows: map<string, Row>, requestKeys: set<string>, tokens: map<string, Token>)

  datatype Step = Step(store: Store, outcome: Result<()>)

  function Fail(s: Store, error: Error): Step { Step(s, Err(error)) }
  function Done(s: Store): Step { Step(s, Ok(())) }

  const RESERVATION_TTL := 600

  function Balance(s: Store, a: Account): real {
    if a in s.accounts then s.accounts[a] else 0.0
  }

  function Moved(s: Store, a: Account, delta: real): Store {
    s.(accounts := s.accounts[a := Balance(s, a) + delta])
  }

  /** One transaction and its two lines. */
  function Posted(s: Store, key: string, kind: Kind, user: Account, direction: Direction, system: Account, amount: real): Store {
    s.(transactions := s.transactions[key := kind],
       lines := s.lines + [Line(key, user, direction, amount), Line(key, system, Opposite(direction), amount)])
  }

  function Opposite(d: Direction): Direction { if d == CreditSide then DebitSide else CreditSide }

  predicate Open(r: Row) { r.status == Held || r.status == Pending }

  function ChargeKey(request: string): string { "billing:charge:" + request }

  // ----- sums over reservations

  ghost function Weigh(rows: map<string, Row>, weight: Row -> real): map<string, real> {
    map id | id in rows :: weight(rows[id])
  }

  ghost function Total(rows: map<string, Row>, weight: Row -> real): real { MapSum(Weigh(rows, weight)) }

  function OpenIn(a: Account): Row -> real {
    r => if Open(r) && r.account == a then r.reserved else 0.0
  }

  function OpenOf(token: string): Row -> real {
    r => if Open(r) && r.token == token then r.reserved else 0.0
  }

  // ----- Credit

  datatype CreditRequest = CreditRequest(key: string, tenant: string, currency: string, amount: real, direction: Direction)

  function CreditStep(s: Store, c: CreditRequest): Step {
    if c.key == "" || |c.key| > 256 || !DecimalAccepted(c.amount, SCALE) || c.amount == 0.0 then Fail(s, InvalidRequest)
    else if c.key in s.transactions then Fail(s, DuplicateTransaction)
    else if c.tenant !in s.currencies then Fail(s, AccountNotFound)
    else if c.currency != "" && c.currency != s.currencies[c.tenant] then Fail(s, InvalidRequest)
    else
      var currency := s.currencies[c.tenant];
      var account := Prepaid(c.tenant, currency);
      var kind := if c.direction == CreditSide then AccountCredit(c.tenant) else AccountDebit(c.tenant);
      var s1 := Moved(s, account, if c.direction == CreditSide then c.amount else -c.amount);
      // The system account grows in both directions.
      var s2 := Moved(s1, Topup(currency), c.amount);
      Done(Posted(s2, c.key, kind, account, c.direction, Topup(currency), c.amount))
  }

  // ----- Reserve

  /** `usable`: the token row is active and unexpired; `terms`: the price that resolves, if any;
      `upstream`: the upstream estimate could be priced. */
  datatype ReserveRequest = ReserveRequest(
    id: string, request: string, key: string, tenant: string, token: string, usable: bool,
    terms: Option<Terms>, estimate: Usage, upstream: bool, now: int)

  predicate Taken(s: Store, id: string, request: string) {
    id in s.rows || exists k :: k in s.rows && s.rows[k].request == request
  }

  ghost predicate OverLimit(s: Store, token: string, hold: real)
    requires token in s.tokens
  {
    && s.tokens[token].limit != 0.0
    && s.tokens[token].spent + Total(s.rows, OpenOf(token)) + hold > s.tokens[token].limit
  }

  function NewRow(s: Store, q: ReserveRequest, account: Account, hold: real, stored: Usage): Row
    requires q.terms.Some?
  {
    Row(q.request, q.token, account, q.terms.value, stored, hold, 0.0, 0.0, Held, Started, q.now + RESERVATION_TTL)
  }

  /** Positive, at most 1000, six decimals. */
  predicate MultiplierAccepted(m: real) {
    0.0 < m <= 1000.0 && (m * 1000000.0).Floor as real == m * 1000000.0
  }

  ghost function ReserveStep(s: Store, q: ReserveRequest): Step {
    if q.terms.Some? && !MultiplierAccepted(q.terms.value.multiplier) then Fail(s, InvalidRequest)
    else if q.key in s.requestKeys then Fail(s, DuplicateRequest)
    else if q.token !in s.tokens || !q.usable then Fail(s, InvalidRequest)
    else if q.tenant !in s.currencies then Fail(s, AccountNotFound)
    else if q.terms.None? then Fail(s, PriceNotConfigured)
    else
      match Quote(q.terms.value, q.estimate)
      case Err(e) => Fail(s, e)
      case Ok((hold, stored)) =>
        var account := Prepaid(q.tenant, s.currencies[q.tenant]);
        if OverLimit(s, q.token, hold) then Fail(s, TokenSpendLimitReached)
        else if !q.upstream then Fail(s, UpstreamCostUnavailable)
        else if account !in s.accounts then Fail(s, AccountNotFound)
        else if s.accounts[account] < hold then Fail(s, InsufficientBalance)
        else if Taken(s, q.id, q.request) then Fail(s, DuplicateRequest)
        else Done(Moved(s, account, -hold).(
                    rows := s.rows[q.id := NewRow(s, q, account, hold, stored)],
                    requestKeys := s.requestKeys + {q.key}))
  }

  // ----- mark pending

  function MarkedPending(r: Row): Row {
    r.(status := Pending,
       requestStatus := if r.requestStatus == Started || r.requestStatus == AwaitingSettlement
                        then AwaitingSettlement else r.requestStatus)
  }

  function MarkPendingStep(s: Store, id: string): Step {
    if id !in s.rows then Fail(s, ReservationNotFound)
    else if s.rows[id].status == Settled then Done(s)
    else if !Open(s.rows[id]) then Fail(s, ReservationClosed)
    else Done(s.(rows := s.rows[id := MarkedPending(s.rows[id])]))
  }

  // ----- Settle

  datatype SettleRequest = SettleRequest(usage: Reported, tier: Option<Tier>, upstream: bool)

  function SettledRow(r: Row, amount: real): Row {
    r.(settled := amount, released := Max(r.reserved - amount, 0.0), status := Settled, requestStatus := Finished)
  }

  /** The amount a settlement of this row would charge. */
  ghost function SettleAmount(r: Row, q: SettleRequest): Result<real> {
    var metrics :- SettlementMetrics(q.usage);
    Settlement(r.terms, r.stored, metrics, q.tier)
  }

  ghost function SettleStep(s: Store, id: string, q: SettleRequest): Step {
    if SettlementMetrics(q.usage).Err? then Fail(s, InvalidRequest)
    else if id !in s.rows then Fail(s, ReservationNotFound)
    else if s.rows[id].status == Settled then Done(s)
    else if !Open(s.rows[id]) then Fail(s, ReservationClosed)
    else if s.rows[id].token !in s.tokens then Fail(s, InvalidRequest)
    else
      match SettleAmount(s.rows[id], q)
      case Err(e) => Fail(s, e)
      case Ok(amount) =>
        if !q.upstream then Fail(s, UpstreamCostUnavailable)
        else if s.rows[id].account !in s.accounts then Fail(s, AccountNotFound)
        else if amount != 0.0 && ChargeKey(s.rows[id].request) in s.transactions then Fail(s, DuplicateTransaction)
        else Done(SettledStore(s, id, amount))
  }

  function SettledStore(s: Store, id: string, amount: real): Store
    requires id in s.rows && s.rows[id].token in s.tokens
  {
    var r := s.rows[id];
    var token := s.tokens[r.token];
    var s1 := Moved(s, r.account, r.reserved - amount).(
      tokens := s.tokens[r.token := token.(spent := token.spent + amount)],
      rows := s.rows[id := SettledRow(r, amount)]);
    if amount == 0.0 then s1
    else
      var revenue := Revenue(r.account.currency);
      Posted(Moved(s1, revenue, amount), ChargeKey(r.request), ModelUsage(r.request), r.account, DebitSide, revenue, amount)
  }

  /** Reconciliation finds the reservation by its request and settles only what is pending. */
  ghost function SettleByRequestStep(s: Store, id: string, request: string, q: SettleRequest): Step {
    if id !in s.rows || s.rows[id].request != request then Fail(s, ReservationNotFound)
    else if s.rows[id].status == Settled then Done(s)
    else if s.rows[id].status != Pending then Fail(s, SettlementPending)
    else SettleStep(s, id, q)
  }

  // ----- Rebind

  /** `reachable`: the channel is active and serves the same model name; `price`: the target
      model's price, if one resolves. */
  datatype RebindRequest = RebindRequest(reachable: bool, sameModel: bool, price: Option<Price>, upstream: bool)

  predicate RequestOpen(r: Row) { r.requestStatus == Started || r.requestStatus == AwaitingSettlement }

  function ReboundRow(r: Row, terms: Terms, reserved: real, stored: Usage): Row {
    r.(reserved := reserved, stored := stored, terms := if RequestOpen(r) then terms else r.terms)
  }

  ghost function RebindStep(s: Store, id: string, q: RebindRequest): Step {
    if id !in s.rows || !q.reachable then Fail(s, ReservationNotFound)
    else if s.rows[id].status == Settled then Done(s)
    else if !Open(s.rows[id]) then Fail(s, ReservationClosed)
    else if q.sameModel then
      if !q.upstream then Fail(s, UpstreamCostUnavailable)
      else if !RequestOpen(s.rows[id]) then Fail(s, ReservationClosed)
      else Done(s)
    else if q.price.None? then Fail(s, PriceNotConfigured)
    else
      var r := s.rows[id];
      var terms := r.terms.(price := q.price.value);
      match QuoteAgain(terms, r.stored)
      case Err(e) => Fail(s, e)
      case Ok((reserved, stored)) =>
        if !q.upstream then Fail(s, UpstreamCostUnavailable)
        else if r.account !in s.accounts || s.accounts[r.account] + r.reserved < reserved then Fail(s, InsufficientBalance)
        else Done(Moved(s, r.account, r.reserved - reserved).(
                    rows := s.rows[id := ReboundRow(r, terms, reserved, stored)]))
  }

  // ----- Extend

  const DAY := 86400

  function ExtendStep(s: Store, id: string, now: int, seconds: int): Step {
    if seconds <= 0 || seconds > DAY then Fail(s, InvalidRequest)
    else if id !in s.rows || !Open(s.rows[id]) then Fail(s, ReservationClosed)
    else
      var r := s.rows[id];
      Done(s.(rows := s.rows[id := r.(expiresAt := if r.expiresAt < now + seconds then now + seconds else r.expiresAt)]))
  }

  // ----- release and reaper

  function ReleasedRow(r: Row, target: Status): Row {
    r.(released := r.reserved, status := target, requestStatus := Failed)
  }

  function ReleaseStep(s: Store, id: string, target: Status): Step {
    if target != Released && target != Expired then Fail(s, InvalidRequest)
    else if id !in s.rows then Fail(s, ReservationNotFound)
    else if s.rows[id].status == Settled || s.rows[id].status == Released || s.rows[id].status == Expired then Done(s)
    else if s.rows[id].status != Held then Fail(s, ReservationClosed)
    else if s.rows[id].account !in s.accounts then Fail(s, AccountNotFound)
    else
      var r := s.rows[id];
      Done(Moved(s, r.account, r.reserved).(rows := s.rows[id := ReleasedRow(r, target)]))
  }

  /** What the reaper's read lists. */
  predicate Due(s: Store, now: int, id: string) {
    id in s.rows && s.rows[id].status == Held && s.rows[id].expiresAt <= now
  }

  const REAPER_BATCH := 100

  /** Due holds in the order the reaper works them off: none twice, earliest expiry first, at most
      `limit`, and none left out that expires before a listed one. */
  ghost predicate Listing(s: Store, now: int, limit: nat, ids: seq<string>) {
    && (forall i :: 0 <= i < |ids| ==> Due(s, now, ids[i]))
    && (forall i, j :: 0 <= i < j < |ids| ==> ids[i] != ids[j] && s.rows[ids[i]].expiresAt <= s.rows[ids[j]].expiresAt)
    && |ids| <= limit
    && (forall id :: Due(s, now, id) && id !in ids ==>
          |ids| == limit && forall i :: 0 <= i < |ids| ==> s.rows[ids[i]].expiresAt <= s.rows[id].expiresAt)
  }

  /** The reaper's releases: rows that are gone or pending are skipped, any other failure ends the
      pass; the count includes what was found closed. */
  function Pass(s: Store, ids: seq<string>): (Store, nat, Result<()>)
    decreases |ids|
  {
    if ids == [] then (s, 0, Ok(()))
    else
      var step := ReleaseStep(s, ids[0], Expired);
      if step.outcome.Err? && step.outcome.error != ReservationClosed && step.outcome.error != ReservationNotFound
      then (step.store, 0, step.outcome)
      else
        var (t, n, r) := Pass(step.store, ids[1..]);
        (t, n + (if step.outcome.Ok? then 1 else 0), r)
  }

  // ----- runs

  datatype Event =
    | CreditEvent(credit: CreditRequest)
    | ReserveEvent(reserve: ReserveRequest)
    | PendingEvent(id: string)
    | SettleEvent(id: string, settle: SettleRequest)
    | ReconcileEvent(id: string, request: string, settle: SettleRequest)
    | RebindEvent(id: string, rebind: RebindRequest)
    | ExtendEvent(id: string, now: int, seconds: int)
    | FailEvent(id: string)
    | ReapEvent(id: string)

  ghost function Apply(s: Store, e: Event): Step {
    match e
    case CreditEvent(c) => CreditStep(s, c)
    case ReserveEvent(q) => ReserveStep(s, q)
    case PendingEvent(id) => MarkPendingStep(s, id)
    case SettleEvent(id, q) => SettleStep(s, id, q)
    case ReconcileEvent(id, request, q) => SettleByRequestStep(s, id, request, q)
    case RebindEvent(id, q) => RebindStep(s, id, q)
    case ExtendEvent(id, now, seconds) => ExtendStep(s, id, now, seconds)
    case FailEvent(id) => ReleaseStep(s, id, Released)
    case ReapEvent(id) => ReleaseStep(s, id, Expired)
  }

  /** Any interleaving of transactions is a sequence of events. */
  ghost function Run(s: Store, events: seq<Event>): Store
    decreases |events|
  {
    if events == [] then s else Run(Apply(s, events[0]).store, events[1..])
  }
}
