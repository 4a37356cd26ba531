/** Calculator and ledger together: with fair prices, plain estimates and reports that stay within
    them, rounding alone can take a balance below zero or a token over its limit. */
module FairRuns {
  import opened Results
  import opened Rounding
  import opened Sums
  import opened Meters
  import opened CodeTexts
  import opened Metering
  import opened MeteringLaws
  import opened Tiers
  import opened Charging
  import opened FlatPrices
  import opened Intake
  import opened IntakeLaws
  import opened Quotes
  import opened QuoteLaws
  import opened HoldLaws
  import opened Ledger
  import opened LedgerBooks
  import opened LedgerRuns

  // ----- the stored estimate never exceeds the requested one

  lemma StoredWithinEstimate(terms: Terms, estimate: Usage, usage: Usage)
    requires terms.mode == TokenMode && FairPrice(terms.price, terms.tier)
    requires PlainEstimate(estimate) && Quote(terms, estimate).Ok?
    requires WithinEstimate(usage, Quote(terms, estimate).value.1)
    ensures WithinEstimate(usage, estimate)
  {
    hide Normalized, UsageAccepted, Charge, Prepared, PriceComponentsFor, Flat, SubMetersNoDearer, HasPrice, InAFamily, Implied,
         AddImplicitRequestMetric, Cost, Sound, Unsplit, IndexComponents, Quote, Quantity;
    var components, tier := PriceComponentsFor(terms.price), terms.tier;
    var stored := Quote(terms, estimate).value.1;
    TokenQuote(terms, estimate);
    AcceptedIsSound(estimate);
    UnsplitIsNormal(estimate);
    QuoteStores(terms, estimate);
    PreparedTotals(components, IndexComponents(components).value, estimate, tier);
  }

  lemma QuoteStores(terms: Terms, estimate: Usage)
    requires terms.mode == TokenMode && Quote(terms, estimate).Ok?
    ensures var components := PriceComponentsFor(terms.price);
      Prepared(components, AddImplicitRequestMetric(components, Normalized(estimate), terms.tier), terms.tier)
      == Ok(Quote(terms, estimate).value.1)
  {
    hide Normalized, UsageAccepted, Charge, Prepared, PriceComponentsFor, AddImplicitRequestMetric, Cost;
  }

  lemma PreparedTotals(components: seq<Component>, index: Index, estimate: Usage, tier: Option<Tier>)
    requires IndexComponents(components) == Ok(index) && Sound(estimate) && PlainEstimate(estimate)
    requires Prepared(components, AddImplicitRequestMetric(components, estimate, tier), tier).Ok?
    ensures var p := Prepared(components, AddImplicitRequestMetric(components, estimate, tier), tier).value;
      forall root :: root in [InputTokens, OutputTokens] ==> Quantity(p, Plain(root)) <= Quantity(estimate, Plain(root))
  {
    hide IndexComponents, Unsplit, Prepared, HasComponentForTier, ComponentForMeter, Filtered, Sound,
         AddImplicitRequestMetric;
    UnsplitPrepared(components, index, estimate, tier);
    FilteredLaw(index, AddImplicitRequestMetric(components, estimate, tier), tier);
    ImplicitEntries(components, estimate, tier);
  }

  // ----- covered holds

  /** This hold was quoted for a plain estimate at a fair token price, on these very terms. */
  ghost predicate QuotedFor(terms: Terms, estimate: Usage, reserved: real, stored: Usage) {
    && terms.mode == TokenMode && FairPrice(terms.price, terms.tier)
    && PlainEstimate(estimate) && Quote(terms, estimate) == Ok((reserved, stored))
  }

  ghost predicate Covered(r: Row) {
    Open(r) ==> exists estimate :: QuotedFor(r.terms, estimate, r.reserved, r.stored)
  }

  ghost predicate AllCovered(s: Store) {
    forall id :: id in s.rows ==> Covered(s.rows[id])
  }

  /** The report names the tier the price was snapshotted for, if any, and stays within the stored
      estimate, itemized in any way. */
  ghost predicate FairReport(r: Row, q: SettleRequest) {
    && (r.terms.tier.Some? || q.tier.None?)
    && (SettlementMetrics(q.usage).Ok? ==> WithinEstimate(SettlementMetrics(q.usage).value, r.stored))
  }

  lemma {:induction false} CoveredSettlement(r: Row, q: SettleRequest)
    requires Open(r) && Covered(r) && FairReport(r, q) && SettleAmount(r, q).Ok?
    ensures SettleAmount(r, q).value <= r.reserved + HALF_UNIT
  {
    hide FairPrice, PlainEstimate, WithinEstimate, Quote, Settlement, SettlementMetrics, HALF_UNIT;
    var estimate :| QuotedFor(r.terms, estimate, r.reserved, r.stored);
    var usage := SettlementMetrics(q.usage).value;
    StoredWithinEstimate(r.terms, estimate, usage);
    HoldCoversSettlement(r.terms, estimate, r.stored, usage, q.tier);
  }

  // ----- fair steps

  ghost predicate FairReserve(q: ReserveRequest) {
    q.terms.Some? ==>
      && q.terms.value.mode == TokenMode && FairPrice(q.terms.value.price, q.terms.value.tier)
      && PlainEstimate(q.estimate)
  }

  /** The target model's price, if one resolves, is fair as well. */
  ghost predicate FairRebind(r: Row, q: RebindRequest) {
    !q.sameModel && q.price.Some? ==> FairPrice(q.price.value, r.terms.tier)
  }

  /** No administrator debit, fair reservations, fair reports and moves to models with a fair price.
      Marking pending, extending, failing and reaping are free to happen at any time. */
  ghost predicate FairEvent(s: Store, e: Event) {
    match e
    case CreditEvent(c) => c.direction == CreditSide
    case ReserveEvent(q) => FairReserve(q)
    case SettleEvent(id, q) => id in s.rows ==> FairReport(s.rows[id], q)
    case ReconcileEvent(id, _, q) => id in s.rows ==> FairReport(s.rows[id], q)
    case RebindEvent(id, q) => id in s.rows ==> FairRebind(s.rows[id], q)
    case _ => true
  }

  ghost predicate FairRun(s: Store, events: seq<Event>)
    decreases |events|
  {
    events != [] ==> FairEvent(s, events[0]) && FairRun(Apply(s, events[0]).store, events[1..])
  }

  lemma ReserveCovers(s: Store, q: ReserveRequest)
    requires AllCovered(s) && FairReserve(q)
    ensures AllCovered(ReserveStep(s, q).store)
  {
    hide Covered, Quote, OverLimit, Taken, FairPrice, PlainEstimate, Balance;
    var t := ReserveStep(s, q).store;
    if ReserveStep(s, q).outcome.Ok? {
      var r := t.rows[q.id];
      assert QuotedFor(r.terms, q.estimate, r.reserved, r.stored);
      assert Covered(r) by { CoveredBy(r, q.estimate); }
    }
  }

  lemma CoveredBy(r: Row, estimate: Usage)
    requires QuotedFor(r.terms, estimate, r.reserved, r.stored)
    ensures Covered(r)
  {
    hide QuotedFor;
  }

  lemma CoveredCopy(r: Row, r': Row)
    requires Covered(r) && (Open(r') ==> Open(r))
    requires r'.terms == r.terms && r'.reserved == r.reserved && r'.stored == r.stored
    ensures Covered(r')
  {
    hide QuotedFor;
  }

  // ----- moving a covered hold to another fair price

  /** The estimate stored with a hold is itself a plain estimate. */
  lemma StoredIsPlain(terms: Terms, estimate: Usage)
    requires terms.mode == TokenMode && FairPrice(terms.price, terms.tier)
    requires PlainEstimate(estimate) && Quote(terms, estimate).Ok?
    ensures Sound(Quote(terms, estimate).value.1) && PlainEstimate(Quote(terms, estimate).value.1)
  {
    hide Normalized, UsageAccepted, Charge, Prepared, PriceComponentsFor, Flat, SubMetersNoDearer, HasPrice, Filtered,
         AddImplicitRequestMetric, Cost, Sound, Unsplit, IndexComponents, Quote, HasComponentForTier, ComponentForMeter;
    var components, tier := PriceComponentsFor(terms.price), terms.tier;
    var index := IndexComponents(components).value;
    TokenQuote(terms, estimate);
    AcceptedIsSound(estimate);
    UnsplitIsNormal(estimate);
    QuoteStores(terms, estimate);
    UnsplitPrepared(components, index, estimate, tier);
    FilteredLaw(index, AddImplicitRequestMetric(components, estimate, tier), tier);
    ImplicitEntries(components, estimate, tier);
    ImplicitWithout(components, estimate, tier);
  }

  lemma ImplicitWithout(components: seq<Component>, u: Usage, tier: Option<Tier>)
    ensures !HasComponentForTier(components, Requests, tier) ==> AddImplicitRequestMetric(components, u, tier) == u
  {
    hide HasComponentForTier;
  }

  lemma AcceptedBefore(components: seq<Component>, u: Usage, tier: Option<Tier>)
    requires UsageAccepted(AddImplicitRequestMetric(components, u, tier))
    ensures UsageAccepted(u)
  {
    hide HasComponentForTier, DecimalAccepted, ValidCode;
    WholeAccepted(0);
    var v := AddImplicitRequestMetric(components, u, tier);
    forall c | c in u
      ensures ValidCode(c) && DecimalAccepted(u[c], SCALE)
    {
      assert c in v;
      assert u[c] == v[c] || u[c] == 0.0;
    }
  }

  /** For a plain estimate pricing it again is quoting it. */
  lemma QuotedAgain(terms: Terms, stored: Usage)
    requires terms.mode == TokenMode && Sound(stored) && PlainEstimate(stored) && QuoteAgain(terms, stored).Ok?
    ensures Quote(terms, stored) == QuoteAgain(terms, stored)
  {
    hide Charge, PriceComponentsFor, Sound, Unsplit, UsageAccepted, Normalized, AddImplicitRequestMetric, Prepared, Cost;
    var components := PriceComponentsFor(terms.price);
    assert Prepared(components, AddImplicitRequestMetric(components, stored, terms.tier), terms.tier).Ok?;
    PreparedIs(components, AddImplicitRequestMetric(components, stored, terms.tier), terms.tier);
    AcceptedBefore(components, stored, terms.tier);
    UnsplitIsNormal(stored);
  }

  lemma ReboundCovered(r: Row, price: Price, reserved: real, stored: Usage)
    requires Open(r) && RequestOpen(r) && Covered(r) && FairPrice(price, r.terms.tier)
    requires QuoteAgain(r.terms.(price := price), r.stored) == Ok((reserved, stored))
    ensures Covered(ReboundRow(r, r.terms.(price := price), reserved, stored))
  {
    hide FairPrice, PlainEstimate, Quote, QuoteAgain, Sound;
    var estimate :| QuotedFor(r.terms, estimate, r.reserved, r.stored);
    var terms := r.terms.(price := price);
    StoredIsPlain(r.terms, estimate);
    QuotedAgain(terms, r.stored);
    assert QuotedFor(terms, r.stored, reserved, stored);
  }

  lemma RebindCovers(s: Store, id: string, q: RebindRequest)
    requires Inv(s) && AllCovered(s) && (id in s.rows ==> FairRebind(s.rows[id], q))
    ensures AllCovered(RebindStep(s, id, q).store)
  {
    hide Inv, Covered, QuoteAgain, FairPrice, Balance, ReboundRow;
    var t := RebindStep(s, id, q).store;
    if t != s {
      var r := s.rows[id];
      RowIsSound(s, id);
      var (reserved, stored) := QuoteAgain(r.terms.(price := q.price.value), r.stored).value;
      ReboundCovered(r, q.price.value, reserved, stored);
      assert t.rows == s.rows[id := ReboundRow(r, r.terms.(price := q.price.value), reserved, stored)];
    }
  }

  /** The terms, the estimate and the hold of a row carry over, and a closed row stays closed. */
  ghost predicate Copies(s: Store, t: Store, id: string)
    requires id in s.rows
  {
    && t.rows.Keys == s.rows.Keys && (Open(t.rows[id]) ==> Open(s.rows[id]))
    && t.rows[id].terms == s.rows[id].terms && t.rows[id].reserved == s.rows[id].reserved
    && t.rows[id].stored == s.rows[id].stored
  }

  lemma SettleCopies(s: Store, i: string, q: SettleRequest, id: string)
    requires id in s.rows
    ensures Copies(s, SettleStep(s, i, q).store, id)
  {
    hide SettleAmount, SettlementMetrics, Balance, ChargeKey, Max;
  }

  lemma FairStepCopies(s: Store, e: Event, id: string)
    requires FairEvent(s, e) && !e.ReserveEvent? && !e.RebindEvent? && id in s.rows
    ensures Copies(s, Apply(s, e).store, id)
  {
    hide FairReport, FairReserve, QuoteAgain, SettleStep, DecimalAccepted, Balance;
    match e
    case SettleEvent(i, q) => SettleCopies(s, i, q, id);
    case ReconcileEvent(i, request, q) => SettleCopies(s, i, q, id);
    case _ =>
  }

  lemma FairStepCovers(s: Store, e: Event)
    requires Inv(s) && AllCovered(s) && FairEvent(s, e)
    ensures AllCovered(Apply(s, e).store)
  {
    hide Inv, Covered, FairReport, FairReserve, FairRebind, Apply;
    var t := Apply(s, e).store;
    if e.ReserveEvent? {
      assert Apply(s, e) == ReserveStep(s, e.reserve) by { ApplyReserve(s, e.reserve); }
      assert FairReserve(e.reserve);
      ReserveCovers(s, e.reserve);
    } else if e.RebindEvent? {
      assert Apply(s, e) == RebindStep(s, e.id, e.rebind) by { ApplyRebind(s, e.id, e.rebind); }
      RebindCovers(s, e.id, e.rebind);
    } else if s.rows == map[] {
      NoRowsAppear(s, e);
    } else {
      var any :| any in s.rows;
      FairStepCopies(s, e, any);
      forall id | id in t.rows
        ensures Covered(t.rows[id])
      {
        FairStepCopies(s, e, id);
        CoveredCopy(s.rows[id], t.rows[id]);
      }
    }
  }

  lemma ApplyReserve(s: Store, q: ReserveRequest)
    ensures Apply(s, ReserveEvent(q)) == ReserveStep(s, q)
  {
    hide ReserveStep;
  }

  lemma ApplyRebind(s: Store, id: string, q: RebindRequest)
    ensures Apply(s, RebindEvent(id, q)) == RebindStep(s, id, q)
  {
    hide RebindStep;
  }

  lemma NoRowsAppear(s: Store, e: Event)
    requires !e.ReserveEvent? && s.rows == map[]
    ensures Apply(s, e).store.rows == map[]
  {
    hide DecimalAccepted, SettlementMetrics;
  }

  // ----- what a fair settlement can overrun

  lemma SettledAsQuoted(s: Store, id: string, q: SettleRequest)
    requires SettleStep(s, id, q).store != s
    ensures id in s.rows && Open(s.rows[id]) && SettleAmount(s.rows[id], q).Ok?
    ensures var t := SettleStep(s, id, q).store; id in t.rows && t.rows[id].settled == SettleAmount(s.rows[id], q).value
  {
    hide SettleAmount, SettlementMetrics, Balance, ChargeKey, Max;
  }

  lemma FairOverrun(s: Store, e: Event)
    requires AllCovered(s) && FairEvent(s, e) && (e.SettleEvent? || e.ReconcileEvent?)
    ensures ClosesAt(s, Apply(s, e).store, e.id) ==>
      Positive(Apply(s, e).store.rows[e.id].settled - s.rows[e.id].reserved) <= HALF_UNIT
  {
    hide Covered, FairReport, SettleStep, SettleAmount;
    var t := Apply(s, e).store;
    if ClosesAt(s, t, e.id) {
      assert t == SettleStep(s, e.id, e.settle).store && t != s;
      SettledAsQuoted(s, e.id, e.settle);
      assert Covered(s.rows[e.id]);
      CoveredSettlement(s.rows[e.id], e.settle);
    }
  }

  /** By how much a rebind raises a token's hold. */
  ghost function RebindIncrease(s: Store, e: Event, token: string): real {
    if e.RebindEvent? then TokenOverrun(s, e, token) else 0.0
  }

  ghost function RebindIncreases(s: Store, events: seq<Event>, token: string): real
    decreases |events|
  {
    if events == [] then 0.0
    else RebindIncrease(s, events[0], token) + RebindIncreases(Apply(s, events[0]).store, events[1..], token)
  }

  lemma FairStepOverrun(s: Store, e: Event, token: string)
    requires AllCovered(s) && FairEvent(s, e)
    ensures TokenOverrun(s, e, token) <= RebindIncrease(s, e, token) + HALF_UNIT
  {
    hide Covered, FairReport, FairReserve, CreditStep, ReserveStep, MarkPendingStep, SettleStep, RebindStep, ExtendStep,
         ReleaseStep, AllCovered;
    match e
    case SettleEvent(id, q) => FairOverrun(s, e);
    case ReconcileEvent(id, request, q) => FairOverrun(s, e);
    case _ =>
  }

  lemma FairStepDebt(s: Store, e: Event, a: Account)
    requires AllCovered(s) && FairEvent(s, e)
    ensures Debt(s, e, a) <= HALF_UNIT
  {
    hide Covered, FairReport, FairReserve, CreditStep, ReserveStep, MarkPendingStep, SettleStep, RebindStep, ExtendStep,
         ReleaseStep, AllCovered;
    match e
    case SettleEvent(id, q) => FairOverrun(s, e);
    case ReconcileEvent(id, request, q) => FairOverrun(s, e);
    case _ =>
  }

  lemma {:induction false} FairDebts(s: Store, events: seq<Event>, a: Account, token: string)
    requires Inv(s) && AllCovered(s) && FairRun(s, events)
    ensures Debts(s, events, a) <= HalfUnits(|events|)
    ensures TokenOverruns(s, events, token) <= RebindIncreases(s, events, token) + HalfUnits(|events|)
    decreases |events|
  {
    hide Inv, AllCovered, FairEvent, Apply, Debt, TokenOverrun, RebindIncrease, HalfUnits, HALF_UNIT;
    HalfUnitsNext(0);
    if events != [] {
      FairStepDebt(s, events[0], a);
      FairStepOverrun(s, events[0], token);
      FairStepCovers(s, events[0]);
      ApplyKeeps(s, events[0]);
      FairDebts(Apply(s, events[0]).store, events[1..], a, token);
      HalfUnitsNext(|events[1..]|);
    }
  }

  /** The end-to-end guarantee of prepaid billing.  From a fresh store, under every interleaving of
      fair steps, no prepaid balance falls below zero by more than half a unit of the thirtieth decimal
      for each step, and no limited token passes its limit by more than that and what rebinds to
      dearer models add to its holds. */
  lemma {:induction false} FairRunsStayFunded(s: Store, events: seq<Event>, a: Account, token: string)
    requires Fresh(s) && FairRun(s, events) && a.Prepaid?
    requires token in s.tokens && s.tokens[token].limit > 0.0
    ensures var t := Run(s, events);
      && Balance(t, a) >= -HalfUnits(|events|)
      && token in t.tokens
      && Exposure(t, token) <= s.tokens[token].limit + RebindIncreases(s, events, token) + HalfUnits(|events|)
  {
    FreshIsSound(s);
    FreshExposure(s, token);
    assert AllCovered(s) && Balance(s, a) == 0.0;
    hide Inv, AllCovered, FairRun, Fresh, Run, Balance, Debts, TokenOverruns, RebindIncreases, Exposure, HalfUnits;
    FairDebts(s, events, a, token);
    BalanceFloor(s, events, a, 0.0);
    SpendLimitHolds(s, events, token, 0.0);
  }

  lemma FreshExposure(s: Store, token: string)
    requires Fresh(s) && token in s.tokens
    ensures Exposure(s, token) == 0.0
  {
    AllZeroMap(Weigh(s.rows, OpenOf(token)));
  }
}
