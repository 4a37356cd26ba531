/** Holds and settlements: one price applied to an estimate and to the reported usage. */
module Quotes {
  import opened Results
  import opened Rounding
  import opened Sums
  import opened Meters
  import opened Metering
  import opened Tiers
  import opened Charging

  datatype Mode = TokenMode | ImageCount | VideoSeconds | VideoRequest

  /** A blank legacy price is None. */
  datatype Price = Price(
    input: Option<real>, output: Option<real>, cachedInput: Option<real>, cacheCreation: Option<real>,
    reasoning: Option<real>, minimum: real, components: seq<Component>)

  // ----- legacy prices beside published components

  function Legacy(m: Meter, value: Option<real>, fallback: bool): seq<Component> {
    if value.Some? && (!fallback || value.value != 0.0)
    then [Component(Plain(m), "token", value.value, [], None)] else []
  }

  function LegacyPriceComponents(price: Price): seq<Component> {
    Legacy(InputTokens, price.input, false) + Legacy(OutputTokens, price.output, false)
    + Legacy(CachedInputTokens, price.cachedInput, true) + Legacy(CacheCreationTokens, price.cacheCreation, true)
    + Legacy(ReasoningTokens, price.reasoning, true)
  }

  function CodesOf(components: seq<Component>): set<Code> { set c | c in components :: c.code }

  function Without(components: seq<Component>, codes: set<Code>): seq<Component> {
    if components == [] then []
    else (if components[0].code in codes then [] else [components[0]]) + Without(components[1..], codes)
  }

  /** A published component always wins over the legacy price of the same code. */
  function PriceComponentsFor(price: Price): seq<Component> {
    price.components + Without(LegacyPriceComponents(price), CodesOf(price.components))
  }

  method BuildPriceComponents(price: Price) returns (result: seq<Component>)
    ensures result == PriceComponentsFor(price)
  {
    hide LegacyPriceComponents;
    result := price.components;
    var existing: set<Code> := {};
    for i := 0 to |price.components|
      invariant existing == CodesOf(price.components[..i])
    {
      existing := existing + {price.components[i].code};
      assert price.components[..i + 1] == price.components[..i] + [price.components[i]];
    }
    assert price.components[..|price.components|] == price.components;
    var legacy := LegacyPriceComponents(price);
    for i := 0 to |legacy|
      invariant result + Without(legacy[i..], existing) == PriceComponentsFor(price)
    {
      assert legacy[i..][1..] == legacy[i + 1..];
      if legacy[i].code in existing { continue; }
      result := result + [legacy[i]];
    }
  }

  // ----- metering modes

  /** First meter with a positive quantity, printed. */
  function FirstPositive(u: Usage, ms: seq<Meter>): Option<real> {
    if ms == [] then None
    else if Quantity(u, Plain(ms[0])) > 0.0 then Some(Round30(Quantity(u, Plain(ms[0]))))
    else FirstPositive(u, ms[1..])
  }

  const SECONDS_METERS :=
    [OutputSeconds, OutputVideoSeconds, OutputSeconds480p, OutputSeconds1080p, OutputSeconds4k]

  function Single(m: Meter, quantity: Option<real>): Usage {
    match quantity case None => map[] case Some(q) => map[Plain(m) := q]
  }

  function CustomerUsage(u: Usage, mode: Mode): Result<Usage> {
    var normalized :- NormalizedUsage(u);
    Ok(match mode
       case TokenMode => normalized
       case ImageCount => Single(OutputImages, FirstPositive(normalized, [OutputImages]))
       case VideoSeconds => Single(OutputSeconds, FirstPositive(normalized, SECONDS_METERS))
       case VideoRequest => Single(Requests, Some(1.0)))
  }

  predicate HasPositive(u: Usage) { exists c :: c in u && u[c] > 0.0 }

  /** Only media meters may fall back on the estimate. */
  function CustomerUsageWithEstimate(actual: Usage, estimate: Usage, mode: Mode): Result<Usage> {
    var customer :- CustomerUsage(actual, mode);
    if mode == TokenMode || HasPositive(customer) then Ok(customer)
    else
      var fallback :- CustomerUsage(estimate, mode);
      Ok(if HasPositive(fallback) then fallback else customer)
  }

  function MediaComponent(mode: Mode, unitPrice: real): Component
    requires mode != TokenMode
  {
    match mode
    case ImageCount => Component(Plain(OutputImages), "image", unitPrice, [], None)
    case VideoSeconds => Component(Plain(OutputSeconds), "second", unitPrice, [], None)
    case VideoRequest => Component(Plain(Requests), "request", unitPrice, [], None)
  }

  /** Media groups charge their own unit price; every token price becomes zero. */
  function ApplyMeteringPrice(price: Price, mode: Mode, unitPrice: Option<real>): Result<Price> {
    if mode == TokenMode then Ok(price)
    else if unitPrice.None? || !DecimalAccepted(unitPrice.value, SCALE) || unitPrice.value == 0.0
    then Err(PriceNotConfigured)
    else Ok(Price(Some(0.0), Some(0.0), Some(0.0), price.cacheCreation, Some(0.0), 0.0,
                  [MediaComponent(mode, unitPrice.value)]))
  }

  // ----- estimates

  predicate Kept(index: Index, u: Usage, tier: Option<Tier>, c: Code) {
    var base := ComponentBaseCode(c);
    && !(EffectiveQuantity(base, u) <= 0.0 && base != c)
    && ComponentForMeter(index, base, tier).Some?
  }

  /** The estimates that the selected price can bill; parents are rebuilt from what is left. */
  function Prepared(components: seq<Component>, u: Usage, tier: Option<Tier>): Result<Usage> {
    var normalized :- NormalizedUsage(u);
    var index :- IndexComponents(components);
    NormalizedUsage(map c | c in normalized && Kept(index, normalized, tier, c) :: normalized[c])
  }

  method PrepareReservationMetrics(components: seq<Component>, u: Usage, tier: Option<Tier>) returns (r: Result<Usage>)
    ensures r == Prepared(components, u, tier)
  {
    hide Kept, NormalizedUsage, IndexComponents;
    var normalized :- NormalizeMeteredUsage(u);
    var byCode :- BuildIndex(components);
    var filtered: Usage := map[];
    var todo := normalized.Keys;
    while todo != {}
      invariant todo <= normalized.Keys
      invariant filtered == map c | c in normalized && c !in todo && Kept(byCode, normalized, tier, c) :: normalized[c]
    {
      var c :| c in todo;
      todo := todo - {c};
      if Kept(byCode, normalized, tier, c) {
        filtered := filtered[c := normalized[c]];
      }
    }
    assert filtered == map c | c in normalized && Kept(byCode, normalized, tier, c) :: normalized[c];
    r := NormalizeMeteredUsage(filtered);
  }

  // ----- the two amounts of one request

  /** What a request's price snapshot fixes. */
  datatype Terms = Terms(price: Price, mode: Mode, unitPrice: Option<real>, tier: Option<Tier>, multiplier: real)

  /** Reserve: the hold, exact after the multiplier, and the estimate that is stored with it. */
  ghost function Quote(terms: Terms, estimate: Usage): Result<(real, Usage)> {
    var price :- ApplyMeteringPrice(terms.price, terms.mode, terms.unitPrice);
    var customer :- CustomerUsage(estimate, terms.mode);
    var components := PriceComponentsFor(price);
    Requote(components, price.minimum, terms, customer)
  }

  ghost function Requote(components: seq<Component>, minimum: real, terms: Terms, metrics: Usage): Result<(real, Usage)> {
    var prepared :- Prepared(components, AddImplicitRequestMetric(components, metrics, terms.tier), terms.tier);
    var amount :- Charge(components, prepared, minimum, terms.tier);
    Ok((Cost(terms.multiplier, amount), prepared))
  }

  /** Rebinding prices the stored estimate again. */
  ghost function QuoteAgain(terms: Terms, stored: Usage): Result<(real, Usage)> {
    var price :- SettledPrice(terms);
    Requote(PriceComponentsFor(price), price.minimum, terms, stored)
  }

  /** The snapshot's tier is authoritative; only without one does the reported tier count. */
  function SettlementTier(snapshot: Option<Tier>, reported: Option<Tier>): Option<Tier> {
    if snapshot.Some? then snapshot else reported
  }

  /** Without a group unit price the token price stands. */
  function SettledPrice(terms: Terms): Result<Price> {
    if terms.unitPrice.Some? then ApplyMeteringPrice(terms.price, terms.mode, terms.unitPrice) else Ok(terms.price)
  }

  function AllowsZeroUsage(price: Price, tier: Option<Tier>, mode: Mode): bool {
    mode == TokenMode && (price.minimum != 0.0 || HasComponentForTier(PriceComponentsFor(price), Requests, tier))
  }

  /** Settle: the complete amount for the reported usage, printed after the multiplier. */
  ghost function Settlement(terms: Terms, stored: Usage, usage: Usage, reported: Option<Tier>): Result<real> {
    var tier := SettlementTier(terms.tier, reported);
    var price :- SettledPrice(terms);
    var customer :- CustomerUsageWithEstimate(usage, stored, terms.mode);
    if !HasPositive(customer) && !AllowsZeroUsage(price, tier, terms.mode) then Err(UsageUnavailable)
    else
      var components := PriceComponentsFor(price);
      var amount :- Charge(components, AddImplicitRequestMetric(components, customer, tier), price.minimum, tier);
      if terms.multiplier < 0.0 then Err(InvalidRequest) else Ok(Round30(Cost(terms.multiplier, amount)))
  }

  method CalculateQuote(terms: Terms, estimate: Usage) returns (r: Result<(real, Usage)>)
    ensures r == Quote(terms, estimate)
  {
    hide Charge, Prepared, PriceComponentsFor, CustomerUsage, AddImplicitRequestMetric;
    var price :- ApplyMeteringPrice(terms.price, terms.mode, terms.unitPrice);
    var customer :- CustomerUsage(estimate, terms.mode);
    var components := BuildPriceComponents(price);
    r := CalculateRequote(components, price.minimum, terms, customer);
  }

  method CalculateRequote(components: seq<Component>, minimum: real, terms: Terms, metrics: Usage)
    returns (r: Result<(real, Usage)>)
    ensures r == Requote(components, minimum, terms, metrics)
  {
    hide Charge, Prepared, AddImplicitRequestMetric;
    var prepared :- PrepareReservationMetrics(
      components, AddImplicitRequestMetric(components, metrics, terms.tier), terms.tier);
    var charge :- CalculateMeteredCharge(components, prepared, minimum, terms.tier);
    return Ok((Cost(terms.multiplier, charge.amount), prepared));
  }

  method CalculateQuoteAgain(terms: Terms, stored: Usage) returns (r: Result<(real, Usage)>)
    ensures r == QuoteAgain(terms, stored)
  {
    hide Requote, PriceComponentsFor;
    var price :- SettledPrice(terms);
    var components := BuildPriceComponents(price);
    r := CalculateRequote(components, price.minimum, terms, stored);
  }

  method CalculateSettlement(terms: Terms, stored: Usage, usage: Usage, reported: Option<Tier>) returns (r: Result<real>)
    ensures r == Settlement(terms, stored, usage, reported)
  {
    hide Charge, PriceComponentsFor, CustomerUsageWithEstimate, AddImplicitRequestMetric, Round30, AllowsZeroUsage, HasPositive;
    var tier := SettlementTier(terms.tier, reported);
    var price :- SettledPrice(terms);
    var customer :- CustomerUsageWithEstimate(usage, stored, terms.mode);
    if !HasPositive(customer) && !AllowsZeroUsage(price, tier, terms.mode) { return Err(UsageUnavailable); }
    var components := BuildPriceComponents(price);
    var charge :- CalculateMeteredCharge(
      components, AddImplicitRequestMetric(components, customer, tier), price.minimum, tier);
    var factored :- MultiplyCharge(charge, terms.multiplier);
    return Ok(factored.amount);
  }
}
