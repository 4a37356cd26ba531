/** What a media group reserves: the estimated media quantity at the unit price, and never less than
    a settlement of at most that quantity. */
module MediaHolds {
  import opened Results
  import opened Rounding
  import opened Sums
  import opened Meters
  import opened Metering
  import opened Tiers
  import opened Charging
  import opened IntakeLaws
  import opened Quotes
  import opened QuoteLaws
  import opened ItemizedEstimates
  import opened MediaLaws

  /** A group unit price that media may be charged at. */
  predicate UnitPriceSet(terms: Terms) {
    terms.unitPrice.Some? && DecimalAccepted(terms.unitPrice.value, SCALE) && terms.unitPrice.value != 0.0
  }

  /** What the quantity costs at the unit price before the multiplier. */
  function MediaCost(terms: Terms, quantity: Option<real>): real
    requires terms.unitPrice.Some?
  {
    match quantity case None => 0.0 case Some(q) => Round30(Cost(terms.unitPrice.value, q))
  }

  // ----- pricing a media estimate

  lemma NothingPrepared(components: seq<Component>, index: Index, tier: Option<Tier>)
    requires IndexComponents(components) == Ok(index) && !HasComponentForTier(components, Requests, tier)
    ensures AddImplicitRequestMetric(components, map[], tier) == map[] && Prepared(components, map[], tier) == Ok(map[])
    ensures Charge(components, map[], 0.0, tier) == Ok(0.0)
  {
    hide IndexComponents, HasComponentForTier, Normalized, UsageAccepted;
    EmptyNormalized();
    ZeroOnGrid();
    var none: Usage := map[];
    assert Filtered(index, none, tier) == none;
    assert LineAmounts(index, tier, none) == map[];
  }

  lemma MediaPrepared(terms: Terms, q: real, tier: Option<Tier>)
    requires terms.mode != TokenMode && terms.unitPrice.Some? && 0.0 < q && DecimalAccepted(q, SCALE)
    ensures var components := PriceComponentsFor(MediaPrice(terms.price, terms.mode, terms.unitPrice.value));
      var customer := map[Plain(MediaMeter(terms.mode)) := q];
      && AddImplicitRequestMetric(components, customer, tier) == customer
      && Prepared(components, customer, tier) == Ok(customer)
  {
    hide InAFamily, DecimalAccepted, PriceComponentsFor, IndexComponents, ComponentForMeter, HasComponentForTier, UsageAccepted,
         Normalized, AddImplicitRequestMetric, MediaPrice, MediaComponent, MediaMeter, Prepared, EffectiveQuantity, BillableCodes;
    var m := MediaMeter(terms.mode);
    MediaMeterKind(terms.mode);
    MediaMeterOutside(m);
    MediaIndex(terms.price, terms.mode, terms.unitPrice.value, tier);
    var components := PriceComponentsFor(MediaPrice(terms.price, terms.mode, terms.unitPrice.value));
    MediaImplicit(components, m, q, tier);
    SingleUsage(m, q);
    EverythingKept(components, IndexComponents(components).value, map[Plain(m) := q], tier);
  }

  lemma MediaRequote(terms: Terms, quantity: Option<real>)
    requires terms.mode != TokenMode && UnitPriceSet(terms)
    requires quantity.Some? ==> 0.0 < quantity.value && DecimalAccepted(quantity.value, SCALE)
    requires terms.mode == VideoRequest ==> quantity.Some?
    ensures var components := PriceComponentsFor(MediaPrice(terms.price, terms.mode, terms.unitPrice.value));
      Requote(components, 0.0, terms, Single(MediaMeter(terms.mode), quantity)) ==
        Ok((Cost(terms.multiplier, MediaCost(terms, quantity)), Single(MediaMeter(terms.mode), quantity)))
  {
    UnitPositive(terms);
    hide InAFamily, DecimalAccepted, PriceComponentsFor, IndexComponents, ComponentForMeter, HasComponentForTier, Round30, Charge,
         AddImplicitRequestMetric, Cost, MediaPrice, MediaComponent, MediaMeter, Prepared;
    var mode, unit := terms.mode, terms.unitPrice.value;
    var components := PriceComponentsFor(MediaPrice(terms.price, mode, unit));
    MediaIndex(terms.price, mode, unit, terms.tier);
    if quantity.Some? {
      MediaAmount(terms, quantity.value, terms.tier);
      MediaPrepared(terms, quantity.value, terms.tier);
    } else {
      NothingPrepared(components, IndexComponents(components).value, terms.tier);
    }
  }

  lemma UnitPositive(terms: Terms)
    requires UnitPriceSet(terms)
    ensures terms.unitPrice.value > 0.0
  {
    hide Round30;
  }

  // ----- the hold

  /** A media group holds the estimated media quantity at its unit price and stores just that quantity;
      without a usable unit price it refuses; without a quantity it holds nothing. */
  lemma {:induction false} MediaHold(terms: Terms, estimate: Usage)
    requires terms.mode != TokenMode && UsageAccepted(estimate)
    ensures !UnitPriceSet(terms) ==> Quote(terms, estimate) == Err(PriceNotConfigured)
    ensures UnitPriceSet(terms) ==>
      var quantity := MediaQuantity(estimate, terms.mode);
      Quote(terms, estimate) ==
        Ok((Cost(terms.multiplier, MediaCost(terms, quantity)), Single(MediaMeter(terms.mode), quantity)))
  {
    hide DecimalAccepted, UsageAccepted, MediaQuantity, PriceComponentsFor, CustomerUsage, Requote, MediaMeter, Single, MediaCost;
    if UnitPriceSet(terms) {
      UnitPositive(terms);
      MediaTerms(terms);
      MediaCustomer(estimate, terms.mode);
      AlwaysOneRequest(estimate, terms.mode);
      MediaRequote(terms, MediaQuantity(estimate, terms.mode));
    }
  }

  lemma AlwaysOneRequest(u: Usage, mode: Mode)
    requires mode != TokenMode
    ensures mode == VideoRequest ==> MediaQuantity(u, mode) == Some(1.0)
  {
  }

  /** Rebinding requotes the stored media quantity at the unit price. */
  lemma {:induction false} MediaHoldAgain(terms: Terms, quantity: Option<real>)
    requires terms.mode != TokenMode && terms.unitPrice.Some?
    requires quantity.Some? ==> 0.0 < quantity.value && DecimalAccepted(quantity.value, SCALE)
    requires terms.mode == VideoRequest ==> quantity.Some?
    ensures var stored := Single(MediaMeter(terms.mode), quantity);
      QuoteAgain(terms, stored) ==
        if UnitPriceSet(terms) then Ok((Cost(terms.multiplier, MediaCost(terms, quantity)), stored))
        else Err(PriceNotConfigured)
  {
    hide DecimalAccepted, PriceComponentsFor, Requote, MediaMeter, Single, MediaCost;
    if UnitPriceSet(terms) {
      UnitPositive(terms);
      MediaTerms(terms);
      MediaRequote(terms, quantity);
    }
  }

  // ----- the hold covers the settlement

  lemma {:induction false} NothingFound(u: Usage, ms: seq<Meter>)
    requires u == map[]
    ensures FirstReported(u, ms) == None
  {
    if ms != [] { NothingFound(u, ms[1..]); }
  }

  lemma FirstFound(u: Usage, ms: seq<Meter>)
    requires ms != [] && Quantity(u, Plain(ms[0])) > 0.0
    ensures FirstReported(u, ms) == Some(Quantity(u, Plain(ms[0])))
  {
  }

  lemma StoredQuantity(mode: Mode, quantity: Option<real>)
    requires mode != TokenMode && (quantity.Some? ==> 0.0 < quantity.value)
    requires mode == VideoRequest ==> quantity == Some(1.0)
    ensures MediaQuantity(Single(MediaMeter(mode), quantity), mode) == quantity
  {
    hide FirstReported;
    var u := Single(MediaMeter(mode), quantity);
    var seconds := [OutputSeconds, OutputVideoSeconds, OutputSeconds480p, OutputSeconds1080p, OutputSeconds4k];
    if quantity.Some? {
      assert Quantity(u, Plain(MediaMeter(mode))) == quantity.value;
      if mode == ImageCount { FirstFound(u, [OutputImages]); }
      if mode == VideoSeconds { FirstFound(u, seconds); }
    } else {
      NothingFound(u, [OutputImages]);
      NothingFound(u, seconds);
    }
  }

  lemma StoredMedia(mode: Mode, quantity: Option<real>)
    requires mode != TokenMode && (quantity.Some? ==> 0.0 < quantity.value && DecimalAccepted(quantity.value, SCALE))
    requires mode == VideoRequest ==> quantity == Some(1.0)
    ensures UsageAccepted(Single(MediaMeter(mode), quantity))
    ensures MediaQuantity(Single(MediaMeter(mode), quantity), mode) == quantity
  {
    hide DecimalAccepted, UsageAccepted, MediaQuantity, MediaMeter;
    StoredQuantity(mode, quantity);
    if quantity.Some? {
      MediaMeterKind(mode);
      MediaMeterOutside(MediaMeter(mode));
      SingleAccepted(MediaMeter(mode), quantity.value);
    } else {
      EmptyAccepted();
    }
  }

  /** The quantity that a media settlement charges. */
  function SettledQuantity(usage: Usage, estimate: Usage, mode: Mode): Option<real>
    requires mode != TokenMode
  {
    var actual := MediaQuantity(usage, mode);
    if actual.Some? then actual else MediaQuantity(estimate, mode)
  }

  lemma MediaHoldSettles(terms: Terms, estimate: Usage, usage: Usage, reported: Option<Tier>)
    requires terms.mode != TokenMode && UnitPriceSet(terms) && terms.multiplier >= 0.0
    requires UsageAccepted(estimate) && UsageAccepted(usage) && Quote(terms, estimate).Ok?
    ensures var quantity := SettledQuantity(usage, estimate, terms.mode);
      Settlement(terms, Quote(terms, estimate).value.1, usage, reported) ==
        if quantity.None? then Err(UsageUnavailable) else Ok(Round30(Cost(terms.multiplier, MediaCost(terms, quantity))))
  {
    hide DecimalAccepted, UsageAccepted, MediaQuantity, Quote, Settlement, MediaMeter, Single, Round30, Cost;
    MediaHold(terms, estimate);
    UnitPositive(terms);
    MediaCustomer(estimate, terms.mode);
    AlwaysOneRequest(estimate, terms.mode);
    StoredMedia(terms.mode, MediaQuantity(estimate, terms.mode));
    MediaSettlement(terms, Single(MediaMeter(terms.mode), MediaQuantity(estimate, terms.mode)), usage, reported);
  }

  /** The settlement of a hold is the quantity used, or else the one estimated, at the unit price; it is
      within half a unit of the hold as long as no more was used than estimated. */
  lemma {:induction false} MediaHoldCovers(terms: Terms, estimate: Usage, usage: Usage, reported: Option<Tier>)
    requires terms.mode != TokenMode && UnitPriceSet(terms) && terms.multiplier >= 0.0
    requires UsageAccepted(estimate) && UsageAccepted(usage)
    ensures Quote(terms, estimate).Ok?
    ensures var (hold, stored) := Quote(terms, estimate).value;
      var quantity, estimated := SettledQuantity(usage, estimate, terms.mode), MediaQuantity(estimate, terms.mode);
      && Settlement(terms, stored, usage, reported) ==
           (if quantity.None? then Err(UsageUnavailable)
            else Ok(Round30(Cost(terms.multiplier, MediaCost(terms, quantity)))))
      && (quantity.Some? && estimated.Some? && quantity.value <= estimated.value ==>
            Settlement(terms, stored, usage, reported).value <= hold + HALF_UNIT)
  {
    hide DecimalAccepted, UsageAccepted, MediaQuantity, Quote, Settlement, MediaMeter, Single, Round30, Cost, HALF_UNIT,
         SettledQuantity;
    MediaHold(terms, estimate);
    MediaHoldSettles(terms, estimate, usage, reported);
    var quantity, estimated := SettledQuantity(usage, estimate, terms.mode), MediaQuantity(estimate, terms.mode);
    if quantity.Some? && estimated.Some? && quantity.value <= estimated.value {
      DearerQuantity(terms, quantity, estimated);
    }
  }

  lemma DearerQuantity(terms: Terms, x: Option<real>, y: Option<real>)
    requires UnitPriceSet(terms) && terms.multiplier >= 0.0 && x.Some? && y.Some? && x.value <= y.value
    ensures Round30(Cost(terms.multiplier, MediaCost(terms, x))) <= Cost(terms.multiplier, MediaCost(terms, y)) + HALF_UNIT
  {
    UnitPositive(terms);
    hide Round30, Cost, HALF_UNIT, DecimalAccepted;
    CostMonotone(terms.unitPrice.value, x.value, y.value);
    RoundMonotone(Cost(terms.unitPrice.value, x.value), Cost(terms.unitPrice.value, y.value));
    CostMonotone(terms.multiplier, MediaCost(terms, x), MediaCost(terms, y));
    RoundNear(Cost(terms.multiplier, MediaCost(terms, x)));
  }

  // ----- a media mode without a unit price

  lemma SingleNormalized(mode: Mode, q: real)
    requires mode != TokenMode && 0.0 < q && DecimalAccepted(q, SCALE)
    ensures var u := Single(MediaMeter(mode), Some(q));
      UsageAccepted(u) && Normalized(u) == u && HasPositive(u)
  {
    hide DecimalAccepted, UsageAccepted, Normalized, BillableCodes, EffectiveQuantity;
    MediaMeterKind(mode);
    MediaMeterOutside(MediaMeter(mode));
    SingleUsage(MediaMeter(mode), q);
    SinglePositiveIff(MediaMeter(mode), Some(q));
  }

  /** Such a request settles its media quantity like a token request that reports nothing else, at the
      model's own prices, and so it is requoted. */
  lemma {:induction false} MediaWithoutUnitPrice(terms: Terms, stored: Usage, usage: Usage, reported: Option<Tier>)
    requires terms.mode != TokenMode && terms.unitPrice.None? && UsageAccepted(usage) && UsageAccepted(stored)
    ensures var quantity := SettledQuantity(usage, stored, terms.mode);
      Settlement(terms, stored, usage, reported) ==
        if quantity.None? then Err(UsageUnavailable)
        else Settlement(terms.(mode := TokenMode), stored, Single(MediaMeter(terms.mode), quantity), reported)
    ensures QuoteAgain(terms, stored) == QuoteAgain(terms.(mode := TokenMode), stored)
  {
    hide DecimalAccepted, UsageAccepted, MediaQuantity, MediaMeter, Single, Charge, PriceComponentsFor, AddImplicitRequestMetric,
         HasComponentForTier, Round30, Cost, HasPositive, Normalized, CustomerUsageWithEstimate, Prepared;
    var quantity := SettledQuantity(usage, stored, terms.mode);
    MediaFallback(usage, stored, terms.mode);
    MediaCustomer(usage, terms.mode);
    MediaCustomer(stored, terms.mode);
    SinglePositiveIff(MediaMeter(terms.mode), quantity);
    if quantity.Some? {
      SingleNormalized(terms.mode, quantity.value);
      TokenCustomer(Single(MediaMeter(terms.mode), quantity), stored);
    }
  }

  lemma TokenCustomer(usage: Usage, stored: Usage)
    requires UsageAccepted(usage)
    ensures CustomerUsageWithEstimate(usage, stored, TokenMode) == Ok(Normalized(usage))
  {
    hide UsageAccepted, Normalized, HasPositive;
  }
}
