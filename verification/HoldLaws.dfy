/** What a customer pays for token usage: never more than the hold on plain totals. */
module HoldLaws {
  import opened Results
  import opened Rounding
  import opened Sums
  import opened Meters
  import opened CodeTexts
  import opened Metering
  import opened MeteringLaws
  import opened Tiers
  import opened Charging
  import opened ChargeLaws
  import opened FlatPrices
  import opened IntakeLaws
  import opened Quotes
  import opened QuoteLaws

  // ----- accepted usage

  lemma NormalizedIsTidy(u: Usage)
    requires UsageAccepted(u)
    ensures Sound(u) && Tidy(Normalized(u))
  {
    hide UsageAccepted, Normalized, Disjoint;
    AcceptedIsSound(u);
    hide Sound;
    NormalizedIsDisjoint(u);
  }

  lemma ImplicitAccepted(components: seq<Component>, u: Usage, tier: Option<Tier>)
    requires UsageAccepted(u)
    ensures UsageAccepted(AddImplicitRequestMetric(components, u, tier))
  {
    WholeAccepted(1);
    NamedCodes(Requests);
    hide HasComponentForTier, DecimalAccepted, ValidCode;
  }

  // ----- unsplit estimates

  /** Family totals without details: the estimate that request token counts give. */
  ghost predicate Unsplit(u: Usage) {
    forall m :: InAFamily(Plain(m)) && m != InputTokens && m != OutputTokens ==> Quantity(u, Plain(m)) == 0.0
  }

  lemma UnsplitSubs(u: Usage, p: Meter)
    requires Unsplit(u)
    ensures TotalOf(u, SubMeters(p)) == 0.0
  {
    hide InAFamily, SubMeters, Quantity, TotalOf;
    forall m | m in SubMeters(p)
      ensures Quantity(u, Plain(m)) == 0.0
    {
      SubMeterRoots(p, m);
    }
    NoneHeld(u, SubMeters(p));
  }

  lemma UnsplitIsNormal(u: Usage)
    requires Sound(u) && Unsplit(u)
    ensures Disjoint(u) && Normalized(u) == u
  {
    hide Unsplit, OnGrid, SubMeters, TotalOf, Normalized;
    forall m
      ensures TotalOf(u, SubMeters(m)) <= Quantity(u, Plain(m))
    {
      UnsplitSubs(u, m);
    }
    hide Disjoint;
    NormalizedFixpointIff(u);
  }

  lemma UnsplitImplicit(components: seq<Component>, u: Usage, tier: Option<Tier>)
    requires Unsplit(u)
    ensures Unsplit(AddImplicitRequestMetric(components, u, tier))
  {
    hide HasComponentForTier, InAFamily;
    RequestsOutside();
  }

  lemma UnsplitEffective(u: Usage, root: Meter)
    requires Sound(u) && Unsplit(u)
    ensures EffectiveQuantity(Plain(root), u) == Quantity(u, Plain(root))
  {
    UnsplitIsNormal(u);
    UnsplitSubs(u, root);
    hide Unsplit, OnGrid, SubMeters, TotalOf, Disjoint, Sound;
    EffectiveExact(u, Plain(root));
  }

  /** The estimate as it is priced in the end: the priceable entries of the estimate with the
      per-request meter filled in. */
  lemma UnsplitPrepared(components: seq<Component>, index: Index, estimate: Usage, tier: Option<Tier>)
    requires IndexComponents(components) == Ok(index) && Sound(estimate) && Unsplit(estimate)
    requires Prepared(components, AddImplicitRequestMetric(components, estimate, tier), tier).Ok?
    ensures var e := AddImplicitRequestMetric(components, estimate, tier);
      var p := Prepared(components, e, tier).value;
      && p == Filtered(index, e, tier) && Sound(p) && Unsplit(p)
      && forall c :: c in e && c.suffixes == [] && ComponentForMeter(index, c, tier).Some? ==> c in p && p[c] == e[c]
  {
    hide IndexComponents, Unsplit, Sound, UsageAccepted, Prepared, AddImplicitRequestMetric, Normalized, Filtered,
         ComponentForMeter;
    var e := AddImplicitRequestMetric(components, estimate, tier);
    UnsplitImplicit(components, estimate, tier);
    PreparedIs(components, e, tier);
    AcceptedIsSound(e);
    UnsplitIsNormal(e);
    FilteredUnsplit(index, e, tier);
    AcceptedIsSound(Filtered(index, e, tier));
    UnsplitIsNormal(Filtered(index, e, tier));
  }

  lemma FilteredUnsplit(index: Index, e: Usage, tier: Option<Tier>)
    requires Unsplit(e)
    ensures Unsplit(Filtered(index, e, tier))
    ensures forall c :: c in e && c.suffixes == [] && ComponentForMeter(index, c, tier).Some? ==>
      c in Filtered(index, e, tier) && Filtered(index, e, tier)[c] == e[c]
  {
    hide Kept, ComponentForMeter, InAFamily;
    forall c | c in e && c.suffixes == [] && ComponentForMeter(index, c, tier).Some?
      ensures c in Filtered(index, e, tier) && Filtered(index, e, tier)[c] == e[c]
    {
      KeptIff(index, e, tier, c);
    }
  }

  // ----- the hold covers the settlement

  /** Token totals without details; a per-request count, if given, is at least one. */
  ghost predicate PlainEstimate(estimate: Usage) {
    && Unsplit(estimate)
    && (Plain(Requests) in estimate ==> estimate[Plain(Requests)] == 0.0 || estimate[Plain(Requests)] >= 1.0)
  }

  /** Reported totals within the estimate, itemized in any way; nothing else reported. */
  ghost predicate WithinEstimate(usage: Usage, estimate: Usage) {
    && (forall root :: root in [InputTokens, OutputTokens] ==> Implied(usage, root) <= Quantity(estimate, Plain(root)))
    && forall c :: c in usage ==> InAFamily(c) || usage[c] == 0.0
  }

  lemma EffectiveRequests(u: Usage)
    requires Sound(u)
    ensures EffectiveQuantity(Plain(Requests), u) == Quantity(u, Plain(Requests))
  {
    RequestsOutside();
    OtherEffective(u, Plain(Requests));
  }

  lemma ImplicitEntries(components: seq<Component>, u: Usage, tier: Option<Tier>)
    ensures var v := AddImplicitRequestMetric(components, u, tier);
      && (forall c :: c != Plain(Requests) ==> (c in v <==> c in u) && (c in u ==> v[c] == u[c]))
      && (Plain(Requests) in u && u[Plain(Requests)] != 0.0 ==> v == u)
      && (HasComponentForTier(components, Requests, tier) ==> Plain(Requests) in v && v[Plain(Requests)] != 0.0)
      && (HasComponentForTier(components, Requests, tier) && (Plain(Requests) in u ==> u[Plain(Requests)] == 0.0) ==>
            v[Plain(Requests)] == 1.0)
  {
    hide HasComponentForTier;
  }

  /** What is billed for the estimate. */
  lemma EstimateBilled(components: seq<Component>, index: Index, estimate: Usage, tier: Option<Tier>)
    requires IndexComponents(components) == Ok(index) && Sound(estimate) && PlainEstimate(estimate)
    requires HasPrice(index, tier, Plain(InputTokens)) && HasPrice(index, tier, Plain(OutputTokens))
    requires Prepared(components, AddImplicitRequestMetric(components, estimate, tier), tier).Ok?
    ensures var p := Prepared(components, AddImplicitRequestMetric(components, estimate, tier), tier).value;
      var q := AddImplicitRequestMetric(components, p, tier);
      && Sound(p) && Disjoint(p) && Unsplit(q)
      && Quantity(q, Plain(InputTokens)) == Quantity(estimate, Plain(InputTokens))
      && Quantity(q, Plain(OutputTokens)) == Quantity(estimate, Plain(OutputTokens))
      && (HasComponentForTier(components, Requests, tier) ==> Quantity(q, Plain(Requests)) >= 1.0)
  {
    hide IndexComponents, Unsplit, Prepared, HasComponentForTier, ComponentForMeter, Filtered, Sound,
         AddImplicitRequestMetric, Disjoint, Normalized;
    var e := AddImplicitRequestMetric(components, estimate, tier);
    var p := Prepared(components, e, tier).value;
    UnsplitPrepared(components, index, estimate, tier);
    FilteredLaw(index, e, tier);
    UnsplitIsNormal(p);
    UnsplitImplicit(components, p, tier);
    ImplicitEntries(components, estimate, tier);
    ImplicitEntries(components, p, tier);
    if HasComponentForTier(components, Requests, tier) {
      RequestsPriced(components, index, tier);
    }
  }

  /** What is billed for the reported usage. */
  lemma UsageBilled(components: seq<Component>, usage: Usage, estimate: Usage, tier: Option<Tier>)
    requires UsageAccepted(usage) && WithinEstimate(usage, estimate)
    ensures var n := Normalized(usage);
      var a := AddImplicitRequestMetric(components, n, tier);
      && Sound(usage) && Tidy(n) && AddImplicitRequestMetric(components, a, tier) == a
      && Quantity(a, Plain(InputTokens)) <= Quantity(estimate, Plain(InputTokens))
      && Quantity(a, Plain(OutputTokens)) <= Quantity(estimate, Plain(OutputTokens))
      && Quantity(a, Plain(Requests)) <= (if HasComponentForTier(components, Requests, tier) then 1.0 else 0.0)
      && forall c :: c in a && !InAFamily(c) ==> c == Plain(Requests) || Quantity(a, c) == 0.0
  {
    hide HasComponentForTier, UsageAccepted, Normalized, Implied, InAFamily, TopLevel, OnGrid, Disjoint;
    var n := Normalized(usage);
    NormalizedIsTidy(usage);
    RootsAreTop(InputTokens);
    RootsAreTop(OutputTokens);
    FamilyTotals(usage, InputTokens);
    FamilyTotals(usage, OutputTokens);
    assert InputTokens in [InputTokens, OutputTokens] && OutputTokens in [InputTokens, OutputTokens];
    RequestsOutside();
    forall c | !InAFamily(c)
      ensures Quantity(n, c) == 0.0
    {
      OutsideKept(usage, c);
    }
  }

  lemma BillableNeedsQuantity(a: Usage, c: Code)
    requires Tidy(a) && c in BillableCodes(a)
    ensures c in a && EffectiveQuantity(c, a) > 0.0
  {
    hide BillableCodes, EffectiveQuantity, Disjoint, OnGrid;
    BillableIff(a, c);
    PositiveIsPresent(a, c);
  }

  lemma CoversWhenWithin(components: seq<Component>, q: Usage, a: Usage, tier: Option<Tier>)
    requires Tidy(q) && Tidy(a) && Unsplit(q)
    requires Quantity(a, Plain(InputTokens)) <= Quantity(q, Plain(InputTokens))
    requires Quantity(a, Plain(OutputTokens)) <= Quantity(q, Plain(OutputTokens))
    requires Quantity(a, Plain(Requests)) <= Quantity(q, Plain(Requests))
    requires forall c :: c in a && !InAFamily(c) ==> c == Plain(Requests) || Quantity(a, c) == 0.0
    ensures Covers(q, a)
  {
    hide InAFamily, Unsplit, OnGrid, Disjoint, BillableCodes, EffectiveQuantity, Quantity;
    UnsplitEffective(q, InputTokens);
    UnsplitEffective(q, OutputTokens);
    EffectiveRequests(q);
    EffectiveRequests(a);
    forall c | c in BillableCodes(a)
      ensures InAFamily(c) || c == Plain(Requests)
    {
      BillableNeedsQuantity(a, c);
      if !InAFamily(c) { OtherEffective(a, c); }
    }
  }

  /** The charges behind the hold and behind the settlement. */
  lemma ChargeCovered(components: seq<Component>, index: Index, estimate: Usage, usage: Usage, minimum: real,
                      tier: Option<Tier>)
    requires IndexComponents(components) == Ok(index) && Flat(index) && SubMetersNoDearer(index, tier)
    requires HasPrice(index, tier, Plain(InputTokens)) && HasPrice(index, tier, Plain(OutputTokens))
    requires Sound(estimate) && PlainEstimate(estimate) && UsageAccepted(usage) && WithinEstimate(usage, estimate)
    requires Prepared(components, AddImplicitRequestMetric(components, estimate, tier), tier).Ok?
    requires var p := Prepared(components, AddImplicitRequestMetric(components, estimate, tier), tier).value;
      Charge(components, p, minimum, tier).Ok?
    requires Charge(components, AddImplicitRequestMetric(components, Normalized(usage), tier), minimum, tier).Ok?
    ensures var p := Prepared(components, AddImplicitRequestMetric(components, estimate, tier), tier).value;
      Charge(components, AddImplicitRequestMetric(components, Normalized(usage), tier), minimum, tier).value
      <= Charge(components, p, minimum, tier).value
  {
    hide IndexComponents, Flat, SubMetersNoDearer, HasPrice, Prepared, PlainEstimate, WithinEstimate, UsageAccepted, Unsplit,
         Charge, ChargeNormalized, AddImplicitRequestMetric, Normalized, Covers, Sound, Disjoint, Quantity, InAFamily,
         HasComponentForTier;
    var p := Prepared(components, AddImplicitRequestMetric(components, estimate, tier), tier).value;
    var q := AddImplicitRequestMetric(components, p, tier);
    var n := Normalized(usage);
    var a := AddImplicitRequestMetric(components, n, tier);
    EstimateBilled(components, index, estimate, tier);
    UsageBilled(components, usage, estimate, tier);
    ChargeOfTidy(components, index, p, minimum, tier);
    ImplicitKeepsTidy(components, p, tier);
    ChargeOfAugmented(components, index, n, minimum, tier);
    NoNegativeQuantity(q, Plain(Requests));
    CoversWhenWithin(components, q, a, tier);
    CoveredCharge(index, tier, a, q, minimum);
  }

  /** Adding the per-request meter twice is adding it once. */
  lemma ChargeOfAugmented(components: seq<Component>, index: Index, n: Usage, minimum: real, tier: Option<Tier>)
    requires Sound(n) && Disjoint(n) && IndexComponents(components) == Ok(index)
    requires var a := AddImplicitRequestMetric(components, n, tier);
      AddImplicitRequestMetric(components, a, tier) == a && Charge(components, a, minimum, tier).Ok?
    ensures var a := AddImplicitRequestMetric(components, n, tier);
      && Sound(a) && Disjoint(a)
      && Charge(components, a, minimum, tier) == ChargeNormalized(index, a, minimum, tier)
  {
    hide IndexComponents, ChargeNormalized, AddImplicitRequestMetric, Normalized, UsageAccepted, Sound, Disjoint;
    ImplicitKeepsTidy(components, n, tier);
  }

  /** The hold and the settlement of a token request, in terms of charges. */
  lemma TokenQuote(terms: Terms, estimate: Usage)
    requires terms.mode == TokenMode && Quote(terms, estimate).Ok?
    ensures var components := PriceComponentsFor(terms.price);
      var prepared := Prepared(components, AddImplicitRequestMetric(components, Normalized(estimate), terms.tier), terms.tier);
      && UsageAccepted(estimate) && prepared.Ok?
      && Charge(components, prepared.value, terms.price.minimum, terms.tier).Ok?
      && Quote(terms, estimate).value.0 ==
           Cost(terms.multiplier, Charge(components, prepared.value, terms.price.minimum, terms.tier).value)
  {
    hide Normalized, UsageAccepted, Charge, Prepared, PriceComponentsFor, AddImplicitRequestMetric, Cost;
  }

  lemma TokenSettlement(terms: Terms, stored: Usage, usage: Usage, reported: Option<Tier>)
    requires terms.mode == TokenMode && Settlement(terms, stored, usage, reported).Ok?
    requires terms.tier.Some? || reported.None?
    ensures var components := PriceComponentsFor(terms.price);
      var metrics := AddImplicitRequestMetric(components, Normalized(usage), terms.tier);
      && UsageAccepted(usage) && terms.multiplier >= 0.0
      && Charge(components, metrics, terms.price.minimum, terms.tier).Ok?
      && Settlement(terms, stored, usage, reported).value ==
           Round30(Cost(terms.multiplier, Charge(components, metrics, terms.price.minimum, terms.tier).value))
  {
    hide Normalized, UsageAccepted, Charge, PriceComponentsFor, AddImplicitRequestMetric, Cost, Round30, HasPositive,
         AllowsZeroUsage;
  }

  /** Flat prices, both totals priced, no sub-meter dearer than what contains it. */
  ghost predicate FairPrice(price: Price, tier: Option<Tier>) {
    var index := IndexComponents(PriceComponentsFor(price));
    && index.Ok? && Flat(index.value) && SubMetersNoDearer(index.value, tier)
    && HasPrice(index.value, tier, Plain(InputTokens)) && HasPrice(index.value, tier, Plain(OutputTokens))
  }

  /** Settling a token request costs at most its hold plus half a unit of the thirtieth decimal:
      a fair price, the same tier, totals within the estimate, and any itemization at all. */
  lemma {:induction false} HoldCoversSettlement(terms: Terms, estimate: Usage, stored: Usage, usage: Usage, reported: Option<Tier>)
    requires terms.mode == TokenMode && (terms.tier.Some? || reported.None?)
    requires FairPrice(terms.price, terms.tier)
    requires PlainEstimate(estimate) && WithinEstimate(usage, estimate)
    requires Quote(terms, estimate).Ok? && Settlement(terms, stored, usage, reported).Ok?
    ensures Settlement(terms, stored, usage, reported).value <= Quote(terms, estimate).value.0 + HALF_UNIT
  {
    hide Normalized, UsageAccepted, Charge, Prepared, PriceComponentsFor, WithinEstimate, Flat, SubMetersNoDearer, HasPrice,
         AddImplicitRequestMetric, Cost, Round30, HALF_UNIT, Sound, Unsplit, IndexComponents, Quote, Settlement;
    var components, minimum, tier := PriceComponentsFor(terms.price), terms.price.minimum, terms.tier;
    TokenQuote(terms, estimate);
    TokenSettlement(terms, stored, usage, reported);
    AcceptedIsSound(estimate);
    UnsplitIsNormal(estimate);
    hide PlainEstimate;
    var p := Prepared(components, AddImplicitRequestMetric(components, estimate, tier), tier).value;
    var held := Charge(components, p, minimum, tier).value;
    var settled := Charge(components, AddImplicitRequestMetric(components, Normalized(usage), tier), minimum, tier).value;
    ChargeCovered(components, IndexComponents(components).value, estimate, usage, minimum, tier);
    CostMonotone(terms.multiplier, settled, held);
    RoundNear(Cost(terms.multiplier, settled));
  }
}
