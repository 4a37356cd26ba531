/** Why the hold must be quoted on plain totals: the dearest report is the one without details, and
    an estimate that is itemized itself can be too cheap. */
module ItemizedEstimates {
  import opened Results
  import opened Rounding
  import opened Sums
  import opened Meters
  import opened CodeTexts
  import opened Metering
  import opened MeteringLaws
  import opened Tiers
  import opened Charging
  import opened ChargeLaws
  import opened FlatPrices
  import opened IntakeLaws
  import opened Quotes
  import opened QuoteLaws
  import opened HoldLaws
  import opened PriceLists

  // ----- the dearest report

  lemma ImplicitOnce(components: seq<Component>, u: Usage, tier: Option<Tier>)
    ensures var v := AddImplicitRequestMetric(components, u, tier);
      AddImplicitRequestMetric(components, v, tier) == v
  {
    hide HasComponentForTier;
  }

  /** What is billed for a report without details. */
  lemma PlainBilled(components: seq<Component>, v: Usage, tier: Option<Tier>)
    requires UsageAccepted(v) && PlainEstimate(v)
    ensures var q := AddImplicitRequestMetric(components, Normalized(v), tier);
      && Sound(v) && Normalized(v) == v && Disjoint(v) && Unsplit(q)
      && Quantity(q, Plain(InputTokens)) == Quantity(v, Plain(InputTokens))
      && Quantity(q, Plain(OutputTokens)) == Quantity(v, Plain(OutputTokens))
      && (HasComponentForTier(components, Requests, tier) ==> Quantity(q, Plain(Requests)) >= 1.0)
  {
    hide UsageAccepted, Unsplit, HasComponentForTier, Sound, AddImplicitRequestMetric, Disjoint, Normalized, InAFamily;
    AcceptedIsSound(v);
    UnsplitIsNormal(v);
    UnsplitImplicit(components, v, tier);
    ImplicitEntries(components, v, tier);
  }

  lemma PlainChargeIsDearest(components: seq<Component>, index: Index, v: Usage, usage: Usage, minimum: real, tier: Option<Tier>)
    requires IndexComponents(components) == Ok(index) && Flat(index) && SubMetersNoDearer(index, tier)
    requires HasPrice(index, tier, Plain(InputTokens)) && HasPrice(index, tier, Plain(OutputTokens))
    requires UsageAccepted(v) && PlainEstimate(v) && UsageAccepted(usage) && WithinEstimate(usage, v)
    requires Charge(components, AddImplicitRequestMetric(components, Normalized(v), tier), minimum, tier).Ok?
    requires Charge(components, AddImplicitRequestMetric(components, Normalized(usage), tier), minimum, tier).Ok?
    ensures Charge(components, AddImplicitRequestMetric(components, Normalized(usage), tier), minimum, tier).value
         <= Charge(components, AddImplicitRequestMetric(components, Normalized(v), tier), minimum, tier).value
  {
    hide IndexComponents, Flat, SubMetersNoDearer, HasPrice, PlainEstimate, WithinEstimate, UsageAccepted, Unsplit, Charge,
         ChargeNormalized, AddImplicitRequestMetric, Normalized, Covers, Sound, Disjoint, Quantity, InAFamily,
         HasComponentForTier;
    var n := Normalized(usage);
    var a, q := AddImplicitRequestMetric(components, n, tier), AddImplicitRequestMetric(components, v, tier);
    PlainBilled(components, v, tier);
    UsageBilled(components, usage, v, tier);
    ImplicitOnce(components, v, tier);
    ChargeOfAugmented(components, index, v, minimum, tier);
    ChargeOfAugmented(components, index, n, minimum, tier);
    NoNegativeQuantity(q, Plain(Requests));
    CoversWhenWithin(components, q, a, tier);
    CoveredCharge(index, tier, a, q, minimum);
  }

  /** Of all reports with the same totals the one without details costs most. */
  lemma {:induction false} PlainReportIsDearest(terms: Terms, stored: Usage, v: Usage, usage: Usage, reported: Option<Tier>)
    requires terms.mode == TokenMode && (terms.tier.Some? || reported.None?)
    requires FairPrice(terms.price, terms.tier) && PlainEstimate(v) && WithinEstimate(usage, v)
    requires Settlement(terms, stored, v, reported).Ok? && Settlement(terms, stored, usage, reported).Ok?
    ensures Settlement(terms, stored, usage, reported).value <= Settlement(terms, stored, v, reported).value
  {
    hide Normalized, UsageAccepted, Charge, PriceComponentsFor, PlainEstimate, WithinEstimate, Flat, SubMetersNoDearer, HasPrice,
         AddImplicitRequestMetric, Cost, Round30, IndexComponents, Settlement;
    var components, minimum, tier := PriceComponentsFor(terms.price), terms.price.minimum, terms.tier;
    TokenSettlement(terms, stored, v, reported);
    TokenSettlement(terms, stored, usage, reported);
    var dear := Charge(components, AddImplicitRequestMetric(components, Normalized(v), tier), minimum, tier).value;
    var cheap := Charge(components, AddImplicitRequestMetric(components, Normalized(usage), tier), minimum, tier).value;
    PlainChargeIsDearest(components, IndexComponents(components).value, v, usage, minimum, tier);
    CostMonotone(terms.multiplier, cheap, dear);
    RoundMonotone(Cost(terms.multiplier, cheap), Cost(terms.multiplier, dear));
  }

  ghost predicate WorthAtMost(amount: Result<real>, limit: real) { amount.Ok? ==> amount.value <= limit }

  /** So any amount set aside, however it was estimated, covers every report within given totals
      exactly if it covers the report of these totals without details. */
  lemma {:induction false} HoldCoversIff(terms: Terms, stored: Usage, v: Usage, reported: Option<Tier>, hold: real)
    requires terms.mode == TokenMode && (terms.tier.Some? || reported.None?)
    requires FairPrice(terms.price, terms.tier) && PlainEstimate(v) && WithinEstimate(v, v)
    requires Settlement(terms, stored, v, reported).Ok?
    ensures (forall usage :: WithinEstimate(usage, v) ==> WorthAtMost(Settlement(terms, stored, usage, reported), hold)) <==>
      Settlement(terms, stored, v, reported).value <= hold
  {
    hide Settlement, FairPrice, PlainEstimate, WithinEstimate;
    if Settlement(terms, stored, v, reported).value <= hold {
      forall usage | WithinEstimate(usage, v)
        ensures WorthAtMost(Settlement(terms, stored, usage, reported), hold)
      {
        if Settlement(terms, stored, usage, reported).Ok? { PlainReportIsDearest(terms, stored, v, usage, reported); }
      }
    } else {
      assert !WorthAtMost(Settlement(terms, stored, v, reported), hold);
    }
  }

  // ----- an itemized estimate that is too cheap

  function Itemized(): Usage { map[Plain(InputTokens) := 1.0, Plain(CachedInputTokens) := 1.0] }

  function OneToken(): Usage { map[Plain(InputTokens) := 1.0] }

  lemma OneIsAccepted()
    ensures DecimalAccepted(1.0, SCALE)
  {
    WholeAccepted(1);
  }

  lemma WhereTheyAre(m: Meter)
    ensures InputTokens !in SubMeters(m) && (m != InputTokens ==> CachedInputTokens !in SubMeters(m))
  {
  }

  lemma ItemizedTotals(m: Meter)
    ensures TotalOf(Itemized(), SubMeters(m)) == if m == InputTokens then 1.0 else 0.0
    ensures TotalOf(OneToken(), SubMeters(m)) == 0.0
  {
    WhereTheyAre(m);
    if m == InputTokens { CachedComesFirst(); }
    hide SubMeters, TotalOf;
    NoneHeld(OneToken(), SubMeters(m));
    if m == InputTokens {
      ItemizedInputTotal(SubMeters(m));
    } else {
      NoneHeld(Itemized(), SubMeters(m));
    }
  }

  lemma CachedComesFirst()
    ensures SubMeters(InputTokens) != [] && SubMeters(InputTokens)[0] == CachedInputTokens
    ensures Distinct(SubMeters(InputTokens))
  {
  }

  lemma ItemizedInputTotal(ms: seq<Meter>)
    requires ms != [] && ms[0] == CachedInputTokens && Distinct(ms) && InputTokens !in ms
    ensures TotalOf(Itemized(), ms) == 1.0
  {
    forall m | m in ms[1..]
      ensures Quantity(Itemized(), Plain(m)) == 0.0
    {
      assert m in ms && m != CachedInputTokens;
    }
    NoneHeld(Itemized(), ms[1..]);
  }

  lemma ExamplesAccepted()
    ensures UsageAccepted(Itemized()) && UsageAccepted(OneToken())
  {
    OneIsAccepted();
    NamedCodes(InputTokens);
    NamedCodes(CachedInputTokens);
    hide ValidCode, DecimalAccepted;
  }

  lemma ExamplesAreTidy()
    ensures UsageAccepted(Itemized()) && Tidy(Itemized()) && Normalized(Itemized()) == Itemized()
    ensures UsageAccepted(OneToken()) && Tidy(OneToken()) && Normalized(OneToken()) == OneToken()
  {
    ExamplesAccepted();
    hide UsageAccepted, SubMeters, OnGrid, TotalOf, Normalized;
    AcceptedIsSound(Itemized());
    AcceptedIsSound(OneToken());
    forall m
      ensures TotalOf(Itemized(), SubMeters(m)) <= Quantity(Itemized(), Plain(m))
      ensures TotalOf(OneToken(), SubMeters(m)) <= Quantity(OneToken(), Plain(m))
    {
      ItemizedTotals(m);
    }
    NormalizedFixpointIff(Itemized());
    NormalizedFixpointIff(OneToken());
  }

  lemma ExampleBillables()
    ensures BillableCodes(Itemized()) == {Plain(CachedInputTokens)}
    ensures EffectiveQuantity(Plain(CachedInputTokens), Itemized()) == 1.0
    ensures BillableCodes(OneToken()) == {Plain(InputTokens)} && EffectiveQuantity(Plain(InputTokens), OneToken()) == 1.0
  {
    ExamplesAreTidy();
    hide Normalized, UsageAccepted, OnGrid, SubMeters, TotalOf, Disjoint, BillableCodes, EffectiveQuantity;
    BillablePlain(Itemized());
    BillablePlain(OneToken());
    forall c
      ensures c in BillableCodes(Itemized()) || c in BillableCodes(OneToken()) ==> c.suffixes == []
    {
      PlainKeysBill(Itemized(), c);
      PlainKeysBill(OneToken(), c);
    }
    forall c: Code | c.suffixes == []
      ensures EffectiveQuantity(c, Itemized()) == if c == Plain(CachedInputTokens) then 1.0 else 0.0
      ensures EffectiveQuantity(c, OneToken()) == if c == Plain(InputTokens) then 1.0 else 0.0
    {
      EffectiveExact(Itemized(), c);
      EffectiveExact(OneToken(), c);
      ItemizedTotals(c.stem);
    }
  }

  /** One unit of a single meter costs its rate. */
  lemma SingleLineCharge(index: Index, u: Usage, tier: Option<Tier>, c: Code)
    requires Tidy(u) && Flat(index) && BillableCodes(u) == {c} && c.suffixes == [] && EffectiveQuantity(c, u) == 1.0
    requires HasPrice(index, tier, c) && OnGrid(Rate(index, tier, c))
    ensures ChargeNormalized(index, u, 0.0, tier) == Ok(Rate(index, tier, c))
  {
    hide LineAmounts, BillableCodes, EffectiveQuantity, LineFor, Round30, OnGrid, ComponentForMeter, Disjoint, Rate;
    FlatCharge(index, u, 0.0, tier);
    FlatLine(index, tier, u, c);
    var amounts := LineAmounts(index, tier, u);
    assert !Unpriced(index, u, tier);
    AmountCodes(index, tier, u);
    OnlyKey(amounts, c);
    PaidLaw(index, tier, u, c);
    PrintsExactlyIff(Rate(index, tier, c));
  }

  lemma NothingImplicit(components: seq<Component>, u: Usage, tier: Option<Tier>)
    requires !HasComponentForTier(components, Requests, tier)
    ensures AddImplicitRequestMetric(components, u, tier) == u
  {
  }

  lemma EverythingKept(components: seq<Component>, index: Index, u: Usage, tier: Option<Tier>)
    requires IndexComponents(components) == Ok(index) && UsageAccepted(u) && Normalized(u) == u
    requires forall c :: c in u ==> c.suffixes == [] && HasPrice(index, tier, c)
    ensures Prepared(components, u, tier) == Ok(u)
  {
    hide IndexComponents, UsageAccepted, Normalized, Kept, ComponentForMeter;
    forall c | c in u
      ensures Kept(index, u, tier, c)
    {
      KeptIff(index, u, tier, c);
    }
    assert Filtered(index, u, tier) == u;
  }

  /** Flat prices on the grid under which cached tokens are cheaper; no minimum, no surcharge. */
  ghost predicate CachedIsCheaper(terms: Terms) {
    var components, tier := PriceComponentsFor(terms.price), terms.tier;
    && terms.mode == TokenMode && terms.multiplier == 1.0 && terms.unitPrice.None? && terms.price.minimum == 0.0
    && FairPrice(terms.price, tier) && !HasComponentForTier(components, Requests, tier)
    && var index := IndexComponents(components).value;
       && HasPrice(index, tier, Plain(CachedInputTokens))
       && OnGrid(Rate(index, tier, Plain(CachedInputTokens))) && OnGrid(Rate(index, tier, Plain(InputTokens)))
       && Rate(index, tier, Plain(CachedInputTokens)) < Rate(index, tier, Plain(InputTokens))
  }

  lemma ItemizedQuote(terms: Terms)
    requires CachedIsCheaper(terms)
    ensures Quote(terms, Itemized()).Ok?
    ensures Quote(terms, Itemized()).value.0 ==
      Rate(IndexComponents(PriceComponentsFor(terms.price)).value, terms.tier, Plain(CachedInputTokens))
  {
    hide PriceComponentsFor, IndexComponents, HasComponentForTier, ComponentForMeter, OnGrid, Flat, SubMetersNoDearer, Normalized,
         Prepared, Itemized, ChargeNormalized, AddImplicitRequestMetric, UsageAccepted, BillableCodes, EffectiveQuantity, Disjoint,
         Rate;
    var components, tier := PriceComponentsFor(terms.price), terms.tier;
    var index := IndexComponents(components).value;
    ExamplesAreTidy();
    ExampleBillables();
    ItemizedKeys();
    NothingImplicit(components, Itemized(), tier);
    EverythingKept(components, index, Itemized(), tier);
    SingleLineCharge(index, Itemized(), tier, Plain(CachedInputTokens));
  }

  lemma ItemizedKeys()
    ensures forall c :: c in Itemized() <==> c == Plain(InputTokens) || c == Plain(CachedInputTokens)
    ensures forall c :: c in OneToken() <==> c == Plain(InputTokens)
    ensures HasPositive(OneToken())
  {
    assert Plain(InputTokens) in OneToken() && OneToken()[Plain(InputTokens)] > 0.0;
  }

  lemma OneTokenSettlement(terms: Terms, stored: Usage)
    requires CachedIsCheaper(terms)
    ensures Settlement(terms, stored, OneToken(), None) ==
      Ok(Rate(IndexComponents(PriceComponentsFor(terms.price)).value, terms.tier, Plain(InputTokens)))
  {
    hide PriceComponentsFor, IndexComponents, HasComponentForTier, ComponentForMeter, OnGrid, Flat, SubMetersNoDearer, Normalized,
         OneToken, ChargeNormalized, AddImplicitRequestMetric, UsageAccepted, BillableCodes, EffectiveQuantity, Disjoint,
         Rate, Round30, HasPositive, AllowsZeroUsage;
    var components, tier := PriceComponentsFor(terms.price), terms.tier;
    var index := IndexComponents(components).value;
    ExamplesAreTidy();
    ExampleBillables();
    ItemizedKeys();
    NothingImplicit(components, OneToken(), tier);
    SingleLineCharge(index, OneToken(), tier, Plain(InputTokens));
    PrintsExactlyIff(Rate(index, tier, Plain(InputTokens)));
  }

  /** Estimating one input token as cached and then using it uncached settles above the hold by the
      whole price difference, although the total is the estimated one. */
  lemma {:induction false} ItemizedHoldFallsShort(terms: Terms, stored: Usage)
    requires CachedIsCheaper(terms)
    ensures Implied(OneToken(), InputTokens) == Quantity(Itemized(), Plain(InputTokens))
    ensures Quote(terms, Itemized()).Ok? && Settlement(terms, stored, OneToken(), None).Ok?
    ensures Settlement(terms, stored, OneToken(), None).value > Quote(terms, Itemized()).value.0 + HALF_UNIT
  {
    assert Implied(OneToken(), InputTokens) == Quantity(Itemized(), Plain(InputTokens));
    hide Quote, Settlement, Rate, OnGrid, IndexComponents, PriceComponentsFor, Itemized, OneToken, Implied;
    ItemizedQuote(terms);
    OneTokenSettlement(terms, stored);
    var index := IndexComponents(PriceComponentsFor(terms.price)).value;
    GridGap(Rate(index, terms.tier, Plain(CachedInputTokens)), Rate(index, terms.tier, Plain(InputTokens)));
  }

  lemma GridGap(x: real, y: real)
    requires OnGrid(x) && OnGrid(y) && x < y
    ensures y > x + HALF_UNIT
  {
    var m, n :| x == Units(m) && y == Units(n);
    UnitsSum(n, m);
  }

  // ----- a concrete price

  /** Two for input, three for output, one for cached input; no minimum, multiplier one. */
  function ExampleTerms(): Terms {
    Terms(Price(Some(2.0), Some(3.0), Some(1.0), None, None, 0.0, []), TokenMode, None, None, 1.0)
  }

  function ExamplePrice(m: Meter): real
    requires FamilyRoot(m).Some?
  {
    if m == CachedInputTokens then 1.0 else if FamilyRoot(m) == Some(InputTokens) then 2.0 else 3.0
  }

  /** Exactly the three published entries. */
  ghost predicate ExampleEntries(index: Index) {
    && (forall c :: c in index <==> c == Plain(InputTokens) || c == Plain(OutputTokens) || c == Plain(CachedInputTokens))
    && forall c :: c in index && FamilyRoot(c.stem).Some? ==> index[c].tiers == [] && index[c].price == ExamplePrice(c.stem)
  }

  lemma ExampleIndex() returns (index: Index)
    ensures IndexComponents(PriceComponentsFor(ExampleTerms().price)) == Ok(index)
    ensures ExampleEntries(index)
  {
    hide IndexComponents, PriceComponentsFor;
    var price := ExampleTerms().price;
    LegacyFillsGaps(price, Plain(InputTokens));
    index := IndexComponents(PriceComponentsFor(price)).value;
    NothingPublished();
    forall c
      ensures c in index <==> LegacyPrice(price, c).Some?
      ensures c in index ==> index[c].tiers == [] && Some(index[c].price) == LegacyPrice(price, c)
    {
      LegacyFillsGaps(price, c);
    }
    forall c
      ensures LegacyPrice(price, c) ==
        if c == Plain(InputTokens) || c == Plain(OutputTokens) || c == Plain(CachedInputTokens)
        then Some(ExamplePrice(c.stem)) else None
    {
      assert c.suffixes == [] ==> c == Plain(c.stem);
    }
  }

  lemma NothingPublished()
    ensures IndexComponents([]) == Ok(map[])
  {
  }

  lemma {:induction false} ExampleResolves(index: Index, m: Meter)
    requires ExampleEntries(index) && FamilyRoot(m).Some?
    ensures HasPrice(index, None, Plain(m)) && Rate(index, None, Plain(m)) == ExamplePrice(m)
    decreases PriceRank(m)
  {
    hide ComponentForMeter, PriceRank;
    NoOwnPrice(index, Plain(m), None);
    if Plain(m) !in index {
      assert m != InputTokens && m != OutputTokens && m != CachedInputTokens;
      PriceParentInFamily(m);
      ParentNotCached(m);
      ExampleResolves(index, PriceParent(Plain(m)).value);
    }
  }

  lemma ParentNotCached(m: Meter)
    ensures PriceParent(Plain(m)) != Some(CachedInputTokens)
  {
  }

  lemma ExampleHasNoSurcharge()
    ensures !HasComponentForTier(PriceComponentsFor(ExampleTerms().price), Requests, None)
  {
    hide IndexFrom, PriceComponentsFor;
    var index := ExampleIndex();
    IndexFromLaw(PriceComponentsFor(ExampleTerms().price), map[]);
  }

  /** These terms are fair and make cached input cheaper, so the claims about such terms have
      instances: with them the itemized hold is one and the settlement two. */
  lemma {:induction false} ExampleFallsShort(stored: Usage)
    ensures CachedIsCheaper(ExampleTerms())
    ensures Quote(ExampleTerms(), Itemized()).Ok? && Quote(ExampleTerms(), Itemized()).value.0 == 1.0
    ensures Settlement(ExampleTerms(), stored, OneToken(), None) == Ok(2.0)
  {
    hide IndexComponents, PriceComponentsFor, HasComponentForTier, ComponentForMeter, Quote, Settlement, Itemized, OneToken, SubMeters;
    var index := ExampleIndex();
    ExampleHasNoSurcharge();
    forall m | FamilyRoot(m).Some?
      ensures HasPrice(index, None, Plain(m)) && Rate(index, None, Plain(m)) == ExamplePrice(m)
    {
      ExampleResolves(index, m);
    }
    forall p, m | m in SubMeters(p)
      ensures FamilyRoot(m).Some? && FamilyRoot(p).Some? && ExamplePrice(m) <= ExamplePrice(p)
    {
      SubMeterRoots(p, m);
      LeafHasNone(p);
    }
    WholeOnGrid(1);
    WholeOnGrid(2);
    hide OnGrid;
    ItemizedQuote(ExampleTerms());
    OneTokenSettlement(ExampleTerms(), stored);
  }

  lemma LeafHasNone(p: Meter)
    ensures p == CachedInputTokens ==> SubMeters(p) == []
  {
  }
}
