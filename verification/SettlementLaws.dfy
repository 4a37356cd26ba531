/** Which tier a settlement is priced at, and when it is refused for want of usage. */
module SettlementLaws {
  import opened Results
  import opened Rounding
  import opened Sums
  import opened Meters
  import opened CodeTexts
  import opened Metering
  import opened MeteringLaws
  import opened Tiers
  import opened Charging
  import opened FlatPrices
  import opened IntakeLaws
  import opened CounterLaws
  import opened PriceLists
  import opened Quotes
  import opened ItemizedEstimates

  // ----- the tier

  /** The tier of the snapshot is authoritative: what the report says makes no difference. */
  lemma {:induction false} SnapshotTierStands(terms: Terms, stored: Usage, usage: Usage, t1: Option<Tier>, t2: Option<Tier>)
    requires terms.tier.Some?
    ensures Settlement(terms, stored, usage, t1) == Settlement(terms, stored, usage, t2)
  {
    hide Charge, PriceComponentsFor, CustomerUsageWithEstimate, AddImplicitRequestMetric, Round30, AllowsZeroUsage, HasPositive;
  }

  /** Without a tier in the snapshot the reported tier is charged like a snapshot of it. */
  lemma {:induction false} ReportedTierCounts(terms: Terms, stored: Usage, usage: Usage, t: Option<Tier>)
    requires terms.tier.None?
    ensures Settlement(terms, stored, usage, t) == Settlement(terms.(tier := t), stored, usage, None)
  {
    hide Charge, PriceComponentsFor, CustomerUsageWithEstimate, AddImplicitRequestMetric, Round30, AllowsZeroUsage, HasPositive;
  }

  /** One token of a flat token price without minimum settles at the rate of the tier. */
  lemma OneTokenAtTier(terms: Terms, stored: Usage, tier: Option<Tier>)
    requires terms.mode == TokenMode && terms.multiplier == 1.0 && terms.unitPrice.None? && terms.price.minimum == 0.0
    requires terms.tier == tier
    requires var components := PriceComponentsFor(terms.price);
      && !HasComponentForTier(components, Requests, tier) && IndexComponents(components).Ok?
      && var index := IndexComponents(components).value;
         Flat(index) && HasPrice(index, tier, Plain(InputTokens)) && OnGrid(Rate(index, tier, Plain(InputTokens)))
    ensures Settlement(terms, stored, OneToken(), None) ==
      Ok(Rate(IndexComponents(PriceComponentsFor(terms.price)).value, tier, Plain(InputTokens)))
  {
    hide PriceComponentsFor, IndexComponents, HasComponentForTier, ComponentForMeter, OnGrid, Flat, Normalized,
         OneToken, ChargeNormalized, AddImplicitRequestMetric, UsageAccepted, BillableCodes, EffectiveQuantity, Disjoint,
         Rate, Round30, HasPositive, AllowsZeroUsage;
    var components := PriceComponentsFor(terms.price);
    var index := IndexComponents(components).value;
    ExamplesAreTidy();
    ExampleBillables();
    ItemizedKeys();
    NothingImplicit(components, OneToken(), tier);
    SingleLineCharge(index, OneToken(), tier, Plain(InputTokens));
    PrintsExactlyIff(Rate(index, tier, Plain(InputTokens)));
  }

  /** Priority input tokens at four each, flex input tokens at one. */
  function TieredList(): seq<Component> {
    [Component(Code(InputTokens, [Priority]), "token", 4.0, [], None), Component(Code(InputTokens, [Flex]), "token", 1.0, [], None)]
  }

  function TieredTerms(tier: Option<Tier>): Terms {
    Terms(Price(None, None, None, None, None, 0.0, TieredList()), TokenMode, None, tier, 1.0)
  }

  lemma TieredIndex(tier: Option<Tier>)
    requires tier == Some(Priority) || tier == Some(Flex)
    ensures PriceComponentsFor(TieredTerms(tier).price) == TieredList() && !HasComponentForTier(TieredList(), Requests, tier)
    ensures IndexComponents(TieredList()).Ok? && Flat(IndexComponents(TieredList()).value)
    ensures var index := IndexComponents(TieredList()).value;
      && HasPrice(index, tier, Plain(InputTokens))
      && Rate(index, tier, Plain(InputTokens)) == if tier == Some(Priority) then 4.0 else 1.0
  {
    var cs := TieredList();
    assert LegacyPriceComponents(TieredTerms(tier).price) == [];
    TieredCodesValid();
    hide ValidCode, LegacyPriceComponents;
    DistinctIndexed(cs);
    var index := IndexComponents(cs).value;
    hide IndexComponents;
    assert cs[0] in cs && cs[1] in cs;
    assert index[cs[0].code] == cs[0] && index[cs[1].code] == cs[1];
    assert [] + [Priority] == [Priority] && [] + [Flex] == [Flex];
  }

  lemma TieredCodesValid()
    ensures ValidCode(Code(InputTokens, [Priority])) && ValidCode(Code(InputTokens, [Flex]))
  {
    assert [Priority][..0] == [] && [Flex][..0] == [];
    assert Text(Code(InputTokens, [Priority])) == Text(Plain(InputTokens)) + "_priority";
    assert Text(Code(InputTokens, [Flex])) == Text(Plain(InputTokens)) + "_flex";
  }

  /** The two tiers do cost differently: one token snapshotted at priority settles at four whatever is
      reported, and without a tier in the snapshot at one when flex is reported. */
  lemma {:induction false} TierExample(stored: Usage, reported: Option<Tier>)
    ensures Settlement(TieredTerms(Some(Priority)), stored, OneToken(), reported) == Ok(4.0)
    ensures Settlement(TieredTerms(None), stored, OneToken(), Some(Flex)) == Ok(1.0)
    ensures Settlement(TieredTerms(None), stored, OneToken(), Some(Priority)) == Ok(4.0)
  {
    hide Settlement, OneToken, PriceComponentsFor, IndexComponents, HasComponentForTier, Flat, HasPrice, Rate, OnGrid;
    WholeOnGrid(4);
    WholeOnGrid(1);
    TieredIndex(Some(Priority));
    TieredIndex(Some(Flex));
    OneTokenAtTier(TieredTerms(Some(Priority)), stored, Some(Priority));
    OneTokenAtTier(TieredTerms(Some(Flex)), stored, Some(Flex));
    SnapshotTierStands(TieredTerms(Some(Priority)), stored, OneToken(), reported, None);
    ReportedTierCounts(TieredTerms(None), stored, OneToken(), Some(Flex));
    ReportedTierCounts(TieredTerms(None), stored, OneToken(), Some(Priority));
  }

  // ----- the multiplier

  /** The multiplier scales the printed charge; a negative one is refused. */
  lemma {:induction false} MultiplierScales(terms: Terms, stored: Usage, usage: Usage, reported: Option<Tier>)
    requires Settlement(terms.(multiplier := 1.0), stored, usage, reported).Ok?
    ensures var once := Settlement(terms.(multiplier := 1.0), stored, usage, reported).value;
      Settlement(terms, stored, usage, reported) ==
        if terms.multiplier < 0.0 then Err(InvalidRequest) else Ok(Round30(Cost(terms.multiplier, once)))
  {
    hide ChargeNormalized, NormalizedUsage, IndexComponents, PriceComponentsFor, CustomerUsageWithEstimate, AddImplicitRequestMetric,
         AllowsZeroUsage, HasPositive, Round30;
    var tier := SettlementTier(terms.tier, reported);
    var price := SettledPrice(terms).value;
    var components := PriceComponentsFor(price);
    var customer := CustomerUsageWithEstimate(usage, stored, terms.mode).value;
    var u := AddImplicitRequestMetric(components, customer, tier);
    ChargePrinted(components, u, price.minimum, tier);
    hide Charge;
    var amount := Charge(components, u, price.minimum, tier).value;
    UnitProduct(amount);
    hide Cost;
    assert SettledPrice(terms.(multiplier := 1.0)) == SettledPrice(terms);
  }

  lemma UnitProduct(x: real)
    ensures Cost(1.0, x) == x
  {
  }

  lemma ChargePrinted(components: seq<Component>, u: Usage, minimum: real, tier: Option<Tier>)
    ensures Charge(components, u, minimum, tier).Ok? ==>
      Round30(Charge(components, u, minimum, tier).value) == Charge(components, u, minimum, tier).value
  {
    hide NormalizedUsage, IndexComponents, AddImplicitRequestMetric, Unpriced, LineFor, BillableCodes, LineAmounts, Round30;
    if Charge(components, u, minimum, tier).Ok? {
      var n := NormalizedUsage(AddImplicitRequestMetric(components, u, tier)).value;
      var total := Max(MapSum(LineAmounts(IndexComponents(components).value, tier, n)), minimum);
      PrintsExactlyIff(total);
      PrintsExactlyIff(Round30(total));
    }
  }

  // ----- no usage

  /** Something is left to bill of a report: a token total, given or implied, or another entry. */
  ghost predicate SomethingReported(u: Usage) {
    || Implied(u, InputTokens) > 0.0 || Implied(u, OutputTokens) > 0.0
    || exists c :: c in u && !InAFamily(c) && u[c] > 0.0
  }

  lemma PositiveEntryIff(u: Usage)
    requires UsageAccepted(u)
    ensures HasPositive(Normalized(u)) <==> SomethingReported(u)
  {
    hide UsageAccepted, Normalized, Implied, Disjoint, FamilyRoot, OnGrid;
    var n := Normalized(u);
    AcceptedIsSound(u);
    NormalizedIsDisjoint(u);
    TokensKept(u);
    if c :| c in n && n[c] > 0.0 {
      if InAFamily(c) {
        assert c == Plain(c.stem);
        RootIsTotal(c.stem);
        WithinRoot(n, c.stem);
      } else {
        OutsideKept(u, c);
      }
    }
    if c :| c in u && !InAFamily(c) && u[c] > 0.0 {
      OutsideKept(u, c);
      assert c in n && n[c] > 0.0;
    }
    if Implied(u, InputTokens) > 0.0 { assert Plain(InputTokens) in n && n[Plain(InputTokens)] > 0.0; }
    if Implied(u, OutputTokens) > 0.0 { assert Plain(OutputTokens) in n && n[Plain(OutputTokens)] > 0.0; }
  }

  lemma WithinRoot(n: Usage, m: Meter)
    requires Sound(n) && Disjoint(n) && FamilyRoot(m).Some?
    ensures Quantity(n, Plain(m)) <= Quantity(n, Plain(FamilyRoot(m).value))
  {
    RootIsTotal(m);
    var root := FamilyRoot(m).value;
    InFamilyIff(root, m);
    hide FamilyRoot, Family, OnGrid, SubMeters, Disjoint;
    if m != root {
      ContainedBy(root, m);
      if m in SubMeters(root) {
        PartOfTotal(n, root, m);
      } else {
        var p :| p in SubMeters(root) && p in Family(root) && m in SubMeters(p);
        PartOfTotal(n, p, m);
        PartOfTotal(n, root, p);
      }
    }
  }

  lemma PartOfTotal(n: Usage, p: Meter, m: Meter)
    requires Disjoint(n) && m in SubMeters(p)
    ensures Quantity(n, Plain(m)) <= Quantity(n, Plain(p))
  {
    hide SubMeters;
    assert TotalOf(n, SubMeters(p)) <= Quantity(n, Plain(p));
    MemberBound(SubMeters(p), Held(n), m);
  }

  /** The price list has a per-request price, for the tier or for all. */
  predicate PerRequestPrice(components: seq<Component>, tier: Option<Tier>) {
    exists c :: c in components && (c.code == Plain(Requests) || (tier.Some? && c.code == Code(Requests, [tier.value])))
  }

  /** A token settlement is refused for want of usage exactly if nothing is left to bill of the report
      and neither a minimum nor a per-request price of the tier charges for the request itself. */
  lemma {:induction false} NoUsageRefusedIff(terms: Terms, stored: Usage, usage: Usage, reported: Option<Tier>)
    requires terms.mode == TokenMode && UsageAccepted(usage)
    ensures Settlement(terms, stored, usage, reported) == Err(UsageUnavailable) <==>
      && !SomethingReported(usage) && terms.price.minimum == 0.0
      && !PerRequestPrice(PriceComponentsFor(terms.price), if terms.tier.Some? then terms.tier else reported)
  {
    hide UsageAccepted, Normalized, SomethingReported, HasPositive, PriceComponentsFor, AddImplicitRequestMetric, Round30;
    PositiveEntryIff(usage);
    var tier := if terms.tier.Some? then terms.tier else reported;
    var components := PriceComponentsFor(terms.price);
    ChargeErrors(components, AddImplicitRequestMetric(components, Normalized(usage), tier), terms.price.minimum, tier);
    hide Charge;
  }

  lemma ChargeErrors(components: seq<Component>, u: Usage, minimum: real, tier: Option<Tier>)
    ensures Charge(components, u, minimum, tier) != Err(UsageUnavailable)
  {
    hide UsageAccepted, Normalized, AddImplicitRequestMetric, Unpriced, LineFor, BillableCodes, LineAmounts, Round30, ValidCode;
    IndexErrors(components, map[]);
  }

  lemma {:induction false} IndexErrors(components: seq<Component>, index: Index)
    ensures IndexFrom(components, index) != Err(UsageUnavailable)
    decreases |components|
  {
    hide ValidCode;
    if components != [] { IndexErrors(components[1..], index[components[0].code := components[0]]); }
  }
}
