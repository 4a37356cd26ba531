/** When a stored price list prices a report: graduated tiers always do, context tiers can run out. */
module StoredPrices {
  import opened Results
  import opened Rounding
  import opened Sums
  import opened Meters
  import opened CodeTexts
  import opened Metering
  import opened Tiers
  import opened TierLaws
  import opened Charging
  import opened ChargeLaws
  import opened FlatPrices
  import opened PriceLists
  import opened IntakeLaws
  import opened Quotes
  import opened HoldLaws
  import opened ItemizedEstimates
  import opened MediaLaws
  import opened ConservationLaws

  /** The context of this component lies beyond its last tier, and that tier is bounded. */
  predicate OutOfRange(component: Component, u: Usage) {
    && component.tiers != [] && component.context.Some?
    && var last := component.tiers[|component.tiers| - 1].upTo;
       last.Some? && last.value < Quantity(u, component.context.value)
  }

  lemma StoredComponentPricesIff(component: Component, q: real, u: Usage)
    requires ComponentAccepted(component) && 0.0 <= q
    ensures AmountFor(component, q, u).Err? <==> OutOfRange(component, u)
  {
    hide Quantity, Cost, ValidCode, ContextFrom, GraduatedFrom, Increasing;
    if component.tiers != [] {
      match component.context
      case None => GraduatedNeverFails(component, q, u);
      case Some(basis) => ContextComponentPricedIff(component, basis, q, u);
    }
  }

  /** A number below the limit with at most thirty digits behind the point. */
  predicate WithinLimit(x: real, limit: real) { 0.0 <= x < limit && Round30(x) == x }

  /** What a publisher may store: a valid code, a unit of 1 to 64 characters, prices of at most 24 and
      bounds of at most 30 digits before the point, bounds that are positive and pairwise increasing,
      and no bound missing but perhaps the last. */
  lemma {:induction false} AcceptedComponentIff(c: Component)
    ensures ComponentAccepted(c) <==>
      && ValidCode(c.code) && 1 <= |c.unit| <= 64 && WithinLimit(c.price, 1000000000000000000000000.0)
      && (forall t :: t in c.tiers ==>
            && WithinLimit(t.price, 1000000000000000000000000.0)
            && (t.upTo.Some? ==> t.upTo.value > 0.0 && WithinLimit(t.upTo.value, 1000000000000000000000000000000.0)))
      && (forall i :: 0 <= i < |c.tiers| - 1 ==> c.tiers[i].upTo.Some?)
      && (forall i, j :: 0 <= i < j < |c.tiers| && c.tiers[j].upTo.Some? ==> c.tiers[i].upTo.value < c.tiers[j].upTo.value)
  {
    forall x
      ensures OnGrid(x) <==> Round30(x) == x
    {
      PrintsExactlyIff(x);
    }
    hide ValidCode, OnGrid, Round30;
    IncreasingIff(c.tiers);
    hide Increasing;
  }

  lemma IncreasingIff(tiers: seq<PriceTier>)
    ensures Increasing(tiers) <==>
      && (forall t :: t in tiers && t.upTo.Some? ==> t.upTo.value > 0.0)
      && (forall i :: 0 <= i < |tiers| - 1 ==> tiers[i].upTo.Some?)
      && (forall i, j :: 0 <= i < j < |tiers| && tiers[j].upTo.Some? ==> tiers[i].upTo.value < tiers[j].upTo.value)
  {
    if Increasing(tiers) {
      forall i | 0 <= i < |tiers|
        ensures tiers[i].upTo.Some? ==> tiers[i].upTo.value > 0.0
      {
        StartNonNegative(tiers, i);
      }
      forall i, j | 0 <= i < j < |tiers| && tiers[j].upTo.Some?
        ensures tiers[i].upTo.value < tiers[j].upTo.value
      {
        BoundsGrow(tiers, i, j);
      }
    }
  }

  lemma StoredListIndexed(components: seq<Component>)
    requires ComponentsAccepted(components)
    ensures IndexComponents(components).Ok?
    ensures var index := IndexComponents(components).value;
      forall k :: k in index ==> ComponentAccepted(index[k])
  {
    hide TiersAccepted, PriceAccepted, ValidCode, IndexComponents;
    forall c | c in components
      ensures ComponentAccepted(c)
    {
      var i :| 0 <= i < |components| && components[i] == c;
    }
    DistinctIndexed(components);
  }

  lemma StoredResolves(components: seq<Component>, c: Code, tier: Option<Tier>)
    requires ComponentsAccepted(components) && IndexComponents(components).Ok?
    requires HasPrice(IndexComponents(components).value, tier, c)
    ensures ComponentAccepted(ComponentForMeter(IndexComponents(components).value, c, tier).value)
  {
    hide ComponentAccepted, IndexComponents, ComponentForMeter, ComponentsAccepted;
    StoredListIndexed(components);
    ResolvedFromIndex(IndexComponents(components).value, c, tier);
  }

  /** Some billed code resolves to a component whose context is out of range. */
  ghost predicate ContextRunsOut(index: Index, u: Usage, tier: Option<Tier>) {
    exists b :: b in BillableCodes(u) && HasPrice(index, tier, b) && OutOfRange(ComponentForMeter(index, b, tier).value, u)
  }

  /** With a stored list and a minimum that is not negative a charge fails for want of a published
      price, or else because a context is out of range, and in no other way. */
  lemma {:induction false} StoredListCharges(components: seq<Component>, u: Usage, minimum: real, tier: Option<Tier>)
    requires ComponentsAccepted(components) && minimum >= 0.0
    ensures IndexComponents(components).Ok?
    ensures var index := IndexComponents(components).value;
      var charge := ChargeNormalized(index, u, minimum, tier);
      && (charge == Err(PriceNotConfigured) <==> Unpriced(index, u, tier))
      && (charge == Err(InvalidPrice) <==> !Unpriced(index, u, tier) && ContextRunsOut(index, u, tier))
      && (charge.Ok? <==> !Unpriced(index, u, tier) && !ContextRunsOut(index, u, tier))
  {
    hide ComponentAccepted, IndexComponents, ComponentForMeter, ComponentsAccepted, BillableCodes, EffectiveQuantity, AmountFor,
         ComponentBaseCode, OutOfRange, LineAmounts, Round30;
    StoredListIndexed(components);
    var index := IndexComponents(components).value;
    forall b | b in BillableCodes(u) && HasPrice(index, tier, b)
      ensures LineFor(index, tier, u, b).Err? <==> OutOfRange(ComponentForMeter(index, b, tier).value, u)
    {
      StoredResolves(components, b, tier);
      EffectiveNonNegative(ComponentBaseCode(b), u);
      StoredComponentPricesIff(ComponentForMeter(index, b, tier).value, ChargedQuantity(b, u), u);
    }
    hide LineFor;
  }

  /** The same from the raw report: a stored list prices an acceptable report exactly if no key that
      still has something to bill lacks a published price and no context is out of range. */
  lemma {:induction false} StoredListPricesIff(components: seq<Component>, usage: Usage, minimum: real, tier: Option<Tier>)
    requires ComponentsAccepted(components) && minimum >= 0.0
    requires UsageAccepted(AddImplicitRequestMetric(components, usage, tier)) && IndexComponents(components).Ok?
    ensures var index, u := IndexComponents(components).value, ChargedUsage(components, usage, tier);
      Charge(components, usage, minimum, tier).Ok? <==>
        && !ContextRunsOut(index, u, tier)
        && !(exists k :: k in u && EffectiveQuantity(ComponentBaseCode(k), u) > 0.0
               && Unpublished(index, PriceChain(ComponentBaseCode(k)), tier))
  {
    hide ComponentsAccepted, UsageAccepted, AddImplicitRequestMetric, Normalized, IndexComponents, EffectiveQuantity, ContextRunsOut,
         ComponentBaseCode, PriceChain, Unpublished, ChargeNormalized, Unpriced;
    StoredListCharges(components, ChargedUsage(components, usage, tier), minimum, tier);
    UnpricedChargeIff(components, usage, minimum, tier);
  }

  // ----- a context that runs out at settlement

  function Tokens(q: real): Usage { map[Plain(InputTokens) := q] }

  /** Input tokens at one each while the prompt holds at most one token. */
  function BoundedContext(): Component {
    Component(Plain(InputTokens), "token", 1.0, [PriceTier(Some(1.0), 1.0)], Some(Plain(InputTokens)))
  }

  function BoundedTerms(): Terms {
    Terms(Price(None, None, None, None, None, 0.0, [BoundedContext()]), TokenMode, None, None, 1.0)
  }

  lemma BoundedAccepted()
    ensures ComponentsAccepted([BoundedContext()])
  {
    NamedCodes(InputTokens);
    WholeOnGrid(1);
    assert 1 as real == 1.0;
    hide ValidCode, OnGrid;
    assert Start(BoundedContext().tiers, 0) == 0.0;
  }

  lemma BoundedIndex() returns (index: Index)
    ensures PriceComponentsFor(BoundedTerms().price) == [BoundedContext()]
    ensures IndexComponents([BoundedContext()]) == Ok(index)
    ensures ComponentForMeter(index, Plain(InputTokens), None) == Some(BoundedContext())
    ensures !HasComponentForTier([BoundedContext()], Requests, None)
  {
    assert LegacyPriceComponents(BoundedTerms().price) == [];
    NamedCodes(InputTokens);
    hide ValidCode, IndexComponents;
    DistinctIndexed([BoundedContext()]);
    index := IndexComponents([BoundedContext()]).value;
    assert BoundedContext() in [BoundedContext()];
  }

  lemma TokensBilled(q: real)
    requires q > 0.0 && DecimalAccepted(q, SCALE)
    ensures UsageAccepted(Tokens(q)) && Normalized(Tokens(q)) == Tokens(q) && HasPositive(Tokens(q))
    ensures BillableCodes(Tokens(q)) == {Plain(InputTokens)} && Quantity(Tokens(q), Plain(InputTokens)) == q
  {
    var u := Tokens(q);
    SingleAccepted(InputTokens, q);
    assert Unsplit(u);
    hide UsageAccepted, DecimalAccepted, Unsplit, Normalized, Disjoint, EffectiveQuantity, BillableCodes, Sound;
    AcceptedIsSound(u);
    UnsplitIsNormal(u);
    UnsplitEffective(u, InputTokens);
    SingleBillable(InputTokens, q);
    assert Plain(InputTokens) in u && u[Plain(InputTokens)] > 0.0;
  }

  lemma TokensCharge(q: real)
    requires q > 0.0 && DecimalAccepted(q, SCALE)
    ensures Charge([BoundedContext()], Tokens(q), 0.0, None).Ok? <==> q <= 1.0
    ensures q > 1.0 ==> Charge([BoundedContext()], Tokens(q), 0.0, None) == Err(InvalidPrice)
  {
    hide DecimalAccepted, UsageAccepted, Normalized, BillableCodes, IndexComponents, ComponentForMeter, ChargeNormalized, Tokens,
         HasComponentForTier, ComponentsAccepted, HasPositive, PriceComponentsFor, Quantity;
    var index := BoundedIndex();
    BoundedAccepted();
    TokensBilled(q);
    NothingImplicit([BoundedContext()], Tokens(q), None);
    StoredListCharges([BoundedContext()], Tokens(q), 0.0, None);
    assert Plain(InputTokens) in BillableCodes(Tokens(q));
    assert !Unpriced(index, Tokens(q), None);
  }

  /** One token is held for; two tokens are used, and the settlement finds no price. */
  lemma {:induction false} ContextRunsOutAtSettlement(stored: Usage)
    ensures ComponentsAccepted(BoundedTerms().price.components)
    ensures Quote(BoundedTerms(), Tokens(1.0)).Ok?
    ensures Settlement(BoundedTerms(), stored, Tokens(2.0), None) == Err(InvalidPrice)
  {
    hide DecimalAccepted, UsageAccepted, Normalized, BillableCodes, IndexComponents, ComponentForMeter, Charge, Tokens,
         HasComponentForTier, ComponentsAccepted, HasPositive, PriceComponentsFor, Prepared, AddImplicitRequestMetric, Quantity;
    WholeAccepted(1);
    WholeAccepted(2);
    assert 1 as real == 1.0 && 2 as real == 2.0;
    var index := BoundedIndex();
    BoundedAccepted();
    TokensBilled(1.0);
    TokensBilled(2.0);
    TokensCharge(1.0);
    TokensCharge(2.0);
    NothingImplicit([BoundedContext()], Tokens(1.0), None);
    NothingImplicit([BoundedContext()], Tokens(2.0), None);
    TokensKeys(1.0);
    EverythingKept([BoundedContext()], index, Tokens(1.0), None);
  }

  lemma TokensKeys(q: real)
    ensures forall c :: c in Tokens(q) ==> c == Plain(InputTokens)
  {
  }
}
