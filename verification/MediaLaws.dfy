/** Media groups: image, second and video-request prices charge one media meter and nothing else. */
module MediaLaws {
  import opened Results
  import opened Rounding
  import opened Sums
  import opened Meters
  import opened CodeTexts
  import opened Metering
  import opened MeteringLaws
  import opened Tiers
  import opened Charging
  import opened ChargeLaws
  import opened FlatPrices
  import opened IntakeLaws
  import opened PriceLists
  import opened Quotes
  import opened HoldLaws
  import opened ItemizedEstimates

  function MediaMeter(mode: Mode): Meter
    requires mode != TokenMode
  {
    match mode case ImageCount => OutputImages case VideoSeconds => OutputSeconds case VideoRequest => Requests
  }

  /** The first positive quantity among the given meters, as reported. */
  function FirstReported(u: Usage, ms: seq<Meter>): Option<real> {
    if ms == [] then None
    else if Quantity(u, Plain(ms[0])) > 0.0 then Some(Quantity(u, Plain(ms[0])))
    else FirstReported(u, ms[1..])
  }

  /** What a media group pays for: images, seconds of the first duration meter reported, or one. */
  function MediaQuantity(u: Usage, mode: Mode): Option<real>
    requires mode != TokenMode
  {
    match mode
    case ImageCount => FirstReported(u, [OutputImages])
    case VideoSeconds =>
      FirstReported(u, [OutputSeconds, OutputVideoSeconds, OutputSeconds480p, OutputSeconds1080p, OutputSeconds4k])
    case VideoRequest => Some(1.0)
  }

  // ----- the usage a media group is charged for

  lemma MediaMeterOutside(m: Meter)
    requires m in SECONDS_METERS || m == OutputImages || m == Requests
    ensures !InAFamily(Plain(m)) && SubMeters(m) == [] && !m.Other?
  {
  }

  lemma {:induction false} FirstSurvives(u: Usage, ms: seq<Meter>)
    requires UsageAccepted(u) && forall m :: m in ms ==> !InAFamily(Plain(m))
    ensures FirstPositive(Normalized(u), ms) == FirstReported(u, ms)
    ensures FirstReported(u, ms).Some? ==>
      0.0 < FirstReported(u, ms).value && DecimalAccepted(FirstReported(u, ms).value, SCALE)
  {
    hide UsageAccepted, Normalized, InAFamily, Sound, Round30;
    AcceptedIsSound(u);
    if ms != [] {
      OutsideKept(u, Plain(ms[0]));
      QuantityAccepted30(u, Plain(ms[0]));
      FirstSurvives(u, ms[1..]);
    }
  }

  lemma QuantityAccepted30(u: Usage, c: Code)
    requires UsageAccepted(u)
    ensures Quantity(u, c) > 0.0 ==> DecimalAccepted(Quantity(u, c), SCALE)
  {
    hide Round30;
  }

  /** Everything but the media meter is dropped. */
  lemma {:induction false} MediaCustomer(u: Usage, mode: Mode)
    requires UsageAccepted(u) && mode != TokenMode
    ensures CustomerUsage(u, mode) == Ok(Single(MediaMeter(mode), MediaQuantity(u, mode)))
    ensures MediaQuantity(u, mode).Some? ==>
      0.0 < MediaQuantity(u, mode).value && DecimalAccepted(MediaQuantity(u, mode).value, SCALE)
  {
    assert SECONDS_METERS == [OutputSeconds, OutputVideoSeconds, OutputSeconds480p, OutputSeconds1080p, OutputSeconds4k];
    hide UsageAccepted, Normalized, InAFamily, FirstPositive, FirstReported, SECONDS_METERS, DecimalAccepted;
    forall m | m in SECONDS_METERS || m == OutputImages
      ensures !InAFamily(Plain(m))
    {
      MediaMeterOutside(m);
    }
    OneIsAccepted();
    FirstSurvives(u, [OutputImages]);
    FirstSurvives(u, SECONDS_METERS);
  }

  lemma SinglePositiveIff(m: Meter, q: Option<real>)
    requires q.Some? ==> q.value > 0.0
    ensures HasPositive(Single(m, q)) <==> q.Some?
  {
    if q.Some? {
      assert Plain(m) in Single(m, q) && Single(m, q)[Plain(m)] > 0.0;
    } else {
      assert Single(m, q) == map[];
    }
  }

  lemma MediaFallback(usage: Usage, stored: Usage, mode: Mode)
    requires UsageAccepted(usage) && UsageAccepted(stored) && mode != TokenMode
    ensures var actual, estimate := MediaQuantity(usage, mode), MediaQuantity(stored, mode);
      CustomerUsageWithEstimate(usage, stored, mode) ==
        Ok(Single(MediaMeter(mode), if actual.Some? then actual else estimate))
  {
    hide CustomerUsage, HasPositive, UsageAccepted, MediaQuantity, Single;
    MediaCustomer(usage, mode);
    MediaCustomer(stored, mode);
    SinglePositiveIff(MediaMeter(mode), MediaQuantity(usage, mode));
    SinglePositiveIff(MediaMeter(mode), MediaQuantity(stored, mode));
    if MediaQuantity(usage, mode).None? && MediaQuantity(stored, mode).None? {
      hide DecimalAccepted;
    }
  }

  // ----- the price list of a media group

  function MediaPrice(price: Price, mode: Mode, unit: real): Price
    requires mode != TokenMode
  {
    Price(Some(0.0), Some(0.0), Some(0.0), price.cacheCreation, Some(0.0), 0.0, [MediaComponent(mode, unit)])
  }

  predicate TokenEntry(c: Component) {
    c.code in {Plain(InputTokens), Plain(OutputTokens), Plain(CacheCreationTokens)} && c.unit == "token"
  }

  lemma TokenEntries(price: Price, mode: Mode, unit: real)
    requires mode != TokenMode
    ensures var cs := LegacyPriceComponents(MediaPrice(price, mode, unit));
      && (forall c :: c in cs ==> TokenEntry(c))
      && forall i, j :: 0 <= i < j < |cs| ==> cs[i].code != cs[j].code
  {
    var input, output := Component(Plain(InputTokens), "token", 0.0, [], None), Component(Plain(OutputTokens), "token", 0.0, [], None);
    var rest := Legacy(CacheCreationTokens, price.cacheCreation, true);
    assert LegacyPriceComponents(MediaPrice(price, mode, unit)) == [input, output] + rest;
    assert |rest| <= 1 && forall c :: c in rest ==> c.code == Plain(CacheCreationTokens) && c.unit == "token";
    hide LegacyPriceComponents, Legacy, MediaPrice;
  }

  lemma MediaComponents(price: Price, mode: Mode, unit: real)
    requires mode != TokenMode
    ensures var cs := PriceComponentsFor(MediaPrice(price, mode, unit));
      && MediaComponent(mode, unit) in cs
      && (forall c :: c in cs ==> c == MediaComponent(mode, unit) || TokenEntry(c))
      && forall i, j :: 0 <= i < j < |cs| ==> cs[i].code != cs[j].code
  {
    var media := MediaComponent(mode, unit);
    assert MediaPrice(price, mode, unit).components == [media];
    MediaCodes(mode, unit);
    hide LegacyPriceComponents, MediaComponent, MediaPrice;
    TokenEntries(price, mode, unit);
    assert CodesOf([media]) == {media.code};
    NothingRemoved(LegacyPriceComponents(MediaPrice(price, mode, unit)), {media.code});
  }

  lemma MediaCodes(mode: Mode, unit: real)
    requires mode != TokenMode
    ensures var c := MediaComponent(mode, unit);
      && c.code == Plain(MediaMeter(mode)) && c.price == unit && c.tiers == [] && c.context == None
      && c.unit == (match mode case ImageCount => "image" case VideoSeconds => "second" case VideoRequest => "request")
      && c.unit != "" && c.code in {Plain(OutputImages), Plain(OutputSeconds), Plain(Requests)}
  {
  }

  lemma {:induction false} NothingRemoved(cs: seq<Component>, codes: set<Code>)
    requires forall c :: c in cs ==> c.code !in codes
    ensures Without(cs, codes) == cs
  {
    if cs != [] { NothingRemoved(cs[1..], codes); }
  }

  lemma MediaIndex(price: Price, mode: Mode, unit: real, tier: Option<Tier>)
    requires mode != TokenMode
    ensures var cs := PriceComponentsFor(MediaPrice(price, mode, unit));
      && IndexComponents(cs).Ok?
      && ComponentForMeter(IndexComponents(cs).value, Plain(MediaMeter(mode)), tier) == Some(MediaComponent(mode, unit))
      && (HasComponentForTier(cs, Requests, tier) ==> mode == VideoRequest)
  {
    var cs := PriceComponentsFor(MediaPrice(price, mode, unit));
    MediaComponents(price, mode, unit);
    MediaCodes(mode, unit);
    hide PriceComponentsFor, IndexComponents, HasComponentForTier, ComponentForMeter, MediaComponent, MediaMeter, MediaPrice,
         ValidCode;
    MediaIndexed(cs, MediaComponent(mode, unit), MediaMeter(mode));
    ResolvesItself(IndexComponents(cs).value, Plain(MediaMeter(mode)), tier);
    NoRequestEntry(cs, tier, MediaComponent(mode, unit), mode);
  }

  /** A list of token entries and one media entry, all under plain codes. */
  lemma MediaIndexed(cs: seq<Component>, media: Component, m: Meter)
    requires media in cs && media.code == Plain(m) && !m.Other? && media.unit != ""
    requires forall c :: c in cs ==> c == media || TokenEntry(c)
    requires forall i, j :: 0 <= i < j < |cs| ==> cs[i].code != cs[j].code
    ensures IndexComponents(cs).Ok?
    ensures var index := IndexComponents(cs).value;
      Plain(m) in index && index[Plain(m)] == media && forall k :: k in index ==> k.suffixes == []
  {
    hide IndexComponents, ValidCode;
    NamedCodes(InputTokens);
    NamedCodes(OutputTokens);
    NamedCodes(CacheCreationTokens);
    NamedCodes(m);
    DistinctIndexed(cs);
  }

  lemma NoRequestEntry(cs: seq<Component>, tier: Option<Tier>, media: Component, mode: Mode)
    requires mode != TokenMode && media.code == Plain(MediaMeter(mode)) && forall c :: c in cs ==> c == media || TokenEntry(c)
    ensures HasComponentForTier(cs, Requests, tier) ==> mode == VideoRequest
  {
  }

  /** Without tier prices a priced code resolves to its own entry. */
  lemma ResolvesItself(index: Index, c: Code, tier: Option<Tier>)
    requires c in index && forall k :: k in index ==> k.suffixes == []
    ensures ComponentForMeter(index, c, tier) == Some(index[c])
  {
    assert tier.Some? ==> TierCode(c, tier.value).suffixes != [];
  }

  // ----- the charge

  lemma SingleAccepted(m: Meter, q: real)
    requires !m.Other? && DecimalAccepted(q, SCALE)
    ensures UsageAccepted(map[Plain(m) := q])
  {
    hide DecimalAccepted, ValidCode;
    NamedCodes(m);
  }

  lemma SingleUnsplit(m: Meter, q: real)
    requires !InAFamily(Plain(m))
    ensures Unsplit(map[Plain(m) := q])
  {
    hide InAFamily;
  }

  lemma SingleBillable(m: Meter, q: real)
    requires EffectiveQuantity(Plain(m), map[Plain(m) := q]) > 0.0
    ensures BillableCodes(map[Plain(m) := q]) == {Plain(m)}
  {
    var u := map[Plain(m) := q];
    PlainBase(Plain(m));
    hide ComponentBaseCode, EffectiveQuantity;
    assert forall c :: c in u <==> c == Plain(m);
    assert Plain(m) in BillableCodes(u);
  }

  lemma SingleUsage(m: Meter, q: real)
    requires !InAFamily(Plain(m)) && !m.Other? && 0.0 < q && DecimalAccepted(q, SCALE)
    ensures var u := map[Plain(m) := q];
      && UsageAccepted(u) && Normalized(u) == u
      && BillableCodes(u) == {Plain(m)} && EffectiveQuantity(Plain(m), u) == q
  {
    var u := map[Plain(m) := q];
    hide UsageAccepted, DecimalAccepted, InAFamily, Unsplit, Normalized, Disjoint, EffectiveQuantity, BillableCodes, Sound;
    SingleAccepted(m, q);
    AcceptedIsSound(u);
    SingleUnsplit(m, q);
    UnsplitIsNormal(u);
    OtherEffective(u, Plain(m));
    SingleBillable(m, q);
  }

  /** With one billable code the charge is that code's line. */
  lemma SingleLine(index: Index, u: Usage, tier: Option<Tier>, c: Code, component: Component)
    requires BillableCodes(u) == {c} && c.suffixes == [] && ComponentForMeter(index, c, tier) == Some(component)
    requires component.tiers == [] && component.price >= 0.0 && EffectiveQuantity(c, u) > 0.0
    ensures ChargeNormalized(index, u, 0.0, tier) == Ok(Round30(Cost(component.price, EffectiveQuantity(c, u))))
  {
    hide ComponentForMeter, BillableCodes, EffectiveQuantity, LineFor, LineAmounts, Round30, Cost, MapSum;
    var q := EffectiveQuantity(c, u);
    SingleAmount(index, u, tier, c, component);
    CostMonotone(component.price, 0.0, q);
    CostSum(component.price, 0.0, 0.0);
  }

  lemma SingleAmount(index: Index, u: Usage, tier: Option<Tier>, c: Code, component: Component)
    requires BillableCodes(u) == {c} && c.suffixes == [] && ComponentForMeter(index, c, tier) == Some(component)
    requires component.tiers == [] && component.price >= 0.0
    ensures LineFor(index, tier, u, c).Ok?
    ensures MapSum(LineAmounts(index, tier, u)) == Cost(component.price, EffectiveQuantity(c, u))
  {
    PlainCharged(c, u);
    hide ComponentForMeter, BillableCodes, EffectiveQuantity, ChargedQuantity, Cost;
    var amount := Cost(component.price, EffectiveQuantity(c, u));
    assert LineFor(index, tier, u, c) == Ok(Priced(amount, component.price));
    hide LineFor;
    assert LineAmounts(index, tier, u) == map[c := amount];
    OnlyKey(LineAmounts(index, tier, u), c);
  }

  lemma SingleCharge(components: seq<Component>, m: Meter, q: real, tier: Option<Tier>, component: Component)
    requires !InAFamily(Plain(m)) && !m.Other? && 0.0 < q && DecimalAccepted(q, SCALE)
    requires IndexComponents(components).Ok?
    requires ComponentForMeter(IndexComponents(components).value, Plain(m), tier) == Some(component)
    requires component.tiers == [] && component.price >= 0.0
    requires HasComponentForTier(components, Requests, tier) ==> m == Requests
    ensures Charge(components, map[Plain(m) := q], 0.0, tier) == Ok(Round30(Cost(component.price, q)))
  {
    hide InAFamily, DecimalAccepted, IndexComponents, ComponentForMeter, Normalized, UsageAccepted, BillableCodes, EffectiveQuantity,
         HasComponentForTier, Round30, ChargeNormalized, AddImplicitRequestMetric, Cost;
    SingleUsage(m, q);
    MediaImplicit(components, m, q, tier);
    SingleLine(IndexComponents(components).value, map[Plain(m) := q], tier, Plain(m), component);
  }

  /** A settlement in a media mode, once its price and its customer usage are known. */
  lemma MediaSteps(terms: Terms, stored: Usage, usage: Usage, reported: Option<Tier>, price: Price, customer: Usage)
    requires terms.mode != TokenMode && terms.multiplier >= 0.0
    requires SettledPrice(terms) == Ok(price) && price.minimum == 0.0
    requires CustomerUsageWithEstimate(usage, stored, terms.mode) == Ok(customer)
    ensures var components, tier := PriceComponentsFor(price), SettlementTier(terms.tier, reported);
      Settlement(terms, stored, usage, reported) ==
        if !HasPositive(customer) then Err(UsageUnavailable)
        else
          var amount :- Charge(components, AddImplicitRequestMetric(components, customer, tier), 0.0, tier);
          Ok(Round30(Cost(terms.multiplier, amount)))
  {
    hide Charge, PriceComponentsFor, AddImplicitRequestMetric, Round30, Cost, CustomerUsageWithEstimate, HasPositive, SettledPrice,
         HasComponentForTier;
  }

  lemma MediaAmount(terms: Terms, q: real, tier: Option<Tier>)
    requires terms.mode != TokenMode && terms.unitPrice.Some? && 0.0 < q && DecimalAccepted(q, SCALE)
    requires terms.unitPrice.value > 0.0
    ensures var components := PriceComponentsFor(MediaPrice(terms.price, terms.mode, terms.unitPrice.value));
      var customer := Single(MediaMeter(terms.mode), Some(q));
      Charge(components, AddImplicitRequestMetric(components, customer, tier), 0.0, tier)
      == Ok(Round30(Cost(terms.unitPrice.value, q)))
  {
    hide InAFamily, DecimalAccepted, PriceComponentsFor, IndexComponents, ComponentForMeter, HasComponentForTier, Round30, Charge,
         AddImplicitRequestMetric, Cost, MediaPrice, MediaComponent, MediaMeter;
    var mode, unit := terms.mode, terms.unitPrice.value;
    var m := MediaMeter(mode);
    MediaMeterKind(mode);
    MediaMeterOutside(m);
    MediaIndex(terms.price, mode, unit, tier);
    MediaCodes(mode, unit);
    var components := PriceComponentsFor(MediaPrice(terms.price, mode, unit));
    SingleCharge(components, m, q, tier, MediaComponent(mode, unit));
    MediaImplicit(components, m, q, tier);
  }

  lemma MediaMeterKind(mode: Mode)
    requires mode != TokenMode
    ensures var m := MediaMeter(mode); m in SECONDS_METERS || m == OutputImages || m == Requests
    ensures mode == VideoRequest <==> MediaMeter(mode) == Requests
  {
  }

  /** A media group settles on the reported media quantity, or else on the estimated one, at its
      unit price: tokens, their prices and the model's minimum play no part, and without either
      quantity nothing is charged at all. */
  lemma {:induction false} MediaSettlement(terms: Terms, stored: Usage, usage: Usage, reported: Option<Tier>)
    requires terms.mode != TokenMode && terms.unitPrice.Some? && terms.multiplier >= 0.0
    requires DecimalAccepted(terms.unitPrice.value, SCALE) && terms.unitPrice.value > 0.0
    requires UsageAccepted(usage) && UsageAccepted(stored)
    ensures var actual, estimate := MediaQuantity(usage, terms.mode), MediaQuantity(stored, terms.mode);
      var quantity := if actual.Some? then actual else estimate;
      Settlement(terms, stored, usage, reported) ==
        if quantity.None? then Err(UsageUnavailable)
        else Ok(Round30(Cost(terms.multiplier, Round30(Cost(terms.unitPrice.value, quantity.value)))))
  {
    hide DecimalAccepted, UsageAccepted, MediaQuantity, Charge, PriceComponentsFor, AddImplicitRequestMetric, Round30, Cost,
         CustomerUsageWithEstimate, HasPositive, Settlement, SettledPrice, MediaPrice, MediaMeter, Single;
    var mode, unit, tier := terms.mode, terms.unitPrice.value, SettlementTier(terms.tier, reported);
    var actual, estimate := MediaQuantity(usage, mode), MediaQuantity(stored, mode);
    var quantity := if actual.Some? then actual else estimate;
    MediaCustomer(usage, mode);
    MediaCustomer(stored, mode);
    MediaFallback(usage, stored, mode);
    SinglePositiveIff(MediaMeter(mode), quantity);
    MediaTerms(terms);
    MediaSteps(terms, stored, usage, reported, MediaPrice(terms.price, mode, unit), Single(MediaMeter(mode), quantity));
    if quantity.Some? { MediaAmount(terms, quantity.value, tier); }
  }

  lemma MediaTerms(terms: Terms)
    requires terms.mode != TokenMode && terms.unitPrice.Some?
    requires DecimalAccepted(terms.unitPrice.value, SCALE) && terms.unitPrice.value > 0.0
    ensures SettledPrice(terms) == Ok(MediaPrice(terms.price, terms.mode, terms.unitPrice.value))
    ensures MediaPrice(terms.price, terms.mode, terms.unitPrice.value).minimum == 0.0
  {
    hide DecimalAccepted;
  }

  /** The per-request meter is only ever added where it is the media meter, and then it is there. */
  lemma MediaImplicit(components: seq<Component>, m: Meter, q: real, tier: Option<Tier>)
    requires q > 0.0 && (HasComponentForTier(components, Requests, tier) ==> m == Requests)
    ensures AddImplicitRequestMetric(components, map[Plain(m) := q], tier) == map[Plain(m) := q]
  {
    hide HasComponentForTier;
  }
}
