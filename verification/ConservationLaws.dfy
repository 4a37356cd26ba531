/** From the raw report to the charge lines: which reports are billed completely and only once. */
module ConservationLaws {
  import opened Results
  import opened Rounding
  import opened Meters
  import opened Metering
  import opened MeteringLaws
  import opened Tiers
  import opened Charging
  import opened ChargeLaws
  import opened LineLaws
  import opened FlatPrices
  import opened IntakeLaws
  import opened QuoteLaws
  import opened HoldLaws

  lemma ChargeNeeds(components: seq<Component>, usage: Usage, minimum: real, tier: Option<Tier>)
    requires Charge(components, usage, minimum, tier).Ok?
    ensures UsageAccepted(AddImplicitRequestMetric(components, usage, tier)) && IndexComponents(components).Ok?
    ensures !Unpriced(IndexComponents(components).value, ChargedUsage(components, usage, tier), tier)
  {
    hide UsageAccepted, AddImplicitRequestMetric, IndexComponents, Unpriced, Normalized, LineFor, LineAmounts, BillableCodes, Round30;
  }

  lemma ChargedIsTidy(components: seq<Component>, usage: Usage, tier: Option<Tier>)
    requires UsageAccepted(AddImplicitRequestMetric(components, usage, tier))
    ensures Tidy(ChargedUsage(components, usage, tier))
  {
    hide UsageAccepted, AddImplicitRequestMetric, Normalized, Tidy;
    NormalizedIsTidy(AddImplicitRequestMetric(components, usage, tier));
  }

  // ----- totals

  /** The lines of a successful charge carry at least the input total that was reported, or else
      implied by its details, and at least the output total; exactly that much if and only if no
      billable suffixed code strips to one of the family's meters with something to bill. */
  lemma {:induction false} ChargeConservesReport(components: seq<Component>, usage: Usage, minimum: real, tier: Option<Tier>,
                              lines: seq<ChargeLine>, root: Meter)
    requires (root == InputTokens || root == OutputTokens)
    requires Charge(components, usage, minimum, tier).Ok?
    requires var u := ChargedUsage(components, usage, tier);
      IndexComponents(components).Ok? && LinesFor(lines, BillableCodes(u), IndexComponents(components).value, tier, u)
    ensures LineQuantity(lines, Family(root)) >= Implied(usage, root)
    ensures LineQuantity(lines, Family(root)) == Implied(usage, root) <==>
      !FamilyBilledAgain(ChargedUsage(components, usage, tier), root)
  {
    hide UsageAccepted, AddImplicitRequestMetric, Normalized, Tidy, IndexComponents, Charge, LinesFor, Family, Implied,
         LineQuantity, TopLevel, Disjoint, Sound, InAFamily, BillableCodes, Unpriced, FamilyBilledAgain;
    var v := AddImplicitRequestMetric(components, usage, tier);
    var u := ChargedUsage(components, usage, tier);
    ChargeNeeds(components, usage, minimum, tier);
    ChargedIsTidy(components, usage, tier);
    TidyParts(u);
    LinesConserveTotals(lines, IndexComponents(components).value, tier, u, root);
    RootsAreTop(root);
    AcceptedIsSound(v);
    FamilyTotals(v, root);
    ImplicitEntries(components, usage, tier);
    ImpliedSame(usage, v, root);
  }

  lemma TidyParts(u: Usage)
    requires Tidy(u)
    ensures Sound(u) && Disjoint(u)
  {
    hide Sound, Disjoint;
  }

  // ----- prices

  /** A charge fails for want of a price exactly if some usage key, stripped of its suffixes, still
      has something to bill and no published price anywhere on its inheritance chain. */
  lemma {:induction false} UnpricedChargeIff(components: seq<Component>, usage: Usage, minimum: real, tier: Option<Tier>)
    requires UsageAccepted(AddImplicitRequestMetric(components, usage, tier)) && IndexComponents(components).Ok?
    ensures var index, u := IndexComponents(components).value, ChargedUsage(components, usage, tier);
      Charge(components, usage, minimum, tier) == Err(PriceNotConfigured) <==>
        exists k :: k in u && EffectiveQuantity(ComponentBaseCode(k), u) > 0.0
          && Unpublished(index, PriceChain(ComponentBaseCode(k)), tier)
  {
    hide UsageAccepted, AddImplicitRequestMetric, Normalized, IndexComponents, EffectiveQuantity, ComponentForMeter, ComponentBaseCode,
         PriceChain, OwnPrice, BillableCodes, ChargeNormalized;
    var index, u := IndexComponents(components).value, ChargedUsage(components, usage, tier);
    FailsForPriceIff(index, u, minimum, tier);
    if b :| b in BillableCodes(u) && ComponentForMeter(index, b, tier).None? {
      var k := BillableSource(u, b);
      NearestPrice(index, b, tier);
    }
    if k :| k in u && EffectiveQuantity(ComponentBaseCode(k), u) > 0.0 && Unpublished(index, PriceChain(ComponentBaseCode(k)), tier) {
      BillableIff(u, ComponentBaseCode(k));
      NearestPrice(index, ComponentBaseCode(k), tier);
    }
  }

  // ----- entries

  /** Normalization and the per-request meter only ever add plain keys. */
  lemma SuffixedKeysKept(components: seq<Component>, usage: Usage, tier: Option<Tier>, c: Code)
    requires UsageAccepted(AddImplicitRequestMetric(components, usage, tier)) && c.suffixes != []
    ensures var u := ChargedUsage(components, usage, tier);
      (c in u <==> c in usage) && (c in usage ==> u[c] == usage[c] >= 0.0)
  {
    hide UsageAccepted, AddImplicitRequestMetric, Normalized, Sound, FamilyRoot, OnGrid;
    var v := AddImplicitRequestMetric(components, usage, tier);
    AcceptedIsSound(v);
    OutsideKept(v, c);
    ImplicitEntries(components, usage, tier);
    if c in usage { SoundEntry(v, c); SoundNormalized(v, c); }
  }

  lemma SoundEntry(u: Usage, c: Code)
    requires Sound(u) && c in u
    ensures u[c] == Quantity(u, c) >= 0.0
  {
    hide OnGrid;
  }

  lemma SoundNormalized(u: Usage, c: Code)
    requires Sound(u) && c in Normalized(u)
    ensures Normalized(u)[c] == Quantity(Normalized(u), c)
  {
    hide Sound, Normalized, Disjoint;
    NormalizedIsDisjoint(u);
    SoundEntry(Normalized(u), c);
  }

  /** Which reports a successful charge bills completely: nothing with something to bill is missing
      from the lines exactly if the report has no positive entry under a suffixed key, and then
      everything is billed exactly once.  What is missing is neither billed nor refused. */
  lemma {:induction false} EntriesChargedIff(components: seq<Component>, usage: Usage, minimum: real, tier: Option<Tier>,
                                             lines: seq<ChargeLine>)
    requires Charge(components, usage, minimum, tier).Ok? && IndexComponents(components).Ok?
    requires var u := ChargedUsage(components, usage, tier);
      LinesFor(lines, BillableCodes(u), IndexComponents(components).value, tier, u)
    ensures var u := ChargedUsage(components, usage, tier);
      (forall c :: c in u && EffectiveQuantity(c, u) > 0.0 ==> Times(lines, c) >= 1) <==> OnlyPlainPositive(usage)
    ensures OnlyPlainPositive(usage) ==>
      forall c :: EffectiveQuantity(c, ChargedUsage(components, usage, tier)) > 0.0 ==> Times(lines, c) == 1
  {
    hide UsageAccepted, AddImplicitRequestMetric, Normalized, Tidy, IndexComponents, Charge, Sound, Disjoint, EffectiveQuantity,
         BillableCodes, Unpriced, ChargedUsage, LinesFor, Times;
    var u := ChargedUsage(components, usage, tier);
    ChargeNeeds(components, usage, minimum, tier);
    ChargedIsTidy(components, usage, tier);
    TidyParts(u);
    NothingFreeIff(lines, IndexComponents(components).value, tier, u);
    forall c: Code | c.suffixes != []
      ensures (c in u <==> c in usage) && (c in usage ==> u[c] == usage[c])
    {
      SuffixedKeysKept(components, usage, tier, c);
    }
  }

  /** Which reports have every billable code charged for its own entry: those all of whose keys strip
      completely or have no positive entry at what they strip to. */
  lemma {:induction false} OwnEntriesChargedIff(components: seq<Component>, usage: Usage, tier: Option<Tier>)
    requires UsageAccepted(AddImplicitRequestMetric(components, usage, tier))
    ensures (forall b :: b in BillableCodes(ChargedUsage(components, usage, tier)) ==> ComponentBaseCode(b) == b) <==>
      StripsClean(usage)
  {
    hide UsageAccepted, AddImplicitRequestMetric, BillableCodes, ChargedUsage, StripsClean;
    OwnQuantitiesIff(ChargedUsage(components, usage, tier));
    CleanKept(components, usage, tier);
  }

  lemma CleanKept(components: seq<Component>, usage: Usage, tier: Option<Tier>)
    requires UsageAccepted(AddImplicitRequestMetric(components, usage, tier))
    ensures StripsClean(ChargedUsage(components, usage, tier)) <==> StripsClean(usage)
  {
    hide UsageAccepted, AddImplicitRequestMetric, ChargedUsage, InStripOrder, ComponentBaseCode;
    var u := ChargedUsage(components, usage, tier);
    forall c: Code | c.suffixes != []
      ensures (c in u <==> c in usage) && Quantity(u, c) == Quantity(usage, c)
    {
      SuffixedKeysKept(components, usage, tier, c);
    }
    forall k: Code | !InStripOrder(k.suffixes)
      ensures k.suffixes != [] && ComponentBaseCode(k).suffixes != []
    {
      OrderedBase(k);
      if k.suffixes == [] { PlainBase(k); }
    }
  }
}
