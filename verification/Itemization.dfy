/** Does breaking a total down change what a customer pays?  Under flat prices: exactly if the members
    of a family do not all cost the same. */
module Itemization {
  import opened Results
  import opened Rounding
  import opened Sums
  import opened Meters
  import opened CodeTexts
  import opened Metering
  import opened MeteringLaws
  import opened Tiers
  import opened Charging
  import opened ChargeLaws
  import opened LineLaws
  import opened FlatPrices
  import opened Surcharges
  import opened IntakeLaws
  import opened QuoteLaws
  import opened HoldLaws
  import opened ItemizedEstimates
  import opened ConservationLaws

  // ----- reports with the same totals

  /** The same unrelated entries. */
  ghost predicate SameRest(u: Usage, v: Usage) {
    forall c :: !InAFamily(c) ==> (c in u <==> c in v) && (c in u ==> u[c] == v[c])
  }

  /** Two reports with the same totals, given or implied by their details, and the same unrelated
      meters. */
  ghost predicate SameReport(u: Usage, v: Usage) {
    && (forall root :: root in [InputTokens, OutputTokens] ==> Implied(u, root) == Implied(v, root))
    && SameRest(u, v)
  }

  lemma ImplicitRest(components: seq<Component>, u: Usage, v: Usage, tier: Option<Tier>)
    requires SameRest(u, v)
    ensures SameRest(AddImplicitRequestMetric(components, u, tier), AddImplicitRequestMetric(components, v, tier))
  {
    hide HasComponentForTier, InAFamily;
    RequestsOutside();
    ImplicitEntries(components, u, tier);
    ImplicitEntries(components, v, tier);
  }

  lemma ImplicitSame(components: seq<Component>, u: Usage, v: Usage, tier: Option<Tier>)
    requires SameReport(u, v)
    ensures SameReport(AddImplicitRequestMetric(components, u, tier), AddImplicitRequestMetric(components, v, tier))
  {
    hide AddImplicitRequestMetric, HasComponentForTier, SameRest, Implied;
    ImplicitRest(components, u, v, tier);
    ImplicitEntries(components, u, tier);
    ImplicitEntries(components, v, tier);
    forall root | root in [InputTokens, OutputTokens]
      ensures Implied(AddImplicitRequestMetric(components, u, tier), root) == Implied(u, root)
      ensures Implied(AddImplicitRequestMetric(components, v, tier), root) == Implied(v, root)
    {
      ImpliedSame(u, AddImplicitRequestMetric(components, u, tier), root);
      ImpliedSame(v, AddImplicitRequestMetric(components, v, tier), root);
    }
  }

  lemma OutsideSame(u: Usage, v: Usage)
    requires Sound(u) && Sound(v) && SameRest(u, v)
    ensures SameOutside(Normalized(u), Normalized(v))
  {
    hide InAFamily, Normalized, OnGrid;
    forall c | !InAFamily(c)
      ensures c in Normalized(u) <==> c in Normalized(v)
      ensures Quantity(Normalized(u), c) == Quantity(Normalized(v), c)
    {
      OutsideKept(u, c);
      OutsideKept(v, c);
    }
  }

  lemma SameReportSameTotals(u: Usage, v: Usage)
    requires Sound(u) && Sound(v) && SameReport(u, v)
    ensures SameTotals(Normalized(u), Normalized(v))
  {
    hide InAFamily, Normalized, TopLevel, Sound, Implied, SameOutside;
    forall root | root in [InputTokens, OutputTokens]
      ensures Quantity(Normalized(u), Plain(root)) == Quantity(Normalized(v), Plain(root))
    {
      RootsAreTop(root);
      FamilyTotals(u, root);
      FamilyTotals(v, root);
    }
    assert InputTokens in [InputTokens, OutputTokens] && OutputTokens in [InputTokens, OutputTokens];
    OutsideSame(u, v);
  }

  // ----- even prices: itemization is free

  /** Under flat prices, if all members of each family cost the same for a report, breaking its totals
      down into cached, reasoning, audio, image or video details changes nothing.  Nor does it when
      something outside the families lacks a price: then no breakdown is charged. */
  lemma {:induction false} ItemizationIsFree(components: seq<Component>, u: Usage, v: Usage, minimum: real, tier: Option<Tier>)
    requires IndexComponents(components).Ok? && Flat(IndexComponents(components).value)
    requires var index, charged := IndexComponents(components).value, ChargedUsage(components, u, tier);
      EvenPrices(index, tier, charged) || OthersUnpriced(index, tier, charged)
    requires UsageAccepted(u) && UsageAccepted(v) && SameReport(u, v)
    ensures Charge(components, u, minimum, tier) == Charge(components, v, minimum, tier)
  {
    hide IndexComponents, Flat, EvenPrices, OthersUnpriced, UsageAccepted, SameReport, Normalized, AddImplicitRequestMetric,
         Tidy, SameTotals, ChargeNormalized, Sound;
    var u', v' := AddImplicitRequestMetric(components, u, tier), AddImplicitRequestMetric(components, v, tier);
    ImplicitSame(components, u, v, tier);
    ImplicitAccepted(components, u, tier);
    ImplicitAccepted(components, v, tier);
    NormalizedIsTidy(u');
    NormalizedIsTidy(v');
    SameReportSameTotals(u', v');
    NeutralCharge(IndexComponents(components).value, Normalized(u'), Normalized(v'), minimum, tier);
  }

  /** For instance without a price of its own for any sub-meter, and with keys that strip completely or
      have no positive entry at what they strip to. */
  lemma {:induction false} CleanItemizationIsFree(components: seq<Component>, u: Usage, v: Usage, minimum: real, tier: Option<Tier>)
    requires IndexComponents(components).Ok?
    requires Flat(IndexComponents(components).value) && NoSubMeterPrice(IndexComponents(components).value, tier)
    requires UsageAccepted(u) && UsageAccepted(v) && SameReport(u, v) && StripsClean(u)
    ensures Charge(components, u, minimum, tier) == Charge(components, v, minimum, tier)
  {
    hide IndexComponents, Flat, EvenPrices, OthersUnpriced, UsageAccepted, SameReport, StripsClean, AddImplicitRequestMetric,
         NoSubMeterPrice, Charge, ChargedUsage;
    ImplicitAccepted(components, u, tier);
    CleanKept(components, u, tier);
    CleanIsEven(IndexComponents(components).value, tier, ChargedUsage(components, u, tier));
    ItemizationIsFree(components, u, v, minimum, tier);
  }

  // ----- one unit, itemized down to one meter

  /** The meter that contains a meter. */
  function Holder(m: Meter): Option<Meter> {
    match m
    case CachedInputTokens | CacheCreationTokens | CacheCreation1hTokens
       | InputAudioTokens | InputImageTokens | InputVideoTokens => Some(InputTokens)
    case ReasoningTokens | OutputAudioTokens | OutputImageTokens | OutputVideoTokens => Some(OutputTokens)
    case CacheCreationAudioTokens | CachedAudioTokens => Some(InputAudioTokens)
    case CachedImageTokens => Some(InputImageTokens)
    case CachedVideoTokens => Some(InputVideoTokens)
    case _ => None
  }

  lemma HolderIff(p: Meter, m: Meter)
    ensures m in SubMeters(p) <==> Holder(m) == Some(p)
  {
  }

  lemma HolderRank(m: Meter)
    ensures Holder(m).Some? ==> PriceRank(Holder(m).value) < PriceRank(m)
    ensures Holder(m).Some? ==> FamilyRoot(Holder(m).value) == FamilyRoot(m)
    ensures FamilyRoot(m).Some? && Holder(m).None? ==> FamilyRoot(m) == Some(m)
    ensures (m == InputTokens || m == OutputTokens) ==> Holder(m).None?
  {
  }

  /** A meter and what contains it, up to its total. */
  function Path(m: Meter): seq<Meter>
    decreases PriceRank(m)
  {
    HolderRank(m);
    match Holder(m)
    case None => [m]
    case Some(p) => [m] + Path(p)
  }

  lemma {:induction false} PathLaw(m: Meter)
    ensures m in Path(m)
    ensures forall x :: x in Path(m) ==> PriceRank(x) <= PriceRank(m) && FamilyRoot(x) == FamilyRoot(m)
    ensures forall x :: x in Path(m) && Holder(x).Some? ==> Holder(x).value in Path(m)
    ensures FamilyRoot(m).Some? ==> FamilyRoot(m).value in Path(m)
    decreases PriceRank(m)
  {
    HolderRank(m);
    hide Holder, PriceRank, FamilyRoot;
    match Holder(m)
    case None =>
    case Some(p) => PathLaw(p);
  }

  /** Unless the path ends there, some meter on it lies directly below p... */
  lemma {:induction false} PathBelow(m: Meter, p: Meter)
    requires p in Path(m) && p != m
    ensures exists x :: x in Path(m) && Holder(x) == Some(p)
    decreases PriceRank(m)
  {
    HolderRank(m);
    var q := Holder(m).value;
    hide Holder, PriceRank, FamilyRoot;
    PathLaw(m);
    if p != q {
      PathBelow(q, p);
      var x :| x in Path(q) && Holder(x) == Some(p);
      assert x in Path(m);
    }
  }

  lemma PathStep(m: Meter)
    ensures forall x :: x in Path(m) <==> x == m || (Holder(m).Some? && x in Path(Holder(m).value))
  {
    hide Holder;
  }

  /** ...and no other does. */
  lemma {:induction false} PathUnique(m: Meter, x: Meter, y: Meter)
    requires x in Path(m) && y in Path(m) && Holder(x).Some? && Holder(x) == Holder(y)
    ensures x == y
    decreases PriceRank(m)
  {
    HolderRank(m);
    HolderRank(x);
    HolderRank(y);
    hide Holder, PriceRank, FamilyRoot;
    PathStep(m);
    if Holder(m).Some? {
      PathLaw(Holder(m).value);
      hide Path;
      if x != m && y != m { PathUnique(Holder(m).value, x, y); }
    }
  }

  lemma OnPath(m: Meter, p: Meter, x: Meter)
    requires x in SubMeters(p)
    ensures x in Path(m) ==> p in Path(m) && p != m
    ensures Holder(x) == Some(p) && FamilyRoot(x).Some?
  {
    HolderIff(p, x);
    HolderRank(x);
    SubMeterRoots(p, x);
    hide Holder, PriceRank, FamilyRoot, SubMeters, Path;
    PathLaw(m);
  }

  function PathCodes(m: Meter): set<Code> { set x | x in Path(m) :: Plain(x) }

  /** One unit reported as m and as everything that contains m, beside w. */
  function UnitOf(w: Usage, m: Meter): Usage {
    map c | c in w.Keys + PathCodes(m) :: if c in PathCodes(m) then 1.0 else w[c]
  }

  predicate NoFamilyEntry(w: Usage) { forall c :: c in w ==> !InAFamily(c) }

  lemma UnitEntries(w: Usage, m: Meter)
    requires NoFamilyEntry(w) && FamilyRoot(m).Some?
    ensures forall x :: FamilyRoot(x).Some? ==> Quantity(UnitOf(w, m), Plain(x)) == if x in Path(m) then 1.0 else 0.0
    ensures forall c :: !InAFamily(c) ==> (c in UnitOf(w, m) <==> c in w) && (c in w ==> UnitOf(w, m)[c] == w[c])
    ensures forall c :: c in UnitOf(w, m) ==> UnitOf(w, m)[c] == 1.0 || (c in w && UnitOf(w, m)[c] == w[c])
  {
    hide FamilyRoot, Path;
    PathLaw(m);
    forall x
      ensures Plain(x) in PathCodes(m) <==> x in Path(m)
    {
    }
  }

  lemma UnitSubs(w: Usage, m: Meter, p: Meter)
    requires NoFamilyEntry(w) && FamilyRoot(m).Some?
    ensures TotalOf(UnitOf(w, m), SubMeters(p)) == if p in Path(m) && p != m then 1.0 else 0.0
  {
    hide FamilyRoot, Path, SubMeters, Holder, UnitOf, SumBy, Quantity, NoFamilyEntry;
    var v, none := UnitOf(w, m), (x: Meter) => 0.0;
    UnitEntries(w, m);
    SubMetersDistinct(p);
    AllZero(SubMeters(p), none);
    forall x | x in SubMeters(p)
      ensures x in Path(m) ==> p in Path(m) && p != m
      ensures Holder(x) == Some(p) && FamilyRoot(x).Some?
    {
      OnPath(m, p, x);
    }
    if p in Path(m) && p != m {
      PathBelow(m, p);
      var y :| y in Path(m) && Holder(y) == Some(p);
      HolderIff(p, y);
      forall x | x in SubMeters(p) && x != y
        ensures x !in Path(m)
      {
        if x in Path(m) { PathUnique(m, x, y); }
      }
      SumByBump(SubMeters(p), y, Held(v), none, 1.0);
    } else {
      AllZero(SubMeters(p), Held(v));
    }
  }

  lemma UnitTidy(w: Usage, m: Meter)
    requires Sound(w) && NoFamilyEntry(w) && FamilyRoot(m).Some?
    ensures Tidy(UnitOf(w, m))
  {
    hide FamilyRoot, Path, SubMeters, UnitOf, TotalOf, NoFamilyEntry, OnGrid, InAFamily;
    var v := UnitOf(w, m);
    UnitEntries(w, m);
    WholeOnGrid(1);
    PathLaw(m);
    forall p
      ensures TotalOf(v, SubMeters(p)) <= Quantity(v, Plain(p))
    {
      UnitSubs(w, m, p);
      NoNegativeQuantity(v, Plain(p));
      if p in Path(m) { assert FamilyRoot(p).Some?; }
    }
  }

  lemma UnitEffective(w: Usage, m: Meter, x: Meter)
    requires Sound(w) && NoFamilyEntry(w) && FamilyRoot(m).Some? && FamilyRoot(x).Some?
    ensures EffectiveQuantity(Plain(x), UnitOf(w, m)) == if x == m then 1.0 else 0.0
  {
    hide FamilyRoot, Path, SubMeters, UnitOf, TotalOf, NoFamilyEntry, OnGrid, InAFamily, Sound, Disjoint, Quantity,
         EffectiveQuantity;
    UnitEntries(w, m);
    UnitTidy(w, m);
    UnitSubs(w, m, x);
    PathLaw(m);
    EffectiveExact(UnitOf(w, m), Plain(x));
  }

  lemma UnitOutside(w: Usage, m: Meter)
    requires NoFamilyEntry(w) && FamilyRoot(m).Some?
    ensures SameOutside(w, UnitOf(w, m))
  {
    hide FamilyRoot, UnitOf, NoFamilyEntry;
    UnitEntries(w, m);
  }

  lemma UnitRoot(w: Usage, m: Meter, root: Meter)
    requires NoFamilyEntry(w) && FamilyRoot(m).Some? && (root == InputTokens || root == OutputTokens)
    ensures Quantity(UnitOf(w, m), Plain(root)) == if FamilyRoot(m) == Some(root) then 1.0 else 0.0
  {
    hide Path, UnitOf, NoFamilyEntry, Quantity;
    UnitEntries(w, m);
    PathLaw(m);
  }

  lemma UnitSameTotals(w: Usage, m: Meter, n: Meter)
    requires NoFamilyEntry(w) && FamilyRoot(m).Some? && FamilyRoot(n) == FamilyRoot(m)
    ensures SameTotals(UnitOf(w, m), UnitOf(w, n))
  {
    hide FamilyRoot, UnitOf, NoFamilyEntry, Quantity;
    UnitRoot(w, m, InputTokens);
    UnitRoot(w, n, InputTokens);
    UnitRoot(w, m, OutputTokens);
    UnitRoot(w, n, OutputTokens);
    UnitOutside(w, m);
    UnitOutside(w, n);
  }

  // ----- what the unit costs

  lemma UnitMeterCost(index: Index, tier: Option<Tier>, w: Usage, m: Meter, root: Meter)
    requires Sound(w) && NoFamilyEntry(w) && FamilyRoot(m).Some? && (root == InputTokens || root == OutputTokens)
    ensures SumBy(Family(root), MeterCost(index, tier, UnitOf(w, m))) ==
      if m in Family(root) then MeterRate(index, tier, UnitOf(w, m), m) else 0.0
  {
    hide FamilyRoot, UnitOf, NoFamilyEntry, Family, EffectiveQuantity, MeterRate, Cost, Sound, SumBy;
    var v, none := UnitOf(w, m), (x: Meter) => 0.0;
    var r := MeterRate(index, tier, v, m);
    FamiliesDistinct();
    AllZero(Family(root), none);
    UnitCosts(r);
    UnitEffective(w, m, m);
    forall x | x in Family(root) && x != m
      ensures MeterCost(index, tier, v)(x) == 0.0
    {
      InFamilyIff(root, x);
      UnitEffective(w, m, x);
      CostSum(MeterRate(index, tier, v, x), 0.0, 0.0);
    }
    SumByBump(Family(root), m, MeterCost(index, tier, v), none, r);
  }

  lemma UnitCosts(r: real)
    ensures Cost(r, 1.0) == r
  {
  }

  lemma UnitTotal(index: Index, tier: Option<Tier>, w: Usage, m: Meter)
    requires Flat(index) && Sound(w) && NoFamilyEntry(w) && FamilyRoot(m).Some? && !Unpriced(index, UnitOf(w, m), tier)
    ensures var amounts := LineAmounts(index, tier, UnitOf(w, m));
      MapSum(amounts) == MeterRate(index, tier, UnitOf(w, m), m) + MapSum(Unrelated(amounts))
  {
    hide UnitOf, NoFamilyEntry, Family, MeterRate, Sound, SumBy, MeterCost, Flat, Unpriced, LineAmounts, MapSum, Unrelated, Tidy;
    UnitTidy(w, m);
    FlatTotal(index, tier, UnitOf(w, m));
    UnitMeterCost(index, tier, w, m, InputTokens);
    UnitMeterCost(index, tier, w, m, OutputTokens);
    InFamilyIff(InputTokens, m);
    InFamilyIff(OutputTokens, m);
    RootIsTotal(m);
  }

  lemma UnitPriced(index: Index, tier: Option<Tier>, w: Usage, m: Meter)
    requires Sound(w) && NoFamilyEntry(w) && FamilyRoot(m).Some? && !OthersUnpriced(index, tier, UnitOf(w, m))
    ensures Unpriced(index, UnitOf(w, m), tier) <==> !HasPrice(index, tier, Plain(m))
  {
    hide UnitOf, NoFamilyEntry, Sound, Disjoint, BillableCodes, EffectiveQuantity, HasPrice, FamilyRoot, Unpriced;
    UnitTidy(w, m);
    UnitEffective(w, m, m);
    BillablePlain(UnitOf(w, m));
    UnpricedMeans(index, tier, UnitOf(w, m));
    forall b | b in BillableCodes(UnitOf(w, m)) && InAFamily(b)
      ensures b == Plain(m)
    {
      UnitEffective(w, m, b.stem);
      assert b == Plain(b.stem);
    }
  }

  lemma UnitCharge(index: Index, tier: Option<Tier>, w: Usage, m: Meter)
    requires Flat(index) && Sound(w) && NoFamilyEntry(w) && FamilyRoot(m).Some? && !OthersUnpriced(index, tier, UnitOf(w, m))
    ensures var v := UnitOf(w, m);
      ChargeNormalized(index, v, 0.0, tier) ==
        if HasPrice(index, tier, Plain(m))
        then Ok(Round30(MeterRate(index, tier, v, m) + MapSum(Unrelated(LineAmounts(index, tier, v)))))
        else Err(PriceNotConfigured)
  {
    hide UnitOf, NoFamilyEntry, MeterRate, Sound, Flat, Unpriced, LineAmounts, MapSum, Unrelated, Tidy, HasPrice,
         ChargeNormalized, Round30, OthersUnpriced;
    UnitPriced(index, tier, w, m);
    FlatCharge(index, UnitOf(w, m), 0.0, tier);
    if HasPrice(index, tier, Plain(m)) {
      UnitTotal(index, tier, w, m);
      UnitTidy(w, m);
      TotalNonNegative(index, tier, UnitOf(w, m));
    }
  }

  lemma TotalNonNegative(index: Index, tier: Option<Tier>, u: Usage)
    requires Flat(index) && Tidy(u) && !Unpriced(index, u, tier)
    ensures MapSum(LineAmounts(index, tier, u)) >= 0.0
  {
    hide MapSum, Flat, Tidy, Unpriced, LineAmounts;
    forall c | c in LineAmounts(index, tier, u)
      ensures LineAmounts(index, tier, u)[c] >= 0.0
    {
      LineNonNegative(index, tier, u, c);
    }
    NonNegative(LineAmounts(index, tier, u));
  }

  // ----- uneven prices: itemization is not free

  /** Prices as they are stored, with thirty fraction digits. */
  ghost predicate GridPrices(index: Index) {
    forall c :: c in index ==> OnGrid(index[c].price)
  }

  lemma {:induction false} GridMapSum<K>(m: map<K, real>)
    requires forall k :: k in m ==> OnGrid(m[k])
    ensures OnGrid(MapSum(m))
    decreases m.Keys
  {
    hide OnGrid;
    ZeroOnGrid();
    if m != map[] {
      var k :| k in m && MapSum(m) == m[k] + MapSum(m - {k});
      assert (m - {k}).Keys < m.Keys by { assert k !in (m - {k}).Keys; }
      GridMapSum(m - {k});
      GridSum(m[k], MapSum(m - {k}));
    }
  }

  lemma MeterRateOnGrid(index: Index, tier: Option<Tier>, u: Usage, m: Meter)
    requires GridPrices(index)
    ensures OnGrid(MeterRate(index, tier, u, m))
  {
    hide OnGrid, MapSum, BillableCodes, ComponentBaseCode;
    forall c
      ensures OnGrid(OwnRate(index, tier, c))
    {
      ZeroOnGrid();
      if HasPrice(index, tier, c) {
        ResolvedFromIndex(index, c, tier);
        hide ComponentForMeter;
      }
    }
    hide OwnRate;
    GridMapSum(AgainRates(index, tier, u, m));
    GridSum(OwnRate(index, tier, Plain(m)), MapSum(AgainRates(index, tier, u, m)));
  }

  lemma RoundShift(x: real, n: int)
    ensures Round30(x + Units(n)) == Round30(x) + Units(n)
  {
    assert Units(n) * SCALE == n as real;
    assert Nearest(x + Units(n)) == Nearest(x) + n;
    UnitsSum(Nearest(x), n);
  }

  /** Different amounts on the grid stay different beside the same other amount. */
  lemma RoundSeparates(r: real, s: real, x: real)
    requires OnGrid(r) && OnGrid(s) && Round30(r + x) == Round30(s + x)
    ensures r == s
  {
    hide Units, Round30;
    var m, n :| r == Units(m) && s == Units(n);
    RoundShift(x, m);
    RoundShift(x, n);
  }

  /** Two meters of one family that cost the same for one unit have the same full rate. */
  lemma SameUnitCharge(index: Index, tier: Option<Tier>, w: Usage, root: Meter, m: Meter)
    requires Flat(index) && GridPrices(index) && Tidy(w) && NoFamilyEntry(w) && !OthersUnpriced(index, tier, w)
    requires (root == InputTokens || root == OutputTokens) && m in Family(root)
    requires ChargeNormalized(index, UnitOf(w, m), 0.0, tier) == ChargeNormalized(index, UnitOf(w, root), 0.0, tier)
    ensures HasPrice(index, tier, Plain(m)) == HasPrice(index, tier, Plain(root))
    ensures HasPrice(index, tier, Plain(root)) ==> MeterRate(index, tier, w, m) == MeterRate(index, tier, w, root)
  {
    hide UnitOf, NoFamilyEntry, MeterRate, Sound, Disjoint, Flat, Unpriced, LineAmounts, MapSum, Unrelated, HasPrice, Family,
         ChargeNormalized, Round30, OthersUnpriced, SameOutside, SameTotals, GridPrices, OnGrid, EvenPrices, FamilyRoot, SameTotals;
    RootInFamily(root);
    InFamilyIff(root, m);
    InFamilyIff(root, root);
    UnitSame(index, tier, w, m);
    UnitSame(index, tier, w, root);
    UnitCharge(index, tier, w, m);
    UnitCharge(index, tier, w, root);
    if HasPrice(index, tier, Plain(m)) && HasPrice(index, tier, Plain(root)) {
      UnitPriced(index, tier, w, m);
      UnitPriced(index, tier, w, root);
      UnitsSameUnrelated(index, tier, w, m, root);
      MeterRateOnGrid(index, tier, w, m);
      MeterRateOnGrid(index, tier, w, root);
      RoundSeparates(MeterRate(index, tier, w, m), MeterRate(index, tier, w, root),
                     MapSum(Unrelated(LineAmounts(index, tier, UnitOf(w, m)))));
    }
  }

  lemma UnitSame(index: Index, tier: Option<Tier>, w: Usage, m: Meter)
    requires Tidy(w) && NoFamilyEntry(w) && FamilyRoot(m).Some?
    ensures OthersUnpriced(index, tier, UnitOf(w, m)) <==> OthersUnpriced(index, tier, w)
    ensures forall x :: MeterRate(index, tier, UnitOf(w, m), x) == MeterRate(index, tier, w, x)
  {
    hide UnitOf, NoFamilyEntry, MeterRate, Sound, Disjoint, OthersUnpriced, SameOutside, EvenPrices, FamilyRoot;
    UnitTidy(w, m);
    UnitOutside(w, m);
    SameRates(index, tier, w, UnitOf(w, m));
  }

  lemma UnitsSameUnrelated(index: Index, tier: Option<Tier>, w: Usage, m: Meter, n: Meter)
    requires Flat(index) && Tidy(w) && NoFamilyEntry(w) && FamilyRoot(m).Some? && FamilyRoot(n) == FamilyRoot(m)
    requires !Unpriced(index, UnitOf(w, m), tier) && !Unpriced(index, UnitOf(w, n), tier)
    ensures Unrelated(LineAmounts(index, tier, UnitOf(w, m))) == Unrelated(LineAmounts(index, tier, UnitOf(w, n)))
  {
    hide UnitOf, NoFamilyEntry, Sound, Disjoint, Flat, Unpriced, LineAmounts, Unrelated, SameOutside, FamilyRoot;
    UnitTidy(w, m);
    UnitTidy(w, n);
    UnitSameTotals(w, m, n);
    SameUnrelated(index, tier, UnitOf(w, m), UnitOf(w, n));
  }

  // ----- exactly even prices make itemization free

  /** A report that has w beside what it says about the two families. */
  ghost predicate ReportBeside(u: Usage, w: Usage) {
    UsageAccepted(u) && SameRest(u, w)
  }

  /** No two reports beside w with the same totals cost differently. */
  ghost predicate FreeBeside(components: seq<Component>, w: Usage, minimum: real, tier: Option<Tier>) {
    forall u, v :: ReportBeside(u, w) && ReportBeside(v, w) && SameReport(u, v) ==>
      Charge(components, u, minimum, tier) == Charge(components, v, minimum, tier)
  }

  lemma PathCodesValid(m: Meter)
    requires FamilyRoot(m).Some?
    ensures forall c :: c in PathCodes(m) ==> ValidCode(c)
  {
    hide FamilyRoot, Path, ValidCode;
    PathLaw(m);
    forall c | c in PathCodes(m)
      ensures ValidCode(c)
    {
      FamilyIsNamed(c.stem);
      NamedCodes(c.stem);
    }
  }

  lemma UnitReported(w: Usage, m: Meter)
    requires UsageAccepted(w) && NoFamilyEntry(w) && FamilyRoot(m).Some?
    ensures ReportBeside(UnitOf(w, m), w)
  {
    WholeAccepted(1);
    PathCodesValid(m);
    hide FamilyRoot, PathCodes, DecimalAccepted, ValidCode;
    UnitEntries(w, m);
  }

  lemma UnitNormal(w: Usage, m: Meter)
    requires Sound(w) && NoFamilyEntry(w) && FamilyRoot(m).Some?
    ensures Tidy(UnitOf(w, m)) && Normalized(UnitOf(w, m)) == UnitOf(w, m)
  {
    hide FamilyRoot, UnitOf, NoFamilyEntry, Sound, Disjoint, Normalized;
    UnitTidy(w, m);
    NormalizedFixpointIff(UnitOf(w, m));
  }

  lemma UnitImplied(w: Usage, m: Meter, root: Meter)
    requires Sound(w) && NoFamilyEntry(w) && FamilyRoot(m).Some? && (root == InputTokens || root == OutputTokens)
    ensures Implied(UnitOf(w, m), root) == if FamilyRoot(m) == Some(root) then 1.0 else 0.0
  {
    hide FamilyRoot, UnitOf, NoFamilyEntry, Sound, Disjoint, Normalized, Quantity, Implied, TopLevel;
    UnitNormal(w, m);
    RootsAreTop(root);
    FamilyTotals(UnitOf(w, m), root);
    UnitRoot(w, m, root);
  }

  lemma UnitsSameReport(w: Usage, m: Meter, n: Meter)
    requires UsageAccepted(w) && NoFamilyEntry(w) && FamilyRoot(m).Some? && FamilyRoot(n) == FamilyRoot(m)
    ensures SameReport(UnitOf(w, m), UnitOf(w, n))
  {
    hide UsageAccepted, FamilyRoot, UnitOf, NoFamilyEntry, Sound, Implied;
    AcceptedIsSound(w);
    UnitEntries(w, m);
    UnitEntries(w, n);
    forall root | root in [InputTokens, OutputTokens]
      ensures Implied(UnitOf(w, m), root) == Implied(UnitOf(w, n), root)
    {
      UnitImplied(w, m, root);
      UnitImplied(w, n, root);
    }
  }

  lemma RestCharged(components: seq<Component>, w: Usage, tier: Option<Tier>)
    requires UsageAccepted(w) && NoFamilyEntry(w)
    ensures var r := ChargedUsage(components, w, tier);
      r == AddImplicitRequestMetric(components, w, tier) && Tidy(r) && NoFamilyEntry(r) && UsageAccepted(r)
  {
    hide UsageAccepted, Normalized, Sound, Disjoint, FamilyRoot, HasComponentForTier;
    var r := AddImplicitRequestMetric(components, w, tier);
    ImplicitAccepted(components, w, tier);
    AcceptedIsSound(r);
    ImplicitEntries(components, w, tier);
    RequestsOutside();
    hide AddImplicitRequestMetric;
    assert Unsplit(r);
    UnsplitIsNormal(r);
  }

  lemma UnitImplicit(components: seq<Component>, w: Usage, m: Meter, tier: Option<Tier>)
    requires NoFamilyEntry(w) && FamilyRoot(m).Some?
    ensures AddImplicitRequestMetric(components, UnitOf(w, m), tier) == UnitOf(AddImplicitRequestMetric(components, w, tier), m)
  {
    hide FamilyRoot, HasComponentForTier, Path;
    RequestsOutside();
    PathLaw(m);
    UnitEntries(w, m);
    assert Plain(Requests) !in PathCodes(m);
  }

  lemma UnitCharged(components: seq<Component>, w: Usage, m: Meter, tier: Option<Tier>)
    requires UsageAccepted(w) && NoFamilyEntry(w) && FamilyRoot(m).Some? && IndexComponents(components).Ok?
    ensures Charge(components, UnitOf(w, m), 0.0, tier) ==
      ChargeNormalized(IndexComponents(components).value, UnitOf(ChargedUsage(components, w, tier), m), 0.0, tier)
  {
    hide UsageAccepted, Normalized, Sound, Disjoint, FamilyRoot, AddImplicitRequestMetric, UnitOf, NoFamilyEntry, IndexComponents,
         ChargeNormalized;
    RestCharged(components, w, tier);
    UnitImplicit(components, w, m, tier);
    UnitReported(ChargedUsage(components, w, tier), m);
    UnitNormal(ChargedUsage(components, w, tier), m);
  }

  lemma FreeIsEven(components: seq<Component>, w: Usage, tier: Option<Tier>, root: Meter)
    requires IndexComponents(components).Ok?
    requires Flat(IndexComponents(components).value) && GridPrices(IndexComponents(components).value)
    requires UsageAccepted(w) && NoFamilyEntry(w) && FreeBeside(components, w, 0.0, tier)
    requires root == InputTokens || root == OutputTokens
    requires !OthersUnpriced(IndexComponents(components).value, tier, ChargedUsage(components, w, tier))
    ensures EvenFamily(IndexComponents(components).value, tier, ChargedUsage(components, w, tier), root)
  {
    hide UsageAccepted, FamilyRoot, UnitOf, NoFamilyEntry, IndexComponents, ChargeNormalized, Charge, Flat, GridPrices, Family,
         OthersUnpriced, ReportBeside, SameReport, HasPrice, MeterRate, ChargedUsage, Tidy;
    RestCharged(components, w, tier);
    forall m | m in Family(root)
      ensures var index, r := IndexComponents(components).value, ChargedUsage(components, w, tier);
        && HasPrice(index, tier, Plain(m)) == HasPrice(index, tier, Plain(root))
        && (HasPrice(index, tier, Plain(root)) ==> MeterRate(index, tier, r, m) == MeterRate(index, tier, r, root))
    {
      RootInFamily(root);
      InFamilyIff(root, m);
      InFamilyIff(root, root);
      UnitReported(w, m);
      UnitReported(w, root);
      UnitsSameReport(w, m, root);
      UnitCharged(components, w, m, tier);
      UnitCharged(components, w, root, tier);
      SameUnitCharge(IndexComponents(components).value, tier, ChargedUsage(components, w, tier), root, m);
    }
  }

  lemma EvenIsFree(components: seq<Component>, w: Usage, minimum: real, tier: Option<Tier>)
    requires IndexComponents(components).Ok? && Flat(IndexComponents(components).value)
    requires UsageAccepted(w)
    requires var index, r := IndexComponents(components).value, ChargedUsage(components, w, tier);
      EvenPrices(index, tier, r) || OthersUnpriced(index, tier, r)
    ensures FreeBeside(components, w, minimum, tier)
  {
    hide UsageAccepted, IndexComponents, Charge, Flat, EvenPrices, OthersUnpriced, SameReport;
    forall u, v | ReportBeside(u, w) && ReportBeside(v, w) && SameReport(u, v)
      ensures Charge(components, u, minimum, tier) == Charge(components, v, minimum, tier)
    {
      BesideSameRates(components, u, w, tier);
      hide ReportBeside, ChargedUsage;
      ItemizationIsFree(components, u, v, minimum, tier) by { assert UsageAccepted(u) && UsageAccepted(v) by { BesideAccepted(u, v, w); } }
    }
  }

  lemma BesideAccepted(u: Usage, v: Usage, w: Usage)
    requires ReportBeside(u, w) && ReportBeside(v, w)
    ensures UsageAccepted(u) && UsageAccepted(v)
  {
    hide UsageAccepted, InAFamily;
  }

  lemma BesideSameRates(components: seq<Component>, u: Usage, w: Usage, tier: Option<Tier>)
    requires UsageAccepted(w) && ReportBeside(u, w) && IndexComponents(components).Ok?
    ensures var index, x, r := IndexComponents(components).value, ChargedUsage(components, u, tier), ChargedUsage(components, w, tier);
      && (EvenPrices(index, tier, x) <==> EvenPrices(index, tier, r))
      && (OthersUnpriced(index, tier, x) <==> OthersUnpriced(index, tier, r))
  {
    hide UsageAccepted, IndexComponents, EvenPrices, OthersUnpriced, Tidy, Sound, SameOutside, SameRest,
         AddImplicitRequestMetric, Normalized;
    var u', w' := AddImplicitRequestMetric(components, u, tier), AddImplicitRequestMetric(components, w, tier);
    ImplicitAccepted(components, u, tier);
    ImplicitAccepted(components, w, tier);
    NormalizedIsTidy(u');
    NormalizedIsTidy(w');
    ImplicitRest(components, u, w, tier);
    OutsideSame(u', w');
    SameRates(IndexComponents(components).value, tier, Normalized(u'), Normalized(w'));
  }

  /** Beside given unrelated entries w, under flat prices as they are stored, no breakdown of any totals
      changes the charge if and only if in either family all members cost the same, or something of w
      lacks a price so that no report beside it is charged at all.  In these cases it is so under every
      minimum; in the others already without one. */
  lemma {:induction false} ItemizationIsFreeIff(components: seq<Component>, w: Usage, tier: Option<Tier>)
    requires IndexComponents(components).Ok?
    requires Flat(IndexComponents(components).value) && GridPrices(IndexComponents(components).value)
    requires UsageAccepted(w) && NoFamilyEntry(w)
    ensures var index, r := IndexComponents(components).value, ChargedUsage(components, w, tier);
      FreeBeside(components, w, 0.0, tier) <==> EvenPrices(index, tier, r) || OthersUnpriced(index, tier, r)
    ensures FreeBeside(components, w, 0.0, tier) ==> forall minimum :: FreeBeside(components, w, minimum, tier)
  {
    hide UsageAccepted, IndexComponents, Flat, GridPrices, OthersUnpriced, FreeBeside, NoFamilyEntry, EvenFamily, ChargedUsage;
    var index, r := IndexComponents(components).value, ChargedUsage(components, w, tier);
    if EvenPrices(index, tier, r) || OthersUnpriced(index, tier, r) {
      forall minimum
        ensures FreeBeside(components, w, minimum, tier)
      {
        EvenIsFree(components, w, minimum, tier);
      }
    }
    if FreeBeside(components, w, 0.0, tier) && !OthersUnpriced(index, tier, r) {
      FreeIsEven(components, w, tier, InputTokens);
      FreeIsEven(components, w, tier, OutputTokens);
    }
  }

  // ----- keys that make itemization costly

  /** A key that does not strip completely, with a positive entry at what it strips to, makes one
      meter of a family dearer than every member that no such key leads to. */
  lemma {:induction false} UncleanKeyIsNotFree(components: seq<Component>, w: Usage, tier: Option<Tier>, k: Code, m: Meter, x: Meter)
    requires IndexComponents(components).Ok? && UsageAccepted(w) && NoFamilyEntry(w)
    requires var index := IndexComponents(components).value;
      && Flat(index) && GridPrices(index) && NoSubMeterPrice(index, tier)
      && !OthersUnpriced(index, tier, ChargedUsage(components, w, tier))
    requires k in w && !InStripOrder(k.suffixes) && Quantity(w, ComponentBaseCode(k)) > 0.0
    requires FamilyRoot(m).Some? && FamilyRoot(x) == FamilyRoot(m)
    requires ComponentBaseCode(ComponentBaseCode(k)) == Plain(m)
    requires forall j :: j in w && !InStripOrder(j.suffixes) ==> ComponentBaseCode(ComponentBaseCode(j)) != Plain(x)
    requires var index := IndexComponents(components).value;
      && HasPrice(index, tier, Plain(FamilyRoot(m).value))
      && HasPrice(index, tier, ComponentBaseCode(k)) && Rate(index, tier, ComponentBaseCode(k)) > 0.0
    ensures !FreeBeside(components, w, 0.0, tier)
  {
    hide UsageAccepted, IndexComponents, Flat, GridPrices, OthersUnpriced, FreeBeside, NoFamilyEntry, ChargedUsage, HasPrice, Rate,
         InStripOrder, ComponentBaseCode, NoSubMeterPrice, AddImplicitRequestMetric, EvenPrices, MeterRate, FamilyRoot, Quantity;
    var index, r := IndexComponents(components).value, ChargedUsage(components, w, tier);
    ImplicitAccepted(components, w, tier);
    forall c: Code | c.suffixes != []
      ensures (c in r <==> c in w) && Quantity(r, c) == Quantity(w, c)
    {
      SuffixedKept(components, w, tier, c);
    }
    UncleanIsSuffixed(k);
    UncleanBillable(r, k);
    forall j: Code | !InStripOrder(j.suffixes)
      ensures j in r <==> j in w
    {
      UncleanIsSuffixed(j);
    }
    NoUncleanKey(index, tier, r, x);
    DearerByAgain(index, tier, r, ComponentBaseCode(k), m);
    RatesOfMembers(index, tier, r, m, x);
    ItemizationIsFreeIff(components, w, tier);
  }

  lemma SuffixedKept(components: seq<Component>, w: Usage, tier: Option<Tier>, c: Code)
    requires UsageAccepted(AddImplicitRequestMetric(components, w, tier)) && c.suffixes != []
    ensures var r := ChargedUsage(components, w, tier);
      (c in r <==> c in w) && Quantity(r, c) == Quantity(w, c)
  {
    hide UsageAccepted, AddImplicitRequestMetric, ChargedUsage;
    SuffixedKeysKept(components, w, tier, c);
  }

  lemma UncleanIsSuffixed(k: Code)
    requires !InStripOrder(k.suffixes)
    ensures k.suffixes != [] && ComponentBaseCode(k).suffixes != []
  {
    OrderedBase(k);
    if k.suffixes == [] { PlainBase(k); }
  }

  lemma UncleanBillable(u: Usage, k: Code)
    requires k in u && !InStripOrder(k.suffixes) && Quantity(u, ComponentBaseCode(k)) > 0.0
    ensures ComponentBaseCode(k) in BillableCodes(u) && ComponentBaseCode(k).suffixes != []
  {
    UncleanIsSuffixed(k);
    SuffixedBillable(u, ComponentBaseCode(k));
  }

  lemma NoUncleanKey(index: Index, tier: Option<Tier>, u: Usage, x: Meter)
    requires forall j :: j in u && !InStripOrder(j.suffixes) ==> ComponentBaseCode(ComponentBaseCode(j)) != Plain(x)
    ensures MeterRate(index, tier, u, x) == OwnRate(index, tier, Plain(x))
  {
    hide InStripOrder, ComponentBaseCode, BillableCodes, OwnRate;
    forall b | b in BillableCodes(u) && b.suffixes != []
      ensures ComponentBaseCode(b) != Plain(x)
    {
      BillableIff(u, b);
      var j :| j in u && ComponentBaseCode(j) == b;
      OrderedBase(j);
    }
    assert AgainRates(index, tier, u, x) == map[];
  }

  lemma DearerByAgain(index: Index, tier: Option<Tier>, u: Usage, b: Code, m: Meter)
    requires Flat(index) && b in BillableCodes(u) && b.suffixes != [] && ComponentBaseCode(b) == Plain(m)
    requires HasPrice(index, tier, b) && Rate(index, tier, b) > 0.0
    ensures MeterRate(index, tier, u, m) > OwnRate(index, tier, Plain(m))
  {
    hide ComponentBaseCode, BillableCodes, Flat, HasPrice, Rate, MapSum;
    forall c
      ensures OwnRate(index, tier, c) >= 0.0
    {
      if HasPrice(index, tier, c) { FlatLine(index, tier, u, c); }
    }
    var again := AgainRates(index, tier, u, m);
    assert b in again && again[b] == Rate(index, tier, b);
    hide OwnRate;
    NonNegative(again);
  }

  lemma RatesOfMembers(index: Index, tier: Option<Tier>, u: Usage, m: Meter, x: Meter)
    requires NoSubMeterPrice(index, tier) && FamilyRoot(m).Some? && FamilyRoot(x) == FamilyRoot(m)
    requires HasPrice(index, tier, Plain(FamilyRoot(m).value))
    ensures OwnRate(index, tier, Plain(m)) == OwnRate(index, tier, Plain(x))
    ensures EvenPrices(index, tier, u) ==> MeterRate(index, tier, u, m) == MeterRate(index, tier, u, x)
  {
    hide ComponentForMeter, MeterRate, FamilyRoot, NoSubMeterPrice, Family;
    RootIsTotal(m);
    InFamilyIff(FamilyRoot(m).value, m);
    InFamilyIff(FamilyRoot(m).value, x);
    ResolvesToRoot(index, tier, m);
    ResolvesToRoot(index, tier, x);
  }

  // ----- an example

  const PRIORITY_INPUT := Code(InputTokens, [Priority])
  const PRIORITY_FLEX_INPUT := Code(InputTokens, [Priority, Flex])

  /** Input tokens at one each, priority input tokens at two. */
  function PriorityList(): seq<Component> {
    [Component(Plain(InputTokens), "token", 1.0, [], None), Component(PRIORITY_INPUT, "token", 2.0, [], None)]
  }

  function PriorityIndex(): Index {
    map[Plain(InputTokens) := PriorityList()[0], PRIORITY_INPUT := PriorityList()[1]]
  }

  function UncleanKeys(): Usage { map[PRIORITY_INPUT := 5.0, PRIORITY_FLEX_INPUT := 1.0] }

  lemma SuffixedValid()
    ensures ValidCode(PRIORITY_INPUT) && ValidCode(PRIORITY_FLEX_INPUT)
  {
    assert [Priority, Flex][..1] == [Priority] && [Priority][..0] == [];
    assert Text(PRIORITY_INPUT) == Text(Plain(InputTokens)) + "_priority";
    assert Text(PRIORITY_FLEX_INPUT) == Text(PRIORITY_INPUT) + "_flex";
  }

  lemma ExampleIndexed()
    ensures IndexComponents(PriorityList()) == Ok(PriorityIndex())
    ensures Flat(PriorityIndex()) && GridPrices(PriorityIndex())
    ensures NoSubMeterPrice(PriorityIndex(), None) && !HasComponentForTier(PriorityList(), Requests, None)
  {
    SuffixedValid();
    NamedCodes(InputTokens);
    WholeOnGrid(1);
    WholeOnGrid(2);
    hide ValidCode, OnGrid;
    var cs, first := PriorityList(), map[Plain(InputTokens) := PriorityList()[0]];
    assert cs[1..] == [cs[1]] && cs[1..][1..] == [];
    assert IndexFrom(cs[1..], first) == Ok(first[PRIORITY_INPUT := cs[1]]);
    assert first[PRIORITY_INPUT := cs[1]] == PriorityIndex();
  }

  lemma UncleanKeysAccepted()
    ensures UsageAccepted(UncleanKeys()) && NoFamilyEntry(UncleanKeys())
  {
    SuffixedValid();
    WholeAccepted(5);
    WholeAccepted(1);
    hide ValidCode, DecimalAccepted, FamilyRoot;
  }

  lemma UncleanKeysCharged()
    ensures UsageAccepted(UncleanKeys()) && NoFamilyEntry(UncleanKeys())
    ensures ChargedUsage(PriorityList(), UncleanKeys(), None) == UncleanKeys() && Tidy(UncleanKeys())
  {
    hide UsageAccepted, HasComponentForTier, PriorityList, Normalized, Sound, Disjoint, NoFamilyEntry, Flat, GridPrices,
         NoSubMeterPrice, IndexComponents, ChargedUsage, PriorityIndex, UncleanKeys, AddImplicitRequestMetric;
    UncleanKeysAccepted();
    ExampleIndexed();
    NothingImplicit(PriorityList(), UncleanKeys(), None);
    RestCharged(PriorityList(), UncleanKeys(), None);
  }

  lemma UncleanKeysBilled()
    ensures BillableCodes(UncleanKeys()) == {PRIORITY_INPUT}
  {
    hide BillableCodes, EffectiveQuantity;
    NothingPlain(UncleanKeys(), InputTokens);
    SelectedAlone(UncleanKeys(), InputTokens, 5.0, 1.0);
  }

  lemma ExampleRates()
    ensures HasPrice(PriorityIndex(), None, PRIORITY_INPUT) && Rate(PriorityIndex(), None, PRIORITY_INPUT) == 2.0
    ensures HasPrice(PriorityIndex(), None, Plain(InputTokens)) && Rate(PriorityIndex(), None, Plain(InputTokens)) == 1.0
    ensures HasPrice(PriorityIndex(), None, Plain(CachedInputTokens)) && Rate(PriorityIndex(), None, Plain(CachedInputTokens)) == 1.0
  {
    NoOwnPrice(PriorityIndex(), Plain(CachedInputTokens), None);
  }

  lemma ExampleMeterRates()
    ensures MeterRate(PriorityIndex(), None, UncleanKeys(), InputTokens) == 3.0
    ensures MeterRate(PriorityIndex(), None, UncleanKeys(), CachedInputTokens) == 1.0
    ensures !OthersUnpriced(PriorityIndex(), None, UncleanKeys())
  {
    UncleanKeysBilled();
    ExampleRates();
    DoubleSuffixBase(InputTokens);
    hide ComponentBaseCode, BillableCodes, UsageAccepted, ChargedUsage, Tidy, UncleanKeys, PriorityIndex, ComponentForMeter;
    var again := AgainRates(PriorityIndex(), None, UncleanKeys(), InputTokens);
    assert again == map[PRIORITY_INPUT := 2.0];
    OnlyKey(again, PRIORITY_INPUT);
    assert AgainRates(PriorityIndex(), None, UncleanKeys(), CachedInputTokens) == map[];
  }

  lemma NothingUnrelated(m: Meter)
    requires FamilyRoot(m).Some?
    ensures Unrelated(LineAmounts(PriorityIndex(), None, UnitOf(UncleanKeys(), m))) == map[]
  {
    hide FamilyRoot, UnitOf, LineAmounts, PriorityIndex, ComponentBaseCode, BillableCodes, EffectiveQuantity, Tidy, SameOutside;
    UncleanKeysCharged();
    UncleanKeysBilled();
    UnitTidy(UncleanKeys(), m);
    UnitOutside(UncleanKeys(), m);
    AmountCodes(PriorityIndex(), None, UnitOf(UncleanKeys(), m));
    DoubleSuffixBase(InputTokens);
    FamilyRootOfInput();
    forall b | b in BillableCodes(UnitOf(UncleanKeys(), m))
      ensures InAFamily(ComponentBaseCode(b))
    {
      if InAFamily(b) {
        PlainBase(b);
      } else {
        SameOthersBilled(UncleanKeys(), UnitOf(UncleanKeys(), m), b);
      }
    }
  }

  lemma FamilyRootOfInput()
    ensures FamilyRoot(InputTokens) == Some(InputTokens) && FamilyRoot(CachedInputTokens) == Some(InputTokens)
  {
  }

  lemma NothingAtAll()
    ensures MapSum<Code>(map[]) == 0.0
  {
  }

  lemma ExampleAmount(m: Meter)
    requires m == InputTokens || m == CachedInputTokens
    ensures ChargeNormalized(PriorityIndex(), UnitOf(UncleanKeys(), m), 0.0, None) == Ok(if m == InputTokens then 3.0 else 1.0)
  {
    hide FamilyRoot, UnitOf, LineAmounts, PriorityIndex, PriorityList, UncleanKeys, UsageAccepted, NoFamilyEntry, IndexComponents, Flat,
         GridPrices, ChargeNormalized, MeterRate, HasPrice, Disjoint, Sound, OthersUnpriced, Unrelated, ChargedUsage, OnGrid,
         Round30, Rate, NoSubMeterPrice, HasComponentForTier, BillableCodes, MapSum;
    FamilyRootOfInput();
    ExampleIndexed();
    UncleanKeysCharged();
    ExampleRates();
    ExampleMeterRates();
    UnitSame(PriorityIndex(), None, UncleanKeys(), m);
    UnitCharge(PriorityIndex(), None, UncleanKeys(), m);
    NothingUnrelated(m);
    NothingAtAll();
    MeterRateOnGrid(PriorityIndex(), None, UncleanKeys(), m);
    PrintsExactlyIff(MeterRate(PriorityIndex(), None, UncleanKeys(), m));
  }

  lemma ExampleCharge(m: Meter)
    requires m == InputTokens || m == CachedInputTokens
    ensures Charge(PriorityList(), UnitOf(UncleanKeys(), m), 0.0, None) == Ok(if m == InputTokens then 3.0 else 1.0)
  {
    hide FamilyRoot, UnitOf, PriorityIndex, PriorityList, UncleanKeys, UsageAccepted, NoFamilyEntry, IndexComponents, Flat,
         GridPrices, Charge, ChargeNormalized, Tidy, ChargedUsage, NoSubMeterPrice, HasComponentForTier, BillableCodes;
    FamilyRootOfInput();
    ExampleIndexed();
    UncleanKeysCharged();
    UnitCharged(PriorityList(), UncleanKeys(), m, None);
    ExampleAmount(m);
  }

  /** One input token beside the two suffixed entries costs three; the same token reported as cached,
      at the same price, costs one. */
  lemma {:induction false} UncleanExample()
    ensures var u := UncleanKeys()[Plain(InputTokens) := 1.0];
      var v := u[Plain(CachedInputTokens) := 1.0];
      && UsageAccepted(u) && UsageAccepted(v) && SameReport(u, v)
      && Charge(PriorityList(), u, 0.0, None) == Ok(3.0) && Charge(PriorityList(), v, 0.0, None) == Ok(1.0)
  {
    hide UsageAccepted, Charge, SameReport, PriorityList, ChargedUsage, Tidy, BillableCodes, UncleanKeys, NoFamilyEntry;
    UncleanKeysCharged();
    FamilyRootOfInput();
    UnitReported(UncleanKeys(), InputTokens);
    UnitReported(UncleanKeys(), CachedInputTokens);
    UnitsSameReport(UncleanKeys(), InputTokens, CachedInputTokens);
    ExampleCharge(InputTokens);
    ExampleCharge(CachedInputTokens);
    ExampleUnits();
  }

  lemma ExampleUnits()
    ensures var u := UncleanKeys()[Plain(InputTokens) := 1.0];
      && UnitOf(UncleanKeys(), InputTokens) == u
      && UnitOf(UncleanKeys(), CachedInputTokens) == u[Plain(CachedInputTokens) := 1.0]
  {
    assert Path(InputTokens) == [InputTokens] && Path(CachedInputTokens) == [CachedInputTokens] + Path(InputTokens);
    hide UncleanKeys, Holder;
    assert PathCodes(InputTokens) == {Plain(InputTokens)};
    assert PathCodes(CachedInputTokens) == {Plain(CachedInputTokens), Plain(InputTokens)};
    hide Path, PathCodes;
  }
}
