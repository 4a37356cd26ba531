/** Flat prices: what a meter costs with everything that is billed for it, and when breaking a total
    down changes the charge. */
module Surcharges {
  import opened Results
  import opened Rounding
  import opened Sums
  import opened Meters
  import opened Metering
  import opened MeteringLaws
  import opened Charging
  import opened ChargeLaws
  import opened LineLaws
  import opened FlatPrices

  // ----- amounts by the meter whose quantity they charge

  function CarriedBy(amounts: map<Code, real>, m: Meter): map<Code, real> {
    map b | b in amounts && ComponentBaseCode(b) == Plain(m) :: amounts[b]
  }

  function CarriedElsewhere(amounts: map<Code, real>, ms: seq<Meter>): map<Code, real> {
    map b | b in amounts && !InFamily(ComponentBaseCode(b), ms) :: amounts[b]
  }

  ghost function CarriedSums(amounts: map<Code, real>): Meter -> real {
    m => MapSum(CarriedBy(amounts, m))
  }

  lemma {:induction false} Grouped(amounts: map<Code, real>, ms: seq<Meter>)
    requires Distinct(ms)
    ensures MapSum(amounts) == SumBy(ms, CarriedSums(amounts)) + MapSum(CarriedElsewhere(amounts, ms))
  {
    hide ComponentBaseCode, MapSum;
    if ms == [] {
      assert CarriedElsewhere(amounts, ms) == amounts;
    } else {
      var m, rest := ms[0], ms[1..];
      assert m !in rest;
      Grouped(amounts, rest);
      TakeGroup(amounts, ms);
    }
  }

  lemma TakeGroup(amounts: map<Code, real>, ms: seq<Meter>)
    requires ms != [] && ms[0] !in ms[1..]
    ensures MapSum(CarriedElsewhere(amounts, ms[1..])) ==
            MapSum(CarriedBy(amounts, ms[0])) + MapSum(CarriedElsewhere(amounts, ms))
  {
    hide ComponentBaseCode, MapSum;
    var others := CarriedElsewhere(amounts, ms[1..]);
    var p := (b: Code) => ComponentBaseCode(b) == Plain(ms[0]);
    var q := (b: Code) => ComponentBaseCode(b) != Plain(ms[0]);
    SplitWhere(others, p, q);
    assert Where(others, p) == CarriedBy(amounts, ms[0]);
    assert Where(others, q) == CarriedElsewhere(amounts, ms);
  }

  /** The amounts for quantities of meters outside both families. */
  function Unrelated(amounts: map<Code, real>): map<Code, real> {
    map b | b in amounts && !InAFamily(ComponentBaseCode(b)) :: amounts[b]
  }

  lemma TotalByMeters(amounts: map<Code, real>)
    ensures MapSum(amounts) == SumBy(Family(InputTokens), CarriedSums(amounts))
                             + SumBy(Family(OutputTokens), CarriedSums(amounts)) + MapSum(Unrelated(amounts))
  {
    hide ComponentBaseCode, MapSum, Family, SumBy, CarriedSums, Distinct;
    var ms := Family(InputTokens) + Family(OutputTokens);
    FamiliesDistinct();
    Grouped(amounts, ms);
    SumByAppend(Family(InputTokens), Family(OutputTokens), CarriedSums(amounts));
    forall c: Code
      ensures InFamily(c, ms) <==> InAFamily(c)
    {
      InFamilyIff(InputTokens, c.stem);
      InFamilyIff(OutputTokens, c.stem);
      RootIsTotal(c.stem);
    }
    assert CarriedElsewhere(amounts, ms) == Unrelated(amounts);
  }

  // ----- rates

  function OwnRate(index: Index, tier: Option<Tier>, c: Code): real {
    if HasPrice(index, tier, c) then Rate(index, tier, c) else 0.0
  }

  /** The rates at which suffixed codes bill the quantity of a meter again. */
  function AgainRates(index: Index, tier: Option<Tier>, u: Usage, m: Meter): map<Code, real> {
    map b | b in BillableCodes(u) && b.suffixes != [] && ComponentBaseCode(b) == Plain(m) :: OwnRate(index, tier, b)
  }

  /** What one unit of a meter costs: its own rate and those at which it is billed again. */
  ghost function MeterRate(index: Index, tier: Option<Tier>, u: Usage, m: Meter): real {
    OwnRate(index, tier, Plain(m)) + MapSum(AgainRates(index, tier, u, m))
  }

  lemma CarriedRates(index: Index, tier: Option<Tier>, u: Usage, m: Meter, rates: map<Code, real>)
    requires Tidy(u) && EffectiveQuantity(Plain(m), u) > 0.0
    requires rates == map b | b in BillableCodes(u) && ComponentBaseCode(b) == Plain(m) :: OwnRate(index, tier, b)
    ensures MapSum(rates) == MeterRate(index, tier, u, m)
  {
    hide ComponentBaseCode, MapSum, OwnRate, BillableCodes, EffectiveQuantity, Disjoint, OnGrid;
    BillablePlain(u);
    PlainBase(Plain(m));
    TakeKey(rates, Plain(m));
    assert rates - {Plain(m)} == AgainRates(index, tier, u, m) by { OnlyPlainBase(m); }
  }

  lemma OnlyPlainBase(m: Meter)
    ensures forall b: Code :: ComponentBaseCode(b) == Plain(m) && b.suffixes == [] ==> b == Plain(m)
  {
    forall b: Code | b.suffixes == []
      ensures ComponentBaseCode(b) == b
    {
      PlainBase(b);
    }
  }

  lemma CarriedAmounts(index: Index, tier: Option<Tier>, u: Usage, m: Meter)
    requires Flat(index) && Tidy(u) && !Unpriced(index, u, tier)
    ensures MapSum(CarriedBy(LineAmounts(index, tier, u), m)) ==
      Cost(MeterRate(index, tier, u, m), EffectiveQuantity(Plain(m), u))
  {
    hide ComponentBaseCode, MapSum, OwnRate, BillableCodes, EffectiveQuantity, Tidy, MeterRate, Cost, LineFor, LineAmounts, Rate;
    var amounts := CarriedBy(LineAmounts(index, tier, u), m);
    var rates := map b | b in BillableCodes(u) && ComponentBaseCode(b) == Plain(m) :: OwnRate(index, tier, b);
    var e := EffectiveQuantity(Plain(m), u);
    forall b | b in BillableCodes(u)
      ensures b in LineAmounts(index, tier, u)
      ensures ComponentBaseCode(b) == Plain(m) ==> LineAmounts(index, tier, u)[b] == Cost(OwnRate(index, tier, b), e)
    {
      BillableAmount(index, tier, u, b);
    }
    AmountCodes(index, tier, u);
    assert amounts.Keys == rates.Keys;
    ScaledMap(amounts, rates, e);
    EffectiveNonNegative(Plain(m), u);
    if e > 0.0 {
      CarriedRates(index, tier, u, m, rates);
    } else {
      CostSum(MapSum(rates), 0.0, 0.0);
      CostSum(MeterRate(index, tier, u, m), 0.0, 0.0);
    }
  }

  lemma BillableAmount(index: Index, tier: Option<Tier>, u: Usage, b: Code)
    requires Flat(index) && !Unpriced(index, u, tier) && b in BillableCodes(u)
    ensures b in LineAmounts(index, tier, u) && HasPrice(index, tier, b)
    ensures LineAmounts(index, tier, u)[b] == Cost(OwnRate(index, tier, b), EffectiveQuantity(ComponentBaseCode(b), u))
  {
    hide ComponentBaseCode, BillableCodes, EffectiveQuantity, Cost, LineFor, Rate, ComponentForMeter, Flat;
    FlatLine(index, tier, u, b);
  }

  ghost function MeterCost(index: Index, tier: Option<Tier>, u: Usage): Meter -> real {
    m => Cost(MeterRate(index, tier, u, m), EffectiveQuantity(Plain(m), u))
  }

  /** A flat charge before rounding: every meter's quantity at the full rate of the meter, and the
      amounts for unrelated quantities. */
  lemma {:induction false} FlatTotal(index: Index, tier: Option<Tier>, u: Usage)
    requires Flat(index) && Tidy(u) && !Unpriced(index, u, tier)
    ensures MapSum(LineAmounts(index, tier, u)) ==
      SumBy(Family(InputTokens), MeterCost(index, tier, u)) + SumBy(Family(OutputTokens), MeterCost(index, tier, u))
      + MapSum(Unrelated(LineAmounts(index, tier, u)))
  {
    hide MapSum, EffectiveQuantity, Tidy, MeterRate, Cost, LineAmounts, Family, Unpriced, Flat, CarriedBy, Unrelated;
    TotalByMeters(LineAmounts(index, tier, u));
    forall m
      ensures CarriedSums(LineAmounts(index, tier, u))(m) == MeterCost(index, tier, u)(m)
    {
      CarriedAmounts(index, tier, u, m);
    }
    SumByAgree(Family(InputTokens), CarriedSums(LineAmounts(index, tier, u)), MeterCost(index, tier, u));
    SumByAgree(Family(OutputTokens), CarriedSums(LineAmounts(index, tier, u)), MeterCost(index, tier, u));
  }

  // ----- even prices

  /** Either no member of the family has a price or all of them cost the same. */
  ghost predicate EvenFamily(index: Index, tier: Option<Tier>, u: Usage, root: Meter) {
    forall m :: m in Family(root) ==>
      && HasPrice(index, tier, Plain(m)) == HasPrice(index, tier, Plain(root))
      && (HasPrice(index, tier, Plain(root)) ==>
            MeterRate(index, tier, u, m) == MeterRate(index, tier, u, root))
  }

  ghost predicate EvenPrices(index: Index, tier: Option<Tier>, u: Usage) {
    EvenFamily(index, tier, u, InputTokens) && EvenFamily(index, tier, u, OutputTokens)
  }

  /** Something outside the families, or under a suffixed code, is billable without a price. */
  ghost predicate OthersUnpriced(index: Index, tier: Option<Tier>, u: Usage) {
    exists c :: c in BillableCodes(u) && !InAFamily(c) && !HasPrice(index, tier, c)
  }

  ghost predicate SameOutside(u: Usage, v: Usage) {
    forall c :: !InAFamily(c) ==> (c in u <==> c in v) && Quantity(u, c) == Quantity(v, c)
  }

  /** Equal totals and equal unrelated meters, however the totals are itemized. */
  ghost predicate SameTotals(u: Usage, v: Usage) {
    && Quantity(u, Plain(InputTokens)) == Quantity(v, Plain(InputTokens))
    && Quantity(u, Plain(OutputTokens)) == Quantity(v, Plain(OutputTokens))
    && SameOutside(u, v)
  }

  /** Unrelated codes are billed in both maps or in neither. */
  lemma SameOthersBilled(u: Usage, v: Usage, c: Code)
    requires Tidy(u) && Tidy(v) && SameOutside(u, v) && !InAFamily(c)
    ensures c in BillableCodes(u) <==> c in BillableCodes(v)
  {
    hide Disjoint, OnGrid, EffectiveQuantity, BillableCodes, Quantity, ComponentBaseCode, FamilyRoot;
    OtherEffective(u, c);
    OtherEffective(v, c);
    BillablePlain(u);
    BillablePlain(v);
    BillableIff(u, c);
    BillableIff(v, c);
    if c.suffixes != [] {
      forall k | ComponentBaseCode(k) == c
        ensures !InAFamily(k)
      {
        if k.suffixes == [] { PlainBase(k); }
      }
    }
  }

  lemma SameRates(index: Index, tier: Option<Tier>, u: Usage, v: Usage)
    requires Tidy(u) && Tidy(v) && SameOutside(u, v)
    ensures OthersUnpriced(index, tier, u) <==> OthersUnpriced(index, tier, v)
    ensures forall m :: MeterRate(index, tier, u, m) == MeterRate(index, tier, v, m)
    ensures EvenPrices(index, tier, u) <==> EvenPrices(index, tier, v)
  {
    hide Tidy, SameOutside, BillableCodes, ComponentBaseCode, OwnRate, HasPrice, Family, MapSum, FamilyRoot;
    forall c | !InAFamily(c)
      ensures c in BillableCodes(u) <==> c in BillableCodes(v)
    {
      SameOthersBilled(u, v, c);
    }
    forall m
      ensures MeterRate(index, tier, u, m) == MeterRate(index, tier, v, m)
    {
      assert AgainRates(index, tier, u, m) == AgainRates(index, tier, v, m);
    }
  }

  lemma SameUnrelated(index: Index, tier: Option<Tier>, u: Usage, v: Usage)
    requires Tidy(u) && Tidy(v) && SameOutside(u, v) && Flat(index)
    requires !Unpriced(index, u, tier) && !Unpriced(index, v, tier)
    ensures Unrelated(LineAmounts(index, tier, u)) == Unrelated(LineAmounts(index, tier, v))
  {
    hide Family, Tidy, EffectiveQuantity, BillableCodes, Quantity, Cost, LineFor, LineAmounts, ComponentBaseCode, FamilyRoot,
         OwnRate, Flat, Unpriced, HasPrice;
    AmountCodes(index, tier, u);
    AmountCodes(index, tier, v);
    forall b | !InAFamily(ComponentBaseCode(b))
      ensures b in LineAmounts(index, tier, u) <==> b in LineAmounts(index, tier, v)
      ensures b in LineAmounts(index, tier, u) ==> LineAmounts(index, tier, u)[b] == LineAmounts(index, tier, v)[b]
    {
      if b.suffixes == [] { PlainBase(b); }
      SameOthersBilled(u, v, b);
      OtherEffective(u, ComponentBaseCode(b));
      OtherEffective(v, ComponentBaseCode(b));
      if b in BillableCodes(u) {
        BillableAmount(index, tier, u, b);
        BillableAmount(index, tier, v, b);
      }
    }
  }

  // ----- when something lacks a price

  lemma EvenFamilyBillable(index: Index, tier: Option<Tier>, u: Usage, root: Meter)
    requires EvenFamily(index, tier, u, root) && Tidy(u)
    ensures (exists m :: m in Family(root) && Billed(u)(m) > 0.0 && !HasPrice(index, tier, Plain(m))) <==>
      Quantity(u, Plain(root)) > 0.0 && !HasPrice(index, tier, Plain(root))
  {
    hide HasPrice, Family, Disjoint, OnGrid, EffectiveQuantity, Quantity, MeterRate;
    FamilyConserved(u, root);
    if m :| m in Family(root) && Billed(u)(m) > 0.0 && !HasPrice(index, tier, Plain(m)) {
      MemberBound(Family(root), Billed(u), m);
    }
    if Quantity(u, Plain(root)) > 0.0 {
      PositiveMember(Family(root), Billed(u));
    }
  }

  /** A total is positive without a price, or something else lacks one. */
  ghost predicate UnpricedTotals(index: Index, tier: Option<Tier>, u: Usage) {
    || (Quantity(u, Plain(InputTokens)) > 0.0 && !HasPrice(index, tier, Plain(InputTokens)))
    || (Quantity(u, Plain(OutputTokens)) > 0.0 && !HasPrice(index, tier, Plain(OutputTokens)))
    || OthersUnpriced(index, tier, u)
  }

  lemma UnpricedByTotals(index: Index, tier: Option<Tier>, u: Usage)
    requires EvenPrices(index, tier, u) && Tidy(u)
    ensures Unpriced(index, u, tier) <==> UnpricedTotals(index, tier, u)
  {
    hide HasPrice, Family, Disjoint, OnGrid, EffectiveQuantity, EvenFamily, BillableCodes, Quantity, InAFamily;
    BillablePlain(u);
    EvenFamilyBillable(index, tier, u, InputTokens);
    EvenFamilyBillable(index, tier, u, OutputTokens);
    hide Tidy;
    forall b | b in BillableCodes(u) && InAFamily(b)
      ensures b == Plain(b.stem) && Billed(u)(b.stem) > 0.0
      ensures b.stem in Family(InputTokens) || b.stem in Family(OutputTokens)
    {
      FamilyMember(b);
    }
    forall m | Billed(u)(m) > 0.0
      ensures Plain(m) in BillableCodes(u)
    {
    }
    UnpricedMeans(index, tier, u);
    hide Billed, Unpriced;
  }

  lemma UnpricedMeans(index: Index, tier: Option<Tier>, u: Usage)
    ensures Unpriced(index, u, tier) <==> exists b :: b in BillableCodes(u) && !HasPrice(index, tier, b)
  {
    hide ComponentForMeter, BillableCodes;
  }

  lemma FamilyMember(c: Code)
    requires InAFamily(c)
    ensures c == Plain(c.stem) && (c.stem in Family(InputTokens) || c.stem in Family(OutputTokens))
  {
    hide Family, FamilyRoot;
    RootIsTotal(c.stem);
    InFamilyIff(FamilyRoot(c.stem).value, c.stem);
  }

  // ----- even prices make itemization free

  lemma NothingBilled(u: Usage, root: Meter, m: Meter)
    requires Tidy(u) && m in Family(root) && Quantity(u, Plain(root)) == 0.0
    ensures EffectiveQuantity(Plain(m), u) == 0.0
  {
    hide Family, Disjoint, OnGrid, EffectiveQuantity, Quantity, SumBy;
    FamilyConserved(u, root);
    MemberBound(Family(root), Billed(u), m);
  }

  lemma EvenMember(index: Index, tier: Option<Tier>, u: Usage, root: Meter, m: Meter)
    requires EvenFamily(index, tier, u, root) && Tidy(u) && m in Family(root)
    requires HasPrice(index, tier, Plain(root)) || Quantity(u, Plain(root)) == 0.0
    ensures MeterCost(index, tier, u)(m) == Cost(MeterRate(index, tier, u, root), Billed(u)(m))
  {
    hide HasPrice, Family, Tidy, EffectiveQuantity, Quantity, MeterRate, Cost;
    if !HasPrice(index, tier, Plain(root)) {
      NothingBilled(u, root, m);
      CostSum(MeterRate(index, tier, u, root), 0.0, 0.0);
      CostSum(MeterRate(index, tier, u, m), 0.0, 0.0);
    }
  }

  lemma EvenShare(index: Index, tier: Option<Tier>, u: Usage, root: Meter)
    requires EvenFamily(index, tier, u, root) && Tidy(u)
    requires HasPrice(index, tier, Plain(root)) || Quantity(u, Plain(root)) == 0.0
    ensures SumBy(Family(root), MeterCost(index, tier, u)) ==
      Cost(MeterRate(index, tier, u, root), Quantity(u, Plain(root)))
  {
    hide HasPrice, Family, EffectiveQuantity, Quantity, MeterRate, Cost, SumBy, Tidy, MeterCost, Billed, EvenFamily;
    forall m | m in Family(root)
      ensures MeterCost(index, tier, u)(m) == Cost(MeterRate(index, tier, u, root), Billed(u)(m))
    {
      EvenMember(index, tier, u, root, m);
    }
    SumByScaled(Family(root), MeterCost(index, tier, u), Billed(u), MeterRate(index, tier, u, root));
    TotalBilled(u, root);
  }

  lemma TotalBilled(u: Usage, root: Meter)
    requires Tidy(u)
    ensures SumBy(Family(root), Billed(u)) == Quantity(u, Plain(root))
  {
    hide Family, Disjoint, OnGrid, EffectiveQuantity, Quantity;
    FamilyConserved(u, root);
  }

  lemma EvenTotal(index: Index, tier: Option<Tier>, u: Usage)
    requires Flat(index) && EvenPrices(index, tier, u) && Tidy(u) && !Unpriced(index, u, tier)
    ensures MapSum(LineAmounts(index, tier, u)) ==
      Cost(MeterRate(index, tier, u, InputTokens), Quantity(u, Plain(InputTokens)))
      + Cost(MeterRate(index, tier, u, OutputTokens), Quantity(u, Plain(OutputTokens)))
      + MapSum(Unrelated(LineAmounts(index, tier, u)))
  {
    hide Flat, EvenFamily, Unpriced, HasPrice, Tidy, MapSum, LineAmounts, Quantity, MeterRate, Cost, Unrelated, Family, SumBy,
         MeterCost, OthersUnpriced;
    UnpricedByTotals(index, tier, u);
    NoNegativeQuantity(u, Plain(InputTokens));
    NoNegativeQuantity(u, Plain(OutputTokens));
    FlatTotal(index, tier, u);
    EvenShare(index, tier, u, InputTokens);
    EvenShare(index, tier, u, OutputTokens);
  }

  /** With even prices the charge depends on the family totals and the unrelated meters alone; it does
      so too when something unrelated lacks a price. */
  lemma {:induction false} NeutralCharge(index: Index, u: Usage, v: Usage, minimum: real, tier: Option<Tier>)
    requires Flat(index) && (EvenPrices(index, tier, u) || OthersUnpriced(index, tier, u))
    requires Tidy(u) && Tidy(v) && SameTotals(u, v)
    ensures ChargeNormalized(index, u, minimum, tier) == ChargeNormalized(index, v, minimum, tier)
  {
    hide SameOutside, ChargeNormalized, Unpriced, LineAmounts, Unrelated, Flat, Tidy, MapSum, HasPrice, OthersUnpriced, EvenPrices,
         InAFamily, Round30, Quantity, MeterRate, Cost;
    SameRates(index, tier, u, v);
    FlatCharge(index, u, minimum, tier);
    FlatCharge(index, v, minimum, tier);
    if OthersUnpriced(index, tier, u) {
      OthersCount(index, tier, u);
      OthersCount(index, tier, v);
    } else {
      UnpricedByTotals(index, tier, u);
      UnpricedByTotals(index, tier, v);
      if !Unpriced(index, u, tier) {
        SameUnrelated(index, tier, u, v);
        EvenTotal(index, tier, u);
        EvenTotal(index, tier, v);
      }
    }
  }

  lemma OthersCount(index: Index, tier: Option<Tier>, u: Usage)
    requires OthersUnpriced(index, tier, u)
    ensures Unpriced(index, u, tier)
  {
    hide ComponentForMeter, BillableCodes;
  }

  // ----- what suffices for even prices

  /** No sub-meter has a price of its own, so each resolves to its family's total. */
  ghost predicate NoSubMeterPrice(index: Index, tier: Option<Tier>) {
    forall m :: InAFamily(Plain(m)) && m != InputTokens && m != OutputTokens ==>
      OwnPrice(index, Plain(m), tier).None?
  }

  lemma {:induction false} InheritsRoot(index: Index, tier: Option<Tier>, root: Meter, m: Meter)
    requires NoSubMeterPrice(index, tier) && (root == InputTokens || root == OutputTokens) && m in Family(root)
    ensures ComponentForMeter(index, Plain(m), tier) == ComponentForMeter(index, Plain(root), tier)
  {
    hide Family, FamilyRoot, ComponentForMeter, NoSubMeterPrice;
    InFamilyIff(root, m);
    ResolvesToRoot(index, tier, m);
  }

  lemma {:induction false} ResolvesToRoot(index: Index, tier: Option<Tier>, m: Meter)
    requires NoSubMeterPrice(index, tier) && FamilyRoot(m).Some?
    ensures ComponentForMeter(index, Plain(m), tier) == ComponentForMeter(index, Plain(FamilyRoot(m).value), tier)
    decreases PriceRank(m)
  {
    hide FamilyRoot, ComponentForMeter, OwnPrice, PriceParent, PriceRank;
    if m != FamilyRoot(m).value {
      PriceParentInFamily(m);
      NoOwnPrice(index, Plain(m), tier);
      assert InAFamily(Plain(m));
      ResolvesToRoot(index, tier, PriceParent(Plain(m)).value);
    }
  }

  /** Prices are even when no sub-meter has its own price and no key leads to a second line. */
  lemma {:induction false} CleanIsEven(index: Index, tier: Option<Tier>, u: Usage)
    requires NoSubMeterPrice(index, tier) && StripsClean(u)
    ensures EvenPrices(index, tier, u)
  {
    hide NoSubMeterPrice, StripsClean, Family, MapSum, ComponentForMeter, ComponentBaseCode, BillableCodes;
    OwnQuantitiesIff(u);
    forall b | b in BillableCodes(u)
      ensures b.suffixes == []
    {
      PlainOrStripped(b);
    }
    assert forall m :: AgainRates(index, tier, u, m) == map[];
    forall root, m | (root == InputTokens || root == OutputTokens) && m in Family(root)
      ensures ComponentForMeter(index, Plain(m), tier) == ComponentForMeter(index, Plain(root), tier)
    {
      InheritsRoot(index, tier, root, m);
    }
  }
}
