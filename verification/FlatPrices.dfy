/** Flat prices: how a charge depends on the way a total is broken down. */
module FlatPrices {
  import opened Results
  import opened Rounding
  import opened Sums
  import opened Meters
  import opened Metering
  import opened MeteringLaws
  import opened Charging
  import opened ChargeLaws

  /** No tiers, no negative prices. */
  ghost predicate Flat(index: Index) {
    forall c :: c in index ==> index[c].tiers == [] && index[c].price >= 0.0
  }

  /** A usage map as normalization leaves it. */
  ghost predicate Tidy(u: Usage) {
    Sound(u) && Disjoint(u)
  }

  predicate HasPrice(index: Index, tier: Option<Tier>, c: Code) {
    ComponentForMeter(index, c, tier).Some?
  }

  function Rate(index: Index, tier: Option<Tier>, c: Code): real
    requires HasPrice(index, tier, c)
  {
    ComponentForMeter(index, c, tier).value.price
  }

  lemma {:induction false} ResolvedFromIndex(index: Index, c: Code, tier: Option<Tier>)
    requires HasPrice(index, tier, c)
    ensures exists k :: k in index && index[k] == ComponentForMeter(index, c, tier).value
    decreases PriceRank(c.stem)
  {
    NoOwnPrice(index, c, tier);
    if OwnPrice(index, c, tier).None? {
      assert PriceParent(c).Some?;
      ResolvedFromIndex(index, Plain(PriceParent(c).value), tier);
    } else {
      hide ComponentForMeter, PriceParent;
      assert exists k :: k in index && index[k] == OwnPrice(index, c, tier).value;
    }
  }

  lemma FlatLine(index: Index, tier: Option<Tier>, u: Usage, c: Code)
    requires Flat(index) && HasPrice(index, tier, c)
    ensures Rate(index, tier, c) >= 0.0
    ensures LineFor(index, tier, u, c).Ok?
    ensures LineFor(index, tier, u, c).value.amount == Cost(Rate(index, tier, c), ChargedQuantity(c, u))
  {
    ResolvedFromIndex(index, c, tier);
    hide ComponentForMeter, ChargedQuantity, Cost;
  }

  /** With flat prices a charge fails only for want of a price or for a negative minimum. */
  lemma FlatCharge(index: Index, u: Usage, minimum: real, tier: Option<Tier>)
    requires Flat(index)
    ensures ChargeNormalized(index, u, minimum, tier) ==
      if Unpriced(index, u, tier) then Err(PriceNotConfigured)
      else if minimum < 0.0 then Err(InvalidMinimum)
      else Ok(Round30(Max(MapSum(LineAmounts(index, tier, u)), minimum)))
  {
    hide LineAmounts, Round30, LineFor, BillableCodes, ComponentForMeter;
    if !Unpriced(index, u, tier) {
      forall b | b in BillableCodes(u)
        ensures LineFor(index, tier, u, b).Ok?
      {
        FlatLine(index, tier, u, b);
      }
    }
  }

  // ----- what a family pays

  ghost function Paid(amounts: map<Code, real>): Meter -> real {
    m => At(amounts, Plain(m))
  }

  lemma PaidLaw(index: Index, tier: Option<Tier>, u: Usage, c: Code)
    requires Tidy(u) && Flat(index) && !Unpriced(index, u, tier) && c.suffixes == []
    ensures EffectiveQuantity(c, u) >= 0.0
    ensures EffectiveQuantity(c, u) > 0.0 ==> HasPrice(index, tier, c)
    ensures At(LineAmounts(index, tier, u), c) ==
      if HasPrice(index, tier, c) then Cost(Rate(index, tier, c), EffectiveQuantity(c, u)) else 0.0
  {
    PlainCharged(c, u);
    hide ComponentForMeter, EffectiveQuantity, ChargedQuantity, Cost, BillableCodes, LineFor, Disjoint, OnGrid;
    EffectiveExact(u, c);
    BillablePlain(u);
    if HasPrice(index, tier, c) {
      FlatLine(index, tier, u, c);
      CostSum(Rate(index, tier, c), 0.0, 0.0);
    }
  }

  /** A family pays its root's price on its total, at most (at least) when no member pays more
      (less) than the root. */
  lemma FamilyPays(index: Index, tier: Option<Tier>, u: Usage, root: Meter, p: real)
    requires Tidy(u) && Flat(index) && !Unpriced(index, u, tier)
    ensures (forall m :: m in Family(root) && HasPrice(index, tier, Plain(m)) ==> Rate(index, tier, Plain(m)) <= p) ==>
      SumBy(Family(root), Paid(LineAmounts(index, tier, u))) <= Cost(p, Quantity(u, Plain(root)))
    ensures (forall m :: m in Family(root) && HasPrice(index, tier, Plain(m)) ==> Rate(index, tier, Plain(m)) >= p) ==>
      SumBy(Family(root), Paid(LineAmounts(index, tier, u))) >= Cost(p, Quantity(u, Plain(root)))
  {
    hide ComponentForMeter, EffectiveQuantity, LineAmounts, Disjoint, OnGrid, Family, Unpriced, Flat, HasPrice, Rate, Cost,
         Quantity;
    var paid := Paid(LineAmounts(index, tier, u));
    forall m
      ensures HasPrice(index, tier, Plain(m)) && Rate(index, tier, Plain(m)) <= p ==> paid(m) <= Cost(p, Billed(u)(m))
      ensures HasPrice(index, tier, Plain(m)) && Rate(index, tier, Plain(m)) >= p ==> paid(m) >= Cost(p, Billed(u)(m))
      ensures !HasPrice(index, tier, Plain(m)) ==> paid(m) == 0.0 == Cost(p, Billed(u)(m))
    {
      MemberPays(index, tier, u, m, p);
    }
    SumByScaled(Family(root), paid, Billed(u), p);
    FamilyConserved(u, root);
  }

  lemma MemberPays(index: Index, tier: Option<Tier>, u: Usage, m: Meter, p: real)
    requires Tidy(u) && Flat(index) && !Unpriced(index, u, tier)
    ensures var paid, e := At(LineAmounts(index, tier, u), Plain(m)), EffectiveQuantity(Plain(m), u);
      && (HasPrice(index, tier, Plain(m)) && Rate(index, tier, Plain(m)) <= p ==> paid <= Cost(p, e))
      && (HasPrice(index, tier, Plain(m)) && Rate(index, tier, Plain(m)) >= p ==> paid >= Cost(p, e))
      && (!HasPrice(index, tier, Plain(m)) ==> paid == 0.0 == Cost(p, e))
  {
    hide ComponentForMeter, EffectiveQuantity, LineAmounts, Tidy, Unpriced, Flat, Rate, Cost;
    PaidLaw(index, tier, u, Plain(m));
    var e := EffectiveQuantity(Plain(m), u);
    if HasPrice(index, tier, Plain(m)) {
      var r := Rate(index, tier, Plain(m));
      if r <= p { CostOfDearer(r, p, e); }
      if r >= p { CostOfDearer(p, r, e); }
    } else {
      CostSum(p, 0.0, 0.0);
    }
  }

  // ----- splitting the total

  function Plains(ms: seq<Meter>): seq<Code> {
    if ms == [] then [] else [Plain(ms[0])] + Plains(ms[1..])
  }

  lemma {:induction false} PlainsLaw(ms: seq<Meter>, amounts: map<Code, real>)
    ensures |Plains(ms)| == |ms| && forall i :: 0 <= i < |ms| ==> Plains(ms)[i] == Plain(ms[i])
    ensures SumBy(Plains(ms), ValueOf(amounts)) == SumBy(ms, Paid(amounts))
  {
    if ms != [] {
      PlainsLaw(ms[1..], amounts);
      assert Plains(ms)[1..] == Plains(ms[1..]);
    }
  }

  /** The amounts of meters outside both families. */
  function Others(amounts: map<Code, real>): map<Code, real> {
    map c | c in amounts && !InAFamily(c) :: amounts[c]
  }

  lemma {:induction false} PlainsCover(ms: seq<Meter>, c: Code)
    ensures c in Plains(ms) <==> c.suffixes == [] && c.stem in ms
  {
    if ms != [] { PlainsCover(ms[1..], c); }
  }

  lemma PlainsDistinct(ms: seq<Meter>, amounts: map<Code, real>)
    requires Distinct(ms)
    ensures Distinct(Plains(ms))
  {
    hide SumBy, ValueOf, Paid, Plains;
    PlainsLaw(ms, amounts);
  }

  lemma TotalSplits(amounts: map<Code, real>)
    ensures MapSum(amounts) == SumBy(Family(InputTokens), Paid(amounts))
                             + SumBy(Family(OutputTokens), Paid(amounts)) + MapSum(Others(amounts))
  {
    hide Family, MapSum, SumBy, ValueOf, Paid, Plains, Distinct;
    var ms := Family(InputTokens) + Family(OutputTokens);
    FamiliesDistinct();
    PlainsLaw(ms, amounts);
    PlainsDistinct(ms, amounts);
    SplitAtList(amounts, Plains(ms));
    SumByAppend(Family(InputTokens), Family(OutputTokens), Paid(amounts));
    forall c
      ensures c in Plains(ms) <==> InAFamily(c)
    {
      PlainsCover(ms, c);
      InFamilyIff(InputTokens, c.stem);
      InFamilyIff(OutputTokens, c.stem);
      RootIsTotal(c.stem);
    }
    assert amounts - (set k | k in Plains(ms)) == Others(amounts);
  }

  // ----- codes outside the families

  lemma ParentsInFamily(m: Meter)
    ensures SubMeters(m) != [] ==> InAFamily(Plain(m))
  {
    hide Family;
    InputFamily();
    OutputFamily();
  }

  lemma OtherEffective(u: Usage, c: Code)
    requires !InAFamily(c)
    ensures EffectiveQuantity(c, u) == Quantity(u, c)
  {
    hide Family;
    if c.suffixes == [] {
      assert c == Plain(c.stem);
      ParentsInFamily(c.stem);
    }
  }

  // ----- sums over members

  lemma {:induction false} PositiveMember(ms: seq<Meter>, f: Meter -> real)
    requires SumBy(ms, f) > 0.0
    ensures exists m :: m in ms && f(m) > 0.0
  {
    if f(ms[0]) > 0.0 {
      assert ms[0] in ms;
    } else {
      PositiveMember(ms[1..], f);
    }
  }

  lemma {:induction false} MemberBound(ms: seq<Meter>, f: Meter -> real, m: Meter)
    requires m in ms && forall x :: x in ms ==> f(x) >= 0.0
    ensures f(m) <= SumBy(ms, f)
  {
    if ms[0] != m { MemberBound(ms[1..], f, m); } else { NonNegativeSum(ms[1..], f); }
  }

  lemma {:induction false} NonNegativeSum(ms: seq<Meter>, f: Meter -> real)
    requires forall x :: x in ms ==> f(x) >= 0.0
    ensures SumBy(ms, f) >= 0.0
  {
    if ms != [] { NonNegativeSum(ms[1..], f); }
  }

  // ----- a hold on the totals covers any itemization

  /** A sub-meter never costs more than the meter that contains it. */
  ghost predicate SubMetersNoDearer(index: Index, tier: Option<Tier>) {
    forall p, m :: m in SubMeters(p) && HasPrice(index, tier, Plain(m)) && HasPrice(index, tier, Plain(p)) ==>
      Rate(index, tier, Plain(m)) <= Rate(index, tier, Plain(p))
  }

  lemma {:induction false} FamilyPriced(index: Index, tier: Option<Tier>, root: Meter, m: Meter)
    requires (root == InputTokens || root == OutputTokens) && m in Family(root) && HasPrice(index, tier, Plain(root))
    ensures HasPrice(index, tier, Plain(m))
  {
    hide Family, FamilyRoot, HasPrice;
    InFamilyIff(root, m);
    PricedByRoot(index, tier, m);
  }

  lemma {:induction false} PricedByRoot(index: Index, tier: Option<Tier>, m: Meter)
    requires FamilyRoot(m).Some? && HasPrice(index, tier, Plain(FamilyRoot(m).value))
    ensures HasPrice(index, tier, Plain(m))
    decreases PriceRank(m)
  {
    hide FamilyRoot, ComponentForMeter, OwnPrice, PriceParent, PriceRank;
    if m != FamilyRoot(m).value {
      PriceParentInFamily(m);
      NoOwnPrice(index, Plain(m), tier);
      PricedByRoot(index, tier, PriceParent(Plain(m)).value);
    }
  }

  lemma RateBelowRoot(index: Index, tier: Option<Tier>, root: Meter, m: Meter)
    requires (root == InputTokens || root == OutputTokens) && m in Family(root) && HasPrice(index, tier, Plain(root))
    requires SubMetersNoDearer(index, tier)
    ensures HasPrice(index, tier, Plain(m)) && Rate(index, tier, Plain(m)) <= Rate(index, tier, Plain(root))
  {
    hide Family, HasPrice, Rate, SubMeters;
    FamilyPriced(index, tier, root, m);
    if m != root {
      ContainedBy(root, m);
      if p :| p in SubMeters(root) && p in Family(root) && m in SubMeters(p) {
        FamilyPriced(index, tier, root, p);
      }
    }
  }

  /** The estimate h bills its totals unsplit; the actual usage a splits totals no larger than
      those, and has nothing else to bill but the per-request meter. */
  ghost predicate Covers(h: Usage, a: Usage) {
    && (forall root :: root in [InputTokens, OutputTokens] ==>
          && EffectiveQuantity(Plain(root), h) == Quantity(h, Plain(root))
          && Quantity(a, Plain(root)) <= Quantity(h, Plain(root)))
    && EffectiveQuantity(Plain(Requests), a) <= EffectiveQuantity(Plain(Requests), h)
    && forall c :: c in BillableCodes(a) ==> InAFamily(c) || c == Plain(Requests)
  }

  lemma FamilyCovered(index: Index, tier: Option<Tier>, a: Usage, h: Usage, root: Meter)
    requires root == InputTokens || root == OutputTokens
    requires Flat(index) && SubMetersNoDearer(index, tier) && HasPrice(index, tier, Plain(root))
    requires Tidy(a) && Tidy(h) && Covers(h, a)
    requires !Unpriced(index, a, tier) && !Unpriced(index, h, tier)
    ensures SumBy(Family(root), Paid(LineAmounts(index, tier, a))) <= SumBy(Family(root), Paid(LineAmounts(index, tier, h)))
  {
    hide Family, HasPrice, LineAmounts, Tidy, SubMetersNoDearer, Unpriced, Cost, EffectiveQuantity, Quantity, SumBy, BillableCodes,
         Rate;
    FlatLine(index, tier, a, Plain(root));
    hide Flat;
    var rate := Rate(index, tier, Plain(root));
    assert root in [InputTokens, OutputTokens];
    forall m | m in Family(root)
      ensures HasPrice(index, tier, Plain(m)) ==> Rate(index, tier, Plain(m)) <= rate
    {
      RateBelowRoot(index, tier, root, m);
    }
    FamilyPays(index, tier, a, root, rate);
    CostMonotone(rate, Quantity(a, Plain(root)), Quantity(h, Plain(root)));
    RootLineWithin(index, tier, h, root);
  }

  lemma RootInFamily(m: Meter)
    ensures m in Family(m)
  {
    hide SubMeters, Depth;
  }

  lemma RootLineWithin(index: Index, tier: Option<Tier>, h: Usage, root: Meter)
    requires Flat(index) && Tidy(h) && !Unpriced(index, h, tier) && HasPrice(index, tier, Plain(root))
    ensures Cost(Rate(index, tier, Plain(root)), EffectiveQuantity(Plain(root), h))
         <= SumBy(Family(root), Paid(LineAmounts(index, tier, h)))
  {
    hide Family, HasPrice, LineAmounts, Tidy, Flat, Unpriced, Cost, EffectiveQuantity, Rate;
    var paid := Paid(LineAmounts(index, tier, h));
    forall m | m in Family(root)
      ensures paid(m) >= 0.0
    {
      LineNonNegative(index, tier, h, Plain(m));
    }
    RootInFamily(root);
    PaidLaw(index, tier, h, Plain(root));
    MemberBound(Family(root), paid, root);
  }

  lemma LineNonNegative(index: Index, tier: Option<Tier>, u: Usage, c: Code)
    requires Flat(index) && Tidy(u) && !Unpriced(index, u, tier)
    ensures At(LineAmounts(index, tier, u), c) >= 0.0
  {
    hide ComponentForMeter, EffectiveQuantity, Cost, BillableCodes, LineFor, Disjoint, OnGrid, Rate;
    EffectiveNonNegative(ComponentBaseCode(c), u);
    if c in LineAmounts(index, tier, u) {
      FlatLine(index, tier, u, c);
      CostMonotone(Rate(index, tier, c), 0.0, ChargedQuantity(c, u));
      CostSum(Rate(index, tier, c), 0.0, 0.0);
    }
  }

  lemma AmountCodes(index: Index, tier: Option<Tier>, u: Usage)
    ensures forall c :: c in LineAmounts(index, tier, u) ==> c in BillableCodes(u)
  {
    hide LineFor, BillableCodes;
  }

  lemma OnlyKey<K>(m: map<K, real>, k: K)
    requires forall x :: x in m ==> x == k
    ensures MapSum(m) == At(m, k)
  {
    if k in m {
      TakeKey(m, k);
      assert m - {k} == map[];
    } else {
      assert m == map[];
    }
  }

  lemma RequestsOutside()
    ensures !InAFamily(Plain(Requests))
  {
    hide Family;
    InputFamily();
    OutputFamily();
  }

  lemma OthersCovered(index: Index, tier: Option<Tier>, a: Usage, h: Usage)
    requires Flat(index) && Tidy(a) && Tidy(h) && Covers(h, a)
    requires !Unpriced(index, a, tier) && !Unpriced(index, h, tier)
    ensures MapSum(Others(LineAmounts(index, tier, a))) <= MapSum(Others(LineAmounts(index, tier, h)))
  {
    hide Family, HasPrice, LineAmounts, Tidy, Unpriced, Cost, EffectiveQuantity, Quantity, MapSum, BillableCodes, InAFamily, Rate;
    var c := Plain(Requests);
    RequestsOutside();
    AmountCodes(index, tier, a);
    AmountCodes(index, tier, h);
    OnlyKey(Others(LineAmounts(index, tier, a)), c);
    forall k | k in Others(LineAmounts(index, tier, h))
      ensures Others(LineAmounts(index, tier, h))[k] >= 0.0
    {
      LineNonNegative(index, tier, h, k);
    }
    NonNegative(Others(LineAmounts(index, tier, h)));
    PaidLaw(index, tier, a, c);
    PaidLaw(index, tier, h, c);
    if HasPrice(index, tier, c) {
      FlatLine(index, tier, a, c);
      CostMonotone(Rate(index, tier, c), EffectiveQuantity(c, a), EffectiveQuantity(c, h));
    }
    assert At(Others(LineAmounts(index, tier, a)), c) == At(LineAmounts(index, tier, a), c);
    assert At(Others(LineAmounts(index, tier, h)), c) == At(LineAmounts(index, tier, h), c);
    assert At(LineAmounts(index, tier, a), c) <= At(LineAmounts(index, tier, h), c);
  }

  /** Settling never costs more than the hold on the unsplit totals, whatever the split. */
  lemma {:induction false} CoveredCharge(index: Index, tier: Option<Tier>, a: Usage, h: Usage, minimum: real)
    requires Flat(index) && SubMetersNoDearer(index, tier)
    requires HasPrice(index, tier, Plain(InputTokens)) && HasPrice(index, tier, Plain(OutputTokens))
    requires Tidy(a) && Tidy(h) && Covers(h, a)
    requires ChargeNormalized(index, h, minimum, tier).Ok? && ChargeNormalized(index, a, minimum, tier).Ok?
    ensures ChargeNormalized(index, a, minimum, tier).value <= ChargeNormalized(index, h, minimum, tier).value
  {
    hide ChargeNormalized, Family, HasPrice, LineAmounts, Tidy, Unpriced, MapSum, Others, Flat, SubMetersNoDearer, Covers, SumBy,
         Paid, Round30;
    FlatCharge(index, a, minimum, tier);
    FlatCharge(index, h, minimum, tier);
    FamilyCovered(index, tier, a, h, InputTokens);
    FamilyCovered(index, tier, a, h, OutputTokens);
    OthersCovered(index, tier, a, h);
    TotalSplits(LineAmounts(index, tier, a));
    TotalSplits(LineAmounts(index, tier, h));
    RoundMonotone(Max(MapSum(LineAmounts(index, tier, a)), minimum), Max(MapSum(LineAmounts(index, tier, h)), minimum));
  }
}
