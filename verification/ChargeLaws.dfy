/** Which meters get a price, which codes are billed, how the printed lines add up. */
module ChargeLaws {
  import opened Results
  import opened Rounding
  import opened Sums
  import opened Meters
  import opened Metering
  import opened MeteringLaws
  import opened Tiers
  import opened Charging

  // ----- price inheritance

  /** A code and the codes it may inherit a price from, nearest first. */
  function PriceChain(c: Code): (chain: seq<Code>)
    ensures chain != [] && chain[0] == c
    decreases PriceRank(c.stem)
  {
    match PriceParent(c)
    case None => [c]
    case Some(parent) => [c] + PriceChain(Plain(parent))
  }

  function OwnPrice(index: Index, c: Code, tier: Option<Tier>): Option<Component> {
    if tier.Some? && TierCode(c, tier.value) in index then Some(index[TierCode(c, tier.value)])
    else if c in index then Some(index[c])
    else None
  }

  ghost predicate Unpublished(index: Index, chain: seq<Code>, tier: Option<Tier>) {
    forall c :: c in chain ==> OwnPrice(index, c, tier).None?
  }

  /** A meter resolves to the nearest price published on its chain, and to none only without one:
      inheritance never skips a closer price and never invents one. */
  lemma {:induction false} NearestPrice(index: Index, c: Code, tier: Option<Tier>)
    ensures ComponentForMeter(index, c, tier).None? <==> Unpublished(index, PriceChain(c), tier)
    ensures forall i :: (0 <= i < |PriceChain(c)| && OwnPrice(index, PriceChain(c)[i], tier).Some?
        && Unpublished(index, PriceChain(c)[..i], tier)) ==>
      ComponentForMeter(index, c, tier) == OwnPrice(index, PriceChain(c)[i], tier)
    decreases PriceRank(c.stem)
  {
    match PriceParent(c)
    case None =>
      NoOwnPrice(index, c, tier);
      assert PriceChain(c) == [c] && c in PriceChain(c);
    case Some(parent) =>
      NearestPrice(index, Plain(parent), tier);
      var chain, rest := PriceChain(c), PriceChain(Plain(parent));
      assert chain == [c] + rest;
      hide PriceParent, PriceRank, PriceChain, OwnPrice, ComponentForMeter;
      NoOwnPrice(index, c, tier);
      assert Unpublished(index, chain, tier) <==> OwnPrice(index, c, tier).None? && Unpublished(index, rest, tier);
      forall i | 0 <= i < |chain| && OwnPrice(index, chain[i], tier).Some? && Unpublished(index, chain[..i], tier)
        ensures ComponentForMeter(index, c, tier) == OwnPrice(index, chain[i], tier)
      {
        if i > 0 {
          assert c in chain[..i] && chain[..i][1..] == rest[..i - 1];
          assert forall x :: x in rest[..i - 1] ==> x in chain[..i];
        }
      }
  }

  lemma NoOwnPrice(index: Index, c: Code, tier: Option<Tier>)
    ensures OwnPrice(index, c, tier).Some? ==> ComponentForMeter(index, c, tier) == OwnPrice(index, c, tier)
    ensures OwnPrice(index, c, tier).None? && PriceParent(c).None? ==> ComponentForMeter(index, c, tier).None?
    ensures OwnPrice(index, c, tier).None? && PriceParent(c).Some? ==>
      ComponentForMeter(index, c, tier) == ComponentForMeter(index, Plain(PriceParent(c).value), tier)
  {
    hide PriceParent;
  }

  // ----- which codes are billed

  lemma PlainBase(c: Code)
    requires c.suffixes == []
    ensures ComponentBaseCode(c) == c
  {
  }

  /** Of the plain codes exactly those with something left to bill are billed. */
  lemma BillablePlain(u: Usage)
    requires Sound(u) && Disjoint(u)
    ensures forall c: Code :: c.suffixes == [] ==> (c in BillableCodes(u) <==> EffectiveQuantity(c, u) > 0.0)
  {
    hide EffectiveQuantity, ComponentBaseCode, OnGrid, Disjoint, SubMeters;
    forall c: Code | c.suffixes == []
      ensures c in BillableCodes(u) <==> EffectiveQuantity(c, u) > 0.0
    {
      PlainBase(c);
      if EffectiveQuantity(c, u) > 0.0 {
        PositiveIsPresent(u, c);
        assert c in u && ComponentBaseCode(c) == c;
      }
    }
  }

  lemma PositiveIsPresent(u: Usage, c: Code)
    requires Sound(u) && Disjoint(u) && EffectiveQuantity(c, u) > 0.0
    ensures c in u
  {
    hide OnGrid, Round30, SubMeters;
    EffectiveExact(u, c);
    if c.suffixes == [] { TotalSound(u, SubMeters(c.stem)); }
  }

  /** Some usage key is this code once its suffixes are stripped. */
  predicate StripsTo(u: Usage, c: Code) { exists k :: k in u && ComponentBaseCode(k) == c }

  /** A code is billed exactly if it has something to bill and some usage key strips to it. */
  lemma BillableIff(u: Usage, c: Code)
    ensures c in BillableCodes(u) <==> EffectiveQuantity(c, u) > 0.0 && StripsTo(u, c)
  {
    hide EffectiveQuantity, ComponentBaseCode;
  }

  /** With plain keys only plain codes are billed. */
  lemma PlainKeysBill(u: Usage, c: Code)
    requires forall k :: k in u ==> k.suffixes == []
    ensures c in BillableCodes(u) ==> c in u && c.suffixes == []
  {
    hide EffectiveQuantity, ComponentBaseCode, BillableCodes;
    BillableIff(u, c);
    if k :| k in u && ComponentBaseCode(k) == c { PlainBase(k); }
  }

  lemma SuffixedEffective(u: Usage, c: Code)
    requires c.suffixes != []
    ensures EffectiveQuantity(c, u) == Quantity(u, c)
  {
  }

  /** A report of one key with one tier suffix bills nothing and is not refused. */
  lemma {:induction false} SuffixedKeyUnbilled(u: Usage, m: Meter, tier: Tier, q: real)
    requires u == map[Code(m, [tier]) := q]
    ensures BillableCodes(u) == {}
    ensures forall index: Index, t :: !Unpriced(index, u, t)
  {
    var k := Code(m, [tier]);
    OneSuffix(k);
    assert Plain(m) !in u;
    forall p: Meter
      ensures Quantity(u, Plain(p)) == 0.0
    {
      assert Plain(p) != k;
    }
    NoneHeld(u, SubMeters(m));
    hide ComponentBaseCode, SubMeters;
    assert EffectiveQuantity(Plain(m), u) == 0.0;
    assert forall c :: c in u ==> c == k;
  }

  lemma OneSuffix(c: Code)
    requires |c.suffixes| == 1
    ensures ComponentBaseCode(c) == Plain(c.stem)
  {
    StripsCompletelyIff(c);
  }

  // ----- lines

  lemma EffectiveNonNegative(c: Code, u: Usage)
    ensures EffectiveQuantity(c, u) >= 0.0
  {
    hide SubMeters, TotalOf, Round30;
    if c.suffixes == [] && SubMeters(c.stem) != [] && Quantity(u, c) - TotalOf(u, SubMeters(c.stem)) >= 0.0 {
      RoundNonNegative(Quantity(u, c) - TotalOf(u, SubMeters(c.stem)));
    }
  }

  lemma PlainCharged(c: Code, u: Usage)
    requires c.suffixes == []
    ensures ChargedQuantity(c, u) == EffectiveQuantity(c, u)
  {
    PlainBase(c);
    hide ComponentBaseCode, EffectiveQuantity;
  }

  lemma OneLineLess(lines: seq<ChargeLine>, codes: set<Code>, index: Index, tier: Option<Tier>, u: Usage)
    requires LinesFor(lines, codes, index, tier, u) && lines != []
    ensures LinesFor(lines[1..], codes - {lines[0].code}, index, tier, u)
  {
    hide ChargedQuantity, LineFor, LineUnit, Round30;
    forall c | c in codes - {lines[0].code} && HasLine(lines, c)
      ensures HasLine(lines[1..], c)
    {
      var i :| 0 <= i < |lines| && lines[i].code == c;
      assert lines[1..][i - 1].code == c;
    }
  }

  /** Without lines nothing was left to charge. */
  lemma NoLines(codes: set<Code>, index: Index, tier: Option<Tier>, u: Usage, c: Code)
    requires LinesFor([], codes, index, tier, u) && c in codes
    ensures ChargedQuantity(c, u) == 0.0
    ensures LineFor(index, tier, u, c).Ok? ==> LineFor(index, tier, u, c).value.amount == 0.0
  {
    EffectiveNonNegative(ComponentBaseCode(c), u);
    hide ComponentBaseCode, EffectiveQuantity, AmountFor, ComponentForMeter;
    if LineFor(index, tier, u, c).Ok? {
      NothingCosts(ComponentForMeter(index, c, tier).value, u);
    }
  }

  /** Nothing costs nothing, under every price that charges it at all. */
  lemma NothingCosts(component: Component, u: Usage)
    requires AmountFor(component, 0.0, u).Ok?
    ensures AmountFor(component, 0.0, u).value.amount == 0.0
  {
    if component.tiers != [] && component.context.Some? {
      NothingInContext(component.tiers, Quantity(u, component.context.value));
    }
  }

  lemma {:induction false} NothingInContext(tiers: seq<PriceTier>, context: real)
    requires ContextFrom(tiers, context, 0.0).Ok?
    ensures ContextFrom(tiers, context, 0.0).value.amount == 0.0
  {
    var tier := tiers[0];
    if tier.upTo.Some? && context > tier.upTo.value { NothingInContext(tiers[1..], context); }
  }

  // ----- rounding of lines against rounding of the total

  function LineTotal(lines: seq<ChargeLine>): real {
    if lines == [] then 0.0 else lines[0].amount + LineTotal(lines[1..])
  }

  ghost function ExactAmounts(index: Index, tier: Option<Tier>, u: Usage, lines: seq<ChargeLine>): real
    requires forall i :: 0 <= i < |lines| ==> LineFor(index, tier, u, lines[i].code).Ok?
  {
    if lines == [] then 0.0
    else LineFor(index, tier, u, lines[0].code).value.amount + ExactAmounts(index, tier, u, lines[1..])
  }

  lemma {:induction false} ExactLinesAddUp(lines: seq<ChargeLine>, codes: set<Code>, index: Index,
                                           tier: Option<Tier>, u: Usage)
    requires LinesFor(lines, codes, index, tier, u)
    ensures ExactAmounts(index, tier, u, lines) == MapSum(AmountsOf(index, tier, u, codes))
    decreases |lines|
  {
    hide ChargedQuantity, LineFor, LineUnit, Round30;
    if lines == [] {
      forall c | c in AmountsOf(index, tier, u, codes)
        ensures AmountsOf(index, tier, u, codes)[c] == 0.0
      {
        NoLines(codes, index, tier, u, c);
      }
      AllZeroMap(AmountsOf(index, tier, u, codes));
    } else {
      var b := lines[0].code;
      OneLineLess(lines, codes, index, tier, u);
      ExactLinesAddUp(lines[1..], codes - {b}, index, tier, u);
      AmountsGrow(index, tier, u, codes - {b}, b);
      assert codes - {b} + {b} == codes;
    }
  }

  ghost predicate Within(x: real, y: real, d: real) { -d <= x - y <= d }

  lemma {:induction false} RoundedLinesNear(lines: seq<ChargeLine>, codes: set<Code>, index: Index,
                                            tier: Option<Tier>, u: Usage)
    requires LinesFor(lines, codes, index, tier, u)
    ensures Within(LineTotal(lines), ExactAmounts(index, tier, u, lines), HalfUnits(|lines|))
    decreases |lines|
  {
    hide ChargedQuantity, LineFor, LineUnit, Round30, HalfUnits;
    HalfUnitsNext(0);
    if lines != [] {
      assert |lines[1..]| == |lines| - 1;
      OneLineLess(lines, codes, index, tier, u);
      RoundedLinesNear(lines[1..], codes - {lines[0].code}, index, tier, u);
      RoundNear(LineFor(index, tier, u, lines[0].code).value.amount);
      HalfUnitsNext(|lines| - 1);
    }
  }

  lemma ExactLinesNear(lines: seq<ChargeLine>, index: Index, tier: Option<Tier>, u: Usage)
    requires LinesFor(lines, BillableCodes(u), index, tier, u)
    ensures Within(LineTotal(lines), Round30(MapSum(LineAmounts(index, tier, u))), HalfUnits(|lines| + 1))
  {
    hide LinesFor, LineAmounts, Round30, HalfUnits, BillableCodes, MapSum;
    assert LineAmounts(index, tier, u) == AmountsOf(index, tier, u, BillableCodes(u)) by { LineAmountsAreAll(index, tier, u); }
    LinesPriced(lines, BillableCodes(u), index, tier, u);
    ExactLinesAddUp(lines, BillableCodes(u), index, tier, u);
    RoundedLinesNear(lines, BillableCodes(u), index, tier, u);
    RoundNear(MapSum(LineAmounts(index, tier, u)));
    HalfUnitsNext(|lines|);
  }

  /** Of a successful charge whose lines reach the minimum, n printed lines miss the printed amount by
      at most (n + 1) half units of the thirtieth decimal. */
  lemma {:induction false} LinesNearAmount(components: seq<Component>, usage: Usage, minimum: real, tier: Option<Tier>,
                                           charge: MeteredCharge)
    requires Charge(components, usage, minimum, tier) == Ok(charge.amount)
    requires var u := ChargedUsage(components, usage, tier);
      && LinesFor(charge.lines, BillableCodes(u), IndexComponents(components).value, tier, u)
      && MapSum(LineAmounts(IndexComponents(components).value, tier, u)) >= minimum
    ensures Within(LineTotal(charge.lines), charge.amount, HalfUnits(|charge.lines| + 1))
  {
    hide LinesFor, LineAmounts, LineFor, LineUnit, Unpriced, Round30, HalfUnits, BillableCodes, MapSum, Normalized, UsageAccepted,
         IndexComponents, AddImplicitRequestMetric;
    ExactLinesNear(charge.lines, IndexComponents(components).value, tier, ChargedUsage(components, usage, tier));
  }

  lemma LineAmountsAreAll(index: Index, tier: Option<Tier>, u: Usage)
    ensures LineAmounts(index, tier, u) == AmountsOf(index, tier, u, BillableCodes(u))
  {
  }

  lemma LinesPriced(lines: seq<ChargeLine>, codes: set<Code>, index: Index, tier: Option<Tier>, u: Usage)
    requires LinesFor(lines, codes, index, tier, u)
    ensures forall i :: 0 <= i < |lines| ==> LineFor(index, tier, u, lines[i].code).Ok?
  {
  }

  lemma {:induction false} FactoredLinesNear(lines: seq<ChargeLine>, factor: real)
    ensures |FactoredLines(lines, factor)| == |lines|
    ensures Within(LineTotal(FactoredLines(lines, factor)), Cost(factor, LineTotal(lines)), HalfUnits(|lines|))
  {
    CostSum(factor, 0.0, 0.0);
    HalfUnitsNext(0);
    hide Round30, HalfUnits, Cost;
    if lines != [] {
      var head, rest := lines[0].amount, LineTotal(lines[1..]);
      FactoredLinesNear(lines[1..], factor);
      RoundNear(Cost(factor, head));
      assert FactoredLines(lines, factor)[1..] == FactoredLines(lines[1..], factor);
      CostSum(factor, head, rest);
      HalfUnitsNext(|lines[1..]|);
    }
  }

  lemma {:induction false} FactoredAt(lines: seq<ChargeLine>, factor: real, i: nat)
    requires i < |lines|
    ensures |FactoredLines(lines, factor)| == |lines|
    ensures FactoredLines(lines, factor)[i] ==
      lines[i].(amount := Round30(Cost(factor, lines[i].amount)), rate := Round30(Cost(factor, lines[i].rate)))
  {
    FactoredLinesNear(lines, factor);
    hide Round30, Cost;
    if i > 0 {
      FactoredAt(lines[1..], factor, i - 1);
      assert FactoredLines(lines, factor)[i] == FactoredLines(lines[1..], factor)[i - 1];
    }
  }

  /** A multiplier prints each amount and each rate multiplied, and nothing else of a line changes. */
  lemma {:induction false} FactoredLine(lines: seq<ChargeLine>, factor: real, i: nat)
    requires i < |lines|
    ensures |FactoredLines(lines, factor)| == |lines|
    ensures var before, after := lines[i], FactoredLines(lines, factor)[i];
      && after.code == before.code && after.unit == before.unit && after.quantity == before.quantity
      && after.rate == Round30(factor * before.rate) && after.amount == Round30(factor * before.amount)
  {
    hide Round30, FactoredLines;
    FactoredAt(lines, factor, i);
  }

  lemma ScaledWithin(x: real, y: real, d: real, factor: real)
    requires Within(x, y, d) && factor >= 0.0
    ensures Within(Cost(factor, x), Cost(factor, y), Cost(factor, d))
  {
    CostMonotone(factor, x - y, d);
    CostMonotone(factor, -d, x - y);
    CostSum(factor, x, y);
    CostSum(factor, 0.0, d);
    hide Cost;
    assert 0.0 - d == -d;
  }

  lemma OneMoreTimes(factor: real, h: real)
    ensures Cost(factor, h) + h == Cost(factor + 1.0, h)
  {
  }

  /** A multiplier f stretches that distance to at most (f + 1)(n + 1) half units. */
  lemma {:induction false} FactoredLinesNearAmount(charge: MeteredCharge, factor: real)
    requires factor >= 0.0
    requires Within(LineTotal(charge.lines), charge.amount, HalfUnits(|charge.lines| + 1))
    ensures FactorCharge(charge, factor).Ok?
    ensures var r := FactorCharge(charge, factor).value;
      Within(LineTotal(r.lines), r.amount, Cost(factor + 1.0, HalfUnits(|charge.lines| + 1)))
  {
    var h := HalfUnits(|charge.lines| + 1);
    OneMoreTimes(factor, h);
    hide Round30, HalfUnits, Cost;
    FactoredLinesNear(charge.lines, factor);
    RoundNear(Cost(factor, charge.amount));
    ScaledWithin(LineTotal(charge.lines), charge.amount, h, factor);
    HalfUnitsNext(|charge.lines|);
  }
}
