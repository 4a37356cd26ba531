/** From a usage map to a charge: price lookup, line amounts, minimum, multiplier. */
module Charging {
  import opened Results
  import opened Rounding
  import opened Sums
  import opened Meters
  import opened CodeTexts
  import opened Metering
  import opened Tiers

  // ----- accepting and normalizing usage

  predicate UsageAccepted(u: Usage) {
    forall c | c in u :: ValidCode(c) && DecimalAccepted(u[c], SCALE)
  }

  function NormalizedUsage(u: Usage): Result<Usage> {
    if UsageAccepted(u) then Ok(Normalized(u)) else Err(InvalidUsage)
  }

  method NormalizeMeteredUsage(u: Usage) returns (r: Result<Usage>)
    ensures r == NormalizedUsage(u)
  {
    if !UsageAccepted(u) { return Err(InvalidUsage); }
    var usage := new UsageMap(u);
    usage.NormalizeRelationships();
    return Ok(usage.metrics);
  }

  // ----- price lookup

  type Index = map<Code, Component>

  function IndexFrom(components: seq<Component>, index: Index): Result<Index> {
    if components == [] then Ok(index)
    else
      var c := components[0];
      if !ValidCode(c.code) || c.unit == "" then Err(InvalidComponent)
      else if c.code in index then Err(DuplicateComponent)
      else IndexFrom(components[1..], index[c.code := c])
  }

  function IndexComponents(components: seq<Component>): Result<Index> { IndexFrom(components, map[]) }

  method BuildIndex(components: seq<Component>) returns (r: Result<Index>)
    ensures r == IndexComponents(components)
  {
    var byCode: Index := map[];
    for i := 0 to |components|
      invariant IndexFrom(components[i..], byCode) == IndexComponents(components)
    {
      var c := components[i];
      if !ValidCode(c.code) || c.unit == "" { return Err(InvalidComponent); }
      if c.code in byCode { return Err(DuplicateComponent); }
      byCode := byCode[c.code := c];
      assert components[i..][1..] == components[i + 1..];
    }
    return Ok(byCode);
  }

  function TierCode(c: Code, tier: Tier): Code { Code(c.stem, c.suffixes + [tier]) }

  /** A code's own tier price, else its own price, else whatever its price parent resolves to. */
  function ComponentForMeter(index: Index, c: Code, tier: Option<Tier>): Option<Component>
    decreases PriceRank(c.stem)
  {
    if tier.Some? && TierCode(c, tier.value) in index then Some(index[TierCode(c, tier.value)])
    else if c in index then Some(index[c])
    else match PriceParent(c)
      case None => None
      case Some(parent) => ComponentForMeter(index, Plain(parent), tier)
  }

  predicate HasComponentForTier(components: seq<Component>, base: Meter, tier: Option<Tier>) {
    exists c :: c in components && (c.code == Plain(base) || (tier.Some? && c.code == Code(base, [tier.value])))
  }

  function AddImplicitRequestMetric(components: seq<Component>, u: Usage, tier: Option<Tier>): Usage {
    if Plain(Requests) in u && u[Plain(Requests)] != 0.0 then u
    else if !HasComponentForTier(components, Requests, tier) then u
    else u[Plain(Requests) := 1.0]
  }

  // ----- the charge

  /** The base codes with something left to bill. */
  function BillableCodes(u: Usage): set<Code> {
    set c | c in u && EffectiveQuantity(ComponentBaseCode(c), u) > 0.0 :: ComponentBaseCode(c)
  }

  predicate Unpriced(index: Index, u: Usage, tier: Option<Tier>) {
    exists b :: b in BillableCodes(u) && ComponentForMeter(index, b, tier).None?
  }

  /** The quantity on the line of a base code.  The code is stripped once more before its quantity is
      looked up, so a code that still carries a suffix takes the quantity of another one. */
  function ChargedQuantity(b: Code, u: Usage): real { EffectiveQuantity(ComponentBaseCode(b), u) }

  function LineFor(index: Index, tier: Option<Tier>, u: Usage, b: Code): Result<Priced> {
    match ComponentForMeter(index, b, tier)
    case None => Err(PriceNotConfigured)
    case Some(component) => AmountFor(component, ChargedQuantity(b, u), u)
  }

  function AmountsOf(index: Index, tier: Option<Tier>, u: Usage, codes: set<Code>): map<Code, real> {
    map b | b in codes && LineFor(index, tier, u, b).Ok? :: LineFor(index, tier, u, b).value.amount
  }

  function LineAmounts(index: Index, tier: Option<Tier>, u: Usage): map<Code, real> {
    AmountsOf(index, tier, u, BillableCodes(u))
  }

  lemma AmountsGrow(index: Index, tier: Option<Tier>, u: Usage, codes: set<Code>, b: Code)
    requires b !in codes && LineFor(index, tier, u, b).Ok?
    ensures MapSum(AmountsOf(index, tier, u, codes + {b})) ==
            MapSum(AmountsOf(index, tier, u, codes)) + LineFor(index, tier, u, b).value.amount
  {
    hide LineFor;
    var old_, new_ := AmountsOf(index, tier, u, codes), AmountsOf(index, tier, u, codes + {b});
    var amount := LineFor(index, tier, u, b).value.amount;
    assert new_ == old_[b := amount];
    Update(old_, b, amount);
  }

  function Max(x: real, y: real): real { if x < y then y else x }

  /** The charge for a usage map that is already normalized. */
  ghost function ChargeNormalized(index: Index, u: Usage, minimum: real, tier: Option<Tier>): Result<real> {
    if Unpriced(index, u, tier) then Err(PriceNotConfigured)
    else if exists b :: b in BillableCodes(u) && LineFor(index, tier, u, b).Err? then Err(InvalidPrice)
    else if minimum < 0.0 then Err(InvalidMinimum)
    else Ok(Round30(Max(MapSum(LineAmounts(index, tier, u)), minimum)))
  }

  /** The map that is charged: the report with the per-request meter filled in, made disjoint. */
  function ChargedUsage(components: seq<Component>, usage: Usage, tier: Option<Tier>): Usage {
    Normalized(AddImplicitRequestMetric(components, usage, tier))
  }

  ghost function Charge(components: seq<Component>, u: Usage, minimum: real, tier: Option<Tier>): Result<real> {
    var normalized :- NormalizedUsage(AddImplicitRequestMetric(components, u, tier));
    var index :- IndexComponents(components);
    ChargeNormalized(index, normalized, minimum, tier)
  }

  datatype ChargeLine = ChargeLine(code: Code, unit: string, quantity: real, rate: real, amount: real)

  datatype MeteredCharge = MeteredCharge(amount: real, lines: seq<ChargeLine>)

  function LineUnit(index: Index, tier: Option<Tier>, b: Code): Option<string> {
    match ComponentForMeter(index, b, tier) case None => None case Some(component) => Some(component.unit)
  }

  ghost predicate HasLine(lines: seq<ChargeLine>, c: Code) {
    exists i :: 0 <= i < |lines| && lines[i].code == c
  }

  /** One line for each code in `codes` that has a quantity to charge, and no other line. */
  ghost predicate LinesFor(lines: seq<ChargeLine>, codes: set<Code>, index: Index, tier: Option<Tier>, u: Usage) {
    && (forall i :: 0 <= i < |lines| ==>
          && lines[i].code in codes && LineFor(index, tier, u, lines[i].code).Ok?
          && LineUnit(index, tier, lines[i].code) == Some(lines[i].unit)
          && lines[i].quantity == ChargedQuantity(lines[i].code, u) > 0.0
          && lines[i].rate == LineFor(index, tier, u, lines[i].code).value.rate
          && lines[i].amount == Round30(LineFor(index, tier, u, lines[i].code).value.amount))
    && (forall i, j :: 0 <= i < j < |lines| ==> lines[i].code != lines[j].code)
    && (forall c :: c in codes && ChargedQuantity(c, u) > 0.0 ==> HasLine(lines, c))
  }

  method SelectMeteredComponents(index: Index, u: Usage, tier: Option<Tier>) returns (r: Result<set<Code>>)
    ensures r.Err? <==> Unpriced(index, u, tier)
    ensures r.Err? ==> r.error == PriceNotConfigured
    ensures r.Ok? ==> r.value == BillableCodes(u)
  {
    hide EffectiveQuantity, ComponentBaseCode, ComponentForMeter;
    var baseCodes := BillableCodes(u);
    var todo := baseCodes;
    while todo != {}
      invariant todo <= baseCodes
      invariant forall b :: b in baseCodes - todo ==> ComponentForMeter(index, b, tier).Some?
    {
      var b :| b in todo;
      todo := todo - {b};
      if ComponentForMeter(index, b, tier).None? { return Err(PriceNotConfigured); }
    }
    return Ok(baseCodes);
  }

  method PriceLine(index: Index, tier: Option<Tier>, u: Usage, b: Code) returns (r: Result<(string, Priced)>)
    requires ComponentForMeter(index, b, tier).Some?
    ensures r.Err? ==> LineFor(index, tier, u, b).Err?
    ensures r.Ok? ==> LineFor(index, tier, u, b) == Ok(r.value.1) && LineUnit(index, tier, b) == Some(r.value.0)
  {
    hide ChargedQuantity, ComponentForMeter, AmountFor;
    var component := ComponentForMeter(index, b, tier).value;
    var priced :- TieredAmount(component, ChargedQuantity(b, u), u);
    return Ok((component.unit, priced));
  }

  /** Lines come in any order; the amount does not depend on it. */
  method ChargeLines(index: Index, u: Usage, tier: Option<Tier>, codes: set<Code>)
    returns (r: Result<MeteredCharge>)
    requires codes == BillableCodes(u) && !Unpriced(index, u, tier)
    ensures r.Err? <==> exists b :: b in codes && LineFor(index, tier, u, b).Err?
    ensures r.Err? ==> r.error == InvalidPrice
    ensures r.Ok? ==> r.value.amount == MapSum(LineAmounts(index, tier, u))
    ensures r.Ok? ==> LinesFor(r.value.lines, codes, index, tier, u)
  {
    hide BillableCodes, LineFor, LineUnit, ComponentForMeter;
    var lines, total, todo := [], 0.0, codes;
    assert codes - codes == {};
    assert LinesFor([], {}, index, tier, u);
    assert AmountsOf(index, tier, u, {}) == map[];
    hide LinesFor, AmountsOf;
    while todo != {}
      invariant todo <= codes
      invariant forall b :: b in codes - todo ==> LineFor(index, tier, u, b).Ok?
      invariant total == MapSum(AmountsOf(index, tier, u, codes - todo))
      invariant LinesFor(lines, codes - todo, index, tier, u)
    {
      var b :| b in todo;
      var line := PriceLine(index, tier, u, b);
      if line.Err? { return Err(InvalidPrice); }
      AmountsGrow(index, tier, u, codes - todo, b);
      total := total + line.value.1.amount;
      lines := AppendLine(lines, codes - todo, index, tier, u, line.value.0, b, line.value.1);
      assert codes - (todo - {b}) == codes - todo + {b};
      todo := todo - {b};
    }
    assert codes - todo == codes;
    return Ok(MeteredCharge(total, lines));
  }

  method AppendLine(lines: seq<ChargeLine>, ghost codes: set<Code>, index: Index, tier: Option<Tier>, u: Usage,
                    unit: string, b: Code, priced: Priced) returns (r: seq<ChargeLine>)
    requires LinesFor(lines, codes, index, tier, u) && b !in codes && LineFor(index, tier, u, b) == Ok(priced)
    requires LineUnit(index, tier, b) == Some(unit)
    ensures LinesFor(r, codes + {b}, index, tier, u)
  {
    hide ChargedQuantity, LineFor, LineUnit, Round30;
    var quantity := ChargedQuantity(b, u);
    r := lines;
    if quantity > 0.0 {
      r := r + [ChargeLine(b, unit, quantity, priced.rate, Round30(priced.amount))];
      assert r[|lines|].code == b;
    }
    forall c | c in codes && HasLine(lines, c)
      ensures HasLine(r, c)
    {
      var i :| 0 <= i < |lines| && lines[i].code == c;
      assert r[i].code == c;
    }
  }

  method CalculateMeteredCharge(components: seq<Component>, usage: Usage, minimum: real, tier: Option<Tier>)
    returns (r: Result<MeteredCharge>)
    ensures r.Err? ==> Charge(components, usage, minimum, tier) == Err(r.error)
    ensures r.Ok? ==> Charge(components, usage, minimum, tier) == Ok(r.value.amount)
    ensures r.Ok? ==>
      var u := ChargedUsage(components, usage, tier);
      LinesFor(r.value.lines, BillableCodes(u), IndexComponents(components).value, tier, u)
  {
    hide AddImplicitRequestMetric, UsageAccepted, Normalized, IndexComponents, EffectiveQuantity, ComponentForMeter, AmountFor,
         Round30, BillableCodes, LineFor, LineAmounts, LinesFor, Unpriced;
    var normalized :- NormalizeMeteredUsage(AddImplicitRequestMetric(components, usage, tier));
    var index :- BuildIndex(components);
    var codes :- SelectMeteredComponents(index, normalized, tier);
    var charge :- ChargeLines(index, normalized, tier, codes);
    if minimum < 0.0 { return Err(InvalidMinimum); }
    var total := charge.amount;
    if total < minimum {
      total := minimum;
    }
    return Ok(MeteredCharge(Round30(total), charge.lines));
  }

  // ----- multiplier

  function FactoredLines(lines: seq<ChargeLine>, factor: real): seq<ChargeLine> {
    if lines == [] then []
    else [lines[0].(amount := Round30(Cost(factor, lines[0].amount)), rate := Round30(Cost(factor, lines[0].rate)))]
         + FactoredLines(lines[1..], factor)
  }

  function FactorCharge(charge: MeteredCharge, factor: real): Result<MeteredCharge> {
    if factor < 0.0 then Err(InvalidRequest)
    else Ok(MeteredCharge(Round30(Cost(factor, charge.amount)), FactoredLines(charge.lines, factor)))
  }

  method MultiplyCharge(charge: MeteredCharge, factor: real) returns (r: Result<MeteredCharge>)
    ensures r == FactorCharge(charge, factor)
  {
    hide Round30, Cost;
    if factor < 0.0 { return Err(InvalidRequest); }
    var lines: seq<ChargeLine> := [];
    for i := 0 to |charge.lines|
      invariant lines + FactoredLines(charge.lines[i..], factor) == FactoredLines(charge.lines, factor)
    {
      var line := charge.lines[i];
      assert charge.lines[i..][1..] == charge.lines[i + 1..];
      lines := lines + [line.(amount := Round30(Cost(factor, line.amount)), rate := Round30(Cost(factor, line.rate)))];
    }
    assert charge.lines[|charge.lines|..] == [] && lines + [] == lines;
    return Ok(MeteredCharge(Round30(Cost(factor, charge.amount)), lines));
  }
}
