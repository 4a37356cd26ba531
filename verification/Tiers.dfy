/** Price components: what the publisher may store and what one line costs. */
module Tiers {
  import opened Results
  import opened Rounding
  import opened Sums
  import opened Meters
  import opened CodeTexts
  import opened Metering

  /** A missing bound reaches to infinity.  A text that is not a number reads as a negative
      price or bound: both are refused by the same branch. */
  datatype PriceTier = PriceTier(upTo: Option<real>, price: real)

  /** `context` is the metering basis of a component whose tier mode is "context". */
  datatype Component = Component(
    code: Code, unit: string, price: real, tiers: seq<PriceTier>, context: Option<Code>)

  datatype Priced = Priced(amount: real, rate: real)

  // ----- what one component charges for a quantity

  /** One rate for everything: that of the first tier whose bound covers the context. */
  function ContextFrom(tiers: seq<PriceTier>, context: real, q: real): Result<Priced> {
    if tiers == [] then Err(NoApplicableTier)
    else
      var tier := tiers[0];
      if tier.price < 0.0 then Err(InvalidPrice)
      else if tier.upTo.None? then Ok(Priced(Cost(tier.price, q), tier.price))
      else if tier.upTo.value < 0.0 then Err(InvalidPrice)
      else if context <= tier.upTo.value then Ok(Priced(Cost(tier.price, q), tier.price))
      else ContextFrom(tiers[1..], context, q)
  }

  function Lower(q: real, bound: Option<real>): real {
    if bound.Some? && q > bound.value then bound.value else q
  }

  /** The tiers from i on, when everything up to `previous` has been charged at `charged`. */
  function GraduatedFrom(tiers: seq<PriceTier>, i: nat, previous: real, charged: Priced, q: real): Result<Priced>
    requires i <= |tiers| && tiers != []
    decreases |tiers| - i
  {
    if i == |tiers| then
      var rest := if previous < q then Cost(tiers[i - 1].price, q - previous) else 0.0;
      Ok(charged.(amount := charged.amount + rest))
    else
      var tier := tiers[i];
      var upper := Lower(q, tier.upTo);
      if tier.price < 0.0 then Err(InvalidPrice)
      else if tier.upTo.Some? && (tier.upTo.value < 0.0 || tier.upTo.value <= previous) then Err(InvalidPrice)
      else if tier.upTo.None? && i != |tiers| - 1 then Err(InvalidPrice)
      else
        var charged' := if upper > previous
                        then Priced(charged.amount + Cost(tier.price, upper - previous), tier.price)
                        else charged;
        if upper >= q then Ok(charged') else GraduatedFrom(tiers, i + 1, upper, charged', q)
  }

  function AmountFor(component: Component, q: real, usage: Usage): Result<Priced> {
    if component.price < 0.0 then Err(InvalidPrice)
    else if component.tiers == [] then Ok(Priced(Cost(component.price, q), component.price))
    else match component.context
      case Some(basis) => ContextFrom(component.tiers, Quantity(usage, basis), q)
      case None => GraduatedFrom(component.tiers, 0, 0.0, Priced(0.0, component.price), q)
  }

  method TieredAmount(component: Component, q: real, usage: Usage) returns (r: Result<Priced>)
    ensures r == AmountFor(component, q, usage)
  {
    hide Cost, Quantity;
    if component.price < 0.0 { return Err(InvalidPrice); }
    var tiers := component.tiers;
    if tiers == [] { return Ok(Priced(Cost(component.price, q), component.price)); }
    if component.context.Some? {
      var context := Quantity(usage, component.context.value);
      for i := 0 to |tiers|
        invariant ContextFrom(tiers[i..], context, q) == AmountFor(component, q, usage)
      {
        var tier := tiers[i];
        if tier.price < 0.0 { return Err(InvalidPrice); }
        if tier.upTo.None? { return Ok(Priced(Cost(tier.price, q), tier.price)); }
        if tier.upTo.value < 0.0 { return Err(InvalidPrice); }
        if context <= tier.upTo.value { return Ok(Priced(Cost(tier.price, q), tier.price)); }
        assert tiers[i..][1..] == tiers[i + 1..];
      }
      return Err(NoApplicableTier);
    }
    var total, previous, effective := 0.0, 0.0, component.price;
    var index := 0;
    while index < |tiers|
      invariant 0 <= index <= |tiers|
      invariant GraduatedFrom(tiers, index, previous, Priced(total, effective), q) == AmountFor(component, q, usage)
    {
      var tier := tiers[index];
      if tier.price < 0.0 { return Err(InvalidPrice); }
      var upper := q;
      if tier.upTo.Some? {
        var bound := tier.upTo.value;
        if bound < 0.0 { return Err(InvalidPrice); }
        if upper > bound {
          upper := bound;
        }
        if bound <= previous { return Err(InvalidPrice); }
      } else if index != |tiers| - 1 {
        return Err(InvalidPrice);
      }
      if upper > previous {
        total := total + Cost(tier.price, upper - previous);
        effective := tier.price;
      }
      previous := upper;
      if previous >= q {
        return Ok(Priced(total, effective));
      }
      index := index + 1;
    }
    if previous < q {
      total := total + Cost(tiers[|tiers| - 1].price, q - previous);
    }
    return Ok(Priced(total, effective));
  }

  // ----- what a publisher may store

  const PRICE_LIMIT: real := 1000000000000000000000000.0

  /** canonicalDecimal(text, 24, 30) accepts the text of such a price. */
  ghost predicate PriceAccepted(p: real) { 0.0 <= p < PRICE_LIMIT && OnGrid(p) }

  /** canonicalDecimal(text, 30, 30) accepts the text of such a quantity. */
  ghost predicate QuantityAccepted(q: real) { 0.0 <= q < SCALE && OnGrid(q) }

  /** Where tier i begins. */
  function Start(tiers: seq<PriceTier>, i: nat): real
    requires i <= |tiers|
  {
    if i == 0 then 0.0 else match tiers[i - 1].upTo case Some(b) => b case None => 0.0
  }

  /** Bounds grow strictly from zero and only the last one may be missing. */
  ghost predicate Increasing(tiers: seq<PriceTier>) {
    forall i :: 0 <= i < |tiers| ==>
      match tiers[i].upTo
      case None => i == |tiers| - 1
      case Some(b) => Start(tiers, i) < b
  }

  ghost predicate TiersAccepted(tiers: seq<PriceTier>) {
    && (forall i :: 0 <= i < |tiers| ==>
          PriceAccepted(tiers[i].price) && (tiers[i].upTo.Some? ==> QuantityAccepted(tiers[i].upTo.value)))
    && Increasing(tiers)
  }

  ghost predicate ComponentAccepted(c: Component) {
    ValidCode(c.code) && 0 < |c.unit| <= 64 && PriceAccepted(c.price) && TiersAccepted(c.tiers)
  }

  ghost predicate ComponentsAccepted(cs: seq<Component>) {
    && (forall i :: 0 <= i < |cs| ==> ComponentAccepted(cs[i]))
    && (forall i, j :: 0 <= i < j < |cs| ==> cs[i].code != cs[j].code)
  }

  predicate DecimalAccepted(x: real, limit: real) {
    0.0 <= x < limit && Round30(x) == x
  }

  lemma WholeAccepted(n: nat)
    requires n as real < SCALE
    ensures DecimalAccepted(n as real, SCALE)
  {
    WholeOnGrid(n);
    PrintsExactlyIff(n as real);
    hide Round30, OnGrid;
  }

  method ValidateTiers(tiers: seq<PriceTier>) returns (ok: bool)
    ensures ok <==> TiersAccepted(tiers)
  {
    hide OnGrid, Round30, Increasing;
    for i := 0 to |tiers|
      invariant forall k :: 0 <= k < i ==>
        PriceAccepted(tiers[k].price) && (tiers[k].upTo.Some? ==> QuantityAccepted(tiers[k].upTo.value))
    {
      PrintsExactlyIff(tiers[i].price);
      if !DecimalAccepted(tiers[i].price, PRICE_LIMIT) { return false; }
      if tiers[i].upTo.Some? {
        PrintsExactlyIff(tiers[i].upTo.value);
        if !DecimalAccepted(tiers[i].upTo.value, SCALE) { return false; }
      }
    }
    ok := ValidateBounds(tiers);
  }

  method ValidateBounds(tiers: seq<PriceTier>) returns (ok: bool)
    ensures ok <==> Increasing(tiers)
  {
    var previous := 0.0;
    for i := 0 to |tiers|
      invariant forall k :: 0 <= k < i ==>
        match tiers[k].upTo
        case None => k == |tiers| - 1
        case Some(b) => Start(tiers, k) < b
      invariant i < |tiers| ==> previous == Start(tiers, i)
    {
      if tiers[i].upTo.None? {
        if i != |tiers| - 1 { return false; }
        continue;
      }
      if tiers[i].upTo.value <= previous { return false; }
      previous := tiers[i].upTo.value;
    }
    return true;
  }

  method ValidatePriceComponents(components: seq<Component>) returns (ok: bool)
    ensures ok <==> ComponentsAccepted(components)
  {
    hide OnGrid, Round30, TiersAccepted;
    var seen: set<Code> := {};
    for i := 0 to |components|
      invariant forall k :: 0 <= k < i ==> ComponentAccepted(components[k])
      invariant forall j, k :: 0 <= j < k < i ==> components[j].code != components[k].code
      invariant forall c :: c in seen <==> exists k :: 0 <= k < i && components[k].code == c
    {
      var component := components[i];
      if !ValidCode(component.code) || component.unit == "" || |component.unit| > 64 { return false; }
      PrintsExactlyIff(component.price);
      if !DecimalAccepted(component.price, PRICE_LIMIT) { return false; }
      if component.code in seen { return false; }
      seen := seen + {component.code};
      var tiersOk := ValidateTiers(component.tiers);
      if !tiersOk { return false; }
    }
    return true;
  }
}
