/** What tiered prices charge, and which tier lists always have a price. */
module TierLaws {
  import opened Results
  import opened Sums
  import opened Meters
  import opened Metering
  import opened Tiers

  function Above(x: real, lo: real): real { if x > lo then x - lo else 0.0 }

  /** The area under the marginal price over [lo, q]: every tier at its own price, the last one
      without an upper bound. */
  function AreaFrom(tiers: seq<PriceTier>, i: nat, lo: real, q: real): real
    requires i < |tiers| && Increasing(tiers)
    decreases |tiers| - i
  {
    if i == |tiers| - 1 then Cost(tiers[i].price, Above(q, lo))
    else
      var hi := tiers[i].upTo.value;
      Cost(tiers[i].price, Above(Lower(q, Some(hi)), lo)) + AreaFrom(tiers, i + 1, hi, q)
  }

  function Area(tiers: seq<PriceTier>, q: real): real
    requires tiers != [] && Increasing(tiers)
  {
    AreaFrom(tiers, 0, 0.0, q)
  }

  ghost predicate PricesNonNegative(tiers: seq<PriceTier>) {
    forall i :: 0 <= i < |tiers| ==> tiers[i].price >= 0.0
  }

  lemma {:induction false} NoAreaBeyond(tiers: seq<PriceTier>, i: nat, lo: real, q: real)
    requires i < |tiers| && Increasing(tiers) && q <= lo == Start(tiers, i)
    ensures AreaFrom(tiers, i, lo, q) == 0.0
    decreases |tiers| - i
  {
    hide Cost;
    CostSum(tiers[i].price, 0.0, 0.0);
    if i < |tiers| - 1 { NoAreaBeyond(tiers, i + 1, tiers[i].upTo.value, q); }
  }

  /** What has been charged after tier i. */
  function ChargedBy(tier: PriceTier, lo: real, charged: Priced, q: real): Priced {
    var upper := Lower(q, tier.upTo);
    if upper > lo then Priced(charged.amount + Cost(tier.price, upper - lo), tier.price) else charged
  }

  /** One turn of the loop: the bounds it checks never fail. */
  lemma GraduatedStep(tiers: seq<PriceTier>, i: nat, lo: real, charged: Priced, q: real)
    requires i < |tiers| && Increasing(tiers) && PricesNonNegative(tiers) && lo == Start(tiers, i) && 0.0 <= lo
    ensures var upper := Lower(q, tiers[i].upTo);
      GraduatedFrom(tiers, i, lo, charged, q) ==
        if upper >= q then Ok(ChargedBy(tiers[i], lo, charged, q))
        else GraduatedFrom(tiers, i + 1, upper, ChargedBy(tiers[i], lo, charged, q), q)
  {
    hide Cost;
    assert tiers[i].upTo.Some? ==> lo < tiers[i].upTo.value;
  }

  /** Beyond the last bound the last price goes on. */
  lemma GraduatedEnd(tiers: seq<PriceTier>, lo: real, charged: Priced, q: real)
    requires tiers != [] && lo < q
    ensures GraduatedFrom(tiers, |tiers|, lo, charged, q) ==
      Ok(charged.(amount := charged.amount + Cost(tiers[|tiers| - 1].price, q - lo)))
  {
    hide Cost;
  }

  lemma AreaStep(tiers: seq<PriceTier>, i: nat, lo: real, q: real)
    requires i < |tiers| - 1 && Increasing(tiers)
    ensures tiers[i].upTo.Some?
    ensures AreaFrom(tiers, i, lo, q) ==
      Cost(tiers[i].price, Above(Lower(q, tiers[i].upTo), lo)) + AreaFrom(tiers, i + 1, tiers[i].upTo.value, q)
  {
    hide Cost;
  }

  lemma AreaEnd(tiers: seq<PriceTier>, lo: real, q: real)
    requires tiers != [] && Increasing(tiers)
    ensures AreaFrom(tiers, |tiers| - 1, lo, q) == Cost(tiers[|tiers| - 1].price, Above(q, lo))
  {
    hide Cost;
  }

  /** A tier charges the part of the quantity that lies between its bounds. */
  lemma ChargedByIs(tier: PriceTier, lo: real, charged: Priced, q: real)
    ensures ChargedBy(tier, lo, charged, q).amount == charged.amount + Cost(tier.price, Above(Lower(q, tier.upTo), lo))
  {
    CostSum(tier.price, 0.0, 0.0);
    hide Cost;
  }

  /** The quantity ends within tier i. */
  lemma EndsInTierIsArea(tiers: seq<PriceTier>, i: nat, lo: real, charged: Priced, q: real)
    requires i < |tiers| && Increasing(tiers) && lo == Start(tiers, i) && Lower(q, tiers[i].upTo) >= q
    ensures ChargedBy(tiers[i], lo, charged, q).amount == charged.amount + AreaFrom(tiers, i, lo, q)
  {
    hide Cost, AreaFrom, ChargedBy;
    ChargedByIs(tiers[i], lo, charged, q);
    assert Lower(q, tiers[i].upTo) == q;
    if i < |tiers| - 1 {
      AreaStep(tiers, i, lo, q);
      assert tiers[i].upTo.value == Start(tiers, i + 1);
      NoAreaBeyond(tiers, i + 1, tiers[i].upTo.value, q);
    } else {
      AreaEnd(tiers, lo, q);
    }
  }

  /** The quantity goes on past the last bound. */
  lemma PastLastTierIsArea(tiers: seq<PriceTier>, lo: real, charged: Priced, q: real)
    requires tiers != [] && Increasing(tiers) && lo == Start(tiers, |tiers| - 1)
    requires Lower(q, tiers[|tiers| - 1].upTo) < q
    ensures var last := |tiers| - 1;
      var rest := GraduatedFrom(tiers, |tiers|, Lower(q, tiers[last].upTo), ChargedBy(tiers[last], lo, charged, q), q);
      rest.Ok? && rest.value.amount == charged.amount + AreaFrom(tiers, last, lo, q)
  {
    hide Cost, AreaFrom, ChargedBy, GraduatedFrom;
    var last := tiers[|tiers| - 1];
    var upper := Lower(q, last.upTo);
    assert lo < upper == last.upTo.value;
    GraduatedEnd(tiers, upper, ChargedBy(last, lo, charged, q), q);
    ChargedByIs(last, lo, charged, q);
    AreaEnd(tiers, lo, q);
    CostSum(last.price, upper - lo, q - upper);
  }

  /** The loop with its early exit charges the area. */
  lemma {:induction false} GraduatedIsArea(tiers: seq<PriceTier>, i: nat, lo: real, charged: Priced, q: real)
    requires i < |tiers| && Increasing(tiers) && PricesNonNegative(tiers)
    requires lo == Start(tiers, i) && 0.0 <= lo && (lo < q || (i == 0 && lo <= q))
    ensures GraduatedFrom(tiers, i, lo, charged, q).Ok?
    ensures GraduatedFrom(tiers, i, lo, charged, q).value.amount == charged.amount + AreaFrom(tiers, i, lo, q)
    decreases |tiers| - i
  {
    hide Cost, AreaFrom, ChargedBy, GraduatedFrom;
    var upper := Lower(q, tiers[i].upTo);
    GraduatedStep(tiers, i, lo, charged, q);
    if upper >= q {
      EndsInTierIsArea(tiers, i, lo, charged, q);
    } else if i < |tiers| - 1 {
      assert lo < upper == tiers[i].upTo.value == Start(tiers, i + 1);
      GraduatedIsArea(tiers, i + 1, upper, ChargedBy(tiers[i], lo, charged, q), q);
      ChargedByIs(tiers[i], lo, charged, q);
      AreaStep(tiers, i, lo, q);
    } else {
      PastLastTierIsArea(tiers, lo, charged, q);
    }
  }

  /** For every stored tier list a graduated component has a price for every quantity: the sum of
      the marginal price over [0, q], the last price going on past the last bound. */
  lemma {:induction false} GraduatedNeverFails(component: Component, q: real, usage: Usage)
    requires ComponentAccepted(component) && component.tiers != [] && component.context.None? && 0.0 <= q
    ensures AmountFor(component, q, usage).Ok?
    ensures AmountFor(component, q, usage).value.amount == Area(component.tiers, q)
  {
    GraduatedIsArea(component.tiers, 0, 0.0, Priced(0.0, component.price), q);
  }

  /** The quantity q ends in tier k, the last one reaching to infinity. */
  ghost predicate EndsIn(tiers: seq<PriceTier>, k: nat, q: real)
    requires k < |tiers|
  {
    Start(tiers, k) < q && (k < |tiers| - 1 ==> tiers[k].upTo.Some? && q <= tiers[k].upTo.value)
  }

  lemma {:induction false} RateFrom(tiers: seq<PriceTier>, i: nat, lo: real, charged: Priced, q: real, k: nat)
    requires i <= k < |tiers| && Increasing(tiers) && PricesNonNegative(tiers)
    requires lo == Start(tiers, i) && 0.0 <= lo < q && EndsIn(tiers, k, q)
    ensures GraduatedFrom(tiers, i, lo, charged, q).Ok?
    ensures GraduatedFrom(tiers, i, lo, charged, q).value.rate == tiers[k].price
    decreases |tiers| - i
  {
    hide Cost, GraduatedFrom;
    GraduatedStep(tiers, i, lo, charged, q);
    if i < k {
      StartsGrow(tiers, i + 1, k);
      RateFrom(tiers, i + 1, tiers[i].upTo.value, ChargedBy(tiers[i], lo, charged, q), q, k);
    } else if Lower(q, tiers[i].upTo) < q {
      GraduatedEnd(tiers, tiers[i].upTo.value, ChargedBy(tiers[i], lo, charged, q), q);
    }
  }

  lemma {:induction false} StartsGrow(tiers: seq<PriceTier>, i: nat, k: nat)
    requires i <= k < |tiers| && Increasing(tiers)
    ensures Start(tiers, i) <= Start(tiers, k)
  {
    if i < k {
      StartsGrow(tiers, i, k - 1);
      assert Start(tiers, k - 1) < tiers[k - 1].upTo.value;
    }
  }

  /** The rate shown on the line of a graduated component is the price of the tier in which the quantity
      ends; it is the base price for no quantity. */
  lemma {:induction false} GraduatedRate(component: Component, q: real, usage: Usage, k: nat)
    requires ComponentAccepted(component) && component.tiers != [] && component.context.None?
    requires k < |component.tiers| && EndsIn(component.tiers, k, q) && 0.0 < q
    ensures AmountFor(component, q, usage).Ok? && AmountFor(component, q, usage).value.rate == component.tiers[k].price
    ensures AmountFor(component, 0.0, usage) == Ok(Priced(0.0, component.price))
  {
    RateFrom(component.tiers, 0, 0.0, Priced(0.0, component.price), q, k);
    GraduatedStep(component.tiers, 0, 0.0, Priced(0.0, component.price), 0.0);
    hide GraduatedFrom;
  }

  lemma {:induction false} AreaFromMonotone(tiers: seq<PriceTier>, i: nat, lo: real, p: real, q: real)
    requires i < |tiers| && Increasing(tiers) && PricesNonNegative(tiers) && p <= q
    ensures AreaFrom(tiers, i, lo, p) <= AreaFrom(tiers, i, lo, q)
    decreases |tiers| - i
  {
    hide Cost;
    var price := tiers[i].price;
    if i == |tiers| - 1 {
      CostMonotone(price, Above(p, lo), Above(q, lo));
    } else {
      var hi := tiers[i].upTo;
      CostMonotone(price, Above(Lower(p, hi), lo), Above(Lower(q, hi), lo));
      AreaFromMonotone(tiers, i + 1, hi.value, p, q);
    }
  }

  /** More usage never costs less. */
  lemma {:induction false} AreaMonotone(tiers: seq<PriceTier>, p: real, q: real)
    requires tiers != [] && Increasing(tiers) && PricesNonNegative(tiers) && p <= q
    ensures Area(tiers, p) <= Area(tiers, q)
  {
    AreaFromMonotone(tiers, 0, 0.0, p, q);
  }

  // ----- volume discounts

  ghost predicate Discounted(tiers: seq<PriceTier>) {
    forall i :: 0 < i < |tiers| ==> tiers[i].price <= tiers[i - 1].price
  }

  /** What the tiers after i take off the price of tier i. */
  function Discount(tiers: seq<PriceTier>, i: nat, q: real): real
    requires i < |tiers| && Increasing(tiers)
    decreases |tiers| - i
  {
    if i == |tiers| - 1 then 0.0
    else Cost(tiers[i].price - tiers[i + 1].price, Above(q, tiers[i].upTo.value)) + Discount(tiers, i + 1, q)
  }

  lemma {:induction false} AreaIsDiscounted(tiers: seq<PriceTier>, i: nat, q: real)
    requires i < |tiers| && Increasing(tiers)
    ensures AreaFrom(tiers, i, Start(tiers, i), q) == Cost(tiers[i].price, Above(q, Start(tiers, i))) - Discount(tiers, i, q)
    decreases |tiers| - i
  {
    hide Cost;
    if i < |tiers| - 1 {
      AreaIsDiscounted(tiers, i + 1, q);
      var lo, hi := Start(tiers, i), tiers[i].upTo.value;
      assert lo < hi;
      var p := tiers[i].price;
      assert Above(Lower(q, Some(hi)), lo) == Above(q, lo) - Above(q, hi);
      CostSum(p, Above(q, lo), Above(q, hi));
      CostOfDifference(p, tiers[i + 1].price, Above(q, hi));
    }
  }

  lemma {:induction false} StartNonNegative(tiers: seq<PriceTier>, i: nat)
    requires i < |tiers| && Increasing(tiers)
    ensures Start(tiers, i) >= 0.0
  {
    if i > 0 {
      StartNonNegative(tiers, i - 1);
      assert Start(tiers, i - 1) < tiers[i - 1].upTo.value;
    }
  }

  lemma {:induction false} DiscountSuperadditive(tiers: seq<PriceTier>, i: nat, a: real, b: real)
    requires i < |tiers| && Increasing(tiers) && Discounted(tiers) && 0.0 <= a && 0.0 <= b
    ensures Discount(tiers, i, a) + Discount(tiers, i, b) <= Discount(tiers, i, a + b)
    decreases |tiers| - i
  {
    hide Cost;
    if i < |tiers| - 1 {
      DiscountSuperadditive(tiers, i + 1, a, b);
      StartNonNegative(tiers, i + 1);
      var hi, k := tiers[i].upTo.value, tiers[i].price - tiers[i + 1].price;
      var x, y, z := Above(a, hi), Above(b, hi), Above(a + b, hi);
      CostMonotone(k, x + y, z);
      CostSum(k, x, y);
    }
  }

  /** With prices that do not rise, splitting usage over two requests is never cheaper. */
  lemma {:induction false} AreaSubadditive(tiers: seq<PriceTier>, a: real, b: real)
    requires tiers != [] && Increasing(tiers) && Discounted(tiers) && 0.0 <= a && 0.0 <= b
    ensures Area(tiers, a + b) <= Area(tiers, a) + Area(tiers, b)
  {
    hide Cost, AreaFrom, Discount;
    AreaIsDiscounted(tiers, 0, a);
    AreaIsDiscounted(tiers, 0, b);
    AreaIsDiscounted(tiers, 0, a + b);
    DiscountSuperadditive(tiers, 0, a, b);
    CostSum(tiers[0].price, a, b);
  }

  // ----- context tiers

  /** A stored context component has a price unless the context lies beyond a bounded last tier. */
  lemma {:induction false} ContextPricedIff(tiers: seq<PriceTier>, i: nat, context: real, q: real)
    requires i < |tiers| && Increasing(tiers) && PricesNonNegative(tiers)
    requires forall k :: 0 <= k < |tiers| && tiers[k].upTo.Some? ==> tiers[k].upTo.value >= 0.0
    ensures ContextFrom(tiers[i..], context, q).Ok? <==>
      (tiers[|tiers| - 1].upTo.Some? ==> context <= tiers[|tiers| - 1].upTo.value)
    ensures ContextFrom(tiers[i..], context, q).Err? ==> ContextFrom(tiers[i..], context, q).error == NoApplicableTier
    decreases |tiers| - i
  {
    var last := |tiers| - 1;
    assert tiers[i..][1..] == tiers[i + 1..];
    if i < last {
      ContextPricedIff(tiers, i + 1, context, q);
      BoundsGrow(tiers, i, last);
    } else {
      assert tiers[i + 1..] == [];
    }
  }

  lemma {:induction false} BoundsGrow(tiers: seq<PriceTier>, i: nat, j: nat)
    requires i < j < |tiers| && Increasing(tiers)
    ensures tiers[j].upTo.Some? ==> tiers[i].upTo.value < tiers[j].upTo.value
    decreases j
  {
    assert tiers[j].upTo.Some? ==> Start(tiers, j) < tiers[j].upTo.value;
    if j > i + 1 { BoundsGrow(tiers, i, j - 1); }
  }

  lemma {:induction false} ContextComponentPricedIff(component: Component, basis: Code, q: real, usage: Usage)
    requires ComponentAccepted(component) && component.tiers != [] && component.context == Some(basis)
    ensures var last := component.tiers[|component.tiers| - 1].upTo;
      AmountFor(component, q, usage).Ok? <==> (last.Some? ==> Quantity(usage, basis) <= last.value)
  {
    assert component.tiers[0..] == component.tiers;
    ContextPricedIff(component.tiers, 0, Quantity(usage, basis), q);
  }

  /** The tier that covers the context: the first one whose bound it does not exceed. */
  ghost predicate Covering(tiers: seq<PriceTier>, k: nat, context: real)
    requires k < |tiers|
  {
    && (tiers[k].upTo.Some? ==> context <= tiers[k].upTo.value)
    && forall j :: 0 <= j < k ==> tiers[j].upTo.Some? && tiers[j].upTo.value < context
  }

  lemma {:induction false} ContextPrice(tiers: seq<PriceTier>, context: real, q: real, k: nat)
    requires k < |tiers| && Covering(tiers, k, context) && PricesNonNegative(tiers)
    requires forall j :: 0 <= j < |tiers| && tiers[j].upTo.Some? ==> tiers[j].upTo.value >= 0.0
    ensures ContextFrom(tiers, context, q) == Ok(Priced(Cost(tiers[k].price, q), tiers[k].price))
  {
    hide Cost;
    if k > 0 {
      forall j | 0 <= j < |tiers[1..]|
        ensures tiers[1..][j] == tiers[j + 1]
      {
      }
      assert tiers[1..][k - 1] == tiers[k];
      ContextPrice(tiers[1..], context, q, k - 1);
    }
  }

  /** A context component charges the whole quantity at the price of the first tier that covers the
      context, and shows that price. */
  lemma {:induction false} ContextComponentCharge(component: Component, basis: Code, q: real, usage: Usage, k: nat)
    requires ComponentAccepted(component) && component.context == Some(basis)
    requires k < |component.tiers| && Covering(component.tiers, k, Quantity(usage, basis))
    ensures AmountFor(component, q, usage) == Ok(Priced(component.tiers[k].price * q, component.tiers[k].price))
  {
    assert Cost(component.tiers[k].price, q) == component.tiers[k].price * q;
    hide ContextFrom, Quantity, Cost, Covering;
    ContextPrice(component.tiers, Quantity(usage, basis), q, k);
    assert component.price >= 0.0;
  }

  /** Without tiers the whole quantity is charged at the component's price; a price below zero, such as
      one that is no number, is refused whatever the tiers. */
  lemma {:induction false} FlatComponentCharge(component: Component, q: real, usage: Usage)
    ensures component.price >= 0.0 && component.tiers == [] ==>
      AmountFor(component, q, usage) == Ok(Priced(component.price * q, component.price))
    ensures component.price < 0.0 ==> AmountFor(component, q, usage) == Err(InvalidPrice)
  {
    hide ContextFrom, GraduatedFrom, Quantity;
    assert Cost(component.price, q) == component.price * q;
    hide Cost;
  }

  // ----- lists that were never checked

  ghost predicate Malformed(t: PriceTier) {
    t.price < 0.0 || (t.upTo.Some? && t.upTo.value < 0.0)
  }

  /** A context list that is walked up to a malformed tier is refused there. */
  lemma {:induction false} ContextRefused(tiers: seq<PriceTier>, context: real, q: real, k: nat)
    requires k < |tiers| && Malformed(tiers[k])
    requires tiers[k].upTo.None? ==> tiers[k].price < 0.0
    requires forall j :: 0 <= j < k ==> !Malformed(tiers[j]) && tiers[j].upTo.Some? && tiers[j].upTo.value < context
    ensures ContextFrom(tiers, context, q) == Err(InvalidPrice)
  {
    hide Cost;
    if k > 0 {
      assert forall j :: 0 <= j < k - 1 ==> tiers[1..][j] == tiers[j + 1];
      assert tiers[1..][k - 1] == tiers[k];
      ContextRefused(tiers[1..], context, q, k - 1);
    }
  }

  /** What a graduated list must not have at tier k: a malformed tier, a bound that does not grow, or no
      bound before the last tier. */
  ghost predicate Broken(tiers: seq<PriceTier>, k: nat)
    requires k < |tiers|
  {
    || Malformed(tiers[k]) || (tiers[k].upTo.None? && k < |tiers| - 1)
    || (tiers[k].upTo.Some? && tiers[k].upTo.value <= Start(tiers, k))
  }

  lemma {:induction false} BrokenFrom(tiers: seq<PriceTier>, i: nat, lo: real, charged: Priced, q: real, k: nat)
    requires i <= k < |tiers| && Broken(tiers, k) && lo == Start(tiers, i)
    requires forall j :: i <= j < k ==> !Broken(tiers, j) && tiers[j].upTo.value < q
    ensures GraduatedFrom(tiers, i, lo, charged, q) == Err(InvalidPrice)
    decreases k - i
  {
    hide Cost;
    if i < k {
      var charged' := ChargedBy(tiers[i], lo, charged, q);
      assert !Broken(tiers, i);
      BrokenFrom(tiers, i + 1, tiers[i].upTo.value, charged', q, k);
    }
  }

  /** A graduated list that is walked up to such a tier is refused there. */
  lemma {:induction false} GraduatedRefused(component: Component, q: real, usage: Usage, k: nat)
    requires component.context.None? && k < |component.tiers| && Broken(component.tiers, k)
    requires forall j :: 0 <= j < k ==> !Broken(component.tiers, j) && component.tiers[j].upTo.value < q
    ensures AmountFor(component, q, usage) == Err(InvalidPrice)
  {
    BrokenFrom(component.tiers, 0, 0.0, Priced(0.0, component.price), q, k);
    hide GraduatedFrom;
  }
}
