/** A prepared estimate can always be priced. */
module QuoteLaws {
  import opened Results
  import opened Rounding
  import opened Meters
  import opened CodeTexts
  import opened Metering
  import opened MeteringLaws
  import opened Tiers
  import opened Charging
  import opened ChargeLaws
  import opened IntakeLaws
  import opened Quotes

  // ----- dropping entries from a normalized map

  ghost predicate Part(f: Usage, n: Usage) {
    forall c :: c in f ==> c in n && f[c] == n[c]
  }

  lemma PartSound(f: Usage, n: Usage)
    requires Sound(n) && Part(f, n)
    ensures Sound(f)
  {
  }

  lemma {:induction false} ImpliedWithin(f: Usage, n: Usage, m: Meter)
    requires Sound(n) && Disjoint(n) && Part(f, n)
    ensures Implied(f, m) <= Quantity(n, Plain(m))
    decreases Depth(m), 1, 0
  {
    SubMetersShallower(m);
    hide OnGrid, SubMeters, Depth, TotalOf;
    if Plain(m) !in f {
      ImpliedAllWithin(f, n, SubMeters(m), Depth(m));
    }
  }

  lemma {:induction false} ImpliedAllWithin(f: Usage, n: Usage, ms: seq<Meter>, depth: nat)
    requires Sound(n) && Disjoint(n) && Part(f, n)
    requires forall m :: m in ms ==> Depth(m) < depth
    ensures ImpliedAll(f, ms, depth) <= TotalOf(n, ms)
    decreases depth, 0, |ms|
  {
    hide OnGrid, SubMeters, Depth, Disjoint, Sound, Part, Implied, Quantity;
    if ms != [] {
      ImpliedWithin(f, n, ms[0]);
      ImpliedAllWithin(f, n, ms[1..], depth);
    }
  }

  /** What is left of a disjoint map after dropping entries normalizes without cutting anything,
      and a total that had to be rebuilt has nothing of its own left to bill. */
  lemma {:induction false} PartNormalized(f: Usage, n: Usage)
    requires Sound(n) && Disjoint(n) && Part(f, n)
    ensures Sound(Normalized(f)) && Disjoint(Normalized(f))
    ensures forall c :: c in f ==> c in Normalized(f) && Normalized(f)[c] == f[c]
    ensures forall c :: c in Normalized(f) && c !in f ==> c.suffixes == [] && EffectiveQuantity(c, Normalized(f)) == 0.0
  {
    PartSound(f, n);
    ImpliedReached(f);
    var v := EnsureAll(f, BOTTOM_UP);
    RebuiltIsDisjoint(f, n, v);
    hide OnGrid, SubMeters, Clamped, Ensured, BOTTOM_UP, TOP_DOWN, Disjoint, EffectiveQuantity, FilledTo;
    LimitedLaw(v);
    assert Normalized(f) == v;
    forall c | c in v && c !in f
      ensures c.suffixes == [] && EffectiveQuantity(c, v) == 0.0
    {
      RebuiltHasNoRest(f, n, v, c);
    }
    FilledKeeps(f, v, BOTTOM_UP);
  }

  lemma FilledKeeps(f: Usage, v: Usage, done: seq<Meter>)
    requires FilledTo(f, v, done)
    ensures Sound(v)
    ensures forall c :: c in f ==> c in v && v[c] == f[c]
    ensures forall c :: c in v && c !in f ==> c.suffixes == [] && c.stem in done
    ensures forall m :: m in done || SubMeters(m) == [] ==> Quantity(v, Plain(m)) == Implied(f, m)
  {
    hide SubMeters, Implied, Sound;
  }

  lemma AllFilled(f: Usage, v: Usage)
    requires FilledTo(f, v, BOTTOM_UP)
    ensures forall m :: Quantity(v, Plain(m)) == Implied(f, m)
    ensures forall m :: TotalOf(v, SubMeters(m)) == (SubMetersShallower(m); ImpliedAll(f, SubMeters(m), Depth(m)))
  {
    BottomUpOrder();
    hide SubMeters, Implied, Depth, BOTTOM_UP;
    FilledKeeps(f, v, BOTTOM_UP);
    forall m
      ensures TotalOf(v, SubMeters(m)) == (SubMetersShallower(m); ImpliedAll(f, SubMeters(m), Depth(m)))
    {
      SubMetersShallower(m);
      ImpliedTotal(f, v, SubMeters(m), Depth(m));
    }
  }

  lemma RebuiltIsDisjoint(f: Usage, n: Usage, v: Usage)
    requires Sound(n) && Disjoint(n) && Part(f, n) && FilledTo(f, v, BOTTOM_UP)
    ensures Disjoint(v)
  {
    hide OnGrid, SubMeters, Depth, FilledTo, BOTTOM_UP, TotalOf;
    AllFilled(f, v);
    forall m
      ensures TotalOf(v, SubMeters(m)) <= Quantity(v, Plain(m))
    {
      SubMetersShallower(m);
      if Plain(m) in f { ImpliedAllWithin(f, n, SubMeters(m), Depth(m)); }
    }
  }

  lemma RebuiltHasNoRest(f: Usage, n: Usage, v: Usage, c: Code)
    requires Sound(n) && Disjoint(n) && Part(f, n) && FilledTo(f, v, BOTTOM_UP) && c in v && c !in f
    ensures c.suffixes == [] && EffectiveQuantity(c, v) == 0.0
  {
    hide OnGrid, SubMeters, Depth, FilledTo, BOTTOM_UP, TotalOf;
    FilledKeeps(f, v, BOTTOM_UP);
    AllFilled(f, v);
    RebuiltIsDisjoint(f, n, v);
    hide Disjoint, EffectiveQuantity;
    EffectiveExact(v, c);
    assert c == Plain(c.stem);
    SubMetersShallower(c.stem);
  }

  // ----- the implicit request meter

  lemma RequestsTopLevel(m: Meter)
    ensures Requests !in SubMeters(m) && SubMeters(Requests) == []
  {
  }

  lemma ImplicitKeepsTidy(components: seq<Component>, u: Usage, tier: Option<Tier>)
    requires Sound(u) && Disjoint(u) && UsageAccepted(AddImplicitRequestMetric(components, u, tier))
    ensures var v := AddImplicitRequestMetric(components, u, tier);
      Sound(v) && Disjoint(v) && Normalized(v) == v
  {
    hide Sound, SubMeters, UsageAccepted, Normalized, HasComponentForTier, Quantity, TotalOf;
    var v := AddImplicitRequestMetric(components, u, tier);
    AcceptedIsSound(v);
    forall m
      ensures TotalOf(v, SubMeters(m)) <= Quantity(v, Plain(m))
    {
      ImplicitKeepsSettled(components, u, tier, m);
    }
    hide Disjoint;
    NormalizedFixpointIff(v);
  }

  lemma ImplicitKeepsSettled(components: seq<Component>, u: Usage, tier: Option<Tier>, m: Meter)
    requires TotalOf(u, SubMeters(m)) <= Quantity(u, Plain(m))
    ensures var v := AddImplicitRequestMetric(components, u, tier);
      TotalOf(v, SubMeters(m)) <= Quantity(v, Plain(m))
  {
    hide SubMeters, HasComponentForTier;
    var v := AddImplicitRequestMetric(components, u, tier);
    RequestsTopLevel(m);
    TotalAgree(u, v, SubMeters(m));
    if m == Requests {
      assert TotalOf(v, []) == 0.0;
    }
  }

  lemma ImplicitKeepsEffective(components: seq<Component>, u: Usage, tier: Option<Tier>, c: Code)
    requires c != Plain(Requests)
    ensures EffectiveQuantity(c, AddImplicitRequestMetric(components, u, tier)) == EffectiveQuantity(c, u)
  {
    hide SubMeters, HasComponentForTier, Round30;
    var v := AddImplicitRequestMetric(components, u, tier);
    RequestsTopLevel(c.stem);
    TotalAgree(u, v, SubMeters(c.stem));
  }

  ghost predicate SameButRequests(u: Usage, v: Usage) {
    forall c :: c != Plain(Requests) ==> (c in u <==> c in v) && (c in u ==> u[c] == v[c])
  }

  lemma {:induction false} ImpliedSame(u: Usage, v: Usage, m: Meter)
    requires SameButRequests(u, v) && m != Requests
    ensures Implied(u, m) == Implied(v, m)
    decreases Depth(m), 1, 0
  {
    SubMetersShallower(m);
    RequestsTopLevel(m);
    hide SubMeters, Depth;
    assert Plain(m) != Plain(Requests);
    if Plain(m) !in u { ImpliedAllSame(u, v, SubMeters(m), Depth(m)); }
  }

  lemma {:induction false} ImpliedAllSame(u: Usage, v: Usage, ms: seq<Meter>, depth: nat)
    requires SameButRequests(u, v) && forall m :: m in ms ==> Depth(m) < depth && m != Requests
    ensures ImpliedAll(u, ms, depth) == ImpliedAll(v, ms, depth)
    decreases depth, 0, |ms|
  {
    hide SubMeters, Depth, Implied, SameButRequests;
    if ms != [] {
      assert forall m :: m in ms[1..] ==> m in ms;
      ImpliedSame(u, v, ms[0]);
      ImpliedAllSame(u, v, ms[1..], depth);
    }
  }

  // ----- the index

  lemma {:induction false} IndexFromLaw(components: seq<Component>, index: Index)
    ensures IndexFrom(components, index).Ok? ==>
      var r := IndexFrom(components, index).value;
      && (forall k :: k in index ==> k in r && r[k] == index[k])
      && (forall c :: c in components ==> c.code in r && r[c.code] == c)
      && (forall k :: k in r ==> k in index || r[k] in components)
    decreases |components|
  {
    hide ValidCode;
    if components != [] && components[0].code !in index {
      IndexFromLaw(components[1..], index[components[0].code := components[0]]);
    }
  }

  lemma RequestsPriced(components: seq<Component>, index: Index, tier: Option<Tier>)
    requires IndexComponents(components) == Ok(index) && HasComponentForTier(components, Requests, tier)
    ensures ComponentForMeter(index, Plain(Requests), tier).Some?
  {
    IndexFromLaw(components, map[]);
    assert tier.Some? ==> TierCode(Plain(Requests), tier.value) == Code(Requests, [tier.value]);
    hide IndexComponents;
  }

  /** A price list is indexed exactly if every entry has a valid code and a unit and no code occurs
      twice. */
  lemma {:induction false} IndexedIff(components: seq<Component>, index: Index)
    ensures IndexFrom(components, index).Ok? <==>
      && (forall i :: 0 <= i < |components| ==>
            ValidCode(components[i].code) && components[i].unit != "" && components[i].code !in index)
      && (forall i, j :: 0 <= i < j < |components| ==> components[i].code != components[j].code)
    ensures IndexFrom(components, index).Err? ==> IndexFrom(components, index).error in {InvalidComponent, DuplicateComponent}
    ensures IndexFrom(components, index) == Err(InvalidComponent) ==>
      exists i :: 0 <= i < |components| && (!ValidCode(components[i].code) || components[i].unit == "")
    decreases |components|
  {
    hide ValidCode;
    if components != [] {
      var c, rest := components[0], components[1..];
      assert forall i :: 0 <= i < |rest| ==> rest[i] == components[i + 1];
      IndexedIff(rest, index[c.code := c]);
      if IndexFrom(components, index).Ok? {
        forall i, j | 0 <= i < j < |components|
          ensures components[i].code != components[j].code
        {
          assert components[j] == rest[j - 1];
          if i > 0 { assert components[i] == rest[i - 1]; }
        }
        forall i | 0 <= i < |components|
          ensures ValidCode(components[i].code) && components[i].unit != "" && components[i].code !in index
        {
          if i > 0 { assert components[i] == rest[i - 1]; }
        }
      }
    }
  }

  /** Which entries of an estimate are kept: a plain one exactly if its meter has a price, a suffixed one
      exactly if what it strips to has both a price and something to bill. */
  lemma {:induction false} KeptIff(index: Index, u: Usage, tier: Option<Tier>, c: Code)
    ensures c.suffixes == [] ==> (Kept(index, u, tier, c) <==> ComponentForMeter(index, c, tier).Some?)
    ensures c.suffixes != [] ==>
      (Kept(index, u, tier, c) <==>
         EffectiveQuantity(ComponentBaseCode(c), u) > 0.0 && ComponentForMeter(index, ComponentBaseCode(c), tier).Some?)
  {
    if c.suffixes == [] { PlainBase(c); } else { StripsSomething(c); }
    hide ComponentBaseCode, EffectiveQuantity, ComponentForMeter;
  }

  // ----- every prepared estimate can be priced

  function Filtered(index: Index, n: Usage, tier: Option<Tier>): Usage {
    map c | c in n && Kept(index, n, tier, c) :: n[c]
  }

  lemma FilteredLaw(index: Index, n: Usage, tier: Option<Tier>)
    ensures Part(Filtered(index, n, tier), n)
    ensures forall c :: c in Filtered(index, n, tier) ==> ComponentForMeter(index, ComponentBaseCode(c), tier).Some?
  {
    hide ComponentBaseCode, EffectiveQuantity, ComponentForMeter;
  }

  lemma RebuiltBillsNothing(components: seq<Component>, f: Usage, n: Usage, tier: Option<Tier>, c: Code)
    requires Sound(n) && Disjoint(n) && Part(f, n) && c in Normalized(f) && c !in f && c != Plain(Requests)
    ensures EffectiveQuantity(ComponentBaseCode(c), AddImplicitRequestMetric(components, Normalized(f), tier)) == 0.0
  {
    hide EffectiveQuantity, ComponentBaseCode, Normalized, Disjoint, Sound, AddImplicitRequestMetric, Part;
    PartNormalized(f, n);
    PlainBase(c);
    ImplicitKeepsEffective(components, Normalized(f), tier, c);
  }

  lemma ImplicitBills(components: seq<Component>, index: Index, p: Usage, tier: Option<Tier>)
    requires IndexComponents(components) == Ok(index)
    requires EffectiveQuantity(Plain(Requests), AddImplicitRequestMetric(components, p, tier)) >
             EffectiveQuantity(Plain(Requests), p)
    ensures ComponentForMeter(index, Plain(Requests), tier).Some?
  {
    hide ComponentForMeter, IndexComponents, HasComponentForTier, EffectiveQuantity;
    if HasComponentForTier(components, Requests, tier) { RequestsPriced(components, index, tier); }
  }

  lemma PreparedCodePriced(components: seq<Component>, index: Index, n: Usage, tier: Option<Tier>, c: Code)
    requires IndexComponents(components) == Ok(index) && Sound(n) && Disjoint(n)
    requires var q := AddImplicitRequestMetric(components, Normalized(Filtered(index, n, tier)), tier);
      c in q && EffectiveQuantity(ComponentBaseCode(c), q) > 0.0
    ensures ComponentForMeter(index, ComponentBaseCode(c), tier).Some?
  {
    var f := Filtered(index, n, tier);
    var p := Normalized(f);
    var q := AddImplicitRequestMetric(components, p, tier);
    assert c in p || c == Plain(Requests) by { hide HasComponentForTier, Normalized, Filtered; }
    hide EffectiveQuantity, ComponentBaseCode, Normalized, Disjoint, IndexComponents, ComponentForMeter, AddImplicitRequestMetric,
         Filtered, Sound;
    FilteredLaw(index, n, tier);
    PartNormalized(f, n);
    if c !in f {
      if c == Plain(Requests) {
        PlainBase(c);
        AbsentBillsNothing(p, f);
        ImplicitBills(components, index, p, tier);
      } else {
        RebuiltBillsNothing(components, f, n, tier, c);
      }
    }
  }

  lemma AbsentBillsNothing(p: Usage, f: Usage)
    requires Plain(Requests) !in f
    requires forall c :: c in p && c !in f ==> EffectiveQuantity(c, p) == 0.0
    ensures EffectiveQuantity(Plain(Requests), p) == 0.0
  {
    RequestsTopLevel(Requests);
    hide SubMeters, TotalOf, Round30;
  }

  lemma ChargeOfTidy(components: seq<Component>, index: Index, u: Usage, minimum: real, tier: Option<Tier>)
    requires Sound(u) && Disjoint(u) && IndexComponents(components) == Ok(index)
    ensures var v := AddImplicitRequestMetric(components, u, tier);
      if UsageAccepted(v) then Charge(components, u, minimum, tier) == ChargeNormalized(index, v, minimum, tier)
      else Charge(components, u, minimum, tier) == Err(InvalidUsage)
  {
    hide Sound, Disjoint, UsageAccepted, Normalized, AddImplicitRequestMetric, IndexComponents, ChargeNormalized;
    if UsageAccepted(AddImplicitRequestMetric(components, u, tier)) { ImplicitKeepsTidy(components, u, tier); }
  }

  lemma PreparedIs(components: seq<Component>, u: Usage, tier: Option<Tier>)
    requires Prepared(components, u, tier).Ok?
    ensures UsageAccepted(u) && IndexComponents(components).Ok?
    ensures var f := Filtered(IndexComponents(components).value, Normalized(u), tier);
      UsageAccepted(f) && Prepared(components, u, tier).value == Normalized(f)
  {
    hide Kept, Normalized, UsageAccepted, IndexComponents;
  }

  lemma FilteredPriced(components: seq<Component>, index: Index, n: Usage, tier: Option<Tier>)
    requires IndexComponents(components) == Ok(index) && Sound(n) && Disjoint(n)
    ensures !Unpriced(index, AddImplicitRequestMetric(components, Normalized(Filtered(index, n, tier)), tier), tier)
  {
    hide Sound, EffectiveQuantity, Normalized, Disjoint, ComponentForMeter, AddImplicitRequestMetric, BillableCodes,
         IndexComponents, Filtered, ComponentBaseCode;
    var q := AddImplicitRequestMetric(components, Normalized(Filtered(index, n, tier)), tier);
    forall b | b in BillableCodes(q)
      ensures ComponentForMeter(index, b, tier).Some?
    {
      var c := BillableSource(q, b);
      PreparedCodePriced(components, index, n, tier, c);
    }
  }

  lemma FailsForPriceIff(index: Index, u: Usage, minimum: real, tier: Option<Tier>)
    ensures ChargeNormalized(index, u, minimum, tier) == Err(PriceNotConfigured) <==> Unpriced(index, u, tier)
  {
    hide LineFor, BillableCodes, LineAmounts, Round30, ComponentForMeter;
  }

  /** Whatever the estimate and the price list, pricing a prepared estimate never fails for want
      of a price: unpriced meters are gone and rebuilt totals bill nothing of their own. */
  lemma {:induction false} PreparedAlwaysPriced(components: seq<Component>, u: Usage, minimum: real, tier: Option<Tier>)
    requires Prepared(components, u, tier).Ok?
    ensures Charge(components, Prepared(components, u, tier).value, minimum, tier) != Err(PriceNotConfigured)
  {
    PreparedIs(components, u, tier);
    AcceptedIsSound(u);
    hide Sound, EffectiveQuantity, UsageAccepted, Normalized, Disjoint, AddImplicitRequestMetric, Part, Unpriced,
         ChargeNormalized, IndexComponents, Prepared, Charge, Filtered;
    var index := IndexComponents(components).value;
    var n := Normalized(u);
    var f := Filtered(index, n, tier);
    NormalizedIsDisjoint(u);
    FilteredLaw(index, n, tier);
    PartNormalized(f, n);
    ChargeOfTidy(components, index, Normalized(f), minimum, tier);
    FilteredPriced(components, index, n, tier);
    FailsForPriceIff(index, AddImplicitRequestMetric(components, Normalized(f), tier), minimum, tier);
  }

  lemma BillableSource(u: Usage, b: Code) returns (c: Code)
    requires b in BillableCodes(u)
    ensures c in u && ComponentBaseCode(c) == b && EffectiveQuantity(b, u) > 0.0
  {
    hide EffectiveQuantity, ComponentBaseCode;
    c :| c in u && ComponentBaseCode(c) == b && EffectiveQuantity(b, u) > 0.0;
  }
}
