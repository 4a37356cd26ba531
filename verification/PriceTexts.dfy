/** Price texts: a published list is stored in normal form, and the stored list means the same. */
module PriceTexts {
  import opened Results
  import opened Numerals
  import opened Rounding
  import opened Meters
  import opened CodeTexts
  import opened Tiers
  import Text = DecimalText
  import Laws = DecimalLaws

  datatype TierText = TierText(upTo: string, price: string)

  datatype ComponentText = ComponentText(code: Code, unit: string, price: string, tiers: seq<TierText>, context: Option<Code>)

  function PriceForm(s: string): Option<string> { Text.CanonicalDecimal(s, 24, 30) }

  function QuantityForm(s: string): Option<string> { Text.CanonicalDecimal(s, 30, 30) }

  predicate NoBound(t: TierText) { Text.TrimSpace(t.upTo) == "" }

  // ----- what a text means to the calculator

  /** A text that is no decimal reads as a negative price, which every use refuses. */
  function Read(s: string): real {
    match Laws.TextValue(s)
    case None => -1.0
    case Some(v) => v
  }

  function ReadTier(t: TierText): PriceTier {
    PriceTier(if NoBound(t) then None else Some(Read(t.upTo)), Read(t.price))
  }

  function ReadTiers(ts: seq<TierText>): seq<PriceTier> {
    seq(|ts|, i requires 0 <= i < |ts| => ReadTier(ts[i]))
  }

  function ReadComponent(c: ComponentText): Component {
    Component(c.code, c.unit, Read(c.price), ReadTiers(c.tiers), c.context)
  }

  // ----- accepted texts are accepted values

  lemma GridIsThirtyDigitsIff(v: real)
    ensures Laws.HasScale(v, 30) <==> OnGrid(v) && v >= 0.0
  {
    hide Laws.HasScale;
    if Laws.HasScale(v, 30) { Laws.GridIsThirtyDigits(v, 30); }
    if OnGrid(v) && v >= 0.0 { GridHasThirtyDigits(v); }
  }

  lemma GridHasThirtyDigits(v: real)
    requires OnGrid(v) && v >= 0.0
    ensures Laws.HasScale(v, 30)
  {
    var n :| v == Units(n);
    assert n >= 0;
    hide Units, Scaled;
    Laws.UnitsAreScaled(n);
  }

  lemma DigitLimits()
    ensures Scaled(P10(24), 0) == PRICE_LIMIT && Scaled(P10(30), 0) == SCALE
  {
    assert P10(4) == 10000 && P10(10) == 10_000_000_000;
    assert Power(0) == 1.0;
    hide P10;
    P10Sum(10, 10);
    P10Sum(20, 4);
    P10Sum(20, 10);
  }

  /** The digit bounds of the text are the numeric bounds of its value: 24 integer digits for a
      price, 30 for a quantity, thirty decimals for both. */
  lemma {:induction false} AcceptedTextIff(s: string)
    ensures PriceForm(s).Some? <==> Laws.TextValue(s).Some? && PriceAccepted(Laws.TextValue(s).value)
    ensures QuantityForm(s).Some? <==> Laws.TextValue(s).Some? && QuantityAccepted(Laws.TextValue(s).value)
  {
    hide Text.CanonicalDecimal, Laws.TextValue, Scaled, P10, Laws.HasScale, OnGrid;
    DigitLimits();
    Laws.CanonicalDecimalAcceptsIff(s, 24, 30);
    Laws.CanonicalDecimalAcceptsIff(s, 30, 30);
    if v :| Laws.TextValue(s) == Some(v) { GridIsThirtyDigitsIff(v); }
  }

  predicate TierTextAccepted(t: TierText) {
    PriceForm(t.price).Some? && (!NoBound(t) ==> QuantityForm(t.upTo).Some?)
  }

  /** A published tier passes the text checks exactly when the values it reads as are acceptable. */
  lemma {:induction false} TierTextAcceptedIff(t: TierText)
    ensures TierTextAccepted(t) <==>
      PriceAccepted(ReadTier(t).price) && (ReadTier(t).upTo.Some? ==> QuantityAccepted(ReadTier(t).upTo.value))
  {
    hide PriceForm, QuantityForm, Laws.TextValue, OnGrid, NoBound;
    AcceptedTextIff(t.price);
    AcceptedTextIff(t.upTo);
  }

  // ----- normalization keeps the meaning

  function NormalTier(t: TierText): TierText
    requires TierTextAccepted(t)
  {
    TierText(if NoBound(t) then t.upTo else QuantityForm(t.upTo).value, PriceForm(t.price).value)
  }

  predicate TierTextsAccepted(ts: seq<TierText>) {
    forall i :: 0 <= i < |ts| ==> TierTextAccepted(ts[i])
  }

  lemma SameReading(s: string)
    ensures PriceForm(s).Some? ==> Read(PriceForm(s).value) == Read(s) && PriceForm(PriceForm(s).value) == PriceForm(s)
    ensures QuantityForm(s).Some? ==> Read(QuantityForm(s).value) == Read(s) && QuantityForm(QuantityForm(s).value) == QuantityForm(s)
    ensures PriceForm(s).Some? ==> Laws.Canonical(PriceForm(s).value)
    ensures QuantityForm(s).Some? ==> Laws.Canonical(QuantityForm(s).value)
  {
    hide Text.CanonicalDecimal, Laws.TextValue, Laws.Canonical, Laws.PlainValue;
    Laws.CanonicalDecimalValue(s, 24, 30);
    Laws.CanonicalDecimalValue(s, 30, 30);
    if PriceForm(s).Some? {
      Laws.NormalOfCanonical(PriceForm(s).value);
      Laws.CanonicalDecimalIdempotent(s, 24, 30);
    }
    if QuantityForm(s).Some? {
      Laws.NormalOfCanonical(QuantityForm(s).value);
      Laws.CanonicalDecimalIdempotent(s, 30, 30);
    }
  }

  /** A price and a bound, unless it is missing, without superfluous zeros, signs or exponents. */
  ghost predicate NormalTexts(t: TierText) {
    Laws.Canonical(t.price) && (!NoBound(t) ==> Laws.Canonical(t.upTo))
  }

  /** The stored tiers are accepted again, read as the published ones, are written in normal form and
      are not rewritten again. */
  lemma {:induction false} NormalTierMeansTheSame(t: TierText)
    requires TierTextAccepted(t)
    ensures var n := NormalTier(t);
      && ReadTier(n) == ReadTier(t) && (NoBound(n) <==> NoBound(t))
      && TierTextAccepted(n) && NormalTier(n) == n && NormalTexts(n)
  {
    hide Laws.Canonical;
    SameReading(t.price);
    SameReading(t.upTo);
    if !NoBound(t) { FormNotBlank(t.upTo); }
  }

  lemma FormNotBlank(s: string)
    requires QuantityForm(s).Some?
    ensures Text.TrimSpace(QuantityForm(s).value) != ""
  {
    SameReading(s);
    BlankHasNoForm(QuantityForm(s).value);
  }

  lemma BlankHasNoForm(s: string)
    ensures Text.TrimSpace(s) == "" ==> QuantityForm(s).None?
  {
    hide Text.TrimSpace;
  }

  /** Rewrites the tiers of one component in place. */
  method NormalizeTiers(tiers: array<TierText>)
    requires TierTextsAccepted(tiers[..])
    modifies tiers
    ensures TierTextsAccepted(tiers[..]) && ReadTiers(tiers[..]) == ReadTiers(old(tiers[..]))
    ensures forall i :: 0 <= i < tiers.Length ==>
      NormalTexts(tiers[i]) && tiers[i] == NormalTier(old(tiers[i])) == NormalTier(tiers[i])
  {
    hide TierTextAccepted, NormalTier, ReadTier, NormalTexts;
    ghost var was := tiers[..];
    for i := 0 to tiers.Length
      invariant forall k :: 0 <= k < i ==> tiers[k] == NormalTier(was[k])
      invariant forall k :: i <= k < tiers.Length ==> tiers[k] == was[k]
    {
      tiers[i] := NormalizeTier(tiers[i]);
    }
    forall i | 0 <= i < tiers.Length
      ensures TierTextAccepted(tiers[i])
      ensures ReadTier(tiers[i]) == ReadTier(was[i]) && NormalTier(tiers[i]) == tiers[i] && NormalTexts(tiers[i])
    {
      NormalTierMeansTheSame(was[i]);
    }
  }

  method NormalizeTier(t: TierText) returns (r: TierText)
    requires TierTextAccepted(t)
    ensures r == NormalTier(t)
  {
    hide PriceForm, QuantityForm, NoBound;
    r := t.(price := PriceForm(t.price).value);
    if !NoBound(t) {
      r := r.(upTo := QuantityForm(t.upTo).value);
    }
  }

  // ----- a whole list

  function ReadAll(cs: seq<ComponentText>): seq<Component> {
    seq(|cs|, i requires 0 <= i < |cs| => ReadComponent(cs[i]))
  }

  /** Every text of the component in normal form. */
  ghost predicate Normal(c: ComponentText) {
    Laws.Canonical(c.price) && forall t :: t in c.tiers ==> NormalTexts(t)
  }

  lemma AcceptedTexts(c: ComponentText)
    requires ComponentAccepted(ReadComponent(c))
    ensures PriceForm(c.price).Some? && TierTextsAccepted(c.tiers)
  {
    hide PriceForm, TierTextAccepted, OnGrid, Laws.TextValue, ReadTier, ValidCode, Increasing;
    AcceptedTextIff(c.price);
    forall i | 0 <= i < |c.tiers|
      ensures TierTextAccepted(c.tiers[i])
    {
      assert ReadTiers(c.tiers)[i] == ReadTier(c.tiers[i]);
      TierTextAcceptedIff(c.tiers[i]);
    }
  }

  method NormalizeComponent(c: ComponentText) returns (r: ComponentText)
    requires PriceForm(c.price).Some? && TierTextsAccepted(c.tiers)
    ensures ReadComponent(r) == ReadComponent(c) && Normal(r)
  {
    hide PriceForm, TierTextAccepted, Laws.TextValue, ReadTier, NormalTier, Read, NormalTexts, Laws.Canonical;
    SameReading(c.price);
    var tiers := new TierText[|c.tiers|](i requires 0 <= i < |c.tiers| => c.tiers[i]);
    assert tiers[..] == c.tiers;
    NormalizeTiers(tiers);
    r := c.(price := PriceForm(c.price).value, tiers := tiers[..]);
  }

  /** A list is stored exactly if it is acceptable, every text of it in normal form, and then it
      reads as the list that was published: the same codes, units, prices and tiers in order. */
  method NormalizePriceComponents(cs: seq<ComponentText>) returns (r: Result<seq<ComponentText>>)
    ensures r.Ok? <==> ComponentsAccepted(ReadAll(cs))
    ensures r.Err? ==> r.error == InvalidPrice
    ensures r.Ok? ==> ReadAll(r.value) == ReadAll(cs) && forall i :: 0 <= i < |r.value| ==> Normal(r.value[i])
  {
    hide PriceForm, TierTextsAccepted, ReadComponent, ComponentAccepted, Normal;
    var ok := ValidatePriceComponents(ReadAll(cs));
    if !ok { return Err(InvalidPrice); }
    var result: seq<ComponentText> := [];
    for i := 0 to |cs|
      invariant |result| == i
      invariant forall k :: 0 <= k < i ==> ReadComponent(result[k]) == ReadComponent(cs[k]) && Normal(result[k])
    {
      assert ReadAll(cs)[i] == ReadComponent(cs[i]);
      AcceptedTexts(cs[i]);
      var component := NormalizeComponent(cs[i]);
      result := result + [component];
    }
    return Ok(result);
  }
}
