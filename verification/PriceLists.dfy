/** Published price lists: overrides laid over a base list, one entry for each code. */
module PriceLists {
  import opened Results
  import opened Meters
  import opened CodeTexts
  import opened Tiers
  import opened Charging
  import opened Quotes
  import opened QuoteLaws

  predicate Blank(c: Code) { c == Plain(Other("")) }

  /** Codes in the order in which they first occur; blank codes are skipped. */
  function FirstCodes(cs: seq<Component>): seq<Code> {
    if cs == [] then []
    else
      var n := |cs| - 1;
      var codes := FirstCodes(cs[..n]);
      if Blank(cs[n].code) || cs[n].code in codes then codes else codes + [cs[n].code]
  }

  /** The last entry for a code. */
  function LastOf(cs: seq<Component>, code: Code): Option<Component> {
    if cs == [] then None
    else if cs[|cs| - 1].code == code then Some(cs[|cs| - 1])
    else LastOf(cs[..|cs| - 1], code)
  }

  /** One entry for each code, in order of first occurrence, and the last one written. */
  ghost predicate MergeOf(result: seq<Component>, cs: seq<Component>) {
    && |result| == |FirstCodes(cs)|
    && forall i :: 0 <= i < |result| ==> LastOf(cs, FirstCodes(cs)[i]) == Some(result[i])
  }

  lemma {:induction false} FirstCodesLaw(cs: seq<Component>)
    ensures forall i, j :: 0 <= i < j < |FirstCodes(cs)| ==> FirstCodes(cs)[i] != FirstCodes(cs)[j]
    ensures forall c :: c in FirstCodes(cs) <==> !Blank(c) && LastOf(cs, c).Some?
  {
    if cs != [] { FirstCodesLaw(cs[..|cs| - 1]); }
  }

  lemma {:induction false} LastOfLaw(cs: seq<Component>, code: Code)
    ensures LastOf(cs, code).Some? ==> LastOf(cs, code).value in cs && LastOf(cs, code).value.code == code
    ensures LastOf(cs, code).None? <==> forall c :: c in cs ==> c.code != code
  {
    if cs != [] {
      var rest := cs[..|cs| - 1];
      LastOfLaw(rest, code);
      assert cs == rest + [cs[|cs| - 1]];
    }
  }

  lemma FirstCodesSnoc(cs: seq<Component>, c: Component)
    ensures FirstCodes(cs + [c]) ==
      if Blank(c.code) || c.code in FirstCodes(cs) then FirstCodes(cs) else FirstCodes(cs) + [c.code]
    ensures forall code :: LastOf(cs + [c], code) == if c.code == code then Some(c) else LastOf(cs, code)
  {
    assert (cs + [c])[..|cs|] == cs;
  }

  /** One more entry: skipped when blank, in the place of its code if that occurred before, else last. */
  lemma MergeStep(result: seq<Component>, cs: seq<Component>, c: Component)
    requires MergeOf(result, cs)
    ensures Blank(c.code) ==> MergeOf(result, cs + [c])
    ensures forall k :: 0 <= k < |result| && FirstCodes(cs)[k] == c.code ==> MergeOf(result[k := c], cs + [c])
    ensures !Blank(c.code) && c.code !in FirstCodes(cs) ==> MergeOf(result + [c], cs + [c])
  {
    FirstCodesSnoc(cs, c);
    FirstCodesLaw(cs);
    hide FirstCodes, LastOf, Blank;
  }

  method MergePriceComponentInputs(base: seq<Component>, overrides: seq<Component>) returns (result: seq<Component>)
    ensures MergeOf(result, base + overrides)
  {
    hide FirstCodes, LastOf, Blank;
    var all := base + overrides;
    result := [];
    var indexByCode: map<Code, nat> := map[];
    assert all[..0] == [];
    NothingMerged();
    for i := 0 to |all|
      invariant MergeOf(result, all[..i])
      invariant forall c :: c in indexByCode <==> c in FirstCodes(all[..i])
      invariant forall c :: c in indexByCode ==> indexByCode[c] < |result| && FirstCodes(all[..i])[indexByCode[c]] == c
    {
      var component := all[i];
      assert all[..i + 1] == all[..i] + [component];
      FirstCodesSnoc(all[..i], component);
      MergeStep(result, all[..i], component);
      if Blank(component.code) { continue; }
      if component.code in indexByCode {
        result := result[indexByCode[component.code] := component];
        continue;
      }
      indexByCode := indexByCode[component.code := |result|];
      result := result + [component];
    }
    assert all[..|all|] == all;
  }

  lemma NothingMerged()
    ensures FirstCodes([]) == [] && MergeOf([], [])
  {
  }

  lemma {:induction false} LastOfAppend(xs: seq<Component>, ys: seq<Component>, code: Code)
    ensures LastOf(xs + ys, code) == if LastOf(ys, code).Some? then LastOf(ys, code) else LastOf(xs, code)
    decreases |ys|
  {
    if ys == [] {
      assert xs + ys == xs;
    } else {
      assert (xs + ys)[..|xs + ys| - 1] == xs + ys[..|ys| - 1];
      LastOfAppend(xs, ys[..|ys| - 1], code);
    }
  }

  /** A merged list can always be indexed, if its codes and units are well-formed, and resolves each
      code to its override, or to the base entry that nothing overrides. */
  lemma {:induction false} MergedResolves(result: seq<Component>, base: seq<Component>, overrides: seq<Component>, code: Code)
    requires MergeOf(result, base + overrides) && !Blank(code)
    requires forall c :: c in base + overrides ==> ValidCode(c.code) && c.unit != ""
    ensures IndexComponents(result).Ok?
    ensures var index := IndexComponents(result).value;
      && (code in index <==> LastOf(overrides, code).Some? || LastOf(base, code).Some?)
      && (code in index ==>
            Some(index[code]) == if LastOf(overrides, code).Some? then LastOf(overrides, code) else LastOf(base, code))
  {
    var all := base + overrides;
    hide IndexComponents, ValidCode, FirstCodes, LastOf, IndexFrom;
    FirstCodesLaw(all);
    forall i | 0 <= i < |result|
      ensures result[i].code == FirstCodes(all)[i] && result[i] in all
    {
      LastOfLaw(all, FirstCodes(all)[i]);
    }
    DistinctIndexed(result);
    LastOfAppend(base, overrides, code);
    if code in FirstCodes(all) {
      var i :| 0 <= i < |result| && FirstCodes(all)[i] == code;
      assert result[i] in result;
    }
  }

  lemma DistinctIndexed(cs: seq<Component>)
    requires forall c :: c in cs ==> ValidCode(c.code) && c.unit != ""
    requires forall i, j :: 0 <= i < j < |cs| ==> cs[i].code != cs[j].code
    ensures IndexComponents(cs).Ok?
    ensures var index := IndexComponents(cs).value;
      (forall c :: c in cs ==> c.code in index && index[c.code] == c) && (forall k :: k in index ==> index[k] in cs && index[k].code == k)
  {
    hide ValidCode;
    IndexOfDistinct(cs, map[]);
    IndexFromLaw(cs, map[]);
    IndexCodes(cs, map[]);
  }

  lemma {:induction false} IndexOfDistinct(cs: seq<Component>, index: Index)
    requires forall c :: c in cs ==> ValidCode(c.code) && c.unit != "" && c.code !in index
    requires forall i, j :: 0 <= i < j < |cs| ==> cs[i].code != cs[j].code
    ensures IndexFrom(cs, index).Ok?
    decreases |cs|
  {
    hide ValidCode;
    if cs != [] {
      assert cs[0] in cs;
      IndexOfDistinct(cs[1..], index[cs[0].code := cs[0]]);
    }
  }

  lemma {:induction false} IndexCodes(cs: seq<Component>, index: Index)
    requires forall k :: k in index ==> index[k].code == k
    ensures IndexFrom(cs, index).Ok? ==> forall k :: k in IndexFrom(cs, index).value ==> IndexFrom(cs, index).value[k].code == k
    decreases |cs|
  {
    hide ValidCode;
    if cs != [] && cs[0].code !in index { IndexCodes(cs[1..], index[cs[0].code := cs[0]]); }
  }

  // ----- legacy prices

  /** The legacy price of a meter, if the price has one: blank ones never count, and for the details
      neither do zeros. */
  function LegacyPrice(price: Price, c: Code): Option<real> {
    if c.suffixes != [] then None
    else match c.stem
      case InputTokens => price.input
      case OutputTokens => price.output
      case CachedInputTokens => Charged(price.cachedInput)
      case CacheCreationTokens => Charged(price.cacheCreation)
      case ReasoningTokens => Charged(price.reasoning)
      case _ => None
  }

  function Charged(value: Option<real>): Option<real> {
    if value.Some? && value.value == 0.0 then None else value
  }

  ghost predicate Lists(cs: seq<Component>, code: Code) { exists c :: c in cs && c.code == code }

  /** The legacy entries of these meters: one for each that has a price. */
  ghost predicate LegacyOf(price: Price, cs: seq<Component>, ms: set<Meter>) {
    && (forall c :: c in cs ==>
          && LegacyPrice(price, c.code) == Some(c.price) && c.code.stem in ms && c.unit == "token" && c.tiers == []
          && ValidCode(c.code))
    && (forall m :: m in ms && LegacyPrice(price, Plain(m)).Some? ==> Lists(cs, Plain(m)))
    && (forall i, j :: 0 <= i < j < |cs| ==> cs[i].code != cs[j].code)
  }

  lemma OneLegacy(price: Price, m: Meter, value: Option<real>, fallback: bool)
    requires !m.Other? && LegacyPrice(price, Plain(m)) == if fallback then Charged(value) else value
    ensures LegacyOf(price, Legacy(m, value, fallback), {m})
  {
    hide LegacyPrice, ValidCode;
    NamedCodes(m);
    var cs := Legacy(m, value, fallback);
    if cs != [] { assert cs[0] in cs; }
  }

  lemma JoinLegacy(price: Price, cs: seq<Component>, ms: set<Meter>, one: seq<Component>, m: Meter)
    requires LegacyOf(price, cs, ms) && LegacyOf(price, one, {m}) && m !in ms
    ensures LegacyOf(price, cs + one, ms + {m})
  {
    hide LegacyPrice, ValidCode, Lists;
    forall x | x in ms + {m} && LegacyPrice(price, Plain(x)).Some?
      ensures Lists(cs + one, Plain(x))
    {
      ListsMore(cs, one, Plain(x));
    }
    forall i, j | 0 <= i < |cs| && 0 <= j < |one|
      ensures cs[i].code != one[j].code
    {
      assert cs[i] in cs && one[j] in one;
    }
  }

  lemma ListsMore(xs: seq<Component>, ys: seq<Component>, code: Code)
    ensures Lists(xs, code) || Lists(ys, code) ==> Lists(xs + ys, code)
  {
    if c :| c in xs && c.code == code { assert c in xs + ys; }
    if c :| c in ys && c.code == code { assert c in xs + ys; }
  }

  const LEGACY_METERS := {InputTokens, OutputTokens, CachedInputTokens, CacheCreationTokens, ReasoningTokens}

  lemma LegacyLaw(price: Price)
    ensures LegacyOf(price, LegacyPriceComponents(price), LEGACY_METERS)
  {
    hide LegacyOf, Legacy;
    OneLegacy(price, InputTokens, price.input, false);
    OneLegacy(price, OutputTokens, price.output, false);
    OneLegacy(price, CachedInputTokens, price.cachedInput, true);
    OneLegacy(price, CacheCreationTokens, price.cacheCreation, true);
    OneLegacy(price, ReasoningTokens, price.reasoning, true);
    hide LegacyPrice;
    var cs, ms := Legacy(InputTokens, price.input, false), {InputTokens};
    cs, ms := AddLegacy(price, cs, ms, Legacy(OutputTokens, price.output, false), OutputTokens);
    cs, ms := AddLegacy(price, cs, ms, Legacy(CachedInputTokens, price.cachedInput, true), CachedInputTokens);
    cs, ms := AddLegacy(price, cs, ms, Legacy(CacheCreationTokens, price.cacheCreation, true), CacheCreationTokens);
    cs, ms := AddLegacy(price, cs, ms, Legacy(ReasoningTokens, price.reasoning, true), ReasoningTokens);
    assert ms == LEGACY_METERS;
  }

  lemma AddLegacy(price: Price, cs: seq<Component>, ms: set<Meter>, one: seq<Component>, m: Meter)
    returns (cs': seq<Component>, ms': set<Meter>)
    requires LegacyOf(price, cs, ms) && LegacyOf(price, one, {m}) && m !in ms
    ensures cs' == cs + one && ms' == ms + {m} && LegacyOf(price, cs', ms')
  {
    hide LegacyOf;
    JoinLegacy(price, cs, ms, one, m);
    cs', ms' := cs + one, ms + {m};
  }

  lemma LegacyMeters(price: Price, code: Code)
    ensures LegacyPrice(price, code).Some? ==> code == Plain(code.stem) && code.stem in LEGACY_METERS
  {
  }

  lemma {:induction false} WithoutLaw(cs: seq<Component>, codes: set<Code>)
    ensures forall c :: c in Without(cs, codes) <==> c in cs && c.code !in codes
    ensures (forall i, j :: 0 <= i < j < |cs| ==> cs[i].code != cs[j].code) ==>
      forall i, j :: 0 <= i < j < |Without(cs, codes)| ==> Without(cs, codes)[i].code != Without(cs, codes)[j].code
  {
    if cs != [] {
      WithoutLaw(cs[1..], codes);
      assert forall c :: c in cs <==> c == cs[0] || c in cs[1..];
    }
  }

  /** A published component always wins over the legacy price of its code; legacy prices fill in for
      the five token meters that have one, and nothing else is ever priced. */
  lemma {:induction false} LegacyFillsGaps(price: Price, code: Code)
    requires forall c :: c in price.components ==> ValidCode(c.code) && c.unit != ""
    requires forall i, j :: 0 <= i < j < |price.components| ==> price.components[i].code != price.components[j].code
    ensures IndexComponents(price.components).Ok? && IndexComponents(PriceComponentsFor(price)).Ok?
    ensures var published, index := IndexComponents(price.components).value, IndexComponents(PriceComponentsFor(price)).value;
      && (code in published ==> code in index && index[code] == published[code])
      && (code !in published ==> (code in index <==> LegacyPrice(price, code).Some?))
      && (code !in published && code in index ==>
            Some(index[code].price) == LegacyPrice(price, code) && index[code].tiers == [])
  {
    hide IndexComponents, ValidCode, LegacyPriceComponents, LegacyPrice, Without, LEGACY_METERS;
    LegacyMeters(price, code);
    var legacy, codes := LegacyPriceComponents(price), CodesOf(price.components);
    var rest := Without(legacy, codes);
    LegacyLaw(price);
    WithoutLaw(legacy, codes);
    DistinctIndexed(price.components);
    assert PriceComponentsFor(price) == price.components + rest;
    JoinedDistinct(price.components, rest);
    DistinctIndexed(price.components + rest);
  }

  lemma JoinedDistinct(xs: seq<Component>, ys: seq<Component>)
    requires forall i, j :: 0 <= i < j < |xs| ==> xs[i].code != xs[j].code
    requires forall i, j :: 0 <= i < j < |ys| ==> ys[i].code != ys[j].code
    requires forall y :: y in ys ==> y.code !in CodesOf(xs)
    ensures forall i, j :: 0 <= i < j < |xs + ys| ==> (xs + ys)[i].code != (xs + ys)[j].code
  {
    forall i, j | 0 <= i < |xs| && 0 <= j < |ys|
      ensures xs[i].code != ys[j].code
    {
      assert xs[i] in xs && ys[j] in ys;
    }
  }
}
