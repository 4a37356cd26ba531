/** Which price a meter is charged at, code by code. */
module PriceInheritance {
  import opened Results
  import opened Meters
  import opened CodeTexts
  import opened Charging
  import opened ChargeLaws

  /** The tier price of a code is published under its text with the tier's suffix. */
  lemma {:induction false} TierCodeText(c: Code)
    ensures Text(TierCode(c, Priority)) == Text(c) + "_priority"
    ensures Text(TierCode(c, Flex)) == Text(c) + "_flex"
    ensures Text(TierCode(c, Batches)) == Text(c) + "_batches"
  {
    forall t
      ensures Text(TierCode(c, t)) == Text(c) + SuffixText(t)
    {
      ExtendedByTier(c, t);
    }
  }

  lemma ExtendedByTier(c: Code, t: Tier)
    ensures Text(Code(c.stem, c.suffixes + [t])) == Text(c) + SuffixText(t)
  {
    hide StemText, SuffixText;
    var suffixes := c.suffixes + [t];
    assert suffixes[..|suffixes| - 1] == c.suffixes;
  }

  /** The tier's own price comes first, then the price of the code. */
  lemma {:induction false} TierPriceFirst(index: Index, c: Code, tier: Option<Tier>)
    ensures tier.Some? && Code(c.stem, c.suffixes + [tier.value]) in index ==>
      ComponentForMeter(index, c, tier) == Some(index[Code(c.stem, c.suffixes + [tier.value])])
    ensures c in index && (tier.Some? ==> Code(c.stem, c.suffixes + [tier.value]) !in index) ==>
      ComponentForMeter(index, c, tier) == Some(index[c])
  {
    hide PriceParent;
  }

  /** Nothing is published for the code itself. */
  predicate Bare(index: Index, c: Code, tier: Option<Tier>) {
    c !in index && (tier.Some? ==> Code(c.stem, c.suffixes + [tier.value]) !in index)
  }

  /** Without a price of its own the code is charged like m. */
  predicate ChargedLike(index: Index, tier: Option<Tier>, c: Code, m: Meter) {
    Bare(index, c, tier) ==> ComponentForMeter(index, c, tier) == ComponentForMeter(index, Plain(m), tier)
  }

  /** The codes that fall back on another meter's price. */
  const FALLBACKS: set<Code> :=
    {Plain(CachedInputTokens), Plain(CacheCreationTokens), Plain(CacheCreation1hTokens), Plain(ReasoningTokens),
     Plain(InputAudioTokens), Plain(InputImageTokens), Plain(InputVideoTokens),
     Plain(OutputAudioTokens), Plain(OutputImageTokens), Plain(OutputVideoTokens),
     Plain(CacheCreationAudioTokens), Plain(CachedAudioTokens), Plain(CachedImageTokens), Plain(CachedVideoTokens),
     Code(CachedInputTokens, [Priority]), Code(CachedInputTokens, [Flex]),
     Code(CacheCreationTokens, [Priority]), Code(CacheCreationTokens, [Flex])}

  /** The fallback of every code that has one... */
  lemma {:induction false} FallbackPrices(index: Index, tier: Option<Tier>)
    ensures ChargedLike(index, tier, Plain(CachedInputTokens), InputTokens)
    ensures ChargedLike(index, tier, Plain(CacheCreationTokens), InputTokens)
    ensures ChargedLike(index, tier, Plain(CacheCreation1hTokens), CacheCreationTokens)
    ensures ChargedLike(index, tier, Plain(ReasoningTokens), OutputTokens)
    ensures ChargedLike(index, tier, Plain(InputAudioTokens), InputTokens)
    ensures ChargedLike(index, tier, Plain(InputImageTokens), InputTokens)
    ensures ChargedLike(index, tier, Plain(InputVideoTokens), InputTokens)
    ensures ChargedLike(index, tier, Plain(OutputAudioTokens), OutputTokens)
    ensures ChargedLike(index, tier, Plain(OutputImageTokens), OutputTokens)
    ensures ChargedLike(index, tier, Plain(OutputVideoTokens), OutputTokens)
    ensures ChargedLike(index, tier, Plain(CacheCreationAudioTokens), InputAudioTokens)
    ensures ChargedLike(index, tier, Plain(CachedAudioTokens), InputAudioTokens)
    ensures ChargedLike(index, tier, Plain(CachedImageTokens), InputImageTokens)
    ensures ChargedLike(index, tier, Plain(CachedVideoTokens), InputVideoTokens)
    ensures ChargedLike(index, tier, Code(CachedInputTokens, [Priority]), InputTokens)
    ensures ChargedLike(index, tier, Code(CachedInputTokens, [Flex]), InputTokens)
    ensures ChargedLike(index, tier, Code(CacheCreationTokens, [Priority]), InputTokens)
    ensures ChargedLike(index, tier, Code(CacheCreationTokens, [Flex]), InputTokens)
  {
    hide ComponentForMeter, Bare, ChargedLike, PriceParent;
    ParentTable();
    ModalityParents();
    forall c, m | PriceParent(c) == Some(m)
      ensures ChargedLike(index, tier, c, m)
    {
      LikeParent(index, tier, c, m);
    }
  }

  lemma LikeParent(index: Index, tier: Option<Tier>, c: Code, m: Meter)
    requires PriceParent(c) == Some(m)
    ensures ChargedLike(index, tier, c, m)
  {
    NoOwnPrice(index, c, tier);
  }

  lemma ParentTable()
    ensures PriceParent(Plain(CachedInputTokens)) == Some(InputTokens) == PriceParent(Plain(CacheCreationTokens))
    ensures PriceParent(Plain(CacheCreation1hTokens)) == Some(CacheCreationTokens)
    ensures PriceParent(Plain(ReasoningTokens)) == Some(OutputTokens)
    ensures PriceParent(Plain(InputTokens)) == None == PriceParent(Plain(OutputTokens))
    ensures PriceParent(Code(CachedInputTokens, [Priority])) == Some(InputTokens) == PriceParent(Code(CachedInputTokens, [Flex]))
    ensures PriceParent(Code(CacheCreationTokens, [Priority])) == Some(InputTokens) == PriceParent(Code(CacheCreationTokens, [Flex]))
  {
  }

  lemma ModalityParents()
    ensures PriceParent(Plain(InputAudioTokens)) == Some(InputTokens) == PriceParent(Plain(InputImageTokens))
    ensures PriceParent(Plain(InputVideoTokens)) == Some(InputTokens)
    ensures PriceParent(Plain(OutputAudioTokens)) == Some(OutputTokens) == PriceParent(Plain(OutputImageTokens))
    ensures PriceParent(Plain(OutputVideoTokens)) == Some(OutputTokens)
    ensures PriceParent(Plain(CacheCreationAudioTokens)) == Some(InputAudioTokens) == PriceParent(Plain(CachedAudioTokens))
    ensures PriceParent(Plain(CachedImageTokens)) == Some(InputImageTokens)
    ensures PriceParent(Plain(CachedVideoTokens)) == Some(InputVideoTokens)
  {
  }

  /** ...and no other code has one. */
  lemma {:induction false} NoOtherFallback(index: Index, c: Code, tier: Option<Tier>)
    requires c !in FALLBACKS && Bare(index, c, tier)
    ensures ComponentForMeter(index, c, tier).None?
  {
    if c.suffixes == [] { assert c == Plain(c.stem); }
    NoOwnPrice(index, c, tier);
  }

  lemma NextInChain(c: Code)
    ensures PriceParent(c).None? ==> PriceChain(c) == [c]
    ensures PriceParent(c).Some? ==> PriceChain(c) == [c] + PriceChain(Plain(PriceParent(c).value))
  {
    hide PriceParent;
  }

  /** The chains in full: they follow the hierarchy, but for the one-hour cache meter, which goes by
      way of its sibling. */
  lemma {:induction false} PriceChains()
    ensures PriceChain(Plain(InputTokens)) == [Plain(InputTokens)] && PriceChain(Plain(OutputTokens)) == [Plain(OutputTokens)]
    ensures PriceChain(Plain(CachedInputTokens)) == [Plain(CachedInputTokens), Plain(InputTokens)]
    ensures PriceChain(Plain(CacheCreationTokens)) == [Plain(CacheCreationTokens), Plain(InputTokens)]
    ensures PriceChain(Plain(CacheCreation1hTokens)) ==
      [Plain(CacheCreation1hTokens), Plain(CacheCreationTokens), Plain(InputTokens)]
    ensures PriceChain(Plain(InputAudioTokens)) == [Plain(InputAudioTokens), Plain(InputTokens)]
    ensures PriceChain(Plain(InputImageTokens)) == [Plain(InputImageTokens), Plain(InputTokens)]
    ensures PriceChain(Plain(InputVideoTokens)) == [Plain(InputVideoTokens), Plain(InputTokens)]
    ensures PriceChain(Plain(CacheCreationAudioTokens)) ==
      [Plain(CacheCreationAudioTokens), Plain(InputAudioTokens), Plain(InputTokens)]
    ensures PriceChain(Plain(CachedAudioTokens)) == [Plain(CachedAudioTokens), Plain(InputAudioTokens), Plain(InputTokens)]
    ensures PriceChain(Plain(CachedImageTokens)) == [Plain(CachedImageTokens), Plain(InputImageTokens), Plain(InputTokens)]
    ensures PriceChain(Plain(CachedVideoTokens)) == [Plain(CachedVideoTokens), Plain(InputVideoTokens), Plain(InputTokens)]
    ensures PriceChain(Plain(ReasoningTokens)) == [Plain(ReasoningTokens), Plain(OutputTokens)]
    ensures PriceChain(Plain(OutputAudioTokens)) == [Plain(OutputAudioTokens), Plain(OutputTokens)]
    ensures PriceChain(Plain(OutputImageTokens)) == [Plain(OutputImageTokens), Plain(OutputTokens)]
    ensures PriceChain(Plain(OutputVideoTokens)) == [Plain(OutputVideoTokens), Plain(OutputTokens)]
  {
    hide PriceParent, PriceChain;
    ParentTable();
    ModalityParents();
    forall c
      ensures PriceParent(c).None? ==> PriceChain(c) == [c]
      ensures PriceParent(c).Some? ==> PriceChain(c) == [c] + PriceChain(Plain(PriceParent(c).value))
    {
      NextInChain(c);
    }
  }

  /** A sub-meter without a price falls back on the meter that contains it; only the one-hour cache
      meter falls back on a sibling. */
  lemma {:induction false} FallsBackOnContainer(index: Index, tier: Option<Tier>, p: Meter, m: Meter)
    requires m in SubMeters(p)
    ensures m != CacheCreation1hTokens ==> ChargedLike(index, tier, Plain(m), p)
    ensures m == CacheCreation1hTokens ==>
      p == InputTokens && CacheCreationTokens in SubMeters(p) && ChargedLike(index, tier, Plain(m), CacheCreationTokens)
  {
    FallbackPrices(index, tier);
    hide ChargedLike;
  }
}
