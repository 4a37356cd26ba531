/** Meter codes.  A code text is a stem followed by service-tier suffixes
    ("cached_input_tokens" + "_priority"); `Code` is that text taken apart (`CodeTexts` has the
    texts).  `Other` holds every stem the program has no rule for. */
module Meters {
  import opened Results

  datatype Tier = Priority | Flex | Batches

  datatype Meter =
    | InputTokens | CachedInputTokens | CacheCreationTokens | CacheCreation1hTokens
    | InputAudioTokens | InputImageTokens | InputVideoTokens
    | CacheCreationAudioTokens | CachedAudioTokens | CachedImageTokens | CachedVideoTokens
    | OutputTokens | ReasoningTokens | OutputAudioTokens | OutputImageTokens | OutputVideoTokens
    | Requests | OutputImages | OutputSeconds | OutputVideoSeconds
    | OutputSeconds480p | OutputSeconds1080p | OutputSeconds4k
    | Other(name: string)

  datatype Code = Code(stem: Meter, suffixes: seq<Tier>)

  function Plain(m: Meter): Code { Code(m, []) }

  function TrimSuffix(c: Code, tier: Tier): Code {
    if c.suffixes != [] && c.suffixes[|c.suffixes| - 1] == tier
    then Code(c.stem, c.suffixes[..|c.suffixes| - 1])
    else c
  }

  /** Each tier suffix is tried once, in this order. */
  function ComponentBaseCode(c: Code): Code {
    TrimSuffix(TrimSuffix(TrimSuffix(c, Priority), Flex), Batches)
  }

  /** The sub-meters whose quantities are contained in a meter's own quantity. */
  function SubMeters(m: Meter): seq<Meter> {
    match m
    case InputTokens =>
      [CachedInputTokens, CacheCreationTokens, CacheCreation1hTokens,
       InputAudioTokens, InputImageTokens, InputVideoTokens]
    case OutputTokens => [ReasoningTokens, OutputAudioTokens, OutputImageTokens, OutputVideoTokens]
    case InputAudioTokens => [CacheCreationAudioTokens, CachedAudioTokens]
    case InputImageTokens => [CachedImageTokens]
    case InputVideoTokens => [CachedVideoTokens]
    case _ => []
  }

  /** How many levels of sub-meters lie below a meter. */
  function Depth(m: Meter): nat {
    match m
    case InputTokens => 2
    case OutputTokens | InputAudioTokens | InputImageTokens | InputVideoTokens => 1
    case _ => 0
  }

  /** The meter whose price a code inherits when it has none of its own.  The one-hour
      cache meter inherits from a sibling, so this is not the parent of `SubMeters`. */
  function PriceParent(c: Code): Option<Meter> {
    if c.suffixes == [] then
      match c.stem
      case CachedInputTokens | CacheCreationTokens => Some(InputTokens)
      case CacheCreation1hTokens => Some(CacheCreationTokens)
      case ReasoningTokens => Some(OutputTokens)
      case InputAudioTokens | InputImageTokens | InputVideoTokens => Some(InputTokens)
      case OutputAudioTokens | OutputImageTokens | OutputVideoTokens => Some(OutputTokens)
      case CacheCreationAudioTokens | CachedAudioTokens => Some(InputAudioTokens)
      case CachedImageTokens => Some(InputImageTokens)
      case CachedVideoTokens => Some(InputVideoTokens)
      case _ => None
    else if (c.stem == CachedInputTokens || c.stem == CacheCreationTokens)
         && (c.suffixes == [Priority] || c.suffixes == [Flex]) then Some(InputTokens)
    else None
  }

  /** Strictly decreasing along price inheritance. */
  function PriceRank(m: Meter): nat {
    match m
    case CacheCreation1hTokens | CacheCreationAudioTokens | CachedAudioTokens
       | CachedImageTokens | CachedVideoTokens => 2
    case CachedInputTokens | CacheCreationTokens | InputAudioTokens | InputImageTokens | InputVideoTokens
       | ReasoningTokens | OutputAudioTokens | OutputImageTokens | OutputVideoTokens => 1
    case _ => 0
  }

  lemma SubMetersShallower(m: Meter)
    ensures forall x :: x in SubMeters(m) ==> Depth(x) < Depth(m)
  {
  }

  /** A meter together with everything below it. */
  function Family(m: Meter): (ms: seq<Meter>)
    decreases Depth(m), 1, 0
  {
    SubMetersShallower(m);
    [m] + Families(SubMeters(m), Depth(m))
  }

  function Families(ms: seq<Meter>, depth: nat): seq<Meter>
    requires forall m :: m in ms ==> Depth(m) < depth
    decreases depth, 0, |ms|
  {
    if ms == [] then [] else Family(ms[0]) + Families(ms[1..], depth)
  }

  /** The total that contains a meter: the whole hierarchy hangs below these two. */
  function FamilyRoot(m: Meter): Option<Meter> {
    match m
    case InputTokens | CachedInputTokens | CacheCreationTokens | CacheCreation1hTokens | InputAudioTokens | InputImageTokens
       | InputVideoTokens | CacheCreationAudioTokens | CachedAudioTokens | CachedImageTokens | CachedVideoTokens =>
      Some(InputTokens)
    case OutputTokens | ReasoningTokens | OutputAudioTokens | OutputImageTokens | OutputVideoTokens => Some(OutputTokens)
    case _ => None
  }

  /** Plain codes of the two families. */
  predicate InAFamily(c: Code) {
    c.suffixes == [] && FamilyRoot(c.stem).Some?
  }

  lemma RootIsTotal(m: Meter)
    ensures FamilyRoot(m).Some? ==> FamilyRoot(m).value == InputTokens || FamilyRoot(m).value == OutputTokens
  {
  }

  /** Prices are inherited within a family, up to its total. */
  lemma PriceParentInFamily(m: Meter)
    requires FamilyRoot(m).Some? && m != FamilyRoot(m).value
    ensures PriceParent(Plain(m)).Some?
    ensures FamilyRoot(PriceParent(Plain(m)).value) == FamilyRoot(m) && PriceRank(PriceParent(Plain(m)).value) < PriceRank(m)
    ensures m != InputTokens && m != OutputTokens
  {
  }

  // ----- suffixes that strip completely

  /** The turn at which a suffix is tried. */
  function Turn(t: Tier): nat { match t case Priority => 0 case Flex => 1 case Batches => 2 }

  /** Read from the end the suffixes come in the order in which they are tried: batches stand before
      flex before priority, none twice. */
  ghost predicate InStripOrder(suffixes: seq<Tier>) {
    forall i, j :: 0 <= i < j < |suffixes| ==> Turn(suffixes[i]) > Turn(suffixes[j])
  }

  lemma StrippedPrefix(c: Code, t: Tier)
    ensures TrimSuffix(c, t) == c || c.suffixes == TrimSuffix(c, t).suffixes + [t]
  {
  }

  lemma StripStep(c: Code, t: Tier)
    requires InStripOrder(c.suffixes) && forall i :: 0 <= i < |c.suffixes| ==> Turn(c.suffixes[i]) >= Turn(t)
    ensures var d := TrimSuffix(c, t);
      InStripOrder(d.suffixes) && forall i :: 0 <= i < |d.suffixes| ==> Turn(d.suffixes[i]) > Turn(t)
  {
    StrippedPrefix(c, t);
    var d := TrimSuffix(c, t);
    forall i | 0 <= i < |d.suffixes|
      ensures Turn(d.suffixes[i]) > Turn(t)
    {
      assert d.suffixes[i] == c.suffixes[i];
    }
  }

  lemma {:induction false} OrderedLength(suffixes: seq<Tier>, turn: int)
    requires InStripOrder(suffixes) && turn <= 2 && forall i :: 0 <= i < |suffixes| ==> Turn(suffixes[i]) > turn
    ensures |suffixes| <= 2 - turn
    decreases |suffixes|
  {
    if suffixes != [] {
      var n := |suffixes| - 1;
      OrderedLength(suffixes[..n], Turn(suffixes[n]));
    }
  }

  lemma UnstripStep(c: Code, t: Tier)
    requires var d := TrimSuffix(c, t);
      InStripOrder(d.suffixes) && forall i :: 0 <= i < |d.suffixes| ==> Turn(d.suffixes[i]) > Turn(t)
    ensures InStripOrder(c.suffixes) && forall i :: 0 <= i < |c.suffixes| ==> Turn(c.suffixes[i]) >= Turn(t)
  {
    StrippedPrefix(c, t);
  }

  /** Everything is stripped exactly if the suffixes stand in the reverse of the order they are tried. */
  lemma {:induction false} StripsCompletelyIff(c: Code)
    ensures ComponentBaseCode(c) == Plain(c.stem) <==> InStripOrder(c.suffixes)
  {
    var c1 := TrimSuffix(c, Priority);
    var c2 := TrimSuffix(c1, Flex);
    var c3 := TrimSuffix(c2, Batches);
    hide TrimSuffix;
    if InStripOrder(c.suffixes) {
      StripStep(c, Priority);
      StripStep(c1, Flex);
      StripStep(c2, Batches);
      OrderedLength(c3.suffixes, Turn(Batches));
    }
    if c3.suffixes == [] {
      UnstripStep(c2, Batches);
      UnstripStep(c1, Flex);
      UnstripStep(c, Priority);
    }
    SameStem(c, Priority);
    SameStem(c1, Flex);
    SameStem(c2, Batches);
  }

  lemma SameStem(c: Code, t: Tier)
    ensures TrimSuffix(c, t).stem == c.stem
  {
  }

  /** Stripping twice differs from stripping once exactly if the suffixes do not stand in that order. */
  lemma {:induction false} BaseCodeIdempotentIff(c: Code)
    ensures ComponentBaseCode(ComponentBaseCode(c)) == ComponentBaseCode(c) <==> InStripOrder(c.suffixes)
    ensures ComponentBaseCode(Code(InputTokens, [Priority, Flex])) == Code(InputTokens, [Priority])
  {
    var d := Code(InputTokens, [Priority, Flex]);
    assert [Priority, Flex][..1] == [Priority];
    StripsCompletelyIff(c);
    var b := ComponentBaseCode(c);
    hide InStripOrder;
    if b.suffixes == [] {
      assert b == Plain(c.stem);
    } else {
      StripsSomething(b);
    }
  }

  lemma StripsSomething(c: Code)
    requires c.suffixes != []
    ensures ComponentBaseCode(c) != c
  {
    StrippedPrefix(c, Priority);
    StrippedPrefix(TrimSuffix(c, Priority), Flex);
    StrippedPrefix(TrimSuffix(TrimSuffix(c, Priority), Flex), Batches);
  }
}
