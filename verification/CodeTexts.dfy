/** Code texts: a stem followed by tier suffixes.  Taking a text apart and writing a code down are
    inverse to each other, so a code stands for exactly one text. */
module CodeTexts {
  import opened Meters

  function SuffixText(t: Tier): string {
    match t case Priority => "_priority" case Flex => "_flex" case Batches => "_batches"
  }

  function StemText(m: Meter): string {
    match m
    case InputTokens => "input_tokens"
    case CachedInputTokens => "cached_input_tokens"
    case CacheCreationTokens => "cache_creation_tokens"
    case CacheCreation1hTokens => "cache_creation_1h_tokens"
    case InputAudioTokens => "input_audio_tokens"
    case InputImageTokens => "input_image_tokens"
    case InputVideoTokens => "input_video_tokens"
    case CacheCreationAudioTokens => "cache_creation_audio_tokens"
    case CachedAudioTokens => "cached_audio_tokens"
    case CachedImageTokens => "cached_image_tokens"
    case CachedVideoTokens => "cached_video_tokens"
    case OutputTokens => "output_tokens"
    case ReasoningTokens => "reasoning_tokens"
    case OutputAudioTokens => "output_audio_tokens"
    case OutputImageTokens => "output_image_tokens"
    case OutputVideoTokens => "output_video_tokens"
    case Requests => "requests"
    case OutputImages => "output_images"
    case OutputSeconds => "output_seconds"
    case OutputVideoSeconds => "output_video_seconds"
    case OutputSeconds480p => "output_seconds_480p"
    case OutputSeconds1080p => "output_seconds_1080p"
    case OutputSeconds4k => "output_seconds_4k"
    case Other(name) => name
  }

  /** The meters that the program names. */
  const NAMED: seq<Meter> :=
    [InputTokens, CachedInputTokens, CacheCreationTokens, CacheCreation1hTokens, InputAudioTokens, InputImageTokens,
     InputVideoTokens, CacheCreationAudioTokens, CachedAudioTokens, CachedImageTokens, CachedVideoTokens, OutputTokens,
     ReasoningTokens, OutputAudioTokens, OutputImageTokens, OutputVideoTokens, Requests, OutputImages, OutputSeconds,
     OutputVideoSeconds, OutputSeconds480p, OutputSeconds1080p, OutputSeconds4k]

  function StemIn(text: string, ms: seq<Meter>): Meter {
    if ms == [] then Other(text) else if StemText(ms[0]) == text then ms[0] else StemIn(text, ms[1..])
  }

  function StemOf(text: string): Meter { StemIn(text, NAMED) }

  function Text(c: Code): string
    decreases |c.suffixes|
  {
    if c.suffixes == [] then StemText(c.stem)
    else
      var n := |c.suffixes| - 1;
      Text(Code(c.stem, c.suffixes[..n])) + SuffixText(c.suffixes[n])
  }

  predicate EndsWith(s: string, suffix: string) {
    |s| >= |suffix| && s[|s| - |suffix|..] == suffix
  }

  predicate EndsInTier(s: string) {
    EndsWith(s, "_priority") || EndsWith(s, "_flex") || EndsWith(s, "_batches")
  }

  function CodeOf(text: string): Code
    decreases |text|
  {
    if EndsWith(text, "_priority") then Extended(CodeOf(text[..|text| - 9]), Priority)
    else if EndsWith(text, "_flex") then Extended(CodeOf(text[..|text| - 5]), Flex)
    else if EndsWith(text, "_batches") then Extended(CodeOf(text[..|text| - 8]), Batches)
    else Plain(StemOf(text))
  }

  function Extended(c: Code, t: Tier): Code { Code(c.stem, c.suffixes + [t]) }

  /** A code whose stem is not itself the text of a named meter or of a suffixed code. */
  predicate Proper(c: Code) {
    c.stem.Other? ==> StemOf(c.stem.name) == c.stem && !EndsInTier(c.stem.name)
  }

  predicate Identifier(s: string) {
    && 0 < |s| <= 128 && 'a' <= s[0] <= 'z'
    && forall i :: 1 <= i < |s| ==> 'a' <= s[i] <= 'z' || '0' <= s[i] <= '9' || s[i] == '_'
  }

  /** The texts of the built-in list are identifiers, so the guard for unlisted codes decides. */
  predicate ValidCode(c: Code) { Proper(c) && Identifier(Text(c)) }

  // ----- one code for each text

  lemma {:induction false} StemInText(text: string, ms: seq<Meter>)
    ensures StemText(StemIn(text, ms)) == text
    ensures StemIn(text, ms).Other? ==> StemIn(text, ms) == Other(text) || StemIn(text, ms) in ms
  {
    hide StemText;
    if ms == [] || StemText(ms[0]) == text {
      assert StemText(Other(text)) == text by { OtherText(text); }
    } else {
      StemInText(text, ms[1..]);
    }
  }

  lemma OtherText(name: string)
    ensures StemText(Other(name)) == name
  {
  }

  lemma NamedAreNamed()
    ensures forall m :: m in NAMED <==> !m.Other?
  {
  }

  /** Writing down the code of a text gives the text back, and that code is proper. */
  lemma {:induction false} TextOfCode(text: string)
    ensures Text(CodeOf(text)) == text && Proper(CodeOf(text))
    decreases |text|
  {
    hide StemText, NAMED, Proper;
    if EndsWith(text, "_priority") {
      ExtendedText(text, text[..|text| - 9], Priority);
    } else if EndsWith(text, "_flex") {
      ExtendedText(text, text[..|text| - 5], Flex);
    } else if EndsWith(text, "_batches") {
      ExtendedText(text, text[..|text| - 8], Batches);
    } else {
      StemInText(text, NAMED);
      ProperStem(text);
    }
  }

  lemma ProperStem(text: string)
    requires !EndsInTier(text)
    ensures Proper(Plain(StemOf(text)))
  {
    hide StemText, EndsInTier;
    NamedAreNamed();
    hide NAMED;
    StemInText(text, NAMED);
    OtherText(text);
  }

  lemma {:induction false} ExtendedText(text: string, rest: string, t: Tier)
    requires text == rest + SuffixText(t) && |rest| < |text|
    ensures Text(Extended(CodeOf(rest), t)) == text && Proper(Extended(CodeOf(rest), t))
    decreases |text|, 0
  {
    hide StemOf, EndsWith, CodeOf, StemText;
    TextOfCode(rest);
    var c := CodeOf(rest);
    assert Extended(c, t).suffixes[..|c.suffixes|] == c.suffixes;
  }

  /** How the text of a named meter ends: never like a tier suffix. */
  predicate StemEnding(s: string) {
    && |s| >= 8 && s[|s| - 1] != 'y' && s[|s| - 1] != 'x' && s[|s| - 3] != 'h'
  }

  lemma StemEnds(m: Meter)
    requires !m.Other?
    ensures StemEnding(StemText(m))
  {
  }

  lemma NoTierAfterStem(s: string)
    requires StemEnding(s)
    ensures !EndsInTier(s)
  {
    EndCharacters(s, "_priority");
    EndCharacters(s, "_flex");
    EndCharacters(s, "_batches");
  }

  lemma EndCharacters(s: string, suffix: string)
    ensures |suffix| >= 3 && EndsWith(s, suffix) ==>
      s[|s| - 1] == suffix[|suffix| - 1] && s[|s| - 3] == suffix[|suffix| - 3]
  {
    if |suffix| >= 3 && EndsWith(s, suffix) {
      var tail := s[|s| - |suffix|..];
      assert tail[|suffix| - 1] == s[|s| - 1] && tail[|suffix| - 3] == s[|s| - 3];
    }
  }

  /** The named meters told apart by length and a few characters. */
  function Recognized(s: string): Meter
    requires |s| >= 8
  {
    match |s|
    case 8 => Requests
    case 12 => InputTokens
    case 13 => if s[7] == 't' then OutputTokens else OutputImages
    case 14 => OutputSeconds
    case 16 => ReasoningTokens
    case 17 => OutputSeconds4k
    case 18 => if s[6] == 'a' then InputAudioTokens else if s[6] == 'i' then InputImageTokens else InputVideoTokens
    case 19 =>
      if s[1] == 'a' then
        if s[7] == 'a' then CachedAudioTokens else if s[7] == 'v' then CachedVideoTokens
        else if s[8] == 'n' then CachedInputTokens else CachedImageTokens
      else
        if s[7] == 'a' then OutputAudioTokens else if s[7] == 'i' then OutputImageTokens
        else if s[7] == 'v' then OutputVideoTokens else OutputSeconds480p
    case 20 => if s[7] == 'v' then OutputVideoSeconds else OutputSeconds1080p
    case 21 => CacheCreationTokens
    case 24 => CacheCreation1hTokens
    case _ => CacheCreationAudioTokens
  }

  lemma StemRecognized(m: Meter)
    requires !m.Other?
    ensures |StemText(m)| >= 8 && Recognized(StemText(m)) == m
  {
  }

  lemma NamedStem(m: Meter)
    requires !m.Other?
    ensures StemOf(StemText(m)) == m
  {
    hide StemText, Recognized;
    NamedAreNamed();
    FoundStem(m, NAMED);
    hide NAMED;
    var found := StemOf(StemText(m));
    StemInText(StemText(m), NAMED);
    StemRecognized(m);
    StemRecognized(found);
  }

  lemma {:induction false} FoundStem(m: Meter, ms: seq<Meter>)
    requires m in ms && forall x :: x in ms ==> !x.Other?
    ensures !StemIn(StemText(m), ms).Other?
  {
    hide StemText;
    if StemText(ms[0]) != StemText(m) { FoundStem(m, ms[1..]); }
  }

  lemma ProperStemText(c: Code)
    requires Proper(c)
    ensures !EndsInTier(StemText(c.stem)) && StemOf(StemText(c.stem)) == c.stem
  {
    hide StemText, StemOf, EndsInTier;
    if c.stem.Other? {
      OtherText(c.stem.name);
    } else {
      NamedStem(c.stem);
      StemEnds(c.stem);
      NoTierAfterStem(StemText(c.stem));
    }
  }

  lemma TierEnding(rest: string, t: Tier)
    ensures var s := rest + SuffixText(t);
      && (EndsWith(s, "_priority") <==> t == Priority) && (EndsWith(s, "_flex") <==> t == Flex)
      && (EndsWith(s, "_batches") <==> t == Batches)
      && |SuffixText(t)| == (match t case Priority => 9 case Flex => 5 case Batches => 8)
  {
    var s := rest + SuffixText(t);
    assert s[|s| - |SuffixText(t)|..] == SuffixText(t);
    EndCharacters(s, "_priority");
    EndCharacters(s, "_flex");
    EndCharacters(s, "_batches");
  }

  /** Reading back the text of a proper code gives the code: two proper codes with one text are one. */
  lemma {:induction false} CodeOfText(c: Code)
    requires Proper(c)
    ensures CodeOf(Text(c)) == c
    decreases |c.suffixes|
  {
    hide StemText, StemOf, EndsWith, SuffixText, Proper;
    if c.suffixes == [] {
      ProperStemText(c);
    } else {
      var n := |c.suffixes| - 1;
      var rest, t := Code(c.stem, c.suffixes[..n]), c.suffixes[n];
      assert Proper(rest) by { SameStemProper(c, rest); }
      CodeOfText(rest);
      TierEnding(Text(rest), t);
      var s := Text(c);
      assert s[..|s| - |SuffixText(t)|] == Text(rest);
      assert c.suffixes == rest.suffixes + [t];
    }
  }

  lemma SameStemProper(c: Code, d: Code)
    requires Proper(c) && c.stem == d.stem
    ensures Proper(d)
  {
  }

  /** One value for each text: proper codes are equal exactly if their texts are, and every text is
      the text of one. */
  lemma {:induction false} OneCodePerText(c: Code, d: Code, text: string)
    requires Proper(c) && Proper(d)
    ensures Text(c) == Text(d) <==> c == d
    ensures Proper(CodeOf(text)) && Text(CodeOf(text)) == text
  {
    hide Proper, Text, CodeOf;
    CodeOfText(c);
    CodeOfText(d);
    TextOfCode(text);
  }

  // ----- stripping suffixes is trimming texts

  function TrimTextSuffix(s: string, suffix: string): string {
    if EndsWith(s, suffix) then s[..|s| - |suffix|] else s
  }

  lemma TrimIsTrim(c: Code, t: Tier)
    requires Proper(c)
    ensures Text(TrimSuffix(c, t)) == TrimTextSuffix(Text(c), SuffixText(t)) && Proper(TrimSuffix(c, t))
  {
    hide StemText, StemOf, EndsWith, SuffixText, Proper;
    if c.suffixes == [] {
      ProperStemText(c);
      SuffixTexts();
    } else {
      var n := |c.suffixes| - 1;
      var rest, last := Code(c.stem, c.suffixes[..n]), c.suffixes[n];
      SameStemProper(c, rest);
      TierEnding(Text(rest), last);
      SuffixTexts();
      var s := Text(c);
      assert s[..|s| - |SuffixText(last)|] == Text(rest);
    }
  }

  lemma SuffixTexts()
    ensures SuffixText(Priority) == "_priority" && SuffixText(Flex) == "_flex" && SuffixText(Batches) == "_batches"
  {
  }

  /** Stripping a code is trimming each tier suffix once from its text, priority first. */
  lemma {:induction false} BaseCodeText(c: Code)
    requires Proper(c)
    ensures Text(ComponentBaseCode(c)) ==
      TrimTextSuffix(TrimTextSuffix(TrimTextSuffix(Text(c), "_priority"), "_flex"), "_batches")
  {
    hide Text, Proper, TrimSuffix, TrimTextSuffix, SuffixText;
    SuffixTexts();
    TrimIsTrim(c, Priority);
    TrimIsTrim(TrimSuffix(c, Priority), Flex);
    TrimIsTrim(TrimSuffix(TrimSuffix(c, Priority), Flex), Batches);
  }

  // ----- valid codes

  lemma InputStems(m: Meter)
    requires m.InputTokens? || m.CachedInputTokens? || m.InputAudioTokens? || m.InputImageTokens? || m.InputVideoTokens?
    ensures Identifier(StemText(m))
  {
  }

  lemma CacheStems(m: Meter)
    requires m.CacheCreationTokens? || m.CacheCreation1hTokens? || m.CacheCreationAudioTokens? || m.CachedAudioTokens?
    ensures Identifier(StemText(m))
  {
  }

  lemma MediaCacheStems(m: Meter)
    requires m.CachedImageTokens? || m.CachedVideoTokens? || m.OutputTokens? || m.ReasoningTokens? || m.Requests?
    ensures Identifier(StemText(m))
  {
  }

  lemma OutputStems(m: Meter)
    requires m.OutputAudioTokens? || m.OutputImageTokens? || m.OutputVideoTokens? || m.OutputImages?
    ensures Identifier(StemText(m))
  {
  }

  lemma SecondStems(m: Meter)
    requires m.OutputSeconds? || m.OutputVideoSeconds? || m.OutputSeconds480p? || m.OutputSeconds1080p? || m.OutputSeconds4k?
    ensures Identifier(StemText(m))
  {
  }

  lemma NamedIdentifier(m: Meter)
    requires !m.Other?
    ensures Identifier(StemText(m))
  {
    hide StemText, Identifier;
    match m
    case InputTokens | CachedInputTokens | InputAudioTokens | InputImageTokens | InputVideoTokens => InputStems(m);
    case CacheCreationTokens | CacheCreation1hTokens | CacheCreationAudioTokens | CachedAudioTokens => CacheStems(m);
    case CachedImageTokens | CachedVideoTokens | OutputTokens | ReasoningTokens | Requests => MediaCacheStems(m);
    case OutputAudioTokens | OutputImageTokens | OutputVideoTokens | OutputImages => OutputStems(m);
    case OutputSeconds | OutputVideoSeconds | OutputSeconds480p | OutputSeconds1080p | OutputSeconds4k => SecondStems(m);
  }

  lemma NamedCodes(m: Meter)
    requires !m.Other?
    ensures ValidCode(Plain(m))
  {
    hide StemText, Identifier;
    NamedIdentifier(m);
  }

  /** A text names a valid code exactly if it passes the identifier guard. */
  lemma {:induction false} ValidTextIff(text: string)
    ensures ValidCode(CodeOf(text)) <==> Identifier(text)
  {
    hide Text, Proper, CodeOf, Identifier;
    TextOfCode(text);
  }

  // ----- the texts of the meters the program names

  lemma {:induction false} InputTexts()
    ensures Text(Plain(InputTokens)) == "input_tokens" && Text(Plain(CachedInputTokens)) == "cached_input_tokens"
    ensures Text(Plain(CacheCreationTokens)) == "cache_creation_tokens"
    ensures Text(Plain(CacheCreation1hTokens)) == "cache_creation_1h_tokens"
  {
    PlainTexts();
    hide Text;
  }

  lemma {:induction false} ModalityTexts()
    ensures Text(Plain(InputAudioTokens)) == "input_audio_tokens" && Text(Plain(InputImageTokens)) == "input_image_tokens"
    ensures Text(Plain(InputVideoTokens)) == "input_video_tokens"
    ensures Text(Plain(CacheCreationAudioTokens)) == "cache_creation_audio_tokens"
  {
    PlainTexts();
    hide Text;
  }

  lemma {:induction false} CachedModalityTexts()
    ensures Text(Plain(CachedAudioTokens)) == "cached_audio_tokens" && Text(Plain(CachedImageTokens)) == "cached_image_tokens"
    ensures Text(Plain(CachedVideoTokens)) == "cached_video_tokens"
  {
    PlainTexts();
    hide Text;
  }

  lemma {:induction false} OutputTexts()
    ensures Text(Plain(OutputTokens)) == "output_tokens" && Text(Plain(ReasoningTokens)) == "reasoning_tokens"
    ensures Text(Plain(OutputAudioTokens)) == "output_audio_tokens" && Text(Plain(OutputImageTokens)) == "output_image_tokens"
    ensures Text(Plain(OutputVideoTokens)) == "output_video_tokens"
  {
    PlainTexts();
    hide Text;
  }

  lemma {:induction false} MediaTexts()
    ensures Text(Plain(Requests)) == "requests" && Text(Plain(OutputImages)) == "output_images"
    ensures Text(Plain(OutputSeconds)) == "output_seconds" && Text(Plain(OutputVideoSeconds)) == "output_video_seconds"
  {
    PlainTexts();
    hide Text;
  }

  lemma {:induction false} SecondTexts()
    ensures Text(Plain(OutputSeconds480p)) == "output_seconds_480p" && Text(Plain(OutputSeconds4k)) == "output_seconds_4k"
    ensures Text(Plain(OutputSeconds1080p)) == "output_seconds_1080p"
  {
    PlainTexts();
    hide Text;
  }

  lemma PlainTexts()
    ensures forall m :: Text(Plain(m)) == StemText(m)
  {
    hide StemText;
  }
}
