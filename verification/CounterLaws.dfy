/** What the counters of a report are worth: which of them completes a metric, and what is billed. */
module CounterLaws {
  import opened Results
  import opened Rounding
  import opened Sums
  import opened Meters
  import opened CodeTexts
  import opened Metering
  import opened MeteringLaws
  import opened Charging
  import opened Intake
  import opened IntakeLaws

  // ----- merging

  /** A metric that is there and not zero stands; otherwise a positive counter takes its place;
      otherwise nothing changes. */
  ghost predicate CompletedBy(metrics: Usage, merged: Usage, m: Meter, counter: int) {
    var c := Plain(m);
    if c in metrics && metrics[c] != 0.0 then c in merged && merged[c] == metrics[c]
    else if counter > 0 then c in merged && merged[c] == counter as real
    else (c in merged <==> c in metrics) && (c in merged ==> merged[c] == metrics[c])
  }

  /** Each of four counters completes its own metric, and every other entry is the reported one. */
  lemma {:induction false} MergedEntries(r: Reported)
    ensures CompletedBy(r.metrics, Merged(r), InputTokens, r.input)
    ensures CompletedBy(r.metrics, Merged(r), OutputTokens, r.output)
    ensures CompletedBy(r.metrics, Merged(r), CachedInputTokens, r.cached)
    ensures CompletedBy(r.metrics, Merged(r), ReasoningTokens, r.reasoning)
    ensures forall c: Code :: c.suffixes != [] || c.stem !in [InputTokens, OutputTokens, CachedInputTokens, ReasoningTokens] ==>
      (c in Merged(r) <==> c in r.metrics) && (c in r.metrics ==> Merged(r)[c] == r.metrics[c])
  {
  }

  // ----- what a settlement starts from

  /** The token totals a settlement starts from: the reported metric, else the counter, else what the
      details add up to; cached and reasoning tokens are cut off at these totals. */
  lemma {:induction false} SettledTotals(r: Reported)
    requires NoNegativeCounter(r) && SettlementMetrics(r).Ok?
    ensures var u, v := Merged(r), SettlementMetrics(r).value;
      && Quantity(v, Plain(InputTokens)) == Implied(u, InputTokens)
      && Quantity(v, Plain(OutputTokens)) == Implied(u, OutputTokens)
      && Quantity(v, Plain(CachedInputTokens)) == Min(Quantity(u, Plain(CachedInputTokens)), Implied(u, InputTokens))
      && Quantity(v, Plain(ReasoningTokens)) == Min(Quantity(u, Plain(ReasoningTokens)), Implied(u, OutputTokens))
      && forall c :: !InAFamily(c) ==> Quantity(v, c) == Quantity(r.metrics, c)
  {
    hide SettlementMetrics, UsageAccepted, Normalized, Merged, TotalsFit, Implied, FamilyRoot;
    SettlementNormalizesOnce(r);
    RefusedStays(r);
    forall c | !InAFamily(c)
      ensures Quantity(Merged(r), c) == Quantity(r.metrics, c)
    {
      CountersAreTokens();
      MergedEntries(r);
    }
    if Merged(r) == map[] {
      NothingReported(r);
      NothingImplied(InputTokens);
      NothingImplied(OutputTokens);
    } else {
      TokensKept(Merged(r));
    }
  }

  lemma CountersAreTokens()
    ensures forall m :: m in [InputTokens, OutputTokens, CachedInputTokens, ReasoningTokens] ==> InAFamily(Plain(m))
  {
  }

  lemma {:induction false} NothingImplied(m: Meter)
    ensures Implied(map[], m) == 0.0
    decreases Depth(m), 1, 0
  {
    SubMetersShallower(m);
    hide SubMeters, Depth;
    NothingImpliedBy(SubMeters(m), Depth(m));
  }

  lemma {:induction false} NothingImpliedBy(ms: seq<Meter>, depth: nat)
    requires forall m :: m in ms ==> Depth(m) < depth
    ensures ImpliedAll(map[], ms, depth) == 0.0
    decreases depth, 0, |ms|
  {
    hide SubMeters, Depth, Implied;
    if ms != [] {
      NothingImplied(ms[0]);
      NothingImpliedBy(ms[1..], depth);
    }
  }

  lemma TokensKept(u: Usage)
    requires UsageAccepted(u)
    ensures var v := Normalized(u);
      && Quantity(v, Plain(InputTokens)) == Implied(u, InputTokens)
      && Quantity(v, Plain(OutputTokens)) == Implied(u, OutputTokens)
      && Quantity(v, Plain(CachedInputTokens)) == Min(Quantity(u, Plain(CachedInputTokens)), Implied(u, InputTokens))
      && Quantity(v, Plain(ReasoningTokens)) == Min(Quantity(u, Plain(ReasoningTokens)), Implied(u, OutputTokens))
      && forall c :: !InAFamily(c) ==> Quantity(v, c) == Quantity(u, c)
  {
    hide UsageAccepted, Normalized, TopLevel, Implied, OnGrid, FamilyRoot;
    AcceptedIsSound(u);
    RootsAreTop(InputTokens);
    RootsAreTop(OutputTokens);
    FamilyTotals(u, InputTokens);
    FamilyTotals(u, OutputTokens);
    FirstDetailKeeps(u, InputTokens, CachedInputTokens);
    FirstDetailKeeps(u, OutputTokens, ReasoningTokens);
    forall c | !InAFamily(c)
      ensures Quantity(Normalized(u), c) == Quantity(u, c)
    {
      OutsideKept(u, c);
    }
  }

  lemma FirstDetailKeeps(u: Usage, total: Meter, detail: Meter)
    requires Sound(u) && SubMeters(total) != [] && SubMeters(total)[0] == detail && SubMeters(detail) == []
    ensures Quantity(Normalized(u), Plain(detail)) == Min(Quantity(u, Plain(detail)), Quantity(Normalized(u), Plain(total)))
  {
    NormalizedShares(u, total, 0);
    assert SubMeters(total)[..0] == [];
    LeafImplied(u, detail);
    NoNegativeQuantity(Normalized(u), Plain(total));
    hide SubMeters, Normalized, Implied, Sound;
  }

  lemma LeafImplied(u: Usage, m: Meter)
    requires SubMeters(m) == []
    ensures Implied(u, m) == Quantity(u, Plain(m))
  {
  }

  // ----- counters alone

  /** At most the four counters, each where it is positive. */
  ghost predicate FromCounters(u: Usage, r: Reported) {
    && (forall c :: c in u ==> c.suffixes == [] && c.stem in [InputTokens, OutputTokens, CachedInputTokens, ReasoningTokens])
    && Quantity(u, Plain(InputTokens)) == r.input as real && Quantity(u, Plain(OutputTokens)) == r.output as real
    && Quantity(u, Plain(CachedInputTokens)) == r.cached as real && Quantity(u, Plain(ReasoningTokens)) == r.reasoning as real
  }

  lemma CountersMerged(r: Reported)
    requires NoNegativeCounter(r) && r.metrics == map[]
    ensures FromCounters(Merged(r), r)
    ensures Sound(Merged(r)) && UsageAccepted(Merged(r))
  {
    hide UsageAccepted, OnGrid, Merged, Completed;
    MergedEntries(r);
    EmptyAccepted();
    RefusedStays(r);
    AcceptedIsSound(Merged(r));
  }

  lemma {:induction false} OneOfThem(u: Usage, ms: seq<Meter>, m: Meter)
    requires Distinct(ms) && forall x :: x in ms && x != m ==> Quantity(u, Plain(x)) == 0.0
    ensures TotalOf(u, ms) == if m in ms then Quantity(u, Plain(m)) else 0.0
  {
    var none := (x: Meter) => 0.0;
    AllZero(ms, none);
    hide Quantity, SumBy;
    SumByBump(ms, m, Held(u), none, Quantity(u, Plain(m)));
  }

  lemma CounterDetails(u: Usage, r: Reported, p: Meter)
    requires FromCounters(u, r)
    ensures TotalOf(u, SubMeters(p)) ==
      if p == InputTokens then r.cached as real else if p == OutputTokens then r.reasoning as real else 0.0
  {
    SubMetersDistinct(p);
    CounterPlaces(p);
    hide SubMeters, TotalOf;
    if p == InputTokens {
      OneOfThem(u, SubMeters(p), CachedInputTokens);
    } else if p == OutputTokens {
      OneOfThem(u, SubMeters(p), ReasoningTokens);
    } else {
      NoneHeld(u, SubMeters(p));
    }
  }

  lemma CounterPlaces(p: Meter)
    ensures InputTokens !in SubMeters(p) && OutputTokens !in SubMeters(p)
    ensures CachedInputTokens in SubMeters(p) <==> p == InputTokens
    ensures ReasoningTokens in SubMeters(p) <==> p == OutputTokens
  {
  }

  lemma CountersTidy(u: Usage, r: Reported)
    requires Sound(u) && FromCounters(u, r) && NoNegativeCounter(r) && r.cached <= r.input && r.reasoning <= r.output
    ensures Disjoint(u) && Normalized(u) == u
    ensures EffectiveQuantity(Plain(InputTokens), u) == (r.input - r.cached) as real
    ensures EffectiveQuantity(Plain(OutputTokens), u) == (r.output - r.reasoning) as real
  {
    hide SubMeters, TotalOf, OnGrid, EffectiveQuantity, Normalized, Sound, FromCounters;
    forall p
      ensures TotalOf(u, SubMeters(p)) <= Quantity(u, Plain(p))
    {
      CounterDetails(u, r, p);
      NoNegativeQuantity(u, Plain(p));
      assert p == InputTokens ==> Quantity(u, Plain(p)) == r.input as real by { CounterTotals(u, r); }
      assert p == OutputTokens ==> Quantity(u, Plain(p)) == r.output as real by { CounterTotals(u, r); }
    }
    hide Disjoint;
    NormalizedFixpointIff(u);
    CounterTotals(u, r);
    CounterDetails(u, r, InputTokens);
    CounterDetails(u, r, OutputTokens);
    EffectiveExact(u, Plain(InputTokens));
    EffectiveExact(u, Plain(OutputTokens));
  }

  lemma CounterTotals(u: Usage, r: Reported)
    requires FromCounters(u, r)
    ensures Quantity(u, Plain(InputTokens)) == r.input as real && Quantity(u, Plain(OutputTokens)) == r.output as real
  {
  }

  /** A report of counters alone, with details within their totals, is billed for exactly these
      counters and for nothing else. */
  lemma {:induction false} CountersAreBilled(r: Reported)
    requires NoNegativeCounter(r) && r.metrics == map[] && r.cached <= r.input && r.reasoning <= r.output
    ensures SettlementMetrics(r).Ok?
    ensures var v := SettlementMetrics(r).value;
      && Quantity(v, Plain(InputTokens)) == r.input as real
      && Quantity(v, Plain(OutputTokens)) == r.output as real
      && Quantity(v, Plain(CachedInputTokens)) == r.cached as real
      && Quantity(v, Plain(ReasoningTokens)) == r.reasoning as real
      && EffectiveQuantity(Plain(InputTokens), v) == (r.input - r.cached) as real
      && EffectiveQuantity(Plain(OutputTokens), v) == (r.output - r.reasoning) as real
      && forall c: Code :: c.suffixes != [] || c.stem !in [InputTokens, OutputTokens, CachedInputTokens, ReasoningTokens] ==> c !in v
  {
    hide UsageAccepted, Merged, SettlementMetrics, Normalized, EffectiveQuantity, OnGrid, TotalsFit, Disjoint;
    var u := Merged(r);
    CountersMerged(r);
    CountersTidy(u, r);
    SettlementNormalizesOnce(r);
    NormalizedAcceptedIff(u);
    EmptyAccepted();
    if u == map[] {
      NothingReported(r);
      ZerosNormalized();
      AcceptedIsSound(UsageFromLegacy(0, 0, 0, 0));
      CountersTidy(UsageFromLegacy(0, 0, 0, 0), r);
    }
  }

  // ----- the counters after normalization

  /** A metric that is a positive 64-bit integer. */
  ghost predicate Countable(u: Usage, m: Meter, n: int) {
    Plain(m) in u && u[Plain(m)] == n as real && 0 < n <= 0x7FFF_FFFF_FFFF_FFFF
  }

  ghost predicate CounterFollows(u: Usage, m: Meter, before: int, after: int) {
    && (forall n :: Countable(u, m, n) ==> after == n)
    && ((forall n :: !Countable(u, m, n)) ==> after == before)
  }

  lemma CountableIs(u: Usage, m: Meter, n: int)
    requires Countable(u, m, n)
    ensures CounterOf(u, m) == n
  {
    assert (n as real).Floor == n;
  }

  lemma UpdatedFollows(counter: Int64, u: Usage, m: Meter)
    ensures CounterFollows(u, m, counter, Updated(counter, u, m))
  {
    var n := CounterOf(u, m);
    if n > 0 { assert Countable(u, m, n); }
    hide CounterOf;
    forall k | Countable(u, m, k)
      ensures n == k
    {
      CountableIs(u, m, k);
    }
  }

  /** In an acceptable report each counter becomes its normalized metric if that is a positive 64-bit
      integer and otherwise stays; then cached and reasoning tokens are cut off at their totals. */
  lemma {:induction false} CountersFollowMetrics(r: Reported)
    requires UsageAccepted(Merged(r)) && Normalized(Merged(r)) != map[]
    ensures var r', u := NormalizeUsage(r), Normalized(Merged(r));
      && r'.metrics == u && CounterFollows(u, InputTokens, r.input, r'.input) && CounterFollows(u, OutputTokens, r.output, r'.output)
      && (exists cached :: CounterFollows(u, CachedInputTokens, r.cached, cached) && r'.cached == if cached < r'.input then cached else r'.input)
      && (exists reasoning :: CounterFollows(u, ReasoningTokens, r.reasoning, reasoning)
            && r'.reasoning == if reasoning < r'.output then reasoning else r'.output)
  {
    hide UsageAccepted, Merged, Normalized, Updated, CounterFollows;
    var u := Normalized(Merged(r));
    UpdatedFollows(r.input, u, InputTokens);
    UpdatedFollows(r.output, u, OutputTokens);
    UpdatedFollows(r.cached, u, CachedInputTokens);
    UpdatedFollows(r.reasoning, u, ReasoningTokens);
  }

  // ----- what is refused

  /** The guard on texts that stand for a meter. */
  predicate MeterText(t: string) {
    && 1 <= |t| <= 128 && 'a' <= t[0] <= 'z'
    && forall i :: 0 < i < |t| ==> ('a' <= t[i] <= 'z') || ('0' <= t[i] <= '9') || t[i] == '_'
  }

  /** Usage is refused exactly if some key is no meter text or some quantity is negative or has more than
      thirty digits on either side of the point. */
  lemma {:induction false} UsageRefusedIff(u: Usage)
    ensures NormalizedUsage(u) == (if NormalizedUsage(u).Ok? then Ok(Normalized(u)) else Err(InvalidUsage))
    ensures NormalizedUsage(u).Ok? <==>
      forall c :: c in u ==> Proper(c) && MeterText(Text(c)) && 0.0 <= u[c] < SCALE && OnGrid(u[c])
  {
    hide Text, Proper, Normalized, OnGrid, Round30, SCALE;
    forall c | c in u
      ensures OnGrid(u[c]) <==> Round30(u[c]) == u[c]
    {
      PrintsExactlyIff(u[c]);
    }
  }

  /** A report with a negative counter is refused whatever else it says. */
  lemma {:induction false} NegativeCounterRefused(r: Reported)
    requires r.input < 0 || r.output < 0 || r.cached < 0 || r.reasoning < 0
    ensures SettlementMetrics(r) == Err(InvalidRequest)
  {
    hide NormalizedUsage, UsageMetricsFor, NormalizeUsage;
  }
}
