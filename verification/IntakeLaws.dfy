/** The repeated normalizations of a settlement change nothing after the first. */
module IntakeLaws {
  import opened Results
  import opened Rounding
  import opened Meters
  import opened CodeTexts
  import opened Metering
  import opened MeteringLaws
  import opened Tiers
  import opened Charging
  import opened Intake

  lemma AcceptedIsSound(u: Usage)
    requires UsageAccepted(u)
    ensures Sound(u)
  {
    hide OnGrid, Round30;
    forall c | c in u
      ensures 0.0 <= u[c] && OnGrid(u[c])
    {
      PrintsExactlyIff(u[c]);
    }
  }

  predicate NoNegativeCounter(r: Reported) { r.input >= 0 && r.output >= 0 && r.cached >= 0 && r.reasoning >= 0 }

  // ----- the first detail of a total

  /** A pass over p leaves the total alone, and the detail too unless it is p's first. */
  ghost predicate FitsPass(p: Meter, total: Meter, detail: Meter) {
    && total !in SubMeters(p)
    && if p == total then SubMeters(p) != [] && SubMeters(p)[0] == detail else detail !in SubMeters(p)
  }

  lemma FirstDetailStep(u: Usage, p: Meter, total: Meter, detail: Meter)
    requires Sound(u) && FitsPass(p, total, detail)
    requires Quantity(u, Plain(detail)) > 0.0 && Quantity(u, Plain(total)) > 0.0
    ensures Sound(Clamped(u, p))
    ensures Quantity(Clamped(u, p), Plain(detail)) > 0.0
    ensures Quantity(Clamped(u, p), Plain(total)) == Quantity(u, Plain(total))
  {
    SubMetersDistinct(p);
    hide OnGrid, Round30, SubMeters, Disjoint;
    ZeroOnGrid();
    ClampedLaw(u, p);
    assert Plain(detail) in u && Plain(total) in u;
    if p == total {
      ClampShares(u, SubMeters(p), Quantity(u, Plain(p)), 0);
      assert SubMeters(p)[..0] == [];
      assert TotalOf(u, []) == 0.0;
    }
  }

  lemma {:induction false} FirstDetailSteps(u: Usage, ps: seq<Meter>, total: Meter, detail: Meter)
    requires Sound(u)
    requires forall p :: p in ps ==> FitsPass(p, total, detail)
    requires Quantity(u, Plain(detail)) > 0.0 && Quantity(u, Plain(total)) > 0.0
    ensures Quantity(ClampAll(u, ps), Plain(detail)) > 0.0
    decreases |ps|
  {
    hide OnGrid, Round30, SubMeters, Clamped;
    if ps != [] {
      FirstDetailStep(u, ps[0], total, detail);
      FirstDetailSteps(Clamped(u, ps[0]), ps[1..], total, detail);
    }
  }

  ghost predicate TotalAndDetail(total: Meter, detail: Meter) {
    (total == InputTokens && detail == CachedInputTokens) || (total == OutputTokens && detail == ReasoningTokens)
  }

  lemma TotalsAreTop(total: Meter, detail: Meter)
    requires TotalAndDetail(total, detail)
    ensures TopLevel(Plain(total))
    ensures forall p :: p in TOP_DOWN ==> FitsPass(p, total, detail)
  {
  }

  lemma TotalUncut(u: Usage, total: Meter)
    requires Sound(u) && TopLevel(Plain(total))
    ensures Sound(EnsureAll(u, BOTTOM_UP))
    ensures Quantity(EnsureAll(u, BOTTOM_UP), Plain(total)) == Quantity(Normalized(u), Plain(total))
  {
    TopDownApart();
    hide OnGrid, SubMeters, Clamped, Ensured, BOTTOM_UP, TOP_DOWN, Apart, Disjoint, EnsureAll, ClampAll;
    EnsureAllLaw(u, BOTTOM_UP);
    assert Plain(total).stem == total;
    ClampAllSettles(EnsureAll(u, BOTTOM_UP), TOP_DOWN);
  }

  /** The detail listed first vanishes only together with its total. */
  lemma {:induction false} FirstDetailSurvives(u: Usage, total: Meter, detail: Meter)
    requires Sound(u) && TotalAndDetail(total, detail)
    requires Quantity(u, Plain(detail)) > 0.0 && Quantity(Normalized(u), Plain(total)) > 0.0
    ensures Plain(detail) in Normalized(u) && Normalized(u)[Plain(detail)] > 0.0
  {
    hide OnGrid, SubMeters, Clamped, Ensured, BOTTOM_UP, TOP_DOWN, TopLevel, FitsPass, EnsureAll, ClampAll, TotalAndDetail;
    TotalsAreTop(total, detail);
    TotalUncut(u, total);
    EnsureAllLaw(u, BOTTOM_UP);
    FirstDetailSteps(EnsureAll(u, BOTTOM_UP), TOP_DOWN, total, detail);
  }

  // ----- merging again

  lemma CompletedLaw(u: Usage, m: Meter, counter: int)
    ensures forall c :: c in u ==> c in Completed(u, m, counter)
    ensures forall c :: c in u && u[c] != 0.0 ==> Completed(u, m, counter)[c] == u[c]
    ensures forall c :: c in Completed(u, m, counter) && c != Plain(m) ==> c in u && Completed(u, m, counter)[c] == u[c]
    ensures counter > 0 ==> Plain(m) in Completed(u, m, counter) && Completed(u, m, counter)[Plain(m)] != 0.0
    ensures counter > 0 ==> Plain(m) in u && u[Plain(m)] != 0.0 ==> Completed(u, m, counter) == u
    ensures counter <= 0 ==> Completed(u, m, counter) == u
  {
  }

  lemma MergedLaw(r: Reported)
    ensures forall c :: c in r.metrics ==> c in Merged(r)
    ensures forall c :: c in r.metrics && r.metrics[c] != 0.0 ==> Merged(r)[c] == r.metrics[c]
    ensures r.input > 0 ==> Quantity(Merged(r), Plain(InputTokens)) != 0.0 || !UsageAccepted(Merged(r))
    ensures r.output > 0 ==> Quantity(Merged(r), Plain(OutputTokens)) != 0.0 || !UsageAccepted(Merged(r))
    ensures r.cached > 0 ==> Quantity(Merged(r), Plain(CachedInputTokens)) != 0.0 || !UsageAccepted(Merged(r))
    ensures r.reasoning > 0 ==> Quantity(Merged(r), Plain(ReasoningTokens)) != 0.0 || !UsageAccepted(Merged(r))
  {
    hide Round30, Completed;
    var u1 := Completed(r.metrics, InputTokens, r.input);
    var u2 := Completed(u1, OutputTokens, r.output);
    var u3 := Completed(u2, CachedInputTokens, r.cached);
    CompletedLaw(r.metrics, InputTokens, r.input);
    CompletedLaw(u1, OutputTokens, r.output);
    CompletedLaw(u2, CachedInputTokens, r.cached);
    CompletedLaw(u3, ReasoningTokens, r.reasoning);
  }

  /** Every positive counter already has a non-zero metric. */
  ghost predicate Complete(r: Reported) {
    && (r.input > 0 ==> Quantity(r.metrics, Plain(InputTokens)) != 0.0)
    && (r.output > 0 ==> Quantity(r.metrics, Plain(OutputTokens)) != 0.0)
    && (r.cached > 0 ==> Quantity(r.metrics, Plain(CachedInputTokens)) != 0.0)
    && (r.reasoning > 0 ==> Quantity(r.metrics, Plain(ReasoningTokens)) != 0.0)
  }

  lemma CompleteMergesToItself(r: Reported)
    requires Complete(r)
    ensures Merged(r) == r.metrics
  {
  }

  lemma TotalCounterAlive(u: Usage, m: Meter, counter: Int64)
    requires Sound(u) && (m == InputTokens || m == OutputTokens)
    requires counter > 0 ==> Quantity(u, Plain(m)) != 0.0
    requires Updated(counter, Normalized(u), m) > 0
    ensures Quantity(Normalized(u), Plain(m)) > 0.0
  {
    var detail := if m == InputTokens then CachedInputTokens else ReasoningTokens;
    TotalsAreTop(m, detail);
    hide OnGrid, Round30, SubMeters, Normalized, TopLevel;
    if CounterOf(Normalized(u), m) <= 0 { TopLevelKept(u, Plain(m)); }
  }

  lemma NormalizedReportComplete(r: Reported)
    requires UsageAccepted(Merged(r)) && Normalized(Merged(r)) != map[]
    ensures Complete(NormalizeUsage(r)) && NormalizeUsage(r).metrics == Normalized(Merged(r))
  {
    hide OnGrid, Round30, Normalized, Merged;
    var u := Merged(r);
    AcceptedIsSound(u);
    MergedLaw(r);
    hide UsageAccepted;
    var n := Normalized(u);
    var r' := NormalizeUsage(r);
    if r'.input > 0 { TotalCounterAlive(u, InputTokens, r.input); }
    if r'.output > 0 { TotalCounterAlive(u, OutputTokens, r.output); }
    if r'.cached > 0 && CounterOf(n, CachedInputTokens) <= 0 {
      FirstDetailSurvives(u, InputTokens, CachedInputTokens);
    }
    if r'.reasoning > 0 && CounterOf(n, ReasoningTokens) <= 0 {
      FirstDetailSurvives(u, OutputTokens, ReasoningTokens);
    }
  }

  // ----- the whole pipeline

  lemma AcceptedReport(r: Reported)
    requires NoNegativeCounter(r) && UsageAccepted(Merged(r)) && Merged(r) != map[]
    ensures SettlementMetrics(r) ==
      if UsageAccepted(Normalized(Merged(r))) then Ok(Normalized(Merged(r))) else Err(InvalidRequest)
  {
    hide OnGrid, Round30, Normalized, Merged;
    var u := Merged(r);
    AcceptedIsSound(u);
    NormalizedKeepsKeys(u);
    hide UsageAccepted;
    NormalizeIdempotent(u);
    var r1 := NormalizeUsage(r);
    NormalizedReportComplete(r);
    CompleteMergesToItself(r1);
    hide Complete;
    assert NormalizeUsage(r1).metrics == Normalized(u);
    assert UsageMetricsFor(r1) == Normalized(u);
  }

  lemma NormalizedKeepsKeys(u: Usage)
    requires Sound(u)
    ensures u != map[] ==> Normalized(u) != map[]
  {
    hide OnGrid, SubMeters, Clamped, Ensured, BOTTOM_UP, TOP_DOWN, Disjoint;
    EnsureAllLaw(u, BOTTOM_UP);
    LimitedLaw(EnsureAll(u, BOTTOM_UP));
    if u != map[] {
      var c :| c in u;
      assert c in Normalized(u);
    }
  }

  /** An entry that is refused is not zero under a known code, so merging never hides it. */
  lemma RefusedStays(r: Reported)
    requires NoNegativeCounter(r)
    ensures UsageAccepted(Merged(r)) <==> UsageAccepted(r.metrics)
  {
    hide Round30, OnGrid;
    var u1 := Completed(r.metrics, InputTokens, r.input);
    var u2 := Completed(u1, OutputTokens, r.output);
    var u3 := Completed(u2, CachedInputTokens, r.cached);
    CompletionAccepted(r.metrics, InputTokens, r.input);
    CompletionAccepted(u1, OutputTokens, r.output);
    CompletionAccepted(u2, CachedInputTokens, r.cached);
    CompletionAccepted(u3, ReasoningTokens, r.reasoning);
  }

  lemma CompletionAccepted(u: Usage, m: Meter, counter: Int64)
    requires !m.Other?
    ensures UsageAccepted(Completed(u, m, counter)) <==> UsageAccepted(u)
  {
    CounterAccepted(counter);
    ZeroOnGrid();
    NamedCodes(m);
    hide Round30, OnGrid, ValidCode;
    var v := Completed(u, m, counter);
    if v != u {
      assert v == u[Plain(m) := counter as real];
      assert DecimalAccepted(0.0, SCALE);
      forall c | c in u
        ensures c in v && (c != Plain(m) ==> v[c] == u[c])
      {
      }
    }
  }

  lemma CounterAccepted(counter: Int64)
    ensures counter >= 0 ==> DecimalAccepted(counter as real, SCALE)
  {
    if counter >= 0 { WholeAccepted(counter); }
  }

  lemma RefusedReport(r: Reported)
    requires NoNegativeCounter(r) && !UsageAccepted(Merged(r))
    ensures SettlementMetrics(r) == Err(InvalidRequest)
  {
    hide Round30, OnGrid, Merged;
    RefusedStays(r);
    var r1 := NormalizeUsage(r);
    assert r1.metrics == r.metrics && NoNegativeCounter(r1);
    RefusedStays(r1);
    assert NormalizeUsage(r1).metrics == r.metrics;
    EmptyAccepted();
    assert r.metrics != map[];
  }

  lemma EmptyAccepted()
    ensures UsageAccepted(map[])
  {
  }

  lemma NothingReported(r: Reported)
    requires NoNegativeCounter(r) && Merged(r) == map[]
    ensures r == Reported(0, 0, 0, 0, map[])
  {
    hide UsageAccepted;
    MergedLaw(r);
    assert r.metrics.Keys <= Merged(r).Keys;
  }

  lemma EmptyReport(r: Reported)
    requires NoNegativeCounter(r) && Merged(r) == map[]
    ensures SettlementMetrics(r) == Ok(UsageFromLegacy(0, 0, 0, 0))
  {
    NothingReported(r);
    EmptyNormalized();
    hide Normalized, UsageAccepted, Merged;
    assert NormalizeUsage(r) == r;
    assert UsageMetricsFor(r) == UsageFromLegacy(0, 0, 0, 0);
    ZerosNormalized();
  }

  lemma EmptyNormalized()
    ensures UsageAccepted(map[]) && Normalized(map[]) == map[]
  {
    var u: Usage := map[];
    hide SubMeters;
    forall m
      ensures TotalOf(u, SubMeters(m)) <= Quantity(u, Plain(m))
    {
      NoneHeld(u, SubMeters(m));
    }
    hide TotalOf;
    NormalizedFixpointIff(u);
  }

  lemma ZerosNormalized()
    ensures NormalizedUsage(UsageFromLegacy(0, 0, 0, 0)) == Ok(UsageFromLegacy(0, 0, 0, 0))
  {
    var u := UsageFromLegacy(0, 0, 0, 0);
    ZeroOnGrid();
    NamedCodes(InputTokens);
    NamedCodes(OutputTokens);
    NamedCodes(CachedInputTokens);
    NamedCodes(ReasoningTokens);
    hide ValidCode, Round30, OnGrid, SubMeters, Normalized;
    assert UsageAccepted(u);
    AcceptedIsSound(u);
    forall m
      ensures TotalOf(u, SubMeters(m)) <= Quantity(u, Plain(m))
    {
      NoneHeld(u, SubMeters(m));
    }
    hide TotalOf;
    NormalizedFixpointIff(u);
  }

  // ----- totals that no longer fit

  lemma MemberWithinRoot(n: Usage, root: Meter, m: Meter)
    requires Sound(n) && Disjoint(n) && (root == InputTokens || root == OutputTokens) && FamilyRoot(m) == Some(root)
    ensures Quantity(n, Plain(m)) <= Quantity(n, Plain(root))
  {
    hide OnGrid, SubMeters, TotalOf, Quantity, Family, FamilyRoot, Sound;
    InFamilyIff(root, m);
    if m != root {
      ContainedBy(root, m);
      SubMeterWithin(n, root);
      if p :| p in SubMeters(root) && p in Family(root) && m in SubMeters(p) { SubMeterWithin(n, p); }
    }
  }

  lemma SubMeterWithin(n: Usage, p: Meter)
    requires Sound(n) && Disjoint(n)
    ensures forall m :: m in SubMeters(p) ==> Quantity(n, Plain(m)) <= Quantity(n, Plain(p))
  {
    hide OnGrid, SubMeters, Quantity;
    assert TotalOf(n, SubMeters(p)) <= Quantity(n, Plain(p));
    hide TotalOf, Disjoint;
    TotalSound(n, SubMeters(p));
  }

  ghost predicate TotalsFit(u: Usage) { Implied(u, InputTokens) < SCALE && Implied(u, OutputTokens) < SCALE }

  lemma TotalAccepted(u: Usage, root: Meter)
    requires UsageAccepted(u) && UsageAccepted(Normalized(u)) && (root == InputTokens || root == OutputTokens)
    ensures Implied(u, root) < SCALE
  {
    hide OnGrid, Round30, Normalized, TopLevel, Implied, ValidCode;
    AcceptedIsSound(u);
    RootsAreTop(root);
    FamilyTotals(u, root);
  }

  lemma EntryFits(u: Usage, c: Code)
    requires UsageAccepted(u) && TotalsFit(u) && c in Normalized(u)
    ensures ValidCode(c) && DecimalAccepted(Normalized(u)[c], SCALE)
  {
    hide OnGrid, Round30, Normalized, TopLevel, Implied, ValidCode, FamilyRoot, Disjoint;
    AcceptedIsSound(u);
    var n := Normalized(u);
    NormalizedIsDisjoint(u);
    PrintsExactlyIff(n[c]);
    assert OnGrid(n[c]) && n[c] == Quantity(n, c);
    hide UsageAccepted, Sound;
    if InAFamily(c) {
      var root := FamilyRoot(c.stem).value;
      RootIsTotal(c.stem);
      RootsAreTop(root);
      FamilyTotals(u, root);
      MemberWithinRoot(n, root, c.stem);
      assert c == Plain(c.stem);
      FamilyIsNamed(c.stem);
      NamedCodes(c.stem);
    } else {
      OutsideKept(u, c);
      EntryAccepted(u, c);
    }
  }

  lemma EntryAccepted(u: Usage, c: Code)
    requires UsageAccepted(u) && c in u
    ensures ValidCode(c) && DecimalAccepted(u[c], SCALE) && Quantity(u, c) == u[c]
  {
    hide Round30, ValidCode;
  }

  lemma FamilyIsNamed(m: Meter)
    requires FamilyRoot(m).Some?
    ensures !m.Other?
  {
  }

  /** An acceptable report stays acceptable when it is normalized exactly if both totals, reported or
      summed up from the details, fit thirty integer digits. */
  lemma {:induction false} NormalizedAcceptedIff(u: Usage)
    requires UsageAccepted(u)
    ensures UsageAccepted(Normalized(u)) <==> TotalsFit(u)
  {
    hide DecimalAccepted, Normalized, Implied, ValidCode;
    if TotalsFit(u) {
      hide TotalsFit;
      forall c | c in Normalized(u)
        ensures ValidCode(c) && DecimalAccepted(Normalized(u)[c], SCALE)
      {
        EntryFits(u, c);
      }
    }
    if UsageAccepted(Normalized(u)) {
      TotalAccepted(u, InputTokens);
      TotalAccepted(u, OutputTokens);
    }
  }

  /** However often it is repeated on the way, a settlement works on the report merged once and
      normalized once; it is refused exactly when an entry of the report is not acceptable or one of
      the merged totals, summed up where it is not given, does not fit thirty integer digits. */
  lemma {:induction false} SettlementNormalizesOnce(r: Reported)
    requires NoNegativeCounter(r)
    ensures SettlementMetrics(r) ==
      if Merged(r) == map[] then Ok(UsageFromLegacy(0, 0, 0, 0))
      else if UsageAccepted(r.metrics) && TotalsFit(Merged(r)) then Ok(Normalized(Merged(r)))
      else Err(InvalidRequest)
  {
    hide SettlementMetrics, UsageAccepted, Normalized, Merged, TotalsFit;
    RefusedStays(r);
    if Merged(r) == map[] {
      EmptyReport(r);
    } else if UsageAccepted(Merged(r)) {
      AcceptedReport(r);
      NormalizedAcceptedIff(Merged(r));
    } else {
      RefusedReport(r);
    }
  }

  // ----- an acceptable report that is refused

  /** Two details just below the limit and no total. */
  function HugeDetails(): Usage {
    map[Plain(CachedInputTokens) := SCALE - 1.0, Plain(CacheCreationTokens) := SCALE - 1.0]
  }

  lemma {:induction false} ImpliedNonNegative(u: Usage, m: Meter)
    ensures Implied(u, m) >= 0.0
    decreases Depth(m), 1, 0
  {
    SubMetersShallower(m);
    hide SubMeters, Depth;
    if Plain(m) !in u { ImpliedAllNonNegative(u, SubMeters(m), Depth(m)); }
  }

  lemma {:induction false} ImpliedAllNonNegative(u: Usage, ms: seq<Meter>, depth: nat)
    requires forall m :: m in ms ==> Depth(m) < depth
    ensures ImpliedAll(u, ms, depth) >= 0.0
    decreases depth, 0, |ms|
  {
    hide SubMeters, Depth, Implied;
    if ms != [] {
      ImpliedNonNegative(u, ms[0]);
      ImpliedAllNonNegative(u, ms[1..], depth);
    }
  }

  lemma HugeTotal()
    ensures Implied(HugeDetails(), InputTokens) >= SCALE
  {
    var u := HugeDetails();
    SubMetersShallower(InputTokens);
    var ms := SubMeters(InputTokens);
    var rest := ms[2..];
    assert ms[0] == CachedInputTokens && ms[1] == CacheCreationTokens;
    assert ms[1..][1..] == rest;
    hide SubMeters, Depth;
    ImpliedAllNonNegative(u, rest, 2);
    FirstTwo(u, ms, 2);
  }

  lemma FirstTwo(u: Usage, ms: seq<Meter>, depth: nat)
    requires |ms| >= 2 && forall m :: m in ms ==> Depth(m) < depth
    ensures ImpliedAll(u, ms, depth) == Implied(u, ms[0]) + Implied(u, ms[1]) + ImpliedAll(u, ms[2..], depth)
  {
    hide Implied, Depth;
    assert ms[1..][1..] == ms[2..] && ms[1..][0] == ms[1];
  }

  lemma HugeAccepted()
    ensures UsageAccepted(HugeDetails())
  {
    NamedCodes(CachedInputTokens);
    NamedCodes(CacheCreationTokens);
    hide ValidCode;
    var n := 999_999_999_999_999_999_999_999_999_999 * 1_000_000_000_000_000_000_000_000_000_000;
    assert Units(n) == SCALE - 1.0;
    NearestUnits(n);
    assert DecimalAccepted(SCALE - 1.0, SCALE);
    hide DecimalAccepted;
  }

  /** Each entry is acceptable, the total they imply is not, and the settlement is refused. */
  lemma {:induction false} HugeDetailsRefused()
    ensures UsageAccepted(HugeDetails()) && SettlementMetrics(Reported(0, 0, 0, 0, HugeDetails())) == Err(InvalidRequest)
  {
    var r := Reported(0, 0, 0, 0, HugeDetails());
    HugeAccepted();
    HugeTotal();
    assert Plain(CachedInputTokens) in HugeDetails();
    assert Merged(r) == HugeDetails();
    hide Merged, SettlementMetrics, UsageAccepted, Implied, HugeDetails, Normalized;
    SettlementNormalizesOnce(r);
  }
}
