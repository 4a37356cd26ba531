/** What the lines of a charge carry: which entries are billed, how often, and when exactly once. */
module LineLaws {
  import opened Results
  import opened Rounding
  import opened Sums
  import opened Meters
  import opened Metering
  import opened MeteringLaws
  import opened Charging
  import opened ChargeLaws

  // ----- how often a quantity is billed

  /** How many lines carry the quantity of a code. */
  function Times(lines: seq<ChargeLine>, c: Code): nat {
    if lines == [] then 0
    else (if ComponentBaseCode(lines[0].code) == c then 1 else 0) + Times(lines[1..], c)
  }

  /** The codes among `codes` whose lines carry the quantity of c. */
  function Carriers(codes: set<Code>, c: Code): set<Code> {
    set b | b in codes && ComponentBaseCode(b) == c
  }

  lemma {:induction false} TimesBilled(lines: seq<ChargeLine>, codes: set<Code>, index: Index, tier: Option<Tier>,
                                       u: Usage, c: Code)
    requires LinesFor(lines, codes, index, tier, u)
    ensures Times(lines, c) == if EffectiveQuantity(c, u) > 0.0 then |Carriers(codes, c)| else 0
    decreases |lines|
  {
    hide EffectiveQuantity, ComponentBaseCode, LineFor, LineUnit, Round30;
    if lines == [] {
      assert EffectiveQuantity(c, u) > 0.0 ==> Carriers(codes, c) == {};
    } else {
      var b := lines[0].code;
      OneLineLess(lines, codes, index, tier, u);
      TimesBilled(lines[1..], codes - {b}, index, tier, u, c);
      if ComponentBaseCode(b) == c {
        assert Carriers(codes, c) == Carriers(codes - {b}, c) + {b};
      } else {
        assert Carriers(codes, c) == Carriers(codes - {b}, c);
      }
    }
  }

  /** A quantity that is left to bill stands on exactly as many lines as there are billable codes that
      strip to its code. */
  lemma {:induction false} BilledTimes(lines: seq<ChargeLine>, index: Index, tier: Option<Tier>, u: Usage, c: Code)
    requires LinesFor(lines, BillableCodes(u), index, tier, u) && EffectiveQuantity(c, u) > 0.0
    ensures Times(lines, c) == |Carriers(BillableCodes(u), c)|
  {
    TimesBilled(lines, BillableCodes(u), index, tier, u, c);
  }

  // ----- every line with its own quantity

  /** Every key strips completely, or has no positive entry at what it strips to. */
  ghost predicate StripsClean(u: Usage) {
    forall k :: k in u ==> InStripOrder(k.suffixes) || Quantity(u, ComponentBaseCode(k)) == 0.0
  }

  lemma OrderedBase(c: Code)
    ensures InStripOrder(c.suffixes) <==> ComponentBaseCode(c).suffixes == []
    ensures ComponentBaseCode(c).stem == c.stem
  {
    SameStem(c, Priority);
    SameStem(TrimSuffix(c, Priority), Flex);
    SameStem(TrimSuffix(TrimSuffix(c, Priority), Flex), Batches);
    StripsCompletelyIff(c);
    hide InStripOrder, TrimSuffix;
  }

  lemma PlainOrStripped(c: Code)
    ensures c.suffixes == [] <==> ComponentBaseCode(c) == c
  {
    if c.suffixes == [] { PlainBase(c); } else { StripsSomething(c); }
  }

  lemma SuffixedBillable(u: Usage, b: Code)
    requires b.suffixes != []
    ensures b in BillableCodes(u) <==> Quantity(u, b) > 0.0 && StripsTo(u, b)
  {
    SuffixedEffective(u, b);
    BillableIff(u, b);
  }

  /** Every billable code is charged for its own entry exactly if every key of the report strips
      completely or has no positive entry at what it strips to. */
  lemma {:induction false} OwnQuantitiesIff(u: Usage)
    ensures (forall b :: b in BillableCodes(u) ==> ComponentBaseCode(b) == b) <==> StripsClean(u)
  {
    hide BillableCodes, ComponentBaseCode, Quantity, InStripOrder;
    forall k | k in u
      ensures InStripOrder(k.suffixes) || Quantity(u, ComponentBaseCode(k)) == 0.0 <==>
        !(ComponentBaseCode(k) in BillableCodes(u) && ComponentBaseCode(k).suffixes != [])
    {
      OrderedBase(k);
      assert Quantity(u, ComponentBaseCode(k)) >= 0.0 by { NoNegativeQuantity(u, ComponentBaseCode(k)); }
      if ComponentBaseCode(k).suffixes != [] { SuffixedBillable(u, ComponentBaseCode(k)); }
    }
    forall b | b in BillableCodes(u)
      ensures StripsTo(u, b) && (b.suffixes == [] <==> ComponentBaseCode(b) == b)
    {
      BillableIff(u, b);
      PlainOrStripped(b);
    }
  }

  // ----- nothing free

  lemma Longer(c: Code)
    ensures c.suffixes != [] ==> |ComponentBaseCode(c).suffixes| < |c.suffixes|
    ensures c.suffixes == [] ==> ComponentBaseCode(c) == c
  {
    if c.suffixes == [] { PlainBase(c); } else { StripsSomething(c); }
    StrippedPrefix(c, Priority);
    StrippedPrefix(TrimSuffix(c, Priority), Flex);
    StrippedPrefix(TrimSuffix(TrimSuffix(c, Priority), Flex), Batches);
    hide TrimSuffix;
  }

  /** No entry of positive quantity has a suffixed key. */
  ghost predicate OnlyPlainPositive(u: Usage) {
    forall c :: c in u && c.suffixes != [] ==> Quantity(u, c) == 0.0
  }

  /** The longest suffixed key among those of positive entries. */
  lemma {:induction false} LongestSuffixed(u: Usage, keys: set<Code>) returns (c: Code)
    requires exists k :: k in keys && k.suffixes != [] && Quantity(u, k) > 0.0
    ensures c in keys && c.suffixes != [] && Quantity(u, c) > 0.0
    ensures forall k :: k in keys && k.suffixes != [] && Quantity(u, k) > 0.0 ==> |k.suffixes| <= |c.suffixes|
    decreases keys
  {
    hide Quantity;
    var k :| k in keys && k.suffixes != [] && Quantity(u, k) > 0.0;
    if exists j :: j in keys - {k} && j.suffixes != [] && Quantity(u, j) > 0.0 {
      c := LongestSuffixed(u, keys - {k});
      if |c.suffixes| < |k.suffixes| { c := k; }
    } else {
      c := k;
    }
  }

  /** The longest suffixed key of a positive entry is what no billable code strips to. */
  lemma LongestIsFree(u: Usage, c: Code)
    requires c.suffixes != []
    requires forall k :: k in u && k.suffixes != [] && Quantity(u, k) > 0.0 ==> |k.suffixes| <= |c.suffixes|
    ensures Carriers(BillableCodes(u), c) == {}
  {
    hide BillableCodes, ComponentBaseCode;
    forall b | b in BillableCodes(u)
      ensures ComponentBaseCode(b) != c
    {
      Longer(b);
      if b.suffixes != [] { SuffixedBillable(u, b); }
    }
  }

  lemma PlainCarriers(u: Usage, c: Code)
    requires Sound(u) && Disjoint(u) && OnlyPlainPositive(u) && EffectiveQuantity(c, u) > 0.0
    ensures Carriers(BillableCodes(u), c) == {c}
  {
    hide BillableCodes, ComponentBaseCode, EffectiveQuantity, Disjoint, OnGrid, Quantity;
    PositiveIsPresent(u, c);
    if c.suffixes != [] { SuffixedEffective(u, c); }
    BillablePlain(u);
    PlainOrStripped(c);
    forall b | b in BillableCodes(u)
      ensures ComponentBaseCode(b) == b
    {
      PlainOrStripped(b);
      if b.suffixes != [] { SuffixedIsPresent(u, b); }
    }
  }

  lemma SuffixedIsPresent(u: Usage, b: Code)
    requires b in BillableCodes(u) && b.suffixes != []
    ensures b in u && Quantity(u, b) > 0.0
  {
    hide BillableCodes;
    SuffixedBillable(u, b);
  }

  /** Nothing with something to bill is free exactly if no entry of positive quantity has a suffixed
      key; then everything is billed exactly once. */
  lemma {:induction false} NothingFreeIff(lines: seq<ChargeLine>, index: Index, tier: Option<Tier>, u: Usage)
    requires Sound(u) && Disjoint(u) && LinesFor(lines, BillableCodes(u), index, tier, u)
    ensures (forall c :: c in u && EffectiveQuantity(c, u) > 0.0 ==> Times(lines, c) >= 1) <==> OnlyPlainPositive(u)
    ensures OnlyPlainPositive(u) ==> forall c :: EffectiveQuantity(c, u) > 0.0 ==> Times(lines, c) == 1
  {
    hide BillableCodes, Carriers, EffectiveQuantity, Disjoint, Sound, LinesFor, Quantity, Times;
    forall c | EffectiveQuantity(c, u) > 0.0
      ensures Times(lines, c) == |Carriers(BillableCodes(u), c)|
      ensures OnlyPlainPositive(u) ==> Carriers(BillableCodes(u), c) == {c}
    {
      BilledTimes(lines, index, tier, u, c);
      if OnlyPlainPositive(u) { PlainCarriers(u, c); }
    }
    if !OnlyPlainPositive(u) {
      var k :| k in u && k.suffixes != [] && Quantity(u, k) != 0.0;
      NoNegativeQuantity(u, k);
      var c := LongestSuffixed(u, u.Keys);
      LongestIsFree(u, c);
      SuffixedEffective(u, c);
    }
  }

  // ----- the two ways to go wrong

  /** A suffixed entry that another key strips to is selected, but its line is billed the plain
      meter's quantity: without any of that there is no line and the entry is free. */
  lemma {:induction false} DoubleSuffixFree(u: Usage, m: Meter, p: real, x: real, lines: seq<ChargeLine>, index: Index,
                                            tier: Option<Tier>)
    requires u == map[Code(m, [Priority]) := p, Code(m, [Priority, Flex]) := x] && p > 0.0
    requires LinesFor(lines, BillableCodes(u), index, tier, u)
    ensures BillableCodes(u) == {Code(m, [Priority])} && lines == []
    ensures MapSum(LineAmounts(index, tier, u)) == 0.0
  {
    hide LinesFor, LineAmounts, AmountsOf, LineFor, LineUnit, MapSum, BillableCodes, EffectiveQuantity, ComponentBaseCode;
    NothingPlain(u, m);
    DoubleSuffixBase(m);
    SelectedAlone(u, m, p, x);
    LinesNeedQuantity(lines, BillableCodes(u), index, tier, u);
    LineAmountsAreAll(index, tier, u);
    LinesPriced(lines, BillableCodes(u), index, tier, u);
    ExactLinesAddUp(lines, BillableCodes(u), index, tier, u);
  }

  lemma DoubleSuffixBase(m: Meter)
    ensures ComponentBaseCode(Code(m, [Priority, Flex])) == Code(m, [Priority])
    ensures ComponentBaseCode(Code(m, [Priority])) == Plain(m)
  {
    assert [Priority, Flex][..1] == [Priority];
    OneSuffix(Code(m, [Priority]));
  }

  lemma NothingPlain(u: Usage, m: Meter)
    requires forall c :: c in u ==> c.suffixes != []
    ensures EffectiveQuantity(Plain(m), u) == 0.0
  {
    forall p: Meter
      ensures Quantity(u, Plain(p)) == 0.0
    {
    }
    NoneHeld(u, SubMeters(m));
    hide SubMeters;
  }

  lemma SelectedAlone(u: Usage, m: Meter, p: real, x: real)
    requires u == map[Code(m, [Priority]) := p, Code(m, [Priority, Flex]) := x] && p > 0.0
    requires EffectiveQuantity(Plain(m), u) == 0.0
    ensures BillableCodes(u) == {Code(m, [Priority])}
  {
    DoubleSuffixBase(m);
    SuffixedEffective(u, Code(m, [Priority]));
    hide EffectiveQuantity, ComponentBaseCode;
    assert Code(m, [Priority, Flex]) in u;
  }

  lemma LinesNeedQuantity(lines: seq<ChargeLine>, codes: set<Code>, index: Index, tier: Option<Tier>, u: Usage)
    requires LinesFor(lines, codes, index, tier, u)
    ensures lines != [] ==> exists c :: c in codes && ChargedQuantity(c, u) > 0.0
  {
    hide ChargedQuantity, LineFor, LineUnit, Round30;
    if lines != [] { assert lines[0].code in codes && ChargedQuantity(lines[0].code, u) > 0.0; }
  }

  /** With some of it the plain quantity is billed twice, and the entry still not at all. */
  lemma {:induction false} DoubleSuffixTwice(u: Usage, m: Meter, q: real, p: real, x: real, lines: seq<ChargeLine>,
                                             index: Index, tier: Option<Tier>)
    requires u == map[Plain(m) := q, Code(m, [Priority]) := p, Code(m, [Priority, Flex]) := x] && q > 0.0 && p > 0.0
    requires OnGrid(q) && LinesFor(lines, BillableCodes(u), index, tier, u)
    ensures BillableCodes(u) == {Plain(m), Code(m, [Priority])}
    ensures ChargedQuantity(Plain(m), u) == q == ChargedQuantity(Code(m, [Priority]), u)
    ensures Times(lines, Plain(m)) == 2 && Times(lines, Code(m, [Priority])) == 0
  {
    hide LinesFor, BillableCodes, EffectiveQuantity, ComponentBaseCode, OnGrid, Carriers;
    PlainAlone(u, m, q);
    PlainBase(Plain(m));
    DoubleSuffixBase(m);
    SuffixedEffective(u, Code(m, [Priority]));
    SelectedBoth(u, m, q, p, x);
    BilledTimes(lines, index, tier, u, Plain(m));
    BilledTimes(lines, index, tier, u, Code(m, [Priority]));
    CarriersOfBoth(m);
  }

  lemma SelectedBoth(u: Usage, m: Meter, q: real, p: real, x: real)
    requires u == map[Plain(m) := q, Code(m, [Priority]) := p, Code(m, [Priority, Flex]) := x] && p > 0.0
    requires EffectiveQuantity(Plain(m), u) > 0.0
    ensures BillableCodes(u) == {Plain(m), Code(m, [Priority])}
  {
    hide BillableCodes, EffectiveQuantity, ComponentBaseCode;
    PlainBase(Plain(m));
    DoubleSuffixBase(m);
    SuffixedEffective(u, Code(m, [Priority]));
    assert Plain(m) in u && Code(m, [Priority]) in u && Code(m, [Priority, Flex]) in u;
    forall b
      ensures b in BillableCodes(u) <==> b == Plain(m) || b == Code(m, [Priority])
    {
      BillableIff(u, b);
    }
  }

  lemma CarriersOfBoth(m: Meter)
    ensures Carriers({Plain(m), Code(m, [Priority])}, Plain(m)) == {Plain(m), Code(m, [Priority])}
    ensures Carriers({Plain(m), Code(m, [Priority])}, Code(m, [Priority])) == {}
  {
    PlainBase(Plain(m));
    DoubleSuffixBase(m);
    hide ComponentBaseCode;
  }

  lemma PlainAlone(u: Usage, m: Meter, q: real)
    requires Plain(m) in u && u[Plain(m)] == q && q >= 0.0 && OnGrid(q)
    requires forall c :: c in u && c.suffixes == [] ==> c.stem == m
    ensures EffectiveQuantity(Plain(m), u) == q
  {
    forall p | p in SubMeters(m)
      ensures Quantity(u, Plain(p)) == 0.0
    {
      assert p != m by { SubMetersShallower(m); }
    }
    NoneHeld(u, SubMeters(m));
    PrintsExactlyIff(q);
    hide SubMeters, OnGrid, Round30;
  }

  // ----- what a family is billed

  predicate InFamily(c: Code, ms: seq<Meter>) { c.suffixes == [] && c.stem in ms }

  /** What the lines carry of the quantities of some meters. */
  function LineQuantity(lines: seq<ChargeLine>, ms: seq<Meter>): real {
    if lines == [] then 0.0
    else (if InFamily(ComponentBaseCode(lines[0].code), ms) then lines[0].quantity else 0.0) + LineQuantity(lines[1..], ms)
  }

  /** The part of it that stands under the meters' own codes. */
  function OwnQuantity(lines: seq<ChargeLine>, ms: seq<Meter>): real {
    if lines == [] then 0.0
    else (if InFamily(lines[0].code, ms) then lines[0].quantity else 0.0) + OwnQuantity(lines[1..], ms)
  }

  ghost function BilledIn(u: Usage, codes: set<Code>): Meter -> real {
    m => if Plain(m) in codes then EffectiveQuantity(Plain(m), u) else 0.0
  }

  lemma {:induction false} OwnLinesAddUp(lines: seq<ChargeLine>, codes: set<Code>, index: Index, tier: Option<Tier>,
                                         u: Usage, ms: seq<Meter>)
    requires LinesFor(lines, codes, index, tier, u) && Distinct(ms)
    ensures OwnQuantity(lines, ms) == SumBy(ms, BilledIn(u, codes))
    decreases |lines|
  {
    hide EffectiveQuantity, ComponentBaseCode, LineFor, LineUnit, Round30;
    if lines == [] {
      forall m | m in ms
        ensures BilledIn(u, codes)(m) == 0.0
      {
        PlainCharged(Plain(m), u);
        if Plain(m) in codes { NoLines(codes, index, tier, u, Plain(m)); }
      }
      AllZero(ms, BilledIn(u, codes));
    } else {
      var b := lines[0].code;
      var rest := codes - {b};
      OneLineLess(lines, codes, index, tier, u);
      OwnLinesAddUp(lines[1..], rest, index, tier, u, ms);
      if b.suffixes == [] {
        PlainCharged(b, u);
        assert b == Plain(b.stem);
        SumByBump(ms, b.stem, BilledIn(u, codes), BilledIn(u, rest), EffectiveQuantity(b, u));
      } else {
        SumByAgree(ms, BilledIn(u, codes), BilledIn(u, rest));
      }
    }
  }

  lemma OwnLinesConserve(lines: seq<ChargeLine>, index: Index, tier: Option<Tier>, u: Usage, root: Meter)
    requires Sound(u) && Disjoint(u) && (root == InputTokens || root == OutputTokens)
    requires LinesFor(lines, BillableCodes(u), index, tier, u)
    ensures OwnQuantity(lines, Family(root)) == Quantity(u, Plain(root))
  {
    hide EffectiveQuantity, BillableCodes, OnGrid, SubMeters, Disjoint, Family, LinesFor;
    FamiliesDistinct();
    OwnLinesAddUp(lines, BillableCodes(u), index, tier, u, Family(root));
    BillablePlain(u);
    FamilyConserved(u, root);
    SumByAgree(Family(root), BilledIn(u, BillableCodes(u)), Billed(u));
  }

  /** A line under a suffixed code that carries the quantity of one of the meters. */
  predicate BillsAgain(c: Code, ms: seq<Meter>) { c.suffixes != [] && InFamily(ComponentBaseCode(c), ms) }

  lemma {:induction false} AtLeastOwn(lines: seq<ChargeLine>, ms: seq<Meter>)
    requires forall i :: 0 <= i < |lines| ==> lines[i].quantity > 0.0
    ensures LineQuantity(lines, ms) >= OwnQuantity(lines, ms)
    ensures LineQuantity(lines, ms) == OwnQuantity(lines, ms) <==>
      forall i :: 0 <= i < |lines| ==> !BillsAgain(lines[i].code, ms)
  {
    hide ComponentBaseCode;
    if lines != [] {
      AtLeastOwn(lines[1..], ms);
      PlainOrStripped(lines[0].code);
      assert forall i :: 0 < i < |lines| ==> lines[i] == lines[1..][i - 1];
      assert (forall i :: 0 <= i < |lines| ==> !BillsAgain(lines[i].code, ms)) <==>
        !BillsAgain(lines[0].code, ms) && forall i :: 0 <= i < |lines[1..]| ==> !BillsAgain(lines[1..][i].code, ms)
        by { HeadAndTail(lines, ms); }
    }
  }

  lemma HeadAndTail(lines: seq<ChargeLine>, ms: seq<Meter>)
    requires lines != []
    ensures (forall i :: 0 <= i < |lines| ==> !BillsAgain(lines[i].code, ms)) <==>
      !BillsAgain(lines[0].code, ms) && forall i :: 0 <= i < |lines[1..]| ==> !BillsAgain(lines[1..][i].code, ms)
  {
    hide BillsAgain;
    if !BillsAgain(lines[0].code, ms) && (forall i :: 0 <= i < |lines[1..]| ==> !BillsAgain(lines[1..][i].code, ms)) {
      forall i | 0 <= i < |lines|
        ensures !BillsAgain(lines[i].code, ms)
      {
        if i > 0 { assert lines[i] == lines[1..][i - 1]; }
      }
    }
    assert forall i :: 0 <= i < |lines[1..]| ==> lines[1..][i] == lines[i + 1];
  }

  /** Some billable suffixed code strips to a member of the family that has something to bill. */
  ghost predicate FamilyBilledAgain(u: Usage, root: Meter) {
    exists b :: b in BillableCodes(u) && BillsAgain(b, Family(root)) && ChargedQuantity(b, u) > 0.0
  }

  lemma LinesAgainIff(lines: seq<ChargeLine>, index: Index, tier: Option<Tier>, u: Usage, root: Meter)
    requires LinesFor(lines, BillableCodes(u), index, tier, u)
    ensures (exists i :: 0 <= i < |lines| && BillsAgain(lines[i].code, Family(root))) <==> FamilyBilledAgain(u, root)
  {
    hide BillableCodes, BillsAgain, ChargedQuantity, Family, LineFor, LineUnit, Round30;
    if b :| b in BillableCodes(u) && BillsAgain(b, Family(root)) && ChargedQuantity(b, u) > 0.0 {
      assert HasLine(lines, b);
    }
  }

  lemma LinesCarry(lines: seq<ChargeLine>, codes: set<Code>, index: Index, tier: Option<Tier>, u: Usage)
    requires LinesFor(lines, codes, index, tier, u)
    ensures forall i :: 0 <= i < |lines| ==> lines[i].quantity > 0.0
  {
    hide ChargedQuantity, LineFor, LineUnit, Round30;
  }

  /** The lines carry at least each family's total, and exactly that if and only if no billable
      suffixed code strips to a member of the family with something to bill. */
  lemma {:induction false} LinesConserveTotals(lines: seq<ChargeLine>, index: Index, tier: Option<Tier>, u: Usage, root: Meter)
    requires Sound(u) && Disjoint(u) && (root == InputTokens || root == OutputTokens)
    requires LinesFor(lines, BillableCodes(u), index, tier, u)
    ensures LineQuantity(lines, Family(root)) >= Quantity(u, Plain(root))
    ensures LineQuantity(lines, Family(root)) == Quantity(u, Plain(root)) <==> !FamilyBilledAgain(u, root)
  {
    hide BillableCodes, BillsAgain, Disjoint, Sound, Family, LinesFor, FamilyBilledAgain, LineQuantity, OwnQuantity, Quantity;
    OwnLinesConserve(lines, index, tier, u, root);
    LinesCarry(lines, BillableCodes(u), index, tier, u);
    AtLeastOwn(lines, Family(root));
    LinesAgainIff(lines, index, tier, u, root);
  }
}
