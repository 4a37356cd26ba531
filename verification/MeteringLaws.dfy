/** What normalization promises: a disjoint hierarchy, reached in one pass, that keeps totals. */
module MeteringLaws {
  import opened Results
  import opened Meters
  import opened Rounding
  import opened Sums
  import opened Metering

  // ----- totals over a list of meters

  lemma NoNegativeQuantity(u: Usage, c: Code)
    ensures Quantity(u, c) >= 0.0
  {
  }

  lemma TotalAgree(u: Usage, v: Usage, ms: seq<Meter>)
    requires forall m :: m in ms ==> Quantity(u, Plain(m)) == Quantity(v, Plain(m))
    ensures TotalOf(u, ms) == TotalOf(v, ms)
  {
    SumByAgree(ms, Held(u), Held(v));
  }

  lemma {:induction false} TotalSound(u: Usage, ms: seq<Meter>)
    requires Sound(u)
    ensures 0.0 <= TotalOf(u, ms) && OnGrid(TotalOf(u, ms))
    ensures forall m :: m in ms ==> Quantity(u, Plain(m)) <= TotalOf(u, ms)
  {
    ZeroOnGrid();
    if ms != [] {
      TotalSound(u, ms[1..]);
      GridSum(Quantity(u, Plain(ms[0])), TotalOf(u, ms[1..]));
    }
  }

  lemma {:induction false} NoneHeld(u: Usage, ms: seq<Meter>)
    requires forall m :: m in ms ==> Quantity(u, Plain(m)) == 0.0
    ensures TotalOf(u, ms) == 0.0
  {
    if ms != [] { NoneHeld(u, ms[1..]); }
  }

  lemma SubMetersDistinct(m: Meter)
    ensures Distinct(SubMeters(m)) && m !in SubMeters(m)
  {
  }

  // ----- one clamping pass

  /** One child taken off the remaining total. */
  function ChildTaken(u: Usage, m: Meter, remaining: real): Usage {
    var value := Min(Quantity(u, Plain(m)), remaining);
    if Plain(m) in u then u[Plain(m) := Round30(value)] else u
  }

  lemma ChildTakenLaw(u: Usage, m: Meter, remaining: real)
    requires Sound(u) && 0.0 <= remaining && OnGrid(remaining)
    ensures var r, value := ChildTaken(u, m, remaining), Min(Quantity(u, Plain(m)), remaining);
      && Sound(r) && r.Keys == u.Keys
      && Quantity(r, Plain(m)) == value && 0.0 <= remaining - value && OnGrid(remaining - value)
      && (forall c :: c in u && c != Plain(m) ==> r[c] == u[c])
      && (Quantity(u, Plain(m)) <= remaining ==> r == u)
  {
    hide OnGrid, Round30;
    var value := Min(Quantity(u, Plain(m)), remaining);
    ZeroOnGrid();
    PrintsExactlyIff(value);
    GridSum(remaining, value);
  }

  lemma {:induction false} ClampFrame(u: Usage, ms: seq<Meter>, remaining: real)
    requires Sound(u) && 0.0 <= remaining && OnGrid(remaining)
    ensures var r := ClampedTo(u, ms, remaining);
      && Sound(r) && r.Keys == u.Keys
      && (forall c :: c in u && (c.suffixes != [] || c.stem !in ms) ==> r[c] == u[c])
    decreases |ms|
  {
    hide OnGrid, Round30;
    if ms != [] {
      ChildTakenLaw(u, ms[0], remaining);
      var value := Min(Quantity(u, Plain(ms[0])), remaining);
      ClampFrame(ChildTaken(u, ms[0], remaining), ms[1..], remaining - value);
    }
  }

  /** Together the children keep what the parent can hold, and all of it if they fit. */
  lemma {:induction false} ClampTotal(u: Usage, ms: seq<Meter>, remaining: real)
    requires Sound(u) && Distinct(ms) && 0.0 <= remaining && OnGrid(remaining)
    ensures var r := ClampedTo(u, ms, remaining);
      && TotalOf(r, ms) == Min(TotalOf(u, ms), remaining)
      && (TotalOf(u, ms) <= remaining ==> r == u)
    decreases |ms|
  {
    hide OnGrid, Round30;
    if ms != [] {
      var m, rest := ms[0], ms[1..];
      var value := Min(Quantity(u, Plain(m)), remaining);
      var u' := ChildTaken(u, m, remaining);
      ChildTakenLaw(u, m, remaining);
      assert m !in rest;
      ClampFrame(u', rest, remaining - value);
      ClampTotal(u', rest, remaining - value);
      TotalAgree(u, u', rest);
      TotalSound(u, rest);
    }
  }

  /** Which part of the parent each child keeps: the children are laid end to end in list
      order and cut off at the parent's total. */
  lemma {:induction false} ClampShares(u: Usage, ms: seq<Meter>, remaining: real, i: nat)
    requires Sound(u) && Distinct(ms) && 0.0 <= remaining && OnGrid(remaining) && i < |ms|
    ensures Quantity(ClampedTo(u, ms, remaining), Plain(ms[i])) ==
            Min(Quantity(u, Plain(ms[i])), Positive(remaining - TotalOf(u, ms[..i])))
    decreases |ms|
  {
    hide OnGrid, Round30;
    var m, rest := ms[0], ms[1..];
    var value := Min(Quantity(u, Plain(m)), remaining);
    var u' := ChildTaken(u, m, remaining);
    ChildTakenLaw(u, m, remaining);
    assert m !in rest;
    if i == 0 {
      ClampFrame(u', rest, remaining - value);
    } else {
      ClampShares(u', rest, remaining - value, i - 1);
      assert ms[..i][0] == m && ms[..i][1..] == rest[..i - 1];
      TotalAgree(u, u', rest[..i - 1]);
      TotalSound(u, rest[..i - 1]);
    }
  }

  /** A pass over one parent settles that parent and moves nothing but its sub-meters. */
  lemma ClampedLaw(u: Usage, p: Meter)
    requires Sound(u)
    ensures var r := Clamped(u, p);
      && Sound(r) && r.Keys == u.Keys
      && (forall c :: c in u && (c.suffixes != [] || c.stem !in SubMeters(p)) ==> r[c] == u[c])
      && TotalOf(r, SubMeters(p)) <= Quantity(r, Plain(p))
      && (TotalOf(u, SubMeters(p)) <= Quantity(u, Plain(p)) ==> r == u)
  {
    SubMetersDistinct(p);
    hide OnGrid, Round30, SubMeters;
    ZeroOnGrid();
    ClampFrame(u, SubMeters(p), Quantity(u, Plain(p)));
    ClampTotal(u, SubMeters(p), Quantity(u, Plain(p)));
  }

  /** Filling in a parent keeps every entry and adds at most the exact sum of the children. */
  lemma EnsuredLaw(u: Usage, p: Meter)
    requires Sound(u)
    ensures var r := Ensured(u, p);
      && Sound(r)
      && (forall c :: c in u ==> c in r && r[c] == u[c])
      && (forall c :: c in r && c != Plain(p) ==> c in u)
      && Quantity(r, Plain(p)) == (if Plain(p) in u then u[Plain(p)] else TotalOf(u, SubMeters(p)))
      && (TotalOf(u, SubMeters(p)) <= Quantity(u, Plain(p)) ==> r == u)
  {
    hide OnGrid, Round30, SubMeters, TotalOf;
    TotalSound(u, SubMeters(p));
    PrintsExactlyIff(TotalOf(u, SubMeters(p)));
  }

  // ----- all passes

  lemma {:induction false} EnsureAllLaw(u: Usage, ps: seq<Meter>)
    requires Sound(u)
    ensures var r := EnsureAll(u, ps);
      && Sound(r)
      && (forall c :: c in u ==> c in r && r[c] == u[c])
      && (forall c :: c in r && (c.suffixes != [] || c.stem !in ps) ==> c in u)
    ensures Disjoint(u) ==> EnsureAll(u, ps) == u
    decreases |ps|
  {
    hide OnGrid, SubMeters, Ensured;
    if ps != [] {
      EnsuredLaw(u, ps[0]);
      EnsureAllLaw(Ensured(u, ps[0]), ps[1..]);
    }
  }

  /** Cutting the sub-meters of q back leaves p and the sub-meters of p alone. */
  ghost predicate Apart(p: Meter, q: Meter) {
    p !in SubMeters(q) && forall m :: m in SubMeters(p) ==> m !in SubMeters(q)
  }

  lemma TopDownApart()
    ensures forall i, j :: 0 <= i < j < |TOP_DOWN| ==> Apart(TOP_DOWN[i], TOP_DOWN[j])
    ensures forall m :: m !in TOP_DOWN ==> SubMeters(m) == []
    ensures forall m :: m in TOP_DOWN <==> m in BOTTOM_UP
  {
  }

  ghost predicate SettledAt(u: Usage, p: Meter) {
    TotalOf(u, SubMeters(p)) <= Quantity(u, Plain(p))
  }

  /** Once settled, a parent stays settled under passes over parents apart from it. */
  lemma {:induction false} ClampAllKeeps(u: Usage, ps: seq<Meter>, p: Meter)
    requires Sound(u) && SettledAt(u, p) && forall q :: q in ps ==> Apart(p, q)
    ensures SettledAt(ClampAll(u, ps), p)
    decreases |ps|
  {
    hide OnGrid, SubMeters, Clamped;
    if ps != [] {
      var v := Clamped(u, ps[0]);
      ClampedLaw(u, ps[0]);
      assert Apart(p, ps[0]);
      forall m | m in SubMeters(p)
        ensures Quantity(u, Plain(m)) == Quantity(v, Plain(m))
      {
        assert Plain(m).stem == m;
      }
      TotalAgree(u, v, SubMeters(p));
      ClampAllKeeps(v, ps[1..], p);
    }
  }

  lemma {:induction false} ClampAllSettles(u: Usage, ps: seq<Meter>)
    requires Sound(u) && forall i, j :: 0 <= i < j < |ps| ==> Apart(ps[i], ps[j])
    ensures Sound(ClampAll(u, ps)) && ClampAll(u, ps).Keys == u.Keys
    ensures forall p :: p in ps ==> SettledAt(ClampAll(u, ps), p)
    ensures forall c :: c in u && (c.suffixes != [] || forall p :: p in ps ==> c.stem !in SubMeters(p)) ==>
      ClampAll(u, ps)[c] == u[c]
    ensures Disjoint(u) ==> ClampAll(u, ps) == u
    decreases |ps|
  {
    hide OnGrid, SubMeters, Clamped, Apart;
    if ps != [] {
      var v := Clamped(u, ps[0]);
      ClampedLaw(u, ps[0]);
      assert Disjoint(u) ==> SettledAt(u, ps[0]);
      ClampAllSettles(v, ps[1..]);
      ClampAllKeeps(v, ps[1..], ps[0]);
    }
  }

  lemma LimitedLaw(u: Usage)
    requires Sound(u)
    ensures var r := ClampAll(u, TOP_DOWN);
      && Sound(r) && Disjoint(r) && r.Keys == u.Keys
      && (Disjoint(u) ==> r == u)
  {
    TopDownApart();
    hide OnGrid, SubMeters, Clamped, Apart, TOP_DOWN;
    ClampAllSettles(u, TOP_DOWN);
    var r := ClampAll(u, TOP_DOWN);
    forall m
      ensures TotalOf(r, SubMeters(m)) <= Quantity(r, Plain(m))
    {
      assert m in TOP_DOWN ==> SettledAt(r, m);
    }
  }

  /** After normalization no quantity is counted under two meters, whatever the provider sent. */
  lemma {:induction false} NormalizedIsDisjoint(u: Usage)
    requires Sound(u)
    ensures Sound(Normalized(u)) && Disjoint(Normalized(u))
  {
    hide OnGrid, SubMeters, Clamped, TOP_DOWN, BOTTOM_UP;
    EnsureAllLaw(u, BOTTOM_UP);
    LimitedLaw(EnsureAll(u, BOTTOM_UP));
  }

  /** The maps that normalization leaves alone are exactly the disjoint ones... */
  lemma {:induction false} NormalizedFixpointIff(u: Usage)
    requires Sound(u)
    ensures Normalized(u) == u <==> Disjoint(u)
  {
    hide OnGrid, SubMeters, Clamped, TOP_DOWN, BOTTOM_UP, Disjoint;
    NormalizedIsDisjoint(u);
    EnsureAllLaw(u, BOTTOM_UP);
    LimitedLaw(u);
  }

  /** ...so normalizing again changes nothing. */
  lemma {:induction false} NormalizeIdempotent(u: Usage)
    requires Sound(u)
    ensures Normalized(Normalized(u)) == Normalized(u)
  {
    hide Normalized, Disjoint;
    NormalizedIsDisjoint(u);
    NormalizedFixpointIff(Normalized(u));
  }

  /** A meter's total as the provider implies it: reported, or else the sum of its details. */
  function Implied(u: Usage, m: Meter): real
    decreases Depth(m), 1, 0
  {
    SubMetersShallower(m);
    if Plain(m) in u then Quantity(u, Plain(m)) else ImpliedAll(u, SubMeters(m), Depth(m))
  }

  function ImpliedAll(u: Usage, ms: seq<Meter>, depth: nat): real
    requires forall m :: m in ms ==> Depth(m) < depth
    decreases depth, 0, |ms|
  {
    if ms == [] then 0.0 else Implied(u, ms[0]) + ImpliedAll(u, ms[1..], depth)
  }

  lemma {:induction false} ImpliedTotal(u: Usage, v: Usage, ms: seq<Meter>, depth: nat)
    requires forall m :: m in ms ==> Depth(m) < depth && Quantity(v, Plain(m)) == Implied(u, m)
    ensures TotalOf(v, ms) == ImpliedAll(u, ms, depth)
  {
    hide Depth, SubMeters, Implied;
    if ms != [] { ImpliedTotal(u, v, ms[1..], depth); }
  }

  /** v has the implied totals of the meters in `done`, and no other new entry. */
  ghost predicate FilledTo(u: Usage, v: Usage, done: seq<Meter>) {
    && Sound(v)
    && (forall c :: c in u ==> c in v && v[c] == u[c])
    && (forall c :: c in v && (c.suffixes != [] || c.stem !in done) ==> c in u)
    && forall m :: m in done || SubMeters(m) == [] ==> Quantity(v, Plain(m)) == Implied(u, m)
  }

  lemma FillNext(u: Usage, v: Usage, done: seq<Meter>, p: Meter)
    requires Sound(u) && FilledTo(u, v, done) && p !in done
    requires forall m :: m in SubMeters(p) ==> m in done || SubMeters(m) == []
    requires SubMeters(p) != []
    ensures FilledTo(u, Ensured(v, p), done + [p])
  {
    SubMetersShallower(p);
    hide OnGrid, SubMeters, Depth, Ensured, TotalOf;
    EnsuredLaw(v, p);
    ImpliedTotal(u, v, SubMeters(p), Depth(p));
    var r := Ensured(v, p);
    assert Plain(p) in v <==> Plain(p) in u;
    forall m | m in done + [p] || SubMeters(m) == []
      ensures Quantity(r, Plain(m)) == Implied(u, m)
    {
      if m != p {
        hide Implied;
        assert Plain(m) != Plain(p);
        assert Quantity(r, Plain(m)) == Quantity(v, Plain(m));
      }
    }
  }

  lemma {:induction false} EnsureAllSnoc(u: Usage, ps: seq<Meter>, p: Meter)
    ensures EnsureAll(u, ps + [p]) == Ensured(EnsureAll(u, ps), p)
    decreases |ps|
  {
    hide Ensured;
    if ps == [] {
      assert ps + [p] == [p] && [p][1..] == [];
    } else {
      assert (ps + [p])[1..] == ps[1..] + [p];
      EnsureAllSnoc(Ensured(u, ps[0]), ps[1..], p);
    }
  }

  lemma BottomUpOrder()
    ensures forall i :: 0 <= i < |BOTTOM_UP| ==> BOTTOM_UP[i] !in BOTTOM_UP[..i] && SubMeters(BOTTOM_UP[i]) != []
    ensures forall i, m :: 0 <= i < |BOTTOM_UP| && m in SubMeters(BOTTOM_UP[i]) ==>
      m in BOTTOM_UP[..i] || SubMeters(m) == []
    ensures forall m :: m !in BOTTOM_UP ==> SubMeters(m) == []
  {
    assert BOTTOM_UP[..3] == [InputAudioTokens, InputImageTokens, InputVideoTokens];
  }

  lemma NothingFilledYet(u: Usage)
    requires Sound(u)
    ensures FilledTo(u, u, [])
  {
    hide OnGrid, SubMeters;
    forall m | SubMeters(m) == []
      ensures Quantity(u, Plain(m)) == Implied(u, m)
    {
    }
  }

  lemma {:induction false} FilledUpTo(u: Usage, k: nat)
    requires Sound(u) && k <= |BOTTOM_UP|
    ensures FilledTo(u, EnsureAll(u, BOTTOM_UP[..k]), BOTTOM_UP[..k])
  {
    BottomUpOrder();
    hide SubMeters, Ensured, EnsureAll, BOTTOM_UP, FilledTo, Sound;
    if k == 0 {
      assert BOTTOM_UP[..0] == [];
      assert EnsureAll(u, []) == u by { NothingEnsured(u); }
      NothingFilledYet(u);
    } else {
      var done, p := BOTTOM_UP[..k - 1], BOTTOM_UP[k - 1];
      assert BOTTOM_UP[..k] == done + [p];
      FilledUpTo(u, k - 1);
      EnsureAllSnoc(u, done, p);
      FillNext(u, EnsureAll(u, done), done, p);
    }
  }

  lemma NothingEnsured(u: Usage)
    ensures EnsureAll(u, []) == u
  {
  }

  lemma ImpliedReached(u: Usage)
    requires Sound(u)
    ensures FilledTo(u, EnsureAll(u, BOTTOM_UP), BOTTOM_UP)
  {
    hide SubMeters, Ensured, EnsureAll, BOTTOM_UP, FilledTo, Sound;
    assert BOTTOM_UP[..|BOTTOM_UP|] == BOTTOM_UP;
    FilledUpTo(u, |BOTTOM_UP|);
  }

  /** Codes that are nobody's sub-meter. */
  ghost predicate TopLevel(c: Code) {
    c.suffixes != [] || forall p :: c.stem !in SubMeters(p)
  }

  lemma TopLevelKept(u: Usage, c: Code)
    requires Sound(u) && TopLevel(c) && c in u
    ensures c in Normalized(u) && Normalized(u)[c] == u[c]
  {
    TopDownApart();
    hide OnGrid, SubMeters, Clamped, Ensured, Apart, BOTTOM_UP, TOP_DOWN;
    var v := EnsureAll(u, BOTTOM_UP);
    EnsureAllLaw(u, BOTTOM_UP);
    ClampAllSettles(v, TOP_DOWN);
  }

  /** The family totals that get billed: what the provider reported, or else the sum of what it
      itemized. */
  lemma {:induction false} FamilyTotals(u: Usage, root: Meter)
    requires Sound(u) && TopLevel(Plain(root))
    ensures Quantity(Normalized(u), Plain(root)) == Implied(u, root)
  {
    TopDownApart();
    hide OnGrid, SubMeters, Clamped, Ensured, Apart, BOTTOM_UP, TOP_DOWN, Implied, Disjoint;
    var v := EnsureAll(u, BOTTOM_UP);
    ImpliedReached(u);
    assert root in BOTTOM_UP || SubMeters(root) == [];
    assert Quantity(v, Plain(root)) == Implied(u, root);
    ClampAllSettles(v, TOP_DOWN);
    assert Plain(root) in v ==> ClampAll(v, TOP_DOWN)[Plain(root)] == v[Plain(root)] by {
      assert Plain(root).stem == root;
    }
  }

  // ----- every detail

  lemma PassKeeps(u: Usage, q: Meter, m: Meter)
    requires Sound(u) && m !in SubMeters(q)
    ensures Sound(Clamped(u, q)) && Quantity(Clamped(u, q), Plain(m)) == Quantity(u, Plain(m))
  {
    hide OnGrid, SubMeters, Clamped;
    ClampedLaw(u, q);
    assert Plain(m).stem == m;
  }

  lemma {:induction false} PassesKeep(u: Usage, ps: seq<Meter>, m: Meter)
    requires Sound(u) && forall q :: q in ps ==> m !in SubMeters(q)
    ensures Quantity(ClampAll(u, ps), Plain(m)) == Quantity(u, Plain(m))
    decreases |ps|
  {
    hide OnGrid, SubMeters, Clamped, Quantity;
    if ps != [] {
      PassKeeps(u, ps[0], m);
      PassesKeep(Clamped(u, ps[0]), ps[1..], m);
    }
  }

  lemma OnePassShares(u: Usage, p: Meter, i: nat)
    requires Sound(u) && i < |SubMeters(p)| && p !in SubMeters(p)
    ensures Sound(Clamped(u, p)) && Quantity(Clamped(u, p), Plain(p)) == Quantity(u, Plain(p))
    ensures Quantity(Clamped(u, p), Plain(SubMeters(p)[i])) ==
            Min(Quantity(u, Plain(SubMeters(p)[i])), Positive(Quantity(u, Plain(p)) - TotalOf(u, SubMeters(p)[..i])))
  {
    SubMetersDistinct(p);
    PassKeeps(u, p, p);
    hide OnGrid, SubMeters;
    ZeroOnGrid();
    ClampShares(u, SubMeters(p), Quantity(u, Plain(p)), i);
  }

  lemma {:induction false} PassesShare(u: Usage, ps: seq<Meter>, p: Meter, i: nat)
    requires Sound(u) && p in ps && i < |SubMeters(p)| && p !in SubMeters(p)
    requires forall i, j :: 0 <= i < j < |ps| ==> Apart(ps[i], ps[j])
    ensures Quantity(ClampAll(u, ps), Plain(SubMeters(p)[i])) ==
            Min(Quantity(u, Plain(SubMeters(p)[i])), Positive(Quantity(ClampAll(u, ps), Plain(p)) - TotalOf(u, SubMeters(p)[..i])))
    decreases |ps|
  {
    hide OnGrid, SubMeters, Clamped, Quantity, Min, Positive, Sound;
    var child, v := SubMeters(p)[i], Clamped(u, ps[0]);
    if ps[0] == p {
      OnePassShares(u, p, i);
      forall q | q in ps[1..]
        ensures p !in SubMeters(q) && child !in SubMeters(q)
      {
        assert Apart(p, q);
      }
      PassesKeep(v, ps[1..], p);
      PassesKeep(v, ps[1..], child);
    } else {
      assert Apart(ps[0], p);
      forall x | x in SubMeters(p)
        ensures Sound(v) && Quantity(v, Plain(x)) == Quantity(u, Plain(x))
      {
        assert x !in SubMeters(ps[0]);
        PassKeeps(u, ps[0], x);
      }
      TotalAgree(u, v, SubMeters(p)[..i]);
      PassesShare(v, ps[1..], p, i);
    }
  }

  /** What every detail keeps: the details of a meter, each with what it reported or its own details
      imply, are laid end to end in list order and cut off at what the meter itself keeps. */
  lemma {:induction false} NormalizedShares(u: Usage, p: Meter, i: nat)
    requires Sound(u) && i < |SubMeters(p)|
    ensures var ms, n := SubMeters(p), Normalized(u);
      Quantity(n, Plain(ms[i])) == Min(Implied(u, ms[i]), Positive(Quantity(n, Plain(p)) - SumBy(ms[..i], m => Implied(u, m))))
  {
    TopDownApart();
    SubMetersShallower(p);
    hide OnGrid, SubMeters, Depth, Clamped, Ensured, Apart, BOTTOM_UP, TOP_DOWN, Implied, Disjoint, Min, Positive, Quantity;
    var v := EnsureAll(u, BOTTOM_UP);
    ReachedEverywhere(u);
    PassesShare(v, TOP_DOWN, p, i);
    SumByAgree(SubMeters(p)[..i], Held(v), m => Implied(u, m));
  }

  lemma ReachedEverywhere(u: Usage)
    requires Sound(u)
    ensures Sound(EnsureAll(u, BOTTOM_UP))
    ensures forall m :: Quantity(EnsureAll(u, BOTTOM_UP), Plain(m)) == Implied(u, m)
  {
    TopDownApart();
    hide OnGrid, SubMeters, BOTTOM_UP, TOP_DOWN, Implied;
    ImpliedReached(u);
  }

  // ----- effective quantities

  /** The "below zero" branches are dead and the printed remainder is exact. */
  lemma {:induction false} EffectiveExact(u: Usage, c: Code)
    requires Sound(u) && Disjoint(u)
    ensures 0.0 <= EffectiveQuantity(c, u) && OnGrid(EffectiveQuantity(c, u))
    ensures c.suffixes == [] ==>
      EffectiveQuantity(c, u) == Quantity(u, c) - TotalOf(u, SubMeters(c.stem))
  {
    hide OnGrid, Round30, SubMeters;
    ZeroOnGrid();
    if c.suffixes == [] {
      assert c == Plain(c.stem);
      TotalSound(u, SubMeters(c.stem));
      GridSum(Quantity(u, c), TotalOf(u, SubMeters(c.stem)));
      PrintsExactlyIff(Quantity(u, c) - TotalOf(u, SubMeters(c.stem)));
    }
  }

  function Billed(u: Usage): Meter -> real {
    m => EffectiveQuantity(Plain(m), u)
  }

  /** If q(m) is always e(m) plus the q of the sub-meters, e adds up to q over a family. */
  lemma {:induction false} FamilySum(e: Meter -> real, q: Meter -> real, m: Meter)
    requires forall x :: q(x) == e(x) + SumBy(SubMeters(x), q)
    ensures SumBy(Family(m), e) == q(m)
    decreases Depth(m), 1, 0
  {
    SubMetersShallower(m);
    hide SubMeters, Depth;
    var below := Families(SubMeters(m), Depth(m));
    assert Family(m) == [m] + below && Family(m)[1..] == below;
    FamiliesSum(e, q, SubMeters(m), Depth(m));
  }

  lemma {:induction false} FamiliesSum(e: Meter -> real, q: Meter -> real, ms: seq<Meter>, depth: nat)
    requires forall x :: q(x) == e(x) + SumBy(SubMeters(x), q)
    requires forall m :: m in ms ==> Depth(m) < depth
    ensures SumBy(Families(ms, depth), e) == SumBy(ms, q)
    decreases depth, 0, |ms|
  {
    hide SubMeters, Depth;
    if ms != [] {
      var head, tail := Family(ms[0]), Families(ms[1..], depth);
      FamilySum(e, q, ms[0]);
      FamiliesSum(e, q, ms[1..], depth);
      SumByAppend(head, tail, e);
    }
  }

  lemma BilledSplitsHeld(u: Usage)
    requires Sound(u) && Disjoint(u)
    ensures forall m :: Held(u)(m) == Billed(u)(m) + SumBy(SubMeters(m), Held(u))
    ensures forall m :: 0.0 <= Billed(u)(m)
  {
    forall m
      ensures Held(u)(m) == Billed(u)(m) + SumBy(SubMeters(m), Held(u)) && 0.0 <= Billed(u)(m)
    {
      hide EffectiveQuantity, SubMeters;
      EffectiveExact(u, Plain(m));
    }
  }

  /** Nothing lost, nothing counted twice: for every usage map the effective quantities of the
      eleven input meters add up to the input total, those of the five output meters to the
      output total. */
  lemma {:induction false} FamilyConserved(u: Usage, root: Meter)
    requires Sound(u) && Disjoint(u)
    ensures SumBy(Family(root), Billed(u)) == Quantity(u, Plain(root))
    ensures forall m :: m in Family(root) ==> 0.0 <= EffectiveQuantity(Plain(m), u)
  {
    hide Family, SubMeters, EffectiveQuantity;
    BilledSplitsHeld(u);
    forall m | m in Family(root)
      ensures 0.0 <= EffectiveQuantity(Plain(m), u)
    {
      assert 0.0 <= Billed(u)(m);
    }
    FamilySum(Billed(u), Held(u), root);
    assert Held(u)(root) == Quantity(u, Plain(root));
  }

  lemma FamilyUnfold(m: Meter)
    ensures (SubMetersShallower(m); Family(m) == [m] + Families(SubMeters(m), Depth(m)))
  {
    hide SubMeters, Depth, Families;
  }

  lemma FamilyOfLeaf(m: Meter)
    requires SubMeters(m) == []
    ensures Family(m) == [m]
  {
    hide Depth;
    assert Families(SubMeters(m), Depth(m)) == [];
  }

  lemma {:induction false} FamiliesOfLeaves(ms: seq<Meter>, depth: nat)
    requires forall m :: m in ms ==> Depth(m) < depth && SubMeters(m) == []
    ensures Families(ms, depth) == ms
  {
    hide Depth, SubMeters, Family;
    if ms != [] {
      FamilyOfLeaf(ms[0]);
      FamiliesOfLeaves(ms[1..], depth);
    }
  }

  lemma {:induction false} FamiliesCons(m: Meter, ms: seq<Meter>, depth: nat)
    requires forall x :: x in [m] + ms ==> Depth(x) < depth
    ensures Families([m] + ms, depth) == Family(m) + Families(ms, depth)
  {
    hide Depth, Family;
    assert ([m] + ms)[1..] == ms;
  }

  lemma FamilyOfModality(m: Meter)
    requires forall x :: x in SubMeters(m) ==> Depth(x) < 1 && SubMeters(x) == []
    requires Depth(m) == 1
    ensures Family(m) == [m] + SubMeters(m)
  {
    FamiliesOfLeaves(SubMeters(m), 1);
    hide SubMeters, Depth;
  }

  lemma ModalityFamily(m: Meter)
    requires m == InputAudioTokens || m == InputImageTokens || m == InputVideoTokens
    ensures Family(m) == [m] + SubMeters(m)
  {
    hide Family;
    FamilyOfModality(m);
  }

  lemma ModalFamilies()
    ensures Families([InputAudioTokens, InputImageTokens, InputVideoTokens], 2) ==
      [InputAudioTokens, CacheCreationAudioTokens, CachedAudioTokens,
       InputImageTokens, CachedImageTokens, InputVideoTokens, CachedVideoTokens]
  {
    hide Family, Families;
    ModalityFamily(InputAudioTokens);
    ModalityFamily(InputImageTokens);
    ModalityFamily(InputVideoTokens);
    NoFamilies(2);
    FamiliesCons(InputVideoTokens, [], 2);
    FamiliesCons(InputImageTokens, [InputVideoTokens], 2);
    FamiliesCons(InputAudioTokens, [InputImageTokens, InputVideoTokens], 2);
    assert [InputVideoTokens] + [] == [InputVideoTokens];
    assert [InputImageTokens] + [InputVideoTokens] == [InputImageTokens, InputVideoTokens];
    assert [InputAudioTokens] + [InputImageTokens, InputVideoTokens]
        == [InputAudioTokens, InputImageTokens, InputVideoTokens];
  }

  lemma NoFamilies(depth: nat)
    ensures Families([], depth) == []
  {
  }

  lemma {:induction false} LeavesThenRest(leaves: seq<Meter>, rest: seq<Meter>, depth: nat)
    requires forall x :: x in leaves ==> SubMeters(x) == []
    requires forall x :: x in leaves + rest ==> Depth(x) < depth
    ensures Families(leaves + rest, depth) == leaves + Families(rest, depth)
  {
    hide Depth, SubMeters, Family;
    if leaves == [] {
      assert leaves + rest == rest;
    } else {
      assert (leaves + rest)[1..] == leaves[1..] + rest;
      FamilyOfLeaf(leaves[0]);
      LeavesThenRest(leaves[1..], rest, depth);
    }
  }

  /** The eleven input meters and the five output meters. */
  lemma {:induction false} InputFamily()
    ensures Family(InputTokens) ==
      [InputTokens, CachedInputTokens, CacheCreationTokens, CacheCreation1hTokens,
       InputAudioTokens, CacheCreationAudioTokens, CachedAudioTokens,
       InputImageTokens, CachedImageTokens, InputVideoTokens, CachedVideoTokens]
  {
    hide Family, Families;
    var plain := [CachedInputTokens, CacheCreationTokens, CacheCreation1hTokens];
    var modal := [InputAudioTokens, InputImageTokens, InputVideoTokens];
    FamilyUnfold(InputTokens);
    SubMetersShallower(InputTokens);
    assert SubMeters(InputTokens) == plain + modal;
    ModalFamilies();
    LeavesThenRest(plain, modal, 2);
  }

  lemma {:induction false} OutputFamily()
    ensures Family(OutputTokens) ==
      [OutputTokens, ReasoningTokens, OutputAudioTokens, OutputImageTokens, OutputVideoTokens]
  {
    FamilyOfModality(OutputTokens);
  }

  lemma FamiliesDistinct()
    ensures Distinct(Family(InputTokens) + Family(OutputTokens))
    ensures Distinct(Family(InputTokens)) && Distinct(Family(OutputTokens))
  {
    hide Family;
    InputFamily();
    OutputFamily();
  }

  /** The families are what hangs below the two totals. */
  lemma InFamilyIff(root: Meter, m: Meter)
    requires root == InputTokens || root == OutputTokens
    ensures m in Family(root) <==> FamilyRoot(m) == Some(root)
  {
    hide Family;
    if root == InputTokens { InInputIff(m); } else { InOutputIff(m); }
  }

  lemma InInputIff(m: Meter)
    ensures m in Family(InputTokens) <==> FamilyRoot(m) == Some(InputTokens)
  {
    hide Family;
    InputFamily();
  }

  lemma InOutputIff(m: Meter)
    ensures m in Family(OutputTokens) <==> FamilyRoot(m) == Some(OutputTokens)
  {
    hide Family;
    OutputFamily();
  }

  lemma SubMeterRoots(p: Meter, m: Meter)
    requires m in SubMeters(p)
    ensures FamilyRoot(m).Some? && FamilyRoot(p) == FamilyRoot(m) && m != InputTokens && m != OutputTokens
    ensures InAFamily(Plain(m))
  {
  }

  lemma ContainedBy(root: Meter, m: Meter)
    requires (root == InputTokens || root == OutputTokens) && m in Family(root) && m != root
    ensures m in SubMeters(root) || exists p :: p in SubMeters(root) && p in Family(root) && m in SubMeters(p)
  {
    hide Family;
    InputFamily();
    OutputFamily();
    if m !in SubMeters(root) {
      var p := match m
        case CachedImageTokens => InputImageTokens
        case CachedVideoTokens => InputVideoTokens
        case _ => InputAudioTokens;
      assert p in SubMeters(root) && p in Family(root) && m in SubMeters(p);
    }
  }

  // ----- meters outside the families

  lemma ParentsInFamilies()
    ensures forall p :: p in BOTTOM_UP ==> InAFamily(Plain(p))
  {
  }

  lemma OutsideIsTop(c: Code)
    requires !InAFamily(c)
    ensures TopLevel(c)
  {
    hide Family, SubMeters, InAFamily;
    if c.suffixes == [] {
      assert c == Plain(c.stem);
      if p :| c.stem in SubMeters(p) { SubMeterRoots(p, c.stem); }
    }
  }

  lemma OutsideKept(u: Usage, c: Code)
    requires Sound(u) && !InAFamily(c)
    ensures c in Normalized(u) <==> c in u
    ensures Quantity(Normalized(u), c) == Quantity(u, c)
  {
    ParentsInFamilies();
    hide OnGrid, SubMeters, Clamped, Ensured, BOTTOM_UP, TOP_DOWN, Disjoint, InAFamily, TopLevel, ClampAll, EnsureAll, Sound;
    OutsideIsTop(c);
    if c in u {
      TopLevelKept(u, c);
    } else {
      EnsureAllLaw(u, BOTTOM_UP);
      LimitedLaw(EnsureAll(u, BOTTOM_UP));
      assert c == Code(c.stem, c.suffixes);
    }
  }

  lemma RootsAreTop(root: Meter)
    requires root == InputTokens || root == OutputTokens
    ensures TopLevel(Plain(root)) && InAFamily(Plain(root))
  {
    hide Family, SubMeters;
    forall p
      ensures root !in SubMeters(p)
    {
      if root in SubMeters(p) { SubMeterRoots(p, root); }
    }
  }
}
