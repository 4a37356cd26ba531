/** Sums over finite maps, independent of the order in which keys are visited. */
module Sums {

  function Positive(x: real): real { if x < 0.0 then 0.0 else x }

  function Cost(price: real, quantity: real): real { price * quantity }

  lemma CostSum(price: real, x: real, y: real)
    ensures Cost(price, x + y) == Cost(price, x) + Cost(price, y)
    ensures Cost(price, x - y) == Cost(price, x) - Cost(price, y)
    ensures Cost(price, 0.0) == 0.0
  {
  }

  lemma CostMonotone(price: real, x: real, y: real)
    requires price >= 0.0 && x <= y
    ensures Cost(price, x) <= Cost(price, y)
  {
  }

  lemma CostOfDearer(p: real, q: real, x: real)
    requires p <= q && 0.0 <= x
    ensures Cost(p, x) <= Cost(q, x)
  {
  }

  lemma CostOfDifference(p: real, q: real, x: real)
    ensures Cost(p - q, x) == Cost(p, x) - Cost(q, x)
  {
  }

  /** The sum of the values of a map. */
  ghost function MapSum<K>(m: map<K, real>): real
    decreases m.Keys
  {
    if m == map[] then 0.0
    else
      var k :| k in m;
      assert (m - {k}).Keys < m.Keys by { assert k !in (m - {k}).Keys; }
      m[k] + MapSum(m - {k})
  }

  /** Any key may be taken out first. */
  lemma {:induction false} TakeKey<K>(m: map<K, real>, k: K)
    requires k in m
    ensures MapSum(m) == m[k] + MapSum(m - {k})
    decreases m.Keys
  {
    var j :| j in m && MapSum(m) == m[j] + MapSum(m - {j});
    assert (m - {j}).Keys < m.Keys by { assert j !in (m - {j}).Keys; }
    if j != k {
      assert (m - {k}).Keys < m.Keys by { assert k !in (m - {k}).Keys; }
      TakeKey(m - {j}, k);
      TakeKey(m - {k}, j);
      assert m - {j} - {k} == m - {k} - {j};
    }
  }

  lemma Update<K>(m: map<K, real>, k: K, v: real)
    ensures MapSum(m[k := v]) == MapSum(m) - (if k in m then m[k] else 0.0) + v
  {
    TakeKey(m[k := v], k);
    assert m[k := v] - {k} == m - {k};
    if k in m {
      TakeKey(m, k);
    } else {
      assert m - {k} == m;
    }
  }

  lemma {:induction false} NonNegative<K>(m: map<K, real>)
    requires forall k :: k in m ==> 0.0 <= m[k]
    ensures 0.0 <= MapSum(m)
    ensures forall k :: k in m ==> m[k] <= MapSum(m)
    decreases m.Keys
  {
    forall k | k in m
      ensures m[k] <= MapSum(m)
    {
      TakeKey(m, k);
      assert (m - {k}).Keys < m.Keys by { assert k !in (m - {k}).Keys; }
      NonNegative(m - {k});
    }
    if m != map[] {
      var k :| k in m;
      assert 0.0 <= m[k] <= MapSum(m);
    }
  }

  lemma {:induction false} AllZeroMap<K>(m: map<K, real>)
    requires forall k :: k in m ==> m[k] == 0.0
    ensures MapSum(m) == 0.0
    decreases m.Keys
  {
    if m != map[] {
      var k :| k in m && MapSum(m) == m[k] + MapSum(m - {k});
      assert (m - {k}).Keys < m.Keys by { assert k !in (m - {k}).Keys; }
      AllZeroMap(m - {k});
    }
  }

  /** The entries at keys that satisfy p. */
  function Where<K>(m: map<K, real>, p: K -> bool): map<K, real> {
    map k | k in m && p(k) :: m[k]
  }

  lemma {:induction false} SplitWhere<K>(m: map<K, real>, p: K -> bool, q: K -> bool)
    requires forall k :: k in m ==> q(k) == !p(k)
    ensures MapSum(m) == MapSum(Where(m, p)) + MapSum(Where(m, q))
    decreases m.Keys
  {
    if m == map[] {
      assert Where(m, p) == map[] && Where(m, q) == map[];
    } else {
      var k :| k in m && MapSum(m) == m[k] + MapSum(m - {k});
      assert (m - {k}).Keys < m.Keys by { assert k !in (m - {k}).Keys; }
      SplitWhere(m - {k}, p, q);
      var r := if p(k) then p else q;
      TakeKey(Where(m, r), k);
      assert Where(m, r) - {k} == Where(m - {k}, r);
      var r' := if p(k) then q else p;
      assert Where(m, r') == Where(m - {k}, r');
    }
  }

  /** Equal quantities at different rates. */
  lemma {:induction false} ScaledMap<K>(amounts: map<K, real>, rates: map<K, real>, e: real)
    requires amounts.Keys == rates.Keys && forall k :: k in rates ==> amounts[k] == Cost(rates[k], e)
    ensures MapSum(amounts) == Cost(MapSum(rates), e)
    decreases rates.Keys
  {
    NothingTimes(e);
    if rates != map[] {
      var k :| k in rates && MapSum(rates) == rates[k] + MapSum(rates - {k});
      assert (rates - {k}).Keys < rates.Keys by { assert k !in (rates - {k}).Keys; }
      ScaledMap(amounts - {k}, rates - {k}, e);
      TakeKey(amounts, k);
      CostOfRates(rates[k], MapSum(rates - {k}), e);
    }
  }

  lemma NothingTimes(x: real)
    ensures Cost(0.0, x) == 0.0
  {
  }

  lemma CostOfRates(p: real, q: real, x: real)
    ensures Cost(p + q, x) == Cost(p, x) + Cost(q, x)
  {
  }

  /** The sum of f over a list. */
  function SumBy<T>(xs: seq<T>, f: T -> real): real {
    if xs == [] then 0.0 else f(xs[0]) + SumBy(xs[1..], f)
  }

  lemma {:induction false} SumByAgree<T>(xs: seq<T>, f: T -> real, g: T -> real)
    requires forall x :: x in xs ==> f(x) == g(x)
    ensures SumBy(xs, f) == SumBy(xs, g)
  {
    if xs != [] { SumByAgree(xs[1..], f, g); }
  }

  lemma {:induction false} SumByAppend<T>(xs: seq<T>, ys: seq<T>, f: T -> real)
    ensures SumBy(xs + ys, f) == SumBy(xs, f) + SumBy(ys, f)
  {
    if xs == [] {
      assert xs + ys == ys;
    } else {
      assert (xs + ys)[1..] == xs[1..] + ys;
      SumByAppend(xs[1..], ys, f);
    }
  }

  lemma {:induction false} AllZero<T>(xs: seq<T>, f: T -> real)
    requires forall x :: x in xs ==> f(x) == 0.0
    ensures SumBy(xs, f) == 0.0
  {
    if xs != [] { AllZero(xs[1..], f); }
  }

  /** Amounts of at most (at least) p per unit of e cost at most (at least) p times the units. */
  lemma {:induction false} SumByScaled<T>(xs: seq<T>, amount: T -> real, e: T -> real, p: real)
    ensures (forall x :: x in xs ==> amount(x) <= Cost(p, e(x))) ==> SumBy(xs, amount) <= Cost(p, SumBy(xs, e))
    ensures (forall x :: x in xs ==> amount(x) >= Cost(p, e(x))) ==> SumBy(xs, amount) >= Cost(p, SumBy(xs, e))
  {
    hide Cost;
    CostSum(p, 0.0, 0.0);
    if xs != [] {
      SumByScaled(xs[1..], amount, e, p);
      CostSum(p, e(xs[0]), SumBy(xs[1..], e));
      assert xs[0] in xs;
    }
  }

  /** The value at a key, zero when the key is absent. */
  function At<K>(m: map<K, real>, k: K): real {
    if k in m then m[k] else 0.0
  }

  function ValueOf<K>(m: map<K, real>): K -> real {
    k => At(m, k)
  }

  ghost predicate Distinct<K>(ks: seq<K>) {
    forall i, j :: 0 <= i < j < |ks| ==> ks[i] != ks[j]
  }

  /** Splitting a sum at a list of distinct keys. */
  lemma {:induction false} SplitAtList<K>(m: map<K, real>, ks: seq<K>)
    requires Distinct(ks)
    ensures MapSum(m) == SumBy(ks, ValueOf(m)) + MapSum(m - set k | k in ks)
    decreases |ks|
  {
    if ks == [] {
      assert m - (set k | k in ks) == m;
    } else {
      var k, rest := ks[0], ks[1..];
      var m' := m - {k};
      assert k !in rest;
      SplitAtList(m', rest);
      SumByAgree(rest, ValueOf(m), ValueOf(m'));
      assert m' - (set x | x in rest) == m - set x | x in ks;
      if k in m { TakeKey(m, k); } else { assert m' == m; }
    }
  }

  /** Raising one value of a list of distinct keys. */
  lemma {:induction false} SumByBump<K>(ks: seq<K>, k: K, f: K -> real, g: K -> real, d: real)
    requires Distinct(ks) && f(k) == g(k) + d && forall x :: x in ks && x != k ==> f(x) == g(x)
    ensures SumBy(ks, f) == SumBy(ks, g) + (if k in ks then d else 0.0)
  {
    if ks != [] {
      if ks[0] == k {
        assert k !in ks[1..];
        SumByAgree(ks[1..], f, g);
      } else {
        SumByBump(ks[1..], k, f, g, d);
      }
    }
  }
}
