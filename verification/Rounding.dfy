/** Exact quantities and amounts are reals; the program prints them with thirty
    fraction digits (big.Rat.FloatString(30)).  `Round30` is the value of that text. */
module Rounding {

  const SCALE: real := 1000000000000000000000000000000.0

  /** n units of the thirtieth decimal. */
  function Units(n: int): real { n as real / SCALE }

  /** Half of one unit in the thirtieth decimal. */
  const HALF_UNIT: real := 0.5 / SCALE

  /** The nearest number of units, half rounded up. */
  function Nearest(x: real): int { (x * SCALE + 0.5).Floor }

  /** The value that thirty printed fraction digits keep. */
  function Round30(x: real): real { Units(Nearest(x)) }

  /** True of the values that thirty fraction digits represent exactly. */
  ghost predicate OnGrid(x: real) { exists n :: x == Units(n) }

  lemma UnitsSum(m: int, n: int)
    ensures Units(m) + Units(n) == Units(m + n) && Units(m) - Units(n) == Units(m - n)
    ensures m <= n ==> Units(m) <= Units(n)
  {
  }

  lemma NearestUnits(n: int)
    ensures Nearest(Units(n)) == n
  {
    assert Units(n) * SCALE == n as real;
  }

  lemma NearestMonotone(x: real, y: real)
    requires x <= y
    ensures Nearest(x) <= Nearest(y)
  {
    assert x * SCALE <= y * SCALE;
  }

  lemma ScaledDown(x: real, n: int)
    ensures n as real <= x * SCALE + 0.5 < n as real + 1.0 ==> -HALF_UNIT < Units(n) - x <= HALF_UNIT
  {
    assert (Units(n) - x) * SCALE == n as real - x * SCALE;
  }

  /** Rounding moves a value by at most half a unit. */
  lemma RoundNear(x: real)
    ensures -HALF_UNIT < Round30(x) - x <= HALF_UNIT
  {
    ScaledDown(x, Nearest(x));
  }

  /** The fixed points of printing are exactly the values on the grid. */
  lemma PrintsExactlyIff(x: real)
    ensures OnGrid(x) <==> Round30(x) == x
    ensures OnGrid(Round30(x))
  {
    hide Units, Nearest;
    if n :| x == Units(n) {
      NearestUnits(n);
    }
    assert OnGrid(Units(Nearest(x)));
  }

  lemma GridSum(x: real, y: real)
    requires OnGrid(x) && OnGrid(y)
    ensures OnGrid(x + y) && OnGrid(x - y)
  {
    hide Units;
    var m, n :| x == Units(m) && y == Units(n);
    UnitsSum(m, n);
  }

  lemma ZeroOnGrid()
    ensures OnGrid(0.0) && Round30(0.0) == 0.0
  {
    assert Units(0) == 0.0;
    PrintsExactlyIff(0.0);
  }

  lemma WholeOnGrid(n: nat)
    ensures OnGrid(n as real)
  {
    assert Units(n * 1_000_000_000_000_000_000_000_000_000_000) == n as real;
  }

  lemma RoundMonotone(x: real, y: real)
    requires x <= y
    ensures Round30(x) <= Round30(y)
  {
    hide Nearest, Units;
    NearestMonotone(x, y);
    UnitsSum(Nearest(x), Nearest(y));
  }

  lemma RoundNonNegative(x: real)
    requires x >= 0.0
    ensures Round30(x) >= 0.0
  {
    ZeroOnGrid();
    RoundMonotone(0.0, x);
  }

  /** n halves of a unit in the thirtieth decimal. */
  function HalfUnits(n: nat): real { n as real * HALF_UNIT }

  lemma HalfUnitsNext(n: nat)
    ensures HalfUnits(n + 1) == HalfUnits(n) + HALF_UNIT && HalfUnits(0) == 0.0
  {
  }
}
