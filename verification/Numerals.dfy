/** Digit strings and the exact values they denote. */
module Numerals {

  predicate Digits(s: string) {
    forall i :: 0 <= i < |s| ==> '0' <= s[i] <= '9'
  }

  function DigitValue(c: char): nat
    requires '0' <= c <= '9'
  {
    c as int - '0' as int
  }

  function NatOf(s: string): nat
    requires Digits(s)
  {
    if s == "" then 0 else 10 * NatOf(s[..|s| - 1]) + DigitValue(s[|s| - 1])
  }

  function P10(k: nat): nat {
    if k == 0 then 1 else 10 * P10(k - 1)
  }

  function Zeros(k: nat): (s: string)
    ensures |s| == k
  {
    seq(k, _ => '0')
  }

  /** m divided by 10^scale; a negative scale multiplies. */
  function Scaled(m: nat, scale: int): real {
    if scale <= 0 then (m * P10(-scale)) as real else m as real / Power(scale)
  }

  function Power(k: nat): (r: real)
    ensures r > 0.0
  {
    P10Positive(k);
    P10(k) as real
  }

  lemma {:induction false} P10Positive(k: nat)
    ensures P10(k) >= 1
  {
    if k > 0 { P10Positive(k - 1); }
  }

  lemma {:induction false} P10Sum(j: nat, k: nat)
    ensures P10(j + k) == P10(j) * P10(k)
  {
    if j > 0 {
      P10Sum(j - 1, k);
      assert P10(j) * P10(k) == 10 * (P10(j - 1) * P10(k));
    }
  }

  lemma {:induction false} P10Monotone(j: nat, k: nat)
    requires j <= k
    ensures P10(j) <= P10(k)
  {
    P10Sum(j, k - j);
    P10Positive(k - j);
    P10Positive(j);
    var p, q := P10(j), P10(k - j);
    assert p * q >= p * 1;
  }

  lemma NatOfSnoc(a: string, c: char)
    requires Digits(a) && '0' <= c <= '9'
    ensures Digits(a + [c]) && NatOf(a + [c]) == 10 * NatOf(a) + DigitValue(c)
  {
    assert (a + [c])[..|a + [c]| - 1] == a;
  }

  lemma TimesTen(x: nat, p: nat)
    ensures x * (10 * p) == 10 * (x * p)
  {
  }

  lemma {:induction false} NatOfAppend(a: string, b: string)
    requires Digits(a) && Digits(b)
    ensures Digits(a + b) && NatOf(a + b) == NatOf(a) * P10(|b|) + NatOf(b)
  {
    if b == "" {
      assert a + b == a;
    } else {
      var n := |b| - 1;
      var b', c := b[..n], b[n];
      assert b == b' + [c] && a + b == (a + b') + [c];
      NatOfAppend(a, b');
      TimesTen(NatOf(a), P10(n));
      hide NatOf;
      NatOfSnoc(b', c);
      NatOfSnoc(a + b', c);
    }
  }

  lemma {:induction false} NatOfZeros(k: nat)
    ensures Digits(Zeros(k)) && NatOf(Zeros(k)) == 0
  {
    if k > 0 {
      assert Zeros(k)[..k - 1] == Zeros(k - 1);
      NatOfZeros(k - 1);
    }
  }

  lemma {:induction false} NatOfBound(s: string)
    requires Digits(s)
    ensures NatOf(s) < P10(|s|)
  {
    if s != "" { NatOfBound(s[..|s| - 1]); }
  }

  lemma {:induction false} NatOfLower(s: string)
    requires Digits(s) && s != "" && s[0] != '0'
    ensures P10(|s| - 1) <= NatOf(s)
  {
    if |s| > 1 {
      NatOfLower(s[..|s| - 1]);
    } else {
      assert s[..0] == "";
    }
  }

  lemma LastDigit(s: string)
    requires Digits(s) && s != ""
    ensures NatOf(s) % 10 == DigitValue(s[|s| - 1]) && NatOf(s) / 10 == NatOf(s[..|s| - 1])
  {
  }

  lemma {:induction false} SameLengthSameText(s: string, t: string)
    requires Digits(s) && Digits(t) && |s| == |t| && NatOf(s) == NatOf(t)
    ensures s == t
  {
    hide NatOf;
    if s != "" {
      var n := |s| - 1;
      LastDigit(s);
      LastDigit(t);
      SameLengthSameText(s[..n], t[..n]);
      assert s == s[..n] + [s[n]] && t == t[..n] + [t[n]];
    }
  }

  /** An integer text without a superfluous zero in front. */
  predicate NoLeadingZero(s: string) {
    s != "" && (|s| > 1 ==> s[0] != '0')
  }

  lemma LengthFromValue(s: string, k: nat)
    requires Digits(s) && NoLeadingZero(s) && k > 0
    ensures |s| <= k <==> NatOf(s) < P10(k)
  {
    NatOfBound(s);
    if |s| <= k {
      P10Monotone(|s|, k);
    } else {
      NatOfLower(s);
      P10Monotone(k, |s| - 1);
    }
  }

  lemma IntegerTextUnique(s: string, t: string)
    requires Digits(s) && Digits(t) && NoLeadingZero(s) && NoLeadingZero(t) && NatOf(s) == NatOf(t)
    ensures s == t
  {
    LengthFromValue(s, |t|);
    LengthFromValue(t, |s|);
    NatOfBound(s);
    NatOfBound(t);
    SameLengthSameText(s, t);
  }

  lemma ShiftWithinInteger(m: nat, k: nat, j: nat)
    requires j <= k
    ensures m * P10(j) * P10(k - j) == m * P10(k)
  {
    hide P10;
    P10Sum(j, k - j);
    Associate(m, P10(j), P10(k - j));
  }

  lemma ShiftAcrossPoint(m: nat, k: nat, j: nat)
    requires 0 < j
    ensures (m * P10(k + j)) as real / Power(j) == (m * P10(k)) as real
  {
    P10Sum(k, j);
    P10Positive(j);
    hide P10;
    Associate(m, P10(k), P10(j));
    Cancel(m * P10(k), P10(j));
  }

  lemma ShiftBehindPoint(m: nat, k: nat, j: nat)
    ensures (m * P10(j)) as real / Power(k + j) == m as real / Power(k)
  {
    P10Sum(k, j);
    P10Positive(j);
    P10Positive(k);
    hide P10;
    CancelBoth(m, P10(k), P10(j));
  }

  /** Moving the point: j more digits behind it, j more zeros at the end. */
  lemma ScaledShift(m: nat, scale: int, j: nat)
    ensures Scaled(m * P10(j), scale + j) == Scaled(m, scale)
  {
    hide P10, Power;
    if scale + j <= 0 {
      ShiftWithinInteger(m, -scale, j);
    } else if scale <= 0 {
      ShiftAcrossPoint(m, -scale, scale + j);
    } else {
      ShiftBehindPoint(m, scale, j);
    }
  }

  lemma Associate(x: nat, y: nat, z: nat)
    ensures x * y * z == x * (y * z)
  {
  }

  lemma Cancel(x: nat, p: nat)
    requires p > 0
    ensures (x * p) as real / p as real == x as real
  {
    assert (x * p) as real == x as real * p as real;
  }

  lemma CancelBoth(x: nat, p: nat, q: nat)
    requires p > 0 && q > 0
    ensures p * q > 0 && (x * q) as real / (p * q) as real == x as real / p as real
  {
    assert p * q > 0;
    assert (x * q) as real == x as real * q as real;
    assert (p * q) as real == p as real * q as real;
    var r := x as real / p as real;
    assert r * p as real == x as real;
    assert r * (p as real * q as real) == x as real * q as real;
  }

  /** Equal values at the same scale come from equal numbers. */
  lemma ScaledInjective(m: nat, n: nat, scale: nat)
    requires Scaled(m, scale) == Scaled(n, scale)
    ensures m == n
  {
    if scale == 0 {
      assert m * P10(0) == m && n * P10(0) == n;
    } else {
      var p := Power(scale);
      assert m as real / p * p == m as real;
      assert n as real / p * p == n as real;
    }
  }

  lemma ScaledLess(m: nat, n: nat, scale: nat)
    ensures Scaled(m, scale) < Scaled(n, scale) <==> m < n
  {
    if scale == 0 {
      assert m * P10(0) == m && n * P10(0) == n;
    } else {
      var p := Power(scale);
      var x, y := m as real / p, n as real / p;
      assert x * p == m as real && y * p == n as real;
      if x < y { assert x * p < y * p; }
      if x >= y { assert x * p >= y * p; }
    }
  }
}
