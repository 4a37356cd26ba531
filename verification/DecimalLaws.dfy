/** The decimal text layer has one normal form, and all its printers agree on it. */
module DecimalLaws {
  import opened Results
  import opened Numerals
  import opened Rounding
  import opened DecimalText

  // ----- the normal form

  /** Digits before and behind the point, neither with a superfluous zero. */
  ghost predicate NormalParts(whole: string, fraction: string) {
    && Digits(whole) && Digits(fraction) && NoLeadingZero(whole)
    && (fraction != "" ==> fraction[|fraction| - 1] != '0')
  }

  ghost predicate Canonical(t: string) {
    NormalParts(IntegerPart(t), FractionPart(t)) && t == Compose(IntegerPart(t), FractionPart(t))
  }

  function PartsValue(whole: string, fraction: string): real
    requires Digits(whole) && Digits(fraction)
  {
    NatOfAppend(whole, fraction);
    Scaled(NatOf(whole + fraction), |fraction|)
  }

  lemma {:induction false} IndexOfAt(s: string, i: nat, c: char)
    requires i <= |s| && c !in s[..i] && (i < |s| ==> s[i] == c)
    ensures IndexOf(s, c) == i
  {
    if i > 0 {
      assert s[0] == s[..i][0] && s[1..][..i - 1] == s[..i][1..];
      IndexOfAt(s[1..], i - 1, c);
    }
  }

  lemma PointAfter(whole: string, rest: string)
    requires Digits(whole)
    ensures IndexOf(whole, '.') == |whole|
    ensures IndexOf(whole + "." + rest, '.') == |whole|
  {
    assert whole[..|whole|] == whole;
    IndexOfAt(whole, |whole|, '.');
    var t := whole + "." + rest;
    assert t[..|whole|] == whole;
    IndexOfAt(t, |whole|, '.');
  }

  lemma PartsOfCompose(whole: string, fraction: string)
    requires NormalParts(whole, fraction)
    ensures IntegerPart(Compose(whole, fraction)) == whole
    ensures FractionPart(Compose(whole, fraction)) == fraction
    ensures Canonical(Compose(whole, fraction))
  {
    PointAfter(whole, fraction);
    var t := whole + "." + fraction;
    assert t[|whole| + 1..] == fraction && t[..|whole|] == whole;
  }

  // ----- trimming

  lemma {:induction false} TrimRightLaw(s: string, c: char)
    ensures TrimRight(s, c) <= s
    ensures TrimRight(s, c) != "" ==> TrimRight(s, c)[|TrimRight(s, c)| - 1] != c
    ensures forall i :: |TrimRight(s, c)| <= i < |s| ==> s[i] == c
    decreases |s|
  {
    if s != "" && s[|s| - 1] == c { TrimRightLaw(s[..|s| - 1], c); }
  }

  lemma {:induction false} TrimLeftLaw(s: string, c: char)
    ensures |TrimLeft(s, c)| <= |s| && TrimLeft(s, c) == s[|s| - |TrimLeft(s, c)|..]
    ensures TrimLeft(s, c) != "" ==> TrimLeft(s, c)[0] != c
    ensures forall i :: 0 <= i < |s| - |TrimLeft(s, c)| ==> s[i] == c
    decreases |s|
  {
    if s != "" && s[0] == c { TrimLeftLaw(s[1..], c); }
  }

  lemma {:induction false} TrimRightStops(s: string, t: string, c: char)
    requires s != "" && s[|s| - 1] != c
    ensures TrimRight(s + t, c) == s + TrimRight(t, c)
    decreases |t|
  {
    if t == "" {
      assert s + t == s;
    } else if t[|t| - 1] == c {
      assert (s + t)[..|s + t| - 1] == s + t[..|t| - 1];
      TrimRightStops(s, t[..|t| - 1], c);
    }
  }

  lemma TrimPoint(whole: string)
    requires Digits(whole) && whole != ""
    ensures TrimRight(whole + ".", '.') == whole
  {
    assert (whole + ".")[..|whole + "."| - 1] == whole;
  }

  lemma NothingToTrim(t: string, c: char)
    requires t != "" && t[|t| - 1] != c
    ensures TrimRight(t, c) == t
  {
  }

  /** Trimming zeros and a bare point from "whole.fraction". */
  lemma TrimFractionLaw(whole: string, fraction: string)
    requires Digits(whole) && whole != "" && Digits(fraction)
    ensures TrimFraction(whole + "." + fraction) == Compose(whole, TrimRight(fraction, '0'))
  {
    hide TrimRight;
    var pointed := whole + ".";
    assert (whole + "." + fraction)[|whole|] == '.';
    TrimRightStops(pointed, fraction, '0');
    var f := TrimRight(fraction, '0');
    TrimRightLaw(fraction, '0');
    if f == "" {
      assert pointed + f == pointed;
      TrimPoint(whole);
    } else {
      assert '0' <= f[|f| - 1] <= '9';
      NothingToTrim(pointed + f, '.');
    }
  }

  lemma TrimRightSplit(s: string) returns (k: nat)
    requires Digits(s)
    ensures Digits(TrimRight(s, '0')) && s == TrimRight(s, '0') + Zeros(k)
  {
    TrimRightLaw(s, '0');
    k := |s| - |TrimRight(s, '0')|;
  }

  lemma TrimLeftSplit(s: string) returns (k: nat)
    requires Digits(s)
    ensures Digits(TrimLeft(s, '0')) && s == Zeros(k) + TrimLeft(s, '0')
  {
    TrimLeftLaw(s, '0');
    k := |s| - |TrimLeft(s, '0')|;
  }

  /** Dropping trailing fraction zeros keeps the value. */
  lemma TrimKeepsValue(whole: string, fraction: string)
    requires Digits(whole) && Digits(fraction)
    ensures Digits(TrimRight(fraction, '0'))
    ensures PartsValue(whole, TrimRight(fraction, '0')) == PartsValue(whole, fraction)
  {
    hide NatOf, Scaled, P10, TrimRight, Digits, Zeros;
    var z := TrimRightSplit(fraction);
    var f := TrimRight(fraction, '0');
    NatOfZeros(z);
    NatOfAppend(whole, f);
    NatOfAppend(whole + f, Zeros(z));
    assert whole + fraction == whole + f + Zeros(z);
    ScaledShift(NatOf(whole + f), |f|, z);
  }

  /** Dropping leading zeros keeps the number. */
  lemma TrimLeftKeepsNumber(s: string)
    requires Digits(s)
    ensures Digits(TrimLeft(s, '0')) && NatOf(TrimLeft(s, '0')) == NatOf(s)
  {
    hide NatOf, P10, TrimLeft, Digits, Zeros;
    var z := TrimLeftSplit(s);
    NatOfZeros(z);
    NatOfAppend(Zeros(z), TrimLeft(s, '0'));
  }

  // ----- the normaliser

  function PlainValue(t: string): real
    requires Canonical(t)
  {
    PartsValue(IntegerPart(t), FractionPart(t))
  }

  lemma ComposeValue(whole: string, fraction: string)
    requires NormalParts(whole, fraction)
    ensures Canonical(Compose(whole, fraction))
    ensures PlainValue(Compose(whole, fraction)) == PartsValue(whole, fraction)
  {
    PartsOfCompose(whole, fraction);
  }

  /** A pointed text is cut to normal form without changing its value. */
  lemma CutToNormal(whole: string, fraction: string)
    requires Digits(whole) && NoLeadingZero(whole) && Digits(fraction)
    ensures Canonical(TrimFraction(whole + "." + fraction))
    ensures PlainValue(TrimFraction(whole + "." + fraction)) == PartsValue(whole, fraction)
  {
    hide TrimFraction, TrimRight, PartsValue, Canonical, PlainValue, Compose;
    TrimFractionLaw(whole, fraction);
    TrimKeepsValue(whole, fraction);
    TrimRightLaw(fraction, '0');
    ComposeValue(whole, TrimRight(fraction, '0'));
  }

  lemma WholeText(t: string)
    requires Digits(t) && NoLeadingZero(t)
    ensures Canonical(t) && PlainValue(t) == NatOf(t) as real
    ensures TrimFraction(t) == t
  {
    assert Compose(t, "") == t && t + "" == t;
    assert '.' !in t;
    hide NatOf, Canonical, TrimFraction;
    ComposeValue(t, "");
    P10Zero(NatOf(t));
  }

  lemma P10Zero(m: nat)
    ensures Scaled(m, 0) == m as real
  {
    assert P10(0) == 1;
  }

  lemma ScaledUp(m: nat, k: nat)
    ensures Scaled(m, 0 - k) == (m * P10(k)) as real
  {
  }

  lemma PaddedNumber(k: nat, digits: string)
    requires Digits(digits)
    ensures Digits(Zeros(k) + digits) && Digits("0" + (Zeros(k) + digits))
    ensures NatOf("0" + (Zeros(k) + digits)) == NatOf(digits)
  {
    assert NatOf("0") == 0 && Digits("0");
    hide NatOf, P10, Digits, Zeros;
    NatOfZeros(k);
    NatOfAppend(Zeros(k), digits);
    NatOfAppend("0", Zeros(k) + digits);
  }

  lemma LayoutInteger(digits: string, scale: int)
    requires Digits(digits) && digits != "" && digits[0] != '0' && scale <= 0
    ensures Canonical(TrimFraction(Layout(digits, scale)))
    ensures PlainValue(TrimFraction(Layout(digits, scale))) == Scaled(NatOf(digits), scale)
  {
    hide P10, NatOf, TrimFraction, Canonical, PlainValue, Digits, Scaled, Zeros;
    var t := digits + Zeros(-scale);
    NatOfZeros(-scale);
    NatOfAppend(digits, Zeros(-scale));
    assert t[0] == digits[0];
    WholeText(t);
    ScaledUp(NatOf(digits), -scale);
  }

  lemma LayoutMixedText(digits: string, scale: int)
    requires Digits(digits) && digits != "" && digits[0] != '0' && 0 < scale < |digits|
    ensures var k := |digits| - scale;
      && Digits(digits[..k]) && NoLeadingZero(digits[..k]) && Digits(digits[k..])
      && Layout(digits, scale) == digits[..k] + "." + digits[k..]
      && digits[..k] + digits[k..] == digits
  {
    hide Zeros;
  }

  lemma LayoutMixed(digits: string, scale: int)
    requires Digits(digits) && digits != "" && digits[0] != '0' && 0 < scale < |digits|
    ensures Canonical(TrimFraction(Layout(digits, scale)))
    ensures PlainValue(TrimFraction(Layout(digits, scale))) == Scaled(NatOf(digits), scale)
  {
    hide TrimFraction, Scaled, NatOf, Canonical, PlainValue, Layout, Digits, NoLeadingZero;
    var k := |digits| - scale;
    LayoutMixedText(digits, scale);
    CutToNormal(digits[..k], digits[k..]);
  }

  lemma ZeroDigits()
    ensures Digits("0") && NoLeadingZero("0")
  {
  }

  lemma LayoutFractionText(digits: string, scale: int)
    requires digits != "" && |digits| <= scale
    ensures Layout(digits, scale) == "0" + "." + (Zeros(scale - |digits|) + digits)
  {
    hide Zeros;
    var pad := Zeros(scale - |digits|);
    assert "0." + pad + digits == "0." + (pad + digits);
  }

  lemma FractionValue(k: nat, digits: string)
    requires Digits(digits)
    ensures Digits("0") && Digits(Zeros(k) + digits)
    ensures PartsValue("0", Zeros(k) + digits) == Scaled(NatOf(digits), k + |digits|)
  {
    hide NatOf, P10, Zeros, Digits, Scaled;
    ZeroDigits();
    PaddedNumber(k, digits);
  }

  lemma LayoutFraction(digits: string, scale: int)
    requires Digits(digits) && digits != "" && digits[0] != '0' && |digits| <= scale
    ensures Canonical(TrimFraction(Layout(digits, scale)))
    ensures PlainValue(TrimFraction(Layout(digits, scale))) == Scaled(NatOf(digits), scale)
  {
    hide TrimFraction, Scaled, NatOf, P10, Canonical, PlainValue, PartsValue, Zeros, Digits, Layout;
    ZeroDigits();
    FractionValue(scale - |digits|, digits);
    LayoutFractionText(digits, scale);
    CutToNormal("0", Zeros(scale - |digits|) + digits);
  }

  lemma LayoutLaw(digits: string, scale: int)
    requires Digits(digits) && digits != "" && digits[0] != '0'
    ensures Canonical(TrimFraction(Layout(digits, scale)))
    ensures PlainValue(TrimFraction(Layout(digits, scale))) == Scaled(NatOf(digits), scale)
  {
    hide TrimFraction, Layout, Scaled, NatOf, Canonical;
    if scale <= 0 {
      LayoutInteger(digits, scale);
    } else if scale < |digits| {
      LayoutMixed(digits, scale);
    } else {
      LayoutFraction(digits, scale);
    }
  }

  lemma ZeroText()
    ensures Canonical("0") && PlainValue("0") == 0.0
  {
    assert NormalParts("0", "") && Compose("0", "") == "0";
    ComposeValue("0", "");
    assert NatOf("0") == 0;
    assert "0" + "" == "0";
  }

  /** The text the normaliser would return if there were no digit bounds. */
  function NormalText(n: Numeral): string {
    var digits := TrimLeft(n.digits, '0');
    if digits == "" then "0" else TrimFraction(Layout(digits, n.fraction - n.exponent))
  }

  lemma ZeroScaled(scale: int)
    ensures Scaled(0, scale) == 0.0
  {
  }

  lemma LayoutOfTrimmed(s: string, scale: int)
    requires Digits(s) && TrimLeft(s, '0') != ""
    ensures Canonical(TrimFraction(Layout(TrimLeft(s, '0'), scale)))
    ensures PlainValue(TrimFraction(Layout(TrimLeft(s, '0'), scale))) == Scaled(NatOf(s), scale)
  {
    hide Scaled, NatOf, TrimFraction, Layout, Canonical, PlainValue, TrimLeft, Digits;
    TrimLeftLaw(s, '0');
    TrimLeftKeepsNumber(s);
    LayoutLaw(TrimLeft(s, '0'), scale);
  }

  lemma AllZeros(s: string, scale: int)
    requires Digits(s) && TrimLeft(s, '0') == ""
    ensures Scaled(NatOf(s), scale) == 0.0
  {
    assert NatOf("") == 0;
    hide Scaled, NatOf, TrimLeft, Digits;
    TrimLeftKeepsNumber(s);
    ZeroScaled(scale);
  }

  lemma NormalTextLaw(n: Numeral)
    requires Digits(n.digits)
    ensures Canonical(NormalText(n)) && PlainValue(NormalText(n)) == NumeralValue(n)
  {
    hide Scaled, NatOf, TrimFraction, Layout, Canonical, PlainValue, TrimLeft, Digits;
    if TrimLeft(n.digits, '0') == "" {
      ZeroText();
      AllZeros(n.digits, n.fraction - n.exponent);
    } else {
      LayoutOfTrimmed(n.digits, n.fraction - n.exponent);
    }
  }

  // ----- one normal text per value

  lemma QuotientUnique(x: nat, y: nat, p: nat, r: nat, t: nat)
    requires r < p && t < p && x * p + r == y * p + t
    ensures x == y && r == t
  {
    NextMultiple(x, y, p);
    NextMultiple(y, x, p);
  }

  lemma NextMultiple(x: nat, y: nat, p: nat)
    ensures x < y ==> x * p + p <= y * p
  {
    if x < y {
      AtLeastOnce(y - x, p);
      assert y * p == x * p + (y - x) * p;
    }
  }

  lemma {:induction false} AtLeastOnce(a: nat, p: nat)
    requires a >= 1
    ensures a * p >= p
  {
    if a > 1 {
      AtLeastOnce(a - 1, p);
      assert a * p == (a - 1) * p + p;
    }
  }

  lemma TenDivides(m: nat, j: nat)
    requires j > 0
    ensures (m * P10(j)) % 10 == 0
  {
    TimesTen(m, P10(j - 1));
    hide P10;
  }

  /** A normal text cannot be lengthened behind the point: its last digit is not zero. */
  lemma ShorterScaleDiffers(m: nat, k: nat, whole: string, fraction: string)
    requires NormalParts(whole, fraction) && k < |fraction|
    ensures Scaled(m, k) != PartsValue(whole, fraction)
  {
    NatOfAppend(whole, fraction);
    var n := NatOf(whole + fraction);
    LastDigit(whole + fraction);
    assert n % 10 == DigitValue(fraction[|fraction| - 1]);
    assert n % 10 != 0;
    hide NatOf, Scaled, P10;
    var j := |fraction| - k;
    TenDivides(m, j);
    if Scaled(m, k) == Scaled(n, |fraction|) {
      ScaledShift(m, k, j);
      ScaledInjective(m * P10(j), n, |fraction|);
    }
  }

  lemma SameScaleSameParts(w1: string, f1: string, w2: string, f2: string)
    requires NormalParts(w1, f1) && NormalParts(w2, f2) && |f1| == |f2|
    requires PartsValue(w1, f1) == PartsValue(w2, f2)
    ensures w1 == w2 && f1 == f2
  {
    hide NatOf, Scaled, P10, Digits, NoLeadingZero;
    NatOfAppend(w1, f1);
    NatOfAppend(w2, f2);
    ScaledInjective(NatOf(w1 + f1), NatOf(w2 + f2), |f1|);
    NatOfBound(f1);
    NatOfBound(f2);
    QuotientUnique(NatOf(w1), NatOf(w2), P10(|f1|), NatOf(f1), NatOf(f2));
    IntegerTextUnique(w1, w2);
    SameLengthSameText(f1, f2);
  }

  /** Two normal texts of the same value are the same text. */
  lemma {:induction false} CanonicalUnique(s: string, t: string)
    requires Canonical(s) && Canonical(t) && PlainValue(s) == PlainValue(t)
    ensures s == t
  {
    hide NatOf, Scaled, P10, Digits, NoLeadingZero, IntegerPart, FractionPart;
    var w1, f1, w2, f2 := IntegerPart(s), FractionPart(s), IntegerPart(t), FractionPart(t);
    NatOfAppend(w1, f1);
    NatOfAppend(w2, f2);
    if |f1| < |f2| {
      ShorterScaleDiffers(NatOf(w1 + f1), |f1|, w2, f2);
    } else if |f2| < |f1| {
      ShorterScaleDiffers(NatOf(w2 + f2), |f2|, w1, f1);
    } else {
      SameScaleSameParts(w1, f1, w2, f2);
    }
  }

  // ----- digit bounds are value bounds

  lemma QuotientLess(x: nat, p: nat, r: nat, k: nat)
    requires r < p
    ensures x * p + r < k * p <==> x < k
  {
    if x < k { assert k * p >= (x + 1) * p == x * p + p; }
    if x >= k { assert x * p >= k * p; }
  }

  lemma WholeBound(whole: string, fraction: string, k: nat)
    requires NormalParts(whole, fraction) && k > 0
    ensures |whole| <= k <==> PartsValue(whole, fraction) < Scaled(P10(k), 0)
  {
    hide NatOf, Scaled, P10, Digits, NoLeadingZero;
    var f := |fraction|;
    NatOfAppend(whole, fraction);
    NatOfBound(fraction);
    ScaledShift(P10(k), 0, f);
    ScaledLess(NatOf(whole + fraction), P10(k) * P10(f), f);
    QuotientLess(NatOf(whole), P10(f), NatOf(fraction), P10(k));
    LengthFromValue(whole, k);
  }

  /** Multiples of 10^-k. */
  ghost predicate HasScale(v: real, k: nat) { exists m: nat :: v == Scaled(m, k) }

  lemma FractionBound(whole: string, fraction: string, k: nat)
    requires NormalParts(whole, fraction)
    ensures |fraction| <= k <==> HasScale(PartsValue(whole, fraction), k)
  {
    hide NatOf, Scaled, P10, NoLeadingZero;
    NatOfAppend(whole, fraction);
    var n := NatOf(whole + fraction);
    if |fraction| <= k {
      var j: nat := k - |fraction|;
      ScaledShift(n, |fraction|, j);
      assert PartsValue(whole, fraction) == Scaled(n * P10(j), k);
    } else if m: nat :| PartsValue(whole, fraction) == Scaled(m, k) {
      ShorterScaleDiffers(m, k, whole, fraction);
    }
  }

  // ----- the theorems about canonicalDecimal

  /** The value an accepted text denotes. */
  function TextValue(s: string): Option<real> {
    match ParseNumeral(s)
    case None => None
    case Some(n) => Some(NumeralValue(n))
  }

  lemma LeadingZeroStripped(whole: string)
    requires NoLeadingZero(whole)
    ensures (if TrimLeft(whole, '0') == "" then "0" else TrimLeft(whole, '0')) == whole
  {
    if |whole| == 1 {
      assert whole[1..] == "";
      assert TrimLeft("", '0') == "";
      assert whole[0] == '0' ==> whole == "0";
    }
  }

  lemma RenderLaw(n: Numeral, maxInteger: nat, maxFraction: nat)
    requires Digits(n.digits) && maxInteger > 0
    ensures Render(n, maxInteger, maxFraction) ==
      if |IntegerPart(NormalText(n))| <= maxInteger && |FractionPart(NormalText(n))| <= maxFraction
      then Some(NormalText(n)) else None
  {
    hide Layout, TrimFraction, TrimLeft, IntegerPart, FractionPart, Digits, PlainValue, NumeralValue, Scaled, NatOf;
    NormalTextLaw(n);
    ZeroParts();
    LeadingZeroStripped(IntegerPart(NormalText(n)));
  }

  lemma ZeroParts()
    ensures IntegerPart("0") == "0" && FractionPart("0") == ""
  {
    assert "0"[..1] == "0";
    IndexOfAt("0", 1, '.');
  }

  /** An accepted text comes back in normal form with exactly its value. */
  lemma {:induction false} CanonicalDecimalValue(s: string, maxInteger: nat, maxFraction: nat)
    requires maxInteger > 0
    ensures CanonicalDecimal(s, maxInteger, maxFraction).Some? ==>
      var t := CanonicalDecimal(s, maxInteger, maxFraction).value;
      Canonical(t) && TextValue(s) == Some(PlainValue(t))
  {
    if n :| ParseNumeral(s) == Some(n) {
      hide NumeralValue, PlainValue, Canonical, Render, NormalText, ParseNumeral;
      RenderLaw(n, maxInteger, maxFraction);
      NormalTextLaw(n);
    }
  }

  /** What is accepted: exactly the well-formed texts whose value is below 10^maxInteger and a
      multiple of 10^-maxFraction, however many digits or exponents the text itself spends. */
  lemma {:induction false} CanonicalDecimalAcceptsIff(s: string, maxInteger: nat, maxFraction: nat)
    requires maxInteger > 0
    ensures CanonicalDecimal(s, maxInteger, maxFraction).Some? <==>
      && TextValue(s).Some?
      && TextValue(s).value < Scaled(P10(maxInteger), 0)
      && HasScale(TextValue(s).value, maxFraction)
  {
    if n :| ParseNumeral(s) == Some(n) {
      var t := NormalText(n);
      NormalTextLaw(n);
      var w, f := IntegerPart(t), FractionPart(t);
      assert NormalParts(w, f) && NumeralValue(n) == PartsValue(w, f);
      hide NumeralValue, PlainValue, Canonical, Render, NormalText, ParseNumeral, PartsValue, NormalParts, Scaled, P10,
           HasScale, IntegerPart, FractionPart;
      RenderLaw(n, maxInteger, maxFraction);
      WholeBound(w, f, maxInteger);
      FractionBound(w, f, maxFraction);
    }
  }

  /** Equal values, equal texts: comparing normal forms compares amounts. */
  lemma {:induction false} SameTextIffSameValue(s: string, t: string, maxInteger: nat, maxFraction: nat)
    requires maxInteger > 0
    requires CanonicalDecimal(s, maxInteger, maxFraction).Some? && CanonicalDecimal(t, maxInteger, maxFraction).Some?
    ensures CanonicalDecimal(s, maxInteger, maxFraction) == CanonicalDecimal(t, maxInteger, maxFraction) <==>
            TextValue(s) == TextValue(t)
  {
    hide CanonicalDecimal, TextValue, Canonical, PlainValue;
    CanonicalDecimalValue(s, maxInteger, maxFraction);
    CanonicalDecimalValue(t, maxInteger, maxFraction);
    var a, b := CanonicalDecimal(s, maxInteger, maxFraction).value, CanonicalDecimal(t, maxInteger, maxFraction).value;
    if TextValue(s) == TextValue(t) { CanonicalUnique(a, b); }
  }

  // ----- reading a normal text back

  lemma {:induction false} NoMarks(s: string)
    requires forall i :: 0 <= i < |s| ==> !IsMark(s[i])
    ensures IndexMark(s) == |s|
  {
    if s != "" { NoMarks(s[1..]); }
  }

  lemma NothingAround(s: string)
    requires s != "" && !IsSpace(s[0]) && !IsSpace(s[|s| - 1])
    ensures TrimSpace(s) == s
  {
  }

  /** Digits with at most one point inside. */
  lemma ComposeChars(whole: string, fraction: string)
    requires NormalParts(whole, fraction)
    ensures var t := Compose(whole, fraction);
      && t != "" && '0' <= t[0] <= '9' && '0' <= t[|t| - 1] <= '9'
      && forall i :: 0 <= i < |t| ==> '0' <= t[i] <= '9' || t[i] == '.'
  {
    var t := Compose(whole, fraction);
    assert t[0] == whole[0];
    if fraction != "" {
      assert t[|t| - 1] == fraction[|fraction| - 1];
    }
  }

  lemma ParseCanonical(t: string)
    requires Canonical(t)
    ensures ParseNumeral(t) == Some(Numeral(IntegerPart(t) + FractionPart(t), |FractionPart(t)|, 0))
  {
    var w, f := IntegerPart(t), FractionPart(t);
    ComposeChars(w, f);
    NoMarks(t);
    NothingAround(t);
    assert t[..|t|] == t;
    hide NatOf, TrimSpace, IndexMark, CountMarks, Atoi;
  }

  /** A canonical text is its own normal form. */
  lemma NormalOfCanonical(t: string)
    requires Canonical(t)
    ensures TextValue(t) == Some(PlainValue(t))
    ensures NormalText(ParseNumeral(t).value) == t
  {
    ParseCanonical(t);
    hide ParseNumeral, NormalText, Canonical, Scaled, NatOf, IntegerPart, FractionPart;
    var n := ParseNumeral(t).value;
    NormalTextLaw(n);
    assert NumeralValue(n) == PlainValue(t);
    CanonicalUnique(NormalText(n), t);
  }

  /** Normalising twice is normalising once, under any bounds that accepted it. */
  lemma {:induction false} CanonicalDecimalIdempotent(s: string, maxInteger: nat, maxFraction: nat)
    requires maxInteger > 0
    requires CanonicalDecimal(s, maxInteger, maxFraction).Some?
    ensures var t := CanonicalDecimal(s, maxInteger, maxFraction);
      CanonicalDecimal(t.value, maxInteger, maxFraction) == t
  {
    var t := CanonicalDecimal(s, maxInteger, maxFraction).value;
    CanonicalDecimalValue(s, maxInteger, maxFraction);
    var n := ParseNumeral(s).value;
    hide ParseNumeral, NormalText, Canonical, Render, PlainValue, TextValue, NumeralValue;
    RenderLaw(n, maxInteger, maxFraction);
    NormalOfCanonical(t);
    ParseCanonical(t);
    RenderLaw(ParseNumeral(t).value, maxInteger, maxFraction);
  }

  // ----- the two printers

  lemma {:induction false} DecimalDigitsLaw(n: nat)
    ensures var s := DecimalDigits(n);
      Digits(s) && NoLeadingZero(s) && NatOf(s) == n && (n > 0 ==> s[0] != '0')
  {
    if n < 10 {
      assert DecimalDigits(n)[..0] == "";
    } else {
      DecimalDigitsLaw(n / 10);
      var s := DecimalDigits(n / 10);
      hide NatOf;
      NatOfSnoc(s, DigitChar(n % 10));
    }
  }

  lemma {:induction false} PaddedLaw(n: nat, width: nat)
    requires n < P10(width)
    ensures var s := Padded(n, width);
      Digits(s) && |s| == width && NatOf(s) == n
  {
    if width > 0 {
      assert n / 10 < P10(width - 1);
      PaddedLaw(n / 10, width - 1);
      hide NatOf;
      NatOfSnoc(Padded(n / 10, width - 1), DigitChar(n % 10));
    }
  }

  const ONE: nat := 1_000_000_000_000_000_000_000_000_000_000

  lemma ThirtyDigits()
    ensures P10(30) == ONE
  {
    assert P10(10) == 10_000_000_000;
    hide P10;
    P10Sum(10, 10);
    P10Sum(20, 10);
  }

  lemma UnitsAreScaled(n: nat)
    ensures Scaled(n, 30) == Units(n)
  {
    ThirtyDigits();
    hide P10;
    assert Power(30) == SCALE;
  }

  /** Printing a number of units of the thirtieth decimal yields the normal text of that value. */
  lemma PrintUnitsLaw(n: nat)
    ensures Canonical(PrintUnits(n)) && PlainValue(PrintUnits(n)) == Units(n)
  {
    ThirtyDigits();
    UnitsAreScaled(n);
    hide P10, NatOf, DecimalDigits, Padded, TrimFraction, Canonical, PlainValue, Scaled, Units, Digits, NoLeadingZero;
    var whole, fraction := DecimalDigits(n / ONE), Padded(n % ONE, 30);
    DecimalDigitsLaw(n / ONE);
    PaddedLaw(n % ONE, 30);
    NatOfAppend(whole, fraction);
    assert NatOf(whole + fraction) == n / ONE * ONE + n % ONE == n;
    CutToNormal(whole, fraction);
  }

  /** Thirty printed decimals of a rational: half rounds away from zero. */
  function RoundAway(x: real): real { if x >= 0.0 then Round30(x) else -Round30(-x) }

  predicate Negated(t: string) { t != "" && t[0] == '-' }

  function Magnitude(t: string): string { if Negated(t) then t[1..] else t }

  lemma CanonicalStart(t: string)
    requires Canonical(t)
    ensures t != "" && !Negated(t)
  {
    hide PlainValue, NatOf, Scaled;
    var whole := IntegerPart(t);
    assert t[0] == whole[0];
  }

  lemma PrintsZeroIff(n: nat)
    ensures PrintUnits(n) == "0" <==> n == 0
    ensures Canonical(PrintUnits(n)) && PlainValue(PrintUnits(n)) == Units(n) >= 0.0
  {
    hide PrintUnits, Canonical, PlainValue;
    PrintUnitsLaw(n);
    ZeroText();
    UnitsNonNegative(n);
    if n == 0 { CanonicalUnique(PrintUnits(n), "0"); }
  }

  /** What the printer writes is the normal text of the magnitude rounded to thirty decimals, behind a
      sign exactly if the rounded value is negative: never "-0". */
  lemma {:induction false} RatDecimalLaw(x: real)
    ensures Canonical(Magnitude(RatDecimal(x)))
    ensures RoundAway(x) == if Negated(RatDecimal(x)) then -PlainValue(Magnitude(RatDecimal(x)))
                            else PlainValue(Magnitude(RatDecimal(x)))
    ensures Negated(RatDecimal(x)) <==> RoundAway(x) < 0.0
  {
    hide PrintUnits, Canonical, PlainValue, Nearest;
    var n := NearestNat(if x >= 0.0 then x else -x);
    PrintsZeroIff(n);
    CanonicalStart(PrintUnits(n));
    assert ("-" + PrintUnits(n))[1..] == PrintUnits(n);
  }

  /** Multiples of 10^-30 are the values on the printing grid. */
  lemma GridIsThirtyDigits(v: real, k: nat)
    requires HasScale(v, k) && k <= 30
    ensures OnGrid(v) && v >= 0.0
  {
    var m: nat :| v == Scaled(m, k);
    ScaledShift(m, k, 30 - k);
    var n := m * P10(30 - k);
    hide P10, Scaled, Units;
    UnitsAreScaled(n);
    assert v == Units(n);
    UnitsNonNegative(n);
  }

  lemma UnitsNonNegative(n: nat)
    ensures Units(n) >= 0.0
  {
  }

  /** Printing the exact value of an accepted text gives back its normal form: usage and money
      survive any number of round trips through text. */
  lemma {:induction false} PrintParsedRoundTrip(s: string, maxInteger: nat, maxFraction: nat)
    requires maxInteger > 0 && maxFraction <= 30
    requires CanonicalDecimal(s, maxInteger, maxFraction).Some?
    ensures TextValue(s).Some? && TextValue(s).value >= 0.0
    ensures CanonicalDecimal(s, maxInteger, maxFraction) == Some(RatDecimal(TextValue(s).value))
  {
    hide CanonicalDecimal, TextValue, Canonical, PlainValue, RatDecimal, HasScale, OnGrid, Round30;
    CanonicalDecimalValue(s, maxInteger, maxFraction);
    CanonicalDecimalAcceptsIff(s, maxInteger, maxFraction);
    var t, v := CanonicalDecimal(s, maxInteger, maxFraction).value, TextValue(s).value;
    GridIsThirtyDigits(v, maxFraction);
    PrintsExactlyIff(v);
    RatDecimalLaw(v);
    assert !Negated(RatDecimal(v));
    CanonicalUnique(RatDecimal(v), t);
  }

  /** A decimal text as a numeric column prints it: no sign, no exponent. */
  predicate Unmarked(s: string) {
    forall i :: 0 <= i < |s| ==> !IsMark(s[i])
  }

  lemma {:induction false} TrimSpaceChars(s: string)
    ensures Unmarked(s) ==> Unmarked(TrimSpaceLeft(s)) && Unmarked(TrimSpaceRight(s))
    decreases |s|
  {
    if s != "" {
      TrimSpaceChars(s[1..]);
      TrimSpaceChars(s[..|s| - 1]);
    }
  }

  lemma ParsePlain(s: string)
    requires Unmarked(s) && ParseNumeral(s).Some?
    ensures var v := TrimSpace(s);
      && v != "" && v[0] != '-' && v[0] != '+'
      && Digits(IntegerPart(v)) && IntegerPart(v) != "" && Digits(FractionPart(v))
      && ParseNumeral(s) == Some(Numeral(IntegerPart(v) + FractionPart(v), |FractionPart(v)|, 0))
  {
    hide NatOf, Atoi, TrimSpaceLeft, TrimSpaceRight, Digits, Unmarked;
    TrimSpaceChars(s);
    TrimSpaceChars(TrimSpaceLeft(s));
    var v := TrimSpace(s);
    PlainHasNoMark(v);
    assert v[..|v|] == v;
  }

  lemma PlainHasNoMark(v: string)
    requires Unmarked(v)
    ensures IndexMark(v) == |v|
  {
    NoMarks(v);
  }

  lemma StrippedLaw(whole: string)
    requires Digits(whole) && whole != ""
    ensures var w := Unpadded(whole);
      Digits(w) && NoLeadingZero(w) && NatOf(w) == NatOf(whole)
  {
    TrimLeftLaw(whole, '0');
    TrimLeftKeepsNumber(whole);
    assert NatOf("0") == 0 && NatOf("") == 0;
  }

  lemma SameWholeSameValue(v: string, w: string, f: string)
    requires Digits(v) && Digits(w) && Digits(f) && NatOf(v) == NatOf(w)
    ensures PartsValue(v, f) == PartsValue(w, f)
  {
    hide NatOf, Scaled, P10, Digits;
    NatOfAppend(v, f);
    NatOfAppend(w, f);
  }

  function Unpadded(whole: string): string {
    if TrimLeft(whole, '0') == "" then "0" else TrimLeft(whole, '0')
  }

  lemma ReportParts(s: string)
    requires TrimSpace(s) != "" && TrimSpace(s)[0] != '-' && TrimSpace(s)[0] != '+'
    ensures NormalizeDecimalText(s) ==
      Compose(Unpadded(IntegerPart(TrimSpace(s))), TrimRight(FractionPart(TrimSpace(s)), '0'))
  {
    hide TrimSpace, IntegerPart, FractionPart, TrimRight, TrimLeft;
    var w := Unpadded(IntegerPart(TrimSpace(s)));
    var f := TrimRight(FractionPart(TrimSpace(s)), '0');
    ZeroCompose();
    hide Compose;
    assert "" + Compose(w, f) == Compose(w, f);
  }

  /** The report printer composes the normal parts of a plain text. */
  lemma ReportText(s: string)
    requires Unmarked(s) && ParseNumeral(s).Some?
    ensures Canonical(NormalizeDecimalText(s))
    ensures TextValue(s) == Some(PlainValue(NormalizeDecimalText(s)))
  {
    ParsePlain(s);
    ReportParts(s);
    hide ParseNumeral, TrimSpace, IntegerPart, FractionPart, NatOf, Digits, TrimRight, TrimLeft,
         Canonical, PlainValue, Compose, NoLeadingZero, PartsValue, NormalizeDecimalText, TextValue;
    var whole, fraction := IntegerPart(TrimSpace(s)), FractionPart(TrimSpace(s));
    var w, f := Unpadded(whole), TrimRight(fraction, '0');
    StrippedLaw(whole);
    TrimRightLaw(fraction, '0');
    TrimKeepsValue(whole, fraction);
    SameWholeSameValue(whole, w, f);
    ComposeValue(w, f);
    PlainNumeralValue(s, whole, fraction);
  }

  lemma ZeroCompose()
    ensures Compose("0", "") == "0"
  {
  }

  lemma PlainNumeralValue(s: string, whole: string, fraction: string)
    requires Digits(whole) && Digits(fraction)
    requires ParseNumeral(s) == Some(Numeral(whole + fraction, |fraction|, 0))
    ensures TextValue(s) == Some(PartsValue(whole, fraction))
  {
    hide ParseNumeral, Scaled, NatOf, Digits;
  }

  lemma {:induction false} TrimSpaceKeepsMarks(s: string)
    ensures !Unmarked(s) ==> !Unmarked(TrimSpaceLeft(s)) && !Unmarked(TrimSpaceRight(s))
    decreases |s|
  {
    if i :| 0 <= i < |s| && IsMark(s[i]) {
      if IsSpace(s[0]) {
        assert IsMark(s[1..][i - 1]);
        TrimSpaceKeepsMarks(s[1..]);
      }
      if IsSpace(s[|s| - 1]) {
        assert IsMark(s[..|s| - 1][i]);
        TrimSpaceKeepsMarks(s[..|s| - 1]);
      }
    }
  }

  lemma TrimZerosKeepsMarks(s: string)
    ensures !Unmarked(s) ==> !Unmarked(TrimLeft(s, '0')) && !Unmarked(TrimRight(s, '0'))
  {
    TrimLeftLaw(s, '0');
    TrimRightLaw(s, '0');
    if i :| 0 <= i < |s| && IsMark(s[i]) {
      var k := |s| - |TrimLeft(s, '0')|;
      assert i >= k && IsMark(TrimLeft(s, '0')[i - k]);
      assert i < |TrimRight(s, '0')| && IsMark(TrimRight(s, '0')[i]);
    }
  }

  lemma PartsKeepMarks(v: string)
    ensures !Unmarked(v) ==> !Unmarked(IntegerPart(v)) || !Unmarked(FractionPart(v))
  {
    var p := IndexOf(v, '.');
    if i :| 0 <= i < |v| && IsMark(v[i]) {
      if i < p {
        assert IsMark(IntegerPart(v)[i]);
      } else {
        assert i > p && IsMark(FractionPart(v)[i - p - 1]);
      }
    }
  }

  lemma ComposeKeepsMarks(w: string, f: string)
    ensures !Unmarked(w) || !Unmarked(f) ==> !Unmarked(Compose(w, f))
  {
    if i :| 0 <= i < |w| && IsMark(w[i]) { assert IsMark(Compose(w, f)[i]); }
    if i :| 0 <= i < |f| && IsMark(f[i]) { assert IsMark(Compose(w, f)[|w| + 1 + i]); }
  }

  /** Nothing the report printer does removes an exponent mark. */
  lemma ReportKeepsMarks(s: string)
    requires ParseNumeral(s).Some? && !Unmarked(s)
    ensures !Unmarked(NormalizeDecimalText(s))
  {
    TrimSpaceKeepsMarks(s);
    TrimSpaceKeepsMarks(TrimSpaceLeft(s));
    var v := TrimSpace(s);
    PartsKeepMarks(v);
    TrimZerosKeepsMarks(IntegerPart(v));
    TrimZerosKeepsMarks(FractionPart(v));
    assert Unmarked("");
    assert v != "" && v[0] != '-' && v[0] != '+';
    ReportParts(s);
    hide NormalizeDecimalText, Unmarked, ParseNumeral, IntegerPart, FractionPart, TrimLeft, TrimRight;
    ComposeKeepsMarks(Unpadded(IntegerPart(v)), TrimRight(FractionPart(v), '0'));
  }

  /** Of the texts the normaliser accepts, reports show the same text for exactly those that are
      written without an exponent. */
  lemma {:induction false} ReportAgreesIff(s: string, maxInteger: nat, maxFraction: nat)
    requires maxInteger > 0
    requires CanonicalDecimal(s, maxInteger, maxFraction).Some?
    ensures CanonicalDecimal(s, maxInteger, maxFraction) == Some(NormalizeDecimalText(s)) <==> Unmarked(s)
  {
    assert ParseNumeral(s).Some?;
    var t := CanonicalDecimal(s, maxInteger, maxFraction).value;
    CanonicalDecimalValue(s, maxInteger, maxFraction);
    ComposeChars(IntegerPart(t), FractionPart(t));
    assert Unmarked(t);
    hide CanonicalDecimal, TextValue, Canonical, PlainValue, NormalizeDecimalText, ParseNumeral, Unmarked;
    if Unmarked(s) {
      ReportText(s);
      CanonicalUnique(NormalizeDecimalText(s), t);
    } else {
      ReportKeepsMarks(s);
    }
  }

  lemma ExponentExampleParses()
    ensures ParseNumeral("1e2") == Some(Numeral("1", 0, 2))
  {
    var s := "1e2";
    assert s[..1] == "1" && s[2..] == "2" && s[1..] == "e2";
    assert TrimSpace(s) == s;
    assert IndexMark(s) == 1;
    assert CountMarks("2") == 0 && CountMarks("e2") == 1 by { assert "e2"[1..] == "2" && "2"[1..] == ""; }
    assert CountMarks(s) == 1;
    assert IndexOf("1", '.') == 1;
    assert "1"[..1] == "1" && "1" + "" == "1";
    assert NatOf("2") == 2;
    assert Atoi("2") == Some(2);
  }

  /** For example, the report printer copies the exponent of "1e2" through. */
  lemma {:induction false} ReportKeepsExponent()
    ensures CanonicalDecimal("1e2", 30, 30) == Some("100")
    ensures NormalizeDecimalText("1e2") != "100"
  {
    ExponentExampleParses();
    hide ParseNumeral;
    assert TrimLeft("1", '0') == "1";
    assert Zeros(2) == "00";
    assert NormalText(Numeral("1", 0, 2)) == "100";
    PointAfter("100", "");
    RenderLaw(Numeral("1", 0, 2), 30, 30);
    hide NormalizeDecimalText, CanonicalDecimal;
    assert IsMark("1e2"[1]);
    ReportKeepsMarks("1e2");
    assert Unmarked("100");
  }
}
