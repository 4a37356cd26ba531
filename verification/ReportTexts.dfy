/** How reports print amounts with a sign, such as a negative balance. */
module ReportTexts {
  import opened Results
  import opened Numerals
  import opened DecimalText
  import opened DecimalLaws

  lemma CanonicalUnmarked(t: string)
    requires Canonical(t)
    ensures Unmarked(t) && t != "" && '0' <= t[0] <= '9' && '0' <= t[|t| - 1] <= '9'
    ensures ParseNumeral(t).Some? && TextValue(t) == Some(PlainValue(t))
  {
    ComposeChars(IntegerPart(t), FractionPart(t));
    ParseCanonical(t);
    hide NatOf, Scaled;
  }

  /** The report printer leaves a normal text as it is. */
  lemma CanonicalReprinted(t: string)
    requires Canonical(t)
    ensures NormalizeDecimalText(t) == t
  {
    hide Canonical, NormalizeDecimalText, TextValue, PlainValue, ParseNumeral, Unmarked;
    CanonicalUnmarked(t);
    ReportText(t);
    CanonicalUnique(NormalizeDecimalText(t), t);
  }

  /** The text behind the sign, without spaces. */
  predicate Unsigned(t: string) {
    TrimSpace(t) == t && (t == "" || (t[0] != '-' && t[0] != '+'))
  }

  lemma NothingBehindSign()
    ensures IntegerPart("") == "" && FractionPart("") == "" && TrimLeft("", '0') == "" && TrimRight("", '0') == ""
  {
  }

  lemma ZeroComposed(t: string)
    ensures var w, f := Unpadded(IntegerPart(t)), TrimRight(FractionPart(t), '0');
      Compose(w, f) == "0" <==> w == "0" && f == ""
  {
    var w, f := Unpadded(IntegerPart(t)), TrimRight(FractionPart(t), '0');
    hide IntegerPart, FractionPart, TrimRight, TrimLeft;
    if f != "" { assert |Compose(w, f)| > 1; }
  }

  /** What is printed of the text behind the sign. */
  function ReportBody(t: string): string { Compose(Unpadded(IntegerPart(t)), TrimRight(FractionPart(t), '0')) }

  lemma SignedBody(s: string)
    requires TrimSpace(s) != "" && (TrimSpace(s)[0] == '-' || TrimSpace(s)[0] == '+')
    ensures var sign, t := TrimSpace(s)[..1], TrimSpace(s)[1..];
      NormalizeDecimalText(s) == if ReportBody(t) == "0" then "0" else sign + ReportBody(t)
  {
    hide TrimSpace, IntegerPart, FractionPart, TrimRight, TrimLeft, Compose;
    ZeroComposed(TrimSpace(s)[1..]);
  }

  lemma UnsignedBody(t: string)
    requires Unsigned(t)
    ensures NormalizeDecimalText(t) == ReportBody(t)
  {
    if t == "" {
      NothingBehindSign();
    } else {
      hide TrimSpace, NormalizeDecimalText, IntegerPart, FractionPart, TrimRight, TrimLeft, Compose;
      ReportParts(t);
    }
  }

  /** A sign is kept in front of what is printed without it, but zero is printed without a sign. */
  lemma {:induction false} SignedReport(s: string)
    requires TrimSpace(s) != "" && (TrimSpace(s)[0] == '-' || TrimSpace(s)[0] == '+') && Unsigned(TrimSpace(s)[1..])
    ensures var sign, t := TrimSpace(s)[..1], TrimSpace(s)[1..];
      NormalizeDecimalText(s) == if NormalizeDecimalText(t) == "0" then "0" else sign + NormalizeDecimalText(t)
  {
    hide TrimSpace, NormalizeDecimalText, ReportBody;
    SignedBody(s);
    UnsignedBody(TrimSpace(s)[1..]);
  }

  lemma NoSpaceAround(t: string)
    requires t != "" && !IsSpace(t[0]) && !IsSpace(t[|t| - 1])
    ensures TrimSpace(t) == t
  {
  }

  /** Whatever the printer writes for a rational, negative ones included, reports show unchanged: the
      rounded magnitude in normal form behind a sign exactly if it is negative. */
  lemma {:induction false} PrintedAmountReported(x: real)
    ensures NormalizeDecimalText(RatDecimal(x)) == RatDecimal(x)
  {
    hide NormalizeDecimalText, RatDecimal, Canonical, PlainValue, TrimSpace, Unmarked;
    RatDecimalLaw(x);
    var s := RatDecimal(x);
    var t := Magnitude(s);
    CanonicalUnmarked(t);
    CanonicalReprinted(t);
    NoSpaceAround(t);
    if Negated(s) {
      assert s == "-" + t && s[..1] == "-" && s[1..] == t;
      NoSpaceAround(s);
      SignedReport(s);
      if t == "0" { ZeroIsNothing(); }
    }
  }

  lemma ZeroIsNothing()
    ensures PlainValue("0") == 0.0
  {
    assert IntegerPart("0") == "0" && FractionPart("0") == "";
    assert "0" + "" == "0" && NatOf("0") == 0;
  }

  /** A signed text of a numeric column shows its value: the part behind the sign in normal form. */
  lemma {:induction false} SignedReportValue(s: string)
    requires TrimSpace(s) != "" && TrimSpace(s)[0] == '-' && Unsigned(TrimSpace(s)[1..])
    requires Unmarked(TrimSpace(s)[1..]) && ParseNumeral(TrimSpace(s)[1..]).Some?
    ensures var t, shown := TrimSpace(s)[1..], NormalizeDecimalText(s);
      && Canonical(Magnitude(shown)) && TextValue(t) == Some(PlainValue(Magnitude(shown)))
      && (Negated(shown) <==> TextValue(t).value != 0.0)
  {
    hide NormalizeDecimalText, Canonical, PlainValue, TrimSpace, Unmarked, ParseNumeral, TextValue;
    var t := TrimSpace(s)[1..];
    SignedReport(s);
    ReportText(t);
    var n := NormalizeDecimalText(t);
    CanonicalStart(n);
    ZeroIsNothing();
    assert Canonical("0") by { ZeroIsCanonical(); }
    if PlainValue(n) == 0.0 { CanonicalUnique(n, "0"); }
    assert ("-" + n)[1..] == n;
  }

  lemma ZeroIsCanonical()
    ensures Canonical("0")
  {
    assert IntegerPart("0") == "0" && FractionPart("0") == "";
  }
}
