/** Which texts are decimals and what they are worth, from the way they are written down: digits, perhaps
    a point and more digits, perhaps a power of ten. */
module NumeralTexts {
  import opened Results
  import opened Numerals
  import opened DecimalText
  import opened DecimalLaws

  datatype Power10 = NoPower | Power10(mark: char, sign: string, digits: string)

  datatype Writing = Writing(whole: string, dotted: bool, fraction: string, power: Power10)

  predicate PowerAccepted(p: Power10) {
    match p
    case NoPower => true
    case Power10(mark, sign, digits) =>
      && (mark == 'e' || mark == 'E') && (sign == "" || sign == "+" || sign == "-")
      && digits != "" && Digits(digits) && NatOf(digits) <= 100
  }

  predicate WritingAccepted(w: Writing) {
    && w.whole != "" && Digits(w.whole) && Digits(w.fraction) && (!w.dotted ==> w.fraction == "")
    && PowerAccepted(w.power)
  }

  function PowerText(p: Power10): string {
    match p
    case NoPower => ""
    case Power10(mark, sign, digits) => [mark] + sign + digits
  }

  function BaseText(w: Writing): string { w.whole + (if w.dotted then "." + w.fraction else "") }

  function Written(w: Writing): string { BaseText(w) + PowerText(w.power) }

  function SignedNumber(sign: string, digits: string): int
    requires Digits(digits)
  {
    var n: int := NatOf(digits);
    if sign == "-" then -n else n
  }

  function PowerValue(p: Power10): int
    requires PowerAccepted(p)
  {
    match p
    case NoPower => 0
    case Power10(_, sign, digits) => SignedNumber(sign, digits)
  }

  /** The digits as one number, times ten to the power less the number of digits behind the point. */
  function Worth(w: Writing): real
    requires WritingAccepted(w)
  {
    NatOfAppend(w.whole, w.fraction);
    var scale := PowerValue(w.power) - |w.fraction|;
    if scale >= 0 then (NatOf(w.whole + w.fraction) * P10(scale)) as real
    else NatOf(w.whole + w.fraction) as real / Power(-scale)
  }

  // ----- reading what is written

  lemma BaseChars(w: Writing)
    requires WritingAccepted(w)
    ensures var b := BaseText(w);
      && b != "" && '0' <= b[0] <= '9' && (forall i :: 0 <= i < |b| ==> '0' <= b[i] <= '9' || b[i] == '.')
      && IntegerPart(b) == w.whole && FractionPart(b) == w.fraction
  {
    hide NatOf, PowerAccepted;
    var b := BaseText(w);
    assert b[0] == w.whole[0];
    IndexOfAt(b, |w.whole|, '.');
    if w.dotted {
      assert b == w.whole + "." + w.fraction;
      assert b[..|w.whole|] == w.whole && b[|w.whole| + 1..] == w.fraction;
    } else {
      assert b[..|w.whole|] == w.whole;
    }
  }

  lemma AtoiSigned(sign: string, digits: string)
    requires (sign == "" || sign == "+" || sign == "-") && digits != "" && Digits(digits)
    ensures Atoi(sign + digits) == Some(SignedNumber(sign, digits))
  {
    hide NatOf;
    var s := sign + digits;
    if sign == "" {
      assert s == digits && s[0] == digits[0];
    } else {
      assert s[0] == sign[0] && s[1..] == digits;
    }
  }

  lemma {:induction false} MarkAt(a: string, rest: string)
    requires (forall i :: 0 <= i < |a| ==> !IsMark(a[i])) && rest != "" && IsMark(rest[0])
    ensures IndexMark(a + rest) == |a|
  {
    if a == "" {
      assert a + rest == rest;
    } else {
      assert (a + rest)[1..] == a[1..] + rest;
      MarkAt(a[1..], rest);
    }
  }

  lemma {:induction false} MarksIn(a: string, b: string)
    ensures CountMarks(a + b) == CountMarks(a) + CountMarks(b)
  {
    if a == "" {
      assert a + b == b;
    } else {
      assert (a + b)[1..] == a[1..] + b;
      MarksIn(a[1..], b);
    }
  }

  lemma {:induction false} NoMarksIn(a: string)
    requires forall i :: 0 <= i < |a| ==> !IsMark(a[i])
    ensures CountMarks(a) == 0
  {
    if a != "" { NoMarksIn(a[1..]); }
  }

  lemma OneMark(w: Writing)
    requires WritingAccepted(w) && w.power.Power10?
    ensures IndexMark(Written(w)) == |BaseText(w)| && CountMarks(Written(w)) == 1
  {
    hide NatOf;
    BaseChars(w);
    var p := PowerText(w.power);
    MarkAt(BaseText(w), p);
    MarksIn(BaseText(w), p);
    NoMarksIn(BaseText(w));
    NoMarksIn(p[1..]);
  }

  /** The power that stands behind the mark, if the text has one. */
  function MarkedPower(v: string): Option<int> {
    if IndexMark(v) == |v| then Some(0)
    else if CountMarks(v) != 1 then None
    else Atoi(v[IndexMark(v) + 1..])
  }

  lemma ParsedParts(s: string)
    ensures var v := TrimSpace(s);
      var b, power := v[..IndexMark(v)], MarkedPower(v);
      ParseNumeral(s) ==
        if v == "" || v[0] == '-' || v[0] == '+' then None
        else if IntegerPart(b) == "" || !Digits(IntegerPart(b)) || !Digits(FractionPart(b)) then None
        else if power.None? || power.value < -100 || power.value > 100 then None
        else Some(Numeral(IntegerPart(b) + FractionPart(b), |FractionPart(b)|, power.value))
  {
    hide TrimSpace, IndexMark, CountMarks, Atoi, IndexOf;
  }

  lemma WrittenPower(w: Writing)
    requires WritingAccepted(w)
    ensures MarkedPower(Written(w)) == Some(PowerValue(w.power))
    ensures Written(w)[..IndexMark(Written(w))] == BaseText(w)
  {
    hide NatOf, Atoi;
    BaseChars(w);
    var v, b := Written(w), BaseText(w);
    match w.power
    case NoPower =>
      assert v == b;
      NoMarks(v);
    case Power10(mark, sign, digits) =>
      OneMark(w);
      AtoiSigned(sign, digits);
      assert v[|b| + 1..] == sign + digits;
  }

  lemma PowerInRange(p: Power10)
    requires PowerAccepted(p)
    ensures -100 <= PowerValue(p) <= 100
  {
    hide NatOf;
  }

  /** A text that is written so, spaces aside, parses to just these digits, point and power. */
  lemma WrittenParses(s: string, w: Writing)
    requires WritingAccepted(w) && TrimSpace(s) == Written(w)
    ensures ParseNumeral(s) == Some(Numeral(w.whole + w.fraction, |w.fraction|, PowerValue(w.power)))
  {
    BaseChars(w);
    WrittenPower(w);
    PowerInRange(w.power);
    ParsedParts(s);
    assert Written(w)[0] == BaseText(w)[0];
    hide ParseNumeral, TrimSpace, MarkedPower, IntegerPart, FractionPart, BaseText, PowerValue, PowerText, PowerAccepted, IndexMark;
  }

  // ----- every text that parses is written so

  function PowerOf(v: string): Power10 {
    var mark := IndexMark(v);
    if mark == |v| then NoPower
    else
      var rest := v[mark + 1..];
      if rest != "" && (rest[0] == '-' || rest[0] == '+') then Power10(v[mark], rest[..1], rest[1..])
      else Power10(v[mark], "", rest)
  }

  function WritingOf(v: string): Writing {
    var b := v[..IndexMark(v)];
    Writing(IntegerPart(b), IndexOf(b, '.') < |b|, FractionPart(b), PowerOf(v))
  }

  lemma WrittenAgain(v: string)
    ensures Written(WritingOf(v)) == v
  {
    BaseRebuilt(v[..IndexMark(v)]);
    PowerRebuilt(v);
    hide IntegerPart, FractionPart, PowerOf, PowerText, IndexMark, IndexOf;
    assert v == v[..IndexMark(v)] + v[IndexMark(v)..];
  }

  lemma ParsedIsWritten(s: string)
    requires ParseNumeral(s).Some?
    ensures WritingAccepted(WritingOf(TrimSpace(s))) && Written(WritingOf(TrimSpace(s))) == TrimSpace(s)
  {
    var v := TrimSpace(s);
    ParsedParts(s);
    NoPointNoFraction(v[..IndexMark(v)]);
    hide ParseNumeral, TrimSpace, IntegerPart, FractionPart, PowerOf, IndexMark, IndexOf, MarkedPower, Digits, Written, PowerAccepted;
    WrittenAgain(v);
    PowerIsAccepted(v);
  }

  lemma NoPointNoFraction(b: string)
    ensures IndexOf(b, '.') == |b| ==> FractionPart(b) == ""
  {
    hide IndexOf;
  }

  lemma PowerIsAccepted(v: string)
    requires MarkedPower(v).Some? && -100 <= MarkedPower(v).value <= 100
    ensures PowerAccepted(PowerOf(v))
  {
    hide IndexMark, CountMarks, NatOf;
  }

  lemma SplitAt(b: string, i: nat, c: char)
    requires i < |b| && b[i] == c
    ensures b == b[..i] + ([c] + b[i + 1..])
  {
  }

  lemma BaseRebuilt(b: string)
    ensures b == IntegerPart(b) + (if IndexOf(b, '.') < |b| then "." + FractionPart(b) else "")
  {
    hide IndexOf;
    var i := IndexOf(b, '.');
    if i < |b| {
      SplitAt(b, i, '.');
    } else {
      assert b[..i] == b && b + "" == b;
    }
  }

  lemma PowerRebuilt(v: string)
    ensures PowerText(PowerOf(v)) == v[IndexMark(v)..]
  {
    hide IndexMark;
    var mark := IndexMark(v);
    if mark < |v| {
      assert v[mark..] == [v[mark]] + v[mark + 1..];
      var rest := v[mark + 1..];
      if rest != "" { assert rest == rest[..1] + rest[1..]; }
    }
  }

  /** The decimals are exactly the texts that are, spaces aside, digits, perhaps a point and digits, and
      perhaps an e or E with a power from -100 to 100... */
  lemma {:induction false} ParsesIff(s: string)
    ensures ParseNumeral(s).Some? <==> exists w :: WritingAccepted(w) && Written(w) == TrimSpace(s)
  {
    hide ParseNumeral, TrimSpace, Written, WritingAccepted, WritingOf;
    if ParseNumeral(s).Some? { ParsedIsWritten(s); }
    if w :| WritingAccepted(w) && Written(w) == TrimSpace(s) { WrittenParses(s, w); }
  }

  /** ...and each is worth its digits shifted by its point and its power. */
  lemma {:induction false} WrittenWorth(s: string, w: Writing)
    requires WritingAccepted(w) && Written(w) == TrimSpace(s)
    ensures TextValue(s) == Some(Worth(w))
  {
    hide ParseNumeral, TrimSpace, Written, NatOf, P10, Power;
    NatOfAppend(w.whole, w.fraction);
    WrittenParses(s, w);
  }

  // ----- spaces aside

  /** Blank, tab, line feed, vertical tab, form feed, carriage return. */
  predicate Blanks(s: string) {
    forall i :: 0 <= i < |s| ==> s[i] == ' ' || '\t' <= s[i] <= '\r'
  }

  lemma {:induction false} LeftBlanks(s: string)
    ensures var t := TrimSpaceLeft(s);
      |t| <= |s| && s[|s| - |t|..] == t && Blanks(s[..|s| - |t|]) && (t != "" ==> !Blanks(t[..1]))
  {
    if s != "" && IsSpace(s[0]) {
      LeftBlanks(s[1..]);
      var k := |s| - |TrimSpaceLeft(s)|;
      assert s[..k] == [s[0]] + s[1..][..k - 1];
    }
  }

  lemma {:induction false} RightBlanks(s: string)
    ensures var t := TrimSpaceRight(s);
      |t| <= |s| && s[..|t|] == t && Blanks(s[|t|..]) && (t != "" ==> !Blanks(t[|t| - 1..]))
    decreases |s|
  {
    if s != "" && IsSpace(s[|s| - 1]) {
      RightBlanks(s[..|s| - 1]);
      var k := |TrimSpaceRight(s)|;
      assert s[k..] == s[..|s| - 1][k..] + [s[|s| - 1]];
    }
  }

  lemma Inside(s: string, i: nat, k: nat)
    requires i + k <= |s|
    ensures s[i..][..k] == s[i..i + k] && s[i..][k..] == s[i + k..]
  {
  }

  lemma SameStart(s: string, k: nat)
    requires 0 < k <= |s|
    ensures s[..k][..1] == s[..1]
  {
  }

  /** Only blanks in front and behind are dropped, and none are left there. */
  lemma {:induction false} TrimmedOfBlanks(s: string)
    ensures exists i, j :: 0 <= i <= j <= |s| && TrimSpace(s) == s[i..j] && Blanks(s[..i]) && Blanks(s[j..])
    ensures TrimSpace(s) != "" ==> !Blanks(TrimSpace(s)[..1]) && !Blanks(TrimSpace(s)[|TrimSpace(s)| - 1..])
  {
    hide TrimSpaceLeft, TrimSpaceRight, Blanks;
    LeftBlanks(s);
    var t := TrimSpaceLeft(s);
    RightBlanks(t);
    Inside(s, |s| - |t|, |TrimSpaceRight(t)|);
    if TrimSpaceRight(t) != "" { SameStart(t, |TrimSpaceRight(t)|); }
  }
}
