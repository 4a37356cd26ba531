/** Decimal texts: the parser and normaliser of prices and quantities, and the two printers. */
module DecimalText {
  import opened Results
  import opened Numerals
  import opened Rounding

  // ----- string primitives (ASCII)

  predicate IsSpace(c: char) { c as int in {9, 10, 11, 12, 13, 32} }

  function TrimSpaceLeft(s: string): string {
    if s != "" && IsSpace(s[0]) then TrimSpaceLeft(s[1..]) else s
  }

  function TrimSpaceRight(s: string): string {
    if s != "" && IsSpace(s[|s| - 1]) then TrimSpaceRight(s[..|s| - 1]) else s
  }

  function TrimSpace(s: string): string { TrimSpaceRight(TrimSpaceLeft(s)) }

  function TrimLeft(s: string, c: char): string {
    if s != "" && s[0] == c then TrimLeft(s[1..], c) else s
  }

  function TrimRight(s: string, c: char): string {
    if s != "" && s[|s| - 1] == c then TrimRight(s[..|s| - 1], c) else s
  }

  /** Index of the first c, or the length if there is none. */
  function IndexOf(s: string, c: char): (i: nat)
    ensures i <= |s| && c !in s[..i] && (i < |s| ==> s[i] == c)
  {
    if s == "" || s[0] == c then 0
    else
      var i := IndexOf(s[1..], c);
      assert s[..1 + i] == [s[0]] + s[1..][..i];
      1 + i
  }

  predicate IsMark(c: char) { c == 'e' || c == 'E' }

  /** Index of the first exponent mark, or the length. */
  function IndexMark(s: string): (i: nat)
    ensures i <= |s| && (i < |s| ==> IsMark(s[i]))
    ensures forall k :: 0 <= k < i ==> !IsMark(s[k])
  {
    if s == "" || IsMark(s[0]) then 0 else 1 + IndexMark(s[1..])
  }

  function CountMarks(s: string): nat {
    if s == "" then 0 else (if IsMark(s[0]) then 1 else 0) + CountMarks(s[1..])
  }

  /** strconv.Atoi: one optional sign, then at least one digit. */
  function Atoi(s: string): Option<int> {
    var negative := s != "" && s[0] == '-';
    var body := if s != "" && (s[0] == '-' || s[0] == '+') then s[1..] else s;
    if body == "" || !Digits(body) then None
    else
      var n: int := NatOf(body);
      Some(if negative then -n else n)
  }

  // ----- parsing

  /** All digits with the point taken out, how many stood behind it, and the exponent. */
  datatype Numeral = Numeral(digits: string, fraction: nat, exponent: int)

  function ParseNumeral(s: string): (r: Option<Numeral>)
    ensures r.Some? ==> Digits(r.value.digits) && r.value.fraction <= |r.value.digits|
  {
    var value := TrimSpace(s);
    if value == "" || value[0] == '-' || value[0] == '+' then None
    else
      var mark := IndexMark(value);
      var base := value[..mark];
      var exponent := if mark == |value| then Some(0)
                      else if CountMarks(value) != 1 then None
                      else Atoi(value[mark + 1..]);
      var point := IndexOf(base, '.');
      var whole := base[..point];
      var fraction := if point < |base| then base[point + 1..] else "";
      if whole == "" || !Digits(whole) || !Digits(fraction) then None
      else if exponent.None? || exponent.value < -100 || exponent.value > 100 then None
      else Some(Numeral(whole + fraction, |fraction|, exponent.value))
  }

  /** The exact value of a text that parses. */
  function NumeralValue(n: Numeral): real
    requires Digits(n.digits)
  {
    Scaled(NatOf(n.digits), n.fraction - n.exponent)
  }

  function Layout(digits: string, scale: int): string {
    if scale <= 0 then digits + Zeros(-scale)
    else if |digits| > scale then digits[..|digits| - scale] + "." + digits[|digits| - scale..]
    else "0." + Zeros(scale - |digits|) + digits
  }

  function TrimFraction(t: string): string {
    if '.' in t then TrimRight(TrimRight(t, '0'), '.') else t
  }

  function IntegerPart(t: string): string { t[..IndexOf(t, '.')] }

  function FractionPart(t: string): string {
    var point := IndexOf(t, '.');
    if point < |t| then t[point + 1..] else ""
  }

  function Render(n: Numeral, maxIntegerDigits: nat, maxFractionDigits: nat): Option<string> {
    var digits := TrimLeft(n.digits, '0');
    if digits == "" then Some("0")
    else
      var result := TrimFraction(Layout(digits, n.fraction - n.exponent));
      var stripped := TrimLeft(IntegerPart(result), '0');
      var integerPart := if stripped == "" then "0" else stripped;
      if |integerPart| > maxIntegerDigits || |FractionPart(result)| > maxFractionDigits then None
      else Some(result)
  }

  function CanonicalDecimal(s: string, maxIntegerDigits: nat, maxFractionDigits: nat): Option<string> {
    match ParseNumeral(s)
    case None => None
    case Some(n) => Render(n, maxIntegerDigits, maxFractionDigits)
  }

  // ----- printing

  function DecimalDigits(n: nat): string {
    if n < 10 then [DigitChar(n)] else DecimalDigits(n / 10) + [DigitChar(n % 10)]
  }

  function DigitChar(d: nat): char
    requires d < 10
  {
    ('0' as int + d) as char
  }

  function Padded(n: nat, width: nat): string {
    if width == 0 then "" else Padded(n / 10, width - 1) + [DigitChar(n % 10)]
  }

  /** n units of the thirtieth decimal, without padding zeros. */
  function PrintUnits(n: nat): string {
    var one := 1_000_000_000_000_000_000_000_000_000_000;
    TrimFraction(DecimalDigits(n / one) + "." + Padded(n % one, 30))
  }

  /** big.Rat.FloatString(30) with trailing zeros and point removed. */
  function RatDecimal(x: real): string {
    if x >= 0.0 then PrintUnits(NearestNat(x))
    else
      var text := PrintUnits(NearestNat(-x));
      if text == "0" then "0" else "-" + text
  }

  function NearestNat(x: real): (n: nat)
    requires x >= 0.0
    ensures n == Nearest(x)
  {
    NearestMonotone(0.0, x);
    assert Nearest(0.0) == 0;
    Nearest(x)
  }

  /** The report printer: a sign, no leading zeros, no trailing fraction zeros. */
  function NormalizeDecimalText(s: string): string {
    var value := TrimSpace(s);
    if value == "" then "0"
    else
      var signed := value[0] == '-' || value[0] == '+';
      var sign := if signed then value[..1] else "";
      var body := if signed then value[1..] else value;
      var stripped := TrimLeft(IntegerPart(body), '0');
      var integerPart := if stripped == "" then "0" else stripped;
      var fractionPart := TrimRight(FractionPart(body), '0');
      if integerPart == "0" && fractionPart == "" then "0"
      else sign + Compose(integerPart, fractionPart)
  }

  function Compose(whole: string, fraction: string): string {
    if fraction == "" then whole else whole + "." + fraction
  }
}
