/** Decimal numbers as Python holds, prints and reads them. */
module DecimalText {
  import opened Common
  import opened Text

  /** `coefficient` times ten to the `exponent`; zero has a sign too. */
  datatype Decimal = Decimal(negative: bool, coefficient: nat, exponent: int)

  function Scale(exponent: int): real {
    if exponent >= 0 then Pow10(exponent) as real else 1.0 / Pow10(-exponent) as real
  }

  function ValueOf(d: Decimal): real {
    (if d.negative then -1.0 else 1.0) * d.coefficient as real * Scale(d.exponent)
  }

  // ---------------------------------------------------------------- printing

  function PrintSigned(n: int): string {
    if n < 0 then "-" + Digits(-n) else "+" + Digits(n)
  }

  /** `str`: plain notation for the usual exponents, scientific notation otherwise. */
  function PrintMagnitude(coefficient: nat, exponent: int): string {
    var digits := Digits(coefficient);
    var left := exponent + |digits|;
    if exponent <= 0 && left > -6 then
      if left <= 0 then "0." + (Zeros(-left) + digits)
      else if left == |digits| then digits
      else digits[..left] + ("." + digits[left..])
    else
      digits[..1] + ((if |digits| > 1 then "." + digits[1..] else "") + ("E" + PrintSigned(left - 1)))
  }

  function Print(d: Decimal): string {
    (if d.negative then "-" else "") + PrintMagnitude(d.coefficient, d.exponent)
  }

  // ---------------------------------------------------------------- reading

  function WithoutUnderscores(s: string): string {
    if s == [] then [] else (if s[0] == '_' then [] else [s[0]]) + WithoutUnderscores(s[1..])
  }

  function ReadSigned(s: string): Option<int> {
    var signed := s != [] && (s[0] == '-' || s[0] == '+');
    var digits := if signed then s[1..] else s;
    if digits == [] || !AllDigits(digits) then None
    else
      var n: int := Value(digits);
      Some(if signed && s[0] == '-' then -n else n)
  }

  function ReadExponent(s: string): Option<int> {
    if s == [] then Some(0) else if s[0] == 'E' || s[0] == 'e' then ReadSigned(s[1..]) else None
  }

  function ReadParts(whole: string, fraction: string, rest: string, negative: bool): Option<Decimal>
    requires AllDigits(whole) && AllDigits(fraction)
  {
    var exponent := ReadExponent(rest);
    if whole + fraction == [] || exponent.None? then None
    else Some(Decimal(negative, Value(whole + fraction), exponent.value - |fraction|))
  }

  function ReadMagnitude(s: string, negative: bool): Option<Decimal> {
    var n := LeadingDigits(s);
    var rest := s[n..];
    if rest != [] && rest[0] == '.' then
      var m := LeadingDigits(rest[1..]);
      ReadParts(s[..n], rest[1..][..m], rest[1..][m..], negative)
    else ReadParts(s[..n], [], rest, negative)
  }

  /** `Decimal(text)` of ASCII text, where infinities and not-a-number are refused like any other text. */
  function Read(text: string): Option<Decimal> {
    var s := WithoutUnderscores(StripRight(StripLeft(text)));
    if s != [] && s[0] == '-' then ReadMagnitude(s[1..], true)
    else if s != [] && s[0] == '+' then ReadMagnitude(s[1..], false)
    else ReadMagnitude(s, false)
  }

  // ---------------------------------------------------------------- round trip

  lemma ReadPrintedExponent(n: int)
    ensures ReadExponent("E" + PrintSigned(n)) == Some(n)
  {
    hide Digits, Value;
    ValueOfDigits(if n < 0 then -n else n);
    var digits := Digits(if n < 0 then -n else n);
    var s := PrintSigned(n);
    assert ("E" + s)[1..] == s && s[1..] == digits;
  }

  lemma ReadPointed(whole: string, fraction: string, rest: string, negative: bool)
    requires AllDigits(whole) && AllDigits(fraction) && (rest == [] || !IsDigit(rest[0]))
    ensures ReadMagnitude(whole + ("." + (fraction + rest)), negative) == ReadParts(whole, fraction, rest, negative)
  {
    hide ReadParts, LeadingDigits;
    var tail := "." + (fraction + rest);
    var s := whole + tail;
    LeadingDigitsOf(whole, tail);
    assert s[|whole|..] == tail && s[..|whole|] == whole && tail[1..] == fraction + rest;
    LeadingDigitsOf(fraction, rest);
    assert (fraction + rest)[..|fraction|] == fraction && (fraction + rest)[|fraction|..] == rest;
  }

  lemma ReadWhole(whole: string, rest: string, negative: bool)
    requires AllDigits(whole) && (rest == [] || (!IsDigit(rest[0]) && rest[0] != '.'))
    ensures ReadMagnitude(whole + rest, negative) == ReadParts(whole, [], rest, negative)
  {
    hide ReadParts, LeadingDigits;
    LeadingDigitsOf(whole, rest);
    assert (whole + rest)[|whole|..] == rest && (whole + rest)[..|whole|] == whole;
  }

  lemma ReadPlain(coefficient: nat, exponent: int, negative: bool)
    requires exponent <= 0 && exponent + |Digits(coefficient)| > -6
    ensures ReadMagnitude(PrintMagnitude(coefficient, exponent), negative) == Some(Decimal(negative, coefficient, exponent))
  {
    hide Digits, Value, ReadMagnitude, AllDigits;
    var digits := Digits(coefficient);
    var left := exponent + |digits|;
    ValueOfDigits(coefficient);
    if left <= 0 {
      var fraction := Zeros(-left) + digits;
      AllDigitsJoin(Zeros(-left), digits);
      SomeDigits();
      ReadPointed("0", fraction, [], negative);
      assert "0" + ("." + (fraction + [])) == "0." + fraction;
      ValueAfterZeros(1 - left, digits);
      assert "0" + fraction == Zeros(1 - left) + digits;
    } else if left == |digits| {
      ReadWhole(digits, [], negative);
      assert digits + [] == digits;
    } else {
      AllDigitsCut(digits, left);
      ReadPointed(digits[..left], digits[left..], [], negative);
      assert digits[left..] + [] == digits[left..] && digits[..left] + digits[left..] == digits;
    }
  }

  lemma AllDigitsJoin(a: string, b: string)
    requires AllDigits(a) && AllDigits(b)
    ensures AllDigits(a + b)
  {
  }

  lemma AllDigitsCut(s: string, n: nat)
    requires AllDigits(s) && n <= |s|
    ensures AllDigits(s[..n]) && AllDigits(s[n..])
  {
  }

  lemma SomeDigits()
    ensures AllDigits("0") && AllDigits([])
  {
  }

  lemma ReadScientific(coefficient: nat, exponent: int, negative: bool)
    requires exponent > 0 || exponent + |Digits(coefficient)| <= -6
    ensures ReadMagnitude(PrintMagnitude(coefficient, exponent), negative) == Some(Decimal(negative, coefficient, exponent))
  {
    hide Digits, Value, ReadMagnitude, AllDigits, ReadExponent, PrintSigned;
    var digits := Digits(coefficient);
    var left := exponent + |digits|;
    var tail := "E" + PrintSigned(left - 1);
    ValueOfDigits(coefficient);
    ReadPrintedExponent(left - 1);
    SomeDigits();
    AllDigitsCut(digits, 1);
    assert digits[..1] + digits[1..] == digits;
    if |digits| > 1 {
      ReadPointed(digits[..1], digits[1..], tail, negative);
      assert "." + (digits[1..] + tail) == ("." + digits[1..]) + tail;
    } else {
      ReadWhole(digits[..1], tail, negative);
      assert "" + tail == tail;
    }
  }

  /** No white space and no underscore. */
  predicate Tight(s: string) {
    forall i :: 0 <= i < |s| ==> !IsSpace(s[i]) && s[i] != '_'
  }

  lemma {:induction false} TightIsKept(s: string)
    requires Tight(s)
    ensures WithoutUnderscores(s) == s && StripLeft(s) == s && StripRight(s) == s
    decreases |s|
  {
    if s != [] {
      TightIsKept(s[1..]);
    }
  }

  lemma TightDigits(s: string)
    requires AllDigits(s)
    ensures Tight(s)
  {
  }

  lemma PrintedIsTight(coefficient: nat, exponent: int)
    ensures Tight(PrintMagnitude(coefficient, exponent))
    ensures PrintMagnitude(coefficient, exponent) != [] && IsDigit(PrintMagnitude(coefficient, exponent)[0])
  {
    hide Digits;
    var digits := Digits(coefficient);
    var left := exponent + |digits|;
    TightDigits(digits);
    TightDigits(Zeros(if left < 0 then -left else 0));
    TightDigits(Digits(if left - 1 < 0 then 1 - left else left - 1));
  }

  /** Every decimal is read back as it was: sign, digits and exponent. */
  lemma DecimalRoundTrip(d: Decimal)
    ensures Print(d) != "" && Read(Print(d)) == Some(d)
  {
    hide PrintMagnitude, ReadMagnitude, StripLeft, StripRight, WithoutUnderscores, Digits;
    var magnitude := PrintMagnitude(d.coefficient, d.exponent);
    PrintedIsTight(d.coefficient, d.exponent);
    assert Tight(Print(d));
    TightIsKept(Print(d));
    assert ("-" + magnitude)[1..] == magnitude && "" + magnitude == magnitude;
    if d.exponent <= 0 && d.exponent + |Digits(d.coefficient)| > -6 {
      ReadPlain(d.coefficient, d.exponent, d.negative);
    } else {
      ReadScientific(d.coefficient, d.exponent, d.negative);
    }
  }

  /** Python's own spellings: plain down to six places after the point, scientific beyond and for positive exponents. */
  lemma KnownDecimals()
    ensures Print(Decimal(false, 1999, -2)) == "19.99" && Print(Decimal(true, 5, -2)) == "-0.05"
    ensures Print(Decimal(false, 0, 0)) == "0" && Print(Decimal(false, 0, -2)) == "0.00"
    ensures Print(Decimal(false, 1, -6)) == "0.000001" && Print(Decimal(false, 1, -7)) == "1E-7"
    ensures Print(Decimal(false, 12, 2)) == "1.2E+3"
  {
    KnownDigits();
    hide Digits, Zeros;
  }

  lemma KnownDigits()
    ensures Digits(1999) == "1999" && Digits(12) == "12" && Digits(3) == "3" && Digits(7) == "7"
    ensures Digits(0) == "0" && Digits(1) == "1" && Digits(5) == "5"
    ensures Zeros(0) == "" && Zeros(1) == "0" && Zeros(2) == "00" && Zeros(5) == "00000"
  {
    assert Digits(199) == "199";
    assert Zeros(3) == "000";
  }

  /** The number that a decimal stands for. */
  lemma KnownValues(d: Decimal)
    ensures d.exponent == 0 ==> ValueOf(d) == if d.negative then -(d.coefficient as real) else d.coefficient as real
    ensures d.exponent > 0 ==> ValueOf(d) == 10.0 * ValueOf(d.(exponent := d.exponent - 1))
    ensures d.exponent < 0 ==> 10.0 * ValueOf(d) == ValueOf(d.(exponent := d.exponent + 1))
  {
    hide Scale;
    var c := (if d.negative then -1.0 else 1.0) * d.coefficient as real;
    ScaleGrows(d.exponent);
    TenTimes(c, Scale(d.exponent));
    TenTimes(c, Scale(d.exponent - 1));
  }

  lemma TenTimes(c: real, x: real)
    ensures c * (10.0 * x) == 10.0 * (c * x)
  {
  }

  lemma ScaleGrows(exponent: int)
    ensures exponent == 0 ==> Scale(exponent) == 1.0
    ensures exponent > 0 ==> Scale(exponent) == 10.0 * Scale(exponent - 1)
    ensures exponent < 0 ==> 10.0 * Scale(exponent) == Scale(exponent + 1)
  {
    if exponent < 0 {
      TenthPart(Pow10(-exponent - 1));
    }
  }

  lemma TenthPart(n: nat)
    requires n >= 1
    ensures 10.0 * (1.0 / (10 * n) as real) == 1.0 / n as real
  {
    assert (10 * n) as real == 10.0 * n as real;
  }
}
