/** Decimal numbers and separated fields, as Python prints and reads them. */
module Text {
  import opened Common

  predicate IsDigit(c: char) {
    '0' <= c <= '9'
  }

  predicate AllDigits(s: string) {
    forall i :: 0 <= i < |s| ==> IsDigit(s[i])
  }

  function Digit(d: nat): (c: char)
    requires d < 10
    ensures IsDigit(c) && DigitValue(c) == d
  {
    ('0' as int + d) as char
  }

  function DigitValue(c: char): (d: nat)
    requires IsDigit(c)
    ensures d < 10
  {
    c as int - '0' as int
  }

  /** `str(n)`. */
  function Digits(n: nat): (s: string)
    ensures s != [] && AllDigits(s)
  {
    if n < 10 then [Digit(n)] else Digits(n / 10) + [Digit(n % 10)]
  }

  function Value(s: string): nat
    requires AllDigits(s)
  {
    if s == [] then 0 else 10 * Value(s[..|s| - 1]) + DigitValue(s[|s| - 1])
  }

  /** No leading zero, except for zero itself. */
  predicate Canonical(s: string) {
    AllDigits(s) && s != [] && (|s| > 1 ==> s[0] != '0')
  }

  lemma {:induction false} ValueOfDigits(n: nat)
    ensures Value(Digits(n)) == n && Canonical(Digits(n)) && (n > 0 ==> Digits(n)[0] != '0')
  {
    if n >= 10 {
      ValueOfDigits(n / 10);
      assert Digits(n)[..|Digits(n)| - 1] == Digits(n / 10);
    } else {
      assert Digits(n)[..0] == [];
    }
  }

  /** `str` of an integer. */
  function Print(i: int): string {
    if i < 0 then "-" + Digits(-i) else Digits(i)
  }

  predicate IsSpace(c: char) {
    c == ' ' || '\t' <= c <= '\r' || '\U{001c}' <= c <= '\U{001f}'
  }

  function StripLeft(s: string): string
    decreases |s|
  {
    if s != [] && IsSpace(s[0]) then StripLeft(s[1..]) else s
  }

  function StripRight(s: string): string
    decreases |s|
  {
    if s != [] && IsSpace(s[|s| - 1]) then StripRight(s[..|s| - 1]) else s
  }

  /** Digits, with single underscores between them. */
  predicate Grouped(s: string) {
    && s != [] && IsDigit(s[0]) && IsDigit(s[|s| - 1])
    && (forall i :: 0 <= i < |s| ==> IsDigit(s[i]) || s[i] == '_')
    && (forall i :: 0 < i < |s| ==> s[i] != '_' || s[i - 1] != '_')
  }

  function DigitsOnly(s: string): (r: string)
    ensures (forall i :: 0 <= i < |s| ==> IsDigit(s[i]) || s[i] == '_') ==> AllDigits(r)
    ensures AllDigits(s) ==> r == s
    decreases |s|
  {
    if s == [] then []
    else
      assert AllDigits(s) ==> AllDigits(s[1..]);
      (if s[0] == '_' then [] else [s[0]]) + DigitsOnly(s[1..])
  }

  /** Python's `int` on ASCII text. */
  function ParseInt(text: string): Option<int> {
    var s := StripRight(StripLeft(text));
    if s != [] && s[0] == '-' then ParseMagnitude(s[1..], -1)
    else if s != [] && s[0] == '+' then ParseMagnitude(s[1..], 1)
    else ParseMagnitude(s, 1)
  }

  function ParseMagnitude(s: string, sign: int): Option<int> {
    if Grouped(s) then Some(sign * Value(DigitsOnly(s))) else None
  }

  lemma PlainDigits(s: string)
    requires AllDigits(s) && s != []
    ensures Grouped(s) && DigitsOnly(s) == s && StripRight(s) == s && StripLeft(s) == s
    ensures StripRight("-" + s) == "-" + s && StripLeft("-" + s) == "-" + s
  {
    assert IsDigit(s[|s| - 1]) && IsDigit(s[0]);
    assert ("-" + s)[|s|] == s[|s| - 1];
  }

  lemma ParsePrinted(i: int)
    ensures ParseInt(Print(i)) == Some(i)
  {
    hide Grouped, Digits, StripLeft, StripRight, DigitsOnly, Value;
    var digits := Digits(if i < 0 then -i else i);
    ValueOfDigits(if i < 0 then -i else i);
    PlainDigits(digits);
    assert IsDigit(digits[0]);
    assert ("-" + digits)[1..] == digits;
  }

  function Pow10(n: nat): (r: nat)
    ensures r >= 1
  {
    if n == 0 then 1 else 10 * Pow10(n - 1)
  }

  /** How many digits a text begins with. */
  function LeadingDigits(s: string): (n: nat)
    ensures n <= |s| && AllDigits(s[..n])
    decreases |s|
  {
    if s == [] || !IsDigit(s[0]) then 0
    else
      var n := LeadingDigits(s[1..]);
      assert s[..n + 1] == [s[0]] + s[1..][..n];
      n + 1
  }

  lemma {:induction false} LeadingDigitsOf(digits: string, rest: string)
    requires AllDigits(digits) && (rest == [] || !IsDigit(rest[0]))
    ensures LeadingDigits(digits + rest) == |digits|
    decreases |digits|
  {
    if digits == [] {
      assert digits + rest == rest;
    } else {
      assert (digits + rest)[1..] == digits[1..] + rest;
      LeadingDigitsOf(digits[1..], rest);
    }
  }

  function Zeros(n: nat): (s: string)
    ensures |s| == n && AllDigits(s)
  {
    seq(n, _ => '0')
  }

  /** Zeros in front count for nothing. */
  lemma {:induction false} ValueAfterZeros(n: nat, s: string)
    requires AllDigits(s)
    ensures Value(Zeros(n) + s) == Value(s)
    decreases |s|, n
  {
    if s != [] {
      ValueAfterZeros(n, s[..|s| - 1]);
      assert (Zeros(n) + s)[..n + |s| - 1] == Zeros(n) + s[..|s| - 1];
    } else if n > 0 {
      ValueAfterZeros(n - 1, []);
      assert (Zeros(n) + s)[..n - 1] == Zeros(n - 1) + [];
    }
  }

  // ---------------------------------------------------------------- hexadecimal numbers

  predicate IsHex(c: char) {
    '0' <= c <= '9' || 'a' <= c <= 'f' || 'A' <= c <= 'F'
  }

  function HexValue(c: char): (d: nat)
    requires IsHex(c)
    ensures d < 16
  {
    if '0' <= c <= '9' then c as int - '0' as int
    else if 'a' <= c <= 'f' then c as int - 'a' as int + 10
    else c as int - 'A' as int + 10
  }

  function HexDigit(d: nat): (c: char)
    requires d < 16
    ensures IsHex(c) && HexValue(c) == d && IsLower(c)
  {
    if d < 10 then ('0' as int + d) as char else ('a' as int + (d - 10)) as char
  }

  predicate IsLower(c: char) {
    '0' <= c <= '9' || 'a' <= c <= 'f'
  }

  predicate Lower(s: string) {
    forall i :: 0 <= i < |s| ==> IsLower(s[i])
  }

  /** Lower-case digits, padded with zeros. */
  function Hex(n: nat, width: nat): (s: string)
    ensures |s| == width && Lower(s)
  {
    if width == 0 then [] else Hex(n / 16, width - 1) + [HexDigit(n % 16)]
  }

  function HexNumber(s: string): nat
    requires forall i :: 0 <= i < |s| ==> IsHex(s[i])
  {
    if s == [] then 0 else 16 * HexNumber(s[..|s| - 1]) + HexValue(s[|s| - 1])
  }

  function Pow16(n: nat): nat {
    if n == 0 then 1 else 16 * Pow16(n - 1)
  }

  lemma {:induction false} HexRoundTrip(n: nat, width: nat)
    requires n < Pow16(width)
    ensures HexNumber(Hex(n, width)) == n
  {
    if width > 0 {
      HexRoundTrip(n / 16, width - 1);
      assert Hex(n, width)[..width - 1] == Hex(n / 16, width - 1);
    }
  }

  lemma {:induction false} HexIsBounded(s: string)
    requires forall i :: 0 <= i < |s| ==> IsHex(s[i])
    ensures HexNumber(s) < Pow16(|s|)
    decreases |s|
  {
    if s != [] {
      HexIsBounded(s[..|s| - 1]);
    }
  }

  // ---------------------------------------------------------------- separated fields

  /** Python's `split` on one character. */
  function Split(s: string, separator: char): (parts: seq<string>)
    ensures parts != []
    decreases |s|
  {
    if s == [] then [[]]
    else if s[0] == separator then [[]] + Split(s[1..], separator)
    else
      var rest := Split(s[1..], separator);
      [[s[0]] + rest[0]] + rest[1..]
  }

  lemma {:induction false} SplitField(field: string, rest: string, separator: char)
    requires separator !in field
    ensures Split(field + [separator] + rest, separator) == [field] + Split(rest, separator)
    decreases |field|
  {
    var s := field + [separator] + rest;
    if field == [] {
      assert s[1..] == rest;
    } else {
      assert s[1..] == field[1..] + [separator] + rest;
      SplitField(field[1..], rest, separator);
      assert [field[0]] + field[1..] == field;
    }
  }

  lemma {:induction false} SplitLast(field: string, separator: char)
    requires separator !in field
    ensures Split(field, separator) == [field]
    decreases |field|
  {
    if field != [] {
      SplitLast(field[1..], separator);
      assert [field[0]] + field[1..] == field;
    }
  }

  function Joined(parts: seq<string>, separator: char): string
    requires parts != []
  {
    if |parts| == 1 then parts[0] else parts[0] + [separator] + Joined(parts[1..], separator)
  }

  /** Joining undoes splitting. */
  lemma {:induction false} SplitIsJoined(s: string, separator: char)
    ensures Joined(Split(s, separator), separator) == s
    ensures forall i :: 0 <= i < |Split(s, separator)| ==> separator !in Split(s, separator)[i]
  {
    if s != [] {
      var rest := Split(s[1..], separator);
      SplitIsJoined(s[1..], separator);
      if s[0] == separator {
        assert ([[]] + rest)[1..] == rest;
      } else {
        var parts := [[s[0]] + rest[0]] + rest[1..];
        assert parts[1..] == rest[1..];
        assert Split(s, separator) == parts;
      }
    }
  }

  /** Splitting a text at two separators gives three fields, exactly when the fields hold none. */
  lemma SplitInThreeIff(s: string, a: string, b: string, c: string, separator: char)
    ensures Split(s, separator) == [a, b, c]
            <==> separator !in a && separator !in b && separator !in c && s == a + [separator] + (b + [separator] + c)
  {
    hide Split;
    SplitIsJoined(s, separator);
    if Split(s, separator) == [a, b, c] {
      assert separator !in Split(s, separator)[0] && separator !in Split(s, separator)[1] && separator !in Split(s, separator)[2];
      assert [a, b, c][1..] == [b, c] && [b, c][1..] == [c];
      assert Joined([b, c], separator) == b + [separator] + c;
    } else if separator !in a && separator !in b && separator !in c && s == a + [separator] + (b + [separator] + c) {
      SplitField(a, b + [separator] + c, separator);
      SplitField(b, c, separator);
      SplitLast(c, separator);
    }
  }

  lemma PrintHasNoColon(i: int)
    ensures ':' !in Print(i)
  {
  }
}
