/** UUIDs as Python prints and reads them. */
module UuidText {
  import opened Common
  import opened Text

  const LIMIT := 0x1_0000_0000_0000_0000_0000_0000_0000_0000

  type Uuid = u: int | 0 <= u < LIMIT

  lemma LimitIsPow16()
    ensures Pow16(32) == LIMIT
  {
    assert Pow16(4) == 0x1_0000;
    assert Pow16(8) == 0x1_0000_0000;
    assert Pow16(12) == 0x1_0000_0000_0000;
    assert Pow16(16) == 0x1_0000_0000_0000_0000;
    assert Pow16(20) == 0x1_0000_0000_0000_0000_0000;
    assert Pow16(24) == 0x1_0000_0000_0000_0000_0000_0000;
    assert Pow16(28) == 0x1_0000_0000_0000_0000_0000_0000_0000;
  }

  // ---------------------------------------------------------------- text

  /** `str`: groups of 8, 4, 4, 4 and 12 digits. */
  function Print(u: Uuid): string {
    var h := Hex(u, 32);
    h[..8] + (['-'] + (h[8..12] + (['-'] + (h[12..16] + (['-'] + (h[16..20] + (['-'] + h[20..])))))))
  }

  /** Python's `replace` of a text by nothing. */
  function Without(s: string, pattern: string): string
    requires pattern != []
    decreases |s|
  {
    if s == [] then []
    else if |s| >= |pattern| && s[..|pattern|] == pattern then Without(s[|pattern|..], pattern)
    else [s[0]] + Without(s[1..], pattern)
  }

  predicate IsBrace(c: char) {
    c == '{' || c == '}'
  }

  function StripBraces(s: string): string
    decreases |s|
  {
    if s != [] && IsBrace(s[0]) then StripBraces(s[1..])
    else if s != [] && IsBrace(s[|s| - 1]) then StripBraces(s[..|s| - 1])
    else s
  }

  /** Digits with single underscores between them, and after a prefix one before them. */
  predicate HexGrouped(s: string, prefixed: bool) {
    && s != [] && IsHex(s[|s| - 1]) && (IsHex(s[0]) || (prefixed && s[0] == '_'))
    && (forall i :: 0 <= i < |s| ==> IsHex(s[i]) || s[i] == '_')
    && (forall i :: 0 < i < |s| ==> s[i] != '_' || s[i - 1] != '_')
  }

  function HexOnly(s: string): (r: string)
    ensures (forall i :: 0 <= i < |s| ==> IsHex(s[i]) || s[i] == '_') ==> forall i :: 0 <= i < |r| ==> IsHex(r[i])
    ensures (forall i :: 0 <= i < |s| ==> IsHex(s[i])) ==> r == s
    ensures |r| <= |s|
    decreases |s|
  {
    if s == [] then [] else (if s[0] == '_' then [] else [s[0]]) + HexOnly(s[1..])
  }

  function ReadMagnitude(s: string): Option<nat> {
    var prefixed := |s| >= 2 && s[0] == '0' && (s[1] == 'x' || s[1] == 'X');
    var body := if prefixed then s[2..] else s;
    if HexGrouped(body, prefixed) then Some(HexNumber(HexOnly(body))) else None
  }

  /** `int(text, 16)` of ASCII text. */
  function ReadHex(text: string): Option<int> {
    var s := StripRight(StripLeft(text));
    var signed := s != [] && (s[0] == '-' || s[0] == '+');
    var n := ReadMagnitude(if signed then s[1..] else s);
    if n.None? then None
    else
      var magnitude: int := n.value;
      Some(if signed && s[0] == '-' then -magnitude else magnitude)
  }

  /** `UUID(text)`. */
  function Read(text: string): Option<Uuid> {
    var digits := Without(StripBraces(Without(Without(text, "urn:"), "uuid:")), "-");
    if |digits| != 32 then None
    else
      var n := ReadHex(digits);
      if n.None? || !(0 <= n.value < LIMIT) then None else Some(n.value)
  }

  // ---------------------------------------------------------------- round trip

  predicate Dashed(s: string) {
    forall i :: 0 <= i < |s| ==> IsLower(s[i]) || s[i] == '-'
  }

  /** Neither prefix occurs in a printed UUID: both contain a `u`. */
  lemma {:induction false} NoPrefix(s: string, pattern: string)
    requires Dashed(s) && pattern != [] && pattern[0] == 'u'
    ensures Without(s, pattern) == s
    decreases |s|
  {
    if s != [] {
      NoPrefix(s[1..], pattern);
      assert |s| >= |pattern| ==> s[..|pattern|][0] == s[0];
    }
  }

  lemma {:induction false} NoDash(s: string, rest: string)
    requires Lower(s)
    ensures Without(s + rest, "-") == s + Without(rest, "-")
    decreases |s|
  {
    if s == [] {
      assert s + rest == rest;
    } else {
      var text := s + rest;
      assert text[1..] == s[1..] + rest && text[..1] == [s[0]];
      NoDash(s[1..], rest);
      assert [s[0]] + (s[1..] + Without(rest, "-")) == s + Without(rest, "-");
    }
  }

  lemma OneDash(rest: string)
    ensures Without(['-'] + rest, "-") == Without(rest, "-")
  {
    var s := ['-'] + rest;
    assert s[..1] == "-" && s[1..] == rest;
  }

  lemma DashesGo(u: Uuid)
    ensures Without(Print(u), "-") == Hex(u, 32)
  {
    hide Without, Hex;
    var h := Hex(u, 32);
    var r4 := h[20..];
    var r3 := h[16..20] + (['-'] + r4);
    var r2 := h[12..16] + (['-'] + r3);
    var r1 := h[8..12] + (['-'] + r2);
    NoDash(h[..8], ['-'] + r1);
    OneDash(r1);
    NoDash(h[8..12], ['-'] + r2);
    OneDash(r2);
    NoDash(h[12..16], ['-'] + r3);
    OneDash(r3);
    NoDash(h[16..20], ['-'] + r4);
    OneDash(r4);
    NoDash(r4, []);
    NothingLeft();
    assert r4 + [] == r4;
    assert h[..8] + (h[8..12] + (h[12..16] + (h[16..20] + r4))) == h;
  }

  lemma NothingLeft()
    ensures Without([], "-") == []
  {
  }

  lemma PrintedIsDashed(u: Uuid)
    ensures Dashed(Print(u)) && |Print(u)| == 36
  {
    hide Hex;
  }

  lemma DashedIsBare(s: string)
    requires Dashed(s)
    ensures StripBraces(s) == s && Without(s, "urn:") == s && Without(s, "uuid:") == s
  {
    NoPrefix(s, "urn:");
    NoPrefix(s, "uuid:");
  }

  lemma LowerIsHex(s: string)
    requires Lower(s)
    ensures forall i :: 0 <= i < |s| ==> IsHex(s[i]) && !IsSpace(s[i])
    ensures forall i :: 0 <= i < |s| ==> s[i] != '-' && s[i] != '+' && s[i] != 'x' && s[i] != 'X' && s[i] != '_'
  {
  }

  lemma NothingToStrip(s: string)
    requires s != [] && !IsSpace(s[0]) && !IsSpace(s[|s| - 1])
    ensures StripRight(StripLeft(s)) == s
  {
  }

  lemma ReadMagnitudeOf(s: string)
    requires Lower(s) && s != []
    ensures (forall i :: 0 <= i < |s| ==> IsHex(s[i])) && ReadMagnitude(s) == Some(HexNumber(s))
  {
    LowerIsHex(s);
    hide Lower, IsHex, HexNumber, HexOnly;
    assert s[|s| - 1] != '_' && (|s| >= 2 ==> s[1] != 'x' && s[1] != 'X');
    assert HexGrouped(s, false);
  }

  lemma ReadHexOf(s: string)
    requires Lower(s) && s != []
    ensures (forall i :: 0 <= i < |s| ==> IsHex(s[i])) && ReadHex(s) == Some(HexNumber(s))
  {
    LowerIsHex(s);
    ReadMagnitudeOf(s);
    NothingToStrip(s);
    hide Lower, IsHex, IsSpace, HexNumber, ReadMagnitude, StripLeft, StripRight;
    assert s[0] != '-' && s[0] != '+';
  }

  /** Every UUID is read back. */
  lemma UuidRoundTrip(u: Uuid)
    ensures Print(u) != "" && Read(Print(u)) == Some(u)
  {
    hide Hex, HexNumber, ReadHex, Without, StripBraces, Pow16;
    PrintedIsDashed(u);
    DashedIsBare(Print(u));
    DashesGo(u);
    LimitIsPow16();
    HexRoundTrip(u, 32);
    ReadHexOf(Hex(u, 32));
  }

  /** Thirty-two digits in groups of eight, four, four, four and twelve. */
  lemma UuidShape(u: Uuid)
    ensures |Print(u)| == 36
    ensures forall i :: 0 <= i < 36 ==> (Print(u)[i] == '-' <==> i in {8, 13, 18, 23})
  {
    hide Hex;
  }

}
