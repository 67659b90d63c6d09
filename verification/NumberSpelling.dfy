/**
 What Python's `int`, `Decimal` and `UUID` take for a number, as a grammar: white space around it, a sign, digits in
 groups. The readers accept exactly these texts, each as the number it spells.
 */
module NumberSpelling {
  import opened Common
  import opened Text
  import DecimalText
  import UuidText

  // ---------------------------------------------------------------- white space around a text

  const SPACES := " \t\n\U{000B}\U{000C}\r\U{001C}\U{001D}\U{001E}\U{001F}"

  predicate Spaces(s: string) {
    forall i :: 0 <= i < |s| ==> s[i] in SPACES
  }

  lemma SpaceIff(c: char)
    ensures IsSpace(c) <==> c in SPACES
  {
    var code := c as int;
    if 9 <= code <= 13 {
      assert c == SPACES[1] || c == SPACES[2] || c == SPACES[3] || c == SPACES[4] || c == SPACES[5];
    } else if 28 <= code <= 31 {
      assert c == SPACES[6] || c == SPACES[7] || c == SPACES[8] || c == SPACES[9];
    } else if code == 32 {
      assert c == SPACES[0];
    }
  }

  function Strip(s: string): string {
    StripRight(StripLeft(s))
  }

  /** Nothing to strip. */
  predicate Bare(s: string) {
    s != [] ==> !IsSpace(s[0]) && !IsSpace(s[|s| - 1])
  }

  lemma {:induction false} LeftStripped(s: string) returns (left: string)
    ensures Spaces(left) && s == left + StripLeft(s) && (StripLeft(s) != [] ==> !IsSpace(StripLeft(s)[0]))
    decreases |s|
  {
    left := [];
    if s != [] && IsSpace(s[0]) {
      SpaceIff(s[0]);
      left := LeftStripped(s[1..]);
      left := [s[0]] + left;
    }
  }

  lemma {:induction false} RightStripped(s: string) returns (right: string)
    ensures Spaces(right) && s == StripRight(s) + right && (StripRight(s) != [] ==> !IsSpace(StripRight(s)[|StripRight(s)| - 1]))
    decreases |s|
  {
    right := [];
    if s != [] && IsSpace(s[|s| - 1]) {
      SpaceIff(s[|s| - 1]);
      right := RightStripped(s[..|s| - 1]);
      right := right + [s[|s| - 1]];
    }
  }

  lemma {:induction false} StripsLeft(left: string, s: string)
    requires Spaces(left) && (s != [] ==> !IsSpace(s[0]))
    ensures StripLeft(left + s) == s
    decreases |left|
  {
    if left == [] {
      assert left + s == s;
    } else {
      assert (left + s)[1..] == left[1..] + s;
      SpaceIff(left[0]);
      StripsLeft(left[1..], s);
    }
  }

  lemma {:induction false} StripsRight(s: string, right: string)
    requires Spaces(right) && (s != [] ==> !IsSpace(s[|s| - 1]))
    ensures StripRight(s + right) == s
    decreases |right|
  {
    if right == [] {
      assert s + right == s;
    } else {
      assert (s + right)[..|s + right| - 1] == s + right[..|right| - 1];
      SpaceIff(right[|right| - 1]);
      StripsRight(s, right[..|right| - 1]);
    }
  }

  predicate Padded(text: string, left: string, core: string, right: string) {
    text == left + core + right && Spaces(left) && Spaces(right) && Bare(core)
  }

  lemma Stripped(text: string) returns (left: string, right: string)
    ensures Padded(text, left, Strip(text), right)
  {
    left := LeftStripped(text);
    right := RightStripped(StripLeft(text));
    hide StripLeft, StripRight;
    assert text == left + (Strip(text) + right);
    if Strip(text) != [] {
      assert StripLeft(text)[0] == Strip(text)[0];
    }
  }

  lemma PaddedStrips(text: string, left: string, core: string, right: string)
    requires Padded(text, left, core, right)
    ensures Strip(text) == core
  {
    hide StripLeft, StripRight;
    if core == [] {
      assert text == (left + right) + [];
      StripsLeft(left + right, []);
      StripsRight([], []);
      assert core + [] == core;
    } else {
      assert text == left + (core + right);
      StripsLeft(left, core + right);
      StripsRight(core, right);
    }
  }

  /** Stripping takes off the white space at both ends, and nothing else. */
  lemma StripIff(text: string, core: string)
    ensures Strip(text) == core <==> exists left, right :: Padded(text, left, core, right)
  {
    hide Strip, Padded;
    var left, right := Stripped(text);
    if left, right :| Padded(text, left, core, right) {
      PaddedStrips(text, left, core, right);
    }
  }

  // ---------------------------------------------------------------- digits in groups

  function Flat(runs: seq<string>): string {
    if runs == [] then [] else runs[0] + Flat(runs[1..])
  }

  predicate Each(s: string, kind: char -> bool) {
    forall i :: 0 <= i < |s| ==> kind(s[i])
  }

  predicate EachRun(runs: seq<string>, kind: char -> bool) {
    forall i :: 0 <= i < |runs| ==> runs[i] != [] && Each(runs[i], kind)
  }

  /** Characters of a kind, with single underscores between them. */
  predicate Clustered(s: string, kind: char -> bool) {
    && s != [] && kind(s[0]) && kind(s[|s| - 1])
    && (forall i :: 0 <= i < |s| ==> kind(s[i]) || s[i] == '_')
    && (forall i :: 0 < i < |s| ==> s[i] != '_' || s[i - 1] != '_')
  }

  lemma {:induction false} ClusteredIff(s: string, kind: char -> bool)
    requires !kind('_')
    ensures Clustered(s, kind) <==> EachRun(Split(s, '_'), kind)
    decreases |s|
  {
    var parts := Split(s, '_');
    if s == [] || s[0] == '_' {
      assert parts[0] == [];
    } else {
      var t := s[1..];
      var rest := Split(t, '_');
      assert Each([s[0]], kind) <==> kind(s[0]) by { assert [s[0]][0] == s[0]; }
      assert s == [s[0]] + t && parts == [[s[0]] + rest[0]] + rest[1..];
      if t == [] {
        assert rest == [[]] && [s[0]] + rest[0] == [s[0]];
        assert parts == [[s[0]]] && parts[0] == [s[0]];
      } else if t[0] == '_' {
        var others := Split(t[1..], '_');
        assert rest == [[]] + others && [s[0]] + rest[0] == [s[0]];
        assert parts == [[s[0]]] + others;
        ClusteredIff(t[1..], kind);
        GroupMore(s[0], t, kind);
        RunsMore([s[0]], others, kind);
      } else {
        ClusteredIff(t, kind);
        OneMore(s[0], t, kind);
        assert rest[0] != [];
        LongerRun(s[0], rest, kind);
      }
    }
  }

  lemma GroupMore(c: char, t: string, kind: char -> bool)
    requires !kind('_') && t != [] && t[0] == '_' && c != '_'
    ensures Clustered([c] + t, kind) <==> kind(c) && Clustered(t[1..], kind)
  {
    var s := [c] + t;
    if kind(c) && Clustered(t[1..], kind) {
      forall i | 0 <= i < |s|
        ensures kind(s[i]) || s[i] == '_'
        ensures i > 0 ==> s[i] != '_' || s[i - 1] != '_'
      {
        if i >= 2 {
          assert s[i] == t[1..][i - 2];
        }
      }
    }
    if Clustered(s, kind) {
      assert s[1] == '_' && |s| > 2;
      forall i | 0 <= i < |t[1..]|
        ensures kind(t[1..][i]) || t[1..][i] == '_'
        ensures i > 0 ==> t[1..][i] != '_' || t[1..][i - 1] != '_'
      {
        assert t[1..][i] == s[i + 2] && (i > 0 ==> t[1..][i - 1] == s[i + 1]);
      }
      assert s[2] != '_';
    }
  }

  lemma OneMore(c: char, t: string, kind: char -> bool)
    requires !kind('_') && t != [] && t[0] != '_' && c != '_'
    ensures Clustered([c] + t, kind) <==> kind(c) && Clustered(t, kind)
  {
    var s := [c] + t;
    assert forall i :: 0 <= i < |t| ==> t[i] == s[i + 1];
    if Clustered(s, kind) {
      forall i | 0 <= i < |t|
        ensures kind(t[i]) || t[i] == '_'
        ensures i > 0 ==> t[i] != '_' || t[i - 1] != '_'
      {
        assert t[i] == s[i + 1];
      }
    }
  }

  lemma RunsMore(run: string, runs: seq<string>, kind: char -> bool)
    requires run != []
    ensures EachRun([run] + runs, kind) <==> Each(run, kind) && EachRun(runs, kind)
  {
    assert forall i :: 0 <= i < |runs| ==> ([run] + runs)[i + 1] == runs[i];
    assert ([run] + runs)[0] == run;
  }

  lemma LongerRun(c: char, runs: seq<string>, kind: char -> bool)
    requires runs != [] && runs[0] != []
    ensures EachRun([[c] + runs[0]] + runs[1..], kind) <==> kind(c) && EachRun(runs, kind)
  {
    RunsMore([c] + runs[0], runs[1..], kind);
    RunsMore(runs[0], runs[1..], kind);
    assert runs == [runs[0]] + runs[1..];
    var longer := [c] + runs[0];
    assert forall i :: 0 <= i < |runs[0]| ==> longer[i + 1] == runs[0][i];
    assert longer[0] == c;
  }

  lemma NoUnderscore(run: string, kind: char -> bool)
    requires Each(run, kind) && !kind('_')
    ensures '_' !in run
  {
  }

  lemma {:induction false} SplitOfJoined(runs: seq<string>, kind: char -> bool)
    requires runs != [] && EachRun(runs, kind) && !kind('_')
    ensures Split(Joined(runs, '_'), '_') == runs
    decreases |runs|
  {
    hide Split, Each;
    NoUnderscore(runs[0], kind);
    if |runs| == 1 {
      SplitLast(runs[0], '_');
      assert runs == [runs[0]];
    } else {
      var rest := runs[1..];
      SplitField(runs[0], Joined(rest, '_'), '_');
      SplitOfJoined(rest, kind);
      assert runs == [runs[0]] + rest;
    }
  }

  /** Texts in groups, and the runs they are made of. */
  lemma RunsIff(s: string, runs: seq<string>, kind: char -> bool)
    requires !kind('_')
    ensures runs != [] && EachRun(runs, kind) && s == Joined(runs, '_') <==> Clustered(s, kind) && runs == Split(s, '_')
  {
    hide Clustered, Joined, Split;
    ClusteredIff(s, kind);
    SplitIsJoined(s, '_');
    if runs != [] && EachRun(runs, kind) && s == Joined(runs, '_') {
      SplitOfJoined(runs, kind);
    }
  }

  lemma {:induction false} FlatSplit(s: string)
    ensures DigitsOnly(s) == Flat(Split(s, '_')) && UuidText.HexOnly(s) == Flat(Split(s, '_'))
    decreases |s|
  {
    if s != [] {
      FlatSplit(s[1..]);
      var rest := Split(s[1..], '_');
      if s[0] == '_' {
        assert ([[]] + rest)[1..] == rest;
      } else {
        var parts := [[s[0]] + rest[0]] + rest[1..];
        assert parts[1..] == rest[1..] && Split(s, '_') == parts;
      }
    }
  }

  lemma {:induction false} FlatEach(runs: seq<string>, kind: char -> bool)
    requires EachRun(runs, kind)
    ensures Each(Flat(runs), kind)
  {
    if runs != [] {
      FlatEach(runs[1..], kind);
    }
  }

  // ---------------------------------------------------------------- int

  predicate IsSign(sign: string) {
    sign == "" || sign == "+" || sign == "-"
  }

  function Signed(sign: string, n: nat): int {
    var m: int := n;
    if sign == "-" then -m else m
  }

  /** White space, a sign, a prefix, digits in runs, and white space. */
  datatype Numeral = Numeral(left: string, sign: string, prefix: string, runs: seq<string>, right: string)

  function CoreText(p: Numeral): string
    requires p.runs != []
  {
    p.sign + (p.prefix + Joined(p.runs, '_'))
  }

  predicate IsNumeral(text: string, p: Numeral, kind: char -> bool) {
    && p.runs != [] && EachRun(p.runs, kind) && IsSign(p.sign) && Spaces(p.left) && Spaces(p.right)
    && text == p.left + CoreText(p) + p.right
  }

  predicate SpellsInt(text: string, p: Numeral, n: int) {
    IsNumeral(text, p, IsDigit) && p.prefix == "" && AllDigits(Flat(p.runs)) && n == Signed(p.sign, Value(Flat(p.runs)))
  }

  lemma StripAgain(text: string)
    ensures Strip(Strip(text)) == Strip(text) && Bare(Strip(text))
  {
    hide Strip;
    StripIff(text, Strip(text));
    var core := Strip(text);
    assert [] + core + [] == core;
    assert Padded(core, [], core, []);
    StripIff(core, core);
  }

  lemma GroupedIsClustered(s: string)
    ensures Grouped(s) <==> Clustered(s, IsDigit)
  {
  }

  lemma EachDigit(s: string)
    ensures AllDigits(s) <==> Each(s, IsDigit)
  {
  }

  /** A sign and a text that starts and ends with a digit have no white space at their ends. */
  lemma SignedIsBare(sign: string, body: string, kind: char -> bool)
    requires IsSign(sign) && Clustered(body, kind) && forall c :: kind(c) ==> IsHex(c)
    ensures Bare(sign + body) && body[0] != '-' && body[0] != '+'
  {
    assert kind(body[0]) && kind(body[|body| - 1]);
    assert (sign + body)[|sign + body| - 1] == body[|body| - 1];
  }

  /** The number that a core spells. */
  lemma CoreSpellsInt(core: string, sign: string, runs: seq<string>, n: int)
    requires IsSign(sign) && runs != [] && EachRun(runs, IsDigit) && core == sign + Joined(runs, '_')
    requires Strip(core) == core
    ensures Each(Flat(runs), IsDigit) && (ParseInt(core) == Some(n) <==> n == Signed(sign, Value(Flat(runs))))
  {
    hide Clustered, Joined, Split, Grouped, DigitsOnly, Value, StripLeft, StripRight;
    var body := Joined(runs, '_');
    RunsIff(body, runs, IsDigit);
    FlatEach(runs, IsDigit);
    FlatSplit(body);
    EachDigit(Flat(runs));
    GroupedIsClustered(body);
    SignedIsBare(sign, body, IsDigit);
    if sign != "" {
      assert core[1..] == body;
    } else {
      assert core == body;
    }
  }

  /** What is left of a text without the white space around it. */
  lemma NumeralStrips(text: string, p: Numeral, kind: char -> bool)
    requires IsNumeral(text, p, kind) && Bare(CoreText(p))
    ensures Strip(text) == CoreText(p)
  {
    hide Strip, Joined, Bare;
    assert Padded(text, p.left, CoreText(p), p.right);
    StripIff(text, CoreText(p));
  }

  lemma NumeralOf(text: string, sign: string, prefix: string, runs: seq<string>, kind: char -> bool) returns (p: Numeral)
    requires runs != [] && EachRun(runs, kind) && IsSign(sign) && Strip(text) == sign + (prefix + Joined(runs, '_'))
    ensures IsNumeral(text, p, kind) && p.sign == sign && p.prefix == prefix && p.runs == runs
  {
    hide Strip, Joined, Bare;
    var core := sign + (prefix + Joined(runs, '_'));
    StripIff(text, core);
    var left, right :| Padded(text, left, core, right);
    p := Numeral(left, sign, prefix, runs, right);
  }

  /** `int` takes a text for a number if and only if the grammar spells it so. */
  lemma ParseIntIff(text: string, n: int)
    ensures ParseInt(text) == Some(n) <==> exists p :: SpellsInt(text, p, n)
  {
    hide Clustered, Joined, Split, Grouped, DigitsOnly, Value, StripLeft, StripRight, Bare, IsNumeral, EachRun, Flat;
    var core := Strip(text);
    StripAgain(text);
    if ParseInt(text) == Some(n) {
      var sign := if core != [] && core[0] in "+-" then [core[0]] else "";
      var body := core[|sign|..];
      assert core == sign + body && IsSign(sign);
      var runs := Split(body, '_');
      GroupedIsClustered(body);
      RunsIff(body, runs, IsDigit);
      CoreSpellsInt(core, sign, runs, n);
      assert "" + body == body;
      var p := NumeralOf(text, sign, "", runs, IsDigit);
      EachDigit(Flat(runs));
      assert SpellsInt(text, p, n);
    }
    if p :| SpellsInt(text, p, n) {
      NumeralParses(text, p, n);
    }
  }

  lemma NumeralParses(text: string, p: Numeral, n: int)
    requires SpellsInt(text, p, n)
    ensures ParseInt(text) == Some(n)
  {
    hide Clustered, Joined, Split, Grouped, DigitsOnly, Value, StripLeft, StripRight, Bare, EachRun, Flat;
    var body := Joined(p.runs, '_');
    assert CoreText(p) == p.sign + body;
    RunsIff(body, p.runs, IsDigit);
    SignedIsBare(p.sign, body, IsDigit);
    NumeralStrips(text, p, IsDigit);
    StripAgain(text);
    CoreSpellsInt(p.sign + body, p.sign, p.runs, n);
  }

  // ---------------------------------------------------------------- hexadecimal

  predicate HexText(s: string) {
    forall i :: 0 <= i < |s| ==> IsHex(s[i])
  }

  /** After the prefix, one underscore may come before the digits too. */
  predicate IsPrefix(prefix: string) {
    prefix == "" || prefix == "0x" || prefix == "0X" || prefix == "0x_" || prefix == "0X_"
  }

  predicate SpellsHex(text: string, p: Numeral, n: int) {
    && IsNumeral(text, p, IsHex) && IsPrefix(p.prefix)
    && HexText(Flat(p.runs)) && n == Signed(p.sign, HexNumber(Flat(p.runs)))
  }

  lemma HexGroupedIff(s: string, prefixed: bool)
    ensures UuidText.HexGrouped(s, prefixed)
            <==> Clustered(s, IsHex) || (prefixed && s != [] && s[0] == '_' && Clustered(s[1..], IsHex))
  {
    if s != [] && s[0] == '_' {
      var t := s[1..];
      assert forall i :: 0 <= i < |t| ==> t[i] == s[i + 1];
      if UuidText.HexGrouped(s, prefixed) {
        assert |s| > 1 && s[1] != '_';
        forall i | 0 <= i < |t|
          ensures IsHex(t[i]) || t[i] == '_'
          ensures i > 0 ==> t[i] != '_' || t[i - 1] != '_'
        {
          assert t[i] == s[i + 1];
        }
      }
      if prefixed && Clustered(t, IsHex) {
        forall i | 0 <= i < |s|
          ensures IsHex(s[i]) || s[i] == '_'
          ensures i > 0 ==> s[i] != '_' || s[i - 1] != '_'
        {
          if i > 1 {
            assert s[i] == t[i - 1] && s[i - 1] == t[i - 2];
          }
        }
        assert s[|s| - 1] == t[|t| - 1];
      }
    }
  }

  lemma EachHex(s: string)
    ensures HexText(s) <==> Each(s, IsHex)
  {
  }

  lemma NoMark(s: string)
    requires Clustered(s, IsHex)
    ensures |s| >= 2 ==> s[1] != 'x' && s[1] != 'X'
  {
    assert |s| >= 2 ==> IsHex(s[1]) || s[1] == '_';
  }

  lemma MagnitudeSpells(prefix: string, runs: seq<string>)
    requires IsPrefix(prefix) && runs != [] && EachRun(runs, IsHex)
    ensures HexText(Flat(runs))
    ensures UuidText.ReadMagnitude(prefix + Joined(runs, '_')) == Some(HexNumber(Flat(runs)))
  {
    hide Joined, Split, Clustered, HexNumber, Flat, EachRun, UuidText.HexGrouped;
    var body := Joined(runs, '_');
    var s := prefix + body;
    RunsIff(body, runs, IsHex);
    FlatEach(runs, IsHex);
    EachHex(Flat(runs));
    FlatSplit(body);
    if prefix == "" {
      assert s == body;
      NoMark(body);
      HexGroupedIff(body, false);
    } else {
      var rest := s[2..];
      if |prefix| == 2 {
        assert rest == body;
      } else {
        assert rest == ['_'] + body && rest[1..] == body;
        assert UuidText.HexOnly(rest) == UuidText.HexOnly(body);
      }
      HexGroupedIff(rest, true);
    }
  }

  /** The digits after a prefix or without one, and the underscore that may come before them. */
  lemma DigitsRead(body: string, prefixed: bool) returns (gap: string, runs: seq<string>)
    requires UuidText.HexGrouped(body, prefixed)
    ensures runs != [] && EachRun(runs, IsHex) && body == gap + Joined(runs, '_') && (gap == "" || (prefixed && gap == "_"))
  {
    hide Joined, Split, Clustered, EachRun, UuidText.HexGrouped, IsHex;
    HexGroupedIff(body, prefixed);
    gap := if Clustered(body, IsHex) then "" else "_";
    var digits := if Clustered(body, IsHex) then body else body[1..];
    assert body == gap + digits;
    assert !IsHex('_') by { NoHexUnderscore(); }
    runs := Split(digits, '_');
    RunsIff(digits, runs, IsHex);
  }

  lemma NoHexUnderscore()
    ensures !IsHex('_')
  {
  }

  lemma MagnitudeRead(s: string) returns (prefix: string, runs: seq<string>)
    requires UuidText.ReadMagnitude(s).Some?
    ensures IsPrefix(prefix) && runs != [] && EachRun(runs, IsHex) && s == prefix + Joined(runs, '_')
  {
    hide Joined, HexNumber, EachRun, IsPrefix, UuidText.HexGrouped, UuidText.HexOnly;
    var prefixed := |s| >= 2 && s[0] == '0' && (s[1] == 'x' || s[1] == 'X');
    var mark := if !prefixed then "" else if s[1] == 'x' then "0x" else "0X";
    var body := if prefixed then s[2..] else s;
    var gap;
    gap, runs := DigitsRead(body, prefixed);
    prefix := mark + gap;
    assert s == mark + body;
    Regrouped(mark, gap, Joined(runs, '_'));
    PrefixOf(mark, gap);
  }

  lemma Regrouped(a: string, b: string, c: string)
    ensures a + (b + c) == (a + b) + c
  {
  }

  lemma PrefixOf(mark: string, gap: string)
    requires mark == "" || mark == "0x" || mark == "0X"
    requires gap == "" || (mark != "" && gap == "_")
    ensures IsPrefix(mark + gap)
  {
    if gap == "" {
      assert mark + gap == mark;
    }
  }

  lemma HexParses(text: string, p: Numeral, n: int)
    requires SpellsHex(text, p, n)
    ensures UuidText.ReadHex(text) == Some(n)
  {
    hide Clustered, Joined, HexNumber, StripLeft, StripRight, EachRun, Flat, UuidText.ReadMagnitude, Bare;
    var body := p.prefix + Joined(p.runs, '_');
    CoreIsBare(p);
    NumeralStrips(text, p, IsHex);
    MagnitudeSpells(p.prefix, p.runs);
    if p.sign == "" {
      assert CoreText(p) == body;
    } else {
      assert CoreText(p)[1..] == body;
    }
  }

  lemma CoreIsBare(p: Numeral)
    requires p.runs != [] && EachRun(p.runs, IsHex) && IsSign(p.sign) && IsPrefix(p.prefix)
    ensures var body := p.prefix + Joined(p.runs, '_');
            Bare(CoreText(p)) && body != [] && body[0] != '-' && body[0] != '+'
  {
    hide Joined, EachRun, Split;
    var digits := Joined(p.runs, '_');
    RunsIff(digits, p.runs, IsHex);
    assert IsHex(digits[0]) && IsHex(digits[|digits| - 1]);
    assert CoreText(p)[|CoreText(p)| - 1] == digits[|digits| - 1];
  }

  /** `int` of base 16, likewise. */
  lemma ReadHexIff(text: string, n: int)
    ensures UuidText.ReadHex(text) == Some(n) <==> exists p :: SpellsHex(text, p, n)
  {
    hide Joined, HexNumber, StripLeft, StripRight, EachRun, Flat, UuidText.ReadMagnitude, IsNumeral;
    if UuidText.ReadHex(text) == Some(n) {
      var core := Strip(text);
      var sign := if core != [] && core[0] in "+-" then [core[0]] else "";
      var body := core[|sign|..];
      assert core == sign + body && IsSign(sign);
      var prefix, runs := MagnitudeRead(body);
      MagnitudeSpells(prefix, runs);
      var p := NumeralOf(text, sign, prefix, runs, IsHex);
      assert SpellsHex(text, p, n);
    }
    if p :| SpellsHex(text, p, n) {
      HexParses(text, p, n);
    }
  }

  // ---------------------------------------------------------------- UUID

  predicate Braces(s: string) {
    forall i :: 0 <= i < |s| ==> s[i] == '{' || s[i] == '}'
  }

  /** No brace at either end. */
  predicate Unbraced(s: string) {
    s != [] ==> !UuidText.IsBrace(s[0]) && !UuidText.IsBrace(s[|s| - 1])
  }

  lemma {:induction false} BracesStripped(s: string) returns (left: string, right: string)
    ensures Braces(left) && Braces(right) && s == left + UuidText.StripBraces(s) + right && Unbraced(UuidText.StripBraces(s))
    decreases |s|
  {
    left, right := [], [];
    if s != [] && UuidText.IsBrace(s[0]) {
      left, right := BracesStripped(s[1..]);
      left := [s[0]] + left;
    } else if s != [] && UuidText.IsBrace(s[|s| - 1]) {
      left, right := BracesStripped(s[..|s| - 1]);
      right := right + [s[|s| - 1]];
    }
  }

  lemma {:induction false} StripsBraces(left: string, core: string, right: string)
    requires Braces(left) && Braces(right) && Unbraced(core)
    ensures UuidText.StripBraces(left + core + right) == core
    decreases |left| + |right|
  {
    var s := left + core + right;
    if left != [] {
      assert s[1..] == left[1..] + core + right;
      StripsBraces(left[1..], core, right);
    } else if right == [] {
      assert s == core;
    } else if core == [] {
      assert s == right && s[1..] == [] + [] + right[1..];
      StripsBraces([], [], right[1..]);
    } else {
      assert s[..|s| - 1] == left + core + right[..|right| - 1];
      StripsBraces(left, core, right[..|right| - 1]);
    }
  }

  /** Stripping braces takes off the braces at both ends, and nothing else. */
  lemma StripBracesIff(text: string, core: string)
    ensures UuidText.StripBraces(text) == core
            <==> Unbraced(core) && exists left, right :: Braces(left) && Braces(right) && text == left + core + right
  {
    hide Unbraced;
    var left, right := BracesStripped(text);
    if Unbraced(core) {
      if left, right :| Braces(left) && Braces(right) && text == left + core + right {
        StripsBraces(left, core, right);
      }
    }
  }

  /** A UUID's text without its prefixes, the braces around it, and its dashes. */
  function UuidCore(text: string): string {
    UuidText.Without(UuidText.StripBraces(UuidText.Without(UuidText.Without(text, "urn:"), "uuid:")), "-")
  }

  /** `UUID` takes a text if and only if 32 characters are left of it, and they spell a number that fits. */
  lemma ReadUuidIff(text: string, u: UuidText.Uuid)
    ensures UuidText.Read(text) == Some(u) <==> |UuidCore(text)| == 32 && exists p :: SpellsHex(UuidCore(text), p, u)
  {
    hide UuidText.Without, UuidText.StripBraces, UuidText.ReadHex, SpellsHex;
    ReadHexIff(UuidCore(text), u);
  }

  // ---------------------------------------------------------------- Decimal

  /** A sign, whole digits, perhaps a point and a fraction, perhaps an exponent. */
  datatype Figure = Figure(sign: string, whole: string, fraction: Option<string>, exponent: Option<Exponent>)

  datatype Exponent = Exponent(mark: char, sign: string, digits: string)

  function FractionText(f: Figure): string {
    if f.fraction.Some? then "." + f.fraction.value else ""
  }

  function Fraction(f: Figure): string {
    if f.fraction.Some? then f.fraction.value else ""
  }

  function ExponentText(f: Figure): string {
    if f.exponent.Some? then [f.exponent.value.mark] + (f.exponent.value.sign + f.exponent.value.digits) else ""
  }

  function FigureText(f: Figure): string {
    f.sign + (f.whole + (FractionText(f) + ExponentText(f)))
  }

  predicate FigureOk(f: Figure) {
    && IsSign(f.sign) && AllDigits(f.whole) && AllDigits(Fraction(f)) && f.whole + Fraction(f) != []
    && (f.exponent.Some? ==>
          && f.exponent.value.mark in "eE" && IsSign(f.exponent.value.sign)
          && f.exponent.value.digits != [] && AllDigits(f.exponent.value.digits))
  }

  function FigureMeaning(f: Figure): DecimalText.Decimal
    requires FigureOk(f)
  {
    var e := if f.exponent.Some? then Signed(f.exponent.value.sign, Value(f.exponent.value.digits)) else 0;
    DecimalText.Decimal(f.sign == "-", Value(f.whole + Fraction(f)), e - |Fraction(f)|)
  }

  predicate SpellsDecimal(text: string, f: Figure, d: DecimalText.Decimal) {
    FigureOk(f) && DecimalText.WithoutUnderscores(Strip(text)) == FigureText(f) && FigureMeaning(f) == d
  }

  lemma ReadsExponent(f: Figure)
    requires FigureOk(f)
    ensures DecimalText.ReadExponent(ExponentText(f))
            == Some(if f.exponent.Some? then Signed(f.exponent.value.sign, Value(f.exponent.value.digits)) else 0)
  {
    hide Value;
    if f.exponent.Some? {
      var e := f.exponent.value;
      assert ExponentText(f)[1..] == e.sign + e.digits;
      if e.sign == "" {
        assert e.sign + e.digits == e.digits;
      } else {
        assert (e.sign + e.digits)[1..] == e.digits;
      }
    }
  }

  lemma ReadsFigure(f: Figure)
    requires FigureOk(f)
    ensures DecimalText.ReadMagnitude(f.whole + (FractionText(f) + ExponentText(f)), f.sign == "-") == Some(FigureMeaning(f))
  {
    hide Value, DecimalText.ReadMagnitude, DecimalText.ReadExponent, LeadingDigits, AllDigits;
    ReadsExponent(f);
    NoDigits();
    var tail := ExponentText(f);
    if f.fraction.Some? {
      assert FractionText(f) + tail == "." + (f.fraction.value + tail);
      DecimalText.ReadPointed(f.whole, f.fraction.value, tail, f.sign == "-");
    } else {
      assert FractionText(f) + tail == tail;
      DecimalText.ReadWhole(f.whole, tail, f.sign == "-");
    }
  }

  lemma NoDigits()
    ensures AllDigits([])
  {
  }

  lemma DecimalParses(text: string, f: Figure, d: DecimalText.Decimal)
    requires SpellsDecimal(text, f, d)
    ensures DecimalText.Read(text) == Some(d)
  {
    hide Value, DecimalText.ReadMagnitude, FigureMeaning, StripLeft, StripRight, DecimalText.WithoutUnderscores;
    var body := f.whole + (FractionText(f) + ExponentText(f));
    ReadsFigure(f);
    assert body != [] && body[0] != '-' && body[0] != '+';
    if f.sign == "" {
      assert FigureText(f) == body;
    } else {
      assert FigureText(f)[1..] == body;
    }
  }

  lemma ExponentRead(s: string) returns (e: Option<Exponent>)
    requires DecimalText.ReadExponent(s).Some?
    ensures e.Some? ==> e.value.mark in "eE" && IsSign(e.value.sign) && e.value.digits != [] && AllDigits(e.value.digits)
    ensures s == if e.Some? then [e.value.mark] + (e.value.sign + e.value.digits) else ""
  {
    if s == [] {
      e := None;
    } else {
      var t := s[1..];
      var sign := if t != [] && t[0] in "+-" then [t[0]] else "";
      e := Some(Exponent(s[0], sign, t[|sign|..]));
      assert t == sign + t[|sign|..];
    }
  }

  lemma FigureRead(s: string, sign: string) returns (f: Figure)
    requires IsSign(sign) && DecimalText.ReadMagnitude(s, sign == "-").Some?
    ensures FigureOk(f) && f.sign == sign && s == f.whole + (FractionText(f) + ExponentText(f))
  {
    hide Value, LeadingDigits, DecimalText.ReadExponent, AllDigits, IsSign;
    var n := LeadingDigits(s);
    var whole, rest := s[..n], s[n..];
    NoDigits();
    if rest != [] && rest[0] == '.' {
      var m := LeadingDigits(rest[1..]);
      var fraction, tail := rest[1..][..m], rest[1..][m..];
      var e := ExponentRead(tail);
      f := Figure(sign, whole, Some(fraction), e);
      Pointed(s, whole, rest, fraction, tail);
    } else {
      var e := ExponentRead(rest);
      f := Figure(sign, whole, None, e);
      assert "" + rest == rest;
    }
  }

  lemma Pointed(s: string, whole: string, rest: string, fraction: string, tail: string)
    requires s == whole + rest && rest != [] && rest[0] == '.' && rest[1..] == fraction + tail
    ensures s == whole + (("." + fraction) + tail)
  {
  }

  /** `Decimal` takes a text for a number if and only if the grammar spells it so, underscores and outer white space apart. */
  lemma ReadDecimalIff(text: string, d: DecimalText.Decimal)
    ensures DecimalText.Read(text) == Some(d) <==> exists f :: SpellsDecimal(text, f, d)
  {
    hide Value, DecimalText.ReadMagnitude, FigureMeaning, StripLeft, StripRight, DecimalText.WithoutUnderscores, FigureOk;
    if DecimalText.Read(text) == Some(d) {
      var s := DecimalText.WithoutUnderscores(Strip(text));
      var sign := if s != [] && s[0] in "+-" then [s[0]] else "";
      assert s == sign + s[|sign|..] && IsSign(sign);
      var f := FigureRead(s[|sign|..], sign);
      ReadsFigure(f);
      assert SpellsDecimal(text, f, d);
    }
    if f :| SpellsDecimal(text, f, d) {
      DecimalParses(text, f, d);
    }
  }
}
