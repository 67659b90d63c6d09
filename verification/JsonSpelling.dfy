/**
 The texts of a flat JSON object, as a grammar: every string letter by letter, every number, every gap. The reader
 reads exactly these texts, each as what it spells.
 */
module JsonSpelling {
  import opened Common
  import opened Text
  import opened FlatJson

  // ---------------------------------------------------------------- the grammar

  /** A character itself, one of the eight short escapes, or four hexadecimal digits. */
  datatype Letter = Raw(c: char) | Short(k: nat) | Code(digits: string)

  const SHORT := "\"\\/bfnrt"
  const MEANT := "\"\\/\U{0008}\U{000C}\n\r\t"

  datatype Token = Letters(letters: seq<Letter>) | Number(negative: bool, digits: string)

  /** A member, and the white space before it, around its colon, and after it. */
  datatype Line = Line(lead: string, key: seq<Letter>, before: string, after: string, value: Token, trail: string)

  /** An object, and the white space before it, behind its opening brace if it is empty, and after it. */
  datatype Spelling = Spelling(lead: string, empty: string, lines: seq<Line>, trail: string)

  predicate Blank(s: string) {
    forall i :: 0 <= i < |s| ==> s[i] in " \t\n\r"
  }

  predicate LetterOk(l: Letter) {
    match l
    case Raw(c) => c >= ' ' && c != '"' && c != '\\'
    case Short(k) => k < 8
    case Code(digits) => |digits| == 4 && forall i :: 0 <= i < 4 ==> IsHex(digits[i])
  }

  predicate LettersOk(letters: seq<Letter>) {
    forall i :: 0 <= i < |letters| ==> LetterOk(letters[i])
  }

  predicate TokenOk(t: Token) {
    match t
    case Letters(letters) => LettersOk(letters)
    case Number(_, digits) => digits != [] && AllDigits(digits) && (digits[0] == '0' ==> |digits| == 1)
  }

  predicate LineOk(l: Line) {
    Blank(l.lead) && LettersOk(l.key) && Blank(l.before) && Blank(l.after) && TokenOk(l.value) && Blank(l.trail)
  }

  predicate LinesOk(lines: seq<Line>) {
    forall i :: 0 <= i < |lines| ==> LineOk(lines[i])
  }

  predicate SpellingOk(s: Spelling) {
    Blank(s.lead) && Blank(s.empty) && Blank(s.trail) && LinesOk(s.lines)
  }

  function LetterText(l: Letter): string
    requires LetterOk(l)
  {
    match l
    case Raw(c) => [c]
    case Short(k) => ['\\', SHORT[k]]
    case Code(digits) => ['\\', 'u'] + digits
  }

  /** Half of a surrogate pair means no character. */
  function LetterMeaning(l: Letter): char
    requires LetterOk(l)
  {
    match l
    case Raw(c) => c
    case Short(k) => MEANT[k]
    case Code(digits) =>
      FourHexDigits(digits);
      if 0xD800 <= HexNumber(digits) <= 0xDFFF then '\U{FFFD}' else HexNumber(digits) as char
  }

  /** Up to and with the closing quote. */
  function LettersText(letters: seq<Letter>): string
    requires LettersOk(letters)
    decreases |letters|
  {
    if letters == [] then ['"'] else LetterText(letters[0]) + LettersText(letters[1..])
  }

  function LettersMeaning(letters: seq<Letter>): string
    requires LettersOk(letters)
    decreases |letters|
  {
    if letters == [] then [] else [LetterMeaning(letters[0])] + LettersMeaning(letters[1..])
  }

  function TokenText(t: Token): string
    requires TokenOk(t)
  {
    match t
    case Letters(letters) => ['"'] + LettersText(letters)
    case Number(negative, digits) => if negative then ['-'] + digits else digits
  }

  function TokenMeaning(t: Token): Json
    requires TokenOk(t)
  {
    match t
    case Letters(letters) => Str(LettersMeaning(letters))
    case Number(negative, digits) =>
      var n: int := Value(digits);
      Num(if negative then -n else n)
  }

  /** Without the white space before it. */
  function LineText(l: Line): string
    requires LineOk(l)
  {
    ['"'] + (LettersText(l.key) + (l.before + ([':'] + (l.after + (TokenText(l.value) + l.trail)))))
  }

  function LineMeaning(l: Line): Member
    requires LineOk(l)
  {
    Member(LettersMeaning(l.key), TokenMeaning(l.value))
  }

  /** Up to and with the closing brace, without the white space before the first. */
  function LinesText(lines: seq<Line>): string
    requires lines != [] && LinesOk(lines)
    decreases |lines|
  {
    if |lines| == 1 then LineText(lines[0]) + ['}']
    else LineText(lines[0]) + ([','] + (lines[1].lead + LinesText(lines[1..])))
  }

  function LinesMeaning(lines: seq<Line>): seq<Member>
    requires LinesOk(lines)
    decreases |lines|
  {
    if lines == [] then [] else [LineMeaning(lines[0])] + LinesMeaning(lines[1..])
  }

  function SpellingText(s: Spelling): string
    requires SpellingOk(s)
  {
    s.lead + (['{'] + ((if s.lines == [] then s.empty + ['}'] else s.lines[0].lead + LinesText(s.lines)) + s.trail))
  }

  // ---------------------------------------------------------------- white space

  lemma {:induction false} SkipsBlank(blank: string, rest: string)
    requires Blank(blank) && (rest == [] || rest[0] !in " \t\n\r")
    ensures SkipSpace(blank + rest) == rest
    decreases |blank|
  {
    if blank == [] {
      assert blank + rest == rest;
    } else {
      assert (blank + rest)[1..] == blank[1..] + rest;
      SkipsBlank(blank[1..], rest);
    }
  }

  lemma {:induction false} BlankSkipped(s: string) returns (blank: string)
    ensures Blank(blank) && s == blank + SkipSpace(s) && (SkipSpace(s) == [] || SkipSpace(s)[0] !in " \t\n\r")
    decreases |s|
  {
    if s != [] && s[0] in " \t\n\r" {
      blank := BlankSkipped(s[1..]);
      blank := [s[0]] + blank;
    } else {
      blank := [];
    }
  }

  // ---------------------------------------------------------------- strings

  lemma ReadsLetter(l: Letter, rest: string)
    requires LetterOk(l) && !l.Raw?
    ensures |LetterText(l)| > 1 && LetterText(l)[0] == '\\'
    ensures ReadEscape(LetterText(l)[1..] + rest) == Some(Read(LetterMeaning(l), rest))
  {
    hide HexNumber;
    var s := LetterText(l)[1..] + rest;
    match l
    case Short(k) =>
      assert s[1..] == rest && s[0] == SHORT[k];
    case Code(digits) =>
      assert s[1..5] == digits && s[5..] == rest;
  }

  lemma LetterRead(s: string) returns (l: Letter)
    requires s != [] && ReadEscape(s).Some?
    ensures LetterOk(l) && LetterMeaning(l) == ReadEscape(s).value.got
    ensures ['\\'] + s == LetterText(l) + ReadEscape(s).value.rest
  {
    hide HexNumber;
    if s[0] == 'u' {
      l := Code(s[1..5]);
      assert s == ['u'] + (s[1..5] + s[5..]);
    } else {
      assert s[0] in SHORT;
      var k: nat :| k < 8 && SHORT[k] == s[0];
      l := Short(k);
      assert s == [s[0]] + s[1..];
    }
  }

  lemma {:induction false} ReadsLetters(letters: seq<Letter>, rest: string)
    requires LettersOk(letters)
    ensures ReadString(LettersText(letters) + rest) == Some(Read(LettersMeaning(letters), rest))
    decreases |letters|
  {
    hide ReadEscape, LetterMeaning, LetterText;
    var s := LettersText(letters) + rest;
    if letters == [] {
      assert s[1..] == rest;
    } else {
      var l, tail := letters[0], LettersText(letters[1..]) + rest;
      assert LetterOk(l);
      assert s == LetterText(l) + tail;
      ReadsLetters(letters[1..], rest);
      if l.Raw? {
        RawLetter(l.c);
        assert s[0] == l.c && s[1..] == tail;
      } else {
        ReadsLetter(l, tail);
        assert s[1..] == LetterText(l)[1..] + tail;
      }
    }
  }

  lemma {:induction false} LettersRead(s: string) returns (letters: seq<Letter>)
    requires ReadString(s).Some?
    ensures LettersOk(letters) && LettersMeaning(letters) == ReadString(s).value.got
    ensures s == LettersText(letters) + ReadString(s).value.rest
    decreases |s|
  {
    hide ReadEscape, LetterMeaning, LetterText;
    if s[0] == '"' {
      letters := [];
    } else {
      var l, tail;
      if s[0] != '\\' {
        l, tail := Raw(s[0]), s[1..];
        RawLetter(s[0]);
      } else {
        l := LetterRead(s[1..]);
        tail := ReadEscape(s[1..]).value.rest;
        assert s == ['\\'] + s[1..];
      }
      assert s == LetterText(l) + tail;
      var others := LettersRead(tail);
      letters := [l] + others;
      assert letters[1..] == others;
    }
  }

  lemma RawLetter(c: char)
    requires LetterOk(Raw(c))
    ensures LetterText(Raw(c)) == [c] && LetterMeaning(Raw(c)) == c
  {
  }

  // ---------------------------------------------------------------- values

  /** What ends a number. */
  predicate Ends(rest: string) {
    rest != [] && !IsDigit(rest[0]) && rest[0] !in ".eE"
  }

  lemma ReadsToken(t: Token, rest: string)
    requires TokenOk(t) && Ends(rest)
    ensures ReadValue(TokenText(t) + rest) == Some(Read(TokenMeaning(t), rest))
  {
    hide ReadString, ReadDigits, Value, LettersText, LettersMeaning;
    var s := TokenText(t) + rest;
    match t
    case Letters(letters) =>
      ReadsLetters(letters, rest);
      assert s[1..] == LettersText(letters) + rest;
    case Number(negative, digits) =>
      ReadAllDigits(digits, rest);
      if negative {
        assert s[1..] == digits + rest;
      }
  }

  lemma {:induction false} DigitsRead(s: string)
    ensures ReadDigits(s).got + ReadDigits(s).rest == s
    decreases |s|
  {
    if s != [] && IsDigit(s[0]) {
      DigitsRead(s[1..]);
      assert s == [s[0]] + s[1..];
    }
  }

  lemma TokenRead(s: string) returns (t: Token)
    requires ReadValue(s).Some?
    ensures TokenOk(t) && TokenMeaning(t) == ReadValue(s).value.got
    ensures s == TokenText(t) + ReadValue(s).value.rest
  {
    hide ReadString, ReadDigits, Value, LettersText, LettersMeaning;
    if s[0] == '"' {
      var letters := LettersRead(s[1..]);
      t := Letters(letters);
      assert s == ['"'] + s[1..];
    } else if s[0] == '-' {
      t := Number(true, ReadDigits(s[1..]).got);
      DigitsRead(s[1..]);
      assert s == ['-'] + s[1..];
    } else {
      t := Number(false, ReadDigits(s).got);
      DigitsRead(s);
    }
  }

  // ---------------------------------------------------------------- members

  lemma TokenStarts(t: Token)
    requires TokenOk(t)
    ensures TokenText(t) != [] && TokenText(t)[0] !in " \t\n\r"
  {
  }

  lemma ReadsLine(l: Line, rest: string)
    requires LineOk(l) && rest != [] && rest[0] in ",}"
    ensures ReadMember(LineText(l) + rest) == Some(Read(LineMeaning(l), rest))
  {
    hide ReadString, ReadValue, SkipSpace, TokenText, TokenMeaning, LettersText, LettersMeaning, Blank;
    var value := TokenText(l.value) + (l.trail + rest);
    var colon := [':'] + (l.after + value);
    var s := LineText(l) + rest;
    assert s == ['"'] + (LettersText(l.key) + (l.before + colon));
    assert s[1..] == LettersText(l.key) + (l.before + colon);
    ReadsLetters(l.key, l.before + colon);
    SkipsBlank(l.before, colon);
    assert colon[1..] == l.after + value;
    TokenStarts(l.value);
    SkipsBlank(l.after, value);
    assert Ends(l.trail + rest) by { BlankEnds(l.trail, rest); }
    ReadsToken(l.value, l.trail + rest);
    SkipsBlank(l.trail, rest);
  }

  lemma BlankEnds(blank: string, rest: string)
    requires Blank(blank) && rest != [] && rest[0] in ",}"
    ensures Ends(blank + rest)
  {
    if blank != [] {
      assert (blank + rest)[0] == blank[0];
    }
  }

  lemma LineRead(s: string) returns (l: Line)
    requires ReadMember(s).Some?
    ensures LineOk(l) && l.lead == [] && LineMeaning(l) == ReadMember(s).value.got
    ensures s == LineText(l) + ReadMember(s).value.rest
  {
    hide ReadString, ReadValue, SkipSpace, TokenText, TokenMeaning, LettersText, LettersMeaning, Blank;
    var key := LettersRead(s[1..]);
    var afterKey := ReadString(s[1..]).value.rest;
    var before := BlankSkipped(afterKey);
    var colon := SkipSpace(afterKey);
    var after := BlankSkipped(colon[1..]);
    var start := SkipSpace(colon[1..]);
    var value := TokenRead(start);
    var end := ReadValue(start).value.rest;
    var trail := BlankSkipped(end);
    l := Line([], key, before, after, value, trail);
    assert Blank([]) by { NothingIsBlank(); }
    Lined(s, LettersText(key), before, colon, after, TokenText(value), trail, SkipSpace(end));
  }

  lemma Lined(
    s: string, key: string, before: string, colon: string, after: string, value: string, trail: string, rest: string)
    requires s != [] && s[0] == '"' && s[1..] == key + (before + colon)
    requires colon != [] && colon[0] == ':' && colon[1..] == after + (value + (trail + rest))
    ensures s == ['"'] + (key + (before + ([':'] + (after + (value + trail))))) + rest
  {
  }

  lemma NothingIsBlank()
    ensures Blank([])
  {
  }

  lemma {:induction false} ReadsLines(lines: seq<Line>, rest: string)
    requires lines != [] && LinesOk(lines)
    ensures ReadMembers(LinesText(lines) + rest) == Some(Read(LinesMeaning(lines), rest))
    decreases |lines|
  {
    hide ReadMember, SkipSpace, LineText, LineMeaning, LineOk;
    assert LineOk(lines[0]);
    var s := LinesText(lines) + rest;
    if |lines| == 1 {
      var tail := ['}'] + rest;
      assert s == LineText(lines[0]) + tail && tail[1..] == rest;
      ReadsLine(lines[0], tail);
      NoLines();
      assert lines[1..] == [] && LinesMeaning(lines) == [LineMeaning(lines[0])];
    } else {
      var others := LinesText(lines[1..]) + rest;
      var tail := [','] + (lines[1].lead + others);
      assert s == LineText(lines[0]) + tail && tail[1..] == lines[1].lead + others;
      ReadsLine(lines[0], tail);
      assert LineOk(lines[1]) && lines[1..][0] == lines[1];
      LinesStart(lines[1..]);
      LeadIsBlank(lines[1]);
      SkipsBlank(lines[1].lead, others);
      ReadsLines(lines[1..], rest);
    }
  }

  lemma LeadIsBlank(l: Line)
    requires LineOk(l)
    ensures Blank(l.lead)
  {
  }

  lemma LinesStart(lines: seq<Line>)
    requires lines != [] && LinesOk(lines)
    ensures LinesText(lines) != [] && LinesText(lines)[0] == '"'
  {
    assert LineOk(lines[0]);
  }

  lemma {:induction false} LinesRead(s: string) returns (lines: seq<Line>)
    requires ReadMembers(s).Some?
    ensures lines != [] && LinesOk(lines) && lines[0].lead == [] && LinesMeaning(lines) == ReadMembers(s).value.got
    ensures s == LinesText(lines) + ReadMembers(s).value.rest
    decreases |s|
  {
    hide ReadMember, SkipSpace, LineText, LineMeaning, Blank;
    var l := LineRead(s);
    var after := ReadMember(s).value.rest;
    assert after == [after[0]] + after[1..];
    if after[0] == '}' {
      lines := [l];
      assert lines[1..] == [];
      assert s == LinesText(lines) + after[1..];
    } else {
      var lead := BlankSkipped(after[1..]);
      var others := LinesRead(SkipSpace(after[1..]));
      var next := others[0].(lead := lead);
      assert LineOk(others[0]);
      Relead(others, lead);
      lines := [l] + [next] + others[1..];
      assert lines[1..] == [next] + others[1..];
      assert s == LinesText(lines) + ReadMembers(s).value.rest;
    }
  }

  /** The white space before a first line is no part of the lines' text. */
  lemma Relead(lines: seq<Line>, lead: string)
    requires lines != [] && LinesOk(lines) && Blank(lead)
    ensures var again := [lines[0].(lead := lead)] + lines[1..];
            LinesOk(again) && LinesText(again) == LinesText(lines) && LinesMeaning(again) == LinesMeaning(lines)
  {
    hide LettersText, TokenText, LettersMeaning, TokenMeaning;
    var again := [lines[0].(lead := lead)] + lines[1..];
    assert LineOk(lines[0]);
    assert again[1..] == lines[1..];
  }

  // ---------------------------------------------------------------- objects

  lemma ReadsSpelling(s: Spelling)
    requires SpellingOk(s)
    ensures ReadObject(SpellingText(s)) == Some(LinesMeaning(s.lines))
  {
    hide SkipSpace, ReadMembers, LinesText, LinesMeaning;
    if s.lines == [] {
      var tail := ['}'] + s.trail;
      var inside := s.empty + tail;
      assert SpellingText(s) == s.lead + (['{'] + inside) && (['{'] + inside)[1..] == inside && tail[1..] == s.trail;
      SkipsBlank(s.lead, ['{'] + inside);
      SkipsBlank(s.empty, tail);
      SkipsBlank(s.trail, []);
      assert s.trail + [] == s.trail;
      NoLines();
    } else {
      var inside := s.lines[0].lead + (LinesText(s.lines) + s.trail);
      assert SpellingText(s) == s.lead + (['{'] + inside) && (['{'] + inside)[1..] == inside;
      SkipsBlank(s.lead, ['{'] + inside);
      LinesStart(s.lines);
      assert LineOk(s.lines[0]);
      SkipsBlank(s.lines[0].lead, LinesText(s.lines) + s.trail);
      ReadsLines(s.lines, s.trail);
      SkipsBlank(s.trail, []);
      assert s.trail + [] == s.trail;
    }
  }

  lemma NoLines()
    ensures LinesMeaning([]) == [] && ReadMembers([]).None?
  {
  }

  lemma SpellingRead(text: string) returns (s: Spelling)
    requires ReadObject(text).Some?
    ensures SpellingOk(s) && text == SpellingText(s) && LinesMeaning(s.lines) == ReadObject(text).value
  {
    hide SkipSpace, ReadMembers, LinesText, LinesMeaning, Blank, LineOk;
    NothingIsBlank();
    NoLines();
    var lead := BlankSkipped(text);
    var open := SkipSpace(text);
    var gap := BlankSkipped(open[1..]);
    var inside := SkipSpace(open[1..]);
    if inside[0] == '}' {
      var trail := BlankSkipped(inside[1..]);
      s := Spelling(lead, gap, [], trail);
      Assembled(open, gap, inside, ['}'], inside[1..], trail);
      assert gap + (['}'] + trail) == (gap + ['}']) + trail;
    } else {
      var rest := ReadMembers(inside).value.rest;
      var lines := LinesRead(inside);
      var trail := BlankSkipped(rest);
      Relead(lines, gap);
      s := Spelling(lead, [], [lines[0].(lead := gap)] + lines[1..], trail);
      Assembled(open, gap, inside, LinesText(lines), rest, trail);
      assert gap + (LinesText(lines) + trail) == (gap + LinesText(lines)) + trail;
    }
  }

  lemma Assembled(open: string, gap: string, inside: string, body: string, rest: string, trail: string)
    requires open != [] && open[0] == '{' && open[1..] == gap + inside && inside == body + rest && rest == trail + []
    ensures open == ['{'] + (gap + (body + trail))
  {
  }

  predicate Spells(s: Spelling, text: string, members: seq<Member>) {
    SpellingOk(s) && SpellingText(s) == text && LinesMeaning(s.lines) == members
  }

  /** A text is read as these members if and only if the grammar spells them so. */
  lemma ReadObjectIff(text: string, members: seq<Member>)
    ensures ReadObject(text) == Some(members) <==> exists s :: Spells(s, text, members)
  {
    hide ReadObject, SpellingText, SpellingOk, LinesMeaning;
    if ReadObject(text) == Some(members) {
      var s := SpellingRead(text);
      assert Spells(s, text, members);
    }
    if s :| Spells(s, text, members) {
      ReadsSpelling(s);
    }
  }
}
