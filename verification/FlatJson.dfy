/** JSON objects whose members are strings and integers, in any layout and order. */
module FlatJson {
  import opened Common
  import opened Text

  datatype Json = Str(text: string) | Num(n: int)

  datatype Member = Member(key: string, value: Json)

  /** What was read, and the text after it. */
  datatype Read<T> = Read(got: T, rest: string)

  predicate IsJsonSpace(c: char) {
    c == ' ' || c == '\t' || c == '\n' || c == '\r'
  }

  function SkipSpace(s: string): (r: string)
    ensures |r| <= |s|
    ensures s != [] && !IsJsonSpace(s[0]) ==> r == s
    decreases |s|
  {
    if s != [] && IsJsonSpace(s[0]) then SkipSpace(s[1..]) else s
  }

  predicate Plain(s: string) {
    forall i :: 0 <= i < |s| ==> s[i] >= ' ' && s[i] != '"' && s[i] != '\\'
  }

  /** Half of a surrogate pair is no character: whatever holds one is no key and no date. */
  function CharAt(code: nat): char
    requires code < 0x1_0000
  {
    if 0xD800 <= code < 0xE000 then '\U{FFFD}' else code as char
  }

  /** The character after a backslash, and how long its escape sequence is. */
  function ReadEscape(s: string): Option<Read<char>>
    requires s != []
    ensures ReadEscape(s).Some? ==> |ReadEscape(s).value.rest| < |s|
  {
    if s[0] == '"' || s[0] == '\\' || s[0] == '/' then Some(Read(s[0], s[1..]))
    else if s[0] == 'b' then Some(Read('\U{0008}', s[1..]))
    else if s[0] == 'f' then Some(Read('\U{000C}', s[1..]))
    else if s[0] == 'n' then Some(Read('\n', s[1..]))
    else if s[0] == 'r' then Some(Read('\r', s[1..]))
    else if s[0] == 't' then Some(Read('\t', s[1..]))
    else if s[0] == 'u' && |s| >= 5 && forall i :: 0 <= i < 4 ==> IsHex(s[1..5][i]) then
      FourHexDigits(s[1..5]);
      Some(Read(CharAt(HexNumber(s[1..5])), s[5..]))
    else None
  }

  lemma FourHexDigits(s: string)
    requires |s| == 4 && forall i :: 0 <= i < 4 ==> IsHex(s[i])
    ensures HexNumber(s) < 0x1_0000
  {
    HexIsBounded(s);
    assert Pow16(4) == 0x1_0000;
  }

  /** After the opening quote, up to and with the closing one. */
  function ReadString(s: string): (r: Option<Read<string>>)
    ensures r.Some? ==> |r.value.rest| < |s|
    decreases |s|
  {
    if s == [] || s[0] < ' ' then None
    else if s[0] == '"' then Some(Read([], s[1..]))
    else
      var c := if s[0] != '\\' then Some(Read(s[0], s[1..])) else if |s| > 1 then ReadEscape(s[1..]) else None;
      if c.None? then None
      else
        var r := ReadString(c.value.rest);
        if r.None? then None else Some(Read([c.value.got] + r.value.got, r.value.rest))
  }

  function ReadDigits(s: string): (r: Read<string>)
    ensures |r.got| + |r.rest| == |s| && AllDigits(r.got)
    decreases |s|
  {
    if s == [] || !IsDigit(s[0]) then Read([], s)
    else
      var r := ReadDigits(s[1..]);
      Read([s[0]] + r.got, r.rest)
  }

  function ReadNatural(s: string): (r: Option<Read<nat>>)
    ensures r.Some? ==> |r.value.rest| < |s|
  {
    var r := ReadDigits(s);
    if !Canonical(r.got) || (r.rest != [] && r.rest[0] in ".eE") then None
    else Some(Read(Value(r.got), r.rest))
  }

  function ReadValue(s: string): (r: Option<Read<Json>>)
    ensures r.Some? ==> |r.value.rest| < |s|
  {
    if s == [] then None
    else if s[0] == '"' then
      var r := ReadString(s[1..]);
      if r.None? then None else Some(Read(Str(r.value.got), r.value.rest))
    else if s[0] == '-' then
      var r := ReadNatural(s[1..]);
      if r.None? then None
      else
        var n: int := r.value.got;
        Some(Read(Num(-n), r.value.rest))
    else
      var r := ReadNatural(s);
      if r.None? then None else Some(Read(Num(r.value.got), r.value.rest))
  }

  function ReadMember(s: string): (r: Option<Read<Member>>)
    ensures r.Some? ==> |r.value.rest| < |s|
  {
    if s == [] || s[0] != '"' then None
    else
      var key := ReadString(s[1..]);
      if key.None? then None
      else
        var colon := SkipSpace(key.value.rest);
        if colon == [] || colon[0] != ':' then None
        else
          var value := ReadValue(SkipSpace(colon[1..]));
          if value.None? then None
          else Some(Read(Member(key.value.got, value.value.got), SkipSpace(value.value.rest)))
  }

  /** Members up to and with the closing brace. */
  function ReadMembers(s: string): Option<Read<seq<Member>>>
    decreases |s|
  {
    var first := ReadMember(s);
    if first.None? || first.value.rest == [] then None
    else
      var after := first.value.rest;
      if after[0] == '}' then Some(Read([first.value.got], after[1..]))
      else if after[0] == ',' then
        var others := ReadMembers(SkipSpace(after[1..]));
        if others.None? then None else Some(Read([first.value.got] + others.value.got, others.value.rest))
      else None
  }

  function ReadObject(text: string): Option<seq<Member>> {
    var s := SkipSpace(text);
    if s == [] || s[0] != '{' then None
    else
      var inside := SkipSpace(s[1..]);
      var members := if inside != [] && inside[0] == '}' then Some(Read([], inside[1..])) else ReadMembers(inside);
      if members.None? || SkipSpace(members.value.rest) != [] then None else Some(members.value.got)
  }

  /** `_unique_json_object` refuses a repeated key. */
  predicate UniqueKeys(members: seq<Member>) {
    forall i, j :: 0 <= i < j < |members| ==> members[i].key != members[j].key
  }

  function Keys(members: seq<Member>): set<string> {
    set i | 0 <= i < |members| :: members[i].key
  }

  function Lookup(members: seq<Member>, key: string): Json
    requires key in Keys(members)
    decreases |members|
  {
    if members[0].key == key then members[0].value
    else
      assert key in Keys(members[1..]) by {
        var i :| 0 <= i < |members| && members[i].key == key;
        assert members[1..][i - 1] == members[i];
      }
      Lookup(members[1..], key)
  }

  // ---------------------------------------------------------------- reading what the compact printer prints

  function Quoted(s: string): string {
    ['"'] + s + ['"']
  }

  function PrintValue(v: Json): string {
    match v
    case Str(text) => Quoted(text)
    case Num(n) => Print(n)
  }

  function PrintMember(m: Member): string {
    Quoted(m.key) + [':'] + PrintValue(m.value)
  }

  function PrintMembers(members: seq<Member>): string
    requires members != []
    decreases |members|
  {
    if |members| == 1 then PrintMember(members[0]) + ['}']
    else PrintMember(members[0]) + [','] + PrintMembers(members[1..])
  }

  /** `json.dumps` with `separators=(",", ":")`, of members in order. */
  function PrintObject(members: seq<Member>): string
    requires members != []
  {
    ['{'] + PrintMembers(members)
  }

  predicate Printable(m: Member) {
    Plain(m.key) && (m.value.Str? ==> Plain(m.value.text))
  }

  lemma {:induction false} ReadPlain(s: string, rest: string)
    requires Plain(s)
    ensures ReadString(s + ['"'] + rest) == Some(Read(s, rest))
    decreases |s|
  {
    var text := s + ['"'] + rest;
    if s == [] {
      assert text[1..] == rest;
    } else {
      assert text[1..] == s[1..] + ['"'] + rest;
      ReadPlain(s[1..], rest);
      assert [s[0]] + s[1..] == s;
    }
  }

  lemma {:induction false} ReadAllDigits(s: string, rest: string)
    requires AllDigits(s) && (rest == [] || !IsDigit(rest[0]))
    ensures ReadDigits(s + rest) == Read(s, rest)
    decreases |s|
  {
    if s == [] {
      assert s + rest == rest;
    } else {
      assert (s + rest)[1..] == s[1..] + rest;
      ReadAllDigits(s[1..], rest);
      assert [s[0]] + s[1..] == s;
    }
  }

  lemma ReadPrintedValue(v: Json, rest: string)
    requires v.Str? ==> Plain(v.text)
    requires rest != [] && rest[0] in ",}"
    ensures ReadValue(PrintValue(v) + rest) == Some(Read(v, rest))
  {
    hide Digits, Value, Canonical, ReadString, ReadDigits;
    var s := PrintValue(v) + rest;
    match v
    case Str(text) =>
      ReadPlain(text, rest);
      assert s[1..] == text + ['"'] + rest;
    case Num(n) =>
      var digits := Digits(if n < 0 then -n else n);
      ValueOfDigits(if n < 0 then -n else n);
      ReadAllDigits(digits, rest);
      if n < 0 {
        assert s[1..] == digits + rest;
      } else {
        assert s == digits + rest && IsDigit(digits[0]);
      }
  }

  lemma ReadPrintedMember(m: Member, rest: string)
    requires Printable(m) && rest != [] && rest[0] in ",}"
    ensures ReadMember(PrintMember(m) + rest) == Some(Read(m, rest))
  {
    hide ReadString, ReadValue, PrintValue;
    var s := PrintMember(m) + rest;
    var after := [':'] + PrintValue(m.value) + rest;
    ReadPlain(m.key, after);
    assert s[1..] == m.key + ['"'] + after;
    assert after[1..] == PrintValue(m.value) + rest;
    ReadPrintedValue(m.value, rest);
    ValueStarts(m.value);
  }

  lemma ValueStarts(v: Json)
    ensures PrintValue(v) != [] && !IsJsonSpace(PrintValue(v)[0])
  {
    hide Digits;
    if v.Num? {
      assert IsDigit(Digits(if v.n < 0 then -v.n else v.n)[0]);
    }
  }

  lemma {:induction false} ReadPrintedMembers(members: seq<Member>)
    requires members != [] && forall i :: 0 <= i < |members| ==> Printable(members[i])
    ensures ReadMembers(PrintMembers(members)) == Some(Read(members, []))
    decreases |members|
  {
    hide PrintMember, ReadMember, ReadString, ReadEscape, ReadValue, PrintValue, Printable;
    if |members| == 1 {
      ReadPrintedMember(members[0], ['}']);
      assert ['}'][1..] == [];
      assert members == [members[0]];
    } else {
      var rest := [','] + PrintMembers(members[1..]);
      ReadPrintedMember(members[0], rest);
      assert PrintMembers(members) == PrintMember(members[0]) + rest;
      assert rest[1..] == PrintMembers(members[1..]);
      MembersStart(members[1..]);
      ReadPrintedMembers(members[1..]);
      assert members == [members[0]] + members[1..];
    }
  }

  lemma MembersStart(members: seq<Member>)
    requires members != []
    ensures PrintMembers(members) != [] && PrintMembers(members)[0] == '"'
  {
  }

  /** Whatever members are printed are read back. */
  lemma ReadPrintedObject(members: seq<Member>)
    requires members != [] && forall i :: 0 <= i < |members| ==> Printable(members[i])
    ensures ReadObject(PrintObject(members)) == Some(members)
  {
    hide ReadMembers, PrintMembers;
    assert PrintObject(members)[1..] == PrintMembers(members);
    MembersStart(members);
    ReadPrintedMembers(members);
  }
}
