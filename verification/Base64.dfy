/** Unpadded base64url, section 5 of RFC 4648. */
module Base64 {
  import opened Common

  type Byte = b: int | 0 <= b < 256

  type Sextet = s: int | 0 <= s < 64

  function CharOf(s: Sextet): (c: char)
    ensures IsAlphabet(c) && SextetOf(c) == s
  {
    if s < 26 then ('A' as int + s) as char
    else if s < 52 then ('a' as int + (s - 26)) as char
    else if s < 62 then ('0' as int + (s - 52)) as char
    else if s == 62 then '-' else '_'
  }

  predicate IsAlphabet(c: char) {
    'A' <= c <= 'Z' || 'a' <= c <= 'z' || '0' <= c <= '9' || c == '-' || c == '_'
  }

  function SextetOf(c: char): (s: Sextet)
    requires IsAlphabet(c)
  {
    if 'A' <= c <= 'Z' then c as int - 'A' as int
    else if 'a' <= c <= 'z' then c as int - 'a' as int + 26
    else if '0' <= c <= '9' then c as int - '0' as int + 52
    else if c == '-' then 62 else 63
  }

  lemma CharOfSextet(c: char)
    requires IsAlphabet(c)
    ensures CharOf(SextetOf(c)) == c
  {
  }

  predicate AllAlphabet(text: string) {
    forall i :: 0 <= i < |text| ==> IsAlphabet(text[i])
  }

  function Chars(sextets: seq<Sextet>): (text: string)
    ensures |text| == |sextets| && AllAlphabet(text)
  {
    seq(|sextets|, i requires 0 <= i < |sextets| => CharOf(sextets[i]))
  }

  function Sextets(text: string): (sextets: seq<Sextet>)
    requires AllAlphabet(text)
    ensures |sextets| == |text| && forall i :: 0 <= i < |text| ==> sextets[i] == SextetOf(text[i])
  {
    seq(|text|, i requires 0 <= i < |text| => SextetOf(text[i]))
  }

  // Three bytes a, b, c are four sextets, and back.

  function S0(a: Byte): Sextet { a / 4 }

  function S1(a: Byte, b: Byte): Sextet { a % 4 * 16 + b / 16 }

  function S2(b: Byte, c: Byte): Sextet { b % 16 * 4 + c / 64 }

  function S3(c: Byte): Sextet { c % 64 }

  function B0(s0: Sextet, s1: Sextet): Byte {
    var x: int, y: int := s0, s1;
    x * 4 + y / 16
  }

  function B1(s1: Sextet, s2: Sextet): Byte {
    var x: int, y: int := s1, s2;
    x % 16 * 16 + y / 4
  }

  function B2(s2: Sextet, s3: Sextet): Byte {
    var x: int, y: int := s2, s3;
    x % 4 * 64 + y
  }

  function Split(bytes: seq<Byte>): seq<Sextet>
    decreases |bytes|
  {
    if bytes == [] then []
    else if |bytes| == 1 then [S0(bytes[0]), S1(bytes[0], 0)]
    else if |bytes| == 2 then [S0(bytes[0]), S1(bytes[0], bytes[1]), S2(bytes[1], 0)]
    else [S0(bytes[0]), S1(bytes[0], bytes[1]), S2(bytes[1], bytes[2]), S3(bytes[2])] + Split(bytes[3..])
  }

  /** The bits of the last sextet that no byte needs are ignored. */
  function Join(s: seq<Sextet>): Option<seq<Byte>>
    decreases |s|
  {
    if s == [] then Some([])
    else if |s| == 1 then None
    else if |s| == 2 then Some([B0(s[0], s[1])])
    else if |s| == 3 then Some([B0(s[0], s[1]), B1(s[1], s[2])])
    else
      var rest := Join(s[4..]);
      if rest.None? then None else Some([B0(s[0], s[1]), B1(s[1], s[2]), B2(s[2], s[3])] + rest.value)
  }

  function Encode(bytes: seq<Byte>): (text: string)
    ensures AllAlphabet(text)
  {
    Chars(Split(bytes))
  }

  /** The library's decoder. */
  function Decode(text: string): (bytes: Option<seq<Byte>>)
    requires AllAlphabet(text)
  {
    Join(Sextets(text))
  }

  /** A possible length, and no stray bits at the end. */
  predicate Whole(s: seq<Sextet>) {
    && |s| % 4 != 1
    && (|s| % 4 == 2 ==> s[|s| - 1] % 16 == 0)
    && (|s| % 4 == 3 ==> s[|s| - 1] % 4 == 0)
  }

  /** The texts that are some bytes' encoding. */
  predicate Canonical(text: string) {
    AllAlphabet(text) && Whole(Sextets(text))
  }

  lemma Regroup(a: Byte, b: Byte, c: Byte)
    ensures B0(S0(a), S1(a, b)) == a && B1(S1(a, b), S2(b, c)) == b && B2(S2(b, c), S3(c)) == c
    ensures S1(a, 0) % 16 == 0 && S2(b, 0) % 4 == 0
  {
  }

  lemma Resplit(s0: Sextet, s1: Sextet, s2: Sextet, s3: Sextet)
    ensures S0(B0(s0, s1)) == s0 && S1(B0(s0, s1), B1(s1, s2)) == s1
    ensures S2(B1(s1, s2), B2(s2, s3)) == s2 && S3(B2(s2, s3)) == s3
    ensures s1 % 16 == 0 ==> S1(B0(s0, s1), 0) == s1
    ensures s2 % 4 == 0 ==> S2(B1(s1, s2), 0) == s2
  {
  }

  lemma {:induction false} JoinSplit(bytes: seq<Byte>)
    ensures Join(Split(bytes)) == Some(bytes)
    decreases |bytes|
  {
    hide S0, S1, S2, S3, B0, B1, B2;
    if |bytes| == 1 {
      Regroup(bytes[0], 0, 0);
      assert bytes == [bytes[0]];
    } else if |bytes| == 2 {
      Regroup(bytes[0], bytes[1], 0);
      assert bytes == [bytes[0], bytes[1]];
    } else if |bytes| >= 3 {
      JoinSplit(bytes[3..]);
      Regroup(bytes[0], bytes[1], bytes[2]);
      var rest := Split(bytes[3..]);
      assert Split(bytes)[4..] == rest;
      assert bytes == [bytes[0], bytes[1], bytes[2]] + bytes[3..];
    }
  }

  lemma {:induction false} SplitIsWhole(bytes: seq<Byte>)
    ensures Whole(Split(bytes)) && |Split(bytes)| == (4 * |bytes| + 2) / 3
    decreases |bytes|
  {
    hide S0, S1, S2, S3;
    if 1 <= |bytes| < 3 {
      Regroup(bytes[0], bytes[|bytes| - 1], 0);
    } else if |bytes| >= 3 {
      SplitIsWhole(bytes[3..]);
      var rest := Split(bytes[3..]);
      assert rest != [] ==> Split(bytes)[|rest| + 3] == rest[|rest| - 1];
    }
  }

  lemma {:induction false} SplitJoin(s: seq<Sextet>)
    requires Whole(s)
    ensures Join(s).Some? && Split(Join(s).value) == s
    decreases |s|
  {
    hide S0, S1, S2, S3, B0, B1, B2;
    if |s| == 2 {
      Resplit(s[0], s[1], 0, 0);
      assert s == [s[0], s[1]];
    } else if |s| == 3 {
      Resplit(s[0], s[1], s[2], 0);
      assert s == [s[0], s[1], s[2]];
    } else if |s| >= 4 {
      assert |s| > 4 ==> s[4..][|s| - 5] == s[|s| - 1];
      SplitJoin(s[4..]);
      Resplit(s[0], s[1], s[2], s[3]);
      assert Join(s).value[3..] == Join(s[4..]).value;
      assert s == [s[0], s[1], s[2], s[3]] + s[4..];
    }
  }

  lemma CharsAreSextets(text: string, sextets: seq<Sextet>)
    ensures Sextets(Chars(sextets)) == sextets
    ensures AllAlphabet(text) ==> Chars(Sextets(text)) == text
  {
    forall i | 0 <= i < |text| && IsAlphabet(text[i])
      ensures CharOf(SextetOf(text[i])) == text[i]
    {
      CharOfSextet(text[i]);
    }
  }

  /** Decoding undoes encoding, and every encoding is canonical. */
  lemma DecodeEncoded(bytes: seq<Byte>)
    ensures Decode(Encode(bytes)) == Some(bytes) && Canonical(Encode(bytes)) && |Encode(bytes)| == (4 * |bytes| + 2) / 3
  {
    JoinSplit(bytes);
    SplitIsWhole(bytes);
    CharsAreSextets([], Split(bytes));
  }

  /** Decoding and encoding again gives the text back exactly when the text was canonical. */
  lemma SurvivesIff(text: string)
    requires AllAlphabet(text)
    ensures Decode(text).Some? && Encode(Decode(text).value) == text <==> Canonical(text)
  {
    if Canonical(text) {
      SplitJoin(Sextets(text));
      CharsAreSextets(text, []);
    } else if Decode(text).Some? {
      DecodeEncoded(Decode(text).value);
    }
  }

  // ---------------------------------------------------------------- known texts

  /** The test vectors of section 10 of RFC 4648, without padding, and the two letters that are this alphabet's own. */
  lemma KnownEncodings()
    ensures Encode([]) == ""
    ensures Encode([102]) == "Zg" && Encode([102, 111]) == "Zm8" && Encode([102, 111, 111]) == "Zm9v"
    ensures Encode([102, 111, 111, 98]) == "Zm9vYg" && Encode([102, 111, 111, 98, 97]) == "Zm9vYmE"
    ensures Encode([102, 111, 111, 98, 97, 114]) == "Zm9vYmFy"
    ensures Encode([251, 255]) == "-_8"
  {
    assert Split([102, 111, 111, 98]) == [25, 38, 61, 47, 24, 32];
    assert Split([102, 111, 111, 98, 97]) == [25, 38, 61, 47, 24, 38, 4];
    assert Split([102, 111, 111, 98, 97, 114]) == [25, 38, 61, 47, 24, 38, 5, 50];
  }
}
