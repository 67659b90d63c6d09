/**
 The signed cursor of the payment history: a compact JSON payload and its MAC, in base64url.
 The MAC is any function with 32 bytes of output.
 */
module Cursor {
  import opened Common
  import opened Text
  import opened Calendar
  import opened FlatJson
  import Base64

  type Byte = Base64.Byte

  type Mac = seq<Byte> -> seq<Byte>

  const MAC_SIZE := 32
  const MAX_CURSOR := 512
  const MAX_PAYLOAD := 256
  const MAX_ID := 2_147_483_647

  datatype CursorError = InvalidArgument | InvalidCursor

  /** A timezone-aware date is a civil date and its offset from UTC, in microseconds. */
  datatype DateTime = DateTime(civil: Civil, offset: Option<int>)

  datatype PaymentCursor = PaymentCursor(user: int, created: Civil, id: int)

  datatype Envelope = Envelope(payload: seq<Byte>, signature: seq<Byte>)

  predicate DatabaseId(id: int) {
    1 <= id <= MAX_ID
  }

  ghost predicate IsMac(sign: Mac) {
    forall payload :: |sign(payload)| == MAC_SIZE
  }

  /** `_normalize_datetime`. */
  function ToUtc(t: DateTime): Option<Civil> {
    if t.offset.None? || !ValidCivil(t.civil) then None else FromInstant(Instant(t.civil) - t.offset.value)
  }

  // ---------------------------------------------------------------- bytes of ASCII text

  predicate Ascii(s: string) {
    forall i :: 0 <= i < |s| ==> s[i] as int < 128
  }

  function ToBytes(s: string): (b: seq<Byte>)
    requires Ascii(s)
    ensures |b| == |s|
  {
    seq(|s|, i requires 0 <= i < |s| => s[i] as int)
  }

  /** Text with any other byte in it is refused here or by the reader of the payload. */
  function FromBytes(b: seq<Byte>): Option<string> {
    if forall i :: 0 <= i < |b| ==> b[i] < 128 then
      Some(seq(|b|, i requires 0 <= i < |b| => CharOfByte(b[i])))
    else None
  }

  function CharOfByte(b: Byte): char {
    (b as int) as char
  }

  // ---------------------------------------------------------------- encoding

  function Members(c: PaymentCursor): seq<Member> {
    [Member("c", Str(Iso(c.created))), Member("i", Num(c.id)), Member("u", Num(c.user)), Member("v", Num(1))]
  }

  function PayloadText(c: PaymentCursor): string {
    PrintObject(Members(c))
  }

  predicate ValidCursor(c: PaymentCursor) {
    DatabaseId(c.user) && DatabaseId(c.id) && ValidCivil(c.created)
  }

  lemma PayloadIsAscii(c: PaymentCursor)
    requires ValidCursor(c)
    ensures Ascii(PayloadText(c)) && 1 <= |PayloadText(c)| <= 76
  {
    hide Iso, PrintMembers;
    var m := Members(c);
    IsoIsPlain(c.created);
    ShortDigits(c.id);
    ShortDigits(c.user);
    ShortDigits(1);
    assert |Print(1)| == 1;
    MemberIsAscii(m[0], 34);
    MemberIsAscii(m[1], 10);
    MemberIsAscii(m[2], 10);
    MemberIsAscii(m[3], 1);
    assert m == [m[0], m[1], m[2], m[3]];
    FourMembers(m[0], m[1], m[2], m[3]);
  }

  lemma MemberIsAscii(m: Member, width: nat)
    requires |m.key| == 1 && Ascii(m.key) && Ascii(PrintValue(m.value)) && |PrintValue(m.value)| <= width
    ensures Ascii(PrintMember(m)) && |PrintMember(m)| <= width + 4
  {
    hide PrintValue;
  }

  lemma FourMembers(a: Member, b: Member, c: Member, d: Member)
    ensures PrintMembers([a, b, c, d])
            == PrintMember(a) + [','] + (PrintMember(b) + [','] + (PrintMember(c) + [','] + (PrintMember(d) + ['}'])))
  {
    hide PrintMember;
    assert [a, b, c, d][1..] == [b, c, d] && [b, c, d][1..] == [c, d] && [c, d][1..] == [d];
    assert PrintMembers([c, d]) == PrintMember(c) + [','] + PrintMembers([d]);
    assert PrintMembers([b, c, d]) == PrintMember(b) + [','] + PrintMembers([c, d]);
  }

  lemma ShortDigits(n: int)
    requires 0 <= n < 10_000_000_000
    ensures 1 <= |Print(n)| <= 10 && AllDigits(Print(n))
  {
    DigitsBelow(n, 10);
    assert Pow10(10) == 10_000_000_000 by { assert Pow10(5) == 100_000; }
  }

  lemma {:induction false} DigitsBelow(n: nat, width: nat)
    requires n < Pow10(width) && width >= 1
    ensures |Digits(n)| <= width
  {
    if n >= 10 {
      DigitsBelow(n / 10, width - 1);
    }
  }

  function EnvelopeOf(c: PaymentCursor, sign: Mac): seq<Byte>
    requires ValidCursor(c)
  {
    PayloadIsAscii(c);
    ToBytes(PayloadText(c)) + sign(ToBytes(PayloadText(c)))
  }

  function Encode(user: int, created: DateTime, id: int, sign: Mac): Result<string, CursorError> {
    if !DatabaseId(user) || !DatabaseId(id) || ToUtc(created).None? then Err(InvalidArgument)
    else Ok(Base64.Encode(EnvelopeOf(PaymentCursor(user, ToUtc(created).value, id), sign)))
  }

  // ---------------------------------------------------------------- decoding

  /** `_decode_envelope`. */
  function DecodeEnvelope(text: string): Option<Envelope> {
    if text == [] || |text| > MAX_CURSOR || !Base64.AllAlphabet(text) then None
    else
      var bytes := Base64.Decode(text);
      if bytes.None? || Base64.Encode(bytes.value) != text then None
      else if !(MAC_SIZE < |bytes.value| <= MAC_SIZE + MAX_PAYLOAD) then None
      else
        var n := |bytes.value| - MAC_SIZE;
        Some(Envelope(bytes.value[..n], bytes.value[n..]))
  }

  /** `_decode_payload` and the type checks that follow it. */
  function DecodePayload(payload: seq<Byte>): Option<PaymentCursor> {
    var text := FromBytes(payload);
    if text.None? then None
    else
      var members := ReadObject(text.value);
      if members.None? || !UniqueKeys(members.value) || Keys(members.value) != {"v", "u", "c", "i"} then None
      else
        var version := Lookup(members.value, "v");
        var user := Lookup(members.value, "u");
        var created := Lookup(members.value, "c");
        var id := Lookup(members.value, "i");
        if version != Num(1) || !user.Num? || !id.Num? || !created.Str? then None
        else if !DatabaseId(user.n) || !DatabaseId(id.n) || ParseIso(created.text).None? then None
        else Some(PaymentCursor(user.n, ParseIso(created.text).value, id.n))
  }

  function Decode(text: string, expected: int, sign: Mac): Result<PaymentCursor, CursorError> {
    if !DatabaseId(expected) then Err(InvalidCursor)
    else
      var envelope := DecodeEnvelope(text);
      if envelope.None? || envelope.value.signature != sign(envelope.value.payload) then Err(InvalidCursor)
      else
        var cursor := DecodePayload(envelope.value.payload);
        if cursor.None? || cursor.value.user != expected then Err(InvalidCursor) else Ok(cursor.value)
  }

  // ---------------------------------------------------------------- properties

  /** The accepted envelopes are exactly the canonical texts of 33 to 288 bytes, 44 to 384 characters long. */
  lemma EnvelopeAcceptedIff(text: string)
    ensures DecodeEnvelope(text).Some? <==> Base64.Canonical(text) && 44 <= |text| <= 384
    ensures DecodeEnvelope(text).Some? ==>
              && Base64.Encode(DecodeEnvelope(text).value.payload + DecodeEnvelope(text).value.signature) == text
              && |DecodeEnvelope(text).value.signature| == MAC_SIZE && 1 <= |DecodeEnvelope(text).value.payload| <= MAX_PAYLOAD
  {
    if Base64.AllAlphabet(text) {
      Base64.SurvivesIff(text);
      if Base64.Decode(text).Some? {
        var bytes := Base64.Decode(text).value;
        Base64.DecodeEncoded(bytes);
        if |bytes| >= MAC_SIZE {
          assert bytes == bytes[..|bytes| - MAC_SIZE] + bytes[|bytes| - MAC_SIZE..];
        }
      }
    }
  }

  /** An envelope is read back from its text. */
  lemma EnvelopeRoundTrip(payload: seq<Byte>, signature: seq<Byte>)
    requires 1 <= |payload| <= MAX_PAYLOAD && |signature| == MAC_SIZE
    ensures DecodeEnvelope(Base64.Encode(payload + signature)) == Some(Envelope(payload, signature))
  {
    var bytes := payload + signature;
    Base64.DecodeEncoded(bytes);
    assert bytes[..|payload|] == payload && bytes[|payload|..] == signature;
  }

  lemma BytesRoundTrip(s: string)
    requires Ascii(s)
    ensures FromBytes(ToBytes(s)) == Some(s)
  {
    assert FromBytes(ToBytes(s)).value == s;
  }

  /** Bytes are text exactly when they are its bytes, and no text exactly when one of them is not below 128. */
  lemma FromBytesIff(b: seq<Byte>, s: string)
    ensures FromBytes(b) == Some(s) <==> Ascii(s) && ToBytes(s) == b
    ensures FromBytes(b).None? <==> exists i :: 0 <= i < |b| && b[i] >= 128
  {
    if FromBytes(b) == Some(s) {
      assert forall i :: 0 <= i < |s| ==> s[i] as int == b[i];
    }
    if Ascii(s) && ToBytes(s) == b {
      BytesRoundTrip(s);
    }
  }

  lemma PayloadRoundTrip(c: PaymentCursor)
    requires ValidCursor(c)
    ensures Ascii(PayloadText(c)) && DecodePayload(ToBytes(PayloadText(c))) == Some(c)
  {
    hide Iso, ParseIso, ReadObject, PrintObject, FromBytes, ToBytes;
    PayloadIsAscii(c);
    BytesRoundTrip(PayloadText(c));
    var m := Members(c);
    PrintableIso(c.created);
    ReadPrintedObject(m);
    ParseIsoIff(Iso(c.created), c.created);
    assert Keys(m) == {"v", "u", "c", "i"} by {
      assert m[0].key == "c" && m[1].key == "i" && m[2].key == "u" && m[3].key == "v";
    }
    LookupAt(m, 0);
    LookupAt(m, 1);
    LookupAt(m, 2);
    LookupAt(m, 3);
  }

  lemma PrintableIso(c: Civil)
    ensures Plain(Iso(c))
  {
    IsoIsPlain(c);
  }

  lemma {:induction false} LookupAt(members: seq<Member>, i: nat)
    requires UniqueKeys(members) && i < |members|
    ensures members[i].key in Keys(members) && Lookup(members, members[i].key) == members[i].value
    decreases |members|
  {
    if i > 0 {
      LookupAt(members[1..], i - 1);
    }
  }

  /** The payload that is signed, letter by letter. */
  lemma PayloadLooksLike(c: PaymentCursor)
    ensures PayloadText(c)
            == "{\"c\":\"" + Iso(c.created) + "\",\"i\":" + Print(c.id) + ",\"u\":" + Print(c.user) + ",\"v\":1}"
  {
    hide Iso, Print, PrintMember, PrintMembers;
    var m := Members(c);
    assert m == [m[0], m[1], m[2], m[3]];
    FourMembers(m[0], m[1], m[2], m[3]);
    MembersLookLike(c);
    Together(Iso(c.created), Print(c.id), Print(c.user));
  }

  /** The same text, however it is put together. */
  lemma Together(created: string, id: string, user: string)
    ensures ['{'] + (("\"c\":\"" + created + "\"") + [','] + (("\"i\":" + id) + [','] + (("\"u\":" + user) + [','] + ("\"v\":1" + ['}']))))
            == "{\"c\":\"" + created + "\",\"i\":" + id + ",\"u\":" + user + ",\"v\":1}"
  {
    var fourth := ",\"v\":1}";
    var third := ",\"u\":" + user + fourth;
    var second := "\",\"i\":" + id + third;
    assert [','] + ("\"v\":1" + ['}']) == fourth;
    assert [','] + (("\"u\":" + user) + fourth) == third;
    assert "\"" + ([','] + (("\"i\":" + id) + third)) == second;
    assert ['{'] + ("\"c\":\"" + created + second) == "{\"c\":\"" + created + second;
    assert ("\"u\":" + user) + [','] + ("\"v\":1" + ['}']) == ("\"u\":" + user) + fourth;
    assert ("\"i\":" + id) + [','] + (("\"u\":" + user) + fourth) == ("\"i\":" + id) + third;
    assert ("\"c\":\"" + created + "\"") + [','] + (("\"i\":" + id) + third) == "\"c\":\"" + created + second;
  }

  lemma MembersLookLike(c: PaymentCursor)
    ensures PrintMember(Member("c", Str(Iso(c.created)))) == "\"c\":\"" + Iso(c.created) + "\""
    ensures PrintMember(Member("i", Num(c.id))) == "\"i\":" + Print(c.id)
    ensures PrintMember(Member("u", Num(c.user))) == "\"u\":" + Print(c.user)
    ensures PrintMember(Member("v", Num(1))) == "\"v\":1"
  {
    hide Iso;
    assert Print(1) == "1";
  }

  /** The members that `encode` writes for `c`, each once, in any order. */
  predicate Rearranged(members: seq<Member>, c: PaymentCursor) {
    multiset(members) == multiset{Member("v", Num(1)), Member("u", Num(c.user)), Member("c", Str(Iso(c.created))), Member("i", Num(c.id))}
  }

  /** A payload is accepted for a cursor if and only if it is an object of exactly the members that `encode` writes for it. */
  lemma DecodePayloadIff(payload: seq<Byte>, c: PaymentCursor)
    ensures DecodePayload(payload) == Some(c) <==>
              ValidCursor(c) && FromBytes(payload).Some? && ReadObject(FromBytes(payload).value).Some?
              && Rearranged(ReadObject(FromBytes(payload).value).value, c)
  {
    hide FromBytes, ReadObject, Iso, ParseIso;
    if FromBytes(payload).Some? && ReadObject(FromBytes(payload).value).Some? {
      var members := ReadObject(FromBytes(payload).value).value;
      if Rearranged(members, c) {
        RearrangedReads(members, c);
        ParseIsoIff(Iso(c.created), c.created);
      }
      if DecodePayload(payload) == Some(c) {
        var created := Lookup(members, "c");
        ParseIsoIff(created.text, c.created);
        ReadsRearranged(members, c);
      }
    }
  }

  lemma OneOfEach(members: seq<Member>, c: PaymentCursor)
    requires Rearranged(members, c)
    ensures UniqueKeys(members)
  {
    hide Iso;
    forall i, j | 0 <= i < j < |members|
      ensures members[i].key != members[j].key
    {
      assert members[i] in multiset(members) && members[j] in multiset(members);
      if members[i] == members[j] {
        CountTwice(members, i, j);
      }
    }
  }

  lemma ReadsMember(members: seq<Member>, m: Member)
    requires UniqueKeys(members) && m in members
    ensures m.key in Keys(members) && Lookup(members, m.key) == m.value
  {
    var i :| 0 <= i < |members| && members[i] == m;
    LookupAt(members, i);
  }

  lemma RearrangedReads(members: seq<Member>, c: PaymentCursor)
    requires Rearranged(members, c)
    ensures UniqueKeys(members) && Keys(members) == {"v", "u", "c", "i"}
    ensures Lookup(members, "v") == Num(1) && Lookup(members, "u") == Num(c.user)
    ensures Lookup(members, "c") == Str(Iso(c.created)) && Lookup(members, "i") == Num(c.id)
  {
    hide Iso, UniqueKeys, Lookup;
    OneOfEach(members, c);
    assert forall m :: m in members <==> m in multiset(members);
    ReadsMember(members, Member("v", Num(1)));
    ReadsMember(members, Member("u", Num(c.user)));
    ReadsMember(members, Member("c", Str(Iso(c.created))));
    ReadsMember(members, Member("i", Num(c.id)));
    forall key | key in Keys(members)
      ensures key in {"v", "u", "c", "i"}
    {
      var i :| 0 <= i < |members| && members[i].key == key;
      assert members[i] in multiset(members);
    }
  }

  lemma CountTwice(members: seq<Member>, i: nat, j: nat)
    requires i < j < |members| && members[i] == members[j]
    ensures multiset(members)[members[i]] >= 2
  {
    assert members == members[..i] + ([members[i]] + (members[i + 1..j] + ([members[j]] + members[j + 1..])));
  }

  lemma ReadsRearranged(members: seq<Member>, c: PaymentCursor)
    requires UniqueKeys(members) && Keys(members) == {"v", "u", "c", "i"}
    requires Lookup(members, "v") == Num(1) && Lookup(members, "u") == Num(c.user)
    requires Lookup(members, "c") == Str(Iso(c.created)) && Lookup(members, "i") == Num(c.id)
    ensures Rearranged(members, c)
  {
    hide Iso;
    var all := multiset{Member("v", Num(1)), Member("u", Num(c.user)), Member("c", Str(Iso(c.created))), Member("i", Num(c.id))};
    forall m: Member
      ensures multiset(members)[m] == all[m]
    {
      UniqueMembers(members, m);
      if m in members {
        var i :| 0 <= i < |members| && members[i] == m;
        LookupAt(members, i);
      } else if m in all {
        assert m.key in Keys(members);
        var i :| 0 <= i < |members| && members[i].key == m.key;
        LookupAt(members, i);
      }
    }
  }

  lemma {:induction false} UniqueMembers(members: seq<Member>, m: Member)
    requires UniqueKeys(members)
    ensures multiset(members)[m] == if m in members then 1 else 0
    decreases |members|
  {
    if members != [] {
      UniqueMembers(members[1..], m);
      assert members == [members[0]] + members[1..];
    }
  }

  /** Decoding an encoded cursor gives the user, the transaction and the same instant in UTC; for anyone else it fails. */
  lemma CursorRoundTrip(user: int, created: DateTime, id: int, expected: int, sign: Mac)
    requires IsMac(sign) && Encode(user, created, id, sign).Ok?
    ensures var text := Encode(user, created, id, sign).value;
            && |text| <= 144
            && Decode(text, expected, sign)
               == if expected == user then Ok(PaymentCursor(user, ToUtc(created).value, id)) else Err(InvalidCursor)
    ensures Instant(ToUtc(created).value) == Instant(created.civil) - created.offset.value
  {
    var c := PaymentCursor(user, ToUtc(created).value, id);
    PayloadIsAscii(c);
    PayloadRoundTrip(c);
    var payload := ToBytes(PayloadText(c));
    EnvelopeRoundTrip(payload, sign(payload));
    Base64.DecodeEncoded(payload + sign(payload));
  }

  /** Encoding fails exactly for ids that are not positive 32-bit integers and dates without a place in UTC. */
  lemma EncodesIff(user: int, created: DateTime, id: int, sign: Mac)
    requires ValidCivil(created.civil)
    ensures Encode(user, created, id, sign).Ok? <==>
              && 1 <= user <= MAX_ID && 1 <= id <= MAX_ID && created.offset.Some?
              && 0 <= Instant(created.civil) - created.offset.value < DaysBeforeYear(MAX_YEAR + 1) * DAY
  {
  }

  /** Different users, transactions or instants have different cursors. */
  lemma CursorsDiffer(user: int, created: DateTime, id: int, user': int, created': DateTime, id': int, sign: Mac)
    requires IsMac(sign)
    ensures var text := Encode(user, created, id, sign);
            text.Ok? && text == Encode(user', created', id', sign) ==>
              && user == user' && id == id' && ToUtc(created).Some? && ToUtc(created) == ToUtc(created')
  {
    hide Encode, Decode, ToUtc;
    var text := Encode(user, created, id, sign);
    if text.Ok? && text == Encode(user', created', id', sign) {
      CursorRoundTrip(user, created, id, user, sign);
      CursorRoundTrip(user', created', id', user, sign);
      EncodedMeansValid(user', created', id', sign);
      EncodedMeansValid(user, created, id, sign);
    }
  }

  lemma EncodedMeansValid(user: int, created: DateTime, id: int, sign: Mac)
    requires Encode(user, created, id, sign).Ok?
    ensures ToUtc(created).Some? && ValidCivil(created.civil) && created.offset.Some?
  {
  }

  /** What is accepted is well formed, addressed to its reader, and carries the MAC of its own payload. */
  lemma AcceptedIsSigned(text: string, expected: int, sign: Mac)
    ensures var r := Decode(text, expected, sign);
            r.Ok? ==>
              && ValidCursor(r.value) && r.value.user == expected
              && Base64.Canonical(text) && 44 <= |text| <= 384
              && exists payload ::
                   DecodePayload(payload) == Some(r.value) && text == Base64.Encode(payload + sign(payload))
  {
    hide DecodePayload;
    if Decode(text, expected, sign).Ok? {
      EnvelopeAcceptedIff(text);
      var payload := DecodeEnvelope(text).value.payload;
      DecodedIsValid(payload);
      assert text == Base64.Encode(payload + sign(payload));
    }
  }

  lemma DecodedIsValid(payload: seq<Byte>)
    ensures DecodePayload(payload).Some? ==> ValidCursor(DecodePayload(payload).value)
  {
    if DecodePayload(payload).Some? {
      var members := ReadObject(FromBytes(payload).value).value;
      var created := Lookup(members, "c");
      ParseIsoIff(created.text, ParseIso(created.text).value);
    }
  }

  /** A cursor whose payload is one that `encode` signs is accepted in one spelling only: the one `encode` gave out. */
  lemma OneSpelling(text: string, c: PaymentCursor, sign: Mac)
    requires IsMac(sign) && ValidCursor(c)
    ensures Ascii(PayloadText(c))
    ensures DecodeEnvelope(text).Some? && DecodeEnvelope(text).value.payload == ToBytes(PayloadText(c)) ==>
              (Decode(text, c.user, sign).Ok? <==> text == Base64.Encode(EnvelopeOf(c, sign)))
  {
    hide DecodePayload, FromBytes, ToBytes, PayloadText;
    PayloadIsAscii(c);
    PayloadRoundTrip(c);
    if DecodeEnvelope(text).Some? && DecodeEnvelope(text).value.payload == ToBytes(PayloadText(c)) {
      EnvelopeAcceptedIff(text);
      var payload := ToBytes(PayloadText(c));
      EnvelopeRoundTrip(payload, sign(payload));
    }
  }
}
